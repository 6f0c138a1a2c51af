# A model of the block request path and three crypto routines

This project models the request path of the Linux block layer: bios are throttled, merged into requests, sorted,
dispatched, tagged, flushed and completed. It proves what that code keeps over whole runs. A small group of crypto
routines (AES, Anubis and the counter increment) is modelled beside it.

| file | models |
|---|---|
| `ThrottleSlice.dfy` | slice arithmetic of block/blk-throttle.c and its rate bound |
| `ThrottleExact.dfy` | when bios are admitted and what trims take off, in plain multiplication |
| `ThrottleDispatch.dfy` | bio queues, service tree and dispatch round of block/blk-throttle.c |
| `Segments.dfy` | segment counts and merges of block/blk-merge.c |
| `SegmentLoops.dfy` | its counting and scatter-gather loops, and requests merged in place |
| `MergePath.dfy` | the merge arms of `__make_request`, `attempt_merge` and the merge hash |
| `MergeBooks.dfy` | what the merge path does to the bios |
| `Completion.dfy` | `blk_update_request` |
| `Flush.dfy` | the FLUSH/FUA sequencer against a device with a volatile cache |
| `FlushOrder.dfy` | in which order flushes come and what they cover |
| `RequestPool.dfy` | `get_request`, its failure path, freeing and waiting |
| `Deadline.dfy` | the deadline scheduler |
| `DeadlineOrder.dfy` | which request it sends next |
| `DeadlineLatency.dfy` | how long reads and writes wait in it |
| `DispatchSort.dfy` | `elv_dispatch_sort` |
| `CfqCooperators.dfy` | links and references of cooperating CFQ queues |
| `CfqSharing.dfy` | what shared io contexts do to those references |
| `Tags.dfy` | shared tag maps |
| `TagResize.dfy` | what a resize does to outstanding tags |
| `Aes.dfy`, `Anubis.dfy`, `CounterIncrement.dfy` | the crypto routines |
| `CipherFields.dfy` | both ciphers by fields, matrices, rows and columns |
| `Common.dfy` | the option type |

Each file has the same build. Values and functions say what one locked region does to the state. Lemmas show what
every region keeps, and from that what holds in every state of every run. Classes do the same work in place, with
the loops of the source, and are proved against those functions. Time is a natural number that does not go back; a
region under the queue lock is one step; a search tree is the sorted sequence of its nodes. What the code asks of
others (whether vectors may share a segment, in which order a scheduler hands over what it has, whether memory is
there) is left open and quantified over. Every lemma switches automatic induction off, so that each proof is the one
that is written down.

Some promises turned out not to hold as they are usually put. Each has a concrete counterexample and the exact
condition under which it does hold:

- The wait reported by the byte check of the throttle can be too short (`BpsWaitCanFallShort`,
  `BpsWaitSufficesIff`). The wait reported by the IO check is long enough (`IopsWaitSuffices`).
- Completing a request in two parts leaves a different `__sector` than completing it at once when the second part
  finishes it, because the finishing call returns before the sector is moved (`SectorDiffers`, `UpdateTwice`).
- After a completion that ends inside a sector the bytes left go to other places on the disk than before
  (`PlacesKept`).
- Flushes that are put off come back in order (`PendingIsFifo`), but need not start in it: one that has come back is
  overtaken by one submitted before the driver looks, and is put off again behind the others (`Overtaken`,
  `StartsNext`).
- The documented bound on read batches is computed with an unsigned comparison, so a negative `writes_starved`
  lets a write wait through 2^31 calls and more that serve reads (`WritesWait`, `BoundBroken`, `BoundHoldsIff`).
- With `writes_starved` zero an expired read can wait for ever (`ReadWaits`, `ReadsServedIff`).
- An expired read absorbed by a request with the same expiry can lose its place in the fifo, because the comparison
  is strict (`Absorbed`, `AbsorberFallsBehind`). Counted by expiry instead of by place there is a bound without
  exception (`ExpiredReadServed`).
- Growing a tag map can make it smaller. The new map is cut to twice `nr_requests`, which sysfs may have lowered
  since the old one was made. Outstanding tags can then lie beyond the map (`TagBeyondMap`); they all keep their slots
  exactly if the old map is no larger than that (`GrowKeepsIff`). The bits are copied in whole words, so a tag beyond
  the map is given out again only if its word was dropped (`TwoHoldOneTag`, `NoTagTwice`, `NoneFreedIff`).
- Process references of CFQ queues are not always processes. A task that dropped the lock to allocate a queue takes a
  reference on the one that another task of its io context has set meanwhile, and nobody gives that back (`SharedRun`,
  `NeverFreed`). The references are the contexts exactly if no two tasks share one (`AlwaysBalancedIff`). The test for
  process references at block/cfq-iosched.c:2056 then also fails to guard the walk behind it (`StrayLink`,
  `AlwaysSafeIff`).
- A sleeper of a class that is marked starved is woken by the other class only if that has a request out; an
  allocation that fails in an empty pool leaves one that nothing but a new request helps (`EmptyPoolSleeps`,
  `WakeIff`).
- Without any request the allocator forgets sleepers; one request is enough (`ZeroForgets`, `NeedsOneRequest`). The
  sysfs store at block/blk-sysfs.c:50-51 never sets fewer than four.

Where a comment and the code disagree, the code is modelled:

- The comment at block/blk-tag.c:290-293 says that a tag can lie beyond the map after the depth was reduced. Reducing
  the depth only sets the limit and leaves the map as it is (`ResizeKeepsTags`). A tag lies beyond the map only after
  a grow that installed a smaller one (`TagsAreSafe`, `TagBeyondMap`).

## Model

| member | source | states |
|---|---|---|
| `ThrottleSlice.RateBound` | block/blk-throttle.c:359-616 | in every run of examinations, submissions and dispatches of one direction, the bytes charged since the first slice opened are at most bps*(t - t0 + slice)/HZ, through every restart, extension and trim, for bio sizes of 32 bits; the IOs are at most iops*(t - t0 + slice)/HZ as long as the 32-bit IO counter is never at its top; the 64-bit products may wrap |
| `ThrottleSlice.RunBacked` | block/blk-throttle.c:359-616 | every run keeps the ledger: what was charged before the current slice is paid for by the time before it, and the slice's own counters by the time in it |
| `ThrottleSlice.StepBacked` | block/blk-throttle.c:551-616 | one examination, submission or dispatch keeps the ledger |
| `ThrottleSlice.FirstStepBacked` | block/blk-throttle.c:359-368 | the zeroed counters of a new group open their first slice at the first examination and start a balanced ledger there |
| `ThrottleSlice.MayDispatchBacked` | block/blk-throttle.c:551-600 | examining a bio restarts or extends the slice without unbalancing the ledger, and leaves the slice open at least one interval longer |
| `ThrottleSlice.AdmittedBytes` | block/blk-throttle.c:505-545 | the bytes of a bio the byte check admits fit what the elapsed rounded time has paid for, whatever the IO counter holds, and the byte counter does not wrap |
| `ThrottleSlice.AdmittedIo` | block/blk-throttle.c:455-503 | an IO the IO check admits fits what that time has paid for, unless the IO counter is at its top |
| `ThrottleSlice.ChargeBacked` | block/blk-throttle.c:602-616 | charging an admitted bio keeps the ledger |
| `ThrottleSlice.TrimBacked` | block/blk-throttle.c:396-453 | trimming keeps the ledger: no more comes off the counters than the rate paid for in the slices taken off the start; what exactly comes off is in `ThrottleExact.TrimIs` |
| `ThrottleSlice.BackedBound` | block/blk-throttle.c:359-453 | a balanced ledger implies the rate bound at the present time |
| `ThrottleSlice.IopsWaitSuffices` | block/blk-throttle.c:455-503 | a bio that passes the byte check and fails the IO check finds its slice still open, and is admitted, when it is looked at again after the reported wait with nothing charged in between |
| `ThrottleSlice.BpsWaitSufficesIff` | block/blk-throttle.c:505-600 | a bio refused by the byte check is looked at again, on the lane the first examination left, when the reported wait is over: the slice is still open, and the bio is admitted exactly if the wait was long enough (no slice was rounded off it, or no more than was rounded off the allowance) and the IO check has no objection |
| `ThrottleSlice.ByteWaitIff` | block/blk-throttle.c:505-545 | the same for the byte check alone |
| `ThrottleSlice.BpsWaitCanFallShort` | block/blk-throttle.c:505-600 | a new group with 2500 bytes a second at HZ 100: a bio of one sector is told to wait 20 ticks and refused again after them |
| `ThrottleSlice.WithinBps` | block/blk-throttle.c:505-545 | a refusal always reports a wait of at least one tick, an acceptance none |
| `ThrottleSlice.WithinIops` | block/blk-throttle.c:455-503 | a refusal always reports a wait of at least one tick, an acceptance none |
| `ThrottleSlice.Ratio` | block/blk-throttle.c:455-549 | what rate*time buys, computed in machine words, never exceeds the true ratio, wrapped or not |
| `ThrottleSlice.MayDispatchAgain` | block/blk-throttle.c:551-600 | examining the same bio twice at one time gives the same verdict and changes nothing the second time |
| `ThrottleSlice.RefusalWaits` | block/blk-throttle.c:551-600 | a refused bio is told to wait at least one tick |
| `ThrottleExact.AdmittedIff` | block/blk-throttle.c:551-600 | a bio is admitted exactly if its bytes with those charged to the open slice, and its IO with those charged, fit the time since the slice began, counted in whole slices; if the slice is over, a new one with nothing charged begins now; counters and start stay |
| `ThrottleExact.IopsWaitTight` | block/blk-throttle.c:455-503 | the wait of a refused IO ends at most one tick after the rate has paid for it |
| `ThrottleExact.BpsWaitTight` | block/blk-throttle.c:505-545 | the wait of refused bytes ends before the rate has paid for one byte more, or one tick after the slice that is counted already |
| `ThrottleExact.TrimIs` | block/blk-throttle.c:396-453 | trimming an open slice takes off the counters, as far as they go, exactly what the rate pays for in all the whole slices gone by, and moves the start by all of them, unless they pay for nothing; the slice ends at the next multiple that leaves one more |
| `ThrottleExact.TrimmedAdmits` | block/blk-throttle.c:396-600 | on the lane a trim leaves, a bio is admitted exactly if it and what the trim left fit the time since the new start |
| `ThrottleExact.RunWindow` | block/blk-throttle.c:359-616 | in every run, what is charged to the open slice was charged since some time, less what the rate paid for from then to the start of the slice |
| `ThrottleExact.RefusedIsSpent` | block/blk-throttle.c:359-616 | in every run a bio is refused only if, since some time, what was charged and the bio come to more bytes or more IOs than the rate pays for, but for one unit in each slice: no trim or restart takes away what was paid for |
| `ThrottleDispatch.ThrotlData.SelectDispatch` | block/blk-throttle.c:704-733 | with time standing still the round ends, dispatches at most throtl_quantum + throtl_grp_quantum - 1 bios, loses and duplicates none, keeps the resting invariant, and leaves no busy group due unless it stopped at the quantum; it is a chain of turns, each of which goes to a group that is due and due no later than any other |
| `ThrottleDispatch.ThrotlData.DispatchFirst` | block/blk-throttle.c:709-727 | one turn of its loop: a group that is due and due no later than any other sends its share and gets a new dispatch time if it has bios left; if nothing goes, one due group less is left |
| `ThrottleDispatch.ThrotlData.DispatchTg` | block/blk-throttle.c:671-702 | at most six reads and then at most two writes of a group go, from the front of their queues; fewer of a kind only if none is left or the next one is being held back |
| `ThrottleDispatch.ThrotlData.DispatchDir` | block/blk-throttle.c:671-702 | one of its two loops: bios go from the front, in order, each examined and charged |
| `ThrottleDispatch.ThrotlData.DispatchOneBio` | block/blk-throttle.c:651-669 | the first bio of a direction moves to the dispatch list, totals go down, the group is charged and trimmed |
| `ThrottleDispatch.ThrotlData.UpdateDisptime` | block/blk-throttle.c:631-649 | a busy group is moved to the time its sooner direction may go; the tree stays sorted and holds the same groups |
| `ThrottleDispatch.ThrotlData.AddBioTg` | block/blk-throttle.c:618-629 | the bio joins the tail of its queue, the totals go up, and the group is on the tree |
| `ThrottleDispatch.ThrotlData.ServiceTreeAdd` | block/blk-throttle.c:283-309 | the group goes behind all groups due no later and before all due later; the cached leftmost node stays null or the minimum |
| `ThrottleDispatch.ThrotlData.EnqueueTg` | block/blk-throttle.c:311-324 | a group off the tree is put on it once |
| `ThrottleDispatch.ThrotlData.DequeueTg` | block/blk-throttle.c:326-336 | a group on the tree leaves it, and the cached leftmost node is forgotten if it was that group |
| `ThrottleDispatch.Extract` | block/blk-throttle.c:264-270 | erasing a node leaves the other nodes in order |
| `ThrottleDispatch.ThrotlData.RbFirst` | block/blk-throttle.c:243-256 | the cached node, or the first of the tree, is the minimum |
| `ThrottleDispatch.ThrotlData.ScheduleNextDispatch` | block/blk-throttle.c:338-356 | the BUG_ON on an empty tree cannot fire: there is no delay exactly if no group is busy, and otherwise the delay reaches the soonest group |
| `ThrottleDispatch.ThrotlData.ThrotlBio` | block/blk-throttle.c:993-1048 | a bio that was throttled before passes and changes nothing; any other is queued exactly if bios of its direction wait or the limits hold it back, and is charged at once otherwise; the first in a direction gives the group a new dispatch time; other groups stay untouched, and the resting invariant (on the tree exactly when busy, totals equal list lengths, tree sorted, cached node null or minimal) is kept |
| `ThrottleDispatch.ThrotlData.constructor` | block/blk-throttle.c:162-227 | groups start with nothing queued and off the tree, in the resting invariant |
| `ThrottleDispatch.TracedRate` | block/blk-throttle.c:359-733 | the rate bound for a group of the running queue, over the history its class has recorded: for bytes always, for IOs while the IO counter fits |
| `ThrottleDispatch.HeldBackIsNotDue` | block/blk-throttle.c:631-649 | a busy group none of whose first bios may go now gets a dispatch time in the future, so a round makes progress |
| `ThrottleDispatch.DueWhenFirstMayGo` | block/blk-throttle.c:631-649 | a busy group is due when the first of its first bios may go, no direction having to wait longer, and at once exactly if one of them may go at once |
| `ThrottleDispatch.RoundFifo` | block/blk-throttle.c:671-733 | through a whole round the bios of each group and direction leave from the front of their queue only |
| `ThrottleDispatch.ShareSays` | block/blk-throttle.c:671-702 | a group's share of a turn loses no bio, and a share of none leaves only bios that have to wait |
| `ThrottleDispatch.ThrotlData.QueueFirst` | block/blk-throttle.c:1025-1043 | the first bio of a direction joins the queue, and the group gets its new dispatch time |
| `ThrottleDispatch.TreeInsert` | block/blk-throttle.c:283-309 | inserting at the place the descent finds keeps the tree sorted, without duplicates, and the cached node right |
| `Segments.SegmentBound` | block/blk-merge.c:12-315 | for every request built by any sequence of preparing bios, front and back merges, request merges, recounts and refused merges, the scatter-gather mapper emits no more entries than nr_phys_segments |
| `Segments.MapperMinimal` | block/blk-merge.c:113-199 | the greedy mapping is minimal: no segmentation that respects the limits and joins only mergeable neighbours has fewer segments |
| `Segments.StaysAhead` | block/blk-merge.c:113-199 | the greedy mapper never falls behind any segmentation, and by at most one segment if its open segment is the larger |
| `Segments.RecalcOk` | block/blk-merge.c:12-77 | a recount is witnessed by a segmentation of exactly that many segments whose first and last sizes are within the recorded ones |
| `Segments.CountMarksValid` | block/blk-merge.c:12-69 | the counter of `__blk_recalc_rq_segments` describes an acceptable segmentation |
| `Segments.BackMergeOk` | block/blk-merge.c:202-250 | a back merge, allowed or refused, keeps the request witnessed |
| `Segments.FrontMergeOk` | block/blk-merge.c:252-275 | a front merge, allowed or refused, keeps the request witnessed |
| `Segments.MergeRequestsOk` | block/blk-merge.c:277-315 | merging two requests keeps both witnessed, also when the merge is refused after the recorded sizes were raised |
| `Segments.BackMergeIs` | block/blk-merge.c:202-250 | a back merge goes ahead exactly if the request is not special and its sectors and segments with those of the bio fit the limits; then the vectors of the bio come after those of the request and length and count grow by its own, and otherwise they stay |
| `Segments.FrontMergeIs` | block/blk-merge.c:252-275 | the same at the front: the vectors of the bio come before those of the request |
| `Segments.MergeRequestsIs` | block/blk-merge.c:277-315 | two requests merge exactly if neither is special and sectors and segments fit, with one segment less if the last of one and the first of the other touch and fit one segment; the vectors of the second come after those of the first, and the second keeps its own |
| `Segments.MergeRecords` | block/blk-merge.c:291-302 | once the sectors allow the merge, a request of one segment that touches the other records the joint size at its far end, also if the merge is then refused |
| `Segments.BuiltHolds` | block/blk-merge.c:12-315 | whatever sequence of merges, refused merges and recounts made a request, it holds exactly the vectors that went in, in order |
| `Segments.BuiltLength` | block/blk-merge.c:228-315 | and its length is theirs, if none of it was completed in between |
| `Segments.MergesFit` | block/blk-merge.c:202-315 | if every part and every recount is within the segment limit, so is nr_phys_segments of the request, and so is the table the mapper fills |
| `Segments.Fused` | block/blk-merge.c:87-111 | fusing the touching segments of two requests gives an acceptable segmentation with one segment less |
| `Segments.PrepOk` | block/blk-core.c:2444-2459 | a request prepared from one bio is witnessed |
| `Segments.CountedOk` | fs/bio.c:428-434 | a bio counted on first use is witnessed |
| `SegmentLoops.MapMarksValid` | block/blk-merge.c:117-199 | the mapper's own segmentation is acceptable |
| `SegmentLoops.MapIsCount` | block/blk-merge.c:12-199 | without high pages the counter and the mapper agree exactly |
| `SegmentLoops.CountGreedy` | block/blk-merge.c:12-69 | the counter opens a segment exactly where the last one is full (too long, not mergeable or over a boundary) and on both sides of a high page |
| `SegmentLoops.MapGreedy` | block/blk-merge.c:117-199 | the mapper opens an entry exactly where the last one is full |
| `SegmentLoops.GreedyUnique` | block/blk-merge.c:117-199 | there is only one such segmentation |
| `SegmentLoops.RecalcSegments` | block/blk-merge.c:12-69 | the counting loop computes the number of marks and raises the first front size and the last back size |
| `SegmentLoops.MapSg` | block/blk-merge.c:117-199 | the mapping loop emits exactly the entries of the one segmentation that opens a segment where the last one is full: they are as long as all vectors together, each begins at a marked vector and goes up to the next one, in order and without a gap |
| `SegmentLoops.EntriesCover` | block/blk-merge.c:117-199 | the entries of any segmentation take the vectors in order and leave none out, each beginning where its first vector begins |
| `SegmentLoops.EntriesLengths` | block/blk-merge.c:117-199 | together they are as long as the vectors |
| `SegmentLoops.Request.constructor` | block/blk-core.c:2444-2459 | a new request starts witnessed |
| `SegmentLoops.Request.RecalcRequest` | block/blk-merge.c:71-77 | recounting keeps the request witnessed |
| `SegmentLoops.Request.BackMergeBio` | block/blk-merge.c:228-250 | the in-place merge goes ahead exactly if the limits allow it, and then the vectors of the bio come after those of the request; allowed or not, the request stays witnessed |
| `SegmentLoops.Request.FrontMergeBio` | block/blk-merge.c:252-275 | the same at the front: the vectors of the bio come before those of the request |
| `SegmentLoops.Request.Absorb` | block/blk-merge.c:277-315 | merging two request objects goes ahead exactly if the limits allow it, the vectors of the second come after those of the first, and both stay witnessed |
| `SegmentLoops.Request.MergeInto` | block/blk-merge.c:277-315 | the part of it that raises the recorded sizes and adds the counts |
| `SegmentLoops.Request.Map` | block/blk-merge.c:117-199 | mapping a request never emits more entries than its recorded count |
| `CfqCooperators.RunsAreGood` | block/cfq-iosched.c:2035-2085 | in every run of set-up, merge, split, exit, request and allocation steps, with the lock dropped for the allocation and io contexts shared by tasks in any way, the `new_cfqq` links close no cycle, every context's chain ends after visiting live queues once each, and every live queue has a process reference for each context whose chain passes through it |
| `CfqCooperators.BalancedIff` | block/cfq-iosched.c:2902-2953 | it has no other process references exactly if no task ever came back from its allocation to an io context that had been given a queue meanwhile |
| `CfqCooperators.NeverFreed` | block/cfq-iosched.c:2902-2995 | the queue on which such a task takes its reference is never freed |
| `CfqCooperators.NextKeeps` | block/cfq-iosched.c:2035-2085 | every single step keeps that; references that belong to no context come only from such a task, and they never go |
| `CfqCooperators.LinkKeeps` | block/cfq-iosched.c:2045-2085 | linking the end of one chain to another queue and adding its process references there keeps every count equal to the contexts through the queue |
| `CfqCooperators.LinkNoCycle` | block/cfq-iosched.c:2059-2085 | a link goes to a queue that has none, which the walk to the end of the other chain sees to, and so closes no cycle |
| `CfqCooperators.LinkOver` | block/cfq-iosched.c:2075-2085 | a link hands on the references that belong to no context, and makes none |
| `CfqCooperators.WakeKeeps` | block/cfq-iosched.c:2902-2995 | a task that has the lock again puts its queue into its context, or takes one more reference on the queue it finds there |
| `CfqCooperators.AgainKeeps` | block/cfq-iosched.c:2993-2995 | one more reference for a context that is already counted belongs to no context |
| `CfqCooperators.HopKeeps` | block/cfq-iosched.c:3627-3636 | moving a context one queue down its chain keeps the counts; the queue it leaves is freed only if nothing needs it |
| `CfqCooperators.DropKeeps` | block/cfq-iosched.c:2657-2688 | giving up a whole chain keeps the counts of all other contexts |
| `CfqCooperators.AttachKeeps` | block/cfq-iosched.c:3681-3685 | a context that takes a new queue has it to itself |
| `CfqCooperators.GrabKeeps` | block/cfq-iosched.c:3707-3711 | a request takes one reference and one allocation count together |
| `CfqCooperators.ReleaseKeeps` | block/cfq-iosched.c:3604-3625 | a request gives both back; the queue goes only if that was the last reference |
| `CfqCooperators.PutKeeps` | block/cfq-iosched.c:2542-2569 | a queue loses the reference of one context and is freed exactly at zero, when no chain and no request needs it |
| `CfqCooperators.ChainUnique` | block/cfq-iosched.c:2045-2062 | following links from a queue leads to one place only |
| `CfqCooperators.CfqData.CountProcessRefs` | block/cfq-iosched.c:2035-2043 | the difference of references and allocations is never less than the contexts through the queue, and is equal to them while the books are balanced |
| `CfqCooperators.CfqData.SetupMerge` | block/cfq-iosched.c:2045-2085 | two queues are linked exactly if the links followed from the second lead, not over the first, to a queue without one, and all three have process references; then the link goes from the one of the first and that queue with fewer process references to the other, and the walk leads to a queue that is gone only from a queue with a reference that belongs to no context |
| `CfqCooperators.CfqData.ChainEnd` | block/cfq-iosched.c:2059-2064 | its loop ends, whatever the links are: it walks the links from the second queue, not over the first, and stops at a queue without a link, before the first queue, or where a link leads to a queue that is gone; the last never happens on the chain of a context |
| `CfqCooperators.WalkEnds` | block/cfq-iosched.c:2059-2064 | where the links lead is decided by any walk along them: there is one end, or none if the walk runs into the other queue or a queue that is gone |
| `CfqCooperators.CfqData.LinkQueues` | block/cfq-iosched.c:2075-2085 | the queue linked to takes over the process references, and the invariant holds |
| `CfqCooperators.CfqData.PutQueue` | block/cfq-iosched.c:2542-2569 | the reference count is positive when it is taken down, and the queue goes at zero |
| `CfqCooperators.CfqData.PutCooperator` | block/cfq-iosched.c:2657-2676 | the walk ends, meets only live queues, and takes one reference from every queue after the first |
| `CfqCooperators.CfqData.DropContext` | block/cfq-iosched.c:2678-2688 | a context leaves its whole chain |
| `CfqCooperators.CfqData.MergeCfqqs` | block/cfq-iosched.c:3627-3636 | the context moves to the linked queue and gives up the old one |
| `CfqCooperators.CfqData.SplitCfqq` | block/cfq-iosched.c:3642-3658 | a context whose queue has one process reference keeps it unchanged, any other leaves its whole chain |
| `CfqCooperators.CfqData.SetRequest` | block/cfq-iosched.c:3681-3711 | which queue the request is charged to, the linked one, the context's own or a new one, or that the task drops the lock for a new one; the books stay balanced or not as they were |
| `CfqCooperators.CfqData.Sleep` | block/cfq-iosched.c:2924-2925 | dropping the lock changes no reference |
| `CfqCooperators.CfqData.ResumeRequest` | block/cfq-iosched.c:2908-2995 | with the lock again the task looks at its context once more: it puts its new queue there, or takes another reference on the one it finds, which unbalances the books |
| `CfqCooperators.CfqData.TakeAgain` | block/cfq-iosched.c:2993-2995 | the other reference belongs to no context |
| `CfqSharing.AlwaysBalancedIff` | block/cfq-iosched.c:2902-2995 | in all states of all runs the process references of every queue are exactly the contexts through it if and only if no two tasks share an io context |
| `CfqSharing.SharedRun` | block/cfq-iosched.c:2902-2995 | two tasks of one io context that allocate its first queue leave it with two process references for one context |
| `CfqSharing.AlwaysSafeIff` | block/cfq-iosched.c:2050-2064 | the test for process references guards the walk along the links in all states of all runs if and only if no two tasks share an io context or all of them share one |
| `CfqSharing.StrayLink` | block/cfq-iosched.c:2050-2064 | otherwise some run leaves a queue with a process reference and a link to a queue that is gone |
| `CfqSharing.BalancedWalks` | block/cfq-iosched.c:2050-2064 | while the books are balanced, links followed from a queue with process references lead to live queues only |
| `CfqCooperators.CfqData.AttachQueue` | block/cfq-iosched.c:2921-2942 | a context without a queue gets a new one to itself |
| `CfqCooperators.CfqData.GrabQueue` | block/cfq-iosched.c:3707-3711 | a request takes a reference and an allocation count of its queue |
| `CfqCooperators.CfqData.PutRequest` | block/cfq-iosched.c:3604-3625 | the allocation count is never zero when it is taken down |
| `CfqCooperators.CfqData.constructor` | block/cfq-iosched.c:3874-3924 | no queues, contexts or requests: the invariant holds |
| `Completion.UpdateTwice` | block/blk-core.c:2025-2156 | completing a and then b bytes leaves the same bios, vector offsets and length as completing a+b; the sector agrees exactly if the request is not finished by the second part after an unfinished first one |
| `Completion.ConsumeTwice` | block/blk-core.c:2025-2156 | the chain left and the bios ended are the same in two parts as in one |
| `Completion.ConsumeBytes` | block/blk-core.c:2025-2156 | exactly the first n bytes of the request are gone, and the rest is untouched and in order |
| `Completion.ConsumeOk` | block/blk-core.c:2025-2156 | something is left exactly if fewer bytes are completed than there are, and then the chain is in order and n bytes shorter |
| `Completion.EndedOnce` | block/blk-core.c:149-185 | the bios that end and the bios that are left make up the chain, each once, in order |
| `Completion.PlacesKept` | block/blk-core.c:2055-2128 | every byte that is left still goes to its place on the disk exactly if whole sectors have ended; otherwise the first one left goes to another |
| `Completion.StaysInStep` | block/blk-core.c:2131-2135 | while whole sectors end, the bios follow each other on the disk and the request goes on starting where its first bio does, n bytes on |
| `Completion.VectorsStay` | block/blk-core.c:2123-2128 | the vector array of a bio keeps its entries, but for the one at bi_idx, of which the end is left |
| `Completion.SectorDiffers` | block/blk-core.c:2107-2135 | a concrete request whose sector differs when it is completed in two parts |
| `Completion.StaleVectorDiffers` | block/blk-core.c:2123-2128 | vectors already passed are not the same after two parts: one cut in the middle keeps the cut |
| `Completion.Request.EndBytes` | block/blk-core.c:2055-2105 | the loop over bios and vectors stops where the bytes end; the branch for an index past the vectors is not reachable |
| `Completion.Request.AdvanceFirst` | block/blk-core.c:2123-2128 | the bio the last byte falls in is advanced in place to where the loop stopped |
| `Completion.Request.UpdateRequest` | block/blk-core.c:2025-2156 | the whole call computes the specified request, says whether anything is left, and never takes the branch for a botched request |
| `Completion.Request.constructor` | block/blk-core.c:2444-2459 | a request over a chain in order is as long as its bios, and nothing of it has been completed |
| `Flush.OrderAndDurability` | block/blk-flush.c:23-194 | in every run, an ended sequenced request ran each needed step once and in order and ended with the first error; on success all writes completed before a FLUSH request started, and the data of a FUA request, are on stable storage |
| `Flush.NothingStranded` | block/blk-flush.c:41-194 | in every run each request is in exactly one place, and while flushes are pending a sequence is in progress or a request that will start one is on the dispatch list |
| `FlushOrder.PendingIsFifo` | block/blk-flush.c:41-162 | in every run all requests ever put off are those that have come back followed by those still pending: they come back in the order in which they were put off |
| `FlushOrder.StartsNext` | block/blk-flush.c:139-194 | when a sequence has ended, the request that came back is started by the driver's next look exactly if no other request with a flag was submitted in between |
| `FlushOrder.Overtaken` | block/blk-flush.c:139-194 | so sequences do not always start in that order: two requests are put off, the first comes back, a third is submitted before the driver looks, and the second starts while the first is pending again |
| `FlushOrder.FlushCovers` | block/blk-flush.c:23-194 | in every run, once a FLUSH has ended without error, every write that had ended without error before the FLUSH was submitted is on stable storage |
| `FlushOrder.FetchPending` | block/blk.h:56-74 | a look of the driver during a sequence puts off exactly the requests at the front of the list that need one, in the order of the list |
| `FlushOrder.EndPending` | block/blk-flush.c:41-56 | when a sequence ends, exactly the first of the requests put off goes to the front of the list; after any other step `flush_rq` does |
| `FlushOrder.RunWrote` | block/blk-flush.c:59-100 | in every run a write that ended without error has reached the device |
| `Flush.RunsKeep` | block/blk-flush.c:23-194 | the invariant behind both holds in every state of every run |
| `Flush.NextKeeps` | block/blk-flush.c:23-194 | submission, fetching and both kinds of completion keep it |
| `Flush.NeverStuck` | block/blk-flush.c:23-194 | every submission, fetch or completion that may come has a next state: nothing the code relies on is missing |
| `Flush.StartKeeps` | block/blk-flush.c:163-194 | starting a sequence skips the steps not needed and queues the first needed one |
| `Flush.PendKeeps` | block/blk-flush.c:139-162 | a flush request that comes during a sequence is put off, not lost |
| `Flush.AdvanceRecord` | block/blk-flush.c:30-57 | a completed step uncovers the next needed one |
| `Flush.FinishKeeps` | block/blk-flush.c:41-56 | after the last step the request ends once and a pending one comes to the head |
| `Flush.CompleteNormalKeeps` | block/blk-flush.c:59-100 | requests outside sequences end and reach the device's cache |
| `Flush.CompleteFlushKeeps` | block/blk-flush.c:59-100 | the end of a step is recorded with its error and, for a flush, empties the cache |
| `Flush.BitsAdvance` | block/blk-flush.c:23-28 | setting the bit of the current step makes the next unset one current |
| `Flush.PutOff` | block/blk.h:56-74 | a flush request put off for the one in progress is passed over by the loop that looks for the next request |
| `Flush.NextRequestKeeps` | block/blk.h:56-74 | what the loop returns heads the list and is `flush_rq` or needs no sequence |
| `Flush.RequestQueue.ElvNextRequest` | block/blk.h:56-74 | the nested loop ends; it returns nothing only if the dispatch list and the scheduler are empty |
| `Flush.RequestQueue.TryHead` | block/blk.h:61-69 | one turn of its inner loop: what is returned is what the whole loop returns, and a request put off changes nothing about that |
| `Flush.RequestQueue.FlushCompleteSeq` | block/blk-flush.c:30-57 | the in-place step computes the specified state and returns what it queued |
| `Flush.RequestQueue.QueueNextFseq` | block/blk-flush.c:102-137 | `flush_rq` is set up for the current step at the head of the list |
| `Flush.RequestQueue.FinishSeq` | block/blk-flush.c:41-56 | the original request ends and the next pending flush is put at the head |
| `Flush.RequestQueue.DoFlush` | block/blk-flush.c:139-194 | a flagged request passes, is put off, or starts a sequence |
| `Flush.RequestQueue.StartFlush` | block/blk-flush.c:163-194 | the steps the device does not need are marked before the first is queued |
| `Flush.RequestQueue.FetchRequest` | block/blk.h:56-74 | fetching keeps the invariant and hands the request to the device |
| `Flush.RequestQueue.StartRequest` | block/blk-core.c:1961-1974 | the head of the list goes to the device, which notes what it has to make durable |
| `Flush.EndReady` | block/blk-flush.c:30-40 | while `flush_rq` is with the device, its step is the current one and not done: the BUG_ON on a bit already set cannot fire |
| `Flush.RequestQueue.EndNormal` | block/blk-flush.c:59-100 | a completion outside a sequence keeps the invariant |
| `Flush.RequestQueue.EndFlush` | block/blk-flush.c:59-100 | a completion of `flush_rq` keeps the invariant |
| `Flush.RequestQueue.SubmitRequest` | block/blk-core.c:1527-1538 | a submitted request with a flag goes to the head of the dispatch list, any other to any place among those the scheduler has; the invariant is kept |
| `Flush.RequestQueue.constructor` | block/blk-settings.c:797-805 | an idle queue with fixed flags satisfies the invariant |
| `RequestPool.RunsAreOk` | block/blk-core.c:731-911 | in every interleaving of asking, failing, freeing, waking and retrying, if a task sleeps on a class then a request of it is counted, or the class is starved, or a woken task has yet to retry; counts match the requests out and never exceed 3*nr_requests/2; a class is marked full exactly if it has at least nr_requests counted |
| `RequestPool.NeedsOneRequest` | block/blk-core.c:731-911 | no sleeper is ever forgotten exactly if nr_requests is at least one |
| `RequestPool.ZeroForgets` | block/blk-core.c:769-870 | with nr_requests zero a single request is forgotten asleep |
| `RequestPool.NextOk` | block/blk-core.c:731-911 | every locked region keeps the invariant, whatever the elevator answers and whoever counts as a batcher |
| `RequestPool.TryOk` | block/blk-core.c:769-826 | the first locked region of `get_request` keeps it, granted or not, with the class marked full exactly if nr_requests or more are counted |
| `RequestPool.ServedIff` | block/blk-core.c:769-826 | a task is served exactly if the elevator does not refuse and less than nr_requests are counted, or less than 3*nr_requests/2 for a batcher or where the elevator insists; count, full mark, starved mark, wait queue and pending wake-ups afterwards |
| `RequestPool.FailedOk` | block/blk-core.c:828-852 | the failed-allocation path keeps it, with the starved mark and the sleep that follows |
| `RequestPool.FreedOk` | block/blk-core.c:750-762 | a count taken down is put right in its own class and noticed in a starved other one |
| `RequestPool.NoticeOk` | block/blk-core.c:731-744 | below the limit the first sleeper is woken and the full flag cleared |
| `RequestPool.PutOk` | block/blk-core.c:750-762 | giving back a request keeps the invariant |
| `RequestPool.DrainWakes` | block/blk-core.c:731-762 | once no request is being set up, the first sleeper is woken at the latest when the last request of its class comes back |
| `RequestPool.OtherClassWakes` | block/blk-core.c:750-762 | a starved class below its limit is served by the next request the other class gives back |
| `RequestPool.WakeIff` | block/blk-core.c:731-852 | the first sleeper of a class can be woken without any task asking for a request exactly if a request of the class is counted, or the class is marked starved and one of the other class is counted |
| `RequestPool.EmptyPoolSleeps` | block/blk-core.c:828-852 | an allocation that fails in an empty pool leaves a sleeper that only a new request can help: its class is marked starved, but nothing is out that could notice |
| `RequestPool.Decide` | block/blk-core.c:769-826 | the nested tests grant a request exactly if the counts allow it: below nr_requests, for batchers and where the elevator insists below 3*nr_requests/2, and never where it refuses |
| `RequestPool.RequestList.GetRequest` | block/blk-core.c:769-892 | the region under the lock computes the specified state; a request is granted exactly if the counts allow it, and a task that gets nothing and may wait is on the wait queue when the lock is dropped |
| `RequestPool.RequestList.AllocFailed` | block/blk-core.c:828-852 | the failure path computes the specified state and keeps the invariant |
| `RequestPool.RequestList.FreedRequest` | block/blk-core.c:750-762 | the free path computes the specified state and keeps the invariant |
| `RequestPool.RequestList.Notify` | block/blk-core.c:731-744 | the first sleeper of a class below its limit is woken |
| `RequestPool.RequestList.constructor` | block/blk-core.c:482-502 | an allocator with nothing counted, starved or waited for satisfies the invariant |
| `Deadline.RunsAgree` | block/deadline-iosched.c:76-326 | through adds, alias moves, front merges, request merges and dispatches, both indexes of a direction hold the same requests, sectors are distinct and sorted, the fifo is in expiry order, each next_rq is null or a member with at most one non-null, nr_sorted counts the requests, and both counters stay in range |
| `Deadline.StepKeeps` | block/deadline-iosched.c:76-326 | every step keeps that, and no request is lost or sent twice: only an absorbed one disappears |
| `Deadline.AddOk` | block/deadline-iosched.c:76-113 | adding keeps the indexes in agreement, with an alias sent off first |
| `Deadline.FrontOk` | block/deadline-iosched.c:156-168 | repositioning after a front merge keeps them in agreement although next_rq is not looked at |
| `Deadline.JoinOk` | block/deadline-iosched.c:170-189 | absorbing a request keeps them in agreement and the fifo in expiry order |
| `Deadline.MoveOk` | block/deadline-iosched.c:194-222 | sending a request off keeps them in agreement |
| `Deadline.CallOk` | block/deadline-iosched.c:245-326 | a dispatch call sends one request if there is any, and keeps them in agreement; which one it sends is in `DeadlineOrder.CallGoesOn` |
| `Deadline.ChooseOk` | block/deadline-iosched.c:245-326 | the call serves nothing exactly if nothing is sorted, and otherwise a request it has |
| `DeadlineOrder.CallGoesOn` | block/deadline-iosched.c:245-326 | of two dispatch calls in a row the second sends the request of the same direction that starts lowest above the first, as long as there is one and the batch is not full, or the direction's turn comes again without an expired request; otherwise the oldest request of the direction whose turn it is |
| `DeadlineOrder.CallStarts` | block/deadline-iosched.c:245-326 | with no batch to go on with, a call sends the oldest request of the direction whose turn it is: reads, unless there are none or writes have been passed over writes_starved times |
| `DeadlineOrder.LatterIsLeast` | block/deadline-iosched.c:62-74 | the latter request is the one that starts lowest above, if there is one |
| `DeadlineOrder.AddSays` | block/deadline-iosched.c:76-113 | an added request starts at its sector and expires last; one that started there is sent off; nothing else changes |
| `DeadlineOrder.FrontSays` | block/deadline-iosched.c:156-168 | a front-merged request starts at its new sector and keeps its expiry; another one that started there is sent off; nothing else changes |
| `DeadlineOrder.JoinSays` | block/deadline-iosched.c:170-189 | an absorbed request is gone, its absorber stays where it starts and expires with the earlier of the two; nothing else changes |
| `Deadline.NoSecondAlias` | block/deadline-iosched.c:76-84 | after one alias has left the sector is free, so the loop runs at most once |
| `DeadlineLatency.WritesGetTheirTurn` | block/deadline-iosched.c:245-326 | while writes wait, at most (writes_starved + 1)*fifo_batch dispatch calls in a row serve reads, whatever arrives in between, for writes_starved as the code reads it and a fifo_batch of zero counted as one |
| `DeadlineLatency.WritesWait` | block/deadline-iosched.c:245-326 | that bound is nearly met: for every n up to writes_starved*fifo_batch, as the code reads it, some run from the start has a write waiting through n calls that serve reads, with never more than two reads queued |
| `DeadlineLatency.BoundBroken` | block/deadline-iosched.c:270-276 | for every negative setting the documented bound fails, and by far: the code reads it as 2^31 or more |
| `DeadlineLatency.BoundHoldsIff` | block/deadline-iosched.c:270-276 | in all stretches of all runs the bound holds with the setting itself exactly if writes_starved is not negative: the comparison is unsigned |
| `DeadlineLatency.ExpiredReadServed` | block/deadline-iosched.c:170-326 | with writes_starved not zero, an expired read with n other reads expiring no later, or whoever absorbs it, is sent within 2*fifo_batch*(n + 1) + 1 calls, whatever arrives, merges or expires meanwhile |
| `DeadlineLatency.ReadsServedIff` | block/deadline-iosched.c:245-326 | in all stretches of all runs that bound holds exactly if writes_starved is not zero |
| `DeadlineLatency.ReadWaits` | block/deadline-iosched.c:270-276 | with writes_starved zero an expired read, alone at the head, waits through any number of calls, because each new write goes first |
| `DeadlineLatency.PlaceServed` | block/deadline-iosched.c:170-326 | by place in the fifo instead of by expiry: an expired read with k reads before it is sent within 2*fifo_batch*(k + 1) + 1 calls, at the head within 2*fifo_batch + 1, as long as no absorber stands further back than what it absorbed |
| `DeadlineLatency.AbsorberFallsBehind` | block/deadline-iosched.c:170-189 | that condition is needed: for every setting some run from the start has an expired head absorbed at equal expiry, and its data is not among the next 2*fifo_batch + 1 requests sent |
| `DeadlineLatency.Absorbed` | block/deadline-iosched.c:170-189 | an absorber stands no further back than what it absorbed exactly if it expires strictly later, comes before it or comes right after it; it never expires later |
| `DeadlineLatency.OthersMerge` | block/deadline-iosched.c:170-189 | a merge of other requests never moves a request back in the fifo or puts off its expiry |
| `DeadlineLatency.InheritRank` | block/deadline-iosched.c:170-189 | a merge never adds to the reads that expire before a given time, and takes one away when both do |
| `DeadlineLatency.StepUrgent` | block/deadline-iosched.c:76-326 | every step either sends the expired read or leaves it, or its absorber, no further back, and every call uses up one of the calls left |
| `DeadlineLatency.StepRivals` | block/deadline-iosched.c:76-326 | the same counted by the reads that expire no later, for every step without exception |
| `Deadline.Descend` | block/elevator.c:361-411 | the search finds the slot of a sector and the request that starts there, exactly if there is one |
| `Deadline.DeadlineData.AddRqRb` | block/deadline-iosched.c:76-84 | the alias loop ends and places the request |
| `Deadline.DeadlineData.AddRequest` | block/deadline-iosched.c:100-113 | the in-place add computes the specified state and keeps the invariant |
| `Deadline.DeadlineData.MoveRequest` | block/deadline-iosched.c:206-222 | the move computes the specified state |
| `Deadline.DeadlineData.MergedRequest` | block/deadline-iosched.c:156-168 | the reposition computes the specified state and keeps the invariant |
| `Deadline.DeadlineData.MergedRequests` | block/deadline-iosched.c:170-189 | the absorption computes the specified state and keeps the invariant |
| `Deadline.DeadlineData.DispatchRequests` | block/deadline-iosched.c:245-326 | one request is served exactly if there is one |
| `Deadline.DeadlineData.Drain` | block/elevator.c:576-588 | the drain loop ends with nr_sorted zero, and every request it had is sent |
| `Deadline.DeadlineData.constructor` | block/deadline-iosched.c:350-368 | an empty scheduler satisfies the invariant |
| `DispatchSort.InsertAllOk` | block/elevator.c:418-455 | for a fixed boundary any sequence of insertions keeps every run of same-direction, same-discard, non-started, non-barrier requests in sweep order and the existing entries in their order |
| `DispatchSort.InsertOk` | block/elevator.c:418-455 | one insertion does so, and passes only entries of its own kind that are neither started nor barriers |
| `DispatchSort.StopsHold` | block/elevator.c:418-455 | whatever is inserted, everything up to a barrier or started request stays where it was |
| `DispatchSort.StepsAreRuns` | block/elevator.c:418-455 | neighbours in order is the same as whole runs in order |
| `DispatchSort.Spot` | block/elevator.c:432-452 | the scan stops before the first entry from the tail that is not passed |
| `DispatchSort.Scan` | block/elevator.c:432-452 | the scan with its nested tests finds that place |
| `DispatchSort.DispatchQueue.Sort` | block/elevator.c:418-455 | the in-place insertion computes the specified list and keeps the runs sorted |
| `DispatchSort.DispatchQueue.constructor` | block/elevator.c:255-258 | an empty list without a boundary has its runs sorted |
| `MergePath.RunsConsistent` | block/elevator.c:310-355 | in every state of every run of inserts, bio merges, request merges, refusals, lookups and dispatches, every chain is contiguous and matches its request's start and length, each hashed request hangs exactly once, under its end sector, and a lookup succeeds exactly if a mergeable request ends there |
| `MergePath.NextOk` | block/elevator.c:310-355 | every step keeps that |
| `MergePath.FindExact` | block/elevator.c:335-355 | a lookup returns a request exactly if some mergeable one ends at the sector, and returns such a one; dropping stale entries loses nothing |
| `MergePath.BackArmOk` | block/blk-core.c:1232-1253 | the back merge arm keeps it, with or without a following request merge |
| `MergePath.FrontArmOk` | block/blk-core.c:1255-1287 | the front merge arm keeps it although it does not rehash |
| `MergePath.JoinOk` | block/blk-merge.c:367-447 | absorbing a request keeps it, also when the absorbing one still hangs under its old end |
| `MergePath.JoinedEnd` | block/blk-merge.c:367-447 | the joined chain is contiguous and ends where the absorbed request ended |
| `MergeBooks.BiosConserved` | block/blk-core.c:1232-1287 | in every run the bios submitted are those of the sorted requests and those dispatched, each as often |
| `MergeBooks.BackArmSays` | block/blk-core.c:1232-1253 | the bio goes to the end of its request; the neighbour's bios follow and it is gone exactly if it starts where the bio ends, can merge and is allowed; all other requests stay |
| `MergeBooks.FrontArmSays` | block/blk-core.c:1255-1287 | the bio goes to the front of its request; the neighbour takes over all bios and the request is gone exactly if the neighbour ends where the bio starts, can merge and is allowed; all other requests stay |
| `MergeBooks.JoinSays` | block/blk-merge.c:367-447 | an absorbed request's bios go to the end of the other's, and it is gone |
| `MergeBooks.NextBios` | block/elevator.c:310-355 | every step adds the bio it brings and takes away those it dispatches |
| `MergePath.RepositionOk` | block/elevator.c:329-333 | a request under a stale end sector is put right |
| `MergePath.InsertOk` | block/elevator.c:657-674 | an inserted request hangs under its end if it may merge |
| `MergePath.RefuseOk` | block/blk-merge.c:238-243 | a refused merge leaves a stale entry and clears the one-hit cache if it named the request |
| `MergePath.DispatchOk` | block/elevator.c:463-475 | a dispatched request leaves hash, cache and count |
| `MergePath.EndIsEnd` | block/blk-merge.c:385-389 | the recorded start and length of a contiguous chain name the end of its last bio |
| `MergePath.ElevatorQueue.RqhashFind` | block/elevator.c:335-355 | the loop computes the specified lookup |
| `MergePath.ElevatorQueue.ElvMerge` | block/elevator.c:478-520 | a verdict names a mergeable request the bio adjoins; there is none if merges are off; a request in the one-hit cache that the bio may join goes first, and without it nothing merges if only the cache is to be tried; otherwise a back merge goes before what the scheduler finds, and no merge is reported only if the scheduler finds none and no request ends there, or one that does may not be joined |
| `MergePath.ElevatorQueue.AttemptMerge` | block/blk-merge.c:367-447 | two requests are joined exactly if both can merge, they adjoin and the rest allows it |
| `MergePath.ElevatorQueue.MakeRequestBack` | block/blk-core.c:1232-1253 | the in-place arm computes the specified queue and keeps the invariant |
| `MergePath.ElevatorQueue.MakeRequestFront` | block/blk-core.c:1255-1287 | the in-place arm computes the specified queue and keeps the invariant |
| `MergePath.ElevatorQueue.constructor` | block/elevator.c:206-258 | an empty hash and no one-hit cache satisfy the invariant |
| `Tags.TagsAreSafe` | block/blk-tag.c:220-405 | in every interleaving of the steps of start, end and resize: if the map is shared, or no grow installed a smaller one, the tag of an outstanding request lies in the map, its slot is filled by the request, its bit is set, and no other outstanding request holds it |
| `Tags.RunsSound` | block/blk-tag.c:220-405 | the invariant of every run, whatever maps are installed: a bit is set while its slot is filled or some queue is between taking the bit and filling the slot, or emptying it and clearing the bit; a filled slot names an outstanding request with that tag; busy lists hold exactly their queue's outstanding requests, newest first; and if the map is shared or was never cut, no other bit is set and every outstanding request has its slot |
| `Tags.NextOk` | block/blk-tag.c:220-405 | every step of every queue keeps it |
| `Tags.LockOk` | block/blk-tag.c:367-372 | test-and-set gives the slot to one queue only |
| `Tags.PublishOk` | block/blk-tag.c:378-383 | filling a locked slot keeps it |
| `Tags.EndOk` | block/blk-tag.c:296-304 | emptying a slot before its bit is cleared keeps it |
| `Tags.ClearOk` | block/blk-tag.c:306-315 | clearing the bit afterwards keeps it |
| `Tags.ReplaceOk` | block/blk-tag.c:251-264 | a map put in the place of the old one, its bits copied in whole words, keeps that invariant whatever its size, and keeps every slot if it is no smaller |
| `Tags.WithoutOrder` | block/blk-tag.c:282-316 | taking a request out of a busy list keeps the others in the order they were started |
| `TagResize.ResizeKeepsTags` | block/blk-tag.c:220-265 | a resize that only sets the limit, or installs a map that holds the old one, leaves every outstanding tag, its bit and its slot alone |
| `TagResize.GrowKeepsIff` | block/blk-tag.c:108-120 | growing a map of n entries that no other queue shares keeps every outstanding tag in its slot with its bit set, whatever is outstanding, exactly if n is no larger than twice nr_requests |
| `TagResize.NoTagTwice` | block/blk-tag.c:220-384 | in every run in which each grow keeps all words of the map, also if it drops slots, no two outstanding requests hold one tag and the bit of each is set |
| `TagResize.NextUnique` | block/blk-tag.c:220-384 | every step that keeps the words keeps that |
| `TagResize.NoneFreedIff` | block/blk-tag.c:122-125 | two grows, the first of them with nr requests, leave the bit of every outstanding tag in the last map set, whatever was outstanding in the first, exactly if the words of 2*nr bits hold all of it |
| `TagResize.NoBitLost` | block/blk-tag.c:220-405 | in every run, whatever maps are installed, a set bit belongs to an outstanding request or to a queue in the middle of a call; once all have ended, every bit is clear |
| `TagResize.NextAccounted` | block/blk-tag.c:220-405 | every step keeps that |
| `TagResize.TagBeyondMap` | block/blk-tag.c:108-120 | otherwise there is a run from the start (for example 64 tags out, nr_requests lowered to 4) after which an outstanding tag lies beyond the installed map and ending its request does nothing |
| `TagResize.TwoHoldOneTag` | block/blk-tag.c:220-384 | when a grow drops a word, some run from the start gives the first dropped tag out again: two outstanding requests hold it (for example 128 tags, nr_requests 4 and words of 64 bits: tag 64) |
| `Tags.Limit` | block/blk-tag.c:358-365 | asynchronous requests leave two tags to the others where there are more than two, and always may look at one; synchronous ones may look at all |
| `Tags.StartOrderRestored` | block/blk-tag.c:399-405 | in every run, through starts, ends and resizes of all queues, a busy list read backwards, as invalidation puts it at the head of its queue, is in the order the requests were started, and holds exactly the queue's outstanding requests |
| `Tags.TagMap.InvalidateTags` | block/blk-tag.c:399-405 | all requests of the queue give back their tags and stand at its head in the order they were started; other queues keep their tags |
| `Tags.TagMap.RequeueAll` | block/blk-tag.c:403-404 | its loop empties the busy list from the front, one requeue at a time |
| `Tags.TagMap.RequeueFirst` | block/blk-core.c:998-1010 | a requeued request gives back its tag and goes to the head of its queue |
| `Tags.TagMap.StartTag` | block/blk-tag.c:337-384 | a started request leaves the dispatch list and gets the first free tag below the limit; it is refused exactly if there is none or too many asynchronous ones are out |
| `Tags.TagMap.TakeTag` | block/blk-tag.c:372-383 | the request takes the bit, the slot and a place at the front of the busy list, and leaves the dispatch list |
| `Tags.TagMap.EndTag` | block/blk-tag.c:282-316 | the tag's bit is clear and its slot empty afterwards and all others are as they were, or nothing changes for a tag beyond the map; the invariant is kept; while every outstanding request has its slot, the branches for an out-of-range tag, a missing slot and a clear bit are not taken |
| `Tags.TagMap.ResizeTags` | block/blk-tag.c:220-265 | each error code exactly in its case, and nothing changed then; otherwise only the limit is set, or the map has the new depth cut to twice nr_requests, with the old slots as far as they fit, the rest empty, and the bits in whole words; all slots are kept if it holds the old one |
| `Tags.TagMap.Copied` | block/blk-tag.c:258-260 | the two copies: the slots one by one, the bits in whole words, as far as the new arrays go |
| `Tags.TagMap.FirstZero` | block/blk-tag.c:368-370 | the first clear bit below the limit, if any |
| `Tags.TagMap.constructor` | block/blk-tag.c:107-161 | an empty map satisfies the invariant |
| `CounterIncrement.CryptoInc` | crypto/algapi.c:876-889 | for every length the big-endian number goes up by one modulo 256^size, and bytes past it are untouched |
| `CounterIncrement.CryptoIncByte` | crypto/algapi.c:863-874 | the byte loop carries exactly as far as needed |
| `CounterIncrement.IncAddsOne` | crypto/algapi.c:863-889 | carrying byte by byte adds one modulo 256^size |
| `CounterIncrement.WordStep` | crypto/algapi.c:881-886 | one 32-bit step is four byte steps: it carries on exactly if the word wraps to zero |
| `CounterIncrement.IncWords` | crypto/algapi.c:876-887 | the word loop finishes the increment or leaves the carry to fewer than four bytes |
| `Aes.DecryptUndoes` | crypto/aes_generic.c:1300-1440 | for every round count, schedule and block, decrypting with the reversed, inverse-mixed schedule of section 5.3.5 of FIPS 197 undoes encryption, for any substitution and its inverse |
| `Aes.BackwardMeets` | crypto/aes_generic.c:1300-1440 | after n inverse rounds the state is the substituted, shifted state of n rounds before the end |
| `Aes.ImixMix` | crypto/aes_generic.c:1130-1139 | `imix_col` undoes the column mix of the forward tables |
| `CipherFields.MixIsMatrix` | crypto/aes_generic.c:1300-1313 | the forward tables multiply a column by the matrix of section 5.1.3 of FIPS 197, with products of polynomials reduced by the polynomial of section 4.2 |
| `CipherFields.ImixIsMatrix` | crypto/aes_generic.c:1130-1139 | `imix_col` multiplies it by the inverse matrix of section 5.3.3 |
| `CipherFields.RowsTurn` | crypto/aes_generic.c:1300-1327 | row r turns by r columns in a round, section 5.1.2 of FIPS 197, and back in an inverse one, section 5.3.1 |
| `CipherFields.EncryptIs` | crypto/aes_generic.c:1329-1368 | any chain of states that starts with the first key added, substitutes, turns, mixes and adds the key in each round and leaves the mix out of the last, as section 5.1 of FIPS 197 has it, ends in the block the cipher computes |
| `CipherFields.ScheduleIs` | crypto/aes_generic.c:1141-1268 | any sequence of words that begins with the key and meets the rule of section 5.2 of FIPS 197, with the round constants of the table, is the key schedule |
| `Aes.ImixLinear` | crypto/aes_generic.c:1130-1139 | `imix_col` is linear |
| `Aes.ItIsImix` | crypto/aes_generic.c:1372-1377 | the inverse tables compute `imix_col` of the substituted word |
| `Aes.StarPacked` | crypto/aes_generic.c:1128-1128 | `star_x` on a packed word doubles its four bytes without carries between them |
| `Aes.RcoIsRcon` | crypto/aes_generic.c:63-63 | the table of round constants holds the powers of X |
| `Aes.RotLink` | crypto/aes_generic.c:1147-1199 | the first line of each unrolled loop is the recurrence of section 5.2 of FIPS 197 at a multiple of the key length |
| `Aes.HalfLink` | crypto/aes_generic.c:1190-1199 | the extra substitution of 256-bit keys is the recurrence in the middle of a key length |
| `Aes.Loop4` | crypto/aes_generic.c:1147-1158 | fills the next four words of the single recurrence |
| `Aes.Loop6Head` | crypto/aes_generic.c:1160-1167 | the first half of `loop6` fills the next three words of the recurrence |
| `Aes.Loop6` | crypto/aes_generic.c:1160-1175 | fills the next six words of it, up to word 53 |
| `Aes.Loop8TopHalf` | crypto/aes_generic.c:1177-1188 | fills the next four words of it |
| `Aes.Loop8` | crypto/aes_generic.c:1190-1199 | fills the next eight words of it |
| `Aes.MirroredIsEquivalent` | crypto/aes_generic.c:1257-1266 | the index arithmetic of the decryption schedule reverses the rounds |
| `Aes.AesContext.ExpandKey` | crypto/aes_generic.c:1216-1268 | exactly the three key sizes are accepted; the encryption schedule is the recurrence and the decryption schedule its equivalent |
| `Aes.AesContext.FillEnc` | crypto/aes_generic.c:1226-1254 | the three unrolled schedules meet the single recurrence |
| `Aes.AesContext.FillInner` | crypto/aes_generic.c:1262-1266 | its loop mirrors the rounds between the first and the last and applies the inverse mix |
| `Aes.AesContext.FillDec` | crypto/aes_generic.c:1257-1266 | the loop builds the schedule of section 5.3.5 of FIPS 197 |
| `Aes.AesContext.EncryptBlock` | crypto/aes_generic.c:1329-1368 | the unrolled rounds compute the cipher for all three round counts |
| `Aes.AesContext.DecryptBlock` | crypto/aes_generic.c:1401-1440 | the unrolled rounds compute the inverse cipher for all three round counts |
| `Aes.AesContext.RoundTrip` | crypto/aes_generic.c:1216-1440 | a set-up context decrypts what it encrypts |
| `Aes.AesContext.constructor` | crypto/aes_generic.c:1216-1220 | two schedules of sixty words |
| `Aes.Fnround` | crypto/aes_generic.c:1300-1313 | the table lookups of a full round substitute, shift, mix and add the key |
| `Aes.Flround` | crypto/aes_generic.c:1315-1327 | the last round does not mix |
| `Aes.Inround` | crypto/aes_generic.c:1372-1385 | the table lookups of an inverse round |
| `Aes.Ilround` | crypto/aes_generic.c:1387-1399 | the last inverse round |
| `Anubis.CryptUndoes` | crypto/anubis.c:462-660 | for every round count, schedule and block the same routine with the inverse schedule undoes itself, for any substitution that is its own inverse |
| `Anubis.RoundsMeet` | crypto/anubis.c:574-660 | after n rounds with the inverse schedule the state is the substituted, transposed state of n rounds before the end |
| `Anubis.ThetaTwice` | crypto/anubis.c:590-625 | the diffusion layer of the tables undoes itself |
| `CipherFields.ThetaIsMatrix` | crypto/anubis.c:590-625 | the tables multiply a row by the Hadamard matrix of 1, 2, 4 and 6, with products of polynomials reduced by x^8 + x^4 + x^3 + x^2 + 1 |
| `CipherFields.TauTransposes` | crypto/anubis.c:590-625 | a round exchanges rows and columns |
| `CipherFields.CryptIs` | crypto/anubis.c:574-660 | any chain of states that starts with the first key added, substitutes, transposes, diffuses and adds the key in each round and leaves the diffusion out of the last ends in the block the routine computes |
| `Anubis.ThetaLinear` | crypto/anubis.c:590-625 | it is linear |
| `Anubis.RetabledIsTheta` | crypto/anubis.c:560-569 | looking up twice-substituted bytes is the diffusion layer alone |
| `Anubis.AnubisContext.InvertSchedule` | crypto/anubis.c:552-569 | the loops build the reversed, diffused schedule |
| `Anubis.AnubisContext.CryptBlock` | crypto/anubis.c:574-660 | the round loop and the masked last round compute the cipher with either schedule |
| `Anubis.AnubisContext.RoundTrip` | crypto/anubis.c:462-660 | a context set up so decrypts what it encrypts |
| `Anubis.AnubisContext.constructor` | crypto/anubis.c:42-47 | two schedules of nineteen round keys |

## Left out

- Throttle limit changes during a run, the unlimited sentinel, group lifetime and RCU teardown; the groups are values
  held by the queue object.
- `jiffies` wrap-around, spinlocks and memory barriers, tree recolouring, tracing, statistics and plugging.
- ThrottleSlice.RateBound: the IO half assumes that the 32-bit IO counter is never at its top.
- ThrottleSlice.IopsWaitSuffices: assumes that no product wraps at the two times it looks at.
- ThrottleSlice.BpsWaitSufficesIff: assumes that no product wraps and that the wait fits 32 bits.
- ThrottleExact.AdmittedIff: assumes that no product wraps.
- ThrottleExact.IopsWaitTight: assumes that no product wraps.
- ThrottleExact.BpsWaitTight: assumes that no product wraps and that the wait fits 32 bits.
- ThrottleExact.TrimIs: assumes that no product wraps.
- ThrottleExact.TrimmedAdmits: assumes that no product wraps.
- ThrottleExact.RunWindow: assumes that what the rate pays for in the whole run fits the words it is computed in.
- ThrottleExact.RefusedIsSpent: assumes the same up to the time of the refusal.
- Segments.BuiltLength: for requests of which nothing was completed between the merges.
- Discard requests, bios without vectors, integrity metadata, DMA padding and drain entries in the segment model.
- Whether two vectors may share a segment is an arbitrary predicate; the header macros are not modelled.
- Completion of `flush_rq`, whose bio is deliberately not advanced, and the error reporting of a failed completion.
- Flush requests for which every step is skipped, and flush flags that change during a run.
- CFQ slice sizing, idling, preemption, group time, the fallback queue for lack of memory and the move between
  cgroups.
- CfqCooperators.CfqData.SetRequest: a new queue never reuses memory freed within the same call, and an allocation
  with the lock dropped does not fail.
- The batching heuristic of `io_context`: whether a task counts as a batcher is arbitrary, so the results hold for it.
- RequestPool.RequestList.GetRequest: the count of requests that carry elevator data is not modelled.
- Deadline back merges, `last_sector` and `end_sector`, which change no index.
- DeadlineLatency.PlaceServed: an absorber at equal expiry that comes later than right after what it absorbs is shut
  out by `TakesOver`, since the bound by place is false for it; `ExpiredReadServed` covers it by expiry.
- Deadline.RunsAgree: expire settings are fixed during a run.
- MergePath.ElevatorQueue.ElvMerge: direction, device, integrity and scheduler vetoes are one arbitrary set of
  agreeable requests.
- Failfast mixing, io priorities and completion CPUs of merged requests.
- Tags.TagMap.StartTag: the class runs one call at a time; interleavings with other queues are in `Tags.TagsAreSafe`.
- CfqCooperators.CfqData.SetupMerge: what the code does with a queue that is gone is not modelled; the walk stops there.
- Tags.TagMap.ResizeTags: when the installed map is smaller than the old one, the entries that do not fit are cut
  off; what the copy at block/blk-tag.c:258-260 writes past the end of the new arrays is not modelled.
- Tags.TagMap.InvalidateTags: every outstanding request has its slot; otherwise the BUG_ON at block/blk-core.c:1007
  fires for a request that keeps its tag.
- The 256-entry cipher tables: they are given by a substitution with an inverse and by the column mix.
- Aes.AesContext.EncryptBlock: blocks are four words of bytes; the byte order of the machine is not modelled.
- Anubis.AnubisContext.InvertSchedule: the evolution of the key into `E` is not modelled; inversion holds for any `E`.
- sysfs, ioctl, SCSI command filtering, disk registration, crypto registration and sockets: interface plumbing.
