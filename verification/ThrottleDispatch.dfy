/** The throttled groups of one request queue in block/blk-throttle.c: their bio lists, the
    service tree that orders them by dispatch time, and the dispatch round. */
module ThrottleDispatch {
  import opened Common
  import opened ThrottleSlice

  const THROTL_GRP_QUANTUM: nat := 8
  const THROTL_QUANTUM: nat := 32
  const NO_WAIT: nat := U32 - 1

  datatype Dir = Read | Write

  datatype Pair<T> = Pair(read: T, write: T) {
    function Get(d: Dir): T { if d.Read? then read else write }
    function Set(d: Dir, x: T): Pair<T> { if d.Read? then Pair(x, write) else Pair(read, x) }
  }

  datatype Bio = Bio(id: nat, size: nat)

  /** `throtl_grp`; `config` carries the limits, which stay fixed. */
  datatype Grp = Grp(config: Pair<Config>, lanes: Pair<Lane>, bios: Pair<seq<Bio>>, nrQueued: Pair<nat>,
                     disptime: nat, onRr: bool) {
    predicate Valid() {
      && config.read.Valid() && config.write.Valid()
      && nrQueued.read == |bios.read| && nrQueued.write == |bios.write|
    }

    predicate Busy() { bios.read != [] || bios.write != [] }

    ghost function Held(): multiset<Bio> { multiset(bios.read) + multiset(bios.write) }
  }

  /** A group fresh from `throtl_alloc_tg`. */
  function Unused(config: Pair<Config>): Grp {
    Grp(config, Pair(ZERO_LANE, ZERO_LANE), Pair([], []), Pair(0, 0), 0, false)
  }

  // ---------------------------------------------------------------- Sums over groups

  ghost function QueuedTotal(grps: seq<Grp>, d: Dir): nat {
    if grps == [] then 0 else |grps[0].bios.Get(d)| + QueuedTotal(grps[1..], d)
  }

  ghost function HeldBios(grps: seq<Grp>): multiset<Bio> {
    if grps == [] then multiset{} else grps[0].Held() + HeldBios(grps[1..])
  }

  lemma {:induction false} UpdateTotal(grps: seq<Grp>, g: nat, x: Grp, d: Dir)
    requires g < |grps|
    ensures QueuedTotal(grps, d) >= |grps[g].bios.Get(d)|
    ensures QueuedTotal(grps[g := x], d) == QueuedTotal(grps, d) - |grps[g].bios.Get(d)| + |x.bios.Get(d)|
  {
    if g == 0 {
      assert grps[g := x][1..] == grps[1..];
    } else {
      assert grps[g := x][1..] == grps[1..][g - 1 := x];
      UpdateTotal(grps[1..], g - 1, x, d);
    }
  }

  lemma {:induction false} UpdateHeld(grps: seq<Grp>, g: nat, x: Grp)
    requires g < |grps|
    ensures HeldBios(grps[g := x]) + grps[g].Held() == HeldBios(grps) + x.Held()
  {
    hide Grp.Held;
    if g == 0 {
      assert grps[g := x][1..] == grps[1..];
    } else {
      assert grps[g := x][1..] == grps[1..][g - 1 := x];
      UpdateHeld(grps[1..], g - 1, x);
      var a, t', t := grps[0].Held(), HeldBios(grps[g := x][1..]), HeldBios(grps[1..]);
      assert (a + t') + grps[g].Held() == a + (t' + grps[g].Held());
      assert (a + t) + x.Held() == a + (t + x.Held());
    }
  }

  lemma {:induction false} IdleTotal(grps: seq<Grp>, d: Dir)
    requires forall g :: 0 <= g < |grps| ==> grps[g].bios.Get(d) == []
    ensures QueuedTotal(grps, d) == 0
  {
    if grps != [] {
      assert grps[0].bios.Get(d) == [];
      assert forall g :: 0 <= g < |grps| - 1 ==> grps[1..][g] == grps[g + 1];
      IdleTotal(grps[1..], d);
    }
  }

  // ---------------------------------------------------------------- The service tree as a sequence

  ghost predicate InRange(grps: seq<Grp>, tree: seq<nat>) {
    forall k :: 0 <= k < |tree| ==> tree[k] < |grps|
  }

  ghost predicate NoDup(tree: seq<nat>) {
    forall i, j :: 0 <= i < j < |tree| ==> tree[i] != tree[j]
  }

  ghost predicate Sorted(grps: seq<Grp>, tree: seq<nat>)
    requires InRange(grps, tree)
  {
    forall i, j :: 0 <= i < j < |tree| ==> grps[tree[i]].disptime <= grps[tree[j]].disptime
  }

  lemma {:induction false} SortedFrame(grps: seq<Grp>, grps': seq<Grp>, tree: seq<nat>)
    requires |grps| == |grps'| && InRange(grps, tree) && Sorted(grps, tree)
    requires forall k :: 0 <= k < |tree| ==> grps[tree[k]].disptime == grps'[tree[k]].disptime
    ensures InRange(grps', tree) && Sorted(grps', tree)
  {
  }

  function Insert(tree: seq<nat>, pos: nat, g: nat): seq<nat>
    requires pos <= |tree|
  {
    tree[..pos] + [g] + tree[pos..]
  }

  /** Whatever `g` is put in front of is due strictly later: it comes after the groups due at the same time. */
  ghost predicate AfterEquals(grps: seq<Grp>, tree: seq<nat>, pos: nat, g: nat) {
    && pos <= |tree| && g < |grps| && InRange(grps, tree)
    && forall k :: pos <= k < |tree| ==> grps[g].disptime < grps[tree[k]].disptime
  }

  lemma {:induction false} InsertAt(tree: seq<nat>, pos: nat, g: nat)
    requires pos <= |tree|
    ensures var t := Insert(tree, pos, g);
            && |t| == |tree| + 1 && t[pos] == g
            && (forall k :: 0 <= k < pos ==> t[k] == tree[k])
            && (forall k :: pos < k < |t| ==> t[k] == tree[k - 1])
            && (forall x :: x in t <==> x == g || x in tree)
  {
    var t := Insert(tree, pos, g);
    forall x | x in tree ensures x in t {
      var k :| 0 <= k < |tree| && tree[k] == x;
      assert t[if k < pos then k else k + 1] == x;
    }
  }

  lemma {:induction false} InsertNoDup(tree: seq<nat>, pos: nat, g: nat)
    requires pos <= |tree|
    ensures NoDup(Insert(tree, pos, g)) <==> NoDup(tree) && g !in tree
  {
    hide Insert;
    var t := Insert(tree, pos, g);
    InsertAt(tree, pos, g);
    if NoDup(t) {
      forall i, j | 0 <= i < j < |tree| ensures tree[i] != tree[j] {
        var i', j' := if i < pos then i else i + 1, if j < pos then j else j + 1;
        assert t[i'] == tree[i] && t[j'] == tree[j];
      }
      forall k | 0 <= k < |tree| ensures tree[k] != g { assert tree[k] == t[if k < pos then k else k + 1]; }
    }
  }

  lemma {:induction false} InsertSorted(grps: seq<Grp>, tree: seq<nat>, g: nat, pos: nat)
    requires pos <= |tree| && g < |grps| && InRange(grps, tree) && Sorted(grps, tree)
    requires forall k :: 0 <= k < pos ==> grps[tree[k]].disptime <= grps[g].disptime
    requires forall k :: pos <= k < |tree| ==> grps[g].disptime <= grps[tree[k]].disptime
    ensures InRange(grps, Insert(tree, pos, g)) && Sorted(grps, Insert(tree, pos, g))
  {
    hide Insert;
    InsertAt(tree, pos, g);
  }

  lemma {:induction false} RemoveSorted(grps: seq<Grp>, tree: seq<nat>, g: nat, pos: nat)
    requires pos <= |tree| && InRange(grps, Insert(tree, pos, g)) && Sorted(grps, Insert(tree, pos, g))
    ensures g < |grps| && InRange(grps, tree) && Sorted(grps, tree)
  {
    hide Insert;
    var t := Insert(tree, pos, g);
    InsertAt(tree, pos, g);
    forall k | 0 <= k < |tree| ensures tree[k] < |grps| { assert tree[k] == t[if k < pos then k else k + 1]; }
    forall i, j | 0 <= i < j < |tree| ensures grps[tree[i]].disptime <= grps[tree[j]].disptime {
      var i', j' := if i < pos then i else i + 1, if j < pos then j else j + 1;
      assert t[i'] == tree[i] && t[j'] == tree[j];
    }
  }

  /** How many groups on the tree are due at `now`. */
  ghost function Due(grps: seq<Grp>, tree: seq<nat>, now: nat): nat
    requires InRange(grps, tree)
  {
    if tree == [] then 0
    else (if grps[tree[0]].disptime <= now then 1 else 0) + Due(grps, tree[1..], now)
  }

  lemma {:induction false} DueInsert(grps: seq<Grp>, tree: seq<nat>, pos: nat, g: nat, now: nat)
    requires InRange(grps, tree)
    requires pos <= |tree| && g < |grps|
    ensures InRange(grps, Insert(tree, pos, g))
    ensures Due(grps, Insert(tree, pos, g), now) == Due(grps, tree, now) + if grps[g].disptime <= now then 1 else 0
  {
    var t := Insert(tree, pos, g);
    if pos == 0 {
      assert t[1..] == tree;
    } else {
      assert t[1..] == Insert(tree[1..], pos - 1, g);
      DueInsert(grps, tree[1..], pos - 1, g, now);
    }
  }

  lemma {:induction false} DueFrame(grps: seq<Grp>, grps': seq<Grp>, tree: seq<nat>, now: nat)
    requires |grps| == |grps'| && InRange(grps, tree)
    requires forall k :: 0 <= k < |tree| ==> grps[tree[k]].disptime == grps'[tree[k]].disptime
    ensures Due(grps, tree, now) == Due(grps', tree, now)
  {
    if tree != [] {
      assert forall k :: 0 <= k < |tree| - 1 ==> tree[1..][k] == tree[k + 1];
      DueFrame(grps, grps', tree[1..], now);
    }
  }

  // ---------------------------------------------------------------- Runs behind the lanes

  ghost predicate InOrder(es: seq<Event>, now: nat) {
    && (forall i, j :: 0 <= i < j < |es| ==> es[i].now <= es[j].now)
    && (es != [] ==> es[|es| - 1].now <= now)
  }

  lemma {:induction false} Extend(c: Config, l: Lane, es: seq<Event>, e: Event, now: nat)
    requires c.Valid() && l == Run(c, es) && InOrder(es, now) && now <= e.now
    ensures Run(c, es + [e]) == Step(c, l, e) && InOrder(es + [e], e.now)
  {
    hide Step;
    assert (es + [e])[..|es|] == es;
  }

  // ---------------------------------------------------------------- The queue's throttle data

  ghost predicate TreeOk(grps: seq<Grp>, tree: seq<nat>, left: Option<nat>, count: nat) {
    && count == |tree|
    && InRange(grps, tree) && NoDup(tree)
    && (forall g :: 0 <= g < |grps| ==> (grps[g].onRr <==> g in tree))
    && Sorted(grps, tree)
    && (left.Some? ==> tree != [] && left.value == tree[0])
  }

  lemma {:induction false} TreeInsert(grps: seq<Grp>, tree: seq<nat>, left: Option<nat>, g: nat, pos: nat)
    requires TreeOk(grps, tree, left, |tree|) && g < |grps| && !grps[g].onRr && pos <= |tree|
    requires forall k :: 0 <= k < pos ==> grps[tree[k]].disptime <= grps[g].disptime
    requires forall k :: pos <= k < |tree| ==> grps[g].disptime <= grps[tree[k]].disptime
    ensures TreeOk(grps[g := grps[g].(onRr := true)], Insert(tree, pos, g), if pos == 0 then Some(g) else left,
                   |tree| + 1)
  {
    hide Insert, NoDup;
    InsertAt(tree, pos, g);
    InsertNoDup(tree, pos, g);
    InsertSorted(grps, tree, g, pos);
    SortedFrame(grps, grps[g := grps[g].(onRr := true)], Insert(tree, pos, g));
  }

  lemma {:induction false} TreeRemove(grps: seq<Grp>, tree: seq<nat>, left: Option<nat>, g: nat, pos: nat)
    requires pos <= |tree| && TreeOk(grps, Insert(tree, pos, g), left, |tree| + 1)
    ensures g !in tree && g < |grps|
    ensures TreeOk(grps[g := grps[g].(onRr := false)], tree, if left == Some(g) then None else left, |tree|)
  {
    hide Insert, NoDup;
    InsertAt(tree, pos, g);
    InsertNoDup(tree, pos, g);
    RemoveSorted(grps, tree, g, pos);
    SortedFrame(grps, grps[g := grps[g].(onRr := false)], tree);
  }

  lemma {:induction false} TreeInRange(grps: seq<Grp>, tree: seq<nat>, left: Option<nat>, count: nat)
    requires TreeOk(grps, tree, left, count)
    ensures InRange(grps, tree)
    ensures tree != [] ==> tree[0] < |grps| && grps[tree[0]].onRr
  {
    hide NoDup, Sorted;
    assert tree != [] ==> tree[0] in tree;
  }

  /** Changing a group on or off the tree without touching its key or its mark. */
  lemma {:induction false} TreeFrame(grps: seq<Grp>, tree: seq<nat>, left: Option<nat>, count: nat, g: nat, x: Grp)
    requires TreeOk(grps, tree, left, count) && g < |grps| && x.disptime == grps[g].disptime && x.onRr == grps[g].onRr
    ensures TreeOk(grps[g := x], tree, left, count)
  {
    hide NoDup, Sorted;
    SortedFrame(grps, grps[g := x], tree);
  }

  /** Changing the key of a group that is off the tree. */
  lemma {:induction false} TreeRekey(grps: seq<Grp>, tree: seq<nat>, left: Option<nat>, count: nat, g: nat, x: Grp)
    requires TreeOk(grps, tree, left, count) && g < |grps| && !grps[g].onRr && !x.onRr
    ensures TreeOk(grps[g := x], tree, left, count)
  {
    hide NoDup, Sorted;
    SortedFrame(grps, grps[g := x], tree);
  }

  /** Taking a group off the tree (if it is there) and putting it back with a new key. */
  lemma {:induction false} DueMoved(before: seq<Grp>, tree: seq<nat>, after: seq<Grp>, mid: seq<nat>, tree': seq<nat>,
                                    g: nat, off: nat, on: nat, now: nat)
    requires g < |before| == |after| && InRange(before, tree) && InRange(before, mid) && g !in mid
    requires forall k :: 0 <= k < |before| && k != g ==> before[k].disptime == after[k].disptime
    requires if before[g].onRr then off <= |mid| && tree == Insert(mid, off, g) else tree == mid
    requires on <= |mid| && tree' == Insert(mid, on, g)
    requires before[g].onRr ==> before[g].disptime <= now
    ensures InRange(after, tree')
    ensures Due(after, tree', now) == Due(before, tree, now)
              - (if before[g].onRr then 1 else 0) + if after[g].disptime <= now then 1 else 0
  {
    hide Insert;
    if before[g].onRr { DueInsert(before, mid, off, g, now); }
    DueFrame(before, after, mid, now);
    DueInsert(after, mid, on, g, now);
  }

  /** `tg_update_disptime`: each direction's first bio is examined, and the group is due when the
      sooner of the two may go. */
  function Waited(x: Grp, d: Dir, now: nat): (Lane, nat)
    requires x.Valid()
  {
    if x.bios.Get(d) == [] then (x.lanes.Get(d), NO_WAIT)
    else
      var r := MayDispatch(x.config.Get(d), x.lanes.Get(d), x.bios.Get(d)[0].size, now);
      (r.lane, r.verdict.wait)
  }

  function WithDisptime(x: Grp, now: nat): Grp
    requires x.Valid()
  {
    var (rl, rw) := Waited(x, Read, now);
    var (wl, ww) := Waited(x, Write, now);
    x.(lanes := Pair(rl, wl), disptime := now + (if rw < ww then rw else ww), onRr := true)
  }

  /** Only the bios, the count and the lane of direction `d` may differ. */
  ghost predicate SameBut(x: Grp, y: Grp, d: Dir) {
    y == x.(bios := x.bios.Set(d, y.bios.Get(d)), nrQueued := x.nrQueued.Set(d, y.nrQueued.Get(d)),
            lanes := x.lanes.Set(d, y.lanes.Get(d)))
  }

  /** A group's lanes are where the events it has seen have led, in time order up to `clock`. */
  ghost predicate Traced(x: Grp, es: Pair<seq<Event>>, clock: nat) {
    && x.Valid()
    && x.lanes.read == Run(x.config.read, es.read) && InOrder(es.read, clock)
    && x.lanes.write == Run(x.config.write, es.write) && InOrder(es.write, clock)
  }

  ghost predicate BooksOk(grps: seq<Grp>, seen: seq<Pair<seq<Event>>>, nrQueued: Pair<nat>, clock: nat) {
    && |seen| == |grps|
    && (forall g :: 0 <= g < |grps| ==> Traced(grps[g], seen[g], clock))
    && nrQueued.read == QueuedTotal(grps, Read) && nrQueued.write == QueuedTotal(grps, Write)
  }

  lemma {:induction false} Unfold(grps: seq<Grp>, seen: seq<Pair<seq<Event>>>, nrQueued: Pair<nat>, clock: nat, g: nat)
    requires BooksOk(grps, seen, nrQueued, clock) && g < |grps|
    ensures g < |seen| && Traced(grps[g], seen[g], clock)
  {
  }

  /** The first bio of a direction is being held back now. */
  predicate Refused(x: Grp, d: Dir, now: nat)
    requires x.Valid()
  {
    x.bios.Get(d) != [] && !MayDispatch(x.config.Get(d), x.lanes.Get(d), x.bios.Get(d)[0].size, now).verdict.ok
  }

  /** The first bio of a direction may go now, in the slice as it stands. */
  predicate Admitted(x: Grp, d: Dir, now: nat)
    requires x.Valid() && x.bios.Get(d) != []
  {
    MayDispatch(x.config.Get(d), x.lanes.Get(d), x.bios.Get(d)[0].size, now) ==
      Outcome(x.lanes.Get(d), Verdict(true, 0))
  }

  /** `tg_dispatch_one_bio`: the first bio leaves, is charged, and the slice is trimmed. */
  function Popped(x: Grp, d: Dir, now: nat): Grp
    requires x.Valid() && x.bios.Get(d) != []
  {
    x.(bios := x.bios.Set(d, x.bios.Get(d)[1..]), nrQueued := x.nrQueued.Set(d, x.nrQueued.Get(d) - 1),
       lanes := x.lanes.Set(d, TrimSlice(x.config.Get(d), Charge(x.lanes.Get(d), x.bios.Get(d)[0].size), now)))
  }

  lemma {:induction false} PoppedTraced(x: Grp, es: Pair<seq<Event>>, clock: nat, d: Dir, now: nat)
    requires Traced(x, es, clock) && clock <= now && x.bios.Get(d) != [] && Admitted(x, d, now)
    ensures Traced(Popped(x, d, now), es.Set(d, es.Get(d) + [Dispatch(now, x.bios.Get(d)[0].size)]), now)
  {
    hide Run, MayDispatch, TrimSlice, Charge;
    TracedStep(x, es, clock, d, Dispatch(now, x.bios.Get(d)[0].size), Popped(x, d, now));
  }

  /** A busy group none of whose first bios may go now is not due now. */
  lemma {:induction false} HeldBackIsNotDue(x: Grp, now: nat)
    requires x.Valid() && x.Busy()
    requires forall d :: x.bios.Get(d) != [] ==> Refused(x, d, now)
    ensures now < WithDisptime(x, now).disptime
  {
    hide MayDispatch;
    forall d | x.bios.Get(d) != [] ensures 1 <= Waited(x, d, now).1 {
      assert Refused(x, d, now);
      RefusalWaits(x.config.Get(d), x.lanes.Get(d), x.bios.Get(d)[0].size, now);
    }
    assert 1 <= Waited(x, Read, now).1 && 1 <= Waited(x, Write, now).1;
  }

  /** How long the first bio of a direction has to wait. */
  ghost function HeadWaits(x: Grp, d: Dir, now: nat): nat
    requires x.Valid() && x.bios.Get(d) != []
  {
    MayDispatch(x.config.Get(d), x.lanes.Get(d), x.bios.Get(d)[0].size, now).verdict.wait
  }

  /** A group is due when the first of its first bios may go, and at once exactly if one of them may go at once. */
  lemma {:induction false} DueWhenFirstMayGo(x: Grp, now: nat)
    requires x.Valid() && x.Busy()
    ensures var due := WithDisptime(x, now).disptime;
            && now <= due && (forall d :: x.bios.Get(d) != [] ==> due <= now + HeadWaits(x, d, now))
            && (due == now + NO_WAIT || exists d :: x.bios.Get(d) != [] && due == now + HeadWaits(x, d, now))
            && (due == now <==> exists d :: x.bios.Get(d) != [] && !Refused(x, d, now))
  {
    hide MayDispatch;
    forall d | x.bios.Get(d) != [] ensures 1 <= HeadWaits(x, d, now) <==> Refused(x, d, now) {
      if Refused(x, d, now) { RefusalWaits(x.config.Get(d), x.lanes.Get(d), x.bios.Get(d)[0].size, now); }
      AdmittedAtOnce(x.config.Get(d), x.lanes.Get(d), x.bios.Get(d)[0].size, now);
    }
    assert x.bios.Get(Read) == x.bios.read && x.bios.Get(Write) == x.bios.write;
  }

  lemma {:induction false} AdmittedAtOnce(c: Config, l: Lane, size: nat, now: nat)
    requires c.Valid()
    ensures var v := MayDispatch(c, l, size, now).verdict; v.ok ==> v.wait == 0
  {
  }

  lemma {:induction false} InOrderTimely(es: seq<Event>, clock: nat)
    requires InOrder(es, clock) && forall i :: 0 <= i < |es| ==> es[i].size < U32
    ensures Timely(es)
    decreases |es|
  {
    if es != [] { InOrderTimely(es[..|es| - 1], clock); }
  }

  /** What a group may send in one turn: reads and then writes, each from the front of its queue. */
  ghost predicate Share(x: Grp, y: Grp, bl: seq<Bio>, out: seq<Bio>, now: nat) {
    && y.Valid() && y.config == x.config && |y.bios.read| <= |x.bios.read| && |y.bios.write| <= |x.bios.write|
    && var r, w := |x.bios.read| - |y.bios.read|, |x.bios.write| - |y.bios.write|;
       && r <= 6 && w <= 2
       && x.bios.read[r..] == y.bios.read && x.bios.write[w..] == y.bios.write
       && out == bl + x.bios.read[..r] + x.bios.write[..w]
       && (r == 6 || y.bios.read == [] || Refused(y, Read, now))
       && (w == 2 || y.bios.write == [] || Refused(y, Write, now))
  }

  /** No bio is lost on the way, and a turn that sends none leaves only bios that have to wait. */
  lemma {:induction false} ShareSays(x: Grp, y: Grp, bl: seq<Bio>, out: seq<Bio>, now: nat)
    requires Share(x, y, bl, out, now)
    ensures |bl| <= |out| <= |bl| + THROTL_GRP_QUANTUM
    ensures y.Held() + multiset(out) == x.Held() + multiset(bl)
    ensures |out| == |bl| ==> y.bios == x.bios && forall d :: y.bios.Get(d) != [] ==> Refused(y, d, now)
  {
    hide Refused;
    var r, w := |x.bios.read| - |y.bios.read|, |x.bios.write| - |y.bios.write|;
    MovedBios(x.bios.read, r, x.bios.write, w, bl);
  }

  lemma {:induction false} ShareIs(x: Grp, y: Grp, bl: seq<Bio>, mid: seq<Bio>, out: seq<Bio>, r: nat, w: nat, now: nat)
    requires y.Valid() && y.config == x.config && r <= 6 && w <= 2 && r <= |x.bios.read| && w <= |x.bios.write|
    requires y.bios.read == x.bios.read[r..] && y.bios.write == x.bios.write[w..]
    requires mid == bl + x.bios.read[..r] && out == mid + x.bios.write[..w]
    requires r == 6 || y.bios.read == [] || Refused(y, Read, now)
    requires w == 2 || y.bios.write == [] || Refused(y, Write, now)
    ensures Share(x, y, bl, out, now) && |out| == |bl| + r + w
  {
    hide Refused;
  }

  lemma {:induction false} StillRefused(x: Grp, y: Grp, now: nat)
    requires x.Valid() && y.Valid() && SameBut(x, y, Write)
    ensures y.bios.read == x.bios.read && (Refused(x, Read, now) <==> Refused(y, Read, now))
  {
    hide MayDispatch;
  }

  /** What the rate bound says about a group whose events are recorded. */
  lemma {:induction false} TracedRate(x: Grp, es: Pair<seq<Event>>, clock: nat, d: Dir)
    requires Traced(x, es, clock) && es.Get(d) != [] && !x.config.Get(d).Unlimited()
    requires forall i :: 0 <= i < |es.Get(d)| ==> es.Get(d)[i].size < U32
    ensures var c, h := x.config.Get(d), es.Get(d);
            && BytesCharged(c, h) * c.hz <= c.bps * (clock - h[0].now + c.slice)
            && (CounterFits(c, h) ==> IosCharged(c, h) * c.hz <= c.iops * (clock - h[0].now + c.slice))
  {
    hide Run, BytesCharged, IosCharged, CounterFits;
    InOrderTimely(es.Get(d), clock);
    var c, h := x.config.Get(d), es.Get(d);
    RateBound(c, h);
    MulLe(c.bps, h[|h| - 1].now - h[0].now + c.slice, clock - h[0].now + c.slice);
    MulLe(c.iops, h[|h| - 1].now - h[0].now + c.slice, clock - h[0].now + c.slice);
  }

  lemma {:induction false} BooksTotals(grps: seq<Grp>, seen: seq<Pair<seq<Event>>>, nrQueued: Pair<nat>, clock: nat)
    requires BooksOk(grps, seen, nrQueued, clock)
    ensures nrQueued.read == QueuedTotal(grps, Read) && nrQueued.write == QueuedTotal(grps, Write)
  {
  }

  lemma {:induction false} InOrderLater(es: seq<Event>, clock: nat, now: nat)
    requires InOrder(es, clock) && clock <= now
    ensures InOrder(es, now)
  {
  }

  /** Replacing one group by another whose lanes its extended history explains. */
  lemma {:induction false} BooksUpdate(grps: seq<Grp>, seen: seq<Pair<seq<Event>>>, nr: Pair<nat>, clock: nat,
                    g: nat, x: Grp, es: Pair<seq<Event>>, nr': Pair<nat>, now: nat)
    requires BooksOk(grps, seen, nr, clock) && g < |grps| && clock <= now && Traced(x, es, now)
    requires nr'.read == nr.read - |grps[g].bios.read| + |x.bios.read|
    requires nr'.write == nr.write - |grps[g].bios.write| + |x.bios.write|
    ensures BooksOk(grps[g := x], seen[g := es], nr', now)
  {
    hide Run;
    UpdateTotal(grps, g, x, Read);
    UpdateTotal(grps, g, x, Write);
    forall k | 0 <= k < |grps| && k != g ensures Traced(grps[k], seen[k], now) {
      InOrderLater(seen[k].read, clock, now);
      InOrderLater(seen[k].write, clock, now);
    }
  }

  /** One more event on one direction of a group. */
  lemma {:induction false} TracedStep(x: Grp, es: Pair<seq<Event>>, clock: nat, d: Dir, e: Event, x': Grp)
    requires Traced(x, es, clock) && clock <= e.now
    requires x'.Valid() && x'.config == x.config && x'.lanes == x.lanes.Set(d, Step(x.config.Get(d), x.lanes.Get(d), e))
    ensures Traced(x', es.Set(d, es.Get(d) + [e]), e.now)
  {
    hide Run, Step;
    Extend(x.config.Get(d), x.lanes.Get(d), es.Get(d), e, clock);
    InOrderLater(es.read, clock, e.now);
    InOrderLater(es.write, clock, e.now);
  }

  lemma {:induction false} MovedBios(r: seq<Bio>, n: nat, w: seq<Bio>, m: nat, bl: seq<Bio>)
    requires n <= |r| && m <= |w|
    ensures multiset(r[n..]) + multiset(w[m..]) + multiset(bl + r[..n] + w[..m]) ==
            multiset(r) + multiset(w) + multiset(bl)
  {
    assert r == r[..n] + r[n..] && w == w[..m] + w[m..];
  }

  /** Marking a group on or off the tree changes nothing in the books. */
  lemma {:induction false} BooksMark(grps: seq<Grp>, seen: seq<Pair<seq<Event>>>, nr: Pair<nat>, clock: nat, g: nat,
                                     on: bool)
    requires BooksOk(grps, seen, nr, clock) && g < |grps|
    ensures BooksOk(grps[g := grps[g].(onRr := on)], seen, nr, clock)
  {
    hide Run;
    BooksUpdate(grps, seen, nr, clock, g, grps[g].(onRr := on), seen[g], nr, clock);
    assert seen == seen[g := seen[g]];
  }

  lemma {:induction false} HeldMoved(before: seq<Grp>, after: seq<Grp>, g: nat, y: Grp, bl: seq<Bio>, out: seq<Bio>)
    requires g < |before| && |after| == |before| && after == before[g := after[g]] && after[g].bios == y.bios
    requires y.Held() + multiset(out) == before[g].Held() + multiset(bl)
    ensures HeldBios(after) + multiset(out) == HeldBios(before) + multiset(bl)
  {
    UpdateHeld(before, g, after[g]);
    assert after[g].Held() == y.Held();
    var h', h, o, b := HeldBios(after), HeldBios(before), multiset(out), multiset(bl);
    assert (h' + o) + before[g].Held() == (h' + before[g].Held()) + o;
    assert (h + b) + before[g].Held() == h + (before[g].Held() + b);
    Cancel(h' + o, h + b, before[g].Held());
  }

  lemma {:induction false} RestingBut(before: seq<Grp>, after: seq<Grp>, g: nat)
    requires g < |before| && |after| == |before| && after == before[g := after[g]]
    requires forall k :: 0 <= k < |before| ==> (before[k].onRr <==> before[k].Busy())
    requires after[g].onRr <==> after[g].Busy()
    ensures forall k :: 0 <= k < |after| ==> (after[k].onRr <==> after[k].Busy())
  {
  }

  lemma {:induction false} Cancel(a: multiset<Bio>, b: multiset<Bio>, c: multiset<Bio>)
    requires a + c == b + c
    ensures a == b
  {
    assert a == (a + c) - c && b == (b + c) - c;
  }

  lemma {:induction false} NothingDue(grps: seq<Grp>, tree: seq<nat>, left: Option<nat>, count: nat, now: nat)
    requires TreeOk(grps, tree, left, count) && (tree == [] || now < grps[tree[0]].disptime)
    ensures forall g :: 0 <= g < |grps| && grps[g].onRr ==> now < grps[g].disptime
  {
    hide NoDup;
    forall g | 0 <= g < |grps| && grps[g].onRr ensures now < grps[g].disptime {
      var k :| 0 <= k < |tree| && tree[k] == g;
      assert k == 0 || grps[tree[0]].disptime <= grps[tree[k]].disptime;
    }
  }

  ghost predicate Soonest(grps: seq<Grp>, g: nat) {
    && g < |grps| && grps[g].Busy()
    && forall k :: 0 <= k < |grps| && grps[k].Busy() ==> grps[g].disptime <= grps[k].disptime
  }

  /** The group sends its share, and if it still has bios it gets a new dispatch time. */
  ghost predicate DueAnew(x: Grp, z: Grp, bl: seq<Bio>, out: seq<Bio>, now: nat) {
    exists y: Grp :: y.Valid() && Share(x, y, bl, out, now) && z == if y.Busy() then WithDisptime(y, now) else y
  }

  /** One turn of the round: a group that is due, and no later than any other, sends its share and is due anew. */
  ghost predicate Turn(grps: seq<Grp>, grps': seq<Grp>, g: nat, bl: seq<Bio>, out: seq<Bio>, now: nat) {
    && g < |grps| == |grps'| && grps' == grps[g := grps'[g]]
    && Soonest(grps, g) && grps[g].disptime <= now && DueAnew(grps[g], grps'[g], bl, out, now)
  }

  ghost predicate SomeTurn(grps: seq<Grp>, grps': seq<Grp>, bl: seq<Bio>, out: seq<Bio>, now: nat) {
    exists g: nat :: Turn(grps, grps', g, bl, out, now)
  }

  /** A round is a chain of such turns. */
  ghost predicate Round(steps: seq<seq<Grp>>, sent: seq<seq<Bio>>, now: nat) {
    && |steps| == |sent| && steps != []
    && forall i :: 0 <= i < |steps| - 1 ==> SomeTurn(steps[i], steps[i + 1], sent[i], sent[i + 1], now)
  }

  lemma {:induction false} RoundOn(steps: seq<seq<Grp>>, sent: seq<seq<Bio>>, now: nat, grps: seq<Grp>, out: seq<Bio>)
    requires Round(steps, sent, now) && SomeTurn(steps[|steps| - 1], grps, sent[|sent| - 1], out, now)
    ensures Round(steps + [grps], sent + [out], now)
  {
    hide SomeTurn;
    var steps', sent' := steps + [grps], sent + [out];
    forall i | 0 <= i < |steps'| - 1 ensures SomeTurn(steps'[i], steps'[i + 1], sent'[i], sent'[i + 1], now) {
      assert i < |steps| - 1 ==> SomeTurn(steps[i], steps[i + 1], sent[i], sent[i + 1], now);
    }
  }

  predicate Suffix(a: seq<Bio>, b: seq<Bio>) { |a| <= |b| && b[|b| - |a|..] == a }

  lemma {:induction false} SuffixOn(a: seq<Bio>, b: seq<Bio>, c: seq<Bio>)
    requires Suffix(a, b) && Suffix(b, c)
    ensures Suffix(a, c)
  {
    assert c[|c| - |a|..] == c[|c| - |b|..][|b| - |a|..];
  }

  lemma {:induction false} ShareFifo(x: Grp, y: Grp, bl: seq<Bio>, out: seq<Bio>, now: nat, d: Dir)
    requires Share(x, y, bl, out, now)
    ensures y.Valid() && Suffix(y.bios.Get(d), x.bios.Get(d)) && bl <= out
  {
    hide Refused;
  }

  lemma {:induction false} DueAnewFifo(x: Grp, z: Grp, bl: seq<Bio>, out: seq<Bio>, now: nat, d: Dir)
    requires DueAnew(x, z, bl, out, now)
    ensures Suffix(z.bios.Get(d), x.bios.Get(d)) && bl <= out
  {
    hide Share, WithDisptime;
    var y: Grp :| y.Valid() && Share(x, y, bl, out, now) && z == if y.Busy() then WithDisptime(y, now) else y;
    ShareFifo(x, y, bl, out, now, d);
    DisptimeOnly(y, now);
  }

  lemma {:induction false} TurnFifo(grps: seq<Grp>, grps': seq<Grp>, g: nat, bl: seq<Bio>, out: seq<Bio>, now: nat,
                                    k: nat, d: Dir)
    requires Turn(grps, grps', g, bl, out, now) && k < |grps|
    ensures |grps'| == |grps| && Suffix(grps'[k].bios.Get(d), grps[k].bios.Get(d)) && bl <= out
  {
    hide DueAnew, Soonest;
    DueAnewFifo(grps[g], grps'[g], bl, out, now, d);
  }

  lemma {:induction false} DisptimeOnly(y: Grp, now: nat)
    requires y.Valid()
    ensures WithDisptime(y, now).bios == y.bios
  {
  }

  /** In a round each group's bios leave from the front of their queue only. */
  lemma {:induction false} RoundFifo(steps: seq<seq<Grp>>, sent: seq<seq<Bio>>, now: nat, n: nat, k: nat, d: Dir)
    requires Round(steps, sent, now) && n < |steps| && k < |steps[0]|
    ensures |steps[n]| == |steps[0]| && Suffix(steps[n][k].bios.Get(d), steps[0][k].bios.Get(d))
  {
    hide Turn;
    if n != 0 {
      RoundFifo(steps, sent, now, n - 1, k, d);
      var i := n - 1;
      assert SomeTurn(steps[i], steps[i + 1], sent[i], sent[i + 1], now);
      var g: nat :| Turn(steps[i], steps[i + 1], g, sent[i], sent[i + 1], now);
      TurnFifo(steps[i], steps[i + 1], g, sent[i], sent[i + 1], now, k, d);
      SuffixOn(steps[n][k].bios.Get(d), steps[n - 1][k].bios.Get(d), steps[0][k].bios.Get(d));
    }
  }

  lemma {:induction false} FirstIsSoonest(grps: seq<Grp>, tree: seq<nat>, left: Option<nat>, count: nat)
    requires TreeOk(grps, tree, left, count)
    requires forall g :: 0 <= g < |grps| ==> (grps[g].onRr <==> grps[g].Busy())
    requires exists g :: 0 <= g < |grps| && grps[g].Busy()
    ensures tree != [] && count == |tree| && Soonest(grps, tree[0])
  {
    hide NoDup;
    forall g | 0 <= g < |grps| && grps[g].Busy() ensures tree != [] && grps[tree[0]].disptime <= grps[g].disptime {
      var k :| 0 <= k < |tree| && tree[k] == g;
      assert k == 0 || grps[tree[0]].disptime <= grps[tree[k]].disptime;
    }
    assert tree[0] in tree;
  }

  lemma {:induction false} QuietWhenZero(grps: seq<Grp>)
    requires QueuedTotal(grps, Read) + QueuedTotal(grps, Write) == 0
    ensures forall g :: 0 <= g < |grps| ==> !grps[g].Busy()
  {
    if grps != [] {
      QuietWhenZero(grps[1..]);
      assert forall g :: 1 <= g < |grps| ==> grps[g] == grps[1..][g - 1];
    }
  }

  lemma {:induction false} BusyWhenCounted(grps: seq<Grp>)
    requires QueuedTotal(grps, Read) + QueuedTotal(grps, Write) != 0
    ensures exists g :: 0 <= g < |grps| && grps[g].Busy()
  {
    if forall g :: 0 <= g < |grps| ==> !grps[g].Busy() {
      IdleTotal(grps, Read);
      IdleTotal(grps, Write);
    }
  }

  /** A bio waits behind those of its direction, or because the limits hold it back. */
  predicate Held(x: Grp, d: Dir, bio: Bio, now: nat) {
    x.Valid() && (x.bios.Get(d) != [] || !MayDispatch(x.config.Get(d), x.lanes.Get(d), bio.size, now).verdict.ok)
  }

  /** The group with the bio at the end of its queue; the first in a direction makes it examine both again. */
  function Queued(x: Grp, d: Dir, bio: Bio, now: nat): Grp
    requires x.Valid()
  {
    var y := x.(bios := x.bios.Set(d, x.bios.Get(d) + [bio]), nrQueued := x.nrQueued.Set(d, x.nrQueued.Get(d) + 1),
                onRr := true);
    if x.bios.Get(d) != [] then y
    else
      var lane := MayDispatch(x.config.Get(d), x.lanes.Get(d), bio.size, now).lane;
      WithDisptime(y.(lanes := x.lanes.Set(d, lane)), now)
  }

  class ThrotlData {
    var grps: seq<Grp>
    var tree: seq<nat>
    var left: Option<nat>
    var count: nat
    var minDisptime: nat
    var nrQueued: Pair<nat>
    ghost var seen: seq<Pair<seq<Event>>>
    ghost var clock: nat

    ghost predicate Wf()
      reads this
    {
      TreeOk(grps, tree, left, count) && BooksOk(grps, seen, nrQueued, clock)
    }

    /** What holds whenever the queue lock is free. */
    ghost predicate Resting()
      reads this
    {
      Wf() && forall g :: 0 <= g < |grps| ==> (grps[g].onRr <==> grps[g].Busy())
    }

    /** Groups with limits and nothing queued yet. */
    constructor (configs: seq<Pair<Config>>)
      requires forall g :: 0 <= g < |configs| ==> configs[g].read.Valid() && configs[g].write.Valid()
      ensures Resting() && |grps| == |configs| && tree == [] && clock == 0
      ensures forall g :: 0 <= g < |grps| ==> grps[g] == Unused(configs[g]) && seen[g] == Pair([], [])
    {
      grps := seq(|configs|, g requires 0 <= g < |configs| => Unused(configs[g]));
      tree, left, count, minDisptime, nrQueued := [], None, 0, 0, Pair(0, 0);
      seen := seq(|configs|, _ => Pair([], []));
      clock := 0;
      new;
      IdleTotal(grps, Read);
      IdleTotal(grps, Write);
    }

    method RbFirst() returns (first: Option<nat>)
      requires TreeOk(grps, tree, left, count)
      modifies this`left
      ensures TreeOk(grps, tree, left, count)
      ensures first == if tree == [] then None else Some(tree[0])
    {
      if count == 0 {
        return None;
      }
      if left.None? {
        left := Some(tree[0]);
      }
      first := left;
    }

    method ServiceTreeAdd(g: nat) returns (ghost pos: nat)
      requires g < |grps| && !grps[g].onRr && TreeOk(grps, tree, left, count)
      modifies this`tree, this`left
      ensures pos <= |old(tree)| && tree == Insert(old(tree), pos, g)
      ensures AfterEquals(grps, old(tree), pos, g)
      ensures TreeOk(grps[g := grps[g].(onRr := true)], tree, left, count + 1)
    {
      var key := grps[g].disptime;
      var at := |tree|;
      while 0 < at && key < grps[tree[at - 1]].disptime
        invariant 0 <= at <= |tree|
        invariant forall k :: at <= k < |tree| ==> key < grps[tree[k]].disptime
      {
        at := at - 1;
      }
      if at == 0 {
        left := Some(g);
      }
      TreeInsert(grps, tree, old(left), g, at);
      tree := Insert(tree, at, g);
      pos := at;
    }

    method EnqueueTg(g: nat) returns (ghost pos: nat)
      requires g < |grps| && TreeOk(grps, tree, left, count)
      modifies this`tree, this`left, this`count, this`grps
      ensures TreeOk(grps, tree, left, count)
      ensures grps == old(grps)[g := old(grps)[g].(onRr := true)]
      ensures old(grps)[g].onRr ==> tree == old(tree) && left == old(left)
      ensures !old(grps)[g].onRr ==> && pos <= |old(tree)| && tree == Insert(old(tree), pos, g)
                                     && AfterEquals(grps, old(tree), pos, g)
    {
      pos := 0;
      if !grps[g].onRr {
        pos := ServiceTreeAdd(g);
        grps := grps[g := grps[g].(onRr := true)];
        count := count + 1;
      }
    }

    method DequeueTg(g: nat) returns (ghost pos: nat)
      requires g < |grps| && TreeOk(grps, tree, left, count)
      modifies this`tree, this`left, this`count, this`grps
      ensures TreeOk(grps, tree, left, count)
      ensures grps == old(grps)[g := old(grps)[g].(onRr := false)]
      ensures g !in tree
      ensures !old(grps)[g].onRr ==> tree == old(tree) && left == old(left)
      ensures old(grps)[g].onRr ==> pos <= |tree| && old(tree) == Insert(tree, pos, g)
    {
      pos := 0;
      if grps[g].onRr {
        var at, rest := Extract(tree, g);
        TreeRemove(grps, rest, left, g, at);
        if left == Some(g) {
          left := None;
        }
        tree := rest;
        grps := grps[g := grps[g].(onRr := false)];
        count := count - 1;
        pos := at;
      }
    }

    // ------------------------------------------------------------ Bios in and out of a group

    method MayDispatchTg(g: nat, d: Dir, size: nat, now: nat) returns (ok: bool, wait: nat)
      requires Wf() && g < |grps| && clock <= now
      modifies this`grps, this`seen, this`clock
      ensures Wf() && clock == now
      ensures var x := old(grps)[g]; var r := MayDispatch(x.config.Get(d), x.lanes.Get(d), size, now);
              && ok == r.verdict.ok && wait == r.verdict.wait
              && grps == old(grps)[g := x.(lanes := x.lanes.Set(d, r.lane))]
    {
      hide Run, MayDispatch;
      var x := grps[g];
      var r := MayDispatch(x.config.Get(d), x.lanes.Get(d), size, now);
      var x' := x.(lanes := x.lanes.Set(d, r.lane));
      TracedStep(x, seen[g], clock, d, Probe(now, size), x');
      ghost var es := seen[g].Set(d, seen[g].Get(d) + [Probe(now, size)]);
      BooksUpdate(grps, seen, nrQueued, clock, g, x', es, nrQueued, now);
      TreeFrame(grps, tree, left, count, g, x');
      grps := grps[g := x'];
      seen := seen[g := es];
      clock := now;
      return r.verdict.ok, r.verdict.wait;
    }

    /** Queue a bio on a group that stays where it is in the tree, or joins it. */
    method AddBioTg(g: nat, d: Dir, bio: Bio)
      requires Wf() && g < |grps|
      modifies this`tree, this`left, this`count, this`grps, this`nrQueued
      ensures Wf()
      ensures var x := old(grps)[g];
              grps == old(grps)[g := x.(bios := x.bios.Set(d, x.bios.Get(d) + [bio]),
                                        nrQueued := x.nrQueued.Set(d, x.nrQueued.Get(d) + 1), onRr := true)]
      ensures nrQueued == old(nrQueued).Set(d, old(nrQueued).Get(d) + 1)
    {
      hide Run;
      var x := grps[g];
      var x' := x.(bios := x.bios.Set(d, x.bios.Get(d) + [bio]), nrQueued := x.nrQueued.Set(d, x.nrQueued.Get(d) + 1));
      var nr' := nrQueued.Set(d, nrQueued.Get(d) + 1);
      BooksUpdate(grps, seen, nrQueued, clock, g, x'.(onRr := true), seen[g], nr', clock);
      TreeFrame(grps, tree, left, count, g, x');
      grps := grps[g := x'];
      nrQueued := nr';
      ghost var pos := EnqueueTg(g);
      assert grps == old(grps)[g := x'.(onRr := true)];
      assert seen == seen[g := seen[g]];
    }

    method HeadWait(g: nat, d: Dir, now: nat) returns (wait: nat)
      requires Wf() && g < |grps| && clock <= now
      modifies this`grps, this`seen, this`clock
      ensures Wf() && clock <= now
      ensures var x := old(grps)[g]; var (l, w) := Waited(x, d, now);
              wait == w && grps == old(grps)[g := x.(lanes := x.lanes.Set(d, l))]
    {
      hide MayDispatch, BooksOk, TreeOk;
      var x := grps[g];
      assert Traced(x, seen[g], clock) by { Unfold(grps, seen, nrQueued, clock, g); }
      wait := NO_WAIT;
      if x.bios.Get(d) != [] {
        var ok;
        ok, wait := MayDispatchTg(g, d, x.bios.Get(d)[0].size, now);
      } else {
        assert grps == grps[g := x] && x.lanes == x.lanes.Set(d, x.lanes.Get(d));
      }
    }

    method Requeue(g: nat, disptime: nat, now: nat)
      requires Wf() && g < |grps| && clock <= now
      modifies this`tree, this`left, this`count, this`grps, this`clock
      ensures Wf() && clock == now
      ensures grps == old(grps)[g := old(grps)[g].(disptime := disptime, onRr := true)]
      ensures old(grps)[g].disptime <= now || !old(grps)[g].onRr ==>
                Due(grps, tree, now) == Due(old(grps), old(tree), now)
                  - (if old(grps)[g].onRr then 1 else 0) + if disptime <= now then 1 else 0
    {
      hide Insert, NoDup, Sorted, Run;
      ghost var x := grps[g];
      ghost var off := DequeueTg(g);
      TreeRekey(grps, tree, left, count, g, grps[g].(disptime := disptime));
      grps := grps[g := grps[g].(disptime := disptime)];
      ghost var mid := tree;
      ghost var on := EnqueueTg(g);
      assert grps == old(grps)[g := x.(disptime := disptime, onRr := true)];
      BooksUpdate(old(grps), seen, nrQueued, clock, g, x.(disptime := disptime, onRr := true), seen[g], nrQueued, now);
      assert seen == seen[g := seen[g]];
      if x.disptime <= now || !x.onRr {
        DueMoved(old(grps), old(tree), grps, mid, tree, g, off, on, now);
      }
      clock := now;
    }

    method UpdateDisptime(g: nat, now: nat)
      requires Wf() && g < |grps| && clock <= now && grps[g].Busy()
      modifies this`tree, this`left, this`count, this`grps, this`seen, this`clock
      ensures Wf() && clock == now
      ensures grps == old(grps)[g := WithDisptime(old(grps)[g], now)]
      ensures old(grps)[g].disptime <= now || !old(grps)[g].onRr ==>
                Due(grps, tree, now) == Due(old(grps), old(tree), now)
                  - (if old(grps)[g].onRr then 1 else 0) + if grps[g].disptime <= now then 1 else 0
    {
      hide MayDispatch, BooksOk, Sorted, NoDup;
      ghost var x := grps[g];
      assert Traced(x, seen[g], clock) by { Unfold(grps, seen, nrQueued, clock, g); }
      var readWait := HeadWait(g, Read, now);
      var writeWait := HeadWait(g, Write, now);
      DueFrame(old(grps), grps, tree, now);
      Requeue(g, now + if readWait < writeWait then readWait else writeWait, now);
    }

    method DispatchOneBio(g: nat, d: Dir, now: nat) returns (bio: Bio)
      requires Wf() && g < |grps| && clock <= now && grps[g].Valid() && grps[g].bios.Get(d) != []
      requires Admitted(grps[g], d, now)
      modifies this`grps, this`seen, this`clock, this`nrQueued
      ensures Wf() && clock == now
      ensures bio == old(grps)[g].bios.Get(d)[0] && grps == old(grps)[g := Popped(old(grps)[g], d, now)]
      ensures old(nrQueued).Get(d) > 0 && nrQueued == old(nrQueued).Set(d, old(nrQueued).Get(d) - 1)
    {
      hide Run, MayDispatch, TrimSlice, Charge, Admitted, Traced;
      var x := grps[g];
      bio := x.bios.Get(d)[0];
      UpdateTotal(grps, g, x, d);
      var x' := Popped(x, d, now);
      PoppedTraced(x, seen[g], clock, d, now);
      ghost var es := seen[g].Set(d, seen[g].Get(d) + [Dispatch(now, bio.size)]);
      BooksUpdate(grps, seen, nrQueued, clock, g, x', es, nrQueued.Set(d, nrQueued.Get(d) - 1), now);
      TreeFrame(grps, tree, left, count, g, x');
      nrQueued := nrQueued.Set(d, nrQueued.Get(d) - 1);
      grps := grps[g := x'];
      seen := seen[g := es];
      clock := now;
    }

    /** One turn of a loop of `throtl_dispatch_tg`: the first bio of a direction, if there is one and
        it may go. */
    method PopIfAllowed(g: nat, d: Dir, now: nat) returns (r: Option<Bio>)
      requires Wf() && g < |grps| && clock <= now
      modifies this`grps, this`seen, this`clock, this`nrQueued
      ensures Wf() && clock <= now && |grps| == |old(grps)|
      ensures grps == old(grps)[g := grps[g]] && SameBut(old(grps)[g], grps[g], d) && grps[g].Valid()
      ensures r.Some? ==> && old(grps)[g].bios.Get(d) == [r.value] + grps[g].bios.Get(d)
                          && nrQueued.Get(d) == old(nrQueued).Get(d) - 1
                          && nrQueued == old(nrQueued).Set(d, nrQueued.Get(d))
      ensures r.None? ==> && grps[g].bios == old(grps)[g].bios && nrQueued == old(nrQueued)
                          && (grps[g].bios.Get(d) == [] || Refused(grps[g], d, now))
    {
      hide MayDispatch, TreeOk, BooksOk, Run, TrimSlice, Charge;
      ghost var x := grps[g];
      Unfold(grps, seen, nrQueued, clock, g);
      if grps[g].bios.Get(d) == [] {
        return None;
      }
      var size := grps[g].bios.Get(d)[0].size;
      MayDispatchAgain(x.config.Get(d), x.lanes.Get(d), size, now);
      var ok, wait := MayDispatchTg(g, d, size, now);
      if !ok {
        return None;
      }
      AdmittedNow(x.config.Get(d), x.lanes.Get(d), size, now);
      var bio := DispatchOneBio(g, d, now);
      return Some(bio);
    }

    /** One of the two loops of `throtl_dispatch_tg`. */
    method DispatchDir(g: nat, d: Dir, now: nat, max: nat, bl: seq<Bio>) returns (nr: nat, out: seq<Bio>)
      requires Wf() && g < |grps| && clock <= now && 1 <= max
      modifies this`grps, this`seen, this`clock, this`nrQueued
      ensures Wf() && clock <= now && |grps| == |old(grps)|
      ensures grps == old(grps)[g := grps[g]] && SameBut(old(grps)[g], grps[g], d) && grps[g].Valid()
      ensures nr <= max && nr <= |old(grps)[g].bios.Get(d)|
      ensures grps[g].bios.Get(d) == old(grps)[g].bios.Get(d)[nr..] && out == bl + old(grps)[g].bios.Get(d)[..nr]
      ensures nrQueued.Get(d) == old(nrQueued).Get(d) - nr && nrQueued == old(nrQueued).Set(d, nrQueued.Get(d))
      ensures nr == max || grps[g].bios.Get(d) == [] || Refused(grps[g], d, now)
    {
      hide TreeOk, BooksOk, Refused;
      Unfold(grps, seen, nrQueued, clock, g);
      ghost var q := grps[g].bios.Get(d);
      nr, out := 0, bl;
      while nr < max
        invariant Wf() && clock <= now && nr <= max && nr <= |q| && |grps| == |old(grps)|
        invariant grps == old(grps)[g := grps[g]] && SameBut(old(grps)[g], grps[g], d) && grps[g].Valid()
        invariant grps[g].bios.Get(d) == q[nr..] && out == bl + q[..nr]
        invariant nrQueued.Get(d) == old(nrQueued).Get(d) - nr && nrQueued == old(nrQueued).Set(d, nrQueued.Get(d))
      {
        var r := PopIfAllowed(g, d, now);
        if r.None? {
          break;
        }
        out := out + [r.value];
        nr := nr + 1;
      }
    }

    /** `throtl_dispatch_tg`: up to six reads, then up to two writes; fewer of a kind only if none is left or the next
        one has to wait. */
    method DispatchTg(g: nat, now: nat, bl: seq<Bio>) returns (nr: nat, out: seq<Bio>)
      requires Wf() && g < |grps| && clock <= now
      modifies this`grps, this`seen, this`clock, this`nrQueued
      ensures Wf() && clock <= now && |grps| == |old(grps)| && grps[g].Valid()
      ensures grps == old(grps)[g := grps[g]] && grps[g].disptime == old(grps)[g].disptime
      ensures grps[g].onRr == old(grps)[g].onRr
      ensures Share(old(grps)[g], grps[g], bl, out, now) && nr == |out| - |bl|
      ensures nr <= THROTL_GRP_QUANTUM && |out| == |bl| + nr
      ensures grps[g].Held() + multiset(out) == old(grps)[g].Held() + multiset(bl)
      ensures nrQueued.read + nrQueued.write + nr == old(nrQueued).read + old(nrQueued).write
      ensures nr == 0 ==> grps[g].bios == old(grps)[g].bios
                          && forall d :: grps[g].bios.Get(d) != [] ==> Refused(grps[g], d, now)
    {
      hide TreeOk, BooksOk, Refused;
      ghost var x := grps[g];
      var maxReads := THROTL_GRP_QUANTUM * 3 / 4;
      var nrReads, nrWrites;
      nrReads, out := DispatchDir(g, Read, now, maxReads, bl);
      ghost var mid, some := grps[g], out;
      nrWrites, out := DispatchDir(g, Write, now, THROTL_GRP_QUANTUM - maxReads, out);
      StillRefused(mid, grps[g], now);
      nr := nrReads + nrWrites;
      ShareIs(x, grps[g], bl, some, out, nrReads, nrWrites, now);
      hide Share;
      ShareSays(x, grps[g], bl, out, now);
    }

    /** `throtl_select_dispatch`, one round with time standing still. */
    method SelectDispatch(now: nat, bl: seq<Bio>)
      returns (nrDisp: nat, out: seq<Bio>, ghost steps: seq<seq<Grp>>, ghost sent: seq<seq<Bio>>)
      requires Resting() && clock <= now
      modifies this
      ensures Resting() && clock <= now && |grps| == |old(grps)|
      ensures nrDisp <= THROTL_QUANTUM + THROTL_GRP_QUANTUM - 1 && |out| == |bl| + nrDisp
      ensures HeldBios(grps) + multiset(out) == HeldBios(old(grps)) + multiset(bl)
      ensures nrQueued.read + nrQueued.write + nrDisp == old(nrQueued).read + old(nrQueued).write
      ensures nrDisp >= THROTL_QUANTUM || forall g :: 0 <= g < |grps| && grps[g].Busy() ==> now < grps[g].disptime
      ensures Round(steps, sent, now) && steps[0] == old(grps) && steps[|steps| - 1] == grps
      ensures sent[0] == bl && sent[|sent| - 1] == out
    {
      hide BooksOk, HeldBios, Due, Sorted, NoDup, InRange, Grp.Held, SomeTurn;
      nrDisp, out, steps, sent := 0, bl, [grps], [bl];
      while true
        invariant Resting() && clock <= now && |grps| == |old(grps)|
        invariant nrDisp < THROTL_QUANTUM && |out| == |bl| + nrDisp
        invariant Round(steps, sent, now) && steps[0] == old(grps) && steps[|steps| - 1] == grps
        invariant sent[0] == bl && sent[|sent| - 1] == out
        invariant HeldBios(grps) + multiset(out) == HeldBios(old(grps)) + multiset(bl)
        invariant nrQueued.read + nrQueued.write + nrDisp == old(nrQueued).read + old(nrQueued).write
        decreases nrQueued.read + nrQueued.write, Due(grps, tree, now)
      {
        var nr, quiet;
        nr, out, quiet := DispatchFirst(now, out);
        if !quiet {
          RoundOn(steps, sent, now, grps, out);
          steps, sent := steps + [grps], sent + [out];
        }
        nrDisp := nrDisp + nr;
        if quiet || nrDisp >= THROTL_QUANTUM {
          break;
        }
      }
    }

    /** One turn of the loop: the first group, unless none is due. */
    method DispatchFirst(now: nat, bl: seq<Bio>) returns (nr: nat, out: seq<Bio>, quiet: bool)
      requires Resting() && clock <= now
      modifies this
      ensures Resting() && clock <= now && |grps| == |old(grps)|
      ensures nr <= THROTL_GRP_QUANTUM && |out| == |bl| + nr
      ensures HeldBios(grps) + multiset(out) == HeldBios(old(grps)) + multiset(bl)
      ensures nrQueued.read + nrQueued.write + nr == old(nrQueued).read + old(nrQueued).write
      ensures quiet ==> && nr == 0 && grps == old(grps) && out == bl
                        && forall g :: 0 <= g < |grps| && grps[g].Busy() ==> now < grps[g].disptime
      ensures !quiet ==> SomeTurn(old(grps), grps, bl, out, now)
      ensures !quiet && nr == 0 ==> Due(grps, tree, now) < old(Due(grps, tree, now))
    {
      hide BooksOk, MayDispatch, NoDup, Insert, Grp.Held, HeldBios;
      var first := RbFirst();
      TreeInRange(grps, tree, left, count);
      if first.None? || now < grps[first.value].disptime {
        NothingDue(grps, tree, left, count, now);
        return 0, bl, true;
      }
      assert grps[first.value].Busy();
      FirstIsSoonest(grps, tree, left, count);
      nr, out := DispatchGroup(first.value, now, bl);
      quiet := false;
      assert Turn(old(grps), grps, first.value, bl, out, now);
    }

    /** The first group leaves the tree and dispatches what it may. */
    method TakeAndDispatch(g: nat, now: nat, bl: seq<Bio>) returns (nr: nat, out: seq<Bio>)
      requires Wf() && clock <= now && g < |grps| && grps[g].onRr && grps[g].disptime <= now
      modifies this
      ensures Wf() && clock <= now && |grps| == |old(grps)| && grps[g].Valid()
      ensures grps == old(grps)[g := grps[g]] && !grps[g].onRr
      ensures Share(old(grps)[g], grps[g], bl, out, now)
      ensures nr <= THROTL_GRP_QUANTUM && |out| == |bl| + nr
      ensures grps[g].Held() + multiset(out) == old(grps)[g].Held() + multiset(bl)
      ensures nrQueued.read + nrQueued.write + nr == old(nrQueued).read + old(nrQueued).write
      ensures nr == 0 ==> grps[g].bios == old(grps)[g].bios
                          && forall d :: grps[g].bios.Get(d) != [] ==> Refused(grps[g], d, now)
      ensures Due(grps, tree, now) == Due(old(grps), old(tree), now) - 1
    {
      hide BooksOk, NoDup, Sorted, Insert, Refused;
      ghost var off := DequeueTg(g);
      assert BooksOk(grps, seen, nrQueued, clock) by { BooksMark(old(grps), seen, nrQueued, clock, g, false); }
      DueInsert(old(grps), tree, off, g, now);
      nr, out := DispatchTg(g, now, bl);
      DueFrame(old(grps), grps, tree, now);
    }

    /** A group that still has bios gets a new dispatch time and goes back on the tree. */
    method PutBack(g: nat, now: nat)
      requires Wf() && clock <= now && g < |grps| && grps[g].Valid() && !grps[g].onRr
      modifies this
      ensures Wf() && clock <= now && |grps| == |old(grps)| && nrQueued == old(nrQueued)
      ensures grps == old(grps)[g := grps[g]]
      ensures grps[g] == if old(grps)[g].Busy() then WithDisptime(old(grps)[g], now) else old(grps)[g]
      ensures Due(grps, tree, now) ==
              Due(old(grps), old(tree), now) + if grps[g].Busy() && grps[g].disptime <= now then 1 else 0
    {
      hide BooksOk, NoDup, Sorted, MayDispatch;
      if grps[g].nrQueued.read != 0 || grps[g].nrQueued.write != 0 {
        UpdateDisptime(g, now);
        ghost var settled := grps;
        ghost var on := EnqueueTg(g);
        assert grps == settled;
      }
    }

    /** The body of the round. */
    method DispatchGroup(g: nat, now: nat, bl: seq<Bio>) returns (nr: nat, out: seq<Bio>)
      requires Resting() && clock <= now && g < |grps| && grps[g].onRr && grps[g].disptime <= now
      modifies this
      ensures Resting() && clock <= now && |grps| == |old(grps)|
      ensures nr <= THROTL_GRP_QUANTUM && |out| == |bl| + nr
      ensures HeldBios(grps) + multiset(out) == HeldBios(old(grps)) + multiset(bl)
      ensures nrQueued.read + nrQueued.write + nr == old(nrQueued).read + old(nrQueued).write
      ensures nr == 0 ==> Due(grps, tree, now) < Due(old(grps), old(tree), now)
      ensures grps == old(grps)[g := grps[g]]
      ensures DueAnew(old(grps)[g], grps[g], bl, out, now)
    {
      hide BooksOk, NoDup, Sorted, MayDispatch, Refused, Waited, Grp.Held;
      nr, out := TakeAndDispatch(g, now, bl);
      ghost var y := grps[g];
      if nr == 0 {
        HeldBackIsNotDue(y, now);
      }
      PutBack(g, now);
      HeldMoved(old(grps), grps, g, y, bl, out);
      RestingBut(old(grps), grps, g);
    }

    /** `throtl_schedule_next_dispatch`: the delay after which the worker runs again. */
    method ScheduleNextDispatch(now: nat) returns (delay: Option<nat>)
      requires Resting()
      modifies this`left, this`minDisptime
      ensures Resting()
      ensures delay.None? <==> forall g :: 0 <= g < |grps| ==> !grps[g].Busy()
      ensures delay.Some? ==> exists g: nat :: Soonest(grps, g) && now + delay.value == Max(now, grps[g].disptime)
    {
      hide TreeOk, BooksOk;
      BooksTotals(grps, seen, nrQueued, clock);
      if nrQueued.read + nrQueued.write == 0 {
        QuietWhenZero(grps);
        return None;
      }
      BusyWhenCounted(grps);
      FirstIsSoonest(grps, tree, left, count);
      assert count != 0; // BUG_ON(!st->count)
      var first := RbFirst();
      minDisptime := grps[first.value].disptime;
      delay := Some(if minDisptime <= now then 0 else minDisptime - now);
      assert Soonest(grps, tree[0]);
    }

    /** `blk_throtl_bio`: a bio that was throttled before passes; any other goes at once and is charged, or joins its
        group's queue. */
    method ThrotlBio(g: nat, d: Dir, bio: Bio, throttled: bool, now: nat) returns (queued: bool, delay: Option<nat>)
      requires Resting() && g < |grps| && clock <= now
      modifies this
      ensures Resting() && clock <= now && |grps| == |old(grps)|
      ensures throttled ==>
                !queued && grps == old(grps) && tree == old(tree) && seen == old(seen) && clock == old(clock)
      ensures forall k :: 0 <= k < |grps| && k != g ==> grps[k] == old(grps)[k]
      ensures queued <==> !throttled && Held(old(grps)[g], d, bio, now)
      ensures queued ==> grps[g] == Queued(old(grps)[g], d, bio, now)
      ensures grps[g].bios == if queued then old(grps)[g].bios.Set(d, old(grps)[g].bios.Get(d) + [bio])
                              else old(grps)[g].bios
      ensures !queued && !throttled ==> var x := old(grps)[g];
                x.Valid() && Charges(x.config.Get(d), x.lanes.Get(d), Submit(now, bio.size))
                && grps[g].lanes == x.lanes.Set(d, Step(x.config.Get(d), x.lanes.Get(d), Submit(now, bio.size)))
    {
      hide BooksOk, MayDispatch, NoDup, Sorted, Charge;
      if throttled { return false, None; }
      ghost var x := grps[g];
      Unfold(grps, seen, nrQueued, clock, g);
      delay := None;
      if grps[g].nrQueued.Get(d) != 0 {
        AddBioTg(g, d, bio);
        return true, None;
      }
      var ok, wait := MayDispatchTg(g, d, bio.size, now);
      if ok {
        MayDispatchAgain(x.config.Get(d), x.lanes.Get(d), bio.size, now);
        ChargeBio(g, d, bio.size, now);
        return false, None;
      }
      delay := QueueFirst(g, d, bio, now);
      queued := true;
    }

    /** The first bio of a direction is queued: the group is due anew, and the worker is set to the soonest. */
    method QueueFirst(g: nat, d: Dir, bio: Bio, now: nat) returns (delay: Option<nat>)
      requires Wf() && g < |grps| && clock <= now && grps[g].Valid()
      requires forall k :: 0 <= k < |grps| ==> (grps[k].onRr <==> grps[k].Busy())
      modifies this
      ensures Resting() && clock <= now
      ensures var x := old(grps)[g];
              grps == old(grps)[g := WithDisptime(x.(bios := x.bios.Set(d, x.bios.Get(d) + [bio]), onRr := true,
                                                     nrQueued := x.nrQueued.Set(d, x.nrQueued.Get(d) + 1)), now)]
    {
      hide BooksOk, TreeOk, Waited;
      AddBioTg(g, d, bio);
      UpdateDisptime(g, now);
      delay := ScheduleNextDispatch(now);
    }

    method ChargeBio(g: nat, d: Dir, size: nat, now: nat)
      requires Wf() && g < |grps| && clock <= now && grps[g].Valid()
      requires var x := grps[g]; MayDispatch(x.config.Get(d), x.lanes.Get(d), size, now).lane == x.lanes.Get(d)
      requires var x := grps[g]; MayDispatch(x.config.Get(d), x.lanes.Get(d), size, now).verdict.ok
      modifies this`grps, this`seen, this`clock
      ensures Wf() && clock == now
      ensures var x := old(grps)[g]; grps == old(grps)[g := x.(lanes := x.lanes.Set(d, Charge(x.lanes.Get(d), size)))]
    {
      hide Run, MayDispatch, Charge;
      var x := grps[g];
      var x' := x.(lanes := x.lanes.Set(d, Charge(x.lanes.Get(d), size)));
      TracedStep(x, seen[g], clock, d, Submit(now, size), x');
      ghost var es := seen[g].Set(d, seen[g].Get(d) + [Submit(now, size)]);
      BooksUpdate(grps, seen, nrQueued, clock, g, x', es, nrQueued, now);
      TreeFrame(grps, tree, left, count, g, x');
      grps := grps[g := x'];
      seen := seen[g := es];
      clock := now;
    }
  }

  /** `rb_erase`: the sequence without the one entry `g`. */
  method Extract(tree: seq<nat>, g: nat) returns (pos: nat, rest: seq<nat>)
    requires g in tree
    ensures pos <= |rest| && tree == Insert(rest, pos, g)
  {
    pos := 0;
    while tree[pos] != g
      invariant pos < |tree| && g !in tree[..pos]
      decreases |tree| - pos
    {
      pos := pos + 1;
    }
    rest := tree[..pos] + tree[pos + 1..];
  }
}
