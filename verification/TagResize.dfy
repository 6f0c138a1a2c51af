/** What a resize does to outstanding tags: a grow can install a map smaller than the old one. */
module TagResize {

  import opened Common
  import opened Tags

  // ---------------------------------------------------------------- Resizing

  /** Request `rq` keeps its tag, its bit and its slot. */
  ghost predicate Kept(s: State, u: State, rq: Rq)
    requires rq in s.tags
  {
    && rq in u.tags && u.tags[rq] == s.tags[rq] < |u.index| <= |u.bits|
    && u.bits[s.tags[rq]] && u.index[s.tags[rq]] == Some(rq)
  }

  lemma {:induction false} WholeKept(s: State, rq: Rq)
    requires Inv(s) && rq in s.tags
    ensures Kept(s, s, rq)
  {
    assert Taken(s, s.tags[rq]);
  }

  /** A resize that installs a map which holds the old one keeps every outstanding request where it is. */
  lemma {:induction false} ResizeKeepsTags(s: State, k: nat, depth: nat, nr: nat, rq: Rq)
    requires Inv(s) && Enabled(s, Resize(k, depth, nr)) && Roomy(s, Resize(k, depth, nr)) && rq in s.tags
    ensures Kept(s, Next(s, Resize(k, depth, nr)), rq)
  {
    hide Sound, Whole;
    NextOk(s, Resize(k, depth, nr));
    WholeKept(Next(s, Resize(k, depth, nr)), rq);
  }

  /** One queue has started requests 0 to n - 1, and they hold tags 0 to n - 1. */
  ghost function Loaded(depth: nat, n: nat, word: Word): (s: State)
    requires n <= depth
    ensures s.maxDepth == |s.index| == depth <= |s.bits| == Align(depth, word) && s.word == word
    ensures |s.pcs| == 1 && s.pcs[0].Idle? && |s.busy| == 1
    ensures forall t: nat :: t < |s.bits| ==> (s.bits[t] <==> t < n)
    ensures forall rq: Rq :: rq in s.tags <==> rq.q == 0 && rq.n < n
    ensures forall rq: Rq :: rq in s.tags ==> s.tags[rq] == rq.n
  {
    AlignUp(depth, word);
    if n == 0 then Start(1, depth, word) else Started(Loaded(depth, n - 1, word), Rq(0, n - 1), n - 1)
  }

  lemma {:induction false} LoadedOk(depth: nat, n: nat, word: Word)
    requires n <= depth
    ensures Reached(Loaded(depth, n, word), 1, depth, word) && Inv(Loaded(depth, n, word))
  {
    hide Reached, Sound, Whole, Align;
    if n == 0 {
      ReachedStart(1, depth, word);
      StartOk(1, depth, word);
    } else {
      LoadedOk(depth, n - 1, word);
      var s := Loaded(depth, n - 1, word);
      hide Started;
      StartedReached(s, Rq(0, n - 1), n - 1, true, 1, depth, word);
      StartedOk(s, Rq(0, n - 1), n - 1, true);
    }
  }

  /** A full map of more than twice `nr` entries, asked to grow: a reached state whose new map is smaller than the
      old one, so that the last request holds a tag beyond it and ending it does nothing. For example `depth` 64
      and `nr` 4. */
  lemma {:induction false} TagBeyondMap(depth: nat, nr: nat, word: Word)
    requires 2 * nr < depth
    ensures var s, e, last := Loaded(depth, depth, word), Resize(0, depth + 1, nr), Rq(0, depth - 1);
            && Inv(s) && Enabled(s, e) && Reached(Next(s, e), 1, depth, word)
            && last in Next(s, e).tags && |Next(s, e).index| == 2 * nr <= Next(s, e).tags[last]
            && !Kept(s, Next(s, e), last)
            && Enabled(Next(s, e), End(0, last)) && Next(Next(s, e), End(0, last)) == Next(s, e)
  {
    hide Loaded, Reached;
    var s, e, last := Loaded(depth, depth, word), Resize(0, depth + 1, nr), Rq(0, depth - 1);
    LoadedOk(depth, depth, word);
    AlignUp(2 * nr, word);
    hide Align;
    assert last in s.tags && last in s.busy[0];
    ReachedNext(s, e, 1, depth, word);
  }

  ghost predicate AllKept(n: nat, depth: nat, nr: nat) {
    forall s: State, rq: Rq ::
      Inv(s) && |s.index| == n && |s.pcs| == 1 && Enabled(s, Resize(0, depth, nr)) && rq in s.tags
      ==> Kept(s, Next(s, Resize(0, depth, nr)), rq)
  }

  /** Growing a map of `n` entries that no other queue shares keeps every outstanding tag, whatever is outstanding,
      exactly if the map is no larger than twice the queue's requests. */
  lemma {:induction false} GrowKeepsIff(n: nat, depth: nat, nr: nat)
    requires n < depth
    ensures AllKept(n, depth, nr) <==> n <= 2 * nr
  {
    hide Sound, Whole, Kept;
    if n <= 2 * nr {
      forall s: State, rq: Rq
        | Inv(s) && |s.index| == n && |s.pcs| == 1 && Enabled(s, Resize(0, depth, nr)) && rq in s.tags
        ensures Kept(s, Next(s, Resize(0, depth, nr)), rq)
      {
        ResizeKeepsTags(s, 0, depth, nr, rq);
      }
    } else {
      hide Loaded, Next;
      var s, last := Loaded(n, n, 1), Rq(0, n - 1);
      LoadedOk(n, n, 1);
      LostSlot(s, depth, nr, last);
    }
  }

  lemma {:induction false} LostSlot(s: State, depth: nat, nr: nat, rq: Rq)
    requires |s.pcs| == 1 && |s.index| < depth && Enabled(s, Resize(0, depth, nr)) && rq in s.tags
    requires 2 * nr < |s.index| && s.tags[rq] == |s.index| - 1
    ensures !Kept(s, Next(s, Resize(0, depth, nr)), rq)
  {
  }

  // ---------------------------------------------------------------- Tags beyond the map

  /** A grow that drops no word of the old map. */
  predicate KeepsWords(s: State, e: Event) {
    e.Resize? && |s.pcs| == 1 && |s.index| < e.depth ==> |s.index| <= Align(2 * e.nrRequests, s.word)
  }

  /** The bit of every outstanding tag is set, also beyond the last slot. No two requests hold one tag, and none holds
      one that a queue is about to fill or to clear. */
  ghost predicate Unique(s: State) {
    && (forall a: Rq :: a in s.tags ==> s.tags[a] < |s.bits| && s.bits[s.tags[a]])
    && (forall a: Rq, k: nat :: a in s.tags && k < |s.pcs| ==> !Holds(s.pcs, k, s.tags[a]))
    && (forall a: Rq, b: Rq :: a in s.tags && b in s.tags && s.tags[a] == s.tags[b] ==> a == b)
  }

  lemma {:induction false} ResizeUnique(s: State, k: nat, depth: nat, nr: nat)
    requires Sound(s) && Unique(s) && Enabled(s, Resize(k, depth, nr)) && KeepsWords(s, Resize(k, depth, nr))
    ensures Unique(Next(s, Resize(k, depth, nr)))
  {
    hide BitsOk, HoldersOk, SlotsOk, Whole, BusyOk, OrderOk, PcOk;
    AlignUp(Clamp(depth, nr), s.word);
    AlignFits(|s.index|, Clamp(depth, nr), s.word);
    hide Align;
  }

  lemma {:induction false} LockUnique(s: State, k: nat)
    requires Unique(s) && Enabled(s, TestAndSet(k)) && !s.bits[s.pcs[k].tag]
    ensures Unique(Next(s, TestAndSet(k)))
  {
    var u := Next(s, TestAndSet(k));
    forall a: Rq, l: nat | a in u.tags && l < |u.pcs| ensures !Holds(u.pcs, l, u.tags[a]) {
      assert l != k ==> Holds(u.pcs, l, u.tags[a]) == Holds(s.pcs, l, s.tags[a]);
    }
  }

  lemma {:induction false} PublishUnique(s: State, k: nat)
    requires Unique(s) && BitsOk(s) && HoldersOk(s) && Enabled(s, Publish(k)) && s.pcs[k].rq !in s.tags
    ensures Unique(Next(s, Publish(k)))
  {
    var u, tag := Next(s, Publish(k)), s.pcs[k].tag;
    assert Holds(s.pcs, k, tag) && Taken(s, tag);
    forall a: Rq, l: nat | a in u.tags && l < |u.pcs| ensures !Holds(u.pcs, l, u.tags[a]) {
      assert l != k ==> Holds(u.pcs, l, u.tags[a]) == Holds(s.pcs, l, u.tags[a]);
    }
    forall a: Rq, b: Rq | a in u.tags && b in u.tags && u.tags[a] == u.tags[b] ensures a == b {
      assert a in s.tags ==> !Holds(s.pcs, k, s.tags[a]);
      assert b in s.tags ==> !Holds(s.pcs, k, s.tags[b]);
    }
  }

  lemma {:induction false} EndUnique(s: State, k: nat, rq: Rq)
    requires Unique(s) && Enabled(s, End(k, rq))
    ensures Unique(Next(s, End(k, rq)))
  {
    var u := Next(s, End(k, rq));
    forall a: Rq, l: nat | a in u.tags && l < |u.pcs| ensures !Holds(u.pcs, l, u.tags[a]) {
      assert a in s.tags && u.tags[a] == s.tags[a] && !Holds(s.pcs, l, s.tags[a]);
    }
  }

  lemma {:induction false} ClearUnique(s: State, k: nat)
    requires Unique(s) && Enabled(s, ClearBit(k))
    ensures Unique(Next(s, ClearBit(k)))
  {
    var u, tag := Next(s, ClearBit(k)), s.pcs[k].tag;
    assert Holds(s.pcs, k, tag);
    forall a: Rq | a in u.tags ensures u.tags[a] != tag { assert !Holds(s.pcs, k, s.tags[a]); }
    forall a: Rq, l: nat | a in u.tags && l < |u.pcs| ensures !Holds(u.pcs, l, u.tags[a]) {
      assert l != k ==> Holds(u.pcs, l, u.tags[a]) == Holds(s.pcs, l, s.tags[a]);
    }
  }

  lemma {:induction false} PcUnique(s: State, k: nat, pc: Pc)
    requires Unique(s) && k < |s.pcs| && !pc.Locked? && !pc.Clearing?
    ensures Unique(s.(pcs := s.pcs[k := pc]))
  {
    var u := s.(pcs := s.pcs[k := pc]);
    forall a: Rq, l: nat | a in u.tags && l < |u.pcs| ensures !Holds(u.pcs, l, u.tags[a]) {
      assert l != k ==> Holds(u.pcs, l, u.tags[a]) == Holds(s.pcs, l, s.tags[a]);
    }
  }

  /** Every step that drops no word keeps the tags apart. */
  lemma {:induction false} NextUnique(s: State, e: Event)
    requires Sound(s) && Unique(s) && Enabled(s, e) && KeepsWords(s, e)
    ensures Unique(Next(s, e))
  {
    assert PcOk(s, e.k);
    hide BitsOk, HoldersOk, SlotsOk, Whole, BusyOk, OrderOk, Align, Unique;
    match e
    case Begin(k, n, sync) => PcUnique(s, k, Seeking(Rq(k, n), Limit(s.maxDepth, sync)));
    case Choose(k, tag) => PcUnique(s, k, Chosen(s.pcs[k].rq, s.pcs[k].limit, tag));
    case GiveUp(k) => PcUnique(s, k, Idle);
    case TestAndSet(k) =>
      if s.bits[s.pcs[k].tag] {
        PcUnique(s, k, Seeking(s.pcs[k].rq, s.pcs[k].limit));
      } else {
        LockUnique(s, k);
      }
    case Publish(k) => PublishUnique(s, k);
    case End(k, rq) => EndUnique(s, k, rq);
    case ClearBit(k) => ClearUnique(s, k);
    case Resize(k, depth, nr) => ResizeUnique(s, k, depth, nr);
  }

  /** In every interleaving in which no grow drops a word of the map, also if it drops slots: no two outstanding
      requests hold one tag, and the bit of each is set. */
  lemma {:induction false} NoTagTwice(run: seq<State>, events: seq<Event>, queues: nat, depth: nat, word: Word, i: nat)
    requires IsRun(run, events, queues, depth, word) && i < |run|
    requires forall j :: 0 <= j < |events| ==> KeepsWords(run[j], events[j])
    ensures Unique(run[i])
  {
    hide Sound, Enabled, Next, Unique, KeepsWords;
    if i == 0 {
      StartUnique(queues, depth, word);
    } else {
      NoTagTwice(run, events, queues, depth, word, i - 1);
      RunsSound(run, events, queues, depth, word, i - 1);
      NextUnique(run[i - 1], events[i - 1]);
    }
  }

  lemma {:induction false} StartUnique(queues: nat, depth: nat, word: Word)
    ensures Unique(Start(queues, depth, word))
  {
  }

  /** After a grow that drops a word, the map can grow again and give a tag of that word out a second time: a reached
      state in which two outstanding requests hold the first tag that was dropped. For example `depth` 128, `nr` 4 and
      words of 64 bits: tag 64. */
  lemma {:induction false} TwoHoldOneTag(depth: nat, nr: nat, word: Word) returns (s: State, a: Rq, b: Rq)
    requires Align(2 * nr, word) < depth
    ensures Reached(s, 1, depth, word) && a in s.tags && b in s.tags && a != b
    ensures s.tags[a] == s.tags[b] == Align(2 * nr, word)
  {
    hide Loaded, Reached;
    AlignUp(2 * nr, word);
    AlignUp(depth + 1, word);
    TagBeyondMap(depth, nr, word);
    hide Align;
    var tag := Align(2 * nr, word);
    var s0 := Loaded(depth, depth, word);
    var s1 := Next(s0, Resize(0, depth + 1, nr));
    var s2 := Next(s1, Resize(0, depth + 1, depth + 1));
    ReachedNext(s1, Resize(0, depth + 1, depth + 1), 1, depth, word);
    assert !s2.bits[tag] && |s2.index| == s2.maxDepth == depth + 1;
    a, b := Rq(0, tag), Rq(0, depth);
    StartedReached(s2, b, tag, true, 1, depth, word);
    s := Started(s2, b, tag);
  }

  /** Whatever is outstanding in a map of `n` entries, two grows, the first with `nr` requests, leave the bit of every
      tag set that lies in the last map. */
  ghost predicate NoneFreed(n: nat, nr: nat, word: Word) {
    forall s: State, rq: Rq, d: nat, d': nat, nr': nat ::
      Inv(s) && |s.index| == n && s.word == word && |s.pcs| == 1 && s.pcs[0].Idle? && n < d && rq in s.tags
      ==> BitStays(s, rq, Resize(0, d, nr), Resize(0, d', nr'))
  }

  ghost predicate BitStays(s: State, rq: Rq, e: Event, e': Event)
    requires rq in s.tags && Enabled(s, e) && Enabled(Next(s, e), e')
  {
    var t, u := s.tags[rq], Next(Next(s, e), e');
    t < |u.index| ==> t < |u.bits| && u.bits[t]
  }

  /** They do exactly if the words of the cut map still hold the old one. */
  lemma {:induction false} NoneFreedIff(n: nat, nr: nat, word: Word)
    ensures NoneFreed(n, nr, word) <==> n <= Align(2 * nr, word)
  {
    if n <= Align(2 * nr, word) {
      forall s: State, rq: Rq, d: nat, d': nat, nr': nat
        | Inv(s) && |s.index| == n && s.word == word && |s.pcs| == 1 && s.pcs[0].Idle? && n < d && rq in s.tags
        ensures BitStays(s, rq, Resize(0, d, nr), Resize(0, d', nr'))
      {
        WordsStay(s, rq, d, nr, d', nr');
      }
    } else {
      DroppedBit(n, nr, word);
      LoadedOk(n, n, word);
      hide Loaded, Align, Sound, Whole, BitStays;
      var s, rq := Loaded(n, n, word), Rq(0, Align(2 * nr, word));
      assert rq in s.tags;
    }
  }

  lemma {:induction false} DroppedBit(n: nat, nr: nat, word: Word)
    requires Align(2 * nr, word) < n
    ensures !BitStays(Loaded(n, n, word), Rq(0, Align(2 * nr, word)), Resize(0, n + 1, nr), Resize(0, n + 1, n + 1))
  {
    AlignUp(2 * nr, word);
    AlignUp(n + 1, word);
    hide Loaded, Align;
  }

  lemma {:induction false} WordsStay(s: State, rq: Rq, d: nat, nr: nat, d': nat, nr': nat)
    requires Inv(s) && |s.pcs| == 1 && s.pcs[0].Idle? && rq in s.tags
    requires |s.index| < d && |s.index| <= Align(2 * nr, s.word)
    ensures BitStays(s, rq, Resize(0, d, nr), Resize(0, d', nr'))
  {
    assert s.tags[rq] < |s.index| && s.bits[s.tags[rq]] by { WholeKept(s, rq); }
    hide Sound, Whole;
    AlignUp(Clamp(d, nr), s.word);
    AlignUp(Clamp(d', nr'), s.word);
    hide Align;
  }

  // ---------------------------------------------------------------- No bit is lost

  /** A set bit belongs to a slot that is taken or to an outstanding request. */
  ghost predicate Accounted(s: State) {
    forall t: nat :: t < |s.bits| && s.bits[t] ==> Taken(s, t) || HasTag(s, t)
  }

  ghost predicate HasTag(s: State, t: nat) { exists rq: Rq :: rq in s.tags && s.tags[rq] == t }

  /** Away from one bit, a step of queue `k` neither sets a bit nor gives up what accounts for it. */
  lemma {:induction false} AccountedElsewhere(s: State, u: State, k: nat, tag: nat)
    requires Accounted(s) && |u.bits| == |s.bits| && |u.index| == |s.index| && |u.pcs| == |s.pcs| && k < |s.pcs|
    requires forall t: nat :: t < |s.bits| && t != tag ==> u.bits[t] == s.bits[t]
    requires forall t: nat :: t < |s.index| && t != tag ==> u.index[t] == s.index[t]
    requires forall l: nat :: l < |u.pcs| && l != k ==> u.pcs[l] == s.pcs[l]
    requires forall t: nat :: t != tag ==> !Holds(s.pcs, k, t)
    requires forall rq: Rq :: rq in s.tags && s.tags[rq] != tag ==> rq in u.tags && u.tags[rq] == s.tags[rq]
    requires tag < |u.bits| && u.bits[tag] ==> Taken(u, tag) || HasTag(u, tag)
    ensures Accounted(u)
  {
    forall t: nat | t < |u.bits| && u.bits[t] && t != tag ensures Taken(u, t) || HasTag(u, t) {
      if Taken(s, t) && !(t < |s.index| && s.index[t] != None) {
        var l: nat :| l < |s.pcs| && Holds(s.pcs, l, t);
        assert Holds(u.pcs, l, t);
      } else if !Taken(s, t) {
        var rq: Rq :| rq in s.tags && s.tags[rq] == t;
        assert rq in u.tags && u.tags[rq] == t;
      }
    }
  }

  lemma {:induction false} PcAccounted(s: State, k: nat, pc: Pc)
    requires Accounted(s) && k < |s.pcs| && !s.pcs[k].Locked? && !s.pcs[k].Clearing?
    ensures Accounted(s.(pcs := s.pcs[k := pc]))
  {
    assert forall t: nat :: !Holds(s.pcs, k, t);
    AccountedElsewhere(s, s.(pcs := s.pcs[k := pc]), k, |s.bits| + |s.index|);
  }

  lemma {:induction false} EndAccounted(s: State, k: nat, rq: Rq)
    requires Accounted(s) && Enabled(s, End(k, rq)) && s.tags[rq] < |s.index|
    ensures Accounted(Next(s, End(k, rq)))
  {
    var u, tag := Next(s, End(k, rq)), s.tags[rq];
    assert s.bits[tag] ==> Holds(u.pcs, k, tag) && Taken(u, tag);
    AccountedElsewhere(s, u, k, tag);
  }

  lemma {:induction false} ReplaceAccounted(s: State, d: nat)
    requires Accounted(s) && SlotsOk(s) && |s.pcs| == 1 && s.pcs[0].Idle?
    ensures Accounted(Replaced(s, d))
  {
    var u := Replaced(s, d);
    hide Align;
    forall t: nat | t < |u.bits| && u.bits[t] ensures HasTag(u, t) {
      assert s.bits[t] && !Holds(s.pcs, 0, t);
      if t < |s.index| && s.index[t] != None { assert s.tags[s.index[t].value] == t; }
      assert HasTag(s, t);
    }
  }

  lemma {:induction false} NextAccounted(s: State, e: Event)
    requires Sound(s) && Accounted(s) && Enabled(s, e)
    ensures Accounted(Next(s, e))
  {
    assert PcOk(s, e.k);
    hide BitsOk, HoldersOk, SlotsOk, Whole, BusyOk, OrderOk, Align, Accounted;
    var u := Next(s, e);
    match e
    case Begin(k, n, sync) => PcAccounted(s, k, Seeking(Rq(k, n), Limit(s.maxDepth, sync)));
    case Choose(k, tag) => PcAccounted(s, k, Chosen(s.pcs[k].rq, s.pcs[k].limit, tag));
    case GiveUp(k) => PcAccounted(s, k, Idle);
    case TestAndSet(k) =>
      if s.bits[s.pcs[k].tag] {
        PcAccounted(s, k, Seeking(s.pcs[k].rq, s.pcs[k].limit));
      } else {
        assert Holds(u.pcs, k, s.pcs[k].tag);
        AccountedElsewhere(s, u, k, s.pcs[k].tag);
      }
    case Publish(k) =>
      assert Taken(u, s.pcs[k].tag);
      AccountedElsewhere(s, u, k, s.pcs[k].tag);
    case End(k, rq) => if s.tags[rq] < |s.index| { EndAccounted(s, k, rq); }
    case ClearBit(k) => AccountedElsewhere(s, u, k, s.pcs[k].tag);
    case Resize(k, depth, nr) =>
      if depth <= |s.index| {
        AccountedElsewhere(s, u, k, |s.bits| + |s.index|);
      } else if |s.pcs| == 1 {
        ReplaceAccounted(s, Clamp(depth, nr));
      }
  }

  lemma {:induction false} StartAccounted(queues: nat, depth: nat, word: Word)
    ensures Accounted(Start(queues, depth, word))
  {
  }

  /** With nothing outstanding and no queue in the middle of a call, nothing accounts for a bit. */
  lemma {:induction false} RestIsClear(s: State)
    requires Accounted(s) && SlotsOk(s) && s.tags == map[] && forall k: nat :: k < |s.pcs| ==> s.pcs[k].Idle?
    ensures true !in s.bits
  {
    forall t: nat | t < |s.bits| ensures !s.bits[t] {
      assert !Taken(s, t) && !HasTag(s, t);
    }
  }

  lemma {:induction false} RunAccounted(run: seq<State>, events: seq<Event>, queues: nat, depth: nat, word: Word,
                                        i: nat)
    requires IsRun(run, events, queues, depth, word) && i < |run|
    ensures Accounted(run[i]) && Sound(run[i])
  {
    RunsSound(run, events, queues, depth, word, i);
    hide Enabled, Next, Sound, Whole, Accounted, Start;
    if i == 0 {
      StartAccounted(queues, depth, word);
    } else {
      RunAccounted(run, events, queues, depth, word, i - 1);
      NextAccounted(run[i - 1], events[i - 1]);
    }
  }

  /** In every interleaving, whatever maps are installed: a set bit belongs to an outstanding request or to a queue in
      the middle of a call, so no tag stays out of use once all requests have ended. */
  lemma {:induction false} NoBitLost(run: seq<State>, events: seq<Event>, queues: nat, depth: nat, word: Word, i: nat)
    requires IsRun(run, events, queues, depth, word) && i < |run|
    ensures Accounted(run[i])
    ensures run[i].tags == map[] && (forall k: nat :: k < |run[i].pcs| ==> run[i].pcs[k].Idle?) ==> true !in run[i].bits
  {
    RunAccounted(run, events, queues, depth, word, i);
    hide IsRun, BitsOk, HoldersOk, SlotsOk, BusyOk, OrderOk, PcOk, Accounted;
    if run[i].tags == map[] && (forall k: nat :: k < |run[i].pcs| ==> run[i].pcs[k].Idle?) { RestIsClear(run[i]); }
  }
}
