/** The tag maps of block/blk-tag.c. Queues that share a map hold different locks, so starting and ending a tag
    are split into the steps between which another queue may run: the bit in `tag_map` acts as the lock of the
    slot in `tag_index`. */
module Tags {

  import opened Common

  /** Request `n` of queue `q`. */
  datatype Rq = Rq(q: nat, n: nat)

  /** What a queue is in the middle of: looking for a tag, about to test a bit, holding the bit of a slot it has
      not filled yet, or holding the bit of a slot it has emptied. */
  datatype Pc =
    | Idle
    | Seeking(rq: Rq, limit: nat)
    | Chosen(rq: Rq, limit: nat, tag: nat)
    | Locked(rq: Rq, tag: nat)
    | Clearing(tag: nat)

  /** `BITS_PER_LONG`. */
  type Word = w: nat | 1 <= w witness 1

  /** `index` is `tag_index`, with `real_max_depth` entries. `bits` is `tag_map`, which is made of whole words.
      `tags` are the tags of the outstanding requests, `busy[k]` is the busy list of queue `k`, newest first.
      `stamps` says when each request was last started, counted in starts. */
  datatype State = State(bits: seq<bool>, index: seq<Option<Rq>>, word: Word, maxDepth: nat, tags: map<Rq, nat>,
                         pcs: seq<Pc>, busy: seq<seq<Rq>>, stamps: map<Rq, nat>, clock: nat)

  // ---------------------------------------------------------------- Whole words

  /** `n` rounded up to whole words. */
  function Align(n: nat, w: Word): nat { (n + w - 1) / w * w }

  lemma {:induction false} AlignUp(n: nat, w: Word)
    ensures n <= Align(n, w) < n + w
  {
    assert Align(n, w) == n + w - 1 - (n + w - 1) % w;
  }

  lemma {:induction false} TimesLeq(p: nat, q: nat, w: nat)
    requires p <= q
    ensures p * w <= q * w
  {
  }

  /** What fits the words of `m` bits fits them with its own words. */
  lemma {:induction false} AlignFits(n: nat, m: nat, w: Word)
    ensures n <= Align(m, w) <==> Align(n, w) <= Align(m, w)
  {
    AlignUp(n, w);
    AlignUp(m, w);
    var p, q := (n + w - 1) / w, (m + w - 1) / w;
    if p <= q {
      TimesLeq(p, q, w);
    } else {
      TimesLeq(q + 1, p, w);
      assert (q + 1) * w == q * w + w;
    }
  }

  // ---------------------------------------------------------------- Steps

  /** How many tags a request may look at: asynchronous ones leave two to the others. */
  function Limit(maxDepth: nat, sync: bool): (r: nat)
    ensures r <= maxDepth
    ensures sync || maxDepth <= 1 ==> r == maxDepth
    ensures !sync && 2 < maxDepth ==> r + 2 == maxDepth
    ensures 0 < maxDepth ==> 0 < r && (!sync && maxDepth == 2 ==> r == 1)
  {
    if !sync && maxDepth > 1 then (if maxDepth - 2 == 0 then 1 else maxDepth - 2) else maxDepth
  }

  datatype Event =
    | Begin(k: nat, n: nat, sync: bool)
    | Choose(k: nat, tag: nat)
    | GiveUp(k: nat)
    | TestAndSet(k: nat)
    | Publish(k: nat)
    | End(k: nat, rq: Rq)
    | ClearBit(k: nat)
    | Resize(k: nat, depth: nat, nrRequests: nat)

  /** `init_tag_map` cuts the depth to twice the requests of the queue. */
  function Clamp(depth: nat, nrRequests: nat): nat { if 2 * nrRequests < depth then 2 * nrRequests else depth }

  ghost predicate Enabled(s: State, e: Event) {
    && e.k < |s.pcs|
    && match e
       case Begin(k, n, _) => s.pcs[k].Idle? && Rq(k, n) !in s.tags
       case Choose(k, tag) => s.pcs[k].Seeking? && tag < s.pcs[k].limit
       case GiveUp(k) => s.pcs[k].Seeking?
       case TestAndSet(k) => s.pcs[k].Chosen? && s.pcs[k].tag < |s.bits|
       case Publish(k) => s.pcs[k].Locked? && s.pcs[k].tag < |s.index| && k < |s.busy|
       case End(k, rq) => s.pcs[k].Idle? && k < |s.busy| && rq in s.busy[k] && rq in s.tags && |s.index| <= |s.bits|
       case ClearBit(k) => s.pcs[k].Clearing? && s.pcs[k].tag < |s.bits|
       case Resize(k, _, _) => s.pcs[k].Idle?
  }

  function Without(s: seq<Rq>, r: Rq): seq<Rq> {
    if s == [] then [] else if s[0] == r then s[1..] else [s[0]] + Without(s[1..], r)
  }

  /** A new map of `n` entries that begins with as much of the old one as it holds. */
  function Fitted<T>(s: seq<T>, n: nat, x: T): (r: seq<T>)
    ensures |r| == n
  {
    if n <= |s| then s[..n] else s + seq(n - |s|, _ => x)
  }

  ghost function Next(s: State, e: Event): State
    requires Enabled(s, e)
  {
    match e
    case Begin(k, n, sync) => s.(pcs := s.pcs[k := Seeking(Rq(k, n), Limit(s.maxDepth, sync))])
    case Choose(k, tag) => s.(pcs := s.pcs[k := Chosen(s.pcs[k].rq, s.pcs[k].limit, tag)])
    case GiveUp(k) => s.(pcs := s.pcs[k := Idle])
    case TestAndSet(k) =>
      if s.bits[s.pcs[k].tag] then s.(pcs := s.pcs[k := Seeking(s.pcs[k].rq, s.pcs[k].limit)])
      else s.(bits := s.bits[s.pcs[k].tag := true], pcs := s.pcs[k := Locked(s.pcs[k].rq, s.pcs[k].tag)])
    case Publish(k) =>
      var rq, tag := s.pcs[k].rq, s.pcs[k].tag;
      s.(index := s.index[tag := Some(rq)], tags := s.tags[rq := tag], pcs := s.pcs[k := Idle],
         busy := s.busy[k := [rq] + s.busy[k]], stamps := s.stamps[rq := s.clock], clock := s.clock + 1)
    case End(k, rq) =>
      var tag := s.tags[rq];
      if |s.index| <= tag then s
      else s.(index := s.index[tag := None], tags := s.tags - {rq}, busy := s.busy[k := Without(s.busy[k], rq)],
              pcs := if s.bits[tag] then s.pcs[k := Clearing(tag)] else s.pcs)
    case ClearBit(k) => s.(bits := s.bits[s.pcs[k].tag := false], pcs := s.pcs[k := Idle])
    case Resize(k, depth, nr) =>
      if depth <= |s.index| then s.(maxDepth := depth)
      else if |s.pcs| != 1 then s
      else Replaced(s, Clamp(depth, nr))
  }

  /** The map is replaced by one of `d` entries. Its bits are copied in whole words, so that those beyond the last
      entry come along as far as its own last word goes. */
  function Replaced(s: State, d: nat): State {
    s.(bits := Fitted(s.bits, Align(d, s.word), false), index := Fitted(s.index, d, None), maxDepth := d)
  }

  // ---------------------------------------------------------------- Invariant

  /** Queue `k` holds the bit of slot `t` while the slot is empty. */
  predicate Holds(pcs: seq<Pc>, k: nat, t: nat)
    requires k < |pcs|
  {
    (pcs[k].Locked? || pcs[k].Clearing?) && pcs[k].tag == t
  }

  /** Slot `t` is filled, or some queue holds its bit. */
  ghost predicate Taken(s: State, t: nat) {
    (t < |s.index| && s.index[t] != None) || exists k: nat :: k < |s.pcs| && Holds(s.pcs, k, t)
  }

  /** The bit is the lock of the slot: it is set while the slot is filled or some queue holds it. */
  ghost predicate BitsOk(s: State) {
    forall t: nat :: Taken(s, t) ==> t < |s.bits| && s.bits[t]
  }

  /** And only then. */
  ghost predicate Exact(s: State) {
    forall t: nat :: t < |s.bits| && s.bits[t] ==> Taken(s, t)
  }

  ghost predicate HoldersOk(s: State) {
    && (forall k: nat, t: nat :: k < |s.pcs| && Holds(s.pcs, k, t) ==> t < |s.index| && s.index[t] == None)
    && (forall k: nat, l: nat, t: nat :: k < |s.pcs| && l < |s.pcs| && Holds(s.pcs, k, t) && Holds(s.pcs, l, t) ==>
        k == l)
  }

  /** A filled slot names an outstanding request with that tag. */
  ghost predicate SlotsOk(s: State) {
    forall t: nat :: t < |s.index| && s.index[t].Some? ==> s.index[t].value in s.tags && s.tags[s.index[t].value] == t
  }

  /** Every outstanding request has its own slot in the map. */
  ghost predicate Slotted(s: State) {
    forall rq: Rq :: rq in s.tags ==> s.tags[rq] < |s.index| && s.index[s.tags[rq]] == Some(rq)
  }

  /** Nothing was cut off the map. */
  ghost predicate Whole(s: State) { Slotted(s) && Exact(s) }

  ghost predicate Distinct(s: seq<Rq>) { forall i, j :: 0 <= i < j < |s| ==> s[i] != s[j] }

  /** The busy list of a queue holds exactly its own outstanding requests, once each. */
  ghost predicate BusyOk(s: State) {
    && |s.busy| == |s.pcs|
    && (forall k: nat :: k < |s.busy| ==> Distinct(s.busy[k]))
    && (forall rq: Rq :: rq in s.tags ==> rq.q < |s.busy| && rq in s.busy[rq.q])
    && (forall k: nat, rq: Rq :: k < |s.busy| && rq in s.busy[k] ==> rq.q == k && rq in s.tags)
  }

  /** A list of requests, each started before the one in front of it. */
  ghost predicate NewestFirst(list: seq<Rq>, stamps: map<Rq, nat>) {
    && (forall rq :: rq in list ==> rq in stamps)
    && forall i, j :: 0 <= i < j < |list| ==> stamps[list[j]] < stamps[list[i]]
  }

  ghost predicate OldestFirst(list: seq<Rq>, stamps: map<Rq, nat>) {
    && (forall rq :: rq in list ==> rq in stamps)
    && forall i, j :: 0 <= i < j < |list| ==> stamps[list[i]] < stamps[list[j]]
  }

  ghost predicate OrderOk(s: State) {
    forall k: nat :: k < |s.busy| ==>
      NewestFirst(s.busy[k], s.stamps) && forall rq :: rq in s.busy[k] ==> s.stamps[rq] < s.clock
  }

  ghost predicate PcOk(s: State, k: nat)
    requires k < |s.pcs|
  {
    match s.pcs[k]
    case Idle => true
    case Seeking(rq, limit) => rq.q == k && rq !in s.tags && limit <= |s.index|
    case Chosen(rq, limit, tag) => rq.q == k && rq !in s.tags && tag < limit <= |s.index|
    case Locked(rq, tag) => rq.q == k && rq !in s.tags
    case Clearing(tag) => true
  }

  /** What holds in every run, also after a map was replaced by a smaller one. */
  ghost predicate Sound(s: State) {
    && s.maxDepth <= |s.index| <= |s.bits| == Align(|s.index|, s.word)
    && BitsOk(s) && HoldersOk(s) && SlotsOk(s) && BusyOk(s) && OrderOk(s)
    && (forall k: nat :: k < |s.pcs| ==> PcOk(s, k))
    && (|s.pcs| == 1 || Whole(s))
  }

  ghost predicate Inv(s: State) { Sound(s) && Whole(s) }

  /** The map that a grow installs holds the old one. */
  predicate Roomy(s: State, e: Event) {
    e.Resize? && |s.pcs| == 1 && |s.index| < e.depth ==> |s.index| <= 2 * e.nrRequests
  }

  lemma {:induction false} WithoutHas(s: seq<Rq>, r: Rq)
    requires Distinct(s)
    ensures Distinct(Without(s, r)) && forall x :: x in Without(s, r) <==> x in s && x != r
  {
    if s != [] {
      assert s[0] !in s[1..];
      WithoutHas(s[1..], r);
    }
  }

  /** Taking a request out keeps the others in order. */
  lemma {:induction false} WithoutOrder(s: seq<Rq>, r: Rq, stamps: map<Rq, nat>)
    requires NewestFirst(s, stamps)
    ensures NewestFirst(Without(s, r), stamps) && forall x :: x in Without(s, r) ==> x in s
  {
    if s != [] && s[0] != r {
      NewestTail(s, stamps);
      WithoutOrder(s[1..], r, stamps);
      NewestCons(s[0], Without(s[1..], r), stamps);
    } else if s != [] {
      NewestTail(s, stamps);
    }
  }

  lemma {:induction false} NewestTail(s: seq<Rq>, stamps: map<Rq, nat>)
    requires NewestFirst(s, stamps) && s != []
    ensures NewestFirst(s[1..], stamps) && forall x :: x in s[1..] ==> stamps[x] < stamps[s[0]]
  {
    var rest := s[1..];
    forall x | x in rest ensures stamps[x] < stamps[s[0]] {
      var i :| 0 <= i < |rest| && rest[i] == x;
      assert s[i + 1] == x;
    }
  }

  lemma {:induction false} NewestCons(x: Rq, s: seq<Rq>, stamps: map<Rq, nat>)
    requires NewestFirst(s, stamps) && x in stamps && forall y :: y in s ==> stamps[y] < stamps[x]
    ensures NewestFirst([x] + s, stamps)
  {
  }

  /** A step that only moves the program counter of `k`, holding nothing before or after. */
  lemma {:induction false} PcOnly(s: State, k: nat, pc: Pc)
    requires Sound(s) && k < |s.pcs| && !s.pcs[k].Locked? && !s.pcs[k].Clearing? && !pc.Locked? && !pc.Clearing?
    requires PcOk(s.(pcs := s.pcs[k := pc]), k)
    ensures Sound(s.(pcs := s.pcs[k := pc])) && (Whole(s) ==> Whole(s.(pcs := s.pcs[k := pc])))
  {
    hide NewestFirst, SlotsOk, Slotted, BitsOk, Exact;
    var u := s.(pcs := s.pcs[k := pc]);
    assert forall l: nat, t: nat :: l < |u.pcs| ==> Holds(u.pcs, l, t) == Holds(s.pcs, l, t);
    SameTaken(s, u);
    SameBooks(s, u);
    forall l: nat | l < |u.pcs| ensures PcOk(u, l) { assert PcOk(s, l); }
  }

  /** The same bits are set, and the same slots are taken. */
  lemma {:induction false} SameTaken(s: State, u: State)
    requires u.bits == s.bits && u.index == s.index && |u.pcs| == |s.pcs|
    requires forall l: nat, t: nat :: l < |u.pcs| ==> Holds(u.pcs, l, t) == Holds(s.pcs, l, t)
    ensures BitsOk(s) ==> BitsOk(u)
    ensures Exact(s) ==> Exact(u)
  {
    forall t: nat ensures Taken(u, t) == Taken(s, t) {
      TakenSame(s, u, t);
    }
  }

  lemma {:induction false} TakenSame(s: State, u: State, t: nat)
    requires |u.index| == |s.index| && |u.pcs| == |s.pcs| && (t < |s.index| ==> u.index[t] == s.index[t])
    requires forall l: nat :: l < |u.pcs| ==> Holds(u.pcs, l, t) == Holds(s.pcs, l, t)
    ensures Taken(u, t) == Taken(s, t)
  {
  }

  /** Nothing but bits and program counters changed. */
  lemma {:induction false} SameBooks(s: State, u: State)
    requires u.index == s.index && u.tags == s.tags && u.busy == s.busy && u.stamps == s.stamps && u.clock == s.clock
    requires |u.pcs| == |s.pcs|
    ensures SlotsOk(s) ==> SlotsOk(u)
    ensures Slotted(s) ==> Slotted(u)
    ensures BusyOk(s) ==> BusyOk(u)
    ensures OrderOk(s) ==> OrderOk(u)
  {
  }

  /** The bit of slot `tag` goes up, and queue `k` holds it. */
  lemma {:induction false} LockOk(s: State, k: nat, tag: nat)
    requires Sound(s) && k < |s.pcs| && s.pcs[k].Chosen? && s.pcs[k].tag == tag < |s.bits| && !s.bits[tag]
    ensures var u := s.(bits := s.bits[tag := true], pcs := s.pcs[k := Locked(s.pcs[k].rq, tag)]);
            Sound(u) && (Whole(s) ==> Whole(u))
  {
    var u := s.(bits := s.bits[tag := true], pcs := s.pcs[k := Locked(s.pcs[k].rq, tag)]);
    assert PcOk(s, k);
    LockBits(s, u, k, tag);
    SameBooks(s, u);
    hide BitsOk, Exact, HoldersOk, SlotsOk, Slotted, BusyOk, OrderOk;
    forall l: nat | l < |u.pcs| ensures PcOk(u, l) { assert PcOk(s, l); }
  }

  lemma {:induction false} LockBits(s: State, u: State, k: nat, tag: nat)
    requires BitsOk(s) && HoldersOk(s)
    requires k < |s.pcs| && s.pcs[k].Chosen? && tag < |s.index| <= |s.bits| && !s.bits[tag]
    requires u == s.(bits := s.bits[tag := true], pcs := s.pcs[k := Locked(s.pcs[k].rq, tag)])
    ensures BitsOk(u) && HoldersOk(u) && (Exact(s) ==> Exact(u))
  {
    assert forall l: nat, t: nat :: l < |u.pcs| && l != k ==> Holds(u.pcs, l, t) == Holds(s.pcs, l, t);
    assert Holds(u.pcs, k, tag);
    assert forall t: nat :: !Holds(s.pcs, k, t);
    assert !Taken(s, tag) && Taken(u, tag);
    assert forall l: nat :: l < |s.pcs| ==> !Holds(s.pcs, l, tag);
    BitsElsewhere(s, u, k, tag);
  }

  /** Queue `k` fills the slot whose bit it holds. */
  lemma {:induction false} PublishBits(s: State, u: State, k: nat)
    requires BitsOk(s) && HoldersOk(s)
    requires k < |s.pcs| && s.pcs[k].Locked? && s.pcs[k].tag < |s.index|
    requires u.bits == s.bits && u.index == s.index[s.pcs[k].tag := Some(s.pcs[k].rq)] && u.pcs == s.pcs[k := Idle]
    ensures BitsOk(u) && HoldersOk(u) && (Exact(s) ==> Exact(u))
  {
    var tag := s.pcs[k].tag;
    assert Holds(s.pcs, k, tag) && Taken(s, tag) && Taken(u, tag);
    assert forall l: nat, t: nat :: l < |u.pcs| && l != k ==> Holds(u.pcs, l, t) == Holds(s.pcs, l, t);
    assert forall t: nat :: !Holds(u.pcs, k, t);
    BitsElsewhere(s, u, k, tag);
  }

  /** Away from one slot, a step of queue `k` changes neither bits nor slots nor who holds them. */
  lemma {:induction false} BitsElsewhere(s: State, u: State, k: nat, tag: nat)
    requires |u.bits| == |s.bits| && |u.index| == |s.index| && |u.pcs| == |s.pcs| && k < |s.pcs|
    requires forall t: nat :: t < |s.bits| && t != tag ==> u.bits[t] == s.bits[t]
    requires forall t: nat :: t < |s.index| && t != tag ==> u.index[t] == s.index[t]
    requires forall l: nat, t: nat :: l < |u.pcs| && l != k ==> Holds(u.pcs, l, t) == Holds(s.pcs, l, t)
    requires forall t: nat :: t != tag ==> !Holds(s.pcs, k, t) && !Holds(u.pcs, k, t)
    requires Taken(u, tag) ==> tag < |u.bits| && u.bits[tag]
    requires tag < |u.bits| && u.bits[tag] ==> Taken(u, tag)
    ensures BitsOk(s) ==> BitsOk(u)
    ensures Exact(s) ==> Exact(u)
  {
    forall t: nat | t != tag ensures Taken(u, t) == Taken(s, t) {
      assert forall l: nat :: l < |u.pcs| ==> Holds(u.pcs, l, t) == Holds(s.pcs, l, t);
      TakenSame(s, u, t);
    }
    hide Taken;
  }

  lemma {:induction false} PublishOk(s: State, k: nat)
    requires Sound(s) && Enabled(s, Publish(k))
    ensures Sound(Next(s, Publish(k)))
    ensures Whole(s) ==> Whole(Next(s, Publish(k)))
  {
    hide BitsOk, Exact, HoldersOk, SlotsOk, Slotted, BusyOk, OrderOk;
    var u := Next(s, Publish(k));
    assert PcOk(s, k);
    PublishBits(s, u, k);
    PublishSlots(s, k);
    PublishBusy(s, k);
    PublishOrder(s, k);
    OtherPcs(s, u, k);
  }

  /** A step of queue `k` leaves the program counters of the others right. */
  lemma {:induction false} OtherPcs(s: State, u: State, k: nat)
    requires |u.pcs| == |s.pcs| && |u.index| == |s.index| && k < |s.pcs| && PcOk(u, k)
    requires forall l: nat :: l < |s.pcs| && l != k ==> u.pcs[l] == s.pcs[l]
    requires forall rq: Rq :: rq in u.tags ==> rq in s.tags || rq.q == k
    requires forall l: nat :: l < |s.pcs| ==> PcOk(s, l)
    ensures forall l: nat :: l < |u.pcs| ==> PcOk(u, l)
  {
    forall l: nat | l < |u.pcs| ensures PcOk(u, l) { assert PcOk(s, l); }
  }

  lemma {:induction false} PublishSlots(s: State, k: nat)
    requires SlotsOk(s) && HoldersOk(s) && Enabled(s, Publish(k)) && s.pcs[k].rq !in s.tags
    ensures SlotsOk(Next(s, Publish(k)))
    ensures Slotted(s) ==> Slotted(Next(s, Publish(k)))
  {
    assert Holds(s.pcs, k, s.pcs[k].tag);
  }

  lemma {:induction false} PublishBusy(s: State, k: nat)
    requires BusyOk(s) && Enabled(s, Publish(k)) && PcOk(s, k)
    ensures BusyOk(Next(s, Publish(k)))
  {
    var u := Next(s, Publish(k));
    assert u.busy[k] == [s.pcs[k].rq] + s.busy[k];
  }

  lemma {:induction false} PublishOrder(s: State, k: nat)
    requires BusyOk(s) && OrderOk(s) && Enabled(s, Publish(k)) && PcOk(s, k)
    ensures OrderOk(Next(s, Publish(k)))
  {
    var u := Next(s, Publish(k));
    var rq := s.pcs[k].rq;
    forall l: nat | l < |u.busy|
      ensures NewestFirst(u.busy[l], u.stamps) && forall x :: x in u.busy[l] ==> u.stamps[x] < u.clock
    {
      assert rq !in s.busy[l];
      OrderOf(s, l);
      NewestLater(s.busy[l], s.stamps, rq, s.clock);
    }
  }

  lemma {:induction false} OrderOf(s: State, k: nat)
    requires OrderOk(s) && k < |s.busy|
    ensures NewestFirst(s.busy[k], s.stamps) && forall rq :: rq in s.busy[k] ==> s.stamps[rq] < s.clock
  {
  }

  /** A request started now goes in front; elsewhere its stamp is not looked at. */
  lemma {:induction false} NewestLater(list: seq<Rq>, stamps: map<Rq, nat>, rq: Rq, now: nat)
    requires NewestFirst(list, stamps) && rq !in list && forall x :: x in list ==> stamps[x] < now
    ensures NewestFirst(list, stamps[rq := now]) && NewestFirst([rq] + list, stamps[rq := now])
  {
  }

  /** Queue `k` empties the slot of its request and now holds the bit. */
  lemma {:induction false} EndBits(s: State, u: State, k: nat, tag: nat)
    requires BitsOk(s) && HoldersOk(s) && |s.index| <= |s.bits|
    requires k < |s.pcs| && s.pcs[k].Idle? && tag < |s.index| && (|s.pcs| == 1 || s.index[tag].Some?)
    requires u.bits == s.bits && u.index == s.index[tag := None]
    requires u.pcs == if s.bits[tag] then s.pcs[k := Clearing(tag)] else s.pcs
    ensures BitsOk(u) && HoldersOk(u) && (Exact(s) ==> Exact(u))
  {
    assert forall l: nat, t: nat :: l < |u.pcs| && l != k ==> Holds(u.pcs, l, t) == Holds(s.pcs, l, t);
    assert forall t: nat :: !Holds(s.pcs, k, t);
    assert s.bits[tag] ==> Holds(u.pcs, k, tag) && Taken(u, tag);
    assert !s.bits[tag] ==> !Taken(u, tag) by {
      if !s.bits[tag] { assert !Taken(s, tag); TakenSame(s, u, tag); }
    }
    BitsElsewhere(s, u, k, tag);
  }

  lemma {:induction false} EndBusy(s: State, k: nat, rq: Rq)
    requires BusyOk(s) && Enabled(s, End(k, rq)) && s.tags[rq] < |s.index|
    ensures BusyOk(Next(s, End(k, rq)))
  {
    WithoutHas(s.busy[k], rq);
  }

  lemma {:induction false} EndOrder(s: State, k: nat, rq: Rq)
    requires OrderOk(s) && Enabled(s, End(k, rq)) && s.tags[rq] < |s.index|
    ensures OrderOk(Next(s, End(k, rq)))
  {
    var u := Next(s, End(k, rq));
    forall l: nat | l < |u.busy|
      ensures NewestFirst(u.busy[l], u.stamps) && forall x :: x in u.busy[l] ==> u.stamps[x] < u.clock
    {
      OrderOf(s, l);
      WithoutOrder(s.busy[l], rq, s.stamps);
    }
  }

  lemma {:induction false} EndBooks(s: State, k: nat, rq: Rq)
    requires BusyOk(s) && OrderOk(s) && SlotsOk(s) && Enabled(s, End(k, rq)) && s.tags[rq] < |s.index|
    ensures var u := Next(s, End(k, rq)); BusyOk(u) && OrderOk(u) && SlotsOk(u) && (Slotted(s) ==> Slotted(u))
  {
    hide BusyOk, OrderOk;
    EndBusy(s, k, rq);
    EndOrder(s, k, rq);
  }

  lemma {:induction false} EndOk(s: State, k: nat, rq: Rq)
    requires Sound(s) && Enabled(s, End(k, rq))
    ensures Sound(Next(s, End(k, rq)))
    ensures Whole(s) ==> Whole(Next(s, End(k, rq))) && s.tags[rq] < |s.index|
  {
    hide BitsOk, HoldersOk, SlotsOk, BusyOk, OrderOk, Whole, PcOk;
    WholeSlot(s, rq);
    if s.tags[rq] < |s.index| { EndInRange(s, k, rq); }
  }

  lemma {:induction false} WholeSlot(s: State, rq: Rq)
    requires rq in s.tags
    ensures Whole(s) ==> s.tags[rq] < |s.index| && s.index[s.tags[rq]] == Some(rq)
  {
  }

  lemma {:induction false} EndInRange(s: State, k: nat, rq: Rq)
    requires Sound(s) && Enabled(s, End(k, rq)) && s.tags[rq] < |s.index|
    ensures Sound(Next(s, End(k, rq)))
    ensures Whole(s) ==> Whole(Next(s, End(k, rq)))
  {
    hide BitsOk, Exact, HoldersOk, SlotsOk, BusyOk, OrderOk, Slotted;
    WholeSlot(s, rq);
    var u := Next(s, End(k, rq));
    EndBits(s, u, k, s.tags[rq]);
    EndBooks(s, k, rq);
    OtherPcs(s, u, k);
  }

  lemma {:induction false} ClearOk(s: State, k: nat)
    requires Sound(s) && Enabled(s, ClearBit(k))
    ensures Sound(Next(s, ClearBit(k)))
    ensures Whole(s) ==> Whole(Next(s, ClearBit(k)))
  {
    var u := Next(s, ClearBit(k));
    ClearBits(s, u, k);
    SameBooks(s, u);
    hide BitsOk, Exact, HoldersOk, SlotsOk, Slotted, BusyOk, OrderOk;
    forall l: nat | l < |u.pcs| ensures PcOk(u, l) { assert PcOk(s, l); }
  }

  lemma {:induction false} ClearBits(s: State, u: State, k: nat)
    requires BitsOk(s) && HoldersOk(s)
    requires Enabled(s, ClearBit(k)) && u == Next(s, ClearBit(k))
    ensures BitsOk(u) && HoldersOk(u) && (Exact(s) ==> Exact(u))
  {
    var tag := s.pcs[k].tag;
    assert Holds(s.pcs, k, tag);
    assert forall l: nat, t: nat :: l < |u.pcs| && l != k ==> Holds(u.pcs, l, t) == Holds(s.pcs, l, t);
    assert forall t: nat :: !Holds(u.pcs, k, t);
    assert !Taken(u, tag);
    BitsElsewhere(s, u, k, tag);
  }

  /** A replaced map of an idle queue is sound whatever its size; it keeps every slot if it is no smaller. */
  lemma {:induction false} ReplaceOk(s: State, d: nat)
    requires Sound(s) && |s.pcs| == 1 && s.pcs[0].Idle?
    ensures Sound(Replaced(s, d))
    ensures Whole(s) && |s.index| <= d ==> Whole(Replaced(s, d))
  {
    var u := Replaced(s, d);
    AlignUp(d, s.word);
    assert forall t: nat :: !Holds(s.pcs, 0, t);
    ReplaceBits(s, d);
    hide NewestFirst, Align, BitsOk, Exact;
    BusyFrame(s, u);
    assert HoldersOk(u) && SlotsOk(u);
  }

  lemma {:induction false} ReplaceBits(s: State, d: nat)
    requires |s.pcs| == 1 && s.pcs[0].Idle? && BitsOk(s) && |s.bits| == Align(|s.index|, s.word)
    ensures BitsOk(Replaced(s, d))
    ensures Exact(s) && |s.index| <= d ==> Exact(Replaced(s, d))
  {
    var u := Replaced(s, d);
    AlignUp(d, s.word);
    hide Align;
    forall t: nat ensures Taken(u, t) <==> t < d && t < |s.index| && s.index[t] != None {
      assert !Holds(u.pcs, 0, t);
    }
    assert forall t: nat :: t < |s.index| && s.index[t] != None ==> Taken(s, t);
    forall t: nat | Taken(s, t) ensures t < |s.index| && s.index[t] != None {
      assert !Holds(s.pcs, 0, t);
    }
  }

  lemma {:induction false} BusyFrame(s: State, u: State)
    requires u.busy == s.busy && u.tags == s.tags && u.pcs == s.pcs && u.stamps == s.stamps && u.clock == s.clock
    ensures BusyOk(s) ==> BusyOk(u)
    ensures OrderOk(s) ==> OrderOk(u)
  {
  }

  lemma {:induction false} ShrinkOk(s: State, d: nat)
    requires Sound(s) && d <= |s.index|
    ensures Sound(s.(maxDepth := d))
    ensures Whole(s) ==> Whole(s.(maxDepth := d))
  {
    var u := s.(maxDepth := d);
    SameTaken(s, u);
    hide NewestFirst, BitsOk, Exact;
    BusyFrame(s, u);
    assert HoldersOk(u) && SlotsOk(u);
    forall l: nat | l < |u.pcs| ensures PcOk(u, l) { assert PcOk(s, l); }
  }

  lemma {:induction false} ResizeOk(s: State, k: nat, depth: nat, nr: nat)
    requires Sound(s) && Enabled(s, Resize(k, depth, nr))
    ensures Sound(Next(s, Resize(k, depth, nr)))
    ensures Whole(s) && Roomy(s, Resize(k, depth, nr)) ==> Whole(Next(s, Resize(k, depth, nr)))
  {
    hide BitsOk, HoldersOk, SlotsOk, Whole, BusyOk, OrderOk, PcOk, Replaced;
    if depth <= |s.index| {
      ShrinkOk(s, depth);
    } else if |s.pcs| == 1 {
      ReplaceOk(s, Clamp(depth, nr));
    }
  }

  /** Every step of every queue keeps the lists and the slots sound, and keeps every outstanding request in the map
      unless it installs a map that does not hold the old one. */
  lemma {:induction false} NextOk(s: State, e: Event)
    requires Sound(s) && Enabled(s, e)
    ensures Sound(Next(s, e)) && |Next(s, e).pcs| == |s.pcs|
    ensures Whole(s) && Roomy(s, e) ==> Whole(Next(s, e))
  {
    assert PcOk(s, e.k);
    hide BitsOk, HoldersOk, SlotsOk, Whole, BusyOk, OrderOk;
    match e
    case Begin(k, n, sync) => PcOnly(s, k, Seeking(Rq(k, n), Limit(s.maxDepth, sync)));
    case Choose(k, tag) => PcOnly(s, k, Chosen(s.pcs[k].rq, s.pcs[k].limit, tag));
    case GiveUp(k) => PcOnly(s, k, Idle);
    case TestAndSet(k) =>
      if s.bits[s.pcs[k].tag] {
        PcOnly(s, k, Seeking(s.pcs[k].rq, s.pcs[k].limit));
      } else {
        LockOk(s, k, s.pcs[k].tag);
      }
    case Publish(k) => PublishOk(s, k);
    case End(k, rq) => EndOk(s, k, rq);
    case ClearBit(k) => ClearOk(s, k);
    case Resize(k, depth, nr) => ResizeOk(s, k, depth, nr);
  }

  // ---------------------------------------------------------------- Runs

  function Start(queues: nat, depth: nat, word: Word): State {
    State(seq(Align(depth, word), _ => false), seq(depth, _ => None), word, depth, map[], seq(queues, _ => Idle),
          seq(queues, _ => []), map[], 0)
  }

  ghost predicate IsRun(run: seq<State>, events: seq<Event>, queues: nat, depth: nat, word: Word) {
    && |run| == |events| + 1
    && run[0] == Start(queues, depth, word)
    && forall i :: 0 <= i < |events| ==> Enabled(run[i], events[i]) && run[i + 1] == Next(run[i], events[i])
  }

  /** Every grow of the run installs a map that holds the old one. */
  ghost predicate AlwaysRoomy(run: seq<State>, events: seq<Event>)
    requires |run| == |events| + 1
  {
    forall i :: 0 <= i < |events| ==> Roomy(run[i], events[i])
  }

  lemma {:induction false} StartOk(queues: nat, depth: nat, word: Word)
    ensures Sound(Start(queues, depth, word)) && Whole(Start(queues, depth, word))
  {
    AlignUp(depth, word);
    hide Align;
    assert forall t: nat :: !Taken(Start(queues, depth, word), t);
  }

  /** In every interleaving, whatever maps are installed: a bit is set while its slot is filled or held, a filled
      slot names an outstanding request with that tag, and the busy lists hold the outstanding requests of their
      queues, newest first. If the map is shared or was never cut, no other bit is set, and every outstanding request
      has its slot. */
  lemma {:induction false} RunsSound(run: seq<State>, events: seq<Event>, queues: nat, depth: nat, word: Word, i: nat)
    requires IsRun(run, events, queues, depth, word) && i < |run|
    ensures Sound(run[i]) && |run[i].pcs| == queues
    ensures queues != 1 || AlwaysRoomy(run, events) ==> Whole(run[i])
  {
    hide Sound, Enabled, Next, Whole;
    if i == 0 {
      StartOk(queues, depth, word);
    } else {
      RunsSound(run, events, queues, depth, word, i - 1);
      NextOk(run[i - 1], events[i - 1]);
    }
  }

  /** A map shared by several queues, or never replaced by one that does not hold it: the tag of an outstanding
      request lies in the map, its slot is the request's own and its bit is set, and no other outstanding request
      holds the tag. */
  lemma {:induction false} TagsAreSafe(run: seq<State>, events: seq<Event>, queues: nat, depth: nat, word: Word, i: nat,
                                       a: Rq)
    requires IsRun(run, events, queues, depth, word) && i < |run| && a in run[i].tags
    requires queues != 1 || AlwaysRoomy(run, events)
    ensures run[i].tags[a] < |run[i].index| <= |run[i].bits|
    ensures run[i].bits[run[i].tags[a]] && run[i].index[run[i].tags[a]] == Some(a)
    ensures forall b: Rq :: b in run[i].tags && b != a ==> run[i].tags[b] != run[i].tags[a]
  {
    RunsSound(run, events, queues, depth, word, i);
    hide NewestFirst, BusyOk, HoldersOk, Exact;
    assert Taken(run[i], run[i].tags[a]);
  }

  // ---------------------------------------------------------------- Start order

  function Reversed(s: seq<Rq>): seq<Rq> { if s == [] then [] else Reversed(s[1..]) + [s[0]] }

  lemma {:induction false} ReversedSplit(a: seq<Rq>, b: seq<Rq>)
    ensures Reversed(a + b) == Reversed(b) + Reversed(a)
  {
    if a == [] {
      assert a + b == b;
    } else {
      assert (a + b)[1..] == a[1..] + b;
      ReversedSplit(a[1..], b);
    }
  }

  lemma {:induction false} ReversedHas(s: seq<Rq>, i: nat)
    requires i < |s|
    ensures |Reversed(s)| == |s| && Reversed(s)[i] == s[|s| - 1 - i]
  {
    if 1 < |s| && i < |s| - 1 {
      ReversedHas(s[1..], i);
    } else if 1 < |s| {
      ReversedHas(s[1..], 0);
    }
  }

  lemma {:induction false} ReversedOldest(s: seq<Rq>, stamps: map<Rq, nat>)
    requires NewestFirst(s, stamps)
    ensures OldestFirst(Reversed(s), stamps) && |Reversed(s)| == |s|
  {
    var r := Reversed(s);
    if s != [] { ReversedHas(s, 0); }
    forall i | 0 <= i < |r| ensures r[i] == s[|s| - 1 - i] { ReversedHas(s, i); }
  }

  /** In every interleaving, and whatever was ended or resized in between: the busy list of a queue read backwards,
      which is the order in which invalidation puts it at the head of the queue, is the order in which its requests
      were started. */
  lemma {:induction false} StartOrderRestored(run: seq<State>, events: seq<Event>, queues: nat, depth: nat, word: Word,
                                              i: nat, k: nat)
    requires IsRun(run, events, queues, depth, word) && i < |run| && k < queues
    ensures k < |run[i].busy| && OldestFirst(Reversed(run[i].busy[k]), run[i].stamps)
    ensures forall rq: Rq :: rq in run[i].busy[k] <==> rq in run[i].tags && rq.q == k
  {
    RunsSound(run, events, queues, depth, word, i);
    hide NewestFirst, OldestFirst, Reversed, BitsOk, HoldersOk, SlotsOk, PcOk;
    OrderOf(run[i], k);
    ReversedOldest(run[i].busy[k], run[i].stamps);
  }

  // ---------------------------------------------------------------- Whole calls

  /** A start that no other queue interrupts. */
  function Started(s: State, rq: Rq, tag: nat): State
    requires tag < |s.bits| && tag < |s.index| && rq.q < |s.busy|
  {
    s.(bits := s.bits[tag := true], index := s.index[tag := Some(rq)], tags := s.tags[rq := tag],
       busy := s.busy[rq.q := [rq] + s.busy[rq.q]], stamps := s.stamps[rq := s.clock], clock := s.clock + 1)
  }

  /** An end that no other queue interrupts; a tag beyond the map is left alone. */
  function Ended(s: State, rq: Rq): State
    requires rq in s.tags && |s.index| <= |s.bits| && rq.q < |s.busy|
  {
    var tag := s.tags[rq];
    if |s.index| <= tag then s
    else s.(bits := s.bits[tag := false], index := s.index[tag := None], tags := s.tags - {rq},
            busy := s.busy[rq.q := Without(s.busy[rq.q], rq)])
  }

  /** Some run leads to `s`. */
  ghost predicate Reached(s: State, queues: nat, depth: nat, word: Word) {
    exists run: seq<State>, events: seq<Event> :: IsRun(run, events, queues, depth, word) && run[|run| - 1] == s
  }

  lemma {:induction false} ReachedStart(queues: nat, depth: nat, word: Word)
    ensures Reached(Start(queues, depth, word), queues, depth, word)
  {
    assert IsRun([Start(queues, depth, word)], [], queues, depth, word);
  }

  lemma {:induction false} ReachedNext(s: State, e: Event, queues: nat, depth: nat, word: Word)
    requires Reached(s, queues, depth, word) && Enabled(s, e)
    ensures Reached(Next(s, e), queues, depth, word)
  {
    hide Enabled, Next;
    var run: seq<State>, events: seq<Event> :| IsRun(run, events, queues, depth, word) && run[|run| - 1] == s;
    var run', events' := run + [Next(s, e)], events + [e];
    forall i | 0 <= i < |events'| ensures Enabled(run'[i], events'[i]) && run'[i + 1] == Next(run'[i], events'[i]) {
      if i < |events| { assert run'[i] == run[i] && run'[i + 1] == run[i + 1]; }
    }
    assert IsRun(run', events', queues, depth, word);
  }

  /** A whole start is four steps. */
  lemma {:induction false} StartedSteps(s: State, rq: Rq, tag: nat, sync: bool)
    returns (s1: State, s2: State, s3: State)
    requires |s.index| <= |s.bits| && |s.busy| == |s.pcs| && s.maxDepth <= |s.index|
    requires rq.q < |s.pcs| && s.pcs[rq.q].Idle? && rq !in s.tags && tag < Limit(s.maxDepth, sync) && !s.bits[tag]
    ensures Enabled(s, Begin(rq.q, rq.n, sync)) && s1 == Next(s, Begin(rq.q, rq.n, sync))
    ensures Enabled(s1, Choose(rq.q, tag)) && s2 == Next(s1, Choose(rq.q, tag))
    ensures Enabled(s2, TestAndSet(rq.q)) && s3 == Next(s2, TestAndSet(rq.q))
    ensures Enabled(s3, Publish(rq.q)) && Started(s, rq, tag) == Next(s3, Publish(rq.q))
  {
    s1 := Next(s, Begin(rq.q, rq.n, sync));
    s2 := Next(s1, Choose(rq.q, tag));
    s3 := Next(s2, TestAndSet(rq.q));
    assert s3.pcs[rq.q := Idle] == s.pcs;
  }

  lemma {:induction false} StartedOk(s: State, rq: Rq, tag: nat, sync: bool)
    requires Sound(s) && rq.q < |s.pcs| && s.pcs[rq.q].Idle? && rq !in s.tags && tag < Limit(s.maxDepth, sync)
    requires !s.bits[tag]
    ensures Sound(Started(s, rq, tag)) && (Whole(s) ==> Whole(Started(s, rq, tag)))
  {
    var s1, s2, s3 := StartedSteps(s, rq, tag, sync);
    hide Sound, Whole, Enabled, Next, Started;
    NextOk(s, Begin(rq.q, rq.n, sync));
    NextOk(s1, Choose(rq.q, tag));
    NextOk(s2, TestAndSet(rq.q));
    NextOk(s3, Publish(rq.q));
  }

  lemma {:induction false} StartedReached(s: State, rq: Rq, tag: nat, sync: bool, queues: nat, depth: nat, word: Word)
    requires |s.index| <= |s.bits| && |s.busy| == |s.pcs| && s.maxDepth <= |s.index|
    requires rq.q < |s.pcs| && s.pcs[rq.q].Idle? && rq !in s.tags && tag < Limit(s.maxDepth, sync) && !s.bits[tag]
    requires Reached(s, queues, depth, word)
    ensures Reached(Started(s, rq, tag), queues, depth, word)
  {
    var s1, s2, s3 := StartedSteps(s, rq, tag, sync);
    hide Enabled, Next, Started, Reached;
    ReachedNext(s, Begin(rq.q, rq.n, sync), queues, depth, word);
    ReachedNext(s1, Choose(rq.q, tag), queues, depth, word);
    ReachedNext(s2, TestAndSet(rq.q), queues, depth, word);
    ReachedNext(s3, Publish(rq.q), queues, depth, word);
  }

  /** A whole end is one step, or two if the bit was set. */
  lemma {:induction false} EndedSteps(s: State, rq: Rq) returns (s1: State)
    requires |s.index| <= |s.bits| && |s.busy| == |s.pcs| && rq.q < |s.pcs| && s.pcs[rq.q].Idle?
    requires rq in s.tags && rq in s.busy[rq.q]
    ensures Enabled(s, End(rq.q, rq)) && s1 == Next(s, End(rq.q, rq))
    ensures s.tags[rq] < |s.index| && s.bits[s.tags[rq]] ==>
              Enabled(s1, ClearBit(rq.q)) && Ended(s, rq) == Next(s1, ClearBit(rq.q))
    ensures !(s.tags[rq] < |s.index| && s.bits[s.tags[rq]]) ==> Ended(s, rq) == s1
  {
    s1 := Next(s, End(rq.q, rq));
    if s.tags[rq] < |s.index| && s.bits[s.tags[rq]] {
      assert s1.pcs[rq.q := Idle] == s.pcs;
    } else if s.tags[rq] < |s.index| {
      assert s.bits[s.tags[rq] := false] == s.bits;
    }
  }

  lemma {:induction false} EndedOk(s: State, rq: Rq)
    requires Sound(s) && rq in s.tags && rq.q < |s.pcs| && s.pcs[rq.q].Idle?
    ensures rq in s.busy[rq.q] && Sound(Ended(s, rq)) && (Whole(s) ==> Whole(Ended(s, rq)))
    ensures Whole(s) ==> s.tags[rq] < |s.index| && s.index[s.tags[rq]] == Some(rq) && s.bits[s.tags[rq]]
  {
    assert Whole(s) ==> s.tags[rq] < |s.index| && s.index[s.tags[rq]] == Some(rq) && Taken(s, s.tags[rq]);
    var s1 := EndedSteps(s, rq);
    hide Sound, Whole, Enabled, Next, Ended;
    NextOk(s, End(rq.q, rq));
    if s.tags[rq] < |s.index| && s.bits[s.tags[rq]] { NextOk(s1, ClearBit(rq.q)); }
  }

  // ---------------------------------------------------------------- The shared map

  datatype ResizeResult = Ok | NoTags | Busy | NoMemory

  /** `struct blk_queue_tag` with the busy lists and the dispatch lists of the queues that use it. */
  class TagMap {
    const word: Word
    var bits: array<bool>
    var index: array<Option<Rq>>
    var maxDepth: nat
    var tags: map<Rq, nat>
    var busy: seq<seq<Rq>>
    var heads: seq<seq<Rq>>
    ghost var stamps: map<Rq, nat>
    ghost var clock: nat

    ghost function View(): State
      reads this, bits, index
    {
      State(bits[..], index[..], word, maxDepth, tags, seq(|busy|, _ => Idle), busy, stamps, clock)
    }

    ghost predicate Valid()
      reads this, bits, index
    {
      |heads| == |busy| && Sound(View())
    }

    constructor (queues: nat, depth: nat, wordSize: Word)
      ensures View() == Start(queues, depth, wordSize) && Valid() && Whole(View()) && fresh(bits) && fresh(index)
    {
      word := wordSize;
      bits := new bool[Align(depth, wordSize)](_ => false);
      index := new Option<Rq>[depth](_ => None);
      maxDepth, tags, stamps, clock := depth, map[], map[], 0;
      busy, heads := seq(queues, _ => []), seq(queues, _ => []);
      new;
      assert View() == Start(queues, depth, wordSize);
      StartOk(queues, depth, wordSize);
    }

    /** `find_first_zero_bit`. */
    method FirstZero(limit: nat) returns (tag: nat)
      requires limit <= bits.Length
      ensures tag <= limit
      ensures forall t :: 0 <= t < tag ==> bits[t]
      ensures tag < limit ==> !bits[tag]
    {
      tag := 0;
      while tag < limit && bits[tag]
        invariant 0 <= tag <= limit
        invariant forall t :: 0 <= t < tag ==> bits[t]
      {
        tag := tag + 1;
      }
    }

    /** `blk_queue_start_tag`: takes the request off the dispatch list and gives it the first free tag it may have,
        or says there is none. */
    method StartTag(rq: Rq, sync: bool, asyncInFlight: nat) returns (refused: bool)
      requires Valid() && rq.q < |busy| && rq !in tags
      modifies this, bits, index
      ensures Valid() && bits == old(bits) && index == old(index) && maxDepth == old(maxDepth)
      ensures old(Whole(View())) ==> Whole(View())
      ensures refused ==> View() == old(View()) && heads == old(heads)
      ensures !refused ==> heads == old(heads)[rq.q := Without(old(heads)[rq.q], rq)]
      ensures refused <==> || old(forall t :: 0 <= t < Limit(maxDepth, sync) ==> View().bits[t])
                           || (!sync && 1 < maxDepth && Limit(maxDepth, sync) < asyncInFlight)
      ensures !refused ==> && rq in tags && tags[rq] < Limit(maxDepth, sync) && !old(View()).bits[tags[rq]]
                           && (forall t :: 0 <= t < tags[rq] ==> old(View()).bits[t])
                           && View() == Started(old(View()), rq, tags[rq])
    {
      hide BitsOk, HoldersOk, SlotsOk, Whole, BusyOk, OrderOk, PcOk, Without;
      ghost var s := View();
      assert |busy| == |heads| && maxDepth <= index.Length <= bits.Length;
      var limit := Limit(maxDepth, sync);
      if !sync && 1 < maxDepth && limit < asyncInFlight { return true; }
      var tag := FirstZero(limit);
      if limit <= tag { return true; }
      StartedOk(s, rq, tag, sync);
      TakeTag(rq, tag);
      refused := false;
    }

    /** What `blk_queue_start_tag` does once it has its tag. */
    method TakeTag(rq: Rq, tag: nat)
      requires rq.q < |busy| == |heads| && tag < index.Length <= bits.Length
      modifies this`tags, this`heads, this`busy, this`stamps, this`clock, bits, index
      ensures View() == Started(old(View()), rq, tag) && heads == old(heads)[rq.q := Without(old(heads)[rq.q], rq)]
    {
      hide Without;
      bits[tag] := true;
      tags := tags[rq := tag];
      index[tag] := Some(rq);
      heads := heads[rq.q := Without(heads[rq.q], rq)];
      busy := busy[rq.q := [rq] + busy[rq.q]];
      stamps, clock := stamps[rq := clock], clock + 1;
    }

    /** `blk_queue_end_tag`. While every outstanding request has its slot, the branches for a tag out of range, a
        missing slot and a clear bit are not taken. */
    method EndTag(rq: Rq)
      requires Valid() && rq in tags && rq.q < |busy|
      modifies this, bits, index
      ensures Valid() && heads == old(heads) && bits == old(bits) && index == old(index)
      ensures View() == Ended(old(View()), rq)
      ensures index.Length <= old(tags)[rq] ==> View() == old(View())
      ensures old(tags)[rq] < index.Length ==>
                && tags == old(tags) - {rq}
                && forall t :: 0 <= t < index.Length ==>
                     if t == old(tags)[rq] then !bits[t] && index[t] == None
                     else bits[t] == old(bits[t]) && index[t] == old(index[t])
      ensures old(Whole(View())) ==> Whole(View())
      ensures old(Whole(View())) ==>
                old(&& tags[rq] < index.Length <= bits.Length && View().index[tags[rq]] == Some(rq)
                    && View().bits[tags[rq]])
    {
      hide BitsOk, HoldersOk, SlotsOk, Whole, BusyOk, OrderOk, PcOk;
      ghost var s := View();
      EndedOk(s, rq);
      var tag := tags[rq];
      if index.Length <= tag { return; }
      busy := busy[rq.q := Without(busy[rq.q], rq)];
      tags := tags - {rq};
      index[tag] := None;
      if !bits[tag] {
        assert View() == Ended(s, rq);
        return;
      }
      bits[tag] := false;
      assert View() == Ended(s, rq);
    }

    /** Fresh arrays for `depth` entries that begin with as much of the old map as they hold, the bits in whole
        words. */
    method Copied(depth: nat) returns (b: array<bool>, x: array<Option<Rq>>)
      ensures fresh(b) && fresh(x)
      ensures b[..] == Fitted(bits[..], Align(depth, word), false) && x[..] == Fitted(index[..], depth, None)
    {
      var size := Align(depth, word);
      b := new bool[size](_ => false);
      x := new Option<Rq>[depth](_ => None);
      var t := 0;
      while t < index.Length && t < depth
        invariant 0 <= t <= index.Length && t <= depth
        invariant forall i :: 0 <= i < t ==> x[i] == index[i]
        invariant forall i :: t <= i < depth ==> x[i] == None
        invariant forall i :: 0 <= i < size ==> !b[i]
      {
        x[t] := index[t];
        t := t + 1;
      }
      t := 0;
      while t < bits.Length && t < size
        invariant 0 <= t <= bits.Length && t <= size && x[..] == Fitted(index[..], depth, None)
        invariant forall i :: 0 <= i < t ==> b[i] == bits[i]
        invariant forall i :: t <= i < size ==> !b[i]
      {
        b[t] := bits[t];
        t := t + 1;
      }
    }

    /** `blk_queue_resize_tags`: a large enough map only changes its limit, a shared one is not replaced, and a
        replacement is cut to twice the requests of the queue. */
    method ResizeTags(attached: bool, depth: nat, nrRequests: nat, memory: bool) returns (r: ResizeResult)
      requires Valid() && 0 < |busy|
      modifies this
      ensures Valid() && heads == old(heads) && tags == old(tags) && busy == old(busy)
      ensures r == if !attached then NoTags else if depth <= old(index.Length) then Ok
                   else if |busy| != 1 then Busy else if !memory then NoMemory else Ok
      ensures r != Ok ==> View() == old(View())
      ensures r == Ok && depth <= old(index.Length) ==> maxDepth == depth && bits == old(bits) && index == old(index)
      ensures r == Ok && old(index.Length) < depth ==>
                && maxDepth == index.Length <= depth && index.Length <= 2 * nrRequests
                && (index.Length == depth || index.Length == 2 * nrRequests)
                && (forall t :: 0 <= t < index.Length ==>
                    index[t] == if t < old(index.Length) then old(index[..])[t] else None)
                && forall t :: 0 <= t < bits.Length ==> bits[t] == (t < old(bits.Length) && old(bits[..])[t])
      ensures r == Ok ==> && old(Enabled(View(), Resize(0, depth, nrRequests)))
                          && View() == old(Next(View(), Resize(0, depth, nrRequests)))
      ensures old(Whole(View()) && Roomy(View(), Resize(0, depth, nrRequests))) ==> Whole(View())
    {
      hide BitsOk, HoldersOk, SlotsOk, Whole, BusyOk, OrderOk, PcOk;
      ghost var s := View();
      if !attached { return NoTags; }
      NextOk(s, Resize(0, depth, nrRequests));
      if depth <= index.Length {
        maxDepth := depth;
        return Ok;
      }
      if |busy| != 1 { return Busy; }
      if !memory { return NoMemory; }
      var d := if 2 * nrRequests < depth then 2 * nrRequests else depth;
      var b, x := Copied(d);
      bits, index, maxDepth := b, x, d;
      assert View() == Next(s, Resize(0, depth, nrRequests));
      return Ok;
    }

    /** `blk_requeue_request` on the first request of a busy list. */
    method RequeueFirst(k: nat)
      requires Valid() && Whole(View()) && k < |busy| && busy[k] != []
      modifies this, bits, index
      ensures Valid() && Whole(View()) && bits == old(bits) && index == old(index) && maxDepth == old(maxDepth)
      ensures stamps == old(stamps)
      ensures busy == old(busy)[k := old(busy)[k][1..]] && heads == old(heads)[k := [old(busy)[k][0]] + old(heads)[k]]
      ensures old(busy)[k][0].q == k && tags == old(tags) - {old(busy)[k][0]}
    {
      var rq := busy[k][0];
      HeadOwned(View(), k);
      hide Sound, Whole;
      EndTag(rq);
      heads := heads[k := [rq] + heads[k]];
    }

    /** The loop of `blk_queue_invalidate_tags`: the busy list goes, one by one, to the head of the queue. */
    method RequeueAll(k: nat)
      requires Valid() && Whole(View()) && k < |busy|
      modifies this, bits, index
      ensures Valid() && Whole(View()) && busy == old(busy)[k := []] && maxDepth == old(maxDepth)
      ensures stamps == old(stamps)
      ensures heads == old(heads)[k := Reversed(old(busy)[k]) + old(heads)[k]]
      ensures forall rq: Rq :: rq in tags ==> rq in old(tags) && tags[rq] == old(tags)[rq]
      ensures forall rq: Rq :: rq in old(tags) && rq.q != k ==> rq in tags
    {
      hide Sound, Whole, Reversed;
      ghost var done: seq<Rq> := [];
      ReversedOne(Rq(k, 0));
      assert heads[k] == Reversed(done) + heads[k];
      while busy[k] != []
        invariant Valid() && Whole(View()) && bits == old(bits) && index == old(index) && maxDepth == old(maxDepth)
        invariant stamps == old(stamps)
        invariant k < |busy| && busy == old(busy)[k := busy[k]] && old(busy)[k] == done + busy[k]
        invariant heads == old(heads)[k := Reversed(done) + old(heads)[k]]
        invariant forall rq: Rq :: rq in tags ==> rq in old(tags) && tags[rq] == old(tags)[rq]
        invariant forall rq: Rq :: rq in old(tags) && rq.q != k ==> rq in tags
        decreases |busy[k]|
      {
        ghost var rq := busy[k][0];
        RequeueFirst(k);
        ReversedMore(done, rq);
        done := done + [rq];
        assert heads[k] == Reversed(done) + old(heads)[k];
      }
      assert done == old(busy)[k];
    }

    /** `blk_queue_invalidate_tags`: all requests of queue `k` give back their tags and go to the head of its
        dispatch list in the order in which they were started; the other queues notice nothing. */
    method InvalidateTags(k: nat)
      requires Valid() && Whole(View()) && k < |busy|
      modifies this, bits, index
      ensures Valid() && Whole(View()) && busy == old(busy)[k := []] && maxDepth == old(maxDepth)
      ensures heads == old(heads)[k := Reversed(old(busy)[k]) + old(heads)[k]]
      ensures OldestFirst(Reversed(old(busy)[k]), stamps) && stamps == old(stamps)
      ensures forall rq: Rq :: rq in old(busy)[k] <==> rq in old(tags) && rq.q == k
      ensures forall rq: Rq :: rq in tags <==> rq in old(tags) && rq.q != k
      ensures forall rq: Rq :: rq in tags ==> tags[rq] == old(tags)[rq]
    {
      hide BitsOk, HoldersOk, SlotsOk, PcOk, BusyOk, Whole, Reversed, OldestFirst, NewestFirst;
      OnlyOwn(View(), k);
      OrderOf(View(), k);
      ReversedOldest(busy[k], stamps);
      RequeueAll(k);
      OnlyOwn(View(), k);
    }
  }

  lemma {:induction false} ReversedMore(done: seq<Rq>, rq: Rq)
    ensures Reversed(done + [rq]) == [rq] + Reversed(done)
  {
    ReversedSplit(done, [rq]);
    ReversedOne(rq);
  }

  lemma {:induction false} ReversedOne(rq: Rq)
    ensures Reversed([]) == [] && Reversed([rq]) == [rq]
  {
    assert Reversed([rq]) == Reversed([]) + [rq];
  }

  lemma {:induction false} HeadOwned(s: State, k: nat)
    requires Sound(s) && k < |s.busy| && s.busy[k] != []
    ensures s.busy[k][0] in s.tags && s.busy[k][0].q == k && Without(s.busy[k], s.busy[k][0]) == s.busy[k][1..]
    ensures s.busy[k][0] !in s.busy[k][1..]
    ensures Whole(s) ==> s.tags[s.busy[k][0]] < |s.index|
  {
    hide BitsOk, HoldersOk, SlotsOk, PcOk, OrderOk;
  }

  lemma {:induction false} OnlyOwn(s: State, k: nat)
    requires Sound(s) && k < |s.busy|
    ensures forall rq: Rq :: rq in s.busy[k] <==> rq in s.tags && rq.q == k
  {
    hide BitsOk, HoldersOk, SlotsOk, PcOk, OrderOk;
  }
}
