/** The FLUSH/FUA sequencer of block/blk-flush.c, driven by `__elv_next_request` of block/blk.h, against a
    device with a volatile write cache. */
module Flush {

  import opened Common

  /** `flush_flags`, fixed; `blk_queue_flush` never leaves FUA set without FLUSH. */
  datatype Config = Config(hasFlush: bool, hasFua: bool) {
    predicate Valid() { hasFua ==> hasFlush }
  }

  /** A request's REQ_FLUSH and REQ_FUA flags and whether it carries data. */
  datatype Rq = Rq(flush: bool, fua: bool, data: bool)

  /** An entry of the dispatch list, or what the driver holds: an ordinary request, or the queue's own
      `flush_rq`. */
  datatype Item = Normal(id: nat) | FlushRq

  datatype Stage = Pre | Data | Post

  // ---------------------------------------------------------------- The sequence bits

  /** `flush_seq`, bit by bit. The DONE bit itself is never set. */
  datatype Bits = Bits(started: bool, pre: bool, data: bool, post: bool) {
    function Or(o: Bits): Bits { Bits(started || o.started, pre || o.pre, data || o.data, post || o.post) }
    predicate Meets(o: Bits) { (started && o.started) || (pre && o.pre) || (data && o.data) || (post && o.post) }
  }

  const ZERO := Bits(false, false, false, false)
  const STARTED := Bits(true, false, false, false)

  function Bit(g: Stage): Bits { Bits(false, g == Pre, g == Data, g == Post) }

  /** The lowest bit that is not set, as a step. */
  datatype Cur = Idle | Starting | Step(stage: Stage) | Done

  /** `blk_flush_cur_seq`. */
  function CurSeq(bits: Bits): Cur {
    if bits == ZERO then Idle
    else if !bits.started then Starting
    else if !bits.pre then Step(Pre)
    else if !bits.data then Step(Data)
    else if !bits.post then Step(Post)
    else Done
  }

  predicate DoPre(c: Config, rq: Rq) { c.hasFlush && rq.flush }

  predicate DoPost(c: Config, rq: Rq) { c.hasFlush && !c.hasFua && rq.fua }

  predicate Needs(c: Config, rq: Rq, g: Stage) {
    match g case Pre => DoPre(c, rq) case Data => rq.data case Post => DoPost(c, rq)
  }

  /** The steps a sequenced request goes through, in order. */
  function Required(c: Config, rq: Rq): seq<Stage> {
    (if DoPre(c, rq) then [Pre] else []) + (if rq.data then [Data] else []) + if DoPost(c, rq) then [Post] else []
  }

  predicate Flagged(rq: Rq) { rq.flush || rq.fua }

  /** Requests that cannot be issued directly. */
  predicate Sequenced(c: Config, rq: Rq) { DoPre(c, rq) || DoPost(c, rq) }

  /** The steps a request does not need. */
  function Skip(c: Config, rq: Rq): Bits { Bits(false, !DoPre(c, rq), !rq.data, !DoPost(c, rq)) }

  /** The bits while step `g` of a request is under way. */
  function BitsAt(c: Config, rq: Rq, g: Stage): Bits {
    STARTED.Or(Skip(c, rq)).Or(Bits(false, g != Pre, g == Post, false))
  }

  /** The first needed step from `g` on. */
  function FirstFrom(c: Config, rq: Rq, g: Stage): Option<Stage> {
    if Needs(c, rq, g) then Some(g)
    else match g
      case Pre => if rq.data then Some(Data) else if DoPost(c, rq) then Some(Post) else None
      case Data => if DoPost(c, rq) then Some(Post) else None
      case Post => None
  }

  function After(c: Config, rq: Rq, g: Stage): Option<Stage> {
    match g
    case Pre => FirstFrom(c, rq, Data)
    case Data => FirstFrom(c, rq, Post)
    case Post => None
  }

  /** Setting a step's bit uncovers the next needed step, or the end. */
  lemma {:induction false} BitsAdvance(c: Config, rq: Rq, g: Stage)
    requires Needs(c, rq, g)
    ensures var bits := BitsAt(c, rq, g);
            && !bits.Meets(Bit(g)) && bits.started && CurSeq(bits) == Step(g)
            && match After(c, rq, g)
               case None => CurSeq(bits.Or(Bit(g))) == Done
               case Some(h) => && CurSeq(bits.Or(Bit(g))) == Step(h) && bits.Or(Bit(g)) == BitsAt(c, rq, h)
                               && Needs(c, rq, h)
  {
  }

  lemma {:induction false} BitsStart(c: Config, rq: Rq)
    requires Sequenced(c, rq)
    ensures !STARTED.Meets(Skip(c, rq))
    ensures FirstFrom(c, rq, Pre).Some?
    ensures var h := FirstFrom(c, rq, Pre).value;
            CurSeq(STARTED.Or(Skip(c, rq))) == Step(h) && STARTED.Or(Skip(c, rq)) == BitsAt(c, rq, h) && Needs(c, rq, h)
  {
  }

  // ---------------------------------------------------------------- Queue, driver and device

  /** Writes that have completed, those known to be on stable storage, and those a flush command under way
      covers: the ones that had completed when it was issued. */
  datatype Device = Device(written: set<nat>, stable: set<nat>, snapshot: set<nat>)

  /** Requests are numbered in order of submission. `sched` is what the scheduler still holds, `head` the
      dispatch list, `inFlight` what the driver holds; `stage` stands for `flush_rq`'s completion callback.
      The last four fields only record: which writes had completed when a request was started, how requests
      ended, and the steps each sequenced request ran with their outcomes. */
  datatype State = State(reqs: seq<Rq>, sched: seq<nat>, head: seq<Item>, pending: seq<nat>, inFlight: set<Item>,
                         bits: Bits, err: int, stage: Stage, orig: Option<nat>, dev: Device,
                         started: map<nat, set<nat>>, done: map<nat, int>, ran: map<nat, seq<Stage>>,
                         errs: map<nat, seq<int>>)

  const EMPTY := State([], [], [], [], {}, ZERO, 0, Pre, None, Device({}, {}, {}), map[], map[], map[], map[])

  /** The end of a sequence: its request ends, and the next pending one goes to the head of the list. */
  function Finish(s: State): State
    requires s.orig.Some?
  {
    var ended := s.(bits := ZERO, orig := None, done := s.done[s.orig.value := s.err]);
    if s.pending == [] then ended
    else ended.(pending := s.pending[1..], head := [Normal(s.pending[0])] + s.head)
  }

  /** `blk_flush_complete_seq`. */
  function CompleteSeq(s: State, bits: Bits, error: int): State
    requires s.orig.Some? && s.bits.started
  {
    var s1 := s.(err := if error != 0 && s.err == 0 then error else s.err, bits := s.bits.Or(bits));
    match CurSeq(s1.bits)
    case Step(g) => s1.(stage := g, head := [FlushRq] + s.head)
    case Done => Finish(s1)
  }

  /** `blk_do_flush` when no sequence is in progress: the request at the head of the list is stashed away. */
  function StartSeq(c: Config, s: State, id: nat): State
    requires id < |s.reqs| && s.head != []
  {
    var s1 := s.(err := 0, bits := STARTED, orig := Some(id), head := s.head[1..],
                 started := s.started[id := s.dev.written], ran := s.ran[id := []], errs := s.errs[id := []]);
    CompleteSeq(s1, Skip(c, s.reqs[id]), 0)
  }

  /** `blk_do_flush` when another sequence is in progress. */
  function Pend(s: State, id: nat): State
    requires s.head != []
  {
    s.(head := s.head[1..], pending := s.pending + [id])
  }

  predicate HeadKnown(s: State) {
    forall i :: 0 <= i < |s.head| && s.head[i].Normal? ==> s.head[i].id < |s.reqs|
  }

  predicate SchedKnown(s: State) {
    forall i :: 0 <= i < |s.sched| ==> s.sched[i] < |s.reqs|
  }

  /** `__elv_next_request`: what the driver may have next, and the queue after the flush requests in front
      of it have been started or put off. */
  function NextRequest(c: Config, s: State): (r: (State, Option<Item>))
    requires HeadKnown(s) && SchedKnown(s)
    decreases |s.head| + |s.sched|, |s.sched|
  {
    if s.head == [] then
      if s.sched == [] then (s, None) else NextRequest(c, s.(sched := s.sched[1..], head := [Normal(s.sched[0])]))
    else if s.head[0].FlushRq? || !Flagged(s.reqs[s.head[0].id]) then (s, Some(s.head[0]))
    else
      var id := s.head[0].id;
      var rq := s.reqs[id];
      if rq.data && !DoPre(c, rq) && !DoPost(c, rq) then (s, Some(Normal(id)))
      else if s.bits != ZERO then NextRequest(c, Pend(s, id))
      else (StartSeq(c, s, id), Some(FlushRq))
  }

  /** The driver takes the request at the head of the list. A flush command covers what has completed by now. */
  function Issue(s: State, item: Item): State
    requires s.head != []
  {
    var s1 := s.(head := s.head[1..], inFlight := s.inFlight + {item});
    if item.Normal? then s1.(started := s.started[item.id := s.dev.written])
    else if s.stage == Data then s1
    else s1.(dev := s.dev.(snapshot := s.dev.written))
  }

  function Fetch(c: Config, s: State): State
    requires HeadKnown(s) && SchedKnown(s)
  {
    var (s1, item) := NextRequest(c, s);
    if item.None? || s1.head == [] then s1 else Issue(s1, item.value)
  }

  /** New requests with a flag go to the front of the dispatch list, others to the scheduler, which hands them over
      in an order of its own: the new one goes in at any place `at`. */
  function Submit(s: State, rq: Rq, at: nat): State
    requires at <= |s.sched|
  {
    var id := |s.reqs|;
    if Flagged(rq) then s.(reqs := s.reqs + [rq], head := [Normal(id)] + s.head)
    else s.(reqs := s.reqs + [rq], sched := s.sched[..at] + [id] + s.sched[at..])
  }

  /** A write command has succeeded. Without a volatile cache, or with the FUA bit on a device that knows
      it, the data is on stable storage. */
  function Written(c: Config, dev: Device, id: nat, rq: Rq): Device {
    Device(dev.written + {id}, if !c.hasFlush || (rq.fua && c.hasFua) then dev.stable + {id} else dev.stable,
           dev.snapshot)
  }

  function CompleteNormal(c: Config, s: State, id: nat, error: int): State
    requires id < |s.reqs|
  {
    s.(inFlight := s.inFlight - {Normal(id)}, done := s.done[id := error],
       dev := if error == 0 && s.reqs[id].data then Written(c, s.dev, id, s.reqs[id]) else s.dev)
  }

  function FlushEffect(c: Config, s: State, error: int): Device
    requires s.orig.Some? && s.orig.value < |s.reqs|
  {
    if error != 0 then s.dev
    else if s.stage == Data then Written(c, s.dev, s.orig.value, s.reqs[s.orig.value])
    else s.dev.(stable := s.dev.stable + s.dev.snapshot)
  }

  /** `flush_rq` is off the device, its effect has taken place and its stage is on record. */
  function OffDevice(c: Config, s: State, error: int): State
    requires s.orig.Some? && s.orig.value < |s.reqs| && s.orig.value in s.ran && s.orig.value in s.errs
  {
    var id := s.orig.value;
    s.(inFlight := s.inFlight - {FlushRq}, dev := FlushEffect(c, s, error),
       ran := s.ran[id := s.ran[id] + [s.stage]], errs := s.errs[id := s.errs[id] + [error]])
  }

  /** `flush_rq` completes: `pre_flush_end_io`, `flush_data_end_io` or `post_flush_end_io`. */
  function CompleteFlush(c: Config, s: State, error: int): State
    requires s.orig.Some? && s.orig.value < |s.reqs| && s.orig.value in s.ran && s.orig.value in s.errs
    requires s.bits.started
  {
    CompleteSeq(OffDevice(c, s, error), Bit(s.stage), error)
  }

  // ---------------------------------------------------------------- What always holds

  function FirstError(errs: seq<int>): int {
    if errs == [] then 0 else if errs[0] != 0 then errs[0] else FirstError(errs[1..])
  }

  lemma {:induction false} FirstErrorSnoc(errs: seq<int>, e: int)
    ensures FirstError(errs + [e]) == if FirstError(errs) != 0 then FirstError(errs) else e
  {
    if errs != [] {
      assert (errs + [e])[1..] == errs[1..] + [e];
      FirstErrorSnoc(errs[1..], e);
    }
  }

  /** The needed steps before `g`. */
  function Before(c: Config, rq: Rq, g: Stage): seq<Stage> {
    if g == Pre then [] else (if DoPre(c, rq) then [Pre] else []) + if g == Post && rq.data then [Data] else []
  }

  ghost function Count<T>(xs: seq<T>, x: T): nat {
    if xs == [] then 0 else (if xs[0] == x then 1 else 0) + Count(xs[1..], x)
  }

  lemma {:induction false} CountCons<T>(x: T, xs: seq<T>, y: T)
    ensures Count([x] + xs, y) == Count(xs, y) + if x == y then 1 else 0
  {
    assert ([x] + xs)[1..] == xs;
  }

  lemma {:induction false} CountSnoc<T>(xs: seq<T>, x: T, y: T)
    ensures Count(xs + [x], y) == Count(xs, y) + if x == y then 1 else 0
  {
    if xs == [] {
      assert xs + [x] == [x];
    } else {
      assert (xs + [x])[1..] == xs[1..] + [x];
      CountSnoc(xs[1..], x, y);
    }
  }

  lemma {:induction false} CountInsert<T>(xs: seq<T>, at: nat, x: T, y: T)
    requires at <= |xs|
    ensures Count(xs[..at] + [x] + xs[at..], y) == Count(xs, y) + if x == y then 1 else 0
  {
    if at == 0 {
      assert xs[..at] + [x] + xs[at..] == [x] + xs;
      CountCons(x, xs, y);
    } else {
      assert (xs[..at] + [x] + xs[at..])[1..] == xs[1..][..at - 1] + [x] + xs[1..][at - 1..];
      CountInsert(xs[1..], at - 1, x, y);
    }
  }

  lemma {:induction false} CountMember<T>(xs: seq<T>, i: nat)
    requires i < |xs|
    ensures 1 <= Count(xs, xs[i])
  {
    if i != 0 { CountMember(xs[1..], i - 1); }
  }

  /** In how many places a request is: with the scheduler, on the dispatch list, pending, being sequenced,
      with the driver, or done. */
  ghost function Places(s: State, id: nat): nat {
    Count<nat>(s.sched, id) + Count<Item>(s.head, Normal(id)) + Count<nat>(s.pending, id)
    + (if s.orig == Some(id) then 1 else 0) + (if Normal(id) in s.inFlight then 1 else 0)
    + if id in s.done then 1 else 0
  }

  /** No request is lost or duplicated. */
  ghost predicate Placed(s: State) {
    forall id: nat :: Places(s, id) == if id < |s.reqs| then 1 else 0
  }

  /** `flush_rq` is somewhere exactly while a sequence is in progress, and the bits say where it stands. */
  ghost predicate SeqOk(c: Config, s: State) {
    && Count<Item>(s.head, FlushRq) + (if FlushRq in s.inFlight then 1 else 0) == (if s.orig.Some? then 1 else 0)
    && (s.orig.None? ==> s.bits == ZERO)
    && (s.orig.Some? ==> && s.orig.value < |s.reqs| && Sequenced(c, s.reqs[s.orig.value])
                         && Needs(c, s.reqs[s.orig.value], s.stage)
                         && s.bits == BitsAt(c, s.reqs[s.orig.value], s.stage))
  }

  ghost predicate PendingOk(c: Config, s: State) {
    forall i :: 0 <= i < |s.pending| ==> s.pending[i] < |s.reqs| && Sequenced(c, s.reqs[s.pending[i]])
  }

  /** Every request submitted with a flag needs at least one step. */
  ghost predicate Accepted(c: Config, s: State) {
    forall i :: 0 <= i < |s.reqs| && Flagged(s.reqs[i]) ==> Required(c, s.reqs[i]) != []
  }

  /** The driver holds only requests that need no sequence. */
  ghost predicate DirectOk(c: Config, s: State) {
    forall id: nat :: Normal(id) in s.inFlight ==>
      id < |s.reqs| && !Sequenced(c, s.reqs[id]) && id in s.started && s.started[id] <= s.dev.written
  }

  ghost predicate WillStart(c: Config, s: State, i: int) {
    0 <= i < |s.head| && s.head[i].Normal? && s.head[i].id < |s.reqs| && Sequenced(c, s.reqs[s.head[i].id])
  }

  /** Pending flushes are never stranded. */
  ghost predicate NotStranded(c: Config, s: State) {
    s.pending != [] ==> s.orig.Some? || exists i :: WillStart(c, s, i)
  }

  /** The record of a request's steps, against the error it carries. */
  ghost predicate RanOk(s: State, id: nat, steps: seq<Stage>, err: int) {
    id in s.ran && id in s.errs && s.ran[id] == steps && |s.errs[id]| == |steps| && err == FirstError(s.errs[id])
  }

  /** Each needed step runs once, in order, and a request ends with the first error of its steps. */
  ghost predicate LogOk(c: Config, s: State) {
    && (s.orig.Some? ==> && s.orig.value < |s.reqs|
                         && RanOk(s, s.orig.value, Before(c, s.reqs[s.orig.value], s.stage), s.err))
    && (forall id: nat :: id in s.done && id < |s.reqs| && Sequenced(c, s.reqs[id]) ==>
        RanOk(s, id, Required(c, s.reqs[id]), s.done[id]))
  }

  /** What a completed request may rely on. */
  ghost predicate Durable(s: State, id: nat)
    requires id < |s.reqs|
  {
    && (s.reqs[id].flush ==> id in s.started && s.started[id] <= s.dev.stable)
    && (s.reqs[id].fua && s.reqs[id].data ==> id in s.dev.stable)
  }

  /** What the steps completed so far have achieved, if none of them failed. */
  ghost predicate Progress(c: Config, s: State)
    requires s.orig.Some? && s.orig.value < |s.reqs|
  {
    var id := s.orig.value;
    var rq := s.reqs[id];
    && id in s.started && s.started[id] <= s.dev.written
    && (s.err == 0 && s.stage != Pre && DoPre(c, rq) ==> s.started[id] <= s.dev.stable)
    && (s.err == 0 && s.stage == Post && rq.data ==> id in s.dev.written)
    && (FlushRq in s.inFlight && s.stage == Pre ==> s.started[id] <= s.dev.snapshot)
    && (FlushRq in s.inFlight && s.err == 0 && s.stage == Post && rq.data ==> id in s.dev.snapshot)
  }

  ghost predicate DurableOk(c: Config, s: State) {
    && (!c.hasFlush ==> s.dev.written <= s.dev.stable)
    && (s.orig.Some? ==> s.orig.value < |s.reqs| && Progress(c, s))
    && (forall id: nat :: id in s.done && id < |s.reqs| && s.done[id] == 0 ==> Durable(s, id))
  }

  ghost predicate Inv(c: Config, s: State) {
    && c.Valid() && Placed(s) && SeqOk(c, s) && PendingOk(c, s) && Accepted(c, s)
    && DirectOk(c, s) && NotStranded(c, s) && LogOk(c, s) && DurableOk(c, s)
  }

  lemma {:induction false} Known(s: State)
    requires Placed(s)
    ensures HeadKnown(s) && SchedKnown(s)
  {
    forall i | 0 <= i < |s.head| && s.head[i].Normal? ensures s.head[i].id < |s.reqs| {
      CountMember<Item>(s.head, i);
      assert Places(s, s.head[i].id) > 0;
    }
    forall i | 0 <= i < |s.sched| ensures s.sched[i] < |s.reqs| {
      CountMember<nat>(s.sched, i);
      assert Places(s, s.sched[i]) > 0;
    }
  }

  // ---------------------------------------------------------------- Each step keeps it

  /** Nothing about sequences that have run or are running changes. */
  ghost predicate SameRecord(s: State, s': State) {
    && |s.reqs| <= |s'.reqs| && s'.reqs[..|s.reqs|] == s.reqs
    && (forall id: nat :: |s.reqs| <= id < |s'.reqs| ==> id !in s.done)
    && s'.orig == s.orig && s'.stage == s.stage && s'.err == s.err && s'.done == s.done
  }

  lemma {:induction false} LogFrame(c: Config, s: State, s': State)
    requires LogOk(c, s) && SameRecord(s, s') && s'.ran == s.ran && s'.errs == s.errs
    ensures LogOk(c, s')
  {
    hide Required, Before, Sequenced;
    assert forall i :: 0 <= i < |s.reqs| ==> s'.reqs[i] == s.reqs[i];
  }

  lemma {:induction false} DurableFrame(c: Config, s: State, s': State)
    requires DurableOk(c, s) && SameRecord(s, s') && s'.dev == s.dev
    requires (FlushRq in s'.inFlight <==> FlushRq in s.inFlight)
    requires forall id: nat ::
               id in s.started && (id in s.done || s.orig == Some(id)) ==>
                 id in s'.started && s'.started[id] == s.started[id]
    ensures DurableOk(c, s')
  {
    assert forall i :: 0 <= i < |s.reqs| ==> s'.reqs[i] == s.reqs[i];
  }

  lemma {:induction false} SubmitPlaces(s: State, rq: Rq, at: nat, id: nat)
    requires at <= |s.sched|
    ensures Places(Submit(s, rq, at), id) == Places(s, id) + if id == |s.reqs| then 1 else 0
    ensures Count<Item>(Submit(s, rq, at).head, FlushRq) == Count<Item>(s.head, FlushRq)
  {
    hide Count;
    var n: nat := |s.reqs|;
    CountCons<Item>(Normal(n), s.head, FlushRq);
    CountCons<Item>(Normal(n), s.head, Normal(id));
    CountInsert<nat>(s.sched, at, n, id);
  }

  lemma {:induction false} SubmitPlaced(s: State, rq: Rq, at: nat)
    requires Placed(s) && at <= |s.sched|
    ensures Placed(Submit(s, rq, at)) && |s.reqs| !in s.done && s.orig != Some(|s.reqs|)
    ensures Count<Item>(Submit(s, rq, at).head, FlushRq) == Count<Item>(s.head, FlushRq)
  {
    hide Count;
    var n: nat := |s.reqs|;
    assert Places(s, n) == 0;
    SubmitPlaces(s, rq, at, n);
    hide Places;
    forall id: nat ensures Places(Submit(s, rq, at), id) == if id < n + 1 then 1 else 0 {
      SubmitPlaces(s, rq, at, id);
    }
  }

  lemma {:induction false} SubmitKeeps(c: Config, s: State, rq: Rq, at: nat)
    requires Inv(c, s) && at <= |s.sched| && (Flagged(rq) ==> Required(c, rq) != [])
    ensures Inv(c, Submit(s, rq, at))
  {
    var s' := Submit(s, rq, at);
    SubmitNotStranded(c, s, rq, at);
    hide Placed, Required, BitsAt, Needs, Sequenced, LogOk, DurableOk, NotStranded, Count;
    SubmitPlaced(s, rq, at);
    LogFrame(c, s, s');
    DurableFrame(c, s, s');
  }

  lemma {:induction false} SubmitNotStranded(c: Config, s: State, rq: Rq, at: nat)
    requires Inv(c, s) && at <= |s.sched|
    ensures NotStranded(c, Submit(s, rq, at))
  {
    hide Placed, PendingOk, DirectOk, LogOk, DurableOk, SeqOk;
    if s.pending != [] && s.orig.None? {
      var i :| WillStart(c, s, i);
      assert WillStart(c, Submit(s, rq, at), if Flagged(rq) then i + 1 else i);
    }
  }

  /** The scheduler hands over a request to an empty dispatch list. */
  lemma {:induction false} RefillKeeps(c: Config, s: State)
    requires Inv(c, s) && s.head == [] && s.sched != []
    ensures Inv(c, s.(sched := s.sched[1..], head := [Normal(s.sched[0])]))
  {
    var s' := s.(sched := s.sched[1..], head := [Normal(s.sched[0])]);
    assert s'.head[1..] == [];
    assert Placed(s') by {
      forall id: nat ensures Places(s', id) == Places(s, id) {
      }
    }
    hide Placed, LogOk, DurableOk;
    LogFrame(c, s, s');
    DurableFrame(c, s, s');
    assert forall i :: !WillStart(c, s, i);
  }

  lemma {:induction false} PendPlaced(s: State, id: nat)
    requires Placed(s) && s.head != [] && s.head[0] == Normal(id)
    ensures Placed(Pend(s, id)) && Count<Item>(s.head[1..], FlushRq) == Count<Item>(s.head, FlushRq)
  {
    forall k: nat ensures Places(Pend(s, id), k) == Places(s, k) {
      CountSnoc<nat>(s.pending, id, k);
    }
  }

  lemma {:induction false} PendKeeps(c: Config, s: State, id: nat)
    requires Inv(c, s) && s.head != [] && s.head[0] == Normal(id) && id < |s.reqs| && Sequenced(c, s.reqs[id])
    requires s.orig.Some?
    ensures Inv(c, Pend(s, id))
  {
    hide Placed, Required, BitsAt, Needs, Sequenced, LogOk, DurableOk, Count;
    PendPlaced(s, id);
    LogFrame(c, s, Pend(s, id));
    DurableFrame(c, s, Pend(s, id));
  }

  lemma {:induction false} IdleBits(c: Config, s: State)
    requires SeqOk(c, s)
    ensures s.bits == ZERO <==> s.orig.None?
    ensures s.orig.Some? ==> s.bits.started
  {
  }

  lemma {:induction false} StartPlaced(s: State, id: nat, s': State)
    requires Placed(s) && s.head != [] && s.head[0] == Normal(id) && s.orig.None?
    requires s' == s.(orig := Some(id), head := [FlushRq] + s.head[1..], bits := s'.bits, err := s'.err,
                      stage := s'.stage,
                      started := s'.started, ran := s'.ran, errs := s'.errs)
    ensures Placed(s') && Count<Item>(s'.head, FlushRq) == Count<Item>(s.head, FlushRq) + 1 && id !in s.done
    ensures id < |s.reqs|
  {
    assert Places(s, id) >= 1;
    CountCons<Item>(FlushRq, s.head[1..], FlushRq);
    forall k: nat ensures Places(s', k) == Places(s, k) {
      CountCons<Item>(FlushRq, s.head[1..], Normal(k));
    }
  }

  /** What a request's record says when its first needed step is queued. */
  lemma {:induction false} StartRecord(c: Config, s: State, id: nat, s': State)
    requires LogOk(c, s) && DurableOk(c, s) && id < |s.reqs| && id !in s.done && s.orig.None? && FlushRq !in s.inFlight
    requires FirstFrom(c, s.reqs[id], Pre) == Some(s'.stage)
    requires s' == s.(orig := Some(id), err := 0, started := s.started[id := s.dev.written],
                      ran := s.ran[id := []], errs := s.errs[id := []],
                      head := s'.head, bits := s'.bits, stage := s'.stage)
    ensures LogOk(c, s') && DurableOk(c, s')
  {
    hide Required, Sequenced;
  }

  lemma {:induction false} StartKeeps(c: Config, s: State, id: nat)
    requires Inv(c, s) && s.head != [] && s.head[0] == Normal(id) && id < |s.reqs| && Sequenced(c, s.reqs[id])
    requires s.bits == ZERO
    ensures StartSeq(c, s, id).head == [FlushRq] + s.head[1..]
    ensures Inv(c, StartSeq(c, s, id))
  {
    var s', rq := StartSeq(c, s, id), s.reqs[id];
    BitsStart(c, rq);
    IdleBits(c, s);
    hide Placed, Skip, BitsAt, Sequenced, LogOk, DurableOk, Count, Required, FirstFrom, Needs;
    StartPlaced(s, id, s');
    StartRecord(c, s, id, s');
  }

  lemma {:induction false} IssuePlaced(s: State, item: Item)
    requires Placed(s) && s.head != [] && s.head[0] == item
    requires Count<Item>(s.head, FlushRq) + (if FlushRq in s.inFlight then 1 else 0) <= 1
    ensures var s' := Issue(s, item);
            && Placed(s') && item !in s.inFlight
            && Count<Item>(s'.head, FlushRq) + (if FlushRq in s'.inFlight then 1 else 0) ==
               Count<Item>(s.head, FlushRq) + (if FlushRq in s.inFlight then 1 else 0)
    ensures item.Normal? ==> item.id !in s.done && s.orig != Some(item.id)
    ensures item.FlushRq? ==> 1 <= Count<Item>(s.head, FlushRq)
  {
    if item.Normal? { assert Places(s, item.id) >= 1; }
    forall k: nat ensures Places(Issue(s, item), k) == Places(s, k) {
    }
  }

  lemma {:induction false} IssueDurable(c: Config, s: State, item: Item)
    requires DurableOk(c, s) && s.head != [] && item !in s.inFlight
    requires (item.Normal? ==> item.id !in s.done && s.orig != Some(item.id))
    requires item.FlushRq? ==> s.orig.Some?
    ensures DurableOk(c, Issue(s, item))
  {
    if item.Normal? { DurableFrame(c, s, Issue(s, item)); }
  }

  lemma {:induction false} IssueKeeps(c: Config, s: State, item: Item)
    requires Inv(c, s) && s.head != [] && s.head[0] == item
    requires item.Normal? ==> item.id < |s.reqs| && !Sequenced(c, s.reqs[item.id])
    ensures Inv(c, Issue(s, item))
  {
    var s' := Issue(s, item);
    assert NotStranded(c, s') by {
      if s.pending != [] && s.orig.None? {
        var i :| WillStart(c, s, i);
        assert i != 0 && WillStart(c, s', i - 1);
      }
    }
    hide Placed, NotStranded, Required, BitsAt, Sequenced, LogOk, DurableOk, Count;
    IssuePlaced(s, item);
    LogFrame(c, s, s');
    IssueDurable(c, s, item);
  }

  lemma {:induction false} CompleteNormalPlaced(c: Config, s: State, id: nat, error: int)
    requires Placed(s) && Normal(id) in s.inFlight && id < |s.reqs|
    ensures Placed(CompleteNormal(c, s, id, error)) && id !in s.done && s.orig != Some(id)
  {
    assert Places(s, id) == 1;
    forall k: nat ensures Places(CompleteNormal(c, s, id, error), k) == Places(s, k) {
    }
  }

  lemma {:induction false} CompleteNormalRecord(c: Config, s: State, id: nat, error: int)
    requires c.Valid() && LogOk(c, s) && DurableOk(c, s) && id < |s.reqs| && id !in s.done && s.orig != Some(id)
    requires !Sequenced(c, s.reqs[id]) && id in s.started && s.started[id] <= s.dev.written
    ensures LogOk(c, CompleteNormal(c, s, id, error)) && DurableOk(c, CompleteNormal(c, s, id, error))
  {
    hide Required, Before, Needs;
  }

  lemma {:induction false} CompleteNormalKeeps(c: Config, s: State, id: nat, error: int)
    requires Inv(c, s) && Normal(id) in s.inFlight && id < |s.reqs|
    ensures Inv(c, CompleteNormal(c, s, id, error))
  {
    var s' := CompleteNormal(c, s, id, error);
    assert NotStranded(c, s') by {
      if s.pending != [] && s.orig.None? {
        var i :| WillStart(c, s, i);
        assert WillStart(c, s', i);
      }
    }
    hide Placed, NotStranded, Required, BitsAt, Sequenced, LogOk, DurableOk, Count;
    CompleteNormalPlaced(c, s, id, error);
    CompleteNormalRecord(c, s, id, error);
  }

  lemma {:induction false} AdvancePlaced(s: State, s': State)
    requires Placed(s) && s'.head == [FlushRq] + s.head && s'.reqs == s.reqs && s'.sched == s.sched
    requires s'.pending == s.pending
    requires s'.orig == s.orig && s'.done == s.done && s'.inFlight == s.inFlight - {FlushRq}
    ensures Placed(s') && Count<Item>(s'.head, FlushRq) == Count<Item>(s.head, FlushRq) + 1
  {
    CountCons<Item>(FlushRq, s.head, FlushRq);
    forall k: nat ensures Places(s', k) == Places(s, k) {
      CountCons<Item>(FlushRq, s.head, Normal(k));
    }
  }

  lemma {:induction false} FinishPlaced(s: State, s': State)
    requires Placed(s) && s.orig.Some? && s'.orig.None? && s'.reqs == s.reqs && s'.sched == s.sched
    requires s'.done.Keys == s.done.Keys + {s.orig.value} && s'.inFlight == s.inFlight - {FlushRq}
    requires if s.pending == [] then s'.head == s.head && s'.pending == []
             else s'.head == [Normal(s.pending[0])] + s.head && s'.pending == s.pending[1..]
    ensures Placed(s') && Count<Item>(s'.head, FlushRq) == Count<Item>(s.head, FlushRq) && s.orig.value !in s.done
  {
    assert Places(s, s.orig.value) >= 1;
    if s.pending != [] { CountCons<Item>(Normal(s.pending[0]), s.head, FlushRq); }
    forall k: nat ensures Places(s', k) == Places(s, k) {
      if s.pending != [] { CountCons<Item>(Normal(s.pending[0]), s.head, Normal(k)); }
      assert k in s'.done <==> k in s.done || k == s.orig.value;
    }
  }

  /** The record when a step has completed and the next needed one is queued. */
  lemma {:induction false} AdvanceRecord(c: Config, s: State, error: int, h: Stage, s': State)
    requires LogOk(c, s) && DurableOk(c, s) && s.orig.Some? && s.orig.value < |s.reqs| && FlushRq in s.inFlight
    requires s.orig.value !in s.done
    requires Needs(c, s.reqs[s.orig.value], s.stage) && After(c, s.reqs[s.orig.value], s.stage) == Some(h)
    requires s' == OffDevice(c, s, error).(err := if error != 0 && s.err == 0 then error else s.err, stage := h,
                                           bits := s'.bits, head := s'.head)
    ensures LogOk(c, s') && DurableOk(c, s')
  {
    FirstErrorSnoc(s.errs[s.orig.value], error);
    hide FirstError, Required, Sequenced;
  }

  /** The record when the last needed step has completed: the request ends. */
  lemma {:induction false} FinishRecord(c: Config, s: State, error: int, err: int, s': State)
    requires c.Valid() && LogOk(c, s) && DurableOk(c, s) && s.orig.Some? && s.orig.value < |s.reqs|
    requires FlushRq in s.inFlight && s.orig.value !in s.done
    requires Needs(c, s.reqs[s.orig.value], s.stage) && After(c, s.reqs[s.orig.value], s.stage) == None
    requires Sequenced(c, s.reqs[s.orig.value])
    requires err == if error != 0 && s.err == 0 then error else s.err
    requires s' == OffDevice(c, s, error).(err := err, orig := None, done := s.done[s.orig.value := err],
                                       bits := s'.bits, head := s'.head, pending := s'.pending)
    ensures LogOk(c, s') && DurableOk(c, s')
  {
    FinishLog(c, s, error, err, s');
    FinishDurable(c, s, error, err, s');
  }

  lemma {:induction false} FinishLog(c: Config, s: State, error: int, err: int, s': State)
    requires LogOk(c, s) && s.orig.Some? && s.orig.value < |s.reqs| && s.orig.value !in s.done
    requires Needs(c, s.reqs[s.orig.value], s.stage) && After(c, s.reqs[s.orig.value], s.stage) == None
    requires err == if error != 0 && s.err == 0 then error else s.err
    requires s'.reqs == s.reqs && s'.orig.None? && s'.done == s.done[s.orig.value := err]
    requires var id := s.orig.value;
             s'.ran == s.ran[id := s.ran[id] + [s.stage]] && s'.errs == s.errs[id := s.errs[id] + [error]]
    ensures LogOk(c, s')
  {
    var id := s.orig.value;
    FirstErrorSnoc(s.errs[id], error);
    hide FirstError;
    assert Before(c, s.reqs[id], s.stage) + [s.stage] == Required(c, s.reqs[id]);
    hide Before, Required, Sequenced;
    assert RanOk(s', id, Required(c, s.reqs[id]), err);
    forall k: nat | k in s'.done && k < |s.reqs| && Sequenced(c, s.reqs[k])
      ensures RanOk(s', k, Required(c, s.reqs[k]), s'.done[k])
    {
      assert k != id ==> RanOk(s, k, Required(c, s.reqs[k]), s.done[k]);
    }
  }

  lemma {:induction false} FinishDurable(c: Config, s: State, error: int, err: int, s': State)
    requires c.Valid() && DurableOk(c, s) && s.orig.Some? && s.orig.value < |s.reqs| && FlushRq in s.inFlight
    requires s.orig.value !in s.done
    requires Needs(c, s.reqs[s.orig.value], s.stage) && After(c, s.reqs[s.orig.value], s.stage) == None
    requires Sequenced(c, s.reqs[s.orig.value])
    requires err == if error != 0 && s.err == 0 then error else s.err
    requires s'.reqs == s.reqs && s'.orig.None? && s'.done == s.done[s.orig.value := err] && s'.started == s.started
    requires s'.dev == FlushEffect(c, s, error)
    ensures DurableOk(c, s')
  {
    var id := s.orig.value;
    assert s.dev.stable <= s'.dev.stable;
    forall k: nat | k in s'.done && k < |s.reqs| && s'.done[k] == 0 ensures Durable(s', k) {
      assert k != id ==> Durable(s, k);
    }
  }

  lemma {:induction false} CompleteFlushKeeps(c: Config, s: State, error: int)
    requires Inv(c, s) && FlushRq in s.inFlight
    ensures s.orig.Some? && s.orig.value < |s.reqs| && s.orig.value in s.ran && s.orig.value in s.errs && s.bits.started
    ensures Inv(c, CompleteFlush(c, s, error))
  {
    var id := s.orig.value;
    var rq := s.reqs[id];
    BitsAdvance(c, rq, s.stage);
    IdleBits(c, s);
    assert RanOk(s, id, Before(c, rq, s.stage), s.err);
    var s' := CompleteFlush(c, s, error);
    match After(c, rq, s.stage)
    case Some(h) =>
      assert s' == OffDevice(c, s, error).(err := if error != 0 && s.err == 0 then error else s.err, stage := h,
                                           bits := s'.bits, head := s'.head);
      AdvanceKeeps(c, s, error, h, s');
    case None =>
      FinishKeeps(c, s, error, if error != 0 && s.err == 0 then error else s.err, s');
  }

  /** While `flush_rq` is with the driver, its step is the current one and not done. */
  lemma {:induction false} EndReady(c: Config, s: State)
    requires Inv(c, s) && FlushRq in s.inFlight
    ensures s.orig.Some? && s.orig.value < |s.reqs| && s.bits.started && !s.bits.Meets(Bit(s.stage))
  {
    hide Placed, PendingOk, Accepted, DirectOk, NotStranded, LogOk, DurableOk;
    BitsAdvance(c, s.reqs[s.orig.value], s.stage);
  }

  lemma {:induction false} DeviceGrows(c: Config, s: State, error: int)
    requires s.orig.Some? && s.orig.value < |s.reqs|
    ensures s.dev.written <= FlushEffect(c, s, error).written && s.dev.stable <= FlushEffect(c, s, error).stable
  {
  }

  lemma {:induction false} AdvanceKeeps(c: Config, s: State, error: int, h: Stage, s': State)
    requires Inv(c, s) && FlushRq in s.inFlight && s.orig.Some? && s.orig.value < |s.reqs| && s.orig.value in s.ran
    requires s.orig.value in s.errs
    requires Needs(c, s.reqs[s.orig.value], s.stage) && After(c, s.reqs[s.orig.value], s.stage) == Some(h)
    requires Needs(c, s.reqs[s.orig.value], h)
    requires s' == OffDevice(c, s, error).(err := if error != 0 && s.err == 0 then error else s.err, stage := h,
                                           bits := s'.bits, head := s'.head)
    requires s'.head == [FlushRq] + s.head && s'.bits == BitsAt(c, s.reqs[s.orig.value], h)
    ensures Inv(c, s')
  {
    assert s.orig.value !in s.done by { assert Places(s, s.orig.value) == 1; }
    hide Placed, Required, BitsAt, Sequenced, LogOk, DurableOk, Count, Needs, After, FlushEffect;
    DeviceGrows(c, s, error);
    AdvancePlaced(s, s');
    AdvanceRecord(c, s, error, h, s');
  }

  lemma {:induction false} FinishKeeps(c: Config, s: State, error: int, err: int, s': State)
    requires Inv(c, s) && FlushRq in s.inFlight && s.orig.Some? && s.orig.value < |s.reqs| && s.orig.value in s.ran
    requires s.orig.value in s.errs
    requires Needs(c, s.reqs[s.orig.value], s.stage) && After(c, s.reqs[s.orig.value], s.stage) == None
    requires err == if error != 0 && s.err == 0 then error else s.err
    requires s' == OffDevice(c, s, error).(err := err, orig := None, done := s.done[s.orig.value := err], bits := ZERO,
                                       head := if s.pending == [] then s.head else [Normal(s.pending[0])] + s.head,
                                       pending := if s.pending == [] then [] else s.pending[1..])
    ensures Inv(c, s')
  {
    hide Placed, Required, BitsAt, LogOk, DurableOk, Count, Needs, After, FlushEffect;
    DeviceGrows(c, s, error);
    FinishPlaced(s, s');
    FinishRecord(c, s, error, err, s');
    assert s.pending != [] ==> WillStart(c, s', 0);
  }

  /** One turn of the inner loop of `__elv_next_request`. */
  lemma {:induction false} NextAtHead(c: Config, s: State)
    requires HeadKnown(s) && SchedKnown(s) && s.head != []
    ensures s.head[0].FlushRq? || !Flagged(s.reqs[s.head[0].id]) ==> NextRequest(c, s) == (s, Some(s.head[0]))
    ensures s.head[0].Normal? && Flagged(s.reqs[s.head[0].id]) ==>
              var id, rq := s.head[0].id, s.reqs[s.head[0].id];
              if rq.data && !Sequenced(c, rq) then NextRequest(c, s) == (s, Some(Normal(id)))
              else if s.bits != ZERO then true
              else NextRequest(c, s) == (StartSeq(c, s, id), Some(FlushRq))
  {
  }

  /** And of the outer one. */
  lemma {:induction false} NextAtEmpty(c: Config, s: State)
    requires HeadKnown(s) && SchedKnown(s) && s.head == []
    ensures s.sched == [] ==> NextRequest(c, s) == (s, None)
    ensures s.sched != [] ==> var u := s.(sched := s.sched[1..], head := [Normal(s.sched[0])]);
                              HeadKnown(u) && SchedKnown(u) && NextRequest(c, s) == NextRequest(c, u)
  {
  }

  /** What `__elv_next_request` returns is at the head of the list, and is `flush_rq` or needs no sequence. */
  lemma {:induction false} NextRequestKeeps(c: Config, s: State)
    requires Inv(c, s) && HeadKnown(s) && SchedKnown(s)
    ensures var (s', item) := NextRequest(c, s);
            && Inv(c, s')
            && (item.None? ==> s'.head == [] && s'.sched == [])
            && (item.Some? ==> s'.head != [] && s'.head[0] == item.value
                               && (item.value.Normal? ==>
                                   item.value.id < |s'.reqs| && !Sequenced(c, s'.reqs[item.value.id])))
    decreases |s.head| + |s.sched|, |s.sched|
  {
    hide Placed, SeqOk, PendingOk, DirectOk, NotStranded, LogOk, DurableOk;
    if s.head == [] {
      if s.sched != [] {
        RefillKeeps(c, s);
        NextRequestKeeps(c, s.(sched := s.sched[1..], head := [Normal(s.sched[0])]));
      }
    } else if s.head[0].Normal? && Flagged(s.reqs[s.head[0].id]) {
      var id := s.head[0].id;
      IdleBits(c, s);
      assert Required(c, s.reqs[id]) != [];
      if Sequenced(c, s.reqs[id]) {
        if s.bits != ZERO {
          PendKeeps(c, s, id);
          NextRequestKeeps(c, Pend(s, id));
        } else {
          StartKeeps(c, s, id);
        }
      }
    }
  }

  lemma {:induction false} FetchKeeps(c: Config, s: State)
    requires Inv(c, s)
    ensures HeadKnown(s) && SchedKnown(s) && Inv(c, Fetch(c, s))
  {
    Known(s);
    NextRequestKeeps(c, s);
    hide Inv, NextRequest, Issue;
    var (s1, item) := NextRequest(c, s);
    if item.Some? { IssueKeeps(c, s1, item.value); }
  }

  // ---------------------------------------------------------------- Whole runs

  /** A request arrives, the driver asks for the next request, or the driver completes one. */
  datatype Event = Arrive(rq: Rq, at: nat) | Ask | End(item: Item, error: int)

  predicate Enabled(c: Config, s: State, e: Event) {
    match e
    case Arrive(rq, at) => at <= |s.sched| && (Flagged(rq) ==> Required(c, rq) != [])
    case Ask => true
    case End(item, error) => item in s.inFlight
  }

  /** The driver may complete what it holds. */
  predicate Completable(s: State) {
    s.orig.Some? && s.orig.value < |s.reqs| && s.orig.value in s.ran && s.orig.value in s.errs && s.bits.started
  }

  ghost predicate Next(c: Config, s: State, s': State, e: Event) {
    && Enabled(c, s, e)
    && match e
       case Arrive(rq, at) => s' == Submit(s, rq, at)
       case Ask => HeadKnown(s) && SchedKnown(s) && s' == Fetch(c, s)
       case End(Normal(id), error) => id < |s.reqs| && s' == CompleteNormal(c, s, id, error)
       case End(FlushRq, error) => Completable(s) && s' == CompleteFlush(c, s, error)
  }

  lemma {:induction false} NextKeeps(c: Config, s: State, s': State, e: Event)
    requires Inv(c, s) && Next(c, s, s', e)
    ensures Inv(c, s')
  {
    hide Inv, Fetch, Submit, CompleteNormal, CompleteFlush;
    match e
    case Arrive(rq, at) => SubmitKeeps(c, s, rq, at);
    case Ask => FetchKeeps(c, s);
    case End(Normal(id), error) => CompleteNormalKeeps(c, s, id, error);
    case End(FlushRq, error) => CompleteFlushKeeps(c, s, error);
  }

  /** Every request or completion that may come is taken: nothing the code relies on is missing. */
  lemma {:induction false} NeverStuck(c: Config, s: State, e: Event)
    requires Inv(c, s) && Enabled(c, s, e)
    ensures exists s' :: Next(c, s, s', e)
  {
    Known(s);
    match e
    case Arrive(rq, at) => assert Next(c, s, Submit(s, rq, at), e);
    case Ask => assert Next(c, s, Fetch(c, s), e);
    case End(Normal(id), error) =>
      assert id < |s.reqs|;
      assert Next(c, s, CompleteNormal(c, s, id, error), e);
    case End(FlushRq, error) =>
      CompleteFlushKeeps(c, s, error);
      assert Next(c, s, CompleteFlush(c, s, error), e);
  }

  lemma {:induction false} EmptyInv(c: Config)
    requires c.Valid()
    ensures Inv(c, EMPTY)
  {
  }

  ghost predicate IsRun(c: Config, run: seq<State>, events: seq<Event>) {
    && |run| == |events| + 1 && run[0] == EMPTY
    && forall i :: 0 <= i < |events| ==> Next(c, run[i], run[i + 1], events[i])
  }

  lemma {:induction false} RunsKeep(c: Config, run: seq<State>, events: seq<Event>, n: nat)
    requires c.Valid() && IsRun(c, run, events) && n < |run|
    ensures Inv(c, run[n])
  {
    hide Inv, Next;
    if n == 0 {
      EmptyInv(c);
    } else {
      RunsKeep(c, run, events, n - 1);
      assert Next(c, run[n - 1], run[n - 1 + 1], events[n - 1]);
      NextKeeps(c, run[n - 1], run[n], events[n - 1]);
    }
  }

  /** In every run: a sequenced request that has ended ran each needed step once and in order and ended with
      the first error of its steps; and any request that ended without error has what it asked for on stable
      storage, for FLUSH every write completed before it started, for FUA its own data. */
  lemma {:induction false} OrderAndDurability(c: Config, run: seq<State>, events: seq<Event>, n: nat, id: nat)
    requires c.Valid() && IsRun(c, run, events) && n < |run| && id in run[n].done
    ensures id < |run[n].reqs|
    ensures var s := run[n]; var rq := s.reqs[id];
            Sequenced(c, rq) ==> && id in s.ran && s.ran[id] == Required(c, rq)
                                 && id in s.errs && |s.errs[id]| == |s.ran[id]| && s.done[id] == FirstError(s.errs[id])
    ensures var s := run[n]; var rq := s.reqs[id];
            s.done[id] == 0 ==> && (rq.flush ==> id in s.started && s.started[id] <= s.dev.stable)
                                && (rq.fua && rq.data ==> id in s.dev.stable)
  {
    RunsKeep(c, run, events, n);
    var s := run[n];
    assert Places(s, id) > 0;
    hide Required, Sequenced, FirstError;
    assert s.done[id] == 0 ==> Durable(s, id);
    assert Sequenced(c, s.reqs[id]) ==> RanOk(s, id, Required(c, s.reqs[id]), s.done[id]);
  }

  /** In every run: each request is in exactly one place, and whenever flushes are pending a sequence is in
      progress or a request that will start one is on the dispatch list. */
  lemma {:induction false} NothingStranded(c: Config, run: seq<State>, events: seq<Event>, n: nat)
    requires c.Valid() && IsRun(c, run, events) && n < |run|
    ensures forall id: nat :: Places(run[n], id) == if id < |run[n].reqs| then 1 else 0
    ensures run[n].pending != [] ==> run[n].bits != ZERO || exists i :: WillStart(c, run[n], i)
  {
    RunsKeep(c, run, events, n);
    IdleBits(c, run[n]);
  }

  // ---------------------------------------------------------------- The queue updated in place

  /** The request queue. The device and the record of what happened are ghost. */
  class RequestQueue {
    const config: Config
    var reqs: seq<Rq>
    var sched: seq<nat>
    var head: seq<Item>
    var pending: seq<nat>
    var inFlight: set<Item>
    var bits: Bits
    var err: int
    var stage: Stage
    var orig: Option<nat>
    ghost var dev: Device
    ghost var started: map<nat, set<nat>>
    ghost var done: map<nat, int>
    ghost var ran: map<nat, seq<Stage>>
    ghost var errs: map<nat, seq<int>>

    ghost function View(): State
      reads this
    {
      State(reqs, sched, head, pending, inFlight, bits, err, stage, orig, dev, started, done, ran, errs)
    }

    ghost predicate Valid()
      reads this
    {
      Inv(config, View())
    }

    constructor (c: Config)
      requires c.Valid()
      ensures config == c && View() == EMPTY && Valid()
    {
      config := c;
      reqs, sched, head, pending, inFlight := [], [], [], [], {};
      bits, err, stage, orig := ZERO, 0, Pre, None;
      dev, started, done, ran, errs := Device({}, {}, {}), map[], map[], map[], map[];
      new;
      EmptyInv(c);
    }

    method SubmitRequest(rq: Rq, at: nat)
      requires Valid() && at <= |sched| && (Flagged(rq) ==> Required(config, rq) != [])
      modifies this`reqs, this`sched, this`head
      ensures View() == Submit(old(View()), rq, at) && Valid()
    {
      SubmitKeeps(config, View(), rq, at);
      var id := |reqs|;
      reqs := reqs + [rq];
      if Flagged(rq) {
        head := [Normal(id)] + head;
      } else {
        sched := sched[..at] + [id] + sched[at..];
      }
    }

    method FinishSeq() returns (next: Option<Item>)
      requires orig.Some?
      modifies this`bits, this`orig, this`head, this`pending, this`done
      ensures View() == Finish(old(View()))
    {
      done := done[orig.value := err];
      orig := None;
      bits := ZERO;
      next := None;
      if pending != [] {
        next := Some(Normal(pending[0]));
        head := [Normal(pending[0])] + head;
        pending := pending[1..];
      }
    }

    /** `queue_next_fseq`: `flush_rq` is set up for the current step and put at the head of the list. */
    method QueueNextFseq()
      requires CurSeq(bits).Step?
      modifies this`stage, this`head
      ensures View() == old(View()).(stage := CurSeq(bits).stage, head := [FlushRq] + old(head))
    {
      stage := CurSeq(bits).stage;
      head := [FlushRq] + head;
    }

    /** `blk_flush_complete_seq`; returns what it put at the head of the list. */
    method FlushCompleteSeq(seqBits: Bits, error: int) returns (next: Option<Item>)
      requires orig.Some? && bits.started && !bits.Meets(seqBits)
      modifies this`bits, this`err, this`stage, this`orig, this`head, this`pending, this`done
      ensures View() == CompleteSeq(old(View()), seqBits, error)
      ensures CurSeq(old(bits).Or(seqBits)) != Done ==> next == Some(FlushRq)
    {
      if error != 0 && err == 0 {
        err := error;
      }
      bits := bits.Or(seqBits);
      if CurSeq(bits) != Done {
        QueueNextFseq();
        next := Some(FlushRq);
      } else {
        next := FinishSeq();
      }
    }

    /** `blk_do_flush` on the flagged request at the head of the list. */
    method DoFlush(id: nat) returns (next: Option<Item>)
      requires Valid() && head != [] && head[0] == Normal(id) && id < |reqs| && Flagged(reqs[id])
      modifies this
      ensures var s, rq := old(View()), old(reqs)[id];
              if rq.data && !Sequenced(config, rq) then next == Some(Normal(id)) && View() == s
              else if old(bits) != ZERO then next == None && View() == Pend(s, id)
              else next == Some(FlushRq) && View() == StartSeq(config, s, id)
    {
      hide Placed, PendingOk, DirectOk, NotStranded, LogOk, DurableOk;
      var rq := reqs[id];
      assert Required(config, rq) != [];
      var doPre, doPost := DoPre(config, rq), DoPost(config, rq);
      if rq.data && !doPre && !doPost {
        return Some(Normal(id));
      }
      if bits != ZERO {
        head := head[1..];
        pending := pending + [id];
        return None;
      }
      next := StartFlush(id);
    }

    /** `blk_do_flush` when no sequence is in progress. */
    method StartFlush(id: nat) returns (next: Option<Item>)
      requires id < |reqs| && head != [] && Sequenced(config, reqs[id])
      modifies this
      ensures next == Some(FlushRq) && View() == StartSeq(config, old(View()), id)
    {
      BitsStart(config, reqs[id]);
      hide Skip, BitsAt, CurSeq, FirstFrom, Needs, Sequenced, CompleteSeq;
      err := 0;
      bits := STARTED;
      head := head[1..];
      orig := Some(id);
      started, ran, errs := started[id := dev.written], ran[id := []], errs[id := []];
      next := FlushCompleteSeq(Skip(config, reqs[id]), 0);
    }

    /** One turn of the inner loop of `__elv_next_request`. */
    method TryHead() returns (item: Option<Item>)
      requires Valid() && HeadKnown(View()) && SchedKnown(View()) && head != []
      modifies this
      ensures Valid() && HeadKnown(View()) && SchedKnown(View())
      ensures item.Some? ==> (View(), item) == NextRequest(config, old(View()))
      ensures item.Some? ==>
                && head != [] && head[0] == item.value
                && (item.value.Normal? ==> item.value.id < |reqs| && !Sequenced(config, reqs[item.value.id]))
      ensures item.None? ==>
                && NextRequest(config, View()) == NextRequest(config, old(View())) && sched == old(sched)
                && |head| < |old(head)|
    {
      ghost var s := View();
      NextRequestKeeps(config, s);
      NextAtHead(config, s);
      Known(NextRequest(config, s).0);
      hide NextRequest, Inv, StartSeq;
      var rq := head[0];
      if rq.FlushRq? || !Flagged(reqs[rq.id]) {
        return Some(rq);
      }
      item := DoFlush(rq.id);
      if item.None? { PutOff(config, s, rq.id); }
    }

    /** `__elv_next_request`. */
    method ElvNextRequest() returns (item: Option<Item>)
      requires Valid()
      modifies this
      ensures Valid() && HeadKnown(old(View())) && SchedKnown(old(View()))
      ensures (View(), item) == NextRequest(config, old(View()))
      ensures item.Some? ==>
                && head != [] && head[0] == item.value
                && (item.value.Normal? ==> item.value.id < |reqs| && !Sequenced(config, reqs[item.value.id]))
      ensures item.None? ==> head == [] && sched == []
    {
      Known(View());
      hide NextRequest, Inv, StartSeq, Sequenced, Pend;
      ghost var s := View();
      while true
        invariant Valid() && HeadKnown(View()) && SchedKnown(View())
        invariant NextRequest(config, View()) == NextRequest(config, s)
        decreases |head| + |sched|, |sched|
      {
        ghost var left := sched;
        while head != []
          invariant Valid() && HeadKnown(View()) && SchedKnown(View()) && sched == left
          invariant NextRequest(config, View()) == NextRequest(config, s)
          decreases |head|
        {
          item := TryHead();
          if item.Some? {
            return;
          }
        }
        NextRequestKeeps(config, View());
        NextAtEmpty(config, View());
        if sched == [] {
          return None;
        }
        RefillKeeps(config, View());
        head := [Normal(sched[0])];
        sched := sched[1..];
      }
    }

    /** The driver fetches the next request, if there is one. */
    method FetchRequest() returns (item: Option<Item>)
      requires Valid()
      modifies this
      ensures Valid() && HeadKnown(old(View())) && SchedKnown(old(View())) && View() == Fetch(config, old(View()))
    {
      item := ElvNextRequest();
      hide Inv, NextRequest, Issue, Sequenced;
      if item.Some? {
        IssueKeeps(config, View(), item.value);
        StartRequest(item.value);
      }
    }

    /** `blk_start_request` on the head of the list. */
    method StartRequest(item: Item)
      requires head != []
      modifies this`head, this`inFlight, this`started, this`dev
      ensures View() == Issue(old(View()), item)
    {
      head := head[1..];
      inFlight := inFlight + {item};
      if item.Normal? {
        started := started[item.id := dev.written];
      } else if stage != Data {
        dev := dev.(snapshot := dev.written);
      }
    }

    method EndNormal(id: nat, error: int)
      requires Valid() && Normal(id) in inFlight
      modifies this`inFlight, this`done, this`dev
      ensures id < |reqs| && View() == CompleteNormal(config, old(View()), id, error) && Valid()
    {
      assert id < |reqs|;
      CompleteNormalKeeps(config, View(), id, error);
      hide Inv;
      dev := if error == 0 && reqs[id].data then Written(config, dev, id, reqs[id]) else dev;
      inFlight := inFlight - {Normal(id)};
      done := done[id := error];
    }

    /** `flush_rq` ends with its current callback. */
    method EndFlush(error: int)
      requires Valid() && FlushRq in inFlight
      modifies this
      ensures Completable(old(View())) && View() == CompleteFlush(config, old(View()), error) && Valid()
    {
      EndReady(config, View());
      CompleteFlushKeeps(config, View(), error);
      hide Inv, CompleteSeq, BitsAt, Needs, Sequenced, Required;
      LeaveDevice(error);
      var next := FlushCompleteSeq(Bit(stage), error);
    }

    method LeaveDevice(error: int)
      requires orig.Some? && orig.value < |reqs| && orig.value in ran && orig.value in errs
      modifies this`dev, this`ran, this`errs, this`inFlight
      ensures View() == OffDevice(config, old(View()), error)
    {
      hide FlushEffect;
      ghost var id := orig.value;
      dev := FlushEffect(config, View(), error);
      ran, errs := ran[id := ran[id] + [stage]], errs[id := errs[id] + [error]];
      inFlight := inFlight - {FlushRq};
    }
  }

  /** A flush request put off for the one in progress is passed over by `__elv_next_request`. */
  lemma {:induction false} PutOff(c: Config, s: State, id: nat)
    requires Inv(c, s) && HeadKnown(s) && SchedKnown(s) && s.head != [] && s.head[0] == Normal(id)
    requires Flagged(s.reqs[id])
    requires !(s.reqs[id].data && !Sequenced(c, s.reqs[id])) && s.bits != ZERO
    ensures Inv(c, Pend(s, id)) && HeadKnown(Pend(s, id)) && SchedKnown(Pend(s, id))
    ensures NextRequest(c, Pend(s, id)) == NextRequest(c, s)
  {
    IdleBits(c, s);
    assert Required(c, s.reqs[id]) != [];
    PendKeeps(c, s, id);
  }
}
