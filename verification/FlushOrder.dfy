/** What a run of the FLUSH/FUA sequencer shows from outside: flushes that are put off come back in order, and a flush
    covers every write that ended before it was submitted. */
module FlushOrder {

  import opened Common
  import opened Flush

  // ---------------------------------------------------------------- Put off and back again

  /** The requests at the front of the dispatch list that have to wait for a sequence. */
  ghost function Waiting(c: Config, reqs: seq<Rq>, head: seq<Item>): seq<nat>
    requires forall i :: 0 <= i < |head| && head[i].Normal? ==> head[i].id < |reqs|
  {
    if head == [] || head[0].FlushRq? || !Sequenced(c, reqs[head[0].id]) then []
    else [head[0].id] + Waiting(c, reqs, head[1..])
  }

  /** The scheduler has requests without flags only. */
  ghost predicate SchedPlain(s: State) {
    SchedKnown(s) && forall i :: 0 <= i < |s.sched| ==> !Flagged(s.reqs[s.sched[i]])
  }

  /** While a sequence is in progress, looking for the next request puts off exactly those, in the order of the list. */
  lemma {:induction false} NextPending(c: Config, s: State)
    requires HeadKnown(s) && SchedPlain(s) && Accepted(c, s)
    ensures NextRequest(c, s).0.pending == s.pending + (if s.bits == ZERO then [] else Waiting(c, s.reqs, s.head))
    decreases |s.head| + |s.sched|, |s.sched|
  {
    if s.head == [] {
      NextAtEmpty(c, s);
      if s.sched != [] { NextPending(c, s.(sched := s.sched[1..], head := [Normal(s.sched[0])])); }
    } else if s.head[0].Normal? && Sequenced(c, s.reqs[s.head[0].id]) {
      var id := s.head[0].id;
      if s.bits == ZERO {
        NextAtHead(c, s);
        hide NextRequest;
        BitsStart(c, s.reqs[id]);
      } else {
        NextPending(c, Pend(s, id));
        assert s.pending + [id] + Waiting(c, s.reqs, s.head[1..]) == s.pending + Waiting(c, s.reqs, s.head);
      }
    } else if s.head[0].Normal? && Flagged(s.reqs[s.head[0].id]) {
      assert Required(c, s.reqs[s.head[0].id]) != [];
    }
  }

  lemma {:induction false} FetchPending(c: Config, s: State)
    requires HeadKnown(s) && SchedPlain(s) && Accepted(c, s)
    ensures Fetch(c, s).pending == s.pending + (if s.bits == ZERO then [] else Waiting(c, s.reqs, s.head))
  {
    NextPending(c, s);
    hide NextRequest, Waiting;
  }

  /** When a sequence ends, the first of the requests put off goes to the front of the dispatch list. */
  lemma {:induction false} EndPending(c: Config, s: State, error: int)
    requires Completable(s)
    ensures var t := CompleteFlush(c, s, error);
            if t.orig.Some? then t.pending == s.pending && t.head == [FlushRq] + s.head
            else if s.pending == [] then t.pending == [] && t.head == s.head
            else t.pending == s.pending[1..] && t.head == [Normal(s.pending[0])] + s.head
  {
  }

  /** The requests put off in the first `n` steps of a run, one after the other. */
  ghost function PutOffs(c: Config, run: seq<State>, events: seq<Event>, n: nat): seq<nat>
    requires n <= |events| < |run|
  {
    if n == 0 then []
    else
      var s := run[n - 1];
      PutOffs(c, run, events, n - 1)
      + if events[n - 1].Ask? && s.bits != ZERO && HeadKnown(s) then Waiting(c, s.reqs, s.head) else []
  }

  /** The requests that the ends of sequences have brought back to the dispatch list. */
  ghost function Returned(run: seq<State>, events: seq<Event>, n: nat): seq<nat>
    requires n <= |events| < |run|
  {
    if n == 0 then []
    else
      var e, s, t := events[n - 1], run[n - 1], run[n];
      Returned(run, events, n - 1)
      + if e.End? && e.item.FlushRq? && t.orig.None? && |s.head| < |t.head| && t.head[0].Normal?
        then [t.head[0].id] else []
  }

  lemma {:induction false} PlainNext(c: Config, s: State, s': State, e: Event)
    requires SchedPlain(s) && Next(c, s, s', e)
    ensures SchedPlain(s')
  {
    hide Fetch, Submit, CompleteNormal, CompleteFlush, SchedPlain;
    match e
    case Arrive(rq, at) => SubmitPlain(s, rq, at);
    case Ask => FetchPlain(c, s);
    case End(Normal(id), error) => EndPlain(c, s, id, error);
    case End(FlushRq, error) => EndFlushPlain(c, s, error);
  }

  lemma {:induction false} SubmitPlain(s: State, rq: Rq, at: nat)
    requires SchedPlain(s) && at <= |s.sched|
    ensures SchedPlain(Submit(s, rq, at))
  {
  }

  lemma {:induction false} EndPlain(c: Config, s: State, id: nat, error: int)
    requires SchedPlain(s) && id < |s.reqs|
    ensures SchedPlain(CompleteNormal(c, s, id, error))
  {
  }

  lemma {:induction false} EndFlushPlain(c: Config, s: State, error: int)
    requires SchedPlain(s) && Completable(s)
    ensures SchedPlain(CompleteFlush(c, s, error))
  {
    hide CurSeq;
  }

  lemma {:induction false} FetchPlain(c: Config, s: State)
    requires HeadKnown(s) && SchedPlain(s)
    ensures SchedPlain(Fetch(c, s))
  {
    NextPlain(c, s);
    hide NextRequest;
  }

  lemma {:induction false} NextPlain(c: Config, s: State)
    requires HeadKnown(s) && SchedPlain(s)
    ensures SchedPlain(NextRequest(c, s).0)
    decreases |s.head| + |s.sched|, |s.sched|
  {
    if s.head == [] {
      NextAtEmpty(c, s);
      if s.sched != [] { NextPlain(c, s.(sched := s.sched[1..], head := [Normal(s.sched[0])])); }
    } else if s.head[0].Normal? && s.bits != ZERO {
      var id := s.head[0].id;
      NextPlain(c, Pend(s, id));
    } else if s.head[0].Normal? {
      StartPlain(c, s, s.head[0].id);
      hide StartSeq;
    }
  }

  lemma {:induction false} StartPlain(c: Config, s: State, id: nat)
    requires SchedPlain(s) && s.head != [] && id < |s.reqs|
    ensures SchedPlain(StartSeq(c, s, id))
  {
    hide CurSeq;
  }

  lemma {:induction false} RunPlain(c: Config, run: seq<State>, events: seq<Event>, n: nat)
    requires IsRun(c, run, events) && n < |run|
    ensures SchedPlain(run[n])
  {
    hide Inv, Next, SchedPlain;
    if n == 0 {
      EmptyPlain();
    } else {
      RunPlain(c, run, events, n - 1);
      assert Next(c, run[n - 1], run[n - 1 + 1], events[n - 1]);
      PlainNext(c, run[n - 1], run[n], events[n - 1]);
    }
  }

  lemma {:induction false} EmptyPlain()
    ensures SchedPlain(EMPTY)
  {
  }

  lemma {:induction false} OthersPending(c: Config, s: State, t: State, e: Event)
    requires Next(c, s, t, e) && (e.Arrive? || (e.End? && e.item.Normal?))
    ensures t.pending == s.pending
  {
    hide Fetch, CompleteFlush;
  }

  /** One step: what is put off joins the end of the pending requests, what comes back was the first of them. */
  lemma {:induction false} PendingStep(c: Config, s: State, t: State, e: Event)
    requires Inv(c, s) && SchedPlain(s) && Next(c, s, t, e)
    ensures HeadKnown(s)
    ensures var off := if e.Ask? && s.bits != ZERO then Waiting(c, s.reqs, s.head) else [];
            var back := if e.End? && e.item.FlushRq? && t.orig.None? && |s.head| < |t.head| && t.head[0].Normal?
                        then [t.head[0].id] else [];
            s.pending + off == back + t.pending
  {
    Known(s);
    assert Accepted(c, s);
    hide Inv, Waiting, CompleteFlush, Fetch, Submit, CompleteNormal, SchedPlain, Accepted;
    match e
    case Arrive(_, _) => OthersPending(c, s, t, e);
    case Ask => FetchPending(c, s);
    case End(Normal(_), _) => OthersPending(c, s, t, e);
    case End(FlushRq, error) =>
      EndPending(c, s, error);
      if t.orig.None? && s.pending != [] { assert [s.pending[0]] + s.pending[1..] == s.pending; }
  }

  lemma {:induction false} Regroup(a: seq<nat>, b: seq<nat>, off: seq<nat>, back: seq<nat>, after: seq<nat>)
    requires b + off == back + after
    ensures a + b + off == a + back + after
  {
    assert a + b + off == a + (b + off) && a + back + after == a + (back + after);
  }

  /** In every run, all the requests ever put off are those that have come back followed by those still pending: they
      come back in the order in which they were put off. */
  lemma {:induction false} PendingIsFifo(c: Config, run: seq<State>, events: seq<Event>, n: nat)
    requires c.Valid() && IsRun(c, run, events) && n < |run|
    ensures PutOffs(c, run, events, n) == Returned(run, events, n) + run[n].pending
  {
    hide Inv, Next, SchedPlain, Waiting;
    if n != 0 {
      var s, t, e := run[n - 1], run[n], events[n - 1];
      PendingIsFifo(c, run, events, n - 1);
      RunsKeep(c, run, events, n - 1);
      RunPlain(c, run, events, n - 1);
      assert Next(c, run[n - 1], run[n - 1 + 1], events[n - 1]);
      PendingStep(c, run[n - 1], run[n], events[n - 1]);
      var off := if e.Ask? && s.bits != ZERO then Waiting(c, s.reqs, s.head) else [];
      var back := if e.End? && e.item.FlushRq? && t.orig.None? && |s.head| < |t.head| && t.head[0].Normal?
                  then [t.head[0].id] else [];
      Regroup(Returned(run, events, n - 1), s.pending, off, back, t.pending);
    }
  }

  // ---------------------------------------------------------------- Who starts next

  /** Between two looks of the driver: requests arrive, and requests outside sequences end. */
  predicate Quiet(e: Event) { e.Arrive? || (e.End? && e.item.Normal?) }

  ghost predicate Lull(c: Config, run: seq<State>, events: seq<Event>) {
    && |run| == |events| + 1
    && forall i :: 0 <= i < |events| ==> Quiet(events[i]) && Next(c, run[i], run[i + 1], events[i])
  }

  /** No request with a flag has arrived in the first `n` steps. */
  predicate NoFlag(events: seq<Event>, n: nat)
    requires n <= |events|
  {
    forall i :: 0 <= i < n && events[i].Arrive? ==> !Flagged(events[i].rq)
  }

  /** What is known of the front of the list while nothing is in progress: the request that came back, or one that
      arrived later. */
  ghost predicate InFront(s: State, first: nat, id: nat, alone: bool) {
    && s.orig.None? && first <= |s.reqs| && s.head != [] && s.head[0].Normal? && s.head[0].id < |s.reqs|
    && (if alone then s.head[0].id == id else first <= s.head[0].id) && Flagged(s.reqs[s.head[0].id])
  }

  lemma {:induction false} FrontNext(c: Config, s: State, t: State, e: Event, first: nat, id: nat, alone: bool)
    requires Quiet(e) && Next(c, s, t, e) && InFront(s, first, id, alone)
    ensures InFront(t, first, id, alone && !(e.Arrive? && Flagged(e.rq)))
    ensures |s.reqs| <= |t.reqs| && t.reqs[..|s.reqs|] == s.reqs
  {
  }

  lemma {:induction false} FrontStays(c: Config, run: seq<State>, events: seq<Event>, id: nat, n: nat)
    requires Lull(c, run, events) && n <= |events| && Inv(c, run[0]) && id < |run[0].reqs|
    requires InFront(run[0], |run[0].reqs|, id, true)
    ensures Inv(c, run[n]) && InFront(run[n], |run[0].reqs|, id, NoFlag(events, n))
    ensures |run[0].reqs| <= |run[n].reqs| && run[n].reqs[..|run[0].reqs|] == run[0].reqs
  {
    hide Inv, Next, InFront, Quiet;
    if n != 0 {
      FrontStays(c, run, events, id, n - 1);
      assert Next(c, run[n - 1], run[n - 1 + 1], events[n - 1]);
      NextKeeps(c, run[n - 1], run[n], events[n - 1]);
      FrontNext(c, run[n - 1], run[n], events[n - 1], |run[0].reqs|, id, NoFlag(events, n - 1));
      assert NoFlag(events, n) == (NoFlag(events, n - 1)
                                   && !(events[n - 1].Arrive? && Flagged(events[n - 1].rq)));
      PrefixOf(run[0].reqs, run[n - 1].reqs, run[n].reqs);
    }
  }

  lemma {:induction false} PrefixOf(a: seq<Rq>, b: seq<Rq>, d: seq<Rq>)
    requires |a| <= |b| <= |d| && b[..|a|] == a && d[..|b|] == b
    ensures d[..|a|] == a
  {
    assert d[..|a|] == d[..|b|][..|a|];
  }

  /** When nothing is in progress, a request with a flag at the head of the list is started if it needs a sequence,
      and otherwise handed to the driver. */
  lemma {:induction false} FetchStarts(c: Config, s: State)
    requires HeadKnown(s) && SchedKnown(s) && Accepted(c, s) && s.bits == ZERO && s.orig.None?
    requires s.head != [] && s.head[0].Normal? && Flagged(s.reqs[s.head[0].id])
    ensures var id := s.head[0].id;
            Fetch(c, s).orig == if Sequenced(c, s.reqs[id]) then Some(id) else None
  {
    var id := s.head[0].id;
    assert Required(c, s.reqs[id]) != [];
    NextAtHead(c, s);
    hide NextRequest;
    if Sequenced(c, s.reqs[id]) { BitsStart(c, s.reqs[id]); }
  }

  /** A request brought back to the front of the list when nothing is in progress: the driver's next look starts its
      sequence exactly if no other request with a flag has arrived in between. */
  lemma {:induction false} StartsNext(c: Config, run: seq<State>, events: seq<Event>, id: nat)
    requires Lull(c, run, events) && Inv(c, run[0]) && run[0].orig.None?
    requires run[0].head != [] && run[0].head[0] == Normal(id) && id < |run[0].reqs| && Sequenced(c, run[0].reqs[id])
    ensures var t := run[|events|];
            HeadKnown(t) && SchedKnown(t) && (Fetch(c, t).orig == Some(id) <==> NoFlag(events, |events|))
  {
    var n := |events|;
    FrontStays(c, run, events, id, n);
    hide Lull;
    assert run[n].reqs[id] == run[n].reqs[..|run[0].reqs|][id];
    Known(run[n]);
    IdleBits(c, run[n]);
    FetchStarts(c, run[n]);
  }

  const FLUSH := Rq(true, false, false)

  const CACHED := Config(true, false)

  /** `n` empty flushes have arrived at a device with a cache; `flush_rq` is with the driver during a sequence. */
  ghost predicate At(s: State, n: nat, head: seq<Item>, pending: seq<nat>, orig: Option<nat>) {
    && |s.reqs| == n && (forall i :: 0 <= i < n ==> s.reqs[i] == FLUSH)
    && s.sched == [] && s.head == head && s.pending == pending && s.orig == orig
    && (forall i :: 0 <= i < |head| ==> head[i].Normal? && head[i].id < n)
    && if orig.None? then s.bits == ZERO
       else s.bits == Bits(true, false, true, true) && s.stage == Pre && FlushRq in s.inFlight && Completable(s)
  }

  lemma {:induction false} Comes(s: State, n: nat, head: seq<Item>, pending: seq<nat>, orig: Option<nat>)
    returns (t: State)
    requires At(s, n, head, pending, orig)
    ensures At(t, n + 1, [Normal(n)] + head, pending, orig) && Next(CACHED, s, t, Arrive(FLUSH, 0))
  {
    t := Submit(s, FLUSH, 0);
  }

  lemma {:induction false} Starts(s: State, n: nat, id: nat, rest: seq<Item>, pending: seq<nat>) returns (t: State)
    requires At(s, n, [Normal(id)] + rest, pending, None) && id < n
    ensures At(t, n, rest, pending, Some(id)) && Next(CACHED, s, t, Ask)
  {
    assert s.head[0] == Normal(id) && s.head[1..] == rest;
    NextAtHead(CACHED, s);
    hide NextRequest;
    t := Fetch(CACHED, s);
    assert forall i :: 0 <= i < |rest| ==> rest[i] == s.head[i + 1];
  }

  lemma {:induction false} PutsOff(s: State, n: nat, id: nat, pending: seq<nat>, orig: nat) returns (t: State)
    requires At(s, n, [Normal(id)], pending, Some(orig)) && id < n
    ensures At(t, n, [], pending + [id], Some(orig)) && Next(CACHED, s, t, Ask)
  {
    var u := Pend(s, id);
    assert u.head == [] && s.head[0] == Normal(id);
    NextAtEmpty(CACHED, u);
    t := Fetch(CACHED, s);
  }

  lemma {:induction false} Ends(s: State, n: nat, pending: seq<nat>, orig: nat) returns (t: State)
    requires At(s, n, [], pending, Some(orig)) && pending != [] && pending[0] < n
    ensures At(t, n, [Normal(pending[0])], pending[1..], None) && Next(CACHED, s, t, End(FlushRq, 0))
  {
    t := CompleteFlush(CACHED, s, 0);
  }

  ghost predicate Steps(c: Config, run: seq<State>, events: seq<Event>) {
    |run| == |events| + 1 && forall i :: 0 <= i < |events| ==> Next(c, run[i], run[i + 1], events[i])
  }

  /** Some events take the queue from `s` to `t`. */
  ghost predicate Leads(c: Config, s: State, t: State) {
    exists run: seq<State>, events: seq<Event> :: Steps(c, run, events) && run[0] == s && run[|events|] == t
  }

  lemma {:induction false} LeadsSelf(c: Config, s: State)
    ensures Leads(c, s, s)
  {
    assert Steps(c, [s], []);
  }

  lemma {:induction false} LeadsOn(c: Config, s: State, t: State, u: State, e: Event)
    requires Leads(c, s, t) && Next(c, t, u, e)
    ensures Leads(c, s, u)
  {
    hide Next;
    var run: seq<State>, events: seq<Event> :| Steps(c, run, events) && run[0] == s && run[|events|] == t;
    assert Steps(c, run + [u], events + [e]);
  }

  lemma {:induction false} TwoPutOff() returns (s: State)
    ensures Leads(CACHED, EMPTY, s) && At(s, 3, [], [1, 2], Some(0))
  {
    assert At(EMPTY, 0, [], [], None);
    LeadsSelf(CACHED, EMPTY);
    hide Next, At, Leads;
    assert [Normal(0)] + [] == [Normal(0)] && [Normal(1)] + [] == [Normal(1)] && [Normal(2)] + [] == [Normal(2)];
    assert [] + [1] == [1] && [1] + [2] == [1, 2];
    var s1 := Comes(EMPTY, 0, [], [], None);
    LeadsOn(CACHED, EMPTY, EMPTY, s1, Arrive(FLUSH, 0));
    var s2 := Starts(s1, 1, 0, [], []);
    LeadsOn(CACHED, EMPTY, s1, s2, Ask);
    var s3 := Comes(s2, 1, [], [], Some(0));
    LeadsOn(CACHED, EMPTY, s2, s3, Arrive(FLUSH, 0));
    var s4 := PutsOff(s3, 2, 1, [], 0);
    LeadsOn(CACHED, EMPTY, s3, s4, Ask);
    var s5 := Comes(s4, 2, [], [1], Some(0));
    LeadsOn(CACHED, EMPTY, s4, s5, Arrive(FLUSH, 0));
    s := PutsOff(s5, 3, 2, [1], 0);
    LeadsOn(CACHED, EMPTY, s5, s, Ask);
  }

  lemma {:induction false} ThirdComes(s: State) returns (t: State)
    requires At(s, 3, [], [1, 2], Some(0))
    ensures Leads(CACHED, s, t) && At(t, 4, [], [1], Some(2))
  {
    LeadsSelf(CACHED, s);
    hide Next, At, Leads;
    assert [1, 2][1..] == [2] && [2, 1][1..] == [1] && [2] + [1] == [2, 1] && [Normal(2)] + [] == [Normal(2)];
    var s1 := Ends(s, 3, [1, 2], 0);
    LeadsOn(CACHED, s, s, s1, End(FlushRq, 0));
    var s2 := Comes(s1, 3, [Normal(1)], [2], None);
    LeadsOn(CACHED, s, s1, s2, Arrive(FLUSH, 0));
    var s3 := Starts(s2, 4, 3, [Normal(1)], [2]);
    LeadsOn(CACHED, s, s2, s3, Ask);
    var s4 := PutsOff(s3, 4, 1, [2], 3);
    LeadsOn(CACHED, s, s3, s4, Ask);
    var s5 := Ends(s4, 4, [2, 1], 3);
    LeadsOn(CACHED, s, s4, s5, End(FlushRq, 0));
    t := Starts(s5, 4, 2, [], [1]);
    LeadsOn(CACHED, s, s5, t, Ask);
  }

  /** So requests do not always start in the order in which they were put off. Here 1 and 2 are put off in this order;
      1 comes back first, but 3 arrives before the driver looks, and 1 is put off again, behind 2. */
  lemma {:induction false} Overtaken() returns (s: State, t: State)
    ensures Leads(CACHED, EMPTY, s) && s.pending == [1, 2]
    ensures Leads(CACHED, s, t) && t.orig == Some(2) && t.pending == [1]
  {
    s := TwoPutOff();
    t := ThirdComes(s);
  }

  // ---------------------------------------------------------------- What a flush covers

  /** A write that ended without error has been written. */
  ghost predicate WroteOk(s: State) {
    forall id: nat :: id in s.done && id < |s.reqs| && s.done[id] == 0 && s.reqs[id].data ==> id in s.dev.written
  }

  /** Only requests that have been submitted are started. */
  ghost predicate StartedKnown(s: State) { forall id: nat :: id in s.started ==> id < |s.reqs| }

  /** What was written then is still written, and any later request was started after it. */
  ghost predicate Covers(s: State, written: set<nat>, first: nat) {
    written <= s.dev.written && forall id: nat :: first <= id && id in s.started ==> written <= s.started[id]
  }

  lemma {:induction false} NextCovers(c: Config, s: State, written: set<nat>, first: nat)
    requires HeadKnown(s) && SchedKnown(s) && Covers(s, written, first) && StartedKnown(s)
    ensures var t := NextRequest(c, s).0;
            Covers(t, written, first) && StartedKnown(t) && t.dev == s.dev && t.reqs == s.reqs
    decreases |s.head| + |s.sched|, |s.sched|
  {
    if s.head == [] {
      NextAtEmpty(c, s);
      if s.sched != [] { NextCovers(c, s.(sched := s.sched[1..], head := [Normal(s.sched[0])]), written, first); }
    } else if s.head[0].Normal? && s.bits != ZERO {
      NextCovers(c, Pend(s, s.head[0].id), written, first);
    } else if s.head[0].Normal? {
      NextAtHead(c, s);
    }
  }

  lemma {:induction false} FetchCovers(c: Config, s: State, written: set<nat>, first: nat)
    requires Inv(c, s) && HeadKnown(s) && SchedKnown(s) && Covers(s, written, first) && StartedKnown(s)
    ensures Covers(Fetch(c, s), written, first) && StartedKnown(Fetch(c, s))
  {
    NextRequestKeeps(c, s);
    NextCovers(c, s, written, first);
    hide Inv, NextRequest;
  }

  lemma {:induction false} CoversNext(c: Config, s: State, t: State, e: Event, written: set<nat>, first: nat)
    requires Inv(c, s) && Next(c, s, t, e) && Covers(s, written, first) && StartedKnown(s)
    ensures Covers(t, written, first) && StartedKnown(t)
  {
    hide Inv, Fetch, CompleteFlush;
    match e
    case Arrive(_, _) =>
    case Ask => FetchCovers(c, s, written, first);
    case End(Normal(_), _) =>
    case End(FlushRq, error) => EndCovers(c, s, error);
  }

  lemma {:induction false} EndCovers(c: Config, s: State, error: int)
    requires Completable(s)
    ensures var t := CompleteFlush(c, s, error);
            t.started == s.started && s.dev.written <= t.dev.written && t.reqs == s.reqs
  {
    hide CurSeq;
  }

  lemma {:induction false} NextDone(c: Config, s: State)
    requires Inv(c, s) && HeadKnown(s) && SchedKnown(s)
    ensures var t := NextRequest(c, s).0; t.dev == s.dev && t.reqs == s.reqs && t.done == s.done
    decreases |s.head| + |s.sched|, |s.sched|
  {
    hide Placed, SeqOk, PendingOk, DirectOk, NotStranded, LogOk, DurableOk;
    if s.head == [] {
      NextAtEmpty(c, s);
      if s.sched != [] {
        RefillKeeps(c, s);
        NextDone(c, s.(sched := s.sched[1..], head := [Normal(s.sched[0])]));
      }
    } else if s.head[0].Normal? && Flagged(s.reqs[s.head[0].id]) {
      var id := s.head[0].id;
      IdleBits(c, s);
      assert Required(c, s.reqs[id]) != [];
      if s.bits == ZERO {
        NextAtHead(c, s);
        if Sequenced(c, s.reqs[id]) { BitsStart(c, s.reqs[id]); }
      } else if Sequenced(c, s.reqs[id]) {
        PendKeeps(c, s, id);
        NextDone(c, Pend(s, id));
      }
    }
  }

  lemma {:induction false} EndWrote(c: Config, s: State, error: int)
    requires Inv(c, s) && FlushRq in s.inFlight && Completable(s) && WroteOk(s)
    ensures WroteOk(CompleteFlush(c, s, error))
  {
    BitsAdvance(c, s.reqs[s.orig.value], s.stage);
    hide Placed, PendingOk, Accepted, DirectOk, NotStranded, LogOk, Durable;
  }

  lemma {:induction false} DoneKnown(s: State)
    requires Placed(s)
    ensures forall id: nat :: id in s.done ==> id < |s.reqs|
  {
    forall id: nat | id in s.done ensures id < |s.reqs| { assert Places(s, id) > 0; }
  }

  lemma {:induction false} FetchWrote(c: Config, s: State)
    requires Inv(c, s) && HeadKnown(s) && SchedKnown(s) && WroteOk(s)
    ensures WroteOk(Fetch(c, s))
  {
    NextDone(c, s);
    hide Inv, NextRequest;
  }

  lemma {:induction false} WroteNext(c: Config, s: State, t: State, e: Event)
    requires Inv(c, s) && Next(c, s, t, e) && WroteOk(s)
    ensures WroteOk(t)
  {
    DoneKnown(s);
    hide Inv, Fetch, CompleteFlush;
    match e
    case Arrive(_, _) =>
    case Ask => FetchWrote(c, s);
    case End(Normal(_), _) =>
    case End(FlushRq, error) => EndWrote(c, s, error);
  }

  lemma {:induction false} RunWrote(c: Config, run: seq<State>, events: seq<Event>, n: nat)
    requires c.Valid() && IsRun(c, run, events) && n < |run|
    ensures WroteOk(run[n]) && StartedKnown(run[n])
  {
    hide Inv, Next;
    if n != 0 {
      RunWrote(c, run, events, n - 1);
      RunsKeep(c, run, events, n - 1);
      assert Next(c, run[n - 1], run[n - 1 + 1], events[n - 1]);
      WroteNext(c, run[n - 1], run[n], events[n - 1]);
      CoversNext(c, run[n - 1], run[n], events[n - 1], {}, 0);
    }
  }

  lemma {:induction false} RunCovers(c: Config, run: seq<State>, events: seq<Event>, i: nat, n: nat)
    requires c.Valid() && IsRun(c, run, events) && i <= n < |run|
    ensures Covers(run[n], run[i].dev.written, |run[i].reqs|)
  {
    hide Inv, Next, WroteOk;
    RunWrote(c, run, events, n);
    if i != n {
      RunCovers(c, run, events, i, n - 1);
      RunWrote(c, run, events, n - 1);
      RunsKeep(c, run, events, n - 1);
      assert Next(c, run[n - 1], run[n - 1 + 1], events[n - 1]);
      hide Covers, StartedKnown;
      CoversNext(c, run[n - 1], run[n], events[n - 1], run[i].dev.written, |run[i].reqs|);
    }
  }

  /** In every run: once a FLUSH has ended without error, every write that had ended without error before the FLUSH was
      submitted is on stable storage. */
  lemma {:induction false} FlushCovers(c: Config, run: seq<State>, events: seq<Event>, i: nat, n: nat, w: nat, id: nat)
    requires c.Valid() && IsRun(c, run, events) && i <= n < |run|
    requires w in run[i].done && w < |run[i].reqs| && run[i].done[w] == 0 && run[i].reqs[w].data
    requires |run[i].reqs| <= id < |run[n].reqs| && run[n].reqs[id].flush && id in run[n].done && run[n].done[id] == 0
    ensures w in run[n].dev.stable
  {
    RunWrote(c, run, events, i);
    RunCovers(c, run, events, i, n);
    OrderAndDurability(c, run, events, n, id);
    hide IsRun;
  }
}
