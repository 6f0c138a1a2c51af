/** How long requests wait in the deadline scheduler of block/deadline-iosched.c. */
module DeadlineLatency {

  import opened Common
  import opened Deadline

  // ---------------------------------------------------------------- Reads cannot shut out writes

  function CountCalls(events: seq<Event>): nat {
    if events == [] then 0 else (if events[0].Calls? then 1 else 0) + CountCalls(events[1..])
  }

  function Monus(a: nat, b: nat): nat { if b <= a then a - b else 0 }

  /** How many more calls may serve reads while a write waits. */
  function ReadBudget(s: State, c: Config): nat {
    Monus(c.Batch(), s.batching) + Monus(c.Starve(), s.starved) * c.Batch()
  }

  /** Only `deadline_dispatch_requests` touches the two counters. */
  lemma {:induction false} CountersStay(s: State, c: Config, e: Event)
    requires Enabled(s, e) && !e.Calls?
    ensures Next(s, c, e).batching == s.batching && Next(s, c, e).starved == s.starved
  {
  }

  ghost predicate ServesRead(s: State, c: Config) { s.write.fifo != [] && Choose(s, c).Serve? && !Choose(s, c).write }

  lemma {:induction false} TimesLess(n: nat, b: nat)
    requires 0 < n
    ensures n * b == (n - 1) * b + b
  {
  }

  lemma {:induction false} CallSpends(s: State, c: Config)
    requires ServesRead(s, c)
    ensures ReadBudget(Call(s, c), c) < ReadBudget(s, c)
  {
    hide Move;
    var r := Choose(s, c);
    MoveFields(s.(batching := r.batching, starved := r.starved), r.write, r.id);
    if !(s.read.next.Some? && s.write.next == None && s.batching < c.batch) {
      TimesLess(Monus(c.Starve(), s.starved), c.Batch());
    }
  }

  lemma {:induction false} BudgetBound(s: State, c: Config)
    ensures ReadBudget(s, c) <= (c.Starve() + 1) * c.Batch()
  {
    var n := Monus(c.Starve(), s.starved);
    assert n * c.Batch() <= c.Starve() * c.Batch();
  }

  /** While writes wait, at most `(writes_starved + 1) * fifo_batch` dispatch calls in a row serve reads, with
      anything at all arriving, merging or expiring in between. */
  lemma {:induction false} WritesGetTheirTurn(run: seq<State>, c: Config, events: seq<Event>)
    requires IsRun(run, c, events)
    requires forall i :: 0 <= i < |events| && events[i].Calls? ==> ServesRead(run[i], c)
    ensures CountCalls(events) <= ReadBudget(run[0], c) <= (c.Starve() + 1) * c.Batch()
  {
    hide ReadBudget, ServesRead, Next, Enabled, Call;
    BudgetBound(run[0], c);
    if events != [] {
      assert IsRun(run[1..], c, events[1..]);
      WritesGetTheirTurn(run[1..], c, events[1..]);
      if events[0].Calls? {
        assert run[1] == Call(run[0], c) by { NextCall(run[0], c); }
        CallSpends(run[0], c);
      } else {
        CountersStay(run[0], c, events[0]);
        SameBudget(run[0], run[1], c);
      }
    }
  }

  lemma {:induction false} NextCall(s: State, c: Config)
    ensures Enabled(s, Calls) && Next(s, c, Calls) == Call(s, c)
  {
  }

  lemma {:induction false} SameBudget(s: State, t: State, c: Config)
    requires s.batching == t.batching && s.starved == t.starved
    ensures ReadBudget(s, c) == ReadBudget(t, c)
  {
  }

  /** The documented bound, in terms of the setting itself, in every stretch of every run. */
  ghost predicate BoundHolds(c: Config) {
    forall run: seq<State>, events: seq<Event> ::
      && IsRun(run, c, events) && Reached(run[0], c)
      && (forall i :: 0 <= i < |events| && events[i].Calls? ==> ServesRead(run[i], c))
      ==> CountCalls(events) <= (c.writesStarved + 1) * c.Batch()
  }

  /** It is met exactly when `writes_starved` is not negative; sysfs accepts any integer there. */
  lemma {:induction false} BoundHoldsIff(c: Config)
    requires -0x8000_0000 <= c.writesStarved
    ensures BoundHolds(c) <==> 0 <= c.writesStarved
  {
    hide BoundHolds;
    if 0 <= c.writesStarved { BoundMet(c); } else { BoundBroken(c); }
  }

  lemma {:induction false} BoundMet(c: Config)
    requires 0 <= c.writesStarved
    ensures BoundHolds(c)
  {
    hide ServesRead, Reached, Enabled, Next, CountCalls;
    forall run: seq<State>, events: seq<Event> | IsRun(run, c, events) && Reached(run[0], c)
        && (forall i :: 0 <= i < |events| && events[i].Calls? ==> ServesRead(run[i], c))
      ensures CountCalls(events) <= (c.writesStarved + 1) * c.Batch()
    {
      WritesGetTheirTurn(run, c, events);
    }
  }

  /** For a negative setting it fails by far: writes wait for `Starve() * fifo_batch` calls, with `Starve()` at least
      2^31. */
  lemma {:induction false} BoundBroken(c: Config)
    requires -0x8000_0000 <= c.writesStarved < 0
    ensures !BoundHolds(c) && 0x8000_0000 <= c.Starve()
  {
    hide ServesRead, Reached, Call, Enabled, Next, IsRun;
    TimesMono(1, c.Starve(), c.Batch());
    var run, events := WritesWait(c, c.Starve() * c.Batch());
    NotPositive(c.writesStarved + 1, c.Batch());
  }

  lemma {:induction false} TimesMono(a: nat, n: nat, b: nat)
    requires a <= n
    ensures a * b <= n * b
  {
  }

  lemma {:induction false} NotPositive(a: int, b: nat)
    requires a <= 0
    ensures a * b <= 0
  {
  }

  // ---------------------------------------------------------------- An expired read is served soon

  /** Who carries the data of `h` after the step. */
  function Carrier(h: nat, e: Event): nat { if e.Joins? && e.next == h then e.req else h }

  /** `h` is a read that has expired. */
  ghost predicate Urgent(s: State, h: nat) {
    var k := Find(s.read.fifo, h);
    k < |s.read.fifo| && s.read.fifo[k].key < s.now
  }

  /** The request at place `k` is absorbed by `req`, which then stands no further back. */
  predicate HoldsPlace(f: seq<Item>, req: nat, k: nat)
    requires Find(f, req) < |f| && k < |f|
  {
    f[k].key < f[Find(f, req)].key || Find(f, req) <= k + 1
  }

  ghost predicate TakesOver(s: State, h: nat, e: Event) {
    e.Joins? && e.next == h && !e.write && Find(s.read.fifo, h) < |s.read.fifo| ==>
      Find(s.read.fifo, e.req) < |s.read.fifo| && HoldsPlace(s.read.fifo, e.req, Find(s.read.fifo, h))
  }

  /** How many more calls until an expired read must be served that `n` others may go before: what is left of the
      batch, a batch of writes if they are due, the call itself, and two batches for each of the others. */
  function Patience(s: State, c: Config, n: nat): nat {
    Monus(c.Batch(), s.batching) + (if c.Starve() <= s.starved then c.Batch() else 0) + 1 + 2 * c.Batch() * n
  }

  /** Fewer may go before, and the counters are the same. */
  lemma {:induction false} LessPatience(s: State, t: State, c: Config, n: nat, m: nat)
    requires s.batching == t.batching && s.starved == t.starved && m <= n
    ensures Patience(t, c, m) <= Patience(s, c, n)
  {
    TimesLeq(c.Batch(), m, n);
  }

  lemma {:induction false} PatienceBounds(s: State, c: Config, n: nat)
    ensures 1 <= Patience(s, c, n) <= 2 * c.Batch() + 1 + 2 * c.Batch() * n
  {
    TimesLeq(c.Batch(), 0, n);
  }

  /** A request keeps its item and moves up by one exactly if one before it goes. */
  lemma {:induction false} DropOther(f: seq<Item>, h: nat, id: nat)
    requires Distinct(f) && Find(f, h) < |f| && id != h
    ensures var g := Drop(f, id);
            && Find(g, h) < |g| && g[Find(g, h)] == f[Find(f, h)]
            && Find(g, h) == Find(f, h) - if Find(f, id) < Find(f, h) then 1 else 0
  {
    var k, i := Find(f, h), Find(f, id);
    if i < |f| {
      var g := Cut(f, i);
      CutKeeps(f, i);
      FindUnique(g, h, if i < k then k - 1 else k);
    }
  }

  lemma {:induction false} FindUnique(f: seq<Item>, h: nat, k: nat)
    requires Distinct(f) && k < |f| && f[k].id == h
    ensures Find(f, h) == k
  {
  }

  /** `g` still has `h`, no further back and expiring no later. */
  ghost predicate NoWorse(f: seq<Item>, g: seq<Item>, h: nat) {
    && Find(f, h) < |f| && Find(g, h) < |g|
    && Find(g, h) <= Find(f, h) && g[Find(g, h)].key <= f[Find(f, h)].key
  }

  lemma {:induction false} MoveUrgent(s: State, w: bool, id: nat, h: nat)
    requires Urgent(s, h) && Distinct(s.read.fifo)
    ensures id == h || (Urgent(Move(s, w, id), h) && NoWorse(s.read.fifo, Move(s, w, id).read.fifo, h))
    ensures h in s.sent + [id] <==> h in Move(s, w, id).sent
  {
    hide Drop, Distinct;
    MoveFields(s, w, id);
    if id != h && !w { DropOther(s.read.fifo, h, id); }
  }

  lemma {:induction false} PlaceUrgent(s: State, w: bool, id: nat, sector: int, h: nat)
    requires Urgent(s, h) && Distinct(s.read.fifo)
    ensures var t := Place(s, w, id, sector); (Urgent(t, h) && NoWorse(s.read.fifo, t.read.fifo, h)) || h in t.sent
  {
    hide Move, Distinct;
    var a := Alias(s.Get(w).sort, sector);
    if a.Some? {
      MoveUrgent(s, w, a.value, h);
    }
  }

  lemma {:induction false} AppendKeeps(f: seq<Item>, x: Item, h: nat)
    requires Find(f, h) < |f|
    ensures Find(f + [x], h) == Find(f, h)
  {
    assert forall i :: 0 <= i < |f| ==> (f + [x])[i] == f[i];
  }

  lemma {:induction false} AddUrgent(s: State, c: Config, w: bool, id: nat, sector: int, h: nat)
    requires Urgent(s, h) && Distinct(s.read.fifo)
    ensures var t := Add(s, c, w, id, sector); (Urgent(t, h) && NoWorse(s.read.fifo, t.read.fifo, h)) || h in t.sent
  {
    hide Place, Distinct;
    PlaceUrgent(s.(nrSorted := s.nrSorted + 1), w, id, sector, h);
    var t := Place(s.(nrSorted := s.nrSorted + 1), w, id, sector);
    if !w && h !in t.sent { AppendKeeps(t.read.fifo, Item(id, t.now + c.readExpire), h); }
  }

  lemma {:induction false} FrontUrgent(s: State, w: bool, id: nat, sector: int, h: nat)
    requires Urgent(s, h) && Distinct(s.read.fifo)
    ensures var t := Front(s, w, id, sector); (Urgent(t, h) && NoWorse(s.read.fifo, t.read.fifo, h)) || h in t.sent
  {
    hide Place, Distinct;
    var l := s.Get(w);
    PlaceUrgent(s.Set(w, l.(sort := Drop(l.sort, id))), w, id, sector, h);
  }

  /** Taking out place `i` and putting `x` behind place `j`: what was between moves back by one. */
  lemma {:induction false} MovedUp(f: seq<Item>, j: nat, i: nat, x: Item, k: nat)
    requires j < i < |f| && k < |f| && k != i
    ensures var g := Put(Cut(f, i), j + 1, x);
            && |g| == |f| && g[j + 1] == x && (j < k < i ==> g[k + 1] == f[k]) && (k <= j || i < k ==> g[k] == f[k])
  {
  }

  /** Where item `m` goes when item `i` goes up behind item `j` and takes over its key. */
  lemma {:induction false} MovedTo(f: seq<Item>, j: nat, i: nat, m: nat) returns (k: nat)
    requires j < i < |f| && m < |f| && f[j].key < f[i].key
    ensures var g := Put(Cut(f, i), j + 1, Item(f[i].id, f[j].key));
            k < |g| && g[k].id == f[m].id && g[k].key <= f[m].key
    ensures k == if m == i then j + 1 else if j < m < i then m + 1 else m
  {
    k := if m == i then j + 1 else if j < m < i then m + 1 else m;
    MovedUp(f, j, i, Item(f[i].id, f[j].key), if m == i then j else m);
    hide Put, Cut;
  }

  /** Where everyone stands when `req` moves up behind `next`. */
  lemma {:induction false} InheritPlaces(f: seq<Item>, req: nat, next: nat, h: nat)
    requires Distinct(f) && Ascending(f) && Find(f, req) < |f| && Find(f, next) < |f| && req != next && Find(f, h) < |f|
    requires f[Find(f, next)].key < f[Find(f, req)].key
    ensures var g, j, i := Inherit(f, req, next), Find(f, next), Find(f, req);
            && j < i && Distinct(g) && Find(g, h) < |g| && g[Find(g, h)].key <= f[Find(f, h)].key
            && Find(g, h) == if h == req then j + 1 else if j < Find(f, h) < i then Find(f, h) + 1 else Find(f, h)
  {
    InheritIs(f, req, next);
    hide Distinct, Ascending, Put, Cut, Find, Inherit;
    var g, j, i, m := Inherit(f, req, next), Find(f, next), Find(f, req), Find(f, h);
    var k := MovedTo(f, j, i, m);
    FindUnique(g, h, k);
  }

  lemma {:induction false} InheritIs(f: seq<Item>, req: nat, next: nat)
    requires Distinct(f) && Ascending(f) && Find(f, req) < |f| && Find(f, next) < |f| && req != next
    requires f[Find(f, next)].key < f[Find(f, req)].key
    ensures var j, i := Find(f, next), Find(f, req);
            && j < i && Inherit(f, req, next) == Put(Cut(f, i), j + 1, Item(req, f[j].key))
            && Distinct(Inherit(f, req, next))
  {
    DropEarlier(f, req, next);
    CutWithout(f, Find(f, req));
    hide Distinct, Ascending, Put, Has, Cut, Find;
    PutDistinct(Cut(f, Find(f, req)), Find(f, next) + 1, Item(req, f[Find(f, next)].key));
  }

  lemma {:induction false} CutWithout(f: seq<Item>, i: nat)
    requires Distinct(f) && i < |f|
    ensures Distinct(Cut(f, i)) && !Has(Cut(f, i), f[i].id)
  {
    CutHas(f, i, f[i].id);
    CutKeeps(f, i);
    hide Distinct, Cut, Has;
  }

  /** A merge of other requests, or one that `h` itself gains by, leaves `h` no worse off. */
  lemma {:induction false} OthersMerge(f: seq<Item>, req: nat, next: nat, h: nat)
    requires Distinct(f) && Ascending(f) && Find(f, req) < |f| && Find(f, next) < |f| && req != next
    requires h != next && Find(f, h) < |f|
    ensures NoWorse(f, Drop(Inherit(f, req, next), next), h)
  {
    hide Ascending, Distinct, Drop;
    if f[Find(f, next)].key < f[Find(f, req)].key {
      InheritPlaces(f, req, next, h);
      InheritPlaces(f, req, next, next);
    }
    DropOther(Inherit(f, req, next), h, next);
  }

  /** When `h` itself is absorbed, its absorber stands no further back than `h` did exactly if it expires strictly
      later or comes before it or right after it; it never expires later than `h` did. */
  lemma {:induction false} Absorbed(f: seq<Item>, req: nat, h: nat)
    requires Distinct(f) && Ascending(f) && Find(f, req) < |f| && Find(f, h) < |f| && req != h
    ensures var g := Drop(Inherit(f, req, h), h);
            && Find(g, req) < |g| && g[Find(g, req)].key <= f[Find(f, h)].key
            && (Find(g, req) <= Find(f, h) <==> HoldsPlace(f, req, Find(f, h)))
  {
    var k, i := Find(f, h), Find(f, req);
    assert k != i;
    if f[k].key < f[i].key {
      InheritPlaces(f, req, h, req);
      InheritPlaces(f, req, h, h);
      InheritKey(f, req, h);
    }
    hide Ascending, Drop;
    DropOther(Inherit(f, req, h), req, h);
  }

  lemma {:induction false} InheritKey(f: seq<Item>, req: nat, next: nat)
    requires Distinct(f) && Ascending(f) && Find(f, req) < |f| && Find(f, next) < |f| && req != next
    requires f[Find(f, next)].key < f[Find(f, req)].key
    ensures var g := Inherit(f, req, next); Find(g, req) < |g| && g[Find(g, req)].key == f[Find(f, next)].key
  {
    var j, i := Find(f, next), Find(f, req);
    DropEarlier(f, req, next);
    InheritPlaces(f, req, next, req);
    assert Inherit(f, req, next)[j + 1] == Item(req, f[j].key);
  }

  lemma {:induction false} JoinUrgent(s: State, c: Config, w: bool, req: nat, next: nat, h: nat)
    requires Inv(s, c) && Urgent(s, h) && Enabled(s, Joins(w, req, next)) && TakesOver(s, h, Joins(w, req, next))
    ensures var t, k := Join(s, w, req, next), Carrier(h, Joins(w, req, next));
            Urgent(t, k) && Find(t.read.fifo, k) <= Find(s.read.fifo, h)
  {
    hide Distinct, Ascending, Strict, Bounded, Inherit, Drop;
    var f := s.read.fifo;
    FindHas(f, h);
    if !w {
      if next == h { Absorbed(f, req, h); } else { OthersMerge(f, req, next, h); }
    }
  }

  lemma {:induction false} TimesMore(b: nat, k: nat)
    requires 0 < k
    ensures 2 * b * k == 2 * b * (k - 1) + 2 * b
  {
  }

  lemma {:induction false} TimesLeq(b: nat, m: nat, k: nat)
    requires m <= k
    ensures 2 * b * m <= 2 * b * k
  {
  }

  /** A call that chooses reads afresh sends the head of the fifo, because the head has expired too. */
  lemma {:induction false} FreshRead(s: State, c: Config, h: nat)
    requires Urgent(s, h) && Ascending(s.read.fifo) && Choose(s, c).Serve? && !Choose(s, c).write
    requires !GoesOn(s, c)
    ensures Choose(s, c).id == s.read.fifo[0].id && Choose(s, c).batching == 1
  {
    assert s.read.fifo[0].key <= s.read.fifo[Find(s.read.fifo, h)].key;
  }

  /** The choice goes on with a batch. */
  predicate GoesOn(s: State, c: Config) { (s.read.next.Some? || s.write.next.Some?) && s.batching < c.batch }

  /** What the choice does to the calls left, apart from the place of the expired read. */
  lemma {:induction false} ChoiceSpends(s: State, c: Config)
    requires s.read.fifo != [] && 1 <= c.Starve()
    ensures var r := Choose(s, c);
            var before := Monus(c.Batch(), s.batching) + if c.Starve() <= s.starved then c.Batch() else 0;
            var after := Monus(c.Batch(), r.batching) + if c.Starve() <= r.starved then c.Batch() else 0;
            r.Serve? && if GoesOn(s, c) || r.write then after + 1 <= before else after + 1 <= before + 2 * c.Batch()
  {
  }

  /** A call uses up one of the calls left, if one fewer may go before whenever it chose reads afresh. */
  lemma {:induction false} FewerCalls(s: State, u: State, c: Config, n: nat, m: nat, afresh: bool)
    requires m <= n - if afresh then 1 else 0
    requires var before := Monus(c.Batch(), s.batching) + if c.Starve() <= s.starved then c.Batch() else 0;
             var after := Monus(c.Batch(), u.batching) + if c.Starve() <= u.starved then c.Batch() else 0;
             after + 1 <= before + if afresh then 2 * c.Batch() else 0
    ensures Patience(u, c, m) + 1 <= Patience(s, c, n)
  {
    if afresh {
      TimesMore(c.Batch(), n);
      TimesLeq(c.Batch(), m, n - 1);
    } else {
      TimesLeq(c.Batch(), m, n);
    }
  }

  lemma {:induction false} HeadGone(f: seq<Item>, h: nat)
    requires Distinct(f) && Find(f, h) < |f| && f[0].id != h
    ensures 0 < Find(f, h) && Find(Drop(f, f[0].id), h) == Find(f, h) - 1
  {
    DropOther(f, h, f[0].id);
    FindUnique(f, f[0].id, 0);
  }

  /** How a call changes the reads: a batch that goes on or a write takes out some other request, a fresh choice of
      reads the head of the fifo. */
  lemma {:induction false} CallMoves(s: State, c: Config, h: nat) returns (id: nat, write: bool, afresh: bool)
    requires Urgent(s, h) && Ascending(s.read.fifo) && 1 <= c.Starve()
    ensures var u := Call(s, c);
            && u.sent == s.sent + [id] && u.now == s.now
            && u.read.fifo == (if write then s.read.fifo else Drop(s.read.fifo, id))
            && (afresh ==> !write && id == s.read.fifo[0].id)
            && var before := Monus(c.Batch(), s.batching) + (if c.Starve() <= s.starved then c.Batch() else 0);
               var after := Monus(c.Batch(), u.batching) + (if c.Starve() <= u.starved then c.Batch() else 0);
               after + 1 <= before + if afresh then 2 * c.Batch() else 0
  {
    var r := Choose(s, c);
    ChoiceSpends(s, c);
    id, write, afresh := r.id, r.write, !r.write && !GoesOn(s, c);
    if afresh { FreshRead(s, c, h); }
    hide Move, Ascending, Drop;
    MoveFields(s.(batching := r.batching, starved := r.starved), r.write, r.id);
  }

  lemma {:induction false} CallUrgent(s: State, c: Config, h: nat)
    requires Urgent(s, h) && Distinct(s.read.fifo) && Ascending(s.read.fifo) && 1 <= c.Starve()
    ensures var u := Call(s, c);
            || h in u.sent
            || (Urgent(u, h) && Patience(u, c, Find(u.read.fifo, h)) + 1 <= Patience(s, c, Find(s.read.fifo, h)))
  {
    var id, write, afresh := CallMoves(s, c, h);
    hide Distinct, Ascending, Drop, Call, Patience, Monus;
    if id != h {
      if !write { DropOther(s.read.fifo, h, id); }
      if afresh { HeadGone(s.read.fifo, h); }
      FewerCalls(s, Call(s, c), c, Find(s.read.fifo, h), Find(Call(s, c).read.fifo, h), afresh);
    }
  }

  lemma {:induction false} StepUrgent(s: State, c: Config, e: Event, h: nat)
    requires Inv(s, c) && Enabled(s, e) && Urgent(s, h) && TakesOver(s, h, e) && 1 <= c.Starve()
    ensures var t, k := Next(s, c, e), Carrier(h, e);
            || k in t.sent
            || (&& Urgent(t, k)
                && Patience(t, c, Find(t.read.fifo, k)) + (if e.Calls? then 1 else 0)
                   <= Patience(s, c, Find(s.read.fifo, h)))
  {
    if !e.Calls? { CountersStay(s, c, e); }
    hide Distinct, Ascending, Strict, Bounded, Same, Add, Front, Join, Call, Has, Patience;
    var t, k := Next(s, c, e), Carrier(h, e);
    match e
    case Adds(w, id, sector) =>
      AddUrgent(s, c, w, id, sector, h);
      if k !in t.sent { LessPatience(s, t, c, Find(s.read.fifo, h), Find(t.read.fifo, k)); }
    case Fronts(w, id, sector) =>
      FrontUrgent(s, w, id, sector, h);
      if k !in t.sent { LessPatience(s, t, c, Find(s.read.fifo, h), Find(t.read.fifo, k)); }
    case Joins(w, req, next) =>
      JoinUrgent(s, c, w, req, next, h);
      LessPatience(s, t, c, Find(s.read.fifo, h), Find(t.read.fifo, k));
    case Calls => CallUrgent(s, c, h);
    case Ticks(d) => LessPatience(s, t, c, Find(s.read.fifo, h), Find(t.read.fifo, k));
  }

  /** The data of `h` is sent at some point of the run. */
  ghost predicate Served(run: seq<State>, events: seq<Event>, h: nat)
    requires |run| == |events| + 1
  {
    h in run[0].sent || (events != [] && Served(run[1..], events[1..], Carrier(h, events[0])))
  }

  ghost predicate AlwaysTakesOver(run: seq<State>, events: seq<Event>, h: nat)
    requires |run| == |events| + 1
  {
    events != [] ==> TakesOver(run[0], h, events[0]) && AlwaysTakesOver(run[1..], events[1..], Carrier(h, events[0]))
  }

  /** An expired read with `k` reads before it in the fifo, or the request that absorbs it, is sent within
      `2 * fifo_batch * (k + 1) + 1` dispatch calls, whatever arrives, merges or expires meanwhile, as long as each
      absorber keeps its place; at the head that is `2 * fifo_batch + 1`. */
  lemma {:induction false} PlaceServed(run: seq<State>, c: Config, events: seq<Event>, h: nat)
    requires IsRun(run, c, events) && Inv(run[0], c) && 1 <= c.Starve()
    requires Urgent(run[0], h) && AlwaysTakesOver(run, events, h)
    ensures var n := Find(run[0].read.fifo, h);
            && Patience(run[0], c, n) <= 2 * c.Batch() + 1 + 2 * c.Batch() * n
            && (Patience(run[0], c, n) <= CountCalls(events) ==> Served(run, events, h))
  {
    PatienceBounds(run[0], c, Find(run[0].read.fifo, h));
    hide Inv, Enabled, Next, Urgent, TakesOver, Patience, IsRun, Find;
    if events != [] {
      RunTail(run, c, events);
      StepKeeps(run[0], c, events[0]);
      StepUrgent(run[0], c, events[0], h);
      var k := Carrier(h, events[0]);
      if k in run[1].sent {
        assert Served(run[1..], events[1..], k);
      } else {
        PlaceServed(run[1..], c, events[1..], k);
      }
    }
  }

  lemma {:induction false} RunTail(run: seq<State>, c: Config, events: seq<Event>)
    requires IsRun(run, c, events) && events != []
    ensures |run| == |events| + 1 && Enabled(run[0], events[0]) && run[1] == Next(run[0], c, events[0])
    ensures IsRun(run[1..], c, events[1..])
  {
    hide Enabled, Next;
  }

  // ---------------------------------------------------------------- Rivals

  /** How many items have a key of at most `k`. */
  function Rank(f: seq<Item>, k: int): nat {
    if f == [] then 0 else (if f[0].key <= k then 1 else 0) + Rank(f[1..], k)
  }

  lemma {:induction false} RankSplit(a: seq<Item>, b: seq<Item>, k: int)
    ensures Rank(a + b, k) == Rank(a, k) + Rank(b, k)
  {
    if a == [] {
      assert a + b == b;
    } else {
      assert (a + b)[1..] == a[1..] + b;
      RankSplit(a[1..], b, k);
    }
  }

  lemma {:induction false} RankOne(x: Item, k: int)
    ensures Rank([x], k) == if x.key <= k then 1 else 0
  {
    assert Rank([x][1..], k) == 0;
  }

  lemma {:induction false} RankCut(f: seq<Item>, i: nat, k: int)
    requires i < |f|
    ensures Rank(Cut(f, i), k) == Rank(f, k) - if f[i].key <= k then 1 else 0
  {
    assert f == f[..i] + ([f[i]] + f[i + 1..]);
    RankSplit(f[..i], [f[i]] + f[i + 1..], k);
    RankSplit([f[i]], f[i + 1..], k);
    RankSplit(f[..i], f[i + 1..], k);
    RankOne(f[i], k);
  }

  lemma {:induction false} RankPut(f: seq<Item>, i: nat, x: Item, k: int)
    requires i <= |f|
    ensures Rank(Put(f, i, x), k) == Rank(f, k) + if x.key <= k then 1 else 0
  {
    assert f == f[..i] + f[i..];
    RankSplit(f[..i], f[i..], k);
    RankSplit(f[..i] + [x], f[i..], k);
    RankSplit(f[..i], [x], k);
    RankOne(x, k);
  }

  lemma {:induction false} RankLess(f: seq<Item>, k: int, m: int)
    requires m <= k
    ensures Rank(f, m) <= Rank(f, k)
  {
    if f != [] { RankLess(f[1..], k, m); }
  }

  /** The reads other than `h` that expire no later than it does. */
  function Rivals(f: seq<Item>, h: nat): nat
    requires Find(f, h) < |f|
  {
    Monus(Rank(f, f[Find(f, h)].key), 1)
  }

  lemma {:induction false} RankHas(f: seq<Item>, i: nat, k: int)
    requires i < |f| && f[i].key <= k
    ensures 1 <= Rank(f, k)
  {
    RankCut(f, i, k);
  }

  /** What happens to the rivals of `h` when another request goes. */
  lemma {:induction false} DropRivals(f: seq<Item>, h: nat, id: nat)
    requires Distinct(f) && Find(f, h) < |f| && id != h
    ensures Find(Drop(f, id), h) < |Drop(f, id)| && Rivals(Drop(f, id), h) <= Rivals(f, h)
    ensures Drop(f, id)[Find(Drop(f, id), h)].key == f[Find(f, h)].key
    ensures Find(f, id) < |f| && f[Find(f, id)].key <= f[Find(f, h)].key ==>
              1 <= Rivals(f, h) && Rivals(Drop(f, id), h) == Rivals(f, h) - 1
  {
    DropOther(f, h, id);
    var i, k := Find(f, id), f[Find(f, h)].key;
    RankHas(Drop(f, id), Find(Drop(f, id), h), k);
    if i < |f| { RankCut(f, i, k); }
  }

  lemma {:induction false} AppendRivals(f: seq<Item>, x: Item, h: nat)
    requires Find(f, h) < |f| && f[Find(f, h)].key < x.key
    ensures Find(f + [x], h) == Find(f, h) && Rivals(f + [x], h) == Rivals(f, h)
  {
    AppendKeeps(f, x, h);
    RankSplit(f, [x], f[Find(f, h)].key);
    RankOne(x, f[Find(f, h)].key);
  }

  /** A merge never adds to the rivals: the absorbing request counts at most where the absorbed one did. */
  lemma {:induction false} InheritRank(f: seq<Item>, req: nat, next: nat, k: int)
    requires Distinct(f) && Ascending(f) && Find(f, req) < |f| && Find(f, next) < |f| && req != next
    ensures Rank(Drop(Inherit(f, req, next), next), k) <= Rank(f, k)
    ensures f[Find(f, req)].key <= f[Find(f, next)].key <= k ==>
              Rank(Drop(Inherit(f, req, next), next), k) == Rank(f, k) - 1
  {
    var j, i := Find(f, next), Find(f, req);
    var g := Inherit(f, req, next);
    if f[j].key < f[i].key {
      InheritIs(f, req, next);
      InheritPlaces(f, req, next, next);
      var x := Item(req, f[j].key);
      MovedUp(f, j, i, x, j);
      hide Distinct, Ascending, Inherit, Put, Cut;
      RankCut(f, i, k);
      RankPut(Cut(f, i), j + 1, x, k);
      RankCut(g, Find(g, next), k);
    } else {
      RankCut(f, j, k);
    }
  }

  /** `h` still waits, with no more rivals than `n`. */
  ghost predicate Waits(s: State, h: nat, n: nat) { Urgent(s, h) && Rivals(s.read.fifo, h) <= n }

  lemma {:induction false} MoveRivals(s: State, w: bool, id: nat, h: nat, n: nat)
    requires Waits(s, h, n) && Distinct(s.read.fifo)
    ensures id == h || Waits(Move(s, w, id), h, n)
    ensures h in s.sent + [id] <==> h in Move(s, w, id).sent
  {
    hide Drop, Distinct, Rivals;
    MoveFields(s, w, id);
    if id != h && !w { DropRivals(s.read.fifo, h, id); }
  }

  lemma {:induction false} PlaceRivals(s: State, w: bool, id: nat, sector: int, h: nat, n: nat)
    requires Waits(s, h, n) && Distinct(s.read.fifo)
    ensures var t := Place(s, w, id, sector); (Waits(t, h, n) || h in t.sent) && t.now == s.now
  {
    hide Move, Distinct, Rivals;
    var a := Alias(s.Get(w).sort, sector);
    if a.Some? {
      MoveRivals(s, w, a.value, h, n);
      MoveFields(s, w, a.value);
    }
  }

  lemma {:induction false} AddRivals(s: State, c: Config, w: bool, id: nat, sector: int, h: nat, n: nat)
    requires Waits(s, h, n) && Distinct(s.read.fifo) && 0 <= c.readExpire
    ensures var t := Add(s, c, w, id, sector); Waits(t, h, n) || h in t.sent
  {
    hide Place, Distinct, Rivals;
    PlaceRivals(s.(nrSorted := s.nrSorted + 1), w, id, sector, h, n);
    var t := Place(s.(nrSorted := s.nrSorted + 1), w, id, sector);
    if !w && h !in t.sent { AppendRivals(t.read.fifo, Item(id, t.now + c.readExpire), h); }
  }

  lemma {:induction false} FrontRivals(s: State, w: bool, id: nat, sector: int, h: nat, n: nat)
    requires Waits(s, h, n) && Distinct(s.read.fifo)
    ensures var t := Front(s, w, id, sector); Waits(t, h, n) || h in t.sent
  {
    hide Place, Distinct, Rivals;
    var l := s.Get(w);
    PlaceRivals(s.Set(w, l.(sort := Drop(l.sort, id))), w, id, sector, h, n);
  }

  lemma {:induction false} JoinRivals(s: State, c: Config, w: bool, req: nat, next: nat, h: nat, n: nat)
    requires Inv(s, c) && Waits(s, h, n) && Enabled(s, Joins(w, req, next))
    ensures Waits(Join(s, w, req, next), Carrier(h, Joins(w, req, next)), n)
  {
    hide Distinct, Ascending, Strict, Bounded, Inherit, Drop, Rank;
    var f := s.read.fifo;
    FindHas(f, h);
    if !w {
      var g := Drop(Inherit(f, req, next), next);
      var k := f[Find(f, h)].key;
      InheritRank(f, req, next, k);
      if next == h { Absorbed(f, req, h); } else { OthersMerge(f, req, next, h); }
      RankLess(g, k, g[Find(g, Carrier(h, Joins(w, req, next)))].key);
    }
  }

  lemma {:induction false} CallRivals(s: State, c: Config, h: nat)
    requires Urgent(s, h) && Distinct(s.read.fifo) && Ascending(s.read.fifo) && 1 <= c.Starve()
    ensures var u := Call(s, c);
            || h in u.sent
            || (Urgent(u, h) && Patience(u, c, Rivals(u.read.fifo, h)) + 1 <= Patience(s, c, Rivals(s.read.fifo, h)))
  {
    var id, write, afresh := CallMoves(s, c, h);
    var f := s.read.fifo;
    if id != h {
      if !write { DropRivals(f, h, id); }
      if afresh { FindUnique(f, f[0].id, 0); }
      hide Distinct, Drop, Call, Patience, Monus, Rivals;
      FewerCalls(s, Call(s, c), c, Rivals(f, h), Rivals(Call(s, c).read.fifo, h), afresh);
    }
  }

  lemma {:induction false} StepRivals(s: State, c: Config, e: Event, h: nat)
    requires Inv(s, c) && Enabled(s, e) && Urgent(s, h) && 1 <= c.Starve() && 0 <= c.readExpire
    ensures var t, k := Next(s, c, e), Carrier(h, e);
            || k in t.sent
            || (&& Urgent(t, k)
                && Patience(t, c, Rivals(t.read.fifo, k)) + (if e.Calls? then 1 else 0)
                   <= Patience(s, c, Rivals(s.read.fifo, h)))
  {
    if !e.Calls? { CountersStay(s, c, e); }
    hide Distinct, Ascending, Strict, Bounded, Same, Add, Front, Join, Call, Has, Patience, Rivals, Find;
    var t, k, n := Next(s, c, e), Carrier(h, e), Rivals(s.read.fifo, h);
    match e
    case Adds(w, id, sector) =>
      AddRivals(s, c, w, id, sector, h, n);
      if k !in t.sent { LessPatience(s, t, c, n, Rivals(t.read.fifo, k)); }
    case Fronts(w, id, sector) =>
      FrontRivals(s, w, id, sector, h, n);
      if k !in t.sent { LessPatience(s, t, c, n, Rivals(t.read.fifo, k)); }
    case Joins(w, req, next) =>
      JoinRivals(s, c, w, req, next, h, n);
      LessPatience(s, t, c, n, Rivals(t.read.fifo, k));
    case Calls => CallRivals(s, c, h);
    case Ticks(d) => LessPatience(s, t, c, n, n);
  }

  /** An expired read, or whoever absorbs it, is sent within `2 * fifo_batch * (n + 1) + 1` dispatch calls, where `n`
      is how many other reads expire no later than it does, whatever arrives, merges or expires meanwhile. Alone at
      the head that is `2 * fifo_batch + 1`. */
  lemma {:induction false} ExpiredReadServed(run: seq<State>, c: Config, events: seq<Event>, h: nat)
    requires IsRun(run, c, events) && Inv(run[0], c) && 1 <= c.Starve() && 0 <= c.readExpire
    requires Urgent(run[0], h)
    ensures var n := Rivals(run[0].read.fifo, h);
            && Patience(run[0], c, n) <= 2 * c.Batch() + 1 + 2 * c.Batch() * n
            && (Patience(run[0], c, n) <= CountCalls(events) ==> Served(run, events, h))
  {
    PatienceBounds(run[0], c, Rivals(run[0].read.fifo, h));
    hide Inv, Enabled, Next, Patience, IsRun, Find, Rivals;
    if events != [] {
      RunTail(run, c, events);
      StepKeeps(run[0], c, events[0]);
      StepRivals(run[0], c, events[0], h);
      var k := Carrier(h, events[0]);
      if k in run[1].sent {
        assert Served(run[1..], events[1..], k);
      } else {
        ExpiredReadServed(run[1..], c, events[1..], k);
      }
    }
  }

  // ---------------------------------------------------------------- Worst cases

  /** Reads `lo` to `hi - 1`, which start eight sectors apart; and the same reads by expiry, all at once. */
  function Sectors(lo: nat, hi: nat): (r: seq<Item>)
    requires lo <= hi
    ensures |r| == hi - lo
  {
    seq(hi - lo, i requires 0 <= i < hi - lo => Item(lo + i, 8 * (lo + i) + 8))
  }

  function Dues(lo: nat, hi: nat, due: int): (r: seq<Item>)
    requires lo <= hi
    ensures |r| == hi - lo
  {
    seq(hi - lo, i requires 0 <= i < hi - lo => Item(lo + i, due))
  }

  /** Reads 0 to `m - 1` have been queued at once. */
  function Queued(c: Config, m: nat): State {
    State(Lane(Sectors(0, m), Dues(0, m, c.readExpire), None), Lane([], [], None), 0, 0, m, [], 0)
  }

  /** A read behind all others goes to the end of both indexes. */
  lemma {:induction false} AddLast(c: Config, m: nat)
    ensures !Known(Queued(c, m), m) && Add(Queued(c, m), c, false, m, 8 * m + 8) == Queued(c, m + 1)
  {
    var s := Queued(c, m);
    assert Slot(s.read.sort, 8 * m + 8) == m;
    assert Put(s.read.sort, m, Item(m, 8 * m + 8)) == Sectors(0, m + 1);
    assert s.read.fifo + [Item(m, c.readExpire)] == Dues(0, m + 1, c.readExpire);
  }

  lemma {:induction false} QueuedReached(c: Config, m: nat)
    ensures Reached(Queued(c, m), c)
  {
    hide Reached, Add, Queued;
    if m == 0 {
      ReachedStart(c);
      assert Queued(c, 0) == START by { QueuedNone(c); }
    } else {
      QueuedReached(c, m - 1);
      AddLast(c, m - 1);
      ReachedNext(Queued(c, m - 1), c, Adds(false, m - 1, 8 * m));
    }
  }

  lemma {:induction false} QueuedNone(c: Config)
    ensures Queued(c, 0) == START
  {
  }

  /** The reads that are left: in sector order behind `pre`, in expiry order before `post`. */
  ghost predicate Left(s: State, pre: seq<Item>, post: seq<Item>, t: nat, hi: nat, due: int) {
    && t <= hi && (forall i :: 0 <= i < |pre| ==> hi <= pre[i].id)
    && s.read.sort == pre + Sectors(t, hi) && s.read.fifo == Dues(t, hi, due) + post
    && s.write.next == None && (s.read.next.Some? ==> t < hi && s.read.next.value == t)
  }

  /** Sending the first of them leaves the others, and the batch goes on with the next one. */
  lemma {:induction false} SendNext(s: State, pre: seq<Item>, post: seq<Item>, t: nat, hi: nat, due: int)
    requires Left(s, pre, post, t, hi, due) && t < hi
    ensures var u := Move(s, false, t);
            Left(u, pre, post, t + 1, hi, due) && (t + 1 < hi ==> u.read.next == Some(t + 1))
  {
    var a, f := s.read.sort, s.read.fifo;
    assert a[|pre|] == Item(t, 8 * t + 8) && forall i :: 0 <= i < |pre| ==> a[i].id != t;
    assert Find(a, t) == |pre|;
    assert Drop(a, t) == pre + Sectors(t + 1, hi);
    assert f[0] == Item(t, due);
    assert Find(f, t) == 0;
    assert Drop(f, t) == Dues(t + 1, hi, due) + post;
    assert t + 1 < hi ==> a[|pre| + 1] == Item(t + 1, 8 * (t + 1) + 8);
  }

  /** `t` calls are full batches and the started one. */
  ghost predicate Counted(t: int, c: Config, batching: int, starved: int) {
    t == (starved - 1) * c.Batch() + batching
  }

  /** After `t` calls that served reads, while write `w` waits: reads `t` to `hi - 1` are queued. */
  ghost predicate Serving(s: State, c: Config, t: nat, hi: nat, w: nat) {
    && Left(s, [], [], t, hi, c.readExpire) && t < hi <= w && s.now == 0 && s.batching <= c.Batch()
    && s.write.fifo != [] && (forall i :: 0 <= i < |s.write.sort| ==> s.write.sort[i].id == w)
    && (forall i :: 0 <= i < |s.sent| ==> s.sent[i] < t)
    && if t == 0 then s.read.next == None && s.starved == 0 && s.batching == 0
       else s.read.next.Some? && 1 <= s.batching && 1 <= s.starved && Counted(t, c, s.batching, s.starved)
  }

  lemma {:induction false} BelowStarve(c: Config, t: nat, n: nat, k: nat)
    requires t == k * c.Batch() && t < n <= c.Starve() * c.Batch()
    ensures k < c.Starve()
  {
    if c.Starve() <= k { TimesMono(c.Starve(), k, c.Batch()); }
  }

  ghost predicate Within(c: Config, n: nat) { n <= c.Starve() * c.Batch() }

  /** What the next of these calls chooses. */
  lemma {:induction false} ServeChoice(s: State, c: Config, t: nat, hi: nat, w: nat, n: nat)
    requires Serving(s, c, t, hi, w) && t < n && Within(c, n)
    ensures var onward := s.read.next.Some? && s.batching < c.batch;
            Choose(s, c) == Serve(false, t, if onward then s.batching + 1 else 1,
                                  if onward then s.starved else s.starved + 1)
  {
    if !(s.read.next.Some? && s.batching < c.batch) {
      FreshStarve(s, c, t, hi, w);
      BelowStarve(c, t, n, s.starved);
    }
    assert s.read.fifo[0] == Item(t, c.readExpire);
  }

  lemma {:induction false} FreshStarve(s: State, c: Config, t: nat, hi: nat, w: nat)
    requires Serving(s, c, t, hi, w) && !(s.read.next.Some? && s.batching < c.batch)
    ensures t == s.starved * c.Batch()
  {
    if 0 < t { TimesLess(s.starved, c.Batch()); }
  }

  /** Where the counters stand after it. */
  lemma {:induction false} ServeCounts(s: State, c: Config, t: nat, hi: nat, w: nat, batching: nat, starved: nat)
    requires Serving(s, c, t, hi, w)
    requires var onward := s.read.next.Some? && s.batching < c.batch;
             && batching == (if onward then s.batching + 1 else 1)
             && starved == if onward then s.starved else s.starved + 1
    ensures 1 <= batching <= c.Batch() && 1 <= starved && Counted(t + 1, c, batching, starved)
  {
    if !(s.read.next.Some? && s.batching < c.batch) { FreshStarve(s, c, t, hi, w); }
  }

  /** Each of these calls serves the next read. */
  lemma {:induction false} ServeOn(s: State, c: Config, t: nat, hi: nat, w: nat, n: nat)
    requires Serving(s, c, t, hi, w) && t < n && Within(c, n) && t + 1 < hi
    ensures ServesRead(s, c) && Serving(Call(s, c), c, t + 1, hi, w)
  {
    hide Move, Choose, Sectors, Dues, Counted, Within, Config.Batch, Config.Starve;
    ServeChoice(s, c, t, hi, w, n);
    var r := Choose(s, c);
    ServeCounts(s, c, t, hi, w, r.batching, r.starved);
    var s' := s.(batching := r.batching, starved := r.starved);
    assert Left(s', [], [], t, hi, c.readExpire);
    SendNext(s', [], [], t, hi, c.readExpire);
    MoveFields(s', false, t);
  }

  lemma {:induction false} SortLast(t: nat, hi: nat)
    requires t < hi
    ensures var a, x := Sectors(t, hi), Item(hi, 8 * hi + 8);
            Alias(a, x.key) == None && Put(a, Slot(a, x.key), x) == Sectors(t, hi + 1) && !Has(a, hi)
  {
    var a, x := Sectors(t, hi), Item(hi, 8 * hi + 8);
    assert Slot(a, x.key) == |a|;
  }

  lemma {:induction false} DueLast(t: nat, hi: nat, due: int)
    requires t < hi
    ensures Dues(t, hi, due) + [Item(hi, due)] == Dues(t, hi + 1, due)
  {
  }

  lemma {:induction false} AddToLane(s: State, c: Config, id: nat, sector: int)
    requires Alias(s.read.sort, sector) == None
    ensures Add(s, c, false, id, sector) ==
            s.(nrSorted := s.nrSorted + 1,
               read := Lane(Put(s.read.sort, Slot(s.read.sort, sector), Item(id, sector)),
                            s.read.fifo + [Item(id, s.now + c.readExpire)], s.read.next))
  {
  }

  lemma {:induction false} NotQueued(s: State, c: Config, t: nat, hi: nat, w: nat)
    requires Serving(s, c, t, hi, w) && hi < w
    ensures !Known(s, hi)
  {
    SortLast(t, hi);
    assert [] + Sectors(t, hi) == Sectors(t, hi);
    hide Sectors, Dues, Counted;
  }

  lemma {:induction false} LeftMore(s: State, u: State, t: nat, hi: nat, due: int)
    requires Left(s, [], [], t, hi, due) && t < hi && u.write.next == s.write.next && u.read.next == s.read.next
    requires u.read.sort == Put(s.read.sort, Slot(s.read.sort, 8 * hi + 8), Item(hi, 8 * hi + 8))
    requires u.read.fifo == s.read.fifo + [Item(hi, due)]
    ensures Left(u, [], [], t, hi + 1, due)
  {
    SortLast(t, hi);
    DueLast(t, hi, due);
    hide Sectors, Dues, Slot, Put, Alias;
    assert [] + Sectors(t, hi) == Sectors(t, hi) && [] + Sectors(t, hi + 1) == Sectors(t, hi + 1);
    assert Dues(t, hi, due) + [] == Dues(t, hi, due) && Dues(t, hi + 1, due) + [] == Dues(t, hi + 1, due);
  }

  lemma {:induction false} FreeSector(s: State, t: nat, hi: nat, due: int)
    requires Left(s, [], [], t, hi, due) && t < hi
    ensures Alias(s.read.sort, 8 * hi + 8) == None
  {
    SortLast(t, hi);
    assert [] + Sectors(t, hi) == Sectors(t, hi);
  }

  /** A read that comes in between goes behind those that are queued. */
  lemma {:induction false} ServeMore(s: State, c: Config, t: nat, hi: nat, w: nat)
    requires Serving(s, c, t, hi, w) && hi < w
    ensures var e := Adds(false, hi, 8 * hi + 8); Enabled(s, e) && Serving(Next(s, c, e), c, t, hi + 1, w)
  {
    NotQueued(s, c, t, hi, w);
    hide Counted, Add, Left, Slot, Put, Alias, Known, Config.Batch;
    FreeSector(s, t, hi, c.readExpire);
    AddToLane(s, c, hi, 8 * hi + 8);
    LeftMore(s, Add(s, c, false, hi, 8 * hi + 8), t, hi, c.readExpire);
  }

  /** In this run every call serves a read, and never more than two reads are queued. */
  ghost predicate Light(run: seq<State>, c: Config, events: seq<Event>) {
    && IsRun(run, c, events) && (forall i :: 0 <= i < |events| && events[i].Calls? ==> ServesRead(run[i], c))
    && forall i :: 0 <= i < |run| ==> |run[i].read.fifo| <= 2
  }

  lemma {:induction false} LightCons(s: State, c: Config, e: Event, run: seq<State>, events: seq<Event>)
    requires Light(run, c, events) && Enabled(s, e) && run[0] == Next(s, c, e)
    requires |s.read.fifo| <= 2 && (e.Calls? ==> ServesRead(s, c))
    ensures Light([s] + run, c, [e] + events)
  {
    RunCons(s, c, e, run, events);
    hide IsRun, Enabled, Next, ServesRead;
    var run', events' := [s] + run, [e] + events;
    forall i | 0 <= i < |events'| && events'[i].Calls? ensures ServesRead(run'[i], c) {
      if 0 < i { assert run'[i] == run[i - 1] && events'[i] == events[i - 1]; }
    }
  }

  /** Two reads are queued; each call serves the first, and another one comes after it. */
  lemma {:induction false} ServeAll(s: State, c: Config, t: nat, n: nat) returns (run: seq<State>, events: seq<Event>)
    requires Serving(s, c, t, t + 2, n + 2) && t <= n && Within(c, n)
    ensures Light(run, c, events) && run != [] && run[0] == s && CountCalls(events) == n - t
    decreases n - t
  {
    hide Serving, ServesRead, Call, Next, Enabled, Light, Within, CountCalls;
    TwoQueued(s, c, t, t + 2, n + 2);
    if t == n {
      LightNone(s, c);
      run, events := [s], [];
    } else {
      ServeOn(s, c, t, t + 2, n + 2, n);
      NextCall(s, c);
      var u, e := Call(s, c), Adds(false, t + 2, 8 * (t + 2) + 8);
      TwoQueued(u, c, t + 1, t + 2, n + 2);
      ServeMore(u, c, t + 1, t + 2, n + 2);
      var rest, more := ServeAll(Next(u, c, e), c, t + 1, n);
      LightCons(u, c, e, rest, more);
      CountCons(e, more);
      run, events := [u] + rest, [e] + more;
      LightCons(s, c, Calls, run, events);
      CountCons(Calls, events);
      run, events := [s] + run, [Calls] + events;
    }
  }

  lemma {:induction false} LightNone(s: State, c: Config)
    requires |s.read.fifo| <= 2
    ensures Light([s], c, []) && CountCalls([]) == 0
  {
  }

  lemma {:induction false} CountCons(e: Event, more: seq<Event>)
    ensures CountCalls([e] + more) == CountCalls(more) + if e.Calls? then 1 else 0
  {
    assert ([e] + more)[1..] == more;
  }

  lemma {:induction false} TwoQueued(s: State, c: Config, t: nat, hi: nat, w: nat)
    requires Serving(s, c, t, hi, w) && hi <= t + 2
    ensures |s.read.fifo| <= 2
  {
  }

  lemma {:induction false} RunCons(s: State, c: Config, e: Event, run: seq<State>, events: seq<Event>)
    requires IsRun(run, c, events) && Enabled(s, e) && run[0] == Next(s, c, e)
    ensures IsRun([s] + run, c, [e] + events)
  {
    hide Enabled, Next;
    var run', events' := [s] + run, [e] + events;
    forall i | 0 <= i < |events'| ensures Enabled(run'[i], events'[i]) && run'[i + 1] == Next(run'[i], c, events'[i]) {
      if 0 < i { assert run'[i] == run[i - 1] && run'[i + 1] == run[i] && events'[i] == events[i - 1]; }
    }
  }

  /** The bound on reads is not far from what happens: with never more than two reads queued, a write waits through any
      number of calls up to `writes_starved * fifo_batch`, for `writes_starved` as the code reads it. */
  lemma {:induction false} WritesWait(c: Config, n: nat) returns (run: seq<State>, events: seq<Event>)
    requires n <= c.Starve() * c.Batch()
    ensures IsRun(run, c, events) && Reached(run[0], c) && CountCalls(events) == n
    ensures forall i :: 0 <= i < |events| && events[i].Calls? ==> ServesRead(run[i], c)
    ensures forall i :: 0 <= i < |run| ==> |run[i].read.fifo| <= 2
  {
    hide Reached, IsRun, ServesRead, CountCalls;
    QueuedReached(c, 2);
    var s := Queued(c, 2);
    assert !Known(s, n + 2);
    AddToEmpty(s, c, true, n + 2, 0);
    ReachedNext(s, c, Adds(true, n + 2, 0));
    var u := Add(s, c, true, n + 2, 0);
    hide Add, Counted, Sectors, Dues, Light;
    assert Within(c, n);
    assert [] + Sectors(0, 2) == Sectors(0, 2) && Dues(0, 2, c.readExpire) + [] == Dues(0, 2, c.readExpire);
    run, events := ServeAll(u, c, 0, n);
    LightIs(run, c, events);
  }

  lemma {:induction false} LightIs(run: seq<State>, c: Config, events: seq<Event>)
    requires Light(run, c, events)
    ensures IsRun(run, c, events)
    ensures forall i :: 0 <= i < |events| && events[i].Calls? ==> ServesRead(run[i], c)
    ensures forall i :: 0 <= i < |run| ==> |run[i].read.fifo| <= 2
  {
  }

  lemma {:induction false} AddToEmpty(s: State, c: Config, w: bool, id: nat, sector: int)
    requires s.Get(w) == Lane([], [], None)
    ensures Add(s, c, w, id, sector) ==
            s.(nrSorted := s.nrSorted + 1).Set(w, Lane([Item(id, sector)], [Item(id, s.now + c.Expire(w))], None))
  {
  }

  // ---------------------------------------------------------------- Writes before expired reads

  /** An expired read is sent in time, in every stretch of every run. */
  ghost predicate ReadsServed(c: Config) {
    forall run: seq<State>, events: seq<Event>, h: nat ::
      && IsRun(run, c, events) && Reached(run[0], c) && Urgent(run[0], h)
      && 2 * c.Batch() + 1 + 2 * c.Batch() * Rivals(run[0].read.fifo, h) <= CountCalls(events)
      ==> Served(run, events, h)
  }

  /** It is exactly if `writes_starved` is not zero. At zero any waiting write goes first, and none of the reads. */
  lemma {:induction false} ReadsServedIff(c: Config)
    requires -0x8000_0000 <= c.writesStarved && 0 <= c.readExpire
    ensures ReadsServed(c) <==> c.writesStarved != 0
  {
    if c.writesStarved != 0 {
      hide Reached, Patience, Served, Rivals, Inv, CountCalls, Enabled, Next;
      forall run: seq<State>, events: seq<Event>, h: nat
        | && IsRun(run, c, events) && Reached(run[0], c) && Urgent(run[0], h)
          && 2 * c.Batch() + 1 + 2 * c.Batch() * Rivals(run[0].read.fifo, h) <= CountCalls(events)
        ensures Served(run, events, h)
      {
        ReachedOk(run[0], c);
        ExpiredReadServed(run, c, events, h);
      }
    } else {
      hide Reached, IsRun, Urgent, Served, CountCalls;
      var run, events := ReadWaits(c, 2 * c.Batch() + 1);
      Alone(Item(0, c.readExpire));
    }
  }

  lemma {:induction false} Alone(x: Item)
    ensures Find([x], x.id) == 0 && Rivals([x], x.id) == 0
  {
    assert Rank([x], x.key) == 1;
  }

  /** Read 0 waits alone, and the writes that have been sent are 1 to `k`. */
  ghost predicate Stalled(s: State, c: Config, k: nat) {
    && s.read == Lane([Item(0, 0)], [Item(0, c.readExpire)], None) && s.write == Lane([], [], None)
    && forall i :: 0 <= i < |s.sent| ==> 1 <= s.sent[i] <= k
  }

  lemma {:induction false} OnlyWrite(t: State, c: Config, id: nat)
    requires t.read.fifo != [] && t.read.next == None && c.Starve() == 0
    requires |t.write.sort| == |t.write.fifo| == 1 && t.write.sort[0].id == t.write.fifo[0].id == id
    requires t.write.next == None
    ensures Call(t, c).read == t.read && Call(t, c).write == Lane([], [], None) && Call(t, c).sent == t.sent + [id]
  {
    assert Choose(t, c) == Serve(true, id, 1, 0);
    assert Find(t.write.sort, id) == 0 && Find(t.write.fifo, id) == 0;
    assert Cut(t.write.sort, 0) == [] && Cut(t.write.fifo, 0) == [];
  }

  /** A write that comes is sent by the next call. */
  lemma {:induction false} Overtaken(s: State, c: Config, k: nat)
    requires Stalled(s, c, k) && c.Starve() == 0
    ensures var e := Adds(true, k + 1, 0);
            Enabled(s, e) && Next(s, c, e).sent == s.sent && Stalled(Call(Next(s, c, e), c), c, k + 1)
  {
    AddToEmpty(s, c, true, k + 1, 0);
    hide Add, Call, Find;
    OnlyWrite(Add(s, c, true, k + 1, 0), c, k + 1);
  }

  lemma {:induction false} OvertakenBy(s: State, c: Config, k: nat, n: nat)
    returns (run: seq<State>, events: seq<Event>)
    requires Stalled(s, c, k) && c.Starve() == 0
    ensures IsRun(run, c, events) && run[0] == s && CountCalls(events) == n && !Served(run, events, 0)
    decreases n
  {
    hide Call, Enabled, Next;
    if n == 0 {
      run, events := [s], [];
    } else {
      var e := Adds(true, k + 1, 0);
      Overtaken(s, c, k);
      var t := Next(s, c, e);
      NextCall(t, c);
      var rest, more := OvertakenBy(Call(t, c), c, k + 1, n - 1);
      RunCons(t, c, Calls, rest, more);
      RunCons(s, c, e, [t] + rest, [Calls] + more);
      NotYet(t, Calls, rest, more);
      NotYet(s, e, [t] + rest, [Calls] + more);
      run, events := [s] + ([t] + rest), [e] + ([Calls] + more);
      assert ([Calls] + more)[1..] == more;
      CountCons(e, [Calls] + more);
    }
  }

  lemma {:induction false} NotYet(s: State, e: Event, run: seq<State>, events: seq<Event>)
    requires |run| == |events| + 1 && !Served(run, events, 0) && 0 !in s.sent && !e.Joins?
    ensures !Served([s] + run, [e] + events, 0)
  {
    assert ([s] + run)[1..] == run && ([e] + events)[1..] == events;
  }

  /** With `writes_starved` zero an expired read, alone at the head, waits through any number of calls. */
  lemma {:induction false} ReadWaits(c: Config, n: nat) returns (run: seq<State>, events: seq<Event>)
    requires c.Starve() == 0
    ensures IsRun(run, c, events) && Reached(run[0], c) && Urgent(run[0], 0)
    ensures run[0].read.fifo == [Item(0, c.readExpire)]
    ensures CountCalls(events) == n && !Served(run, events, 0)
  {
    hide Reached, IsRun, CountCalls, Served;
    ReachedStart(c);
    AddToEmpty(START, c, false, 0, 0);
    ReachedNext(START, c, Adds(false, 0, 0));
    var d := if c.readExpire < 0 then 0 else c.readExpire + 1;
    ReachedNext(Add(START, c, false, 0, 0), c, Ticks(d));
    run, events := OvertakenBy(Add(START, c, false, 0, 0).(now := d), c, 0, n);
  }

  // ---------------------------------------------------------------- Absorbed at equal expiry

  /** Reads 0 to `m - 1` are queued, and read `m` right in front of read 0, all at once; then they expire. */
  function Crowd(c: Config, m: nat, now: int): State {
    State(Lane([Item(m, 0)] + Sectors(0, m), Dues(0, m, c.readExpire) + [Item(m, c.readExpire)], None),
          Lane([], [], None), 0, 0, m + 1, [], now)
  }

  lemma {:induction false} CrowdReached(c: Config, m: nat, d: nat)
    ensures Reached(Crowd(c, m, d), c)
  {
    hide Reached;
    QueuedReached(c, m);
    AddLast(c, m);
    var s := Queued(c, m);
    assert Slot(s.read.sort, 0) == 0 && Alias(s.read.sort, 0) == None;
    assert Put(s.read.sort, 0, Item(m, 0)) == [Item(m, 0)] + Sectors(0, m);
    assert Add(s, c, false, m, 0) == Crowd(c, m, 0);
    ReachedNext(s, c, Adds(false, m, 0));
    ReachedNext(Crowd(c, m, 0), c, Ticks(d));
  }

  /** Read `m` absorbs read 0, the head. */
  lemma {:induction false} CrowdJoins(c: Config, m: nat, now: int)
    requires 1 <= m && c.readExpire < now
    ensures var s, e := Crowd(c, m, now), Joins(false, m, 0);
            && Enabled(s, e) && Urgent(s, 0) && Find(s.read.fifo, 0) == 0
            && s.read.fifo[Find(s.read.fifo, m)].key == s.read.fifo[0].key
            && Left(Next(s, c, e), [Item(m, 0)], [Item(m, c.readExpire)], 1, m, c.readExpire)
            && Next(s, c, e).write.fifo == [] && Next(s, c, e).now == now && Next(s, c, e).sent == []
  {
    var s := Crowd(c, m, now);
    var a, f := s.read.sort, s.read.fifo;
    assert f[0] == Item(0, c.readExpire) && f[m] == Item(m, c.readExpire);
    assert forall i :: 0 <= i < m ==> f[i].id == i;
    assert a[0] == Item(m, 0) && a[1] == Item(0, 8);
    assert Find(f, 0) == 0 && Find(f, m) == m && Find(a, 0) == 1;
    assert Drop(a, 0) == [Item(m, 0)] + Sectors(1, m);
    assert Drop(f, 0) == Dues(1, m, c.readExpire) + [Item(m, c.readExpire)];
  }

  /** Without writes, each call sends the next expired read; the absorber at the end of the fifo and before all in
      sector order has to wait for them. */
  lemma {:induction false} CrowdCall(s: State, c: Config, t: nat, m: nat)
    requires Left(s, [Item(m, 0)], [Item(m, c.readExpire)], t, m, c.readExpire) && t < m
    requires s.write.fifo == [] && c.readExpire < s.now && m !in s.sent
    ensures var u := Call(s, c);
            && Left(u, [Item(m, 0)], [Item(m, c.readExpire)], t + 1, m, c.readExpire)
            && u.write.fifo == [] && u.now == s.now && m !in u.sent
  {
    assert s.read.fifo[0] == Item(t, c.readExpire);
    var r := Choose(s, c);
    assert !r.write && r.id == t;
    var s' := s.(batching := r.batching, starved := r.starved);
    SendNext(s', [Item(m, 0)], [Item(m, c.readExpire)], t, m, c.readExpire);
    MoveFields(s', false, t);
  }

  lemma {:induction false} CrowdCalls(s: State, c: Config, t: nat, m: nat) returns (run: seq<State>, events: seq<Event>)
    requires Left(s, [Item(m, 0)], [Item(m, c.readExpire)], t, m, c.readExpire) && t <= m
    requires s.write.fifo == [] && c.readExpire < s.now && m !in s.sent
    ensures IsRun(run, c, events) && run[0] == s && CountCalls(events) == m - t && !Served(run, events, m)
    ensures forall i :: 0 <= i < |events| ==> events[i] == Calls
    decreases m - t
  {
    hide Left, Call;
    if t == m {
      run, events := [s], [];
    } else {
      CrowdCall(s, c, t, m);
      NextCall(s, c);
      var rest, more := CrowdCalls(Call(s, c), c, t + 1, m);
      run, events := [s] + rest, [Calls] + more;
      assert events[1..] == more && run[1..] == rest;
      RunCons(s, c, Calls, rest, more);
    }
  }

  /** For every setting some run shows that the bound for the head is false when the head is absorbed at equal
      expiry: the absorber keeps its own place, because the comparison of expiry times is strict, and is not among the
      next `2 * fifo_batch + 1` requests sent. */
  lemma {:induction false} AbsorberFallsBehind(c: Config) returns (run: seq<State>, events: seq<Event>, h: nat)
    ensures IsRun(run, c, events) && Reached(run[0], c) && Urgent(run[0], h) && Find(run[0].read.fifo, h) == 0
    ensures CountCalls(events) == 2 * c.Batch() + 1 && !Served(run, events, h)
  {
    hide Reached, IsRun, Urgent, Left, CountCalls;
    var m, d := 2 * c.Batch() + 2, if c.readExpire < 0 then 0 else c.readExpire + 1;
    h := 0;
    CrowdReached(c, m, d);
    CrowdJoins(c, m, d);
    var s, e := Crowd(c, m, d), Joins(false, m, 0);
    var u := Next(s, c, e);
    var rest, more := CrowdCalls(u, c, 1, m);
    run, events := [s] + rest, [e] + more;
    RunCons(s, c, e, rest, more);
    assert events[1..] == more && run[1..] == rest;
    CountCons(e, more);
  }
}
