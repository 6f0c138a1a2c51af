/** The request allocator of block/blk-core.c: two classes of requests (sync and async), each with a count,
    a full flag, a starved flag and a queue of sleeping tasks. Each region under the queue lock is one step.
    What the elevator answers (`elv_may_queue`) and whether the process counts as a batcher (`ioc_batching`) are
    left open. */
module RequestPool {

  type Task = nat

  datatype Answer = No | May | Must

  /** One class. `filling` are tasks between being counted and getting their memory, `live` the requests in
      use; `woken` are tasks taken off the wait queue that have not retried yet. */
  datatype Class = Class(count: nat, starved: bool, full: bool, waiting: seq<Task>, woken: seq<Task>,
                         filling: seq<Task>, live: nat)

  /** `nr` is `nr_requests`. */
  datatype Pool = Pool(nr: nat, sync: Class, async: Class) {
    function Get(isSync: bool): Class { if isSync then sync else async }
    function Set(isSync: bool, c: Class): Pool { if isSync then Pool(nr, c, async) else Pool(nr, sync, c) }
  }

  function CongestionOn(nr: nat): nat {
    var n := nr - nr / 8 + 1;
    if n > nr then nr else n
  }

  function Without(ts: seq<Task>, t: Task): seq<Task> {
    if ts == [] then [] else if ts[0] == t then ts[1..] else [ts[0]] + Without(ts[1..], t)
  }

  // ---------------------------------------------------------------- Steps

  /** `get_request` stops because the queue is full and the process has no privilege. */
  predicate Refused(nr: nat, c: Class, answer: Answer, batcher: bool) {
    c.count + 1 >= CongestionOn(nr) && c.count + 1 >= nr && c.full && answer != Must && !batcher
  }

  predicate Granted(nr: nat, c: Class, answer: Answer, batcher: bool) {
    answer != No && !Refused(nr, c, answer, batcher) && c.count < 3 * nr / 2
  }

  /** The first locked region of `get_request` for task `t`, which was not waiting or has just been woken;
      if it gets nothing and may wait, it goes to sleep before the lock is dropped. */
  function Try(nr: nat, c: Class, t: Task, answer: Answer, batcher: bool, mayWait: bool): Class {
    var c1 := c.(woken := Without(c.woken, t),
                 full := c.full || (answer != No && c.count + 1 >= CongestionOn(nr) && c.count + 1 >= nr));
    if Granted(nr, c, answer, batcher) then c1.(count := c.count + 1, starved := false, filling := c.filling + [t])
    else
      var c2 := if answer == No && c.count == 0 then c1.(starved := true) else c1;
      if mayWait then c2.(waiting := c.waiting + [t]) else c2
  }

  /** `__freed_request`: wake one sleeper and clear the full flag if the count is low enough. */
  function Notice(nr: nat, c: Class): Class {
    if c.count + 1 <= nr then
      if c.waiting == [] then c.(full := false)
      else c.(full := false, waiting := c.waiting[1..], woken := c.woken + [c.waiting[0]])
    else c
  }

  /** `freed_request` for a class whose count has already been taken down. */
  function Freed(p: Pool, isSync: bool): Pool {
    var p1 := p.Set(isSync, Notice(p.nr, p.Get(isSync)));
    if p1.Get(!isSync).starved then p1.Set(!isSync, Notice(p.nr, p1.Get(!isSync))) else p1
  }

  function TryGet(p: Pool, isSync: bool, t: Task, answer: Answer, batcher: bool, mayWait: bool): Pool {
    p.Set(isSync, Try(p.nr, p.Get(isSync), t, answer, batcher, mayWait))
  }

  /** The memory for a counted request was there. */
  function Filled(p: Pool, isSync: bool, t: Task): Pool {
    var c := p.Get(isSync);
    p.Set(isSync, c.(filling := Without(c.filling, t), live := c.live + 1))
  }

  /** It was not: the count is taken back, and a class left with nothing is marked starved. */
  function Failed(p: Pool, isSync: bool, t: Task, mayWait: bool): Pool
    requires 0 < p.Get(isSync).count
  {
    var c := p.Get(isSync);
    var p1 := Freed(p.Set(isSync, c.(count := c.count - 1, filling := Without(c.filling, t))), isSync);
    var d := p1.Get(isSync);
    var d1 := if d.count == 0 then d.(starved := true) else d;
    p1.Set(isSync, if mayWait then d1.(waiting := d1.waiting + [t]) else d1)
  }

  /** A request in use is given back. */
  function Put(p: Pool, isSync: bool): Pool
    requires 0 < p.Get(isSync).count && 0 < p.Get(isSync).live
  {
    var c := p.Get(isSync);
    Freed(p.Set(isSync, c.(count := c.count - 1, live := c.live - 1)), isSync)
  }

  // ---------------------------------------------------------------- Invariant

  /** If a task sleeps, a request of its class is still counted, or the class is marked starved, or a woken
      task of the class has yet to retry. */
  predicate NoneForgotten(c: Class) {
    c.waiting != [] ==> 0 < c.count || c.starved || c.woken != []
  }

  predicate ClassOk(nr: nat, c: Class) {
    && c.count == |c.filling| + c.live
    && c.count <= 3 * nr / 2
    && (c.full <==> nr <= c.count)
    && NoneForgotten(c)
  }

  predicate Ok(p: Pool) { 1 <= p.nr && ClassOk(p.nr, p.sync) && ClassOk(p.nr, p.async) }

  lemma {:induction false} WithoutLength(ts: seq<Task>, t: Task)
    ensures |Without(ts, t)| == |ts| - if t in ts then 1 else 0
    ensures forall u :: u in ts && u != t ==> u in Without(ts, t)
  {
    if ts != [] && ts[0] != t { WithoutLength(ts[1..], t); }
  }

  datatype Event =
    | Ask(isSync: bool, task: Task, answer: Answer, batcher: bool, mayWait: bool)
    | Fill(isSync: bool, task: Task)
    | Fail(isSync: bool, task: Task, mayWait: bool)
    | Give(isSync: bool)

  predicate Enabled(p: Pool, e: Event) {
    match e
    case Ask(_, _, _, _, _) => true
    case Fill(k, t) => t in p.Get(k).filling
    case Fail(k, t, _) => t in p.Get(k).filling && 0 < p.Get(k).count
    case Give(k) => 0 < p.Get(k).live && 0 < p.Get(k).count
  }

  function Next(p: Pool, e: Event): Pool
    requires Enabled(p, e)
  {
    match e
    case Ask(k, t, answer, batcher, mayWait) => TryGet(p, k, t, answer, batcher, mayWait)
    case Fill(k, t) => Filled(p, k, t)
    case Fail(k, t, mayWait) => Failed(p, k, t, mayWait)
    case Give(k) => Put(p, k)
  }

  lemma {:induction false} TryOk(nr: nat, c: Class, t: Task, answer: Answer, batcher: bool, mayWait: bool)
    requires 1 <= nr && ClassOk(nr, c)
    ensures ClassOk(nr, Try(nr, c, t, answer, batcher, mayWait))
  {
  }

  /** A class whose count has just gone down is put right by `__freed_request`. */
  lemma {:induction false} NoticeOk(nr: nat, c: Class)
    requires 1 <= nr && c.count == |c.filling| + c.live && c.count <= 3 * nr / 2
    requires (c.full ==> nr <= c.count + 1) && (nr <= c.count ==> c.full)
    ensures ClassOk(nr, Notice(nr, c))
    ensures c.waiting != [] && c.count < nr ==> c.waiting[0] in Notice(nr, c).woken
  {
  }

  lemma {:induction false} FreedOk(p: Pool, k: bool)
    requires 1 <= p.nr && ClassOk(p.nr, p.Get(!k))
    requires var c := p.Get(k);
             && c.count == |c.filling| + c.live && c.count <= 3 * p.nr / 2
             && (c.full ==> p.nr <= c.count + 1) && (p.nr <= c.count ==> c.full)
    ensures Ok(Freed(p, k)) && Freed(p, k).Get(k) == Notice(p.nr, p.Get(k))
    ensures Freed(p, k).Get(!k) == if p.Get(!k).starved then Notice(p.nr, p.Get(!k)) else p.Get(!k)
  {
    NoticeOk(p.nr, p.Get(k));
    if p.Get(!k).starved { NoticeOk(p.nr, p.Get(!k)); }
  }

  lemma {:induction false} FailedOk(p: Pool, k: bool, t: Task, mayWait: bool)
    requires Ok(p) && t in p.Get(k).filling && 0 < p.Get(k).count
    ensures Ok(Failed(p, k, t, mayWait))
  {
    hide Freed, Notice;
    var c := p.Get(k);
    WithoutLength(c.filling, t);
    FreedOk(p.Set(k, c.(count := c.count - 1, filling := Without(c.filling, t))), k);
  }

  lemma {:induction false} PutOk(p: Pool, k: bool)
    requires Ok(p) && 0 < p.Get(k).live
    ensures 0 < p.Get(k).count && Ok(Put(p, k))
  {
    hide Freed, Notice;
    var c := p.Get(k);
    FreedOk(p.Set(k, c.(count := c.count - 1, live := c.live - 1)), k);
  }

  /** Who gets a request is a matter of counts: an ordinary task below `nr_requests`, a batching task or one the
      elevator insists on up to half as many again, nobody the elevator refuses. */
  predicate Served(nr: nat, count: nat, answer: Answer, batcher: bool) {
    match answer
    case No => false
    case May => count < if batcher then 3 * nr / 2 else nr
    case Must => count < 3 * nr / 2
  }

  lemma {:induction false} ServedIff(nr: nat, c: Class, t: Task, answer: Answer, batcher: bool, mayWait: bool)
    requires 1 <= nr && ClassOk(nr, c)
    ensures var d, served := Try(nr, c, t, answer, batcher, mayWait), Served(nr, c.count, answer, batcher);
            && d.count == c.count + (if served then 1 else 0) && d.live == c.live
            && d.filling == c.filling + (if served then [t] else [])
            && d.waiting == c.waiting + (if !served && mayWait then [t] else [])
            && |d.woken| == |c.woken| - (if t in c.woken then 1 else 0)
            && (d.full <==> nr <= d.count)
            && (d.starved <==> !served && (c.starved || (answer == No && c.count == 0)))
  {
    WithoutLength(c.woken, t);
    hide Without;
    assert c.filling + [] == c.filling && c.waiting + [] == c.waiting;
  }

  /** Every locked region of every task keeps the invariant, whatever the elevator answers, whoever counts as
      a batcher and whichever allocations fail. */
  lemma {:induction false} NextOk(p: Pool, e: Event)
    requires Ok(p) && Enabled(p, e)
    ensures Ok(Next(p, e)) && Next(p, e).nr == p.nr
  {
    hide ClassOk, Freed, Try, Without;
    match e
    case Ask(k, t, answer, batcher, mayWait) => TryOk(p.nr, p.Get(k), t, answer, batcher, mayWait);
    case Fill(k, t) => FilledOk(p, k, t);
    case Fail(k, t, mayWait) =>
      FailedOk(p, k, t, mayWait);
      FailedSize(p, k, t, mayWait);
    case Give(k) =>
      PutOk(p, k);
      PutSize(p, k);
  }

  lemma {:induction false} FilledOk(p: Pool, k: bool, t: Task)
    requires Ok(p) && t in p.Get(k).filling
    ensures Ok(Filled(p, k, t)) && Filled(p, k, t).nr == p.nr
  {
    WithoutLength(p.Get(k).filling, t);
  }

  /** A task that is setting up a request is counted. */
  lemma {:induction false} Counted(nr: nat, c: Class, t: Task)
    requires ClassOk(nr, c) && t in c.filling
    ensures 0 < c.count
  {
  }

  lemma {:induction false} FailedSize(p: Pool, k: bool, t: Task, mayWait: bool)
    requires 0 < p.Get(k).count
    ensures Failed(p, k, t, mayWait).nr == p.nr
  {
  }

  lemma {:induction false} PutSize(p: Pool, k: bool)
    requires 0 < p.Get(k).count && 0 < p.Get(k).live
    ensures Put(p, k).nr == p.nr
  {
  }

  // ---------------------------------------------------------------- Runs

  const IDLE := Class(0, false, false, [], [], [], 0)

  /** `run` is a run of the allocator: each state follows from the one before by an enabled event. */
  ghost predicate IsRun(nr: nat, run: seq<Pool>, events: seq<Event>) {
    && |run| == |events| + 1
    && run[0] == Pool(nr, IDLE, IDLE)
    && forall i :: 0 <= i < |events| ==> Enabled(run[i], events[i]) && run[i + 1] == Next(run[i], events[i])
  }

  /** No wake-up is lost and no class overshoots, in every state of every run. */
  lemma {:induction false} RunsAreOk(nr: nat, run: seq<Pool>, events: seq<Event>, i: nat)
    requires 1 <= nr && IsRun(nr, run, events) && i < |run|
    ensures Ok(run[i]) && run[i].nr == nr
  {
    if 0 < i {
      RunsAreOk(nr, run, events, i - 1);
      NextOk(run[i - 1], events[i - 1]);
    }
  }

  /** With no requests at all a sleeper is forgotten: nothing is counted, starved or woken. */
  lemma {:induction false} ZeroForgets(t: Task)
    ensures var p := Next(Pool(0, IDLE, IDLE), Ask(true, t, May, false, true));
            p.sync.waiting == [t] && !NoneForgotten(p.sync)
  {
  }

  /** So `nr_requests >= 1` is exactly what the wake-up guarantee needs. */
  lemma {:induction false} NeedsOneRequest(nr: nat)
    ensures 1 <= nr <==> forall run: seq<Pool>, events: seq<Event>, i: nat ::
                           IsRun(nr, run, events) && i < |run| ==>
                             NoneForgotten(run[i].sync) && NoneForgotten(run[i].async)
  {
    if 1 <= nr {
      forall run: seq<Pool>, events: seq<Event>, i: nat | IsRun(nr, run, events) && i < |run|
        ensures NoneForgotten(run[i].sync) && NoneForgotten(run[i].async)
      {
        RunsAreOk(nr, run, events, i);
      }
    } else {
      var e := Ask(true, 0, May, false, true);
      var p := Pool(0, IDLE, IDLE);
      ZeroForgets(0);
      assert IsRun(nr, [p, Next(p, e)], [e]);
      assert !NoneForgotten([p, Next(p, e)][1].sync);
    }
  }

  // ---------------------------------------------------------------- Wake-ups arrive

  /** Giving back `n` requests of one class, one after the other. */
  function Drain(p: Pool, k: bool, n: nat): Pool
    requires n <= p.Get(k).live && Ok(p)
    decreases n
  {
    if n == 0 then p
    else
      PutOk(p, k);
      PutLess(p, k);
      Drain(Put(p, k), k, n - 1)
  }

  lemma {:induction false} PutLess(p: Pool, k: bool)
    requires Ok(p) && 0 < p.Get(k).live && 0 < p.Get(k).count
    ensures var q := Put(p, k).Get(k);
            && q.live == p.Get(k).live - 1 && q.count == p.Get(k).count - 1 && q.filling == p.Get(k).filling
            && (p.Get(k).waiting != [] && p.Get(k).count <= p.nr ==> p.Get(k).waiting[0] in q.woken)
            && (q.waiting == p.Get(k).waiting || (p.Get(k).waiting != [] && p.Get(k).waiting[0] in q.woken))
            && (forall t :: t in p.Get(k).woken ==> t in q.woken)
  {
  }

  /** Woken tasks stay woken while requests are only given back. */
  lemma {:induction false} DrainKeepsWoken(p: Pool, k: bool, n: nat, t: Task)
    requires Ok(p) && n <= p.Get(k).live && t in p.Get(k).woken
    ensures t in Drain(p, k, n).Get(k).woken
    decreases n
  {
    if 0 < n {
      hide Put, Ok;
      PutOk(p, k);
      PutLess(p, k);
      DrainKeepsWoken(Put(p, k), k, n - 1, t);
    }
  }

  /** If requests of the class are out and none is being set up, then the first sleeper is woken at the latest
      when the last of them comes back. */
  lemma {:induction false} DrainWakes(p: Pool, k: bool)
    requires Ok(p) && p.Get(k).waiting != [] && p.Get(k).filling == [] && 0 < p.Get(k).live
    ensures p.Get(k).waiting[0] in Drain(p, k, p.Get(k).live).Get(k).woken
    decreases p.Get(k).live
  {
    var t := p.Get(k).waiting[0];
    PutOk(p, k);
    PutLess(p, k);
    var q := Put(p, k);
    PutSize(p, k);
    if t in q.Get(k).woken { DrainKeepsWoken(q, k, p.Get(k).live - 1, t); } else { DrainWakes(q, k); }
  }

  /** A starved class below the limit is served by the next request the other class gives back. */
  lemma {:induction false} OtherClassWakes(p: Pool, k: bool)
    requires Ok(p) && p.Get(k).waiting != [] && p.Get(k).starved && p.Get(k).count < p.nr && 0 < p.Get(!k).live
    ensures 0 < p.Get(!k).count && p.Get(k).waiting[0] in Put(p, !k).Get(k).woken
  {
    PutOk(p, !k);
    NoticeOk(p.nr, p.Get(k));
  }

  // ---------------------------------------------------------------- Wake-ups without a new request

  /** A run from `p` in which no task asks for a request. */
  ghost predicate Unasked(p: Pool, run: seq<Pool>, events: seq<Event>) {
    && |run| == |events| + 1 && run[0] == p
    && forall i :: 0 <= i < |events| ==>
       !events[i].Ask? && Enabled(run[i], events[i]) && run[i + 1] == Next(run[i], events[i])
  }

  /** Such a run has woken the first sleeper of class `k`. */
  ghost predicate Wakes(p: Pool, k: bool, run: seq<Pool>, events: seq<Event>) {
    && p.Get(k).waiting != [] && Unasked(p, run, events)
    && run[|run| - 1].Get(k).woken == p.Get(k).woken + [p.Get(k).waiting[0]]
  }

  /** A request of the class is counted, or the class is marked starved and one of the other class is. */
  predicate InSight(p: Pool, k: bool) { 0 < p.Get(k).count || (p.Get(k).starved && 0 < p.Get(!k).count) }

  /** Without that, nothing but a new request changes the class. */
  lemma {:induction false} OutOfSight(p: Pool, k: bool, e: Event)
    requires Ok(p) && !InSight(p, k) && !e.Ask? && Enabled(p, e)
    ensures Next(p, e).Get(k) == p.Get(k) && !InSight(Next(p, e), k)
  {
    hide Without, Notice;
    assert e.isSync == !k;
    assert !p.Get(k).starved;
  }

  lemma {:induction false} StaysAsleep(p: Pool, k: bool, run: seq<Pool>, events: seq<Event>, i: nat)
    requires Ok(p) && !InSight(p, k) && Unasked(p, run, events) && i < |run|
    ensures Ok(run[i]) && run[i].Get(k) == p.Get(k) && !InSight(run[i], k)
  {
    hide Ok, InSight, Next, Enabled;
    if 0 < i {
      StaysAsleep(p, k, run, events, i - 1);
      NextOk(run[i - 1], events[i - 1]);
      OutOfSight(run[i - 1], k, events[i - 1]);
    }
  }

  /** With it, the requests that are out wake the first sleeper when they come back. */
  lemma {:induction false} ComesBack(p: Pool, k: bool) returns (run: seq<Pool>, events: seq<Event>)
    requires Ok(p) && p.Get(k).waiting != [] && InSight(p, k)
    ensures Wakes(p, k, run, events)
    decreases p.Get(k).count + p.Get(!k).count, |p.Get(k).filling| + |p.Get(!k).filling|
  {
    var j := if 0 < p.Get(k).count then k else !k;
    var e := if p.Get(j).filling != [] then Fill(j, p.Get(j).filling[0]) else Give(j);
    var q := Next(p, e);
    NextOk(p, e);
    OneBack(p, k, j, e);
    hide Ok, Next, Enabled, InSight, Unasked;
    var rest, more := [q], [];
    assert Unasked(q, rest, more) by { UnaskedNone(q); }
    if q.Get(k).woken == p.Get(k).woken {
      rest, more := ComesBack(q, k);
    }
    run, events := [p] + rest, [e] + more;
    RunLength(q, rest, more);
    UnaskedMore(p, e, rest, more);
  }

  lemma {:induction false} UnaskedNone(p: Pool)
    ensures Unasked(p, [p], [])
  {
  }

  lemma {:induction false} UnaskedMore(p: Pool, e: Event, rest: seq<Pool>, more: seq<Event>)
    requires !e.Ask? && Enabled(p, e) && Unasked(Next(p, e), rest, more)
    ensures Unasked(p, [p] + rest, [e] + more)
  {
    hide Next, Enabled;
    var run, events := [p] + rest, [e] + more;
    forall i | 0 <= i < |events|
      ensures !events[i].Ask? && Enabled(run[i], events[i]) && run[i + 1] == Next(run[i], events[i])
    {
      if 0 < i { assert run[i] == rest[i - 1] && run[i + 1] == rest[i - 1 + 1] && events[i] == more[i - 1]; }
    }
  }

  /** One request set up or given back: the first sleeper is woken, or it can still be. */
  lemma {:induction false} OneBack(p: Pool, k: bool, j: bool, e: Event)
    requires Ok(p) && p.Get(k).waiting != [] && InSight(p, k) && j == if 0 < p.Get(k).count then k else !k
    requires e == if p.Get(j).filling != [] then Fill(j, p.Get(j).filling[0]) else Give(j)
    ensures Enabled(p, e)
    ensures var q := Next(p, e);
            || q.Get(k).woken == p.Get(k).woken + [p.Get(k).waiting[0]]
            || (&& q.Get(k).woken == p.Get(k).woken && q.Get(k).waiting == p.Get(k).waiting && InSight(q, k)
                && q.Get(k).count <= p.Get(k).count && q.Get(!k).count <= p.Get(!k).count
                && (q.Get(j).count < p.Get(j).count
                    || |q.Get(k).filling| + |q.Get(!k).filling| < |p.Get(k).filling| + |p.Get(!k).filling|))
  {
    WithoutLength(p.Get(j).filling, if p.Get(j).filling != [] then p.Get(j).filling[0] else 0);
    hide Without;
  }

  /** The first sleeper of a class can be woken without any task asking for a request exactly if a request of the class
      is counted, or the class is marked starved and one of the other class is counted. */
  lemma {:induction false} WakeIff(p: Pool, k: bool)
    requires Ok(p) && p.Get(k).waiting != []
    ensures (exists run: seq<Pool>, events: seq<Event> :: Wakes(p, k, run, events)) <==> InSight(p, k)
  {
    hide Ok, InSight, Unasked;
    if InSight(p, k) {
      var run, events := ComesBack(p, k);
    } else {
      forall run: seq<Pool>, events: seq<Event> ensures !Wakes(p, k, run, events) {
        if Wakes(p, k, run, events) {
          assert |run| == |events| + 1 by { RunLength(p, run, events); }
          StaysAsleep(p, k, run, events, |run| - 1);
        }
      }
    }
  }

  lemma {:induction false} RunLength(p: Pool, run: seq<Pool>, events: seq<Event>)
    requires Unasked(p, run, events)
    ensures |run| == |events| + 1
  {
  }

  /** An allocation that fails in an empty pool leaves such a sleeper: its class is marked starved, but no request is
      out that could notice, and only a new request helps. */
  lemma {:induction false} EmptyPoolSleeps(nr: nat, k: bool, t: Task)
    requires 1 <= nr
    ensures var ask, fail := Ask(k, t, May, false, true), Fail(k, t, true);
            var p0 := Pool(nr, IDLE, IDLE);
            var p1 := Next(p0, ask);
            && Enabled(p1, fail) && IsRun(nr, [p0, p1, Next(p1, fail)], [ask, fail])
            && var p2 := Next(p1, fail);
               && p2.Get(k).waiting == [t] && p2.Get(k).starved && NoneForgotten(p2.Get(k))
               && forall run: seq<Pool>, events: seq<Event> :: !Wakes(p2, k, run, events)
  {
    var ask, fail := Ask(k, t, May, false, true), Fail(k, t, true);
    var p0 := Pool(nr, IDLE, IDLE);
    var p1 := Next(p0, ask);
    var p2 := Next(p1, fail);
    assert IsRun(nr, [p0, p1, p2], [ask, fail]);
    RunsAreOk(nr, [p0, p1, p2], [ask, fail], 2);
    assert p2.Get(k).waiting == [t] && !InSight(p2, k);
    hide Ok, InSight, Wakes, Next, Enabled;
    WakeIff(p2, k);
  }

  // ---------------------------------------------------------------- The request list

  /** The locked half of `get_request` on one class. */
  method Decide(nr: nat, c: Class, t: Task, answer: Answer, batcher: bool, mayWait: bool)
    returns (granted: bool, r: Class)
    ensures r == Try(nr, c, t, answer, batcher, mayWait)
    ensures granted ==> r.count == c.count + 1 && t in r.filling && !r.starved
    ensures !granted ==> r.count == c.count && (mayWait ==> t in r.waiting)
    ensures answer == Must && c.count < 3 * nr / 2 ==> granted
    ensures 1 <= nr && ClassOk(nr, c) ==> (granted <==> Served(nr, c.count, answer, batcher))
  {
    if 1 <= nr && ClassOk(nr, c) { ServedIff(nr, c, t, answer, batcher, mayWait); }
    hide Without;
    r := c.(woken := Without(c.woken, t));
    granted := false;
    if answer == No {
      if r.count == 0 { r := r.(starved := true); }
    } else {
      var blocked := false;
      if r.count + 1 >= CongestionOn(nr) {
        if r.count + 1 >= nr {
          if !r.full { r := r.(full := true); } else if answer != Must && !batcher { blocked := true; }
        }
      }
      if !blocked && r.count < 3 * nr / 2 {
        r := r.(count := r.count + 1, starved := false, filling := r.filling + [t]);
        granted := true;
      }
    }
    if !granted && mayWait { r := r.(waiting := r.waiting + [t]); }
  }

  /** `struct request_list` and the queue fields beside it. */
  class RequestList {
    var nr: nat
    var sync: Class
    var async: Class

    ghost function View(): Pool
      reads this
    {
      Pool(nr, sync, async)
    }

    function Of(isSync: bool): Class
      reads this
    {
      if isSync then sync else async
    }

    constructor (n: nat)
      ensures View() == Pool(n, IDLE, IDLE)
      ensures 1 <= n ==> Ok(View())
    {
      nr, sync, async := n, IDLE, IDLE;
    }

    method Store(isSync: bool, c: Class)
      modifies this
      ensures View() == old(View()).Set(isSync, c)
    {
      if isSync { sync := c; } else { async := c; }
    }

    /** `__freed_request`. */
    method Notify(isSync: bool)
      modifies this
      ensures View() == old(View()).Set(isSync, Notice(old(nr), old(Of(isSync))))
      ensures old(Of(isSync)).waiting != [] && old(Of(isSync)).count < nr ==>
                old(Of(isSync)).waiting[0] in Of(isSync).woken
    {
      var c := Of(isSync);
      if c.count + 1 <= nr {
        if c.waiting != [] {
          c := c.(woken := c.woken + [c.waiting[0]], waiting := c.waiting[1..]);
        }
        Store(isSync, c.(full := false));
      }
    }

    /** `freed_request` for a request in use. */
    method FreedRequest(isSync: bool)
      requires Ok(View()) && 0 < Of(isSync).live
      modifies this
      ensures old(0 < View().Get(isSync).count) && View() == old(Put(View(), isSync)) && Ok(View())
    {
      PutOk(View(), isSync);
      var c := Of(isSync);
      Store(isSync, c.(count := c.count - 1, live := c.live - 1));
      Notify(isSync);
      if Of(!isSync).starved { Notify(!isSync); }
    }

    /** The locked half of `get_request`, and the move to the wait queue in `get_request_wait` when it gets
        nothing. */
    method GetRequest(isSync: bool, t: Task, answer: Answer, batcher: bool, mayWait: bool) returns (granted: bool)
      requires Ok(View())
      modifies this
      ensures View() == TryGet(old(View()), isSync, t, answer, batcher, mayWait) && Ok(View())
      ensures granted ==> Of(isSync).count == old(Of(isSync)).count + 1 && t in Of(isSync).filling
      ensures !granted ==> Of(isSync).count == old(Of(isSync)).count
      ensures !granted && mayWait ==> t in Of(isSync).waiting
      ensures granted <==> Served(nr, old(Of(isSync)).count, answer, batcher)
    {
      hide ClassOk, Without, Try;
      TryOk(nr, Of(isSync), t, answer, batcher, mayWait);
      var c: Class;
      granted, c := Decide(nr, Of(isSync), t, answer, batcher, mayWait);
      Store(isSync, c);
    }

    /** The failure path of `get_request` after `blk_alloc_request` returned nothing. */
    method AllocFailed(isSync: bool, t: Task, mayWait: bool)
      requires Ok(View()) && t in Of(isSync).filling
      modifies this
      ensures old(0 < View().Get(isSync).count) && View() == old(Failed(View(), isSync, t, mayWait)) && Ok(View())
    {
      hide ClassOk, Without, Notice;
      Counted(nr, Of(isSync), t);
      FailedOk(View(), isSync, t, mayWait);
      var c := Of(isSync);
      Store(isSync, c.(count := c.count - 1, filling := Without(c.filling, t)));
      Notify(isSync);
      if Of(!isSync).starved { Notify(!isSync); }
      c := Of(isSync);
      if c.count == 0 { c := c.(starved := true); }
      if mayWait { c := c.(waiting := c.waiting + [t]); }
      Store(isSync, c);
    }
  }
}
