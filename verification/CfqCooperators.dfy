/** Cooperating sync queues of block/cfq-iosched.c. A queue may be scheduled to merge into another one
    (`new_cfqq`); io contexts reach their queue through such links one hop at a time, and every queue on
    the way holds a reference for each of them. Freed memory may be reused: a queue that no io context
    reaches any more may keep a link to a queue that is gone. Several tasks may share an io context, and a task that
    allocates a queue for it may drop the queue lock meanwhile. */
module CfqCooperators {

  import opened Common

  type QueueId = nat

  /** `ref`, `allocated[READ]`, `allocated[WRITE]` and `new_cfqq`. */
  datatype Queue = Queue(ref: nat, readAlloc: nat, writeAlloc: nat, link: Option<QueueId>)

  /** What a request in flight was allocated from. */
  datatype Grant = Grant(queue: QueueId, write: bool)

  /** The live queues, each io context's sync queue, and each request's queue and direction. `owners[t]` is the io
      context of task `t`; the tasks in `asleep` have dropped the lock to allocate a queue for theirs. */
  datatype State = State(queues: map<QueueId, Queue>, contexts: seq<Option<QueueId>>, requests: seq<Option<Grant>>,
                         owners: seq<nat>, asleep: set<nat>)

  // ---------------------------------------------------------------- Counting

  /** How many of the paths pass through a queue. */
  ghost function Through(paths: seq<seq<QueueId>>, q: QueueId): nat {
    if paths == [] then 0 else (if q in paths[0] then 1 else 0) + Through(paths[1..], q)
  }

  lemma {:induction false} ThroughUpdate(paths: seq<seq<QueueId>>, c: nat, path: seq<QueueId>, q: QueueId)
    requires c < |paths|
    ensures Through(paths[c := path], q) ==
            Through(paths, q) - (if q in paths[c] then 1 else 0) + if q in path then 1 else 0
    ensures q in paths[c] ==> 1 <= Through(paths, q)
  {
    if c == 0 {
      assert paths[c := path][1..] == paths[1..];
    } else {
      assert paths[c := path][1..] == paths[1..][c - 1 := path];
      ThroughUpdate(paths[1..], c - 1, path, q);
    }
  }

  lemma {:induction false} ThroughTwo(paths: seq<seq<QueueId>>, c: nat, d: nat, q: QueueId)
    requires c < |paths| && d < |paths| && c != d && q in paths[c] && q in paths[d]
    ensures 2 <= Through(paths, q)
  {
    ThroughUpdate(paths, c, [], q);
    ThroughUpdate(paths[c := []], d, [], q);
  }

  lemma {:induction false} ThroughSome(paths: seq<seq<QueueId>>, q: QueueId) returns (c: nat)
    requires 1 <= Through(paths, q)
    ensures c < |paths| && q in paths[c]
  {
    if q in paths[0] {
      c := 0;
    } else {
      c := ThroughSome(paths[1..], q);
      c := c + 1;
    }
  }

  lemma {:induction false} ThroughNone(paths: seq<seq<QueueId>>, q: QueueId)
    requires forall c :: 0 <= c < |paths| ==> q !in paths[c]
    ensures Through(paths, q) == 0
  {
    if paths != [] {
      assert q !in paths[0];
      assert forall c :: 0 <= c < |paths| - 1 ==> paths[1..][c] == paths[c + 1];
      ThroughNone(paths[1..], q);
    }
  }

  /** How many requests in flight hold a given grant. */
  ghost function Holders(requests: seq<Option<Grant>>, g: Grant): nat {
    if requests == [] then 0 else (if requests[0] == Some(g) then 1 else 0) + Holders(requests[1..], g)
  }

  lemma {:induction false} HoldersUpdate(requests: seq<Option<Grant>>, r: nat, o: Option<Grant>, g: Grant)
    requires r < |requests|
    ensures Holders(requests[r := o], g) ==
            Holders(requests, g) - (if requests[r] == Some(g) then 1 else 0) + if o == Some(g) then 1 else 0
    ensures requests[r] == Some(g) ==> 1 <= Holders(requests, g)
  {
    if r == 0 {
      assert requests[r := o][1..] == requests[1..];
    } else {
      assert requests[r := o][1..] == requests[1..][r - 1 := o];
      HoldersUpdate(requests[1..], r - 1, o, g);
    }
  }

  lemma {:induction false} HoldersNone(requests: seq<Option<Grant>>, g: Grant)
    requires forall r :: 0 <= r < |requests| ==> requests[r] != Some(g)
    ensures Holders(requests, g) == 0
  {
    if requests != [] {
      assert requests[0] != Some(g);
      assert forall r :: 0 <= r < |requests| - 1 ==> requests[1..][r] == requests[r + 1];
      HoldersNone(requests[1..], g);
    }
  }

  // ---------------------------------------------------------------- Chains and their references

  ghost predicate Distinct(path: seq<QueueId>) {
    forall i, j :: 0 <= i < j < |path| ==> path[i] != path[j]
  }

  /** `path` is what following the links from a context's queue visits: live queues only, each once;
      nothing if the context has no queue. */
  ghost predicate IsChain(queues: map<QueueId, Queue>, start: Option<QueueId>, path: seq<QueueId>) {
    if start.None? then path == []
    else
      && path != [] && path[0] == start.value && Distinct(path)
      && (forall i :: 0 <= i < |path| ==> path[i] in queues)
      && (forall i :: 0 <= i < |path| - 1 ==> queues[path[i]].link == Some(path[i + 1]))
      && queues[path[|path| - 1]].link == None
  }

  function ProcessRefs(x: Queue): int { x.ref - (x.readAlloc + x.writeAlloc) }

  ghost predicate QueueOk(x: Queue, q: QueueId, paths: seq<seq<QueueId>>, requests: seq<Option<Grant>>) {
    && x.readAlloc == Holders(requests, Grant(q, false))
    && x.writeAlloc == Holders(requests, Grant(q, true))
    && Through(paths, q) <= ProcessRefs(x)
    && 0 < x.ref
  }

  ghost predicate ChainsOk(s: State, paths: seq<seq<QueueId>>) {
    |paths| == |s.contexts| && forall c :: 0 <= c < |paths| ==> IsChain(s.queues, s.contexts[c], paths[c])
  }

  ghost predicate RefsOk(s: State, paths: seq<seq<QueueId>>) {
    forall q :: q in s.queues ==> QueueOk(s.queues[q], q, paths, s.requests)
  }

  ghost predicate GrantsOk(s: State) {
    forall r :: 0 <= r < |s.requests| && s.requests[r].Some? ==> s.requests[r].value.queue in s.queues
  }

  /** The books of a state, given where each context's chain leads. */
  ghost predicate Inv(s: State, paths: seq<seq<QueueId>>) {
    ChainsOk(s, paths) && RefsOk(s, paths) && GrantsOk(s)
  }

  /** The process references of a queue that belong to no context whose chain passes through it. */
  ghost function Over(s: State, paths: seq<seq<QueueId>>, q: QueueId): int {
    if q in s.queues then ProcessRefs(s.queues[q]) - Through(paths, q) else 0
  }

  /** The process references of every queue are the contexts whose chain passes through it. */
  ghost predicate Even(s: State, paths: seq<seq<QueueId>>) {
    forall q :: q in s.queues ==> ProcessRefs(s.queues[q]) == Through(paths, q)
  }

  /** No queue gains or loses references that belong to no context. */
  ghost predicate SameOver(s: State, paths: seq<seq<QueueId>>, s': State, paths': seq<seq<QueueId>>) {
    forall q :: Over(s', paths', q) == Over(s, paths, q)
  }

  lemma {:induction false} EvenIsNoneOver(s: State, paths: seq<seq<QueueId>>)
    ensures Even(s, paths) <==> forall q :: Over(s, paths, q) == 0
  {
    if Even(s, paths) {
      forall q ensures Over(s, paths, q) == 0 {}
    }
    if forall q :: Over(s, paths, q) == 0 {
      forall q | q in s.queues ensures ProcessRefs(s.queues[q]) == Through(paths, q) {
        assert Over(s, paths, q) == 0;
      }
    }
  }

  lemma {:induction false} OverPositive(s: State, paths: seq<seq<QueueId>>, q: QueueId)
    requires RefsOk(s, paths)
    ensures 0 <= Over(s, paths, q)
  {
    if q in s.queues { assert QueueOk(s.queues[q], q, paths, s.requests); }
  }

  /** Following links from a queue leads to one place only. */
  lemma {:induction false} ChainUnique(queues: map<QueueId, Queue>, start: Option<QueueId>, p: seq<QueueId>,
                                       p': seq<QueueId>)
    requires IsChain(queues, start, p) && IsChain(queues, start, p')
    ensures p == p'
  {
    if start.Some? {
      ChainPrefix(queues, start, p, p', if |p| < |p'| then |p| else |p'|);
    }
  }

  lemma {:induction false} ChainPrefix(queues: map<QueueId, Queue>, start: Option<QueueId>, p: seq<QueueId>,
                                       p': seq<QueueId>, n: nat)
    requires start.Some? && IsChain(queues, start, p) && IsChain(queues, start, p') && 1 <= n <= |p| && n <= |p'|
    ensures p[..n] == p'[..n]
    ensures n == |p| <==> n == |p'|
  {
    if n > 1 {
      ChainPrefix(queues, start, p, p', n - 1);
      assert p[n - 2] == p[..n - 1][n - 2] == p'[..n - 1][n - 2] == p'[n - 2];
      assert p[n - 1] == p'[n - 1];
    }
    assert p[n - 1] == p'[n - 1];
    if n < |p| { assert queues[p[n - 1]].link == Some(p[n - 1 + 1]); }
    if n < |p'| { assert queues[p'[n - 1]].link == Some(p'[n - 1 + 1]); }
  }

  /** Chains depend on nothing but the links of the queues they visit. */
  lemma {:induction false} ChainFrame(queues: map<QueueId, Queue>, queues': map<QueueId, Queue>, start: Option<QueueId>,
                                      path: seq<QueueId>)
    requires IsChain(queues, start, path)
    requires forall i :: 0 <= i < |path| ==> path[i] in queues' && queues'[path[i]].link == queues[path[i]].link
    ensures IsChain(queues', start, path)
  {
  }

  // ---------------------------------------------------------------- Steps

  function Put(queues: map<QueueId, Queue>, q: QueueId): map<QueueId, Queue>
    requires q in queues && 0 < queues[q].ref
  {
    if queues[q].ref == 1 then queues - {q} else queues[q := queues[q].(ref := queues[q].ref - 1)]
  }

  /** A context that had no queue gets a new one. */
  function Attach(s: State, c: nat, q: QueueId): State
    requires c < |s.contexts|
  {
    s.(queues := s.queues[q := Queue(1, 0, 0, None)], contexts := s.contexts[c := Some(q)])
  }

  /** A context that already has a queue takes one more reference on it. */
  function Again(s: State, c: nat): State
    requires c < |s.contexts| && s.contexts[c].Some? && s.contexts[c].value in s.queues
  {
    var q := s.contexts[c].value;
    s.(queues := s.queues[q := s.queues[q].(ref := s.queues[q].ref + 1)])
  }

  /** `from`, the end of its chain, is scheduled to merge into `to`, the end of another. */
  function Link(s: State, from: QueueId, to: QueueId): State
    requires from in s.queues && to in s.queues && 0 <= ProcessRefs(s.queues[from])
  {
    var t := s.queues[to].(ref := s.queues[to].ref + ProcessRefs(s.queues[from]));
    s.(queues := s.queues[to := t][from := s.queues[from].(link := Some(to))])
  }

  /** A context follows one link and gives up its reference on the queue it left. */
  function Hop(s: State, c: nat): State
    requires c < |s.contexts| && s.contexts[c].Some? && s.contexts[c].value in s.queues
    requires var x := s.queues[s.contexts[c].value]; x.link.Some? && 0 < x.ref
  {
    var q := s.contexts[c].value;
    s.(queues := Put(s.queues, q), contexts := s.contexts[c := s.queues[q].link])
  }

  function Grab(s: State, r: nat, q: QueueId, write: bool): State
    requires q in s.queues && r < |s.requests|
  {
    var x := s.queues[q];
    var x' := if write then x.(ref := x.ref + 1, writeAlloc := x.writeAlloc + 1)
              else x.(ref := x.ref + 1, readAlloc := x.readAlloc + 1);
    s.(queues := s.queues[q := x'], requests := s.requests[r := Some(Grant(q, write))])
  }

  predicate Releasable(s: State, r: nat) {
    && r < |s.requests| && s.requests[r].Some? && s.requests[r].value.queue in s.queues
    && var g := s.requests[r].value; var x := s.queues[g.queue];
       0 < x.ref && 0 < if g.write then x.writeAlloc else x.readAlloc
  }

  function Release(s: State, r: nat): State
    requires Releasable(s, r)
  {
    var g := s.requests[r].value;
    var x := s.queues[g.queue];
    var x' := if g.write then x.(writeAlloc := x.writeAlloc - 1) else x.(readAlloc := x.readAlloc - 1);
    s.(queues := Put(s.queues[g.queue := x'], g.queue), requests := s.requests[r := None])
  }

  // ---------------------------------------------------------------- Each step keeps the books

  lemma {:induction false} AttachKeeps(s: State, paths: seq<seq<QueueId>>, c: nat, q: QueueId)
    requires Inv(s, paths) && c < |s.contexts| && s.contexts[c].None? && q !in s.queues
    ensures Inv(Attach(s, c, q), paths[c := [q]]) && SameOver(s, paths, Attach(s, c, q), paths[c := [q]])
  {
    var s', paths' := Attach(s, c, q), paths[c := [q]];
    forall d | 0 <= d < |paths| && d != c ensures IsChain(s'.queues, s'.contexts[d], paths'[d]) && q !in paths[d] {
      ChainFrame(s.queues, s'.queues, s.contexts[d], paths[d]);
    }
    hide IsChain;
    assert paths[c] == [] by { EmptyChain(s, paths, c); }
    ThroughUpdate(paths, c, [q], q);
    ThroughNone(paths, q);
    HoldersNone(s.requests, Grant(q, false));
    HoldersNone(s.requests, Grant(q, true));
    forall x
      ensures Over(s', paths', x) == Over(s, paths, x)
              && (x in s'.queues ==> QueueOk(s'.queues[x], x, paths', s.requests))
    {
      ThroughUpdate(paths, c, [q], x);
    }
  }

  /** One more reference for a context that is already counted belongs to nobody. */
  lemma {:induction false} AgainKeeps(s: State, paths: seq<seq<QueueId>>, c: nat)
    requires Inv(s, paths) && c < |s.contexts| && s.contexts[c].Some?
    ensures s.contexts[c].value in s.queues
    ensures Inv(Again(s, c), paths)
    ensures forall q :: Over(Again(s, c), paths, q) == Over(s, paths, q) + if q == s.contexts[c].value then 1 else 0
  {
    assert IsChain(s.queues, s.contexts[c], paths[c]);
    var s' := Again(s, c);
    forall d | 0 <= d < |paths| ensures IsChain(s'.queues, s'.contexts[d], paths[d]) {
      ChainFrame(s.queues, s'.queues, s.contexts[d], paths[d]);
    }
    hide IsChain;
    forall x | x in s'.queues ensures QueueOk(s'.queues[x], x, paths, s.requests) {
      assert QueueOk(s.queues[x], x, paths, s.requests);
    }
  }

  lemma {:induction false} EmptyChain(s: State, paths: seq<seq<QueueId>>, c: nat)
    requires ChainsOk(s, paths) && c < |s.contexts| && s.contexts[c].None?
    ensures paths[c] == []
  {
  }

  /** A queue losing the reference one context held: it goes if that was the last, and then no other
      chain and no request needs it. */
  lemma {:induction false} PutKeeps(s: State, paths: seq<seq<QueueId>>, c: nat, q: QueueId)
    requires Inv(s, paths) && c < |paths| && q in paths[c]
    ensures q in s.queues && 0 < s.queues[q].ref
    ensures s.queues[q].ref == 1 ==> Through(paths, q) == 1 && Over(s, paths, q) == 0
    ensures s.queues[q].ref == 1 ==> forall d :: 0 <= d < |paths| && d != c ==> q !in paths[d]
    ensures s.queues[q].ref == 1 ==>
              forall r :: 0 <= r < |s.requests| && s.requests[r].Some? ==> s.requests[r].value.queue != q
  {
    assert q in s.queues by { assert IsChain(s.queues, s.contexts[c], paths[c]); }
    assert QueueOk(s.queues[q], q, paths, s.requests);
    hide ChainsOk, RefsOk;
    ThroughUpdate(paths, c, [], q);
    if s.queues[q].ref == 1 {
      forall d | 0 <= d < |paths| && d != c ensures q !in paths[d] {
        if q in paths[d] { ThroughTwo(paths, c, d, q); }
      }
      forall r | 0 <= r < |s.requests| && s.requests[r].Some? ensures s.requests[r].value.queue != q {
        var g := s.requests[r].value;
        assert g.queue == q ==> g == Grant(q, g.write);
        HoldersUpdate(s.requests, r, None, Grant(q, false));
        HoldersUpdate(s.requests, r, None, Grant(q, true));
      }
    }
  }

  lemma {:induction false} HopKeeps(s: State, paths: seq<seq<QueueId>>, c: nat)
    requires Inv(s, paths) && c < |s.contexts| && s.contexts[c].Some? && s.contexts[c].value in s.queues
    requires s.queues[s.contexts[c].value].link.Some?
    ensures 1 < |paths[c]| && 0 < s.queues[s.contexts[c].value].ref
    ensures Inv(Hop(s, c), paths[c := paths[c][1..]])
    ensures SameOver(s, paths, Hop(s, c), paths[c := paths[c][1..]])
  {
    var q, path := s.contexts[c].value, paths[c];
    assert IsChain(s.queues, s.contexts[c], path);
    PutKeeps(s, paths, c, q);
    var s', paths' := Hop(s, c), paths[c := path[1..]];
    assert q !in path[1..] && forall x :: x in path && x != q ==> x in path[1..];
    forall d | 0 <= d < |paths'| ensures IsChain(s'.queues, s'.contexts[d], paths'[d]) {
      if d == c {
        assert s.queues[path[0]].link == Some(path[1]);
        HopChain(s.queues, s'.queues, path);
      } else {
        ChainFrame(s.queues, s'.queues, s.contexts[d], paths[d]);
      }
    }
    hide IsChain;
    forall x
      ensures Over(s', paths', x) == Over(s, paths, x)
              && (x in s'.queues ==> QueueOk(s'.queues[x], x, paths', s.requests))
    {
      ThroughUpdate(paths, c, path[1..], x);
      assert x in s.queues ==> QueueOk(s.queues[x], x, paths, s.requests);
    }
  }

  lemma {:induction false} HopChain(queues: map<QueueId, Queue>, queues': map<QueueId, Queue>, path: seq<QueueId>)
    requires 1 < |path| && IsChain(queues, Some(path[0]), path)
    requires forall i :: 1 <= i < |path| ==> path[i] in queues' && queues'[path[i]].link == queues[path[i]].link
    ensures IsChain(queues', Some(path[1]), path[1..])
  {
  }

  /** Every queue of `path` loses one reference; those that had no other are freed. */
  function PutAll(queues: map<QueueId, Queue>, path: seq<QueueId>): map<QueueId, Queue>
    requires forall q :: q in path && q in queues ==> 0 < queues[q].ref
  {
    map q | q in queues && !(q in path && queues[q].ref == 1) ::
      if q in path then queues[q].(ref := queues[q].ref - 1) else queues[q]
  }

  lemma {:induction false} PutOneMore(queues: map<QueueId, Queue>, path: seq<QueueId>, q: QueueId)
    requires forall x :: x in path && x in queues ==> 0 < queues[x].ref
    requires q in queues && q !in path && 0 < queues[q].ref
    ensures q in PutAll(queues, path) && PutAll(queues, path)[q] == queues[q]
    ensures Put(PutAll(queues, path), q) == PutAll(queues, path + [q]) == PutAll(queues, [q] + path)
  {
  }

  lemma {:induction false} PutAllLinks(queues: map<QueueId, Queue>, path: seq<QueueId>)
    requires forall q :: q in path && q in queues ==> 0 < queues[q].ref
    ensures FewerLinks(queues, PutAll(queues, path))
  {
  }

  lemma {:induction false} PathStart(s: State, paths: seq<seq<QueueId>>, c: nat)
    requires Inv(s, paths) && c < |s.contexts| && s.contexts[c].Some?
    ensures c < |paths| && paths[c] != [] && paths[c][0] == s.contexts[c].value && paths[c][0] !in paths[c][1..]
    ensures paths[c][0] in s.queues
  {
    hide RefsOk, GrantsOk;
    assert IsChain(s.queues, s.contexts[c], paths[c]);
    HeadOfChain(s.queues, s.contexts[c].value, paths[c]);
  }

  /** A context gives up its queue and every queue its chain was heading for. */
  function Drop(s: State, c: nat, path: seq<QueueId>): State
    requires c < |s.contexts| && forall q :: q in path && q in s.queues ==> 0 < s.queues[q].ref
  {
    s.(queues := PutAll(s.queues, path), contexts := s.contexts[c := None])
  }

  lemma {:induction false} PathLive(s: State, paths: seq<seq<QueueId>>, c: nat)
    requires Inv(s, paths) && c < |paths|
    ensures forall q :: q in paths[c] ==> q in s.queues && 0 < s.queues[q].ref
  {
    forall q | q in paths[c] ensures q in s.queues && 0 < s.queues[q].ref {
      PutKeeps(s, paths, c, q);
    }
  }

  lemma {:induction false} DropKeeps(s: State, paths: seq<seq<QueueId>>, c: nat)
    requires Inv(s, paths) && c < |paths|
    ensures forall q :: q in paths[c] ==> q in s.queues && 0 < s.queues[q].ref
    ensures Inv(Drop(s, c, paths[c]), paths[c := []]) && SameOver(s, paths, Drop(s, c, paths[c]), paths[c := []])
  {
    PathLive(s, paths, c);
    var path := paths[c];
    var s', paths' := Drop(s, c, path), paths[c := []];
    forall d | 0 <= d < |paths| && d != c ensures IsChain(s'.queues, s'.contexts[d], paths[d]) {
      forall i | 0 <= i < |paths[d]|
        ensures paths[d][i] in s'.queues && s'.queues[paths[d][i]].link == s.queues[paths[d][i]].link
      {
        var x := paths[d][i];
        if x in path { PutKeeps(s, paths, c, x); }
        assert IsChain(s.queues, s.contexts[d], paths[d]);
      }
      ChainFrame(s.queues, s'.queues, s.contexts[d], paths[d]);
    }
    hide IsChain;
    forall x
      ensures Over(s', paths', x) == Over(s, paths, x)
              && (x in s'.queues ==> QueueOk(s'.queues[x], x, paths', s.requests))
    {
      ThroughUpdate(paths, c, [], x);
      if x in path { PutKeeps(s, paths, c, x); }
      assert x in s.queues ==> QueueOk(s.queues[x], x, paths, s.requests);
    }
    forall r | 0 <= r < |s.requests| && s.requests[r].Some? ensures s.requests[r].value.queue in s'.queues {
      var q := s.requests[r].value.queue;
      if q in path { PutKeeps(s, paths, c, q); }
    }
  }

  /** The chains after `from` has been linked to `to`. */
  ghost function Relinked(paths: seq<seq<QueueId>>, from: QueueId, to: QueueId): (r: seq<seq<QueueId>>)
    ensures |r| == |paths|
    ensures forall c :: 0 <= c < |paths| ==> r[c] == if from in paths[c] then paths[c] + [to] else paths[c]
  {
    seq(|paths|, c requires 0 <= c < |paths| => if from in paths[c] then paths[c] + [to] else paths[c])
  }

  lemma {:induction false} ThroughRelinked(paths: seq<seq<QueueId>>, from: QueueId, to: QueueId, q: QueueId)
    requires forall c :: 0 <= c < |paths| ==> !(from in paths[c] && to in paths[c])
    ensures Through(Relinked(paths, from, to), q) == Through(paths, q) + if q == to then Through(paths, from) else 0
  {
    if paths != [] {
      var r := Relinked(paths, from, to);
      assert forall c :: 0 <= c < |paths| - 1 ==> paths[1..][c] == paths[c + 1];
      ThroughRelinked(paths[1..], from, to, q);
      assert r[1..] == Relinked(paths[1..], from, to);
      assert !(from in paths[0] && to in paths[0]);
    }
  }

  /** A queue without a link can only be the end of a chain. */
  lemma {:induction false} OnlyAtEnd(queues: map<QueueId, Queue>, start: Option<QueueId>, path: seq<QueueId>,
                                     q: QueueId)
    requires IsChain(queues, start, path) && q in path && queues[q].link == None
    ensures path[|path| - 1] == q
  {
    forall k | 0 <= k < |path| - 1 ensures path[k] != q {
      assert queues[path[k]].link == Some(path[k + 1]);
    }
    var i :| 0 <= i < |path| && path[i] == q;
  }

  ghost predicate Linkable(s: State, from: QueueId, to: QueueId) {
    && from != to && from in s.queues && to in s.queues
    && s.queues[from].link == None && s.queues[to].link == None
    && 0 < ProcessRefs(s.queues[from]) && 0 < ProcessRefs(s.queues[to])
  }

  lemma {:induction false} LinkKeeps(s: State, paths: seq<seq<QueueId>>, from: QueueId, to: QueueId)
    requires Inv(s, paths) && Linkable(s, from, to)
    ensures Inv(Link(s, from, to), Relinked(paths, from, to))
    ensures forall q :: Over(Link(s, from, to), Relinked(paths, from, to), q)
                        == Over(s, paths, q) + if q == to then Over(s, paths, from) else 0
  {
    var s', paths' := Link(s, from, to), Relinked(paths, from, to);
    forall c | 0 <= c < |paths|
      ensures !(from in paths[c] && to in paths[c]) && IsChain(s'.queues, s.contexts[c], paths'[c])
    {
      LinkChain(s, paths, from, to, c);
    }
    hide IsChain, Relinked;
    assert QueueOk(s.queues[from], from, paths, s.requests);
    forall x ensures && Over(s', paths', x) == Over(s, paths, x) + (if x == to then Over(s, paths, from) else 0)
                     && (x in s'.queues ==> QueueOk(s'.queues[x], x, paths', s.requests))
    {
      ThroughRelinked(paths, from, to, x);
      assert x in s.queues ==> QueueOk(s.queues[x], x, paths, s.requests);
    }
  }

  lemma {:induction false} LinkChain(s: State, paths: seq<seq<QueueId>>, from: QueueId, to: QueueId, c: nat)
    requires Inv(s, paths) && Linkable(s, from, to) && c < |paths|
    ensures !(from in paths[c] && to in paths[c])
    ensures IsChain(Link(s, from, to).queues, s.contexts[c], if from in paths[c] then paths[c] + [to] else paths[c])
  {
    var s', path := Link(s, from, to), paths[c];
    assert IsChain(s.queues, s.contexts[c], path);
    if from in path { OnlyAtEnd(s.queues, s.contexts[c], path, from); }
    if to in path { OnlyAtEnd(s.queues, s.contexts[c], path, to); }
    if from !in path {
      ChainFrame(s.queues, s'.queues, s.contexts[c], path);
    } else {
      var p := path + [to];
      forall i | 0 <= i < |p| - 1 ensures s'.queues[p[i]].link == Some(p[i + 1]) {
        if i < |path| - 1 { assert path[i] != path[|path| - 1] && s.queues[path[i]].link == Some(path[i + 1]); }
      }
    }
  }

  lemma {:induction false} GrabKeeps(s: State, paths: seq<seq<QueueId>>, r: nat, q: QueueId, write: bool)
    requires Inv(s, paths) && q in s.queues && r < |s.requests| && s.requests[r].None?
    ensures Inv(Grab(s, r, q, write), paths) && SameOver(s, paths, Grab(s, r, q, write), paths)
  {
    var s' := Grab(s, r, q, write);
    forall c | 0 <= c < |paths| ensures IsChain(s'.queues, s'.contexts[c], paths[c]) {
      ChainFrame(s.queues, s'.queues, s.contexts[c], paths[c]);
    }
    hide IsChain;
    forall x | x in s'.queues ensures QueueOk(s'.queues[x], x, paths, s'.requests) {
      assert QueueOk(s.queues[x], x, paths, s.requests);
      HoldersUpdate(s.requests, r, Some(Grant(q, write)), Grant(x, false));
      HoldersUpdate(s.requests, r, Some(Grant(q, write)), Grant(x, true));
    }
  }

  lemma {:induction false} ReleaseKeeps(s: State, paths: seq<seq<QueueId>>, r: nat)
    requires Inv(s, paths) && r < |s.requests| && s.requests[r].Some?
    ensures Releasable(s, r) && Inv(Release(s, r), paths) && SameOver(s, paths, Release(s, r), paths)
  {
    var g := s.requests[r].value;
    var q := g.queue;
    assert QueueOk(s.queues[q], q, paths, s.requests);
    HoldersUpdate(s.requests, r, None, g);
    var s' := Release(s, r);
    if s.queues[q].ref == 1 {
      forall d | 0 <= d < |s.requests| && d != r && s.requests[d].Some? ensures s.requests[d].value.queue != q {
        var h := s.requests[d].value;
        if h.queue == q {
          HoldersUpdate(s.requests, r, None, h);
          HoldersUpdate(s.requests[r := None], d, None, h);
        }
      }
    }
    forall c | 0 <= c < |paths| ensures IsChain(s'.queues, s'.contexts[c], paths[c]) {
      if s.queues[q].ref == 1 { ThroughUpdate(paths, c, [], q); }
      ChainFrame(s.queues, s'.queues, s.contexts[c], paths[c]);
    }
    hide IsChain;
    forall x | x in s'.queues ensures QueueOk(s'.queues[x], x, paths, s'.requests) {
      assert QueueOk(s.queues[x], x, paths, s.requests);
      HoldersUpdate(s.requests, r, None, Grant(x, false));
      HoldersUpdate(s.requests, r, None, Grant(x, true));
    }
  }

  // ---------------------------------------------------------------- No cycles

  /** The links of live queues lead round in a circle. */
  ghost predicate Cycle(queues: map<QueueId, Queue>, loop: seq<QueueId>) {
    && loop != []
    && (forall i :: 0 <= i < |loop| ==> loop[i] in queues)
    && (forall i :: 0 <= i < |loop| - 1 ==> queues[loop[i]].link == Some(loop[i + 1]))
    && queues[loop[|loop| - 1]].link == Some(loop[0])
  }

  ghost predicate NoCycle(queues: map<QueueId, Queue>) {
    forall loop :: !Cycle(queues, loop)
  }

  /** What can be reached from a cycle is on it. */
  lemma {:induction false} CycleNext(queues: map<QueueId, Queue>, loop: seq<QueueId>, q: QueueId)
    requires Cycle(queues, loop) && q in loop
    ensures q in queues && queues[q].link.Some? && queues[q].link.value in loop
  {
    var i :| 0 <= i < |loop| && loop[i] == q;
    if i < |loop| - 1 { assert queues[loop[i]].link == Some(loop[i + 1]); }
  }

  lemma {:induction false} LoopOff(s: State, from: QueueId, to: QueueId, loop: seq<QueueId>)
    requires Linkable(s, from, to) && Cycle(Link(s, from, to).queues, loop)
    ensures Cycle(s.queues, loop)
  {
    var queues := Link(s, from, to).queues;
    if from in loop {
      CycleNext(queues, loop, from);
      CycleNext(queues, loop, to);
    }
  }

  /** A link goes to a queue that has none, so no cycle can lead through it. */
  lemma {:induction false} LinkNoCycle(s: State, from: QueueId, to: QueueId)
    requires Linkable(s, from, to) && NoCycle(s.queues)
    ensures NoCycle(Link(s, from, to).queues)
  {
    forall loop ensures !Cycle(Link(s, from, to).queues, loop) {
      if Cycle(Link(s, from, to).queues, loop) { LoopOff(s, from, to, loop); }
    }
  }

  ghost predicate FewerLinks(queues: map<QueueId, Queue>, queues': map<QueueId, Queue>) {
    forall q :: q in queues' && queues'[q].link.Some? ==> q in queues && queues[q].link == queues'[q].link
  }

  /** A step that sets no link closes no cycle. */
  lemma {:induction false} FewerLinksNoCycle(queues: map<QueueId, Queue>, queues': map<QueueId, Queue>)
    requires NoCycle(queues) && FewerLinks(queues, queues')
    ensures NoCycle(queues')
  {
    forall loop | Cycle(queues', loop) ensures false {
      forall i | 0 <= i < |loop| ensures loop[i] in queues && queues[loop[i]].link == queues'[loop[i]].link {
        CycleNext(queues', loop, loop[i]);
      }
      assert Cycle(queues, loop);
    }
  }

  // ---------------------------------------------------------------- Whole runs

  /** What the scheduler does under the queue lock. A `Dropped` step carries the chain it walks. A task whose io
      context has no queue takes a new one at once, or drops the lock for the allocation; then it looks again. */
  datatype Step =
    | Attached(t: nat, q: QueueId)
    | Slept(t: nat)
    | Woke(t: nat, q: QueueId)
    | Linked(from: QueueId, to: QueueId)
    | Hopped(c: nat)
    | Dropped(c: nat, path: seq<QueueId>)
    | Grabbed(r: nat, q: QueueId, write: bool)
    | Released(r: nat)

  predicate OwnerOk(s: State, t: nat) { t < |s.owners| && s.owners[t] < |s.contexts| }

  ghost predicate Next(s: State, s': State, e: Step) {
    match e
    case Attached(t, q) =>
      && OwnerOk(s, t) && t !in s.asleep && s.contexts[s.owners[t]].None? && q !in s.queues
      && s' == Attach(s, s.owners[t], q)
    case Slept(t) =>
      OwnerOk(s, t) && t !in s.asleep && s.contexts[s.owners[t]].None? && s' == s.(asleep := s.asleep + {t})
    case Woke(t, q) =>
      && OwnerOk(s, t) && t in s.asleep && q !in s.queues
      && var u, c := s.(asleep := s.asleep - {t}), s.owners[t];
         if s.contexts[c].None? then s' == Attach(u, c, q) else s.contexts[c].value in s.queues && s' == Again(u, c)
    case Linked(from, to) => Linkable(s, from, to) && s' == Link(s, from, to)
    case Hopped(c) =>
      && c < |s.contexts| && s.contexts[c].Some? && s.contexts[c].value in s.queues
      && s.queues[s.contexts[c].value].link.Some? && 0 < s.queues[s.contexts[c].value].ref && s' == Hop(s, c)
    case Dropped(c, path) =>
      && c < |s.contexts| && IsChain(s.queues, s.contexts[c], path)
      && (forall q :: q in path ==> 0 < s.queues[q].ref) && s' == Drop(s, c, path)
    case Grabbed(r, q, write) => q in s.queues && r < |s.requests| && s.requests[r].None? && s' == Grab(s, r, q, write)
    case Released(r) => Releasable(s, r) && s' == Release(s, r)
  }

  /** A task comes back with the lock and finds that its io context was given a queue meanwhile. */
  predicate Doubles(s: State, e: Step) { e.Woke? && OwnerOk(s, e.t) && s.contexts[s.owners[e.t]].Some? }

  ghost predicate Good(s: State) {
    NoCycle(s.queues) && exists paths :: Inv(s, paths)
  }

  /** The process references of every queue are exactly the contexts whose chain passes through it. */
  ghost predicate Balanced(s: State) {
    exists paths :: Inv(s, paths) && Even(s, paths)
  }

  lemma {:induction false} SameLength(s: State, paths: seq<seq<QueueId>>)
    requires Inv(s, paths)
    ensures |paths| == |s.contexts|
    ensures forall c :: 0 <= c < |paths| ==> IsChain(s.queues, s.contexts[c], paths[c])
  {
  }

  lemma {:induction false} PathsUnique(s: State, p: seq<seq<QueueId>>, p': seq<seq<QueueId>>)
    requires Inv(s, p) && Inv(s, p')
    ensures p == p'
  {
    SameLength(s, p);
    SameLength(s, p');
    hide IsChain;
    forall c | 0 <= c < |p| ensures p[c] == p'[c] {
      ChainUnique(s.queues, s.contexts[c], p[c], p'[c]);
    }
  }

  lemma {:induction false} EvenSame(s: State, paths: seq<seq<QueueId>>, s': State, paths': seq<seq<QueueId>>)
    requires SameOver(s, paths, s', paths')
    ensures Even(s', paths') <==> Even(s, paths)
  {
    EvenIsNoneOver(s, paths);
    EvenIsNoneOver(s', paths');
    hide Even, Over;
  }

  /** The surplus of one queue goes up by that of another, or by one. */
  lemma {:induction false} EvenMore(s: State, paths: seq<seq<QueueId>>, s': State, paths': seq<seq<QueueId>>,
                                    to: QueueId, n: nat)
    requires RefsOk(s, paths)
    requires forall q :: Over(s', paths', q) == Over(s, paths, q) + if q == to then n else 0
    ensures n == 0 ==> (Even(s', paths') <==> Even(s, paths))
    ensures 0 < n ==> !Even(s', paths')
  {
    EvenIsNoneOver(s, paths);
    EvenIsNoneOver(s', paths');
    OverPositive(s, paths, to);
    hide Even, Over;
  }

  /** Who is asleep makes no difference to the books. */
  lemma {:induction false} SleepKeeps(s: State, paths: seq<seq<QueueId>>, asleep: set<nat>)
    requires Inv(s, paths)
    ensures Inv(s.(asleep := asleep), paths) && SameOver(s, paths, s.(asleep := asleep), paths)
  {
  }

  lemma {:induction false} WakeKeeps(s: State, paths: seq<seq<QueueId>>, s': State, t: nat, q: QueueId)
    returns (paths': seq<seq<QueueId>>)
    requires Inv(s, paths) && Next(s, s', Woke(t, q))
    ensures Inv(s', paths') && FewerLinks(s.queues, s'.queues)
    ensures forall x :: Over(s, paths, x) <= Over(s', paths', x)
    ensures Even(s', paths') <==> Even(s, paths) && !Doubles(s, Woke(t, q))
  {
    var c, u := s.owners[t], s.(asleep := s.asleep - {t});
    assert |paths| == |s.contexts| by { SameLength(s, paths); }
    SleepKeeps(s, paths, s.asleep - {t});
    hide IsChain, RefsOk, GrantsOk, Over, Even;
    if s.contexts[c].None? {
      AttachKeeps(u, paths, c, q);
      paths' := paths[c := [q]];
      EvenSame(s, paths, s', paths');
    } else {
      AgainKeeps(u, paths, c);
      paths' := paths;
      EvenMore(u, paths, s', paths', s.contexts[c].value, 1);
    }
  }

  lemma {:induction false} LinkOver(s: State, paths: seq<seq<QueueId>>, from: QueueId, to: QueueId)
    returns (paths': seq<seq<QueueId>>)
    requires Inv(s, paths) && Linkable(s, from, to)
    ensures Inv(Link(s, from, to), paths')
    ensures forall x :: Over(s, paths, x) <= Over(Link(s, from, to), paths', x)
    ensures Even(Link(s, from, to), paths') <==> Even(s, paths)
  {
    hide IsChain, GrantsOk, Over, Even, Link, ChainsOk, RefsOk;
    paths' := Relinked(paths, from, to);
    LinkKeeps(s, paths, from, to);
    OverPositive(s, paths, from);
    EvenMore(s, paths, Link(s, from, to), paths', to, Over(s, paths, from));
    EvenIsNoneOver(s, paths);
    EvenIsNoneOver(Link(s, from, to), paths');
    if 0 < Over(s, paths, from) { assert !Even(s, paths); }
  }

  /** Every step keeps the books. References that belong to no context come only from a task that finds its context
      with a queue when it comes back, and they never go. */
  lemma {:induction false} NextKeeps(s: State, paths: seq<seq<QueueId>>, s': State, e: Step)
    returns (paths': seq<seq<QueueId>>)
    requires Inv(s, paths) && NoCycle(s.queues) && Next(s, s', e)
    ensures Inv(s', paths') && NoCycle(s'.queues)
    ensures forall q :: Over(s, paths, q) <= Over(s', paths', q)
    ensures Even(s', paths') <==> Even(s, paths) && !Doubles(s, e)
  {
    hide ChainsOk, RefsOk, GrantsOk, NoCycle, IsChain, Even, Over;
    assert |paths| == |s.contexts| by { SameLength(s, paths); }
    paths' := paths;
    if e.Linked? {
      paths' := LinkOver(s, paths, e.from, e.to);
      LinkNoCycle(s, e.from, e.to);
    } else if e.Woke? {
      paths' := WakeKeeps(s, paths, s', e.t, e.q);
      FewerLinksNoCycle(s.queues, s'.queues);
    } else {
      match e {
        case Attached(t, q) => AttachKeeps(s, paths, s.owners[t], q); paths' := paths[s.owners[t] := [q]];
        case Slept(t) => SleepKeeps(s, paths, s.asleep + {t});
        case Hopped(c) => HopKeeps(s, paths, c); paths' := paths[c := paths[c][1..]];
        case Dropped(c, path) => DropIs(s, paths, c, path); DropKeeps(s, paths, c); paths' := paths[c := []];
        case Grabbed(r, q, write) => GrabKeeps(s, paths, r, q, write);
        case Released(r) => ReleaseKeeps(s, paths, r);
      }
      EvenSame(s, paths, s', paths');
      FewerLinksNoCycle(s.queues, s'.queues);
    }
  }

  lemma {:induction false} DropIs(s: State, paths: seq<seq<QueueId>>, c: nat, path: seq<QueueId>)
    requires Inv(s, paths) && c < |paths| && IsChain(s.queues, s.contexts[c], path)
    ensures path == paths[c]
  {
    SameLength(s, paths);
    ChainUnique(s.queues, s.contexts[c], path, paths[c]);
  }

  /** Nothing has been allocated yet. */
  function Fresh(owners: seq<nat>, nrContexts: nat, nrRequests: nat): State {
    State(map[], seq(nrContexts, _ => None), seq(nrRequests, _ => None), owners, {})
  }

  ghost predicate IsRun(run: seq<State>, steps: seq<Step>, owners: seq<nat>, nrContexts: nat, nrRequests: nat) {
    && |run| == |steps| + 1
    && run[0] == Fresh(owners, nrContexts, nrRequests)
    && forall i :: 0 <= i < |steps| ==> Next(run[i], run[i + 1], steps[i])
  }

  lemma {:induction false} FreshOk(owners: seq<nat>, nrContexts: nat, nrRequests: nat)
    ensures var s, paths := Fresh(owners, nrContexts, nrRequests), seq(nrContexts, _ => []);
            Inv(s, paths) && Even(s, paths) && NoCycle(s.queues)
  {
    var s := Fresh(owners, nrContexts, nrRequests);
    forall loop ensures !Cycle(s.queues, loop) {
      assert loop != [] ==> loop[0] !in s.queues;
    }
  }

  lemma {:induction false} RunPaths(run: seq<State>, steps: seq<Step>, owners: seq<nat>, nrContexts: nat,
                                    nrRequests: nat, n: nat)
    returns (paths: seq<seq<QueueId>>)
    requires IsRun(run, steps, owners, nrContexts, nrRequests) && n < |run|
    ensures Inv(run[n], paths) && NoCycle(run[n].queues)
    ensures Even(run[n], paths) <==> forall i :: 0 <= i < n ==> !Doubles(run[i], steps[i])
  {
    hide Inv, NoCycle, Even, Next, Doubles, Over;
    if n == 0 {
      FreshOk(owners, nrContexts, nrRequests);
      paths := seq(nrContexts, _ => []);
    } else {
      paths := RunPaths(run, steps, owners, nrContexts, nrRequests, n - 1);
      assert Next(run[n - 1], run[n - 1 + 1], steps[n - 1]);
      paths := NextKeeps(run[n - 1], paths, run[n], steps[n - 1]);
    }
  }

  /** In every run the links never close a circle, every context's chain ends after visiting live queues once each,
      and every queue has a process reference for each context whose chain visits it. */
  lemma {:induction false} RunsAreGood(run: seq<State>, steps: seq<Step>, owners: seq<nat>, nrContexts: nat,
                                       nrRequests: nat, n: nat)
    requires IsRun(run, steps, owners, nrContexts, nrRequests) && n < |run|
    ensures Good(run[n])
  {
    hide Inv, NoCycle, Even, Next, Doubles;
    var paths := RunPaths(run, steps, owners, nrContexts, nrRequests, n);
  }

  /** It has no other process references exactly if no task ever came back to a context that had been given a queue
      meanwhile. */
  lemma {:induction false} BalancedIff(run: seq<State>, steps: seq<Step>, owners: seq<nat>, nrContexts: nat,
                                       nrRequests: nat, n: nat)
    requires IsRun(run, steps, owners, nrContexts, nrRequests) && n < |run|
    ensures Balanced(run[n]) <==> forall i :: 0 <= i < n ==> !Doubles(run[i], steps[i])
  {
    hide Inv, NoCycle, Even, Next, Doubles;
    var paths := RunPaths(run, steps, owners, nrContexts, nrRequests, n);
    if Balanced(run[n]) {
      var paths' :| Inv(run[n], paths') && Even(run[n], paths');
      PathsUnique(run[n], paths, paths');
    }
  }

  /** References that belong to no context keep their queue for ever. */
  lemma {:induction false} OverStays(run: seq<State>, steps: seq<Step>, paths: seq<seq<QueueId>>, n: nat, m: nat,
                                     q: QueueId)
    returns (paths': seq<seq<QueueId>>)
    requires n <= m < |run| == |steps| + 1 && forall i :: 0 <= i < |steps| ==> Next(run[i], run[i + 1], steps[i])
    requires Inv(run[n], paths) && NoCycle(run[n].queues)
    ensures Inv(run[m], paths') && NoCycle(run[m].queues) && Over(run[n], paths, q) <= Over(run[m], paths', q)
  {
    hide Inv, NoCycle, Even, Next, Doubles, Over;
    if n == m {
      paths' := paths;
    } else {
      paths' := OverStays(run, steps, paths, n, m - 1, q);
      assert Next(run[m - 1], run[m - 1 + 1], steps[m - 1]);
      paths' := NextKeeps(run[m - 1], paths', run[m], steps[m - 1]);
    }
  }

  /** The queue that such a task takes its reference on is never freed. */
  lemma {:induction false} NeverFreed(run: seq<State>, steps: seq<Step>, owners: seq<nat>, nrContexts: nat,
                                      nrRequests: nat, n: nat, m: nat)
    requires IsRun(run, steps, owners, nrContexts, nrRequests) && n < m < |run| && Doubles(run[n], steps[n])
    ensures run[n].contexts[run[n].owners[steps[n].t]].value in run[m].queues
  {
    hide Inv, NoCycle, Even, Over;
    var s, t := run[n], steps[n].t;
    var q := s.contexts[s.owners[t]].value;
    var paths := RunPaths(run, steps, owners, nrContexts, nrRequests, n);
    assert Next(run[n], run[n + 1], steps[n]);
    SleepKeeps(s, paths, s.asleep - {t});
    AgainKeeps(s.(asleep := s.asleep - {t}), paths, s.owners[t]);
    assert FewerLinks(s.queues, run[n + 1].queues);
    FewerLinksNoCycle(s.queues, run[n + 1].queues);
    hide Next, Doubles, Again;
    OverAtLeast(s, paths, q);
    var paths' := OverStays(run, steps, paths, n + 1, m, q);
    OverLive(run[m], paths', q);
  }

  lemma {:induction false} OverAtLeast(s: State, paths: seq<seq<QueueId>>, q: QueueId)
    requires Inv(s, paths)
    ensures 0 <= Over(s, paths, q)
  {
    OverPositive(s, paths, q);
  }

  lemma {:induction false} OverLive(s: State, paths: seq<seq<QueueId>>, q: QueueId)
    requires 0 < Over(s, paths, q)
    ensures q in s.queues
  {
  }

  // ---------------------------------------------------------------- The scheduler's own state

  lemma {:induction false} OnPath(s: State, paths: seq<seq<QueueId>>, c: nat, i: nat)
    requires Inv(s, paths) && c < |paths| && i < |paths[c]|
    ensures paths[c][i] in s.queues && 0 < s.queues[paths[c][i]].ref
    ensures 1 <= ProcessRefs(s.queues[paths[c][i]])
    ensures s.queues[paths[c][i]].link == if i < |paths[c]| - 1 then Some(paths[c][i + 1]) else None
    ensures Distinct(paths[c])
  {
    var q := paths[c][i];
    assert IsChain(s.queues, s.contexts[c], paths[c]);
    assert QueueOk(s.queues[q], q, paths, s.requests);
    hide IsChain;
    ThroughUpdate(paths, c, [], q);
  }

  class CfqData {
    var queues: map<QueueId, Queue>
    var contexts: seq<Option<QueueId>>
    var requests: seq<Option<Grant>>
    const owners: seq<nat>
    var asleep: set<nat>
    ghost var paths: seq<seq<QueueId>>

    ghost function View(): State
      reads this
    {
      State(queues, contexts, requests, owners, asleep)
    }

    ghost predicate Valid()
      reads this
    {
      Inv(View(), paths) && NoCycle(queues)
    }

    constructor (taskContexts: seq<nat>, nrContexts: nat, nrRequests: nat)
      ensures Valid() && Even(View(), paths) && View() == Fresh(taskContexts, nrContexts, nrRequests)
    {
      queues, asleep, owners := map[], {}, taskContexts;
      contexts := seq(nrContexts, _ => None);
      requests := seq(nrRequests, _ => None);
      paths := seq(nrContexts, _ => []);
      new;
      FreshOk(taskContexts, nrContexts, nrRequests);
      assert View() == Fresh(taskContexts, nrContexts, nrRequests);
    }

    /** `cfqq_process_refs`; the difference is never negative. */
    method CountProcessRefs(q: QueueId) returns (n: nat)
      requires Valid() && q in queues
      ensures Through(paths, q) <= n == ProcessRefs(queues[q])
      ensures Even(View(), paths) ==> n == Through(paths, q)
    {
      assert QueueOk(queues[q], q, paths, requests);
      n := queues[q].ref - (queues[q].readAlloc + queues[q].writeAlloc);
    }

    /** `from` is linked to `to`, which takes over its process references. */
    method LinkQueues(from: QueueId, to: QueueId, refs: nat)
      requires Valid() && Linkable(View(), from, to) && refs == ProcessRefs(queues[from])
      modifies this`queues, this`paths
      ensures Valid() && View() == Link(old(View()), from, to) && (Even(View(), paths) <==> old(Even(View(), paths)))
    {
      hide ChainsOk, RefsOk, GrantsOk, NoCycle, Even;
      ghost var paths' := LinkOver(View(), paths, from, to);
      LinkNoCycle(View(), from, to);
      paths := paths';
      queues := queues[to := queues[to].(ref := queues[to].ref + refs)][from := queues[from].(link := Some(to))];
    }

    /** The walk of `cfq_setup_merge` along the links from `newq`: it ends at a queue without a link, before `cfqq`,
        or where a link leads to a queue that is gone. The last happens to no queue on the chain of a context. */
    method ChainEnd(cfqq: QueueId, newq: QueueId)
      returns (end: QueueId, met: bool, stray: bool, ghost seen: seq<QueueId>)
      requires Valid() && newq in queues && cfqq != newq
      ensures Walk(queues, seen) && seen[0] == newq && seen[|seen| - 1] == end && cfqq !in seen
      ensures end in queues && end != cfqq && !(met && stray)
      ensures !met && !stray ==> queues[end].link == None
      ensures met ==> queues[end].link == Some(cfqq)
      ensures stray ==> queues[end].link.Some? && queues[end].link.value !in queues && Through(paths, newq) == 0
    {
      end, met, stray := newq, false, false;
      seen := [newq];
      while queues[end].link.Some?
        invariant Walk(queues, seen) && seen[0] == newq && seen[|seen| - 1] == end && cfqq !in seen
        invariant forall c :: 0 <= c < |paths| && newq in paths[c] ==> end in paths[c]
        decreases |queues| - |seen|
      {
        var next := queues[end].link.value;
        if next == cfqq {
          met := true;
          return;
        }
        StaysOnChains(View(), paths, newq, end);
        if next !in queues {
          NotOnChain(View(), paths, newq, next);
          stray := true;
          return;
        }
        WalkOn(queues, seen, next);
        seen := seen + [next];
        WalkFits(queues, seen);
        end := next;
      }
    }

    /** `cfq_setup_merge`: follow the chain of `newq` to its end and link it and `cfqq`, from the one with
        fewer process references to the other. There is a link exactly if `newq`, the end and `cfqq` have process
        references and the way to the end does not lead over `cfqq`. If a link leads to a queue that is gone, `newq`
        has a process reference that belongs to no context. */
    method SetupMerge(cfqq: QueueId, newq: QueueId) returns (linked: Option<Step>, stray: bool)
      requires Valid() && cfqq in queues && newq in queues && cfqq != newq && queues[cfqq].link == None
      modifies this`queues, this`paths
      ensures Valid() && (Even(View(), paths) <==> old(Even(View(), paths)))
      ensures stray ==> linked.None? && 0 < Over(View(), paths, newq)
      ensures linked.None? ==> View() == old(View()) && paths == old(paths)
      ensures linked.Some? <==> exists end :: Mergeable(old(queues), cfqq, newq, end)
      ensures forall end :: Mergeable(old(queues), cfqq, newq, end) ==>
                linked == Some(if ProcessRefs(old(queues)[cfqq]) <= ProcessRefs(old(queues)[end]) then Linked(cfqq, end)
                               else Linked(end, cfqq))
      ensures linked.Some? ==> Next(old(View()), View(), linked.value)
    {
      hide ChainsOk, RefsOk, GrantsOk, NoCycle, Even, Walk;
      var refs := CountProcessRefs(newq);
      if refs == 0 {
        return None, false;
      }
      var end, met, lost, seen := ChainEnd(cfqq, newq);
      WalkEnds(queues, cfqq, seen);
      if met || lost {
        return None, lost;
      }
      var processRefs := CountProcessRefs(cfqq);
      var newRefs := CountProcessRefs(end);
      if processRefs == 0 || newRefs == 0 {
        return None, false;
      }
      assert Mergeable(queues, cfqq, newq, end);
      stray := false;
      if newRefs >= processRefs {
        LinkQueues(cfqq, end, processRefs);
        linked := Some(Linked(cfqq, end));
      } else {
        LinkQueues(end, cfqq, newRefs);
        linked := Some(Linked(end, cfqq));
      }
    }

    /** `cfq_put_queue`. */
    method PutQueue(q: QueueId)
      requires q in queues && 0 < queues[q].ref
      modifies this`queues
      ensures queues == Put(old(queues), q)
    {
      var x := queues[q].(ref := queues[q].ref - 1);
      if x.ref != 0 {
        queues := queues[q := x];
      } else {
        queues := queues - {q};
      }
    }

    /** `cfq_put_cooperator` on behalf of context `c`: every queue after the first on its chain loses a
        reference; the walk meets only live queues and ends. */
    method PutCooperator(c: nat)
      requires Valid() && c < |contexts| && contexts[c].Some?
      modifies this`queues
      ensures c < |paths| && paths[c] != []
      ensures forall q :: q in paths[c] ==> q in old(queues) && 0 < old(queues)[q].ref
      ensures queues == PutAll(old(queues), paths[c][1..])
    {
      hide RefsOk, GrantsOk, NoCycle;
      ghost var s := View();
      ghost var path := paths[c];
      assert IsChain(queues, contexts[c], path);
      hide ChainsOk, IsChain;
      PathLive(s, paths, c);
      OnPath(s, paths, c, 0);
      var cur := queues[contexts[c].value].link;
      ghost var i := 1;
      assert PutAll(queues, path[1..i]) == queues;
      while cur.Some?
        invariant 1 <= i <= |path|
        invariant cur == if i < |path| then Some(path[i]) else None
        invariant queues == PutAll(s.queues, path[1..i])
        decreases |path| - i
      {
        OnPath(s, paths, c, i);
        assert cur.value != contexts[c].value; // the loop warning cannot fire
        PutOneMore(s.queues, path[1..i], cur.value);
        assert path[1..i + 1] == path[1..i] + [path[i]];
        var next := queues[cur.value].link;
        PutQueue(cur.value);
        cur := next;
        i := i + 1;
      }
      assert path[1..i] == path[1..];
    }

    /** `cfq_exit_cfqq` and the dropping half of `split_cfqq`. */
    method DropContext(c: nat)
      requires Valid() && c < |contexts| && contexts[c].Some?
      modifies this`queues, this`contexts, this`paths
      ensures Valid() && paths == old(paths)[c := []] && c < |old(paths)|
      ensures forall q :: q in old(paths)[c] ==> q in old(queues) && 0 < old(queues)[q].ref
      ensures View() == Drop(old(View()), c, old(paths)[c]) && (Even(View(), paths) <==> old(Even(View(), paths)))
    {
      hide RefsOk, GrantsOk, NoCycle, PutAll, ChainsOk, IsChain, Even, Over;
      ghost var s := View();
      PathStart(s, paths, c);
      ghost var path := paths[c];
      var q := contexts[c].value;
      DropKeeps(s, paths, c);
      PutCooperator(c);
      PutOneMore(s.queues, path[1..], q);
      PutQueue(q);
      assert path == [q] + path[1..];
      contexts := contexts[c := None];
      paths := paths[c := []];
      PutAllLinks(s.queues, path);
      FewerLinksNoCycle(s.queues, queues);
      EvenSame(s, old(paths), View(), paths);
    }

    /** `cfq_merge_cfqqs`: the context moves one queue down its chain. */
    method MergeCfqqs(c: nat)
      requires Valid() && c < |contexts| && contexts[c].Some? && contexts[c].value in queues
      requires queues[contexts[c].value].link.Some?
      modifies this`queues, this`contexts, this`paths
      ensures Valid() && Next(old(View()), View(), Hopped(c)) && (Even(View(), paths) <==> old(Even(View(), paths)))
    {
      hide ChainsOk, RefsOk, GrantsOk, NoCycle, Even, Over;
      ghost var s := View();
      HopKeeps(s, paths, c);
      SameLength(s, paths);
      var q := contexts[c].value;
      contexts := contexts[c := queues[q].link];
      PutQueue(q);
      paths := paths[c := paths[c][1..]];
      assert FewerLinks(s.queues, queues);
      FewerLinksNoCycle(s.queues, queues);
      EvenSame(s, old(paths), View(), paths);
    }

    /** `split_cfqq`: the last process of a queue keeps it, any other leaves its whole chain. */
    method SplitCfqq(c: nat)
      requires Valid() && c < |contexts| && contexts[c].Some?
      modifies this`queues, this`contexts, this`paths
      ensures Valid() && |contexts| == |old(contexts)| && c < |old(paths)| && old(contexts)[c].value in old(queues)
      ensures ProcessRefs(old(queues)[old(contexts)[c].value]) == 1 ==> View() == old(View())
      ensures ProcessRefs(old(queues)[old(contexts)[c].value]) != 1 ==>
                Next(old(View()), View(), Dropped(c, old(paths)[c]))
      ensures forall q :: q in queues ==> q in old(queues)
      ensures Even(View(), paths) <==> old(Even(View(), paths))
    {
      hide RefsOk, GrantsOk, NoCycle, Even;
      assert IsChain(queues, contexts[c], paths[c]);
      hide ChainsOk;
      var refs := CountProcessRefs(contexts[c].value);
      if refs != 1 {
        DropContext(c);
      }
    }

    /** A context without a queue gets a new one. */
    method AttachQueue(c: nat, spare: QueueId)
      requires Valid() && c < |contexts| && contexts[c].None? && spare !in queues
      modifies this`queues, this`contexts, this`paths
      ensures Valid() && View() == Attach(old(View()), c, spare) && (Even(View(), paths) <==> old(Even(View(), paths)))
    {
      hide ChainsOk, RefsOk, GrantsOk, NoCycle, IsChain, Even, Over;
      ghost var s := View();
      AttachKeeps(View(), paths, c, spare);
      SameLength(View(), paths);
      ghost var before := queues;
      queues := queues[spare := Queue(1, 0, 0, None)];
      contexts := contexts[c := Some(spare)];
      paths := paths[c := [spare]];
      assert FewerLinks(before, queues);
      FewerLinksNoCycle(before, queues);
      EvenSame(s, old(paths), View(), paths);
    }

    /** A context that already has a queue takes one more reference on it, which belongs to no context. */
    method TakeAgain(c: nat)
      requires Valid() && c < |contexts| && contexts[c].Some?
      modifies this`queues
      ensures contexts[c].value in old(queues) && Valid() && View() == Again(old(View()), c) && !Even(View(), paths)
    {
      hide ChainsOk, RefsOk, GrantsOk, NoCycle, IsChain, Even, Over;
      ghost var s := View();
      AgainKeeps(s, paths, c);
      EvenMore(s, paths, Again(s, c), paths, contexts[c].value, 1);
      var x := queues[contexts[c].value];
      queues := queues[contexts[c].value := x.(ref := x.ref + 1)];
      assert FewerLinks(s.queues, queues);
      FewerLinksNoCycle(s.queues, queues);
    }

    /** A request takes a reference and an allocation count of queue `q`. */
    method GrabQueue(r: nat, q: QueueId, write: bool)
      requires Valid() && q in queues && r < |requests| && requests[r].None?
      modifies this`queues, this`requests
      ensures Valid() && View() == Grab(old(View()), r, q, write) && (Even(View(), paths) <==> old(Even(View(), paths)))
    {
      hide ChainsOk, RefsOk, GrantsOk, NoCycle, Even, Over;
      ghost var s := View();
      GrabKeeps(View(), paths, r, q, write);
      var x := queues[q];
      ghost var before := queues;
      queues := queues[q := if write then x.(ref := x.ref + 1, writeAlloc := x.writeAlloc + 1)
                            else x.(ref := x.ref + 1, readAlloc := x.readAlloc + 1)];
      requests := requests[r := Some(Grant(q, write))];
      assert FewerLinks(before, queues);
      FewerLinksNoCycle(before, queues);
      EvenSame(s, paths, View(), paths);
    }

    /** The reference steps of `cfq_set_request` for task `t`. `spare` is the memory a new queue would get, `split`
        whether the context's queue is marked to be broken apart. If a queue is to be allocated and the task may wait,
        it drops the lock and goes on in `ResumeRequest`. */
    method SetRequest(t: nat, r: nat, write: bool, spare: QueueId, split: bool, mayWait: bool) returns (waits: bool)
      requires Valid() && OwnerOk(View(), t) && t !in asleep && r < |requests| && requests[r].None? && spare !in queues
      modifies this
      ensures Valid() && |contexts| == |old(contexts)| && (Even(View(), paths) <==> old(Even(View(), paths)))
      ensures var c := owners[t]; var q := old(contexts)[c];
              && contexts == old(contexts)[c := contexts[c]] && (q.Some? ==> q.value in old(queues))
              && var needs := q.None? || (split && ProcessRefs(old(queues)[q.value]) != 1);
                 && (waits <==> needs && mayWait)
                 && contexts[c] == (if waits then None else if needs then Some(spare)
                                    else if old(queues)[q.value].link.Some? then old(queues)[q.value].link else q)
                 && asleep == (if waits then old(asleep) + {t} else old(asleep))
                 && requests == if waits then old(requests)
                                else old(requests)[r := Some(Grant(contexts[c].value, write))]
    {
      hide ChainsOk, RefsOk, GrantsOk, NoCycle, IsChain, Even;
      var c := owners[t];
      if contexts[c].Some? {
        LiveStart(View(), paths, c);
      }
      if contexts[c].Some? && split {
        SplitCfqq(c);
      }
      if contexts[c].None? {
        if mayWait {
          Sleep(t);
          return true;
        }
        AttachQueue(c, spare);
      } else {
        LiveStart(View(), paths, c);
        if queues[contexts[c].value].link.Some? {
          MergeCfqqs(c);
        }
      }
      LiveStart(View(), paths, c);
      GrabQueue(r, contexts[c].value, write);
      waits := false;
    }

    /** `cfq_find_alloc_queue` drops the lock. */
    method Sleep(t: nat)
      requires Valid()
      modifies this`asleep
      ensures Valid() && asleep == old(asleep) + {t} && (Even(View(), paths) <==> old(Even(View(), paths)))
    {
      hide ChainsOk, RefsOk, GrantsOk, NoCycle, Even, Over;
      ghost var s := View();
      SleepKeeps(s, paths, asleep + {t});
      asleep := asleep + {t};
      EvenSame(s, paths, View(), paths);
    }

    /** Task `t` has the lock again and memory for a queue: it looks for the queue of its context once more, and
        takes a reference on what it finds or puts there. */
    method ResumeRequest(t: nat, r: nat, write: bool, spare: QueueId)
      requires Valid() && OwnerOk(View(), t) && t in asleep && r < |requests| && requests[r].None? && spare !in queues
      modifies this
      ensures Valid() && asleep == old(asleep) - {t}
      ensures var c := owners[t];
              && contexts == (if old(contexts)[c].None? then old(contexts)[c := Some(spare)] else old(contexts))
              && requests == old(requests)[r := Some(Grant(contexts[c].value, write))]
              && (old(contexts)[c].None? ==> (Even(View(), paths) <==> old(Even(View(), paths))))
              && (old(contexts)[c].Some? ==> !Even(View(), paths))
    {
      hide ChainsOk, RefsOk, GrantsOk, NoCycle, IsChain, Even, Over;
      var c := owners[t];
      ghost var s := View();
      SleepKeeps(s, paths, asleep - {t});
      asleep := asleep - {t};
      EvenSame(s, paths, View(), paths);
      if contexts[c].None? {
        AttachQueue(c, spare);
      } else {
        TakeAgain(c);
      }
      LiveStart(View(), paths, c);
      GrabQueue(r, contexts[c].value, write);
    }

    /** The reference steps of `cfq_put_request`; the counter it decrements is never zero. */
    method PutRequest(r: nat)
      requires Valid() && r < |requests| && requests[r].Some?
      modifies this`queues, this`requests
      ensures Valid() && Next(old(View()), View(), Released(r)) && (Even(View(), paths) <==> old(Even(View(), paths)))
    {
      hide ChainsOk, RefsOk, GrantsOk, NoCycle, Even, Over;
      ghost var s := View();
      ReleaseKeeps(s, paths, r);
      var g := requests[r].value;
      var x := queues[g.queue];
      queues := queues[g.queue := if g.write then x.(writeAlloc := x.writeAlloc - 1)
                                  else x.(readAlloc := x.readAlloc - 1)];
      requests := requests[r := None];
      PutQueue(g.queue);
      assert FewerLinks(s.queues, queues);
      FewerLinksNoCycle(s.queues, queues);
      EvenSame(s, paths, View(), paths);
    }
  }

  /** A walk along links of live queues, none of them met twice. */
  ghost predicate Walk(queues: map<QueueId, Queue>, seen: seq<QueueId>) {
    && seen != [] && Distinct(seen) && (forall i :: 0 <= i < |seen| ==> seen[i] in queues)
    && forall i :: 0 <= i < |seen| - 1 ==> queues[seen[i]].link == Some(seen[i + 1])
  }

  lemma {:induction false} WalkOn(queues: map<QueueId, Queue>, seen: seq<QueueId>, next: QueueId)
    requires NoCycle(queues) && Walk(queues, seen) && next in queues && queues[seen[|seen| - 1]].link == Some(next)
    ensures Walk(queues, seen + [next])
  {
    if next in seen {
      var i :| 0 <= i < |seen| && seen[i] == next;
      var loop := seen[i..];
      forall j | 0 <= j < |loop| - 1 ensures queues[loop[j]].link == Some(loop[j + 1]) {
        assert queues[seen[i + j]].link == Some(seen[i + j + 1]);
      }
      assert Cycle(queues, loop);
    }
  }

  /** The links followed from `newq` lead to `end`, which has none, and not over `cfqq`. */
  ghost predicate EndsAt(queues: map<QueueId, Queue>, cfqq: QueueId, newq: QueueId, end: QueueId) {
    && end in queues && queues[end].link == None
    && exists seen :: Walk(queues, seen) && seen[0] == newq && seen[|seen| - 1] == end && cfqq !in seen
  }

  /** `cfqq` can merge with the queue that `newq` is going to merge into. */
  ghost predicate Mergeable(queues: map<QueueId, Queue>, cfqq: QueueId, newq: QueueId, end: QueueId) {
    && cfqq in queues && newq in queues && EndsAt(queues, cfqq, newq, end)
    && 0 < ProcessRefs(queues[cfqq]) && 0 < ProcessRefs(queues[newq]) && 0 < ProcessRefs(queues[end])
  }

  lemma {:induction false} WalkPrefix(queues: map<QueueId, Queue>, a: seq<QueueId>, b: seq<QueueId>, i: nat)
    requires Walk(queues, a) && Walk(queues, b) && a[0] == b[0] && i < |a| && i < |b|
    ensures a[i] == b[i]
  {
    if 0 < i {
      WalkPrefix(queues, a, b, i - 1);
      assert queues[a[i - 1]].link == Some(a[i - 1 + 1]) && queues[b[i - 1]].link == Some(b[i - 1 + 1]);
    }
  }

  lemma {:induction false} WalkLink(queues: map<QueueId, Queue>, seen: seq<QueueId>, i: nat)
    requires Walk(queues, seen) && i < |seen|
    ensures i < |seen| - 1 ==> queues[seen[i]].link == Some(seen[i + 1])
  {
  }

  /** Where the links lead is decided by any walk along them: it stops at their end, or goes on there. */
  lemma {:induction false} WalkEnds(queues: map<QueueId, Queue>, cfqq: QueueId, seen: seq<QueueId>)
    requires Walk(queues, seen) && cfqq !in seen
    ensures var last := seen[|seen| - 1];
            && (queues[last].link == None ==> forall end :: EndsAt(queues, cfqq, seen[0], end) <==> end == last)
            && (queues[last].link.Some? && (queues[last].link.value == cfqq || queues[last].link.value !in queues) ==>
                  forall end :: !EndsAt(queues, cfqq, seen[0], end))
  {
    var last := seen[|seen| - 1];
    assert queues[last].link == None ==> EndsAt(queues, cfqq, seen[0], last);
    forall end | EndsAt(queues, cfqq, seen[0], end)
      ensures if queues[last].link == None then end == last
              else queues[last].link.value != cfqq && queues[last].link.value in queues
    {
      var way :| Walk(queues, way) && way[0] == seen[0] && way[|way| - 1] == end && cfqq !in way;
      WayOn(queues, seen, way);
    }
  }

  lemma {:induction false} WayOn(queues: map<QueueId, Queue>, seen: seq<QueueId>, way: seq<QueueId>)
    requires Walk(queues, seen) && Walk(queues, way) && way[0] == seen[0] && queues[way[|way| - 1]].link == None
    ensures var last := seen[|seen| - 1];
            if queues[last].link == None then way[|way| - 1] == last
            else |seen| < |way| && queues[last].link == Some(way[|seen|])
  {
    if |way| <= |seen| {
      WalkPrefix(queues, seen, way, |way| - 1);
      WalkLink(queues, seen, |way| - 1);
    } else {
      WalkPrefix(queues, seen, way, |seen| - 1);
      assert queues[way[|seen| - 1]].link == Some(way[|seen| - 1 + 1]);
    }
  }

  lemma {:induction false} WalkFits(queues: map<QueueId, Queue>, seen: seq<QueueId>)
    requires Walk(queues, seen)
    ensures |seen| <= |queues|
  {
    DistinctSize(seen);
    SubsetSize(Elements(seen), queues.Keys);
    assert |queues.Keys| == |queues|;
  }

  ghost function Elements(seen: seq<QueueId>): set<QueueId> { set q | q in seen }

  lemma {:induction false} DistinctSize(seen: seq<QueueId>)
    requires Distinct(seen)
    ensures |Elements(seen)| == |seen|
  {
    if seen == [] {
      assert Elements(seen) == {};
    } else {
      var n := |seen| - 1;
      var rest, last := seen[..n], seen[n];
      DistinctSize(rest);
      assert seen == rest + [last];
      assert Elements(seen) == Elements(rest) + {last};
      assert last !in Elements(rest);
    }
  }

  lemma {:induction false} SubsetSize(a: set<QueueId>, b: set<QueueId>)
    requires a <= b
    ensures |a| <= |b|
  {
    assert b == a + (b - a);
  }

  /** Links of queues on a chain stay on it. */
  lemma {:induction false} StaysOnChains(s: State, paths: seq<seq<QueueId>>, newq: QueueId, end: QueueId)
    requires Inv(s, paths) && end in s.queues && s.queues[end].link.Some?
    requires forall c :: 0 <= c < |paths| && newq in paths[c] ==> end in paths[c]
    ensures forall c :: 0 <= c < |paths| && newq in paths[c] ==> s.queues[end].link.value in paths[c]
  {
    forall c | 0 <= c < |paths| && newq in paths[c] ensures s.queues[end].link.value in paths[c] {
      var i :| 0 <= i < |paths[c]| && paths[c][i] == end;
      OnPath(s, paths, c, i);
    }
  }

  /** A queue that is gone is on no chain. */
  lemma {:induction false} NotOnChain(s: State, paths: seq<seq<QueueId>>, newq: QueueId, next: QueueId)
    requires Inv(s, paths) && next !in s.queues
    requires forall c :: 0 <= c < |paths| && newq in paths[c] ==> next in paths[c]
    ensures Through(paths, newq) == 0
  {
    forall c | 0 <= c < |paths| ensures newq !in paths[c] {
      assert IsChain(s.queues, s.contexts[c], paths[c]);
    }
    ThroughNone(paths, newq);
  }

  lemma {:induction false} HeadOfChain(queues: map<QueueId, Queue>, q: QueueId, path: seq<QueueId>)
    requires IsChain(queues, Some(q), path)
    ensures path[0] == q && q !in path[1..]
  {
  }

  lemma {:induction false} LiveStart(s: State, paths: seq<seq<QueueId>>, c: nat)
    requires Inv(s, paths) && c < |s.contexts| && s.contexts[c].Some?
    ensures s.contexts[c].value in s.queues
  {
    assert IsChain(s.queues, s.contexts[c], paths[c]);
  }
}
