/** What tasks that share an io context do to the references of cooperating queues: the balance of
    `CfqCooperators` holds exactly as long as no two tasks share one. */
module CfqSharing {

  import opened Common
  import opened CfqCooperators

  // ---------------------------------------------------------------- Shared io contexts

  /** No two tasks share an io context. */
  predicate Private(owners: seq<nat>) { forall t, u :: 0 <= t < u < |owners| ==> owners[t] != owners[u] }

  /** A task asleep finds its io context as it left it. */
  ghost predicate AsleepOk(s: State) {
    forall t :: t in s.asleep ==> OwnerOk(s, t) && s.contexts[s.owners[t]].None?
  }

  lemma {:induction false} PrivateNext(s: State, s': State, e: Step)
    requires Private(s.owners) && AsleepOk(s) && Next(s, s', e)
    ensures s'.owners == s.owners && AsleepOk(s') && !Doubles(s, e)
  {
  }

  lemma {:induction false} PrivateRun(run: seq<State>, steps: seq<Step>, owners: seq<nat>, nrContexts: nat,
                                      nrRequests: nat, n: nat)
    requires IsRun(run, steps, owners, nrContexts, nrRequests) && n < |run| && Private(owners)
    ensures run[n].owners == owners && AsleepOk(run[n]) && forall i :: 0 <= i < n ==> !Doubles(run[i], steps[i])
  {
    hide Next, Doubles;
    if 0 < n {
      PrivateRun(run, steps, owners, nrContexts, nrRequests, n - 1);
      assert Next(run[n - 1], run[n - 1 + 1], steps[n - 1]);
      PrivateNext(run[n - 1], run[n], steps[n - 1]);
    }
  }

  ghost predicate AlwaysBalanced(owners: seq<nat>, nrContexts: nat, nrRequests: nat) {
    forall run: seq<State>, steps: seq<Step>, n: nat ::
      IsRun(run, steps, owners, nrContexts, nrRequests) && n < |run| ==> Balanced(run[n])
  }

  /** In all states of all runs the process references are the contexts exactly if no two tasks share an io context. */
  lemma {:induction false} AlwaysBalancedIff(owners: seq<nat>, nrContexts: nat, nrRequests: nat)
    requires forall t :: 0 <= t < |owners| ==> owners[t] < nrContexts
    ensures AlwaysBalanced(owners, nrContexts, nrRequests) <==> Private(owners)
  {
    hide Balanced, Next, Doubles;
    if Private(owners) {
      forall run: seq<State>, steps: seq<Step>, n: nat | IsRun(run, steps, owners, nrContexts, nrRequests) && n < |run|
        ensures Balanced(run[n])
      {
        PrivateRun(run, steps, owners, nrContexts, nrRequests, n);
        BalancedIff(run, steps, owners, nrContexts, nrRequests, n);
      }
    } else {
      var t, u :| 0 <= t < u < |owners| && owners[t] == owners[u];
      var run, steps := SharedRun(owners, nrContexts, nrRequests, t, u);
    }
  }

  /** Two tasks of one io context allocate its first queue. The first one drops the lock, the second one sets its
      queue, and the first one takes another reference on it: two process references for one context. */
  lemma {:induction false} SharedRun(owners: seq<nat>, nrContexts: nat, nrRequests: nat, t: nat, u: nat)
    returns (run: seq<State>, steps: seq<Step>)
    requires t < |owners| && u < |owners| && t != u && owners[t] == owners[u] < nrContexts
    ensures IsRun(run, steps, owners, nrContexts, nrRequests) && |run| == 4 && !Balanced(run[3])
    ensures run[3].queues == map[0 := Queue(2, 0, 0, None)] && run[3].contexts == run[0].contexts[owners[t] := Some(0)]
  {
    var c := owners[t];
    var s0 := Fresh(owners, nrContexts, nrRequests);
    var s1 := s0.(asleep := {t});
    var s2 := Attach(s1, c, 0);
    var s3 := Again(s2.(asleep := {}), c);
    run, steps := [s0, s1, s2, s3], [Slept(t), Attached(u, 0), Woke(t, 1)];
    assert s0.asleep + {t} == s1.asleep && s2.asleep - {t} == {};
    assert Next(s0, s1, steps[0]) && Next(s1, s2, steps[1]) && Next(s2, s3, steps[2]);
    assert Doubles(run[2], steps[2]);
    hide Balanced, Next, Doubles;
    BalancedIff(run, steps, owners, nrContexts, nrRequests, 3);
  }

  // ---------------------------------------------------------------- Walks along links

  /** Some run leads to `s`. */
  ghost predicate Reached(s: State, owners: seq<nat>, nrContexts: nat, nrRequests: nat) {
    exists run: seq<State>, steps: seq<Step> :: IsRun(run, steps, owners, nrContexts, nrRequests) && run[|run| - 1] == s
  }

  lemma {:induction false} ReachedNext(s: State, s': State, e: Step, owners: seq<nat>, nrContexts: nat, nrRequests: nat)
    requires Reached(s, owners, nrContexts, nrRequests) && Next(s, s', e)
    ensures Reached(s', owners, nrContexts, nrRequests)
  {
    hide Next;
    var run: seq<State>, steps: seq<Step> :| IsRun(run, steps, owners, nrContexts, nrRequests) && run[|run| - 1] == s;
    var run', steps' := run + [s'], steps + [e];
    forall i | 0 <= i < |steps'| ensures Next(run'[i], run'[i + 1], steps'[i]) {
      if i < |steps| { assert run'[i] == run[i] && run'[i + 1] == run[i + 1] && steps'[i] == steps[i]; }
    }
    assert IsRun(run', steps', owners, nrContexts, nrRequests);
  }

  /** From a queue with process references, following links never leads to a queue that is gone. */
  ghost predicate SafeWalks(s: State) {
    forall seen :: WalksFrom(s.queues, seen) ==> LinkLives(s.queues, seen[|seen| - 1])
  }

  ghost predicate WalksFrom(queues: map<QueueId, Queue>, seen: seq<QueueId>) {
    Walk(queues, seen) && 0 < ProcessRefs(queues[seen[0]])
  }

  ghost predicate LinkLives(queues: map<QueueId, Queue>, q: QueueId) {
    q in queues && (queues[q].link.Some? ==> queues[q].link.value in queues)
  }

  lemma {:induction false} WalkOnChain(s: State, paths: seq<seq<QueueId>>, c: nat, seen: seq<QueueId>, i: nat)
    requires Inv(s, paths) && c < |paths| && Walk(s.queues, seen) && seen[0] in paths[c] && i < |seen|
    ensures seen[i] in paths[c] && LinkLives(s.queues, seen[i])
  {
    if 0 < i {
      WalkOnChain(s, paths, c, seen, i - 1);
      var k :| 0 <= k < |paths[c]| && paths[c][k] == seen[i - 1];
      OnPath(s, paths, c, k);
      assert s.queues[seen[i - 1]].link == Some(seen[i - 1 + 1]);
    }
    hide Inv, Walk;
    var j :| 0 <= j < |paths[c]| && paths[c][j] == seen[i];
    OnPath(s, paths, c, j);
    if j < |paths[c]| - 1 { OnPath(s, paths, c, j + 1); }
  }

  /** While process references are contexts, a queue that has some is on a chain. */
  lemma {:induction false} BalancedWalks(s: State)
    requires Balanced(s)
    ensures SafeWalks(s)
  {
    var paths :| Inv(s, paths) && Even(s, paths);
    forall seen | WalksFrom(s.queues, seen) ensures LinkLives(s.queues, seen[|seen| - 1]) {
      var c := ThroughSome(paths, seen[0]);
      hide Inv;
      WalkOnChain(s, paths, c, seen, |seen| - 1);
    }
  }

  /** Only context `c` is in use. */
  ghost predicate Alone(s: State, c: nat) {
    && (forall t :: 0 <= t < |s.owners| ==> s.owners[t] == c)
    && forall d :: 0 <= d < |s.contexts| && d != c ==> s.contexts[d].None?
  }

  /** Every link leads to a queue that a reference without a context keeps. */
  ghost predicate LinksKept(s: State, paths: seq<seq<QueueId>>) {
    forall q :: q in s.queues && s.queues[q].link.Some? ==> 0 < Over(s, paths, s.queues[q].link.value)
  }

  lemma {:induction false} AloneThrough(s: State, paths: seq<seq<QueueId>>, c: nat, q: QueueId)
    requires Inv(s, paths) && Alone(s, c) && (c < |paths| ==> q !in paths[c])
    ensures Through(paths, q) == 0
  {
    SameLength(s, paths);
    forall d | 0 <= d < |paths| ensures q !in paths[d] {
      if d != c { assert s.contexts[d].None? && IsChain(s.queues, s.contexts[d], paths[d]); }
    }
    ThroughNone(paths, q);
  }

  lemma {:induction false} AloneLink(s: State, paths: seq<seq<QueueId>>, from: QueueId, to: QueueId, c: nat)
    requires Inv(s, paths) && Alone(s, c) && Linkable(s, from, to)
    ensures 0 < Over(s, paths, to) + Over(s, paths, from)
  {
    SameLength(s, paths);
    OverAtLeast(s, paths, from);
    OverAtLeast(s, paths, to);
    if c < |paths| && from in paths[c] {
      LinkChain(s, paths, from, to, c);
      AloneThrough(s, paths, c, to);
    } else {
      AloneThrough(s, paths, c, from);
    }
  }

  lemma {:induction false} AloneNext(s: State, paths: seq<seq<QueueId>>, s': State, e: Step, c: nat)
    returns (paths': seq<seq<QueueId>>)
    requires Inv(s, paths) && NoCycle(s.queues) && Next(s, s', e) && Alone(s, c) && LinksKept(s, paths)
    ensures Inv(s', paths') && NoCycle(s'.queues) && Alone(s', c) && LinksKept(s', paths')
  {
    AloneStays(s, s', e, c);
    paths' := NextKeeps(s, paths, s', e);
    if e.Linked? {
      LinkKeeps(s, paths, e.from, e.to);
      AloneLink(s, paths, e.from, e.to, c);
      hide Inv, NoCycle, Over, Alone, Relinked;
      PathsUnique(s', paths', Relinked(paths, e.from, e.to));
    } else {
      NoNewLink(s, s', e);
      hide Inv, NoCycle, Over, Alone, Next;
    }
  }

  lemma {:induction false} AloneStays(s: State, s': State, e: Step, c: nat)
    requires Next(s, s', e) && Alone(s, c)
    ensures Alone(s', c)
  {
  }

  lemma {:induction false} NoNewLink(s: State, s': State, e: Step)
    requires Next(s, s', e) && !e.Linked?
    ensures FewerLinks(s.queues, s'.queues)
  {
  }

  lemma {:induction false} AloneRun(run: seq<State>, steps: seq<Step>, owners: seq<nat>, nrContexts: nat,
                                    nrRequests: nat, n: nat, c: nat)
    returns (paths: seq<seq<QueueId>>)
    requires IsRun(run, steps, owners, nrContexts, nrRequests) && n < |run|
    requires forall t :: 0 <= t < |owners| ==> owners[t] == c
    ensures Inv(run[n], paths) && NoCycle(run[n].queues) && Alone(run[n], c) && LinksKept(run[n], paths)
  {
    if n == 0 {
      FreshOk(owners, nrContexts, nrRequests);
      paths := seq(nrContexts, _ => []);
    } else {
      hide Inv, NoCycle, Next, Alone, LinksKept;
      paths := AloneRun(run, steps, owners, nrContexts, nrRequests, n - 1, c);
      assert Next(run[n - 1], run[n - 1 + 1], steps[n - 1]);
      paths := AloneNext(run[n - 1], paths, run[n], steps[n - 1], c);
    }
  }

  lemma {:induction false} KeptWalks(s: State, paths: seq<seq<QueueId>>)
    requires LinksKept(s, paths)
    ensures SafeWalks(s)
  {
  }

  /** No two tasks share an io context, or all tasks share one. */
  predicate PrivateOrOne(owners: seq<nat>) {
    Private(owners) || forall t :: 0 <= t < |owners| ==> owners[t] == owners[0]
  }

  ghost predicate AlwaysSafe(owners: seq<nat>, nrContexts: nat, nrRequests: nat) {
    forall run: seq<State>, steps: seq<Step>, n: nat ::
      IsRun(run, steps, owners, nrContexts, nrRequests) && n < |run| ==> SafeWalks(run[n])
  }

  /** The test for process references guards the walk along the links in all states of all runs exactly if no two tasks
      share an io context or all of them do. */
  lemma {:induction false} AlwaysSafeIff(owners: seq<nat>, nrContexts: nat, nrRequests: nat)
    requires forall t :: 0 <= t < |owners| ==> owners[t] < nrContexts
    ensures AlwaysSafe(owners, nrContexts, nrRequests) <==> PrivateOrOne(owners)
  {
    hide SafeWalks, Next, Balanced;
    if PrivateOrOne(owners) {
      forall run: seq<State>, steps: seq<Step>, n: nat | IsRun(run, steps, owners, nrContexts, nrRequests) && n < |run|
        ensures SafeWalks(run[n])
      {
        if Private(owners) {
          PrivateRun(run, steps, owners, nrContexts, nrRequests, n);
          BalancedIff(run, steps, owners, nrContexts, nrRequests, n);
          BalancedWalks(run[n]);
        } else {
          var paths := AloneRun(run, steps, owners, nrContexts, nrRequests, n, owners[0]);
          KeptWalks(run[n], paths);
        }
      }
    } else {
      var t, u, v := SharedAndOther(owners);
      var s := StrayLink(owners, nrContexts, nrRequests, t, u, v);
      var run: seq<State>, steps: seq<Step> :|
        IsRun(run, steps, owners, nrContexts, nrRequests) && run[|run| - 1] == s;
      assert !SafeWalks(run[|run| - 1]);
    }
  }

  lemma {:induction false} SharedAndOther(owners: seq<nat>) returns (t: nat, u: nat, v: nat)
    requires !PrivateOrOne(owners)
    ensures t < |owners| && u < |owners| && v < |owners| && t != u && owners[t] == owners[u] != owners[v]
  {
    t, u :| 0 <= t < u < |owners| && owners[t] == owners[u];
    var w :| 0 <= w < |owners| && owners[w] != owners[0];
    v := if owners[w] != owners[t] then w else 0;
  }

  /** Otherwise a queue can keep a process reference after the queue it links to is gone. Tasks `t` and `u` share a
      context, and `v` has another. */
  lemma {:induction false} StrayLink(owners: seq<nat>, nrContexts: nat, nrRequests: nat, t: nat, u: nat, v: nat)
    returns (s: State)
    requires t < |owners| && u < |owners| && v < |owners| && t != u && owners[t] == owners[u] != owners[v]
    requires owners[t] < nrContexts && owners[v] < nrContexts
    ensures Reached(s, owners, nrContexts, nrRequests)
    ensures s.queues == map[0 := Queue(1, 0, 0, Some(1))] && !SafeWalks(s)
  {
    s := StrayBegin(owners, nrContexts, nrRequests, t, u, v);
    s := StrayMiddle(s, owners, nrContexts, nrRequests, t, v);
    s := StrayEnd(s, owners, nrContexts, nrRequests, t, v);
    assert WalksFrom(s.queues, [0]) && !LinkLives(s.queues, 0);
  }

  /** Task `t` waits for memory; `u` and `v` have put a queue into each context. */
  lemma {:induction false} StrayBegin(owners: seq<nat>, nrContexts: nat, nrRequests: nat, t: nat, u: nat, v: nat)
    returns (s: State)
    requires t < |owners| && u < |owners| && v < |owners| && t != u && owners[t] == owners[u] != owners[v]
    requires owners[t] < nrContexts && owners[v] < nrContexts
    ensures Reached(s, owners, nrContexts, nrRequests) && |s.contexts| == nrContexts && s.owners == owners
    ensures s.queues == map[0 := Queue(1, 0, 0, None), 1 := Queue(1, 0, 0, None)] && s.asleep == {t}
    ensures s.contexts[owners[t]] == Some(0) && s.contexts[owners[v]] == Some(1)
  {
    var s0 := Fresh(owners, nrContexts, nrRequests);
    assert Reached(s0, owners, nrContexts, nrRequests) by {
      assert IsRun([s0], [], owners, nrContexts, nrRequests);
    }
    var s1 := s0.(asleep := s0.asleep + {t});
    var s2 := Attach(s1, owners[u], 0);
    s := Attach(s2, owners[v], 1);
    assert Next(s0, s1, Slept(t)) && Next(s1, s2, Attached(u, 0)) && Next(s2, s, Attached(v, 1));
    hide Reached, Next;
    ReachedNext(s0, s1, Slept(t), owners, nrContexts, nrRequests);
    ReachedNext(s1, s2, Attached(u, 0), owners, nrContexts, nrRequests);
    ReachedNext(s2, s, Attached(v, 1), owners, nrContexts, nrRequests);
  }

  /** The queues are linked, and then `t` takes its reference on the first one. */
  lemma {:induction false} StrayMiddle(s0: State, owners: seq<nat>, nrContexts: nat, nrRequests: nat, t: nat, v: nat)
    returns (s: State)
    requires Reached(s0, owners, nrContexts, nrRequests) && |s0.contexts| == nrContexts && s0.owners == owners
    requires t < |owners| && v < |owners| && owners[t] < nrContexts && owners[v] < nrContexts
    requires s0.queues == map[0 := Queue(1, 0, 0, None), 1 := Queue(1, 0, 0, None)] && s0.asleep == {t}
    requires s0.contexts[owners[t]] == Some(0) && s0.contexts[owners[v]] == Some(1)
    ensures Reached(s, owners, nrContexts, nrRequests) && s.contexts == s0.contexts
    ensures s.queues == map[0 := Queue(2, 0, 0, Some(1)), 1 := Queue(2, 0, 0, None)]
  {
    var s1 := Link(s0, 0, 1);
    s := Again(s1.(asleep := s1.asleep - {t}), owners[t]);
    assert Next(s0, s1, Linked(0, 1)) && Next(s1, s, Woke(t, 2));
    hide Reached, Next;
    ReachedNext(s0, s1, Linked(0, 1), owners, nrContexts, nrRequests);
    ReachedNext(s1, s, Woke(t, 2), owners, nrContexts, nrRequests);
  }

  /** Both contexts leave their queues. */
  lemma {:induction false} StrayEnd(s0: State, owners: seq<nat>, nrContexts: nat, nrRequests: nat, t: nat, v: nat)
    returns (s: State)
    requires Reached(s0, owners, nrContexts, nrRequests) && |s0.contexts| == nrContexts
    requires t < |owners| && v < |owners| && owners[t] < nrContexts && owners[v] < nrContexts && owners[t] != owners[v]
    requires s0.queues == map[0 := Queue(2, 0, 0, Some(1)), 1 := Queue(2, 0, 0, None)]
    requires s0.contexts[owners[t]] == Some(0) && s0.contexts[owners[v]] == Some(1)
    ensures Reached(s, owners, nrContexts, nrRequests) && s.queues == map[0 := Queue(1, 0, 0, Some(1))]
  {
    var c, d := owners[t], owners[v];
    var s1 := Hop(s0, c);
    assert s1.queues == map[0 := Queue(1, 0, 0, Some(1)), 1 := Queue(2, 0, 0, None)];
    assert Next(s0, s1, Hopped(c));
    hide Reached, Next, Hop;
    ReachedNext(s0, s1, Hopped(c), owners, nrContexts, nrRequests);
    s := StrayDrop(s1, owners, nrContexts, nrRequests, c, 2);
    s := StrayDrop(s, owners, nrContexts, nrRequests, d, 1);
  }

  lemma {:induction false} StrayDrop(s0: State, owners: seq<nat>, nrContexts: nat, nrRequests: nat, c: nat, ref: nat)
    returns (s: State)
    requires Reached(s0, owners, nrContexts, nrRequests) && c < |s0.contexts| && s0.contexts[c] == Some(1) && 0 < ref
    requires s0.queues == map[0 := Queue(1, 0, 0, Some(1)), 1 := Queue(ref, 0, 0, None)]
    ensures Reached(s, owners, nrContexts, nrRequests) && s.contexts == s0.contexts[c := None]
    ensures s.queues == if ref == 1 then map[0 := Queue(1, 0, 0, Some(1))]
                        else map[0 := Queue(1, 0, 0, Some(1)), 1 := Queue(ref - 1, 0, 0, None)]
  {
    assert IsChain(s0.queues, Some(1), [1]);
    s := Drop(s0, c, [1]);
    assert Next(s0, s, Dropped(c, [1]));
    hide Reached, Next;
    ReachedNext(s0, s, Dropped(c, [1]), owners, nrContexts, nrRequests);
  }
}
