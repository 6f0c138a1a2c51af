/** `elv_dispatch_sort` of block/elevator.c: a request goes into the dispatch list by scanning from the tail. */
module DispatchSort {

  /** `stop` says whether the request is started or a soft barrier. */
  datatype Rq = Rq(id: nat, sector: nat, write: bool, discard: bool, stop: bool)

  predicate SameKind(a: Rq, b: Rq) { a.write == b.write && a.discard == b.discard }

  /** One sweep of the elevator: first the sectors from `boundary` up, then the ones behind it. */
  predicate Ahead(a: Rq, b: Rq, boundary: nat) {
    if (a.sector < boundary) == (b.sector < boundary) then a.sector < b.sector else boundary <= a.sector
  }

  /** The scan goes on past entry `p`. */
  predicate Passes(rq: Rq, p: Rq, boundary: nat) {
    SameKind(rq, p) && !p.stop && Ahead(rq, p, boundary)
  }

  /** Where the scan stops: everything from there on was passed. */
  function Spot(list: seq<Rq>, rq: Rq, boundary: nat): (n: nat)
    ensures n <= |list|
    ensures forall i :: n <= i < |list| ==> Passes(rq, list[i], boundary)
    ensures 0 < n ==> !Passes(rq, list[n - 1], boundary)
  {
    if list == [] || !Passes(rq, list[|list| - 1], boundary) then |list| else Spot(list[..|list| - 1], rq, boundary)
  }

  function Insert(list: seq<Rq>, rq: Rq, boundary: nat): seq<Rq> {
    var n := Spot(list, rq, boundary);
    list[..n] + [rq] + list[n..]
  }

  /** Entries `i` to `j` are one run: same direction, same discard, nothing started, no barrier. */
  ghost predicate Run(list: seq<Rq>, i: nat, j: nat) {
    i <= j < |list| && forall k :: i <= k <= j ==> !list[k].stop && SameKind(list[k], list[i])
  }

  /** Every run is in sweep order. */
  ghost predicate RunsSorted(list: seq<Rq>, boundary: nat) {
    forall i: nat, j: nat :: Run(list, i, j) ==> !Ahead(list[j], list[i], boundary)
  }

  /** Neighbours of one kind are in sweep order. */
  ghost predicate StepsSorted(list: seq<Rq>, boundary: nat) {
    forall i :: 0 < i < |list| && !list[i - 1].stop && !list[i].stop && SameKind(list[i - 1], list[i])
                ==> !Ahead(list[i], list[i - 1], boundary)
  }

  lemma {:induction false} RunOrdered(list: seq<Rq>, boundary: nat, i: nat, j: nat)
    requires StepsSorted(list, boundary) && Run(list, i, j)
    ensures !Ahead(list[j], list[i], boundary)
    decreases j
  {
    if i < j {
      assert Run(list, i, j - 1);
      RunOrdered(list, boundary, i, j - 1);
    }
  }

  lemma {:induction false} StepsAreRuns(list: seq<Rq>, boundary: nat)
    ensures StepsSorted(list, boundary) <==> RunsSorted(list, boundary)
  {
    if StepsSorted(list, boundary) {
      forall i: nat, j: nat | Run(list, i, j)
        ensures !Ahead(list[j], list[i], boundary)
      {
        RunOrdered(list, boundary, i, j);
      }
    }
    if RunsSorted(list, boundary) {
      forall i | 0 < i < |list| && !list[i - 1].stop && !list[i].stop && SameKind(list[i - 1], list[i])
        ensures !Ahead(list[i], list[i - 1], boundary)
      {
        assert Run(list, i - 1, i);
      }
    }
  }

  /** One insertion keeps every run sorted, keeps the order of what was there, and passes only entries that are
      neither started nor barriers. */
  lemma {:induction false} InsertOk(list: seq<Rq>, rq: Rq, boundary: nat)
    requires RunsSorted(list, boundary)
    ensures RunsSorted(Insert(list, rq, boundary), boundary)
    ensures exists n :: 0 <= n <= |list| && Insert(list, rq, boundary) == list[..n] + [rq] + list[n..]
                        && forall i :: n <= i < |list| ==> !list[i].stop && SameKind(rq, list[i])
  {
    StepsAreRuns(list, boundary);
    StepInsert(list, rq, boundary);
    StepsAreRuns(Insert(list, rq, boundary), boundary);
  }

  lemma {:induction false} StepInsert(list: seq<Rq>, rq: Rq, boundary: nat)
    requires StepsSorted(list, boundary)
    ensures StepsSorted(Insert(list, rq, boundary), boundary)
  {
    var n := Spot(list, rq, boundary);
    var t := Insert(list, rq, boundary);
    assert forall k :: 0 <= k < |t| ==> t[k] == if k < n then list[k] else if k == n then rq else list[k - 1];
  }

  /** Any sequence of insertions. */
  function InsertAll(list: seq<Rq>, rqs: seq<Rq>, boundary: nat): seq<Rq>
    decreases |rqs|
  {
    if rqs == [] then list else InsertAll(Insert(list, rqs[0], boundary), rqs[1..], boundary)
  }

  /** `a` appears in `b` in the same order. */
  ghost predicate Within(a: seq<Rq>, b: seq<Rq>, at: seq<nat>) {
    && |at| == |a|
    && (forall i :: 0 <= i < |at| ==> at[i] < |b| && b[at[i]] == a[i])
    && forall i, j :: 0 <= i < j < |at| ==> at[i] < at[j]
  }

  function Shift(at: seq<nat>, n: nat): seq<nat> {
    seq(|at|, i requires 0 <= i < |at| => if at[i] < n then at[i] else at[i] + 1)
  }

  lemma {:induction false} InsertKeepsOrder(a: seq<Rq>, list: seq<Rq>, at: seq<nat>, rq: Rq, boundary: nat)
    requires Within(a, list, at)
    ensures Within(a, Insert(list, rq, boundary), Shift(at, Spot(list, rq, boundary)))
  {
  }

  /** For a fixed boundary, any sequence of insertions keeps every run sorted and the existing entries in
      order. */
  lemma {:induction false} InsertAllOk(a: seq<Rq>, list: seq<Rq>, at: seq<nat>, rqs: seq<Rq>, boundary: nat)
    returns (to: seq<nat>)
    requires RunsSorted(list, boundary) && Within(a, list, at)
    ensures RunsSorted(InsertAll(list, rqs, boundary), boundary)
    ensures Within(a, InsertAll(list, rqs, boundary), to)
    ensures |InsertAll(list, rqs, boundary)| == |list| + |rqs|
    decreases |rqs|
  {
    to := at;
    if rqs != [] {
      InsertOk(list, rqs[0], boundary);
      InsertKeepsOrder(a, list, at, rqs[0], boundary);
      to := InsertAllOk(a, Insert(list, rqs[0], boundary), Shift(at, Spot(list, rqs[0], boundary)), rqs[1..], boundary);
    }
  }

  /** A barrier or started request is never overtaken: all that stood up to it stays where it was. */
  lemma {:induction false} StopsHold(list: seq<Rq>, rqs: seq<Rq>, boundary: nat, k: nat)
    requires k < |list| && list[k].stop
    ensures k < |InsertAll(list, rqs, boundary)| && InsertAll(list, rqs, boundary)[..k + 1] == list[..k + 1]
    decreases |rqs|
  {
    if rqs != [] {
      var t := Insert(list, rqs[0], boundary);
      assert k < Spot(list, rqs[0], boundary);
      assert t[..k + 1] == list[..k + 1];
      assert t[k] == t[..k + 1][k] == list[k];
      StopsHold(t, rqs[1..], boundary, k);
    }
  }

  /** The scan from the tail. */
  method Scan(list: seq<Rq>, rq: Rq, boundary: nat) returns (n: nat)
    ensures n == Spot(list, rq, boundary)
  {
    n := |list|;
    assert list[..n] == list;
    while n > 0
      invariant 0 <= n <= |list|
      invariant Spot(list, rq, boundary) == Spot(list[..n], rq, boundary)
    {
      var p := list[n - 1];
      if rq.discard != p.discard { break; }
      if rq.write != p.write { break; }
      if p.stop { break; }
      if rq.sector >= boundary && p.sector < boundary {
      } else {
        if rq.sector < boundary && p.sector >= boundary { break; }
        if rq.sector >= p.sector { break; }
      }
      assert list[..n][..n - 1] == list[..n - 1];
      n := n - 1;
    }
  }

  /** The dispatch list with the scheduler's count. */
  class DispatchQueue {
    var list: seq<Rq>
    var endSector: nat
    var nrSorted: int

    constructor ()
      ensures list == [] && nrSorted == 0 && RunsSorted(list, endSector)
    {
      list, endSector, nrSorted := [], 0, 0;
    }

    /** `elv_dispatch_sort`. */
    method Sort(rq: Rq)
      modifies this`list, this`nrSorted
      ensures list == Insert(old(list), rq, endSector) && nrSorted == old(nrSorted) - 1
      ensures old(RunsSorted(list, endSector)) ==> RunsSorted(list, endSector)
    {
      if RunsSorted(list, endSector) { InsertOk(list, rq, endSector); }
      hide RunsSorted, Spot;
      nrSorted := nrSorted - 1;
      var n := Scan(list, rq, endSector);
      list := list[..n] + [rq] + list[n..];
    }
  }
}
