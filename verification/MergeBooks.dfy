/** What the merge path does to the bios: where each goes, and that over whole runs none is lost, doubled or put out of
    order. */
module MergeBooks {

  import opened Common
  import opened MergePath

  // ---------------------------------------------------------------- What each arm does

  /** Absorbing a request: its bios go to the end of the other's, and it is gone. */
  lemma {:induction false} JoinSays(q: Queue, req: nat, next: nat)
    requires |q.hash| == 64 && MayJoin(q, req, next) && req != next
    ensures var rqs, rqs' := q.rqs, Join(q, req, next).rqs;
            && rqs'.Keys == rqs.Keys - {next} && rqs'[req].bios == rqs[req].bios + rqs[next].bios
            && rqs'[req].mergeable && forall k :: k in rqs' && k != req ==> rqs'[k] == rqs[k]
    ensures Join(q, req, next).lastMerge == Some(req)
  {
    hide Rehash, Unhash;
  }

  /** The neighbour that the scheduler offers is sorted and can merge, and all else allows it. */
  predicate Offered(rqs: map<nat, Request>, n: Option<nat>, allowed: bool) {
    n.Some? && allowed && n.value in rqs && rqs[n.value].mergeable
  }

  /** A bio that adjoins the end of a request goes to its end. If the neighbour starts where the bio ends, can merge and
      is allowed, its bios follow and it is gone; nothing else changes. */
  lemma {:induction false} BackArmSays(q: Queue, id: nat, bio: Bio, latter: Option<nat>, allowed: bool)
    requires Inv(q) && id in q.rqs && q.rqs[id].mergeable && 0 < bio.sectors && q.rqs[id].End() == bio.sector
    ensures |q.hash| == 64
    ensures var rqs, rqs' := q.rqs, BackArm(q, id, bio, latter, allowed).rqs;
            && id in rqs' && rqs'[id].mergeable && (forall k :: k in rqs' && k != id ==> rqs'[k] == rqs[k])
            && if Offered(rqs, latter, allowed) && rqs[latter.value].sector == bio.End()
               then && latter.value != id && rqs'.Keys == rqs.Keys - {latter.value}
                    && rqs'[id].bios == rqs[id].bios + [bio] + rqs[latter.value].bios
               else rqs'.Keys == rqs.Keys && rqs'[id].bios == rqs[id].bios + [bio]
    ensures BackArm(q, id, bio, latter, allowed).lastMerge == Some(id)
  {
    BackArmIs(q, id, bio, latter, allowed);
    hide BackArm, Inv, Join, Rehash, Unhash, Request.End;
    var q1 := q.(rqs := q.rqs[id := BackGrown(q.rqs[id], bio)]);
    if Offered(q.rqs, latter, allowed) && q.rqs[latter.value].sector == bio.End() {
      hide MayJoin;
      JoinSays(q1, id, latter.value);
    }
  }

  /** The latter neighbour is joined exactly if it meets the bio; it is never the request itself. */
  lemma {:induction false} BackArmIs(q: Queue, id: nat, bio: Bio, latter: Option<nat>, allowed: bool)
    requires Inv(q) && id in q.rqs && q.rqs[id].mergeable && 0 < bio.sectors && q.rqs[id].End() == bio.sector
    ensures |q.hash| == 64
    ensures var q1 := q.(rqs := q.rqs[id := BackGrown(q.rqs[id], bio)]);
            if Offered(q.rqs, latter, allowed) && q.rqs[latter.value].sector == bio.End()
            then && latter.value != id && MayJoin(q1, id, latter.value)
                 && BackArm(q, id, bio, latter, allowed) == Join(q1, id, latter.value)
            else BackArm(q, id, bio, latter, allowed) == Merged(q1, id, true)
  {
    HashSize(q, None);
    BackGrownEnd(q.rqs[id], bio);
    hide Inv, Join, Merged, Request.End;
  }

  lemma {:induction false} BackGrownEnd(r: Request, bio: Bio)
    requires Chained(r) && 0 < bio.sectors && r.End() == bio.sector
    ensures BackGrown(r, bio).End() == bio.End() && r.sector < bio.sector
  {
    BackGrownOk(r, bio);
    EndIsEnd(r);
    EndIsEnd(BackGrown(r, bio));
  }

  /** A bio that adjoins the front of a request goes to its front. If the neighbour ends where the bio starts, can merge
      and is allowed, it takes over all bios, and the request is gone. */
  lemma {:induction false} FrontArmSays(q: Queue, id: nat, bio: Bio, former: Option<nat>, allowed: bool)
    requires Inv(q) && id in q.rqs && q.rqs[id].mergeable && 0 < bio.sectors && bio.End() == q.rqs[id].sector
    ensures |q.hash| == 64
    ensures var rqs, q' := q.rqs, FrontArm(q, id, bio, former, allowed);
            var rqs', joined := q'.rqs, Offered(rqs, former, allowed) && rqs[former.value].End() == bio.sector;
            var to := if joined then former.value else id;
            && to in rqs' && rqs'[to].mergeable && (forall k :: k in rqs' && k != to ==> rqs'[k] == rqs[k])
            && q'.lastMerge == Some(to)
            && if joined
               then && to != id && rqs'.Keys == rqs.Keys - {id}
                    && rqs'[to].bios == rqs[to].bios + ([bio] + rqs[id].bios)
               else rqs'.Keys == rqs.Keys && rqs'[id].bios == [bio] + rqs[id].bios
  {
    FrontArmIs(q, id, bio, former, allowed);
    hide FrontArm, Inv, Join, Request.End;
    var q1 := q.(rqs := q.rqs[id := FrontGrown(q.rqs[id], bio)]);
    if Offered(q.rqs, former, allowed) && q.rqs[former.value].End() == bio.sector {
      hide MayJoin;
      JoinSays(q1, former.value, id);
    }
  }

  /** The former neighbour is joined exactly if it meets the bio; it is never the request itself. */
  lemma {:induction false} FrontArmIs(q: Queue, id: nat, bio: Bio, former: Option<nat>, allowed: bool)
    requires Inv(q) && id in q.rqs && q.rqs[id].mergeable && 0 < bio.sectors && bio.End() == q.rqs[id].sector
    ensures |q.hash| == 64
    ensures var q1 := q.(rqs := q.rqs[id := FrontGrown(q.rqs[id], bio)]);
            if Offered(q.rqs, former, allowed) && q.rqs[former.value].End() == bio.sector
            then && former.value != id && MayJoin(q1, former.value, id)
                 && FrontArm(q, id, bio, former, allowed) == Join(q1, former.value, id)
            else FrontArm(q, id, bio, former, allowed) == Merged(q1, id, false)
  {
    HashSize(q, None);
    FrontGrownEnd(q.rqs[id], bio);
    hide Inv, Join, Merged, Request.End;
  }

  lemma {:induction false} FrontGrownEnd(r: Request, bio: Bio)
    requires Chained(r) && 0 < bio.sectors && bio.End() == r.sector
    ensures FrontGrown(r, bio).End() == r.End() && bio.sector < r.sector < r.End()
  {
    FrontGrownOk(r, bio);
    EndIsEnd(r);
  }

  // ---------------------------------------------------------------- The bios of all requests

  ghost function BiosOf(rqs: map<nat, Request>): multiset<Bio>
    decreases |rqs|
  {
    if rqs == map[] then multiset{}
    else
      var id :| id in rqs;
      MapLess(rqs, id);
      multiset(rqs[id].bios) + BiosOf(rqs - {id})
  }

  /** The sum does not depend on the order. */
  lemma {:induction false} BiosSplit(rqs: map<nat, Request>, k: nat)
    requires k in rqs
    ensures BiosOf(rqs) == multiset(rqs[k].bios) + BiosOf(rqs - {k})
    decreases |rqs|
  {
    var id :| id in rqs && BiosOf(rqs) == multiset(rqs[id].bios) + BiosOf(rqs - {id});
    MapLess(rqs, id);
    MapLess(rqs, k);
    if id != k {
      BiosSplit(rqs - {id}, k);
      BiosSplit(rqs - {k}, id);
      assert rqs - {id} - {k} == rqs - {k} - {id};
    }
  }

  /** A request gets more bios. */
  lemma {:induction false} BiosMore(rqs: map<nat, Request>, k: nat, r: Request, more: multiset<Bio>)
    requires k in rqs && multiset(r.bios) == multiset(rqs[k].bios) + more
    ensures BiosOf(rqs[k := r]) == BiosOf(rqs) + more
  {
    BiosSplit(rqs, k);
    BiosSplit(rqs[k := r], k);
    assert rqs[k := r] - {k} == rqs - {k};
  }

  /** A request gets more bios and those of another, which is gone. */
  lemma {:induction false} BiosMoved(rqs: map<nat, Request>, to: nat, from: nat, r: Request, more: multiset<Bio>)
    requires to in rqs && from in rqs && to != from
    requires multiset(r.bios) == multiset(rqs[to].bios) + multiset(rqs[from].bios) + more
    ensures BiosOf(rqs[to := r] - {from}) == BiosOf(rqs) + more
  {
    hide BiosOf;
    var rqs' := rqs[to := r] - {from};
    BiosSplit(rqs, to);
    BiosSplit(rqs - {to}, from);
    BiosSplit(rqs', to);
    var rest := rqs - {to} - {from};
    assert rqs' - {to} == rest;
    Resum(multiset(rqs[to].bios), multiset(rqs[from].bios), more, BiosOf(rest));
  }

  lemma {:induction false} Resum(a: multiset<Bio>, b: multiset<Bio>, more: multiset<Bio>, rest: multiset<Bio>)
    ensures (a + b + more) + rest == (a + (b + rest)) + more
  {
  }

  lemma {:induction false} OneMore(rqs: map<nat, Request>, rqs': map<nat, Request>, k: nat, bio: Bio)
    requires k in rqs && rqs'.Keys == rqs.Keys && forall i :: i in rqs' && i != k ==> rqs'[i] == rqs[i]
    requires multiset(rqs'[k].bios) == multiset(rqs[k].bios) + multiset{bio}
    ensures BiosOf(rqs') == BiosOf(rqs) + multiset{bio}
  {
    hide BiosOf;
    assert rqs' == rqs[k := rqs'[k]];
    BiosMore(rqs, k, rqs'[k], multiset{bio});
  }

  lemma {:induction false} OneMoved(rqs: map<nat, Request>, rqs': map<nat, Request>, to: nat, from: nat, bio: Bio)
    requires to in rqs && from in rqs && to != from && rqs'.Keys == rqs.Keys - {from}
    requires forall i :: i in rqs' && i != to ==> rqs'[i] == rqs[i]
    requires multiset(rqs'[to].bios) == multiset(rqs[to].bios) + multiset(rqs[from].bios) + multiset{bio}
    ensures BiosOf(rqs') == BiosOf(rqs) + multiset{bio}
  {
    hide BiosOf;
    assert rqs' == rqs[to := rqs'[to]] - {from};
    BiosMoved(rqs, to, from, rqs'[to], multiset{bio});
  }

  lemma {:induction false} Between(a: seq<Bio>, bio: Bio, b: seq<Bio>)
    ensures multiset(a + [bio] + b) == multiset(a) + multiset(b) + multiset{bio}
    ensures multiset(a + ([bio] + b)) == multiset(a) + multiset(b) + multiset{bio}
    ensures multiset(a + [bio]) == multiset(a) + multiset{bio}
    ensures multiset([bio] + b) == multiset(b) + multiset{bio}
  {
  }

  lemma {:induction false} BackBios(q: Queue, id: nat, bio: Bio, latter: Option<nat>, allowed: bool)
    requires Inv(q) && id in q.rqs && q.rqs[id].mergeable && 0 < bio.sectors && q.rqs[id].End() == bio.sector
    ensures |q.hash| == 64 && BiosOf(BackArm(q, id, bio, latter, allowed).rqs) == BiosOf(q.rqs) + multiset{bio}
  {
    BackArmSays(q, id, bio, latter, allowed);
    hide BackArm, BiosOf, Inv, Request.End;
    var rqs, rqs' := q.rqs, BackArm(q, id, bio, latter, allowed).rqs;
    if Offered(rqs, latter, allowed) && rqs[latter.value].sector == bio.End() {
      Between(rqs[id].bios, bio, rqs[latter.value].bios);
      OneMoved(rqs, rqs', id, latter.value, bio);
    } else {
      Between(rqs[id].bios, bio, []);
      OneMore(rqs, rqs', id, bio);
    }
  }

  lemma {:induction false} FrontBios(q: Queue, id: nat, bio: Bio, former: Option<nat>, allowed: bool)
    requires Inv(q) && id in q.rqs && q.rqs[id].mergeable && 0 < bio.sectors && bio.End() == q.rqs[id].sector
    ensures |q.hash| == 64 && BiosOf(FrontArm(q, id, bio, former, allowed).rqs) == BiosOf(q.rqs) + multiset{bio}
  {
    FrontArmSays(q, id, bio, former, allowed);
    hide FrontArm, BiosOf, Inv, Request.End;
    var rqs, rqs' := q.rqs, FrontArm(q, id, bio, former, allowed).rqs;
    if Offered(rqs, former, allowed) && rqs[former.value].End() == bio.sector {
      Between(rqs[former.value].bios, bio, rqs[id].bios);
      OneMoved(rqs, rqs', former.value, id, bio);
    } else {
      Between([], bio, rqs[id].bios);
      OneMore(rqs, rqs', id, bio);
    }
  }

  // ---------------------------------------------------------------- Whole runs

  /** The bio an event brings. */
  ghost function Brought(e: Event): multiset<Bio> {
    if e.Inserts? || e.Backs? || e.Fronts? then multiset{e.bio} else multiset{}
  }

  /** The bios an event takes to the dispatch list. */
  ghost function Taken(q: Queue, e: Event): multiset<Bio> {
    if e.Dispatches? && e.id in q.rqs then multiset(q.rqs[e.id].bios) else multiset{}
  }

  lemma {:induction false} NextBios(q: Queue, e: Event)
    requires Inv(q) && Enabled(q, e)
    ensures BiosOf(Next(q, e).rqs) + Taken(q, e) == BiosOf(q.rqs) + Brought(e)
  {
    hide BackArm, FrontArm, BiosOf, Chained, Hung, Covered, Scan, Rehash, Unhash;
    match e
    case Inserts(id, bio, mergeable) =>
      var rqs' := Next(q, e).rqs;
      BiosSplit(rqs', id);
      assert rqs' - {id} == q.rqs;
    case Backs(id, bio, latter, allowed) => BackBios(q, id, bio, latter, allowed);
    case Fronts(id, bio, former, allowed) => FrontBios(q, id, bio, former, allowed);
    case Refuses(id) => BiosMore(q.rqs, id, q.rqs[id].(mergeable := false), multiset{});
    case Dispatches(id) => BiosSplit(q.rqs, id);
    case Looks(_) =>
  }

  ghost function AllBrought(events: seq<Event>, n: nat): multiset<Bio>
    requires n <= |events|
  {
    if n == 0 then multiset{} else AllBrought(events, n - 1) + Brought(events[n - 1])
  }

  ghost function AllTaken(run: seq<Queue>, events: seq<Event>, n: nat): multiset<Bio>
    requires n <= |events| < |run|
  {
    if n == 0 then multiset{} else AllTaken(run, events, n - 1) + Taken(run[n - 1], events[n - 1])
  }

  /** In every run the bios submitted are those of the sorted requests and those dispatched, each as often. */
  lemma {:induction false} BiosConserved(run: seq<Queue>, events: seq<Event>, n: nat)
    requires IsRun(run, events) && n < |run|
    ensures AllBrought(events, n) == BiosOf(run[n].rqs) + AllTaken(run, events, n)
  {
    hide Inv, Next, Enabled, Hung;
    if n == 0 {
      assert run[0].rqs == map[];
    } else {
      BiosConserved(run, events, n - 1);
      RunsConsistent(run, events, n - 1, 0);
      NextBios(run[n - 1], events[n - 1]);
      assert run[n - 1 + 1] == Next(run[n - 1], events[n - 1]);
      Regroup(BiosOf(run[n - 1].rqs), AllTaken(run, events, n - 1), Brought(events[n - 1]), BiosOf(run[n].rqs),
              Taken(run[n - 1], events[n - 1]));
    }
  }

  lemma {:induction false} Regroup(was: multiset<Bio>, taken: multiset<Bio>, brought: multiset<Bio>,
                                   now: multiset<Bio>, more: multiset<Bio>)
    requires now + more == was + brought
    ensures was + taken + brought == now + (taken + more)
  {
    assert was + taken + brought == (was + brought) + taken;
  }
}
