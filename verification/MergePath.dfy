/** The merge path: the two merge arms of `__make_request` in block/blk-core.c, `attempt_merge` in
    block/blk-merge.c and the merge hash of block/elevator.c. Whether limits, flags or the scheduler allow a
    merge, and which neighbour the scheduler offers, are left open. */
module MergePath {

  import opened Common

  datatype Bio = Bio(sector: nat, sectors: nat) {
    function Size(): nat { 512 * sectors }
    function End(): nat { sector + sectors }
  }

  /** `sector` and `len` are `__sector` and `__data_len`, kept beside the chain of bios. */
  datatype Request = Request(bios: seq<Bio>, sector: nat, len: nat, mergeable: bool) {
    function Sectors(): nat { len / 512 }
    function End(): nat { sector + Sectors() }
  }

  /** The sorted requests, the 64 hash chains, the one-hit cache and the count of sorted requests. */
  datatype Queue = Queue(rqs: map<nat, Request>, hash: seq<seq<nat>>, lastMerge: Option<nat>, nrSorted: int)

  // ---------------------------------------------------------------- Chains

  function Total(bios: seq<Bio>): nat {
    if bios == [] then 0 else bios[0].Size() + Total(bios[1..])
  }

  ghost predicate Contiguous(bios: seq<Bio>) {
    && (forall i :: 0 <= i < |bios| ==> 0 < bios[i].sectors)
    && forall i :: 0 < i < |bios| ==> bios[i].sector == bios[i - 1].End()
  }

  ghost predicate Chained(r: Request) {
    r.bios != [] && Contiguous(r.bios) && r.sector == r.bios[0].sector && r.len == Total(r.bios)
  }

  lemma {:induction false} TotalSplit(a: seq<Bio>, b: seq<Bio>)
    ensures Total(a + b) == Total(a) + Total(b)
  {
    if a == [] {
      assert a + b == b;
    } else {
      assert (a + b)[1..] == a[1..] + b;
      TotalSplit(a[1..], b);
    }
  }

  /** A contiguous chain covers exactly its length in sectors. */
  lemma {:induction false} TotalSpans(bios: seq<Bio>)
    requires bios != [] && Contiguous(bios)
    ensures 0 < Total(bios) && Total(bios) % 512 == 0
    ensures bios[0].sector + Total(bios) / 512 == bios[|bios| - 1].End()
  {
    TotalIs(bios);
    hide Total, Contiguous;
  }

  lemma {:induction false} TotalIs(bios: seq<Bio>)
    requires bios != [] && Contiguous(bios)
    ensures 0 < Total(bios) == 512 * (bios[|bios| - 1].End() - bios[0].sector)
  {
    var rest := bios[1..];
    if rest != [] {
      assert forall i :: 0 < i < |rest| ==> rest[i] == bios[i + 1] && rest[i - 1] == bios[i];
      TotalIs(rest);
      assert rest[0].sector == bios[0].End();
    }
  }

  /** The bookkeeping of a chained request names the true end of its last bio. */
  lemma {:induction false} EndIsEnd(r: Request)
    requires Chained(r)
    ensures r.End() == r.bios[|r.bios| - 1].End() && r.sector < r.End()
  {
    TotalSpans(r.bios);
  }

  lemma {:induction false} ContiguousJoin(a: seq<Bio>, b: seq<Bio>)
    requires a != [] && b != [] && Contiguous(a) && Contiguous(b) && a[|a| - 1].End() == b[0].sector
    ensures Contiguous(a + b)
  {
  }

  // ---------------------------------------------------------------- Hash

  /** `hash_long(sec >> 3, 6)` on a 64-bit machine. */
  function Bucket(sector: nat): (b: nat)
    ensures b < 64
  {
    var h := (sector / 8 * 0x9e37_ffff_fffc_0001) % 0x1_0000_0000_0000_0000;
    h / 0x400_0000_0000_0000
  }

  function Strip(s: seq<nat>, id: nat): seq<nat> {
    if s == [] then [] else if s[0] == id then Strip(s[1..], id) else [s[0]] + Strip(s[1..], id)
  }

  /** `elv_rqhash_del`. */
  function Unhash(hash: seq<seq<nat>>, id: nat): seq<seq<nat>> { seq(|hash|,
                  b requires 0 <= b < |hash| => Strip(hash[b], id)) }

  /** `elv_rqhash_add` under the end sector `end`. */
  function Rehash(hash: seq<seq<nat>>, id: nat, end: nat): seq<seq<nat>>
    requires |hash| == 64
  {
    hash[Bucket(end) := [id] + hash[Bucket(end)]]
  }

  ghost predicate Distinct(s: seq<nat>) { forall i, j :: 0 <= i < j < |s| ==> s[i] != s[j] }

  lemma {:induction false} StripHas(s: seq<nat>, id: nat, x: nat)
    ensures x in Strip(s, id) <==> x in s && x != id
  {
    if s != [] { StripHas(s[1..], id, x); }
  }

  lemma {:induction false} StripDistinct(s: seq<nat>, id: nat)
    requires Distinct(s)
    ensures Distinct(Strip(s, id)) && |Strip(s, id)| <= |s|
  {
    if s != [] {
      StripDistinct(s[1..], id);
      StripHas(s[1..], id, s[0]);
      assert s[0] !in s[1..];
    }
  }

  // ---------------------------------------------------------------- Invariant

  /** Every request on a chain is sorted and hangs under its current end sector; only `odd` may be elsewhere. */
  ghost predicate Hung(rqs: map<nat, Request>, hash: seq<seq<nat>>, odd: Option<nat>) {
    && |hash| == 64
    && (forall b :: 0 <= b < 64 ==> Distinct(hash[b]))
    && (forall b, id: nat :: 0 <= b < 64 && id in hash[b] ==>
        id in rqs && (odd == Some(id) || b == Bucket(rqs[id].End())))
  }

  /** Every mergeable request is on the hash. */
  ghost predicate Covered(rqs: map<nat, Request>, hash: seq<seq<nat>>, odd: Option<nat>)
    requires |hash| == 64
  {
    forall id: nat :: id in rqs && rqs[id].mergeable && odd != Some(id) ==> id in hash[Bucket(rqs[id].End())]
  }

  ghost predicate CacheOk(q: Queue) {
    q.lastMerge.Some? ==> q.lastMerge.value in q.rqs && q.rqs[q.lastMerge.value].mergeable
  }

  ghost predicate InvBut(q: Queue, odd: Option<nat>) {
    && (forall id: nat :: id in q.rqs ==> Chained(q.rqs[id]))
    && Hung(q.rqs, q.hash, odd) && Covered(q.rqs, q.hash, odd)
    && CacheOk(q)
    && q.nrSorted == |q.rqs|
  }

  ghost predicate Inv(q: Queue) { InvBut(q, None) }

  lemma {:induction false} UnhashHung(rqs: map<nat, Request>, hash: seq<seq<nat>>, odd: Option<nat>, id: nat)
    requires Hung(rqs, hash, odd)
    ensures Hung(rqs, Unhash(hash, id), odd)
    ensures odd == Some(id) ==> Hung(rqs, Unhash(hash, id), None)
    ensures Hung(rqs - {id}, Unhash(hash, id), odd)
    ensures forall b, x: nat :: 0 <= b < 64 ==> (x in Unhash(hash, id)[b] <==> x in hash[b] && x != id)
  {
    var h := Unhash(hash, id);
    forall b | 0 <= b < 64 ensures Distinct(h[b]) { StripDistinct(hash[b], id); }
    forall b, x: nat | 0 <= b < 64 ensures x in h[b] <==> x in hash[b] && x != id { StripHas(hash[b], id, x); }
  }

  lemma {:induction false} RehashHung(rqs: map<nat, Request>, hash: seq<seq<nat>>, id: nat)
    requires Hung(rqs, hash, None) && id in rqs && forall b :: 0 <= b < 64 ==> id !in hash[b]
    ensures Hung(rqs, Rehash(hash, id, rqs[id].End()), None)
    ensures forall b, x: nat :: 0 <= b < 64 ==>
              (x in Rehash(hash, id, rqs[id].End())[b] <==> x in hash[b] || (x == id && b == Bucket(rqs[id].End())))
  {
    var e := Bucket(rqs[id].End());
    var h := Rehash(hash, id, rqs[id].End());
    assert h[e] == [id] + hash[e];
  }

  // ---------------------------------------------------------------- Steps

  function BackGrown(r: Request, bio: Bio): Request { Request(r.bios + [bio], r.sector, r.len + bio.Size(),
                     r.mergeable) }

  function FrontGrown(r: Request, bio: Bio): Request { Request([bio] + r.bios, bio.sector, r.len + bio.Size(),
                      r.mergeable) }

  function Joined(r: Request, next: Request): Request { Request(r.bios + next.bios, r.sector, r.len + next.len,
                  r.mergeable) }

  /** `elv_rqhash_reposition`. */
  function Reposition(q: Queue, id: nat): Queue
    requires |q.hash| == 64 && id in q.rqs
  {
    q.(hash := Rehash(Unhash(q.hash, id), id, q.rqs[id].End()))
  }

  /** `elv_merged_request`. */
  function Merged(q: Queue, id: nat, back: bool): Queue
    requires |q.hash| == 64 && id in q.rqs
  {
    (if back then Reposition(q, id) else q).(lastMerge := Some(id))
  }

  /** The conditions of `attempt_merge` on the two requests themselves. */
  predicate MayJoin(q: Queue, req: nat, next: nat) {
    && req in q.rqs && next in q.rqs && q.rqs[req].mergeable && q.rqs[next].mergeable
    && q.rqs[req].End() == q.rqs[next].sector
  }

  /** The rest of `attempt_merge`, with `elv_merge_requests`: `next` is absorbed into `req`. */
  function Join(q: Queue, req: nat, next: nat): Queue
    requires |q.hash| == 64 && MayJoin(q, req, next)
  {
    var r := Joined(q.rqs[req], q.rqs[next]);
    Queue(q.rqs[req := r] - {next}, Unhash(Rehash(Unhash(q.hash, req), req, r.End()), next), Some(req), q.nrSorted - 1)
  }

  /** The back merge arm; `latter` is the neighbour the scheduler offers, `allowed` the other conditions on it. */
  function BackArm(q: Queue, id: nat, bio: Bio, latter: Option<nat>, allowed: bool): Queue
    requires |q.hash| == 64 && id in q.rqs
  {
    var q1 := q.(rqs := q.rqs[id := BackGrown(q.rqs[id], bio)]);
    if latter.Some? && allowed && MayJoin(q1, id, latter.value) then Join(q1, id, latter.value)
    else Merged(q1, id, true)
  }

  function FrontArm(q: Queue, id: nat, bio: Bio, former: Option<nat>, allowed: bool): Queue
    requires |q.hash| == 64 && id in q.rqs
  {
    var q1 := q.(rqs := q.rqs[id := FrontGrown(q.rqs[id], bio)]);
    if former.Some? && allowed && MayJoin(q1, former.value, id) then Join(q1, former.value, id)
    else Merged(q1, id, false)
  }

  /** `elv_insert` of a new request that holds one bio. */
  function Insert(q: Queue, id: nat, bio: Bio, mergeable: bool): Queue
    requires |q.hash| == 64
  {
    var r := Request([bio], bio.sector, bio.Size(), mergeable);
    Queue(q.rqs[id := r], if mergeable then Rehash(q.hash, id, r.End()) else q.hash,
          if mergeable && q.lastMerge == None then Some(id) else q.lastMerge, q.nrSorted + 1)
  }

  /** A refused merge marks the request; it stays on the hash until a lookup meets it. */
  function Refuse(q: Queue, id: nat): Queue
    requires id in q.rqs
  {
    q.(rqs := q.rqs[id := q.rqs[id].(mergeable := false)],
       lastMerge := if q.lastMerge == Some(id) then None else q.lastMerge)
  }

  /** The request leaves for the dispatch list. */
  function Dispatch(q: Queue, id: nat): Queue
    requires id in q.rqs
  {
    Queue(q.rqs - {id}, Unhash(q.hash, id), if q.lastMerge == Some(id) then None else q.lastMerge, q.nrSorted - 1)
  }

  // ---------------------------------------------------------------- The steps keep the invariant

  lemma {:induction false} BackGrownOk(r: Request, bio: Bio)
    requires Chained(r) && 0 < bio.sectors && r.End() == bio.sector
    ensures Chained(BackGrown(r, bio))
  {
    EndIsEnd(r);
    ContiguousJoin(r.bios, [bio]);
    TotalSplit(r.bios, [bio]);
  }

  lemma {:induction false} FrontGrownOk(r: Request, bio: Bio)
    requires Chained(r) && 0 < bio.sectors && bio.End() == r.sector
    ensures Chained(FrontGrown(r, bio)) && FrontGrown(r, bio).End() == r.End()
  {
    ContiguousJoin([bio], r.bios);
    TotalSplit([bio], r.bios);
  }

  lemma {:induction false} JoinedOk(r: Request, next: Request)
    requires Chained(r) && Chained(next) && r.End() == next.sector
    ensures Chained(Joined(r, next)) && Joined(r, next).End() == next.End()
  {
    EndIsEnd(r);
    EndIsEnd(next);
    ContiguousJoin(r.bios, next.bios);
    TotalSplit(r.bios, next.bios);
    EndIsEnd(Joined(r, next));
  }

  /** A request that may hang under a stale end sector is put right by repositioning. */
  lemma {:induction false} RepositionOk(q: Queue, id: nat)
    requires InvBut(q, Some(id)) && id in q.rqs
    ensures Inv(Reposition(q, id)) && Reposition(q, id).rqs == q.rqs
  {
    hide Bucket, Rehash, Unhash, Distinct, Chained;
    UnhashHung(q.rqs, q.hash, Some(id), id);
    RehashHung(q.rqs, Unhash(q.hash, id), id);
  }

  /** The hash after a join: `req` hangs under its new end, `next` nowhere. */
  lemma {:induction false} JoinHash(q: Queue, req: nat, next: nat, odd: Option<nat>, r: Request)
    requires Hung(q.rqs, q.hash, odd) && Covered(q.rqs, q.hash, odd) && (odd == None || odd == Some(req))
    requires req in q.rqs && req != next
    ensures var rqs := q.rqs[req := r] - {next};
            var hash := Unhash(Rehash(Unhash(q.hash, req), req, r.End()), next);
            Hung(rqs, hash, None) && Covered(rqs, hash, None)
  {
    hide Bucket, Rehash, Unhash, Distinct;
    var rqs := q.rqs[req := r];
    var h1 := Unhash(q.hash, req);
    UnhashHung(q.rqs, q.hash, odd, req);
    assert Hung(rqs, h1, None);
    RehashHung(rqs, h1, req);
    UnhashHung(rqs, Rehash(h1, req, r.End()), None, next);
  }

  lemma {:induction false} JoinOk(q: Queue, req: nat, next: nat, odd: Option<nat>)
    requires InvBut(q, odd) && (odd == None || odd == Some(req)) && MayJoin(q, req, next)
    ensures Inv(Join(q, req, next)) && req != next
  {
    hide Bucket, Rehash, Unhash, Hung, Covered, Chained;
    var r := Joined(q.rqs[req], q.rqs[next]);
    HashSize(q, odd);
    JoinedEnd(q, req, next);
    JoinHash(q, req, next, odd, r);
    JoinCount(q, req, next, r);
    JoinChains(q, req, next, r, q.rqs[req := r] - {next});
  }

  lemma {:induction false} JoinCount(q: Queue, req: nat, next: nat, r: Request)
    requires req in q.rqs && next in q.rqs && req != next
    ensures |q.rqs[req := r] - {next}| == |q.rqs| - 1
  {
    MapSame(q.rqs, req, r);
    MapLess(q.rqs[req := r], next);
  }

  lemma {:induction false} JoinChains(q: Queue, req: nat, next: nat, r: Request, m: map<nat, Request>)
    requires (forall id: nat :: id in q.rqs ==> Chained(q.rqs[id])) && Chained(r) && m == q.rqs[req := r] - {next}
    ensures forall id: nat :: id in m ==> Chained(m[id])
  {
    hide Chained;
  }

  /** The joined request is in order and ends where the absorbed one did. */
  lemma {:induction false} JoinedEnd(q: Queue, req: nat, next: nat)
    requires MayJoin(q, req, next) && Chained(q.rqs[req]) && Chained(q.rqs[next])
    ensures var r := Joined(q.rqs[req], q.rqs[next]); Chained(r) && r.End() == q.rqs[next].End()
    ensures req != next
  {
    EndIsEnd(q.rqs[req]);
    JoinedOk(q.rqs[req], q.rqs[next]);
  }

  lemma {:induction false} MapLess(m: map<nat, Request>, id: nat)
    requires id in m
    ensures |m - {id}| == |m| - 1
  {
    assert (m - {id}).Keys == m.Keys - {id};
    assert |m.Keys| == |m|;
  }

  lemma {:induction false} MapSame(m: map<nat, Request>, id: nat, r: Request)
    requires id in m
    ensures |m[id := r]| == |m|
  {
    assert m[id := r].Keys == m.Keys;
    assert |m.Keys| == |m|;
  }

  lemma {:induction false} MapMore(m: map<nat, Request>, id: nat, r: Request)
    requires id !in m
    ensures |m[id := r]| == |m| + 1
  {
    assert m[id := r].Keys == m.Keys + {id};
    assert |m.Keys| == |m|;
  }

  /** Growing a request at its end leaves the hash right for all the others. */
  lemma {:induction false} GrownBack(q: Queue, id: nat, bio: Bio)
    requires Inv(q) && id in q.rqs && 0 < bio.sectors && q.rqs[id].End() == bio.sector
    ensures InvBut(q.(rqs := q.rqs[id := BackGrown(q.rqs[id], bio)]), Some(id))
  {
    hide Bucket, Distinct, Chained;
    BackGrownOk(q.rqs[id], bio);
    MapSame(q.rqs, id, BackGrown(q.rqs[id], bio));
  }

  /** Growing it at its front leaves the hash right for all. */
  lemma {:induction false} GrownFront(q: Queue, id: nat, bio: Bio)
    requires Inv(q) && id in q.rqs && 0 < bio.sectors && bio.End() == q.rqs[id].sector
    ensures Inv(q.(rqs := q.rqs[id := FrontGrown(q.rqs[id], bio)]))
  {
    hide Bucket, Distinct, Chained;
    FrontGrownOk(q.rqs[id], bio);
    MapSame(q.rqs, id, FrontGrown(q.rqs[id], bio));
  }

  lemma {:induction false} BackArmOk(q: Queue, id: nat, bio: Bio, latter: Option<nat>, allowed: bool)
    requires Inv(q) && id in q.rqs && q.rqs[id].mergeable && 0 < bio.sectors && q.rqs[id].End() == bio.sector
    ensures Inv(BackArm(q, id, bio, latter, allowed))
  {
    hide Chained, Hung, Covered, Rehash, Unhash, Bucket;
    var q1 := q.(rqs := q.rqs[id := BackGrown(q.rqs[id], bio)]);
    GrownBack(q, id, bio);
    if latter.Some? && allowed && MayJoin(q1, id, latter.value) {
      JoinOk(q1, id, latter.value, Some(id));
    } else {
      RepositionOk(q1, id);
    }
  }

  lemma {:induction false} FrontArmOk(q: Queue, id: nat, bio: Bio, former: Option<nat>, allowed: bool)
    requires Inv(q) && id in q.rqs && q.rqs[id].mergeable && 0 < bio.sectors && bio.End() == q.rqs[id].sector
    ensures Inv(FrontArm(q, id, bio, former, allowed))
  {
    hide Chained, Hung, Covered, Rehash, Unhash, Bucket;
    var q1 := q.(rqs := q.rqs[id := FrontGrown(q.rqs[id], bio)]);
    GrownFront(q, id, bio);
    if former.Some? && allowed && MayJoin(q1, former.value, id) { JoinOk(q1, former.value, id, None); }
  }

  lemma {:induction false} NewChained(bio: Bio, mergeable: bool)
    requires 0 < bio.sectors
    ensures Chained(Request([bio], bio.sector, bio.Size(), mergeable))
  {
    assert Total([bio]) == bio.Size();
  }

  /** A request that is not on the hash yet does not disturb it. */
  lemma {:induction false} Unhashed(rqs: map<nat, Request>, hash: seq<seq<nat>>, id: nat, r: Request)
    requires Hung(rqs, hash, None) && Covered(rqs, hash, None) && id !in rqs
    ensures Hung(rqs[id := r], hash, None) && Covered(rqs[id := r], hash, Some(id))
    ensures forall b :: 0 <= b < 64 ==> id !in hash[b]
  {
    hide Bucket, Distinct;
  }

  lemma {:induction false} InsertOk(q: Queue, id: nat, bio: Bio, mergeable: bool)
    requires Inv(q) && id !in q.rqs && 0 < bio.sectors
    ensures Inv(Insert(q, id, bio, mergeable))
  {
    hide Bucket, Rehash, Distinct, Chained, Hung;
    var r := Request([bio], bio.sector, bio.Size(), mergeable);
    NewChained(bio, mergeable);
    MapMore(q.rqs, id, r);
    HashSize(q, None);
    Unhashed(q.rqs, q.hash, id, r);
    if mergeable { RehashHung(q.rqs[id := r], q.hash, id); }
  }

  lemma {:induction false} RefuseOk(q: Queue, id: nat)
    requires Inv(q) && id in q.rqs
    ensures Inv(Refuse(q, id))
  {
    hide Bucket, Distinct, Chained;
    var r := q.rqs[id].(mergeable := false);
    assert Chained(r) && r.End() == q.rqs[id].End() by { RefusedChained(q.rqs[id]); }
    MapSame(q.rqs, id, r);
  }

  lemma {:induction false} RefusedChained(r: Request)
    requires Chained(r)
    ensures Chained(r.(mergeable := false)) && r.(mergeable := false).End() == r.End()
  {
  }

  lemma {:induction false} DispatchOk(q: Queue, id: nat)
    requires Inv(q) && id in q.rqs
    ensures Inv(Dispatch(q, id))
  {
    hide Bucket, Distinct, Unhash, Chained;
    UnhashHung(q.rqs, q.hash, None, id);
    MapLess(q.rqs, id);
  }

  // ---------------------------------------------------------------- Lookup

  /** What the scan of one chain returns, and what it leaves: entries that can no longer merge are dropped on
      the way. */
  function Scan(rqs: map<nat, Request>, chain: seq<nat>, sector: nat): (Option<nat>, seq<nat>)
    requires forall x :: x in chain ==> x in rqs
  {
    if chain == [] then (None, [])
    else if !rqs[chain[0]].mergeable then Scan(rqs, chain[1..], sector)
    else if rqs[chain[0]].End() == sector then (Some(chain[0]), chain)
    else var r := Scan(rqs, chain[1..], sector); (r.0, [chain[0]] + r.1)
  }

  lemma {:induction false} ScanOk(rqs: map<nat, Request>, chain: seq<nat>, sector: nat)
    requires forall x :: x in chain ==> x in rqs
    ensures var r := Scan(rqs, chain, sector);
            && (forall x :: x in r.1 ==> x in chain)
            && (forall x :: x in chain && rqs[x].mergeable ==> x in r.1)
            && (Distinct(chain) ==> Distinct(r.1))
            && (r.0.Some? ==> r.0.value in chain && rqs[r.0.value].mergeable && rqs[r.0.value].End() == sector)
            && (r.0 == None ==> forall x :: x in chain && rqs[x].mergeable ==> rqs[x].End() != sector)
  {
    if chain != [] {
      assert forall x :: x in chain[1..] ==> x in chain;
      ScanOk(rqs, chain[1..], sector);
      assert Distinct(chain) ==> chain[0] !in chain[1..];
    }
  }

  /** `elv_rqhash_find`: the request found and the queue afterwards. */
  function Find(q: Queue, sector: nat): (Option<nat>, Queue)
    requires Hung(q.rqs, q.hash, None)
  {
    var b := Bucket(sector);
    var r := Scan(q.rqs, q.hash[b], sector);
    (r.0, q.(hash := q.hash[b := r.1]))
  }

  /** Some sorted request that can still merge ends at `sector`. */
  ghost predicate Ends(q: Queue, sector: nat) {
    exists id: nat :: id in q.rqs && q.rqs[id].mergeable && q.rqs[id].End() == sector
  }

  /** The lookup succeeds exactly if some request that can still merge ends there, and then returns one. */
  lemma {:induction false} FindExact(q: Queue, sector: nat)
    requires Inv(q)
    ensures Inv(Find(q, sector).1) && Find(q, sector).1.rqs == q.rqs
    ensures Find(q, sector).0.Some? <==> Ends(q, sector)
    ensures var r := Find(q, sector).0;
            r.Some? ==> r.value in q.rqs && q.rqs[r.value].mergeable && q.rqs[r.value].End() == sector
  {
    hide Bucket, Distinct, Chained, Scan;
    ScanOk(q.rqs, q.hash[Bucket(sector)], sector);
  }

  // ---------------------------------------------------------------- Runs

  datatype Event =
    | Inserts(id: nat, bio: Bio, mergeable: bool)
    | Backs(id: nat, bio: Bio, neighbour: Option<nat>, allowed: bool)
    | Fronts(id: nat, bio: Bio, neighbour: Option<nat>, allowed: bool)
    | Refuses(id: nat)
    | Dispatches(id: nat)
    | Looks(sector: nat)

  ghost predicate Enabled(q: Queue, e: Event) {
    match e
    case Inserts(id, bio, _) => id !in q.rqs && 0 < bio.sectors
    case Backs(id, bio, _, _) => id in q.rqs && q.rqs[id].mergeable && 0 < bio.sectors && q.rqs[id].End() == bio.sector
    case Fronts(id, bio, _, _) => id in q.rqs && q.rqs[id].mergeable && 0 < bio.sectors && bio.End() == q.rqs[id].sector
    case Refuses(id) => id in q.rqs
    case Dispatches(id) => id in q.rqs
    case Looks(_) => true
  }

  ghost function Next(q: Queue, e: Event): Queue
    requires Hung(q.rqs, q.hash, None) && Enabled(q, e)
  {
    match e
    case Inserts(id, bio, mergeable) => Insert(q, id, bio, mergeable)
    case Backs(id, bio, latter, allowed) => BackArm(q, id, bio, latter, allowed)
    case Fronts(id, bio, former, allowed) => FrontArm(q, id, bio, former, allowed)
    case Refuses(id) => Refuse(q, id)
    case Dispatches(id) => Dispatch(q, id)
    case Looks(sector) => Find(q, sector).1
  }

  lemma {:induction false} NextOk(q: Queue, e: Event)
    requires Inv(q) && Enabled(q, e)
    ensures Inv(Next(q, e))
  {
    hide Insert, BackArm, FrontArm, Refuse, Dispatch, Find, Chained, Covered, CacheOk;
    match e
    case Inserts(id, bio, mergeable) => InsertOk(q, id, bio, mergeable);
    case Backs(id, bio, latter, allowed) => BackArmOk(q, id, bio, latter, allowed);
    case Fronts(id, bio, former, allowed) => FrontArmOk(q, id, bio, former, allowed);
    case Refuses(id) => RefuseOk(q, id);
    case Dispatches(id) => DispatchOk(q, id);
    case Looks(sector) => FindExact(q, sector);
  }

  function Empty(): Queue { Queue(map[], seq(64, _ => []), None, 0) }

  lemma {:induction false} EmptyOk()
    ensures Inv(Empty())
  {
  }

  ghost predicate IsRun(run: seq<Queue>, events: seq<Event>) {
    && |run| == |events| + 1
    && run[0] == Empty()
    && forall i :: 0 <= i < |events| ==>
         Hung(run[i].rqs, run[i].hash, None) && Enabled(run[i], events[i]) && run[i + 1] == Next(run[i], events[i])
  }

  /** In every state of every run the chains are contiguous and match their request's start and length, each
      hashed request hangs exactly once, under its end sector, and a lookup finds a request exactly if a
      mergeable one ends there. */
  lemma {:induction false} RunsConsistent(run: seq<Queue>, events: seq<Event>, i: nat, sector: nat)
    requires IsRun(run, events) && i < |run|
    ensures Inv(run[i]) && (Find(run[i], sector).0.Some? <==> Ends(run[i], sector))
  {
    hide Inv, Next, Enabled, Find, Ends;
    if i == 0 {
      EmptyOk();
    } else {
      RunsConsistent(run, events, i - 1, sector);
      NextOk(run[i - 1], events[i - 1]);
    }
    FindExact(run[i], sector);
  }

  // ---------------------------------------------------------------- The elevator queue

  datatype Verdict = NoMerge | Back(id: nat) | Front(id: nat)

  /** A verdict names a request that can still merge and that the bio adjoins. */
  ghost predicate Sound(rqs: map<nat, Request>, bio: Bio, v: Verdict) {
    v != NoMerge ==>
      && v.id in rqs && rqs[v.id].mergeable
      && (v.Back? ==> rqs[v.id].End() == bio.sector) && (v.Front? ==> bio.End() == rqs[v.id].sector)
  }

  /** The one-hit cache names a request that the bio may join and adjoins. */
  ghost predicate Adjoins(q: Queue, bio: Bio, agreeable: set<nat>) {
    && q.lastMerge.Some? && q.lastMerge.value in agreeable && q.lastMerge.value in q.rqs
    && var r := q.rqs[q.lastMerge.value]; r.mergeable && (r.End() == bio.sector || bio.End() == r.sector)
  }

  class ElevatorQueue {
    var q: Queue

    constructor ()
      ensures q == Empty() && Inv(q)
    {
      q := Empty();
      EmptyOk();
    }

    /** `elv_rqhash_find`. */
    method RqhashFind(sector: nat) returns (r: Option<nat>)
      requires Inv(q)
      modifies this
      ensures r == Find(old(q), sector).0 && q == Find(old(q), sector).1 && Inv(q) && q.rqs == old(q.rqs)
      ensures r.Some? <==> Ends(q, sector)
      ensures r.Some? ==> r.value in q.rqs && q.rqs[r.value].mergeable && q.rqs[r.value].End() == sector
    {
      hide Bucket, Distinct, Chained, Covered, CacheOk;
      FindExact(q, sector);
      var b := Bucket(sector);
      var kept: seq<nat>, rest := [], q.hash[b];
      ghost var whole := Scan(q.rqs, q.hash[b], sector);
      r := None;
      while rest != []
        invariant q == old(q) && r == None
        invariant forall x :: x in rest ==> x in q.rqs
        invariant whole.0 == Scan(q.rqs, rest, sector).0 && whole.1 == kept + Scan(q.rqs, rest, sector).1
        decreases |rest|
      {
        var x := rest[0];
        assert forall y :: y in rest[1..] ==> y in rest;
        if q.rqs[x].mergeable {
          if q.rqs[x].End() == sector {
            r := Some(x);
            kept := kept + rest;
            break;
          }
          kept := kept + [x];
        }
        rest := rest[1..];
      }
      assert r == whole.0 && kept == whole.1;
      q := q.(hash := q.hash[b := kept]);
    }

    /** `elv_merge`. `agreeable` are the requests the bio may join by direction, device and scheduler; `offer` is
        what the scheduler's own merge function finds. */
    method ElvMerge(bio: Bio, noMerges: bool, noXMerges: bool, agreeable: set<nat>, offer: Option<nat>)
      returns (v: Verdict)
      requires Inv(q) && 0 < bio.sectors
      requires offer.Some? ==> Sound(q.rqs, bio, Front(offer.value))
      modifies this
      ensures Inv(q) && q.rqs == old(q.rqs) && Sound(q.rqs, bio, v)
      ensures noMerges ==> v == NoMerge
      ensures !noMerges && Adjoins(old(q), bio, agreeable) ==> v != NoMerge && Some(v.id) == old(q.lastMerge)
      ensures !Adjoins(old(q), bio, agreeable) && noXMerges ==> v == NoMerge
      ensures !noMerges && !noXMerges && v == NoMerge ==> offer == None
      ensures v.Back? ==> v.id in agreeable
      ensures v.Front? && !Adjoins(old(q), bio, agreeable) ==> offer == Some(v.id)
      ensures !noMerges && !noXMerges && !v.Back? && !Adjoins(old(q), bio, agreeable) && Ends(q, bio.sector) ==>
                exists id: nat ::
                  id in q.rqs && q.rqs[id].mergeable && q.rqs[id].End() == bio.sector && id !in agreeable
    {
      hide Chained, Hung, Covered, Find;
      if noMerges { return NoMerge; }
      if q.lastMerge.Some? {
        var last := q.lastMerge.value;
        if last in agreeable && q.rqs[last].mergeable {
          if q.rqs[last].End() == bio.sector { return Back(last); }
          if bio.End() == q.rqs[last].sector { return Front(last); }
        }
      }
      if noXMerges { return NoMerge; }
      var found := RqhashFind(bio.sector);
      if found.Some? && found.value in agreeable { return Back(found.value); }
      return if offer.Some? then Front(offer.value) else NoMerge;
    }

    /** `attempt_merge`, where `req` may hang under a stale end sector. */
    method AttemptMerge(req: nat, next: nat, allowed: bool, ghost odd: Option<nat>) returns (joined: bool)
      requires InvBut(q, odd) && (odd == None || odd == Some(req)) && req in q.rqs
      modifies this
      ensures joined <==> allowed && old(MayJoin(q, req, next))
      ensures joined ==> q == old(Join(q, req, next)) && Inv(q)
      ensures !joined ==> q == old(q)
    {
      hide Chained, Hung, Covered, Rehash, Strip, Bucket;
      if next !in q.rqs || !q.rqs[req].mergeable || !q.rqs[next].mergeable { return false; }
      if q.rqs[req].End() != q.rqs[next].sector { return false; }
      if !allowed { return false; }
      JoinOk(q, req, next, odd);
      HashSize(q, odd);
      var a, b := q.rqs[req], q.rqs[next];
      var r := Request(a.bios + b.bios, a.sector, a.len + b.len, a.mergeable);
      var hash := Unhash(Rehash(Unhash(q.hash, req), req, r.End()), next);
      q := Queue(q.rqs[req := r] - {next}, hash, Some(req), q.nrSorted - 1);
      joined := true;
    }

    /** The back merge arm of `__make_request`. */
    method MakeRequestBack(id: nat, bio: Bio, latter: Option<nat>, allowed: bool)
      requires Inv(q) && 0 < bio.sectors && Sound(q.rqs, bio, Back(id))
      modifies this
      ensures old(|q.hash|) == 64 && q == old(BackArm(q, id, bio, latter, allowed)) && Inv(q)
    {
      hide Chained, Hung, Covered, Rehash, Strip, Bucket, CacheOk;
      HashSize(q, None);
      BackArmOk(q, id, bio, latter, allowed);
      GrownBack(q, id, bio);
      var r := q.rqs[id];
      q := q.(rqs := q.rqs[id := Request(r.bios + [bio], r.sector, r.len + bio.Size(), r.mergeable)]);
      var joined := false;
      if latter.Some? { joined := AttemptMerge(id, latter.value, allowed, Some(id)); }
      if !joined {
        q := q.(hash := Rehash(Unhash(q.hash, id), id, q.rqs[id].End()));
        q := q.(lastMerge := Some(id));
      }
    }

    /** The front merge arm. */
    method MakeRequestFront(id: nat, bio: Bio, former: Option<nat>, allowed: bool)
      requires Inv(q) && 0 < bio.sectors && Sound(q.rqs, bio, Front(id))
      modifies this
      ensures old(|q.hash|) == 64 && q == old(FrontArm(q, id, bio, former, allowed)) && Inv(q)
    {
      hide Chained, Hung, Covered, Rehash, Strip, Bucket, CacheOk;
      HashSize(q, None);
      FrontArmOk(q, id, bio, former, allowed);
      GrownFront(q, id, bio);
      var r := q.rqs[id];
      q := q.(rqs := q.rqs[id := Request([bio] + r.bios, bio.sector, r.len + bio.Size(), r.mergeable)]);
      var joined := false;
      if former.Some? && former.value in q.rqs { joined := AttemptMerge(former.value, id, allowed, None); }
      if !joined { q := q.(lastMerge := Some(id)); }
    }
  }

  lemma {:induction false} HashSize(q: Queue, odd: Option<nat>)
    requires InvBut(q, odd)
    ensures |q.hash| == 64
  {
  }
}
