/** Partial completion of a request, `blk_update_request` in block/blk-core.c: ending bytes from the
    front of a chain of bios. `flush_rq`, whose bio is deliberately not advanced, is not modelled. */
module Completion {

  datatype Bvec = Bvec(page: nat, offset: nat, len: nat)

  /** The bio's vector array is `done + live`; `bi_idx` is the length of `done`. */
  datatype Bio = Bio(id: nat, sector: nat, size: nat, done: seq<Bvec>, live: seq<Bvec>)

  /** `fs` says that the request's sector is meaningful (a file system or discard request). */
  datatype Req = Req(bios: seq<Bio>, sector: nat, len: nat, fs: bool)

  function Sum(vs: seq<Bvec>): nat {
    if vs == [] then 0 else vs[0].len + Sum(vs[1..])
  }

  predicate BioOk(b: Bio) {
    b.size == Sum(b.live) && 0 < b.size && forall i :: 0 <= i < |b.live| ==> 0 < b.live[i].len
  }

  predicate ChainOk(bios: seq<Bio>) {
    forall i :: 0 <= i < |bios| ==> BioOk(bios[i])
  }

  function Length(bios: seq<Bio>): nat {
    if bios == [] then 0 else bios[0].size + Length(bios[1..])
  }

  predicate ReqOk(r: Req) {
    ChainOk(r.bios) && r.len == Length(r.bios)
  }

  // ---------------------------------------------------------------- What completing n bytes means

  /** How many vectors `n` bytes pass. */
  function Passed(vs: seq<Bvec>, n: nat): (k: nat)
    requires n < Sum(vs)
    ensures k < |vs|
  {
    if vs[0].len <= n then 1 + Passed(vs[1..], n - vs[0].len) else 0
  }

  /** What is left of the vectors after `n` bytes. */
  function Skip(vs: seq<Bvec>, n: nat): (rest: seq<Bvec>)
    requires n < Sum(vs)
    ensures rest != []
  {
    if vs[0].len <= n then Skip(vs[1..], n - vs[0].len)
    else [Bvec(vs[0].page, vs[0].offset + n, vs[0].len - n)] + vs[1..]
  }

  function AdvanceBio(b: Bio, n: nat): Bio
    requires b.size == Sum(b.live) && n < b.size
  {
    Bio(b.id, b.sector + n / 512, b.size - n, b.done + b.live[..Passed(b.live, n)], Skip(b.live, n))
  }

  function Consume(bios: seq<Bio>, n: nat): seq<Bio>
    requires ChainOk(bios)
  {
    if bios == [] then []
    else if bios[0].size <= n then Consume(bios[1..], n - bios[0].size)
    else [AdvanceBio(bios[0], n)] + bios[1..]
  }

  /** The bios that end, in order. */
  function Ended(bios: seq<Bio>, n: nat): seq<nat> {
    if bios == [] || n < bios[0].size then [] else [bios[0].id] + Ended(bios[1..], n - bios[0].size)
  }

  function Ids(bios: seq<Bio>): seq<nat> {
    if bios == [] then [] else [bios[0].id] + Ids(bios[1..])
  }

  /** `blk_update_request` on values. */
  function Update(r: Req, n: nat): Req
    requires ReqOk(r)
  {
    var bios := Consume(r.bios, n);
    if r.bios == [] then r
    else if bios == [] then r.(bios := [], len := 0)
    else
      ConsumeOk(r.bios, n);
      Req(bios, r.sector + (if r.fs then n / 512 else 0), r.len - n, r.fs)
  }

  lemma {:induction false} SkipSum(vs: seq<Bvec>, n: nat)
    requires n < Sum(vs) && forall i :: 0 <= i < |vs| ==> 0 < vs[i].len
    ensures Sum(Skip(vs, n)) == Sum(vs) - n
    ensures forall i :: 0 <= i < |Skip(vs, n)| ==> 0 < Skip(vs, n)[i].len
  {
    if vs[0].len <= n {
      SkipSum(vs[1..], n - vs[0].len);
    } else {
      assert Skip(vs, n)[1..] == vs[1..];
    }
  }

  /** Something is left exactly when fewer bytes are completed than the chain holds, and then the chain
      is again in order and exactly `n` bytes shorter. */
  lemma {:induction false} ConsumeOk(bios: seq<Bio>, n: nat)
    requires ChainOk(bios)
    ensures Consume(bios, n) == [] <==> Length(bios) <= n
    ensures ChainOk(Consume(bios, n))
    ensures n < Length(bios) ==> Length(Consume(bios, n)) == Length(bios) - n
  {
    if bios != [] {
      assert BioOk(bios[0]);
      assert ChainOk(bios[1..]);
      if bios[0].size <= n {
        ConsumeOk(bios[1..], n - bios[0].size);
      } else {
        SkipSum(bios[0].live, n);
        assert Consume(bios, n)[1..] == bios[1..];
      }
    }
  }

  // ---------------------------------------------------------------- Exactly the first n bytes

  /** One byte of a buffer. */
  datatype Byte = Byte(page: nat, at: nat)

  function Spread(v: Bvec): (bs: seq<Byte>)
    ensures |bs| == v.len
  {
    seq(v.len, k requires 0 <= k < v.len => Byte(v.page, v.offset + k))
  }

  function VecBytes(vs: seq<Bvec>): seq<Byte> {
    if vs == [] then [] else Spread(vs[0]) + VecBytes(vs[1..])
  }

  function ChainBytes(bios: seq<Bio>): seq<Byte> {
    if bios == [] then [] else VecBytes(bios[0].live) + ChainBytes(bios[1..])
  }

  lemma {:induction false} VecBytesLength(vs: seq<Bvec>)
    ensures |VecBytes(vs)| == Sum(vs)
  {
    if vs != [] { VecBytesLength(vs[1..]); }
  }

  lemma {:induction false} ChainBytesLength(bios: seq<Bio>)
    requires ChainOk(bios)
    ensures |ChainBytes(bios)| == Length(bios)
  {
    if bios != [] {
      assert BioOk(bios[0]) && ChainOk(bios[1..]);
      VecBytesLength(bios[0].live);
      ChainBytesLength(bios[1..]);
    }
  }

  lemma {:induction false} DropAcross(a: seq<Byte>, b: seq<Byte>, n: nat)
    requires n <= |a| + |b|
    ensures (a + b)[n..] == if |a| <= n then b[n - |a|..] else a[n..] + b
  {
  }

  lemma {:induction false} SkipBytes(vs: seq<Bvec>, n: nat)
    requires n < Sum(vs)
    ensures n <= |VecBytes(vs)| && VecBytes(Skip(vs, n)) == VecBytes(vs)[n..]
  {
    VecBytesLength(vs);
    var v := vs[0];
    DropAcross(Spread(v), VecBytes(vs[1..]), n);
    if v.len <= n {
      SkipBytes(vs[1..], n - v.len);
    } else {
      var w := Bvec(v.page, v.offset + n, v.len - n);
      assert Spread(w) == Spread(v)[n..];
      assert Skip(vs, n)[1..] == vs[1..];
    }
  }

  /** The bytes left are the bytes there were without the first `n`. */
  lemma {:induction false} ConsumeBytes(bios: seq<Bio>, n: nat)
    requires ChainOk(bios) && n <= Length(bios)
    ensures |ChainBytes(bios)| == Length(bios)
    ensures ChainBytes(Consume(bios, n)) == ChainBytes(bios)[n..]
  {
    ChainBytesLength(bios);
    if bios != [] {
      var b := bios[0];
      assert BioOk(b) && ChainOk(bios[1..]);
      VecBytesLength(b.live);
      DropAcross(VecBytes(b.live), ChainBytes(bios[1..]), n);
      if b.size <= n {
        ConsumeBytes(bios[1..], n - b.size);
      } else {
        SkipBytes(b.live, n);
        assert Consume(bios, n)[1..] == bios[1..];
      }
    }
  }

  // ---------------------------------------------------------------- Where the bytes go

  predicate WholeSectors(bios: seq<Bio>) {
    forall i :: 0 <= i < |bios| ==> bios[i].size % 512 == 0
  }

  /** A byte and its place on the disk. */
  datatype Placed = Placed(byte: Byte, pos: nat)

  function Place(bs: seq<Byte>, pos: nat): seq<Placed> {
    seq(|bs|, k requires 0 <= k < |bs| => Placed(bs[k], pos + k))
  }

  function DiskBytes(bios: seq<Bio>): seq<Placed> {
    if bios == [] then [] else Place(VecBytes(bios[0].live), bios[0].sector * 512) + DiskBytes(bios[1..])
  }

  lemma {:induction false} DiskBytesLength(bios: seq<Bio>)
    requires ChainOk(bios)
    ensures |DiskBytes(bios)| == Length(bios)
  {
    if bios != [] {
      assert BioOk(bios[0]) && ChainOk(bios[1..]);
      VecBytesLength(bios[0].live);
      DiskBytesLength(bios[1..]);
    }
  }

  lemma {:induction false} SkipVector(vs: seq<Bvec>, n: nat)
    requires n < Sum(vs)
    ensures var k, rest := Passed(vs, n), Skip(vs, n);
            && |rest| == |vs| - k && rest[1..] == vs[k + 1..] && 0 < rest[0].len <= vs[k].len
            && rest[0] == Bvec(vs[k].page, vs[k].offset + vs[k].len - rest[0].len, rest[0].len)
  {
    if vs[0].len <= n { SkipVector(vs[1..], n - vs[0].len); }
  }

  /** A bio's array of vectors stays as it is, but for the vector at `bi_idx`, of which the end is left. */
  lemma {:induction false} VectorsStay(b: Bio, n: nat)
    requires BioOk(b) && n < b.size
    ensures var was, c := b.done + b.live, AdvanceBio(b, n);
            var now, idx := c.done + c.live, |c.done|;
            && |now| == |was| && idx < |now| && |b.done| <= idx
            && (forall i :: 0 <= i < |was| && i != idx ==> now[i] == was[i])
            && 0 < now[idx].len <= was[idx].len && now[idx].page == was[idx].page
            && now[idx].offset + now[idx].len == was[idx].offset + was[idx].len
  {
    SkipVector(b.live, n);
    Aligned(b.done, b.live, Passed(b.live, n), Skip(b.live, n));
    hide Passed, Skip, Sum;
  }

  /** Vectors that move from `live` to `done` stay where they are in the array. */
  lemma {:induction false} Aligned(done: seq<Bvec>, live: seq<Bvec>, k: nat, rest: seq<Bvec>)
    requires k < |live| && |rest| == |live| - k && rest[1..] == live[k + 1..]
    ensures var was, now, idx := done + live, (done + live[..k]) + rest, |done| + k;
            && |now| == |was| && now[idx] == rest[0] && was[idx] == live[k]
            && forall i :: 0 <= i < |was| && i != idx ==> now[i] == was[i]
  {
    assert forall i :: 1 <= i < |rest| ==> rest[i] == rest[1..][i - 1];
  }

  /** The bytes left in a bio keep their places exactly if whole sectors have ended. */
  lemma {:induction false} AdvancePlaces(b: Bio, n: nat)
    requires BioOk(b) && n < b.size
    ensures n < |Place(VecBytes(b.live), b.sector * 512)|
    ensures var was, c := Place(VecBytes(b.live), b.sector * 512), AdvanceBio(b, n);
            var now := Place(VecBytes(c.live), c.sector * 512);
            && |now| == |was| - n && 0 < |now|
            && if n % 512 == 0 then now == was[n..] else now[0] != was[n]
  {
    VecBytesLength(b.live);
    SkipBytes(b.live, n);
    assert (b.sector + n / 512) * 512 == b.sector * 512 + n - n % 512;
  }

  lemma {:induction false} SplitPlaces(a: seq<Placed>, b: seq<Placed>, a': seq<Placed>, n: nat)
    requires n < |a| && |a'| == |a| - n
    ensures (a + b)[n] == a[n] && (a' + b)[0] == a'[0]
    ensures a' == a[n..] ==> a' + b == (a + b)[n..]
  {
  }

  lemma {:induction false} CutPlaces(bios: seq<Bio>, n: nat)
    requires ChainOk(bios) && bios != [] && n < bios[0].size && n < |DiskBytes(bios)|
    ensures DiskBytes(Consume(bios, n)) != []
    ensures if n % 512 == 0 then DiskBytes(Consume(bios, n)) == DiskBytes(bios)[n..]
            else DiskBytes(Consume(bios, n))[0] != DiskBytes(bios)[n]
  {
    var b, rest := bios[0], bios[1..];
    assert BioOk(b);
    AdvancePlaces(b, n);
    hide Place, VecBytes, AdvanceBio, BioOk, ChainOk;
    var c := AdvanceBio(b, n);
    assert Consume(bios, n)[1..] == rest;
    SplitPlaces(Place(VecBytes(b.live), b.sector * 512), DiskBytes(rest), Place(VecBytes(c.live), c.sector * 512), n);
  }

  lemma {:induction false} PastPlaces(bios: seq<Bio>, n: nat)
    requires ChainOk(bios) && bios != [] && bios[0].size <= n < |DiskBytes(bios)|
    ensures ChainOk(bios[1..]) && Consume(bios, n) == Consume(bios[1..], n - bios[0].size)
    ensures n - bios[0].size < |DiskBytes(bios[1..])|
    ensures DiskBytes(bios)[n] == DiskBytes(bios[1..])[n - bios[0].size]
    ensures DiskBytes(bios)[n..] == DiskBytes(bios[1..])[n - bios[0].size..]
  {
    assert BioOk(bios[0]);
    VecBytesLength(bios[0].live);
  }

  /** Every byte that is left still goes to its place on the disk exactly if whole sectors have ended. */
  lemma {:induction false} PlacesKept(bios: seq<Bio>, n: nat)
    requires ChainOk(bios) && WholeSectors(bios) && n < Length(bios)
    ensures |DiskBytes(bios)| == Length(bios) && DiskBytes(Consume(bios, n)) != []
    ensures if n % 512 == 0 then DiskBytes(Consume(bios, n)) == DiskBytes(bios)[n..]
            else DiskBytes(Consume(bios, n))[0] != DiskBytes(bios)[n]
  {
    DiskBytesLength(bios);
    if bios[0].size <= n {
      PastPlaces(bios, n);
      RestWhole(bios, n);
      hide *;
      PlacesKept(bios[1..], n - bios[0].size);
    } else {
      CutPlaces(bios, n);
    }
  }

  lemma {:induction false} RestWhole(bios: seq<Bio>, n: nat)
    requires WholeSectors(bios) && bios != [] && bios[0].size <= n < Length(bios)
    ensures WholeSectors(bios[1..]) && (n - bios[0].size) % 512 == n % 512 && n - bios[0].size < Length(bios[1..])
  {
    assert bios[0].size % 512 == 0;
  }

  /** Each bio starts on the disk where the one before it ends. */
  predicate Follow(bios: seq<Bio>) {
    |bios| > 1 ==> bios[1].sector * 512 == bios[0].sector * 512 + bios[0].size && Follow(bios[1..])
  }

  /** The bios of the request follow each other, and it starts where the first of them does. */
  predicate InStep(r: Req) {
    Follow(r.bios) && (r.fs && r.bios != [] ==> r.sector == r.bios[0].sector)
  }

  lemma {:induction false} ConsumeStart(bios: seq<Bio>, n: nat)
    requires ChainOk(bios) && WholeSectors(bios) && n % 512 == 0 && n < Length(bios) && Follow(bios)
    ensures var left := Consume(bios, n);
            && left != [] && left[0].sector * 512 == bios[0].sector * 512 + n
            && WholeSectors(left) && Follow(left)
  {
    var b, rest := bios[0], bios[1..];
    assert BioOk(b) && ChainOk(rest) && WholeSectors(rest) && b.size % 512 == 0;
    hide Skip, Passed, BioOk, Sum;
    if b.size <= n {
      hide ChainOk, WholeSectors;
      assert rest != [] ==> bios[1] == rest[0];
      ConsumeStart(rest, n - b.size);
    } else {
      var left := Consume(bios, n);
      assert left[1..] == rest;
      hide ChainOk;
    }
  }

  /** While whole sectors end, the request goes on starting where its first bio does. */
  lemma {:induction false} StaysInStep(r: Req, n: nat)
    requires ReqOk(r) && WholeSectors(r.bios) && InStep(r) && n % 512 == 0
    ensures InStep(Update(r, n)) && WholeSectors(Update(r, n).bios)
    ensures r.fs && n < r.len ==> Update(r, n).sector * 512 == r.sector * 512 + n
  {
    ConsumeOk(r.bios, n);
    if r.bios != [] && n < r.len {
      ConsumeStart(r.bios, n);
      hide Consume, ChainOk, Length;
      assert Update(r, n).bios == Consume(r.bios, n);
    }
  }

  /** Each bio ends exactly once: those that end and those that are left make up the chain. */
  lemma {:induction false} EndedOnce(bios: seq<Bio>, n: nat)
    requires ChainOk(bios)
    ensures Ended(bios, n) + Ids(Consume(bios, n)) == Ids(bios)
  {
    hide Skip, Passed, Sum;
    if bios != [] {
      assert BioOk(bios[0]) && ChainOk(bios[1..]);
      if bios[0].size <= n {
        EndedOnce(bios[1..], n - bios[0].size);
      } else {
        assert Consume(bios, n)[1..] == bios[1..];
      }
    }
  }

  // ---------------------------------------------------------------- Splitting a completion

  /** Equal but for the contents of vectors that are already behind `bi_idx`. */
  predicate SameBio(b: Bio, c: Bio) {
    b.id == c.id && b.sector == c.sector && b.size == c.size && |b.done| == |c.done| && b.live == c.live
  }

  predicate SameChain(a: seq<Bio>, b: seq<Bio>) {
    |a| == |b| && forall i :: 0 <= i < |a| ==> SameBio(a[i], b[i])
  }

  lemma {:induction false} SkipTwice(vs: seq<Bvec>, a: nat, b: nat)
    requires a + b < Sum(vs) && forall i :: 0 <= i < |vs| ==> 0 < vs[i].len
    ensures a < Sum(vs) && b < Sum(Skip(vs, a)) && Skip(Skip(vs, a), b) == Skip(vs, a + b)
    ensures Passed(vs, a) + Passed(Skip(vs, a), b) == Passed(vs, a + b)
  {
    SkipSum(vs, a);
    if vs[0].len <= a {
      SkipTwice(vs[1..], a - vs[0].len, b);
    } else {
      assert Skip(vs, a)[1..] == vs[1..];
    }
  }

  lemma {:induction false} AdvanceTwice(x: Bio, a: nat, b: nat)
    requires BioOk(x) && a + b < x.size && a % 512 == 0
    ensures BioOk(AdvanceBio(x, a)) && b < AdvanceBio(x, a).size
    ensures SameBio(AdvanceBio(AdvanceBio(x, a), b), AdvanceBio(x, a + b))
  {
    SkipSum(x.live, a);
    SkipTwice(x.live, a, b);
  }

  lemma {:induction false} ChainTwice(bios: seq<Bio>, a: nat, b: nat)
    requires ChainOk(bios) && WholeSectors(bios) && a % 512 == 0
    ensures ChainOk(Consume(bios, a)) && SameChain(Consume(Consume(bios, a), b), Consume(bios, a + b))
  {
    ConsumeOk(bios, a);
    hide *;
    if bios == [] {
      EmptyTwice(a, b);
    } else if bios[0].size <= a {
      EndFirst(bios, a);
      EndFirst(bios, a + b);
      SectorsLeft(bios, a);
      var a' := a - bios[0].size;
      assert a' + b == a + b - bios[0].size;
      ChainTwice(bios[1..], a', b);
    } else {
      CutTwice(bios, a, b);
    }
  }

  lemma {:induction false} EndedTwice(bios: seq<Bio>, a: nat, b: nat)
    requires ChainOk(bios) && WholeSectors(bios) && a % 512 == 0
    ensures Ended(bios, a) + Ended(Consume(bios, a), b) == Ended(bios, a + b)
  {
    ConsumeOk(bios, a);
    hide *;
    if bios == [] {
      EmptyTwice(a, b);
    } else if bios[0].size <= a {
      EndFirst(bios, a);
      EndFirst(bios, a + b);
      SectorsLeft(bios, a);
      var rest, a' := bios[1..], a - bios[0].size;
      assert a' + b == a + b - bios[0].size;
      EndedTwice(rest, a', b);
      Grouped(bios[0].id, Ended(rest, a'), Ended(Consume(rest, a'), b));
    } else {
      CutTwice(bios, a, b);
    }
  }

  /** Completing `a` bytes and then `b` leaves the same chain as completing `a + b` at once, and ends the
      same bios. */
  lemma {:induction false} ConsumeTwice(bios: seq<Bio>, a: nat, b: nat)
    requires ChainOk(bios) && WholeSectors(bios) && a % 512 == 0
    ensures ChainOk(Consume(bios, a))
    ensures SameChain(Consume(Consume(bios, a), b), Consume(bios, a + b))
    ensures Ended(bios, a) + Ended(Consume(bios, a), b) == Ended(bios, a + b)
  {
    hide *;
    ChainTwice(bios, a, b);
    EndedTwice(bios, a, b);
  }

  lemma {:induction false} Grouped(id: nat, a: seq<nat>, b: seq<nat>)
    ensures [id] + a + b == [id] + (a + b)
  {
  }

  lemma {:induction false} SectorsLeft(bios: seq<Bio>, n: nat)
    requires WholeSectors(bios) && bios != [] && bios[0].size <= n && n % 512 == 0
    ensures WholeSectors(bios[1..]) && (n - bios[0].size) % 512 == 0
  {
    assert bios[0].size % 512 == 0;
  }

  lemma {:induction false} EmptyTwice(a: nat, b: nat)
    ensures ChainOk(Consume([], a)) && SameChain(Consume(Consume([], a), b), Consume([], a + b))
    ensures Ended([], a) + Ended(Consume([], a), b) == Ended([], a + b)
  {
  }

  lemma {:induction false} EndFirst(bios: seq<Bio>, n: nat)
    requires ChainOk(bios) && bios != [] && bios[0].size <= n
    ensures ChainOk(bios[1..])
    ensures Consume(bios, n) == Consume(bios[1..], n - bios[0].size)
    ensures Ended(bios, n) == [bios[0].id] + Ended(bios[1..], n - bios[0].size)
  {
  }

  lemma {:induction false} CutTwice(bios: seq<Bio>, a: nat, b: nat)
    requires ChainOk(bios) && bios != [] && a < bios[0].size && a % 512 == 0 && ChainOk(Consume(bios, a))
    ensures SameChain(Consume(Consume(bios, a), b), Consume(bios, a + b))
    ensures Ended(bios, a) + Ended(Consume(bios, a), b) == Ended(bios, a + b)
  {
    hide Skip, Passed;
    var x := bios[0];
    assert BioOk(x);
    var y, left := AdvanceBio(x, a), Consume(bios, a);
    assert left == [y] + bios[1..] && left[1..] == bios[1..];
    if a + b < x.size {
      AdvanceTwice(x, a, b);
    }
  }

  /** Splitting a completion in two gives the same chain and length always, and the same sector if and
      only if the request is not finished by the second part alone: the call that finishes a request
      returns before it would advance the sector. */
  lemma {:induction false} UpdateTwice(r: Req, a: nat, b: nat)
    requires ReqOk(r) && WholeSectors(r.bios) && a % 512 == 0
    ensures ReqOk(Update(r, a))
    ensures var two, one := Update(Update(r, a), b), Update(r, a + b);
            && SameChain(two.bios, one.bios) && two.len == one.len && two.fs == one.fs
            && (two.sector == one.sector <==> !r.fs || a == 0 || r.len <= a || a + b < r.len)
  {
    ConsumeOk(r.bios, a);
    ConsumeOk(r.bios, a + b);
    ConsumeTwice(r.bios, a, b);
    var r1 := Update(r, a);
    ConsumeOk(r1.bios, b);
    if r.bios != [] && r1.bios != [] {
      assert a / 512 + b / 512 == (a + b) / 512;
      assert a != 0 ==> 0 < a / 512;
    }
  }

  /** Two sectors completed one by one move the start of the request by one; completed at once they do not. */
  lemma {:induction false} SectorDiffers()
    ensures var r := Req([Bio(0, 0, 1024, [], [Bvec(0, 0, 1024)])], 0, 1024, true);
            && ReqOk(r) && ReqOk(Update(r, 512))
            && Update(Update(r, 512), 512).sector != Update(r, 1024).sector
  {
    var v := Bvec(0, 0, 1024);
    var x := Bio(0, 0, 1024, [], [v]);
    var r := Req([x], 0, 1024, true);
    assert Sum([v]) == 1024 && Length([x]) == 1024;
    assert WholeSectors(r.bios);
    UpdateTwice(r, 512, 512);
  }

  /** The vectors already passed are not the same: a vector that the first part cut in the middle keeps
      the cut. */
  lemma {:induction false} StaleVectorDiffers()
    ensures var x := Bio(0, 0, 2048, [], [Bvec(0, 0, 1024), Bvec(1, 0, 1024)]);
            && BioOk(x) && BioOk(AdvanceBio(x, 512))
            && AdvanceBio(AdvanceBio(x, 512), 512) != AdvanceBio(x, 1024)
  {
    var v, w := Bvec(0, 0, 1024), Bvec(1, 0, 1024);
    var x := Bio(0, 0, 2048, [], [v, w]);
    assert Sum([w]) == 1024 && [v, w][1..] == [w];
    var y := AdvanceBio(x, 512);
    var v' := Bvec(0, 512, 512);
    assert Skip([v, w], 512) == [v', w] && Passed([v, w], 512) == 0;
    assert y.live == [v', w] && y.done == [];
    assert [v', w][1..] == [w] && Sum([v', w]) == 1536;
    assert Passed([v', w], 512) == 1 && Passed([v, w], 1024) == 1;
    assert AdvanceBio(y, 512).done == [v'] && AdvanceBio(x, 1024).done == [v];
  }

  // ---------------------------------------------------------------- The loop

  class Request {
    var bios: seq<Bio>
    var sector: nat
    var len: nat
    const fs: bool

    ghost function Value(): Req
      reads this
    {
      Req(bios, sector, len, fs)
    }

    /** A request over a chain of bios that nothing has been completed of. */
    constructor (chain: seq<Bio>, start: nat, isFs: bool)
      requires ChainOk(chain)
      ensures bios == chain && sector == start && fs == isFs && ReqOk(Value())
    {
      bios, sector, len, fs := chain, start, Length(chain), isFs;
    }

    /** The loop of `blk_update_request`: end whole bios, then walk over whole vectors of the bio the last
        byte falls in. The branch that reports a vector index past the end of the bio is not reachable. */
    method EndBytes(nrBytes: nat) returns (total: int, bioBytes: int, nextIdx: int, nr: int, ended: seq<nat>)
      requires ChainOk(bios)
      modifies this`bios
      ensures ChainOk(bios) && ended == Ended(old(bios), nrBytes)
      ensures bios == [] ==> Consume(old(bios), nrBytes) == []
      ensures bios != [] ==> && total == nrBytes && BioOk(bios[0]) && Stopped(bios[0], nextIdx, bioBytes, nr)
                             && Consume(old(bios), nrBytes) == Consume(bios, bioBytes)
    {
      hide Consume, Ended, Skip, Passed, Sum, Within, Stopped, BioOk;
      nr, total, bioBytes, nextIdx, ended := nrBytes, 0, 0, 0, [];
      AtStart(bios, nr);
      while bios != []
        invariant ChainOk(bios) && 0 <= nr && 0 <= bioBytes && total + nr == nrBytes
        invariant Consume(old(bios), nrBytes) == Consume(bios, bioBytes + nr)
        invariant Ended(old(bios), nrBytes) == ended + Ended(bios, bioBytes + nr)
        invariant Within(bios, nextIdx, bioBytes, nr)
        decreases |bios|, if bios == [] then 0 else |bios[0].live| - nextIdx
      {
        var b := bios[0];
        var nbytes;
        if nr >= b.size {
          EndWhole(bios, nextIdx, bioBytes, nr);
          bios := bios[1..];
          nbytes := b.size;
          ended := ended + [b.id];
          nextIdx := 0;
          bioBytes := 0;
        } else {
          StepOver(bios, nextIdx, bioBytes, nr);
          assert nextIdx < |b.live|; // bio idx < vcnt
          nbytes := b.live[nextIdx].len;
          if nbytes > nr {
            bioBytes := bioBytes + nr;
            total := total + nr;
            break;
          }
          nextIdx := nextIdx + 1;
          bioBytes := bioBytes + nbytes;
        }
        total := total + nbytes;
        nr := nr - nbytes;
        if bios != [] && nr <= 0 {
          StepOver(bios, nextIdx, bioBytes, 0);
          break;
        }
      }
      NothingEnds(bios, bioBytes);
    }

    /** `blk_update_request`. The branch that reports a botched request is not reachable. */
    method UpdateRequest(nrBytes: nat) returns (more: bool, ended: seq<nat>)
      requires ReqOk(Value())
      modifies this`bios, this`sector, this`len
      ensures Value() == Update(old(Value()), nrBytes) && ReqOk(Value())
      ensures ended == Ended(old(bios), nrBytes)
      ensures more <==> nrBytes < old(len)
    {
      hide Consume, Ended, Skip, Passed, Sum, Stopped, BioOk;
      ConsumeOk(bios, nrBytes);
      NothingLeft(bios, nrBytes);
      if bios == [] {
        return false, [];
      }
      var total, bioBytes, nextIdx, nr;
      total, bioBytes, nextIdx, nr, ended := EndBytes(nrBytes);
      if bios == [] {
        len := 0;
        return false, ended;
      }
      AdvanceFirst(bioBytes, nextIdx, nr);
      len := len - total;
      if fs {
        sector := sector + total / 512;
      }
      FirstVector(bios);
      assert bios[0].live[0].len <= len; // blk_rq_bytes(req) >= blk_rq_cur_bytes(req)
      more := true;
    }

    /** The first bio that is left is advanced to where the loop stopped. */
    method AdvanceFirst(bioBytes: int, nextIdx: int, nr: int)
      requires ChainOk(bios) && bios != [] && BioOk(bios[0]) && Stopped(bios[0], nextIdx, bioBytes, nr)
      modifies this`bios
      ensures 0 <= bioBytes && bios == Consume(old(bios), bioBytes) && bios != []
    {
      StoppedAdvance(bios, nextIdx, bioBytes, nr);
      hide Consume, Skip, Passed, Sum;
      if bioBytes != 0 {
        var b := bios[0];
        var v := b.live[nextIdx];
        bios := [Bio(b.id, b.sector + bioBytes / 512, b.size - bioBytes, b.done + b.live[..nextIdx],
                     [Bvec(v.page, v.offset + nr, v.len - nr)] + b.live[nextIdx + 1..])] + bios[1..];
      }
    }
  }

  lemma {:induction false} AtStart(bios: seq<Bio>, nr: nat)
    ensures Within(bios, 0, 0, nr)
  {
    assert bios != [] ==> bios[0].live[..0] == [];
  }

  /** The whole first bio ends; that happens only before any of its vectors has been walked over. */
  lemma {:induction false} EndWhole(bios: seq<Bio>, k: int, bytes: int, nr: int)
    requires ChainOk(bios) && bios != [] && Within(bios, k, bytes, nr) && bios[0].size <= nr && 0 <= bytes
    ensures k == 0 && bytes == 0 && ChainOk(bios[1..]) && Within(bios[1..], 0, 0, nr - bios[0].size)
    ensures Consume(bios, nr) == Consume(bios[1..], nr - bios[0].size)
    ensures Ended(bios, nr) == [bios[0].id] + Ended(bios[1..], nr - bios[0].size)
  {
    assert bios[0].live[..0] == [];
    AtStart(bios[1..], nr - bios[0].size);
    EndFirst(bios, nr);
  }

  /** Inside the first bio the walk either stops in the next vector or passes it whole. */
  lemma {:induction false} StepOver(bios: seq<Bio>, k: int, bytes: int, nr: int)
    requires ChainOk(bios) && bios != [] && Within(bios, k, bytes, nr) && 0 <= bytes
    requires 0 <= nr && (nr == 0 || nr < bios[0].size)
    ensures 0 <= k < |bios[0].live|
    ensures var len := bios[0].live[k].len;
            && 0 < len
            && (nr < len ==> bytes + nr < bios[0].size && BioOk(bios[0]) && Stopped(bios[0], k, bytes + nr, nr))
            && (len <= nr ==> Within(bios, k + 1, bytes + len, nr - len))
  {
    assert BioOk(bios[0]);
    assert bios[0].live[..0] == [];
    PassedSoFar(bios[0].live, k, bytes, nr);
  }

  lemma {:induction false} NothingEnds(bios: seq<Bio>, n: int)
    requires ChainOk(bios) && 0 <= n && (bios == [] || n < bios[0].size)
    ensures Ended(bios, n) == [] && (bios == [] ==> forall m: nat :: Consume(bios, m) == [] && Ended(bios, m) == [])
  {
  }

  lemma {:induction false} NothingLeft(bios: seq<Bio>, n: nat)
    ensures bios == [] ==> Ended(bios, n) == [] && Length(bios) == 0
  {
  }

  lemma {:induction false} FirstVector(bios: seq<Bio>)
    requires ChainOk(bios) && bios != []
    ensures bios[0].live != [] && bios[0].live[0].len <= Length(bios)
  {
    assert BioOk(bios[0]);
  }

  lemma {:induction false} StoppedAdvance(bios: seq<Bio>, k: int, bytes: int, nr: int)
    requires ChainOk(bios) && bios != [] && Stopped(bios[0], k, bytes, nr)
    ensures var b := bios[0]; var v := b.live[k];
            Consume(bios, bytes) == [Bio(b.id, b.sector + bytes / 512, b.size - bytes, b.done + b.live[..k],
                                         [Bvec(v.page, v.offset + nr, v.len - nr)] + b.live[k + 1..])] + bios[1..]
    ensures bytes == 0 ==> Consume(bios, bytes) == bios
  {
    var b := bios[0];
    assert BioOk(b);
    if bytes == 0 {
      assert Skip(b.live, 0) == b.live && Passed(b.live, 0) == 0;
      assert AdvanceBio(b, 0) == b && bios == [b] + bios[1..];
    }
  }

  /** Where the loop stopped inside a bio. */
  ghost predicate Stopped(b: Bio, k: int, bytes: int, nr: int)
    requires BioOk(b)
  {
    && 0 <= k < |b.live| && 0 <= bytes < b.size && 0 <= nr < b.live[k].len
    && Passed(b.live, bytes) == k
    && Skip(b.live, bytes) == [Bvec(b.live[k].page, b.live[k].offset + nr, b.live[k].len - nr)] + b.live[k + 1..]
  }

  /** Where the loop is inside the first bio: past `k` whole vectors of `bytes` bytes. */
  ghost predicate Within(bios: seq<Bio>, k: int, bytes: int, nr: int) {
    && (bios == [] ==> k == 0 && bytes == 0)
    && (bios != [] ==> && 0 <= k <= |bios[0].live| && bytes == Sum(bios[0].live[..k])
                       && (k == 0 || bytes + nr < bios[0].size))
  }

  lemma {:induction false} PassedSoFar(vs: seq<Bvec>, k: nat, bytes: nat, nr: nat)
    requires k <= |vs| && bytes == Sum(vs[..k]) && bytes + nr < Sum(vs)
    ensures k < |vs| && Sum(vs[..k + 1]) == bytes + vs[k].len
    ensures vs[k].len > nr ==> Passed(vs, bytes + nr) == k
                               && Skip(vs, bytes + nr) ==
                                  [Bvec(vs[k].page, vs[k].offset + nr, vs[k].len - nr)] + vs[k + 1..]
  {
    if k == 0 {
      assert vs[..0] == [] && vs[..1] == [vs[0]];
      assert Sum(vs[..1][1..]) == 0;
    } else {
      assert vs[..k][1..] == vs[1..][..k - 1];
      assert k < |vs| ==> vs[..k + 1][1..] == vs[1..][..k];
      PassedSoFar(vs[1..], k - 1, bytes - vs[0].len, nr);
    }
  }
}
