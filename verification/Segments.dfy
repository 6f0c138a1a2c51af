/** Physical segments of a request, block/blk-merge.c: the counter that sizes a request, the mapper
    that later emits its scatter-gather entries, and the merges that keep the count up to date
    without recounting. */
module Segments {

  datatype Bvec = Bvec(page: nat, offset: nat, len: nat)

  /** Queue limits. Which adjacent vectors touch in memory and stay within one segment boundary,
      and which pages are above the bounce limit, is left open. */
  datatype Limits = Limits(cluster: bool, maxSize: nat, maxSegments: nat, maxSectors: nat,
                           join: (Bvec, Bvec) -> bool, high: Bvec -> bool)

  function Max(a: nat, b: nat): nat { if a < b then b else a }

  // ---------------------------------------------------------------- The mapper and the counter

  /** `v` cannot be added to an open segment of `size` bytes that ends in `prev`. */
  predicate Cut(q: Limits, prev: Bvec, size: nat, v: Bvec) {
    !q.cluster || size + v.len > q.maxSize || !q.join(prev, v)
  }

  /** How many more entries `blk_rq_map_sg` emits for `vs`. */
  function MapFrom(q: Limits, prev: Bvec, size: nat, vs: seq<Bvec>): nat
    decreases |vs|
  {
    if vs == [] then 0
    else if Cut(q, prev, size, vs[0]) then 1 + MapFrom(q, vs[0], vs[0].len, vs[1..])
    else MapFrom(q, vs[0], size + vs[0].len, vs[1..])
  }

  function MapCount(q: Limits, vs: seq<Bvec>): nat {
    if vs == [] then 0 else 1 + MapFrom(q, vs[0], vs[0].len, vs[1..])
  }

  /** Where the counter of `__blk_recalc_rq_segments` starts a new segment: wherever the mapper
      must, and on both sides of a high page. */
  function CountMarks(q: Limits, prev: Bvec, size: nat, vs: seq<Bvec>): (ms: seq<bool>)
    ensures |ms| == |vs|
    decreases |vs|
  {
    if vs == [] then []
    else if q.high(vs[0]) || q.high(prev) || Cut(q, prev, size, vs[0]) then
      [true] + CountMarks(q, vs[0], vs[0].len, vs[1..])
    else [false] + CountMarks(q, vs[0], size + vs[0].len, vs[1..])
  }

  function RecountMarks(q: Limits, vs: seq<Bvec>): (ms: seq<bool>)
    ensures |ms| == |vs|
  {
    if vs == [] then [] else [true] + CountMarks(q, vs[0], vs[0].len, vs[1..])
  }

  // ---------------------------------------------------------------- Segmentations

  /** A segmentation marks the vectors that open a segment. */
  function Count(ms: seq<bool>): nat {
    if ms == [] then 0 else (if ms[0] then 1 else 0) + Count(ms[1..])
  }

  predicate ValidFrom(q: Limits, prev: Bvec, size: nat, vs: seq<Bvec>, ms: seq<bool>)
    requires |vs| == |ms|
    decreases |vs|
  {
    vs == [] ||
    (if ms[0] then ValidFrom(q, vs[0], vs[0].len, vs[1..], ms[1..])
     else !Cut(q, prev, size, vs[0]) && ValidFrom(q, vs[0], size + vs[0].len, vs[1..], ms[1..]))
  }

  /** A segmentation of `vs` that the hardware would accept. */
  predicate Valid(q: Limits, vs: seq<Bvec>, ms: seq<bool>) {
    vs != [] && |vs| == |ms| && ms[0] && ValidFrom(q, vs[0], 0, vs, ms)
  }

  /** Bytes before the first mark. */
  function Head(vs: seq<Bvec>, ms: seq<bool>): nat
    requires |vs| == |ms|
  {
    if vs == [] || ms[0] then 0 else vs[0].len + Head(vs[1..], ms[1..])
  }

  /** Bytes in the open segment after `vs`. */
  function SizeAfter(size: nat, vs: seq<Bvec>, ms: seq<bool>): nat
    requires |vs| == |ms|
    decreases |vs|
  {
    if vs == [] then size
    else SizeAfter(if ms[0] then vs[0].len else size + vs[0].len, vs[1..], ms[1..])
  }

  function FirstSize(vs: seq<Bvec>, ms: seq<bool>): nat
    requires |vs| == |ms| && vs != []
  {
    vs[0].len + Head(vs[1..], ms[1..])
  }

  function LastSize(vs: seq<Bvec>, ms: seq<bool>): nat
    requires |vs| == |ms|
  {
    SizeAfter(0, vs, ms)
  }

  // ---------------------------------------------------------------- The mapper is minimal

  /** The greedy mapper never falls behind any segmentation, and by at most one segment if its open
      segment is the larger one. */
  lemma {:induction false} StaysAhead(q: Limits, prev: Bvec, mine: nat, theirs: nat, vs: seq<Bvec>, ms: seq<bool>)
    requires |vs| == |ms| && ValidFrom(q, prev, theirs, vs, ms)
    ensures MapFrom(q, prev, mine, vs) <= Count(ms) + if mine <= theirs then 0 else 1
    decreases |vs|
  {
    if vs != [] {
      var v := vs[0];
      var mine' := if Cut(q, prev, mine, v) then v.len else mine + v.len;
      var theirs' := if ms[0] then v.len else theirs + v.len;
      StaysAhead(q, v, mine', theirs', vs[1..], ms[1..]);
    }
  }

  /** No acceptable segmentation has fewer segments than the mapper emits entries. */
  lemma {:induction false} MapperMinimal(q: Limits, vs: seq<Bvec>, ms: seq<bool>)
    requires Valid(q, vs, ms)
    ensures MapCount(q, vs) <= Count(ms)
  {
    StaysAhead(q, vs[0], vs[0].len, vs[0].len, vs[1..], ms[1..]);
  }

  /** The counter's segmentation is acceptable. */
  lemma {:induction false} CountMarksValid(q: Limits, prev: Bvec, size: nat, vs: seq<Bvec>)
    ensures ValidFrom(q, prev, size, vs, CountMarks(q, prev, size, vs))
    decreases |vs|
  {
    if vs != [] {
      var ms := CountMarks(q, prev, size, vs);
      CountMarksValid(q, vs[0], if ms[0] then vs[0].len else size + vs[0].len, vs[1..]);
    }
  }

  // ---------------------------------------------------------------- Joining segmentations

  lemma {:induction false} ValidConcat(q: Limits, prev: Bvec, size: nat, vs: seq<Bvec>, ms: seq<bool>, ws: seq<Bvec>,
                                       ns: seq<bool>)
    requires |vs| == |ms| && |ws| == |ns|
    requires ValidFrom(q, prev, size, vs, ms)
    requires ValidFrom(q, if vs == [] then prev else vs[|vs| - 1], SizeAfter(size, vs, ms), ws, ns)
    ensures ValidFrom(q, prev, size, vs + ws, ms + ns)
    decreases |vs|
  {
    if vs == [] {
      assert vs + ws == ws && ms + ns == ns;
    } else {
      assert (vs + ws)[1..] == vs[1..] + ws && (ms + ns)[1..] == ms[1..] + ns;
      ValidConcat(q, vs[0], if ms[0] then vs[0].len else size + vs[0].len, vs[1..], ms[1..], ws, ns);
    }
  }

  lemma {:induction false} CountConcat(ms: seq<bool>, ns: seq<bool>)
    ensures Count(ms + ns) == Count(ms) + Count(ns)
  {
    if ms == [] {
      assert ms + ns == ns;
    } else {
      assert (ms + ns)[1..] == ms[1..] + ns;
      CountConcat(ms[1..], ns);
    }
  }

  lemma {:induction false} SizeAfterConcat(size: nat, vs: seq<Bvec>, ms: seq<bool>, ws: seq<Bvec>, ns: seq<bool>)
    requires |vs| == |ms| && |ws| == |ns|
    ensures SizeAfter(size, vs + ws, ms + ns) == SizeAfter(SizeAfter(size, vs, ms), ws, ns)
    decreases |vs|
  {
    if vs == [] {
      assert vs + ws == ws && ms + ns == ns;
    } else {
      assert (vs + ws)[1..] == vs[1..] + ws && (ms + ns)[1..] == ms[1..] + ns;
      SizeAfterConcat(if ms[0] then vs[0].len else size + vs[0].len, vs[1..], ms[1..], ws, ns);
    }
  }

  lemma {:induction false} HeadConcat(vs: seq<Bvec>, ms: seq<bool>, ws: seq<Bvec>, ns: seq<bool>)
    requires |vs| == |ms| && |ws| == |ns|
    ensures Head(vs + ws, ms + ns) == Head(vs, ms) + if Count(ms) == 0 then Head(ws, ns) else 0
    decreases |vs|
  {
    if vs == [] {
      assert vs + ws == ws && ms + ns == ns;
    } else {
      assert (vs + ws)[1..] == vs[1..] + ws && (ms + ns)[1..] == ms[1..] + ns;
      HeadConcat(vs[1..], ms[1..], ws, ns);
    }
  }

  /** With no mark the open segment just grows; with one, its old size no longer matters. */
  lemma {:induction false} SizeAfterGrows(size: nat, size': nat, vs: seq<Bvec>, ms: seq<bool>)
    requires |vs| == |ms| && size <= size'
    ensures SizeAfter(size', vs, ms) == SizeAfter(size, vs, ms) + if Count(ms) == 0 then size' - size else 0
    ensures Count(ms) == 0 ==> SizeAfter(size, vs, ms) == size + Head(vs, ms)
    decreases |vs|
  {
    if vs != [] {
      SizeAfterGrows(if ms[0] then vs[0].len else size + vs[0].len,
                     if ms[0] then vs[0].len else size' + vs[0].len, vs[1..], ms[1..]);
    }
  }

  /** A larger open segment still takes what follows, as long as it fits. */
  lemma {:induction false} ValidGrows(q: Limits, prev: Bvec, size: nat, size': nat, vs: seq<Bvec>, ms: seq<bool>)
    requires |vs| == |ms| && ValidFrom(q, prev, size, vs, ms) && size <= size' && size' + Head(vs, ms) <= q.maxSize
    ensures ValidFrom(q, prev, size', vs, ms)
    decreases |vs|
  {
    if vs != [] && !ms[0] {
      ValidGrows(q, vs[0], size + vs[0].len, size' + vs[0].len, vs[1..], ms[1..]);
    }
  }

  // ---------------------------------------------------------------- Bios and requests

  datatype Bio = Bio(vecs: seq<Bvec>, segValid: bool, physSegs: nat, front: nat, back: nat)

  /** `special` marks a requeued request; `len` is `__data_len`. */
  datatype Req = Req(bios: seq<Bio>, nr: nat, len: nat, special: bool)

  function Vecs(bios: seq<Bio>): seq<Bvec> {
    if bios == [] then [] else bios[0].vecs + Vecs(bios[1..])
  }

  function Bytes(vs: seq<Bvec>): nat {
    if vs == [] then 0 else vs[0].len + Bytes(vs[1..])
  }

  /** There is an acceptable segmentation of exactly `nr` segments whose first and last are no
      larger than recorded. */
  ghost predicate Witnessed(q: Limits, vs: seq<Bvec>, nr: nat, front: nat, back: nat) {
    exists ms :: Witness(q, vs, ms, nr, front, back)
  }

  predicate Witness(q: Limits, vs: seq<Bvec>, ms: seq<bool>, nr: nat, front: nat, back: nat) {
    Valid(q, vs, ms) && Count(ms) == nr && FirstSize(vs, ms) <= front && LastSize(vs, ms) <= back
  }

  predicate HasData(bios: seq<Bio>) {
    bios != [] && forall i :: 0 <= i < |bios| ==> bios[i].vecs != []
  }

  /** A bio whose cached count is marked valid really has it. */
  ghost predicate BioOk(q: Limits, b: Bio) {
    b.vecs != [] && (b.segValid ==> Witnessed(q, b.vecs, b.physSegs, b.front, b.back))
  }

  ghost predicate ReqOk(q: Limits, r: Req) {
    HasData(r.bios) && Witnessed(q, Vecs(r.bios), r.nr, r.bios[0].front, r.bios[|r.bios| - 1].back)
  }

  /** `__blk_recalc_rq_segments` raises the first bio's front size and the last bio's back size. */
  function Remeasured(q: Limits, bios: seq<Bio>): (bs: seq<Bio>)
    requires HasData(bios)
    ensures |bs| == |bios|
  {
    var vs := Vecs(bios);
    VecsNonempty(bios);
    var ms := RecountMarks(q, vs);
    var n := |bios| - 1;
    var fronted := bios[0 := bios[0].(front := Max(bios[0].front, FirstSize(vs, ms)))];
    fronted[n := fronted[n].(back := Max(fronted[n].back, LastSize(vs, ms)))]
  }

  lemma {:induction false} VecsNonempty(bios: seq<Bio>)
    requires HasData(bios)
    ensures Vecs(bios) != []
  {
    assert bios[0].vecs != [];
  }

  lemma {:induction false} VecsConcat(a: seq<Bio>, b: seq<Bio>)
    ensures Vecs(a + b) == Vecs(a) + Vecs(b)
  {
    if a == [] {
      assert a + b == b;
    } else {
      assert (a + b)[1..] == a[1..] + b;
      VecsConcat(a[1..], b);
    }
  }

  lemma {:induction false} VecsSame(a: seq<Bio>, b: seq<Bio>)
    requires |a| == |b| && forall i :: 0 <= i < |a| ==> a[i].vecs == b[i].vecs
    ensures Vecs(a) == Vecs(b)
  {
    if a != [] {
      assert a[0].vecs == b[0].vecs;
      VecsSame(a[1..], b[1..]);
    }
  }

  /** A recount is witnessed by the counter's own segmentation. */
  lemma {:induction false} RecountWitness(q: Limits, vs: seq<Bvec>, front: nat, back: nat)
    requires vs != []
    ensures var ms := RecountMarks(q, vs);
            Witness(q, vs, ms, Count(ms), Max(front, FirstSize(vs, ms)), Max(back, LastSize(vs, ms)))
  {
    var ms := RecountMarks(q, vs);
    CountMarksValid(q, vs[0], vs[0].len, vs[1..]);
    assert ms[1..] == CountMarks(q, vs[0], vs[0].len, vs[1..]);
  }

  /** `blk_recalc_rq_segments`. */
  function Recalc(q: Limits, r: Req): Req
    requires HasData(r.bios)
  {
    r.(bios := Remeasured(q, r.bios), nr := Count(RecountMarks(q, Vecs(r.bios))))
  }

  lemma {:induction false} RecalcOk(q: Limits, r: Req)
    requires HasData(r.bios)
    ensures ReqOk(q, Recalc(q, r))
  {
    var r' := Recalc(q, r);
    var vs, n := Vecs(r.bios), |r.bios| - 1;
    VecsNonempty(r.bios);
    VecsSame(r'.bios, r.bios);
    RecountWitness(q, vs, r.bios[0].front, r.bios[n].back);
    assert Witness(q, Vecs(r'.bios), RecountMarks(q, vs), r'.nr, r'.bios[0].front, r'.bios[n].back);
  }

  // ---------------------------------------------------------------- Merging

  /** `blk_recount_segments`: recount one bio on its own. */
  function Recount(q: Limits, b: Bio): Bio
    requires b.vecs != []
  {
    var ms := RecountMarks(q, b.vecs);
    b.(segValid := true, physSegs := Count(ms), front := Max(b.front, FirstSize(b.vecs, ms)),
       back := Max(b.back, LastSize(b.vecs, ms)))
  }

  /** `bio_phys_segments` leaves a bio whose cached count is valid. */
  function Counted(q: Limits, b: Bio): Bio
    requires b.vecs != []
  {
    if b.segValid then b else Recount(q, b)
  }

  lemma {:induction false} CountedOk(q: Limits, b: Bio)
    requires BioOk(q, b)
    ensures var b' := Counted(q, b);
            && b'.vecs == b.vecs && b'.front >= b.front && b'.back >= b.back
            && Witnessed(q, b'.vecs, b'.physSegs, b'.front, b'.back)
  {
    if !b.segValid {
      RecountWitness(q, b.vecs, b.front, b.back);
      var b' := Recount(q, b);
      assert Witness(q, b'.vecs, RecountMarks(q, b.vecs), b'.physSegs, b'.front, b'.back);
    }
  }

  /** `blk_rq_bio_prep`: a request made of one bio. */
  function Prep(q: Limits, b: Bio): Req
    requires b.vecs != []
  {
    var b' := Counted(q, b);
    Req([b'], b'.physSegs, Bytes(b.vecs), false)
  }

  datatype Merge = Merge(ok: bool, req: Req)

  /** `ll_back_merge_fn` and, when it agrees, the linking done by `__make_request`. */
  function BackMerge(q: Limits, r: Req, b: Bio): Merge
    requires HasData(r.bios) && b.vecs != []
  {
    if r.len / 512 + Bytes(b.vecs) / 512 > q.maxSectors then Merge(false, r)
    else
      var n := |r.bios| - 1;
      var r' := r.(bios := r.bios[n := Counted(q, r.bios[n])]);
      var b' := Counted(q, b);
      if r.nr + b'.physSegs > q.maxSegments then Merge(false, r')
      else Merge(true, r'.(bios := r'.bios + [b'], nr := r.nr + b'.physSegs, len := r.len + Bytes(b.vecs)))
  }

  function FrontMerge(q: Limits, r: Req, b: Bio): Merge
    requires HasData(r.bios) && b.vecs != []
  {
    if r.len / 512 + Bytes(b.vecs) / 512 > q.maxSectors then Merge(false, r)
    else
      var r' := r.(bios := r.bios[0 := Counted(q, r.bios[0])]);
      var b' := Counted(q, b);
      if r.nr + b'.physSegs > q.maxSegments then Merge(false, r')
      else Merge(true, r'.(bios := [b'] + r'.bios, nr := r.nr + b'.physSegs, len := r.len + Bytes(b.vecs)))
  }

  /** `blk_phys_contig_segment` on the tail of one request and the head of the next. */
  predicate Contig(q: Limits, r: Req, next: Req)
    requires HasData(r.bios) && HasData(next.bios)
  {
    var tail, head := r.bios[|r.bios| - 1], next.bios[0];
    q.cluster && tail.back + head.front <= q.maxSize && q.join(tail.vecs[|tail.vecs| - 1], head.vecs[0])
  }

  function Fronted(r: Req, size: nat): (r': Req)
    requires HasData(r.bios)
    ensures HasData(r'.bios) && Vecs(r'.bios) == Vecs(r.bios)
    ensures r'.nr == r.nr && r'.len == r.len && r'.special == r.special
  {
    var bios := r.bios[0 := r.bios[0].(front := size)];
    VecsSame(bios, r.bios);
    r.(bios := bios)
  }

  function Backed(r: Req, size: nat): (r': Req)
    requires HasData(r.bios)
    ensures HasData(r'.bios) && Vecs(r'.bios) == Vecs(r.bios)
    ensures r'.nr == r.nr && r'.len == r.len && r'.special == r.special
  {
    var n := |r.bios| - 1;
    var bios := r.bios[n := r.bios[n].(back := size)];
    VecsSame(bios, r.bios);
    r.(bios := bios)
  }

  datatype Joined = Joined(ok: bool, req: Req, next: Req)

  /** `ll_merge_requests_fn`. The recorded sizes of the two requests are changed as soon as they
      touch in memory, even if the merge is then refused for having too many segments. */
  function MergeRequests(q: Limits, r: Req, next: Req): (j: Joined)
    requires HasData(r.bios) && HasData(next.bios) && 1 <= r.nr
    ensures HasData(j.req.bios) && HasData(j.next.bios)
  {
    if r.special || next.special || r.len / 512 + next.len / 512 > q.maxSectors then Joined(false, r, next)
    else
      var n := |r.bios| - 1;
      var contig := Contig(q, r, next);
      var size := r.bios[n].back + next.bios[0].front;
      var r' := if contig && r.nr == 1 then Fronted(r, size) else r;
      var next' := if contig && next.nr == 1 then Backed(next, size) else next;
      var total := r.nr + next.nr - (if contig then 1 else 0);
      if total > q.maxSegments then Joined(false, r', next')
      else Joined(true, r'.(bios := r'.bios + next'.bios, nr := total, len := r.len + next.len), next')
  }

  /** Two segmentations side by side. */
  lemma {:induction false} SideBySide(q: Limits, vs: seq<Bvec>, nr: nat, front: nat, back: nat, ws: seq<Bvec>, nr': nat,
                                      front': nat, back': nat)
    requires Witnessed(q, vs, nr, front, back) && Witnessed(q, ws, nr', front', back')
    ensures Witnessed(q, vs + ws, nr + nr', front, back')
  {
    var ms :| Witness(q, vs, ms, nr, front, back);
    var ns :| Witness(q, ws, ns, nr', front', back');
    var xs := ms + ns;
    ValidConcat(q, vs[0], 0, vs, ms, ws, ns);
    CountConcat(ms, ns);
    assert (vs + ws)[1..] == vs[1..] + ws && xs[1..] == ms[1..] + ns;
    HeadConcat(vs[1..], ms[1..], ws, ns);
    SizeAfterConcat(0, vs, ms, ws, ns);
    assert Witness(q, vs + ws, xs, nr + nr', front, back');
  }

  /** Two segmentations whose touching segments are fused into one. */
  lemma {:induction false} Fused(q: Limits, vs: seq<Bvec>, nr: nat, front: nat, back: nat, ws: seq<Bvec>, nr': nat,
                                 front': nat, back': nat)
    requires Witnessed(q, vs, nr, front, back) && Witnessed(q, ws, nr', front', back')
    requires q.cluster && back + front' <= q.maxSize && q.join(vs[|vs| - 1], ws[0])
    ensures 1 <= nr + nr' - 1
    ensures Witnessed(q, vs + ws, nr + nr' - 1, if nr == 1 then back + front' else front,
                      if nr' == 1 then back + front' else back')
  {
    var ms :| Witness(q, vs, ms, nr, front, back);
    var ns :| Witness(q, ws, ns, nr', front', back');
    var xs := ms + ([false] + ns[1..]);
    FusedMarks(q, vs, ms, ws, ns);
    assert Witness(q, vs + ws, xs, nr + nr' - 1, if nr == 1 then back + front' else front,
                   if nr' == 1 then back + front' else back');
  }

  lemma {:induction false} FusedMarks(q: Limits, vs: seq<Bvec>, ms: seq<bool>, ws: seq<Bvec>, ns: seq<bool>)
    requires Valid(q, vs, ms) && Valid(q, ws, ns)
    requires q.cluster && LastSize(vs, ms) + FirstSize(ws, ns) <= q.maxSize && q.join(vs[|vs| - 1], ws[0])
    ensures var xs := ms + ([false] + ns[1..]);
            && Valid(q, vs + ws, xs) && Count(xs) == Count(ms) + Count(ns) - 1
            && FirstSize(vs + ws, xs) ==
               (if Count(ms) == 1 then LastSize(vs, ms) + FirstSize(ws, ns) else FirstSize(vs, ms))
            && LastSize(vs + ws, xs) ==
               (if Count(ns) == 1 then LastSize(vs, ms) + FirstSize(ws, ns) else LastSize(ws, ns))
  {
    var ns' := [false] + ns[1..];
    var xs, open := ms + ns', LastSize(vs, ms);
    assert ns'[1..] == ns[1..];
    ValidGrows(q, ws[0], ws[0].len, open + ws[0].len, ws[1..], ns[1..]);
    ValidConcat(q, vs[0], 0, vs, ms, ws, ns');
    CountConcat(ms, ns');
    assert (vs + ws)[1..] == vs[1..] + ws && xs[1..] == ms[1..] + ns';
    HeadConcat(vs[1..], ms[1..], ws, ns');
    SizeAfterConcat(0, vs, ms, ws, ns');
    SizeAfterGrows(vs[0].len, vs[0].len, vs[1..], ms[1..]);
    SizeAfterGrows(ws[0].len, open + ws[0].len, ws[1..], ns[1..]);
  }

  // ---------------------------------------------------------------- Every merge keeps the witness

  lemma {:induction false} Widen(q: Limits, vs: seq<Bvec>, nr: nat, front: nat, back: nat, front': nat, back': nat)
    requires Witnessed(q, vs, nr, front, back) && front <= front' && back <= back'
    ensures Witnessed(q, vs, nr, front', back')
  {
    var ms :| Witness(q, vs, ms, nr, front, back);
    assert Witness(q, vs, ms, nr, front', back');
  }

  /** A single segment is both the first and the last. */
  lemma {:induction false} SingleSegment(q: Limits, vs: seq<Bvec>, front: nat, back: nat)
    requires Witnessed(q, vs, 1, front, back)
    ensures Witnessed(q, vs, 1, back, back) && Witnessed(q, vs, 1, front, front)
  {
    var ms :| Witness(q, vs, ms, 1, front, back);
    SizeAfterGrows(vs[0].len, vs[0].len, vs[1..], ms[1..]);
    assert Witness(q, vs, ms, 1, back, back) && Witness(q, vs, ms, 1, front, front);
  }

  lemma {:induction false} AtLeastOne(q: Limits, r: Req)
    requires ReqOk(q, r)
    ensures 1 <= r.nr
  {
    var ms :| Witness(q, Vecs(r.bios), ms, r.nr, r.bios[0].front, r.bios[|r.bios| - 1].back);
  }

  lemma {:induction false} Ends(bios: seq<Bio>)
    requires HasData(bios)
    ensures Vecs(bios) != [] && Vecs(bios)[0] == bios[0].vecs[0]
    ensures var b := bios[|bios| - 1]; Vecs(bios)[|Vecs(bios)| - 1] == b.vecs[|b.vecs| - 1]
  {
    assert bios[0].vecs != [];
    if |bios| > 1 {
      assert HasData(bios[1..]);
      Ends(bios[1..]);
    } else {
      assert Vecs(bios[1..]) == [];
    }
  }

  lemma {:induction false} PrepOk(q: Limits, b: Bio)
    requires BioOk(q, b)
    ensures ReqOk(q, Prep(q, b))
  {
    CountedOk(q, b);
    var r := Prep(q, b);
    assert Vecs(r.bios) == b.vecs by { assert Vecs(r.bios[1..]) == []; }
  }

  /** Raising recorded sizes of single bios changes nothing else. */
  lemma {:induction false} RaisedOk(q: Limits, r: Req, r': Req)
    requires ReqOk(q, r) && |r'.bios| == |r.bios| && r'.nr == r.nr
    requires forall i :: 0 <= i < |r.bios| ==> && r'.bios[i].vecs == r.bios[i].vecs
                                               && r'.bios[i].front >= r.bios[i].front
                                               && r'.bios[i].back >= r.bios[i].back
    ensures ReqOk(q, r')
  {
    VecsSame(r'.bios, r.bios);
    var n := |r.bios| - 1;
    Widen(q, Vecs(r.bios), r.nr, r.bios[0].front, r.bios[n].back, r'.bios[0].front, r'.bios[n].back);
  }

  /** One chain of bios after another. */
  lemma {:induction false} ChainOk(q: Limits, a: seq<Bio>, b: seq<Bio>, r: Req)
    requires HasData(a) && HasData(b) && r.bios == a + b
    requires Witnessed(q, Vecs(a) + Vecs(b), r.nr, a[0].front, b[|b| - 1].back)
    ensures ReqOk(q, r)
  {
    hide Witnessed, Vecs;
    VecsConcat(a, b);
  }

  lemma {:induction false} SingleBio(b: Bio)
    ensures Vecs([b]) == b.vecs
  {
    assert Vecs([b][1..]) == [];
  }

  lemma {:induction false} BackMergeOk(q: Limits, r: Req, b: Bio)
    requires ReqOk(q, r) && BioOk(q, b)
    ensures ReqOk(q, BackMerge(q, r, b).req)
  {
    hide Witnessed, Vecs, Bytes;
    var n := |r.bios| - 1;
    var r' := r.(bios := r.bios[n := Counted(q, r.bios[n])]);
    RaisedOk(q, r, r');
    CountedOk(q, b);
    var b', j := Counted(q, b), BackMerge(q, r, b);
    if j.ok {
      SingleBio(b');
      SideBySide(q, Vecs(r'.bios), r'.nr, r'.bios[0].front, r'.bios[n].back, b'.vecs, b'.physSegs, b'.front, b'.back);
      ChainOk(q, r'.bios, [b'], j.req);
    }
  }

  lemma {:induction false} FrontMergeOk(q: Limits, r: Req, b: Bio)
    requires ReqOk(q, r) && BioOk(q, b)
    ensures ReqOk(q, FrontMerge(q, r, b).req)
  {
    hide Witnessed, Vecs, Bytes;
    var n := |r.bios| - 1;
    var r' := r.(bios := r.bios[0 := Counted(q, r.bios[0])]);
    RaisedOk(q, r, r');
    CountedOk(q, b);
    var b', j := Counted(q, b), FrontMerge(q, r, b);
    if j.ok {
      SingleBio(b');
      SideBySide(q, b'.vecs, b'.physSegs, b'.front, b'.back, Vecs(r'.bios), r'.nr, r'.bios[0].front, r'.bios[n].back);
      ChainOk(q, [b'], r'.bios, j.req);
    }
  }

  /** Both requests stay witnessed by their recorded sizes, whether the merge goes ahead or not. */
  lemma {:induction false} MergeRequestsOk(q: Limits, r: Req, next: Req)
    requires ReqOk(q, r) && ReqOk(q, next) && 1 <= r.nr
    ensures var j := MergeRequests(q, r, next);
            ReqOk(q, j.req) && ReqOk(q, j.next)
  {
    var j := MergeRequests(q, r, next);
    var vs, ws := Vecs(r.bios), Vecs(next.bios);
    var n, m := |r.bios| - 1, |next.bios| - 1;
    var size := r.bios[n].back + next.bios[0].front;
    if Contig(q, r, next) {
      if r.nr == 1 {
        SingleSegment(q, vs, r.bios[0].front, r.bios[n].back);
        Widen(q, vs, 1, r.bios[n].back, r.bios[n].back, size, r.bios[n].back);
      }
      if next.nr == 1 {
        SingleSegment(q, ws, next.bios[0].front, next.bios[m].back);
        Widen(q, ws, 1, next.bios[0].front, next.bios[0].front, next.bios[0].front, size);
      }
    }
    if j.ok {
      JoinedOk(q, r, next);
    }
  }

  lemma {:induction false} JoinedOk(q: Limits, r: Req, next: Req)
    requires ReqOk(q, r) && ReqOk(q, next) && 1 <= r.nr && MergeRequests(q, r, next).ok
    ensures ReqOk(q, MergeRequests(q, r, next).req)
  {
    hide Witnessed, Vecs;
    var vs, ws := Vecs(r.bios), Vecs(next.bios);
    var n, m := |r.bios| - 1, |next.bios| - 1;
    var front, back, front', back' := r.bios[0].front, r.bios[n].back, next.bios[0].front, next.bios[m].back;
    var contig, size := Contig(q, r, next), back + front';
    var a := if contig && r.nr == 1 then Fronted(r, size) else r;
    var b := if contig && next.nr == 1 then Backed(next, size) else next;
    if contig {
      Ends(r.bios);
      Ends(next.bios);
      Fused(q, vs, r.nr, front, back, ws, next.nr, front', back');
    } else {
      SideBySide(q, vs, r.nr, front, back, ws, next.nr, front', back');
    }
    ChainOk(q, a.bios, b.bios, MergeRequests(q, r, next).req);
  }

  // ---------------------------------------------------------------- Every request ever built

  /** How a request came to be what it is. `Back`, `Front`, `Absorb` cover merges that went ahead and
      merges that were refused; `Spared` is the second request after an attempt to merge it into the
      first; `Advanced` is a request whose remaining chain after a partial completion is `bios`. */
  datatype History =
    | Fresh(bio: Bio)
    | Back(h: History, bio: Bio)
    | Front(h: History, bio: Bio)
    | Absorb(h: History, next: History)
    | Spared(h: History, next: History)
    | Advanced(h: History, bios: seq<Bio>)

  ghost predicate Sound(q: Limits, h: History) {
    match h
    case Fresh(b) => BioOk(q, b)
    case Back(h, b) => Sound(q, h) && BioOk(q, b)
    case Front(h, b) => Sound(q, h) && BioOk(q, b)
    case Absorb(h, n) => Sound(q, h) && Sound(q, n)
    case Spared(h, n) => Sound(q, h) && Sound(q, n)
    case Advanced(h, bios) => Sound(q, h) && HasData(bios)
  }

  ghost function Built(q: Limits, h: History): (r: Req)
    requires Sound(q, h)
    ensures ReqOk(q, r) && 1 <= r.nr
  {
    var r :=
      match h
      case Fresh(b) => (PrepOk(q, b); Prep(q, b))
      case Back(h, b) => (BackMergeOk(q, Built(q, h), b); BackMerge(q, Built(q, h), b).req)
      case Front(h, b) => (FrontMergeOk(q, Built(q, h), b); FrontMerge(q, Built(q, h), b).req)
      case Absorb(h, n) =>
        (MergeRequestsOk(q, Built(q, h), Built(q, n)); MergeRequests(q, Built(q, h), Built(q, n)).req)
      case Spared(h, n) =>
        (MergeRequestsOk(q, Built(q, h), Built(q, n)); MergeRequests(q, Built(q, h), Built(q, n)).next)
      case Advanced(h, bios) => (RecalcOk(q, Built(q, h).(bios := bios)); Recalc(q, Built(q, h).(bios := bios)));
    AtLeastOne(q, r);
    r
  }

  /** Whatever merges, refused merges and recounts made a request, mapping it never emits more
      entries than its recorded segment count. */
  lemma {:induction false} SegmentBound(q: Limits, h: History)
    requires Sound(q, h)
    ensures var r := Built(q, h); MapCount(q, Vecs(r.bios)) <= r.nr
  {
    var r := Built(q, h);
    var ms :| Witness(q, Vecs(r.bios), ms, r.nr, r.bios[0].front, r.bios[|r.bios| - 1].back);
    MapperMinimal(q, Vecs(r.bios), ms);
  }

  // ---------------------------------------------------------------- What a merge does

  /** How many segments a bio is taken to have: its cached count if that is valid, or else a new count. */
  function SegmentsOf(q: Limits, b: Bio): nat {
    if b.segValid then b.physSegs else Count(RecountMarks(q, b.vecs))
  }

  /** Another `bytes` in `segments` stay within the limits of the queue. */
  predicate RoomFor(q: Limits, r: Req, bytes: nat, segments: nat) {
    r.len / 512 + bytes / 512 <= q.maxSectors && r.nr + segments <= q.maxSegments
  }

  /** A back merge goes ahead exactly if the limits allow it, and then the vectors of the bio come after those of the
      request. */
  lemma {:induction false} BackMergeIs(q: Limits, r: Req, b: Bio)
    requires HasData(r.bios) && b.vecs != []
    ensures var m, goes := BackMerge(q, r, b), RoomFor(q, r, Bytes(b.vecs), SegmentsOf(q, b));
            && m.ok == goes && m.req.special == r.special
            && Vecs(m.req.bios) == Vecs(r.bios) + (if goes then b.vecs else [])
            && m.req.len == r.len + (if goes then Bytes(b.vecs) else 0)
            && m.req.nr == r.nr + if goes then SegmentsOf(q, b) else 0
  {
    hide Bytes, Vecs, RecountMarks, Count;
    var n := |r.bios| - 1;
    var bios := r.bios[n := Counted(q, r.bios[n])];
    VecsSame(bios, r.bios);
    VecsConcat(bios, [Counted(q, b)]);
    SingleBio(Counted(q, b));
    assert Vecs(r.bios) + [] == Vecs(r.bios);
  }

  /** After a front merge they come before them. */
  lemma {:induction false} FrontMergeIs(q: Limits, r: Req, b: Bio)
    requires HasData(r.bios) && b.vecs != []
    ensures var m, goes := FrontMerge(q, r, b), RoomFor(q, r, Bytes(b.vecs), SegmentsOf(q, b));
            && m.ok == goes && m.req.special == r.special
            && Vecs(m.req.bios) == (if goes then b.vecs else []) + Vecs(r.bios)
            && m.req.len == r.len + (if goes then Bytes(b.vecs) else 0)
            && m.req.nr == r.nr + if goes then SegmentsOf(q, b) else 0
  {
    hide Bytes, Vecs, RecountMarks, Count;
    var bios := r.bios[0 := Counted(q, r.bios[0])];
    VecsSame(bios, r.bios);
    VecsConcat([Counted(q, b)], bios);
    SingleBio(Counted(q, b));
    assert [] + Vecs(r.bios) == Vecs(r.bios);
  }

  /** The last segment of `r` and the first of `next` can be one: segments may be joined at all, the two are small
      enough as recorded, and the vectors on both sides touch. */
  predicate Touch(q: Limits, r: Req, next: Req)
    requires HasData(r.bios) && HasData(next.bios)
  {
    VecsNonempty(r.bios);
    VecsNonempty(next.bios);
    var vs, ws := Vecs(r.bios), Vecs(next.bios);
    q.cluster && r.bios[|r.bios| - 1].back + next.bios[0].front <= q.maxSize && q.join(vs[|vs| - 1], ws[0])
  }

  lemma {:induction false} ContigIsTouch(q: Limits, r: Req, next: Req)
    requires HasData(r.bios) && HasData(next.bios)
    ensures Contig(q, r, next) == Touch(q, r, next)
  {
    Ends(r.bios);
    Ends(next.bios);
    hide Vecs;
  }

  /** Two requests merge exactly if neither is special and the limits allow it, with one segment less if the last of
      one and the first of the other touch; the vectors of `next` come after those of `r`. */
  lemma {:induction false} MergeRequestsIs(q: Limits, r: Req, next: Req)
    requires HasData(r.bios) && HasData(next.bios) && 1 <= r.nr
    ensures var j, total := MergeRequests(q, r, next), r.nr + next.nr - if Touch(q, r, next) then 1 else 0;
            var goes := && !r.special && !next.special && r.len / 512 + next.len / 512 <= q.maxSectors
                        && total <= q.maxSegments;
            && j.ok == goes && j.req.special == r.special
            && Vecs(j.req.bios) == Vecs(r.bios) + (if goes then Vecs(next.bios) else [])
            && j.req.len == r.len + (if goes then next.len else 0) && j.req.nr == (if goes then total else r.nr)
            && Vecs(j.next.bios) == Vecs(next.bios) && j.next.nr == next.nr && j.next.len == next.len
  {
    ContigIsTouch(q, r, next);
    hide Vecs, Contig, Touch, Fronted, Backed;
    var n := |r.bios| - 1;
    var size := r.bios[n].back + next.bios[0].front;
    var r' := if Contig(q, r, next) && r.nr == 1 then Fronted(r, size) else r;
    var next' := if Contig(q, r, next) && next.nr == 1 then Backed(next, size) else next;
    VecsConcat(r'.bios, next'.bios);
    assert Vecs(r.bios) + [] == Vecs(r.bios);
  }

  /** Whether they merge or not, once the sectors allow it: a request of one segment that touches the other records the
      size of the segment they have together, at its far end. */
  lemma {:induction false} MergeRecords(q: Limits, r: Req, next: Req)
    requires HasData(r.bios) && HasData(next.bios) && 1 <= r.nr && !r.special && !next.special
    requires r.len / 512 + next.len / 512 <= q.maxSectors
    ensures var j, n, m := MergeRequests(q, r, next), |r.bios| - 1, |next.bios| - 1;
            var size := r.bios[n].back + next.bios[0].front;
            && j.req.bios[0].front == (if Touch(q, r, next) && r.nr == 1 then size else r.bios[0].front)
            && |j.next.bios| == m + 1
            && j.next.bios[m].back == if Touch(q, r, next) && next.nr == 1 then size else next.bios[m].back
  {
    ContigIsTouch(q, r, next);
    hide Vecs, Contig, Touch;
  }

  /** The vectors that a history puts into a request, in the order in which the device is to see them. */
  ghost function Carried(q: Limits, h: History): seq<Bvec>
    requires Sound(q, h)
  {
    match h
    case Fresh(b) => b.vecs
    case Back(h, b) => Carried(q, h) + if RoomFor(q, Built(q, h), Bytes(b.vecs), SegmentsOf(q, b)) then b.vecs else []
    case Front(h, b) =>
      (if RoomFor(q, Built(q, h), Bytes(b.vecs), SegmentsOf(q, b)) then b.vecs else []) + Carried(q, h)
    case Absorb(h, n) => Carried(q, h) + if MergeRequests(q, Built(q, h), Built(q, n)).ok then Carried(q, n) else []
    case Spared(h, n) => Carried(q, n)
    case Advanced(h, bios) => Vecs(bios)
  }

  /** Whatever merges, refused merges and recounts made a request, it holds exactly those. */
  lemma {:induction false} BuiltHolds(q: Limits, h: History)
    requires Sound(q, h)
    ensures Vecs(Built(q, h).bios) == Carried(q, h)
  {
    hide Bytes, Vecs, RoomFor, SegmentsOf, Witnessed, BackMerge, FrontMerge, MergeRequests;
    match h
    case Fresh(b) => SingleBio(Counted(q, b));
    case Back(h', b) => BuiltHolds(q, h'); BackMergeIs(q, Built(q, h'), b);
    case Front(h', b) => BuiltHolds(q, h'); FrontMergeIs(q, Built(q, h'), b);
    case Absorb(h', n) => BuiltHolds(q, h'); BuiltHolds(q, n); MergeRequestsIs(q, Built(q, h'), Built(q, n));
    case Spared(h', n) => BuiltHolds(q, n); MergeRequestsIs(q, Built(q, h'), Built(q, n));
    case Advanced(h', bios) => VecsSame(Remeasured(q, bios), bios);
  }

  /** A request made by merges only. */
  predicate Unadvanced(h: History) {
    match h
    case Fresh(_) => true
    case Back(h, _) => Unadvanced(h)
    case Front(h, _) => Unadvanced(h)
    case Absorb(h, n) => Unadvanced(h) && Unadvanced(n)
    case Spared(h, n) => Unadvanced(h) && Unadvanced(n)
    case Advanced(_, _) => false
  }

  lemma {:induction false} BytesConcat(vs: seq<Bvec>, ws: seq<Bvec>)
    ensures Bytes(vs + ws) == Bytes(vs) + Bytes(ws)
  {
    if vs == [] {
      assert vs + ws == ws;
    } else {
      assert (vs + ws)[1..] == vs[1..] + ws;
      BytesConcat(vs[1..], ws);
    }
  }

  lemma {:induction false} BytesEither(vs: seq<Bvec>, ws: seq<Bvec>, goes: bool)
    ensures Bytes(vs + (if goes then ws else [])) == Bytes(vs) + if goes then Bytes(ws) else 0
    ensures Bytes((if goes then ws else []) + vs) == Bytes(vs) + if goes then Bytes(ws) else 0
  {
    BytesConcat(vs, if goes then ws else []);
    BytesConcat(if goes then ws else [], vs);
  }

  /** Its length is that of the vectors it holds. */
  lemma {:induction false} BuiltLength(q: Limits, h: History)
    requires Sound(q, h) && Unadvanced(h)
    ensures Built(q, h).len == Bytes(Vecs(Built(q, h).bios))
  {
    hide Bytes, Vecs, RoomFor, SegmentsOf, Witnessed, BackMerge, FrontMerge, MergeRequests;
    match h
    case Fresh(b) => SingleBio(Counted(q, b));
    case Back(h', b) =>
      BuiltLength(q, h');
      var r := Built(q, h');
      BackMergeIs(q, r, b);
      BytesEither(Vecs(r.bios), b.vecs, RoomFor(q, r, Bytes(b.vecs), SegmentsOf(q, b)));
    case Front(h', b) =>
      BuiltLength(q, h');
      var r := Built(q, h');
      FrontMergeIs(q, r, b);
      BytesEither(Vecs(r.bios), b.vecs, RoomFor(q, r, Bytes(b.vecs), SegmentsOf(q, b)));
    case Absorb(h', n) =>
      BuiltLength(q, h');
      BuiltLength(q, n);
      var r, next := Built(q, h'), Built(q, n);
      MergeRequestsIs(q, r, next);
      BytesEither(Vecs(r.bios), Vecs(next.bios), MergeRequests(q, r, next).ok);
    case Spared(h', n) =>
      BuiltLength(q, n);
      MergeRequestsIs(q, Built(q, h'), Built(q, n));
  }

  /** What a request was made of, before any merge or after a recount, is within the segment limit. */
  ghost predicate PartsFit(q: Limits, h: History) {
    match h
    case Fresh(b) => SegmentsOf(q, b) <= q.maxSegments
    case Back(h, _) => PartsFit(q, h)
    case Front(h, _) => PartsFit(q, h)
    case Absorb(h, _) => PartsFit(q, h)
    case Spared(_, n) => PartsFit(q, n)
    case Advanced(_, bios) => Count(RecountMarks(q, Vecs(bios))) <= q.maxSegments
  }

  /** Then the request is, and the scatter-gather table the mapper fills for it. */
  lemma {:induction false} MergesFit(q: Limits, h: History)
    requires Sound(q, h) && PartsFit(q, h)
    ensures MapCount(q, Vecs(Built(q, h).bios)) <= Built(q, h).nr <= q.maxSegments
  {
    SegmentBound(q, h);
    hide Bytes, Vecs, MapCount, SegmentsOf, Witnessed, BackMerge, FrontMerge, MergeRequests;
    match h
    case Fresh(b) => FreshSegments(q, b);
    case Back(h', b) => MergesFit(q, h'); BackMergeIs(q, Built(q, h'), b);
    case Front(h', b) => MergesFit(q, h'); FrontMergeIs(q, Built(q, h'), b);
    case Absorb(h', n) => MergesFit(q, h'); MergeRequestsIs(q, Built(q, h'), Built(q, n));
    case Spared(h', n) => MergesFit(q, n); MergeRequestsIs(q, Built(q, h'), Built(q, n));
    case Advanced(_, _) =>
  }

  lemma {:induction false} FreshSegments(q: Limits, b: Bio)
    requires b.vecs != []
    ensures Prep(q, b).nr == SegmentsOf(q, b)
  {
  }
}
