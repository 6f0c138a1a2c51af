/** The loops of block/blk-merge.c that count and map segments, and a request that is updated in place. */
module SegmentLoops {

  import opened Segments

  // ---------------------------------------------------------------- Counting

  predicate OpensSegment(q: Limits, prev: Bvec, size: nat, v: Bvec) {
    q.high(v) || q.high(prev) || Cut(q, prev, size, v)
  }

  lemma {:induction false} MarksSnoc(q: Limits, prev: Bvec, size: nat, vs: seq<Bvec>, v: Bvec)
    ensures var ms := CountMarks(q, prev, size, vs);
            CountMarks(q, prev, size, vs + [v]) ==
            ms + [OpensSegment(q, if vs == [] then prev else vs[|vs| - 1], SizeAfter(size, vs, ms), v)]
    decreases |vs|
  {
    if vs != [] {
      assert (vs + [v])[1..] == vs[1..] + [v];
      var ms := CountMarks(q, prev, size, vs);
      MarksSnoc(q, vs[0], if ms[0] then vs[0].len else size + vs[0].len, vs[1..], v);
    }
  }

  lemma {:induction false} RecountSnoc(q: Limits, vs: seq<Bvec>, v: Bvec)
    requires vs != []
    ensures var ms := RecountMarks(q, vs);
            RecountMarks(q, vs + [v]) == ms + [OpensSegment(q, vs[|vs| - 1], LastSize(vs, ms), v)]
  {
    assert (vs + [v])[1..] == vs[1..] + [v];
    MarksSnoc(q, vs[0], vs[0].len, vs[1..], v);
  }

  /** What the counter knows after the vectors `done`; `front` is the first bio's recorded size, which
      is raised from `front0` when the first segment closes. */
  ghost predicate Counter(q: Limits, done: seq<Bvec>, nr: nat, size: nat, prev: Bvec, highPrev: bool, front0: nat,
                          front: nat) {
    if done == [] then nr == 0 && highPrev && front == front0
    else
      var ms := RecountMarks(q, done);
      && nr == Count(ms) && size == LastSize(done, ms)
      && prev == done[|done| - 1] && highPrev == q.high(prev)
      && (nr == 1 ==> size == FirstSize(done, ms))
      && front == if nr == 1 then front0 else Max(front0, FirstSize(done, ms))
  }

  lemma {:induction false} CounterStep(q: Limits, done: seq<Bvec>, nr: nat, size: nat, prev: Bvec, highPrev: bool,
                                       front0: nat, front: nat, v: Bvec)
    requires Counter(q, done, nr, size, prev, highPrev, front0, front)
    ensures if q.high(v) || highPrev || Cut(q, prev, size, v)
            then Counter(q, done + [v], nr + 1, v.len, v, q.high(v), front0,
                         if nr == 1 then Max(front, size) else front)
            else Counter(q, done + [v], nr, size + v.len, v, highPrev, front0, front)
  {
    if done == [] {
      assert done + [v] == [v];
      assert RecountMarks(q, [v]) == [true] && SizeAfter(v.len, [v][1..], [true][1..]) == v.len;
    } else {
      var ms := RecountMarks(q, done);
      var b := OpensSegment(q, prev, size, v);
      RecountSnoc(q, done, v);
      CountConcat(ms, [b]);
      SizeAfterConcat(0, done, ms, [v], [b]);
      assert (done + [v])[1..] == done[1..] + [v] && (ms + [b])[1..] == ms[1..] + [b];
      HeadConcat(done[1..], ms[1..], [v], [b]);
    }
  }

  lemma {:induction false} CounterStart(q: Limits, prev: Bvec, front: nat)
    ensures Counter(q, [], 0, 0, prev, true, front, front)
  {
  }

  lemma {:induction false} VecsEmpty()
    ensures Vecs([]) == []
  {
  }

  lemma {:induction false} CounterEnd(q: Limits, bios: seq<Bio>, nr: nat, size: nat, prev: Bvec, highPrev: bool,
                                      front: nat)
    requires HasData(bios) && Counter(q, Vecs(bios), nr, size, prev, highPrev, bios[0].front, front) && Vecs(bios) != []
    ensures nr == Count(RecountMarks(q, Vecs(bios)))
    ensures var n := |bios| - 1;
            var fronted := bios[0 := bios[0].(front := if nr == 1 then Max(front, size) else front)];
            Remeasured(q, bios) == fronted[n := fronted[n].(back := Max(fronted[n].back, size))]
  {
  }

  /** `__blk_recalc_rq_segments`. */
  method RecalcSegments(q: Limits, bios: seq<Bio>) returns (nr: nat, out: seq<Bio>)
    requires bios == [] || HasData(bios)
    ensures bios == [] ==> nr == 0 && out == []
    ensures bios != [] ==> nr == Count(RecountMarks(q, Vecs(bios))) && out == Remeasured(q, bios)
  {
    hide Counter, Vecs, RecountMarks, Remeasured;
    out := bios;
    nr := 0;
    if bios == [] {
      return;
    }
    CounterStart(q, bios[0].vecs[0], bios[0].front);
    VecsEmpty();
    var size: nat, highPrev, prev := 0, true, bios[0].vecs[0];
    ghost var done := [];
    for i := 0 to |bios|
      invariant done == Vecs(bios[..i]) && |out| == |bios|
      invariant out == bios[0 := bios[0].(front := out[0].front)]
      invariant Counter(q, done, nr, size, prev, highPrev, bios[0].front, out[0].front)
    {
      ghost var before := done;
      for j := 0 to |bios[i].vecs|
        invariant done == before + bios[i].vecs[..j] && |out| == |bios|
        invariant out == bios[0 := bios[0].(front := out[0].front)]
        invariant Counter(q, done, nr, size, prev, highPrev, bios[0].front, out[0].front)
      {
        var v := bios[i].vecs[j];
        CounterStep(q, done, nr, size, prev, highPrev, bios[0].front, out[0].front, v);
        if q.high(v) || highPrev || Cut(q, prev, size, v) {
          if nr == 1 && size > out[0].front {
            out := out[0 := out[0].(front := size)];
          }
          nr := nr + 1;
          size := v.len;
          highPrev := q.high(v);
        } else {
          size := size + v.len;
        }
        prev := v;
        done := done + [v];
      }
      VecsPrefix(bios, i);
    }
    assert bios[..|bios|] == bios;
    VecsNonempty(bios);
    CounterEnd(q, bios, nr, size, prev, highPrev, out[0].front);
    if nr == 1 && size > out[0].front {
      out := out[0 := out[0].(front := size)];
    }
    var n := |out| - 1;
    if size > out[n].back {
      out := out[n := out[n].(back := size)];
    }
  }

  lemma {:induction false} VecsPrefix(bios: seq<Bio>, i: nat)
    requires i < |bios|
    ensures Vecs(bios[..i + 1]) == Vecs(bios[..i]) + bios[i].vecs
  {
    assert bios[..i + 1] == bios[..i] + [bios[i]];
    VecsConcat(bios[..i], [bios[i]]);
    SingleBio(bios[i]);
  }

  /** A scatter-gather entry: where it starts and how long it is. */
  datatype Entry = Entry(page: nat, offset: nat, length: nat)

  /** The entries of a segmentation. */
  function Entries(vs: seq<Bvec>, ms: seq<bool>): seq<Entry>
    requires |vs| == |ms|
    decreases |vs|
  {
    if vs == [] then []
    else
      var n := |vs| - 1;
      var before := Entries(vs[..n], ms[..n]);
      if ms[n] || before == [] then before + [Entry(vs[n].page, vs[n].offset, vs[n].len)]
      else before[|before| - 1 := before[|before| - 1].(length := before[|before| - 1].length + vs[n].len)]
  }

  /** Without high pages the counter and the mapper agree. */
  lemma {:induction false} MapIsCount(q: Limits, prev: Bvec, size: nat, vs: seq<Bvec>)
    requires forall v :: !q.high(v)
    ensures MapFrom(q, prev, size, vs) == Count(CountMarks(q, prev, size, vs))
    decreases |vs|
  {
    if vs != [] {
      MapIsCount(q, vs[0], if Cut(q, prev, size, vs[0]) then vs[0].len else size + vs[0].len, vs[1..]);
    }
  }

  function WithoutHigh(q: Limits): Limits { q.(high := v => false) }

  lemma {:induction false} WithoutHighSame(q: Limits, prev: Bvec, size: nat, vs: seq<Bvec>, ms: seq<bool>)
    requires |vs| == |ms|
    ensures MapFrom(WithoutHigh(q), prev, size, vs) == MapFrom(q, prev, size, vs)
    ensures ValidFrom(WithoutHigh(q), prev, size, vs, ms) == ValidFrom(q, prev, size, vs, ms)
    decreases |vs|
  {
    if vs != [] {
      WithoutHighSame(q, vs[0], vs[0].len, vs[1..], ms[1..]);
      WithoutHighSame(q, vs[0], size + vs[0].len, vs[1..], ms[1..]);
    }
  }

  /** The segmentation that `blk_rq_map_sg` produces. */
  function MapMarks(q: Limits, vs: seq<Bvec>): (ms: seq<bool>)
    ensures |ms| == |vs|
  {
    RecountMarks(WithoutHigh(q), vs)
  }

  // ---------------------------------------------------------------- Where segments begin

  /** Vector `i` opens a segment, and none after it up to `t` does. */
  ghost predicate OpenFrom(ms: seq<bool>, i: nat, t: nat) {
    i < t < |ms| && ms[i] && forall j :: i < j < t ==> !ms[j]
  }

  /** Vector `t` cannot go on in the segment that vector `i` opened: segments are not joined, it would become too large,
      or the two vectors do not touch. */
  predicate Full(q: Limits, vs: seq<Bvec>, i: nat, t: nat)
    requires i < t < |vs|
  {
    !q.cluster || q.maxSize < Bytes(vs[i..t + 1]) || !q.join(vs[t - 1], vs[t])
  }

  /** A segmentation that opens a segment exactly where the last one is full. */
  ghost predicate Greedy(q: Limits, vs: seq<Bvec>, ms: seq<bool>) {
    && |ms| == |vs| && (vs != [] ==> ms[0])
    && forall i: nat, t: nat :: OpenFrom(ms, i, t) ==> (ms[t] <==> Full(q, vs, i, t))
  }

  lemma {:induction false} RecountPrefix(q: Limits, vs: seq<Bvec>, n: nat)
    requires n <= |vs|
    ensures RecountMarks(q, vs)[..n] == RecountMarks(q, vs[..n])
    decreases |vs| - n
  {
    if n < |vs| {
      RecountPrefix(q, vs, n + 1);
      var ws := vs[..n];
      assert vs[..n + 1] == ws + [vs[n]];
      if n != 0 {
        RecountSnoc(q, ws, vs[n]);
      }
      assert RecountMarks(q, vs)[..n] == RecountMarks(q, vs)[..n + 1][..n];
    } else {
      assert vs[..n] == vs;
    }
  }

  /** The open segment holds the vectors since the last mark. */
  lemma {:induction false} OpenSize(vs: seq<Bvec>, ms: seq<bool>, i: nat)
    requires |vs| == |ms| && i < |vs| && ms[i] && forall j :: i < j < |vs| ==> !ms[j]
    ensures LastSize(vs, ms) == Bytes(vs[i..])
    decreases |vs|
  {
    var n := |vs| - 1;
    var ws, ns := vs[..n], ms[..n];
    assert vs == ws + [vs[n]] && ms == ns + [ms[n]];
    SizeAfterConcat(0, ws, ns, [vs[n]], [ms[n]]);
    assert [vs[n]][1..] == [];
    if i == n {
      assert vs[i..] == [vs[n]] && Bytes([vs[n]]) == vs[n].len;
    } else {
      OpenSize(ws, ns, i);
      assert vs[i..] == ws[i..] + [vs[n]];
      BytesSnoc(ws[i..], vs[n]);
    }
  }

  /** The counter opens a segment where the last one is full, and on both sides of a high page. */
  lemma {:induction false} CountGreedy(q: Limits, vs: seq<Bvec>, i: nat, t: nat)
    requires t < |vs| && OpenFrom(RecountMarks(q, vs), i, t)
    ensures RecountMarks(q, vs)[t] <==> q.high(vs[t]) || q.high(vs[t - 1]) || Full(q, vs, i, t)
  {
    var ms, ws := RecountMarks(q, vs), vs[..t];
    RecountPrefix(q, vs, t);
    RecountPrefix(q, vs, t + 1);
    assert vs[..t + 1] == ws + [vs[t]];
    RecountSnoc(q, ws, vs[t]);
    assert ms[t] == ms[..t + 1][t];
    var ns := RecountMarks(q, ws);
    assert forall j :: 0 <= j < t ==> ns[j] == ms[..t][j];
    OpenSize(ws, ns, i);
    assert vs[i..t + 1] == ws[i..] + [vs[t]];
    BytesSnoc(ws[i..], vs[t]);
  }

  /** So the mapper fills every entry as far as it goes. */
  lemma {:induction false} MapGreedy(q: Limits, vs: seq<Bvec>)
    ensures Greedy(q, vs, MapMarks(q, vs))
  {
    hide Bytes, RecountMarks;
    if vs != [] { MapMarksValid(q, vs); }
    var ms := MapMarks(q, vs);
    forall i: nat, t: nat | OpenFrom(ms, i, t) ensures ms[t] <==> Full(q, vs, i, t) {
      CountGreedy(WithoutHigh(q), vs, i, t);
    }
  }

  /** There is only one such segmentation. */
  lemma {:induction false} GreedyUnique(q: Limits, vs: seq<Bvec>, ms: seq<bool>, ns: seq<bool>, t: nat)
    requires Greedy(q, vs, ms) && Greedy(q, vs, ns) && t <= |vs|
    ensures ms[..t] == ns[..t]
  {
    if t != 0 {
      GreedyUnique(q, vs, ms, ns, t - 1);
      assert forall j :: 0 <= j < t - 1 ==> ms[j] == ms[..t - 1][j] && ns[j] == ns[..t - 1][j];
      if 1 < t {
        var i := LastMark(ms, t - 1);
        assert OpenFrom(ms, i, t - 1) && OpenFrom(ns, i, t - 1);
      }
    }
  }

  lemma {:induction false} LastMark(ms: seq<bool>, t: nat) returns (i: nat)
    requires 0 < t < |ms| && ms[0]
    ensures OpenFrom(ms, i, t)
  {
    if ms[t - 1] {
      i := t - 1;
    } else {
      i := LastMark(ms, t - 1);
    }
  }

  /** It is acceptable, and as many entries long as the mapper emits. */
  lemma {:induction false} MapMarksValid(q: Limits, vs: seq<Bvec>)
    requires vs != []
    ensures Valid(q, vs, MapMarks(q, vs)) && Count(MapMarks(q, vs)) == MapCount(q, vs)
  {
    var q', ms := WithoutHigh(q), MapMarks(q, vs);
    RecountWitness(q', vs, 0, 0);
    MapIsCount(q', vs[0], vs[0].len, vs[1..]);
    WithoutHighSame(q, vs[0], vs[0].len, vs[1..], ms[1..]);
  }

  lemma {:induction false} EntriesCount(vs: seq<Bvec>, ms: seq<bool>)
    requires |vs| == |ms| && (vs != [] ==> ms[0])
    ensures |Entries(vs, ms)| == Count(ms)
    decreases |vs|
  {
    if vs != [] {
      var n := |vs| - 1;
      EntriesCount(vs[..n], ms[..n]);
      assert ms == ms[..n] + [ms[n]];
      CountConcat(ms[..n], [ms[n]]);
      if n > 0 {
        assert Count(ms[..n]) >= 1;
      }
    }
  }

  /** Entry `e` begins at vector `a` and is as long as the vectors from there up to `b`. */
  ghost predicate EntryAt(vs: seq<Bvec>, e: Entry, a: nat, b: nat) {
    a < b <= |vs| && e == Entry(vs[a].page, vs[a].offset, Bytes(vs[a..b]))
  }

  ghost function Until(starts: seq<nat>, k: nat, n: nat): nat { if k + 1 < |starts| then starts[k + 1] else n }

  /** The entries take the vectors in order and leave none out: entry `k` begins at vector `starts[k]` and goes up to
      the start of the next one. */
  ghost predicate Covers(vs: seq<Bvec>, sg: seq<Entry>, starts: seq<nat>) {
    && |starts| == |sg| && (vs != [] ==> starts != [] && starts[0] == 0)
    && forall k :: 0 <= k < |starts| ==> EntryAt(vs, sg[k], starts[k], Until(starts, k, |vs|))
  }

  function Lengths(sg: seq<Entry>): nat {
    if sg == [] then 0 else Lengths(sg[..|sg| - 1]) + sg[|sg| - 1].length
  }

  lemma {:induction false} BytesSnoc(vs: seq<Bvec>, v: Bvec)
    ensures Bytes(vs + [v]) == Bytes(vs) + v.len
  {
    if vs == [] {
      assert vs + [v] == [v];
    } else {
      assert (vs + [v])[1..] == vs[1..] + [v];
      BytesSnoc(vs[1..], v);
    }
  }

  lemma {:induction false} EntryStays(vs: seq<Bvec>, v: Bvec, e: Entry, a: nat, b: nat)
    requires EntryAt(vs, e, a, b)
    ensures EntryAt(vs + [v], e, a, b)
    ensures b == |vs| ==> EntryAt(vs + [v], e.(length := e.length + v.len), a, b + 1)
  {
    assert (vs + [v])[a..b] == vs[a..b];
    if b == |vs| {
      assert (vs + [v])[a..b + 1] == vs[a..b] + [v];
      BytesSnoc(vs[a..b], v);
    }
  }

  /** One more vector begins an entry of its own. */
  lemma {:induction false} CoversNew(vs: seq<Bvec>, sg: seq<Entry>, starts: seq<nat>, v: Bvec)
    requires Covers(vs, sg, starts)
    ensures Covers(vs + [v], sg + [Entry(v.page, v.offset, v.len)], starts + [|vs|])
  {
    hide EntryAt;
    var ws, tg, at := vs + [v], sg + [Entry(v.page, v.offset, v.len)], starts + [|vs|];
    forall k | 0 <= k < |at| ensures EntryAt(ws, tg[k], at[k], Until(at, k, |ws|)) {
      if k < |starts| {
        EntryStays(vs, v, sg[k], starts[k], Until(starts, k, |vs|));
      } else {
        EntryNew(vs, v);
      }
    }
    CoversNone(vs, sg, starts);
  }

  lemma {:induction false} CoversNone(vs: seq<Bvec>, sg: seq<Entry>, starts: seq<nat>)
    requires Covers(vs, sg, starts)
    ensures vs == [] ==> starts == []
  {
    assert starts != [] ==> EntryAt(vs, sg[0], starts[0], Until(starts, 0, |vs|));
  }

  lemma {:induction false} EntryNew(vs: seq<Bvec>, v: Bvec)
    ensures EntryAt(vs + [v], Entry(v.page, v.offset, v.len), |vs|, |vs| + 1)
  {
    assert (vs + [v])[|vs|..|vs| + 1] == [v] && Bytes([v]) == v.len;
  }

  /** Or it lengthens the last one. */
  lemma {:induction false} CoversLonger(vs: seq<Bvec>, sg: seq<Entry>, starts: seq<nat>, v: Bvec)
    requires Covers(vs, sg, starts) && sg != []
    ensures Covers(vs + [v], sg[|sg| - 1 := sg[|sg| - 1].(length := sg[|sg| - 1].length + v.len)], starts)
  {
    hide EntryAt;
    var ws, m := vs + [v], |sg| - 1;
    var tg := sg[m := sg[m].(length := sg[m].length + v.len)];
    forall k | 0 <= k < |starts| ensures EntryAt(ws, tg[k], starts[k], Until(starts, k, |ws|)) {
      EntryStays(vs, v, sg[k], starts[k], Until(starts, k, |vs|));
    }
    CoversNone(vs, sg, starts);
  }

  lemma {:induction false} LengthsSnoc(sg: seq<Entry>, e: Entry)
    ensures Lengths(sg + [e]) == Lengths(sg) + e.length
  {
    assert (sg + [e])[..|sg|] == sg;
  }

  /** The marked vectors. */
  function Starts(ms: seq<bool>): (r: seq<nat>)
    ensures forall k :: 0 <= k < |r| ==> r[k] < |ms| && ms[r[k]]
  {
    if ms == [] then []
    else
      var n: nat := |ms| - 1;
      if ms[n] then Starts(ms[..n]) + [n] else Starts(ms[..n])
  }

  /** The entries of a segmentation cover its vectors, each beginning at a marked one. */
  lemma {:induction false} EntriesCover(vs: seq<Bvec>, ms: seq<bool>)
    requires |vs| == |ms| && (vs != [] ==> ms[0])
    ensures Covers(vs, Entries(vs, ms), Starts(ms))
    decreases |vs|
  {
    if vs != [] {
      var n := |vs| - 1;
      EntriesCover(vs[..n], ms[..n]);
      EntriesGrown(vs, ms, n);
      StartsStep(ms, n);
      LastApart(vs, n);
      hide *;
      CoversStep(vs[..n], vs[n], ms[n], Entries(vs[..n], ms[..n]), Starts(ms[..n]));
    }
  }

  /** One more vector opens an entry of its own or makes the last one longer. */
  function Grown(sg: seq<Entry>, v: Bvec, mark: bool): seq<Entry>
    requires mark || sg != []
  {
    if mark then sg + [Entry(v.page, v.offset, v.len)]
    else sg[|sg| - 1 := sg[|sg| - 1].(length := sg[|sg| - 1].length + v.len)]
  }

  lemma {:induction false} EntriesGrown(vs: seq<Bvec>, ms: seq<bool>, n: nat)
    requires |vs| == |ms| == n + 1 && ms[0]
    ensures ms[n] || Entries(vs[..n], ms[..n]) != []
    ensures Entries(vs, ms) == Grown(Entries(vs[..n], ms[..n]), vs[n], ms[n])
  {
    EntriesStep(vs, ms);
    hide Entries;
  }

  lemma {:induction false} LastApart(vs: seq<Bvec>, n: nat)
    requires |vs| == n + 1
    ensures vs == vs[..n] + [vs[n]]
  {
  }

  lemma {:induction false} CoversStep(vs: seq<Bvec>, v: Bvec, mark: bool, sg: seq<Entry>, starts: seq<nat>)
    requires Covers(vs, sg, starts) && (mark || sg != [])
    ensures Covers(vs + [v], Grown(sg, v, mark), if mark then starts + [|vs|] else starts)
  {
    hide Covers;
    if mark {
      CoversNew(vs, sg, starts, v);
    } else {
      CoversLonger(vs, sg, starts, v);
    }
  }

  lemma {:induction false} StartsStep(ms: seq<bool>, n: nat)
    requires |ms| == n + 1
    ensures Starts(ms) == if ms[n] then Starts(ms[..n]) + [n] else Starts(ms[..n])
  {
  }

  lemma {:induction false} EntriesStep(vs: seq<Bvec>, ms: seq<bool>)
    requires |vs| == |ms| && vs != [] && ms[0]
    ensures var n := |vs| - 1;
            var before := Entries(vs[..n], ms[..n]);
            && (before == [] ==> n == 0)
            && Entries(vs, ms) == if ms[n] || before == [] then before + [Entry(vs[n].page, vs[n].offset, vs[n].len)]
                                  else before[|before| - 1 :=
                                    before[|before| - 1].(length := before[|before| - 1].length + vs[n].len)]
  {
  }

  /** Together the entries are as long as the vectors. */
  lemma {:induction false} EntriesLengths(vs: seq<Bvec>, ms: seq<bool>)
    requires |vs| == |ms|
    ensures Lengths(Entries(vs, ms)) == Bytes(vs)
    decreases |vs|
  {
    if vs != [] {
      var n := |vs| - 1;
      var before := Entries(vs[..n], ms[..n]);
      EntriesLengths(vs[..n], ms[..n]);
      assert vs == vs[..n] + [vs[n]];
      BytesSnoc(vs[..n], vs[n]);
      if ms[n] || before == [] {
        LengthsSnoc(before, Entry(vs[n].page, vs[n].offset, vs[n].len));
      } else {
        var m := |before| - 1;
        var e := before[m].(length := before[m].length + vs[n].len);
        assert before[m := e] == before[..m] + [e] && before == before[..m] + [before[m]];
        LengthsSnoc(before[..m], e);
        LengthsSnoc(before[..m], before[m]);
      }
    }
  }

  /** `blk_rq_map_sg`, before padding and drain. */
  method MapSg(q: Limits, bios: seq<Bio>) returns (sg: seq<Entry>)
    requires HasData(bios)
    ensures sg == Entries(Vecs(bios), MapMarks(q, Vecs(bios)))
    ensures |sg| == MapCount(q, Vecs(bios))
    ensures Lengths(sg) == Bytes(Vecs(bios)) && Covers(Vecs(bios), sg, Starts(MapMarks(q, Vecs(bios))))
    ensures Greedy(q, Vecs(bios), MapMarks(q, Vecs(bios)))
  {
    hide Mapped, Vecs, MapMarks, MapCount, Entries;
    VecsEmpty();
    var prev := bios[0].vecs[0];
    sg := [];
    MappedStart(q, prev);
    ghost var done := [];
    for i := 0 to |bios|
      invariant done == Vecs(bios[..i])
      invariant Mapped(q, done, prev, sg)
    {
      ghost var before := done;
      for j := 0 to |bios[i].vecs|
        invariant done == before + bios[i].vecs[..j]
        invariant Mapped(q, done, prev, sg)
      {
        var v := bios[i].vecs[j];
        MappedStep(q, done, prev, sg, v);
        var n := |sg| - 1;
        if sg != [] && q.cluster && sg[n].length + v.len <= q.maxSize && q.join(prev, v) {
          sg := sg[n := sg[n].(length := sg[n].length + v.len)];
        } else {
          sg := sg + [Entry(v.page, v.offset, v.len)];
        }
        prev := v;
        done := done + [v];
      }
      VecsPrefix(bios, i);
    }
    assert bios[..|bios|] == bios;
    VecsNonempty(bios);
    MappedEnd(q, Vecs(bios), prev, sg);
    MapMarksFirst(q, Vecs(bios));
    hide Covers, Lengths, Bytes, Starts, Greedy;
    MapGreedy(q, Vecs(bios));
    EntriesLengths(Vecs(bios), MapMarks(q, Vecs(bios)));
    EntriesCover(Vecs(bios), MapMarks(q, Vecs(bios)));
  }

  lemma {:induction false} MapMarksFirst(q: Limits, vs: seq<Bvec>)
    requires vs != []
    ensures |MapMarks(q, vs)| == |vs| && MapMarks(q, vs)[0]
  {
    MapMarksValid(q, vs);
  }

  lemma {:induction false} MappedStart(q: Limits, prev: Bvec)
    ensures Mapped(q, [], prev, [])
  {
  }

  lemma {:induction false} MappedEnd(q: Limits, vs: seq<Bvec>, prev: Bvec, sg: seq<Entry>)
    requires vs != [] && Mapped(q, vs, prev, sg)
    ensures sg == Entries(vs, MapMarks(q, vs)) && |sg| == MapCount(q, vs)
  {
    MapMarksValid(q, vs);
    EntriesCount(vs, MapMarks(q, vs));
  }

  ghost predicate Mapped(q: Limits, done: seq<Bvec>, prev: Bvec, sg: seq<Entry>) {
    var ms := MapMarks(q, done);
    && sg == Entries(done, ms)
    && (done != [] ==> prev == done[|done| - 1] && sg != [] && sg[|sg| - 1].length == LastSize(done, ms))
  }

  lemma {:induction false} MappedStep(q: Limits, done: seq<Bvec>, prev: Bvec, sg: seq<Entry>, v: Bvec)
    requires Mapped(q, done, prev, sg)
    ensures if sg != [] && !Cut(q, prev, sg[|sg| - 1].length, v)
            then Mapped(q, done + [v], v, sg[|sg| - 1 := sg[|sg| - 1].(length := sg[|sg| - 1].length + v.len)])
            else Mapped(q, done + [v], v, sg + [Entry(v.page, v.offset, v.len)])
  {
    var n := |done|;
    var ms, ms' := MapMarks(q, done), MapMarks(q, done + [v]);
    assert (done + [v])[..n] == done;
    if done == [] {
      assert done + [v] == [v] && sg == [];
      assert MapMarks(q, [v]) == [true] && SizeAfter(v.len, [v][1..], [true][1..]) == v.len;
    } else {
      RecountSnoc(WithoutHigh(q), done, v);
      assert ms'[..n] == ms;
      SizeAfterConcat(0, done, ms, [v], [ms'[n]]);
    }
  }

  /** A request updated in place. Every operation keeps the recorded count and sizes witnessed, so the
      scatter-gather table sized by `nr` is always long enough. */
  class Request {
    const q: Limits
    var bios: seq<Bio>
    var nr: nat
    var len: nat
    var special: bool

    ghost function Value(): Req
      reads this
    {
      Req(bios, nr, len, special)
    }

    constructor (q: Limits, b: Bio)
      requires BioOk(q, b)
      ensures this.q == q && Value() == Prep(q, b) && ReqOk(q, Value())
    {
      PrepOk(q, b);
      var b' := Counted(q, b);
      this.q := q;
      bios, nr, len, special := [b'], b'.physSegs, Bytes(b.vecs), false;
    }

    method RecalcRequest()
      requires HasData(bios)
      modifies this`bios, this`nr
      ensures Value() == Recalc(q, old(Value())) && ReqOk(q, Value())
    {
      RecalcOk(q, Value());
      nr, bios := RecalcSegments(q, bios);
    }

    method BackMergeBio(b: Bio) returns (ok: bool)
      requires ReqOk(q, Value()) && BioOk(q, b)
      modifies this`bios, this`nr, this`len
      ensures Merge(ok, Value()) == BackMerge(q, old(Value()), b) && ReqOk(q, Value())
      ensures ok <==> RoomFor(q, old(Value()), Bytes(b.vecs), SegmentsOf(q, b))
      ensures Vecs(bios) == old(Vecs(bios)) + if ok then b.vecs else []
    {
      BackMergeOk(q, Value(), b);
      BackMergeIs(q, Value(), b);
      hide Vecs, Bytes, Witnessed, RoomFor, SegmentsOf, RecountMarks, Count;
      if len / 512 + Bytes(b.vecs) / 512 > q.maxSectors {
        return false;
      }
      var n := |bios| - 1;
      bios := bios[n := Counted(q, bios[n])];
      var b' := Counted(q, b);
      ok := nr + b'.physSegs <= q.maxSegments;
      if ok {
        bios, nr, len := bios + [b'], nr + b'.physSegs, len + Bytes(b.vecs);
      }
    }

    method FrontMergeBio(b: Bio) returns (ok: bool)
      requires ReqOk(q, Value()) && BioOk(q, b)
      modifies this`bios, this`nr, this`len
      ensures Merge(ok, Value()) == FrontMerge(q, old(Value()), b) && ReqOk(q, Value())
      ensures ok <==> RoomFor(q, old(Value()), Bytes(b.vecs), SegmentsOf(q, b))
      ensures Vecs(bios) == (if ok then b.vecs else []) + old(Vecs(bios))
    {
      FrontMergeOk(q, Value(), b);
      FrontMergeIs(q, Value(), b);
      hide Vecs, Bytes, Witnessed, RoomFor, SegmentsOf, RecountMarks, Count;
      if len / 512 + Bytes(b.vecs) / 512 > q.maxSectors {
        return false;
      }
      bios := bios[0 := Counted(q, bios[0])];
      var b' := Counted(q, b);
      ok := nr + b'.physSegs <= q.maxSegments;
      if ok {
        bios, nr, len := [b'] + bios, nr + b'.physSegs, len + Bytes(b.vecs);
      }
    }

    method Absorb(next: Request) returns (ok: bool)
      requires next != this && next.q == q && ReqOk(q, Value()) && ReqOk(q, next.Value())
      modifies this`bios, this`nr, this`len, next`bios
      ensures HasData(old(bios)) && HasData(old(next.bios)) && 1 <= old(nr)
      ensures Joined(ok, Value(), next.Value()) == MergeRequests(q, old(Value()), old(next.Value()))
      ensures ReqOk(q, Value()) && ReqOk(q, next.Value())
      ensures Vecs(bios) == old(Vecs(bios)) + if ok then old(Vecs(next.bios)) else []
      ensures Vecs(next.bios) == old(Vecs(next.bios))
    {
      AtLeastOne(q, Value());
      MergeRequestsOk(q, Value(), next.Value());
      MergeRequestsIs(q, Value(), next.Value());
      hide Vecs, Witnessed, Touch, MergeRequests;
      ok := MergeInto(next);
    }

    /** `ll_merge_requests_fn` and, when it agrees, the linking done by `attempt_merge`. */
    method MergeInto(next: Request) returns (ok: bool)
      requires next != this && next.q == q && HasData(bios) && HasData(next.bios) && 1 <= nr
      modifies this`bios, this`nr, this`len, next`bios
      ensures Joined(ok, Value(), next.Value()) == MergeRequests(q, old(Value()), old(next.Value()))
    {
      if special || next.special || len / 512 + next.len / 512 > q.maxSectors {
        return false;
      }
      var n, m := |bios| - 1, |next.bios| - 1;
      var tail, head := bios[n], next.bios[0];
      var size, total := tail.back + head.front, nr + next.nr;
      if q.cluster && size <= q.maxSize && q.join(tail.vecs[|tail.vecs| - 1], head.vecs[0]) {
        if nr == 1 {
          bios := bios[0 := bios[0].(front := size)];
        }
        if next.nr == 1 {
          next.bios := next.bios[m := next.bios[m].(back := size)];
        }
        total := total - 1;
      }
      ok := total <= q.maxSegments;
      if ok {
        nr, bios, len := total, bios + next.bios, len + next.len;
      }
    }

    method Map() returns (sg: seq<Entry>)
      requires ReqOk(q, Value())
      ensures |sg| <= nr
      ensures sg == Entries(Vecs(bios), MapMarks(q, Vecs(bios)))
    {
      sg := MapSg(q, bios);
      ghost var ms :| Witness(q, Vecs(bios), ms, nr, bios[0].front, bios[|bios| - 1].back);
      MapperMinimal(q, Vecs(bios), ms);
    }
  }
}
