/** What the slice arithmetic of block/blk-throttle.c comes to, in plain multiplication: when a bio is admitted, what a
    trim takes off, how long a wait is, and that no bio is refused before the rate has been used up. */
module ThrottleExact {

  import opened ThrottleSlice

  // ---------------------------------------------------------------- One examination

  /** `m` slices are the fewest that cover `time`, one at least. */
  predicate Cover(slice: nat, time: nat, m: nat) {
    1 <= m && time <= m * slice && (m == 1 || (m - 1) * slice < time)
  }

  /** `k` is as much as `rate` buys in `time`. */
  predicate Buys(rate: nat, time: nat, hz: nat, k: nat) {
    k * hz <= rate * time < (k + 1) * hz
  }

  lemma {:induction false} RoundedIs(c: Config, l: Lane, now: nat) returns (m: nat)
    requires c.Valid() && l.sliceStart <= now
    ensures Cover(c.slice, now - l.sliceStart, m) && ElapsedRounded(c, l, now) == m * c.slice
  {
    m := ElapsedIsMultiple(c, l, now);
    var elapsed := now - l.sliceStart;
    if elapsed == 0 {
      DivOnce(c.slice);
      m := 1;
    } else {
      RoundupBounds(elapsed, c.slice);
      assert (m - 1) * c.slice == m * c.slice - c.slice && (m == 0 ==> m * c.slice == 0);
    }
  }

  /** What counts when a bio is examined: the counters and the start of the open slice, or nothing and now if the slice
      is over. */
  function Counters(l: Lane, now: nat): (r: (nat, nat, nat)) {
    if l.sliceStart <= now <= l.sliceEnd then (l.bytesDisp, l.ioDisp, l.sliceStart) else (0, 0, now)
  }

  /** A bio is admitted exactly if its bytes with those charged to the slice, and its IO with those charged, fit the
      time since the slice began, in whole slices. The counters and the start stay, and the slice lasts a slice more. */
  lemma {:induction false} AdmittedIff(c: Config, l: Lane, size: nat, now: nat) returns (m: nat)
    requires c.Valid() && !c.Unlimited()
    requires NoWrap(c, OpenSlice(c, l, now), size, now)
    ensures var r, (bytes, ios, start) := MayDispatch(c, l, size, now), Counters(l, now);
            && start <= now && Cover(c.slice, now - start, m)
            && (r.verdict.ok <==> && (bytes + size) * c.hz <= c.bps * (m * c.slice)
                                  && (ios + 1) * c.hz <= c.iops * (m * c.slice))
            && r.lane == Lane(bytes, ios, start, r.lane.sliceEnd) && now + c.slice <= r.lane.sliceEnd
  {
    var o := OpenSlice(c, l, now);
    m := RoundedIs(c, o, now);
    BytesFit(c, o, size, now);
    IosFit(c, o, size, now);
    RoundupBounds(now + c.slice, c.slice);
    RoundupBounds(now + MayDispatch(c, l, size, now).verdict.wait, c.slice);
    hide WithinBps, WithinIops, ElapsedRounded, NoWrap, Roundup, Cover;
  }

  /** The wait of a refused IO ends at most one tick after the rate has paid for it. */
  lemma {:induction false} IopsWaitTight(c: Config, l: Lane, size: nat, now: nat)
    requires c.Valid() && l.sliceStart <= now && NoWrap(c, l, size, now) && !WithinIops(c, l, now).ok
    ensures var wait := WithinIops(c, l, now).wait;
            wait == 1 || c.iops * (now - l.sliceStart + wait - 1) <= (l.ioDisp + 1) * c.hz
  {
    IosFit(c, l, size, now);
    var want, elapsed := l.ioDisp + 1, now - l.sliceStart;
    SmallMod(want, U32);
    SmallMod(want * c.hz, U32);
    Remainder(want * c.hz, c.iops);
    assert IopsDue(c, want) == want * c.hz / c.iops + 1;
  }

  /** The wait of refused bytes ends before the rate has paid for one byte more than they are, or one tick after the
      slice that is counted already. */
  lemma {:induction false} BpsWaitTight(c: Config, l: Lane, size: nat, now: nat) returns (m: nat)
    requires c.Valid() && l.sliceStart <= now && NoWrap(c, l, size, now) && !WithinBps(c, l, size, now).ok
    requires (l.bytesDisp + size) * c.hz / c.bps < U32
    ensures Cover(c.slice, now - l.sliceStart, m)
    ensures var ends := now - l.sliceStart + WithinBps(c, l, size, now).wait;
            ends == m * c.slice + 1 || c.bps * ends < (l.bytesDisp + size + 1) * c.hz
  {
    m := RoundedIs(c, l, now);
    var w, wait := BpsWaitValue(c, l, size, now);
    var t := ElapsedRounded(c, l, now);
    BytesFit(c, l, size, now);
    RatioExact(c.bps, t, c.hz);
    ElapsedBounds(c, l, now);
    hide *;
    if 1 < w {
      OwedLess(c.bps, c.hz, t, w, l.bytesDisp + size);
    }
  }

  lemma {:induction false} OwedLess(bps: nat, hz: nat, t: nat, w: nat, want: nat)
    requires 0 < bps && 0 < hz && bps * t / hz <= want && w == (want - bps * t / hz) * hz / bps
    ensures bps * (t + w) < (want + 1) * hz
  {
    var allowed := bps * t / hz;
    Remainder(bps * t, hz);
    Remainder((want - allowed) * hz, bps);
    assert bps * (t + w) == bps * t + bps * w;
    assert (want - allowed) * hz + (allowed + 1) * hz == (want + 1) * hz;
  }

  // ---------------------------------------------------------------- One trim

  lemma {:induction false} RatioBuys(rate: nat, time: nat, m: nat, hz: nat)
    requires 0 < hz && rate * time < m
    ensures Buys(rate, time, hz, Ratio(rate, time, m, hz))
  {
    var k := Ratio(rate, time, m, hz);
    RatioCovers(rate, time, m, hz, k);
    RatioCovers(rate, time, m, hz, k + 1);
  }

  /** Trimming a slice that is still open at `now`: with `n` whole slices gone by, which pay for `bytes` bytes and `ios`
      IOs, that much comes off the counters, as far as they go, and the start moves by the `n` slices; unless they pay
      for nothing. The slice ends at the next multiple of a slice that leaves one more. */
  lemma {:induction false} TrimIs(c: Config, l: Lane, now: nat) returns (n: nat, bytes: nat, ios: nat)
    requires c.Valid() && l.sliceStart <= now <= l.sliceEnd
    requires c.bps * (now - l.sliceStart) < U64 && c.iops * (now - l.sliceStart) < U32
    ensures n * c.slice <= now - l.sliceStart < (n + 1) * c.slice
    ensures Buys(c.bps, n * c.slice, c.hz, bytes) && Buys(c.iops, n * c.slice, c.hz, ios)
    ensures var t, moved := TrimSlice(c, l, now), 0 < bytes || 0 < ios;
            && t.sliceStart == l.sliceStart + (if moved then n * c.slice else 0)
            && t.bytesDisp == (if l.bytesDisp < bytes then 0 else l.bytesDisp - bytes)
            && t.ioDisp == (if l.ioDisp < ios then 0 else l.ioDisp - ios)
            && now + c.slice <= t.sliceEnd < now + 2 * c.slice && t.sliceEnd % c.slice == 0
  {
    var time := now - l.sliceStart;
    n := time / c.slice;
    Remainder(time, c.slice);
    var width := n * c.slice;
    MulLe(c.bps, width, time);
    MulLe(c.iops, width, time);
    bytes, ios := Ratio(c.bps, width, U64, c.hz), Ratio(c.iops, width, U32, c.hz);
    RatioBuys(c.bps, width, U64, c.hz);
    RatioBuys(c.iops, width, U32, c.hz);
    if width == 0 { NothingBought(c.bps, c.hz, bytes); NothingBought(c.iops, c.hz, ios); }
    RoundupBounds(now + c.slice, c.slice);
    MultipleHasNoRemainder((now + c.slice + (c.slice - 1)) / c.slice, c.slice);
    hide Ratio, Buys;
    assert WholeSlices(c, time) == width;
  }

  lemma {:induction false} NothingBought(rate: nat, hz: nat, k: nat)
    requires Buys(rate, 0, hz, k) && 0 < hz
    ensures k == 0
  {
    if 1 <= k { MulLe(hz, 1, k); }
  }

  /** On the lane that a trim leaves, a bio is admitted exactly if its size and what the trim left fit the time since
      the new start. */
  lemma {:induction false} TrimmedAdmits(c: Config, l: Lane, now: nat, later: nat, size: nat)
    returns (n: nat, bytes: nat, ios: nat, m: nat)
    requires c.Valid() && !c.Unlimited() && l.sliceStart <= now <= l.sliceEnd && now <= later <= now + c.slice
    requires c.bps * (now - l.sliceStart) < U64 && c.iops * (now - l.sliceStart) < U32
    requires NoWrap(c, OpenSlice(c, TrimSlice(c, l, now), later), size, later)
    ensures n * c.slice <= now - l.sliceStart < (n + 1) * c.slice
    ensures Buys(c.bps, n * c.slice, c.hz, bytes) && Buys(c.iops, n * c.slice, c.hz, ios)
    ensures var start := l.sliceStart + if 0 < bytes || 0 < ios then n * c.slice else 0;
            && start <= later && Cover(c.slice, later - start, m)
            && var left, leftIos := Less(l.bytesDisp, bytes), Less(l.ioDisp, ios);
               MayDispatch(c, TrimSlice(c, l, now), size, later).verdict.ok <==>
                 (left + size) * c.hz <= c.bps * (m * c.slice) && (leftIos + 1) * c.hz <= c.iops * (m * c.slice)
  {
    n, bytes, ios := TrimIs(c, l, now);
    var t := TrimSlice(c, l, now);
    m := AdmittedIff(c, t, size, later);
    hide MayDispatch, TrimSlice, Buys, NoWrap, OpenSlice, Cover;
  }

  // ---------------------------------------------------------------- The rate is not withheld

  /** Both resources are accounted alike: bytes, or IOs. */
  function Rate(c: Config, bytes: bool): nat { if bytes then c.bps else c.iops }

  function Disp(l: Lane, bytes: bool): nat { if bytes then l.bytesDisp else l.ioDisp }

  function Amount(size: nat, bytes: bool): nat { if bytes then size else 1 }

  function Charged(c: Config, es: seq<Event>, bytes: bool): nat
    requires c.Valid()
  {
    if bytes then BytesCharged(c, es) else IosCharged(c, es)
  }

  /** What is charged to the slice was charged since `s`, but for what the time from `s` to its start has paid for; a
      trim may lose up to one unit for each of the `n` slices it passes. */
  ghost predicate Used(rate: nat, hz: nat, slice: nat, disp: nat, start: nat, s: nat, amount: nat, n: nat) {
    s <= start && n * slice <= start - s && disp * hz + rate * (start - s) <= (amount + n) * hz
  }

  lemma {:induction false} UsedCharge(rate: nat, hz: nat, slice: nat, disp: nat, start: nat, s: nat, amount: nat,
                                      n: nat, more: nat, disp': nat)
    requires Used(rate, hz, slice, disp, start, s, amount, n) && disp' <= disp + more
    ensures Used(rate, hz, slice, disp', start, s, amount + more, n)
  {
    MulLe(hz, disp', disp + more);
    assert (disp + more) * hz == disp * hz + more * hz;
    assert (amount + more + n) * hz == (amount + n) * hz + more * hz;
  }

  lemma {:induction false} UsedTrim(rate: nat, hz: nat, slice: nat, disp: nat, start: nat, s: nat, amount: nat, n: nat,
                                    width: nat, k: nat)
    requires Used(rate, hz, slice, disp, start, s, amount, n) && slice <= width && Buys(rate, width, hz, k) && k <= disp
    ensures Used(rate, hz, slice, disp - k, start + width, s, amount, n + 1)
  {
    assert (n + 1) * slice == n * slice + slice;
    assert rate * (start + width - s) == rate * (start - s) + rate * width;
    assert (disp - k) * hz == disp * hz - k * hz;
    assert (k + 1) * hz == k * hz + hz;
    assert (amount + (n + 1)) * hz == (amount + n) * hz + hz;
  }

  lemma {:induction false} UsedNothing(rate: nat, hz: nat, slice: nat, start: nat)
    ensures Used(rate, hz, slice, 0, start, start, 0, 0)
  {
  }

  /** The events of a run from `j` on come at `s` or later, and what they charged accounts for the slice. */
  ghost predicate Window(c: Config, es: seq<Event>, l: Lane, j: nat, s: nat, n: nat, bytes: bool)
    requires c.Valid()
  {
    && j <= |es| && Charged(c, es[..j], bytes) <= Charged(c, es, bytes)
    && (forall i :: j <= i < |es| ==> s <= es[i].now)
    && Used(Rate(c, bytes), c.hz, c.slice, Disp(l, bytes), l.sliceStart, s,
            Charged(c, es, bytes) - Charged(c, es[..j], bytes), n)
  }

  /** A run whose products stay within their words. */
  ghost predicate Short(c: Config, from: nat, to: nat) {
    from <= to && c.bps * (to - from) < U64 && c.iops * (to - from) < U32
  }

  /** Examining a bio: the window goes on, or a new one begins with a new slice. */
  lemma {:induction false} OpenWindow(c: Config, es: seq<Event>, e: Event, l: Lane, j: nat, s: nat, n: nat, bytes: bool)
    returns (j': nat, s': nat, n': nat)
    requires c.Valid() && (es == [] ==> l == ZERO_LANE) && (es != [] ==> Window(c, es, l, j, s, n, bytes))
    requires es != [] ==> es[|es| - 1].now <= e.now
    requires s <= e.now
    ensures Window(c, es, OpenSlice(c, l, e.now), j', s', n', bytes) && s' <= e.now
  {
    var o := OpenSlice(c, l, e.now);
    if es == [] || SliceUsed(l, e.now) {
      j', s', n' := |es|, o.sliceStart, 0;
      assert es[..j'] == es;
      UsedNothing(Rate(c, bytes), c.hz, c.slice, o.sliceStart);
    } else {
      j', s', n' := j, s, n;
    }
  }

  lemma {:induction false} ChargedSnoc(c: Config, es: seq<Event>, e: Event, bytes: bool)
    requires c.Valid()
    ensures Charged(c, es + [e], bytes) ==
            Charged(c, es, bytes) + if Charges(c, Run(c, es), e) then Amount(e.size, bytes) else 0
  {
    assert (es + [e])[..|es|] == es;
  }

  /** A charge, or none, is entered into the window. */
  lemma {:induction false} ChargeWindow(c: Config, es: seq<Event>, e: Event, o: Lane, u: Lane, j: nat, s: nat, n: nat,
                                        bytes: bool)
    requires c.Valid() && Window(c, es, o, j, s, n, bytes) && s <= e.now && u.sliceStart == o.sliceStart
    requires Disp(u, bytes) <= Disp(o, bytes) + if Charges(c, Run(c, es), e) then Amount(e.size, bytes) else 0
    ensures Window(c, es + [e], u, j, s, n, bytes)
  {
    ChargedSnoc(c, es, e, bytes);
    hide Charged, Used, Charges, Run;
    var more := if Charges(c, Run(c, es), e) then Amount(e.size, bytes) else 0;
    assert (es + [e])[..j] == es[..j];
    UsedCharge(Rate(c, bytes), c.hz, c.slice, Disp(o, bytes), o.sliceStart, s,
               Charged(c, es, bytes) - Charged(c, es[..j], bytes), n, more, Disp(u, bytes));
  }

  /** A trim takes the window along; if it empties the counter, a new one begins. */
  lemma {:induction false} TrimWindow(c: Config, es: seq<Event>, l: Lane, now: nat, j: nat, s: nat, n: nat, bytes: bool)
    returns (j': nat, s': nat, n': nat)
    requires c.Valid() && Window(c, es, l, j, s, n, bytes) && s <= now
    requires l.sliceStart <= now <= l.sliceEnd && Short(c, l.sliceStart, now)
    ensures Window(c, es, TrimSlice(c, l, now), j', s', n', bytes) && s' <= now
  {
    var k, b, i := TrimIs(c, l, now);
    var t, cut := TrimSlice(c, l, now), if bytes then b else i;
    hide TrimSlice, Charged, Used, Buys, Short;
    if t.sliceStart == l.sliceStart && cut == 0 {
      j', s', n' := j, s, n;
    } else if Disp(l, bytes) < cut {
      j', s', n' := |es|, t.sliceStart, 0;
      assert es[..j'] == es;
      UsedNothing(Rate(c, bytes), c.hz, c.slice, t.sliceStart);
    } else {
      j', s', n' := j, s, n + 1;
      AtLeastOneSlice(c, b, i, k);
      UsedTrim(Rate(c, bytes), c.hz, c.slice, Disp(l, bytes), l.sliceStart, s,
               Charged(c, es, bytes) - Charged(c, es[..j], bytes), n, k * c.slice, cut);
    }
  }

  lemma {:induction false} AtLeastOneSlice(c: Config, b: nat, i: nat, k: nat)
    requires c.Valid() && Buys(c.bps, k * c.slice, c.hz, b) && Buys(c.iops, k * c.slice, c.hz, i) && (0 < b || 0 < i)
    ensures c.slice <= k * c.slice
  {
    if k == 0 {
      assert k * c.slice == 0;
      NothingBought(c.bps, c.hz, b);
      NothingBought(c.iops, c.hz, i);
    } else {
      MulLe(c.slice, 1, k);
    }
  }

  lemma {:induction false} OpenFacts(c: Config, l: Lane, size: nat, now: nat)
    requires c.Valid() && !c.Unlimited()
    ensures var o, r := OpenSlice(c, l, now), MayDispatch(c, l, size, now);
            && o.sliceStart <= now <= o.sliceEnd && (r.verdict.ok ==> r.lane == o)
            && r.lane.(sliceEnd := o.sliceEnd) == o
  {
    hide WithinBps, WithinIops;
    RoundupBounds(now + c.slice, c.slice);
  }

  lemma {:induction false} ChargeLess(l: Lane, size: nat, bytes: bool)
    ensures Charge(l, size).sliceStart == l.sliceStart && Charge(l, size).sliceEnd == l.sliceEnd
    ensures Disp(Charge(l, size), bytes) <= Disp(l, bytes) + Amount(size, bytes)
  {
    Wrapped(l.bytesDisp + size, U64);
    Wrapped(l.ioDisp + 1, U32);
  }

  lemma {:induction false} EndOnly(l: Lane, u: Lane, bytes: bool)
    requires u.(sliceEnd := l.sliceEnd) == l
    ensures u.sliceStart == l.sliceStart && Disp(u, bytes) == Disp(l, bytes)
  {
  }

  /** One event. */
  lemma {:induction false} StepWindow(c: Config, es: seq<Event>, e: Event, j: nat, s: nat, n: nat, bytes: bool)
    returns (j': nat, s': nat, n': nat)
    requires c.Valid() && !c.Unlimited() && (es != [] ==> Window(c, es, Run(c, es), j, s, n, bytes))
    requires (es != [] ==> es[|es| - 1].now <= e.now) && s <= e.now
    requires Short(c, OpenSlice(c, Run(c, es), e.now).sliceStart, e.now)
    ensures Window(c, es + [e], Step(c, Run(c, es), e), j', s', n', bytes) && s' <= e.now
  {
    var l := Run(c, es);
    var o, r := OpenSlice(c, l, e.now), MayDispatch(c, l, e.size, e.now);
    hide MayDispatch, OpenSlice, TrimSlice, Window, Run, Short, Charge, Disp, Amount;
    OpenFacts(c, l, e.size, e.now);
    ChargeLess(o, e.size, bytes);
    EndOnly(o, r.lane, bytes);
    j', s', n' := OpenWindow(c, es, e, l, j, s, n, bytes);
    if Charges(c, l, e) {
      var u := Charge(o, e.size);
      ChargeWindow(c, es, e, o, u, j', s', n', bytes);
      if e.Dispatch? {
        j', s', n' := TrimWindow(c, es + [e], u, e.now, j', s', n', bytes);
      }
    } else {
      ChargeWindow(c, es, e, o, r.lane, j', s', n', bytes);
    }
  }

  /** In every run, what is charged to the open slice was charged since some time, and only that time's worth less. */
  lemma {:induction false} RunWindow(c: Config, es: seq<Event>, bytes: bool) returns (j: nat, s: nat, n: nat)
    requires c.Valid() && !c.Unlimited() && es != [] && Timely(es) && Short(c, es[0].now, es[|es| - 1].now)
    ensures Window(c, es, Run(c, es), j, s, n, bytes) && s <= es[|es| - 1].now
  {
    hide Window, Step;
    var k := |es| - 1;
    var e, before := es[k], es[..k];
    assert es == before + [e];
    j, s, n := 0, 0, 0;
    if before != [] {
      FirstIsLeast(es, k - 1);
      ShortPart(c, es[0].now, before[k - 1].now, e.now);
      j, s, n := RunWindow(c, before, bytes);
      StartsLater(c, before);
    }
    OpensLater(c, before, e);
    j, s, n := StepWindow(c, before, e, j, s, n, bytes);
  }

  lemma {:induction false} ShortPart(c: Config, from: nat, to: nat, end: nat)
    requires Short(c, from, end) && from <= to <= end
    ensures Short(c, from, to) && Short(c, to, end)
  {
    MulLe(c.bps, to - from, end - from);
    MulLe(c.iops, to - from, end - from);
    MulLe(c.bps, end - to, end - from);
    MulLe(c.iops, end - to, end - from);
  }

  lemma {:induction false} FirstIsLeast(es: seq<Event>, i: nat)
    requires Timely(es) && i < |es|
    ensures es[0].now <= es[i].now <= es[|es| - 1].now && Timely(es[..|es| - 1])
    decreases |es|
  {
    var k := |es| - 1;
    if i < k {
      FirstIsLeast(es[..k], i);
      FirstIsLeast(es[..k], k - 1);
    } else if 0 < k {
      FirstIsLeast(es[..k], k - 1);
    }
  }

  lemma {:induction false} StartsLater(c: Config, es: seq<Event>)
    requires c.Valid() && !c.Unlimited() && es != [] && Timely(es)
    ensures es[0].now <= Run(c, es).sliceStart
  {
    hide Run, Timely, LastCharge;
    RunBacked(c, es);
  }

  /** The slice that is examined began within the run. */
  lemma {:induction false} OpensLater(c: Config, es: seq<Event>, e: Event)
    requires c.Valid() && !c.Unlimited() && Timely(es) && (es != [] ==> es[|es| - 1].now <= e.now)
    requires Short(c, if es == [] then e.now else es[0].now, e.now)
    ensures Short(c, OpenSlice(c, Run(c, es), e.now).sliceStart, e.now)
  {
    var o := OpenSlice(c, Run(c, es), e.now);
    if es != [] {
      StartsLater(c, es);
      hide Run, Short;
      ShortPart(c, es[0].now, o.sliceStart, e.now);
    }
  }

  /** Since `s`, charges of a run from `j` on and one of `more` come to more than the rate pays for until `now`, or in
      one slice, but for one unit a slice. */
  ghost predicate Spent(c: Config, es: seq<Event>, more: nat, now: nat, bytes: bool)
    requires c.Valid()
  {
    exists j: nat, s: nat, n: nat :: Exceeds(c, es, more, now, bytes, j, s, n)
  }

  ghost predicate Exceeds(c: Config, es: seq<Event>, more: nat, now: nat, bytes: bool, j: nat, s: nat, n: nat)
    requires c.Valid()
  {
    && j <= |es| && s <= now && n * c.slice <= now - s && Charged(c, es[..j], bytes) <= Charged(c, es, bytes)
    && (forall i :: j <= i < |es| ==> s <= es[i].now)
    && Rate(c, bytes) * Max(now - s, c.slice) < (Charged(c, es, bytes) - Charged(c, es[..j], bytes) + more + n) * c.hz
  }

  /** A refused bio with what is charged to the slice costs more than the rate pays for in its time. */
  lemma {:induction false} RefusalCosts(c: Config, o: Lane, size: nat, now: nat)
    requires c.Valid() && o.sliceStart <= now
    requires c.bps * ElapsedRounded(c, o, now) < U64 && c.iops * ElapsedRounded(c, o, now) < U64
    ensures !WithinBps(c, o, size, now).ok ==> c.bps * ElapsedRounded(c, o, now) < (o.bytesDisp + size) * c.hz
    ensures !WithinIops(c, o, now).ok ==> c.iops * ElapsedRounded(c, o, now) < (o.ioDisp + 1) * c.hz
  {
    hide ElapsedRounded, Ratio, BpsWait, IopsDue;
    RatioCovers(c.bps, ElapsedRounded(c, o, now), U64, c.hz, o.bytesDisp + size);
    RatioCovers(c.iops, ElapsedRounded(c, o, now), U64, c.hz, o.ioDisp + 1);
    Wrapped(o.bytesDisp + size, U64);
    Wrapped(o.ioDisp + 1, U32);
  }

  lemma {:induction false} Wrapped(a: nat, m: nat)
    requires 0 < m
    ensures a % m <= a && a % m < m
  {
  }

  lemma {:induction false} CoversTime(c: Config, o: Lane, now: nat)
    requires c.Valid() && o.sliceStart <= now
    ensures Max(now - o.sliceStart, c.slice) <= ElapsedRounded(c, o, now) <= now - o.sliceStart + c.slice
  {
    ElapsedBounds(c, o, now);
    var m := RoundedIs(c, o, now);
    MulLe(c.slice, 1, m);
  }

  lemma {:induction false} UsedExceeds(rate: nat, hz: nat, slice: nat, disp: nat, start: nat, s: nat, amount: nat,
                                       n: nat, more: nat, t: nat, now: nat)
    requires Used(rate, hz, slice, disp, start, s, amount, n) && start <= now && Max(now - start, slice) <= t
    requires rate * t < (disp + more) * hz
    ensures s <= now && n * slice <= now - s && rate * Max(now - s, slice) < (amount + more + n) * hz
  {
    MulLe(rate, Max(now - s, slice), start - s + t);
    assert rate * (start - s + t) == rate * (start - s) + rate * t;
    assert (disp + more) * hz == disp * hz + more * hz;
    assert (amount + more + n) * hz == (amount + n) * hz + more * hz;
  }

  /** The window of a slice that is charged more than its time pays for. */
  lemma {:induction false} WindowExceeded(c: Config, es: seq<Event>, o: Lane, more: nat, now: nat, bytes: bool, j: nat,
                                          s: nat, n: nat)
    requires c.Valid() && Window(c, es, o, j, s, n, bytes) && o.sliceStart <= now
    requires Rate(c, bytes) * ElapsedRounded(c, o, now) < (Disp(o, bytes) + more) * c.hz
    ensures Exceeds(c, es, more, now, bytes, j, s, n)
  {
    CoversTime(c, o, now);
    hide ElapsedRounded, Charged, Rate, Disp, Used;
    UsedExceeds(Rate(c, bytes), c.hz, c.slice, Disp(o, bytes), o.sliceStart, s,
                Charged(c, es, bytes) - Charged(c, es[..j], bytes), n, more, ElapsedRounded(c, o, now), now);
  }

  /** In every run a bio is refused only if the rate has been used up: since some time, what was charged and the bio
      come to more bytes, or more IOs, than the rate pays for, but for one unit in each slice. */
  lemma {:induction false} RefusedIsSpent(c: Config, es: seq<Event>, size: nat, now: nat)
    requires c.Valid() && !c.Unlimited() && es != [] && Timely(es) && es[|es| - 1].now <= now
    requires Short(c, es[0].now, now + c.slice) && !MayDispatch(c, Run(c, es), size, now).verdict.ok
    ensures Spent(c, es, size, now, true) || Spent(c, es, 1, now, false)
  {
    var l := Run(c, es);
    var o := OpenSlice(c, l, now);
    FirstIsLeast(es, |es| - 1);
    ShortPart(c, es[0].now, es[|es| - 1].now, now + c.slice);
    ShortPart(c, es[0].now, now, now + c.slice);
    OpensLater(c, es, Probe(now, size));
    OpenFacts(c, l, size, now);
    StartsLater(c, es);
    ShortRounded(c, o, es[0].now, now);
    RefusalCosts(c, o, size, now);
    hide OpenSlice, ElapsedRounded, WithinBps, WithinIops, Run, Window, Short, Exceeds, Timely;
    var bytes := !WithinBps(c, o, size, now).ok;
    var j, s, n := RunWindow(c, es, bytes);
    j, s, n := OpenWindow(c, es, Probe(now, size), l, j, s, n, bytes);
    WindowExceeded(c, es, o, Amount(size, bytes), now, bytes, j, s, n);
  }

  lemma {:induction false} ShortRounded(c: Config, o: Lane, from: nat, now: nat)
    requires c.Valid() && from <= o.sliceStart <= now && Short(c, from, now + c.slice)
    ensures c.bps * ElapsedRounded(c, o, now) < U64 && c.iops * ElapsedRounded(c, o, now) < U64
  {
    CoversTime(c, o, now);
    MulLe(c.bps, ElapsedRounded(c, o, now), now + c.slice - from);
    MulLe(c.iops, ElapsedRounded(c, o, now), now + c.slice - from);
  }
}
