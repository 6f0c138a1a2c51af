/** The per-direction slice accounting of block/blk-throttle.c: starting, extending and
    trimming slices, the byte and IO checks, and the charge. Machine arithmetic wraps where
    the source's does (u64 for bytes, 32-bit for IO counts and `unsigned long`); `jiffies`
    itself is a natural number that never wraps. */
module ThrottleSlice {

  const U32: nat := 0x1_0000_0000
  const U64: nat := 0x1_0000_0000_0000_0000

  /** The tick rate, the slice length in ticks, and one direction's two limits. */
  datatype Config = Config(hz: nat, slice: nat, bps: nat, iops: nat) {
    predicate Valid() {
      2 <= hz < U32 && 1 <= slice && 0 < bps < U64 && 0 < iops < U32
    }

    /** Both limits are the all-ones sentinel: the group is not throttled at all. */
    predicate Unlimited() {
      bps == U64 - 1 && iops == U32 - 1
    }
  }

  /** `bytes_disp`, `io_disp`, `slice_start`, `slice_end` of one direction. */
  datatype Lane = Lane(bytesDisp: nat, ioDisp: nat, sliceStart: nat, sliceEnd: nat)

  /** A freshly zeroed group. */
  const ZERO_LANE := Lane(0, 0, 0, 0)

  datatype Verdict = Verdict(ok: bool, wait: nat)

  function Max(a: nat, b: nat): nat { if a < b then b else a }

  function Less(a: nat, b: nat): nat { if a >= b then a - b else 0 }

  function Roundup(x: nat, y: nat): nat
    requires 0 < y
  {
    (x + (y - 1)) / y * y
  }

  /** What a rate buys in a time, computed in a word of `m` values; wrapping only ever lowers it. */
  function Ratio(rate: nat, time: nat, m: nat, hz: nat): (r: nat)
    requires 0 < m && 0 < hz
    ensures r * hz <= rate * time && r * hz < m
  {
    var p := rate * time;
    WrappedQuotient(p, m, hz);
    p % m / hz
  }

  predicate SliceUsed(l: Lane, now: nat) {
    !(l.sliceStart <= now <= l.sliceEnd)
  }

  function StartNewSlice(c: Config, now: nat): Lane {
    Lane(0, 0, now, now + c.slice)
  }

  function ExtendSlice(c: Config, l: Lane, end: nat): Lane
    requires c.Valid()
  {
    l.(sliceEnd := Roundup(end, c.slice))
  }

  /** The elapsed time rounded up to whole slices; a slice that has just started counts as one. */
  function ElapsedRounded(c: Config, l: Lane, now: nat): nat
    requires c.Valid() && l.sliceStart <= now
  {
    var elapsed := now - l.sliceStart;
    Roundup(if elapsed == 0 then c.slice else elapsed, c.slice)
  }

  function BytesAllowed(c: Config, l: Lane, now: nat): nat
    requires c.Valid() && l.sliceStart <= now
  {
    Ratio(c.bps, ElapsedRounded(c, l, now), U64, c.hz)
  }

  /** Ticks until `extra` bytes more are paid for, at least one, in the source's word sizes. */
  function BpsWait(c: Config, extra: nat): (wait: nat)
    requires c.Valid()
    ensures 1 <= wait
  {
    Max(extra * c.hz % U64 / c.bps % U32, 1)
  }

  function WithinBps(c: Config, l: Lane, size: nat, now: nat): (v: Verdict)
    requires c.Valid() && l.sliceStart <= now
    ensures v.ok <==> v.wait == 0
  {
    var want := (l.bytesDisp + size) % U64;
    var allowed := BytesAllowed(c, l, now);
    if want <= allowed then Verdict(true, 0)
    else
      Verdict(false, BpsWait(c, want - allowed) + Less(ElapsedRounded(c, l, now), now - l.sliceStart))
  }

  function IosAllowed(c: Config, l: Lane, now: nat): nat
    requires c.Valid() && l.sliceStart <= now
  {
    var tmp := Ratio(c.iops, ElapsedRounded(c, l, now), U64, c.hz);
    if tmp > U32 - 1 then U32 - 1 else tmp
  }

  /** The elapsed time at which `want` IOs fit. */
  function IopsDue(c: Config, want: nat): (due: nat)
    requires c.Valid()
    ensures 1 <= due
  {
    want * c.hz % U32 / c.iops + 1
  }

  function WithinIops(c: Config, l: Lane, now: nat): (v: Verdict)
    requires c.Valid() && l.sliceStart <= now
    ensures v.ok <==> v.wait == 0
  {
    var want := (l.ioDisp + 1) % U32;
    if want <= IosAllowed(c, l, now) then Verdict(true, 0)
    else
      var due, elapsed := IopsDue(c, want), now - l.sliceStart;
      Verdict(false, if due > elapsed then due - elapsed else 1)
  }

  /** The slice that `tg_may_dispatch` examines: a new one if the old one ran out, otherwise the
      old one, made to last at least one slice interval from now. */
  function OpenSlice(c: Config, l: Lane, now: nat): Lane
    requires c.Valid()
  {
    if SliceUsed(l, now) then StartNewSlice(c, now)
    else if l.sliceEnd < now + c.slice then ExtendSlice(c, l, now + c.slice)
    else l
  }

  datatype Outcome = Outcome(lane: Lane, verdict: Verdict)

  /** `tg_may_dispatch`: the lane it leaves behind, whether the bio may go, and the wait. */
  function MayDispatch(c: Config, l: Lane, size: nat, now: nat): Outcome
    requires c.Valid()
  {
    if c.Unlimited() then Outcome(l, Verdict(true, 0))
    else
      var o := OpenSlice(c, l, now);
      assert o.sliceStart <= now;
      var b := WithinBps(c, o, size, now);
      var i := if b.ok then WithinIops(c, o, now) else Verdict(false, 0);
      if b.ok && i.ok then Outcome(o, Verdict(true, 0))
      else
        var wait := Max(b.wait, i.wait);
        Outcome(if o.sliceEnd < now + wait then ExtendSlice(c, o, now + wait) else o, Verdict(false, wait))
  }

  function Charge(l: Lane, size: nat): Lane {
    l.(bytesDisp := (l.bytesDisp + size) % U64, ioDisp := (l.ioDisp + 1) % U32)
  }

  /** The part of `time` made of whole slices. */
  function WholeSlices(c: Config, time: nat): (w: nat)
    requires c.Valid()
    ensures w <= time
  {
    assert time == time / c.slice * c.slice + time % c.slice;
    time / c.slice * c.slice
  }

  /** `throtl_trim_slice`: drop whole slices already used up, and what they paid for. */
  function TrimSlice(c: Config, l: Lane, now: nat): Lane
    requires c.Valid()
  {
    if SliceUsed(l, now) then l
    else
      var e := l.(sliceEnd := Roundup(now + c.slice, c.slice));
      var width := WholeSlices(c, now - l.sliceStart);
      var bytesTrim := Ratio(c.bps, width, U64, c.hz);
      var ioTrim := Ratio(c.iops, width, U32, c.hz);
      if width == 0 || (bytesTrim == 0 && ioTrim == 0) then e
      else Lane(Less(e.bytesDisp, bytesTrim), Less(e.ioDisp, ioTrim), e.sliceStart + width, e.sliceEnd)
  }

  // ---------------------------------------------------------------- Funding

  /** What the books say about a direction: everything charged since `t0`, when the first slice
      was opened, and when the last charge was made. */
  datatype Ledger = Ledger(bytes: nat, ios: nat, t0: nat, last: nat)

  /** `disp` of `total` is charged to the open slice [start, end]; the rest was paid for by the
      time before `start`, and all of it by the time up to one slice after the last charge. */
  ghost predicate Funded(rate: nat, hz: nat, slice: nat, disp: nat, total: nat, start: nat, end: nat, t0: nat,
                         last: nat) {
    && disp <= total
    && t0 <= start && t0 <= last && last + slice <= end
    && (total - disp) * hz <= rate * (start - t0)
    && total * hz <= rate * (last + slice - t0)
  }

  /** The byte counter of the open slice is backed by the ledger. */
  ghost predicate BytesBacked(c: Config, l: Lane, g: Ledger) {
    && Funded(c.bps, c.hz, c.slice, l.bytesDisp, g.bytes, l.sliceStart, l.sliceEnd, g.t0, g.last)
    && l.sliceStart <= l.sliceEnd
    && l.bytesDisp * c.hz < U64
  }

  /** And so is the IO counter. */
  ghost predicate IosBacked(c: Config, l: Lane, g: Ledger) {
    && Funded(c.iops, c.hz, c.slice, l.ioDisp, g.ios, l.sliceStart, l.sliceEnd, g.t0, g.last)
    && l.ioDisp < U32
  }

  lemma {:induction false} MulLe(k: nat, a: nat, b: nat)
    requires a <= b
    ensures k * a <= k * b
  {
  }

  lemma {:induction false} RoundupBounds(x: nat, y: nat)
    requires 0 < y
    ensures x <= Roundup(x, y) < x + y
  {
    var n := x + (y - 1);
    assert n == n / y * y + n % y;
  }

  lemma {:induction false} RoundupMonotone(x: nat, x': nat, y: nat)
    requires 0 < y && x <= x'
    ensures Roundup(x, y) <= Roundup(x', y)
  {
    QuotientMonotone(x + (y - 1), x' + (y - 1), y);
    MulLe(y, (x + (y - 1)) / y, (x' + (y - 1)) / y);
  }

  lemma {:induction false} ElapsedBounds(c: Config, l: Lane, now: nat)
    requires c.Valid() && l.sliceStart <= now
    ensures now - l.sliceStart <= ElapsedRounded(c, l, now) <= now - l.sliceStart + c.slice
  {
    var e := now - l.sliceStart;
    RoundupBounds(if e == 0 then c.slice else e, c.slice);
    if e == 0 {
      RoundupBounds(c.slice, c.slice);
      assert c.slice + (c.slice - 1) == 1 * c.slice + (c.slice - 1);
      DivOnce(c.slice);
    }
  }

  lemma {:induction false} DivOnce(y: nat)
    requires 0 < y
    ensures Roundup(y, y) == y
  {
    QuotientCovers(y + (y - 1), y, 1);
    QuotientCovers(y + (y - 1), y, 2);
  }

  /** A quotient of a wrapped product never exceeds the true ratio. */
  lemma {:induction false} WrappedQuotient(p: nat, m: nat, hz: nat)
    requires 0 < hz && 0 < m
    ensures (p % m / hz) * hz <= p
    ensures (p % m / hz) * hz < m
  {
    var r := p % m;
    assert r == r / hz * hz + r % hz;
    assert r <= p;
  }

  lemma {:induction false} FundRestart(rate: nat, hz: nat, slice: nat, disp: nat, total: nat, start: nat, end: nat,
                                       t0: nat, last: nat, now: nat)
    requires Funded(rate, hz, slice, disp, total, start, end, t0, last) && end < now
    ensures Funded(rate, hz, slice, 0, total, now, now + slice, t0, last)
  {
    MulLe(rate, last + slice - t0, now - t0);
  }

  lemma {:induction false} FundCharge(rate: nat, hz: nat, slice: nat, disp: nat, total: nat, start: nat, end: nat,
                                      t0: nat, last: nat,
                   now: nat, amount: nat, rnd: nat)
    requires Funded(rate, hz, slice, disp, total, start, end, t0, last)
    requires start <= now && now + slice <= end && rnd <= now - start + slice
    requires (disp + amount) * hz <= rate * rnd
    ensures Funded(rate, hz, slice, disp + amount, total + amount, start, end, t0, now)
  {
    MulLe(rate, rnd, now - start + slice);
    calc {
      (total + amount) * hz;
      (total - disp) * hz + (disp + amount) * hz;
    <=
      rate * (start - t0) + rate * (now - start + slice);
    ==
      rate * (now + slice - t0);
    }
  }

  lemma {:induction false} FundTrim(rate: nat, hz: nat, slice: nat, disp: nat, total: nat, start: nat, end: nat,
                                    t0: nat, last: nat,
                 end': nat, cut: nat, width: nat)
    requires Funded(rate, hz, slice, disp, total, start, end, t0, last)
    requires last + slice <= end'
    requires cut * hz <= rate * width
    ensures Funded(rate, hz, slice, Less(disp, cut), total, start + width, end', t0, last)
  {
    var disp' := Less(disp, cut);
    assert disp - disp' <= cut;
    MulLe(hz, disp - disp', cut);
    calc {
      (total - disp') * hz;
      (total - disp) * hz + (disp - disp') * hz;
    <=
      rate * (start - t0) + rate * width;
    ==
      rate * (start + width - t0);
    }
  }

  lemma {:induction false} OpenSliceBacked(c: Config, l: Lane, g: Ledger, now: nat)
    requires c.Valid() && BytesBacked(c, l, g) && l.sliceStart <= now
    ensures var o := OpenSlice(c, l, now);
            && BytesBacked(c, o, g) && o.sliceStart <= now && now + c.slice <= o.sliceEnd
            && (IosBacked(c, l, g) ==> IosBacked(c, o, g))
  {
    if SliceUsed(l, now) {
      FundRestart(c.bps, c.hz, c.slice, l.bytesDisp, g.bytes, l.sliceStart, l.sliceEnd, g.t0, g.last, now);
      if IosBacked(c, l, g) {
        FundRestart(c.iops, c.hz, c.slice, l.ioDisp, g.ios, l.sliceStart, l.sliceEnd, g.t0, g.last, now);
      }
    } else {
      RoundupBounds(now + c.slice, c.slice);
    }
  }

  /** Examining a bio keeps the books balanced, and leaves the slice open for another interval. */
  lemma {:induction false} MayDispatchBacked(c: Config, l: Lane, g: Ledger, size: nat, now: nat)
    requires c.Valid() && !c.Unlimited() && BytesBacked(c, l, g) && l.sliceStart <= now
    ensures var r := MayDispatch(c, l, size, now);
            && BytesBacked(c, r.lane, g) && r.lane.sliceStart <= now && now + c.slice <= r.lane.sliceEnd
            && (IosBacked(c, l, g) ==> IosBacked(c, r.lane, g))
            && r.lane.(sliceEnd := 0) == OpenSlice(c, l, now).(sliceEnd := 0)
            && (r.verdict.ok ==> r.lane == OpenSlice(c, l, now))
            && (!r.verdict.ok ==> 1 <= r.verdict.wait && now + r.verdict.wait <= r.lane.sliceEnd)
  {
    OpenSliceBacked(c, l, g, now);
    var r := MayDispatch(c, l, size, now);
    RoundupBounds(now + r.verdict.wait, c.slice);
  }

  /** The bytes of an admitted bio fit what the elapsed time has paid for, and the byte counter does not wrap. */
  lemma {:induction false} AdmittedBytes(c: Config, l: Lane, size: nat, now: nat)
    requires c.Valid() && l.sliceStart <= now && l.bytesDisp * c.hz < U64 && size < U32 && WithinBps(c, l, size, now).ok
    ensures (l.bytesDisp + size) * c.hz <= c.bps * ElapsedRounded(c, l, now) && (l.bytesDisp + size) * c.hz < U64
    ensures (l.bytesDisp + size) % U64 == l.bytesDisp + size
  {
    hide ElapsedRounded, Ratio, BpsWait;
    assert l.bytesDisp + size < U64 by { MulLe(l.bytesDisp, 2, c.hz); }
    SmallMod(l.bytesDisp + size, U64);
    AllowedCovers(l.bytesDisp + size, BytesAllowed(c, l, now), c.bps * ElapsedRounded(c, l, now), c.hz);
  }

  lemma {:induction false} AllowedCovers(want: nat, allowed: nat, paid: nat, hz: nat)
    requires want <= allowed && allowed * hz <= paid && allowed * hz < U64
    ensures want * hz <= paid && want * hz < U64
  {
    MulLe(hz, want, allowed);
  }

  /** And so does the IO itself, unless the IO counter is at its top. */
  lemma {:induction false} AdmittedIo(c: Config, l: Lane, now: nat)
    requires c.Valid() && l.sliceStart <= now && l.ioDisp + 1 < U32 && WithinIops(c, l, now).ok
    ensures (l.ioDisp + 1) * c.hz <= c.iops * ElapsedRounded(c, l, now)
    ensures (l.ioDisp + 1) % U32 == l.ioDisp + 1
  {
    hide ElapsedRounded, Ratio, IopsDue;
    SmallMod(l.ioDisp + 1, U32);
    var allowed := Ratio(c.iops, ElapsedRounded(c, l, now), U64, c.hz);
    AllowedCovers(l.ioDisp + 1, allowed, c.iops * ElapsedRounded(c, l, now), c.hz);
  }

  /** Charging a bio that both checks admitted keeps the books balanced. */
  lemma {:induction false} ChargeBacked(c: Config, l: Lane, g: Ledger, size: nat, now: nat)
    requires c.Valid() && BytesBacked(c, l, g) && l.sliceStart <= now && now + c.slice <= l.sliceEnd && size < U32
    requires WithinBps(c, l, size, now).ok && WithinIops(c, l, now).ok
    ensures BytesBacked(c, Charge(l, size), Ledger(g.bytes + size, g.ios + 1, g.t0, now))
    ensures IosBacked(c, l, g) && l.ioDisp + 1 < U32 ==>
              IosBacked(c, Charge(l, size), Ledger(g.bytes + size, g.ios + 1, g.t0, now))
  {
    hide ElapsedRounded, WithinBps, WithinIops;
    var rnd := ElapsedRounded(c, l, now);
    ElapsedBounds(c, l, now);
    AdmittedBytes(c, l, size, now);
    FundCharge(c.bps, c.hz, c.slice, l.bytesDisp, g.bytes, l.sliceStart, l.sliceEnd, g.t0, g.last, now, size, rnd);
    if IosBacked(c, l, g) && l.ioDisp + 1 < U32 {
      AdmittedIo(c, l, now);
      FundCharge(c.iops, c.hz, c.slice, l.ioDisp, g.ios, l.sliceStart, l.sliceEnd, g.t0, g.last, now, 1, rnd);
    }
  }

  lemma {:induction false} CutBacked(c: Config, l: Lane, g: Ledger, bytes: nat, ios: nat, width: nat, end: nat)
    requires c.Valid() && BytesBacked(c, l, g)
    requires bytes * c.hz <= c.bps * width && ios * c.hz <= c.iops * width
    requires g.last + c.slice <= end && l.sliceStart + width <= end
    ensures BytesBacked(c, Lane(Less(l.bytesDisp, bytes), Less(l.ioDisp, ios), l.sliceStart + width, end), g)
    ensures IosBacked(c, l, g) ==>
              IosBacked(c, Lane(Less(l.bytesDisp, bytes), Less(l.ioDisp, ios), l.sliceStart + width, end), g)
  {
    hide Funded;
    FundTrim(c.bps, c.hz, c.slice, l.bytesDisp, g.bytes, l.sliceStart, l.sliceEnd, g.t0, g.last, end, bytes, width);
    if IosBacked(c, l, g) {
      FundTrim(c.iops, c.hz, c.slice, l.ioDisp, g.ios, l.sliceStart, l.sliceEnd, g.t0, g.last, end, ios, width);
    }
    MulLe(c.hz, Less(l.bytesDisp, bytes), l.bytesDisp);
  }

  /** Trimming after a charge made now keeps the books balanced. */
  lemma {:induction false} TrimBacked(c: Config, l: Lane, g: Ledger, now: nat)
    requires c.Valid() && BytesBacked(c, l, g) && l.sliceStart <= now <= l.sliceEnd && g.last <= now
    ensures BytesBacked(c, TrimSlice(c, l, now), g) && TrimSlice(c, l, now).sliceStart <= now
    ensures IosBacked(c, l, g) ==> IosBacked(c, TrimSlice(c, l, now), g)
  {
    hide BytesBacked, IosBacked, Ratio, WholeSlices, Roundup;
    var width := WholeSlices(c, now - l.sliceStart);
    RoundupBounds(now + c.slice, c.slice);
    var end := Roundup(now + c.slice, c.slice);
    CutBacked(c, l, g, Ratio(c.bps, width, U64, c.hz), Ratio(c.iops, width, U32, c.hz), width, end);
    CutBacked(c, l, g, 0, 0, 0, end);
  }

  lemma {:induction false} BackedBound(c: Config, l: Lane, g: Ledger, now: nat)
    requires BytesBacked(c, l, g) && g.last <= now
    ensures g.t0 <= now
    ensures g.bytes * c.hz <= c.bps * (now - g.t0 + c.slice)
    ensures IosBacked(c, l, g) ==> g.ios * c.hz <= c.iops * (now - g.t0 + c.slice)
  {
    MulLe(c.bps, g.last + c.slice - g.t0, now - g.t0 + c.slice);
    MulLe(c.iops, g.last + c.slice - g.t0, now - g.t0 + c.slice);
  }

  // ---------------------------------------------------------------- Whole runs

  /** What happens to one direction of a group: a bio is examined only for its wait, submitted
      and charged if it may go at once, or dispatched from the queue, charged and trimmed. */
  datatype Event = Probe(now: nat, size: nat) | Submit(now: nat, size: nat) | Dispatch(now: nat, size: nat)

  function Step(c: Config, l: Lane, e: Event): Lane
    requires c.Valid()
  {
    var r := MayDispatch(c, l, e.size, e.now);
    if e.Probe? || !r.verdict.ok then r.lane
    else if e.Submit? then Charge(r.lane, e.size)
    else TrimSlice(c, Charge(r.lane, e.size), e.now)
  }

  predicate Charges(c: Config, l: Lane, e: Event)
    requires c.Valid()
  {
    !e.Probe? && MayDispatch(c, l, e.size, e.now).verdict.ok
  }

  function Run(c: Config, es: seq<Event>): Lane
    requires c.Valid()
  {
    if es == [] then ZERO_LANE else Step(c, Run(c, es[..|es| - 1]), es[|es| - 1])
  }

  function BytesCharged(c: Config, es: seq<Event>): nat
    requires c.Valid()
  {
    if es == [] then 0
    else
      var e, before := es[|es| - 1], es[..|es| - 1];
      BytesCharged(c, before) + if Charges(c, Run(c, before), e) then e.size else 0
  }

  function IosCharged(c: Config, es: seq<Event>): nat
    requires c.Valid()
  {
    if es == [] then 0
    else
      var e, before := es[|es| - 1], es[..|es| - 1];
      IosCharged(c, before) + if Charges(c, Run(c, before), e) then 1 else 0
  }

  /** Time does not run backwards, and bio sizes are 32-bit. */
  ghost predicate Timely(es: seq<Event>) {
    es != [] ==>
      var e, before := es[|es| - 1], es[..|es| - 1];
      Timely(before) && (before != [] ==> before[|before| - 1].now <= e.now) && e.size < U32
  }

  /** The 32-bit IO counter is never at its top when a bio is examined. */
  ghost predicate CounterFits(c: Config, es: seq<Event>)
    requires c.Valid()
  {
    es != [] ==>
      var e, before := es[|es| - 1], es[..|es| - 1];
      CounterFits(c, before) && OpenSlice(c, Run(c, before), e.now).ioDisp + 1 < U32
  }

  ghost function LastCharge(c: Config, es: seq<Event>): nat
    requires c.Valid() && es != []
  {
    var e, before := es[|es| - 1], es[..|es| - 1];
    if Charges(c, Run(c, before), e) || before == [] then e.now else LastCharge(c, before)
  }

  /** One event keeps the books balanced. */
  lemma {:induction false} StepBacked(c: Config, l: Lane, g: Ledger, e: Event)
    requires c.Valid() && !c.Unlimited() && e.size < U32
    requires BytesBacked(c, l, g) && l.sliceStart <= e.now && g.last <= e.now
    ensures Step(c, l, e).sliceStart <= e.now
    ensures BytesBacked(c, Step(c, l, e), Entered(c, l, g, e))
    ensures IosBacked(c, l, g) && OpenSlice(c, l, e.now).ioDisp + 1 < U32 ==>
              IosBacked(c, Step(c, l, e), Entered(c, l, g, e))
  {
    hide WithinBps, WithinIops, TrimSlice, OpenSlice, BytesBacked, IosBacked;
    MayDispatchBacked(c, l, g, e.size, e.now);
    if Charges(c, l, e) {
      var o := OpenSlice(c, l, e.now);
      ChargeBacked(c, o, g, e.size, e.now);
      if e.Dispatch? { TrimBacked(c, Charge(o, e.size), Entered(c, l, g, e), e.now); }
    }
  }

  /** The ledger after an event. */
  ghost function Entered(c: Config, l: Lane, g: Ledger, e: Event): Ledger
    requires c.Valid()
  {
    if Charges(c, l, e) then Ledger(g.bytes + e.size, g.ios + 1, g.t0, e.now) else g
  }

  /** The zeroed lane of a new group behaves like one whose first slice opens now. */
  lemma {:induction false} FirstStepBacked(c: Config, e: Event)
    requires c.Valid() && !c.Unlimited() && e.size < U32
    ensures Step(c, ZERO_LANE, e).sliceStart <= e.now
    ensures var g := if Charges(c, ZERO_LANE, e) then Ledger(e.size, 1, e.now, e.now) else Ledger(0, 0, e.now, e.now);
            BytesBacked(c, Step(c, ZERO_LANE, e), g) && IosBacked(c, Step(c, ZERO_LANE, e), g)
  {
    hide WithinBps, WithinIops, TrimSlice, Charge;
    var o := OpenSlice(c, ZERO_LANE, e.now);
    RoundupBounds(e.now + c.slice, c.slice);
    assert OpenSlice(c, o, e.now) == o;
    var g := Ledger(0, 0, e.now, e.now);
    assert BytesBacked(c, o, g) && IosBacked(c, o, g);
    StepBacked(c, o, g, e);
  }

  /** The ledger of a run. */
  ghost function Booked(c: Config, es: seq<Event>): Ledger
    requires c.Valid() && es != []
  {
    Ledger(BytesCharged(c, es), IosCharged(c, es), es[0].now, LastCharge(c, es))
  }

  lemma {:induction false} BookedIs(c: Config, es: seq<Event>)
    requires c.Valid() && es != []
    ensures Booked(c, es) == Ledger(BytesCharged(c, es), IosCharged(c, es), es[0].now, LastCharge(c, es))
  {
    hide BytesCharged, IosCharged, LastCharge;
  }

  lemma {:induction false} RunBacked(c: Config, es: seq<Event>)
    requires c.Valid() && !c.Unlimited() && es != [] && Timely(es)
    ensures LastCharge(c, es) <= es[|es| - 1].now && Run(c, es).sliceStart <= es[|es| - 1].now
    ensures BytesBacked(c, Run(c, es), Booked(c, es))
    ensures CounterFits(c, es) ==> IosBacked(c, Run(c, es), Booked(c, es))
  {
    hide OpenSlice, BytesBacked, IosBacked, MayDispatch, Step, Charges;
    var n := |es| - 1;
    var e, before := es[n], es[..n];
    if before == [] {
      FirstStepBacked(c, e);
      assert Run(c, before) == ZERO_LANE && BytesCharged(c, before) == 0 && IosCharged(c, before) == 0;
      assert Booked(c, es) == if Charges(c, ZERO_LANE, e) then Ledger(e.size, 1, e.now, e.now)
          else Ledger(0, 0, e.now, e.now);
    } else {
      RunBacked(c, before);
      StepBacked(c, Run(c, before), Booked(c, before), e);
      assert Entered(c, Run(c, before), Booked(c, before), e) == Booked(c, es);
    }
  }

  /** In every run of examinations, submissions and dispatches, through every restart, extension
      and trim, what has been charged since the first slice opened stays within the rate
      over the time since then plus one slice. The bytes do not depend on the IO counter. */
  lemma {:induction false} RateBound(c: Config, es: seq<Event>)
    requires c.Valid() && !c.Unlimited() && es != [] && Timely(es)
    ensures BytesCharged(c, es) * c.hz <= c.bps * (es[|es| - 1].now - es[0].now + c.slice)
    ensures CounterFits(c, es) ==> IosCharged(c, es) * c.hz <= c.iops * (es[|es| - 1].now - es[0].now + c.slice)
  {
    hide *;
    BookedIs(c, es);
    RunBacked(c, es);
    BackedBound(c, Run(c, es), Booked(c, es), es[|es| - 1].now);
  }

  // ---------------------------------------------------------------- Reported waits

  /** None of the products behind a check at `now` leaves its word. */
  ghost predicate NoWrap(c: Config, l: Lane, size: nat, now: nat)
    requires c.Valid() && l.sliceStart <= now
  {
    && c.bps * ElapsedRounded(c, l, now) < U64
    && c.iops * ElapsedRounded(c, l, now) < U64
    && (l.bytesDisp + size) * c.hz < U64
    && (l.ioDisp + 1) * c.hz < U32
  }

  lemma {:induction false} Remainder(p: nat, d: nat)
    requires 0 < d
    ensures p == p / d * d + p % d && p < d * (p / d + 1)
  {
  }

  lemma {:induction false} SmallMod(p: nat, m: nat)
    requires p < m
    ensures p % m == p
  {
  }

  lemma {:induction false} QuotientCovers(p: nat, d: nat, r: nat)
    requires 0 < d
    ensures r <= p / d <==> r * d <= p
  {
    Remainder(p, d);
    if r <= p / d { MulLe(d, r, p / d); } else { MulLe(d, p / d + 1, r); }
  }

  /** Without wrapping, `r` units are bought exactly when the rate covers them. */
  lemma {:induction false} RatioCovers(rate: nat, time: nat, m: nat, hz: nat, r: nat)
    requires 0 < hz && rate * time < m
    ensures r <= Ratio(rate, time, m, hz) <==> r * hz <= rate * time
  {
    var p := rate * time;
    SmallMod(p, m);
    QuotientCovers(p, hz, r);
  }

  lemma {:induction false} ElapsedMonotone(c: Config, l: Lane, now: nat, later: nat)
    requires c.Valid() && l.sliceStart <= now <= later
    ensures ElapsedRounded(c, l, now) <= ElapsedRounded(c, l, later)
  {
    var e, e' := now - l.sliceStart, later - l.sliceStart;
    if e == 0 {
      DivOnce(c.slice);
      if 0 < e' { RoundupMonotone(1, e', c.slice); assert 1 + (c.slice - 1) == c.slice; Remainder(c.slice, c.slice); }
    } else {
      RoundupMonotone(e, e', c.slice);
    }
  }

  /** Without wrapping, a bio fits exactly when the rounded time pays for it. */
  lemma {:induction false} BytesFit(c: Config, l: Lane, size: nat, now: nat)
    requires c.Valid() && l.sliceStart <= now && NoWrap(c, l, size, now)
    ensures WithinBps(c, l, size, now).ok <==> (l.bytesDisp + size) * c.hz <= c.bps * ElapsedRounded(c, l, now)
  {
    hide ElapsedRounded, BpsWait, Ratio;
    var want := l.bytesDisp + size;
    assert want < U64 by { MulLe(want, 1, c.hz); }
    RatioCovers(c.bps, ElapsedRounded(c, l, now), U64, c.hz, want);
  }

  lemma {:induction false} IosFit(c: Config, l: Lane, size: nat, now: nat)
    requires c.Valid() && l.sliceStart <= now && NoWrap(c, l, size, now)
    ensures l.ioDisp + 1 < U32
    ensures WithinIops(c, l, now).ok <==> (l.ioDisp + 1) * c.hz <= c.iops * ElapsedRounded(c, l, now)
  {
    hide ElapsedRounded, IopsDue, Ratio;
    var want := l.ioDisp + 1;
    assert want < U32 by { MulLe(want, 1, c.hz); }
    RatioCovers(c.iops, ElapsedRounded(c, l, now), U64, c.hz, want);
  }

  lemma {:induction false} LastingBytes(c: Config, l: Lane, size: nat, now: nat, later: nat)
    requires c.Valid() && l.sliceStart <= now <= later
    requires NoWrap(c, l, size, now) && NoWrap(c, l, size, later) && WithinBps(c, l, size, now).ok
    ensures WithinBps(c, l, size, later).ok
  {
    hide ElapsedRounded, WithinBps;
    BytesFit(c, l, size, now);
    BytesFit(c, l, size, later);
    ElapsedMonotone(c, l, now, later);
    MulLe(c.bps, ElapsedRounded(c, l, now), ElapsedRounded(c, l, later));
  }

  /** Once the reported time has come, the IO check accepts. */
  lemma {:induction false} IosFitWhenDue(c: Config, l: Lane, size: nat, now: nat)
    requires c.Valid() && l.sliceStart <= now && NoWrap(c, l, size, now)
    requires IopsDue(c, l.ioDisp + 1) <= now - l.sliceStart
    ensures WithinIops(c, l, now).ok
  {
    hide ElapsedRounded, WithinIops, IopsDue;
    var want := l.ioDisp + 1;
    ElapsedBounds(c, l, now);
    DueCovers(c, want);
    MulLe(c.iops, IopsDue(c, want), ElapsedRounded(c, l, now));
    IosFit(c, l, size, now);
  }

  lemma {:induction false} DueCovers(c: Config, want: nat)
    requires c.Valid() && want * c.hz < U32
    ensures want * c.hz < c.iops * IopsDue(c, want)
  {
    Remainder(want * c.hz, c.iops);
  }

  /** A bio that passes the byte check and fails the IO check, looked at again when the reported
      wait is over with nothing charged in between, finds its slice still open and may go. */
  lemma {:induction false} IopsWaitSuffices(c: Config, l: Lane, size: nat, now: nat)
    requires c.Valid() && !c.Unlimited()
    requires var o := OpenSlice(c, l, now); WithinBps(c, o, size, now).ok && !WithinIops(c, o, now).ok
    requires var later := now + MayDispatch(c, l, size, now).verdict.wait;
             NoWrap(c, OpenSlice(c, l, now), size, now) && NoWrap(c, OpenSlice(c, l, now), size, later)
    ensures var r := MayDispatch(c, l, size, now);
            var later := now + r.verdict.wait;
            !SliceUsed(r.lane, later) && MayDispatch(c, r.lane, size, later).verdict.ok
  {
    hide WithinBps, ElapsedRounded, IosAllowed, IopsDue, NoWrap;
    var o := OpenSlice(c, l, now);
    var r := MayDispatch(c, l, size, now);
    var later := now + r.verdict.wait;
    RoundupBounds(now + r.verdict.wait, c.slice);
    IosFit(c, o, size, now);
    if IopsDue(c, o.ioDisp + 1) <= now - o.sliceStart { IosFitWhenDue(c, o, size, now); }
    assert later == o.sliceStart + IopsDue(c, o.ioDisp + 1);
    LastingBytes(c, o, size, now, later);
    IosFitWhenDue(c, o, size, later);
    var o' := OpenSlice(c, r.lane, later);
    SameVerdict(c, o, o', size, later);
  }

  /** The checks do not look at the end of the slice. */
  lemma {:induction false} SameVerdict(c: Config, l: Lane, l': Lane, size: nat, now: nat)
    requires c.Valid() && l.sliceStart <= now && l.(sliceEnd := 0) == l'.(sliceEnd := 0)
    ensures WithinBps(c, l, size, now) == WithinBps(c, l', size, now)
    ensures WithinIops(c, l, now) == WithinIops(c, l', now)
  {
  }

  lemma {:induction false} QuotientShift(k: nat, n: nat, y: nat)
    requires 0 < y
    ensures (y * k + n) / y == k + n / y
  {
    var q, p := n / y, y * k + n;
    Remainder(n, y);
    Distribute(y, k, q);
    Distribute(y, k, q + 1);
    Distribute(y, q, 1);
    QuotientCovers(p, y, k + q);
    QuotientCovers(p, y, k + q + 1);
  }

  /** Rounding up passes over whole multiples. */
  lemma {:induction false} RoundupShift(k: nat, x: nat, y: nat)
    requires 0 < y
    ensures Roundup(k * y + x, y) == k * y + Roundup(x, y)
  {
    var n := x + (y - 1);
    QuotientShift(k, n, y);
    Distribute(y, k, n / y);
  }

  lemma {:induction false} RoundupExact(x: nat, y: nat)
    requires 0 < y
    ensures if x % y == 0 then Roundup(x, y) == x else x + 1 <= Roundup(x, y)
  {
    RoundupBounds(x, y);
    Remainder(x, y);
    if x % y == 0 {
      RoundupShift(x / y, 0, y);
      Remainder(y - 1, y);
      QuotientCovers(y - 1, y, 1);
    } else if Roundup(x, y) == x {
      Remainder(x + (y - 1), y);
      MultipleHasNoRemainder((x + (y - 1)) / y, y);
    }
  }

  lemma {:induction false} MultipleHasNoRemainder(k: nat, y: nat)
    requires 0 < y
    ensures k * y % y == 0
  {
    Remainder(k * y, y);
    QuotientCovers(k * y, y, k);
    QuotientCovers(k * y, y, k + 1);
    assert (k + 1) * y == k * y + y;
  }

  lemma {:induction false} ElapsedIsMultiple(c: Config, l: Lane, now: nat) returns (k: nat)
    requires c.Valid() && l.sliceStart <= now
    ensures ElapsedRounded(c, l, now) == k * c.slice
  {
    var elapsed := now - l.sliceStart;
    k := ((if elapsed == 0 then c.slice else elapsed) + (c.slice - 1)) / c.slice;
  }

  /** The arithmetic of the byte wait: `p` is what the rounded time pays for, `x` what is still
      owed, both scaled by the tick rate, and `w` the whole ticks needed for `x`. */
  lemma {:induction false} OwedIsPaid(bps: nat, hz: nat, p: nat, extra: nat, w: nat, gain: nat)
    requires 0 < hz && 0 < bps && w == extra * hz / bps && w <= gain
    ensures w + 1 <= gain ==> (p / hz + extra) * hz <= p + bps * gain
    ensures gain == w ==> ((p / hz + extra) * hz <= p + bps * gain <==> extra * hz % bps <= p % hz)
  {
    Remainder(p, hz);
    Remainder(extra * hz, bps);
    assert (p / hz + extra) * hz == p / hz * hz + extra * hz;
    if w + 1 <= gain { MulLe(bps, w + 1, gain); }
  }

  /** The wait was not rounded down to whole slices, or what was rounded off the wait is no more than what was rounded
      off the allowance. */
  ghost predicate LongEnough(c: Config, l: Lane, size: nat, now: nat)
    requires c.Valid() && l.sliceStart <= now && BytesAllowed(c, l, now) <= l.bytesDisp + size
  {
    var owed := (l.bytesDisp + size - BytesAllowed(c, l, now)) * c.hz;
    owed / c.bps == 0 || owed / c.bps % c.slice != 0 || owed % c.bps <= c.bps * ElapsedRounded(c, l, now) % c.hz
  }

  /** A bio refused by the byte check, looked at again when the wait reported by that check is over
      with nothing charged in between, passes it if and only if the wait was not rounded down to
      whole slices, or what was rounded off the wait is no more than what was rounded off the
      allowance. */
  lemma {:induction false} ByteWaitIff(c: Config, l: Lane, size: nat, now: nat)
    requires c.Valid() && l.sliceStart <= now && !WithinBps(c, l, size, now).ok
    requires NoWrap(c, l, size, now) && NoWrap(c, l, size, now + WithinBps(c, l, size, now).wait)
    requires (l.bytesDisp + size) * c.hz / c.bps < U32
    ensures BytesAllowed(c, l, now) <= l.bytesDisp + size
    ensures WithinBps(c, l, size, now + WithinBps(c, l, size, now).wait).ok <==> LongEnough(c, l, size, now)
  {
    hide ElapsedRounded, WithinBps, BytesAllowed, NoWrap, Roundup;
    var want, rnd := l.bytesDisp + size, ElapsedRounded(c, l, now);
    var extra := want - BytesAllowed(c, l, now);
    var w, wait := BpsWaitValue(c, l, size, now);
    var later := now + wait;
    var k := ElapsedIsMultiple(c, l, now);
    assert ElapsedRounded(c, l, later) == rnd + Roundup(Max(w, 1), c.slice) by {
      ElapsedBounds(c, l, now);
      LaterRounded(c, l, later, k, Max(w, 1));
    }
    RoundupExact(Max(w, 1), c.slice);
    RoundupBounds(Max(w, 1), c.slice);
    var gain := Roundup(Max(w, 1), c.slice);
    OwedIsPaid(c.bps, c.hz, c.bps * rnd, extra, w, gain);
    BytesFit(c, l, size, later);
    Distribute(c.bps, rnd, gain);
  }

  /** The same for two whole examinations: the second one, on the lane the first one left, finds the slice still open,
      and admits the bio if and only if the wait was long enough and the IO check does not object. */
  lemma {:induction false} BpsWaitSufficesIff(c: Config, l: Lane, size: nat, now: nat)
    requires c.Valid() && !c.Unlimited() && !WithinBps(c, OpenSlice(c, l, now), size, now).ok
    requires var later := now + MayDispatch(c, l, size, now).verdict.wait;
             NoWrap(c, OpenSlice(c, l, now), size, now) && NoWrap(c, OpenSlice(c, l, now), size, later)
    requires (OpenSlice(c, l, now).bytesDisp + size) * c.hz / c.bps < U32
    ensures var o, r := OpenSlice(c, l, now), MayDispatch(c, l, size, now);
            var later := now + r.verdict.wait;
            && BytesAllowed(c, o, now) <= o.bytesDisp + size && !SliceUsed(r.lane, later)
            && (MayDispatch(c, r.lane, size, later).verdict.ok
                <==> LongEnough(c, o, size, now) && WithinIops(c, o, later).ok)
  {
    hide WithinBps, WithinIops, ElapsedRounded, NoWrap, LongEnough, BytesAllowed;
    var o := OpenSlice(c, l, now);
    var r := MayDispatch(c, l, size, now);
    var later := now + r.verdict.wait;
    RoundupBounds(now + r.verdict.wait, c.slice);
    ByteWaitIff(c, o, size, now);
    SameVerdict(c, o, OpenSlice(c, r.lane, later), size, later);
  }

  lemma {:induction false} Distribute(k: nat, a: nat, b: nat)
    ensures k * (a + b) == k * a + k * b
  {
  }

  lemma {:induction false} LaterRounded(c: Config, l: Lane, later: nat, k: nat, w: nat)
    requires c.Valid() && later == l.sliceStart + k * c.slice + w && 1 <= w
    ensures ElapsedRounded(c, l, later) == k * c.slice + Roundup(w, c.slice)
  {
    RoundupShift(k, w, c.slice);
  }

  /** Without wrapping, the reported byte wait is the owed time, at least one tick, plus the rest of
      the rounded interval. */
  lemma {:induction false} BpsWaitValue(c: Config, l: Lane, size: nat, now: nat) returns (w: nat, wait: nat)
    requires c.Valid() && l.sliceStart <= now && !WithinBps(c, l, size, now).ok
    requires NoWrap(c, l, size, now) && (l.bytesDisp + size) * c.hz / c.bps < U32
    ensures BytesAllowed(c, l, now) <= l.bytesDisp + size
    ensures w == (l.bytesDisp + size - BytesAllowed(c, l, now)) * c.hz / c.bps
    ensures BytesAllowed(c, l, now) == c.bps * ElapsedRounded(c, l, now) / c.hz
    ensures wait == WithinBps(c, l, size, now).wait
    ensures now + wait == l.sliceStart + ElapsedRounded(c, l, now) + Max(w, 1)
  {
    hide ElapsedRounded, Ratio;
    var want := l.bytesDisp + size;
    assert want < U64 by { MulLe(want, 1, c.hz); }
    SmallMod(want, U64);
    RatioExact(c.bps, ElapsedRounded(c, l, now), c.hz);
    var extra := want - BytesAllowed(c, l, now);
    OwedFits(extra, want, c.hz, c.bps);
    w := extra * c.hz / c.bps;
    ElapsedBounds(c, l, now);
    wait := Max(w, 1) + ElapsedRounded(c, l, now) - (now - l.sliceStart);
  }

  lemma {:induction false} RatioExact(rate: nat, time: nat, hz: nat)
    requires 0 < hz && rate * time < U64
    ensures Ratio(rate, time, U64, hz) == rate * time / hz
  {
    SmallMod(rate * time, U64);
  }

  /** What is owed fits the words it is computed in. */
  lemma {:induction false} OwedFits(extra: nat, want: nat, hz: nat, bps: nat)
    requires extra <= want && 0 < bps && want * hz < U64 && want * hz / bps < U32
    ensures extra * hz % U64 / bps % U32 == extra * hz / bps
  {
    MulLe(hz, extra, want);
    var p, p' := extra * hz, want * hz;
    SmallMod(p, U64);
    QuotientMonotone(p, p', bps);
    SmallMod(p / bps, U32);
  }

  lemma {:induction false} QuotientMonotone(p: nat, p': nat, d: nat)
    requires 0 < d && p <= p'
    ensures p / d <= p' / d
  {
    Remainder(p, d);
    QuotientCovers(p', d, p / d);
  }

  /** A new group, 2500 bytes a second at 100 ticks a second: a bio of one sector is told to wait 20 ticks and is
      refused again after them. */
  lemma {:induction false} BpsWaitCanFallShort()
    ensures var c := Config(100, 10, 2500, 100);
            var first := MayDispatch(c, ZERO_LANE, 512, 1000);
            first.verdict == Verdict(false, 20) && !MayDispatch(c, first.lane, 512, 1020).verdict.ok
  {
    var c, l := Config(100, 10, 2500, 100), Lane(0, 0, 1000, 1010);
    assert OpenSlice(c, ZERO_LANE, 1000) == l;
    assert WithinBps(c, l, 512, 1000) == Verdict(false, 20);
    var o := Lane(0, 0, 1000, 1020);
    assert MayDispatch(c, ZERO_LANE, 512, 1000).lane == o;
    assert OpenSlice(c, o, 1020).sliceStart == 1000 && OpenSlice(c, o, 1020).bytesDisp == 0;
    assert BytesAllowed(c, OpenSlice(c, o, 1020), 1020) == 500;
  }

  /** Examining the same bio twice at one time changes nothing the second time. */
  lemma {:induction false} MayDispatchAgain(c: Config, l: Lane, size: nat, now: nat)
    requires c.Valid()
    ensures var r := MayDispatch(c, l, size, now);
            MayDispatch(c, r.lane, size, now) == r
  {
    hide WithinBps, WithinIops, Roundup;
    if !c.Unlimited() {
      var r, o := MayDispatch(c, l, size, now), OpenSlice(c, l, now);
      RoundupBounds(now + c.slice, c.slice);
      RoundupBounds(now + r.verdict.wait, c.slice);
      assert OpenSlice(c, r.lane, now) == r.lane;
      SameVerdict(c, o, r.lane, size, now);
    }
  }

  lemma {:induction false} RefusalWaits(c: Config, l: Lane, size: nat, now: nat)
    requires c.Valid() && !MayDispatch(c, l, size, now).verdict.ok
    ensures 1 <= MayDispatch(c, l, size, now).verdict.wait
  {
    hide WithinBps, WithinIops;
  }

  lemma {:induction false} AdmittedNow(c: Config, l: Lane, size: nat, now: nat)
    requires c.Valid() && MayDispatch(c, l, size, now).verdict.ok
    ensures MayDispatch(c, l, size, now).verdict == Verdict(true, 0)
  {
    hide WithinBps, WithinIops;
  }
}
