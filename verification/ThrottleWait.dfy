/** Whether the wait that tg_may_dispatch returns with a refusal is long enough: the same bio,
    checked again exactly that much later with nothing charged meanwhile. */
module ThrottleWait {
  import opened Throttle

  /** The check `now` refuses because of the I/O limit. */
  predicate IopsRefuses(cfg: Config, lim: Limits, m: Meter, now: nat, size: nat)
    requires cfg.Valid() && lim.Valid()
  {
    var m1 := Renew(cfg, m, now);
    !lim.Unlimited() && WithinBps(cfg, lim, m1, now, size).ok && !WithinIops(cfg, lim, m1, now).ok
  }

  /** After the returned wait the same slice is live. */
  predicate StaysLive(cfg: Config, lim: Limits, m: Meter, now: nat, size: nat)
    requires cfg.Valid() && lim.Valid()
  {
    var (m2, v) := MayDispatch(cfg, lim, m, now, size);
    var later := now + v.wait;
    !v.ok && !Used(m2, later) && Renew(cfg, m2, later).start == Renew(cfg, m, now).start
  }

  /** After the returned wait the I/O check passes. */
  predicate IopsPassesLater(cfg: Config, lim: Limits, m: Meter, now: nat, size: nat)
    requires cfg.Valid() && lim.Valid()
  {
    var (m2, v) := MayDispatch(cfg, lim, m, now, size);
    WithinIops(cfg, lim, Renew(cfg, m2, now + v.wait), now + v.wait).ok
  }

  // -------------------------------------------------------------------- arithmetic

  /** A quota covers `c` exactly when the product, cut to 64 bits, covers c * hz. */
  lemma QuotaCovers(limit: nat, span: nat, hz: nat, c: nat)
    requires hz > 0
    ensures c <= Quota(limit, span, hz) <==> Covers(limit, span, c, hz)
  {
    var p := limit * span % U64;
    DivTimes(p, hz);
    if c * hz <= p {
      assert hz * c <= p;
      DivGe(p, hz, c);
    } else if c <= p / hz {
      MulMono(hz, c, p / hz);
    }
  }

  /** The product of limit and span, cut to 64 bits, covers c. */
  predicate Covers(iops: nat, span: nat, c: nat, hz: nat) {
    c * hz <= iops * span % U64
  }

  /** jiffy_elapsed plus jiffy_wait, as computed in 32 bits. */
  function WaitTime(iops: nat, c: nat, hz: nat): nat
    requires iops > 0
  {
    c * hz % U32 / iops + 1
  }

  /** The I/O check of a count that a run can have. */
  lemma IopsExact(cfg: Config, lim: Limits, m: Meter, now: nat)
    requires cfg.Valid() && lim.Valid() && m.start <= now && m.ios <= lim.iops / 10 + 1
    ensures WithinIops(cfg, lim, m, now).ok <==> Covers(lim.iops, ElapsedSlices(cfg, m, now), m.ios + 1, cfg.hz)
  {
    hide ElapsedSlices, Quota, WithinIops, Covers;
    IopsOk(cfg, lim, m, now);
    assert (m.ios + 1) % U32 == m.ios + 1;
    QuotaCovers(lim.iops, ElapsedSlices(cfg, m, now), cfg.hz, m.ios + 1);
  }

  lemma SmallMod(p: nat)
    requires p < U64
    ensures p % U64 == p
  {
  }

  lemma MulLess(a: nat, x: nat, y: nat)
    requires a * x < a * y
    ensures x < y
  {
    if y <= x {
      MulMono(a, y, x);
    }
  }

  /** What is left of x after dropping multiples of 2^32. */
  lemma WrapOnce(x: nat)
    requires x >= U32
    ensures x % U32 <= x - U32
  {
  }

  /** Where the product of count and HZ passes 32 bits the limit is large. */
  lemma LargeLimit(cfg: Config, lim: Limits, c: nat)
    requires cfg.Valid() && cfg.hz <= 10000 && c <= lim.iops / 10 + 2 && c * cfg.hz >= U32
    ensures lim.iops > 20 * cfg.hz
    ensures c * cfg.hz < lim.iops * (cfg.Slice() + 1)
  {
    MulMono(c, cfg.hz, 10000);
    assert lim.iops > 4_000_000;
    var s, iops := cfg.Slice(), lim.iops;
    MulMono(cfg.hz, 10 * c, iops + 20);
    MulMono(iops, cfg.hz, 10 * s + 9);
    assert cfg.hz * (10 * c) == 10 * (c * cfg.hz);
    assert cfg.hz * (iops + 20) == iops * cfg.hz + 20 * cfg.hz;
    assert iops * (10 * s + 9) == 10 * (iops * s) + 9 * iops;
    MulPlus(iops, s, 1);
  }

  lemma ProductFits(iops: nat, span: nat)
    requires iops < U32 && span <= U32
    ensures iops * span < U64
  {
    MulMono(iops, span, U32);
    assert iops * U32 < U32 * U32;
  }

  // --------------------------------------------------------- one meter, I/O limit

  /** The time of the second check: the returned wait, or one jiffy if that is past. */
  lemma IopsLater(cfg: Config, lim: Limits, m: Meter, now: nat)
    requires cfg.Valid() && lim.Valid() && m.start <= now && !WithinIops(cfg, lim, m, now).ok
    requires cfg.hz <= 10000 && m.ios <= lim.iops / 10 + 1
    ensures var e, w := now - m.start, WaitTime(lim.iops, m.ios + 1, cfg.hz);
            now + WithinIops(cfg, lim, m, now).wait == m.start + if w > e then w else e + 1
  {
    hide IoAllowed, JiffyWait, WaitTime;
    assert (m.ios + 1) % U32 == m.ios + 1;
    NoCarry(lim.iops, m.ios + 1, cfg.hz);
  }

  lemma NoCarry(iops: nat, c: nat, hz: nat)
    requires 0 < iops && c <= iops / 10 + 2 && hz <= 10000
    ensures JiffyWait(iops, c, hz) == WaitTime(iops, c, hz)
  {
    ShortWait(iops, c, hz);
  }

  /** No product wraps: the check passes later. */
  lemma IopsPlain(cfg: Config, lim: Limits, m: Meter, now: nat)
    requires cfg.Valid() && lim.Valid() && m.start <= now && !WithinIops(cfg, lim, m, now).ok
    requires cfg.hz <= 10000 && m.ios <= lim.iops / 10 + 1
    requires lim.iops * ElapsedSlices(cfg, m, now) < U64 && (m.ios + 1) * cfg.hz < U32
    ensures WithinIops(cfg, lim, m, now + WithinIops(cfg, lim, m, now).wait).ok
  {
    hide ElapsedSlices, WithinIops, Config.Slice, Covers, WaitTime;
    var later := now + WithinIops(cfg, lim, m, now).wait;
    SliceBound(cfg);
    IopsLater(cfg, lim, m, now);
    IopsExact(cfg, lim, m, now);
    ElapsedBounds(cfg, m, now);
    PlainAhead(lim.iops, m.ios + 1, cfg.hz, now - m.start, ElapsedSlices(cfg, m, now));
    ElapsedBounds(cfg, m, later);
    PlainEnough(lim.iops, m.ios + 1, cfg.hz, ElapsedSlices(cfg, m, later), cfg.Slice());
    IopsExact(cfg, lim, m, later);
  }

  lemma PlainAhead(iops: nat, c: nat, hz: nat, elapsed: nat, span: nat)
    requires 0 < iops && iops * span < U64 && c * hz < U32 && !Covers(iops, span, c, hz) && elapsed <= span
    ensures WaitTime(iops, c, hz) > elapsed
  {
    SmallMod(iops * span);
    WaitAhead(iops, c * hz, elapsed, span);
  }

  lemma PlainEnough(iops: nat, c: nat, hz: nat, span: nat, s: nat)
    requires 0 < iops < U32 && c * hz < U32 && s <= 1000
    requires WaitTime(iops, c, hz) <= span <= WaitTime(iops, c, hz) + s
    ensures Covers(iops, span, c, hz)
  {
    WaitEnough(iops, c * hz, span);
    SpanFits(iops, c * hz, span, s);
  }

  lemma WaitAhead(iops: nat, x: nat, elapsed: nat, span: nat)
    requires 0 < iops && iops * span < x && elapsed <= span
    ensures x / iops + 1 > elapsed
  {
    DivGe(x, iops, span);
  }

  lemma WaitEnough(iops: nat, x: nat, span: nat)
    requires 0 < iops && x / iops + 1 <= span
    ensures x <= iops * span
  {
    DivTimes(x, iops);
    WaitEnoughBy(iops, x, x / iops, span);
  }

  lemma WaitEnoughBy(iops: nat, x: nat, q: nat, span: nat)
    requires x < q * iops + iops && q + 1 <= span
    ensures x <= iops * span
  {
    MulPlus(iops, q, 1);
    MulMono(iops, q + 1, span);
  }

  lemma SpanFits(iops: nat, x: nat, span: nat, s: nat)
    requires 0 < iops < U32 && x < U32 && span <= x / iops + 1 + s && s <= 1000
    ensures iops * span % U64 == iops * span
  {
    var q := x / iops;
    DivTimes(x, iops);
    MulMono(iops, span, q + (s + 1));
    MulPlus(iops, q, s + 1);
    MulMono(iops, s + 1, 1001);
    SmallMod(iops * span);
  }

  /** The 32-bit product wraps: the check passes later only from the end of the first slice. */
  lemma IopsWrapped(cfg: Config, lim: Limits, m: Meter, now: nat)
    requires cfg.Valid() && lim.Valid() && m.start <= now && !WithinIops(cfg, lim, m, now).ok
    requires cfg.hz <= 10000 && m.ios <= lim.iops / 10 + 1
    requires lim.iops * ElapsedSlices(cfg, m, now) < U64 && (m.ios + 1) * cfg.hz >= U32
    ensures WithinIops(cfg, lim, m, now + WithinIops(cfg, lim, m, now).wait).ok <==> now == m.start + cfg.Slice()
  {
    hide ElapsedSlices, WithinIops, Config.Slice, Covers, WaitTime;
    var later := now + WithinIops(cfg, lim, m, now).wait;
    var c, iops, s := m.ios + 1, lim.iops, cfg.Slice();
    SliceBound(cfg);
    LargeLimit(cfg, lim, c);
    IopsLater(cfg, lim, m, now);
    IopsExact(cfg, lim, m, now);
    IopsExact(cfg, lim, m, later);
    ElapsedBounds(cfg, m, now);
    WrappedFirst(iops, c, cfg.hz, ElapsedSlices(cfg, m, now), s);
    assert later <= m.start + s + 1 && (later > m.start + s <==> now == m.start + s);
    FirstOrSecond(cfg, m, later);
  }

  /** The refusal was in the first slice, the wait ends within it or with the next jiffy, and
      the second slice is enough. */
  lemma WrappedFirst(iops: nat, c: nat, hz: nat, span: nat, s: nat)
    requires iops < U32 && s <= span && 1 <= s <= 1000 && iops * span < U64
    requires U32 <= c * hz < iops * (s + 1) && !Covers(iops, span, c, hz)
    ensures iops > 0 && span == s && WaitTime(iops, c, hz) <= s && Covers(iops, 2 * s, c, hz)
  {
    var x := c * hz;
    FirstOnly(iops, x, span, s);
    WrappedShort(iops, x, s);
    SecondCovers(iops, x, s);
  }

  lemma FirstOnly(iops: nat, x: nat, span: nat, s: nat)
    requires s <= span && iops * span < U64 && iops * span % U64 < x < iops * (s + 1)
    ensures span == s
  {
    SmallMod(iops * span);
    MulLess(iops, span, s + 1);
  }

  lemma SecondCovers(iops: nat, x: nat, s: nat)
    requires iops < U32 && 1 <= s <= 1000 && x < iops * (s + 1)
    ensures x <= iops * (2 * s) % U64
  {
    ProductFits(iops, 2 * s);
    SmallMod(iops * (2 * s));
    MulMono(iops, s + 1, 2 * s);
  }

  lemma WrappedShort(iops: nat, x: nat, s: nat)
    requires 0 < iops < U32 <= x < iops * (s + 1)
    ensures x % U32 / iops < s
  {
    WrapOnce(x);
    MulPlus(iops, s, 1);
    DivLess(x % U32, iops, s);
  }

  lemma SliceBound(cfg: Config)
    requires cfg.Valid()
    ensures 1 <= cfg.Slice() <= cfg.hz && (cfg.hz <= 10000 ==> cfg.Slice() <= 1000)
  {
  }

  lemma FirstOrSecond(cfg: Config, m: Meter, now: nat)
    requires cfg.Valid() && m.start < now <= m.start + cfg.Slice() + 1
    ensures ElapsedSlices(cfg, m, now) == if now <= m.start + cfg.Slice() then cfg.Slice() else 2 * cfg.Slice()
  {
    hide RoundUp;
    var x, y := now - m.start, cfg.Slice();
    RoundUpWhole(x, y);
    if x < y {
      DivUnique(x, y, 0);
    } else if x == y {
      DivUnique(x, y, 1);
    } else if y == 1 {
      DivUnique(x, y, 2);
    } else {
      DivUnique(x, y, 1);
    }
  }

  lemma ElapsedNext(cfg: Config, m: Meter, now: nat)
    requires cfg.Valid() && m.start < now
    ensures ElapsedSlices(cfg, m, now + 1) ==
            ElapsedSlices(cfg, m, now) + if (now - m.start) % cfg.Slice() == 0 then cfg.Slice() else 0
  {
    hide RoundUp;
    RoundUpNext(now - m.start, cfg.Slice());
  }

  lemma RoundUpNext(x: nat, y: nat)
    requires x > 0 && y > 0
    ensures RoundUp(x + 1, y) == RoundUp(x, y) + if x % y == 0 then y else 0
  {
    hide RoundUp;
    var q, r := x / y, x % y;
    RoundUpTo(x, y, q, r);
    if r + 1 < y {
      RoundUpTo(x + 1, y, q, r + 1);
    } else {
      Plus(q, y);
      RoundUpTo(x + 1, y, q + 1, 0);
    }
  }

  lemma Plus(q: nat, y: nat)
    ensures (q + 1) * y == q * y + y
  {
  }

  lemma RoundUpTo(x: nat, y: nat, q: nat, r: nat)
    requires x > 0 && y > 0 && x == q * y + r && r < y
    ensures RoundUp(x, y) == if r == 0 then q * y else q * y + y
  {
    Plus(q, y);
    DivUnique(x + (y - 1), y, if r == 0 then q else q + 1);
  }

  lemma ModAdd(a: nat, b: nat)
    requires a % U64 + b < U64
    ensures (a + b) % U64 == a % U64 + b
  {
  }

  /** In a slice so long that the 64-bit product wraps the fallback of one jiffy is taken, and
      the check passes then only if that jiffy begins another slice and the cut product with
      that slice covers the count. */
  lemma IopsQuotaWrapped(cfg: Config, lim: Limits, m: Meter, now: nat)
    requires cfg.Valid() && lim.Valid() && m.start <= now && !WithinIops(cfg, lim, m, now).ok
    requires cfg.hz <= 10000 && m.ios <= lim.iops / 10 + 1
    requires lim.iops * ElapsedSlices(cfg, m, now) >= U64
    ensures WithinIops(cfg, lim, m, now).wait == 1
    ensures WithinIops(cfg, lim, m, now + 1).ok <==>
            && (now - m.start) % cfg.Slice() == 0
            && (m.ios + 1) * cfg.hz <= lim.iops * ElapsedSlices(cfg, m, now) % U64 + lim.iops * cfg.Slice()
  {
    hide ElapsedSlices, WithinIops, Config.Slice, WaitTime;
    var c, iops, span, s := m.ios + 1, lim.iops, ElapsedSlices(cfg, m, now), cfg.Slice();
    SliceBound(cfg);
    ElapsedBounds(cfg, m, now);
    LongSpan(iops, span);
    ShortWait(iops, c, cfg.hz);
    IopsLater(cfg, lim, m, now);
    ElapsedNext(cfg, m, now);
    IopsExact(cfg, lim, m, now);
    IopsExact(cfg, lim, m, now + 1);
    NextCovers(iops, c, cfg.hz, span, s);
  }

  lemma NextCovers(iops: nat, c: nat, hz: nat, span: nat, s: nat)
    requires iops < U32 && c <= iops / 10 + 2 && hz <= 10000 && s <= 1000 && !Covers(iops, span, c, hz)
    ensures Covers(iops, span + s, c, hz) <==> c * hz <= iops * span % U64 + iops * s
  {
    MulPlus(iops, span, s);
    SmallSum(iops, c, hz, s);
    CutNext(iops * span, iops * s, c * hz);
  }

  lemma CutNext(a: nat, b: nat, x: nat)
    requires a % U64 < x && x + b < U64
    ensures (a + b) % U64 == a % U64 + b
  {
    ModAdd(a, b);
  }

  lemma LongSpan(iops: nat, span: nat)
    requires iops < U32 && iops * span >= U64
    ensures span > U32
  {
    if span <= U32 {
      ProductFits(iops, span);
    }
  }

  lemma ShortWait(iops: nat, c: nat, hz: nat)
    requires 0 < iops && c <= iops / 10 + 2 && hz <= 10000
    ensures WaitTime(iops, c, hz) <= 30001
  {
    MulMono(c, hz, 10000);
    Fold(c * hz);
    DivLess(c * hz % U32, iops, 30001);
  }

  lemma Fold(x: nat)
    ensures x % U32 <= x
  {
  }

  lemma SmallSum(iops: nat, c: nat, hz: nat, s: nat)
    requires iops < U32 && c <= iops / 10 + 2 && hz <= 10000 && s <= 1000
    ensures c * hz + iops * s < U64
  {
    MulMono(hz, c, U32);
    MulMono(iops, s, 1000);
  }

  /** What a caller can look at to tell whether the wait will be long enough. */
  predicate IopsWaitEnough(cfg: Config, lim: Limits, m: Meter, now: nat)
    requires cfg.Valid() && m.start <= now
  {
    var c, product := (m.ios + 1) * cfg.hz, lim.iops * ElapsedSlices(cfg, m, now);
    if product < U64 then c < U32 || now == m.start + cfg.Slice()
    else (now - m.start) % cfg.Slice() == 0 && c <= product % U64 + lim.iops * cfg.Slice()
  }

  lemma IopsMeterIff(cfg: Config, lim: Limits, m: Meter, now: nat)
    requires cfg.Valid() && lim.Valid() && m.start <= now && !WithinIops(cfg, lim, m, now).ok
    requires cfg.hz <= 10000 && m.ios <= lim.iops / 10 + 1
    ensures WithinIops(cfg, lim, m, now + WithinIops(cfg, lim, m, now).wait).ok <==> IopsWaitEnough(cfg, lim, m, now)
  {
    hide ElapsedSlices, WithinIops, Config.Slice;
    if lim.iops * ElapsedSlices(cfg, m, now) >= U64 {
      IopsQuotaWrapped(cfg, lim, m, now);
    } else if (m.ios + 1) * cfg.hz < U32 {
      IopsPlain(cfg, lim, m, now);
    } else {
      IopsWrapped(cfg, lim, m, now);
    }
  }

  /** tg_may_dispatch refuses by the I/O limit at a count that a run can have: the slice is
      still live after the wait, and the I/O check passes then exactly if the 32-bit product
      did not wrap or the slice is just one old; where the 64-bit product wraps, exactly as
      IopsQuotaWrapped says. */
  lemma IopsWaitIff(cfg: Config, lim: Limits, m: Meter, now: nat, size: nat)
    requires cfg.Valid() && lim.Valid() && IopsRefuses(cfg, lim, m, now, size)
    requires cfg.hz <= 10000 && m.ios <= lim.iops / 10 + 1
    ensures StaysLive(cfg, lim, m, now, size)
    ensures IopsPassesLater(cfg, lim, m, now, size) <==> IopsWaitEnough(cfg, lim, Renew(cfg, m, now), now)
  {
    hide ElapsedSlices, WithinIops, WithinBps, Config.Slice, Renew, IopsWaitEnough;
    RenewStarts(cfg, m, now);
    RenewFields(cfg, m, now);
    var m1 := Renew(cfg, m, now);
    var (m2, v) := MayDispatch(cfg, lim, m, now, size);
    var later := now + v.wait;
    BpsOk(cfg, lim, m1, now, size);
    assert m2 == Extend(cfg, m1, later);
    ExtendLive(cfg, m1, now, later);
    IopsMeterIff(cfg, lim, m1, now);
    SameVerdicts(cfg, lim, m1, Renew(cfg, m2, later), later, size);
  }

  lemma RenewStarts(cfg: Config, m: Meter, now: nat)
    requires cfg.Valid()
    ensures Renew(cfg, m, now).start <= now <= Renew(cfg, m, now).end
  {
    hide RoundUp;
    RoundUpBounds(now + cfg.Slice(), cfg.Slice());
  }

  /** A slice stretched to `later` is live then. */
  lemma ExtendLive(cfg: Config, m: Meter, now: nat, later: nat)
    requires cfg.Valid() && m.start <= now <= later
    ensures var m2 := Extend(cfg, m, later);
            && !Used(m2, later)
            && var r := Renew(cfg, m2, later); r.start == m.start && r.bytes == m.bytes && r.ios == m.ios
  {
    hide RoundUp;
    RoundUpBounds(later, cfg.Slice());
  }

  // ------------------------------------------------------------- runs, I/O limit

  /** What one slice allows. */
  function SliceQuota(cfg: Config, lim: Limits): nat
    requires cfg.Valid()
  {
    lim.iops * cfg.Slice() / cfg.hz
  }

  /** The highest count a meter comes to while no 64-bit product wraps. */
  function MostIos(cfg: Config, lim: Limits): nat
    requires cfg.Valid()
  {
    if SliceQuota(cfg, lim) == 0 then 1 else SliceQuota(cfg, lim)
  }

  lemma QuotaSteps(cfg: Config, lim: Limits, span: nat)
    requires cfg.Valid() && lim.Valid() && span + cfg.Slice() <= U32
    ensures Quota(lim.iops, cfg.Slice(), cfg.hz) == SliceQuota(cfg, lim)
    ensures Quota(lim.iops, span + cfg.Slice(), cfg.hz) <= Quota(lim.iops, span, cfg.hz) + SliceQuota(cfg, lim) + 1
    ensures span >= cfg.Slice() ==> Quota(lim.iops, span, cfg.hz) >= SliceQuota(cfg, lim)
  {
    hide Config.Slice, Quota;
    var iops, s := lim.iops, cfg.Slice();
    ProductFits(iops, span + s);
    ProductFits(iops, span);
    ProductFits(iops, s);
    PlainQuota(iops, span + s, cfg.hz);
    PlainQuota(iops, span, cfg.hz);
    PlainQuota(iops, s, cfg.hz);
    MulPlus(iops, span, s);
    SumDiv(iops * span, iops * s, cfg.hz, SliceQuota(cfg, lim));
    if span >= s {
      MulMono(iops, s, span);
      DivMono(iops * s, iops * span, cfg.hz);
    }
  }

  /** After a charge that passed the check, the trim leaves no more than before or than one
      slice allows. */
  lemma TrimmedMost(cfg: Config, lim: Limits, m: Meter, now: nat)
    requires cfg.Valid() && lim.Valid() && m.start <= now <= m.end && now - m.start + cfg.Slice() <= U32
    requires m.ios <= Quota(lim.iops, ElapsedSlices(cfg, m, now), cfg.hz) && m.ios <= MostIos(cfg, lim) + 1
    ensures Trim(cfg, lim, m, now).ios <= MostIos(cfg, lim)
  {
    hide RoundUp, Quota, ElapsedSlices, Slices, SliceQuota;
    var nr := (now - m.start) / cfg.Slice();
    ElapsedWhole(cfg, m, now);
    QuotaSteps(cfg, lim, Slices(cfg, nr));
    if nr == 0 {
      NoSlices(cfg);
    } else {
      SomeSlices(cfg, nr);
    }
  }

  lemma SomeSlices(cfg: Config, nr: nat)
    requires nr > 0
    ensures Slices(cfg, nr) >= cfg.Slice()
  {
    MulMono(cfg.Slice(), 1, nr);
  }

  /** The slice that a check looks at is less than 2^32 jiffies old. */
  predicate Young(cfg: Config, m: Meter, now: nat)
    requires cfg.Valid()
  {
    now - Renew(cfg, m, now).start + cfg.Slice() <= U32
  }

  /** So are the slices of all checks of a run, which may last any time. */
  predicate AllYoung(cfg: Config, lim: Limits, t0: nat, es: seq<Event>)
    requires cfg.Valid() && lim.Valid()
  {
    es != [] ==>
      var last := |es| - 1;
      AllYoung(cfg, lim, t0, es[..last]) && Young(cfg, Run(cfg, lim, t0, es[..last]).m, es[last].now)
  }

  lemma MostStep(cfg: Config, lim: Limits, f: Flow, e: Event, t0: nat)
    requires cfg.Valid() && lim.Valid() && !lim.Unlimited() && CountInv(cfg, lim, f, t0) && f.m.ios <= MostIos(cfg, lim)
    requires f.last <= e.now && Young(cfg, f.m, e.now)
    ensures Step(cfg, lim, f, e).m.ios <= MostIos(cfg, lim)
  {
    hide RoundUp, Quota, ElapsedSlices, WithinBps, Trim, Renew, Config.Slice, Extend, Budget, Below, MostIos;
    var now := e.now;
    var m1 := Renew(cfg, f.m, now);
    RenewStarts(cfg, f.m, now);
    RenewFields(cfg, f.m, now);
    BudgetStart(lim.iops, cfg.hz, f.ios, f.m.ios, f.m, t0);
    var (m, v) := MayDispatch(cfg, lim, f.m, now, e.size);
    if !v.ok {
      ExtendFields(cfg, m1, now + v.wait);
    } else if e.take {
      var m2 := Charge(m1, e.size);
      assert m2.ios == m1.ios + 1;
      SameElapsed(cfg, m1, m2, now);
      TrimmedMost(cfg, lim, m2, now);
    }
  }

  lemma {:induction false} MostRun(cfg: Config, lim: Limits, t0: nat, es: seq<Event>)
    requires cfg.Valid() && lim.Valid() && !lim.Unlimited() && Ordered(t0, es)
    requires AllYoung(cfg, lim, t0, es)
    ensures Run(cfg, lim, t0, es).m.ios <= MostIos(cfg, lim)
  {
    hide Step, CountInv, MostIos, Config.Slice, Young;
    if es != [] {
      var last := |es| - 1;
      MostRun(cfg, lim, t0, es[..last]);
      CountRun(cfg, lim, t0, es[..last]);
      RunLast(cfg, lim, t0, es[..last]);
      MostStep(cfg, lim, Run(cfg, lim, t0, es[..last]), es[last], t0);
    }
  }

  /** After the events `es`, none of them in a slice as old as 2^32 jiffies, a bio is refused by
      the I/O limit. */
  ghost predicate RefusedInRun(cfg: Config, lim: Limits, t0: nat, es: seq<Event>, now: nat, size: nat)
    requires cfg.Valid() && lim.Valid()
  {
    && Ordered(t0, es) && (forall i :: 0 <= i < |es| ==> es[i].now <= now) && t0 <= now
    && AllYoung(cfg, lim, t0, es) && Young(cfg, Run(cfg, lim, t0, es).m, now)
    && IopsRefuses(cfg, lim, Run(cfg, lim, t0, es).m, now, size)
  }

  /** In every run the wait of such a refusal is long enough. */
  ghost predicate WaitsSuffice(cfg: Config, lim: Limits)
    requires cfg.Valid() && lim.Valid()
  {
    forall t0: nat, es: seq<Event>, now: nat, size: nat ::
      RefusedInRun(cfg, lim, t0, es, now, size) ==> IopsPassesLater(cfg, lim, Run(cfg, lim, t0, es).m, now, size)
  }

  /** A refused I/O check takes the fallback of one jiffy: what it computed is past. */
  predicate FallsBack(cfg: Config, lim: Limits, m: Meter, now: nat)
    requires cfg.Valid() && lim.Valid()
  {
    var m1 := Renew(cfg, m, now);
    JiffyWait(lim.iops, (m1.ios + 1) % U32, cfg.hz) <= now - m1.start
  }

  /** In no run does it. */
  ghost predicate NeverFallsBack(cfg: Config, lim: Limits)
    requires cfg.Valid() && lim.Valid()
  {
    forall t0: nat, es: seq<Event>, now: nat, size: nat ::
      RefusedInRun(cfg, lim, t0, es, now, size) ==> !FallsBack(cfg, lim, Run(cfg, lim, t0, es).m, now)
  }

  /** What a refusal in a run, below the limit, is made of. */
  lemma RefusalFacts(cfg: Config, lim: Limits, t0: nat, es: seq<Event>, now: nat, size: nat)
    requires cfg.Valid() && cfg.hz <= 10000 && lim.Valid() && !lim.Unlimited()
    requires (SliceQuota(cfg, lim) + 1) * cfg.hz < U32 && RefusedInRun(cfg, lim, t0, es, now, size)
    ensures var m := Run(cfg, lim, t0, es).m; var m1 := Renew(cfg, m, now);
            && m.ios <= lim.iops / 10 + 1 && m1.ios <= m.ios && m1.start <= now
            && (m1.ios + 1) * cfg.hz < U32 && lim.iops * ElapsedSlices(cfg, m1, now) < U64
  {
    hide Run, IopsRefuses, Renew, ElapsedSlices, CountInv, SliceQuota, Config.Slice;
    var m := Run(cfg, lim, t0, es).m;
    MostRun(cfg, lim, t0, es);
    CountSmall(cfg, lim, t0, es);
    var m1 := Renew(cfg, m, now);
    RenewStarts(cfg, m, now);
    RenewFields(cfg, m, now);
    ElapsedBounds(cfg, m1, now);
    ProductFits(lim.iops, ElapsedSlices(cfg, m1, now));
    if SliceQuota(cfg, lim) == 0 {
      MulMono(cfg.hz, m1.ios + 1, 2);
    } else {
      MulMono(cfg.hz, m1.ios + 1, SliceQuota(cfg, lim) + 1);
    }
  }

  lemma WaitSuffices(cfg: Config, lim: Limits, t0: nat, es: seq<Event>, now: nat, size: nat)
    requires cfg.Valid() && cfg.hz <= 10000 && lim.Valid() && !lim.Unlimited()
    requires (SliceQuota(cfg, lim) + 1) * cfg.hz < U32 && RefusedInRun(cfg, lim, t0, es, now, size)
    ensures IopsPassesLater(cfg, lim, Run(cfg, lim, t0, es).m, now, size)
  {
    hide Run, IopsRefuses, IopsPassesLater, StaysLive, Renew, ElapsedSlices, SliceQuota, Config.Slice;
    RefusalFacts(cfg, lim, t0, es, now, size);
    IopsWaitIff(cfg, lim, Run(cfg, lim, t0, es).m, now, size);
  }

  lemma NoFallback(cfg: Config, lim: Limits, t0: nat, es: seq<Event>, now: nat, size: nat)
    requires cfg.Valid() && cfg.hz <= 10000 && lim.Valid() && !lim.Unlimited()
    requires (SliceQuota(cfg, lim) + 1) * cfg.hz < U32 && RefusedInRun(cfg, lim, t0, es, now, size)
    ensures !FallsBack(cfg, lim, Run(cfg, lim, t0, es).m, now)
  {
    hide Run, WithinIops, WithinBps, Renew, ElapsedSlices, SliceQuota, Config.Slice, JiffyWait, Covers, WaitTime;
    RefusalFacts(cfg, lim, t0, es, now, size);
    var m1 := Renew(cfg, Run(cfg, lim, t0, es).m, now);
    IopsExact(cfg, lim, m1, now);
    ElapsedBounds(cfg, m1, now);
    PlainAhead(lim.iops, m1.ios + 1, cfg.hz, now - m1.start, ElapsedSlices(cfg, m1, now));
    NoCarry(lim.iops, m1.ios + 1, cfg.hz);
    assert (m1.ios + 1) % U32 == m1.ios + 1;
  }

  /** n empty bios, such as flushes, at time 0 */
  function Flood(n: nat): seq<Event> {
    if n == 0 then [] else Flood(n - 1) + [Offer(0, 0, true)]
  }

  lemma {:induction false} FloodRun(cfg: Config, lim: Limits, n: nat)
    requires cfg.Valid() && cfg.hz <= 10000 && lim.Valid() && !lim.Unlimited() && n <= SliceQuota(cfg, lim)
    ensures Ordered(0, Flood(n)) && (forall i :: 0 <= i < |Flood(n)| ==> Flood(n)[i].now == 0)
    ensures Run(cfg, lim, 0, Flood(n)).m == Meter(0, cfg.Slice(), 0, n) && AllYoung(cfg, lim, 0, Flood(n))
  {
    hide Step, SliceQuota, Config.Slice, Ordered, Young, Run, AllYoung, Flood;
    FloodOrdered(n);
    FloodIs(n);
    RunNone(cfg, lim, 0);
    if n > 0 {
      FloodRun(cfg, lim, n - 1);
      RunOne(cfg, lim, 0, Flood(n - 1), Offer(0, 0, true));
      FloodYoung(cfg, n - 1, 0);
      FloodStep(cfg, lim, Run(cfg, lim, 0, Flood(n - 1)), n - 1);
    }
  }

  lemma FloodIs(n: nat)
    ensures Flood(n) == if n == 0 then [] else Flood(n - 1) + [Offer(0, 0, true)]
  {
  }

  lemma RunNone(cfg: Config, lim: Limits, t0: nat)
    requires cfg.Valid() && lim.Valid()
    ensures Run(cfg, lim, t0, []).m == Meter(t0, t0 + cfg.Slice(), 0, 0) && AllYoung(cfg, lim, t0, [])
  {
  }

  lemma RunOne(cfg: Config, lim: Limits, t0: nat, es: seq<Event>, e: Event)
    requires cfg.Valid() && lim.Valid()
    ensures Run(cfg, lim, t0, es + [e]) == Step(cfg, lim, Run(cfg, lim, t0, es), e)
    ensures AllYoung(cfg, lim, t0, es + [e]) <==> AllYoung(cfg, lim, t0, es) && Young(cfg, Run(cfg, lim, t0, es).m, e.now)
  {
    hide Step, Young;
    assert (es + [e])[..|es|] == es;
  }

  /** Until its end the first slice is the one looked at. */
  lemma FloodYoung(cfg: Config, n: nat, now: nat)
    requires cfg.Valid() && cfg.hz < U32 / 2 && now <= cfg.Slice()
    ensures var m := Meter(0, cfg.Slice(), 0, n); Young(cfg, m, now) && Renew(cfg, m, now).start == 0 && Renew(cfg, m, now).ios == n && Renew(cfg, m, now).bytes == 0
  {
    hide RoundUp;
  }

  lemma {:induction false} FloodOrdered(n: nat)
    ensures |Flood(n)| == n && Ordered(0, Flood(n)) && forall i :: 0 <= i < n ==> Flood(n)[i] == Offer(0, 0, true)
  {
    if n > 0 {
      FloodOrdered(n - 1);
    }
  }

  lemma FloodStep(cfg: Config, lim: Limits, f: Flow, n: nat)
    requires cfg.Valid() && lim.Valid() && !lim.Unlimited() && n < SliceQuota(cfg, lim)
    requires f.m == Meter(0, cfg.Slice(), 0, n)
    ensures Step(cfg, lim, f, Offer(0, 0, true)).m == Meter(0, cfg.Slice(), 0, n + 1)
  {
    hide Quota, SliceQuota, RoundUp;
    FloodChecks(cfg, lim, n);
    RoundUpBounds(cfg.Slice(), cfg.Slice());
    assert Renew(cfg, f.m, 0) == f.m;
    assert (n + 1) % U32 == n + 1 by { FloodSmall(cfg, lim); }
  }

  lemma FloodSmall(cfg: Config, lim: Limits)
    requires cfg.Valid() && lim.Valid()
    ensures SliceQuota(cfg, lim) <= lim.iops / 10
  {
    TenthSlice(cfg, lim.iops);
  }

  /** At time 0 of the first slice an empty bio passes exactly while one slice allows it. */
  lemma FloodChecks(cfg: Config, lim: Limits, n: nat)
    requires cfg.Valid() && lim.Valid() && n <= SliceQuota(cfg, lim)
    ensures var m := Meter(0, cfg.Slice(), 0, n);
            && WithinBps(cfg, lim, m, 0, 0).ok && ElapsedSlices(cfg, m, 0) == cfg.Slice()
            && (WithinIops(cfg, lim, m, 0).ok <==> n < SliceQuota(cfg, lim))
  {
    hide RoundUp, Quota, SliceQuota;
    var m := Meter(0, cfg.Slice(), 0, n);
    RoundUpBounds(cfg.Slice(), cfg.Slice());
    TenthSlice(cfg, lim.iops);
    PlainQuota(lim.iops, cfg.Slice(), cfg.hz);
    FloodSmall(cfg, lim);
    SliceQuotaIs(cfg, lim);
  }

  lemma SliceQuotaIs(cfg: Config, lim: Limits)
    requires cfg.Valid()
    ensures SliceQuota(cfg, lim) == lim.iops * cfg.Slice() / cfg.hz
  {
  }

  /** The refusal after a full slice of empty bios: its wait is too short if the 32-bit product
      wraps. */
  lemma FloodRefused(cfg: Config, lim: Limits)
    requires cfg.Valid() && cfg.hz <= 10000 && lim.Valid() && !lim.Unlimited()
    requires (SliceQuota(cfg, lim) + 1) * cfg.hz >= U32
    ensures var es := Flood(SliceQuota(cfg, lim));
            RefusedInRun(cfg, lim, 0, es, 0, 0) && !IopsPassesLater(cfg, lim, Run(cfg, lim, 0, es).m, 0, 0)
  {
    hide Run, Flood, IopsPassesLater, StaysLive, ElapsedSlices, SliceQuota, WithinIops, WithinBps, RoundUp;
    var n := SliceQuota(cfg, lim);
    FloodRun(cfg, lim, n);
    FloodChecks(cfg, lim, n);
    FloodSmall(cfg, lim);
    SliceBound(cfg);
    var m := Meter(0, cfg.Slice(), 0, n);
    assert Renew(cfg, m, 0) == m;
    FloodYoung(cfg, n, 0);
    ProductFits(lim.iops, cfg.Slice());
    IopsWaitIff(cfg, lim, m, 0, 0);
  }

  /** Asked again at the end of the first slice, the wrapped wait is past. */
  lemma FloodFallsBack(cfg: Config, lim: Limits)
    requires cfg.Valid() && cfg.hz <= 10000 && lim.Valid() && !lim.Unlimited()
    requires (SliceQuota(cfg, lim) + 1) * cfg.hz >= U32
    ensures var es := Flood(SliceQuota(cfg, lim));
            RefusedInRun(cfg, lim, 0, es, cfg.Slice(), 0) && FallsBack(cfg, lim, Run(cfg, lim, 0, es).m, cfg.Slice())
  {
    hide Run, Flood, ElapsedSlices, SliceQuota, WithinIops, WithinBps, RoundUp, Config.Slice, Renew, Young, JiffyWait, Covers, WaitTime;
    var n, s := SliceQuota(cfg, lim), cfg.Slice();
    FloodRun(cfg, lim, n);
    FloodSmall(cfg, lim);
    SliceBound(cfg);
    FloodYoung(cfg, n, s);
    var m1 := Renew(cfg, Meter(0, s, 0, n), s);
    SpanAt(cfg, m1, s, 1);
    EmptyPasses(cfg, lim, m1, s);
    SpanAt(cfg, Meter(0, s, 0, n), 0, 0);
    FloodChecks(cfg, lim, n);
    IopsExact(cfg, lim, Meter(0, s, 0, n), 0);
    IopsExact(cfg, lim, m1, s);
    LargeLimit(cfg, lim, n + 1);
    ProductFits(lim.iops, s);
    WrappedFirst(lim.iops, n + 1, cfg.hz, s, s);
    NoCarry(lim.iops, n + 1, cfg.hz);
    assert (n + 1) % U32 == n + 1;
  }

  lemma EmptyPasses(cfg: Config, lim: Limits, m: Meter, now: nat)
    requires cfg.Valid() && lim.Valid() && m.start <= now && m.bytes == 0
    ensures WithinBps(cfg, lim, m, now, 0).ok
  {
    hide WithinBps, BytesAllowed;
    BpsOk(cfg, lim, m, now, 0);
  }

  /** Over all runs without slices as old as 2^32 jiffies the wait of a refusal by the I/O limit
      is long enough if and only if one I/O more than a slice allows, times HZ, fits 32 bits. */
  lemma WaitsSufficeIff(cfg: Config, lim: Limits)
    requires cfg.Valid() && cfg.hz <= 10000 && lim.Valid() && !lim.Unlimited()
    ensures WaitsSuffice(cfg, lim) <==> (SliceQuota(cfg, lim) + 1) * cfg.hz < U32
  {
    hide RefusedInRun, IopsPassesLater, Run, SliceQuota;
    if (SliceQuota(cfg, lim) + 1) * cfg.hz < U32 {
      forall t0: nat, es: seq<Event>, now: nat, size: nat | RefusedInRun(cfg, lim, t0, es, now, size)
        ensures IopsPassesLater(cfg, lim, Run(cfg, lim, t0, es).m, now, size)
      {
        WaitSuffices(cfg, lim, t0, es, now, size);
      }
    } else {
      FloodRefused(cfg, lim);
    }
  }

  /** Under the same condition, and no other, the fallback of one jiffy is never taken. */
  lemma NeverFallsBackIff(cfg: Config, lim: Limits)
    requires cfg.Valid() && cfg.hz <= 10000 && lim.Valid() && !lim.Unlimited()
    ensures NeverFallsBack(cfg, lim) <==> (SliceQuota(cfg, lim) + 1) * cfg.hz < U32
  {
    hide RefusedInRun, FallsBack, Run, SliceQuota;
    if (SliceQuota(cfg, lim) + 1) * cfg.hz < U32 {
      forall t0: nat, es: seq<Event>, now: nat, size: nat | RefusedInRun(cfg, lim, t0, es, now, size)
        ensures !FallsBack(cfg, lim, Run(cfg, lim, t0, es).m, now)
      {
        NoFallback(cfg, lim, t0, es, now, size);
      }
    } else {
      FloodFallsBack(cfg, lim);
    }
  }

  /** With HZ 1000 that is so up to 42949669 I/Os a second and no further: at 42949670, after
      4294967 empty bios in one jiffy, the next is told to wait 1 jiffy and not 101. */
  lemma IopsWaitWraps(n: nat)
    requires n == 4294967
    ensures var cfg, lim := Config(1000), Limits(1, 42949670);
            && WaitsSuffice(cfg, Limits(1, 42949669)) && !WaitsSuffice(cfg, lim)
            && MayDispatch(cfg, lim, Run(cfg, lim, 0, Flood(n)).m, 0, 0).1 == Verdict(false, 1)
  {
    hide Run, Flood, WaitsSuffice, MayDispatch;
    var cfg, lim := Config(1000), Limits(1, 42949670);
    WaitsSufficeIff(cfg, Limits(1, 42949669));
    WaitsSufficeIff(cfg, lim);
    FloodRun(cfg, lim, n);
    WrappedWait();
  }

  lemma WrappedWait()
    ensures MayDispatch(Config(1000), Limits(1, 42949670), Meter(0, 100, 0, 4294967), 0, 0).1 == Verdict(false, 1)
  {
    hide WithinBps, BytesAllowed, IoAllowed, JiffyWait;
    var cfg, lim, m := Config(1000), Limits(1, 42949670), Meter(0, 100, 0, 4294967);
    BpsOk(cfg, lim, m, 0, 0);
    WrappedNumbers();
    assert Renew(cfg, m, 0) == m;
  }

  lemma WrappedNumbers()
    ensures JiffyWait(42949670, 4294968, 1000) == 1
    ensures IoAllowed(Config(1000), Limits(1, 42949670), Meter(0, 100, 0, 4294967), 0) == 4294967
  {
  }

  // ------------------------------------------------------------------- byte limit

  /** The check `now` refuses because of the byte limit. */
  predicate BpsRefuses(cfg: Config, lim: Limits, m: Meter, now: nat, size: nat)
    requires cfg.Valid() && lim.Valid()
  {
    !lim.Unlimited() && !WithinBps(cfg, lim, Renew(cfg, m, now), now, size).ok
  }

  /** After the returned wait the byte check passes. */
  predicate BpsPassesLater(cfg: Config, lim: Limits, m: Meter, now: nat, size: nat)
    requires cfg.Valid() && lim.Valid()
  {
    var (m2, v) := MayDispatch(cfg, lim, m, now, size);
    WithinBps(cfg, lim, Renew(cfg, m2, now + v.wait), now + v.wait, size).ok
  }

  /** No product of either check wraps. */
  predicate BytesFit(cfg: Config, lim: Limits, m: Meter, now: nat, size: nat)
    requires cfg.Valid() && m.start <= now
  {
    (m.bytes + size) * cfg.hz + lim.bps * (ElapsedSlices(cfg, m, now) + cfg.Slice() + 1) < U64
  }

  /** A quota without wrapping, and what its division cuts off. */
  function Exact(limit: nat, span: nat, hz: nat): nat
    requires hz > 0
  {
    limit * span / hz
  }

  function Rest(limit: nat, span: nat, hz: nat): nat
    requires hz > 0
  {
    limit * span % hz
  }

  /** extra_bytes, without wrapping */
  function Extra(cfg: Config, lim: Limits, m: Meter, now: nat, size: nat): nat
    requires cfg.Valid() && m.start <= now
  {
    Minus(m.bytes + size, Exact(lim.bps, ElapsedSlices(cfg, m, now), cfg.hz))
  }

  /** What a caller can look at to tell whether the wait will be long enough.  Where no product
      wraps, it is unless it comes to whole slices and its division cut off more than that of
      the quota did; otherwise the product cut to 64 bits decides. */
  predicate BpsWaitEnough(cfg: Config, lim: Limits, m: Meter, now: nat, size: nat)
    requires cfg.Valid() && lim.Valid() && m.start <= now
  {
    if BytesFit(cfg, lim, m, now, size) then
      var more := Extra(cfg, lim, m, now, size);
      var wait := Exact(more, cfg.hz, lim.bps);
      wait == 0 || wait % cfg.Slice() != 0 || Rest(more, cfg.hz, lim.bps) <= Rest(lim.bps, ElapsedSlices(cfg, m, now), cfg.hz)
    else Covers(lim.bps, WrappedSpan(cfg, lim, m, now, size), (m.bytes + size) % U64, cfg.hz)
  }

  /** The slices counted after the wait, whatever wraps. */
  function WrappedSpan(cfg: Config, lim: Limits, m: Meter, now: nat, size: nat): nat
    requires cfg.Valid() && lim.Valid() && m.start <= now
  {
    var wait := Quota(Minus((m.bytes + size) % U64, BytesAllowed(cfg, lim, m, now)), cfg.hz, lim.bps);
    RoundUp(ElapsedSlices(cfg, m, now) + (if wait == 0 then 1 else wait), cfg.Slice())
  }

  /** The second byte check, whatever wraps. */
  lemma BpsAny(cfg: Config, lim: Limits, m: Meter, now: nat, size: nat)
    requires cfg.Valid() && lim.Valid() && m.start <= now && !WithinBps(cfg, lim, m, now, size).ok
    ensures WithinBps(cfg, lim, m, now + WithinBps(cfg, lim, m, now, size).wait, size).ok
            <==> Covers(lim.bps, WrappedSpan(cfg, lim, m, now, size), (m.bytes + size) % U64, cfg.hz)
  {
    hide WithinBps, BytesAllowed, Quota, RoundUp, Config.Slice, Covers;
    ElapsedBounds(cfg, m, now);
    RefusedWait(cfg, lim, m, now, size);
    var later := now + WithinBps(cfg, lim, m, now, size).wait;
    assert ElapsedSlices(cfg, m, later) == WrappedSpan(cfg, lim, m, now, size);
    BpsOk(cfg, lim, m, later, size);
    AllowedIs(cfg, lim, m, later);
    QuotaCovers(lim.bps, ElapsedSlices(cfg, m, later), cfg.hz, (m.bytes + size) % U64);
  }

  lemma AllowedIs(cfg: Config, lim: Limits, m: Meter, now: nat)
    requires cfg.Valid() && m.start <= now
    ensures BytesAllowed(cfg, lim, m, now) == Quota(lim.bps, ElapsedSlices(cfg, m, now), cfg.hz)
  {
  }

  lemma RefusedWait(cfg: Config, lim: Limits, m: Meter, now: nat, size: nat)
    requires cfg.Valid() && lim.Valid() && m.start <= now && !WithinBps(cfg, lim, m, now, size).ok
    ensures var wait := Quota(Minus((m.bytes + size) % U64, BytesAllowed(cfg, lim, m, now)), cfg.hz, lim.bps);
            now + WithinBps(cfg, lim, m, now, size).wait == m.start + ElapsedSlices(cfg, m, now) + (if wait == 0 then 1 else wait)
  {
    hide BytesAllowed, Quota, ElapsedSlices;
    ElapsedLong(cfg, m, now);
  }

  lemma ElapsedLong(cfg: Config, m: Meter, now: nat)
    requires cfg.Valid() && m.start <= now
    ensures now - m.start <= ElapsedSlices(cfg, m, now)
  {
    ElapsedBounds(cfg, m, now);
  }

  lemma BpsExact(cfg: Config, lim: Limits, m: Meter, now: nat, size: nat)
    requires cfg.Valid() && lim.Valid() && m.start <= now
    requires (m.bytes + size) * cfg.hz < U64 && lim.bps * ElapsedSlices(cfg, m, now) < U64
    ensures WithinBps(cfg, lim, m, now, size).ok <==> (m.bytes + size) * cfg.hz <= lim.bps * ElapsedSlices(cfg, m, now)
  {
    hide ElapsedSlices, Quota;
    MulMono(m.bytes + size, 1, cfg.hz);
    SmallMod(m.bytes + size);
    SmallMod(lim.bps * ElapsedSlices(cfg, m, now));
    QuotaCovers(lim.bps, ElapsedSlices(cfg, m, now), cfg.hz, m.bytes + size);
  }

  /** The jiffies by which a refused byte check is put off beyond the slices counted. */
  function PutOff(cfg: Config, lim: Limits, m: Meter, now: nat, size: nat): nat
    requires cfg.Valid() && lim.Valid() && m.start <= now
  {
    var wait := Exact(Extra(cfg, lim, m, now, size), cfg.hz, lim.bps);
    if wait == 0 then 1 else wait
  }

  lemma BpsLater(cfg: Config, lim: Limits, m: Meter, now: nat, size: nat)
    requires cfg.Valid() && lim.Valid() && m.start <= now && BytesFit(cfg, lim, m, now, size)
    requires !WithinBps(cfg, lim, m, now, size).ok
    ensures now + WithinBps(cfg, lim, m, now, size).wait
         == m.start + ElapsedSlices(cfg, m, now) + PutOff(cfg, lim, m, now, size)
    ensures m.bytes + size > Exact(lim.bps, ElapsedSlices(cfg, m, now), cfg.hz)
  {
    hide RoundUp, ElapsedSlices, Config.Slice, Quota;
    var span, want := ElapsedSlices(cfg, m, now), m.bytes + size;
    ElapsedBounds(cfg, m, now);
    MulMono(want, 1, cfg.hz);
    SmallMod(want);
    MulMono(lim.bps, span, span + cfg.Slice() + 1);
    PlainQuota(lim.bps, span, cfg.hz);
    MulMono(cfg.hz, Extra(cfg, lim, m, now, size), want);
    PlainQuota(Extra(cfg, lim, m, now, size), cfg.hz, lim.bps);
  }

  /** Counted slices are whole ones, so the later check is on a boundary exactly if the delay
      is whole slices. */
  lemma LaterSpan(cfg: Config, m: Meter, now: nat, x: nat)
    requires cfg.Valid() && m.start <= now && x > 0
    ensures var span, later := ElapsedSlices(cfg, m, now), m.start + ElapsedSlices(cfg, m, now) + x;
            if x % cfg.Slice() == 0 then ElapsedSlices(cfg, m, later) == span + x
            else span + x < ElapsedSlices(cfg, m, later) <= span + x + cfg.Slice()
  {
    hide RoundUp, Config.Slice;
    SliceBound(cfg);
    var s, span := cfg.Slice(), ElapsedSlices(cfg, m, now);
    var k := Whole(cfg, m, now);
    LaterRound(k, s, x);
    assert span + x > 0;
  }

  lemma LaterRound(k: nat, s: nat, x: nat)
    requires s > 0 && x > 0
    ensures if x % s == 0 then RoundUp(k * s + x, s) == k * s + x else k * s + x < RoundUp(k * s + x, s) <= k * s + x + s
  {
    hide RoundUp;
    var q, r := x / s, x % s;
    DivTimes(x, s);
    assert (k + q) * s == k * s + q * s;
    RoundUpTo(k * s + x, s, k + q, r);
  }

  lemma Whole(cfg: Config, m: Meter, now: nat) returns (k: nat)
    requires cfg.Valid() && m.start <= now
    ensures ElapsedSlices(cfg, m, now) == k * cfg.Slice()
  {
    hide RoundUp, Config.Slice;
    SliceBound(cfg);
    ElapsedWhole(cfg, m, now);
    var nr := (now - m.start) / cfg.Slice();
    SlicesIs(cfg, nr);
    Plus(nr, cfg.Slice());
    k := if ElapsedSlices(cfg, m, now) == Slices(cfg, nr) then nr else nr + 1;
  }

  lemma SlicesIs(cfg: Config, nr: nat)
    ensures Slices(cfg, nr) == nr * cfg.Slice()
  {
  }

  /** With quotients and remainders written out. */
  lemma Remainders(want: nat, allowed: nat, hz: nat, bps: nat, span: nat, cut: nat, w: nat, r: nat)
    requires allowed <= want && bps * span == allowed * hz + cut && (want - allowed) * hz == w * bps + r && cut < hz && r < bps
    ensures want * hz <= bps * (span + w) <==> r <= cut
    ensures want * hz <= bps * (span + w + 1)
    ensures bps * (span + w) <= want * hz + bps * span
  {
    assert want * hz == (want - allowed) * hz + allowed * hz;
    MulPlus(bps, span, w);
    MulPlus(bps, span + w, 1);
  }

  lemma BpsMeterIff(cfg: Config, lim: Limits, m: Meter, now: nat, size: nat)
    requires cfg.Valid() && lim.Valid() && m.start <= now && BytesFit(cfg, lim, m, now, size)
    requires !WithinBps(cfg, lim, m, now, size).ok
    ensures WithinBps(cfg, lim, m, now + WithinBps(cfg, lim, m, now, size).wait, size).ok
            <==> BpsWaitEnough(cfg, lim, m, now, size)
  {
    hide RoundUp, ElapsedSlices, WithinBps, Config.Slice, Exact, Rest, Covers, WrappedSpan;
    var later := now + WithinBps(cfg, lim, m, now, size).wait;
    var want, span, bps, x := m.bytes + size, ElapsedSlices(cfg, m, now), lim.bps, PutOff(cfg, lim, m, now, size);
    SliceBound(cfg);
    BpsLater(cfg, lim, m, now, size);
    LaterSpan(cfg, m, now, x);
    BpsArith(cfg, bps, want, span, Extra(cfg, lim, m, now, size), x, ElapsedSlices(cfg, m, later));
    BpsExact(cfg, lim, m, later, size);
  }

  /** The second byte check in exact arithmetic. */
  lemma BpsArith(cfg: Config, bps: nat, want: nat, span: nat, more: nat, x: nat, span': nat)
    requires cfg.Valid() && 0 < bps && Exact(bps, span, cfg.hz) < want && more == want - Exact(bps, span, cfg.hz)
    requires want * cfg.hz + bps * (span + cfg.Slice() + 1) < U64
    requires x == if Exact(more, cfg.hz, bps) == 0 then 1 else Exact(more, cfg.hz, bps)
    requires if x % cfg.Slice() == 0 then span' == span + x else span + x < span' <= span + x + cfg.Slice()
    ensures want * cfg.hz < U64 && bps * span' < U64
    ensures want * cfg.hz <= bps * span' <==>
            var wait := Exact(more, cfg.hz, bps);
            wait == 0 || wait % cfg.Slice() != 0 || Rest(more, cfg.hz, bps) <= Rest(bps, span, cfg.hz)
  {
    hide Config.Slice;
    SliceBound(cfg);
    var w := Exact(more, cfg.hz, bps);
    Split(bps, span, cfg.hz);
    Split(more, cfg.hz, bps);
    hide Exact, Rest;
    Remainders(want, want - more, cfg.hz, bps, span, Rest(bps, span, cfg.hz), w, Rest(more, cfg.hz, bps));
    LaterFits(cfg, bps, want, span, w, x, span');
    if x % cfg.Slice() != 0 {
      MulMono(bps, span + w + 1, span');
    }
  }

  lemma Split(limit: nat, span: nat, hz: nat)
    requires hz > 0
    ensures limit * span == Exact(limit, span, hz) * hz + Rest(limit, span, hz) && Rest(limit, span, hz) < hz
  {
  }

  lemma LaterFits(cfg: Config, bps: nat, want: nat, span: nat, w: nat, x: nat, span': nat)
    requires want * cfg.hz + bps * (span + cfg.Slice() + 1) < U64 && bps * (span + w) <= want * cfg.hz + bps * span
    requires x == (if w == 0 then 1 else w) && span' <= span + x + cfg.Slice()
    ensures want * cfg.hz < U64 && bps * span' < U64
  {
    hide Config.Slice;
    var s := cfg.Slice();
    MulMono(bps, span', span + w + (s + 1));
    MulPlus(bps, span + w, s + 1);
    MulPlus(bps, span, s + 1);
  }

  /** tg_may_dispatch refuses by the byte limit: the slice is still live after the wait, and the
      byte check passes then exactly as `BpsWaitEnough` says. */
  lemma BpsWaitIff(cfg: Config, lim: Limits, m: Meter, now: nat, size: nat)
    requires cfg.Valid() && lim.Valid() && BpsRefuses(cfg, lim, m, now, size)
    ensures StaysLive(cfg, lim, m, now, size)
    ensures Renew(cfg, m, now).start <= now
    ensures BpsPassesLater(cfg, lim, m, now, size) <==> BpsWaitEnough(cfg, lim, Renew(cfg, m, now), now, size)
  {
    hide ElapsedSlices, WithinIops, WithinBps, Config.Slice, Renew, BpsWaitEnough;
    RenewStarts(cfg, m, now);
    var m1 := Renew(cfg, m, now);
    var (m2, v) := MayDispatch(cfg, lim, m, now, size);
    var later := now + v.wait;
    assert m2 == Extend(cfg, m1, later);
    ExtendLive(cfg, m1, now, later);
    BpsEither(cfg, lim, m1, now, size);
    SameVerdicts(cfg, lim, m1, Renew(cfg, m2, later), later, size);
  }

  lemma BpsEither(cfg: Config, lim: Limits, m: Meter, now: nat, size: nat)
    requires cfg.Valid() && lim.Valid() && m.start <= now && !WithinBps(cfg, lim, m, now, size).ok
    ensures WithinBps(cfg, lim, m, now + WithinBps(cfg, lim, m, now, size).wait, size).ok
            <==> BpsWaitEnough(cfg, lim, m, now, size)
  {
    hide WithinBps, BytesFit, ElapsedSlices, Exact, Rest, WrappedSpan, Covers, Extra;
    if BytesFit(cfg, lim, m, now, size) {
      BpsMeterIff(cfg, lim, m, now, size);
    } else {
      BpsAny(cfg, lim, m, now, size);
    }
  }

  /** It does fall short: HZ 1000, 1023 bytes a second, a bio of one sector first of all is
      told to wait 500 jiffies and is refused again then. */
  lemma BpsWaitFallsShort()
    ensures var cfg, lim := Config(1000), Limits(1023, 100);
            var m := Run(cfg, lim, 0, []).m;
            MayDispatch(cfg, lim, m, 0, 512).1 == Verdict(false, 500) && !BpsPassesLater(cfg, lim, m, 0, 512)
  {
    hide WithinBps, WithinIops;
    var cfg, lim := Config(1000), Limits(1023, 100);
    var m := Meter(0, 100, 0, 0);
    assert Run(cfg, lim, 0, []).m == m && Renew(cfg, m, 0) == m;
    ShortNumbers();
    assert MayDispatch(cfg, lim, m, 0, 512) == (Meter(0, 500, 0, 0), Verdict(false, 500));
    assert Renew(cfg, Meter(0, 500, 0, 0), 500) == Meter(0, 600, 0, 0);
  }

  lemma ShortNumbers()
    ensures WithinBps(Config(1000), Limits(1023, 100), Meter(0, 100, 0, 0), 0, 512) == Verdict(false, 500)
    ensures !WithinBps(Config(1000), Limits(1023, 100), Meter(0, 600, 0, 0), 500, 512).ok
  {
    hide Quota, ElapsedSlices, WithinBps;
    Quotas();
    SpanAt(Config(1000), Meter(0, 100, 0, 0), 0, 0);
    SpanAt(Config(1000), Meter(0, 600, 0, 0), 500, 5);
    BpsVerdict(Config(1000), Limits(1023, 100), Meter(0, 100, 0, 0), 0, 512, 102, 400);
    BpsVerdict(Config(1000), Limits(1023, 100), Meter(0, 600, 0, 0), 500, 512, 511, Quota(1, 1000, 1023));
  }

  lemma BpsVerdict(cfg: Config, lim: Limits, m: Meter, now: nat, size: nat, allowed: nat, wait: nat)
    requires cfg.Valid() && lim.Valid() && m.start <= now && m.bytes + size < U64
    requires allowed == Quota(lim.bps, ElapsedSlices(cfg, m, now), cfg.hz) && allowed < m.bytes + size
    requires wait == Quota(m.bytes + size - allowed, cfg.hz, lim.bps)
    ensures WithinBps(cfg, lim, m, now, size)
            == Verdict(false, (if wait == 0 then 1 else wait) + (ElapsedSlices(cfg, m, now) - (now - m.start)))
  {
    hide Quota, ElapsedSlices;
    ElapsedBounds(cfg, m, now);
  }

  lemma Quotas()
    ensures Quota(1023, 100, 1000) == 102 && Quota(410, 1000, 1023) == 400 && Quota(1023, 500, 1000) == 511
  {
  }

  lemma SpanAt(cfg: Config, m: Meter, now: nat, k: nat)
    requires cfg.Valid() && now == m.start + k * cfg.Slice()
    ensures ElapsedSlices(cfg, m, now) == if k == 0 then cfg.Slice() else k * cfg.Slice()
  {
    hide RoundUp, Config.Slice;
    SliceBound(cfg);
    if k == 0 {
      RoundUpTo(cfg.Slice(), cfg.Slice(), 1, 0);
    } else {
      MulMono(cfg.Slice(), 1, k);
      RoundUpTo(k * cfg.Slice(), cfg.Slice(), k, 0);
    }
  }
}
