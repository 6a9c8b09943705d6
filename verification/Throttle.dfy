/** Slices and limits of block/blk-throttle.c for one group and one direction: what
    tg_may_dispatch decides, how slices start, stretch and are trimmed, and the rate that
    gets through over a whole run.

    Jiffies are natural numbers that never wrap; every other quantity wraps as in the
    source: u64 byte counts, u32 I/O counts, 64-bit unsigned long. */
module Throttle {

  const U32: nat := 0x1_0000_0000
  const U64: nat := 0x1_0000_0000_0000_0000
  const UINT_MAX: nat := U32 - 1

  /** HZ of the kernel build. */
  datatype Config = Config(hz: nat) {
    /** throtl_slice */
    function Slice(): nat { hz / 10 }

    predicate Valid() { 10 <= hz < U32 }
  }

  /** bps[rw] and iops[rw]; all bits set means unlimited and zero is never stored. */
  datatype Limits = Limits(bps: nat, iops: nat) {
    predicate Valid() { 0 < bps < U64 && 0 < iops < U32 }

    predicate Unlimited() { bps == U64 - 1 && iops == UINT_MAX }
  }

  /** slice_start, slice_end, bytes_disp and io_disp of one direction. */
  datatype Meter = Meter(start: nat, end: nat, bytes: nat, ios: nat)

  datatype Verdict = Verdict(ok: bool, wait: nat)

  function RoundUp(x: nat, y: nat): nat
    requires y > 0
  {
    (x + (y - 1)) / y * y
  }

  /** throtl_start_new_slice */
  function NewSlice(cfg: Config, now: nat): Meter {
    Meter(now, now + cfg.Slice(), 0, 0)
  }

  /** throtl_slice_used */
  predicate Used(m: Meter, now: nat) {
    !(m.start <= now <= m.end)
  }

  /** jiffy_elapsed_rnd: the elapsed time in whole slices, at least one. */
  function ElapsedSlices(cfg: Config, m: Meter, now: nat): nat
    requires cfg.Valid() && m.start <= now
  {
    var elapsed := now - m.start;
    RoundUp(if elapsed == 0 then cfg.Slice() else elapsed, cfg.Slice())
  }

  /** limit * span / hz with the product cut to 64 bits, as do_div and div64_u64 see it: what
      a limit per second allows in `span` jiffies. */
  function Quota(limit: nat, span: nat, hz: nat): nat
    requires hz > 0
  {
    limit * span % U64 / hz
  }

  /** io_allowed */
  function IoAllowed(cfg: Config, lim: Limits, m: Meter, now: nat): nat
    requires cfg.Valid() && m.start <= now
  {
    var tmp := Quota(lim.iops, ElapsedSlices(cfg, m, now), cfg.hz);
    if tmp > UINT_MAX then UINT_MAX else tmp
  }

  /** bytes_allowed */
  function BytesAllowed(cfg: Config, lim: Limits, m: Meter, now: nat): nat
    requires cfg.Valid() && m.start <= now
  {
    Quota(lim.bps, ElapsedSlices(cfg, m, now), cfg.hz)
  }

  /** jiffy_wait of the I/O check, all in 32 bits. */
  function JiffyWait(iops: nat, c: nat, hz: nat): nat
    requires iops > 0
  {
    (c * hz % U32 / iops + 1) % U32
  }

  /** tg_with_in_iops_limit */
  function WithinIops(cfg: Config, lim: Limits, m: Meter, now: nat): Verdict
    requires cfg.Valid() && lim.Valid() && m.start <= now
  {
    var elapsed := now - m.start;
    if (m.ios + 1) % U32 <= IoAllowed(cfg, lim, m, now) then Verdict(true, 0)
    else
      var wait := JiffyWait(lim.iops, (m.ios + 1) % U32, cfg.hz);
      Verdict(false, if wait > elapsed then wait - elapsed else 1)
  }

  /** tg_with_in_bps_limit */
  function WithinBps(cfg: Config, lim: Limits, m: Meter, now: nat, size: nat): Verdict
    requires cfg.Valid() && lim.Valid() && m.start <= now
  {
    var elapsed := now - m.start;
    var allowed := BytesAllowed(cfg, lim, m, now);
    var want := (m.bytes + size) % U64;
    if want <= allowed then Verdict(true, 0)
    else
      var wait := Quota(want - allowed, cfg.hz, lim.bps);
      Verdict(false, (if wait == 0 then 1 else wait) + (ElapsedSlices(cfg, m, now) - elapsed))
  }

  /** throtl_extend_slice, when the slice ends before `until`. */
  function Extend(cfg: Config, m: Meter, until: nat): Meter
    requires cfg.Valid()
  {
    if m.end < until then m.(end := RoundUp(until, cfg.Slice())) else m
  }

  /** The slice a check looks at: a new one if the last is used up, else the last one,
      reaching at least one slice beyond now. */
  function Renew(cfg: Config, m: Meter, now: nat): Meter
    requires cfg.Valid()
  {
    if Used(m, now) then NewSlice(cfg, now) else Extend(cfg, m, now + cfg.Slice())
  }

  /** tg_may_dispatch */
  function MayDispatch(cfg: Config, lim: Limits, m: Meter, now: nat, size: nat): (r: (Meter, Verdict))
    requires cfg.Valid() && lim.Valid()
  {
    if lim.Unlimited() then (m, Verdict(true, 0))
    else
      var m1 := Renew(cfg, m, now);
      var b := WithinBps(cfg, lim, m1, now, size);
      var i := if b.ok then WithinIops(cfg, lim, m1, now) else Verdict(false, 0);
      if b.ok && i.ok then (m1, Verdict(true, 0))
      else
        var wait := if b.wait > i.wait then b.wait else i.wait;
        (Extend(cfg, m1, now + wait), Verdict(false, wait))
  }

  /** throtl_charge_bio */
  function Charge(m: Meter, size: nat): Meter {
    m.(bytes := (m.bytes + size) % U64, ios := (m.ios + 1) % U32)
  }

  function Minus(x: nat, y: nat): nat {
    if x >= y then x - y else 0
  }

  /** The length of `nr` slices. */
  function Slices(cfg: Config, nr: nat): nat {
    cfg.Slice() * nr
  }

  /** throtl_trim_slice */
  function Trim(cfg: Config, lim: Limits, m: Meter, now: nat): Meter
    requires cfg.Valid()
  {
    if Used(m, now) then m
    else
      var m1 := m.(end := RoundUp(now + cfg.Slice(), cfg.Slice()));
      var nr := (now - m.start) / cfg.Slice();
      var span := Slices(cfg, nr);
      var bytesTrim := Quota(lim.bps, span, cfg.hz);
      var ioTrim := Quota(lim.iops, span, cfg.hz);
      if nr == 0 || (bytesTrim == 0 && ioTrim == 0) then m1
      else m1.(bytes := Minus(m.bytes, bytesTrim), ios := Minus(m.ios, ioTrim),
               start := m.start + span)
  }

  // -------------------------------------------------------------------------- runs

  /** A bio of `size` bytes is put to tg_may_dispatch at time `now`; with `take` it is
      dispatched if allowed (charged and the slice trimmed), without it the call only
      asks, as tg_update_disptime does. */
  datatype Event = Offer(now: nat, size: nat, take: bool)

  /** The meter together with what has been let through. */
  datatype Flow = Flow(m: Meter, bytes: nat, ios: nat, last: nat)

  function Step(cfg: Config, lim: Limits, f: Flow, e: Event): Flow
    requires cfg.Valid() && lim.Valid()
  {
    var (m, v) := MayDispatch(cfg, lim, f.m, e.now, e.size);
    if v.ok && e.take then
      Flow(Trim(cfg, lim, Charge(m, e.size), e.now), f.bytes + e.size, f.ios + 1, e.now)
    else Flow(m, f.bytes, f.ios, e.now)
  }

  /** The flow after the events `es` of a group whose first slice started at t0. */
  function Run(cfg: Config, lim: Limits, t0: nat, es: seq<Event>): Flow
    requires cfg.Valid() && lim.Valid()
  {
    if es == [] then Flow(NewSlice(cfg, t0), 0, 0, t0)
    else Step(cfg, lim, Run(cfg, lim, t0, es[..|es|-1]), es[|es|-1])
  }

  /** Time does not run backwards and sizes fit bi_size. */
  predicate Ordered(t0: nat, es: seq<Event>) {
    && (forall i :: 0 <= i < |es| ==> t0 <= es[i].now && es[i].size < U32)
    && (forall i, j :: 0 <= i < j < |es| ==> es[i].now <= es[j].now)
  }

  // ------------------------------------------------------------------- arithmetic

  lemma MulMono(a: nat, x: nat, y: nat)
    requires x <= y
    ensures a * x <= a * y
  {
  }

  lemma MulPlus(a: nat, x: nat, y: nat)
    ensures a * (x + y) == a * x + a * y
  {
  }

  lemma DivTimes(x: nat, d: nat)
    requires d > 0
    ensures x / d * d <= x < x / d * d + d
  {
  }

  lemma DivGe(x: nat, d: nat, k: nat)
    requires d > 0 && d * k <= x
    ensures k <= x / d
  {
    DivTimes(x, d);
    LessTimes(d, x / d, k);
  }

  lemma DivUnique(x: nat, y: nat, q: nat)
    requires y > 0 && q * y <= x < q * y + y
    ensures x / y == q
  {
    DivTimes(x, y);
    SameQuotient(x, y, x / y, q);
  }

  lemma SameQuotient(x: nat, y: nat, d: nat, q: nat)
    requires d * y <= x < d * y + y && q * y <= x < q * y + y
    ensures d == q
  {
    LessTimes(y, d, q);
    LessTimes(y, q, d);
  }

  lemma LessTimes(y: nat, a: nat, b: nat)
    ensures a < b ==> a * y + y <= b * y
  {
    if a < b {
      MulPlus(y, a, 1);
      MulMono(y, a + 1, b);
    }
  }

  lemma RoundUpBounds(x: nat, y: nat)
    requires y > 0
    ensures x <= RoundUp(x, y) < x + y
    ensures x > 0 ==> RoundUp(x, y) >= y
    ensures RoundUp(y, y) == y
  {
    DivTimes(x + (y - 1), y);
    AtLeastOnce((x + (y - 1)) / y, y, x);
    RoundUpSelf(y);
  }

  lemma AtLeastOnce(k: nat, y: nat, x: nat)
    requires x <= k * y
    ensures x > 0 ==> k * y >= y
  {
    if k > 0 { MulMono(y, 1, k); }
  }

  lemma RoundUpSelf(y: nat)
    requires y > 0
    ensures RoundUp(y, y) == y
  {
    var j := (y + (y - 1)) / y;
    DivTimes(y + (y - 1), y);
    AtLeastOnce(j, y, y);
    if j >= 2 { MulMono(y, 2, j); }
  }

  lemma ElapsedBounds(cfg: Config, m: Meter, now: nat)
    requires cfg.Valid() && m.start <= now
    ensures now - m.start <= ElapsedSlices(cfg, m, now) <= now - m.start + cfg.Slice()
    ensures ElapsedSlices(cfg, m, now) >= cfg.Slice()
  {
    hide RoundUp;
    var elapsed := now - m.start;
    RoundUpBounds(if elapsed == 0 then cfg.Slice() else elapsed, cfg.Slice());
  }

  /** At `limit` per second, `span` jiffies allow `total`. */
  ghost predicate Below(limit: nat, hz: nat, total: nat, span: nat) {
    total * hz <= limit * span
  }

  lemma BelowMono(limit: nat, hz: nat, total: nat, span: nat, total': nat, span': nat)
    requires Below(limit, hz, total, span) && total' <= total && span <= span'
    ensures Below(limit, hz, total', span')
  {
    MulMono(limit, span, span');
    MulMono(hz, total', total);
  }

  /** Two stretches of time, each with what it allows, make one. */
  lemma BelowSum(limit: nat, hz: nat, p: nat, u: nat, a: nat, b: nat)
    requires Below(limit, hz, p, a) && Below(limit, hz, u, b)
    ensures Below(limit, hz, p + u, a + b)
  {
    MulPlus(hz, p, u);
    MulPlus(limit, a, b);
  }

  /** A quota never exceeds what the span allows, whether or not the product wraps. */
  lemma QuotaBound(limit: nat, span: nat, hz: nat)
    requires hz >= 10
    ensures Below(limit, hz, Quota(limit, span, hz), span)
    ensures Quota(limit, span, hz) <= U64 / 10
  {
    var p := limit * span;
    var q := p % U64 / hz;
    DivTimes(p % U64, hz);
    MulMono(q, 10, hz);
  }

  // -------------------------------------------------------------------- the budget

  /** `total` has been let through since t0, `used` of it in the current slice. */
  ghost predicate Budget(limit: nat, hz: nat, total: nat, used: nat, m: Meter, t0: nat) {
    && used <= total && t0 <= m.start <= m.end
    && Below(limit, hz, total - used, m.start - t0)
    && Below(limit, hz, total, m.end - t0)
  }

  /** Starting or stretching a slice stays within budget. */
  lemma RenewBudget(cfg: Config, limit: nat, total: nat, used: nat, m: Meter, t0: nat, now: nat)
    requires cfg.Valid() && Budget(limit, cfg.hz, total, used, m, t0) && m.start <= now
    ensures var m1 := Renew(cfg, m, now);
            && Budget(limit, cfg.hz, total, if Used(m, now) then 0 else used, m1, t0)
            && m1.start <= now && now + cfg.Slice() <= m1.end
  {
    hide RoundUp, Below;
    RoundUpBounds(now + cfg.Slice(), cfg.Slice());
    var m1 := Renew(cfg, m, now);
    if Used(m, now) {
      BelowMono(limit, cfg.hz, total, m.end - t0, total, now - t0);
      BelowMono(limit, cfg.hz, total, m.end - t0, total, m1.end - t0);
    } else {
      BelowMono(limit, cfg.hz, total, m.end - t0, total, m1.end - t0);
    }
  }

  lemma ExtendBudget(cfg: Config, limit: nat, total: nat, used: nat, m: Meter, t0: nat, until: nat)
    requires cfg.Valid() && Budget(limit, cfg.hz, total, used, m, t0)
    ensures Budget(limit, cfg.hz, total, used, Extend(cfg, m, until), t0)
    ensures Extend(cfg, m, until).end >= until && Extend(cfg, m, until).end >= m.end
  {
    hide RoundUp, Below;
    RoundUpBounds(until, cfg.Slice());
    BelowMono(limit, cfg.hz, total, m.end - t0, total, Extend(cfg, m, until).end - t0);
  }

  /** Letting `amount` more through, if it fits the quota of the slice, keeps the budget and
      the total below the rate line one slice ahead of now. */
  lemma SendBudget(cfg: Config, limit: nat, total: nat, used: nat, amount: nat, m: Meter, t0: nat, now: nat)
    requires cfg.Valid() && Budget(limit, cfg.hz, total, used, m, t0)
    requires m.start <= now && now + cfg.Slice() <= m.end
    requires used + amount <= Quota(limit, ElapsedSlices(cfg, m, now), cfg.hz)
    ensures Budget(limit, cfg.hz, total + amount, used + amount, m, t0)
    ensures Below(limit, cfg.hz, total + amount, now - t0 + cfg.Slice())
  {
    hide RoundUp, ElapsedSlices, Quota, Config.Slice, Below;
    var span := ElapsedSlices(cfg, m, now);
    ElapsedBounds(cfg, m, now);
    QuotaBound(limit, span, cfg.hz);
    BelowMono(limit, cfg.hz, Quota(limit, span, cfg.hz), span, used + amount, span);
    BelowSum(limit, cfg.hz, total - used, used + amount, m.start - t0, span);
    BelowMono(limit, cfg.hz, total + amount, m.start - t0 + span, total + amount, now - t0 + cfg.Slice());
    BelowMono(limit, cfg.hz, total + amount, now - t0 + cfg.Slice(), total + amount, m.end - t0);
  }

  /** Trimming `nr` slices off the front never gives back more than those slices earned. */
  lemma TrimBudget(cfg: Config, limit: nat, total: nat, used: nat, m: Meter, t0: nat, end: nat, nr: nat)
    requires cfg.Valid() && Budget(limit, cfg.hz, total, used, m, t0)
    requires m.start + Slices(cfg, nr) <= end && Below(limit, cfg.hz, total, end - t0)
    ensures Budget(limit, cfg.hz, total, Minus(used, Quota(limit, Slices(cfg, nr), cfg.hz)),
                   m.(start := m.start + Slices(cfg, nr), end := end), t0)
    ensures Budget(limit, cfg.hz, total, used, m.(end := end), t0)
  {
    hide Quota, Slices, Below;
    var span := Slices(cfg, nr);
    var trim := Quota(limit, span, cfg.hz);
    QuotaBound(limit, span, cfg.hz);
    var back := used - Minus(used, trim);
    BelowMono(limit, cfg.hz, trim, span, back, span);
    BelowSum(limit, cfg.hz, total - used, back, m.start - t0, span);
  }

  /** The end of throtl_trim_slice: either only the slice end moved, or the slice lost its
      first whole slices. */
  lemma TrimKeeps(cfg: Config, lim: Limits, m: Meter, now: nat)
    requires cfg.Valid() && m.start <= now <= m.end
    ensures var nr := (now - m.start) / cfg.Slice(); var span := Slices(cfg, nr);
            var end := RoundUp(now + cfg.Slice(), cfg.Slice());
            && span <= now - m.start && now + cfg.Slice() <= end
            && (Trim(cfg, lim, m, now) == m.(end := end)
                || Trim(cfg, lim, m, now) == m.(end := end, start := m.start + span,
                     bytes := Minus(m.bytes, Quota(lim.bps, span, cfg.hz)), ios := Minus(m.ios, Quota(lim.iops, span, cfg.hz))))
  {
    hide RoundUp, Quota;
    DivTimes(now - m.start, cfg.Slice());
    RoundUpBounds(now + cfg.Slice(), cfg.Slice());
  }

  lemma TrimmedBudget(cfg: Config, lim: Limits, bytes: nat, ios: nat, m: Meter, t0: nat, now: nat)
    requires cfg.Valid() && m.start <= now <= m.end && t0 <= now
    ensures var m' := Trim(cfg, lim, m, now);
            m'.start <= now && m'.bytes <= m.bytes && m'.ios <= m.ios
    ensures Budget(lim.bps, cfg.hz, bytes, m.bytes, m, t0) && Below(lim.bps, cfg.hz, bytes, now - t0 + cfg.Slice()) ==>
              Budget(lim.bps, cfg.hz, bytes, Trim(cfg, lim, m, now).bytes, Trim(cfg, lim, m, now), t0)
    ensures Budget(lim.iops, cfg.hz, ios, m.ios, m, t0) && Below(lim.iops, cfg.hz, ios, now - t0 + cfg.Slice()) ==>
              Budget(lim.iops, cfg.hz, ios, Trim(cfg, lim, m, now).ios, Trim(cfg, lim, m, now), t0)
  {
    hide RoundUp, Quota, Slices, Trim, Budget, Below;
    TrimKeeps(cfg, lim, m, now);
    var nr := (now - m.start) / cfg.Slice();
    var end := RoundUp(now + cfg.Slice(), cfg.Slice());
    if Budget(lim.bps, cfg.hz, bytes, m.bytes, m, t0) && Below(lim.bps, cfg.hz, bytes, now - t0 + cfg.Slice()) {
      BelowMono(lim.bps, cfg.hz, bytes, now - t0 + cfg.Slice(), bytes, end - t0);
      TrimBudget(cfg, lim.bps, bytes, m.bytes, m, t0, end, nr);
      BudgetApart(lim.bps, cfg.hz, bytes, m.(end := end, start := m.start + Slices(cfg, nr)), Trim(cfg, lim, m, now), t0);
    }
    if Budget(lim.iops, cfg.hz, ios, m.ios, m, t0) && Below(lim.iops, cfg.hz, ios, now - t0 + cfg.Slice()) {
      BelowMono(lim.iops, cfg.hz, ios, now - t0 + cfg.Slice(), ios, end - t0);
      TrimBudget(cfg, lim.iops, ios, m.ios, m, t0, end, nr);
      BudgetApart(lim.iops, cfg.hz, ios, m.(end := end, start := m.start + Slices(cfg, nr)), Trim(cfg, lim, m, now), t0);
    }
  }

  /** A budget speaks of the slice's two ends only. */
  lemma BudgetApart(limit: nat, hz: nat, total: nat, m: Meter, m': Meter, t0: nat)
    ensures m.start == m'.start && m.end == m'.end ==>
              forall used :: Budget(limit, hz, total, used, m, t0) ==> Budget(limit, hz, total, used, m', t0)
  {
  }

  // --------------------------------------------------------------- the rate bound

  ghost predicate BytesInv(cfg: Config, lim: Limits, f: Flow, t0: nat) {
    && f.m.start <= f.last && t0 <= f.last && f.m.bytes <= U64 / 10
    && Budget(lim.bps, cfg.hz, f.bytes, f.m.bytes, f.m, t0)
    && Below(lim.bps, cfg.hz, f.bytes, f.last - t0 + cfg.Slice())
  }

  lemma IopsOk(cfg: Config, lim: Limits, m: Meter, now: nat)
    requires cfg.Valid() && lim.Valid() && m.start <= now
    ensures WithinIops(cfg, lim, m, now).ok <==> (m.ios + 1) % U32 <= IoAllowed(cfg, lim, m, now)
  {
    hide IoAllowed, Quota, ElapsedSlices;
  }

  lemma BpsOk(cfg: Config, lim: Limits, m: Meter, now: nat, size: nat)
    requires cfg.Valid() && lim.Valid() && m.start <= now
    ensures WithinBps(cfg, lim, m, now, size).ok <==> (m.bytes + size) % U64 <= BytesAllowed(cfg, lim, m, now)
    ensures WithinBps(cfg, lim, m, now, size).ok ==> WithinBps(cfg, lim, m, now, size).wait == 0
  {
    hide BytesAllowed, Quota, ElapsedSlices;
  }

  /** What tg_may_dispatch comes to for a limited group. */
  lemma Checked(cfg: Config, lim: Limits, m: Meter, now: nat, size: nat)
    requires cfg.Valid() && lim.Valid() && !lim.Unlimited()
    ensures Renew(cfg, m, now).start <= now
    ensures var m1 := Renew(cfg, m, now);
            var (m2, v) := MayDispatch(cfg, lim, m, now, size);
            && (v.ok <==> WithinBps(cfg, lim, m1, now, size).ok && WithinIops(cfg, lim, m1, now).ok)
            && m2 == if v.ok then m1 else Extend(cfg, m1, now + v.wait)
  {
    hide WithinBps, WithinIops, RoundUp;
  }

  lemma BytesStep(cfg: Config, lim: Limits, f: Flow, e: Event, t0: nat)
    requires cfg.Valid() && lim.Valid() && !lim.Unlimited() && BytesInv(cfg, lim, f, t0)
    requires f.last <= e.now && e.size < U32
    ensures BytesInv(cfg, lim, Step(cfg, lim, f, e), t0)
  {
    hide RoundUp, BytesAllowed, Charge, WithinBps, WithinIops, MayDispatch, Trim, Renew, Config.Slice, Extend, Budget, Below;
    var now := e.now;
    var m1 := Renew(cfg, f.m, now);
    Checked(cfg, lim, f.m, now, e.size);
    BpsOk(cfg, lim, m1, now, e.size);
    BudgetStart(lim.bps, cfg.hz, f.bytes, f.m.bytes, f.m, t0);
    RenewBudget(cfg, lim.bps, f.bytes, f.m.bytes, f.m, t0, now);
    RenewFields(cfg, f.m, now);
    BelowMono(lim.bps, cfg.hz, f.bytes, f.last - t0 + cfg.Slice(), f.bytes, now - t0 + cfg.Slice());
    var (m, v) := MayDispatch(cfg, lim, f.m, now, e.size);
    if !v.ok {
      ExtendBudget(cfg, lim.bps, f.bytes, m1.bytes, m1, t0, now + v.wait);
      ExtendFields(cfg, m1, now + v.wait);
    } else if e.take {
      BytesTaken(cfg, lim, f.bytes, m1, e.size, t0, now);
    }
  }

  /** A bio that passed the check is charged and the slice trimmed. */
  lemma BytesTaken(cfg: Config, lim: Limits, bytes: nat, m: Meter, size: nat, t0: nat, now: nat)
    requires cfg.Valid() && lim.Valid() && Budget(lim.bps, cfg.hz, bytes, m.bytes, m, t0) && t0 <= now
    requires m.bytes <= U64 / 10 && size < U32
    requires m.start <= now && now + cfg.Slice() <= m.end && (m.bytes + size) % U64 <= BytesAllowed(cfg, lim, m, now)
    ensures var m' := Trim(cfg, lim, Charge(m, size), now);
            && m'.start <= now && m'.bytes <= U64 / 10
            && Budget(lim.bps, cfg.hz, bytes + size, m'.bytes, m', t0) && Below(lim.bps, cfg.hz, bytes + size, now - t0 + cfg.Slice())
  {
    hide Quota, ElapsedSlices, Trim, Config.Slice, Budget, Below;
    SendBudget(cfg, lim.bps, bytes, m.bytes, size, m, t0, now);
    QuotaBound(lim.bps, ElapsedSlices(cfg, m, now), cfg.hz);
    var m2 := Charge(m, size);
    assert m2.bytes == m.bytes + size;
    BudgetApart(lim.bps, cfg.hz, bytes + size, m, m2, t0);
    TrimmedBudget(cfg, lim, bytes + size, 0, m2, t0, now);
  }

  lemma BudgetStart(limit: nat, hz: nat, total: nat, used: nat, m: Meter, t0: nat)
    requires Budget(limit, hz, total, used, m, t0)
    ensures t0 <= m.start <= m.end && used <= total
  {
  }

  lemma RenewFields(cfg: Config, m: Meter, now: nat)
    requires cfg.Valid()
    ensures var m1 := Renew(cfg, m, now);
            && (Used(m, now) ==> m1.bytes == 0 && m1.ios == 0)
            && (!Used(m, now) ==> m1.bytes == m.bytes && m1.ios == m.ios && m1.start == m.start)
  {
  }

  lemma ExtendFields(cfg: Config, m: Meter, until: nat)
    requires cfg.Valid()
    ensures var m1 := Extend(cfg, m, until); m1.bytes == m.bytes && m1.ios == m.ios && m1.start == m.start
  {
  }

  ghost predicate CountInv(cfg: Config, lim: Limits, f: Flow, t0: nat) {
    && f.m.start <= f.last && t0 <= f.last && f.m.ios <= lim.iops / 10 + 1
    && Budget(lim.iops, cfg.hz, f.ios, f.m.ios, f.m, t0)
    && Below(lim.iops, cfg.hz, f.ios, f.last - t0 + cfg.Slice())
  }

  /** The slices counted are the whole ones elapsed, and one more unless they are all. */
  lemma ElapsedWhole(cfg: Config, m: Meter, now: nat)
    requires cfg.Valid() && m.start <= now
    ensures var span := Slices(cfg, (now - m.start) / cfg.Slice());
            && span <= now - m.start < span + cfg.Slice()
            && ElapsedSlices(cfg, m, now) == if now > m.start && span == now - m.start then span else span + cfg.Slice()
  {
    hide RoundUp;
    var e, y := now - m.start, cfg.Slice();
    var q := e / y;
    DivTimes(e, y);
    RoundUpWhole(if e == 0 then y else e, y);
  }

  lemma RoundUpWhole(x: nat, y: nat)
    requires x > 0 && y > 0
    ensures var q := x / y; RoundUp(x, y) == if x == y * q then y * q else y * q + y
    ensures y / y == 1
  {
    DivTimes(x, y);
    DivUnique(y, y, 1);
    RoundUpBy(x, y, x / y);
  }

  lemma RoundUpBy(x: nat, y: nat, q: nat)
    requires x > 0 && y > 0 && y * q <= x < y * q + y
    ensures RoundUp(x, y) == if x == y * q then y * q else y * q + y
  {
    MulPlus(y, q, 1);
    DivUnique(x + (y - 1), y, if x == y * q then q else q + 1);
  }

  /** One slice more raises a quota by at most a tenth of the limit and one, whether or not
      either product wraps. */
  lemma QuotaGrows(cfg: Config, limit: nat, span: nat)
    requires cfg.Valid() && limit < U32
    ensures Quota(limit, span + cfg.Slice(), cfg.hz) <= Quota(limit, span, cfg.hz) + limit / 10 + 1
    ensures Quota(limit, cfg.Slice(), cfg.hz) <= limit / 10
  {
    hide Config.Slice, Quota;
    TenthSlice(cfg, limit);
    QuotaSum(limit, span, cfg.Slice(), cfg.hz, limit / 10);
  }

  lemma QuotaSum(limit: nat, span: nat, more: nat, hz: nat, k: nat)
    requires hz > 0 && limit * more < U64 && limit * more / hz <= k
    ensures Quota(limit, span + more, hz) <= Quota(limit, span, hz) + k + 1 && Quota(limit, more, hz) <= k
  {
    MulPlus(limit, span, more);
    WrappedSum(limit * span, limit * more, hz, k);
  }

  lemma WrappedSum(a: nat, b: nat, d: nat, k: nat)
    requires d > 0 && b < U64 && b / d <= k
    ensures (a + b) % U64 / d <= a % U64 / d + k + 1 && b % U64 == b
  {
    WrapSum(a, b);
    CutSum((a + b) % U64, a % U64, b, d, k);
  }

  lemma CutSum(c: nat, a: nat, b: nat, d: nat, k: nat)
    requires d > 0 && b / d <= k && c <= a + b
    ensures c / d <= a / d + k + 1
  {
    DivMono(c, a + b, d);
    SumDiv(a, b, d, k);
  }

  lemma TenthSlice(cfg: Config, limit: nat)
    requires cfg.Valid() && limit < U32
    ensures limit * cfg.Slice() < U64 && limit * cfg.Slice() / cfg.hz <= limit / 10
  {
    var s := cfg.Slice();
    MulMono(limit, s, U32);
    MulMono(U32, limit, U32);
    MulMono(limit, s * 10, cfg.hz);
    var k := limit * s / cfg.hz;
    DivTimes(limit * s, cfg.hz);
    assert cfg.hz * (k * 10) <= limit * (s * 10) by { assert cfg.hz * (k * 10) == k * cfg.hz * 10; }
    if k * 10 > limit {
      MulMono(cfg.hz, limit + 1, k * 10);
      MulPlus(cfg.hz, limit, 1);
    }
  }

  lemma WrapSum(a: nat, b: nat)
    requires b < U64
    ensures (a + b) % U64 <= a % U64 + b && b % U64 == b
  {
  }

  lemma SumDiv(a: nat, b: nat, d: nat, k: nat)
    requires d > 0 && b / d <= k
    ensures (a + b) / d <= a / d + k + 1
  {
    var p, q := a / d, b / d;
    DivTimes(a, d);
    DivTimes(b, d);
    DivBelow(a, b, p, q, d);
    DivLess(a + b, d, p + q + 2);
  }

  lemma DivBelow(a: nat, b: nat, p: nat, q: nat, d: nat)
    requires a < p * d + d && b < q * d + d
    ensures a + b < d * (p + q + 2)
  {
    assert d * (p + q + 2) == p * d + q * d + d + d;
  }

  lemma DivLess(x: nat, d: nat, k: nat)
    requires d > 0 && x < d * k
    ensures x / d < k
  {
    DivTimes(x, d);
    if k <= x / d {
      MulMono(d, k, x / d);
    }
  }

  lemma DivMono(a: nat, b: nat, d: nat)
    requires d > 0 && a <= b
    ensures a / d <= b / d
  {
    DivTimes(a, d);
    DivGe(b, d, a / d);
  }

  /** After a charge that passed the check, the trim leaves at most a tenth of the limit and
      one I/O in the slice. */
  lemma TrimmedCount(cfg: Config, lim: Limits, m: Meter, now: nat)
    requires cfg.Valid() && lim.Valid() && m.start <= now <= m.end
    requires m.ios <= Quota(lim.iops, ElapsedSlices(cfg, m, now), cfg.hz)
    ensures Trim(cfg, lim, m, now).ios <= lim.iops / 10 + 1
  {
    hide RoundUp, Quota, ElapsedSlices, Slices;
    var nr := (now - m.start) / cfg.Slice();
    ElapsedWhole(cfg, m, now);
    QuotaGrows(cfg, lim.iops, Slices(cfg, nr));
    if nr == 0 {
      NoSlices(cfg);
    }
  }

  lemma NoSlices(cfg: Config)
    ensures Slices(cfg, 0) == 0
  {
  }

  lemma CountStep(cfg: Config, lim: Limits, f: Flow, e: Event, t0: nat)
    requires cfg.Valid() && lim.Valid() && !lim.Unlimited() && CountInv(cfg, lim, f, t0)
    requires f.last <= e.now
    ensures CountInv(cfg, lim, Step(cfg, lim, f, e), t0)
  {
    hide RoundUp, IoAllowed, Charge, WithinBps, WithinIops, MayDispatch, Trim, Renew, Config.Slice, Extend, Budget, Below;
    var now := e.now;
    var m1 := Renew(cfg, f.m, now);
    Checked(cfg, lim, f.m, now, e.size);
    IopsOk(cfg, lim, m1, now);
    BudgetStart(lim.iops, cfg.hz, f.ios, f.m.ios, f.m, t0);
    RenewBudget(cfg, lim.iops, f.ios, f.m.ios, f.m, t0, now);
    RenewFields(cfg, f.m, now);
    BelowMono(lim.iops, cfg.hz, f.ios, f.last - t0 + cfg.Slice(), f.ios, now - t0 + cfg.Slice());
    var (m, v) := MayDispatch(cfg, lim, f.m, now, e.size);
    if !v.ok {
      ExtendBudget(cfg, lim.iops, f.ios, m1.ios, m1, t0, now + v.wait);
      ExtendFields(cfg, m1, now + v.wait);
    } else if e.take {
      CountTaken(cfg, lim, f.ios, m1, e.size, t0, now);
    }
  }

  /** A bio that passed the check is charged and the slice trimmed. */
  lemma CountTaken(cfg: Config, lim: Limits, ios: nat, m: Meter, size: nat, t0: nat, now: nat)
    requires cfg.Valid() && lim.Valid() && Budget(lim.iops, cfg.hz, ios, m.ios, m, t0) && t0 <= now
    requires m.start <= now && now + cfg.Slice() <= m.end && m.ios <= lim.iops / 10 + 1
    requires (m.ios + 1) % U32 <= IoAllowed(cfg, lim, m, now)
    ensures var m' := Trim(cfg, lim, Charge(m, size), now);
            && m'.start <= now && m'.ios <= lim.iops / 10 + 1
            && Budget(lim.iops, cfg.hz, ios + 1, m'.ios, m', t0) && Below(lim.iops, cfg.hz, ios + 1, now - t0 + cfg.Slice())
  {
    hide Quota, ElapsedSlices, Trim, Config.Slice, Budget, Below;
    var m2 := Charge(m, size);
    assert m2.ios == m.ios + 1;
    SendBudget(cfg, lim.iops, ios, m.ios, 1, m, t0, now);
    BudgetApart(lim.iops, cfg.hz, ios + 1, m, m2, t0);
    TrimmedBudget(cfg, lim, 0, ios + 1, m2, t0, now);
    SameElapsed(cfg, m, m2, now);
    TrimmedCount(cfg, lim, m2, now);
  }

  lemma SameElapsed(cfg: Config, m: Meter, m': Meter, now: nat)
    requires cfg.Valid() && m.start <= now && m'.start == m.start
    ensures ElapsedSlices(cfg, m', now) == ElapsedSlices(cfg, m, now)
  {
  }

  lemma RunLast(cfg: Config, lim: Limits, t0: nat, es: seq<Event>)
    requires cfg.Valid() && lim.Valid()
    ensures Run(cfg, lim, t0, es).last == if es == [] then t0 else es[|es|-1].now
  {
    hide MayDispatch;
  }

  lemma NewSliceBudget(cfg: Config, limit: nat, t0: nat)
    requires cfg.Valid()
    ensures Budget(limit, cfg.hz, 0, 0, NewSlice(cfg, t0), t0) && Below(limit, cfg.hz, 0, cfg.Slice())
  {
  }

  lemma {:induction false} BytesRun(cfg: Config, lim: Limits, t0: nat, es: seq<Event>)
    requires cfg.Valid() && lim.Valid() && !lim.Unlimited() && Ordered(t0, es)
    ensures BytesInv(cfg, lim, Run(cfg, lim, t0, es), t0)
  {
    hide Step, Budget, Below;
    if es == [] {
      NewSliceBudget(cfg, lim.bps, t0);
    } else {
      var last := |es| - 1;
      BytesRun(cfg, lim, t0, es[..last]);
      RunLast(cfg, lim, t0, es[..last]);
      BytesStep(cfg, lim, Run(cfg, lim, t0, es[..last]), es[last], t0);
    }
  }

  /** The rate bound for bytes, over every run of a limited group: however slices started,
      stretched and were trimmed, what has been let through by the time of the last event
      is at most what bps allows from t0 until one slice after it. */
  lemma ByteRate(cfg: Config, lim: Limits, t0: nat, es: seq<Event>)
    requires cfg.Valid() && lim.Valid() && !lim.Unlimited() && Ordered(t0, es)
    ensures var t := if es == [] then t0 else es[|es|-1].now;
            Run(cfg, lim, t0, es).bytes * cfg.hz <= lim.bps * (t - t0 + cfg.Slice())
  {
    hide Run, Budget, Config.Slice;
    BytesRun(cfg, lim, t0, es);
    RunLast(cfg, lim, t0, es);
  }

  lemma {:induction false} CountRun(cfg: Config, lim: Limits, t0: nat, es: seq<Event>)
    requires cfg.Valid() && lim.Valid() && !lim.Unlimited() && Ordered(t0, es)
    ensures CountInv(cfg, lim, Run(cfg, lim, t0, es), t0)
  {
    hide Step, Budget, Below;
    if es == [] {
      NewSliceBudget(cfg, lim.iops, t0);
    } else {
      var last := |es| - 1;
      CountRun(cfg, lim, t0, es[..last]);
      RunLast(cfg, lim, t0, es[..last]);
      CountStep(cfg, lim, Run(cfg, lim, t0, es[..last]), es[last], t0);
    }
  }

  /** The same bound for the number of I/Os. */
  lemma IoRate(cfg: Config, lim: Limits, t0: nat, es: seq<Event>)
    requires cfg.Valid() && lim.Valid() && !lim.Unlimited() && Ordered(t0, es)
    ensures var t := if es == [] then t0 else es[|es|-1].now;
            Run(cfg, lim, t0, es).ios * cfg.hz <= lim.iops * (t - t0 + cfg.Slice())
  {
    hide Run, Budget, Config.Slice;
    CountRun(cfg, lim, t0, es);
    RunLast(cfg, lim, t0, es);
  }

  /** In no run does io_disp exceed a tenth of the limit and one, so that it stays far from
      UINT_MAX. */
  lemma CountSmall(cfg: Config, lim: Limits, t0: nat, es: seq<Event>)
    requires cfg.Valid() && lim.Valid() && !lim.Unlimited() && Ordered(t0, es)
    ensures Run(cfg, lim, t0, es).m.ios <= lim.iops / 10 + 1 < UINT_MAX / 2
  {
    hide Run, Budget, Below, Config.Slice;
    CountRun(cfg, lim, t0, es);
  }

  /** A new group is zero all over; its first check finds a slice that starts now. */
  lemma FirstSlice(cfg: Config, now: nat)
    requires cfg.Valid()
    ensures Renew(cfg, Meter(0, 0, 0, 0), now).start == now
    ensures Renew(cfg, Meter(0, 0, 0, 0), now).end >= now + cfg.Slice()
  {
    RoundUpBounds(now + cfg.Slice(), cfg.Slice());
  }

  /** The check compares io_disp + 1 modulo 2^32, which is the comparison meant for every count
      but UINT_MAX; by CountSmall no run has that count. */
  lemma IopsCheckExact(cfg: Config, lim: Limits, m: Meter, now: nat)
    requires cfg.Valid() && lim.Valid() && m.start <= now && m.ios < U32
    ensures (WithinIops(cfg, lim, m, now).ok <==> m.ios + 1 <= IoAllowed(cfg, lim, m, now))
            <==> m.ios != UINT_MAX
  {
    hide Quota, ElapsedSlices, WithinIops;
    IopsOk(cfg, lim, m, now);
  }

  // --------------------------------------------------------------------- fairness

  /** With both limits off nothing is refused or accounted. */
  lemma NoLimits(cfg: Config, m: Meter, now: nat, size: nat)
    requires cfg.Valid()
    ensures MayDispatch(cfg, Limits(0xffff_ffff_ffff_ffff, 0xffff_ffff), m, now, size) == (m, Verdict(true, 0))
  {
  }

  /** When a bio may go: bytes and I/Os of the slice, this one included, are within the limits for
      the slice so far in whole throtl_slices, at least one, the counts and products being cut to
      64 and 32 bits.  A slice that is used up counts for nothing. */
  lemma GrantIff(cfg: Config, lim: Limits, m: Meter, now: nat, size: nat) returns (span: nat)
    requires cfg.Valid() && lim.Valid() && !(lim.bps == 0xffff_ffff_ffff_ffff && lim.iops == 0xffff_ffff)
    ensures var live := m.start <= now <= m.end;
            var elapsed, bytes, ios := if live then now - m.start else 0, if live then m.bytes else 0, if live then m.ios else 0;
            && (if elapsed == 0 then span == cfg.hz / 10 else span % (cfg.hz / 10) == 0 && elapsed <= span < elapsed + cfg.hz / 10)
            && (MayDispatch(cfg, lim, m, now, size).1.ok <==>
                  && (bytes + size) % 0x1_0000_0000_0000_0000 * cfg.hz <= lim.bps * span % 0x1_0000_0000_0000_0000
                  && (ios + 1) % 0x1_0000_0000 * cfg.hz <= lim.iops * span % 0x1_0000_0000_0000_0000)
  {
    hide ElapsedSlices;
    var m1 := Renew(cfg, m, now);
    span := ElapsedSlices(cfg, m1, now);
    SpanIs(cfg, m1, now);
    LeDiv((m1.bytes + size) % U64, lim.bps * span % U64, cfg.hz);
    LeDiv((m1.ios + 1) % U32, lim.iops * span % U64, cfg.hz);
  }

  lemma SpanIs(cfg: Config, m: Meter, now: nat)
    requires cfg.Valid() && m.start <= now
    ensures var span, elapsed := ElapsedSlices(cfg, m, now), now - m.start;
            if elapsed == 0 then span == cfg.hz / 10 else span % (cfg.hz / 10) == 0 && elapsed <= span < elapsed + cfg.hz / 10
  {
    var y := cfg.hz / 10;
    var x := if now == m.start then y else now - m.start;
    RoundUpBounds(x, y);
    Multiple((x + (y - 1)) / y, y);
  }

  lemma Multiple(k: nat, y: nat)
    requires y > 0
    ensures k * y % y == 0
  {
    DivUnique(k * y, y, k);
  }

  lemma LeDiv(x: nat, p: nat, d: nat)
    requires d > 0
    ensures x <= p / d <==> x * d <= p
  {
    DivTimes(p, d);
    if x <= p / d {
      MulMono(d, x, p / d);
    } else {
      LessTimes(d, p / d, x);
    }
  }

  /** The trim takes next to nothing away: of an amount that fits the slice, all but one unit
      fits what is left of it, unless the slice was not used up to where it is cut. */
  lemma TrimFair(cfg: Config, lim: Limits, m: Meter, now: nat, size: nat, n: nat)
    requires cfg.Valid() && lim.Valid() && m.start <= now <= m.end
    requires lim.bps * (now - m.start + cfg.hz) < U64 && lim.iops * (now - m.start + cfg.hz) < U64
    ensures var t := Trim(cfg, lim, m, now);
            var span, e := Slices(cfg, (now - m.start) / cfg.Slice()), ElapsedSlices(cfg, m, now);
            && t.start <= now
            && (Quota(lim.bps, span, cfg.hz) <= m.bytes && m.bytes + size <= Quota(lim.bps, e, cfg.hz) ==>
                  t.bytes + size <= Quota(lim.bps, ElapsedSlices(cfg, t, now), cfg.hz) + 1)
            && (Quota(lim.iops, span, cfg.hz) <= m.ios && m.ios + n <= Quota(lim.iops, e, cfg.hz) ==>
                  t.ios + n <= Quota(lim.iops, ElapsedSlices(cfg, t, now), cfg.hz) + 1)
  {
    hide RoundUp, Quota, ElapsedSlices, Slices, Config.Slice;
    SliceLess(cfg);
    var nr := (now - m.start) / cfg.Slice();
    var span := Slices(cfg, nr);
    ElapsedWhole(cfg, m, now);
    var t := Trim(cfg, lim, m, now);
    assert t.start == m.start || t.start == m.start + span;
    if t.start == m.start + span {
      WithinSlice(cfg, t, now);
      QuotaParts(cfg, lim.bps, span, now - m.start);
      QuotaParts(cfg, lim.iops, span, now - m.start);
    }
    SameElapsed(cfg, m, m.(bytes := t.bytes, ios := t.ios, end := t.end), now);
  }

  lemma SliceLess(cfg: Config)
    requires cfg.Valid()
    ensures 0 < cfg.Slice() <= cfg.hz
  {
  }

  lemma WithinSlice(cfg: Config, m: Meter, now: nat)
    requires cfg.Valid() && m.start <= now < m.start + cfg.Slice()
    ensures ElapsedSlices(cfg, m, now) == cfg.Slice()
  {
    hide RoundUp, Config.Slice;
    ElapsedWhole(cfg, m, now);
    DivUnique(now - m.start, cfg.Slice(), 0);
    NoSlices(cfg);
  }

  /** What one slice more is worth, without wrapping. */
  lemma QuotaParts(cfg: Config, limit: nat, span: nat, elapsed: nat)
    requires cfg.Valid() && span <= elapsed && cfg.Slice() <= cfg.hz && limit * (elapsed + cfg.hz) < U64
    ensures Quota(limit, span + cfg.Slice(), cfg.hz) <= Quota(limit, span, cfg.hz) + Quota(limit, cfg.Slice(), cfg.hz) + 1
    ensures Quota(limit, span, cfg.hz) <= Quota(limit, span, cfg.hz) + Quota(limit, cfg.Slice(), cfg.hz)
  {
    hide Config.Slice, Quota;
    var s := cfg.Slice();
    MulMono(limit, span + s, elapsed + cfg.hz);
    MulMono(limit, span, elapsed + cfg.hz);
    MulMono(limit, s, elapsed + cfg.hz);
    PlainQuota(limit, span + s, cfg.hz);
    PlainQuota(limit, span, cfg.hz);
    PlainQuota(limit, s, cfg.hz);
    MulPlus(limit, span, s);
    SumDiv(limit * span, limit * s, cfg.hz, limit * s / cfg.hz);
  }

  lemma PlainQuota(limit: nat, span: nat, hz: nat)
    requires hz > 0 && limit * span < U64
    ensures Quota(limit, span, hz) == limit * span / hz
  {
  }

  // ------------------------------------------------------------------- refusals

  /** A refusal stands: asked again at once about the same bio, tg_may_dispatch refuses
      again and the wait is at least one jiffy. */
  lemma RefusalStands(cfg: Config, lim: Limits, m: Meter, now: nat, size: nat)
    requires cfg.Valid() && lim.Valid() && !MayDispatch(cfg, lim, m, now, size).1.ok
    ensures var (m2, v) := MayDispatch(cfg, lim, m, now, size);
            v.wait >= 1 && MayDispatch(cfg, lim, m2, now, size).1 == v
  {
    hide RoundUp, Quota, WithinBps, WithinIops, ElapsedSlices;
    var m1 := Renew(cfg, m, now);
    var (m2, v) := MayDispatch(cfg, lim, m, now, size);
    RoundUpBounds(now + cfg.Slice(), cfg.Slice());
    RoundUpBounds(now + v.wait, cfg.Slice());
    WaitsPositive(cfg, lim, m1, now, size);
    SameVerdicts(cfg, lim, m1, Renew(cfg, m2, now), now, size);
  }

  lemma WaitsPositive(cfg: Config, lim: Limits, m: Meter, now: nat, size: nat)
    requires cfg.Valid() && lim.Valid() && m.start <= now
    ensures !WithinBps(cfg, lim, m, now, size).ok ==> WithinBps(cfg, lim, m, now, size).wait >= 1
    ensures !WithinIops(cfg, lim, m, now).ok ==> WithinIops(cfg, lim, m, now).wait >= 1
  {
    hide RoundUp, Quota, ElapsedSlices;
    ElapsedBounds(cfg, m, now);
  }

  lemma SameVerdicts(cfg: Config, lim: Limits, m: Meter, m': Meter, now: nat, size: nat)
    requires cfg.Valid() && lim.Valid() && m.start <= now
    requires m'.start == m.start && m'.bytes == m.bytes && m'.ios == m.ios
    ensures WithinBps(cfg, lim, m', now, size) == WithinBps(cfg, lim, m, now, size)
    ensures WithinIops(cfg, lim, m', now) == WithinIops(cfg, lim, m, now)
  {
    hide RoundUp, Quota;
  }
}
