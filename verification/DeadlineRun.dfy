/** Whole runs of the deadline scheduler: the two views of the held requests agree in every
    reachable state, draining sends every request on once, and reads cannot starve writes for
    longer than the tunables allow. */
module DeadlineRun {
  import opened Lists
  import opened Deadline

  datatype Op =
    | Insert(x: nat, r: Rq)
    | Back(x: nat, len: nat)
    | Front(x: nat, len: nat)
    | Join(x: nat, y: nat)
    | Send

  /** An operation and the time it happens at. */
  datatype Step = Step(op: Op, now: nat)

  /** What the callers see to: requests are inserted once, merged while held, never below
      sector 0, and two requests are merged only within one direction. */
  ghost predicate Enabled(d: Sched, o: Op) {
    match o
    case Insert(x, r) => !d.Holds(x)
    case Back(x, len) => d.Holds(x)
    case Front(x, len) => d.Holds(x) && (x in d.rq ==> len <= d.rq[x].pos)
    case Join(x, y) => d.Holds(x) && d.Holds(y) && x != y && (x in d.rq && y in d.rq ==> d.rq[x].write == d.rq[y].write)
    case Send => true
  }

  ghost function Next(c: Tuning, d: Sched, s: Step): Sched
    requires Ready(d) && Enabled(d, s.op)
  {
    match s.op
    case Insert(x, r) => Add(c, d, x, r, s.now)
    case Back(x, len) => BackMerged(d, x, len)
    case Front(x, len) => FrontMerged(d, x, len)
    case Join(x, y) => MergedRequests(d, x, y)
    case Send => Dispatch(c, d, s.now)
  }

  /** A run from any state in order, at times that never go back. */
  ghost predicate Run(c: Tuning, ds: seq<Sched>, ss: seq<Step>, start: nat) {
    && |ds| == |ss| + 1 && Inv(c, ds[0], start)
    && (forall i :: 0 <= i < |ss| ==> Time(ss, start, i) <= ss[i].now)
    && forall i :: 0 <= i < |ss| ==> Ready(ds[i]) && Enabled(ds[i], ss[i].op) && ds[i + 1] == Next(c, ds[i], ss[i])
  }

  /** The time reached after i steps. */
  function Time(ss: seq<Step>, start: nat, i: nat): nat
    requires i <= |ss|
  {
    if i == 0 then start else ss[i - 1].now
  }

  lemma Later(c: Tuning, d: Sched, was: nat, now: nat)
    requires Inv(c, d, was) && was <= now
    ensures Inv(c, d, now)
  {
    hide SideGap;
    SideFacts(c, d, was, {});
    SideFrame(c, d.rq, d.rq, d.rd, false, was, now, {});
    SideFrame(c, d.rq, d.rq, d.wr, true, was, now, {});
  }

  lemma NextKeeps(c: Tuning, d: Sched, s: Step, was: nat)
    requires Inv(c, d, was) && was <= s.now && Enabled(d, s.op)
    ensures Ready(d) && Inv(c, Next(c, d, s), s.now)
  {
    hide Inv, Add, BackMerged, FrontMerged, MergedRequests, Dispatch;
    Reading(c, d, was);
    Later(c, d, was, s.now);
    match s.op
    case Insert(x, r) => AddKeeps(c, d, was, s.now, x, r);
    case Back(x, len) => BackMergedKeeps(c, d, s.now, x, len);
    case Front(x, len) => FrontMergedKeeps(c, d, s.now, x, len);
    case Join(x, y) => MergedRequestsKeeps(c, d, s.now, x, y);
    case Send => DispatchKeeps(c, d, was, s.now);
  }

  lemma Reading(c: Tuning, d: Sched, now: nat)
    requires Inv(c, d, now)
    ensures Ready(d) && forall x :: d.Holds(x) ==> x in d.rq
  {
  }

  /** Every state of a run is in order. */
  lemma {:induction false} RunKeeps(c: Tuning, ds: seq<Sched>, ss: seq<Step>, start: nat, i: nat)
    requires Run(c, ds, ss, start) && i <= |ss|
    ensures Inv(c, ds[i], Time(ss, start, i))
  {
    hide Inv, Next, Enabled, Ready;
    if i > 0 {
      assert Ready(ds[i - 1]) && Enabled(ds[i - 1], ss[i - 1].op) && ds[i] == Next(c, ds[i - 1], ss[i - 1]);
      RunKeeps(c, ds, ss, start, i - 1);
      NextKeeps(c, ds[i - 1], ss[i - 1], Time(ss, start, i - 1));
    }
  }

  // ------------------------------------------------------------------- starvation

  function Longest(c: Tuning): nat { if c.batch == 0 then 1 else c.batch }

  /** How many more dispatches can choose a read while writes wait. */
  function Credit(c: Tuning, d: Sched): nat
    requires d.starved <= c.Starve()
  {
    (c.Starve() - d.starved) * Longest(c) + (if d.batching < c.batch then c.batch - d.batching else 0)
  }

  ghost predicate PicksRead(c: Tuning, d: Sched, now: nat) {
    Ready(d) && var p := Pick(c, d, now); p.Some? && p.value in d.rq && !d.rq[p.value].write
  }

  function Sends(ss: seq<Step>): nat {
    if ss == [] then 0 else Sends(ss[..|ss| - 1]) + (if ss[|ss| - 1].op.Send? then 1 else 0)
  }

  /** Choosing a read while a write waits uses up credit. */
  lemma ReadCosts(c: Tuning, d: Sched, was: nat, now: nat)
    requires Inv(c, d, was) && was <= now && d.wr.fifo != [] && PicksRead(c, d, now)
    ensures d.starved <= c.Starve() && Dispatch(c, d, now).starved <= c.Starve()
    ensures Credit(c, Dispatch(c, d, now)) < Credit(c, d)
  {
    hide SideGap, Move, Latter;
    SideFacts(c, d, was, {});
    PickHeld(c, d, was, now);
    MoveCounters(Charged(c, d), Pick(c, d, now).value);
    DispatchKeeps(c, d, was, now);
    if !Batching(c, d) {
      WriteBatch(c, d, was, now);
      assert d.starved + 1 <= c.Starve() < 0x1_0000_0000;
      MulStep(c.Starve() - d.starved, Longest(c));
    }
  }

  /** A new batch for writes starts with a write. */
  lemma WriteBatch(c: Tuning, d: Sched, was: nat, now: nat)
    requires Inv(c, d, was) && Ready(d) && !Batching(c, d)
    ensures PickWrite(c, d) ==> !PicksRead(c, d, now)
  {
  }

  lemma MulStep(a: nat, m: nat)
    requires a > 0
    ensures a * m == (a - 1) * m + m
  {
  }

  lemma MoveCounters(d: Sched, x: nat)
    requires x in d.rq
    ensures Move(d, x).starved == d.starved && Move(d, x).batching == d.batching
  {
  }

  lemma ClearedCounters(d: Sched, x: nat)
    requires x in d.rq && Known(d)
    ensures AddSorted(d, x).starved == d.starved && AddSorted(d, x).batching == d.batching
  {
    hide Move, Place;
    var o := Alias(d.rq, d.At(d.rq[x].write).sort, d.rq[x].pos);
    if o.Some? {
      MoveCounters(d, o.value);
    }
  }

  lemma AddCounters(c: Tuning, d: Sched, x: nat, r: Rq, now: nat)
    requires Known(d)
    ensures Add(c, d, x, r, now).starved == d.starved && Add(c, d, x, r, now).batching == d.batching
  {
    hide AddSorted;
    ClearedCounters(d.(rq := d.rq[x := r.(time := now + c.Expire(r.write))], nrSorted := d.nrSorted + 1), x);
  }

  lemma FrontCounters(d: Sched, x: nat, len: nat)
    requires x in d.rq && len <= d.rq[x].pos && Known(d)
    ensures FrontMerged(d, x, len).starved == d.starved && FrontMerged(d, x, len).batching == d.batching
  {
    hide AddSorted, Without;
    var r := d.rq[x];
    var s := d.At(r.write);
    WithoutCounts(s.sort, x);
    var e := d.With(r.write, s.(sort := Without(s.sort, x)));
    ClearedCounters(e.(rq := d.rq[x := r.(pos := r.pos - len, sectors := r.sectors + len)]), x);
  }

  lemma JoinCounters(d: Sched, x: nat, y: nat)
    requires x in d.rq && y in d.rq
    ensures MergedRequests(d, x, y).starved == d.starved && MergedRequests(d, x, y).batching == d.batching
  {
    hide Without, Latter, InPlaceOf;
  }

  /** No other operation touches the counters. */
  lemma OthersFree(c: Tuning, d: Sched, s: Step)
    requires Ready(d) && Enabled(d, s.op) && !s.op.Send? && (forall x :: d.Holds(x) ==> x in d.rq)
    ensures Next(c, d, s).starved == d.starved && Next(c, d, s).batching == d.batching
  {
    hide Add, FrontMerged, MergedRequests;
    match s.op
    case Insert(x, r) => AddCounters(c, d, x, r, s.now);
    case Back(x, len) =>
    case Front(x, len) => FrontCounters(d, x, len);
    case Join(x, y) => JoinCounters(d, x, y);
  }

  /** Over any stretch of a run in which writes are waiting at every dispatch and each dispatch
      chooses a read, there are at most (writes_starved + 1) * max(1, fifo_batch) of them. */
  lemma WritesNotStarved(c: Tuning, ds: seq<Sched>, ss: seq<Step>, start: nat)
    requires Run(c, ds, ss, start)
    requires forall i :: 0 <= i < |ss| && ss[i].op.Send? ==> ds[i].wr.fifo != [] && PicksRead(c, ds[i], ss[i].now)
    ensures Sends(ss) <= (c.Starve() + 1) * Longest(c)
  {
    hide Inv, Next, Enabled, PicksRead, Credit;
    CreditSpent(c, ds, ss, start);
    RunKeeps(c, ds, ss, start, 0);
    CreditBound(c, ds[0], start);
  }

  lemma CreditBound(c: Tuning, d: Sched, now: nat)
    requires Inv(c, d, now)
    ensures d.starved <= c.Starve() && Credit(c, d) <= (c.Starve() + 1) * Longest(c)
  {
    MulLe(c.Starve() - d.starved, c.Starve(), Longest(c));
    MulStep(c.Starve() + 1, Longest(c));
  }

  lemma MulLe(a: nat, b: nat, m: nat)
    requires a <= b
    ensures a * m <= b * m
  {
  }

  lemma {:induction false} CreditSpent(c: Tuning, ds: seq<Sched>, ss: seq<Step>, start: nat)
    requires Run(c, ds, ss, start)
    requires forall i :: 0 <= i < |ss| && ss[i].op.Send? ==> ds[i].wr.fifo != [] && PicksRead(c, ds[i], ss[i].now)
    ensures ds[0].starved <= c.Starve() && ds[|ss|].starved <= c.Starve()
    ensures Sends(ss) + Credit(c, ds[|ss|]) <= Credit(c, ds[0])
    decreases |ss|
  {
    hide Inv, Next, Enabled, PicksRead, Credit;
    RunKeeps(c, ds, ss, start, 0);
    CreditBound(c, ds[0], start);
    if ss != [] {
      var m := |ss| - 1;
      CreditSpent(c, ds[..|ds| - 1], ss[..m], start);
      RunKeeps(c, ds, ss, start, m);
      StepCredit(c, ds[m], ss[m], Time(ss, start, m));
    }
  }

  lemma StepCredit(c: Tuning, d: Sched, s: Step, was: nat)
    requires Inv(c, d, was) && was <= s.now && Ready(d) && Enabled(d, s.op)
    requires s.op.Send? ==> d.wr.fifo != [] && PicksRead(c, d, s.now)
    ensures d.starved <= c.Starve() && Next(c, d, s).starved <= c.Starve()
    ensures Credit(c, Next(c, d, s)) + (if s.op.Send? then 1 else 0) <= Credit(c, d)
  {
    hide SideGap, PicksRead, Dispatch, Add, FrontMerged, MergedRequests, BackMerged, Longest;
    if s.op.Send? {
      ReadCosts(c, d, was, s.now);
    } else {
      Reading(c, d, was);
      OthersFree(c, d, s);
    }
  }

  // --------------------------------------------------------------------- draining

  /** However often the scheduler is asked, it sends on what it held, each request once, one
      per call while any is left. */
  lemma {:induction false} SendsConserve(c: Tuning, ds: seq<Sched>, ss: seq<Step>, start: nat)
    requires Run(c, ds, ss, start) && forall i :: 0 <= i < |ss| ==> ss[i].op.Send?
    ensures Conserved(ds[0], ds[|ss|], multiset{}, multiset{})
    ensures Count(ds[|ss|]) == if |ss| < Count(ds[0]) then Count(ds[0]) - |ss| else 0
    decreases |ss|
  {
    hide Inv, Dispatch, Pick, Ready;
    if ss == [] {
      assert ds[0].out[|ds[0].out|..] == [];
    } else {
      var m := |ss| - 1;
      SendsConserve(c, ds[..|ds| - 1], ss[..m], start);
      RunKeeps(c, ds, ss, start, m);
      SendOne(c, ds[m], Time(ss, start, m), ss[m].now);
      ConservedAgain(ds[0], ds[m], ds[m + 1]);
    }
  }

  lemma SendOne(c: Tuning, d: Sched, was: nat, now: nat)
    requires Inv(c, d, was) && was <= now
    ensures Ready(d) && Conserved(d, Dispatch(c, d, now), multiset{}, multiset{})
    ensures Count(Dispatch(c, d, now)) == if Count(d) == 0 then 0 else Count(d) - 1
    ensures Pick(c, d, now).None? <==> Count(d) == 0
  {
    hide SideGap, Dispatch, Pick, Ready;
    DispatchKeeps(c, d, was, now);
    HeldCount(d);
    HeldCount(Dispatch(c, d, now));
    match Pick(c, d, now)
    case None =>
      assert d.out[|d.out|..] == [];
    case Some(x) =>
      assert (d.out + [x])[|d.out|..] == [x];
  }

  lemma HeldCount(d: Sched)
    ensures |Held(d)| == Count(d)
  {
  }

  lemma ConservedAgain(a: Sched, b: Sched, c: Sched)
    requires Conserved(a, b, multiset{}, multiset{}) && Conserved(b, c, multiset{}, multiset{})
    ensures Conserved(a, c, multiset{}, multiset{})
  {
    ConservedPlain(a, b);
    ConservedPlain(b, c);
    ConservedPlain(a, c);
    var o, p := b.out[|a.out|..], c.out[|b.out|..];
    assert c.out == b.out + p;
    assert c.out[|a.out|..] == o + p;
  }

  /** Forced draining: after as many calls as requests were held, all of them are on the
      dispatch queue, behind what was there, and nr_sorted is 0. */
  lemma DrainEmpties(c: Tuning, ds: seq<Sched>, ss: seq<Step>, start: nat)
    requires Run(c, ds, ss, start) && forall i :: 0 <= i < |ss| ==> ss[i].op.Send?
    requires |ss| >= Count(ds[0])
    ensures var d, e := ds[0], ds[|ss|];
            && e.rd.fifo == [] && e.wr.fifo == [] && e.rd.sort == [] && e.wr.sort == [] && e.nrSorted == 0
            && d.out <= e.out && multiset(e.out[|d.out|..]) == Held(d)
  {
    hide Next, Enabled, SideGap;
    SendsConserve(c, ds, ss, start);
    ConservedPlain(ds[0], ds[|ss|]);
    RunKeeps(c, ds, ss, start, |ss|);
    Nothing(ds[|ss|], multiset(ds[|ss|].out[|ds[0].out|..]));
    SideFacts(c, ds[|ss|], Time(ss, start, |ss|), {});
    NoneIn(ds[|ss|].rd.sort);
    NoneIn(ds[|ss|].wr.sort);
  }

  lemma Nothing(d: Sched, o: multiset<nat>)
    requires Count(d) == 0
    ensures Held(d) + o == o
  {
    assert d.rd.fifo == [] && d.wr.fifo == [];
  }

  lemma NoneIn(s: seq<nat>)
    ensures (forall x :: x !in s) <==> s == []
  {
    assert s != [] ==> s[0] in s;
  }
}
