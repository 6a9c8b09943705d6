/** What the deadlines of the deadline scheduler are worth: an expired request at the head of
    its FIFO is sent on within a number of dispatches that depends on the tunables only. */
module DeadlineExpiry {
  import opened Lists
  import opened Deadline
  import opened DeadlineRun

  /** x is the oldest of direction w and its time is past. */
  ghost predicate Overdue(d: Sched, w: bool, x: nat, now: nat) {
    d.At(w).fifo != [] && d.At(w).fifo[0] == x && x in d.rq && d.rq[x].time < now
  }

  lemma WithoutHead(s: seq<nat>, a: nat)
    requires s != [] && s[0] != a
    ensures Without(s, a) != [] && Without(s, a)[0] == s[0]
  {
  }

  lemma MoveHead(d: Sched, a: nat, w: bool, x: nat)
    requires a in d.rq && a != x && d.At(w).fifo != [] && d.At(w).fifo[0] == x
    ensures Move(d, a).At(w).fifo != [] && Move(d, a).At(w).fifo[0] == x && Move(d, a).rq == d.rq
  {
    hide Without, Latter;
    WithoutHead(d.At(w).fifo, a);
  }

  lemma ClearedHead(c: Tuning, d: Sched, now: nat, y: nat, w: bool, x: nat)
    requires InvGap(c, d, now, {y}) && y in d.rq && Known(d) && d.At(w).fifo != [] && d.At(w).fifo[0] == x
    ensures var e := Cleared(d, y);
            x in e.At(w).fifo ==> e.At(w).fifo != [] && e.At(w).fifo[0] == x
  {
    hide Without, Latter, Move, SideGap, Alias;
    var o := Alias(d.rq, d.At(d.rq[y].write).sort, d.rq[y].pos);
    if o.Some? {
      SideFacts(c, d, now, {y});
      AliasOnly(d.rq, d.At(d.rq[y].write).sort, d.rq[y].pos);
      if o.value == x {
        GoneFromFifo(d, x);
      } else {
        MoveHead(d, o.value, w, x);
      }
    }
  }

  lemma GoneFromFifo(d: Sched, x: nat)
    requires x in d.rq
    ensures x !in Move(d, x).At(d.rq[x].write).fifo
    ensures forall w :: w != d.rq[x].write ==> Move(d, x).At(w).fifo == d.At(w).fifo
  {
    hide Latter, Without;
    WithoutCounts(d.At(d.rq[x].write).fifo, x);
  }

  /** The oldest request stays the oldest while it is held, and its time never grows. */
  lemma HeadStays(c: Tuning, d: Sched, s: Step, was: nat, w: bool, x: nat)
    requires Inv(c, d, was) && was <= s.now && Ready(d) && Enabled(d, s.op)
    requires d.At(w).fifo != [] && d.At(w).fifo[0] == x && x in d.rq
    requires x in Next(c, d, s).At(w).fifo
    ensures var e := Next(c, d, s);
            e.At(w).fifo[0] == x && x in e.rq && e.rq[x].time <= d.rq[x].time
  {
    hide Inv, Add, FrontMerged, MergedRequests, Dispatch;
    match s.op
    case Insert(y, r) => InsertHead(c, d, was, s.now, y, r, w, x);
    case Back(y, len) =>
    case Front(y, len) => FrontHead(c, d, was, y, len, w, x);
    case Join(y, z) => JoinHead(c, d, was, y, z, w, x);
    case Send => SendHead(c, d, was, s.now, w, x);
  }

  lemma InsertHead(c: Tuning, d: Sched, was: nat, now: nat, y: nat, r: Rq, w: bool, x: nat)
    requires Inv(c, d, was) && was <= now && Known(d) && !d.Holds(y)
    requires d.At(w).fifo != [] && d.At(w).fifo[0] == x && x in d.rq
    requires x in Add(c, d, y, r, now).At(w).fifo
    ensures var e := Add(c, d, y, r, now); e.At(w).fifo[0] == x && x in e.rq && e.rq[x] == d.rq[x]
  {
    hide SideGap, Cleared, Place;
    SideFacts(c, d, was, {});
    var q := r.(time := now + c.Expire(r.write));
    var e := d.(rq := d.rq[y := q], nrSorted := d.nrSorted + 1);
    SideFrame(c, d.rq, e.rq, d.rd, false, was, now, {});
    SideFrame(c, d.rq, e.rq, d.wr, true, was, now, {});
    NewGap(c, e.rq, d.rd, false, now, y);
    NewGap(c, e.rq, d.wr, true, now, y);
    ClearedHead(c, e, now, y, w, x);
  }

  lemma FrontHead(c: Tuning, d: Sched, now: nat, y: nat, len: nat, w: bool, x: nat)
    requires Inv(c, d, now) && d.Holds(y) && y in d.rq && Known(d) && len <= d.rq[y].pos
    requires d.At(w).fifo != [] && d.At(w).fifo[0] == x && x in d.rq
    requires x in FrontMerged(d, y, len).At(w).fifo
    ensures var e := FrontMerged(d, y, len); e.At(w).fifo[0] == x && x in e.rq && e.rq[x].time == d.rq[x].time
  {
    hide SideGap, Cleared, Place, Without;
    SideFacts(c, d, now, {});
    var r := d.rq[y];
    var s := d.At(r.write);
    var rq' := d.rq[y := r.(pos := r.pos - len, sectors := r.sectors + len)];
    WithoutCounts(s.sort, y);
    var e := d.With(r.write, s.(sort := Without(s.sort, y))).(rq := rq');
    GapSide(c, d.rq, rq', s, r.write, now, y);
    GapOther(c, d.rq, rq', d.At(!r.write), !r.write, now, y);
    ClearedHead(c, e, now, y, w, x);
  }

  lemma JoinHead(c: Tuning, d: Sched, now: nat, y: nat, z: nat, w: bool, x: nat)
    requires Inv(c, d, now) && d.Holds(y) && d.Holds(z) && y != z && y in d.rq && z in d.rq && d.rq[y].write == d.rq[z].write
    requires d.At(w).fifo != [] && d.At(w).fifo[0] == x && x in d.rq
    requires x in MergedRequests(d, y, z).At(w).fifo
    ensures var e := MergedRequests(d, y, z); e.At(w).fifo[0] == x && x in e.rq && e.rq[x].time <= d.rq[x].time
  {
    hide Without, Latter, InPlaceOf, SideGap;
    SideFacts(c, d, now, {});
    var s := d.At(w);
    if d.rq[y].write == w {
      OldestFirst(c, d, now, w, z);
      var f := if d.rq[z].time < d.rq[y].time then InPlaceOf(Without(s.fifo, y), z, y) else s.fifo;
      WithoutCounts(f, z);
      assert x != z;
      if d.rq[z].time < d.rq[y].time {
        assert x != y;
        WithoutHead(s.fifo, y);
        InPlaceOfIs(Without(s.fifo, y), z, y);
      }
      WithoutHead(f, z);
    }
  }

  lemma OldestFirst(c: Tuning, d: Sched, now: nat, w: bool, z: nat)
    requires Inv(c, d, now) && z in d.At(w).fifo
    ensures d.At(w).fifo[0] in d.rq && z in d.rq && d.rq[d.At(w).fifo[0]].time <= d.rq[z].time
  {
  }

  lemma SendHead(c: Tuning, d: Sched, was: nat, now: nat, w: bool, x: nat)
    requires Inv(c, d, was) && was <= now && Ready(d)
    requires d.At(w).fifo != [] && d.At(w).fifo[0] == x && x in d.rq
    requires x in Dispatch(c, d, now).At(w).fifo
    ensures var e := Dispatch(c, d, now); e.At(w).fifo[0] == x && x in e.rq && e.rq[x] == d.rq[x]
    ensures Pick(c, d, now) != Some(x)
  {
    hide SideGap, Move, Pick;
    PickHeld(c, d, was, now);
    SideFacts(c, d, was, {});
    var p := Pick(c, d, now);
    if p.Some? {
      if p.value == x {
        GoneFromFifo(Charged(c, d), x);
      } else {
        MoveHead(Charged(c, d), p.value, w, x);
      }
    }
  }

  // -------------------------------------------------------------------- the bounds

  /** Dispatches that can still pass over an overdue read. */
  function ReadCredit(c: Tuning, d: Sched): nat {
    (if d.starved >= c.Starve() then Longest(c) else 0) + (if d.batching < c.batch then c.batch - d.batching else 0)
  }

  /** Dispatches that can still pass over an overdue request of direction w. */
  function Patience(c: Tuning, d: Sched, w: bool): nat
    requires d.starved <= c.Starve()
  {
    if w then Credit(c, d) else ReadCredit(c, d)
  }

  /** The number of dispatches that can pass over an overdue request. */
  function Limit(c: Tuning, w: bool): nat {
    if w then (c.Starve() + 1) * Longest(c) else 2 * Longest(c)
  }

  /** Passing over an overdue write, or an overdue read when writes_starved is not 0, costs. */
  lemma PassCosts(c: Tuning, d: Sched, was: nat, now: nat, w: bool, x: nat)
    requires Inv(c, d, was) && was <= now && Ready(d) && Overdue(d, w, x, now)
    requires w || c.Starve() > 0
    requires Pick(c, d, now) != Some(x)
    ensures d.starved <= c.Starve() && Dispatch(c, d, now).starved <= c.Starve()
    ensures Patience(c, Dispatch(c, d, now), w) < Patience(c, d, w)
  {
    hide SideGap, Move, Latter;
    DispatchKeeps(c, d, was, now);
    PickHeld(c, d, was, now);
    MoveCounters(Charged(c, d), Pick(c, d, now).value);
    if !Batching(c, d) && w {
      MulStep(c.Starve() - d.starved, Longest(c));
    }
  }

  lemma PatienceBound(c: Tuning, d: Sched, now: nat, w: bool)
    requires Inv(c, d, now)
    ensures d.starved <= c.Starve() && Patience(c, d, w) <= Limit(c, w)
  {
    CreditBound(c, d, now);
  }

  lemma StepPatience(c: Tuning, d: Sched, s: Step, was: nat, w: bool, x: nat)
    requires Inv(c, d, was) && was <= s.now && Ready(d) && Enabled(d, s.op)
    requires d.At(w).fifo != [] && d.At(w).fifo[0] == x && x in d.rq && (w || c.Starve() > 0)
    requires s.op.Send? ==> d.rq[x].time < s.now
    requires x in Next(c, d, s).At(w).fifo
    ensures d.starved <= c.Starve() && Next(c, d, s).starved <= c.Starve()
    ensures Patience(c, Next(c, d, s), w) + (if s.op.Send? then 1 else 0) <= Patience(c, d, w)
  {
    hide SideGap, Dispatch, Add, FrontMerged, MergedRequests, BackMerged, Longest, Pick;
    if s.op.Send? {
      SendHead(c, d, was, s.now, w, x);
      PassCosts(c, d, was, s.now, w, x);
    } else {
      Reading(c, d, was);
      OthersFree(c, d, s);
    }
  }

  /** A run in which x, the oldest of direction w at the start, is overdue at every dispatch and
      is sent on by none of them. */
  ghost predicate PassedOver(c: Tuning, ds: seq<Sched>, ss: seq<Step>, start: nat, w: bool, x: nat) {
    && Run(c, ds, ss, start)
    && ds[0].At(w).fifo != [] && ds[0].At(w).fifo[0] == x && x in ds[0].rq
    && (forall i :: 0 <= i < |ss| && ss[i].op.Send? ==> ds[0].rq[x].time < ss[i].now)
    && (forall i :: 0 <= i <= |ss| ==> x in ds[i].At(w).fifo)
  }

  lemma {:induction false} PatienceSpent(c: Tuning, ds: seq<Sched>, ss: seq<Step>, start: nat, w: bool, x: nat)
    requires PassedOver(c, ds, ss, start, w, x) && (w || c.Starve() > 0)
    ensures var d, e := ds[0], ds[|ss|];
            && e.At(w).fifo[0] == x && x in e.rq && e.rq[x].time <= d.rq[x].time
            && d.starved <= c.Starve() && e.starved <= c.Starve()
            && Sends(ss) + Patience(c, e, w) <= Patience(c, d, w)
    decreases |ss|
  {
    hide Inv, Next, Enabled, Patience, Ready, Tuning.Starve;
    RunKeeps(c, ds, ss, start, 0);
    PatienceBound(c, ds[0], start, w);
    if ss != [] {
      var m := |ss| - 1;
      PatienceSpent(c, ds[..|ds| - 1], ss[..m], start, w, x);
      RunKeeps(c, ds, ss, start, m);
      assert x in ds[m + 1].At(w).fifo && Ready(ds[m]) && Enabled(ds[m], ss[m].op) && ds[m + 1] == Next(c, ds[m], ss[m]);
      HeadStays(c, ds[m], ss[m], Time(ss, start, m), w, x);
      StepPatience(c, ds[m], ss[m], Time(ss, start, m), w, x);
    }
  }

  /** An overdue write at the head of its FIFO is passed over by at most
      (writes_starved + 1) * max(1, fifo_batch) dispatches, an overdue read by at most
      2 * max(1, fifo_batch) unless writes_starved is 0, whatever else happens meanwhile. */
  lemma OverdueLeaves(c: Tuning, ds: seq<Sched>, ss: seq<Step>, start: nat, w: bool, x: nat)
    requires PassedOver(c, ds, ss, start, w, x) && (w || c.Starve() > 0)
    ensures Sends(ss) <= Limit(c, w)
  {
    hide Inv, Next, Enabled, Patience, Limit;
    PatienceSpent(c, ds, ss, start, w, x);
    RunKeeps(c, ds, ss, start, 0);
    PatienceBound(c, ds[0], start, w);
  }

  // ------------------------------------------------------------ when there is no bound

  ghost predicate Within(c: Tuning, w: bool, b: nat) {
    forall ds, ss, start, x :: PassedOver(c, ds, ss, start, w, x) ==> Sends(ss) <= b
  }

  /** An overdue request at the head of its FIFO waits for a bounded number of dispatches if and
      only if it is a write or writes_starved is not 0. */
  lemma OverdueBoundedIff(c: Tuning, w: bool)
    ensures (exists b: nat :: Within(c, w, b)) <==> w || c.Starve() > 0
  {
    hide PassedOver, Tuning.Starve, Limit, Sends;
    if w || c.Starve() > 0 {
      forall ds, ss, start, x | PassedOver(c, ds, ss, start, w, x) ensures Sends(ss) <= Limit(c, w) {
        OverdueLeaves(c, ds, ss, start, w, x);
      }
      assert Within(c, w, Limit(c, w));
    } else {
      forall b: nat ensures !Within(c, w, b) {
        var ds := ReadWaits(c, b + 1);
        RoundSends(c, b + 1);
        assert PassedOver(c, ds, Rounds(c, b + 1), 0, w, 0);
      }
    }
  }

  const READ := Rq(0, 8, false, 0)
  const WRITE := Rq(8, 8, true, 0)

  /** Read 0 was inserted at time 0 and is all that is held. */
  ghost predicate OnlyRead(c: Tuning, d: Sched) {
    && d.rd == Side([0], [0], None) && d.wr == Side([], [], None) && d.starved == 0
    && 0 in d.rq && !d.rq[0].write && d.rq[0].time == c.readExpire
  }

  /** Write 1 arrives and a request is dispatched, n times, when read 0 is overdue. */
  function Rounds(c: Tuning, n: nat): (ss: seq<Step>)
    ensures |ss| == 2 * n && forall i :: 0 <= i < |ss| ==> ss[i].now == c.readExpire + 1
  {
    if n == 0 then []
    else Rounds(c, n - 1) + [Step(Insert(1, WRITE), c.readExpire + 1), Step(Send, c.readExpire + 1)]
  }

  lemma {:induction false} RoundSends(c: Tuning, n: nat)
    ensures Sends(Rounds(c, n)) == n
  {
    if n > 0 {
      RoundSends(c, n - 1);
      var ss, a, b := Rounds(c, n - 1), Step(Insert(1, WRITE), c.readExpire + 1), Step(Send, c.readExpire + 1);
      assert (ss + [a, b])[..|ss| + 1] == ss + [a] && (ss + [a])[..|ss|] == ss;
    }
  }

  lemma FirstRead(c: Tuning)
    ensures Known(EMPTY) && Inv(c, Add(c, EMPTY, 0, READ, 0), 0) && OnlyRead(c, Add(c, EMPTY, 0, READ, 0))
  {
    AddKeeps(c, EMPTY, 0, 0, 0, READ);
  }

  /** With writes_starved 0 the write is sent on and the read stays. */
  lemma WriteFirst(c: Tuning, d: Sched, now: nat)
    requires c.Starve() == 0 && OnlyRead(c, d)
    ensures Ready(d) && !d.Holds(1)
    ensures var e := Add(c, d, 1, WRITE, now);
            Ready(e) && e.rd.fifo == [0] && OnlyRead(c, Dispatch(c, e, now))
  {
    var e := Add(c, d, 1, WRITE, now);
    assert e.wr == Side([1], [1], None) && 1 in e.rq && e.rq[1].write;
    assert Without([1], 1) == [] && Latter([1], 1) == None;
    assert Pick(c, e, now) == Some(1);
  }

  lemma RunMore(c: Tuning, ds: seq<Sched>, ss: seq<Step>, start: nat, s: Step, e: Sched)
    requires Run(c, ds, ss, start) && Time(ss, start, |ss|) <= s.now
    requires Ready(ds[|ss|]) && Enabled(ds[|ss|], s.op) && e == Next(c, ds[|ss|], s)
    ensures Run(c, ds + [e], ss + [s], start)
  {
    hide Inv, Next, Enabled, Ready;
    var es, ts := ds + [e], ss + [s];
    forall i | 0 <= i < |ts|
      ensures Time(ts, start, i) <= ts[i].now
      ensures Ready(es[i]) && Enabled(es[i], ts[i].op) && es[i + 1] == Next(c, es[i], ts[i])
    {
      if i < |ss| {
        assert es[i] == ds[i] && es[i + 1] == ds[i + 1] && ts[i] == ss[i] && Time(ts, start, i) == Time(ss, start, i);
      }
    }
  }

  lemma PassedMore(c: Tuning, ds: seq<Sched>, ss: seq<Step>, start: nat, w: bool, x: nat, s: Step, e: Sched)
    requires PassedOver(c, ds, ss, start, w, x) && Time(ss, start, |ss|) <= s.now && ds[0].rq[x].time < s.now
    requires Ready(ds[|ss|]) && Enabled(ds[|ss|], s.op) && e == Next(c, ds[|ss|], s) && x in e.At(w).fifo
    ensures PassedOver(c, ds + [e], ss + [s], start, w, x)
  {
    RunMore(c, ds, ss, start, s, e);
    hide Inv, Next, Enabled, Ready, Time;
  }

  lemma {:induction false} ReadWaits(c: Tuning, n: nat) returns (ds: seq<Sched>)
    requires c.Starve() == 0
    ensures PassedOver(c, ds, Rounds(c, n), 0, false, 0) && |ds| == 2 * n + 1 && OnlyRead(c, ds[2 * n]) && OnlyRead(c, ds[0])
  {
    hide Inv, Add, Dispatch, Tuning.Starve, Ready, PassedOver;
    FirstRead(c);
    if n == 0 {
      ds := [Add(c, EMPTY, 0, READ, 0)];
      FirstPassed(c, ds[0]);
    } else {
      ds := ReadWaits(c, n - 1);
      assert PassedOver(c, ds, Rounds(c, n - 1), 0, false, 0);
      var d, ss, now := ds[2 * n - 2], Rounds(c, n - 1), c.readExpire + 1;
      WriteFirst(c, d, now);
      var a, b := Step(Insert(1, WRITE), now), Step(Send, now);
      var e := Next(c, d, a);
      PassedMore(c, ds, ss, 0, false, 0, a, e);
      PassedMore(c, ds + [e], ss + [a], 0, false, 0, b, Next(c, e, b));
      assert ss + [a] + [b] == Rounds(c, n);
      ds := ds + [e] + [Next(c, e, b)];
    }
  }

  lemma FirstPassed(c: Tuning, d: Sched)
    requires Inv(c, d, 0) && OnlyRead(c, d)
    ensures PassedOver(c, [d], [], 0, false, 0)
  {
    hide Inv;
  }

  /** With writes_starved 0 no new batch is one of reads while a write waits, however overdue
      the reads are; with any other value one of two batches in a row is. */
  lemma ReadsWaitIff(c: Tuning, d: Sched, was: nat, now: nat)
    requires Inv(c, d, was) && was <= now && Ready(d)
    requires d.rd.fifo != [] && d.wr.fifo != [] && !Batching(c, d) && d.starved >= c.Starve()
    ensures Ready(Dispatch(c, d, now)) && !PicksRead(c, d, now)
    ensures var e := Dispatch(c, d, now);
            e.rd.fifo != [] && (e.wr.fifo != [] ==> (PickWrite(c, e) <==> c.Starve() == 0))
  {
    hide SideGap, Move, Latter;
    WriteBatch(c, d, was, now);
    DispatchKeeps(c, d, was, now);
    InvReady(c, Dispatch(c, d, now), now, {});
    PickHeld(c, d, was, now);
    SideFacts(c, d, was, {});
    MoveCounters(Charged(c, d), Pick(c, d, now).value);
    GoneFromFifo(Charged(c, d), Pick(c, d, now).value);
    assert Dispatch(c, d, now).At(false).fifo == d.At(false).fifo;
  }
}
