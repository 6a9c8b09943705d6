/** In which order the deadline scheduler sends requests: batches go up in sector order, and what
    comes after a request is determined by its position, the batch and the deadlines. */
module DeadlineBatch {
  import opened Lists
  import opened Deadline
  import opened DeadlineRun
  import opened DeadlineExpiry

  /** y is the held request of direction w with the least position above pos, if there is one. */
  ghost predicate NextUp(d: Sched, w: bool, pos: nat, y: Option<nat>) {
    match y
    case None => forall z :: z in d.At(w).fifo ==> z in d.rq && d.rq[z].pos <= pos
    case Some(v) =>
      && v in d.At(w).fifo && v in d.rq && d.rq[v].pos > pos
      && forall z :: z in d.At(w).fifo && z in d.rq && d.rq[z].pos > pos ==> d.rq[v].pos <= d.rq[z].pos
  }

  /** After x is sent, next_rq is the request above it. */
  lemma SentNext(c: Tuning, d: Sched, was: nat, now: nat)
    requires Inv(c, d, was) && was <= now && Ready(d) && Pick(c, d, now).Some?
    ensures var x := Pick(c, d, now).value;
            var e := Dispatch(c, d, now);
            && x in d.rq && e.rq == d.rq && Ready(e)
            && e.At(!d.rq[x].write).next == None && NextUp(e, d.rq[x].write, d.rq[x].pos, e.At(d.rq[x].write).next)
            && e.lastSector == d.rq[x].pos + d.rq[x].sectors
            && e.batching == if Batching(c, d) then d.batching + 1 else 1
  {
    hide SideGap, PosSorted, Move, Pick, NextUp;
    PickHeld(c, d, was, now);
    SideFacts(c, d, was, {});
    DispatchKeeps(c, d, was, now);
    InvReady(c, Dispatch(c, d, now), now, {});
    ChargedFields(c, d);
    MovedNext(Charged(c, d), Pick(c, d, now).value);
  }

  lemma MovedNext(d: Sched, x: nat)
    requires x in d.rq && x in d.At(d.rq[x].write).sort
    requires var s := d.At(d.rq[x].write);
             (forall z :: z in s.sort ==> z in d.rq) && PosSorted(d.rq, s.sort) && forall z :: z in s.sort <==> z in s.fifo
    ensures var e, w := Move(d, x), d.rq[x].write;
            && e.rq == d.rq && e.At(!w).next == None && NextUp(e, w, d.rq[x].pos, e.At(w).next)
            && e.lastSector == d.rq[x].pos + d.rq[x].sectors && e.batching == d.batching
  {
    hide PosSorted, Latter, Without, NextUp;
    var w := d.rq[x].write;
    WithoutCounts(d.At(w).fifo, x);
    AboveGone(d, Move(d, x), w, x);
  }

  lemma AboveGone(d: Sched, e: Sched, w: bool, y: nat)
    requires (forall z :: z in d.At(w).sort ==> z in d.rq && z in e.rq && e.rq[z].pos == d.rq[z].pos)
    requires PosSorted(d.rq, d.At(w).sort) && y in d.At(w).sort && e.At(w).next == Latter(d.At(w).sort, y)
    requires forall z :: z in e.At(w).fifo <==> z in d.At(w).sort && z != y
    ensures NextUp(e, w, d.rq[y].pos, e.At(w).next)
  {
    hide PosSorted, Latter;
    LatterIn(d.rq, d.At(w).sort, y);
    SameOnly(d.rq, d.At(w).sort);
  }

  /** No two held requests of a direction share a position. */
  lemma SameOnly(rq: map<nat, Rq>, sort: seq<nat>)
    requires (forall y :: y in sort ==> y in rq) && PosSorted(rq, sort)
    ensures forall y, z :: y in sort && z in sort && rq[y].pos == rq[z].pos ==> y == z
  {
  }

  /** What a dispatch that follows the sending of x at once sends.  While the batch lasts it is the
      request above x, if there is one.  A new batch is of writes when reads are absent or have
      been preferred often enough.  In the direction of x it goes on above x unless the oldest
      request is overdue; otherwise it starts with the oldest. */
  lemma NextSent(c: Tuning, d: Sched, was: nat, now: nat, later: nat) returns (up: Option<nat>)
    requires Inv(c, d, was) && was <= now && Ready(d) && Pick(c, d, now).Some?
    ensures var x := Pick(c, d, now).value;
            var e := Dispatch(c, d, now);
            && x in d.rq && Ready(e) && NextUp(e, d.rq[x].write, d.rq[x].pos, up)
            && var write := e.wr.fifo != [] && (e.rd.fifo == [] || e.starved >= c.Starve());
               if up.Some? && e.batching < c.batch then Pick(c, e, later) == up
               else if e.At(write).fifo == [] then Pick(c, e, later) == None
               else
                 && e.At(write).fifo[0] in e.rq
                 && Pick(c, e, later) ==
                    if write == d.rq[x].write && up.Some? && later <= e.rq[e.At(write).fifo[0]].time then up
                    else Some(e.At(write).fifo[0])
  {
    hide Inv, Dispatch, NextUp;
    SentNext(c, d, was, now);
    var x := Pick(c, d, now).value;
    up := Dispatch(c, d, now).At(d.rq[x].write).next;
  }

  /** Over every run: of two dispatches in a row, while the batch lasts and a held request of the
      direction lies above the first one sent, the second sends the lowest such. */
  lemma BatchRises(c: Tuning, ds: seq<Sched>, ss: seq<Step>, start: nat, i: nat, z: nat)
    requires Run(c, ds, ss, start) && i + 1 < |ss| && ss[i].op.Send? && ss[i + 1].op.Send?
    requires Ready(ds[i]) && Ready(ds[i + 1]) && Pick(c, ds[i], ss[i].now).Some? && ds[i + 1].batching < c.batch
    requires var x := Pick(c, ds[i], ss[i].now).value;
             x in ds[i].rq && z in ds[i + 1].rq && z in ds[i + 1].At(ds[i].rq[x].write).fifo && ds[i].rq[x].pos < ds[i + 1].rq[z].pos
    ensures var x, y := Pick(c, ds[i], ss[i].now).value, Pick(c, ds[i + 1], ss[i + 1].now);
            && y.Some? && y.value in ds[i + 1].rq && y.value in ds[i + 1].At(ds[i].rq[x].write).fifo
            && ds[i].rq[x].pos < ds[i + 1].rq[y.value].pos <= ds[i + 1].rq[z].pos
  {
    hide Inv, Enabled, Pick, Dispatch;
    RunKeeps(c, ds, ss, start, i);
    assert Time(ss, start, i) <= ss[i].now && ds[i + 1] == Next(c, ds[i], ss[i]);
    var up := NextSent(c, ds[i], Time(ss, start, i), ss[i].now, ss[i + 1].now);
  }

  // ------------------------------------------------------- insertion and merging

  /** The request of direction w at position pos, other than x, has left `fifo` for the end of the
      dispatch queue `out`; if there is none, both are as they were. */
  ghost predicate SentOn(d: Sched, w: bool, x: nat, pos: nat, out: seq<nat>, fifo: seq<nat>) {
    || (exists a ::
          && a in d.At(w).fifo && a != x && a in d.rq && d.rq[a].pos == pos
          && out == d.out + [a] && fifo == Without(d.At(w).fifo, a))
    || (&& (forall a :: a in d.At(w).fifo && a != x ==> a in d.rq && d.rq[a].pos != pos)
        && out == d.out && fifo == d.At(w).fifo)
  }

  lemma ClearedIs(c: Tuning, d: Sched, now: nat, x: nat)
    requires InvGap(c, d, now, {x}) && x in d.rq && Known(d)
    ensures var w := d.rq[x].write;
            var e := Cleared(d, x);
            && SentOn(d, w, x, d.rq[x].pos, e.out, e.At(w).fifo)
            && e.At(!w).fifo == d.At(!w).fifo
  {
    hide SideGap, Alias, Without, Latter;
    SideFacts(c, d, now, {x});
    AliasOnly(d.rq, d.At(d.rq[x].write).sort, d.rq[x].pos);
  }

  /** An inserted request is last on its FIFO with the deadline of its direction; a request at its
      position is sent on first. */
  lemma AddIs(c: Tuning, d: Sched, was: nat, now: nat, x: nat, r: Rq)
    requires Inv(c, d, was) && was <= now && Known(d) && !d.Holds(x)
    ensures var e := Add(c, d, x, r, now);
            var f := e.At(r.write).fifo;
            && f != [] && f[|f| - 1] == x && SentOn(d, r.write, x, r.pos, e.out, f[..|f| - 1])
            && e.At(!r.write).fifo == d.At(!r.write).fifo
            && e.rq == d.rq[x := r.(time := now + if r.write then c.writeExpire else c.readExpire)]
  {
    hide SideGap, Cleared, Place, SentOn;
    SideFacts(c, d, was, {});
    var e := d.(rq := d.rq[x := r.(time := now + c.Expire(r.write))], nrSorted := d.nrSorted + 1);
    SideFrame(c, d.rq, e.rq, d.rd, false, was, now, {});
    SideFrame(c, d.rq, e.rq, d.wr, true, was, now, {});
    NewGap(c, e.rq, d.rd, false, now, x);
    NewGap(c, e.rq, d.wr, true, now, x);
    ClearedIs(c, e, now, x);
    var f := Cleared(e, x).At(r.write).fifo;
    SentOnSame(e, d, r.write, x, r.pos, Cleared(e, x).out, f);
    assert (f + [x])[..|f|] == f;
  }

  lemma SentOnSame(d: Sched, e: Sched, w: bool, x: nat, pos: nat, out: seq<nat>, fifo: seq<nat>)
    requires SentOn(d, w, x, pos, out, fifo) && d.At(w).fifo == e.At(w).fifo && d.out == e.out
    requires forall a :: a in d.At(w).fifo && a != x && a in d.rq ==> a in e.rq && e.rq[a].pos == d.rq[a].pos
    ensures SentOn(e, w, x, pos, out, fifo)
  {
    hide Without;
  }

  /** A request that grows in front ends where it did, keeps its deadline and its place on the FIFO;
      a request at its new position is sent on first. */
  lemma FrontIs(c: Tuning, d: Sched, now: nat, x: nat, len: nat)
    requires Inv(c, d, now) && Known(d) && d.Holds(x) && x in d.rq && len <= d.rq[x].pos
    ensures var e := FrontMerged(d, x, len);
            var w := d.rq[x].write;
            && SentOn(d, w, x, d.rq[x].pos - len, e.out, e.At(w).fifo) && e.At(!w).fifo == d.At(!w).fifo
            && x in e.rq && e.rq == d.rq[x := e.rq[x]] && e.rq[x].pos == d.rq[x].pos - len
            && e.rq[x].pos + e.rq[x].sectors == d.rq[x].pos + d.rq[x].sectors && e.rq[x].time == d.rq[x].time
  {
    hide SideGap, Cleared, Place, SentOn, Without;
    SideFacts(c, d, now, {});
    var r := d.rq[x];
    var s := d.At(r.write);
    var rq' := d.rq[x := r.(pos := r.pos - len, sectors := r.sectors + len)];
    WithoutCounts(s.sort, x);
    var e := d.With(r.write, s.(sort := Without(s.sort, x))).(rq := rq');
    GapSide(c, d.rq, rq', s, r.write, now, x);
    GapOther(c, d.rq, rq', d.At(!r.write), !r.write, now, x);
    ClearedIs(c, e, now, x);
    SentOnSame(e, d, r.write, x, r.pos - len, Cleared(e, x).out, Cleared(e, x).At(r.write).fifo);
  }

  /** Merging y into x: x has the sectors of both and the earlier of the two deadlines, y is gone,
      the others keep their order, and next_rq moves only off y, to the request above it. */
  lemma JoinIs(c: Tuning, d: Sched, now: nat, x: nat, y: nat)
    requires Inv(c, d, now) && d.Holds(x) && d.Holds(y) && x != y
    requires x in d.rq && y in d.rq && d.rq[x].write == d.rq[y].write
    ensures var e := MergedRequests(d, x, y);
            var w := d.rq[x].write;
            var r, n := d.rq[x], d.rq[y];
            && e.rq == d.rq[x := Rq(r.pos, r.sectors + n.sectors, w, if n.time < r.time then n.time else r.time)]
            && Without(e.At(w).fifo, x) == Without(Without(d.At(w).fifo, x), y)
            && x in e.At(w).fifo && y !in e.At(w).fifo && e.At(!w) == d.At(!w) && e.out == d.out
            && if d.At(w).next == Some(y) then NextUp(e, w, n.pos, e.At(w).next) else e.At(w).next == d.At(w).next
  {
    hide SideGap, Without, InPlaceOf, Latter, NextUp, PosSorted, MergedRequests;
    SideFacts(c, d, now, {});
    JoinFields(d, x, y);
    var w := d.rq[x].write;
    JoinFifo(d.At(w).fifo, x, y, d.rq[y].time < d.rq[x].time);
    if d.At(w).next == Some(y) {
      AboveGone(d, MergedRequests(d, x, y), w, y);
    }
  }

  lemma JoinFields(d: Sched, x: nat, y: nat)
    requires x in d.rq && y in d.rq && d.rq[x].write == d.rq[y].write && x != y
    ensures var e := MergedRequests(d, x, y);
            var r, n := d.rq[x], d.rq[y];
            var w := r.write;
            && e.rq == d.rq[x := Rq(r.pos, r.sectors + n.sectors, w, if n.time < r.time then n.time else r.time)]
            && e.At(w).fifo == Without(if n.time < r.time then InPlaceOf(Without(d.At(w).fifo, x), y, x) else d.At(w).fifo, y)
            && e.At(w).next == (if d.At(w).next == Some(y) then Latter(d.At(w).sort, y) else d.At(w).next)
            && e.At(!w) == d.At(!w) && e.out == d.out
  {
    hide Without, InPlaceOf, Latter;
  }

  lemma JoinFifo(fifo: seq<nat>, x: nat, y: nat, earlier: bool)
    requires x in fifo && y in fifo && x != y
    ensures var f := Without(if earlier then InPlaceOf(Without(fifo, x), y, x) else fifo, y);
            && Without(f, x) == Without(Without(fifo, x), y)
            && forall z :: z in f <==> z in fifo && z != y
  {
    hide Without, InPlaceOf;
    var u := Without(fifo, x);
    WithoutCounts(fifo, x);
    WithoutCounts(fifo, y);
    if earlier {
      var t := InPlaceOf(u, y, x);
      InPlaceOfIs(u, y, x);
      InPlaceWithout(u, y, x);
      WithoutCounts(t, y);
      forall z ensures z in t <==> z in fifo && z != y {
        InPlaceIn(u, y, x, z);
      }
    } else {
      WithoutSwap(fifo, x, y);
    }
  }

  lemma {:induction false} InPlaceIn(u: seq<nat>, y: nat, x: nat, z: nat)
    requires x != y
    ensures z in InPlaceOf(u, y, x) <==> (z in u && z != y) || (z == x && y in u)
  {
    if u != [] {
      InPlaceIn(u[1..], y, x, z);
      assert u == [u[0]] + u[1..];
    }
  }

  lemma {:induction false} WithoutSwap(s: seq<nat>, x: nat, y: nat)
    ensures Without(Without(s, x), y) == Without(Without(s, y), x)
  {
    if s != [] {
      WithoutSwap(s[1..], x, y);
    }
  }

  lemma {:induction false} InPlaceWithout(u: seq<nat>, y: nat, x: nat)
    requires x !in u
    ensures Without(InPlaceOf(u, y, x), x) == Without(u, y)
  {
    if u != [] {
      InPlaceWithout(u[1..], y, x);
    }
  }
}
