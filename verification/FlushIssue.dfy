/** When the sequencer issues a flush, and what that does to the dispatch queue: conditions C1,
    C2 and C3 of block/blk-flush.c, for one step and over whole runs. */
module FlushIssue {
  import opened Flush
  import opened FlushRun
  import opened Lists

  /** The requests waiting for the next flush. */
  function Waiting(q: FlushQ): seq<nat> {
    q.At(q.pending)
  }

  // ---------------------------------------------------------------------- one step

  /** Completing a step issues a flush exactly when none is in progress (C1), a request waits,
      and no data of a sequence is being executed (C2) or the waiters are 5 * HZ old (C3).  The
      age counts from the step that found nobody waiting. */
  lemma IssuedIff(q: FlushQ, id: nat, steps: Steps, ok: bool, c: Clock)
    requires id in q.done
    ensures var k := CompleteSeq(q, id, steps, ok, c);
            var next := if ok then CurSeq(q.done[id].Or(steps)) else Done;
            && k.running == q.running
            && (k.pending != q.pending <==>
                  && q.pending == q.running && k.At(q.pending) != []
                  && (k.inFlight == [] || k.since + 5 * c.hz <= c.jiffies))
            && k.since == (if next in {Pre, Post} && Waiting(q) == [] then c.jiffies else q.since)
            && k.head == (if next == Data then [DataItem(id)] else []) + q.head + (if k.pending != q.pending then [FlushItem] else [])
  {
    hide Without, CurSeq, Steps.Or;
    AdvanceFields(q, id, steps, ok, c);
    AdvanceSince(q, id, steps, ok, c);
    hide Advance;
    var a := Advance(q, id, steps, ok, c);
    assert a.head + [] == a.head;
  }

  lemma AdvanceSince(q: FlushQ, id: nat, steps: Steps, ok: bool, c: Clock)
    requires id in q.done
    ensures var next := if ok then CurSeq(q.done[id].Or(steps)) else Done;
            Advance(q, id, steps, ok, c).since == if next in {Pre, Post} && Waiting(q) == [] then c.jiffies else q.since
  {
    hide Without, CurSeq, Steps.Or;
  }

  /** The request goes last on the list its next step asks for, and off the others. */
  lemma MovedLast(q: FlushQ, id: nat, steps: Steps, ok: bool, c: Clock)
    requires id in q.done
    ensures var k := CompleteSeq(q, id, steps, ok, c);
            var next := if ok then CurSeq(q.done[id].Or(steps)) else Done;
            && k.At(q.pending) == Without(q.At(q.pending), id) + (if next in {Pre, Post} then [id] else [])
            && k.At(!q.pending) == Without(q.At(!q.pending), id)
            && k.inFlight == Without(q.inFlight, id) + (if next == Data then [id] else [])
            && k.ended == q.ended + (if next == Done then [(id, ok)] else [])
  {
    hide Without, CurSeq, Steps.Or;
  }

  // ------------------------------------------------------- the loop of flush_end_io

  /** The age during the walk, which began with `empty` telling whether nobody waited and `since`
      the age then. */
  predicate Aged(q: FlushQ, r: bool, empty: bool, since: nat, c: Clock) {
    if q.pending != r && Waiting(q) == [] then empty && q.since == since
    else q.since == if empty then c.jiffies else since
  }

  /** What was on the dispatch queue stays there in order, with data of sequences in front and a
      flush behind. */
  ghost predicate Wraps(before: seq<Item>, after: seq<Item>) {
    exists front: seq<Item>, back: seq<Item> ::
      && after == front + before + back
      && (forall x :: x in front ==> x.DataItem?) && (forall x :: x in back ==> x == FlushItem)
  }

  lemma WrapsStep(h: seq<Item>, id: nat, data: bool, issued: bool)
    ensures Wraps(h, (if data then [DataItem(id)] else []) + h + (if issued then [FlushItem] else []))
  {
  }

  lemma WrapsTwice(a: seq<Item>, b: seq<Item>, c: seq<Item>)
    requires Wraps(a, b) && Wraps(b, c)
    ensures Wraps(a, c)
  {
    var f, k :| b == f + a + k && (forall x :: x in f ==> x.DataItem?) && (forall x :: x in k ==> x == FlushItem);
    var g, l :| c == g + b + l && (forall x :: x in g ==> x.DataItem?) && (forall x :: x in l ==> x == FlushItem);
    assert c == (g + f) + a + (k + l);
  }

  lemma DrainOneIssues(q: FlushQ, r: bool, ok: bool, c: Clock, empty: bool, since: nat)
    requires Draining(q, r) && q.At(r) != [] && Aged(q, r, empty, since, c)
    ensures var q' := DrainOne(q, r, ok, c);
            && Aged(q', r, empty, since, c) && Wraps(q.head, q'.head)
            && (q.inFlight != [] ==> q'.inFlight != [])
            && (q.pending != r && Waiting(q) != [] ==> q'.At(q.pending) != [])
            && (q'.pending != q.pending <==>
                  && q.pending != r && q'.At(q.pending) != []
                  && (q'.inFlight == [] || q'.since + 5 * c.hz <= c.jiffies))
  {
    hide Owned, OwnedBut, Advance, Kick, CurSeq, Wraps;
    HeadOfList(q, r);
    var id := q.At(r)[0];
    var steps := Bit(CurSeq(q.done[id]));
    IssuedIff(q, id, steps, ok, c);
    AdvanceFields(q, id, steps, ok, c);
    KickIs(Advance(q, id, steps, ok, c), c);
    WithoutCounts(q.At(!r), id);
    WithoutCounts(q.inFlight, id);
    var next := if ok then CurSeq(q.done[id].Or(steps)) else Done;
    WrapsStep(q.head, id, next == Data, DrainOne(q, r, ok, c).pending != q.pending);
  }

  /** The whole walk: if it issued no flush, none was due at its end; if data was being executed
      when it began, it issued one exactly when the waiters were old enough. */
  lemma {:induction false} DrainIssues(q: FlushQ, r: bool, ok: bool, c: Clock, empty: bool, since: nat)
    requires Draining(q, r) && q.At(r) != [] && Aged(q, r, empty, since, c)
    ensures var q' := Drain(q, r, ok, c);
            && Aged(q', r, empty, since, c) && Wraps(q.head, q'.head)
            && (q'.pending == r || q'.pending == q.pending)
            && (q.pending == r ==> q'.pending == r)
            && (q.inFlight != [] ==> q'.inFlight != [])
            && (q'.pending != r ==> !(q'.At(!r) != [] && (q'.inFlight == [] || q'.since + 5 * c.hz <= c.jiffies)))
            && (q.pending != r && q'.pending == r ==> q'.At(!r) != [])
            && (q.pending != r && q.inFlight != [] && q'.pending == r ==> q'.since + 5 * c.hz <= c.jiffies)
    decreases Work(q.At(r), q.done)
  {
    hide Owned, DrainOne, Wraps, Work;
    DrainOneKeeps(q, r, ok, c);
    DrainOneWorks(q, r, ok, c);
    DrainOneList(q, r, ok, c);
    DrainOneIssues(q, r, ok, c, empty, since);
    var q1 := DrainOne(q, r, ok, c);
    if |q.At(r)| > 1 {
      DrainIssues(q1, r, ok, c, empty, since);
      WrapsTwice(q.head, q1.head, Drain(q, r, ok, c).head);
      OtherStays(q1, r, ok, c);
    }
  }

  /** Once issued, the walk leaves the list of the new flush alone. */
  lemma {:induction false} OtherStays(q: FlushQ, r: bool, ok: bool, c: Clock)
    requires Draining(q, r)
    ensures q.pending == r ==> Drain(q, r, ok, c).At(!r) == q.At(!r) && Drain(q, r, ok, c).since == q.since
    decreases Work(q.At(r), q.done)
  {
    hide Owned, DrainOne, Work;
    if q.At(r) != [] {
      DrainOneKeeps(q, r, ok, c);
      DrainOneWorks(q, r, ok, c);
      DrainOneList(q, r, ok, c);
      OneStays(q, r, ok, c);
      if |q.At(r)| > 1 {
        OtherStays(DrainOne(q, r, ok, c), r, ok, c);
      }
    }
  }

  lemma OneStays(q: FlushQ, r: bool, ok: bool, c: Clock)
    requires Draining(q, r) && q.At(r) != []
    ensures q.pending == r ==> DrainOne(q, r, ok, c).At(!r) == q.At(!r) && DrainOne(q, r, ok, c).since == q.since
  {
    hide Owned, OwnedBut, Advance, Kick, CurSeq;
    HeadOfList(q, r);
    var id := q.At(r)[0];
    var steps := Bit(CurSeq(q.done[id]));
    IssuedIff(q, id, steps, ok, c);
    AdvanceFields(q, id, steps, ok, c);
    KickIs(Advance(q, id, steps, ok, c), c);
    WithoutCounts(q.At(!r), id);
  }

  // ------------------------------------------------------------------------- runs

  /** Events that can make a request wait or issue a flush, with the time they happen at. */
  predicate Clocked(e: Event) {
    e.Insert? || e.DataEnd? || e.FlushEnd?
  }

  /** An insertion that bypasses the sequencer: data, and no flush needed for it. */
  predicate Direct(e: Event) {
    e.Insert? && e.dev.flush && e.rq.hasData && !e.rq.flush && (!e.rq.fua || e.dev.fua)
  }

  lemma DataIssues(m: Machine, e: Event)
    requires Inv(m) && Enabled(m, e) && e.DataEnd?
    ensures var q, q' := m.q, Next(m, e).q;
            && (Waiting(q') != [] ==> q'.since == if Waiting(q) == [] then e.c.jiffies else q.since)
            && (q'.At(q.pending) != [] ==> q'.since == if Waiting(q) == [] then e.c.jiffies else q.since)
            && (q'.pending != q.pending <==> q.pending == q.running && q'.At(q.pending) != []
                                             && (q'.inFlight == [] || q'.since + 5 * e.c.hz <= e.c.jiffies))
            && Wraps(q.head, q'.head)
  {
    hide Placed, Safe, Logged, Covers, OwnedBut, Owned, Advance, Kick, Wraps, CurSeq, Steps.Or, ToMedia;
    var id := e.id;
    FetchedData(m, id);
    StepIssues(m.q, id, Bit(Data), e.ok, e.c);
  }

  /** Of a settled queue, by a request on neither waiting list. */
  lemma StepIssues(q: FlushQ, id: nat, steps: Steps, ok: bool, c: Clock)
    requires id in q.done && id !in q.list0 && id !in q.list1
    requires q.pending == q.running ==> q.At(!q.pending) == []
    ensures var q' := CompleteSeq(q, id, steps, ok, c);
            && (Waiting(q') != [] ==> q'.since == if Waiting(q) == [] then c.jiffies else q.since)
            && (q'.At(q.pending) != [] ==> q'.since == if Waiting(q) == [] then c.jiffies else q.since)
            && (q'.pending != q.pending <==> q.pending == q.running && q'.At(q.pending) != []
                                             && (q'.inFlight == [] || q'.since + 5 * c.hz <= c.jiffies))
            && Wraps(q.head, q'.head)
  {
    hide Advance, Kick, Wraps, CurSeq, Steps.Or;
    IssuedIff(q, id, steps, ok, c);
    AdvanceFields(q, id, steps, ok, c);
    KickIs(Advance(q, id, steps, ok, c), c);
    WithoutCounts(q.list0, id);
    WithoutCounts(q.list1, id);
    var next := if ok then CurSeq(q.done[id].Or(steps)) else Done;
    WrapsStep(q.head, id, next == Data, CompleteSeq(q, id, steps, ok, c).pending != q.pending);
  }

  lemma InsertIssues(m: Machine, e: Event)
    requires Inv(m) && Enabled(m, e) && e.Insert? && !Direct(e)
    ensures var q, q' := m.q, Next(m, e).q;
            && (Waiting(q') != [] ==> q'.since == if Waiting(q) == [] then e.c.jiffies else q.since)
            && (q'.At(q.pending) != [] ==> q'.since == if Waiting(q) == [] then e.c.jiffies else q.since)
            && (q'.pending != q.pending <==> q.pending == q.running && q'.At(q.pending) != []
                                             && (q'.inFlight == [] || q'.since + 5 * e.c.hz <= e.c.jiffies))
            && Wraps(q.head, q'.head)
  {
    hide Placed, Safe, Logged, Covers, Owned, CompleteSeq, Wraps, EndedIds;
    SettledOwned(m.q);
    Unknown(m.q, m.active, m.info, e.id);
    var q0 := m.q.(done := m.q.done[e.id := Steps(false, false, false)]);
    StepIssues(q0, e.id, Policy(e.dev, e.rq).Others(), true, e.c);
  }

  /** A request for which no flush is needed goes straight to the tail of the dispatch queue. */
  lemma DirectInsert(m: Machine, e: Event)
    requires Inv(m) && Enabled(m, e) && Direct(e)
    ensures Next(m, e).q == m.q.(head := m.q.head + [PlainItem(e.id)])
  {
    hide Inv, CompleteSeq;
  }

  lemma FlushEndIssues(m: Machine, e: Event)
    requires Inv(m) && Enabled(m, e) && e.FlushEnd?
    ensures var q, q' := m.q, Next(m, e).q;
            && (Waiting(q') != [] ==> q'.since == if Waiting(q) == [] then e.c.jiffies else q.since)
            && (q'.pending == q.pending ==>
                  !(Waiting(q') != [] && (q'.inFlight == [] || q'.since + 5 * e.c.hz <= e.c.jiffies)))
            && (q'.pending != q.pending ==> q'.At(q.pending) != [])
            && (q.inFlight != [] && q'.pending != q.pending ==> q'.since + 5 * e.c.hz <= e.c.jiffies)
            && (q'.pending != q.pending ==> q'.since == if Waiting(q) == [] then e.c.jiffies else q.since)
            && q'.running == !q.running && Wraps(q.head, q'.head)
  {
    hide Placed, Safe, Logged, Covers, Owned, Wraps, Drain, FlushLog, Work;
    FetchedFlush(m);
    var q := m.q;
    var r, q1 := q.running, q.(running := !q.running);
    Toggled(q);
    DrainIssues(q1, r, e.ok, e.c, Waiting(q) == [], q.since);
    DrainRunning(q1, r, e.ok, e.c);
  }

  lemma {:induction false} DrainRunning(q: FlushQ, r: bool, ok: bool, c: Clock)
    requires Draining(q, r)
    ensures Drain(q, r, ok, c).running == q.running
    decreases Work(q.At(r), q.done)
  {
    hide Owned, DrainOne, Work;
    if q.At(r) != [] {
      DrainOneKeeps(q, r, ok, c);
      DrainOneWorks(q, r, ok, c);
      if |q.At(r)| > 1 {
        DrainRunning(DrainOne(q, r, ok, c), r, ok, c);
      }
    }
  }

  lemma SinceStep(m: Machine, e: Event)
    requires Inv(m) && Enabled(m, e)
    ensures var q, q' := m.q, Next(m, e).q;
            && (Waiting(q) == [] && Waiting(q') != [] ==> Clocked(e))
            && (Waiting(q') != [] ==> q'.since == if Waiting(q) == [] then e.c.jiffies else q.since)
  {
    hide Inv, InsertFlush, DataEnded, FlushEnded;
    match e
    case Insert(id, rq, dev, c) =>
      if Direct(e) {
        DirectInsert(m, e);
      } else {
        InsertIssues(m, e);
      }
    case DataEnd(id, ok, c) => DataIssues(m, e);
    case FlushEnd(ok, c) => FlushEndIssues(m, e);
    case _ =>
  }

  /** In every reachable state in which requests wait for the next flush, flush_pending_since is
      the time of the latest event that found none waiting. */
  lemma {:induction false} PendingSince(es: seq<Event>) returns (i: nat)
    requires Run(es).Reached? && Waiting(Run(es).m.q) != []
    ensures i < |es| && Clocked(es[i]) && Run(es).m.q.since == es[i].c.jiffies
    ensures Run(es[..i]).Reached? && Waiting(Run(es[..i]).m.q) == []
    ensures forall j :: i < j <= |es| ==> Run(es[..j]).Reached? && Waiting(Run(es[..j]).m.q) != []
  {
    hide Inv, Next, Enabled, Waiting, Clocked;
    NobodyAtBoot();
    var last := |es| - 1;
    RunPrefix(es, last);
    var m := Run(es[..last]).m;
    SinceStep(m, es[last]);
    assert es[..|es|] == es;
    if Waiting(m.q) == [] {
      i := last;
    } else {
      i := PendingSince(es[..last]);
      assert es[..last][..i] == es[..i] && es[..last][i] == es[i];
      forall j | i < j <= |es| ensures Run(es[..j]).Reached? && Waiting(Run(es[..j]).m.q) != [] {
        if j <= last {
          assert es[..last][..j] == es[..j];
        }
      }
    }
  }

  lemma NobodyAtBoot()
    ensures Run([]) == Reached(BOOT) && Waiting(BOOT.q) == []
  {
  }

  /** Over every run, for the event after `es`: with `age` the time from which the waiters it
      leaves count, an insertion into the sequencer or the end of a data write issues a flush
      exactly under C1, C2 and C3, and the end of a flush leaves none that is due. */
  lemma IssuedInRun(es: seq<Event>, e: Event)
    requires Run(es).Reached? && Enabled(Run(es).m, e) && Clocked(e) && !Direct(e)
    ensures Run(es + [e]).Reached?
    ensures var q, q' := Run(es).m.q, Run(es + [e]).m.q;
            var age := if Waiting(q) == [] then e.c.jiffies else q.since;
            var due := q'.At(q.pending) != [] && (q'.inFlight == [] || age + 5 * e.c.hz <= e.c.jiffies);
            && (!e.FlushEnd? ==> (q'.pending != q.pending <==> q.pending == q.running && due))
            && (e.FlushEnd? && q'.pending == q.pending ==> !due)
            && (e.FlushEnd? && q.inFlight != [] ==> (q'.pending != q.pending <==> due))
            && Wraps(q.head, q'.head)
  {
    hide Inv, Next, Enabled, Wraps, Direct;
    assert (es + [e])[..|es|] == es;
    var m := Run(es).m;
    NextKeeps(m, e);
    if e.Insert? {
      InsertIssues(m, e);
    } else if e.DataEnd? {
      DataIssues(m, e);
    } else {
      FlushEndIssues(m, e);
      StillExecuting(m, e);
    }
  }

  /** The end of a flush takes no data write out of flight. */
  lemma StillExecuting(m: Machine, e: Event)
    requires Inv(m) && Enabled(m, e) && e.FlushEnd?
    ensures m.q.inFlight != [] ==> Next(m, e).q.inFlight != []
  {
    hide Placed, Safe, Logged, Covers, Owned, Wraps, Drain, FlushLog, Work;
    FetchedFlush(m);
    Toggled(m.q);
    DrainIssues(m.q.(running := !m.q.running), m.q.running, e.ok, e.c, Waiting(m.q) == [], m.q.since);
  }
}
