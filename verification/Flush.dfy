/** The FLUSH/FUA sequencer of block/blk-flush.c.

    The queue state is a value (`FlushQ`) and every locked function of the source is a
    function from queue to queue.  `FlushQueue` in FlushQueue.dfy is the same code working
    in place and is proved equal to these functions. */
module Flush {
  import opened Lists

  /** The REQ_FSEQ_PREFLUSH, REQ_FSEQ_DATA and REQ_FSEQ_POSTFLUSH bits of a mask. */
  datatype Steps = Steps(pre: bool, data: bool, post: bool) {
    function Or(that: Steps): Steps {
      Steps(pre || that.pre, data || that.data, post || that.post)
    }

    predicate Meets(that: Steps) {
      (pre && that.pre) || (data && that.data) || (post && that.post)
    }

    /** REQ_FSEQ_ACTIONS & ~this */
    function Others(): Steps {
      Steps(!pre, !data, !post)
    }

    /** Number of bits still clear. */
    function Left(): nat {
      (if pre then 0 else 1) + (if data then 0 else 1) + (if post then 0 else 1)
    }
  }

  datatype Step = Pre | Data | Post | Done

  function Bit(s: Step): Steps {
    Steps(s.Pre?, s.Data?, s.Post?)
  }

  /** blk_flush_cur_seq: the lowest clear bit; REQ_FSEQ_DONE is above the three actions. */
  function CurSeq(done: Steps): Step {
    if !done.pre then Pre else if !done.data then Data else if !done.post then Post else Done
  }

  /** A request as submitted: does it carry sectors, REQ_FLUSH, REQ_FUA? */
  datatype Submitted = Submitted(hasData: bool, flush: bool, fua: bool)

  /** q->flush_flags */
  datatype DevFlags = DevFlags(flush: bool, fua: bool)

  /** blk_flush_policy */
  function Policy(dev: DevFlags, rq: Submitted): Steps {
    if dev.flush then Steps(rq.flush, rq.hasData, !dev.fua && rq.fua)
    else Steps(false, false, false)
  }

  /** What sits on q->queue_head or has been fetched from it by the driver. */
  datatype Item = FlushItem | DataItem(id: nat) | PlainItem(id: nat)

  datatype Clock = Clock(jiffies: nat, hz: nat)

  /** The flush fields of struct request_queue.  An index bit selects list0 (false) or
      list1 (true).  `done` holds rq->flush.seq of every request being sequenced and
      `ended` the calls of __blk_end_request_all with their success. */
  datatype FlushQ = FlushQ(
    list0: seq<nat>, list1: seq<nat>, pending: bool, running: bool,
    inFlight: seq<nat>, head: seq<Item>, since: nat,
    done: map<nat, Steps>, ended: seq<(nat, bool)>)
  {
    function At(i: bool): seq<nat> {
      if i then list1 else list0
    }

    function Put(i: bool, l: seq<nat>): FlushQ {
      if i then this.(list1 := l) else this.(list0 := l)
    }
  }

  const EMPTY := FlushQ([], [], false, false, [], [], 0, map[], [])

  /** list_del of rq->flush.list from whichever list holds it. */
  function Unlink(q: FlushQ, id: nat): FlushQ {
    q.(list0 := Without(q.list0, id), list1 := Without(q.list1, id),
       inFlight := Without(q.inFlight, id))
  }

  /** blk_kick_flush, with conditions C1, C2 and C3 of the file's opening comment. */
  function Kick(q: FlushQ, c: Clock): FlushQ {
    if q.pending != q.running || q.At(q.pending) == [] then q
    else if q.inFlight != [] && c.jiffies < q.since + 5 * c.hz then q
    else q.(pending := !q.pending, head := q.head + [FlushItem])
  }

  /** blk_flush_complete_seq up to the final kick. */
  function Advance(q: FlushQ, id: nat, steps: Steps, ok: bool, c: Clock): FlushQ
    requires id in q.done
  {
    var now := q.done[id].Or(steps);
    var u := Unlink(q.(done := q.done[id := now]), id);
    match (if ok then CurSeq(now) else Done)
    case Data =>
      u.(inFlight := u.inFlight + [id], head := [DataItem(id)] + u.head)
    case Done =>
      u.(done := u.done - {id}, ended := u.ended + [(id, ok)])
    case _ =>
      var w := u.(since := if q.At(q.pending) == [] then c.jiffies else q.since);
      w.Put(w.pending, w.At(w.pending) + [id])
  }

  /** blk_flush_complete_seq */
  function CompleteSeq(q: FlushQ, id: nat, steps: Steps, ok: bool, c: Clock): FlushQ
    requires id in q.done
  {
    Kick(Advance(q, id, steps, ok, c), c)
  }

  // ---------------------------------------------------------------- list ownership

  /** How many of the three flush lists hold `x`, counted with multiplicity. */
  ghost function Owners(q: FlushQ, x: nat): nat {
    multiset(q.list0)[x] + multiset(q.list1)[x] + multiset(q.inFlight)[x]
  }

  /** Every sequenced request is on exactly one list, the one its current step asks for;
      only data writes being executed are on the dispatch queue; no request is being
      sequenced and already ended, and none has ended twice. */
  ghost predicate Owned(q: FlushQ) {
    && (forall x :: Owners(q, x) == if x in q.done then 1 else 0)
    && (forall x :: x in q.list0 || x in q.list1 ==>
         x in q.done && CurSeq(q.done[x]) in {Pre, Post})
    && (forall x :: x in q.inFlight ==> x in q.done && CurSeq(q.done[x]) == Data)
    && (forall x :: multiset(q.head)[DataItem(x)] <= multiset(q.inFlight)[x])
    && (forall i, j :: 0 <= i < j < |q.ended| ==> q.ended[i].0 != q.ended[j].0)
    && (forall i :: 0 <= i < |q.ended| ==> q.ended[i].0 !in q.done)
  }

  /** What holds between locked sections: a flush is in flight exactly when the indices
      differ (C1), the running list is then not empty, otherwise the idle list is empty;
      and a waiting request always has something in flight to wake it. */
  ghost predicate Settled(q: FlushQ) {
    && Owned(q)
    && multiset(q.head)[FlushItem] <= (if q.pending != q.running then 1 else 0)
    && (q.pending == q.running ==> q.At(!q.pending) == [])
    && (q.pending != q.running ==> q.At(q.running) != [])
    && (q.pending == q.running && q.At(q.pending) != [] ==> q.inFlight != [])
  }

  /** What holds while flush_end_io walks list `r`, its running list on entry.  After a
      flush issued midway `r` is the pending list again. */
  ghost predicate Draining(q: FlushQ, r: bool) {
    && Owned(q)
    && q.running == !r
    && multiset(q.head)[FlushItem] <= (if q.pending != q.running then 1 else 0)
    && (q.pending == r ==> q.At(!r) != [])
  }


  lemma UnlinkCounts(q: FlushQ, id: nat)
    ensures forall x :: Owners(Unlink(q, id), x) == if x == id then 0 else Owners(q, x)
    ensures var u := Unlink(q, id);
            forall x :: (x in u.list0 <==> x in q.list0 && x != id)
                     && (x in u.list1 <==> x in q.list1 && x != id)
                     && (x in u.inFlight <==> x in q.inFlight && x != id)
  {
    WithoutCounts(q.list0, id);
    WithoutCounts(q.list1, id);
    WithoutCounts(q.inFlight, id);
  }

  /** Ownership as it stands while request `id` is between two lists. */
  ghost predicate OwnedBut(q: FlushQ, id: nat) {
    && (forall x :: x != id ==> Owners(q, x) == if x in q.done then 1 else 0)
    && (forall x :: x != id && (x in q.list0 || x in q.list1) ==>
         x in q.done && CurSeq(q.done[x]) in {Pre, Post})
    && (forall x :: x != id && x in q.inFlight ==> x in q.done && CurSeq(q.done[x]) == Data)
    && (forall x :: x != id ==> multiset(q.head)[DataItem(x)] <= multiset(q.inFlight)[x])
    && multiset(q.head)[DataItem(id)] == 0
    && (forall i, j :: 0 <= i < j < |q.ended| ==> q.ended[i].0 != q.ended[j].0)
    && (forall i :: 0 <= i < |q.ended| ==> q.ended[i].0 !in q.done)
  }

  lemma UnlinkOwnedBut(q: FlushQ, id: nat)
    requires OwnedBut(q, id)
    ensures var u := Unlink(q, id);
            OwnedBut(u, id) && Owners(u, id) == 0
            && id !in u.list0 && id !in u.list1 && id !in u.inFlight
  {
    UnlinkCounts(q, id);
    WithoutCounts(q.inFlight, id);
  }

  lemma AppendCounts(s: seq<nat>, id: nat)
    ensures multiset(s + [id]) == multiset(s) + multiset{id}
    ensures forall x :: x in s + [id] <==> x in s || x == id
  {
  }

  lemma WaitOwned(u: FlushQ, id: nat, since: nat)
    requires OwnedBut(u, id) && Owners(u, id) == 0
    requires id !in u.list0 && id !in u.list1 && id !in u.inFlight
    requires id in u.done && CurSeq(u.done[id]) in {Pre, Post}
    ensures Owned(u.(since := since).Put(u.pending, u.At(u.pending) + [id]))
  {
    hide Owners, CurSeq, FlushQ.Put, FlushQ.At;
    WaitLists(u, id, since);
  }

  lemma WaitLists(u: FlushQ, id: nat, since: nat)
    ensures var a := u.(since := since).Put(u.pending, u.At(u.pending) + [id]);
            && a == u.(since := since, list0 := a.list0, list1 := a.list1)
            && (forall x :: Owners(a, x) == Owners(u, x) + if x == id then 1 else 0)
            && (forall x :: x in a.list0 || x in a.list1 <==> x in u.list0 || x in u.list1 || x == id)
  {
    AppendCounts(u.At(u.pending), id);
  }

  lemma DataOwned(u: FlushQ, id: nat)
    requires OwnedBut(u, id) && Owners(u, id) == 0
    requires id !in u.list0 && id !in u.list1 && id !in u.inFlight
    requires id in u.done && CurSeq(u.done[id]) == Data
    ensures Owned(u.(inFlight := u.inFlight + [id], head := [DataItem(id)] + u.head))
  {
    AppendCounts(u.inFlight, id);
    var a := u.(inFlight := u.inFlight + [id], head := [DataItem(id)] + u.head);
    assert forall x :: Owners(a, x) == if x == id then 1 else Owners(u, x);
    assert multiset(a.head) == multiset{DataItem(id)} + multiset(u.head);
  }

  lemma EndOwned(u: FlushQ, id: nat, ok: bool)
    requires OwnedBut(u, id) && Owners(u, id) == 0
    requires id !in u.list0 && id !in u.list1 && id !in u.inFlight
    requires id in u.done
    ensures Owned(u.(done := u.done - {id}, ended := u.ended + [(id, ok)]))
  {
    var a := u.(done := u.done - {id}, ended := u.ended + [(id, ok)]);
    assert forall x :: Owners(a, x) == Owners(u, x);
  }

  lemma RecordOwnedBut(q: FlushQ, id: nat, steps: Steps)
    requires OwnedBut(q, id) && id in q.done
    ensures OwnedBut(q.(done := q.done[id := steps]), id)
  {
    var q1 := q.(done := q.done[id := steps]);
    assert forall x :: Owners(q1, x) == Owners(q, x);
  }

  /** One request moves on by one step: ownership is kept, BUG_ON(rq->flush.seq & seq) and
      BUG_ON(!list_empty(&rq->queuelist)) being what the caller has to rule out. */
  lemma AdvanceOwned(q: FlushQ, id: nat, steps: Steps, ok: bool, c: Clock)
    requires OwnedBut(q, id) && id in q.done
    ensures Owned(Advance(q, id, steps, ok, c))
  {
    var now := q.done[id].Or(steps);
    var q1 := q.(done := q.done[id := now]);
    RecordOwnedBut(q, id, now);
    UnlinkOwnedBut(q1, id);
    hide OwnedBut, Owned, Owners, Unlink;
    var u := Unlink(q1, id);
    match (if ok then CurSeq(now) else Done)
    case Data => DataOwned(u, id);
    case Done => EndOwned(u, id, ok);
    case _ => WaitOwned(u, id, if q.At(q.pending) == [] then c.jiffies else q.since);
  }

  // ------------------------------------------------------------ the locked functions

  /** What Advance does, field by field. */
  lemma AdvanceFields(q: FlushQ, id: nat, steps: Steps, ok: bool, c: Clock)
    requires id in q.done
    ensures var a := Advance(q, id, steps, ok, c);
            var next := if ok then CurSeq(q.done[id].Or(steps)) else Done;
            && a.pending == q.pending && a.running == q.running
            && a.At(q.pending) == Without(q.At(q.pending), id) + (if next in {Pre, Post} then [id] else [])
            && a.At(!q.pending) == Without(q.At(!q.pending), id)
            && a.inFlight == Without(q.inFlight, id) + (if next == Data then [id] else [])
            && a.head == (if next == Data then [DataItem(id)] else []) + q.head
            && a.done == (if next == Done then q.done - {id} else q.done[id := q.done[id].Or(steps)])
            && a.ended == q.ended + (if next == Done then [(id, ok)] else [])
  {
    hide Without;
    assert q.done[id := q.done[id].Or(steps)] - {id} == q.done - {id};
  }

  lemma HeadCount(h: seq<Item>, id: nat)
    ensures multiset([DataItem(id)] + h)[FlushItem] == multiset(h)[FlushItem]
    ensures multiset([] + h) == multiset(h)
  {
    assert multiset([DataItem(id)] + h) == multiset{DataItem(id)} + multiset(h);
    assert [] + h == h;
  }

  /** What a kick may change: a flush is issued, or nothing. */
  lemma KickIs(q: FlushQ, c: Clock)
    ensures var k := Kick(q, c);
            && k == q.(pending := k.pending, head := k.head)
            && (k.pending == q.pending ==> k.head == q.head)
            && (k.pending != q.pending ==> q.pending == q.running && q.At(q.pending) != [])
            && multiset(k.head)[FlushItem] == multiset(q.head)[FlushItem] + (if k.pending != q.pending then 1 else 0)
            && (k.pending == k.running && k.At(k.pending) != [] ==> k.inFlight != [])
  {
  }

  /** A request that is on neither waiting list completes `steps`: this is the call made
      by flush_data_end_io and by blk_insert_flush. */
  lemma CompleteSettled(q: FlushQ, id: nat, steps: Steps, ok: bool, c: Clock)
    requires OwnedBut(q, id) && id in q.done && id !in q.list0 && id !in q.list1
    requires multiset(q.head)[FlushItem] <= (if q.pending != q.running then 1 else 0)
    requires q.pending == q.running ==> q.At(!q.pending) == []
    requires q.pending != q.running ==> q.At(q.running) != []
    ensures Settled(CompleteSeq(q, id, steps, ok, c))
  {
    hide OwnedBut, Owned, Owners, Advance, Kick, CurSeq;
    AdvanceOwned(q, id, steps, ok, c);
    AdvanceFields(q, id, steps, ok, c);
    HeadCount(q.head, id);
    WithoutCounts(q.list0, id);
    WithoutCounts(q.list1, id);
    KickOwned(Advance(q, id, steps, ok, c), c);
    KickIs(Advance(q, id, steps, ok, c), c);
  }

  lemma KickOwned(q: FlushQ, c: Clock)
    requires Owned(q)
    ensures Owned(Kick(q, c))
  {
    var k := Kick(q, c);
    assert forall x :: Owners(k, x) == Owners(q, x);
  }

  /** Steps not yet done by the requests of a list. */
  function Work(l: seq<nat>, done: map<nat, Steps>): nat {
    if l == [] then 0
    else (if l[0] in done then done[l[0]].Left() else 0) + Work(l[1..], done)
  }

  lemma {:induction false} WorkAppend(l: seq<nat>, id: nat, done: map<nat, Steps>)
    ensures Work(l + [id], done) == Work(l, done) + (if id in done then done[id].Left() else 0)
  {
    if l == [] {
      assert l + [id] == [id];
      assert Work([id], done) == (if id in done then done[id].Left() else 0) + Work([], done);
    } else {
      assert (l + [id])[1..] == l[1..] + [id];
      WorkAppend(l[1..], id, done);
    }
  }

  lemma {:induction false} WorkFrame(l: seq<nat>, id: nat, done: map<nat, Steps>, done': map<nat, Steps>)
    requires id !in l
    requires forall x :: x != id ==> (x in done <==> x in done') && (x in done ==> done[x] == done'[x])
    ensures Work(l, done) == Work(l, done')
  {
    if l != [] {
      assert l[0] in l;
      WorkFrame(l[1..], id, done, done');
    }
  }

  /** One turn of the loop in flush_end_io, on the first entry of the list walked. */
  function DrainOne(q: FlushQ, r: bool, ok: bool, c: Clock): FlushQ
    requires Draining(q, r) && q.At(r) != []
  {
    var id := q.At(r)[0];
    CompleteSeq(q, id, Bit(CurSeq(q.done[id])), ok, c)
  }

  lemma HeadOfList(q: FlushQ, r: bool)
    requires Owned(q) && q.At(r) != []
    ensures var id := q.At(r)[0];
            && OwnedBut(q, id) && id in q.done && CurSeq(q.done[id]) in {Pre, Post}
            && id !in q.At(r)[1..] && id !in q.At(!r) && id !in q.inFlight
  {
    var id := q.At(r)[0];
    assert q.At(r) == [id] + q.At(r)[1..];
    assert multiset(q.At(r)) == multiset{id} + multiset(q.At(r)[1..]);
    assert Owners(q, id) == 1;
    assert multiset(q.At(r)[1..])[id] == multiset(q.At(!r))[id] == multiset(q.inFlight)[id] == 0;
  }

  /** The walked list loses its first entry, which comes back at its tail exactly when it
      has another flush to wait for and `r` is the pending list. */
  lemma DrainOneList(q: FlushQ, r: bool, ok: bool, c: Clock)
    requires Draining(q, r) && q.At(r) != []
    ensures var id := q.At(r)[0];
            var q' := DrainOne(q, r, ok, c);
            var next := CurSeq(q.done[id].Or(Bit(CurSeq(q.done[id]))));
            && q'.At(r) == q.At(r)[1..] + (if ok && next == Post && q.pending == r then [id] else [])
            && (q.pending == r ==> q'.pending == r)
            && (id in q'.done <==> ok && next != Done)
            && (id in q'.done ==> q'.done[id] == q.done[id].Or(Bit(CurSeq(q.done[id]))))
            && (forall x :: x != id ==> (x in q'.done <==> x in q.done) && (x in q.done ==> q'.done[x] == q.done[x]))
  {
    hide Owned, OwnedBut, Owners, Advance;
    HeadOfList(q, r);
    var id := q.At(r)[0];
    assert q.At(r) == [id] + q.At(r)[1..];
    WithoutCounts(q.At(r)[1..], id);
    AdvanceFields(q, id, Bit(CurSeq(q.done[id])), ok, c);
    assert Without(q.At(r), id) == q.At(r)[1..];
  }

  lemma DrainOneKeeps(q: FlushQ, r: bool, ok: bool, c: Clock)
    requires Draining(q, r) && q.At(r) != []
    ensures var q' := DrainOne(q, r, ok, c);
            && Draining(q', r)
            && (q'.pending == q'.running && q'.At(q'.pending) != [] ==> q'.inFlight != [])
  {
    hide Owned, OwnedBut, Owners, Advance, Kick, CurSeq;
    HeadOfList(q, r);
    var id := q.At(r)[0];
    AdvanceFields(q, id, Bit(CurSeq(q.done[id])), ok, c);
    KickIs(Advance(q, id, Bit(CurSeq(q.done[id])), ok, c), c);
    HeadCount(q.head, id);
    AdvanceOwned(q, id, Bit(CurSeq(q.done[id])), ok, c);
    KickOwned(Advance(q, id, Bit(CurSeq(q.done[id])), ok, c), c);
    WithoutCounts(q.At(!r), id);
  }

  /** Every turn of the loop completes a step, which is why the walk ends. */
  lemma DrainOneWorks(q: FlushQ, r: bool, ok: bool, c: Clock)
    requires Draining(q, r) && q.At(r) != []
    ensures var q' := DrainOne(q, r, ok, c);
            Work(q'.At(r), q'.done) < Work(q.At(r), q.done)
  {
    hide Owned, OwnedBut, Owners, DrainOne;
    HeadOfList(q, r);
    DrainOneList(q, r, ok, c);
    var id := q.At(r)[0];
    var q' := DrainOne(q, r, ok, c);
    WorkFrame(q.At(r)[1..], id, q.done, q'.done);
    WorkAppend(q.At(r)[1..], id, q'.done);
    assert q.At(r)[1..] + [] == q.At(r)[1..];
  }

  /** The loop of flush_end_io.  list_for_each_entry_safe fetches the successor before
      the body runs, so the walk stops after an entry that was last when it was reached. */
  function Drain(q: FlushQ, r: bool, ok: bool, c: Clock): FlushQ
    requires Draining(q, r)
    decreases Work(q.At(r), q.done)
  {
    if q.At(r) == [] then q
    else
      DrainOneKeeps(q, r, ok, c);
      DrainOneWorks(q, r, ok, c);
      var q' := DrainOne(q, r, ok, c);
      if |q.At(r)| == 1 then q' else Drain(q', r, ok, c)
  }

  /** flush_end_io; its BUG_ON is the precondition. */
  function FlushEndIo(q: FlushQ, ok: bool, c: Clock): FlushQ
    requires Settled(q) && q.pending != q.running && multiset(q.head)[FlushItem] == 0
  {
    var q1 := q.(running := !q.running);
    assert forall x :: Owners(q1, x) == Owners(q, x);
    Drain(q1, q.running, ok, c)
  }

  /** flush_data_end_io */
  function DataEndIo(q: FlushQ, id: nat, ok: bool, c: Clock): FlushQ
    requires Settled(q) && id in q.inFlight
  {
    CompleteSeq(q, id, Bit(Data), ok, c)
  }

  /** blk_insert_flush */
  function InsertFlush(q: FlushQ, id: nat, rq: Submitted, dev: DevFlags, c: Clock): FlushQ {
    var policy := Policy(dev, rq);
    if policy.data && !policy.pre && !policy.post then q.(head := q.head + [PlainItem(id)])
    else CompleteSeq(q.(done := q.done[id := Steps(false, false, false)]), id, policy.Others(), true, c)
  }

  lemma {:induction false} DrainSettles(q: FlushQ, r: bool, ok: bool, c: Clock)
    requires Draining(q, r) && q.At(r) != []
    ensures Settled(Drain(q, r, ok, c))
    decreases Work(q.At(r), q.done)
  {
    hide Owned, OwnedBut, Owners, DrainOne;
    DrainOneKeeps(q, r, ok, c);
    DrainOneWorks(q, r, ok, c);
    DrainOneList(q, r, ok, c);
    if |q.At(r)| > 1 {
      assert DrainOne(q, r, ok, c).At(r) != [];
      DrainSettles(DrainOne(q, r, ok, c), r, ok, c);
    } else {
      assert q.At(r)[1..] == [];
    }
  }

  lemma FlushEndSettled(q: FlushQ, ok: bool, c: Clock)
    requires Settled(q) && q.pending != q.running && multiset(q.head)[FlushItem] == 0
    ensures Settled(FlushEndIo(q, ok, c))
  {
    var q1 := q.(running := !q.running);
    assert forall x :: Owners(q1, x) == Owners(q, x);
    DrainSettles(q1, q.running, ok, c);
  }

  lemma Toggled(q: FlushQ)
    requires Settled(q) && q.pending != q.running && FlushItem !in q.head
    ensures Draining(q.(running := !q.running), q.running)
  {
    assert forall x :: Owners(q.(running := !q.running), x) == Owners(q, x);
  }

  lemma PlainSettled(q: FlushQ, id: nat)
    requires Settled(q)
    ensures Settled(q.(head := q.head + [PlainItem(id)]))
  {
    var q' := q.(head := q.head + [PlainItem(id)]);
    assert forall y :: Owners(q', y) == Owners(q, y);
    assert multiset(q'.head) == multiset(q.head) + multiset{PlainItem(id)};
  }
}
