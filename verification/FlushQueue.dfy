/** The locked functions of block/blk-flush.c working in place on the queue.  Each is proved
    to take the queue where its counterpart in module Flush says. */
module FlushInPlace {
  import opened Flush
  import opened Lists

  class FlushQueue {
    var list0: seq<nat>
    var list1: seq<nat>
    var pending: bool
    var running: bool
    var inFlight: seq<nat>
    var head: seq<Item>
    var since: nat
    var done: map<nat, Steps>
    var ended: seq<(nat, bool)>
    var delayed: bool            // q->flush_queue_delayed

    ghost function View(): FlushQ
      reads this
    {
      FlushQ(list0, list1, pending, running, inFlight, head, since, done, ended)
    }

    constructor ()
      ensures View() == EMPTY && !delayed
    {
      list0, list1, pending, running, inFlight, head := [], [], false, false, [], [];
      since, done, ended, delayed := 0, map[], [], false;
    }

    /** list_del of rq->flush.list */
    method ListDel(id: nat)
      modifies `list0, `list1, `inFlight
      ensures View() == Unlink(old(View()), id)
    {
      list0 := Delete(list0, id);
      list1 := Delete(list1, id);
      inFlight := Delete(inFlight, id);
    }

    /** blk_kick_flush; the result says whether a flush was issued. */
    method KickFlush(c: Clock) returns (issued: bool)
      modifies this
      ensures View() == Kick(old(View()), c) && delayed == old(delayed)
      ensures issued <==>
                && old(pending) == running && (if old(pending) then list1 else list0) != []
                && (inFlight == [] || c.jiffies >= since + 5 * c.hz)
      ensures pending == (if issued then !old(pending) else old(pending))
      ensures head == old(head) + (if issued then [FlushItem] else [])
    {
      var empty := if pending then list1 == [] else list0 == [];
      if pending != running || empty {
        return false;
      }
      if inFlight != [] && c.jiffies < since + 5 * c.hz {
        return false;
      }
      pending := !pending;
      head := head + [FlushItem];
      issued := true;
    }

    /** The wait for a flush: to the tail of the pending list, whose age counts from its first
        entry. */
    method MoveToPending(id: nat, empty: bool, c: Clock)
      modifies `list0, `list1, `since
      ensures var w := old(View()).(since := if empty then c.jiffies else old(since));
              View() == w.Put(w.pending, w.At(w.pending) + [id])
    {
      if empty {
        since := c.jiffies;
      }
      if pending {
        list1 := list1 + [id];
      } else {
        list0 := list0 + [id];
      }
    }

    /** blk_flush_complete_seq up to its final kick. */
    method NextStep(id: nat, steps: Steps, ok: bool, c: Clock) returns (queued: bool)
      requires id in done && !done[id].Meets(steps)
      requires !ok || CurSeq(done[id].Or(steps)) == Done ==> DataItem(id) !in head
      modifies this
      ensures View() == Advance(old(View()), id, steps, ok, c) && delayed == old(delayed)
      ensures |head| == |old(head)| + (if queued then 1 else 0) && (!queued ==> head == old(head))
    {
      hide Without, Steps.Meets, Steps.Or, CurSeq, FlushQ.Put;
      queued := false;
      done := done[id := done[id].Or(steps)];
      var next := if ok then CurSeq(done[id]) else Done;
      var empty := (if pending then list1 else list0) == [];
      ListDel(id);
      if next == Data {
        inFlight := inFlight + [id];
        head := [DataItem(id)] + head;
        queued := true;
      } else if next == Done {
        done := done - {id};
        ended := ended + [(id, ok)];
      } else {
        MoveToPending(id, empty, c);
      }
    }

    /** blk_flush_complete_seq.  The preconditions are its two BUG_ON checks: the steps are
        new to the request, and a request that is about to end is on no dispatch queue. */
    method CompleteSeq(id: nat, steps: Steps, ok: bool, c: Clock) returns (queued: bool)
      requires id in done && !done[id].Meets(steps)
      requires !ok || CurSeq(done[id].Or(steps)) == Done ==> DataItem(id) !in head
      modifies this
      ensures View() == Flush.CompleteSeq(old(View()), id, steps, ok, c) && delayed == old(delayed)
      ensures queued <==> head != old(head)
    {
      hide Advance, Kick;
      queued := NextStep(id, steps, ok, c);
      var issued := KickFlush(c);
      queued := issued || queued;
    }

    /** flush_end_io, the end of the flush in flight.  The result says whether the queue has
        to be run again. */
    method FlushEndIo(ok: bool, c: Clock) returns (run: bool)
      requires Settled(View()) && pending != running && FlushItem !in head
      modifies this
      ensures View() == Flush.FlushEndIo(old(View()), ok, c) && Settled(View())
      ensures run <==> head != old(head) || old(delayed)
      ensures !delayed
    {
      hide Owned, OwnedBut, Drain, Advance, DrainOne, Work;
      FlushEndSettled(View(), ok, c);
      ghost var q0 := View();
      var r := running;
      running := !running;
      ghost var q1 := View();
      assert Draining(q1, r) by {
        Toggled(q0);
      }
      var queued := false;
      var more := true;
      while more
        invariant Draining(View(), r) && (more ==> View().At(r) != [])
        invariant Flush.Drain(q1, r, ok, c) == if more then Flush.Drain(View(), r, ok, c) else View()
        invariant |head| >= |q0.head| && (queued <==> head != q0.head) && (queued ==> |head| > |q0.head|)
        invariant delayed == old(delayed)
        decreases more, Work(View().At(r), done)
      {
        ghost var q := View();
        var list := if r then list1 else list0;
        var rq, last := list[0], |list| == 1;
        HeadOfList(q, r);
        TurnAllowed(q, rq);
        DrainOneKeeps(q, r, ok, c);
        DrainOneWorks(q, r, ok, c);
        DrainOneList(q, r, ok, c);
        DrainUnfold(q, r, ok, c);
        CompleteHead(q, rq, Bit(CurSeq(q.done[rq])), ok, c);
        var added := CompleteSeq(rq, Bit(CurSeq(done[rq])), ok, c);
        assert View() == Flush.DrainOne(q, r, ok, c) by { DrainOneIs(q, r, ok, c); }
        queued := queued || added;
        more := !last;
      }
      run := queued || delayed;
      delayed := false;
    }

    /** flush_data_end_io, the end of the data write of request `id`. */
    method FlushDataEndIo(id: nat, ok: bool, c: Clock) returns (run: bool)
      requires Settled(View()) && id in inFlight && DataItem(id) !in head
      modifies this
      ensures View() == DataEndIo(old(View()), id, ok, c) && Settled(View()) && delayed == old(delayed)
      ensures run <==> head != old(head)
    {
      DataWriteSettled(View(), id, ok, c);
      run := CompleteSeq(id, Bit(Data), ok, c);
    }

    /** blk_insert_flush */
    method InsertFlush(id: nat, rq: Submitted, dev: DevFlags, c: Clock)
      requires Settled(View()) && id !in done && DataItem(id) !in head && forall k :: 0 <= k < |ended| ==> ended[k].0 != id
      modifies this
      ensures View() == Flush.InsertFlush(old(View()), id, rq, dev, c) && Settled(View()) && delayed == old(delayed)
    {
      hide Settled, Flush.CompleteSeq;
      ghost var q := View();
      var policy := Policy(dev, rq);
      if policy.data && !policy.pre && !policy.post {
        PlainSettled(q, id);
        head := head + [PlainItem(id)];
        return;
      }
      NewSettled(q, id, policy.Others(), c);
      done := done[id := Steps(false, false, false)];
      var queued := CompleteSeq(id, policy.Others(), true, c);
    }
  }

  lemma TurnAllowed(q: FlushQ, id: nat)
    requires OwnedBut(q, id) && id in q.done
    ensures DataItem(id) !in q.head && !q.done[id].Meets(Bit(CurSeq(q.done[id])))
  {
  }

  lemma DrainUnfold(q: FlushQ, r: bool, ok: bool, c: Clock)
    requires Draining(q, r) && q.At(r) != []
    ensures var q' := DrainOne(q, r, ok, c);
            && Draining(q', r)
            && Drain(q, r, ok, c) == if |q.At(r)| == 1 then q' else Drain(q', r, ok, c)
  {
    hide Owned, DrainOne;
    DrainOneKeeps(q, r, ok, c);
  }

  lemma DrainOneIs(q: FlushQ, r: bool, ok: bool, c: Clock)
    requires Draining(q, r) && q.At(r) != []
    ensures q.At(r)[0] in q.done
    ensures DrainOne(q, r, ok, c) == CompleteSeq(q, q.At(r)[0], Bit(CurSeq(q.done[q.At(r)[0]])), ok, c)
  {
  }

  lemma CompleteHead(q: FlushQ, id: nat, steps: Steps, ok: bool, c: Clock)
    requires id in q.done
    ensures var q' := CompleteSeq(q, id, steps, ok, c);
            |q'.head| >= |q.head| && (q'.head != q.head ==> |q'.head| > |q.head|)
  {
    hide Advance;
    AdvanceFields(q, id, steps, ok, c);
  }

  lemma DataWriteSettled(q: FlushQ, id: nat, ok: bool, c: Clock)
    requires Settled(q) && id in q.inFlight && DataItem(id) !in q.head
    ensures id in q.done && !q.done[id].Meets(Bit(Data))
    ensures Settled(CompleteSeq(q, id, Bit(Data), ok, c))
  {
    assert Owners(q, id) == 1;
    assert multiset(q.inFlight)[id] >= 1;
    assert multiset(q.list0)[id] == multiset(q.list1)[id] == 0;
    CompleteSettled(q, id, Bit(Data), ok, c);
  }

  lemma NewSettled(q: FlushQ, id: nat, steps: Steps, c: Clock)
    requires Settled(q) && id !in q.done && DataItem(id) !in q.head && forall k :: 0 <= k < |q.ended| ==> q.ended[k].0 != id
    ensures var q0 := q.(done := q.done[id := Steps(false, false, false)]);
            Settled(CompleteSeq(q0, id, steps, true, c))
  {
    var q0 := q.(done := q.done[id := Steps(false, false, false)]);
    assert forall x :: Owners(q0, x) == Owners(q, x);
    assert Owners(q, id) == 0;
    assert OwnedBut(q0, id);
    CompleteSettled(q0, id, steps, true, c);
  }
}
