/** The deadline scheduler working in place, with the dispatch side of the elevator core;
    proved equal to the functions of module Deadline. */
module DeadlineInPlace {
  import opened Lists
  import opened Deadline
  import opened DeadlineRun

  class DeadlineData {
    var rq: map<nat, Rq>
    var rd: Side
    var wr: Side
    var batching: nat
    var starved: nat
    var lastSector: nat
    var queueHead: seq<nat>
    var nrSorted: int
    const tuning: Tuning

    ghost function View(): Sched
      reads this
    {
      Sched(rq, rd, wr, batching, starved, lastSector, queueHead, nrSorted)
    }

    /** deadline_init_queue */
    constructor (t: Tuning)
      ensures View() == EMPTY && tuning == t
    {
      tuning := t;
      rq, rd, wr := map[], Side([], [], None), Side([], [], None);
      batching, starved, lastSector, queueHead, nrSorted := 0, 0, 0, [], 0;
    }

    function At(write: bool): Side
      reads this
    {
      if write then wr else rd
    }

    method Put(write: bool, s: Side)
      modifies `rd, `wr
      ensures View() == old(View()).With(write, s)
    {
      if write {
        wr := s;
      } else {
        rd := s;
      }
    }

    /** deadline_latter_request */
    method LatterRequest(x: nat) returns (n: Option<nat>)
      requires x in rq
      ensures n == Latter(At(rq[x].write).sort, x)
    {
      var s := At(rq[x].write).sort;
      var k: nat := 0;
      while k + 1 < |s| && s[k] != x
        invariant k <= |s| && Latter(s, x) == Latter(s[k..], x)
      {
        assert s[k..][1..] == s[k + 1..];
        k := k + 1;
      }
      n := if k + 1 < |s| then Some(s[k + 1]) else None;
    }

    /** elv_rb_add: link the request, or return the one that is in its place. */
    method RbAdd(x: nat) returns (alias: Option<nat>)
      requires x in rq && Known(View())
      modifies `rd, `wr
      ensures alias == Alias(rq, old(At(rq[x].write).sort), rq[x].pos)
      ensures View() == if alias.Some? then old(View()) else Link(old(View()), x)
    {
      var w := rq[x].write;
      var s := At(w);
      var k: nat := 0;
      while k < |s.sort| && rq[s.sort[k]].pos < rq[x].pos
        invariant k <= |s.sort| && Place(rq, s.sort, rq[x].pos) == k + Place(rq, s.sort[k..], rq[x].pos)
      {
        assert s.sort[k..][1..] == s.sort[k + 1..];
        k := k + 1;
      }
      if k < |s.sort| && rq[s.sort[k]].pos == rq[x].pos {
        return Some(s.sort[k]);
      }
      Put(w, s.(sort := s.sort[..k] + [x] + s.sort[k..]));
      return None;
    }

    /** deadline_del_rq_rb and rq_fifo_clear: deadline_remove_request */
    method RemoveRequest(x: nat)
      requires x in rq
      modifies `rd, `wr
      ensures View() == Remove(old(View()), x)
    {
      var w := rq[x].write;
      var s := At(w);
      var fifo := Delete(s.fifo, x);
      var next := s.next;
      if next == Some(x) {
        next := LatterRequest(x);
      }
      var sort := Delete(s.sort, x);
      Put(w, Side(sort, fifo, next));
    }

    /** elv_dispatch_add_tail */
    method DispatchAddTail(x: nat)
      modifies `queueHead, `nrSorted
      ensures queueHead == old(queueHead) + [x] && nrSorted == old(nrSorted) - 1
    {
      nrSorted := nrSorted - 1;
      queueHead := queueHead + [x];
    }

    /** deadline_move_request */
    method MoveRequest(x: nat)
      requires x in rq && (forall y :: y in At(rq[x].write).sort ==> y in rq) && PosSorted(rq, At(rq[x].write).sort)
      modifies this
      ensures View() == Move(old(View()), x)
    {
      hide Without, Latter, PosSorted;
      LatterIn(rq, At(rq[x].write).sort, x);
      var next := LatterRequest(x);
      rd := rd.(next := None);
      wr := wr.(next := None);
      Put(rq[x].write, At(rq[x].write).(next := next));
      lastSector := rq[x].pos + rq[x].sectors;
      RemoveRequest(x);
      DispatchAddTail(x);
    }

    /** deadline_add_rq_rb.  Positions are unique, so at most one request is sent on. */
    method AddRqRb(x: nat, ghost now: nat)
      requires x in rq && InvGap(tuning, View(), now, {x})
      modifies this
      ensures Known(old(View())) && View() == AddSorted(old(View()), x)
    {
      hide SideGap, Move, Link, Alias, PosSorted;
      SideFacts(tuning, View(), now, {x});
      ghost var d := View();
      ClearedKeeps(tuning, d, now, x);
      ClearedOnce(tuning, d, now, x);
      var alias := RbAdd(x);
      while alias.Some?
        invariant rq == old(rq)
        invariant alias.Some? ==> View() == d && alias == Alias(rq, At(rq[x].write).sort, rq[x].pos)
        invariant alias.None? ==> View() == AddSorted(d, x)
        decreases alias.Some?
      {
        SideFacts(tuning, View(), now, {x});
        AliasOnly(rq, At(rq[x].write).sort, rq[x].pos);
        MoveRequest(alias.value);
        alias := RbAdd(x);
      }
    }

    /** deadline_add_request, after the counting of __elv_add_request */
    method AddRequest(x: nat, r: Rq, now: nat, ghost was: nat)
      requires Inv(tuning, View(), was) && was <= now && !View().Holds(x)
      modifies this
      ensures Known(old(View())) && View() == Add(tuning, old(View()), x, r, now)
      ensures Inv(tuning, View(), now)
    {
      hide SideGap, AddSorted;
      ghost var d := View();
      AddKeeps(tuning, d, was, now, x, r);
      SideFacts(tuning, d, was, {});
      nrSorted := nrSorted + 1;
      rq := rq[x := r.(time := now + tuning.Expire(r.write))];
      SideFrame(tuning, d.rq, rq, rd, false, was, now, {});
      SideFrame(tuning, d.rq, rq, wr, true, was, now, {});
      NewGap(tuning, rq, rd, false, now, x);
      NewGap(tuning, rq, wr, true, now, x);
      AddRqRb(x, now);
      var s := At(r.write);
      Put(r.write, s.(fifo := s.fifo + [x]));
    }

    /** bio_attempt_front_merge moves the start; deadline_merged_request repositions. */
    method FrontMergedRequest(x: nat, len: nat, ghost now: nat)
      requires Inv(tuning, View(), now) && View().Holds(x) && (x in rq ==> len <= rq[x].pos)
      modifies this
      ensures x in old(rq) && Known(old(View())) && View() == FrontMerged(old(View()), x, len)
      ensures Inv(tuning, View(), now)
    {
      hide SideGap, AddSorted, Without;
      ghost var d := View();
      FrontMergedKeeps(tuning, d, now, x, len);
      SideFacts(tuning, d, now, {});
      var r := rq[x];
      var s := At(r.write);
      WithoutCounts(s.sort, x);
      var sort := Delete(s.sort, x);
      Put(r.write, s.(sort := sort));
      rq := rq[x := r.(pos := r.pos - len, sectors := r.sectors + len)];
      GapSide(tuning, d.rq, rq, s, r.write, now, x);
      GapOther(tuning, d.rq, rq, d.At(!r.write), !r.write, now, x);
      AddRqRb(x, now);
    }

    /** deadline_merged_requests and the counting of elv_merge_requests.  list_move puts x
        behind y, and then y is unlinked. */
    method JoinRequests(x: nat, y: nat, ghost now: nat)
      requires Inv(tuning, View(), now) && View().Holds(x) && View().Holds(y) && x != y
      requires x in rq && y in rq ==> rq[x].write == rq[y].write
      modifies this
      ensures x in old(rq) && y in old(rq) && View() == MergedRequests(old(View()), x, y)
      ensures Inv(tuning, View(), now)
    {
      hide SideGap, Without, InPlaceOf, Latter;
      ghost var d := View();
      MergedRequestsKeeps(tuning, d, now, x, y);
      var r := rq[x].(sectors := rq[x].sectors + rq[y].sectors);
      if rq[y].time < r.time {
        var s := At(r.write);
        var l := Delete(s.fifo, x);
        l := ListReplace(l, y, x);
        Put(r.write, s.(fifo := l));
        r := r.(time := rq[y].time);
      }
      rq := rq[x := r];
      RemoveRequest(y);
      nrSorted := nrSorted - 1;
    }

    static method ListReplace(l: seq<nat>, y: nat, x: nat) returns (r: seq<nat>)
      ensures r == InPlaceOf(l, y, x)
    {
      r := [];
      var k: nat := |l|;
      while k > 0
        invariant k <= |l| && r == InPlaceOf(l[k..], y, x)
      {
        k := k - 1;
        assert l[k..][1..] == l[k + 1..];
        r := [if l[k] == y then x else l[k]] + r;
      }
      assert l[0..] == l;
    }

    /** deadline_dispatch_requests */
    method DispatchRequests(now: nat, ghost was: nat) returns (some: bool)
      requires Inv(tuning, View(), was) && was <= now
      modifies this
      ensures Ready(old(View())) && View() == Dispatch(tuning, old(View()), now)
      ensures some <==> old(Count(View())) > 0
      ensures Inv(tuning, View(), now) && Conserved(old(View()), View(), multiset{}, multiset{})
      ensures some ==> Count(View()) == old(Count(View())) - 1
    {
      hide SideGap, Move, PosSorted, Charged, Pick;
      ghost var d := View();
      DispatchKeeps(tuning, d, was, now);
      SendOne(tuning, d, was, now);
      SideFacts(tuning, d, was, {});
      PickHeld(tuning, d, was, now);
      var x := SelectRequest(now);
      if x.None? {
        return false;
      }
      ChargedFields(tuning, d);
      MoveRequest(x.value);
      some := true;
    }

    /** Which request goes next, and the batching and starvation counters. */
    method SelectRequest(now: nat) returns (x: Option<nat>)
      requires Ready(View())
      modifies `batching, `starved
      ensures x == Pick(tuning, old(View()), now)
      ensures View() == if x.None? then old(View()) else Charged(tuning, old(View()))
    {
      var pending, waiting := rd.fifo != [], wr.fifo != [];
      var batch := if wr.next.Some? then wr.next else rd.next;
      if batch.Some? && batching < tuning.batch {
        x := batch;
      } else {
        var write;
        if pending {
          write := false;
          if waiting {
            var starving := starved >= tuning.Starve();
            starved := (starved + 1) % 0x1_0000_0000;
            if starving {
              starved := 0;
              write := true;
            }
          }
        } else if waiting {
          starved := 0;
          write := true;
        } else {
          return None;
        }
        var s := At(write);
        if now > rq[s.fifo[0]].time || s.next.None? {
          x := Some(s.fifo[0]);
        } else {
          x := s.next;
        }
        batching := 0;
      }
      batching := batching + 1;
    }

    /** elv_drain_elevator: the loop ends, everything held is on the dispatch queue, once, and
        nr_sorted is 0, so nothing is reported. */
    method DrainElevator(now: nat, ghost was: nat) returns (broken: bool)
      requires Inv(tuning, View(), was) && was <= now
      modifies this
      ensures !broken && nrSorted == 0 && Count(View()) == 0
      ensures old(queueHead) <= queueHead && multiset(queueHead[|old(queueHead)|..]) == old(Held(View()))
    {
      hide SideGap, Dispatch, Ready;
      ghost var d := View();
      Later(tuning, d, was, now);
      assert d.out[|d.out|..] == [];
      var some := true;
      while some
        invariant Inv(tuning, View(), now) && Conserved(d, View(), multiset{}, multiset{})
        invariant !some ==> Count(View()) == 0
        decreases Count(View()), some
      {
        ghost var e := View();
        some := DispatchRequests(now, now);
        ConservedAgain(d, e, View());
      }
      ConservedPlain(d, View());
      Nothing(View(), multiset(queueHead[|d.out|..]));
      broken := nrSorted != 0;
    }
  }
}
