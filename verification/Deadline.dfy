/** The deadline I/O scheduler, block/deadline-iosched.c, with the dispatch queue and the
    count of sorted requests of block/elevator.c. */
module Deadline {
  import opened Lists

  /** What the scheduler uses of a struct request. */
  datatype Rq = Rq(pos: nat, sectors: nat, write: bool, time: nat)

  /** sort_list, fifo_list and next_rq of one data direction; the tree as its in-order walk. */
  datatype Side = Side(sort: seq<nat>, fifo: seq<nat>, next: Option<nat>)

  /** The tunables.  fifo_expire and fifo_batch cannot be set below 0, writes_starved can. */
  datatype Tuning = Tuning(readExpire: nat, writeExpire: nat, batch: nat, writesStarved: int) {
    function Expire(write: bool): nat { if write then writeExpire else readExpire }

    /** writes_starved as the comparison with an unsigned counter sees it. */
    function Starve(): nat { writesStarved % 0x1_0000_0000 }
  }

  datatype Sched = Sched(
    rq: map<nat, Rq>, rd: Side, wr: Side,
    batching: nat, starved: nat, lastSector: nat,
    out: seq<nat>, nrSorted: int)
  {
    function At(write: bool): Side { if write then wr else rd }

    function With(write: bool, s: Side): Sched {
      if write then this.(wr := s) else this.(rd := s)
    }

    ghost predicate Holds(x: nat) { x in rd.fifo || x in wr.fifo }
  }

  const EMPTY := Sched(map[], Side([], [], None), Side([], [], None), 0, 0, 0, [], 0)

  // ------------------------------------------------------------------- operations

  /** rb_next */
  function Latter(sort: seq<nat>, x: nat): Option<nat> {
    if |sort| < 2 then None
    else if sort[0] == x then Some(sort[1])
    else Latter(sort[1..], x)
  }

  /** Where elv_rb_add comes to: the number of entries with a smaller position. */
  function Place(rq: map<nat, Rq>, sort: seq<nat>, pos: nat): (k: nat)
    requires forall x :: x in sort ==> x in rq
    ensures k <= |sort|
  {
    if sort == [] || rq[sort[0]].pos >= pos then 0 else 1 + Place(rq, sort[1..], pos)
  }

  /** The request that elv_rb_add finds at the same position, if any. */
  function Alias(rq: map<nat, Rq>, sort: seq<nat>, pos: nat): Option<nat>
    requires forall x :: x in sort ==> x in rq
  {
    var k := Place(rq, sort, pos);
    if k < |sort| && rq[sort[k]].pos == pos then Some(sort[k]) else None
  }

  /** deadline_move_request: to the tail of the dispatch queue, the batch going on behind it. */
  function Move(d: Sched, x: nat): Sched
    requires x in d.rq
  {
    var r := d.rq[x];
    var s := d.At(r.write);
    var e := d.(rd := d.rd.(next := None), wr := d.wr.(next := None));
    e.With(r.write, Side(Without(s.sort, x), Without(s.fifo, x), Latter(s.sort, x)))
     .(lastSector := r.pos + r.sectors, out := d.out + [x], nrSorted := d.nrSorted - 1)
  }

  /** deadline_remove_request */
  function Remove(d: Sched, x: nat): Sched
    requires x in d.rq
  {
    var w := d.rq[x].write;
    var s := d.At(w);
    var next := if s.next == Some(x) then Latter(s.sort, x) else s.next;
    d.With(w, Side(Without(s.sort, x), Without(s.fifo, x), next))
  }

  ghost predicate Known(d: Sched) {
    (forall x :: x in d.rd.sort ==> x in d.rq) && (forall x :: x in d.wr.sort ==> x in d.rq)
  }

  function Link(d: Sched, x: nat): Sched
    requires x in d.rq && forall y :: y in d.At(d.rq[x].write).sort ==> y in d.rq
  {
    var w := d.rq[x].write;
    var s := d.At(w);
    var k := Place(d.rq, s.sort, d.rq[x].pos);
    d.With(w, s.(sort := s.sort[..k] + [x] + s.sort[k..]))
  }

  /** A request already at the position of x is sent on first. */
  ghost function Cleared(d: Sched, x: nat): Sched
    requires x in d.rq && Known(d)
    ensures Known(Cleared(d, x)) && Cleared(d, x).rq == d.rq
  {
    var s := d.At(d.rq[x].write);
    match Alias(d.rq, s.sort, d.rq[x].pos)
    case None => d
    case Some(a) =>
      WithoutCounts(d.rd.sort, a);
      WithoutCounts(d.wr.sort, a);
      Move(d, a)
  }

  /** deadline_add_rq_rb */
  ghost function AddSorted(d: Sched, x: nat): Sched
    requires x in d.rq && Known(d)
  {
    Link(Cleared(d, x), x)
  }

  /** __elv_add_request and deadline_add_request of a request that is not queued. */
  ghost function Add(c: Tuning, d: Sched, x: nat, r: Rq, now: nat): Sched
    requires Known(d)
  {
    var e := AddSorted(d.(rq := d.rq[x := r.(time := now + c.Expire(r.write))], nrSorted := d.nrSorted + 1), x);
    var s := e.At(r.write);
    e.With(r.write, s.(fifo := s.fifo + [x]))
  }

  /** A bio merged at the back: only the length changes. */
  function BackMerged(d: Sched, x: nat, len: nat): Sched
    requires x in d.rq
  {
    d.(rq := d.rq[x := d.rq[x].(sectors := d.rq[x].sectors + len)])
  }

  /** A bio merged at the front, and deadline_merged_request. */
  ghost function FrontMerged(d: Sched, x: nat, len: nat): Sched
    requires x in d.rq && len <= d.rq[x].pos && Known(d)
  {
    var r := d.rq[x];
    var s := d.At(r.write);
    WithoutCounts(s.sort, x);
    var e := d.With(r.write, s.(sort := Without(s.sort, x)));
    AddSorted(e.(rq := d.rq[x := r.(pos := r.pos - len, sectors := r.sectors + len)]), x)
  }

  /** Put `x` where `y` is. */
  function InPlaceOf(s: seq<nat>, y: nat, x: nat): seq<nat> {
    if s == [] then [] else [if s[0] == y then x else s[0]] + InPlaceOf(s[1..], y, x)
  }

  /** attempt_merge of x with y, elv_merge_requests and deadline_merged_requests. */
  function MergedRequests(d: Sched, x: nat, y: nat): Sched
    requires x in d.rq && y in d.rq
  {
    var r, n := d.rq[x], d.rq[y];
    var s := d.At(r.write);
    var e := if n.time < r.time
             then d.With(r.write, s.(fifo := InPlaceOf(Without(s.fifo, x), y, x))).(rq := d.rq[x := r.(sectors := r.sectors + n.sectors, time := n.time)])
             else d.(rq := d.rq[x := r.(sectors := r.sectors + n.sectors)]);
    Remove(e, y).(nrSorted := d.nrSorted - 1)
  }

  /** The request the running batch goes on with. */
  function Batched(d: Sched): Option<nat> {
    if d.wr.next.Some? then d.wr.next else d.rd.next
  }

  predicate Batching(c: Tuning, d: Sched) {
    Batched(d).Some? && d.batching < c.batch
  }

  /** Writes are selected: no reads, or they have starved long enough. */
  predicate PickWrite(c: Tuning, d: Sched) {
    d.wr.fifo != [] && (d.rd.fifo == [] || d.starved >= c.Starve())
  }

  /** The request to start a batch with. */
  function Head(d: Sched, write: bool, now: nat): nat
    requires d.At(write).fifo != [] && d.At(write).fifo[0] in d.rq
  {
    var s := d.At(write);
    if now > d.rq[s.fifo[0]].time || s.next.None? then s.fifo[0] else s.next.value
  }

  ghost predicate Ready(d: Sched) {
    && Known(d)
    && (forall x :: x in d.rd.fifo ==> x in d.rq) && (forall x :: x in d.wr.fifo ==> x in d.rq)
    && (d.rd.next.Some? ==> d.rd.next.value in d.rq) && (d.wr.next.Some? ==> d.wr.next.value in d.rq)
  }

  /** deadline_dispatch_requests: which request, if any, */
  ghost function Pick(c: Tuning, d: Sched, now: nat): Option<nat>
    requires Ready(d)
  {
    if Batching(c, d) then Batched(d)
    else if PickWrite(c, d) then Some(Head(d, true, now))
    else if d.rd.fifo != [] then Some(Head(d, false, now))
    else None
  }

  /** the counters once a request is selected, */
  function Charged(c: Tuning, d: Sched): Sched {
    if Batching(c, d) then d.(batching := d.batching + 1)
    else d.(batching := 1, starved :=
            if PickWrite(c, d) then 0
            else if d.wr.fifo != [] then (d.starved + 1) % 0x1_0000_0000
            else d.starved)
  }

  /** and what becomes of the scheduler. */
  ghost function Dispatch(c: Tuning, d: Sched, now: nat): Sched
    requires Ready(d)
  {
    match Pick(c, d, now)
    case None => d
    case Some(x) =>
      Move(Charged(c, d), x)
  }

  // -------------------------------------------------------------------- invariant

  ghost predicate PosSorted(rq: map<nat, Rq>, s: seq<nat>)
    requires forall x :: x in s ==> x in rq
  {
    forall i, j :: 0 <= i < j < |s| ==> rq[s[i]].pos < rq[s[j]].pos
  }

  ghost predicate TimeSorted(rq: map<nat, Rq>, s: seq<nat>)
    requires forall x :: x in s ==> x in rq
  {
    forall i, j :: 0 <= i < j < |s| ==> rq[s[i]].time <= rq[s[j]].time
  }

  /** Both views of one direction hold the same requests, each once, in their own order;
      while a request is being repositioned it is missing (`gap`) from the sort list. */
  ghost predicate SideGap(c: Tuning, rq: map<nat, Rq>, s: Side, w: bool, now: nat, gap: set<nat>) {
    && (forall x :: x in s.sort <==> x in s.fifo && x !in gap)
    && (forall x :: x in s.fifo ==> x in rq && rq[x].write == w && rq[x].time <= now + c.Expire(w))
    && PosSorted(rq, s.sort) && TimeSorted(rq, s.fifo) && NoDup(s.fifo)
    && (s.next.Some? ==> s.next.value in s.fifo)
  }

  ghost predicate InvGap(c: Tuning, d: Sched, now: nat, gap: set<nat>) {
    && SideGap(c, d.rq, d.rd, false, now, gap) && SideGap(c, d.rq, d.wr, true, now, gap)
    && (d.rd.next.None? || d.wr.next.None?)
    && d.starved <= c.Starve()
  }

  ghost predicate Inv(c: Tuning, d: Sched, now: nat) {
    InvGap(c, d, now, {}) && d.nrSorted == |d.rd.fifo| + |d.wr.fifo|
  }

  ghost function Held(d: Sched): multiset<nat> {
    multiset(d.rd.fifo) + multiset(d.wr.fifo)
  }

  /** What the invariant says of one direction in every reachable state. */
  lemma ViewsAgree(c: Tuning, d: Sched, now: nat, w: bool)
    requires Inv(c, d, now)
    ensures var s := d.At(w);
            && (forall x :: x in s.sort <==> x in s.fifo) && NoDup(s.sort) && NoDup(s.fifo) && |s.sort| == |s.fifo|
            && (forall x :: x in s.sort ==> x in d.rq && d.rq[x].write == w)
            && PosSorted(d.rq, s.sort) && TimeSorted(d.rq, s.fifo)
            && (s.next.Some? ==> s.next.value in s.sort && d.At(!w).next.None?)
  {
    var s := d.At(w);
    PosNoDup(d.rq, s.sort);
    SameSize(s.sort, s.fifo);
  }

  lemma InvReady(c: Tuning, d: Sched, now: nat, gap: set<nat>)
    requires InvGap(c, d, now, gap)
    ensures Ready(d)
  {
  }

  // ------------------------------------------------------------------ list lemmas

  lemma {:induction false} LatterIn(rq: map<nat, Rq>, sort: seq<nat>, x: nat)
    requires (forall y :: y in sort ==> y in rq) && PosSorted(rq, sort)
    ensures var l := Latter(sort, x);
            && (l.Some? ==> x in sort && l.value in sort && l.value != x && rq[x].pos < rq[l.value].pos)
            && (x in sort ==> forall y :: y in sort && rq[x].pos < rq[y].pos ==> l.Some? && rq[l.value].pos <= rq[y].pos)
  {
    if |sort| >= 2 {
      assert forall i :: 0 <= i < |sort| - 1 ==> sort[1..][i] == sort[i + 1];
      assert sort[1] in sort;
      LatterIn(rq, sort[1..], x);
      if sort[0] == x {
        assert forall y :: y in sort && y != x ==> exists i :: 1 <= i < |sort| && sort[i] == y;
      }
    }
  }

  lemma PosNoDup(rq: map<nat, Rq>, s: seq<nat>)
    requires (forall y :: y in s ==> y in rq) && PosSorted(rq, s)
    ensures NoDup(s)
  {
  }

  lemma {:induction false} PlaceSplits(rq: map<nat, Rq>, sort: seq<nat>, pos: nat)
    requires (forall y :: y in sort ==> y in rq) && PosSorted(rq, sort)
    ensures var k := Place(rq, sort, pos);
            && (forall i :: 0 <= i < k ==> rq[sort[i]].pos < pos)
            && (forall i :: k <= i < |sort| ==> rq[sort[i]].pos >= pos)
            && (forall i :: k < i < |sort| ==> rq[sort[i]].pos > pos)
  {
    if sort != [] && rq[sort[0]].pos < pos {
      assert forall i :: 0 <= i < |sort| - 1 ==> sort[1..][i] == sort[i + 1];
      PlaceSplits(rq, sort[1..], pos);
      var k := Place(rq, sort[1..], pos);
      assert forall i :: 1 <= i < |sort| ==> sort[i] == sort[1..][i - 1];
    }
  }

  /** No alias means that no request stands at the position; an alias is the only one. */
  lemma AliasOnly(rq: map<nat, Rq>, sort: seq<nat>, pos: nat)
    requires (forall y :: y in sort ==> y in rq) && PosSorted(rq, sort)
    ensures match Alias(rq, sort, pos)
            case None => forall y :: y in sort ==> rq[y].pos != pos
            case Some(a) => a in sort && rq[a].pos == pos && forall y :: y in sort && y != a ==> rq[y].pos != pos
  {
    PlaceSplits(rq, sort, pos);
  }

  lemma CutSorted(rq: map<nat, Rq>, s: Side, i: nat, j: nat)
    requires (forall y :: y in s.sort ==> y in rq) && (forall y :: y in s.fifo ==> y in rq)
    requires PosSorted(rq, s.sort) && TimeSorted(rq, s.fifo) && i < |s.sort| && j < |s.fifo|
    ensures var a, b := s.sort[..i] + s.sort[i + 1..], s.fifo[..j] + s.fifo[j + 1..];
            && (forall y :: y in a ==> y in rq) && (forall y :: y in b ==> y in rq)
            && PosSorted(rq, a) && TimeSorted(rq, b)
  {
    var a, b := s.sort[..i] + s.sort[i + 1..], s.fifo[..j] + s.fifo[j + 1..];
    assert forall k :: 0 <= k < |a| ==> a[k] == s.sort[if k < i then k else k + 1];
    assert forall k :: 0 <= k < |b| ==> b[k] == s.fifo[if k < j then k else k + 1];
  }

  // ------------------------------------------------------------- one side at a time

  /** Taking a request out of both lists. */
  lemma RemoveSide(c: Tuning, rq: map<nat, Rq>, s: Side, w: bool, now: nat, gap: set<nat>, x: nat, next: Option<nat>)
    requires SideGap(c, rq, s, w, now, gap) && x in s.sort
    requires next.Some? ==> next.value in s.fifo && next.value != x
    ensures var t := Side(Without(s.sort, x), Without(s.fifo, x), next);
            && SideGap(c, rq, t, w, now, gap) && |t.fifo| == |s.fifo| - 1
            && multiset(t.fifo) + multiset{x} == multiset(s.fifo)
  {
    hide PosSorted, TimeSorted, NoDup, Without;
    PosNoDup(rq, s.sort);
    WithoutCounts(s.sort, x);
    WithoutCounts(s.fifo, x);
    var i :| 0 <= i < |s.sort| && s.sort[i] == x;
    var j :| 0 <= j < |s.fifo| && s.fifo[j] == x;
    WithoutCut(s.sort, i);
    WithoutCut(s.fifo, j);
    CutNoDup(s.fifo, j);
    CutCount(s.fifo, j);
    CutSorted(rq, s, i, j);
  }

  lemma SideFrame(c: Tuning, rq: map<nat, Rq>, rq': map<nat, Rq>, s: Side, w: bool, now: nat, now': nat, gap: set<nat>)
    requires SideGap(c, rq, s, w, now, gap) && now <= now'
    requires forall x :: x in s.fifo ==> x in rq' && rq'[x] == rq[x]
    ensures SideGap(c, rq', s, w, now', gap)
  {
  }

  /** A request at a free position is linked into the sort list in order. */
  lemma LinkSorted(rq: map<nat, Rq>, sort: seq<nat>, x: nat)
    requires x in rq && (forall y :: y in sort ==> y in rq && rq[y].pos != rq[x].pos) && PosSorted(rq, sort)
    ensures var k := Place(rq, sort, rq[x].pos);
            var t := sort[..k] + [x] + sort[k..];
            && (forall y :: y in t <==> y in sort || y == x) && PosSorted(rq, t)
  {
    hide PosSorted, Place;
    PlaceSplits(rq, sort, rq[x].pos);
    var k := Place(rq, sort, rq[x].pos);
    assert sort == sort[..k] + sort[k..];
    LinkAt(rq, sort, x, k);
  }

  lemma LinkAt(rq: map<nat, Rq>, sort: seq<nat>, x: nat, k: nat)
    requires x in rq && (forall y :: y in sort ==> y in rq) && PosSorted(rq, sort) && k <= |sort|
    requires (forall i :: 0 <= i < k ==> rq[sort[i]].pos < rq[x].pos) && (forall i :: k <= i < |sort| ==> rq[sort[i]].pos > rq[x].pos)
    ensures var t := sort[..k] + [x] + sort[k..]; (forall y :: y in t ==> y in rq) && PosSorted(rq, t)
  {
    var t := sort[..k] + [x] + sort[k..];
    assert forall i :: 0 <= i < |t| ==> t[i] == if i < k then sort[i] else if i == k then x else sort[i - 1];
  }

  lemma LinkHeld(c: Tuning, rq: map<nat, Rq>, s: Side, w: bool, now: nat, x: nat)
    requires SideGap(c, rq, s, w, now, {x}) && x in s.fifo
    requires forall y :: y in s.sort ==> rq[y].pos != rq[x].pos
    ensures var k := Place(rq, s.sort, rq[x].pos);
            SideGap(c, rq, s.(sort := s.sort[..k] + [x] + s.sort[k..]), w, now, {})
  {
    hide PosSorted, TimeSorted, NoDup, Place;
    LinkSorted(rq, s.sort, x);
  }

  lemma LinkNew(c: Tuning, rq: map<nat, Rq>, s: Side, w: bool, now: nat, x: nat)
    requires SideGap(c, rq, s, w, now, {x}) && x !in s.fifo && x in rq
    requires rq[x].write == w && rq[x].time == now + c.Expire(w)
    requires forall y :: y in s.sort ==> rq[y].pos != rq[x].pos
    ensures var k := Place(rq, s.sort, rq[x].pos);
            SideGap(c, rq, Side(s.sort[..k] + [x] + s.sort[k..], s.fifo + [x], s.next), w, now, {})
  {
    hide PosSorted, Place;
    LinkSorted(rq, s.sort, x);
  }

  lemma {:induction false} InPlaceOfIs(s: seq<nat>, y: nat, x: nat)
    ensures var t := InPlaceOf(s, y, x);
            |t| == |s| && forall i :: 0 <= i < |s| ==> t[i] == if s[i] == y then x else s[i]
  {
    if s != [] {
      InPlaceOfIs(s[1..], y, x);
    }
  }

  // ------------------------------------------------------------------- operations

  lemma MoveKeeps(c: Tuning, d: Sched, now: nat, gap: set<nat>, x: nat)
    requires InvGap(c, d, now, gap) && x in d.rq && x in d.At(d.rq[x].write).sort
    ensures InvGap(c, Move(d, x), now, gap)
    ensures Held(Move(d, x)) + multiset{x} == Held(d)
    ensures |Move(d, x).rd.fifo| + |Move(d, x).wr.fifo| == |d.rd.fifo| + |d.wr.fifo| - 1
    ensures forall y :: y in Move(d, x).At(d.rq[x].write).sort <==> y in d.At(d.rq[x].write).sort && y != x
  {
    hide PosSorted, TimeSorted, NoDup, Without, Latter;
    var w := d.rq[x].write;
    var s := d.At(w);
    LatterIn(d.rq, s.sort, x);
    RemoveSide(c, d.rq, s, w, now, gap, x, Latter(s.sort, x));
    WithoutCounts(s.sort, x);
  }

  /** d' holds what d held, less `gone`, plus `more`, and what left went to the dispatch queue. */
  ghost predicate Conserved(d: Sched, d': Sched, more: multiset<nat>, gone: multiset<nat>) {
    && d.out <= d'.out
    && Held(d') + multiset(d'.out[|d.out|..]) + gone == Held(d) + more
  }

  lemma ConservedPlain(d: Sched, d': Sched)
    ensures Conserved(d, d', multiset{}, multiset{}) <==>
            d.out <= d'.out && Held(d') + multiset(d'.out[|d.out|..]) == Held(d)
  {
    assert Held(d) + multiset{} == Held(d);
    if d.out <= d'.out {
      var o := multiset(d'.out[|d.out|..]);
      assert Held(d') + o + multiset{} == Held(d') + o;
    }
  }

  lemma OneMore(a: multiset<nat>, b: multiset<nat>, o: multiset<nat>, b': multiset<nat>, x: nat)
    requires b + o + multiset{} == a + multiset{} && b + multiset{x} == b'
    ensures b' + o + multiset{} == a + multiset{x}
  {
    assert a + multiset{} == a && b + o + multiset{} == b + o && b' + o + multiset{} == b' + o;
    assert b' + o == (b + o) + multiset{x};
  }

  ghost function Count(d: Sched): nat {
    |d.rd.fifo| + |d.wr.fifo|
  }

  /** What the sides of a state in order hold. */
  lemma SideFacts(c: Tuning, d: Sched, now: nat, gap: set<nat>)
    requires InvGap(c, d, now, gap)
    ensures Known(d) && PosSorted(d.rq, d.rd.sort) && PosSorted(d.rq, d.wr.sort)
    ensures forall x :: x in d.rd.fifo ==> x in d.rq && !d.rq[x].write
    ensures forall x :: x in d.wr.fifo ==> x in d.rq && d.rq[x].write
    ensures forall x :: x in d.rd.sort <==> x in d.rd.fifo && x !in gap
    ensures forall x :: x in d.wr.sort <==> x in d.wr.fifo && x !in gap
  {
  }

  lemma UngapOther(c: Tuning, rq: map<nat, Rq>, s: Side, w: bool, now: nat, x: nat)
    requires SideGap(c, rq, s, w, now, {x}) && x !in s.fifo
    ensures SideGap(c, rq, s, w, now, {})
  {
  }

  /** After the alias, if any, is sent on, the position is free. */
  lemma ClearedKeeps(c: Tuning, d: Sched, now: nat, x: nat)
    requires InvGap(c, d, now, {x}) && x in d.rq && Known(d)
    ensures var w := d.rq[x].write;
            var e := Cleared(d, x);
            && InvGap(c, e, now, {x}) && Conserved(d, e, multiset{}, multiset{})
            && (forall y :: y in e.At(w).sort ==> d.rq[y].pos != d.rq[x].pos)
            && (x in d.At(w).fifo <==> x in e.At(w).fifo) && e.At(!w).fifo == d.At(!w).fifo
            && Count(e) - e.nrSorted == Count(d) - d.nrSorted
  {
    hide SideGap, PosSorted, TimeSorted, NoDup, Without, Latter, Place, Alias;
    SideFacts(c, d, now, {x});
    var w := d.rq[x].write;
    var s := d.At(w);
    AliasOnly(d.rq, s.sort, d.rq[x].pos);
    match Alias(d.rq, s.sort, d.rq[x].pos)
    case None =>
      assert d.out[|d.out|..] == [];
    case Some(a) =>
      MoveKeeps(c, d, now, {x}, a);
      WithoutCounts(s.fifo, a);
      assert (d.out + [a])[|d.out|..] == [a];
  }

  /** One request at the position at most: once it is gone there is no other. */
  lemma ClearedOnce(c: Tuning, d: Sched, now: nat, x: nat)
    requires InvGap(c, d, now, {x}) && x in d.rq && Known(d)
    ensures var e := Cleared(d, x); Alias(d.rq, e.At(d.rq[x].write).sort, d.rq[x].pos).None?
  {
    hide SideGap, PosSorted, Cleared, Place;
    ClearedKeeps(c, d, now, x);
    SideFacts(c, Cleared(d, x), now, {x});
    AliasOnly(d.rq, Cleared(d, x).At(d.rq[x].write).sort, d.rq[x].pos);
  }

  /** Relinking a request that is still on the FIFO. */
  lemma RelinkKeeps(c: Tuning, d: Sched, now: nat, x: nat)
    requires InvGap(c, d, now, {x}) && x in d.rq && x in d.At(d.rq[x].write).fifo && Known(d)
    ensures InvGap(c, AddSorted(d, x), now, {}) && Conserved(d, AddSorted(d, x), multiset{}, multiset{})
    ensures Count(AddSorted(d, x)) - AddSorted(d, x).nrSorted == Count(d) - d.nrSorted
    ensures AddSorted(d, x).Holds(x)
  {
    hide SideGap, Cleared, Place;
    ClearedKeeps(c, d, now, x);
    SideFacts(c, d, now, {x});
    var w := d.rq[x].write;
    var e := Cleared(d, x);
    LinkHeld(c, d.rq, e.At(w), w, now, x);
    UngapOther(c, d.rq, e.At(!w), !w, now, x);
  }

  /** Linking a new request and putting it last on the FIFO. */
  lemma EnterKeeps(c: Tuning, d: Sched, now: nat, x: nat)
    requires InvGap(c, d, now, {x}) && x in d.rq && !d.Holds(x) && Known(d)
    requires d.rq[x].time == now + c.Expire(d.rq[x].write)
    ensures var w := d.rq[x].write;
            var e := AddSorted(d, x);
            var f := e.With(w, e.At(w).(fifo := e.At(w).fifo + [x]));
            && InvGap(c, f, now, {}) && Conserved(d, f, multiset{x}, multiset{}) && f.Holds(x)
            && Count(f) - f.nrSorted == Count(d) - d.nrSorted + 1
  {
    hide SideGap, Cleared, Place;
    ClearedKeeps(c, d, now, x);
    SideFacts(c, d, now, {x});
    var w := d.rq[x].write;
    var e := Cleared(d, x);
    LinkNew(c, d.rq, e.At(w), w, now, x);
    UngapOther(c, d.rq, e.At(!w), !w, now, x);
    assert multiset(e.At(w).fifo + [x]) == multiset(e.At(w).fifo) + multiset{x};
    var l := Link(e, x);
    var f := l.With(w, l.At(w).(fifo := l.At(w).fifo + [x]));
    assert Held(e) + multiset{x} == Held(f);
    OneMore(Held(d), Held(e), multiset(e.out[|d.out|..]), Held(f), x);
  }

  lemma FrontMergedKeeps(c: Tuning, d: Sched, now: nat, x: nat, len: nat)
    requires Inv(c, d, now) && d.Holds(x)
    ensures x in d.rq && Known(d)
    ensures len <= d.rq[x].pos ==> Inv(c, FrontMerged(d, x, len), now) && FrontMerged(d, x, len).Holds(x)
    ensures len <= d.rq[x].pos ==> Conserved(d, FrontMerged(d, x, len), multiset{}, multiset{})
  {
    hide SideGap, Without, AddSorted;
    SideFacts(c, d, now, {});
    if len <= d.rq[x].pos {
      var r := d.rq[x];
      var s := d.At(r.write);
      var rq' := d.rq[x := r.(pos := r.pos - len, sectors := r.sectors + len)];
      WithoutCounts(s.sort, x);
      var e := d.With(r.write, s.(sort := Without(s.sort, x))).(rq := rq');
      GapSide(c, d.rq, rq', s, r.write, now, x);
      GapOther(c, d.rq, rq', d.At(!r.write), !r.write, now, x);
      RelinkKeeps(c, e, now, x);
    }
  }

  lemma CutPos(rq: map<nat, Rq>, rq': map<nat, Rq>, s: seq<nat>, i: nat)
    requires (forall y :: y in s ==> y in rq) && PosSorted(rq, s) && i < |s|
    requires forall y :: y in rq && y != s[i] ==> y in rq' && rq'[y] == rq[y]
    ensures var a := s[..i] + s[i + 1..]; (forall y :: y in a ==> y in rq') && PosSorted(rq', a)
  {
    var a := s[..i] + s[i + 1..];
    PosNoDup(rq, s);
    CutNoDup(s, i);
    assert forall k :: 0 <= k < |a| ==> a[k] == s[if k < i then k else k + 1];
  }

  lemma TimeFrame(rq: map<nat, Rq>, rq': map<nat, Rq>, s: seq<nat>)
    requires forall y :: y in s ==> y in rq && y in rq' && rq'[y].time == rq[y].time
    requires TimeSorted(rq, s)
    ensures TimeSorted(rq', s)
  {
  }

  /** Unlinking from the sort list alone and moving the start. */
  lemma GapSide(c: Tuning, rq: map<nat, Rq>, rq': map<nat, Rq>, s: Side, w: bool, now: nat, x: nat)
    requires SideGap(c, rq, s, w, now, {}) && x in s.fifo
    requires x in rq' && rq'[x].write == w && rq'[x].time == rq[x].time
    requires forall y :: y in rq && y != x ==> y in rq' && rq'[y] == rq[y]
    ensures SideGap(c, rq', s.(sort := Without(s.sort, x)), w, now, {x})
  {
    hide Without, PosSorted, TimeSorted, NoDup;
    PosNoDup(rq, s.sort);
    WithoutCounts(s.sort, x);
    var i :| 0 <= i < |s.sort| && s.sort[i] == x;
    WithoutCut(s.sort, i);
    CutPos(rq, rq', s.sort, i);
    TimeFrame(rq, rq', s.fifo);
  }

  lemma GapOther(c: Tuning, rq: map<nat, Rq>, rq': map<nat, Rq>, s: Side, w: bool, now: nat, x: nat)
    requires SideGap(c, rq, s, w, now, {}) && x !in s.fifo
    requires forall y :: y in rq && y != x ==> y in rq' && rq'[y] == rq[y]
    ensures SideGap(c, rq', s, w, now, {x})
  {
  }

  lemma AddKeeps(c: Tuning, d: Sched, was: nat, now: nat, x: nat, r: Rq)
    requires Inv(c, d, was) && was <= now && !d.Holds(x)
    ensures Known(d) && Inv(c, Add(c, d, x, r, now), now) && Add(c, d, x, r, now).Holds(x)
    ensures Conserved(d, Add(c, d, x, r, now), multiset{x}, multiset{})
  {
    hide SideGap, AddSorted;
    SideFacts(c, d, was, {});
    var q := r.(time := now + c.Expire(r.write));
    var e := d.(rq := d.rq[x := q], nrSorted := d.nrSorted + 1);
    SideFrame(c, d.rq, e.rq, d.rd, false, was, now, {});
    SideFrame(c, d.rq, e.rq, d.wr, true, was, now, {});
    NewGap(c, e.rq, d.rd, false, now, x);
    NewGap(c, e.rq, d.wr, true, now, x);
    EnterKeeps(c, e, now, x);
  }

  lemma NewGap(c: Tuning, rq: map<nat, Rq>, s: Side, w: bool, now: nat, x: nat)
    requires SideGap(c, rq, s, w, now, {}) && x !in s.fifo
    ensures SideGap(c, rq, s, w, now, {x})
  {
  }

  lemma BackMergedKeeps(c: Tuning, d: Sched, now: nat, x: nat, len: nat)
    requires Inv(c, d, now) && d.Holds(x)
    ensures x in d.rq && Inv(c, BackMerged(d, x, len), now)
    ensures Conserved(d, BackMerged(d, x, len), multiset{}, multiset{})
  {
    SideLonger(c, d.rq, d.rd, false, now, x, len);
    SideLonger(c, d.rq, d.wr, true, now, x, len);
    assert d.out[|d.out|..] == [];
  }

  lemma SideLonger(c: Tuning, rq: map<nat, Rq>, s: Side, w: bool, now: nat, x: nat, len: nat)
    requires SideGap(c, rq, s, w, now, {})
    ensures x in rq ==> SideGap(c, rq[x := rq[x].(sectors := rq[x].sectors + len)], s, w, now, {})
  {
  }

  /** The FIFO half of merging y into x: x takes the place and the time of y if those are earlier. */
  lemma EarlierSide(c: Tuning, rq: map<nat, Rq>, s: Side, w: bool, now: nat, x: nat, y: nat)
    requires SideGap(c, rq, s, w, now, {}) && x in s.fifo && y in s.fifo && x != y
    requires rq[y].time < rq[x].time
    ensures var rq' := rq[x := rq[x].(time := rq[y].time)];
            var f := InPlaceOf(Without(s.fifo, x), y, x);
            && (forall z :: z in f <==> z in s.fifo && z != y)
            && TimeSorted(rq', f) && NoDup(f) && |f| == |s.fifo| - 1
            && multiset(f) + multiset{y} == multiset(s.fifo)
  {
    hide PosSorted, Without, InPlaceOf;
    var i :| 0 <= i < |s.fifo| && s.fifo[i] == x;
    var u := s.fifo[..i] + s.fifo[i + 1..];
    WithoutCut(s.fifo, i);
    CutNoDup(s.fifo, i);
    CutIn(s.fifo, i);
    CutCount(s.fifo, i);
    CutTime(rq, s.fifo, i);
    InPlaceOfIs(u, y, x);
    TakePlace(rq, u, y, x);
  }

  lemma CutTime(rq: map<nat, Rq>, s: seq<nat>, i: nat)
    requires (forall y :: y in s ==> y in rq) && TimeSorted(rq, s) && i < |s|
    ensures var a := s[..i] + s[i + 1..]; (forall y :: y in a ==> y in rq) && TimeSorted(rq, a)
  {
    var a := s[..i] + s[i + 1..];
    assert forall k :: 0 <= k < |a| ==> a[k] == s[if k < i then k else k + 1];
  }

  lemma TakePlace(rq: map<nat, Rq>, u: seq<nat>, y: nat, x: nat)
    requires (forall z :: z in u ==> z in rq) && TimeSorted(rq, u) && NoDup(u) && y in u && x !in u && x in rq
    ensures var rq' := rq[x := rq[x].(time := rq[y].time)];
            var f := InPlaceOf(u, y, x);
            && (forall z :: z in f <==> (z in u && z != y) || z == x)
            && TimeSorted(rq', f) && NoDup(f) && |f| == |u| && multiset(f) + multiset{y} == multiset(u) + multiset{x}
  {
    hide InPlaceOf, NoDup;
    InPlaceOfIs(u, y, x);
    var k :| 0 <= k < |u| && u[k] == y;
    OnlyAt(u, k);
    assert InPlaceOf(u, y, x) == u[k := x];
    PlaceTaken(u, k, x);
    PlaceTime(rq, u, k, x);
  }

  lemma OnlyAt(u: seq<nat>, k: nat)
    requires NoDup(u) && k < |u|
    ensures forall i :: 0 <= i < |u| && u[i] == u[k] ==> i == k
  {
  }

  lemma PlaceTime(rq: map<nat, Rq>, u: seq<nat>, k: nat, x: nat)
    requires (forall z :: z in u ==> z in rq) && TimeSorted(rq, u) && k < |u| && x !in u && x in rq
    ensures var rq' := rq[x := rq[x].(time := rq[u[k]].time)];
            (forall z :: z in u[k := x] ==> z in rq') && TimeSorted(rq', u[k := x])
  {
  }

  /** Both halves of deadline_merged_requests, for the side that holds x and y. */
  lemma MergeSide(c: Tuning, rq: map<nat, Rq>, rq': map<nat, Rq>, s: Side, w: bool, now: nat, x: nat, y: nat)
    requires SideGap(c, rq, s, w, now, {}) && x in s.fifo && y in s.fifo && x != y
    requires rq' == rq[x := rq[x].(sectors := rq[x].sectors + rq[y].sectors, time := if rq[y].time < rq[x].time then rq[y].time else rq[x].time)]
    ensures var f := if rq[y].time < rq[x].time then InPlaceOf(Without(s.fifo, x), y, x) else s.fifo;
            var t := Side(Without(s.sort, y), Without(f, y), if s.next == Some(y) then Latter(s.sort, y) else s.next);
            && SideGap(c, rq', t, w, now, {}) && |t.fifo| == |s.fifo| - 1 && x in t.fifo
            && multiset(t.fifo) + multiset{y} == multiset(s.fifo)
  {
    hide SideGap, Without, InPlaceOf, Latter;
    var next := if s.next == Some(y) then Latter(s.sort, y) else s.next;
    NextLeft(c, rq, s, w, now, y);
    if rq[y].time < rq[x].time {
      MergeEarlier(c, rq, rq', s, w, now, x, y, next);
    } else {
      RemoveSide(c, rq, s, w, now, {}, y, next);
      SideLonger(c, rq, Side(Without(s.sort, y), Without(s.fifo, y), next), w, now, x, rq[y].sectors);
      WithoutCounts(s.fifo, y);
    }
  }

  lemma NextLeft(c: Tuning, rq: map<nat, Rq>, s: Side, w: bool, now: nat, y: nat)
    requires SideGap(c, rq, s, w, now, {}) && y in s.fifo
    ensures y in s.sort && forall z :: z in s.fifo ==> z in rq
    ensures var next := if s.next == Some(y) then Latter(s.sort, y) else s.next;
            next.Some? ==> next.value in s.fifo && next.value != y
  {
    hide Latter;
    LatterIn(rq, s.sort, y);
  }

  lemma MergeEarlier(c: Tuning, rq: map<nat, Rq>, rq': map<nat, Rq>, s: Side, w: bool, now: nat, x: nat, y: nat, next: Option<nat>)
    requires SideGap(c, rq, s, w, now, {}) && x in s.fifo && y in s.fifo && x != y && rq[y].time < rq[x].time
    requires rq' == rq[x := rq[x].(sectors := rq[x].sectors + rq[y].sectors, time := rq[y].time)]
    requires next.Some? ==> next.value in s.fifo && next.value != y
    ensures var f := InPlaceOf(Without(s.fifo, x), y, x);
            var t := Side(Without(s.sort, y), Without(f, y), next);
            && SideGap(c, rq', t, w, now, {}) && |t.fifo| == |s.fifo| - 1 && x in t.fifo
            && multiset(t.fifo) + multiset{y} == multiset(s.fifo)
  {
    hide PosSorted, TimeSorted, NoDup, Without, InPlaceOf;
    WithoutCounts(s.sort, y);
    SortWithout(rq, rq', s.sort, y);
    EarlierSide(c, rq, s, w, now, x, y);
    var f := InPlaceOf(Without(s.fifo, x), y, x);
    WithoutCounts(f, y);
    TimeFrame(rq[x := rq[x].(time := rq[y].time)], rq', f);
  }

  lemma SortWithout(rq: map<nat, Rq>, rq': map<nat, Rq>, s: seq<nat>, y: nat)
    requires (forall z :: z in s ==> z in rq && z in rq' && rq'[z].pos == rq[z].pos) && PosSorted(rq, s) && y in s
    ensures var u := Without(s, y); (forall z :: z in u ==> z in rq') && PosSorted(rq', u)
  {
    hide Without;
    PosNoDup(rq, s);
    var i :| 0 <= i < |s| && s[i] == y;
    WithoutCut(s, i);
    CutPos(rq, rq, s, i);
    PosFrame(rq, rq', s[..i] + s[i + 1..]);
  }

  lemma PosFrame(rq: map<nat, Rq>, rq': map<nat, Rq>, s: seq<nat>)
    requires forall y :: y in s ==> y in rq && y in rq' && rq'[y].pos == rq[y].pos
    requires PosSorted(rq, s)
    ensures PosSorted(rq', s)
  {
  }

  lemma MergedRequestsKeeps(c: Tuning, d: Sched, now: nat, x: nat, y: nat)
    requires Inv(c, d, now) && d.Holds(x) && d.Holds(y) && x != y
    ensures x in d.rq && y in d.rq
    ensures d.rq[x].write == d.rq[y].write ==>
      var e := MergedRequests(d, x, y);
      Inv(c, e, now) && e.Holds(x) && Conserved(d, e, multiset{}, multiset{y})
  {
    hide SideGap, Without, InPlaceOf, Latter;
    SideFacts(c, d, now, {});
    if d.rq[x].write == d.rq[y].write {
      var w := d.rq[x].write;
      var e := MergedRequests(d, x, y);
      MergeSide(c, d.rq, e.rq, d.At(w), w, now, x, y);
      SideFrame(c, d.rq, e.rq, d.At(!w), !w, now, now, {});
      assert d.out[|d.out|..] == [];
    }
  }

  /** One dispatch: something is sent on exactly when something is held. */
  lemma DispatchKeeps(c: Tuning, d: Sched, was: nat, now: nat)
    requires Inv(c, d, was) && was <= now
    ensures Ready(d) && Inv(c, Dispatch(c, d, now), now)
    ensures match Pick(c, d, now)
            case None => Held(d) == multiset{} && Dispatch(c, d, now) == d
            case Some(x) => d.Holds(x) && x in d.rq && Dispatch(c, d, now).out == d.out + [x]
                            && Held(Dispatch(c, d, now)) + multiset{x} == Held(d)
  {
    hide SideGap, Move;
    InvReady(c, d, was, {});
    SideFacts(c, d, was, {});
    PickHeld(c, d, was, now);
    SideFrame(c, d.rq, d.rq, d.rd, false, was, now, {});
    SideFrame(c, d.rq, d.rq, d.wr, true, was, now, {});
    match Pick(c, d, now)
    case None =>
    case Some(x) =>
      var e := Charged(c, d);
      MoveKeeps(c, e, now, {}, x);
      MoveOut(e, x);
  }

  lemma ChargedFields(c: Tuning, d: Sched)
    ensures var e := Charged(c, d); e.rq == d.rq && e.rd == d.rd && e.wr == d.wr && e.out == d.out && e.nrSorted == d.nrSorted
  {
  }

  lemma MoveOut(d: Sched, x: nat)
    requires x in d.rq
    ensures Move(d, x).out == d.out + [x] && Move(d, x).nrSorted == d.nrSorted - 1
  {
  }

  lemma PickHeld(c: Tuning, d: Sched, was: nat, now: nat)
    requires Inv(c, d, was) && Ready(d)
    ensures match Pick(c, d, now)
            case None => d.rd.fifo == [] && d.wr.fifo == []
            case Some(x) => d.Holds(x) && x in d.rq && x in d.At(d.rq[x].write).sort
  {
  }
}
