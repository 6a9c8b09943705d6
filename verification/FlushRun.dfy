/** Runs of the FLUSH/FUA sequencer against a device with a volatile write cache: which
    writes are durable when a request ends, which steps it went through, and that a
    driver which completes what it is given ends every request. */
module FlushRun {
  import opened Flush
  import opened Lists

  /** A request as submitted, the device flags read at that moment and the writes that had
      completed before it was inserted. */
  datatype Info = Info(rq: Submitted, dev: DevFlags, prior: set<nat>)

  /** The queue, the driver and the device.  `active` is what the driver has fetched,
      `written` the writes the device has completed, `durable` those on stable media,
      `snap` what had been written when the flush in flight reached the device, and `log`
      the steps each request has really been through. */
  datatype Machine = Machine(
    q: FlushQ, active: set<Item>, info: map<nat, Info>,
    written: set<nat>, durable: set<nat>, snap: set<nat>, log: map<nat, seq<Step>>)

  const BOOT := Machine(EMPTY, {}, map[], {}, {}, {}, map[])

  datatype Event =
    | Insert(id: nat, rq: Submitted, dev: DevFlags, c: Clock)
    | OtherWrite(id: nat)        // an ordinary write completes into the cache
    | Destage(ids: set<nat>)     // the device moves cached writes to media by itself
    | Fetch(k: nat)              // the driver takes entry k of the dispatch queue
    | DataEnd(id: nat, ok: bool, c: Clock)
    | PlainEnd(id: nat, ok: bool)
    | FlushEnd(ok: bool, c: Clock)

  predicate Enabled(m: Machine, e: Event) {
    match e
    case Insert(id, rq, dev, c) => id !in m.info && id !in m.written
    case OtherWrite(id) => id !in m.info
    case Destage(ids) => ids <= m.written
    case Fetch(k) => k < |m.q.head|
    case DataEnd(id, ok, c) => DataItem(id) in m.active
    case PlainEnd(id, ok) => PlainItem(id) in m.active
    case FlushEnd(ok, c) => FlushItem in m.active
  }

  // -------------------------------------------------------------------- invariants

  ghost function EndedIds(ended: seq<(nat, bool)>): set<nat> {
    set k | 0 <= k < |ended| :: ended[k].0
  }

  /** Where an item must be: once on the dispatch queue or with the driver. */
  ghost function Slots(q: FlushQ, info: map<nat, Info>, x: Item): nat {
    match x
    case FlushItem => if q.pending != q.running then 1 else 0
    case DataItem(id) => multiset(q.inFlight)[id]
    case PlainItem(id) => if id in info && id !in q.done && id !in EndedIds(q.ended) then 1 else 0
  }

  ghost predicate Placed(q: FlushQ, active: set<Item>, info: map<nat, Info>) {
    && (forall x: Item :: multiset(q.head)[x] + (if x in active then 1 else 0) == Slots(q, info, x))
    && q.done.Keys <= info.Keys && EndedIds(q.ended) <= info.Keys
    && Direct(q, info)
  }

  /** A request outside the flush machinery is one whose policy is DATA alone. */
  ghost predicate Direct(q: FlushQ, info: map<nat, Info>) {
    forall x :: x in info && x !in q.done && x !in EndedIds(q.ended) ==>
      Policy(info[x].dev, info[x].rq) == Steps(false, true, false)
  }

  /** The promises already due to request `id` when the steps in `d` are done. */
  ghost predicate Kept(i: Info, id: nat, d: Steps, written: set<nat>, durable: set<nat>) {
    var p := Policy(i.dev, i.rq);
    && (p.pre && d.pre ==> i.prior <= durable)
    && (p.data && d.data ==> id in written && (i.dev.fua && i.rq.fua ==> id in durable))
    && (p.data && p.post && d.post ==> id in durable)
  }

  /** rq->flush.seq holds the steps outside the policy and a first part of those in it. */
  ghost predicate Ordered(i: Info, d: Steps) {
    var p := Policy(i.dev, i.rq);
    && (!p.pre ==> d.pre) && (!p.data ==> d.data)
    && (d.post <==> !p.post) && (p.data && d.data ==> d.pre)
  }

  const ALL := Steps(true, true, true)

  ghost predicate Safe(q: FlushQ, info: map<nat, Info>, written: set<nat>, durable: set<nat>) {
    && (forall x :: x in q.done ==> x in info && Kept(info[x], x, q.done[x], written, durable) && Ordered(info[x], q.done[x]))
    && (forall k :: 0 <= k < |q.ended| && q.ended[k].1 ==>
         q.ended[k].0 in info && Kept(info[q.ended[k].0], q.ended[k].0, ALL, written, durable))
  }

  /** What a flush whose effect is `snap` must cover before it may release the requests of
      list `r`. */
  ghost predicate Covers(q: FlushQ, r: bool, info: map<nat, Info>, snap: set<nat>) {
    forall x :: x in q.At(r) && x in q.done && x in info ==>
      && (CurSeq(q.done[x]) == Pre ==> info[x].prior <= snap)
      && (info[x].rq.hasData && CurSeq(q.done[x]) == Post ==> x in snap)
  }

  /** The policy steps that `d` says are done, in order. */
  function Performed(p: Steps, d: Steps): seq<Step> {
    (if p.pre && d.pre then [Pre] else []) + (if p.data && d.data then [Data] else [])
    + (if p.post && d.post then [Post] else [])
  }

  /** A request without data that asks for both a pre- and a post-flush. */
  predicate TwoFlushes(p: Steps) {
    p.pre && p.post && !p.data
  }

  ghost predicate Logged(q: FlushQ, info: map<nat, Info>, log: map<nat, seq<Step>>) {
    && (forall x :: x in q.done && x in info && !TwoFlushes(Policy(info[x].dev, info[x].rq)) ==>
         x in log && log[x] == Performed(Policy(info[x].dev, info[x].rq), q.done[x]))
    && (forall k :: 0 <= k < |q.ended| && q.ended[k].1 && q.ended[k].0 in info
                    && !TwoFlushes(Policy(info[q.ended[k].0].dev, info[q.ended[k].0].rq)) ==>
         var x := q.ended[k].0; x in log && log[x] == Performed(Policy(info[x].dev, info[x].rq), ALL))
  }

  ghost predicate Inv(m: Machine) {
    && Settled(m.q)
    && Placed(m.q, m.active, m.info)
    && Safe(m.q, m.info, m.written, m.durable)
    && (forall x :: x in m.info ==> m.info[x].prior <= m.written)
    && (FlushItem in m.active ==> Covers(m.q, m.q.running, m.info, m.snap))
    && Logged(m.q, m.info, m.log)
  }

  // ------------------------------------------- one request moves on by one step

  ghost predicate PlacedBut(q: FlushQ, active: set<Item>, info: map<nat, Info>, id: nat) {
    && (forall x: Item :: x != DataItem(id) ==>
         multiset(q.head)[x] + (if x in active then 1 else 0) == Slots(q, info, x))
    && multiset(q.head)[DataItem(id)] == 0 && DataItem(id) !in active
    && q.done.Keys <= info.Keys && EndedIds(q.ended) <= info.Keys
    && Direct(q, info)
  }

  lemma EndedAppend(ended: seq<(nat, bool)>, id: nat, ok: bool)
    ensures EndedIds(ended + [(id, ok)]) == EndedIds(ended) + {id}
  {
    var e := ended + [(id, ok)];
    assert e[|ended|].0 == id;
    forall x | x in EndedIds(ended) ensures x in EndedIds(e) {
      var k :| 0 <= k < |ended| && ended[k].0 == x;
      assert e[k].0 == x;
    }
  }

  lemma PlacedData(q: FlushQ, a: FlushQ, id: nat, active: set<Item>, info: map<nat, Info>)
    requires id in q.done && PlacedBut(q, active, info, id)
    requires a.pending == q.pending && a.running == q.running
    requires a.ended == q.ended && a.done.Keys == q.done.Keys
    requires multiset(a.inFlight) == multiset(q.inFlight)[id := 1] && a.head == [DataItem(id)] + q.head
    ensures Placed(a, active, info)
  {
    hide EndedIds;
    assert multiset(a.head) == multiset{DataItem(id)} + multiset(q.head);
    forall x: Item ensures multiset(a.head)[x] + (if x in active then 1 else 0) == Slots(a, info, x) {
    }
  }

  lemma PlacedRest(q: FlushQ, a: FlushQ, id: nat, active: set<Item>, info: map<nat, Info>)
    requires id in q.done && PlacedBut(q, active, info, id)
    requires a.pending == q.pending && a.running == q.running
    requires a.done.Keys + EndedIds(a.ended) == q.done.Keys + EndedIds(q.ended)
    requires multiset(a.inFlight) == multiset(q.inFlight)[id := 0] && a.head == q.head
    ensures Placed(a, active, info)
  {
    hide EndedIds;
    forall x: Item ensures multiset(a.head)[x] + (if x in active then 1 else 0) == Slots(a, info, x) {
      if x.PlainItem? {
        assert x.id in a.done.Keys + EndedIds(a.ended) <==> x.id in q.done.Keys + EndedIds(q.ended);
      }
    }
    assert a.done.Keys <= a.done.Keys + EndedIds(a.ended);
  }

  lemma AdvancePlaced(q: FlushQ, id: nat, steps: Steps, ok: bool, c: Clock, active: set<Item>, info: map<nat, Info>)
    requires id in q.done && PlacedBut(q, active, info, id)
    ensures Placed(Advance(q, id, steps, ok, c), active, info)
  {
    hide Advance, EndedIds, Without, Slots, PlacedBut, Placed;
    AdvanceFields(q, id, steps, ok, c);
    WithoutCounts(q.inFlight, id);
    var a := Advance(q, id, steps, ok, c);
    if ok && CurSeq(q.done[id].Or(steps)) == Data {
      assert multiset(a.inFlight) == multiset(Without(q.inFlight, id)) + multiset{id};
      assert a.done.Keys == q.done.Keys;
      PlacedData(q, a, id, active, info);
    } else {
      EndedAppend(q.ended, id, ok);
      assert (q.done - {id}).Keys == q.done.Keys - {id};
      assert q.ended + [] == q.ended;
      assert a.done.Keys == q.done.Keys || a.done.Keys == q.done.Keys - {id};
      assert a.done.Keys + EndedIds(a.ended) == q.done.Keys + EndedIds(q.ended);
      PlacedRest(q, a, id, active, info);
    }
  }

  lemma KickPlaced(q: FlushQ, c: Clock, active: set<Item>, info: map<nat, Info>)
    requires Placed(q, active, info)
    ensures Placed(Kick(q, c), active, info)
  {
    var k := Kick(q, c);
    assert multiset(q.head + [FlushItem]) == multiset(q.head) + multiset{FlushItem};
    assert multiset(q.head)[FlushItem] + (if FlushItem in active then 1 else 0) == Slots(q, info, FlushItem);
  }

  ghost predicate SafeBut(q: FlushQ, info: map<nat, Info>, written: set<nat>, durable: set<nat>, id: nat) {
    && (forall x :: x in q.done && x != id ==> x in info && Kept(info[x], x, q.done[x], written, durable) && Ordered(info[x], q.done[x]))
    && (forall k :: 0 <= k < |q.ended| && q.ended[k].1 ==>
         q.ended[k].0 in info && Kept(info[q.ended[k].0], q.ended[k].0, ALL, written, durable))
  }

  lemma CompleteSafe(q: FlushQ, id: nat, steps: Steps, ok: bool, c: Clock,
                     info: map<nat, Info>, written: set<nat>, durable: set<nat>)
    requires id in q.done && id in info && SafeBut(q, info, written, durable, id)
    requires ok ==> Kept(info[id], id, q.done[id].Or(steps), written, durable)
    requires ok && CurSeq(q.done[id].Or(steps)) != Done ==> Ordered(info[id], q.done[id].Or(steps))
    ensures Safe(CompleteSeq(q, id, steps, ok, c), info, written, durable)
  {
    hide Advance, Without, Kept, Ordered;
    AdvanceFields(q, id, steps, ok, c);
  }

  lemma CompleteLogged(q: FlushQ, id: nat, steps: Steps, ok: bool, c: Clock,
                       info: map<nat, Info>, log: map<nat, seq<Step>>)
    requires id in q.done && id in info && Logged(q.(done := q.done - {id}), info, log)
    requires ok && !TwoFlushes(Policy(info[id].dev, info[id].rq)) ==>
      id in log && log[id] == Performed(Policy(info[id].dev, info[id].rq), q.done[id].Or(steps))
    ensures Logged(CompleteSeq(q, id, steps, ok, c), info, log)
  {
    hide Advance, Without, Performed, Policy;
    AdvanceFields(q, id, steps, ok, c);
  }

  // ------------------------------------------------------- the loop of flush_end_io

  lemma HeadPlacedBut(q: FlushQ, r: bool, active: set<Item>, info: map<nat, Info>)
    requires Owned(q) && q.At(r) != [] && Placed(q, active, info)
    ensures q.At(r)[0] in q.done && PlacedBut(q, active, info, q.At(r)[0])
  {
    hide EndedIds;
    HeadOfList(q, r);
    var id := q.At(r)[0];
    assert multiset(q.inFlight)[id] == 0;
    assert multiset(q.head)[DataItem(id)] + (if DataItem(id) in active then 1 else 0) == Slots(q, info, DataItem(id));
  }

  lemma {:induction false} DrainPlaced(q: FlushQ, r: bool, ok: bool, c: Clock, active: set<Item>, info: map<nat, Info>)
    requires Draining(q, r) && Placed(q, active, info)
    ensures Placed(Drain(q, r, ok, c), active, info)
    decreases Work(q.At(r), q.done)
  {
    hide Owned, Placed, PlacedBut, Advance, Kick;
    if q.At(r) != [] {
      HeadPlacedBut(q, r, active, info);
      var id := q.At(r)[0];
      var steps := Bit(CurSeq(q.done[id]));
      AdvancePlaced(q, id, steps, ok, c, active, info);
      KickPlaced(Advance(q, id, steps, ok, c), c, active, info);
      DrainOneKeeps(q, r, ok, c);
      DrainOneWorks(q, r, ok, c);
      if |q.At(r)| > 1 {
        DrainPlaced(DrainOne(q, r, ok, c), r, ok, c, active, info);
      }
    }
  }

  /** What a successful flush lets the head of its list say is done. */
  lemma HeadKept(q: FlushQ, r: bool, info: map<nat, Info>, written: set<nat>, durable: set<nat>)
    requires Draining(q, r) && q.At(r) != [] && Safe(q, info, written, durable) && Covers(q, r, info, durable)
    ensures var id := q.At(r)[0];
            && id in q.done && id in info
            && var d := q.done[id].Or(Bit(CurSeq(q.done[id])));
               && Kept(info[id], id, d, written, durable) && (CurSeq(d) != Done ==> Ordered(info[id], d))
               && (CurSeq(d) == Post ==> !info[id].rq.hasData)
  {
    hide Owned, OwnedBut;
    HeadOfList(q, r);
    assert q.At(r)[0] in q.At(r);
  }

  lemma DrainOneCovers(q: FlushQ, r: bool, c: Clock, info: map<nat, Info>, durable: set<nat>)
    requires Draining(q, r) && q.At(r) != [] && q.At(r)[0] in q.done && q.At(r)[0] in info
    requires Covers(q, r, info, durable)
    requires var id := q.At(r)[0];
             var d := q.done[id].Or(Bit(CurSeq(q.done[id])));
             CurSeq(d) == Post ==> !info[id].rq.hasData
    ensures Covers(DrainOne(q, r, true, c), r, info, durable)
  {
    hide Owned, OwnedBut, DrainOne, Steps.Or;
    DrainOneList(q, r, true, c);
    HeadOfList(q, r);
  }

  lemma DrainOneSafe(q: FlushQ, r: bool, ok: bool, c: Clock, info: map<nat, Info>, written: set<nat>, durable: set<nat>)
    requires Draining(q, r) && q.At(r) != [] && Safe(q, info, written, durable)
    requires ok ==> Covers(q, r, info, durable)
    ensures Safe(DrainOne(q, r, ok, c), info, written, durable)
    ensures ok ==> Covers(DrainOne(q, r, ok, c), r, info, durable)
  {
    hide Owned, OwnedBut, CompleteSeq, Kept, Ordered, Covers, Steps.Or, CurSeq, Bit;
    HeadOfList(q, r);
    if ok {
      HeadKept(q, r, info, written, durable);
      DrainOneCovers(q, r, c, info, durable);
    }
    var id := q.At(r)[0];
    CompleteSafe(q, id, Bit(CurSeq(q.done[id])), ok, c, info, written, durable);
  }

  lemma {:induction false} DrainSafe(q: FlushQ, r: bool, ok: bool, c: Clock, info: map<nat, Info>, written: set<nat>, durable: set<nat>)
    requires Draining(q, r) && Safe(q, info, written, durable)
    requires ok ==> Covers(q, r, info, durable)
    ensures Safe(Drain(q, r, ok, c), info, written, durable)
    decreases Work(q.At(r), q.done)
  {
    hide Owned, Safe, Covers, DrainOne;
    if q.At(r) != [] {
      DrainOneSafe(q, r, ok, c, info, written, durable);
      DrainOneKeeps(q, r, ok, c);
      DrainOneWorks(q, r, ok, c);
      if |q.At(r)| > 1 {
        DrainSafe(DrainOne(q, r, ok, c), r, ok, c, info, written, durable);
      }
    }
  }

  /** The step a request takes up after the one it is at. */
  function StepAfter(d: Steps): Step {
    CurSeq(d.Or(Bit(CurSeq(d))))
  }

  /** How the whole loop treats one request `x`, unless `x` waits for two flushes in a row. */
  ghost predicate Moved(q: FlushQ, q': FlushQ, r: bool, ok: bool, x: nat) {
    && (x in q.done && x !in q.At(r) ==> x in q'.done && q'.done[x] == q.done[x])
    && (x !in q.done ==> x !in q'.done)
    && (x in q.done && x in q.At(r) && StepAfter(q.done[x]) != Post ==>
         && (x in q'.done <==> ok && StepAfter(q.done[x]) == Data)
         && (x in q'.done ==> q'.done[x] == q.done[x].Or(Bit(CurSeq(q.done[x])))))
  }

  lemma DrainOneMoved(q: FlushQ, r: bool, ok: bool, c: Clock, x: nat)
    requires Draining(q, r) && q.At(r) != []
    ensures var q' := DrainOne(q, r, ok, c);
            var id := q.At(r)[0];
            && (x != id ==> (x in q.done <==> x in q'.done) && (x in q.done ==> q'.done[x] == q.done[x])
                            && (x in q.At(r) <==> x in q'.At(r)))
            && (x == id ==> Moved(q, q', r, ok, x) && (StepAfter(q.done[x]) != Post ==> x !in q'.At(r)))
  {
    hide Owned, OwnedBut, DrainOne;
    HeadOfList(q, r);
    DrainOneList(q, r, ok, c);
    assert q.At(r) == [q.At(r)[0]] + q.At(r)[1..];
  }

  lemma {:induction false} DrainMoved(q: FlushQ, r: bool, ok: bool, c: Clock, x: nat)
    requires Draining(q, r)
    ensures Moved(q, Drain(q, r, ok, c), r, ok, x)
    decreases Work(q.At(r), q.done)
  {
    hide Owned, DrainOne;
    if q.At(r) != [] {
      DrainOneMoved(q, r, ok, c, x);
      DrainOneKeeps(q, r, ok, c);
      DrainOneWorks(q, r, ok, c);
      if |q.At(r)| > 1 {
        DrainMoved(DrainOne(q, r, ok, c), r, ok, c, x);
      }
    }
  }

  lemma DrainOneEnds(q: FlushQ, r: bool, ok: bool, c: Clock)
    requires Draining(q, r) && q.At(r) != []
    ensures var q' := DrainOne(q, r, ok, c);
            && q'.ended == q.ended + (if q.At(r)[0] in q'.done then [] else [(q.At(r)[0], ok)])
            && forall x :: x in q'.At(r) ==> x in q.At(r)
  {
    hide Owned, OwnedBut, Advance;
    HeadOfList(q, r);
    AdvanceFields(q, q.At(r)[0], Bit(CurSeq(q.done[q.At(r)[0]])), ok, c);
    DrainOneList(q, r, ok, c);
  }

  /** The loop ends requests of the walked list only, with the flush's own outcome. */
  lemma {:induction false} DrainEnds(q: FlushQ, r: bool, ok: bool, c: Clock)
    requires Draining(q, r)
    ensures var q' := Drain(q, r, ok, c);
            && q.ended <= q'.ended
            && forall k :: |q.ended| <= k < |q'.ended| ==> q'.ended[k].1 == ok && q'.ended[k].0 in q.At(r)
    decreases Work(q.At(r), q.done)
  {
    hide Owned, OwnedBut, DrainOne;
    if q.At(r) != [] {
      DrainOneEnds(q, r, ok, c);
      DrainOneKeeps(q, r, ok, c);
      DrainOneWorks(q, r, ok, c);
      if |q.At(r)| > 1 {
        DrainEnds(DrainOne(q, r, ok, c), r, ok, c);
      }
    }
  }

  // --------------------------------------------------------------------- the machine

  /** One event.  Completions carry the device's part: a successful data write is in the
      cache, and on media if the driver was told REQ_FUA; a successful flush has made
      everything durable that was in the cache when it reached the device. */
  function Next(m: Machine, e: Event): Machine
    requires Inv(m) && Enabled(m, e)
  {
    match e
    case Insert(id, rq, dev, c) =>
      m.(q := InsertFlush(m.q, id, rq, dev, c), info := m.info[id := Info(rq, dev, m.written)],
         log := m.log[id := []])
    case OtherWrite(id) => m.(written := m.written + {id})
    case Destage(ids) => m.(durable := m.durable + ids)
    case Fetch(k) =>
      var x := m.q.head[k];
      m.(q := m.q.(head := m.q.head[..k] + m.q.head[k+1..]), active := m.active + {x},
         snap := if x == FlushItem then m.written else m.snap)
    case DataEnd(id, ok, c) => DataEnded(m, id, ok, c)
    case PlainEnd(id, ok) =>
      m.(q := m.q.(ended := m.q.ended + [(id, ok)]), active := m.active - {PlainItem(id)},
         written := if ok then m.written + {id} else m.written,
         durable := if ok && ToMedia(m, id) then m.durable + {id} else m.durable,
         log := if ok then m.log[id := [Data]] else m.log)
    case FlushEnd(ok, c) => FlushEnded(m, ok, c)
  }

  function DataEnded(m: Machine, id: nat, ok: bool, c: Clock): Machine
    requires Settled(m.q) && Placed(m.q, m.active, m.info) && DataItem(id) in m.active
  {
    FetchedData(m, id);
    m.(q := DataEndIo(m.q, id, ok, c), active := m.active - {DataItem(id)},
       written := if ok then m.written + {id} else m.written,
       durable := if ok && ToMedia(m, id) then m.durable + {id} else m.durable,
       log := if ok && id in m.log then m.log[id := m.log[id] + [Data]] else m.log)
  }

  function FlushEnded(m: Machine, ok: bool, c: Clock): Machine
    requires Settled(m.q) && Placed(m.q, m.active, m.info) && FlushItem in m.active
  {
    FetchedFlush(m);
    m.(q := FlushEndIo(m.q, ok, c), active := m.active - {FlushItem},
       durable := if ok then m.durable + m.snap else m.durable,
       log := if ok then FlushLog(m) else m.log)
  }

  /** REQ_FUA is left in cmd_flags exactly when the device supports it. */
  predicate ToMedia(m: Machine, id: nat) {
    id in m.info && m.info[id].rq.fua && m.info[id].dev.fua
  }

  /** A completed flush performs one step of every request that was waiting for it. */
  function FlushLog(m: Machine): map<nat, seq<Step>> {
    map x | x in m.log ::
      if x in m.q.At(m.q.running) && x in m.q.done then m.log[x] + [CurSeq(m.q.done[x])] else m.log[x]
  }

  lemma FetchedData(m: Machine, id: nat)
    requires Settled(m.q) && Placed(m.q, m.active, m.info) && DataItem(id) in m.active
    ensures id in m.q.inFlight && id in m.q.done && id !in m.q.list0 && id !in m.q.list1
    ensures OwnedBut(m.q, id)
  {
    hide EndedIds;
    assert multiset(m.q.head)[DataItem(id)] + 1 == Slots(m.q, m.info, DataItem(id));
    assert Owners(m.q, id) == 1;
    assert multiset(m.q.inFlight)[id] == 1;
    assert multiset(m.q.list0)[id] == multiset(m.q.list1)[id] == 0;
  }

  lemma FetchedFlush(m: Machine)
    requires Settled(m.q) && Placed(m.q, m.active, m.info) && FlushItem in m.active
    ensures m.q.pending != m.q.running && multiset(m.q.head)[FlushItem] == 0
  {
    hide EndedIds;
    assert multiset(m.q.head)[FlushItem] + 1 == Slots(m.q, m.info, FlushItem);
  }

  // ------------------------------------------------------------- every event keeps Inv

  /** More writes in the cache or on media never withdraw a promise. */
  lemma SafeGrows(q: FlushQ, info: map<nat, Info>, w: set<nat>, d: set<nat>, w': set<nat>, d': set<nat>)
    requires Safe(q, info, w, d) && w <= w' && d <= d'
    ensures Safe(q, info, w', d')
  {
  }

  lemma FetchSettled(q: FlushQ, h: seq<Item>, x: Item)
    requires Settled(q) && multiset(q.head) == multiset(h) + multiset{x}
    ensures Settled(q.(head := h))
  {
    var q' := q.(head := h);
    assert forall y :: Owners(q', y) == Owners(q, y);
    assert forall y: Item :: multiset(h)[y] <= multiset(q.head)[y];
  }

  lemma FetchPlaced(q: FlushQ, h: seq<Item>, x: Item, active: set<Item>, info: map<nat, Info>)
    requires Owned(q) && Placed(q, active, info) && multiset(q.head) == multiset(h) + multiset{x}
    ensures Placed(q.(head := h), active + {x}, info)
  {
    hide EndedIds;
    var q' := q.(head := h);
    assert multiset(q.head)[x] + (if x in active then 1 else 0) == Slots(q, info, x);
    if x.DataItem? {
      assert Owners(q, x.id) <= 1;
    }
    assert x !in active;
    forall y: Item ensures multiset(h)[y] + (if y in active + {x} then 1 else 0) == Slots(q', info, y) {
      assert multiset(q.head)[y] + (if y in active then 1 else 0) == Slots(q, info, y) == Slots(q', info, y);
    }
  }

  /** A request waiting for its post-flush has its data in the cache already. */
  lemma WaitingWrote(i: Info, id: nat, d: Steps, written: set<nat>, durable: set<nat>)
    requires Ordered(i, d) && Kept(i, id, d, written, durable) && CurSeq(d) == Post && i.rq.hasData
    ensures id in written
  {
  }

  lemma HeadApart(q: FlushQ, h: seq<Item>, info: map<nat, Info>, w: set<nat>, d: set<nat>, log: map<nat, seq<Step>>)
    requires Safe(q, info, w, d) && Logged(q, info, log)
    ensures Safe(q.(head := h), info, w, d) && Logged(q.(head := h), info, log)
  {
    hide Kept, Ordered, Performed, Policy;
  }

  /** Everything a flush has to cover is in the cache when it reaches the device. */
  lemma WrittenCovers(q: FlushQ, h: seq<Item>, info: map<nat, Info>, w: set<nat>, d: set<nat>)
    requires Safe(q, info, w, d) && forall x :: x in info ==> info[x].prior <= w
    ensures Covers(q.(head := h), q.running, info, w)
  {
    hide Kept, Ordered;
    forall y | y in q.At(q.running) && y in q.done && y in info && info[y].rq.hasData && CurSeq(q.done[y]) == Post
      ensures y in w
    {
      WaitingWrote(info[y], y, q.done[y], w, d);
    }
  }

  lemma FetchKeeps(m: Machine, k: nat)
    requires Inv(m) && k < |m.q.head|
    ensures Inv(Next(m, Fetch(k)))
  {
    hide Safe, Logged, Settled, Placed;
    var x := m.q.head[k];
    var h := m.q.head[..k] + m.q.head[k+1..];
    assert m.q.head == m.q.head[..k] + [x] + m.q.head[k+1..];
    assert multiset(m.q.head) == multiset(h) + multiset{x};
    FetchSettled(m.q, h, x);
    SettledOwned(m.q);
    FetchPlaced(m.q, h, x, m.active, m.info);
    HeadApart(m.q, h, m.info, m.written, m.durable, m.log);
    WrittenCovers(m.q, h, m.info, m.written, m.durable);
  }

  lemma SettledOwned(q: FlushQ)
    requires Settled(q)
    ensures Owned(q)
  {
  }

  /** While a flush is in flight nobody joins or leaves its list but through its end. */
  lemma CompleteCovers(q: FlushQ, id: nat, steps: Steps, ok: bool, c: Clock, info: map<nat, Info>, snap: set<nat>)
    requires id in q.done && id !in q.At(q.running) && q.pending != q.running
    requires Covers(q, q.running, info, snap)
    ensures var q' := CompleteSeq(q, id, steps, ok, c); Covers(q', q'.running, info, snap)
  {
    hide Advance, Without;
    AdvanceFields(q, id, steps, ok, c);
    WithoutCounts(q.At(q.running), id);
  }

  lemma DataEndKeeps(m: Machine, id: nat, ok: bool, c: Clock)
    requires Inv(m) && DataItem(id) in m.active
    ensures Inv(Next(m, DataEnd(id, ok, c)))
  {
    hide Owned, OwnedBut, Owners, Placed, PlacedBut, Advance, Kick, Safe, SafeBut, Logged, Covers, EndedIds, Direct;
    var m' := Next(m, DataEnd(id, ok, c));
    FetchedData(m, id);
    CompleteSettled(m.q, id, Bit(Data), ok, c);
    DataPlacedBut(m.q, m.active, m.info, id);
    AdvancePlaced(m.q, id, Bit(Data), ok, c, m'.active, m.info);
    KickPlaced(Advance(m.q, id, Bit(Data), ok, c), c, m'.active, m.info);
    DataSafe(m.q, id, m.info, m.written, m.durable, ok);
    CompleteSafe(m.q, id, Bit(Data), ok, c, m.info, m'.written, m'.durable);
    DataLogged(m.q, id, m.info, m.log, m.written, m.durable);
    CompleteLogged(m.q, id, Bit(Data), ok, c, m.info, m'.log);
    if FlushItem in m.active {
      FetchedFlush(m);
      CompleteCovers(m.q, id, Bit(Data), ok, c, m.info, m.snap);
    }
  }

  lemma DataPlacedBut(q: FlushQ, active: set<Item>, info: map<nat, Info>, id: nat)
    requires Owned(q) && Placed(q, active, info) && DataItem(id) in active
    ensures PlacedBut(q, active - {DataItem(id)}, info, id)
  {
    hide EndedIds, Direct;
    assert multiset(q.head)[DataItem(id)] + 1 == Slots(q, info, DataItem(id));
    assert Owners(q, id) <= 1;
  }

  lemma DataSafe(q: FlushQ, id: nat, info: map<nat, Info>, w: set<nat>, d: set<nat>, ok: bool)
    requires Owned(q) && id in q.inFlight && Safe(q, info, w, d)
    ensures id in q.done && id in info
    ensures var fua := info[id].rq.fua && info[id].dev.fua;
            var w' := if ok then w + {id} else w;
            var d' := if ok && fua then d + {id} else d;
            && SafeBut(q, info, w', d', id)
            && (ok ==> Kept(info[id], id, q.done[id].Or(Bit(Data)), w', d') && Ordered(info[id], q.done[id].Or(Bit(Data))))
  {
    hide Owners;
    SafeGrows(q, info, w, d, w + {id}, d + {id});
    SafeGrows(q, info, w, d, w + {id}, d);
    SafeGrows(q, info, w, d, w, d);
  }

  lemma DataLogged(q: FlushQ, id: nat, info: map<nat, Info>, log: map<nat, seq<Step>>, w: set<nat>, d: set<nat>)
    requires Owned(q) && id in q.inFlight && id in q.done && id in info && Logged(q, info, log) && Safe(q, info, w, d)
    ensures var p := Policy(info[id].dev, info[id].rq);
            && !TwoFlushes(p) && id in log
            && log[id] + [Data] == Performed(p, q.done[id].Or(Bit(Data)))
            && Logged(q.(done := q.done - {id}), info, log)
            && Logged(q.(done := q.done - {id}), info, log[id := log[id] + [Data]])
  {
    hide Owners, Kept;
  }

  lemma PlainEndKeeps(m: Machine, id: nat, ok: bool)
    requires Inv(m) && PlainItem(id) in m.active
    ensures Inv(Next(m, PlainEnd(id, ok)))
  {
    hide Owned, Owners, Placed, Safe, Logged, EndedIds, Direct;
    var m' := Next(m, PlainEnd(id, ok));
    PlainOutside(m.q, m.active, m.info, id);
    PlainPlaced(m.q, m.active, m.info, id, ok);
    PlainOwned(m.q, id, ok);
    PlainSafe(m.q, id, m.info, m.written, m.durable, ok);
    PlainLogged(m.q, id, m.info, m.log, ok);
  }

  lemma PlainOutside(q: FlushQ, active: set<Item>, info: map<nat, Info>, id: nat)
    requires Placed(q, active, info) && PlainItem(id) in active
    ensures id in info && id !in q.done && id !in EndedIds(q.ended)
    ensures Policy(info[id].dev, info[id].rq) == Steps(false, true, false)
    ensures multiset(q.head)[PlainItem(id)] == 0
  {
    hide EndedIds;
    assert multiset(q.head)[PlainItem(id)] + 1 == Slots(q, info, PlainItem(id));
  }

  lemma PlainPlaced(q: FlushQ, active: set<Item>, info: map<nat, Info>, id: nat, ok: bool)
    requires Placed(q, active, info) && id in info && multiset(q.head)[PlainItem(id)] == 0
    ensures Placed(q.(ended := q.ended + [(id, ok)]), active - {PlainItem(id)}, info)
  {
    EndedAppend(q.ended, id, ok);
    hide EndedIds, Policy;
    var q' := q.(ended := q.ended + [(id, ok)]);
    forall x: Item ensures multiset(q'.head)[x] + (if x in active - {PlainItem(id)} then 1 else 0) == Slots(q', info, x) {
      assert multiset(q.head)[x] + (if x in active then 1 else 0) == Slots(q, info, x);
    }
  }

  lemma PlainOwned(q: FlushQ, id: nat, ok: bool)
    requires Settled(q) && id !in q.done && id !in EndedIds(q.ended)
    ensures Settled(q.(ended := q.ended + [(id, ok)]))
  {
    var q' := q.(ended := q.ended + [(id, ok)]);
    assert forall x :: Owners(q', x) == Owners(q, x);
    assert forall k :: 0 <= k < |q.ended| ==> q.ended[k].0 in EndedIds(q.ended);
  }

  lemma PlainSafe(q: FlushQ, id: nat, info: map<nat, Info>, w: set<nat>, d: set<nat>, ok: bool)
    requires Safe(q, info, w, d) && id in info && Policy(info[id].dev, info[id].rq) == Steps(false, true, false)
    ensures var w' := if ok then w + {id} else w;
            var d' := if ok && info[id].rq.fua && info[id].dev.fua then d + {id} else d;
            Safe(q.(ended := q.ended + [(id, ok)]), info, w', d')
  {
    var w' := if ok then w + {id} else w;
    var d' := if ok && info[id].rq.fua && info[id].dev.fua then d + {id} else d;
    SafeGrows(q, info, w, d, w', d');
    assert ok ==> Kept(info[id], id, ALL, w', d');
    hide Kept, Ordered, Policy;
  }

  lemma PlainLogged(q: FlushQ, id: nat, info: map<nat, Info>, log: map<nat, seq<Step>>, ok: bool)
    requires Logged(q, info, log) && id in info && Policy(info[id].dev, info[id].rq) == Steps(false, true, false)
    requires id !in q.done && id !in EndedIds(q.ended)
    ensures Logged(q.(ended := q.ended + [(id, ok)]), info, if ok then log[id := [Data]] else log)
  {
    assert Performed(Steps(false, true, false), ALL) == [Data];
    assert forall k :: 0 <= k < |q.ended| ==> q.ended[k].0 in EndedIds(q.ended);
    hide Performed, Policy, EndedIds;
  }

  lemma StepLogged(i: Info, d: Steps)
    requires Ordered(i, d) && CurSeq(d) in {Pre, Post} && !TwoFlushes(Policy(i.dev, i.rq))
    ensures var p := Policy(i.dev, i.rq);
            && StepAfter(d) != Post
            && Performed(p, d) + [CurSeq(d)] == Performed(p, d.Or(Bit(CurSeq(d))))
            && (StepAfter(d) == Done ==> d.Or(Bit(CurSeq(d))) == ALL)
  {
  }

  lemma FlushEndLogged(m: Machine, q': FlushQ, ok: bool)
    requires Owned(m.q) && Owned(q') && Safe(m.q, m.info, m.written, m.durable) && Logged(m.q, m.info, m.log)
    requires forall x :: Moved(m.q, q', m.q.running, ok, x)
    requires m.q.ended <= q'.ended
    requires forall k :: |m.q.ended| <= k < |q'.ended| ==> q'.ended[k].1 == ok && q'.ended[k].0 in m.q.At(m.q.running)
    ensures Logged(q', m.info, if ok then FlushLog(m) else m.log)
  {
    hide Owners, Kept, Performed, Policy, Ordered;
    var r := m.q.running;
    forall x | x in m.q.At(r) && x in m.q.done && !TwoFlushes(Policy(m.info[x].dev, m.info[x].rq))
      ensures StepAfter(m.q.done[x]) != Post
      ensures Performed(Policy(m.info[x].dev, m.info[x].rq), m.q.done[x]) + [CurSeq(m.q.done[x])]
           == Performed(Policy(m.info[x].dev, m.info[x].rq), m.q.done[x].Or(Bit(CurSeq(m.q.done[x]))))
      ensures StepAfter(m.q.done[x]) == Done ==> m.q.done[x].Or(Bit(CurSeq(m.q.done[x]))) == ALL
    {
      StepLogged(m.info[x], m.q.done[x]);
    }
    assert forall x :: x in m.q.At(r) ==> x in m.q.done;
    var log := if ok then FlushLog(m) else m.log;
    forall x | x in q'.done && x in m.info && !TwoFlushes(Policy(m.info[x].dev, m.info[x].rq))
      ensures x in log && log[x] == Performed(Policy(m.info[x].dev, m.info[x].rq), q'.done[x])
    {
      assert Moved(m.q, q', r, ok, x);
    }
    forall k | 0 <= k < |q'.ended| && q'.ended[k].1 && q'.ended[k].0 in m.info
               && !TwoFlushes(Policy(m.info[q'.ended[k].0].dev, m.info[q'.ended[k].0].rq))
      ensures var x := q'.ended[k].0; x in log && log[x] == Performed(Policy(m.info[x].dev, m.info[x].rq), ALL)
    {
      var x := q'.ended[k].0;
      assert Moved(m.q, q', r, ok, x);
      if k < |m.q.ended| {
        assert m.q.ended[k] == q'.ended[k];
      }
    }
  }

  lemma FlushEndKeeps(m: Machine, ok: bool, c: Clock)
    requires Inv(m) && FlushItem in m.active
    ensures Inv(Next(m, FlushEnd(ok, c)))
  {
    hide Owned, Owners, Placed, Safe, Logged, Covers, Drain, Moved, EndedIds, Direct, Work;
    var m' := Next(m, FlushEnd(ok, c));
    FetchedFlush(m);
    FlushEndSettled(m.q, ok, c);
    var q1 := m.q.(running := !m.q.running);
    ToggleRunning(m.q, m.active, m.info, m.snap, m.written, m'.durable);
    DrainPlaced(q1, m.q.running, ok, c, m'.active, m.info);
    SafeGrows(m.q, m.info, m.written, m.durable, m.written, m'.durable);
    ToggleSafe(m.q, m.info, m.snap, m.written, m'.durable, ok);
    DrainSafe(q1, m.q.running, ok, c, m.info, m.written, m'.durable);
    forall x ensures Moved(m.q, m'.q, m.q.running, ok, x) {
      DrainMoved(q1, m.q.running, ok, c, x);
      ToggleMoved(m.q, m'.q, m.q.running, ok, x);
    }
    DrainEnds(q1, m.q.running, ok, c);
    FlushEndLogged(m, m'.q, ok);
  }

  lemma ToggleRunning(q: FlushQ, active: set<Item>, info: map<nat, Info>, snap: set<nat>, w: set<nat>, d: set<nat>)
    requires Settled(q) && q.pending != q.running && FlushItem in active && Placed(q, active, info)
    ensures var q1 := q.(running := !q.running);
            Draining(q1, q.running) && Placed(q1, active - {FlushItem}, info)
  {
    hide EndedIds;
    var q1 := q.(running := !q.running);
    assert forall x :: Owners(q1, x) == Owners(q, x);
    assert multiset(q.head)[FlushItem] + 1 == Slots(q, info, FlushItem);
    forall x: Item ensures multiset(q1.head)[x] + (if x in active - {FlushItem} then 1 else 0) == Slots(q1, info, x) {
      assert multiset(q.head)[x] + (if x in active then 1 else 0) == Slots(q, info, x);
    }
  }

  lemma ToggleSafe(q: FlushQ, info: map<nat, Info>, snap: set<nat>, w: set<nat>, d: set<nat>, ok: bool)
    requires Safe(q, info, w, d) && Covers(q, q.running, info, snap) && (ok ==> snap <= d)
    ensures var q1 := q.(running := !q.running);
            Safe(q1, info, w, d) && (ok ==> Covers(q1, q.running, info, d))
  {
    hide Kept, Ordered;
  }

  lemma ToggleMoved(q: FlushQ, q': FlushQ, r: bool, ok: bool, x: nat)
    requires Moved(q.(running := !q.running), q', r, ok, x)
    ensures Moved(q, q', r, ok, x)
  {
  }

  lemma Unknown(q: FlushQ, active: set<Item>, info: map<nat, Info>, id: nat)
    requires Owned(q) && Placed(q, active, info) && id !in info
    ensures id !in q.done && id !in EndedIds(q.ended) && id !in q.list0 && id !in q.list1 && id !in q.inFlight
    ensures multiset(q.head)[PlainItem(id)] == 0 && PlainItem(id) !in active
    ensures multiset(q.head)[DataItem(id)] == 0 && DataItem(id) !in active
  {
    hide EndedIds, Direct;
    assert Owners(q, id) == 0;
    assert multiset(q.head)[PlainItem(id)] + (if PlainItem(id) in active then 1 else 0) == Slots(q, info, PlainItem(id));
    assert multiset(q.head)[DataItem(id)] + (if DataItem(id) in active then 1 else 0) == Slots(q, info, DataItem(id));
  }

  /** Learning about a new request changes nothing for the others. */
  lemma NewInfo(q: FlushQ, info: map<nat, Info>, i: Info, id: nat, w: set<nat>, d: set<nat>, log: map<nat, seq<Step>>, snap: set<nat>)
    requires Safe(q, info, w, d) && Logged(q, info, log) && id !in info && id !in q.done && id !in EndedIds(q.ended)
    requires EndedIds(q.ended) <= info.Keys
    ensures Safe(q, info[id := i], w, d) && Logged(q, info[id := i], log[id := []])
    ensures forall r :: Covers(q, r, info, snap) ==> Covers(q, r, info[id := i], snap)
  {
    hide Kept, Ordered, Performed, Policy;
    assert forall k :: 0 <= k < |q.ended| ==> q.ended[k].0 in EndedIds(q.ended);
  }

  lemma InsertPlainKeeps(m: Machine, id: nat, rq: Submitted, dev: DevFlags, c: Clock)
    requires Inv(m) && id !in m.info && id !in m.written
    requires Policy(dev, rq) == Steps(false, true, false)
    ensures Inv(Next(m, Insert(id, rq, dev, c)))
  {
    hide Owned, Owners, Placed, Safe, Logged, EndedIds, Direct, Covers;
    Unknown(m.q, m.active, m.info, id);
    PlacedEnded(m.q, m.active, m.info);
    var i := Info(rq, dev, m.written);
    NewInfo(m.q, m.info, i, id, m.written, m.durable, m.log, m.snap);
    var h := m.q.head + [PlainItem(id)];
    HeadApart(m.q, h, m.info[id := i], m.written, m.durable, m.log[id := []]);
    InsertPlainPlaced(m.q, id, m.active, m.info, i);
    PlainSettled(m.q, id);
    CoversHead(m.q, h, m.info[id := i], m.snap);
  }

  lemma PlacedEnded(q: FlushQ, active: set<Item>, info: map<nat, Info>)
    requires Placed(q, active, info)
    ensures EndedIds(q.ended) <= info.Keys && q.done.Keys <= info.Keys
  {
  }

  lemma CoversHead(q: FlushQ, h: seq<Item>, info: map<nat, Info>, snap: set<nat>)
    ensures forall r :: Covers(q, r, info, snap) ==> Covers(q.(head := h), r, info, snap)
  {
  }

  /** What a new request changes in where items must be. */
  lemma NewSlot(q: FlushQ, q': FlushQ, info: map<nat, Info>, i: Info, id: nat, x: Item)
    requires id !in info && id !in q.done && id !in EndedIds(q.ended)
    requires q'.pending == q.pending && q'.running == q.running && q'.inFlight == q.inFlight && q'.ended == q.ended
    requires forall y :: y != id ==> (y in q'.done <==> y in q.done)
    ensures Slots(q', info[id := i], x) == Slots(q, info, x) + (if x == PlainItem(id) && id !in q'.done then 1 else 0)
  {
    hide EndedIds;
  }

  lemma NewDirect(q: FlushQ, q': FlushQ, info: map<nat, Info>, i: Info, id: nat)
    requires Direct(q, info) && id !in info && q'.ended == q.ended
    requires forall y :: y != id ==> (y in q'.done <==> y in q.done)
    requires id !in q'.done ==> Policy(i.dev, i.rq) == Steps(false, true, false)
    ensures Direct(q', info[id := i])
  {
    hide EndedIds, Policy;
  }

  lemma InsertPlainPlaced(q: FlushQ, id: nat, active: set<Item>, info: map<nat, Info>, i: Info)
    requires Owned(q) && Placed(q, active, info) && id !in info && Policy(i.dev, i.rq) == Steps(false, true, false)
    ensures Placed(q.(head := q.head + [PlainItem(id)]), active, info[id := i])
  {
    hide EndedIds, Policy, Slots, Direct, Owned;
    Unknown(q, active, info, id);
    var q' := q.(head := q.head + [PlainItem(id)]);
    assert multiset(q'.head) == multiset(q.head) + multiset{PlainItem(id)};
    NewDirect(q, q', info, i, id);
    forall x: Item ensures multiset(q'.head)[x] + (if x in active then 1 else 0) == Slots(q', info[id := i], x) {
      assert multiset(q.head)[x] + (if x in active then 1 else 0) == Slots(q, info, x);
      NewSlot(q, q', info, i, id, x);
    }
  }

  lemma InsertSequencedKeeps(m: Machine, id: nat, rq: Submitted, dev: DevFlags, c: Clock)
    requires Inv(m) && id !in m.info && id !in m.written
    requires Policy(dev, rq) != Steps(false, true, false)
    ensures Inv(Next(m, Insert(id, rq, dev, c)))
  {
    hide Owned, OwnedBut, Owners, Placed, PlacedBut, Safe, SafeBut, Logged, EndedIds, Direct, Covers, Advance, Kick;
    Unknown(m.q, m.active, m.info, id);
    PlacedEnded(m.q, m.active, m.info);
    var i := Info(rq, dev, m.written);
    var steps := Policy(dev, rq).Others();
    NewInfo(m.q, m.info, i, id, m.written, m.durable, m.log, m.snap);
    var q0 := m.q.(done := m.q.done[id := Steps(false, false, false)]);
    assert Steps(false, false, false).Or(steps) == steps;
    assert q0.done - {id} == m.q.done;
    NewOwned(m.q, m.active, m.info, i, id);
    CompleteSettled(q0, id, steps, true, c);
    AdvancePlaced(q0, id, steps, true, c, m.active, m.info[id := i]);
    KickPlaced(Advance(q0, id, steps, true, c), c, m.active, m.info[id := i]);
    NewSafe(m.q, id, m.info[id := i], m.written, m.durable);
    assert Kept(i, id, steps, m.written, m.durable);
    CompleteSafe(q0, id, steps, true, c, m.info[id := i], m.written, m.durable);
    assert Performed(Policy(dev, rq), steps) == [];
    assert q0.(done := q0.done - {id}) == m.q;
    CompleteLogged(q0, id, steps, true, c, m.info[id := i], m.log[id := []]);
    if FlushItem in m.active {
      FetchedFlush(m);
      NewCovers(m.q, id, m.info[id := i], m.snap);
      CompleteCovers(q0, id, steps, true, c, m.info[id := i], m.snap);
    }
  }

  lemma NewOwned(q: FlushQ, active: set<Item>, info: map<nat, Info>, i: Info, id: nat)
    requires Owned(q) && Placed(q, active, info) && id !in info
    ensures var q0 := q.(done := q.done[id := Steps(false, false, false)]);
            OwnedBut(q0, id) && PlacedBut(q0, active, info[id := i], id)
  {
    hide EndedIds, Policy, Slots, Direct, Owned, OwnedBut;
    Unknown(q, active, info, id);
    var q0 := q.(done := q.done[id := Steps(false, false, false)]);
    NewOwnedBut(q, id);
    NewDirect(q, q0, info, i, id);
    forall x: Item | x != DataItem(id)
      ensures multiset(q0.head)[x] + (if x in active then 1 else 0) == Slots(q0, info[id := i], x)
    {
      assert multiset(q.head)[x] + (if x in active then 1 else 0) == Slots(q, info, x);
      NewSlot(q, q0, info, i, id, x);
    }
  }

  lemma NewOwnedBut(q: FlushQ, id: nat)
    requires Owned(q) && id !in q.done && id !in EndedIds(q.ended)
    ensures OwnedBut(q.(done := q.done[id := Steps(false, false, false)]), id)
  {
    var q0 := q.(done := q.done[id := Steps(false, false, false)]);
    assert forall x :: Owners(q0, x) == Owners(q, x);
    assert forall k :: 0 <= k < |q.ended| ==> q.ended[k].0 in EndedIds(q.ended);
    hide EndedIds, Owners;
  }

  lemma NewSafe(q: FlushQ, id: nat, info: map<nat, Info>, w: set<nat>, d: set<nat>)
    requires Safe(q, info, w, d)
    ensures SafeBut(q.(done := q.done[id := Steps(false, false, false)]), info, w, d, id)
  {
    hide Kept, Ordered;
  }

  lemma NewCovers(q: FlushQ, id: nat, info: map<nat, Info>, snap: set<nat>)
    requires Covers(q, q.running, info, snap) && id !in q.list0 && id !in q.list1
    ensures var q0 := q.(done := q.done[id := Steps(false, false, false)]);
            Covers(q0, q0.running, info, snap)
  {
  }

  lemma NextKeeps(m: Machine, e: Event)
    requires Inv(m) && Enabled(m, e)
    ensures Inv(Next(m, e))
  {
    match e
    case Insert(id, rq, dev, c) =>
      if Policy(dev, rq) == Steps(false, true, false) {
        InsertPlainKeeps(m, id, rq, dev, c);
      } else {
        InsertSequencedKeeps(m, id, rq, dev, c);
      }
    case OtherWrite(id) => SafeGrows(m.q, m.info, m.written, m.durable, m.written + {id}, m.durable);
    case Destage(ids) => SafeGrows(m.q, m.info, m.written, m.durable, m.written, m.durable + ids);
    case Fetch(k) => FetchKeeps(m, k);
    case DataEnd(id, ok, c) => DataEndKeeps(m, id, ok, c);
    case PlainEnd(id, ok) => PlainEndKeeps(m, id, ok);
    case FlushEnd(ok, c) => FlushEndKeeps(m, ok, c);
  }

  // ------------------------------------------------------------------------- runs

  datatype Outcome = Stuck | Reached(m: Machine)

  /** The state after a sequence of events, if each of them could happen. */
  ghost function Run(es: seq<Event>): (o: Outcome)
    ensures o.Reached? ==> Inv(o.m)
  {
    if es == [] then
      BootInv();
      Reached(BOOT)
    else
      var before := Run(es[..|es|-1]);
      var e := es[|es|-1];
      if before.Reached? && Enabled(before.m, e) then
        NextKeeps(before.m, e);
        Reached(Next(before.m, e))
      else Stuck
  }

  lemma BootInv()
    ensures Inv(BOOT)
  {
    assert forall x :: Owners(EMPTY, x) == 0;
    assert EndedIds([]) == {};
  }

  lemma {:induction false} RunPrefix(es: seq<Event>, j: nat)
    requires Run(es).Reached? && j <= |es|
    ensures Run(es[..j]).Reached?
    ensures j < |es| ==> Enabled(Run(es[..j]).m, es[j])
  {
    hide Inv, Next, Enabled;
    if j == |es| {
      assert es[..j] == es;
    } else if j < |es| - 1 {
      RunPrefix(es[..|es|-1], j);
      assert es[..|es|-1][..j] == es[..j];
    }
  }

  lemma NextInfo(m: Machine, e: Event)
    requires Inv(m) && Enabled(m, e)
    ensures Next(m, e).info == if e.Insert? then m.info[e.id := Info(e.rq, e.dev, m.written)] else m.info
    ensures e.Insert? ==> e.id !in m.info
  {
    hide Settled, Placed, Safe, Logged, Covers, InsertFlush, FlushEndIo, DataEndIo, FlushLog;
  }

  /** What the machine remembers of a request is what it was inserted with. */
  lemma {:induction false} InfoRecorded(es: seq<Event>, j: nat)
    requires Run(es).Reached? && j < |es| && es[j].Insert?
    ensures Run(es[..j]).Reached? && es[j].id in Run(es).m.info
    ensures Run(es).m.info[es[j].id] == Info(es[j].rq, es[j].dev, Run(es[..j]).m.written)
  {
    hide Inv, Next;
    var last := |es| - 1;
    RunPrefix(es, last);
    NextInfo(Run(es[..last]).m, es[last]);
    if j < last {
      InfoRecorded(es[..last], j);
      assert es[..last][..j] == es[..j];
    }
  }

  lemma EndedKept(m: Machine, k: nat, id: nat)
    requires Inv(m) && k < |m.q.ended| && m.q.ended[k] == (id, true)
    ensures id in m.info && Kept(m.info[id], id, ALL, m.written, m.durable)
  {
    hide Settled, Placed, Logged, Covers, Kept;
  }

  lemma KeptAll(rq: Submitted, dev: DevFlags, prior: set<nat>, id: nat, written: set<nat>, durable: set<nat>)
    requires dev.flush && Kept(Info(rq, dev, prior), id, ALL, written, durable)
    ensures rq.flush ==> prior <= durable
    ensures rq.hasData ==> id in written && (rq.fua ==> id in durable)
  {
  }

  /** Durability.  When a request inserted at event j has ended without error, then on a
      device with a write-back cache (1) if it carried REQ_FLUSH, every write completed
      before its insertion is on stable media, and (2) if it carried data and REQ_FUA, so
      is its own data, whether or not the device supports FUA itself. */
  lemma Durability(es: seq<Event>, j: nat, k: nat)
    requires Run(es).Reached? && j < |es| && es[j].Insert? && es[j].dev.flush
    requires k < |Run(es).m.q.ended| && Run(es).m.q.ended[k] == (es[j].id, true)
    ensures Run(es[..j]).Reached?
    ensures es[j].rq.flush ==> Run(es[..j]).m.written <= Run(es).m.durable
    ensures es[j].rq.fua && es[j].rq.hasData ==> es[j].id in Run(es).m.durable
    ensures es[j].rq.hasData ==> es[j].id in Run(es).m.written
  {
    hide Run, Inv, Kept;
    InfoRecorded(es, j);
    EndedKept(Run(es).m, k, es[j].id);
    KeptAll(es[j].rq, es[j].dev, Run(es[..j]).m.written, es[j].id, Run(es).m.written, Run(es).m.durable);
  }

  /** REQ_FLUSH orders the data too: by the time the data of such a request is handed to
      the driver, every write completed before the request's insertion is on media. */
  lemma FlushBeforeData(es: seq<Event>, j: nat)
    requires Run(es).Reached? && j < |es| && es[j].Insert? && es[j].rq.flush && es[j].dev.flush
    requires es[j].id in Run(es).m.q.inFlight
    ensures Run(es[..j]).Reached? && Run(es[..j]).m.written <= Run(es).m.durable
  {
    InfoRecorded(es, j);
    hide Placed, Logged, Covers, Run, Owners;
  }

  /** The protocol invariant, over every run. */
  lemma Protocol(es: seq<Event>)
    requires Run(es).Reached?
    ensures var m := Run(es).m; var q := m.q;
            && multiset(q.head)[FlushItem] + (if FlushItem in m.active then 1 else 0) == (if q.pending != q.running then 1 else 0)
            && (q.pending == q.running ==> q.At(!q.pending) == [])
            && (forall x :: x in q.done ==> Owners(q, x) == 1)
            && (forall x :: x !in q.done ==> Owners(q, x) == 0)
            && (forall x :: x in q.done ==>
                  (x in q.inFlight <==> CurSeq(q.done[x]) == Data)
                  && (x in q.list0 || x in q.list1 <==> CurSeq(q.done[x]) in {Pre, Post}))
            && (forall i, j :: 0 <= i < j < |q.ended| ==> q.ended[i].0 != q.ended[j].0)
            && (forall i :: 0 <= i < |q.ended| ==> q.ended[i].0 !in q.done)
  {
    hide Safe, Logged, Covers, Run, EndedIds, Direct;
    var m := Run(es).m; var q := m.q;
    assert multiset(q.head)[FlushItem] + (if FlushItem in m.active then 1 else 0) == Slots(q, m.info, FlushItem);
    forall x | x in q.done
      ensures (x in q.inFlight <==> CurSeq(q.done[x]) == Data) && (x in q.list0 || x in q.list1 <==> CurSeq(q.done[x]) in {Pre, Post})
    {
      assert Owners(q, x) == 1;
    }
  }

  /** What a request asks of a device with a cache: a flush before it for REQ_FLUSH, its data, and
      a flush after it for REQ_FUA if the device cannot do that itself. */
  function Asked(dev: DevFlags, rq: Submitted): seq<Step> {
    (if dev.flush && rq.flush then [Pre] else [])
    + (if dev.flush && rq.hasData then [Data] else [])
    + (if dev.flush && rq.fua && !dev.fua then [Post] else [])
  }

  /** REQ_FLUSH and REQ_FUA without data, on a device with a cache and without FUA. */
  predicate BothWithoutData(dev: DevFlags, rq: Submitted) {
    dev.flush && !dev.fua && rq.flush && rq.fua && !rq.hasData
  }

  /** A request that ended without error was taken through exactly the steps it asks for, in
      order, every flush among them issued after it began to wait. */
  lemma ExactSteps(es: seq<Event>, j: nat, k: nat)
    requires Run(es).Reached? && j < |es| && es[j].Insert? && !BothWithoutData(es[j].dev, es[j].rq)
    requires k < |Run(es).m.q.ended| && Run(es).m.q.ended[k] == (es[j].id, true)
    ensures es[j].id in Run(es).m.log && Run(es).m.log[es[j].id] == Asked(es[j].dev, es[j].rq)
  {
    InfoRecorded(es, j);
    hide Settled, Placed, Safe, Covers, Run;
    assert Logged(Run(es).m.q, Run(es).m.info, Run(es).m.log);
    assert Performed(Policy(es[j].dev, es[j].rq), ALL) == Asked(es[j].dev, es[j].rq);
  }

  /** No lost flush: a request that waits for a flush is never forgotten. */
  lemma NoLostFlush(es: seq<Event>)
    requires Run(es).Reached?
    ensures var m := Run(es).m;
            m.q.At(m.q.pending) != [] ==>
              || FlushItem in m.q.head || FlushItem in m.active
              || exists x :: x in m.q.inFlight && (DataItem(x) in m.q.head || DataItem(x) in m.active)
  {
    hide Safe, Logged, Covers, Run, EndedIds, Direct;
    var m := Run(es).m;
    if m.q.At(m.q.pending) != [] {
      if m.q.pending != m.q.running {
        assert multiset(m.q.head)[FlushItem] + (if FlushItem in m.active then 1 else 0) == Slots(m.q, m.info, FlushItem);
      } else {
        var x := m.q.inFlight[0];
        assert multiset(m.q.inFlight)[x] >= 1;
        assert multiset(m.q.head)[DataItem(x)] + (if DataItem(x) in m.active then 1 else 0) == Slots(m.q, m.info, DataItem(x));
      }
    }
  }

  // --------------------------------------------------------------------- progress

  /** Steps still to be done by all sequenced requests. */
  ghost function Unfinished(q: FlushQ): nat {
    Work(q.list0, q.done) + Work(q.list1, q.done) + Work(q.inFlight, q.done)
  }

  ghost function Load(m: Machine): nat {
    5 * Unfinished(m.q) + 2 * |m.q.head| + |m.active|
  }

  predicate Driver(e: Event) {
    e.Fetch? || e.DataEnd? || e.PlainEnd? || e.FlushEnd?
  }

  lemma {:induction false} WorkWithout(l: seq<nat>, id: nat, done: map<nat, Steps>, done': map<nat, Steps>)
    requires multiset(l)[id] <= 1
    requires forall x :: x != id ==> (x in done <==> x in done') && (x in done ==> done[x] == done'[x])
    ensures Work(Without(l, id), done') + (if id in l && id in done then done[id].Left() else 0) == Work(l, done)
  {
    if l != [] {
      assert l == [l[0]] + l[1..];
      assert multiset(l) == multiset{l[0]} + multiset(l[1..]);
      if l[0] == id {
        assert multiset(l[1..])[id] == 0;
        WithoutCounts(l[1..], id);
        WorkFrame(l[1..], id, done, done');
      } else {
        WorkWithout(l[1..], id, done, done');
        assert ([l[0]] + Without(l[1..], id))[1..] == Without(l[1..], id);
      }
    }
  }

  lemma AdvanceShrinks(q: FlushQ, id: nat, steps: Steps, ok: bool, c: Clock)
    requires id in q.done && Owners(q, id) == 1 && q.done[id].Or(steps).Left() < q.done[id].Left()
    ensures var a := Advance(q, id, steps, ok, c);
            Unfinished(a) < Unfinished(q) && |a.head| <= |q.head| + 1
  {
    hide Advance, Without, Work;
    AdvanceFields(q, id, steps, ok, c);
    var a := Advance(q, id, steps, ok, c);
    assert id in q.list0 || id in q.list1 || id in q.inFlight;
    WorkWithout(q.list0, id, q.done, a.done);
    WorkWithout(q.list1, id, q.done, a.done);
    WorkWithout(q.inFlight, id, q.done, a.done);
    WorkAppend(Without(q.At(q.pending), id), id, a.done);
    WorkAppend(Without(q.inFlight, id), id, a.done);
    assert forall l: seq<nat> :: l + [] == l;
  }

  lemma KickLoad(q: FlushQ, c: Clock)
    ensures Unfinished(Kick(q, c)) == Unfinished(q) && |Kick(q, c).head| <= |q.head| + 1
  {
  }

  lemma DrainOneShrinks(q: FlushQ, r: bool, ok: bool, c: Clock)
    requires Draining(q, r) && q.At(r) != []
    ensures var q' := DrainOne(q, r, ok, c);
            5 * Unfinished(q') + 2 * |q'.head| <= 5 * Unfinished(q) + 2 * |q.head|
  {
    hide OwnedBut, Advance, Kick, Unfinished, Work;
    HeadOfList(q, r);
    var id := q.At(r)[0];
    var steps := Bit(CurSeq(q.done[id]));
    assert Owners(q, id) == 1;
    AdvanceShrinks(q, id, steps, ok, c);
    KickLoad(Advance(q, id, steps, ok, c), c);
  }

  lemma {:induction false} DrainShrinks(q: FlushQ, r: bool, ok: bool, c: Clock)
    requires Draining(q, r)
    ensures var q' := Drain(q, r, ok, c);
            5 * Unfinished(q') + 2 * |q'.head| <= 5 * Unfinished(q) + 2 * |q.head|
    decreases Work(q.At(r), q.done)
  {
    hide Owned, Unfinished, DrainOne;
    if q.At(r) != [] {
      DrainOneShrinks(q, r, ok, c);
      DrainOneKeeps(q, r, ok, c);
      DrainOneWorks(q, r, ok, c);
      if |q.At(r)| > 1 {
        DrainShrinks(DrainOne(q, r, ok, c), r, ok, c);
      }
    }
  }

  lemma FetchShrinks(m: Machine, k: nat)
    requires Inv(m) && Enabled(m, Fetch(k))
    ensures Load(Next(m, Fetch(k))) < Load(m)
  {
    hide Inv, Work;
    assert |m.active + {m.q.head[k]}| <= |m.active| + 1;
  }

  lemma PlainShrinks(m: Machine, id: nat, ok: bool)
    requires Inv(m) && Enabled(m, PlainEnd(id, ok))
    ensures Load(Next(m, PlainEnd(id, ok))) < Load(m)
  {
    hide Inv, Work;
  }

  lemma DataShrinks(m: Machine, id: nat, ok: bool, c: Clock)
    requires Inv(m) && Enabled(m, DataEnd(id, ok, c))
    ensures Load(Next(m, DataEnd(id, ok, c))) < Load(m)
  {
    hide OwnedBut, Placed, Safe, Logged, Covers, Advance, Kick, Unfinished, ToMedia;
    FetchedData(m, id);
    assert Owners(m.q, id) == 1;
    AdvanceShrinks(m.q, id, Bit(Data), ok, c);
    KickLoad(Advance(m.q, id, Bit(Data), ok, c), c);
  }

  lemma FlushShrinks(m: Machine, ok: bool, c: Clock)
    requires Inv(m) && Enabled(m, FlushEnd(ok, c))
    ensures Load(Next(m, FlushEnd(ok, c))) < Load(m)
  {
    hide Owned, Placed, Safe, Logged, Covers, Drain, Unfinished, FlushLog, Draining;
    FetchedFlush(m);
    ToggleRunning(m.q, m.active, m.info, m.snap, m.written, m.durable);
    DrainShrinks(m.q.(running := !m.q.running), m.q.running, ok, c);
    ToggleLoad(m.q);
  }

  lemma ToggleLoad(q: FlushQ)
    ensures Unfinished(q.(running := !q.running)) == Unfinished(q)
  {
  }

  /** Everything the driver does brings the machine closer to rest. */
  lemma DriverShrinks(m: Machine, e: Event)
    requires Inv(m) && Enabled(m, e) && Driver(e)
    ensures Load(Next(m, e)) < Load(m)
  {
    hide Inv, Load, Next;
    match e
    case Fetch(k) => FetchShrinks(m, k);
    case DataEnd(id, ok, c) => DataShrinks(m, id, ok, c);
    case PlainEnd(id, ok) => PlainShrinks(m, id, ok);
    case FlushEnd(ok, c) => FlushShrinks(m, ok, c);
  }

  /** A driver cannot go on for ever without new requests ... */
  lemma {:induction false} DriverBound(es: seq<Event>, ds: seq<Event>)
    requires Run(es + ds).Reached? && forall d :: d in ds ==> Driver(d)
    ensures Run(es).Reached? && |ds| + Load(Run(es + ds).m) <= Load(Run(es).m)
  {
    hide Inv, Load;
    if ds == [] {
      assert es + ds == es;
    } else {
      var last := |ds| - 1;
      assert (es + ds)[..|es + ds|-1] == es + ds[..last];
      RunPrefix(es + ds, |es + ds| - 1);
      DriverBound(es, ds[..last]);
      DriverShrinks(Run(es + ds[..last]).m, ds[last]);
    }
  }

  lemma EmptyMeansEnded(q: FlushQ, info: map<nat, Info>, id: nat)
    requires Settled(q) && Placed(q, {}, info) && q.head == [] && id in info
    ensures id in EndedIds(q.ended)
  {
    hide EndedIds, Direct;
    assert multiset(q.head)[FlushItem] + 0 == Slots(q, info, FlushItem);
    assert multiset(q.head)[PlainItem(id)] + 0 == Slots(q, info, PlainItem(id));
    forall x ensures x !in q.inFlight {
      assert multiset(q.head)[DataItem(x)] + 0 == Slots(q, info, DataItem(x));
    }
    assert |q.inFlight| == 0;
    assert Owners(q, id) == 0;
  }

  predicate AtRest(m: Machine) {
    m.q.head == [] && m.active == {}
  }

  /** Short of rest the driver has something to do ... */
  lemma DriverReady(m: Machine)
    requires Inv(m)
    ensures AtRest(m) <==> forall e :: Driver(e) ==> !Enabled(m, e)
  {
    hide Inv;
    if m.q.head != [] {
      assert Driver(Fetch(0)) && Enabled(m, Fetch(0));
    } else if m.active != {} {
      var x :| x in m.active;
      var c := Clock(0, 0);
      var e := match x case FlushItem => FlushEnd(true, c) case DataItem(i) => DataEnd(i, true, c) case PlainItem(i) => PlainEnd(i, true);
      assert Driver(e) && Enabled(m, e);
    }
  }

  /** ... and at rest every request ever inserted has ended. */
  lemma RestMeansEnded(es: seq<Event>, j: nat)
    requires Run(es).Reached? && AtRest(Run(es).m) && j < |es| && es[j].Insert?
    ensures exists k :: 0 <= k < |Run(es).m.q.ended| && Run(es).m.q.ended[k].0 == es[j].id
  {
    InfoRecorded(es, j);
    hide Safe, Logged, Covers, Run, Placed, Settled;
    EmptyMeansEnded(Run(es).m.q, Run(es).m.info, es[j].id);
  }

  // ----------------------------------------------------- where the code falls short

  /** A request is ended at once, nothing having been done for it, exactly when its policy
      is empty.  For a request with data that is when the device has not announced a
      write-back cache: the data is then dropped, although the opening comment of the
      source promises that such requests are executed as normal ones.  Bios for such a device
      lose both flags on submission (block/blk-core.c:1539), so the case arises only if the
      device gives up its cache between that test and the insertion. */
  lemma EndedAtOnce(m: Machine, id: nat, rq: Submitted, dev: DevFlags, c: Clock)
    requires Inv(m) && Enabled(m, Insert(id, rq, dev, c))
    ensures var m' := Next(m, Insert(id, rq, dev, c));
            && ((id, true) in m'.q.ended <==> Policy(dev, rq) == Steps(false, false, false))
            && (rq.hasData ==> ((id, true) in m'.q.ended && id !in m'.written <==> !dev.flush))
  {
    hide Owned, Placed, Safe, Logged, Covers, Advance, EndedIds, Settled;
    SettledOwned(m.q);
    Unknown(m.q, m.active, m.info, id);
    NotEnded(m.q.ended, id);
    var q0 := m.q.(done := m.q.done[id := Steps(false, false, false)]);
    AdvanceFields(q0, id, Policy(dev, rq).Others(), true, c);
  }

  /** A write with REQ_FUA is inserted on a device without a cache: it has ended without error,
      nothing is queued for it and its data is nowhere. */
  lemma DroppedWrite()
    ensures var o := Run([Insert(1, Submitted(true, false, true), DevFlags(false, false), TICK)]);
            o.Reached? && (1, true) in o.m.q.ended && 1 !in o.m.written && o.m.q.head == [] && o.m.active == {}
  {
    hide Inv, CompleteSeq;
    var e := Insert(1, Submitted(true, false, true), DevFlags(false, false), TICK);
    assert [e][..0] == [] && Run([]) == Reached(BOOT);
    BootInv();
    EndedAtOnce(BOOT, 1, e.rq, e.dev, TICK);
    DroppedQueue(e.rq, e.dev);
  }

  lemma DroppedQueue(rq: Submitted, dev: DevFlags)
    requires !dev.flush
    ensures InsertFlush(EMPTY, 1, rq, dev, TICK).head == []
  {
  }

  lemma NotEnded(ended: seq<(nat, bool)>, id: nat)
    requires id !in EndedIds(ended)
    ensures (id, true) !in ended
  {
    assert forall k :: 0 <= k < |ended| ==> ended[k].0 in EndedIds(ended);
  }

  /** Request j of the run has ended without error, as entry k of the record. */
  ghost predicate EndedWell(es: seq<Event>, j: nat, k: nat) {
    && Run(es).Reached? && j < |es| && es[j].Insert?
    && k < |Run(es).m.q.ended| && Run(es).m.q.ended[k] == (es[j].id, true)
  }

  /** In every run, a request submitted like this goes through the steps it asks for. */
  ghost predicate AlwaysExact(dev: DevFlags, rq: Submitted) {
    forall es: seq<Event>, j: nat, k: nat :: EndedWell(es, j, k) && es[j].dev == dev && es[j].rq == rq ==>
      es[j].id in Run(es).m.log && Run(es).m.log[es[j].id] == Asked(dev, rq)
  }

  /** The promise holds for exactly the requests that do not ask for two flushes with no
      data between: those can be put back, by a flush issued midway, at the tail of the
      very list that is being walked, and are then ended without their post-flush. */
  lemma ExactStepsIff(dev: DevFlags, rq: Submitted)
    ensures AlwaysExact(dev, rq) <==> !BothWithoutData(dev, rq)
  {
    if BothWithoutData(dev, rq) {
      assert dev == CACHED && rq == BOTH;
      var es := PostflushSkipped();
      hide Run;
      assert EndedWell(es, 2, 2);
      assert !AlwaysExact(dev, rq);
    } else {
      forall es: seq<Event>, j: nat, k: nat | EndedWell(es, j, k) && es[j].dev == dev && es[j].rq == rq
        ensures es[j].id in Run(es).m.log && Run(es).m.log[es[j].id] == Asked(dev, rq)
      {
        ExactSteps(es, j, k);
      }
    }
  }

  const CACHED := DevFlags(true, false)
  const SIMPLE := Submitted(false, true, false)
  const BOTH := Submitted(false, true, true)
  const TICK := Clock(0, 1)

  lemma RunStep(es: seq<Event>, e: Event)
    requires Run(es).Reached? && Enabled(Run(es).m, e)
    ensures Run(es + [e]) == Reached(Next(Run(es).m, e))
  {
    assert (es + [e])[..|es|] == es;
  }

  /** A request that still wants a flush makes the walk issue one, if none is in flight. */
  lemma FlushMidway(q: FlushQ, r: bool, c: Clock)
    requires Draining(q, r) && q.At(r) != [] && q.At(r)[0] in q.done
    requires q.pending != r && q.inFlight == [] && StepAfter(q.done[q.At(r)[0]]) == Post
    ensures DrainOne(q, r, true, c).pending == r
  {
    hide Owned, Advance;
    AdvanceFields(q, q.At(r)[0], Bit(CurSeq(q.done[q.At(r)[0]])), true, c);
  }

  /** One turn of the walk, for the three kinds of entry met in WalkOver. */
  lemma Turn(q: FlushQ, r: bool, c: Clock, id: nat, rest: seq<nat>, d: Steps)
    requires Draining(q, r) && q.At(r) == [id] + rest && id in q.done && q.done[id] == d
    requires q.pending == r || (q.inFlight == [] && StepAfter(d) == Post)
    ensures var q' := DrainOne(q, r, true, c);
            && Draining(q', r) && q'.pending == r
            && q'.At(r) == rest + (if StepAfter(d) == Post && q.pending == r then [id] else [])
            && q'.ended == q.ended + (if StepAfter(d) == Done then [(id, true)] else [])
            && (StepAfter(d) != Done ==> id in q'.done && q'.done[id] == d.Or(Bit(CurSeq(d))))
            && (forall x :: x != id && x in q.done ==> x in q'.done && q'.done[x] == q.done[x])
            && (rest != [] ==> Drain(q, r, true, c) == Drain(q', r, true, c))
            && (rest == [] ==> Drain(q, r, true, c) == q')
  {
    hide Owned, DrainOne;
    assert q.At(r)[0] == id && q.At(r)[1..] == rest;
    DrainOneList(q, r, true, c);
    DrainOneKeeps(q, r, true, c);
    DrainOneEnds(q, r, true, c);
    if q.pending != r {
      FlushMidway(q, r, c);
    }
  }

  /** The walk over [2, 3, 4] in which 2 and 3 want a second flush: 2 joins the other list
      and a flush is issued for it, 3 is moved to the tail of the walked list, 4 ends, and
      3 is met again. */
  lemma WalkOver(q: FlushQ)
    requires q.list1 == [2, 3, 4] && !q.pending && q.inFlight == []
    requires 2 in q.done && 3 in q.done && 4 in q.done
    requires q.done[2] == q.done[3] == Steps(false, true, false) && q.done[4] == Steps(false, true, true)
    requires Draining(q, true)
    ensures Drain(q, true, true, TICK).ended == q.ended + [(4, true), (3, true)]
  {
    hide Owned, DrainOne, Drain, Draining;
    Turn(q, true, TICK, 2, [3, 4], Steps(false, true, false));
    var a := DrainOne(q, true, true, TICK);
    assert a.list1 == [3] + [4];
    Turn(a, true, TICK, 3, [4], Steps(false, true, false));
    var b := DrainOne(a, true, true, TICK);
    assert b.list1 == [4] + [3];
    Turn(b, true, TICK, 4, [3], Steps(false, true, true));
    var d := DrainOne(b, true, true, TICK);
    assert d.list1 == [3] + [];
    Turn(d, true, TICK, 3, [], Steps(true, true, false));
  }

  /** While a flush is in flight, a request that begins with a pre-flush just queues up. */
  lemma InsertWaits(q: FlushQ, id: nat, rq: Submitted)
    requires q.pending != q.running && id !in q.list0 && id !in q.list1 && id !in q.inFlight && rq.flush && !rq.hasData
    requires q.since == 0
    ensures InsertFlush(q, id, rq, CACHED, TICK)
         == q.Put(q.pending, q.At(q.pending) + [id]).(done := q.done[id := Steps(false, true, !rq.fua)])
  {
    WithoutCounts(q.list0, id);
    WithoutCounts(q.list1, id);
    WithoutCounts(q.inFlight, id);
    var q0 := q.(done := q.done[id := Steps(false, false, false)]);
    var steps := Policy(CACHED, rq).Others();
    assert q0.done[id := steps] == q.done[id := steps];
  }

  const WAITING1 := map[1 := Steps(false, true, true)]
  const WAITING4 := WAITING1[2 := Steps(false, true, false)][3 := Steps(false, true, false)][4 := Steps(false, true, true)]

  lemma FirstInsert()
    ensures InsertFlush(EMPTY, 1, SIMPLE, CACHED, TICK) == FlushQ([1], [], true, false, [], [FlushItem], 0, WAITING1, [])
  {
    assert EMPTY.done[1 := Steps(false, false, false)][1 := Steps(false, true, true)] == WAITING1;
    assert Without([], 1) == [];
  }

  /** A run that has got to queue state `q` with log `log`, nothing fetched or written, and
      that knows requests 1 to n. */
  ghost predicate Stands(es: seq<Event>, q: FlushQ, n: nat, active: set<Item>, log: map<nat, seq<Step>>) {
    && Run(es).Reached? && Run(es).m.q == q && Run(es).m.active == active && Run(es).m.log == log
    && Run(es).m.written == {} && forall x :: x in Run(es).m.info ==> x <= n
  }

  lemma OneInserted()
    ensures Stands([Insert(1, SIMPLE, CACHED, TICK)],
                   FlushQ([1], [], true, false, [], [FlushItem], 0, WAITING1, []), 1, {}, map[1 := []])
  {
    hide Inv, InsertFlush;
    var e1 := Insert(1, SIMPLE, CACHED, TICK);
    BootInv();
    FirstInsert();
    assert Run([]) == Reached(BOOT);
    RunStep([], e1);
    assert [] + [e1] == [e1];
  }

  lemma OneMore(es: seq<Event>, q: FlushQ, n: nat, log: map<nat, seq<Step>>, rq: Submitted)
    requires Stands(es, q, n, {}, log) && rq.flush && !rq.hasData
    requires q.pending != q.running && q.since == 0 && n + 1 !in q.list0 && n + 1 !in q.list1 && n + 1 !in q.inFlight
    ensures Stands(es + [Insert(n + 1, rq, CACHED, TICK)],
                   q.Put(q.pending, q.At(q.pending) + [n + 1]).(done := q.done[n + 1 := Steps(false, true, !rq.fua)]),
                   n + 1, {}, log[n + 1 := []])
  {
    hide Inv, InsertFlush, Run;
    InsertWaits(q, n + 1, rq);
    RunStep(es, Insert(n + 1, rq, CACHED, TICK));
  }

  lemma FetchFlush(es: seq<Event>, q: FlushQ, n: nat, log: map<nat, seq<Step>>)
    requires Stands(es, q, n, {}, log) && q.head == [FlushItem]
    ensures Stands(es + [Fetch(0)], q.(head := []), n, {FlushItem}, log)
  {
    hide Inv, Run;
    RunStep(es, Fetch(0));
    assert q.head[..0] + q.head[1..] == [];
  }

  const QUEUED := FlushQ([1], [2, 3, 4], true, false, [], [FlushItem], 0, WAITING4, [])
  const NO_STEPS: map<nat, seq<Step>> := map[1 := []][2 := []][3 := []][4 := []]

  lemma FourInserted() returns (es: seq<Event>)
    ensures |es| == 4 && es[2] == Insert(3, BOTH, CACHED, TICK) && Stands(es, QUEUED, 4, {}, NO_STEPS)
  {
    hide Stands;
    OneInserted();
    var q1 := FlushQ([1], [], true, false, [], [FlushItem], 0, WAITING1, []);
    var log: map<nat, seq<Step>> := map[1 := []];
    es := [Insert(1, SIMPLE, CACHED, TICK)];
    OneMore(es, q1, 1, log, BOTH);
    es := es + [Insert(2, BOTH, CACHED, TICK)];
    var q2 := q1.(list1 := [] + [2], done := q1.done[2 := Steps(false, true, false)]);
    OneMore(es, q2, 2, log[2 := []], BOTH);
    es := es + [Insert(3, BOTH, CACHED, TICK)];
    var q3 := q2.(list1 := [] + [2] + [3], done := q2.done[3 := Steps(false, true, false)]);
    OneMore(es, q3, 3, log[2 := []][3 := []], SIMPLE);
    es := es + [Insert(4, SIMPLE, CACHED, TICK)];
    assert QUEUED == q3.(list1 := [] + [2] + [3] + [4], done := q3.done[4 := Steps(false, true, true)]);
  }

  /** The first flush ends request 1 and a second one is issued for 2, 3 and 4. */
  lemma FirstFlushEnds(q: FlushQ)
    requires q == QUEUED.(head := []) && Settled(q)
    ensures var q' := FlushEndIo(q, true, TICK);
            && q'.list1 == [2, 3, 4] && !q'.pending && q'.running && q'.inFlight == [] && q'.head == [FlushItem]
            && q'.done == WAITING4 - {1} && q'.ended == [(1, true)]
  {
    hide Owned, Advance;
    var q1 := q.(running := true);
    Toggled(q);
    AdvanceFields(q1, 1, Bit(Pre), true, TICK);
    WithoutCounts([], 1);
    WithoutCounts([2, 3, 4], 1);
    assert Drain(q1, false, true, TICK) == CompleteSeq(q1, 1, Bit(Pre), true, TICK);
  }

  /** Up to the second flush reaching the device. */
  lemma SecondFlushFetched() returns (es: seq<Event>)
    ensures |es| == 7 && es[2] == Insert(3, BOTH, CACHED, TICK) && Run(es).Reached? && FlushItem in Run(es).m.active
    ensures var m := Run(es).m;
            && m.q.list1 == [2, 3, 4] && !m.q.pending && m.q.running && m.q.inFlight == []
            && m.q.done == WAITING4 - {1} && m.q.ended == [(1, true)] && 3 in m.log && m.log[3] == []
  {
    hide Run, Settled, Placed, Safe, Logged, Covers, Next, FlushEndIo;
    es := FourInserted();
    FetchFlush(es, QUEUED, 4, NO_STEPS);
    es := es + [Fetch(0)];
    var m5 := Run(es).m;
    FetchedFlush(m5);
    FirstFlushEnds(m5.q);
    RunStep(es, FlushEnd(true, TICK));
    FlushEndNext(m5);
    es := es + [FlushEnd(true, TICK)];
    var m6 := Run(es).m;
    RunStep(es, Fetch(0));
    FetchNext(m6);
    es := es + [Fetch(0)];
  }

  lemma PostflushSkipped() returns (es: seq<Event>)
    ensures EndedWell(es, 2, 2) && es[2].dev == CACHED && es[2].rq == BOTH
    ensures es[2].id in Run(es).m.log && Run(es).m.log[es[2].id] == [Pre]
  {
    hide Run, Settled, Placed, Safe, Logged, Covers, Next, Drain;
    es := SecondFlushFetched();
    var m7 := Run(es).m;
    FetchedFlush(m7);
    RunStep(es, FlushEnd(true, TICK));
    FlushEndNext(m7);
    es := es + [FlushEnd(true, TICK)];
    Toggled(m7.q);
    WalkOver(m7.q.(running := false));
  }

  lemma FlushEndNext(m: Machine)
    requires Inv(m) && FlushItem in m.active && m.q.pending != m.q.running && multiset(m.q.head)[FlushItem] == 0
    ensures var m' := Next(m, FlushEnd(true, TICK));
            m'.q == FlushEndIo(m.q, true, TICK) && m'.log == FlushLog(m)
  {
    hide Settled, Placed, Safe, Logged, Covers, FlushEndIo, FlushLog;
  }

  lemma FetchNext(m: Machine)
    requires Inv(m) && m.q.head == [FlushItem]
    ensures var m' := Next(m, Fetch(0));
            m'.q == m.q.(head := []) && FlushItem in m'.active && m'.log == m.log
  {
    hide Inv;
    assert m.q.head[..0] + m.q.head[1..] == [];
  }
}
