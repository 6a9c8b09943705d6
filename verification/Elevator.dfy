/** The elevator core of block/elevator.c: the back-merge hash with its one-hit cache, and the
    sorted insertion into the dispatch queue. */
module Elevator {
  import opened Lists

  const BUCKETS: nat := 64
  const GOLDEN_RATIO_PRIME: nat := 0x9e37_ffff_fffc_0001

  /** ELV_HASH_FN: hash_long of the sector shifted by 3, to 6 bits */
  function Bucket(sector: nat): (b: nat)
    ensures b < BUCKETS
  {
    sector / 8 * GOLDEN_RATIO_PRIME % 0x1_0000_0000_0000_0000 / 0x0400_0000_0000_0000
  }

  /** What the elevator core uses of a struct request.  `stop` is REQ_SOFTBARRIER or
      REQ_STARTED, `mergeable` the outcome of rq_mergeable. */
  datatype Rq = Rq(pos: nat, sectors: nat, write: bool, discard: bool, stop: bool, mergeable: bool) {
    /** rq_hash_key and rq_end_sector */
    function End(): nat { pos + sectors }
  }

  // ------------------------------------------------------------------ hash chains

  /** The chains, and for each node the chain it is linked into. */
  datatype Chains = Chains(hash: seq<seq<nat>>, link: map<nat, nat>) {
    ghost predicate Linked() {
      && |hash| == BUCKETS
      && (forall x :: x in link ==> link[x] < BUCKETS && x in hash[link[x]])
      && (forall b :: 0 <= b < BUCKETS ==> NoDup(hash[b]) && forall x :: x in hash[b] ==> x in link && link[x] == b)
    }

    /** hlist_del_init */
    function Unlink(x: nat): Chains
      requires x in link ==> link[x] < |hash|
    {
      if x in link then Chains(hash[link[x] := Without(hash[link[x]], x)], link - {x}) else this
    }

    /** hlist_add_head */
    function LinkHead(x: nat, b: nat): Chains
      requires b < |hash|
    {
      Chains(hash[b := [x] + hash[b]], link[x := b])
    }
  }

  const NO_CHAINS := Chains(seq(BUCKETS, i => []), map[])

  lemma UnlinkLinked(c: Chains, x: nat)
    requires c.Linked()
    ensures c.Unlink(x).Linked() && c.Unlink(x).link == c.link - {x}
  {
    if x in c.link {
      var b := c.link[x];
      var k :| 0 <= k < |c.hash[b]| && c.hash[b][k] == x;
      WithoutCounts(c.hash[b], x);
      WithoutCut(c.hash[b], k);
      CutNoDup(c.hash[b], k);
    }
  }

  lemma LinkHeadLinked(c: Chains, x: nat, b: nat)
    requires c.Linked() && b < BUCKETS && x !in c.link
    ensures c.LinkHead(x, b).Linked()
  {
    assert x !in c.hash[b];
  }

  /** The hash agrees with the held requests, but for those in `but`. */
  ghost predicate Index(rq: map<nat, Rq>, held: set<nat>, c: Chains, n: int, but: set<nat>) {
    && c.Linked() && n == |held|
    && (forall x :: x in held ==> x in rq)
    && (forall x :: x in c.link ==> x in held)
    && (forall x :: x in c.link && x !in but ==> c.link[x] == Bucket(rq[x].End()))
    && (forall x :: x in held && x !in but && rq[x].mergeable ==> x in c.link)
  }

  /** Changing one request can upset only its own entry. */
  lemma IndexChange(rq: map<nat, Rq>, held: set<nat>, c: Chains, n: int, x: nat, r: Rq, but: set<nat>)
    requires Index(rq, held, c, n, {}) && x in but
    ensures Index(rq[x := r], held, c, n, but)
  {
    hide Bucket, Chains.Linked;
  }

  /** A request that keeps its end and does not become mergeable stays indexed. */
  lemma IndexSame(rq: map<nat, Rq>, held: set<nat>, c: Chains, n: int, x: nat, r: Rq)
    requires Index(rq, held, c, n, {}) && x in rq && r.End() == rq[x].End() && (r.mergeable ==> rq[x].mergeable)
    ensures Index(rq[x := r], held, c, n, {})
  {
    hide Bucket, Chains.Linked;
  }

  lemma IndexAdd(rq: map<nat, Rq>, held: set<nat>, c: Chains, c': Chains, n: int, x: nat, r: Rq)
    requires Index(rq, held, c, n, {}) && x !in held && c'.Linked()
    requires c'.link == if r.mergeable then c.link[x := Bucket(r.End())] else c.link
    ensures Index(rq[x := r], held + {x}, c', n + 1, {})
  {
    hide Bucket, Chains.Linked;
  }

  lemma IndexKnown(rq: map<nat, Rq>, held: set<nat>, c: Chains, n: int, but: set<nat>)
    requires Index(rq, held, c, n, but)
    ensures c.Linked() && (forall x :: x in held ==> x in rq) && (forall x :: x in c.link ==> x in held)
  {
    hide Bucket, Chains.Linked;
  }

  // --------------------------------------------------------------- the elevator

  class ElevatorQueue {
    var rq: map<nat, Rq>
    var held: set<nat>            // sorted requests in the hands of the I/O scheduler
    var chains: Chains
    var lastMerge: Option<nat>
    var nrSorted: int
    var queueHead: seq<nat>
    var endSector: nat

    /** Between operations: a request is in the hash only if held, under its end sector, and
        is there if it may be merged; the one-hit cache names a held request. */
    ghost predicate Valid()
      reads `rq, `held, `chains, `nrSorted, `lastMerge
    {
      Indexed({}) && (lastMerge.Some? ==> lastMerge.value in held)
    }

    /** The same but for the requests in `but`, which may be missing or under an old key. */
    ghost predicate Indexed(but: set<nat>)
      reads `rq, `held, `chains, `nrSorted
    {
      Index(rq, held, chains, nrSorted, but)
    }

    constructor ()
      ensures Valid() && held == {} && queueHead == []
    {
      rq, held, chains, lastMerge, nrSorted, queueHead, endSector := map[], {}, NO_CHAINS, None, 0, [], 0;
    }

    /** elv_rqhash_del */
    method RqhashDel(x: nat)
      requires chains.Linked()
      modifies `chains
      ensures chains.Linked() && chains.link == old(chains.link) - {x}
    {
      UnlinkLinked(chains, x);
      chains := chains.Unlink(x);
    }

    /** elv_rqhash_add, with the BUG_ON as what callers see to */
    method RqhashAdd(x: nat)
      requires chains.Linked() && x in rq && x !in chains.link
      modifies `chains
      ensures chains.Linked() && chains.link == old(chains.link)[x := Bucket(rq[x].End())]
    {
      LinkHeadLinked(chains, x, Bucket(rq[x].End()));
      chains := chains.LinkHead(x, Bucket(rq[x].End()));
    }

    /** elv_rqhash_reposition */
    method RqhashReposition(x: nat, ghost but: set<nat>)
      requires Indexed(but) && x in held
      modifies `chains
      ensures Indexed(but - {x})
    {
      hide Bucket, Chains.Linked;
      RqhashDel(x);
      RqhashAdd(x);
    }

    /** A request leaves the scheduler. */
    method Forget(x: nat)
      requires Indexed({x}) && x in held
      modifies `chains, `held, `nrSorted
      ensures Indexed({}) && held == old(held) - {x}
    {
      hide Bucket, Chains.Linked;
      RqhashDel(x);
      nrSorted := nrSorted - 1;
      held := held - {x};
    }

    /** elv_rqhash_find: the hash answers as a scan of all held requests would.  Requests that
        may no longer be merged are dropped from the chain on the way. */
    method RqhashFind(offset: nat) returns (r: Option<nat>)
      requires Valid()
      modifies `chains
      ensures Valid()
      ensures r.Some? <==> exists x :: x in held && rq[x].mergeable && rq[x].End() == offset
      ensures r.Some? ==> r.value in held && rq[r.value].mergeable && rq[r.value].End() == offset
      ensures chains.link.Keys <= old(chains.link.Keys)
    {
      hide Indexed, Bucket, Chains.Linked;
      var b := Bucket(offset);
      ChainHolds(offset);
      var l := chains.hash[b];
      var k := 0;
      while k < |l|
        invariant k <= |l| && Valid() && chains.link.Keys <= old(chains.link.Keys)
        invariant forall j :: 0 <= j < k && rq[l[j]].mergeable ==> rq[l[j]].End() != offset
      {
        var x := l[k];
        k := k + 1;
        if !rq[x].mergeable {
          DropStale(x);
          continue;
        }
        if rq[x].End() == offset {
          return Some(x);
        }
      }
      r := None;
    }

    method DropStale(x: nat)
      requires Valid() && x in rq && !rq[x].mergeable
      modifies `chains
      ensures Valid() && chains.link == old(chains.link) - {x}
    {
      hide Bucket, Chains.Linked;
      RqhashDel(x);
    }

    /** The chain of an end sector: only held requests, and all that could be wanted. */
    lemma ChainHolds(offset: nat)
      requires Valid()
      ensures Bucket(offset) < |chains.hash|
      ensures forall x :: x in chains.hash[Bucket(offset)] ==> x in held && x in rq
      ensures forall x :: x in held ==> x in rq
      ensures forall x :: x in held && rq[x].mergeable && rq[x].End() == offset ==> x in chains.hash[Bucket(offset)]
    {
      hide Bucket;
    }

    /** ll_back_merge_fn and ll_front_merge_fn on a request that would get too big */
    method MarkNoMerge(x: nat)
      requires Valid() && x in held
      modifies `rq, `lastMerge
      ensures Valid() && rq == old(rq)[x := old(rq)[x].(mergeable := false)]
    {
      hide Index;
      IndexKnown(rq, held, chains, nrSorted, {});
      IndexSame(rq, held, chains, nrSorted, x, rq[x].(mergeable := false));
      rq := rq[x := rq[x].(mergeable := false)];
      if lastMerge == Some(x) {
        lastMerge := None;
      }
    }

    /** __elv_add_request, ELEVATOR_INSERT_SORT, up to handing the request to the scheduler */
    method AddSorted(x: nat, r: Rq)
      requires Valid() && x !in held
      modifies this
      ensures Valid() && held == old(held) + {x} && rq == old(rq)[x := r] && queueHead == old(queueHead)
      ensures lastMerge == (if old(lastMerge).None? && r.mergeable then Some(x) else old(lastMerge))
    {
      hide Index, Bucket, Chains.Linked;
      IndexKnown(rq, held, chains, nrSorted, {});
      ghost var was, n := rq, nrSorted;
      ghost var c := chains;
      rq := rq[x := r];
      nrSorted := nrSorted + 1;
      if r.mergeable {
        RqhashAdd(x);
        if lastMerge.None? {
          lastMerge := Some(x);
        }
      }
      IndexAdd(was, held, c, chains, n, x, r);
      held := held + {x};
    }

    /** elv_merge_requests: `next` is sorted if the scheduler holds it, otherwise it comes from
        a plug list.  Its sectors are already counted to x. */
    method MergeRequests(x: nat, next: nat)
      requires Indexed({x, next}) && x in held && x != next
      modifies `chains, `held, `nrSorted, `lastMerge
      ensures Valid() && held == old(held) - {next} && lastMerge == Some(x)
    {
      hide Bucket, Chains.Linked;
      RqhashReposition(x, {x, next});
      assert {x, next} - {x} == {next};
      if next in held {
        Forget(next);
      }
      lastMerge := Some(x);
    }

    /** A bio merged at the back in __make_request; `latter` is what attempt_back_merge then
        merges in as well, if anything. */
    method BackMerge(x: nat, len: nat, latter: Option<nat>)
      requires Valid() && x in held && rq[x].mergeable
      requires latter.Some? ==> latter.value in held && latter.value != x && rq[latter.value].pos == rq[x].End() + len
      modifies this
      ensures Valid() && lastMerge == Some(x) && held == old(held) - (if latter.Some? then {latter.value} else {})
      ensures rq[x].End() == if latter.Some? then old(rq)[latter.value].End() else old(rq)[x].End() + len
      ensures rq == old(rq)[x := rq[x]] && rq[x].mergeable && rq[x].pos == old(rq)[x].pos
    {
      hide Index;
      IndexKnown(rq, held, chains, nrSorted, {});
      ghost var was := rq;
      rq := rq[x := rq[x].(sectors := rq[x].sectors + len)];
      IndexChange(was, held, chains, nrSorted, x, rq[x], {x});
      if latter.Some? {
        rq := rq[x := rq[x].(sectors := rq[x].sectors + rq[latter.value].sectors)];
        assert rq == was[x := rq[x]];
        IndexChange(was, held, chains, nrSorted, x, rq[x], {x, latter.value});
        MergeRequests(x, latter.value);
      } else {
        RqhashReposition(x, {x});
        assert {x} - {x} == {};
        lastMerge := Some(x);
      }
    }

    /** A bio merged at the front; `former` is what attempt_front_merge then merges x into. */
    method FrontMerge(x: nat, len: nat, former: Option<nat>)
      requires Valid() && x in held && rq[x].mergeable && len <= rq[x].pos
      requires former.Some? ==>
        former.value in held && former.value != x && rq[former.value].mergeable && rq[former.value].End() == rq[x].pos - len
      modifies this
      ensures Valid() && held == old(held) - (if former.Some? then {x} else {})
      ensures lastMerge == Some(if former.Some? then former.value else x)
      ensures var y := lastMerge.value;
              y in rq && rq[y].mergeable && rq[y].End() == old(rq)[x].End()
              && rq == old(rq)[x := old(rq)[x].(pos := old(rq)[x].pos - len, sectors := old(rq)[x].sectors + len)][y := rq[y]]
    {
      hide Index;
      IndexKnown(rq, held, chains, nrSorted, {});
      IndexSame(rq, held, chains, nrSorted, x, rq[x].(pos := rq[x].pos - len, sectors := rq[x].sectors + len));
      rq := rq[x := rq[x].(pos := rq[x].pos - len, sectors := rq[x].sectors + len)];
      if former.Some? {
        var y := former.value;
        ghost var was := rq;
        rq := rq[y := rq[y].(sectors := rq[y].sectors + rq[x].sectors)];
        IndexChange(was, held, chains, nrSorted, y, rq[y], {y, x});
        MergeRequests(y, x);
      } else {
        lastMerge := Some(x);
      }
    }

    /** What elv_dispatch_sort and elv_dispatch_add_tail have in common. */
    method Release(x: nat)
      requires Valid() && x in held
      modifies `chains, `held, `nrSorted, `lastMerge
      ensures Valid() && held == old(held) - {x}
      ensures lastMerge == if old(lastMerge) == Some(x) then None else old(lastMerge)
    {
      hide Bucket, Chains.Linked;
      if lastMerge == Some(x) {
        lastMerge := None;
      }
      Forget(x);
    }

    /** elv_dispatch_add_tail */
    method DispatchAddTail(x: nat)
      requires Valid() && x in held
      modifies this
      ensures Valid() && held == old(held) - {x} && rq == old(rq)
      ensures queueHead == old(queueHead) + [x] && endSector == rq[x].End()
    {
      hide Indexed;
      KnownHeld(x);
      Release(x);
      endSector := rq[x].End();
      queueHead := queueHead + [x];
    }

    lemma KnownHeld(x: nat)
      requires Valid() && x in held
      ensures x in rq
    {
    }

    /** elv_dispatch_sort: everything else keeps its order, and the request passes exactly those at
        the end of the queue that are of its kind, not started and no barrier, and come after it
        on the way up from the boundary.  If that run was in elevator order, it still is. */
    method DispatchSort(x: nat) returns (k: nat)
      requires Valid() && x in held && forall y :: y in queueHead ==> y in rq
      modifies this
      ensures Valid() && held == old(held) - {x} && rq == old(rq) && endSector == old(endSector)
      ensures (forall y :: y in queueHead ==> y in rq)
      ensures Tail(rq, old(queueHead), rq[x]) <= k <= |old(queueHead)|
      ensures queueHead == old(queueHead)[..k] + [x] + old(queueHead)[k..]
      ensures forall j :: k <= j < |old(queueHead)| ==> Passes(rq[x], rq[old(queueHead)[j]], endSector)
      ensures k > 0 ==> !Passes(rq[x], rq[old(queueHead)[k - 1]], endSector)
      ensures InOrder(rq, old(queueHead)[Tail(rq, old(queueHead), rq[x])..], endSector) ==>
              InOrder(rq, queueHead[Tail(rq, old(queueHead), rq[x])..], endSector)
    {
      hide Indexed, Ahead, InOrder, Tail;
      KnownHeld(x);
      Release(x);
      k := SortPlace(rq, queueHead, rq[x], endSector);
      TailIs(rq, queueHead, rq[x]);
      InsertOrder(rq, queueHead, x, k, endSector);
      queueHead := queueHead[..k] + [x] + queueHead[k..];
    }
  }

  /** The loop of elv_dispatch_sort, from the tail: it stops at a request of another kind, a
      barrier or a started request, or at one that the new request must not precede. */
  method SortPlace(rq: map<nat, Rq>, queue: seq<nat>, r: Rq, boundary: nat) returns (k: nat)
    requires forall y :: y in queue ==> y in rq
    ensures Tail(rq, queue, r) <= k <= |queue|
    ensures forall j :: k <= j < |queue| ==> Ahead(boundary, r.pos, rq[queue[j]].pos)
    ensures k > Tail(rq, queue, r) ==> !Ahead(boundary, r.pos, rq[queue[k - 1]].pos)
  {
    k := |queue|;
    TailIs(rq, queue, r);
    while k > 0
      invariant Tail(rq, queue, r) <= k <= |queue|
      invariant forall j :: k <= j < |queue| ==> Ahead(boundary, r.pos, rq[queue[j]].pos)
    {
      var p := rq[queue[k - 1]];
      if r.discard != p.discard || r.write != p.write || p.stop {
        return;
      }
      if r.pos >= boundary {
        if p.pos < boundary {
          k := k - 1;
          continue;
        }
      } else if p.pos >= boundary {
        return;
      }
      if r.pos >= p.pos {
        return;
      }
      k := k - 1;
    }
  }

  // ------------------------------------------------------------- elevator order

  /** Seen from the boundary, going up and then around, position p comes before q. */
  predicate Ahead(boundary: nat, p: nat, q: nat) {
    if p >= boundary then q < boundary || p < q else q < boundary && p < q
  }

  /** The way up from the boundary and around, on a disk of any size. */
  lemma AheadIs(boundary: nat, p: nat, q: nat, disk: nat)
    requires boundary < disk && p < disk && q < disk
    ensures Ahead(boundary, p, q) <==> (p + disk - boundary) % disk < (q + disk - boundary) % disk
  {
    WayUp(boundary, p, disk);
    WayUp(boundary, q, disk);
  }

  lemma WayUp(boundary: nat, p: nat, disk: nat)
    requires boundary < disk && p < disk
    ensures (p + disk - boundary) % disk == if p >= boundary then p - boundary else p + disk - boundary
  {
    if p >= boundary {
      assert p + disk - boundary == 1 * disk + (p - boundary);
    }
  }

  /** The request r goes before p, which is already on the dispatch queue. */
  predicate Passes(r: Rq, p: Rq, boundary: nat) {
    r.discard == p.discard && r.write == p.write && !p.stop && Ahead(boundary, r.pos, p.pos)
  }

  /** A request that another one of kind r may pass in the dispatch queue. */
  predicate Alike(r: Rq, p: Rq) {
    r.discard == p.discard && r.write == p.write && !p.stop
  }

  /** Where the last run of requests like r begins. */
  function Tail(rq: map<nat, Rq>, queue: seq<nat>, r: Rq): (k: nat)
    requires forall y :: y in queue ==> y in rq
    ensures k <= |queue|
  {
    var n := |queue|;
    if n == 0 then 0
    else if Alike(r, rq[queue[n - 1]]) then Tail(rq, queue[..n - 1], r)
    else n
  }

  ghost predicate InOrder(rq: map<nat, Rq>, s: seq<nat>, boundary: nat)
    requires forall y :: y in s ==> y in rq
  {
    forall i, j :: 0 <= i < j < |s| ==> !Ahead(boundary, rq[s[j]].pos, rq[s[i]].pos)
  }

  /** The run holds only requests like r, and what precedes it is not like r. */
  lemma {:induction false} TailIs(rq: map<nat, Rq>, queue: seq<nat>, r: Rq)
    requires forall y :: y in queue ==> y in rq
    ensures var t := Tail(rq, queue, r);
            && (forall j :: t <= j < |queue| ==> Alike(r, rq[queue[j]]))
            && (t > 0 ==> !Alike(r, rq[queue[t - 1]]))
  {
    if queue != [] && Alike(r, rq[queue[|queue| - 1]]) {
      TailIs(rq, queue[..|queue| - 1], r);
    }
  }

  /** Putting x before everything it is ahead of, and after something it is not ahead of,
      keeps the run in order. */
  lemma InsertOrder(rq: map<nat, Rq>, queue: seq<nat>, x: nat, k: nat, boundary: nat)
    requires (forall y :: y in queue ==> y in rq) && x in rq
    requires var t := Tail(rq, queue, rq[x]);
             && t <= k <= |queue|
             && (forall j :: k <= j < |queue| ==> Ahead(boundary, rq[x].pos, rq[queue[j]].pos))
             && (k > t ==> !Ahead(boundary, rq[x].pos, rq[queue[k - 1]].pos))
    ensures var t := Tail(rq, queue, rq[x]);
            var q := queue[..k] + [x] + queue[k..];
            && (forall y :: y in q ==> y in rq)
            && (InOrder(rq, queue[t..], boundary) ==> InOrder(rq, q[t..], boundary))
  {
    hide Tail, InOrder, Ahead;
    var t := Tail(rq, queue, rq[x]);
    TailSlices(queue, x, t, k);
    if InOrder(rq, queue[t..], boundary) {
      OrderInsert(rq, queue[t..], x, k - t, boundary);
    }
  }

  lemma TailSlices(queue: seq<nat>, x: nat, t: nat, k: nat)
    requires t <= k <= |queue|
    ensures var a := queue[t..];
            && (queue[..k] + [x] + queue[k..])[t..] == a[..k - t] + [x] + a[k - t..]
            && (forall i :: 0 <= i < |a| ==> a[i] == queue[t + i])
            && (forall y :: y in a ==> y in queue)
            && (forall y :: y in queue[..k] + [x] + queue[k..] ==> y in queue || y == x)
  {
  }

  lemma AheadOrder(b: nat, p: nat, q: nat, r: nat)
    ensures !Ahead(b, p, q) && !Ahead(b, q, r) ==> !Ahead(b, p, r)
    ensures Ahead(b, p, q) ==> !Ahead(b, q, p)
  {
  }

  lemma OrderInsert(rq: map<nat, Rq>, a: seq<nat>, x: nat, m: nat, boundary: nat)
    requires (forall y :: y in a ==> y in rq) && x in rq && InOrder(rq, a, boundary) && m <= |a|
    requires forall i :: m <= i < |a| ==> Ahead(boundary, rq[x].pos, rq[a[i]].pos)
    requires m > 0 ==> !Ahead(boundary, rq[x].pos, rq[a[m - 1]].pos)
    ensures var b := a[..m] + [x] + a[m..];
            (forall y :: y in b ==> y in rq) && InOrder(rq, b, boundary)
  {
    hide Ahead;
    var b := a[..m] + [x] + a[m..];
    assert forall i :: 0 <= i < |b| ==> b[i] == if i < m then a[i] else if i == m then x else a[i - 1];
    forall i, j | 0 <= i < j < |b| ensures !Ahead(boundary, rq[b[j]].pos, rq[b[i]].pos) {
      if j == m {
        AheadOrder(boundary, rq[x].pos, rq[a[m - 1]].pos, rq[a[i]].pos);
      } else if i == m {
        AheadOrder(boundary, rq[x].pos, rq[a[j - 1]].pos, 0);
      }
    }
  }
}
