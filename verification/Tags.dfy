/** Tagged command queueing, block/blk-tag.c: one tag map that several queues may share, and
    putting tagged requests back on the dispatch queue. */
module Tags {
  import opened Lists

  /** What a tagged request remembers: its tag and its queue. */
  datatype Hold = Hold(tag: nat, queue: nat)

  datatype Error = EBUSY | ENOMEM

  /** How a resize ends; Overrun stands for a copy that writes past the end of the new map. */
  datatype Outcome = Done | Failed(error: Error) | Overrun

  // ------------------------------------------------------------------- bijection

  /** Set bits, entries of tag_index and the tags of requests are one and the same relation, */
  ghost predicate Tagged(bits: seq<bool>, index: seq<Option<nat>>, tag: map<nat, Hold>) {
    && |bits| == |index|
    && (forall t :: 0 <= t < |bits| ==> (bits[t] <==> index[t].Some?))
    && (forall t :: 0 <= t < |bits| && index[t].Some? ==> index[t].value in tag && tag[index[t].value].tag == t)
    && (forall r :: r in tag ==> tag[r].tag < |bits| && index[tag[r].tag] == Some(r))
  }

  /** and the busy lists hold exactly the tagged requests, each on its own queue. */
  ghost predicate Listed(tag: map<nat, Hold>, busy: map<nat, seq<nat>>) {
    && (forall r :: r in tag ==> tag[r].queue in busy && r in busy[tag[r].queue])
    && (forall q :: q in busy ==> NoDup(busy[q]) && forall r :: r in busy[q] ==> r in tag && tag[r].queue == q)
  }

  ghost predicate Matches(bits: seq<bool>, index: seq<Option<nat>>, tag: map<nat, Hold>, busy: map<nat, seq<nat>>) {
    Tagged(bits, index, tag) && Listed(tag, busy)
  }

  lemma StartMatches(bits: seq<bool>, index: seq<Option<nat>>, tag: map<nat, Hold>, busy: map<nat, seq<nat>>, t: nat, r: nat, q: nat)
    requires Matches(bits, index, tag, busy) && t < |bits| && !bits[t] && r !in tag && q in busy
    ensures Matches(bits[t := true], index[t := Some(r)], tag[r := Hold(t, q)], busy[q := [r] + busy[q]])
  {
    assert r !in busy[q];
  }

  lemma EndTagged(bits: seq<bool>, index: seq<Option<nat>>, tag: map<nat, Hold>, r: nat)
    requires Tagged(bits, index, tag) && r in tag
    ensures var t := tag[r].tag;
            t < |bits| == |index| && bits[t] && index[t] == Some(r) && Tagged(bits[t := false], index[t := None], tag - {r})
  {
  }

  lemma EndListed(tag: map<nat, Hold>, busy: map<nat, seq<nat>>, r: nat)
    requires Listed(tag, busy) && r in tag
    ensures var q := tag[r].queue; q in busy && Listed(tag - {r}, busy[q := Without(busy[q], r)])
  {
    hide Without, NoDup;
    var q := tag[r].queue;
    WithoutCounts(busy[q], r);
    var k :| 0 <= k < |busy[q]| && busy[q][k] == r;
    WithoutCut(busy[q], k);
    CutNoDup(busy[q], k);
  }

  lemma EndMatches(bits: seq<bool>, index: seq<Option<nat>>, tag: map<nat, Hold>, busy: map<nat, seq<nat>>, r: nat)
    requires Matches(bits, index, tag, busy) && r in tag
    ensures var h := tag[r];
            && h.tag < |bits| && bits[h.tag] && index[h.tag] == Some(r) && h.queue in busy
            && Matches(bits[h.tag := false], index[h.tag := None], tag - {r}, busy[h.queue := Without(busy[h.queue], r)])
  {
    hide Tagged, Listed, Without;
    EndTagged(bits, index, tag, r);
    EndListed(tag, busy, r);
  }

  lemma GrowMatches(bits: seq<bool>, index: seq<Option<nat>>, tag: map<nat, Hold>, busy: map<nat, seq<nat>>, b: seq<bool>, i: seq<Option<nat>>)
    requires Matches(bits, index, tag, busy) && |b| == |i|
    requires forall t :: 0 <= t < |b| ==> !b[t] && i[t].None?
    ensures Matches(bits + b, index + i, tag, busy)
  {
    hide NoDup;
  }

  /** As many tags are in use as requests are tagged. */
  function Used(bits: seq<bool>): set<nat> {
    set t: nat | t < |bits| && bits[t]
  }

  lemma {:induction false} UsedTags(bits: seq<bool>, index: seq<Option<nat>>, tag: map<nat, Hold>)
    requires Tagged(bits, index, tag)
    ensures |Used(bits)| == |tag|
    decreases |tag|
  {
    hide Tagged, Used;
    if tag == map[] {
      NoneUsed(bits, index);
    } else {
      var r :| r in tag;
      var t := tag[r].tag;
      EndTagged(bits, index, tag, r);
      assert tag == (tag - {r})[r := tag[r]];
      UsedTags(bits[t := false], index[t := None], tag - {r});
      OneUsed(bits, t);
    }
  }

  lemma NoneUsed(bits: seq<bool>, index: seq<Option<nat>>)
    requires Tagged(bits, index, map[])
    ensures Used(bits) == {}
  {
  }

  lemma OneUsed(bits: seq<bool>, t: nat)
    requires t < |bits| && bits[t]
    ensures |Used(bits)| == |Used(bits[t := false])| + 1
  {
    assert Used(bits) == Used(bits[t := false]) + {t};
  }

  /** A busy list, which has the latest start first, in the order of the starts. */
  function StartOrder(busy: seq<nat>): (r: seq<nat>)
    ensures |r| == |busy| && forall i :: 0 <= i < |r| ==> r[i] == busy[|busy| - 1 - i]
  {
    seq(|busy|, i requires 0 <= i < |busy| => busy[|busy| - 1 - i])
  }

  /** The depth an asynchronous request may go to: two tags are kept for synchronous ones. */
  function AsyncDepth(depth: nat): nat {
    if depth <= 1 then depth else if depth == 2 then 1 else depth - 2
  }

  class TagMap {
    var maxDepth: nat
    var tagMap: array<bool>
    var tagIndex: array<Option<nat>>
    var tag: map<nat, Hold>
    var busy: map<nat, seq<nat>>       // tag_busy_list of each queue, latest start first
    var queueHead: map<nat, seq<nat>>  // dispatch queue of each queue

    ghost predicate Valid()
      reads this, tagMap, tagIndex
    {
      && tagMap.Length == tagIndex.Length && maxDepth <= tagMap.Length && busy.Keys == queueHead.Keys
      && Matches(tagMap[..], tagIndex[..], tag, busy)
    }

    /** init_tag_map for a map of its own, and no queue yet */
    constructor (depth: nat)
      ensures Valid() && fresh(tagMap) && fresh(tagIndex)
      ensures maxDepth == depth && tagMap.Length == depth && tag == map[] && busy == map[]
    {
      maxDepth := depth;
      tagMap := new bool[depth](i => false);
      tagIndex := new Option<nat>[depth](i => None);
      tag, busy, queueHead := map[], map[], map[];
    }

    /** blk_queue_init_tags with an existing map: one more reference */
    method Attach(q: nat)
      requires Valid() && q !in busy
      modifies this
      ensures Valid() && busy == old(busy)[q := []] && queueHead == old(queueHead)[q := []]
      ensures tagMap == old(tagMap) && tagIndex == old(tagIndex) && tag == old(tag) && maxDepth == old(maxDepth)
    {
      busy := busy[q := []];
      queueHead := queueHead[q := []];
    }

    /** find_first_zero_bit */
    method FirstZero(limit: nat) returns (t: nat)
      requires limit <= tagMap.Length
      ensures t <= limit && (t < limit ==> !tagMap[t])
      ensures forall i :: 0 <= i < t ==> tagMap[i]
    {
      t := 0;
      while t < limit && tagMap[t]
        invariant t <= limit && forall i :: 0 <= i < t ==> tagMap[i]
      {
        t := t + 1;
      }
    }

    /** blk_queue_start_tag.  `asyncBusy` is the number of asynchronous requests in flight. */
    method StartTag(q: nat, r: nat, sync: bool, asyncBusy: nat) returns (failed: bool)
      requires Valid() && q in busy && r !in tag
      modifies this, tagMap, tagIndex
      ensures Valid() && tagMap == old(tagMap) && tagIndex == old(tagIndex) && maxDepth == old(maxDepth)
      ensures var limit := if sync then maxDepth else AsyncDepth(maxDepth);
              && (failed <==> (!sync && maxDepth > 1 && asyncBusy > limit)
                              || forall t :: 0 <= t < limit ==> old(tagMap[t]))
              && (!failed ==>
                    && r in tag && tag == old(tag)[r := Hold(tag[r].tag, q)] && tag[r].tag < limit
                    && !old(tagMap[..])[tag[r].tag] && forall t :: 0 <= t < tag[r].tag ==> old(tagMap[t]))
      ensures sync ==> (failed <==> forall t :: 0 <= t < maxDepth ==> old(tagMap[t]))
      ensures !failed && !sync && maxDepth > 2 ==> tag[r].tag + 2 < maxDepth
      ensures failed ==> unchanged(this) && unchanged(tagMap) && unchanged(tagIndex)
      ensures !failed ==> busy == old(busy)[q := [r] + old(busy)[q]]
      ensures !failed ==> queueHead == old(queueHead)[q := Without(old(queueHead)[q], r)]
    {
      hide Matches, Without;
      var limit := maxDepth;
      if !sync && limit > 1 {
        limit := limit - 2;
        if limit == 0 {
          limit := 1;
        }
        if asyncBusy > limit {
          return true;
        }
      }
      var t := FirstZero(limit);
      if t >= limit {
        return true;
      }
      StartMatches(tagMap[..], tagIndex[..], tag, busy, t, r, q);
      tagMap[t] := true;
      tagIndex[t] := Some(r);
      tag := tag[r := Hold(t, q)];
      queueHead := queueHead[q := Without(queueHead[q], r)];
      busy := busy[q := [r] + busy[q]];
      failed := false;
    }

    /** blk_queue_end_tag.  The messages about missing or free tags are never due. */
    method EndTag(r: nat)
      requires Valid() && r in tag
      modifies this, tagMap, tagIndex
      ensures Valid() && tagMap == old(tagMap) && tagIndex == old(tagIndex) && maxDepth == old(maxDepth)
      ensures tag == old(tag) - {r} && queueHead == old(queueHead)
      ensures var h := old(tag)[r];
              && h.tag < tagMap.Length && tagMap[..] == old(tagMap[..])[h.tag := false]
              && h.queue in old(busy) && busy == old(busy)[h.queue := Without(old(busy)[h.queue], r)]
      ensures old(tagIndex[tag[r].tag]) == Some(r) && old(tagMap[tag[r].tag])
    {
      hide Matches, Without;
      EndMatches(tagMap[..], tagIndex[..], tag, busy, r);
      var h := tag[r];
      busy := busy[h.queue := Without(busy[h.queue], r)];
      tag := tag - {r};
      tagIndex[h.tag] := None;
      tagMap[h.tag] := false;
    }

    /** blk_queue_resize_tags, of a map with one reference per queue.  Growing copies the old
        map into one of the clamped depth.  That is smaller than the old one, and the copy runs
        past its end, exactly when nr_requests was lowered below half the old depth; nothing is
        said of the map then but that it was not touched before. */
    method Resize(nrRequests: nat, newDepth: nat, memory: bool) returns (o: Outcome)
      requires Valid()
      modifies this
      ensures Valid() && tag == old(tag) && busy == old(busy) && queueHead == old(queueHead)
      ensures o.Overrun? <==> newDepth > old(tagMap.Length) > 2 * nrRequests && |busy| == 1 && memory
      ensures o.Failed? <==> newDepth > old(tagMap.Length) && !(|busy| == 1 && memory)
      ensures o.Failed? ==> o.error == if |busy| == 1 then ENOMEM else EBUSY
      ensures o.Done? ==> maxDepth == Clamp(newDepth, old(tagMap.Length), nrRequests)
      ensures o.Done? && newDepth > old(tagMap.Length) ==> fresh(tagMap) && fresh(tagIndex) && tagMap.Length == maxDepth
      ensures o.Done? && newDepth > old(tagMap.Length) ==> old(tagMap[..]) <= tagMap[..] && old(tagIndex[..]) <= tagIndex[..]
      ensures !o.Done? || newDepth <= old(tagMap.Length) ==> tagMap == old(tagMap) && tagIndex == old(tagIndex)
      ensures !o.Done? ==> maxDepth == old(maxDepth)
    {
      hide Matches;
      var was := tagMap.Length;
      if newDepth <= was {
        maxDepth := newDepth;
        return Done;
      }
      if |busy| != 1 {
        return Failed(EBUSY);
      }
      if !memory {
        return Failed(ENOMEM);
      }
      var depth := if newDepth > nrRequests * 2 then nrRequests * 2 else newDepth;
      if was > depth {
        return Overrun;
      }
      var index, bits := CopyMap(depth);
      GrowMatches(tagMap[..], tagIndex[..], tag, busy, bits[was..], index[was..]);
      assert bits[..] == tagMap[..] + bits[was..] && index[..] == tagIndex[..] + index[was..];
      maxDepth, tagIndex, tagMap := depth, index, bits;
      return Done;
    }

    /** A new map of the given depth that begins with the old one. */
    method CopyMap(depth: nat) returns (index: array<Option<nat>>, bits: array<bool>)
      requires tagMap.Length == tagIndex.Length <= depth
      ensures fresh(index) && fresh(bits) && index.Length == bits.Length == depth
      ensures index[..tagMap.Length] == tagIndex[..] && bits[..tagMap.Length] == tagMap[..]
      ensures forall i :: tagMap.Length <= i < depth ==> index[i].None? && !bits[i]
    {
      index := new Option<nat>[depth](i => None);
      bits := new bool[depth](i => false);
      var k := 0;
      while k < tagMap.Length
        invariant k <= tagMap.Length
        invariant forall i :: 0 <= i < k ==> index[i] == tagIndex[i] && bits[i] == tagMap[i]
        invariant forall i :: k <= i < depth ==> index[i] == None && !bits[i]
      {
        index[k], bits[k] := tagIndex[k], tagMap[k];
        k := k + 1;
      }
    }

    /** blk_requeue_request of a tagged request: untagged and at the head of its queue */
    method Requeue(r: nat)
      requires Valid() && r in tag
      modifies this, tagMap, tagIndex
      ensures Valid() && tagMap == old(tagMap) && tagIndex == old(tagIndex) && maxDepth == old(maxDepth)
      ensures tag == old(tag) - {r}
      ensures var q := old(tag)[r].queue;
              && q in old(busy) && busy == old(busy)[q := Without(old(busy)[q], r)]
              && q in old(queueHead) && queueHead == old(queueHead)[q := [r] + old(queueHead)[q]]
    {
      hide Matches, Without;
      var q := tag[r].queue;
      EndTag(r);
      queueHead := queueHead[q := [r] + queueHead[q]];
    }

    /** blk_queue_invalidate_tags: every tagged request of the queue is put back at the head of
        its dispatch queue, earliest started first, ahead of what was there, and untagged;
        other queues of a shared map keep their tags.  With no other queue all tags are free. */
    method InvalidateTags(q: nat)
      requires Valid() && q in busy
      modifies this, tagMap, tagIndex
      ensures Valid() && tagMap == old(tagMap) && tagIndex == old(tagIndex) && maxDepth == old(maxDepth)
      ensures busy == old(busy)[q := []] && queueHead == old(queueHead)[q := StartOrder(old(busy)[q]) + old(queueHead)[q]]
      ensures forall r :: r in tag <==> r in old(tag) && old(tag)[r].queue != q
      ensures forall r :: r in tag ==> tag[r] == old(tag)[r]
      ensures busy.Keys == {q} ==> tag == map[] && forall t :: 0 <= t < tagMap.Length ==> !tagMap[t]
    {
      hide Matches, Without;
      BusyIs(tagMap[..], tagIndex[..], tag, busy, q);
      var l := busy[q];
      var k := 0;
      assert l[0..] == l && l[..0] == [];
      assert [] + queueHead[q] == queueHead[q];
      while k < |l|
        invariant k <= |l| && Valid() && tagMap == old(tagMap) && tagIndex == old(tagIndex) && maxDepth == old(maxDepth)
        invariant busy == old(busy)[q := l[k..]]
        invariant queueHead == old(queueHead)[q := StartOrder(l[..k]) + old(queueHead)[q]]
        invariant forall r :: r in tag <==> r in old(tag) && r !in l[..k]
        invariant forall r :: r in tag ==> tag[r] == old(tag)[r]
      {
        NextBusy(l, k);
        Requeue(l[k]);
        assert StartOrder(l[..k + 1]) + old(queueHead)[q] == [l[k]] + (StartOrder(l[..k]) + old(queueHead)[q]);
        k := k + 1;
      }
      assert l[..|l|] == l && l[|l|..] == [];
      AllFree(tagMap[..], tagIndex[..], tag, busy, q);
    }
  }

  /** A map of 64 tags is resized to 128 after nr_requests was lowered to 16: the copy of 64
      entries goes into room for 32. */
  method OverrunCase() returns (o: Outcome)
    ensures o == Overrun
  {
    var t := new TagMap(64);
    t.Attach(0);
    o := t.Resize(16, 128, true);
  }

  /** How deep a resized map is. */
  function Clamp(newDepth: nat, was: nat, nrRequests: nat): nat {
    if newDepth <= was || newDepth <= nrRequests * 2 then newDepth else nrRequests * 2
  }

  lemma BusyIs(bits: seq<bool>, index: seq<Option<nat>>, tag: map<nat, Hold>, busy: map<nat, seq<nat>>, q: nat)
    requires Matches(bits, index, tag, busy) && q in busy
    ensures NoDup(busy[q]) && forall r :: r in busy[q] <==> r in tag && tag[r].queue == q
  {
  }

  /** One step of the walk over the busy list. */
  lemma NextBusy(l: seq<nat>, k: nat)
    requires NoDup(l) && k < |l|
    ensures Without(l[k..], l[k]) == l[k + 1..] && StartOrder(l[..k + 1]) == [l[k]] + StartOrder(l[..k])
    ensures l[k] !in l[..k] && forall r :: r in l[..k + 1] <==> r in l[..k] || r == l[k]
  {
    var t := l[k..];
    assert forall i :: 0 <= i < |t| ==> t[i] == l[k + i];
    WithoutCut(t, 0);
    assert t[..0] + t[1..] == l[k + 1..];
    assert l[..k + 1] == l[..k] + [l[k]];
  }

  lemma AllFree(bits: seq<bool>, index: seq<Option<nat>>, tag: map<nat, Hold>, busy: map<nat, seq<nat>>, q: nat)
    requires Matches(bits, index, tag, busy) && q in busy && busy[q] == []
    ensures busy.Keys == {q} ==> tag == map[] && forall t :: 0 <= t < |bits| ==> !bits[t]
  {
    assert forall r :: r in tag ==> tag[r].queue in busy.Keys;
  }
}
