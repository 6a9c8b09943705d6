/** Physical segments of block/blk-merge.c: the scatterlist that blk_rq_map_sg builds, the
    cheap count kept in nr_phys_segments, and why the first is never longer than the second. */
module Segments {

  const PAGE_SIZE: nat := 4096

  /** struct bio_vec, with the page given by its frame number. */
  datatype Vec = Vec(pfn: nat, offset: nat, len: nat) {
    /** bvec_to_phys */
    function Phys(): nat { pfn * PAGE_SIZE + offset }
  }

  /** The limits of a request queue. */
  datatype Queue = Queue(cluster: bool, maxSegSize: nat, boundary: nat, bouncePfn: nat, maxSegments: nat, maxSectors: nat)

  /** Bitwise or. */
  function Or(a: nat, b: nat): nat {
    if a == 0 then b
    else if b == 0 then a
    else 2 * Or(a / 2, b / 2) + (if a % 2 == 1 || b % 2 == 1 then 1 else 0)
  }

  /** BIOVEC_PHYS_MERGEABLE and BIOVEC_SEG_BOUNDARY */
  predicate Joins(q: Queue, v: Vec, w: Vec) {
    && v.Phys() + v.len == w.Phys()
    && w.Phys() + w.len > 0
    && Or(v.Phys(), q.boundary) == Or(w.Phys() + w.len - 1, q.boundary)
  }

  predicate High(q: Queue, v: Vec) {
    v.pfn > q.bouncePfn
  }

  function Len(s: seq<Vec>): nat {
    if s == [] then 0 else Len(s[..|s|-1]) + s[|s|-1].len
  }

  /** May `v` be added to the non-empty segment `s`?  With `low`, as the recount asks, a page
      above the bounce limit stays alone. */
  predicate Extends(q: Queue, low: bool, s: seq<Vec>, v: Vec)
    requires s != []
  {
    && (low ==> !High(q, v) && !High(q, s[|s|-1]))
    && q.cluster && Len(s) + v.len <= q.maxSegSize && Joins(q, s[|s|-1], v)
  }

  /** Cut `vs` into segments from the left, the first of which begins with `cur`. */
  function Greedy(q: Queue, low: bool, cur: seq<Vec>, vs: seq<Vec>): (p: seq<seq<Vec>>)
    requires cur != []
    ensures p != []
    decreases |vs|
  {
    if vs == [] then [cur]
    else if Extends(q, low, cur, vs[0]) then Greedy(q, low, cur + [vs[0]], vs[1..])
    else [cur] + Greedy(q, low, [vs[0]], vs[1..])
  }

  /** The segments of a whole list of vectors. */
  function Cut(q: Queue, low: bool, vs: seq<Vec>): seq<seq<Vec>> {
    if vs == [] then [] else Greedy(q, low, [vs[0]], vs[1..])
  }

  // ------------------------------------------------------------------- partitions

  function Flatten(p: seq<seq<Vec>>): seq<Vec> {
    if p == [] then [] else p[0] + Flatten(p[1..])
  }

  /** One segment the hardware can take: vectors that join, within the size limit; a single
      vector always stands. */
  ghost predicate Segment(q: Queue, s: seq<Vec>) {
    && s != []
    && (|s| > 1 ==> q.cluster && Len(s) <= q.maxSegSize)
    && (forall i :: 0 <= i < |s| - 1 ==> Joins(q, s[i], s[i + 1]))
  }

  ghost predicate Partition(q: Queue, p: seq<seq<Vec>>, vs: seq<Vec>) {
    Flatten(p) == vs && forall i :: 0 <= i < |p| ==> Segment(q, p[i])
  }

  lemma {:induction false} LenSplit(s: seq<Vec>, k: nat)
    requires k <= |s|
    ensures Len(s) == Len(s[..k]) + Len(s[k..])
  {
    if k == |s| {
      assert s[..k] == s && s[k..] == [];
    } else {
      var t := s[..|s|-1];
      LenSplit(t, k);
      assert t[..k] == s[..k] && s[k..][..|s|-k-1] == t[k..];
    }
  }

  /** Any stretch of a segment is a segment. */
  lemma SegmentPart(q: Queue, s: seq<Vec>, a: nat, b: nat)
    requires Segment(q, s) && a < b <= |s|
    ensures Segment(q, s[a..b])
  {
    LenSplit(s, b);
    LenSplit(s[..b], a);
    assert s[..b][a..] == s[a..b];
  }

  /** Extending keeps a segment, and a longer segment shows that extending was allowed. */
  lemma ExtendSegment(q: Queue, low: bool, s: seq<Vec>, v: Vec)
    requires s != []
    ensures Len(s + [v]) == Len(s) + v.len
    ensures Segment(q, s) && Extends(q, low, s, v) ==> Segment(q, s + [v])
    ensures Segment(q, s + [v]) ==> Extends(q, false, s, v)
  {
    assert (s + [v])[..|s|] == s;
    if Segment(q, s + [v]) {
      assert Joins(q, (s + [v])[|s| - 1], (s + [v])[|s| - 1 + 1]);
    }
  }

  lemma {:induction false} GreedyPartition(q: Queue, low: bool, cur: seq<Vec>, vs: seq<Vec>)
    requires Segment(q, cur)
    ensures Partition(q, Greedy(q, low, cur, vs), cur + vs)
    decreases |vs|
  {
    var p := Greedy(q, low, cur, vs);
    if vs == [] {
      assert Flatten([cur]) == cur + Flatten([]);
      assert cur + vs == cur;
    } else if Extends(q, low, cur, vs[0]) {
      ExtendSegment(q, low, cur, vs[0]);
      GreedyPartition(q, low, cur + [vs[0]], vs[1..]);
      assert cur + [vs[0]] + vs[1..] == cur + vs;
    } else {
      var t := Greedy(q, low, [vs[0]], vs[1..]);
      GreedyPartition(q, low, [vs[0]], vs[1..]);
      assert ([cur] + t)[1..] == t;
      assert [vs[0]] + vs[1..] == vs;
    }
  }

  lemma CutPartition(q: Queue, low: bool, vs: seq<Vec>)
    ensures Partition(q, Cut(q, low, vs), vs)
  {
    if vs != [] {
      GreedyPartition(q, low, [vs[0]], vs[1..]);
      assert [vs[0]] + vs[1..] == vs;
    }
  }

  /** Cutting goes on from the last segment. */
  lemma {:induction false} GreedyConcat(q: Queue, low: bool, cur: seq<Vec>, a: seq<Vec>, b: seq<Vec>)
    requires cur != []
    ensures var g := Greedy(q, low, cur, a);
            g[|g| - 1] != [] && Greedy(q, low, cur, a + b) == g[..|g| - 1] + Greedy(q, low, g[|g| - 1], b)
    decreases |a|
  {
    hide Extends;
    var g := Greedy(q, low, cur, a);
    if a == [] {
      assert a + b == b && g[..0] + Greedy(q, low, cur, b) == Greedy(q, low, cur, b);
    } else {
      assert (a + b)[0] == a[0] && (a + b)[1..] == a[1..] + b;
      if Extends(q, low, cur, a[0]) {
        GreedyConcat(q, low, cur + [a[0]], a[1..], b);
      } else {
        GreedyConcat(q, low, [a[0]], a[1..], b);
        var t := Greedy(q, low, [a[0]], a[1..]);
        assert g == [cur] + t && g[..|g| - 1] == [cur] + t[..|t| - 1];
      }
    }
  }

  lemma CutConcat(q: Queue, low: bool, a: seq<Vec>, b: seq<Vec>)
    requires a != []
    ensures var p := Cut(q, low, a);
            p != [] && p[|p| - 1] != [] && Cut(q, low, a + b) == p[..|p| - 1] + Greedy(q, low, p[|p| - 1], b)
  {
    hide Greedy;
    assert (a + b)[0] == a[0] && (a + b)[1..] == a[1..] + b;
    GreedyConcat(q, low, [a[0]], a[1..], b);
  }

  /** One vector more. */
  lemma CutSnoc(q: Queue, low: bool, a: seq<Vec>, v: Vec)
    requires a != []
    ensures var p := Cut(q, low, a);
            && p != [] && p[|p| - 1] != []
            && Cut(q, low, a + [v]) == if Extends(q, low, p[|p| - 1], v) then p[..|p| - 1] + [p[|p| - 1] + [v]] else p + [[v]]
  {
    hide Extends, Cut;
    CutConcat(q, low, a, [v]);
    var p := Cut(q, low, a);
    GreedyOne(q, low, p[|p| - 1], v);
    assert p[..|p| - 1] + [p[|p| - 1], [v]] == p + [[v]];
  }

  lemma GreedyOne(q: Queue, low: bool, s: seq<Vec>, v: Vec)
    requires s != []
    ensures Greedy(q, low, s, [v]) == if Extends(q, low, s, v) then [s + [v]] else [s, [v]]
  {
    hide Extends;
    assert [v][1..] == [] && [s] + [[v]] == [s, [v]];
  }

  /** Vectors that make one segment, none of them above the bounce limit, are cut into one. */
  lemma {:induction false} GreedyWhole(q: Queue, low: bool, cur: seq<Vec>, vs: seq<Vec>)
    requires cur != [] && Segment(q, cur + vs) && (low ==> forall v :: v in cur + vs ==> !High(q, v))
    ensures Greedy(q, low, cur, vs) == [cur + vs]
    decreases |vs|
  {
    hide Len, Joins, High;
    if vs == [] {
      assert cur + vs == cur;
    } else {
      var c := cur + [vs[0]];
      assert c + vs[1..] == cur + vs;
      SegmentPart(q, cur + vs, 0, |c|);
      assert (cur + vs)[0..|c|] == c;
      ExtendSegment(q, false, cur, vs[0]);
      assert vs[0] in cur + vs && cur[|cur| - 1] in cur + vs;
      GreedyWhole(q, low, c, vs[1..]);
    }
  }

  lemma CutWhole(q: Queue, low: bool, vs: seq<Vec>)
    requires vs != [] && Segment(q, vs) && (low ==> forall v :: v in vs ==> !High(q, v))
    ensures Cut(q, low, vs) == [vs]
  {
    hide Segment, High, Greedy;
    assert [vs[0]] + vs[1..] == vs;
    GreedyWhole(q, low, [vs[0]], vs[1..]);
  }

  /** Too much for one segment is cut into two at least. */
  lemma GreedySplits(q: Queue, low: bool, cur: seq<Vec>, vs: seq<Vec>)
    requires Segment(q, cur) && vs != [] && Len(cur) + Len(vs) > q.maxSegSize
    ensures |Greedy(q, low, cur, vs)| >= 2
  {
    hide Greedy, Len;
    var g := Greedy(q, low, cur, vs);
    GreedyPartition(q, low, cur, vs);
    OnePart(q, g, cur + vs);
    LenSplit(cur + vs, |cur|);
    assert (cur + vs)[..|cur|] == cur && (cur + vs)[|cur|..] == vs;
  }

  lemma OnePart(q: Queue, p: seq<seq<Vec>>, vs: seq<Vec>)
    requires Partition(q, p, vs)
    ensures |p| == 1 ==> Segment(q, vs)
  {
    hide Segment;
    if |p| == 1 {
      assert p[1..] == [] && Flatten(p) == p[0] + Flatten([]);
      assert p[0] == vs;
    }
  }

  /** Without pages above the bounce limit the recount cuts as the mapping does. */
  lemma {:induction false} GreedySame(q: Queue, cur: seq<Vec>, vs: seq<Vec>)
    requires cur != [] && !High(q, cur[|cur| - 1]) && forall v :: v in vs ==> !High(q, v)
    ensures Greedy(q, true, cur, vs) == Greedy(q, false, cur, vs)
    decreases |vs|
  {
    hide High, Joins, Len;
    if vs != [] {
      assert vs[0] in vs;
      GreedySame(q, cur + [vs[0]], vs[1..]);
      GreedySame(q, [vs[0]], vs[1..]);
    }
  }

  lemma CutSame(q: Queue, vs: seq<Vec>)
    requires forall v :: v in vs ==> !High(q, v)
    ensures Cut(q, true, vs) == Cut(q, false, vs)
  {
    hide High, Greedy;
    if vs != [] {
      assert vs[0] in vs;
      GreedySame(q, [vs[0]], vs[1..]);
    }
  }

  lemma FlattenHead(p: seq<seq<Vec>>, vs: seq<Vec>, q: Queue)
    requires Partition(q, p, vs) && vs != []
    ensures p != [] && p[0] != [] && p[0] <= vs
    ensures Partition(q, p[1..], vs[|p[0]|..])
  {
    if p != [] {
      assert Segment(q, p[0]);
      assert vs == p[0] + Flatten(p[1..]);
      assert forall i :: 0 <= i < |p[1..]| ==> p[1..][i] == p[i + 1];
    }
  }

  /** Cutting the vectors that follow `cur` greedily needs at most one segment more than any
      partition of them: at the first entry it cannot take, greedy starts level. */
  lemma {:induction false} GreedyAfter(q: Queue, cur: seq<Vec>, vs: seq<Vec>, p: seq<seq<Vec>>)
    requires cur != [] && Partition(q, p, vs)
    ensures |Greedy(q, false, cur, vs)| <= 1 + |p|
    decreases |vs|, 0
  {
    if vs != [] {
      FlattenHead(p, vs, q);
      var v, s := vs[0], p[0];
      if Extends(q, false, cur, v) {
        var rest := if |s| == 1 then p[1..] else [s[1..]] + p[1..];
        DropFirst(q, p, vs);
        GreedyAfter(q, cur + [v], vs[1..], rest);
      } else {
        assert [v] + vs[1..] == vs;
        GreedyLevel(q, [v], vs[1..], p);
      }
    }
  }

  /** A partition loses its first vector and stays a partition. */
  lemma DropFirst(q: Queue, p: seq<seq<Vec>>, vs: seq<Vec>)
    requires Partition(q, p, vs) && vs != []
    ensures p != [] && p[0] != []
    ensures Partition(q, if |p[0]| == 1 then p[1..] else [p[0][1..]] + p[1..], vs[1..])
  {
    FlattenHead(p, vs, q);
    var s := p[0];
    if |s| > 1 {
      SegmentPart(q, s, 1, |s|);
      assert s[1..|s|] == s[1..];
      var r := [s[1..]] + p[1..];
      assert r[1..] == p[1..];
      assert vs == s + Flatten(p[1..]);
      assert vs[1..] == s[1..] + Flatten(p[1..]);
    }
  }

  /** Greedy is no longer than a partition whose first segment begins with the same `cur`. */
  lemma {:induction false} GreedyLevel(q: Queue, cur: seq<Vec>, vs: seq<Vec>, p: seq<seq<Vec>>)
    requires cur != [] && Partition(q, p, cur + vs) && p != [] && cur <= p[0]
    ensures |Greedy(q, false, cur, vs)| <= |p|
    decreases |vs|, 1
  {
    FlattenHead(p, cur + vs, q);
    if |p[0]| == |cur| {
      assert (cur + vs)[|cur|..] == vs;
      GreedyAfter(q, cur, vs, p[1..]);
    } else {
      assert vs != [];
      var v := vs[0];
      assert p[0][..|cur| + 1] == cur + [v];
      SegmentPart(q, p[0], 0, |cur| + 1);
      ExtendSegment(q, false, cur, v);
      assert cur + [v] + vs[1..] == cur + vs;
      GreedyLevel(q, cur + [v], vs[1..], p);
    }
  }

  /** No way of cutting the vectors into valid segments is shorter than the greedy one. */
  lemma GreedyOptimal(q: Queue, vs: seq<Vec>, p: seq<seq<Vec>>)
    requires Partition(q, p, vs)
    ensures |Cut(q, false, vs)| <= |p|
  {
    if vs != [] {
      FlattenHead(p, vs, q);
      assert [vs[0]] + vs[1..] == vs;
      GreedyLevel(q, [vs[0]], vs[1..], p);
    }
  }
}
