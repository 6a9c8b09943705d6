/** What the segments of block/blk-merge.c are to the hardware: stretches of memory without holes,
    within the size limit, inside one window of the segment boundary; and a page that may be
    bounced is counted alone. */
module SegmentWindows {
  import opened Segments
  import opened Requests
  import opened BioBuild

  /** 2^k - 1, the form of every boundary mask. */
  function Mask(k: nat): nat { if k == 0 then 0 else 2 * Mask(k - 1) + 1 }

  /** x / 2^k, the number of the window x lies in. */
  function Window(x: nat, k: nat): nat { if k == 0 then x else Window(x / 2, k - 1) }

  /** The comparison of the source is that of windows. */
  lemma {:induction false} SameWindow(a: nat, b: nat, k: nat)
    ensures Or(a, Mask(k)) == Or(b, Mask(k)) <==> Window(a, k) == Window(b, k)
  {
    hide Or;
    if k > 0 {
      OrStep(a, Mask(k - 1));
      OrStep(b, Mask(k - 1));
      SameWindow(a / 2, b / 2, k - 1);
    } else {
      OrZero(a);
      OrZero(b);
    }
  }

  lemma OrZero(a: nat)
    ensures Or(a, 0) == a
  {
  }

  lemma OrStep(a: nat, m: nat)
    ensures Or(a, 2 * m + 1) == 2 * Or(a / 2, m) + 1
  {
    var n := 2 * m + 1;
    assert n / 2 == m && n % 2 == 1;
  }

  lemma {:induction false} WindowRises(a: nat, b: nat, k: nat)
    requires a <= b
    ensures Window(a, k) <= Window(b, k)
  {
    if k > 0 {
      WindowRises(a / 2, b / 2, k - 1);
    }
  }

  /** What lies between two addresses of one window lies in it. */
  lemma MaskConvex(q: Queue, k: nat)
    requires q.boundary == Mask(k)
    ensures Convex(q)
  {
    forall x: nat, y: nat, z: nat | x <= y <= z && Or(x, q.boundary) == Or(z, q.boundary) ensures Or(y, q.boundary) == Or(x, q.boundary) {
      SameWindow(x, z, k);
      SameWindow(x, y, k);
      WindowRises(x, y, k);
      WindowRises(y, z, k);
    }
  }

  /** The vectors follow one another in memory. */
  ghost predicate Row(s: seq<Vec>) {
    s != [] && forall i :: 0 <= i < |s| ==> s[i].Phys() == s[0].Phys() + Len(s[..i])
  }

  /** One stretch of memory, inside one window. */
  ghost predicate Stretch(s: seq<Vec>, k: nat) {
    Row(s) && Len(s) > 0 && Window(s[0].Phys(), k) == Window(s[0].Phys() + Len(s) - 1, k)
  }

  lemma RowOne(v: Vec)
    ensures Row([v])
  {
    assert [v][..0] == [];
  }

  lemma RowGrows(t: seq<Vec>, w: Vec)
    requires Row(t) && Last(t).Phys() + Last(t).len == w.Phys()
    ensures Row(t + [w]) && w.Phys() == t[0].Phys() + Len(t) && Len(t + [w]) == Len(t) + w.len
    ensures t[0].Phys() <= Last(t).Phys()
  {
    hide Vec.Phys;
    var s := t + [w];
    assert s[..|t|] == t;
    assert forall i :: 0 <= i < |t| ==> s[..i] == t[..i];
  }

  lemma {:induction false} SegmentStretch(q: Queue, s: seq<Vec>, k: nat)
    requires Segment(q, s) && |s| > 1 && q.boundary == Mask(k) && forall v :: v in s ==> v.len > 0
    ensures Stretch(s, k)
  {
    hide Or, Mask, Window, Row, Vec.Phys, Len;
    var n := |s| - 1;
    var t, v, w := s[..n], s[n - 1], s[n];
    assert s == t + [w] && v in s && w in s && Joins(q, s[n - 1], s[n - 1 + 1]);
    SameWindow(v.Phys(), w.Phys() + w.len - 1, k);
    if n == 1 {
      assert t == [v];
      RowOne(v);
      RowGrows(t, w);
    } else {
      SegmentPart(q, s, 0, n);
      assert s[0..n] == t;
      SegmentStretch(q, t, k);
      RowGrows(t, w);
      WindowRises(s[0].Phys(), v.Phys(), k);
      WindowRises(v.Phys(), v.Phys() + v.len - 1, k);
    }
  }

  /** Every entry of the scatterlist with more than one vector is such a stretch within the size
      limit, on a clustering queue; the entries together are the vectors, in order. */
  lemma Hardware(q: Queue, low: bool, vs: seq<Vec>, k: nat)
    requires q.boundary == Mask(k) && forall v :: v in vs ==> v.len > 0
    ensures var p := Cut(q, low, vs);
            && Flatten(p) == vs
            && forall i :: 0 <= i < |p| && |p[i]| > 1 ==> q.cluster && Len(p[i]) <= q.maxSegSize && Stretch(p[i], k)
  {
    hide Cut, Flatten, Stretch, Mask;
    CutPartition(q, low, vs);
    var p := Cut(q, low, vs);
    forall i | 0 <= i < |p| && |p[i]| > 1 ensures q.cluster && Len(p[i]) <= q.maxSegSize && Stretch(p[i], k) {
      FlattenIn(p, i);
      SegmentStretch(q, p[i], k);
    }
  }

  /** An empty vector at the edge of a window lets a segment reach across it. */
  lemma EmptyVectorSpans(q: Queue)
    requires q.cluster && q.maxSegSize >= 4 && q.boundary == Mask(1)
    ensures var vs := [Vec(0, 0, 2), Vec(0, 2, 0), Vec(0, 2, 2)];
            Cut(q, false, vs) == [vs] && Window(vs[0].Phys(), 1) != Window(vs[0].Phys() + Len(vs) - 1, 1)
  {
    var u, v, w := Vec(0, 0, 2), Vec(0, 2, 0), Vec(0, 2, 2);
    var vs := [u, v, w];
    RowOne(u);
    RowGrows([u], v);
    RowGrows([u, v], w);
    assert [u] + [v] == [u, v] && [u, v] + [w] == vs;
    SameWindow(0, 1, 1);
    SameWindow(2, 3, 1);
    assert Joins(q, vs[0], vs[1]) && Joins(q, vs[1], vs[2]);
    CutWhole(q, false, vs);
  }

  lemma {:induction false} FlattenIn(p: seq<seq<Vec>>, i: nat)
    requires i < |p|
    ensures forall v :: v in p[i] ==> v in Flatten(p)
  {
    if i > 0 {
      FlattenIn(p[1..], i - 1);
    }
  }

  /** In a recount a page above the bounce limit is a segment of its own. */
  lemma HighAlone(q: Queue, vs: seq<Vec>, i: nat)
    requires i < |Cut(q, true, vs)| && |Cut(q, true, vs)[i]| > 1
    ensures forall v :: v in Cut(q, true, vs)[i] ==> v.pfn <= q.bouncePfn
  {
    LowOnly(q, [vs[0]], vs[1..], i);
  }

  lemma {:induction false} LowOnly(q: Queue, cur: seq<Vec>, vs: seq<Vec>, i: nat)
    requires cur != [] && (|cur| > 1 ==> forall v :: v in cur ==> v.pfn <= q.bouncePfn)
    requires i < |Greedy(q, true, cur, vs)| && |Greedy(q, true, cur, vs)[i]| > 1
    ensures forall v :: v in Greedy(q, true, cur, vs)[i] ==> v.pfn <= q.bouncePfn
    decreases |vs|
  {
    hide Joins, Len;
    if vs != [] {
      if Extends(q, true, cur, vs[0]) {
        assert |cur| == 1 ==> forall v :: v in cur ==> v == cur[0];
        LowOnly(q, cur + [vs[0]], vs[1..], i);
      } else if i > 0 {
        LowOnly(q, [vs[0]], vs[1..], i - 1);
      }
    }
  }
}
