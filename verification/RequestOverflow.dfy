/** Where the count of segments falls short.  A bio that was recounted while it was built keeps
    its mark, and the size noted of its last segment, when pages are added behind.  A request
    merge that trusts that size can join what does not fit one segment. */
module RequestOverflow {
  import opened Segments
  import opened Requests
  import opened Completion
  import opened RequestInPlace
  import opened RequestRun
  import opened BioBuild
  import opened SegmentWindows

  // ------------------------------------------------------------------------- masks

  /** The first window is as long as the mask. */
  lemma {:induction false} MaskFills(x: nat, k: nat)
    requires x <= Mask(k)
    ensures Or(x, Mask(k)) == Mask(k)
  {
    hide Or;
    if k == 0 {
      OrZero(x);
    } else {
      OrStep(x, Mask(k - 1));
      MaskFills(x / 2, k - 1);
    }
  }

  // ------------------------------------------------------------- the next neighbour

  /** All addresses from lo to hi are in one window of the segment boundary. */
  ghost predicate Window(q: Queue, lo: nat, hi: nat) {
    forall x: nat :: lo <= x <= hi ==> Or(x, q.boundary) == Or(lo, q.boundary)
  }

  /** n bytes from an address on, page by page. */
  function Pages(addr: nat, n: nat): seq<Vec>
    decreases n
  {
    if n == 0 then []
    else
      var l := if n <= PAGE_SIZE - addr % PAGE_SIZE then n else PAGE_SIZE - addr % PAGE_SIZE;
      [Vec(addr / PAGE_SIZE, addr % PAGE_SIZE, l)] + Pages(addr + l, n - l)
  }

  /** They lie end to end. */
  lemma {:induction false} PagesAbut(addr: nat, n: nat)
    requires n > 0
    ensures EndToEnd(Pages(addr, n), addr, n)
    decreases n
  {
    hide Pages, EndToEnd, Vec.Phys;
    FirstPage(addr, n);
    var v := Pages(addr, n)[0];
    if n > v.len {
      PagesAbut(addr + v.len, n - v.len);
      AbutMore(v, Pages(addr + v.len, n - v.len), addr, n);
    } else {
      EndOne(v, addr, n);
      assert [v] + [] == [v];
    }
  }

  lemma EndOne(v: Vec, addr: nat, n: nat)
    requires v.Phys() == addr && 0 < v.len <= n
    ensures EndToEnd([v], addr, n)
  {
    hide Vec.Phys;
  }

  /** Vectors end to end from one address, n bytes at most. */
  ghost predicate EndToEnd(vs: seq<Vec>, addr: nat, n: nat) {
    && vs != [] && vs[0].Phys() == addr
    && (forall v :: v in vs ==> v.len > 0 && addr <= v.Phys() && v.Phys() + v.len <= addr + n)
    && (forall i :: 0 <= i < |vs| - 1 ==> vs[i].Phys() + vs[i].len == vs[i + 1].Phys())
  }

  lemma AbutMore(v: Vec, t: seq<Vec>, addr: nat, n: nat)
    requires 0 < v.len < n && v.Phys() == addr && EndToEnd(t, addr + v.len, n - v.len)
    ensures EndToEnd([v] + t, addr, n)
  {
    hide Vec.Phys;
    var vs := [v] + t;
    forall i | 0 <= i < |vs| - 1 ensures vs[i].Phys() + vs[i].len == vs[i + 1].Phys() {
      if i > 0 {
        assert vs[i] == t[i - 1] && vs[i + 1] == t[i - 1 + 1];
      }
    }
  }

  lemma FirstPage(addr: nat, n: nat)
    requires n > 0
    ensures var vs := Pages(addr, n);
            var l := vs[0].len;
            && vs != [] && vs[0].Phys() == addr && 0 < l <= n
            && vs == [vs[0]] + Pages(addr + l, n - l) && Pages(addr + l, 0) == []
  {
  }

  lemma {:induction false} PagesLen(addr: nat, n: nat)
    ensures Len(Pages(addr, n)) == n
    decreases n
  {
    if n > 0 {
      var vs := Pages(addr, n);
      var l := vs[0].len;
      PagesLen(addr + l, n - l);
      LenSplit(vs, 1);
      assert vs[1..] == Pages(addr + l, n - l);
      OneLen(vs[0]);
      assert vs[..1] == [vs[0]];
    }
  }

  lemma InWindow(q: Queue, lo: nat, hi: nat, v: Vec, w: Vec)
    requires Window(q, lo, hi) && v.Phys() + v.len == w.Phys() && w.len > 0
    requires lo <= v.Phys() && w.Phys() + w.len - 1 <= hi
    ensures Joins(q, v, w)
  {
    hide Or;
  }

  /** In one window and within the size limit they are one segment. */
  lemma PagesSegment(q: Queue, addr: nat, n: nat, lo: nat)
    requires n > 0 && q.cluster && n <= q.maxSegSize && lo <= addr && Window(q, lo, addr + n - 1)
    ensures Segment(q, Pages(addr, n))
  {
    hide Pages, Joins, Len, Or, Window;
    var vs := Pages(addr, n);
    PagesAbut(addr, n);
    PagesLen(addr, n);
    forall i | 0 <= i < |vs| - 1 ensures Joins(q, vs[i], vs[i + 1]) {
      assert vs[i] in vs && vs[i + 1] in vs;
      InWindow(q, lo, addr + n - 1, vs[i], vs[i + 1]);
    }
  }

  lemma PagesLow(q: Queue, addr: nat, n: nat)
    requires n > 0 && (addr + n - 1) / PAGE_SIZE <= q.bouncePfn
    ensures forall v :: v in Pages(addr, n) ==> !High(q, v)
  {
    hide Pages;
    PagesAbut(addr, n);
    forall v | v in Pages(addr, n) ensures !High(q, v) {
      assert v.pfn * PAGE_SIZE <= v.Phys() <= addr + n - 1;
    }
  }

  // ------------------------------------------------------------- one merge too many

  /** A bio for the sectors after b. */
  function After(b: Bio, vs: seq<Vec>, n: nat): Bio {
    Bio(b.id + 1, vs, 0, n, b.sector + Sectors(b.size), 0, 0, 0, false, true)
  }

  /** Vectors of one segment make a request of one segment, of their own size at both ends. */
  lemma OneRequest(q: Queue, n: Bio, kind: nat)
    requires n.idx == 0 && n.front == 0 && n.back == 0 && !n.segValid && Segment(q, n.vecs) && forall v :: v in n.vecs ==> !High(q, v)
    ensures var r := NewReq(q, n, kind); var l := Len(n.vecs);
            r.nr == 1 && r.bios == [n.(front := l, back := l, phys := 1, segValid := true)]
  {
    hide Cut, Len, AllVecs, High;
    LiveAll(n);
    AllVecsOne(n);
    CutWhole(q, true, n.vecs);
  }

  /** The marked bio b, cut into as many segments as it says, is followed in memory and on disk
      by n, one segment.  The requests of the two are merged into one that has too few segments
      exactly when the sizes noted allow one segment and the sizes they have do not. */
  lemma MergeFallsShortIff(q: Queue, b: Bio, n: Bio, kind: nat)
    requires b.segValid && b.Live() != [] && b.phys == |Cut(q, false, b.Live())| <= q.maxSegments
    requires n.idx == 0 && n.front == 0 && n.back == 0 && !n.segValid && Segment(q, n.vecs) && forall v :: v in n.vecs ==> !High(q, v)
    requires q.cluster && Joins(q, Last(b.Live()), n.vecs[0]) && n.sector == b.sector + Sectors(b.size)
    requires Sectors(b.size) + Sectors(n.size) <= q.maxSectors
    ensures var p := Cut(q, false, b.Live());
            var a := MergeReqs(q, NewReq(q, b, kind), NewReq(q, n, kind));
            p != [] && (a.ok && MapSg(q, a.req) > a.req.nr <==> b.back + Len(n.vecs) <= q.maxSegSize < Len(Last(p)) + Len(n.vecs))
  {
    hide Cut, Len, AllVecs, High, Joins, Segment, Greedy, Sectors;
    var p := Cut(q, false, b.Live());
    OneRequest(q, n, kind);
    CutConcat(q, false, b.Live(), n.vecs);
    LiveAll(n);
    var r, s := NewReq(q, b, kind), NewReq(q, n, kind);
    assert r.bios == [b] && r.nr == b.phys;
    LiveAll(s.bios[0]);
    NotEmpty(q, n.vecs);
    MergedPair(q, b, s.bios[0], r, s);
    SeamCount(q, b.Live(), n.vecs);
  }

  /** How many segments the last one and what follows make. */
  lemma SeamCount(q: Queue, vs: seq<Vec>, ns: seq<Vec>)
    requires vs != [] && q.cluster && Segment(q, ns) && Joins(q, Last(vs), ns[0])
    ensures var p := Cut(q, false, vs);
            p != [] && |p| <= |Cut(q, false, vs + ns)| <= |p| + 1 && (|Cut(q, false, vs + ns)| > |p| <==> Len(Last(p)) + Len(ns) > q.maxSegSize)
  {
    hide Cut, Len, Joins, Segment, Greedy;
    var p := Cut(q, false, vs);
    CutConcat(q, false, vs, ns);
    CutPartition(q, false, vs);
    FlattenLast(q, p, vs);
    SegmentAt(q, p, vs, |p| - 1);
    WholePartition(q, ns);
    PartitionConcat(q, p, vs, [ns], ns);
    GreedyOptimal(q, vs + ns, p + [ns]);
    if Len(Last(p)) + Len(ns) <= q.maxSegSize {
      JoinSegments(q, Last(p), ns);
      GreedyWhole(q, false, Last(p), ns);
    } else {
      NotEmpty(q, ns);
      GreedySplits(q, false, Last(p), ns);
    }
  }

  lemma WholePartition(q: Queue, s: seq<Vec>)
    requires Segment(q, s)
    ensures Partition(q, [s], s)
  {
    hide Segment;
    assert Flatten([s]) == s + Flatten([]);
  }

  lemma NotEmpty(q: Queue, s: seq<Vec>)
    requires Segment(q, s)
    ensures s != []
  {
  }

  lemma MergedPair(q: Queue, b: Bio, n: Bio, r: Req, s: Req)
    requires r == Req([b], b.phys, b.sector, b.size, r.kind, false, false) && s == Req([n], 1, n.sector, n.size, r.kind, false, false)
    requires b.Live() != [] && n.Live() != [] && q.cluster && Joins(q, Last(b.Live()), n.Live()[0])
    requires n.sector == b.sector + Sectors(b.size) && Sectors(b.size) + Sectors(n.size) <= q.maxSectors
    ensures var a := MergeReqs(q, r, s);
            var fits := b.back + n.front <= q.maxSegSize;
            && (a.ok <==> b.phys + (if fits then 0 else 1) <= q.maxSegments)
            && (a.ok ==> a.req.nr == b.phys + (if fits then 0 else 1) && MapSg(q, a.req) == |Cut(q, false, b.Live() + n.Live())|)
  {
    hide Cut, AllVecs, Joins, Sectors;
    var a := MergeReqs(q, r, s);
    if a.ok {
      var x, y := a.req.bios[0], a.req.bios[1];
      assert a.req.bios == [x] + [y];
      VecsConcat([x], [y]);
      AllVecsOne(x);
      AllVecsOne(y);
    }
  }

  // ------------------------------------------------------------------------- runs

  /** Apart from b no bio is submitted marked. */
  ghost predicate Only(b: Bio, os: seq<Op>) {
    forall i :: 0 <= i < |os| && os[i].Submit? ==> !os[i].b.segValid || os[i].b == b
  }

  ghost predicate Overflows(q: Queue, b: Bio, ps: seq<Pool>, os: seq<Op>, i: nat) {
    && Run(q, ps, os) && Only(b, os)
    && i < |ps[|os|].reqs| && MapSg(q, ps[|os|].reqs[i]) > ps[|os|].reqs[i].nr
  }

  /** No run that submits b and unmarked bios, in any number, overflows. */
  ghost predicate Safe(q: Queue, b: Bio) {
    !exists ps, os, i :: Overflows(q, b, ps, os, i)
  }

  /** The count and the size noted of the last segment hold, as far as they are relied upon. */
  ghost predicate Honest(q: Queue, b: Bio) {
    var p := Cut(q, false, b.Live());
    b.segValid ==> p != [] && b.phys == |p| && Len(Last(p)) <= b.back
  }

  /** What the queue leaves room for behind b: memory below the bounce limit in one window, and
      as many sectors, to fill a segment that begins with the size noted. */
  ghost predicate RoomBehind(q: Queue, b: Bio)
    requires b.Live() != []
  {
    var v := Last(b.Live());
    var n := if b.back < q.maxSegSize then q.maxSegSize - b.back else 0;
    && (forall w :: w in b.Live() ==> w.len <= q.maxSegSize) && v.len > 0
    && Window(q, v.Phys(), v.Phys() + v.len + n)
    && (v.Phys() + v.len + n) / PAGE_SIZE <= q.bouncePfn
    && Sectors(b.size) + Sectors(n) <= q.maxSectors && b.phys <= q.maxSegments
  }

  lemma HonestOk(q: Queue, b: Bio)
    requires Sized(b) && b.Live() != [] && Tight(q, b) && Honest(q, b)
    ensures BioOk(q, b)
  {
    hide Cut, Len, Covered, Bio.Live;
    if b.segValid {
      CutPartition(q, false, b.Live());
      CoveredBy(q, b.Live(), Cut(q, false, b.Live()), b.front, b.back);
    }
  }

  lemma SizedLive(b: Bio)
    requires Sized(b)
    ensures b.Live() != []
  {
    NoLen();
  }

  lemma OnlyTruthful(q: Queue, b: Bio, ps: seq<Pool>, os: seq<Op>)
    requires Run(q, ps, os) && Only(b, os) && BioOk(q, b)
    ensures Truthful(q, os)
  {
    hide Next, Sized, Bio.Live, Covered;
    forall i | 0 <= i < |os| && os[i].Submit? ensures BioOk(q, os[i].b) {
      assert Enabled(q, ps[i], os[i]);
      SizedLive(os[i].b);
    }
  }

  /** A request of b alone. */
  lemma StartRun(q: Queue, b: Bio, kind: nat) returns (ps: seq<Pool>, os: seq<Op>)
    requires Sized(b)
    ensures os == [Submit(b), Start(0, kind)] && Run(q, ps, os) && ps[2] == Pool([NewReq(q, b, kind)], [])
  {
    hide NewReq, Sized;
    os := [Submit(b), Start(0, kind)];
    ps := [Pool([], []), Pool([], [b]), Pool([NewReq(q, b, kind)], [])];
    assert RemoveAt([b], 0) == [] && [] + [b] == [b];
    assert [] + [NewReq(q, b, kind)] == [NewReq(q, b, kind)];
    assert ps[1] == Next(q, ps[0], os[0]) && ps[2] == Next(q, ps[1], os[1]);
  }

  lemma RunMore(q: Queue, ps: seq<Pool>, os: seq<Op>, o: Op, p: Pool)
    requires Run(q, ps, os) && Enabled(q, ps[|os|], o) && p == Next(q, ps[|os|], o)
    ensures Run(q, ps + [p], os + [o])
  {
    hide Enabled, Next;
    var rs, ts := ps + [p], os + [o];
    forall i | 0 <= i < |ts| ensures Enabled(q, rs[i], ts[i]) && rs[i + 1] == Next(q, rs[i], ts[i]) {
      if i < |os| {
        assert rs[i] == ps[i] && rs[i + 1] == ps[i + 1] && ts[i] == os[i];
      }
    }
  }

  /** Requests of b and of n, merged. */
  lemma MergeRun(q: Queue, b: Bio, n: Bio, kind: nat) returns (ps: seq<Pool>, os: seq<Op>)
    requires Sized(b) && Sized(n) && MergeReqs(q, NewReq(q, b, kind), NewReq(q, n, kind)).ok
    ensures os == [Submit(b), Start(0, kind)] + [Submit(n)] + [Start(0, kind)] + [Merge(0, 1)] && Run(q, ps, os)
    ensures ps[5] == Pool([MergeReqs(q, NewReq(q, b, kind), NewReq(q, n, kind)).req], [])
  {
    hide NewReq, Sized, MergeReqs, Run;
    var r, s := NewReq(q, b, kind), NewReq(q, n, kind);
    HasBio(q, b, kind);
    HasBio(q, n, kind);
    ps, os := StartRun(q, b, kind);
    LastState(q, ps, os);
    var p3, p4 := Pool([r], [n]), Pool([r, s], []);
    var a := MergeReqs(q, r, s);
    assert [] + [n] == [n] && RemoveAt([n], 0) == [] && [r] + [s] == [r, s];
    RunMore(q, ps, os, Submit(n), p3);
    ps, os := ps + [p3], os + [Submit(n)];
    RunMore(q, ps, os, Start(0, kind), p4);
    ps, os := ps + [p4], os + [Start(0, kind)];
    assert RemoveAt([r, s][0 := a.req][1 := a.other], 1) == [a.req];
    RunMore(q, ps, os, Merge(0, 1), Pool([a.req], []));
    ps, os := ps + [Pool([a.req], [])], os + [Merge(0, 1)];
  }

  lemma LastState(q: Queue, ps: seq<Pool>, os: seq<Op>)
    requires Run(q, ps, os)
    ensures |ps| == |os| + 1
  {
  }

  lemma HasBio(q: Queue, b: Bio, kind: nat)
    ensures NewReq(q, b, kind).bios != []
  {
  }

  /** The count alone is too small. */
  lemma CountShort(q: Queue, b: Bio)
    requires Sized(b) && b.segValid && b.phys < |Cut(q, false, b.Live())|
    ensures !Safe(q, b)
  {
    hide Cut, Sized, Run;
    var ps, os := StartRun(q, b, 0);
    AllVecsOne(b);
    assert Overflows(q, b, ps, os, 0);
  }

  /** The size noted of the last segment is too small: what just fits behind it, by that size, is
      merged into one segment. */
  lemma BackShort(q: Queue, b: Bio) returns (ps: seq<Pool>, os: seq<Op>)
    requires q.cluster && Sized(b) && b.Live() != [] && RoomBehind(q, b) && b.segValid
    requires var p := Cut(q, false, b.Live()); p != [] && b.phys == |p| && Len(Last(p)) > b.back
    ensures Overflows(q, b, ps, os, 0) && ps[|os|].reqs[0].nr == b.phys
  {
    hide Cut, Len, Run, Pages, Segment, Joins, High, Window, MergeReqs, NewReq, Sectors, Bio.Live;
    var v := Last(b.Live());
    SegmentBound(q, b.Live());
    var n := q.maxSegSize - b.back;
    var addr := v.Phys() + v.len;
    var vs := Pages(addr, n);
    WindowPart(q, v.Phys(), addr + n, addr + n - 1);
    PagesSegment(q, addr, n, v.Phys());
    LowerPage(addr + n - 1, addr + n, q.bouncePfn);
    PagesLow(q, addr, n);
    PagesLen(addr, n);
    PagesAbut(addr, n);
    assert vs[0] in vs;
    InWindow(q, v.Phys(), addr + n, v, vs[0]);
    var c := After(b, vs, n);
    LiveAll(c);
    MergeFallsShortIff(q, b, c, 0);
    ps, os := MergeRun(q, b, c, 0);
    LastState(q, ps, os);
    MergedNr(q, b, c);
  }

  lemma MergedNr(q: Queue, b: Bio, n: Bio)
    requires b.segValid && MergeReqs(q, NewReq(q, b, 0), NewReq(q, n, 0)).ok
    requires n.idx == 0 && n.front == 0 && n.back == 0 && !n.segValid && Segment(q, n.vecs) && forall v :: v in n.vecs ==> !High(q, v)
    requires b.Live() != [] && q.cluster && Joins(q, Last(b.Live()), n.vecs[0]) && b.back + Len(n.vecs) <= q.maxSegSize
    requires n.sector == b.sector + Sectors(b.size) && Sectors(b.size) + Sectors(n.size) <= q.maxSectors
    ensures MergeReqs(q, NewReq(q, b, 0), NewReq(q, n, 0)).req.nr == b.phys
  {
    hide Cut, Len, AllVecs, High, Joins, Segment, Sectors, MergeReqs;
    OneRequest(q, n, 0);
    var r, s := NewReq(q, b, 0), NewReq(q, n, 0);
    LiveAll(s.bios[0]);
    NotEmpty(q, n.vecs);
    MergedPair(q, b, s.bios[0], r, s);
  }

  lemma SegmentBound(q: Queue, vs: seq<Vec>)
    requires vs != [] && forall w :: w in vs ==> w.len <= q.maxSegSize
    ensures var p := Cut(q, false, vs); p != [] && Len(Last(p)) <= q.maxSegSize
  {
    hide Cut, Joins;
    var p := Cut(q, false, vs);
    CutPartition(q, false, vs);
    FlattenLast(q, p, vs);
    SegmentAt(q, p, vs, |p| - 1);
    var s := Last(p);
    assert s[|s| - 1] in vs;
    if |s| == 1 {
      assert s == [s[0]];
      OneLen(s[0]);
    }
  }

  lemma WindowPart(q: Queue, lo: nat, hi: nat, hi': nat)
    requires Window(q, lo, hi) && hi' <= hi
    ensures Window(q, lo, hi')
  {
    hide Or;
  }

  lemma LowerPage(a: nat, b: nat, p: nat)
    requires a <= b && b / PAGE_SIZE <= p
    ensures a / PAGE_SIZE <= p
  {
  }

  /** A tight bio, such as `BuildTight` says bios built page by page are, never makes a request
      overflow, whatever else is submitted unmarked, if and only if it is not marked or its count
      and the size noted of its last segment hold. */
  lemma SafeIff(q: Queue, b: Bio)
    requires q.cluster && Sized(b) && b.Live() != [] && Tight(q, b) && RoomBehind(q, b)
    ensures Safe(q, b) <==> Honest(q, b)
  {
    hide Cut, Len, Run, RoomBehind, Sized, Bio.Live, MapSg, Only, BioOk, Truthful;
    if Honest(q, b) {
      HonestOk(q, b);
      forall ps: seq<Pool>, os: seq<Op>, i: nat ensures !Overflows(q, b, ps, os, i) {
        if Run(q, ps, os) && Only(b, os) {
          LastState(q, ps, os);
          if i < |ps[|os|].reqs| {
            OnlyTruthful(q, b, ps, os);
            MapNeverOverflows(q, ps, os, i);
          }
        }
      }
    } else {
      HasSegment(q, b.Live());
      if b.phys < |Cut(q, false, b.Live())| {
        CountShort(q, b);
      } else {
        var ps, os := BackShort(q, b);
      }
    }
  }

  /** So for every bio built of pages below the bounce limit on a clustering queue without
      merge_bvec_fn. */
  lemma BuiltSafeIff(q: Queue, k: nat, id: nat, sector: nat, adds: seq<Add>)
    requires q.cluster && q.boundary == Mask(k)
    requires forall a :: a in adds ==> a.allowed && !High(q, a.v) && a.v.len > 0
    requires var b := Build(q, NewBio(id, sector), adds); b.Live() != [] && RoomBehind(q, b)
    ensures var b := Build(q, NewBio(id, sector), adds); Safe(q, b) <==> Honest(q, b)
  {
    hide Len, Cut, RoomBehind, Build, High, Mask, Safe, Honest, Tight;
    var b := Build(q, NewBio(id, sector), adds);
    MaskConvex(q, k);
    BuildTight(q, id, sector, adds);
    NoLen();
    BuildLen(q, NewBio(id, sector), adds);
    LiveAll(b);
    LenFirst(b.vecs);
    assert b.vecs[0] in b.vecs;
    SafeIff(q, b);
  }

  lemma HasSegment(q: Queue, vs: seq<Vec>)
    requires vs != []
    ensures Cut(q, false, vs) != []
  {
  }

  // ---------------------------------------------------------------- a concrete case

  const SMALL := Queue(true, 8192, 0xffff, 1000, 3, 1024)
  const PAGE1 := Vec(1, 0, 4096)
  const PAGE2 := Vec(2, 0, 4096)
  const PART5 := Vec(5, 0, 512)
  const PAGE8 := Vec(8, 0, 4096)

  lemma MaskIs()
    ensures Mask(16) == 0xffff
  {
    assert Mask(4) == 15;
    assert Mask(8) == 255;
    assert Mask(12) == 4095;
  }

  lemma FirstWindow(lo: nat, hi: nat)
    requires lo <= hi <= 0xffff
    ensures Window(SMALL, lo, hi)
  {
    hide Or, Mask;
    MaskIs();
    forall x: nat | lo <= x <= hi ensures Or(x, SMALL.boundary) == Or(lo, SMALL.boundary) {
      MaskFills(x, 16);
      MaskFills(lo, 16);
    }
  }

  lemma FirstCut()
    ensures var p := [[PAGE1, PAGE2]];
            && Cut(SMALL, false, [PAGE1, PAGE2]) == p
            && Cut(SMALL, false, [PAGE1, PAGE2, PART5]) == p + [[PART5]]
            && Cut(SMALL, false, [PAGE1, PAGE2, PART5, PAGE8]) == p + [[PART5]] + [[PAGE8]]
  {
    hide Cut, Or, Joins;
    var two := [PAGE1, PAGE2];
    FirstWindow(PAGE1.Phys(), 0xffff);
    InWindow(SMALL, PAGE1.Phys(), 0xffff, PAGE1, PAGE2);
    TwoLen(PAGE1, PAGE2);
    CutWhole(SMALL, false, two);
    ApartAppends(SMALL, two, PART5);
    assert two + [PART5] == [PAGE1, PAGE2, PART5];
    ApartAppends(SMALL, [PAGE1, PAGE2, PART5], PAGE8);
    assert [PAGE1, PAGE2, PART5] + [PAGE8] == [PAGE1, PAGE2, PART5, PAGE8];
  }

  lemma TwoLen(v: Vec, w: Vec)
    ensures Len([v, w]) == v.len + w.len && Len([v]) == v.len
  {
    assert [v, w][..1] == [v];
    OneLen(v);
  }

  function AddOf(v: Vec): Add { Add(v, true, true) }

  /** Four pages are added on a queue of three segments of up to 8192 bytes: the third call leaves
      three vectors in two segments, the fourth recounts and adds a segment of its own, of which
      nothing is noted. */
  lemma FourPages(id: nat, sector: nat)
    ensures Build(SMALL, NewBio(id, sector), [AddOf(PAGE1), AddOf(PAGE2), AddOf(PART5), AddOf(PAGE8)])
            == Bio(id, [PAGE1, PAGE2, PART5, PAGE8], 0, 12800, sector, 8192, 512, 3, true, true)
  {
    hide Cut, RecountBio, Build;
    var a := [AddOf(PAGE1), AddOf(PAGE2), AddOf(PART5)];
    ThreePages(id, sector);
    var b := Bio(id, [PAGE1, PAGE2, PART5], 0, 8704, sector, 0, 0, 3, false, true);
    FirstCut();
    RecountBioIs(SMALL, b);
    TwoLen(PAGE1, PAGE2);
    TwoLen(PART5, PART5);
    BuildStep(SMALL, NewBio(id, sector), a, AddOf(PAGE8));
    assert a + [AddOf(PAGE8)] == [AddOf(PAGE1), AddOf(PAGE2), AddOf(PART5), AddOf(PAGE8)];
    assert [PAGE1, PAGE2, PART5] + [PAGE8] == [PAGE1, PAGE2, PART5, PAGE8];
  }

  lemma BuildStep(q: Queue, b: Bio, adds: seq<Add>, a: Add)
    ensures Build(q, b, adds + [a]) == AddPage(q, Build(q, b, adds), a).0
  {
    hide AddPage;
    assert (adds + [a])[..|adds|] == adds;
  }

  lemma ThreePages(id: nat, sector: nat)
    ensures Build(SMALL, NewBio(id, sector), [AddOf(PAGE1), AddOf(PAGE2), AddOf(PART5)])
            == Bio(id, [PAGE1, PAGE2, PART5], 0, 8704, sector, 0, 0, 3, false, true)
  {
    hide RecountBio, Build;
    var n := NewBio(id, sector);
    BuildNone(SMALL, n);
    BuildStep(SMALL, n, [], AddOf(PAGE1));
    BuildStep(SMALL, n, [AddOf(PAGE1)], AddOf(PAGE2));
    BuildStep(SMALL, n, [AddOf(PAGE1), AddOf(PAGE2)], AddOf(PART5));
    assert [] + [AddOf(PAGE1)] == [AddOf(PAGE1)];
    assert [AddOf(PAGE1)] + [AddOf(PAGE2)] == [AddOf(PAGE1), AddOf(PAGE2)];
    assert [AddOf(PAGE1), AddOf(PAGE2)] + [AddOf(PART5)] == [AddOf(PAGE1), AddOf(PAGE2), AddOf(PART5)];
    assert [] + [PAGE1] == [PAGE1] && [PAGE1] + [PAGE2] == [PAGE1, PAGE2] && [PAGE1, PAGE2] + [PART5] == [PAGE1, PAGE2, PART5];
  }

  lemma BuildNone(q: Queue, b: Bio)
    ensures Build(q, b, []) == b
  {
  }

  lemma FourLen()
    ensures Len([PAGE1, PAGE2, PART5, PAGE8]) == 12800
  {
    var s := [PAGE1, PAGE2, PART5, PAGE8];
    LenSplit(s, 2);
    assert s[..2] == [PAGE1, PAGE2] && s[2..] == [PART5, PAGE8];
    TwoLen(PAGE1, PAGE2);
    TwoLen(PART5, PAGE8);
  }

  /** A run that ends with a request of three counted segments that maps to four. */
  lemma StaleMark() returns (ps: seq<Pool>, os: seq<Op>)
    ensures var b := Build(SMALL, NewBio(1, 0), [AddOf(PAGE1), AddOf(PAGE2), AddOf(PART5), AddOf(PAGE8)]);
            && Overflows(SMALL, b, ps, os, 0) && ps[|os|].reqs[0].nr == 3
            && !Safe(SMALL, b)
  {
    hide Cut, Len, Run, Or, Build, Only, MapSg;
    var b := Bio(1, [PAGE1, PAGE2, PART5, PAGE8], 0, 12800, 0, 8192, 512, 3, true, true);
    FourPages(1, 0);
    FirstCut();
    FourLen();
    LiveAll(b);
    TwoLen(PAGE8, PAGE8);
    FirstWindow(PAGE8.Phys(), PAGE8.Phys() + 4096 + 7680);
    ps, os := BackShort(SMALL, b);
  }
}
