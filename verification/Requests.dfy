/** Requests made of bios: how block/blk-merge.c and block/blk-core.c merge them while keeping
    a count that always covers the scatterlist. */
module Requests {
  import opened Segments

  /** struct bio.  `vecs` is the whole vector table and `idx` the first entry still to do. */
  datatype Bio = Bio(
    id: nat, vecs: seq<Vec>, idx: nat, size: nat, sector: nat,
    front: nat, back: nat, phys: nat, segValid: bool, uptodate: bool)
  {
    function Live(): seq<Vec> {
      if idx <= |vecs| then vecs[idx..] else []
    }
  }

  /** struct request.  `kind` stands for what two requests must have in common to be merged:
      disk, direction, discard and secure flags. */
  datatype Req = Req(
    bios: seq<Bio>, nr: nat, sector: nat, dataLen: nat,
    kind: nat, noMerge: bool, special: bool)

  function AllVecs(bios: seq<Bio>): seq<Vec> {
    if bios == [] then [] else bios[0].Live() + AllVecs(bios[1..])
  }

  function Max(a: nat, b: nat): nat {
    if b > a then b else a
  }

  function Last<T>(s: seq<T>): T
    requires s != []
  {
    s[|s|-1]
  }

  function SetFront(bios: seq<Bio>, x: nat): seq<Bio>
    requires bios != []
  {
    bios[0 := bios[0].(front := x)]
  }

  function SetBack(bios: seq<Bio>, x: nat): seq<Bio>
    requires bios != []
  {
    bios[|bios|-1 := Last(bios).(back := x)]
  }

  /** __blk_recalc_rq_segments: the count, with the size of the first segment noted in the
      first bio and that of the last in the last bio. */
  function Recount(q: Queue, bios: seq<Bio>): (r: (seq<Bio>, nat))
    ensures |r.0| == |bios|
  {
    var p := Cut(q, true, AllVecs(bios));
    if bios == [] || p == [] then (bios, |p|)
    else
      var b1 := SetFront(bios, Max(bios[0].front, Len(p[0])));
      (SetBack(b1, Max(Last(b1).back, Len(Last(p)))), |p|)
  }

  /** blk_recount_segments */
  function RecountBio(q: Queue, b: Bio): Bio {
    var r := Recount(q, [b]);
    r.0[0].(phys := r.1, segValid := true)
  }

  /** The same, for a bio that may be marked BIO_SEG_VALID. */
  function Counted(q: Queue, b: Bio): Bio {
    if b.segValid then b else RecountBio(q, b)
  }

  /** bio_sectors and blk_rq_sectors */
  function Sectors(bytes: nat): nat { bytes / 512 }

  /** blk_rq_bio_prep */
  function NewReq(q: Queue, b: Bio, kind: nat): Req {
    Req([Counted(q, b)], Counted(q, b).phys, b.sector, b.size, kind, false, false)
  }

  /** What a merge attempt leaves behind: the request, the other party and the outcome. */
  datatype Attempt<T> = Attempt(req: Req, other: T, ok: bool)

  /** bio_attempt_back_merge with ll_back_merge_fn */
  function BackMerge(q: Queue, r: Req, b: Bio): Attempt<Bio>
    requires r.bios != []
  {
    if r.noMerge then Attempt(r, b, false)
    else if Sectors(r.dataLen) + Sectors(b.size) > q.maxSectors then Attempt(r.(noMerge := true), b, false)
    else
      var bios := r.bios[|r.bios|-1 := Counted(q, Last(r.bios))];
      var c := Counted(q, b);
      if r.nr + c.phys > q.maxSegments then Attempt(r.(bios := bios, noMerge := true), c, false)
      else Attempt(r.(bios := bios + [c], nr := r.nr + c.phys, dataLen := r.dataLen + b.size), c, true)
  }

  /** bio_attempt_front_merge with ll_front_merge_fn */
  function FrontMerge(q: Queue, r: Req, b: Bio): Attempt<Bio>
    requires r.bios != []
  {
    if r.noMerge then Attempt(r, b, false)
    else if Sectors(r.dataLen) + Sectors(b.size) > q.maxSectors then Attempt(r.(noMerge := true), b, false)
    else
      var bios := r.bios[0 := Counted(q, r.bios[0])];
      var c := Counted(q, b);
      if r.nr + c.phys > q.maxSegments then Attempt(r.(bios := bios, noMerge := true), c, false)
      else Attempt(r.(bios := [c] + bios, nr := r.nr + c.phys, sector := b.sector, dataLen := r.dataLen + b.size), c, true)
  }

  /** blk_phys_contig_segment, for bios that hold vectors */
  predicate PhysContig(q: Queue, b: Bio, n: Bio) {
    && q.cluster && b.back + n.front <= q.maxSegSize
    && b.Live() != [] && n.Live() != [] && Joins(q, Last(b.Live()), n.Live()[0])
  }

  /** attempt_merge with ll_merge_requests_fn.  The noted sizes may change even when the
      attempt fails in the end. */
  function MergeReqs(q: Queue, r: Req, n: Req): Attempt<Req>
    requires r.bios != [] && n.bios != []
  {
    if r.noMerge || n.noMerge || r.kind != n.kind || r.sector + Sectors(r.dataLen) != n.sector
       || r.special || n.special || Sectors(r.dataLen) + Sectors(n.dataLen) > q.maxSectors then Attempt(r, n, false)
    else
      var contig := PhysContig(q, Last(r.bios), n.bios[0]);
      var size := Last(r.bios).back + n.bios[0].front;
      var r1 := if contig && r.nr == 1 then r.(bios := SetFront(r.bios, size)) else r;
      var n1 := if contig && n.nr == 1 then n.(bios := SetBack(n.bios, size)) else n;
      var total := r.nr + n.nr - (if contig && r.nr + n.nr > 0 then 1 else 0);
      if total > q.maxSegments then Attempt(r1, n1, false)
      else Attempt(r1.(bios := r1.bios + n1.bios, nr := total, dataLen := r.dataLen + n.dataLen), n1, true)
  }

  // ------------------------------------------------------------------ the witness

  /** There is a partition of `vs` into exactly n segments whose first and last sizes are
      covered by `front` and `back`. */
  ghost predicate Covered(q: Queue, vs: seq<Vec>, n: nat, front: nat, back: nat) {
    exists p :: Partition(q, p, vs) && |p| == n && (p != [] ==> Len(p[0]) <= front && Len(Last(p)) <= back)
  }

  /** A bio that holds vectors and, if marked counted, is. */
  ghost predicate BioOk(q: Queue, b: Bio) {
    b.Live() != [] && (b.segValid ==> Covered(q, b.Live(), b.phys, b.front, b.back))
  }

  ghost predicate ReqOk(q: Queue, r: Req) {
    && r.bios != [] && (forall i :: 0 <= i < |r.bios| ==> r.bios[i].Live() != [])
    && Covered(q, AllVecs(r.bios), r.nr, r.bios[0].front, Last(r.bios).back)
  }

  /** blk_rq_map_sg, as far as its number of entries goes. */
  function MapSg(q: Queue, r: Req): nat {
    |Cut(q, false, AllVecs(r.bios))|
  }

  /** The promise: a request in order never maps to more entries than it counts. */
  lemma MapFits(q: Queue, r: Req)
    requires ReqOk(q, r)
    ensures MapSg(q, r) <= r.nr
  {
    var p :| Partition(q, p, AllVecs(r.bios)) && |p| == r.nr;
    GreedyOptimal(q, AllVecs(r.bios), p);
  }

  lemma CoveredGrows(q: Queue, vs: seq<Vec>, n: nat, f: nat, b: nat, f': nat, b': nat)
    requires Covered(q, vs, n, f, b) && f <= f' && b <= b'
    ensures Covered(q, vs, n, f', b')
  {
  }

  lemma {:induction false} FlattenConcat(p: seq<seq<Vec>>, r: seq<seq<Vec>>)
    ensures Flatten(p + r) == Flatten(p) + Flatten(r)
  {
    hide Flatten;
    if p == [] {
      FlattenNone();
      assert p + r == r && [] + Flatten(r) == Flatten(r);
    } else {
      FlattenConcat(p[1..], r);
      assert (p + r)[0] == p[0] && (p + r)[1..] == p[1..] + r;
      FlattenStep(p + r);
      FlattenStep(p);
      Associate(p[0], Flatten(p[1..]), Flatten(r));
    }
  }

  lemma FlattenNone()
    ensures Flatten([]) == []
  {
  }

  lemma Associate(a: seq<Vec>, b: seq<Vec>, c: seq<Vec>)
    ensures a + (b + c) == (a + b) + c
  {
  }

  lemma FlattenStep(p: seq<seq<Vec>>)
    requires p != []
    ensures Flatten(p) == p[0] + Flatten(p[1..])
  {
  }

  lemma {:induction false} VecsConcat(a: seq<Bio>, b: seq<Bio>)
    ensures AllVecs(a + b) == AllVecs(a) + AllVecs(b)
  {
    if a != [] {
      var t := a[1..];
      VecsConcat(t, b);
      assert (a + b)[1..] == t + b;
      AllVecsStep(a + b);
    } else {
      assert a + b == b;
    }
  }

  lemma AllVecsStep(a: seq<Bio>)
    requires a != []
    ensures AllVecs(a) == a[0].Live() + AllVecs(a[1..])
  {
  }

  /** Two witnesses side by side. */
  lemma CoveredConcat(q: Queue, v: seq<Vec>, n: nat, f: nat, b: nat, v': seq<Vec>, n': nat, f': nat, b': nat)
    requires Covered(q, v, n, f, b) && Covered(q, v', n', f', b') && v != [] && v' != []
    ensures n > 0 && n' > 0 && Covered(q, v + v', n + n', f, b')
  {
    hide Partition, Len;
    var p :| Partition(q, p, v) && |p| == n && (p != [] ==> Len(p[0]) <= f && Len(Last(p)) <= b);
    var p' :| Partition(q, p', v') && |p'| == n' && (p' != [] ==> Len(p'[0]) <= f' && Len(Last(p')) <= b');
    FlattenHead(p, v, q);
    FlattenHead(p', v', q);
    PartitionConcat(q, p, v, p', v');
    CoveredBy(q, v + v', p + p', f, b');
  }

  lemma PartitionConcat(q: Queue, p: seq<seq<Vec>>, v: seq<Vec>, p': seq<seq<Vec>>, v': seq<Vec>)
    requires Partition(q, p, v) && Partition(q, p', v')
    ensures Partition(q, p + p', v + v')
  {
    hide Segment, Flatten;
    FlattenConcat(p, p');
  }

  lemma CoveredBy(q: Queue, vs: seq<Vec>, p: seq<seq<Vec>>, f: nat, b: nat)
    requires Partition(q, p, vs) && (p != [] ==> Len(p[0]) <= f && Len(Last(p)) <= b)
    ensures Covered(q, vs, |p|, f, b)
  {
    hide Partition, Len;
  }

  /** Two witnesses with the last segment of one and the first of the other made one. */
  lemma CoveredJoin(q: Queue, v: seq<Vec>, n: nat, f: nat, b: nat, v': seq<Vec>, n': nat, f': nat, b': nat)
    requires Covered(q, v, n, f, b) && Covered(q, v', n', f', b') && v != [] && v' != []
    requires q.cluster && b + f' <= q.maxSegSize && Joins(q, Last(v), v'[0])
    ensures n > 0 && n' > 0
    ensures Covered(q, v + v', n + n' - 1, if n == 1 then b + f' else f, if n' == 1 then b + f' else b')
  {
    hide Partition, Segment, Len, Joins;
    var p :| Partition(q, p, v) && |p| == n && (p != [] ==> Len(p[0]) <= f && Len(Last(p)) <= b);
    var p' :| Partition(q, p', v') && |p'| == n' && (p' != [] ==> Len(p'[0]) <= f' && Len(Last(p')) <= b');
    hide Covered;
    FlattenHead(p', v', q);
    FlattenLast(q, p, v);
    SegmentAt(q, p, v, n - 1);
    SegmentAt(q, p', v', 0);
    JoinSegments(q, Last(p), p'[0]);
    JoinPartition(q, p, p', v, v');
    JoinEnds(p, p');
    CoveredBy(q, v + v', p[..n-1] + ([Last(p) + p'[0]] + p'[1..]),
              if n == 1 then b + f' else f, if n' == 1 then b + f' else b');
  }

  lemma JoinEnds(p: seq<seq<Vec>>, p': seq<seq<Vec>>)
    requires p != [] && p' != []
    ensures var m := p[..|p|-1] + ([Last(p) + p'[0]] + p'[1..]);
            && |m| == |p| + |p'| - 1
            && m[0] == (if |p| == 1 then Last(p) + p'[0] else p[0])
            && Last(m) == (if |p'| == 1 then Last(p) + p'[0] else Last(p'))
  {
  }

  lemma SegmentAt(q: Queue, p: seq<seq<Vec>>, vs: seq<Vec>, i: nat)
    requires Partition(q, p, vs) && i < |p|
    ensures Segment(q, p[i])
  {
  }

  lemma JoinPartition(q: Queue, p: seq<seq<Vec>>, p': seq<seq<Vec>>, v: seq<Vec>, v': seq<Vec>)
    requires p != [] && p' != [] && Partition(q, p, v) && Partition(q, p', v') && Segment(q, Last(p) + p'[0])
    ensures Partition(q, p[..|p|-1] + ([Last(p) + p'[0]] + p'[1..]), v + v')
  {
    hide Segment, Flatten;
    JoinFlatten(p, p');
  }

  lemma JoinSegments(q: Queue, s: seq<Vec>, t: seq<Vec>)
    requires Segment(q, s) && Segment(q, t)
    requires q.cluster && Len(s) + Len(t) <= q.maxSegSize && Joins(q, Last(s), t[0])
    ensures Segment(q, s + t) && Len(s + t) == Len(s) + Len(t)
  {
    hide Joins;
    LenSplit(s + t, |s|);
    assert (s + t)[..|s|] == s && (s + t)[|s|..] == t;
    forall i | 0 <= i < |s + t| - 1 ensures Joins(q, (s + t)[i], (s + t)[i + 1]) {
      if i >= |s| {
        assert Joins(q, t[i - |s|], t[i - |s| + 1]);
      }
    }
  }

  lemma FlattenCons(s: seq<Vec>, z: seq<seq<Vec>>)
    ensures Flatten([s] + z) == s + Flatten(z)
  {
    assert ([s] + z)[1..] == z;
  }

  lemma FlattenSnoc(a: seq<seq<Vec>>, s: seq<Vec>)
    ensures Flatten(a + [s]) == Flatten(a) + s
  {
    FlattenConcat(a, [s]);
    FlattenCons(s, []);
    assert [s] + [] == [s];
  }

  lemma Regroup(a: seq<Vec>, s: seq<Vec>, t: seq<Vec>, z: seq<Vec>)
    ensures a + ((s + t) + z) == (a + s) + (t + z)
  {
  }

  lemma JoinFlatten(p: seq<seq<Vec>>, p': seq<seq<Vec>>)
    requires p != [] && p' != []
    ensures Flatten(p[..|p|-1] + ([Last(p) + p'[0]] + p'[1..])) == Flatten(p) + Flatten(p')
  {
    var a, s, t, z := p[..|p|-1], Last(p), p'[0], p'[1..];
    FlattenConcat(a, [s + t] + z);
    FlattenCons(s + t, z);
    FlattenSnoc(a, s);
    assert p == a + [s];
    Regroup(Flatten(a), s, t, Flatten(z));
  }

  lemma FlattenLast(q: Queue, p: seq<seq<Vec>>, vs: seq<Vec>)
    requires Partition(q, p, vs) && vs != []
    ensures p != [] && Last(p) != [] && Last(Last(p)) == Last(vs)
    ensures vs == Flatten(p[..|p|-1]) + Last(p)
  {
    assert p != [];
    assert p == p[..|p|-1] + [Last(p)];
    FlattenConcat(p[..|p|-1], [Last(p)]);
    assert Flatten([Last(p)]) == Last(p) + Flatten([]);
    assert Segment(q, p[|p|-1]);
  }

  // ----------------------------------------------------------- counting and merging

  /** The same bios as far as vectors go, with noted sizes no smaller. */
  ghost predicate Renoted(a: seq<Bio>, b: seq<Bio>) {
    && |a| == |b|
    && forall i :: 0 <= i < |a| ==> b[i].Live() == a[i].Live() && b[i].front >= a[i].front && b[i].back >= a[i].back
  }

  lemma {:induction false} RenotedVecs(a: seq<Bio>, b: seq<Bio>)
    requires |a| == |b| && forall i :: 0 <= i < |a| ==> b[i].Live() == a[i].Live()
    ensures AllVecs(a) == AllVecs(b)
  {
    hide Bio.Live;
    if a != [] {
      RenotedVecs(a[1..], b[1..]);
    }
  }

  lemma AllVecsOne(b: Bio)
    ensures AllVecs([b]) == b.Live()
  {
    AllVecsStep([b]);
    assert [b][1..] == [];
  }

  lemma RecountOk(q: Queue, bios: seq<Bio>)
    requires bios != [] && AllVecs(bios) != []
    ensures var (b, n) := Recount(q, bios);
            && Renoted(bios, b) && AllVecs(b) == AllVecs(bios)
            && Covered(q, AllVecs(bios), n, b[0].front, Last(b).back)
  {
    hide Recount, Cut, Partition, AllVecs, Len, Covered, Renoted;
    var vs := AllVecs(bios);
    var p := Cut(q, true, vs);
    CutPartition(q, true, vs);
    FlattenHead(p, vs, q);
    RecountNotes(q, bios);
    var b := Recount(q, bios).0;
    RenotedAll(bios, b);
    CoveredBy(q, vs, p, b[0].front, Last(b).back);
  }

  lemma RenotedAll(a: seq<Bio>, b: seq<Bio>)
    requires Renoted(a, b)
    ensures AllVecs(a) == AllVecs(b)
  {
    hide AllVecs, Bio.Live;
    RenotedVecs(a, b);
  }

  /** What the recount writes into the first and the last bio. */
  lemma RecountNotes(q: Queue, bios: seq<Bio>)
    requires bios != [] && Cut(q, true, AllVecs(bios)) != []
    ensures var (b, n) := Recount(q, bios);
            var p := Cut(q, true, AllVecs(bios));
            && |b| == |bios| && n == |p| && Renoted(bios, b) && Len(p[0]) <= b[0].front && Len(Last(p)) <= Last(b).back
  {
    hide Cut, AllVecs, Len;
  }

  lemma CountedOk(q: Queue, b: Bio)
    requires BioOk(q, b)
    ensures var c := Counted(q, b);
            && c.Live() == b.Live() && c.front >= b.front && c.back >= b.back && c.segValid
            && Covered(q, c.Live(), c.phys, c.front, c.back)
  {
    hide Recount, Covered;
    if !b.segValid {
      AllVecsOne(b);
      RecountOk(q, [b]);
    }
  }

  lemma NewReqOk(q: Queue, b: Bio, kind: nat)
    requires BioOk(q, b)
    ensures ReqOk(q, NewReq(q, b, kind))
  {
    hide Counted, Covered;
    CountedOk(q, b);
    AllVecsOne(Counted(q, b));
  }

  /** Replacing one bio by a renoted one leaves a request in order. */
  lemma RenoteOk(q: Queue, r: Req, i: nat, c: Bio)
    requires ReqOk(q, r) && i < |r.bios|
    requires c.Live() == r.bios[i].Live() && c.front >= r.bios[i].front && c.back >= r.bios[i].back
    ensures ReqOk(q, r.(bios := r.bios[i := c]))
  {
    hide Covered, AllVecs;
    var b := r.bios[i := c];
    RenotedVecs(r.bios, b);
    CoveredGrows(q, AllVecs(r.bios), r.nr, r.bios[0].front, Last(r.bios).back, b[0].front, Last(b).back);
  }

  /** The tail of a request may be recounted on its own; it needs only to hold vectors. */
  lemma CountedRenotes(q: Queue, b: Bio)
    requires b.Live() != []
    ensures var c := Counted(q, b); c.Live() == b.Live() && c.front >= b.front && c.back >= b.back
  {
    hide Recount, Covered;
    if !b.segValid {
      AllVecsOne(b);
      RecountOk(q, [b]);
    }
  }

  lemma VecsNonEmpty(bios: seq<Bio>)
    requires bios != [] && bios[0].Live() != []
    ensures AllVecs(bios) != [] && AllVecs(bios)[0] == bios[0].Live()[0]
  {
    AllVecsStep(bios);
  }

  lemma VecsLast(bios: seq<Bio>)
    requires bios != [] && Last(bios).Live() != []
    ensures AllVecs(bios) != [] && Last(AllVecs(bios)) == Last(Last(bios).Live())
  {
    assert bios == bios[..|bios|-1] + [Last(bios)];
    VecsConcat(bios[..|bios|-1], [Last(bios)]);
    AllVecsOne(Last(bios));
  }

  lemma BackMergeOk(q: Queue, r: Req, b: Bio)
    requires ReqOk(q, r) && BioOk(q, b)
    ensures var a := BackMerge(q, r, b); ReqOk(q, a.req) && BioOk(q, a.other)
  {
    hide Covered, AllVecs, Counted, Bio.Live;
    var t := Counted(q, Last(r.bios));
    var c := Counted(q, b);
    CountedRenotes(q, Last(r.bios));
    CountedOk(q, b);
    RenoteOk(q, r, |r.bios| - 1, t);
    var bios := r.bios[|r.bios|-1 := t];
    VecsConcat(bios, [c]);
    AllVecsOne(c);
    VecsNonEmpty(bios);
    CoveredConcat(q, AllVecs(bios), r.nr, bios[0].front, Last(bios).back, c.Live(), c.phys, c.front, c.back);
  }

  lemma FrontMergeOk(q: Queue, r: Req, b: Bio)
    requires ReqOk(q, r) && BioOk(q, b)
    ensures var a := FrontMerge(q, r, b); ReqOk(q, a.req) && BioOk(q, a.other)
  {
    hide Covered, AllVecs, Counted, Bio.Live;
    var t := Counted(q, r.bios[0]);
    var c := Counted(q, b);
    CountedRenotes(q, r.bios[0]);
    CountedOk(q, b);
    RenoteOk(q, r, 0, t);
    var bios := r.bios[0 := t];
    VecsConcat([c], bios);
    AllVecsOne(c);
    VecsNonEmpty(bios);
    CoveredConcat(q, c.Live(), c.phys, c.front, c.back, AllVecs(bios), r.nr, bios[0].front, Last(bios).back);
  }

  /** A witness of one segment is covered from both sides. */
  lemma OneSegment(q: Queue, vs: seq<Vec>, n: nat, f: nat, b: nat)
    requires Covered(q, vs, n, f, b) && n == 1
    ensures Covered(q, vs, n, b, b) && Covered(q, vs, n, f, f)
  {
  }

  lemma MergeReqsOk(q: Queue, r: Req, n: Req)
    requires ReqOk(q, r) && ReqOk(q, n)
    ensures var a := MergeReqs(q, r, n); ReqOk(q, a.req) && (!a.ok ==> ReqOk(q, a.other))
  {
    hide Covered, AllVecs, Bio.Live, Joins, Sectors;
    var a := MergeReqs(q, r, n);
    var size := Last(r.bios).back + n.bios[0].front;
    var v, w := AllVecs(r.bios), AllVecs(n.bios);
    VecsNonEmpty(r.bios); VecsLast(r.bios); VecsNonEmpty(n.bios); VecsLast(n.bios);
    var rb := if PhysContig(q, Last(r.bios), n.bios[0]) && r.nr == 1 then SetFront(r.bios, size) else r.bios;
    var nb := if PhysContig(q, Last(r.bios), n.bios[0]) && n.nr == 1 then SetBack(n.bios, size) else n.bios;
    NoteFront(q, r, size, rb);
    NoteBack(q, n, size, nb);
    if PhysContig(q, Last(r.bios), n.bios[0]) {
      CoveredJoin(q, v, r.nr, r.bios[0].front, Last(r.bios).back, w, n.nr, n.bios[0].front, Last(n.bios).back);
    } else {
      CoveredConcat(q, v, r.nr, r.bios[0].front, Last(r.bios).back, w, n.nr, n.bios[0].front, Last(n.bios).back);
    }
    if a.ok {
      ConcatOk(q, rb, nb, a.req);
    }
  }

  lemma ConcatOk(q: Queue, a: seq<Bio>, b: seq<Bio>, r: Req)
    requires a != [] && b != [] && r.bios == a + b && AllLive(a) && AllLive(b)
    requires Covered(q, AllVecs(a) + AllVecs(b), r.nr, a[0].front, Last(b).back)
    ensures ReqOk(q, r)
  {
    hide Covered, AllVecs, Bio.Live, AllLive;
    VecsConcat(a, b);
    LiveConcat(a, b);
    assert r.bios[0] == a[0] && Last(r.bios) == Last(b);
    AllLiveIs(r.bios);
  }

  ghost predicate AllLive(s: seq<Bio>) {
    forall i :: 0 <= i < |s| ==> s[i].Live() != []
  }

  lemma AllLiveIs(s: seq<Bio>)
    requires AllLive(s)
    ensures forall i :: 0 <= i < |s| ==> s[i].Live() != []
  {
    hide Bio.Live;
  }

  lemma LiveConcat(a: seq<Bio>, b: seq<Bio>)
    requires AllLive(a) && AllLive(b)
    ensures AllLive(a + b)
  {
    hide Bio.Live;
    forall i | 0 <= i < |a + b| ensures (a + b)[i].Live() != [] {
      if i < |a| {
        assert (a + b)[i] == a[i];
      } else {
        assert (a + b)[i] == b[i - |a|];
      }
    }
  }

  lemma NoteFront(q: Queue, r: Req, size: nat, bios: seq<Bio>)
    requires ReqOk(q, r) && (bios == r.bios || (r.nr == 1 && size >= Last(r.bios).back && bios == SetFront(r.bios, size)))
    ensures ReqOk(q, r.(bios := bios)) && AllVecs(bios) == AllVecs(r.bios)
    ensures Last(bios).back == Last(r.bios).back && bios[0].front == (if bios == r.bios then r.bios[0].front else size)
    ensures forall i :: 0 <= i < |bios| ==> bios[i].Live() != []
  {
    hide Covered, AllVecs, Bio.Live;
    NotedFrontLive(r.bios[0], size);
    RenotedVecs(r.bios, bios);
    if bios != r.bios {
      OneSegment(q, AllVecs(r.bios), r.nr, r.bios[0].front, Last(r.bios).back);
      CoveredGrows(q, AllVecs(r.bios), 1, Last(r.bios).back, Last(r.bios).back, size, Last(r.bios).back);
    }
  }

  lemma NotedFrontLive(b: Bio, x: nat)
    ensures b.(front := x).Live() == b.Live()
  {
  }

  lemma NotedLive(b: Bio, x: nat)
    ensures b.(back := x).Live() == b.Live()
  {
  }

  lemma NoteBack(q: Queue, r: Req, size: nat, bios: seq<Bio>)
    requires ReqOk(q, r) && (bios == r.bios || (r.nr == 1 && size >= r.bios[0].front && bios == SetBack(r.bios, size)))
    ensures ReqOk(q, r.(bios := bios)) && AllVecs(bios) == AllVecs(r.bios)
    ensures bios[0].front == r.bios[0].front && Last(bios).back == (if bios == r.bios then Last(r.bios).back else size)
    ensures forall i :: 0 <= i < |bios| ==> bios[i].Live() != []
  {
    hide Covered, AllVecs, Bio.Live;
    NotedLive(Last(r.bios), size);
    RenotedVecs(r.bios, bios);
    if bios != r.bios {
      OneSegment(q, AllVecs(r.bios), r.nr, r.bios[0].front, Last(r.bios).back);
      CoveredGrows(q, AllVecs(r.bios), 1, r.bios[0].front, r.bios[0].front, r.bios[0].front, size);
    }
  }
}
