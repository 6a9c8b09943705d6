/** How __bio_add_page of fs/bio.c builds a bio page by page.  When the bio runs out of segments
    it is recounted and marked, and the mark outlives the pages added after it. */
module BioBuild {
  import opened Segments
  import opened Requests

  /** A bio before any page is added. */
  function NewBio(id: nat, sector: nat): Bio {
    Bio(id, [], 0, 0, sector, 0, 0, 0, false, true)
  }

  /** BIOVEC_PHYS_MERGEABLE */
  predicate Abuts(v: Vec, w: Vec) {
    v.Phys() + v.len == w.Phys()
  }

  /** The page goes on where the last vector of the same page ends. */
  predicate Continues(b: Bio, v: Vec) {
    b.vecs != [] && v.pfn == Last(b.vecs).pfn && v.offset == Last(b.vecs).offset + Last(b.vecs).len
  }

  function Longer(b: Bio, v: Vec): Bio
    requires b.vecs != []
  {
    b.(vecs := b.vecs[|b.vecs| - 1 := Last(b.vecs).(len := Last(b.vecs).len + v.len)], size := b.size + v.len)
  }

  function Appended(b: Bio, v: Vec): Bio {
    b.(vecs := b.vecs + [v], phys := b.phys + 1, size := b.size + v.len,
       segValid := b.segValid && !(b.vecs != [] && Abuts(Last(b.vecs), v)))
  }

  /** One call of bio_add_page: the page, whether the vector table has an entry left, and what
      the queue's merge_bvec_fn, if any, has to say. */
  datatype Add = Add(v: Vec, room: bool, allowed: bool)

  /** __bio_add_page with the queue's max_sectors; the flag says whether the page was taken. */
  function AddPage(q: Queue, b: Bio, a: Add): (Bio, bool) {
    if Sectors(b.size + a.v.len) > q.maxSectors then (b, false)
    else if Continues(b, a.v) then (if a.allowed then (Longer(b, a.v), true) else (b, false))
    else if !a.room then (b, false)
    else
      var c := if b.phys >= q.maxSegments then RecountBio(q, b) else b;
      if c.phys >= q.maxSegments || !a.allowed then (c, false) else (Appended(c, a.v), true)
  }

  function Build(q: Queue, b: Bio, adds: seq<Add>): Bio {
    if adds == [] then b else AddPage(q, Build(q, b, adds[..|adds| - 1]), adds[|adds| - 1]).0
  }

  class BioInPlace {
    var bio: Bio

    constructor (id: nat, sector: nat)
      ensures bio == NewBio(id, sector)
    {
      bio := NewBio(id, sector);
    }

    /** __bio_add_page; the result is the number of bytes taken. */
    method BioAddPage(q: Queue, v: Vec, room: bool, allowed: bool) returns (n: nat)
      modifies this
      ensures var (b, taken) := AddPage(q, old(bio), Add(v, room, allowed));
              bio == b && n == if taken then v.len else 0
    {
      hide RecountBio, Abuts;
      if (bio.size + v.len) / 512 > q.maxSectors {
        return 0;
      }
      if |bio.vecs| > 0 {
        var last := |bio.vecs| - 1;
        var prev := bio.vecs[last];
        if v.pfn == prev.pfn && v.offset == prev.offset + prev.len {
          if !allowed {
            return 0;
          }
          bio := bio.(vecs := bio.vecs[last := prev.(len := prev.len + v.len)], size := bio.size + v.len);
          return v.len;
        }
      }
      if !room {
        return 0;
      }
      var retried := false;
      while bio.phys >= q.maxSegments
        invariant bio == if retried then RecountBio(q, old(bio)) else old(bio)
        invariant retried ==> old(bio).phys >= q.maxSegments
        decreases !retried
      {
        if retried {
          return 0;
        }
        retried := true;
        bio := RecountBio(q, bio);
      }
      if !allowed {
        return 0;
      }
      if |bio.vecs| > 0 && Abuts(bio.vecs[|bio.vecs| - 1], v) {
        bio := bio.(segValid := false);
      }
      bio := bio.(vecs := bio.vecs + [v], phys := bio.phys + 1, size := bio.size + v.len);
      n := v.len;
    }
  }

  // ----------------------------------------------------- what is true of a built bio

  /** What lies between two addresses of one window lies in it, as with every mask 2^k - 1. */
  ghost predicate Convex(q: Queue) {
    forall x: nat, y: nat, z: nat :: x <= y <= z && Or(x, q.boundary) == Or(z, q.boundary) ==> Or(y, q.boundary) == Or(x, q.boundary)
  }

  /** No page above the bounce limit, no empty vector, nothing done yet. */
  ghost predicate Plain(q: Queue, vs: seq<Vec>) {
    forall v :: v in vs ==> !High(q, v) && v.len > 0
  }

  /** A marked bio does not count too much, and what is noted of its first segment holds, unless
      it has only one. */
  ghost predicate Tight(q: Queue, b: Bio) {
    var p := Cut(q, false, b.Live());
    b.segValid ==>
      && b.phys <= |p|
      && (b.phys == |p| ==> if |p| > 1 then Len(p[0]) <= b.front else b.back <= b.front)
  }

  /** What building keeps. */
  ghost predicate Building(q: Queue, b: Bio) {
    var p := Cut(q, false, b.vecs);
    && b.idx == 0 && Plain(q, b.vecs) && (b.vecs == [] ==> b.phys == 0)
    && (|p| <= 1 ==> b.back <= b.front)
    && (b.segValid ==> b.phys <= |p|)
    && (b.segValid && b.phys == |p| && |p| > 1 ==> Len(p[0]) <= b.front)
    && (b.segValid && |p| <= 1 ==> b.phys >= q.maxSegments)
  }

  lemma LiveAll(b: Bio)
    requires b.idx == 0
    ensures b.Live() == b.vecs
  {
  }

  lemma RecountBioIs(q: Queue, b: Bio)
    requires b.idx == 0 && Plain(q, b.vecs)
    ensures var p, c := Cut(q, false, b.vecs), RecountBio(q, b);
            && c == b.(front := c.front, back := c.back, phys := |p|, segValid := true)
            && (p == [] ==> c.front == b.front && c.back == b.back)
            && (p != [] ==> c.front == Max(b.front, Len(p[0])) && c.back == Max(b.back, Len(Last(p))))
  {
    hide Cut, Len, AllVecs;
    LiveAll(b);
    AllVecsOne(b);
    CutSame(q, b.vecs);
  }

  lemma RecountKeeps(q: Queue, b: Bio)
    requires Building(q, b)
    ensures var p, c := Cut(q, false, b.vecs), RecountBio(q, b);
            && c.vecs == b.vecs && c.idx == 0 && c.segValid && c.phys == |p|
            && (|p| <= 1 ==> c.back <= c.front) && (p != [] ==> Len(p[0]) <= c.front)
            && (b.vecs != [] ==> p != []) && (b.vecs == [] ==> p == [])
  {
    hide Cut, Len, RecountBio, Plain;
    CutNone(q, b.vecs);
    RecountBioIs(q, b);
  }

  /** A vector that does not touch the last one starts a segment. */
  lemma ApartAppends(q: Queue, vs: seq<Vec>, v: Vec)
    requires vs == [] || !Abuts(Last(vs), v)
    ensures Cut(q, false, vs + [v]) == Cut(q, false, vs) + [[v]]
  {
    hide Greedy, Len, Flatten;
    if vs == [] {
      assert [v][1..] == [] && vs + [v] == [v];
      CutPair(q, v);
    } else {
      CutSnoc(q, false, vs, v);
      CutPartition(q, false, vs);
      FlattenLast(q, Cut(q, false, vs), vs);
    }
  }

  lemma CutPair(q: Queue, v: Vec)
    ensures Cut(q, false, [v]) == [[v]]
  {
    assert [v][1..] == [];
  }

  /** Appending never makes fewer segments. */
  lemma AppendGrows(q: Queue, vs: seq<Vec>, v: Vec)
    ensures var p, p' := Cut(q, false, vs), Cut(q, false, vs + [v]);
            |p| <= |p'| && p' != [] && (vs != [] ==> p != [])
  {
    hide Greedy, Extends;
    if vs != [] {
      CutSnoc(q, false, vs, v);
    } else {
      assert vs + [v] == [v];
      CutPair(q, v);
    }
  }

  lemma AppendKeeps(q: Queue, b: Bio, v: Vec)
    requires b.idx == 0 && Plain(q, b.vecs) && !High(q, v) && v.len > 0 && b.phys < q.maxSegments
    requires var p := Cut(q, false, b.vecs);
             && (|p| <= 1 ==> b.back <= b.front)
             && (b.segValid ==> b.phys <= |p| && p != [] && (b.phys == |p| ==> Len(p[0]) <= b.front))
    ensures Building(q, Appended(b, v))
  {
    hide Cut, Len, High;
    AppendGrows(q, b.vecs, v);
    if b.vecs == [] || !Abuts(Last(b.vecs), v) {
      ApartAppends(q, b.vecs, v);
    }
  }

  /** The last vector grows: its segment grows with it, or it leaves its segment. */
  lemma LongerCut(q: Queue, a: seq<Vec>, w: Vec, w': Vec)
    requires Convex(q) && w' == w.(len := w'.len) && 0 < w.len <= w'.len
    ensures var p, p' := Cut(q, false, a + [w]), Cut(q, false, a + [w']);
            && p != [] && |p| <= |p'| && (|p| == |p'| > 1 ==> p'[0] == p[0])
  {
    hide Greedy;
    if a == [] {
      assert a + [w] == [w] && a + [w'] == [w'];
      CutPair(q, w);
      CutPair(q, w');
    } else {
      var p0 := Cut(q, false, a);
      CutSnoc(q, false, a, w);
      CutSnoc(q, false, a, w');
      ShorterExtends(q, p0[|p0| - 1], w, w');
      hide Cut, Extends;
    }
  }

  lemma ShorterExtends(q: Queue, s: seq<Vec>, w: Vec, w': Vec)
    requires Convex(q) && s != [] && w' == w.(len := w'.len) && 0 < w.len <= w'.len
    ensures Extends(q, false, s, w') ==> Extends(q, false, s, w)
  {
    hide Len, Or;
  }

  lemma LongerKeeps(q: Queue, b: Bio, v: Vec)
    requires Convex(q) && Building(q, b) && v.len > 0 && Continues(b, v)
    ensures Building(q, Longer(b, v))
  {
    hide Cut, Len, High, Convex;
    var k := |b.vecs| - 1;
    var a, w := b.vecs[..k], b.vecs[k];
    assert b.vecs == a + [w] && w in b.vecs;
    var c := Longer(b, v);
    assert c.vecs == a + [w.(len := w.len + v.len)];
    SameHigh(q, w, w.len + v.len);
    LongerCut(q, a, w, w.(len := w.len + v.len));
  }

  lemma SameHigh(q: Queue, w: Vec, len: nat)
    ensures High(q, w.(len := len)) == High(q, w)
  {
  }

  lemma AddKeeps(q: Queue, b: Bio, a: Add)
    requires Convex(q) && Building(q, b) && a.allowed && !High(q, a.v) && a.v.len > 0
    ensures Building(q, AddPage(q, b, a).0)
  {
    hide Cut, Len, High, Convex, RecountBio, Appended, Longer, Continues;
    if Continues(b, a.v) {
      LongerKeeps(q, b, a.v);
    } else {
      RecountKeeps(q, b);
      var c := if b.phys >= q.maxSegments then RecountBio(q, b) else b;
      if c.phys < q.maxSegments {
        AppendKeeps(q, c, a.v);
      }
    }
  }

  /** Every bio built on a queue without merge_bvec_fn, of pages below the bounce limit, is
      tight: if it is marked, only its last segment may be other than noted. */
  lemma {:induction false} BuildTight(q: Queue, id: nat, sector: nat, adds: seq<Add>)
    requires Convex(q) && forall a :: a in adds ==> a.allowed && !High(q, a.v) && a.v.len > 0
    ensures var b := Build(q, NewBio(id, sector), adds); Building(q, b) && Tight(q, b)
  {
    hide Cut, Len, High, Convex, AddPage;
    if adds == [] {
      CutNone(q, []);
    } else {
      var k := |adds| - 1;
      BuildTight(q, id, sector, adds[..k]);
      assert adds[k] in adds;
      AddKeeps(q, Build(q, NewBio(id, sector), adds[..k]), adds[k]);
    }
    LiveAll(Build(q, NewBio(id, sector), adds));
  }

  lemma CutNone(q: Queue, vs: seq<Vec>)
    ensures Cut(q, false, vs) == [] <==> vs == []
  {
  }

  lemma LongerLen(b: Bio, v: Vec)
    requires b.vecs != []
    ensures Len(Longer(b, v).vecs) == Len(b.vecs) + v.len
  {
    var k := |b.vecs| - 1;
    assert Longer(b, v).vecs[..k] == b.vecs[..k];
  }

  lemma AppendedLen(b: Bio, v: Vec)
    ensures Len(Appended(b, v).vecs) == Len(b.vecs) + v.len
  {
    assert Appended(b, v).vecs[..|b.vecs|] == b.vecs;
  }

  lemma RecountVecs(q: Queue, b: Bio)
    ensures RecountBio(q, b).vecs == b.vecs && RecountBio(q, b).size == b.size
  {
    hide Cut, Len, AllVecs;
  }

  /** bi_size is the length of the vectors. */
  lemma {:induction false} BuildLen(q: Queue, b: Bio, adds: seq<Add>)
    requires b.size == Len(b.vecs)
    ensures var c := Build(q, b, adds); c.size == Len(c.vecs)
  {
    hide Len, RecountBio;
    if adds != [] {
      var k := |adds| - 1;
      BuildLen(q, b, adds[..k]);
      var c := Build(q, b, adds[..k]);
      RecountVecs(q, c);
      if Continues(c, adds[k].v) {
        LongerLen(c, adds[k].v);
      }
      AppendedLen(c, adds[k].v);
      AppendedLen(RecountBio(q, c), adds[k].v);
    }
  }
}
