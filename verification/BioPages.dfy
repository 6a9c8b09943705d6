/** What a caller of bio_add_page gets: when a page is taken, and that the bio holds the bytes of
    the pages taken, in order. */
module BioPages {
  import opened Segments
  import opened Requests
  import opened Completion
  import opened BioBuild

  /** A page is taken exactly when the size limit, merge_bvec_fn and, unless it continues the last
      vector, the vector table and the segment limit allow it; the segments are recounted before
      the limit refuses. */
  lemma AddPageIs(q: Queue, b: Bio, a: Add)
    ensures var (n, taken) := AddPage(q, b, a);
            && (taken <==>
                  && (b.size + a.v.len) / 512 <= q.maxSectors && a.allowed
                  && (Continues(b, a.v) || (a.room && (b.phys < q.maxSegments || |Cut(q, true, b.Live())| < q.maxSegments))))
            && n.id == b.id && n.sector == b.sector && n.idx == b.idx
            && n.size == b.size + (if taken then a.v.len else 0)
            && |n.vecs| == |b.vecs| + (if taken && !Continues(b, a.v) then 1 else 0)
            && Bytes(n.vecs) == Bytes(b.vecs) + (if taken then VecBytes(a.v) else [])
  {
    hide Bytes, VecBytes, RecountBio, Cut;
    Recounted(q, b);
    assert Bytes(b.vecs) + [] == Bytes(b.vecs);
    var c := if b.phys >= q.maxSegments then RecountBio(q, b) else b;
    BytesAppend(c.vecs, a.v);
    if Continues(b, a.v) {
      BytesLonger(b, a.v);
    }
  }

  /** One page always fits an empty bio, as far as the limits of the queue admit any page. */
  lemma EmptyTakes(q: Queue, id: nat, sector: nat, a: Add)
    requires a.room && a.allowed && q.maxSegments > 0 && a.v.len / 512 <= q.maxSectors
    ensures AddPage(q, NewBio(id, sector), a).1
  {
  }

  lemma Recounted(q: Queue, b: Bio)
    ensures var c := RecountBio(q, b);
            c == b.(front := c.front, back := c.back, phys := |Cut(q, true, b.Live())|, segValid := true)
  {
    hide Cut, Len, AllVecs;
    AllVecsOne(b);
  }

  lemma {:induction false} BytesAppend(vs: seq<Vec>, v: Vec)
    ensures Bytes(vs + [v]) == Bytes(vs) + VecBytes(v)
  {
    hide VecBytes;
    if vs == [] {
      assert [] + [v] == [v] && [v][1..] == [];
      assert VecBytes(v) + [] == VecBytes(v) && [] + VecBytes(v) == VecBytes(v);
    } else {
      assert (vs + [v])[1..] == vs[1..] + [v];
      BytesAppend(vs[1..], v);
    }
  }

  lemma BytesLonger(b: Bio, v: Vec)
    requires Continues(b, v)
    ensures Bytes(Longer(b, v).vecs) == Bytes(b.vecs) + VecBytes(v)
  {
    hide Bytes, VecBytes;
    var k := |b.vecs| - 1;
    var w := Last(b.vecs);
    var w' := w.(len := w.len + v.len);
    assert b.vecs == b.vecs[..k] + [w] && Longer(b, v).vecs == b.vecs[..k] + [w'];
    BytesAppend(b.vecs[..k], w);
    BytesAppend(b.vecs[..k], w');
    VecLonger(w, v);
  }

  lemma VecLonger(w: Vec, v: Vec)
    requires v.pfn == w.pfn && v.offset == w.offset + w.len
    ensures VecBytes(w.(len := w.len + v.len)) == VecBytes(w) + VecBytes(v)
  {
  }

  /** The bytes of the pages that were taken, one call after the other. */
  function Taken(q: Queue, b: Bio, adds: seq<Add>): seq<Byte> {
    if adds == [] then []
    else
      var k := |adds| - 1;
      Taken(q, b, adds[..k]) + (if AddPage(q, Build(q, b, adds[..k]), adds[k]).1 then VecBytes(adds[k].v) else [])
  }

  /** A bio holds what was taken, in order, with the size of it. */
  lemma {:induction false} BuiltBytes(q: Queue, id: nat, sector: nat, adds: seq<Add>)
    ensures var b := Build(q, NewBio(id, sector), adds);
            Bytes(b.vecs) == Taken(q, NewBio(id, sector), adds) && b.size == |Bytes(b.vecs)| && b.sector == sector
  {
    hide AddPage, Bytes, VecBytes;
    if adds == [] {
      NoBytes();
    } else {
      var k := |adds| - 1;
      BuiltBytes(q, id, sector, adds[..k]);
      AddPageIs(q, Build(q, NewBio(id, sector), adds[..k]), adds[k]);
      VecBytesLen(adds[k].v);
    }
  }

  lemma NoBytes()
    ensures Bytes([]) == []
  {
  }
}
