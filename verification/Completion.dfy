/** What completing the first n bytes of a request means (block/blk-core.c), stated on what is
    left of each bio rather than on indices: drop the first n bytes. */
module Completion {
  import opened Segments

  /** What is left of a bio: its remaining vectors, their bytes and its next sector. */
  datatype Rest = Rest(id: nat, vecs: seq<Vec>, size: nat, sector: nat, uptodate: bool)

  /** A bio_endio call: which bio, and whether it was told of an error. */
  datatype End = End(id: nat, ok: bool)

  function DropVecs(vs: seq<Vec>, n: nat): seq<Vec> {
    if n == 0 || vs == [] then vs
    else if n >= vs[0].len then DropVecs(vs[1..], n - vs[0].len)
    else [vs[0].(offset := vs[0].offset + n, len := vs[0].len - n)] + vs[1..]
  }

  /** A bio of which n of its bytes are completed. */
  function DropBio(r: Rest, n: nat, ok: bool): Rest
    requires n < r.size
  {
    if n == 0 then r
    else Rest(r.id, DropVecs(r.vecs, n), r.size - n, r.sector + n / 512, r.uptodate && ok)
  }

  function Drop(rs: seq<Rest>, n: nat, ok: bool): seq<Rest> {
    if rs == [] then []
    else if n >= rs[0].size then Drop(rs[1..], n - rs[0].size, ok)
    else [DropBio(rs[0], n, ok)] + rs[1..]
  }

  /** The bios ended by that, in order. */
  function Ends(rs: seq<Rest>, n: nat, ok: bool): seq<End> {
    if rs == [] || n < rs[0].size then []
    else [End(rs[0].id, ok && rs[0].uptodate)] + Ends(rs[1..], n - rs[0].size, ok)
  }

  function Total(rs: seq<Rest>): nat {
    if rs == [] then 0 else rs[0].size + Total(rs[1..])
  }

  /** Each bio's size is that of its vectors, and it has something left to do. */
  ghost predicate WellFormed(rs: seq<Rest>) {
    forall i :: 0 <= i < |rs| ==> rs[i].size == Len(rs[i].vecs) && rs[i].size > 0
  }

  /** What a request can be made of: such bios, or one that carries no bytes, as an empty flush. */
  ghost predicate Fit(rs: seq<Rest>) {
    WellFormed(rs) || (|rs| == 1 && rs[0].size == 0)
  }

  // ------------------------------------------------------------------------ bytes

  /** A byte of memory: page frame and offset. */
  type Byte = (nat, nat)

  function VecBytes(v: Vec): seq<Byte> {
    seq(v.len, k requires 0 <= k < v.len => (v.pfn, v.offset + k))
  }

  function Bytes(vs: seq<Vec>): seq<Byte> {
    if vs == [] then [] else VecBytes(vs[0]) + Bytes(vs[1..])
  }

  function AllBytes(rs: seq<Rest>): seq<Byte> {
    if rs == [] then [] else Bytes(rs[0].vecs) + AllBytes(rs[1..])
  }

  lemma LenFirst(vs: seq<Vec>)
    requires vs != []
    ensures Len(vs) == vs[0].len + Len(vs[1..])
  {
    LenSplit(vs, 1);
    assert vs[..1] == [vs[0]] && [vs[0]][..0] == [];
  }

  lemma {:induction false} BytesLen(vs: seq<Vec>)
    ensures |Bytes(vs)| == Len(vs)
  {
    if vs != [] {
      BytesLen(vs[1..]);
      LenFirst(vs);
    }
  }

  lemma VecBytesLen(v: Vec)
    ensures |VecBytes(v)| == v.len
  {
  }

  lemma VecTail(v: Vec, n: nat)
    requires n <= v.len
    ensures VecBytes(v.(offset := v.offset + n, len := v.len - n)) == VecBytes(v)[n..]
  {
  }

  lemma {:induction false} DropVecsBytes(vs: seq<Vec>, n: nat)
    requires n <= |Bytes(vs)|
    ensures Bytes(DropVecs(vs, n)) == Bytes(vs)[n..]
  {
    hide VecBytes;
    if vs != [] {
      VecBytesLen(vs[0]);
    }
    if n == 0 || vs == [] {
    } else if n >= vs[0].len {
      DropVecsBytes(vs[1..], n - vs[0].len);
      DropAcross(VecBytes(vs[0]), Bytes(vs[1..]), n);
    } else {
      var v := vs[0];
      var w := v.(offset := v.offset + n, len := v.len - n);
      assert ([w] + vs[1..])[1..] == vs[1..];
      VecTail(v, n);
      DropAcross(VecBytes(v), Bytes(vs[1..]), n);
    }
  }

  lemma DropAcross<T>(a: seq<T>, b: seq<T>, n: nat)
    requires n <= |a| + |b|
    ensures (a + b)[n..] == if n >= |a| then b[n - |a|..] else a[n..] + b
  {
  }

  lemma DropVecsLen(vs: seq<Vec>, n: nat)
    requires n <= Len(vs)
    ensures Len(DropVecs(vs, n)) == Len(vs) - n
  {
    BytesLen(vs);
    BytesLen(DropVecs(vs, n));
    DropVecsBytes(vs, n);
  }

  lemma {:induction false} AllBytesLen(rs: seq<Rest>)
    requires WellFormed(rs)
    ensures |AllBytes(rs)| == Total(rs)
  {
    if rs != [] {
      BytesLen(rs[0].vecs);
      AllBytesLen(rs[1..]);
    }
  }

  function Min(a: nat, b: nat): nat { if a < b then a else b }

  /** Completing n bytes removes exactly the first n bytes (or all there are), leaves a well
      formed rest, and leaves nothing exactly when n covers everything. */
  lemma {:induction false} DropsBytes(rs: seq<Rest>, n: nat, ok: bool)
    requires WellFormed(rs)
    ensures AllBytes(Drop(rs, n, ok)) == AllBytes(rs)[Min(n, |AllBytes(rs)|)..]
    ensures WellFormed(Drop(rs, n, ok))
    ensures Total(Drop(rs, n, ok)) == Total(rs) - Min(n, Total(rs))
    ensures Drop(rs, n, ok) == [] <==> n >= Total(rs)
  {
    hide Bytes, Len, DropVecs;
    AllBytesLen(rs);
    if rs != [] {
      var r := rs[0];
      BytesLen(r.vecs);
      AllBytesLen(rs[1..]);
      DropAcross(Bytes(r.vecs), AllBytes(rs[1..]), Min(n, |AllBytes(rs)|));
      if n >= r.size {
        DropsBytes(rs[1..], n - r.size, ok);
      } else {
        DropsWithin(rs, n, ok);
      }
    }
  }

  /** All of it from the first bio. */
  lemma DropsWithin(rs: seq<Rest>, n: nat, ok: bool)
    requires WellFormed(rs) && rs != [] && n < rs[0].size
    ensures var d := [DropBio(rs[0], n, ok)] + rs[1..];
            && AllBytes(d) == Bytes(rs[0].vecs)[Min(n, |Bytes(rs[0].vecs)|)..] + AllBytes(rs[1..])
            && WellFormed(d) && Total(d) == Total(rs) - n
  {
    hide Bytes, Len, DropVecs;
    var r := rs[0];
    BytesLen(r.vecs);
    DropVecsBytes(r.vecs, n);
    DropVecsLen(r.vecs, n);
    var d := [DropBio(r, n, ok)] + rs[1..];
    assert d[1..] == rs[1..];
    assert Bytes(r.vecs)[0..] == Bytes(r.vecs);
  }

  // ------------------------------------------------------------------- in pieces

  lemma {:induction false} DropVecsTwice(vs: seq<Vec>, a: nat, b: nat)
    requires a + b <= Len(vs)
    ensures DropVecs(DropVecs(vs, a), b) == DropVecs(vs, a + b)
  {
    if a != 0 && vs != [] {
      LenFirst(vs);
      if a >= vs[0].len {
        DropVecsTwice(vs[1..], a - vs[0].len, b);
      } else {
        var w := vs[0].(offset := vs[0].offset + a, len := vs[0].len - a);
        assert ([w] + vs[1..])[1..] == vs[1..];
      }
    }
  }

  /** Sizes and sectors fit: every bio is a whole number of sectors. */
  ghost predicate WholeSectors(rs: seq<Rest>) {
    forall i :: 0 <= i < |rs| ==> rs[i].size % 512 == 0
  }

  /** Completing in pieces is completing at once: the same rest, the same bios ended in the
      same order with the same outcome, if the first piece is a whole number of sectors. */
  lemma {:induction false} InPieces(rs: seq<Rest>, a: nat, b: nat, ok: bool)
    requires WellFormed(rs) && WholeSectors(rs) && a % 512 == 0
    ensures Drop(Drop(rs, a, ok), b, ok) == Drop(rs, a + b, ok)
    ensures Ends(rs, a, ok) + Ends(Drop(rs, a, ok), b, ok) == Ends(rs, a + b, ok)
  {
    hide Len, DropBio;
    if rs != [] {
      var r := rs[0];
      if a >= r.size {
        assert (a - r.size) % 512 == 0;
        InPieces(rs[1..], a - r.size, b, ok);
      } else {
        var d := [DropBio(r, a, ok)] + rs[1..];
        assert d[1..] == rs[1..];
        BioInPieces(r, a, b, ok);
      }
    }
  }

  lemma BioInPieces(r: Rest, a: nat, b: nat, ok: bool)
    requires r.size == Len(r.vecs) && a < r.size && a % 512 == 0
    ensures var d := DropBio(r, a, ok);
            && d.id == r.id && d.size == r.size - a && (ok && d.uptodate <==> ok && r.uptodate)
            && (a + b < r.size ==> DropBio(d, b, ok) == DropBio(r, a + b, ok))
  {
    hide Len, DropVecs;
    if a + b < r.size {
      DropVecsTwice(r.vecs, a, b);
      assert (a + b) / 512 == a / 512 + b / 512;
    }
  }

  /** The bios ended are the first ones, each once and in order; the others remain. */
  lemma {:induction false} EndsPrefix(rs: seq<Rest>, n: nat, ok: bool)
    ensures var e, d := Ends(rs, n, ok), Drop(rs, n, ok);
            && |e| + |d| == |rs|
            && (forall i :: 0 <= i < |e| ==> e[i] == End(rs[i].id, ok && rs[i].uptodate))
            && (forall i :: 0 <= i < |d| ==> d[i].id == rs[|e| + i].id)
  {
    if rs != [] && n >= rs[0].size {
      EndsPrefix(rs[1..], n - rs[0].size, ok);
    }
  }
}
