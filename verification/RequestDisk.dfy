/** Where the bytes of a request go: merges and partial completions of block/blk-core.c and
    block/blk-merge.c keep every byte of every bio at its place on the disk. */
module RequestDisk {
  import opened Segments
  import opened Requests
  import opened Completion
  import opened RequestInPlace
  import opened RequestRun

  // ------------------------------------------------------------------ bios in a row

  /** The bios lie end to end on the disk from `sector` on. */
  ghost predicate Lies(rs: seq<Rest>, sector: nat) {
    rs != [] ==> rs[0].sector == sector && Lies(rs[1..], sector + rs[0].size / 512)
  }

  lemma {:induction false} WholeTotal(rs: seq<Rest>)
    requires WholeSectors(rs)
    ensures Total(rs) % 512 == 0
  {
    if rs != [] {
      WholeTotal(rs[1..]);
    }
  }

  lemma WholeSum(a: nat, b: nat)
    requires a % 512 == 0
    ensures (a + b) / 512 == a / 512 + b / 512
  {
  }

  lemma {:induction false} LiesConcat(a: seq<Rest>, b: seq<Rest>, sector: nat)
    requires WholeSectors(a)
    ensures Lies(a + b, sector) <==> Lies(a, sector) && Lies(b, sector + Total(a) / 512)
  {
    if a == [] {
      assert a + b == b;
    } else {
      assert (a + b)[0] == a[0] && (a + b)[1..] == a[1..] + b;
      LiesConcat(a[1..], b, sector + a[0].size / 512);
      WholeSum(a[0].size, Total(a[1..]));
    }
  }

  /** The bytes of bio j come after those of the bios before it, in memory and on disk. */
  lemma {:induction false} LiesAt(rs: seq<Rest>, sector: nat, j: nat)
    requires WholeSectors(rs) && WellFormed(rs) && Lies(rs, sector) && j < |rs|
    ensures rs[j].sector * 512 == sector * 512 + Total(rs[..j]) && Total(rs[..j]) + rs[j].size <= |AllBytes(rs)|
    ensures AllBytes(rs)[Total(rs[..j])..Total(rs[..j]) + rs[j].size] == Bytes(rs[j].vecs)
  {
    hide Bytes, Len;
    var t, s := rs[1..], rs[0].size;
    BytesLen(rs[0].vecs);
    if j == 0 {
      assert rs[..0] == [];
      assert AllBytes(rs)[0..s] == Bytes(rs[0].vecs);
    } else {
      LiesAt(t, sector + s / 512, j - 1);
      assert rs[..j] == [rs[0]] + t[..j - 1] && t[j - 1] == rs[j];
      TotalFirst(rs[0], t[..j - 1]);
      var o := Total(t[..j - 1]);
      assert AllBytes(rs) == Bytes(rs[0].vecs) + AllBytes(t);
      Behind(Bytes(rs[0].vecs), AllBytes(t), o, o + rs[j].size);
    }
  }

  lemma TotalFirst(r: Rest, t: seq<Rest>)
    ensures Total([r] + t) == r.size + Total(t)
  {
    assert ([r] + t)[1..] == t;
  }

  lemma Behind<T>(a: seq<T>, b: seq<T>, i: nat, j: nat)
    requires i <= j <= |b|
    ensures (a + b)[|a| + i..|a| + j] == b[i..j]
  {
  }

  /** What is left of a bio keeps its place: its byte k is the one that was byte n + k. */
  lemma DropKeepsPlace(r: Rest, n: nat, ok: bool)
    requires r.size == Len(r.vecs) && n < r.size && n % 512 == 0
    ensures var d := DropBio(r, n, ok);
            && d.id == r.id && d.sector * 512 == r.sector * 512 + n
            && n <= |Bytes(r.vecs)| && Bytes(d.vecs) == Bytes(r.vecs)[n..]
  {
    hide Bytes, Len, DropVecs;
    BytesLen(r.vecs);
    if n > 0 {
      DropVecsBytes(r.vecs, n);
    } else {
      assert Bytes(r.vecs)[0..] == Bytes(r.vecs);
    }
  }

  lemma {:induction false} DropLies(rs: seq<Rest>, sector: nat, n: nat, ok: bool)
    requires WholeSectors(rs) && Lies(rs, sector) && n % 512 == 0 && n <= Total(rs)
    ensures Lies(Drop(rs, n, ok), sector + n / 512) && WholeSectors(Drop(rs, n, ok))
  {
    hide DropVecs;
    if rs != [] {
      var r, t := rs[0], rs[1..];
      if n >= r.size {
        DropLies(t, sector + r.size / 512, n - r.size, ok);
        WholeSum(r.size, n - r.size);
      } else {
        var d := [DropBio(r, n, ok)] + t;
        assert d[1..] == t;
        WholeSum(n, r.size - n);
      }
    }
  }

  // ------------------------------------------------------------------------ merges

  datatype Place = AtBack | AtFront | Nowhere

  /** elv_try_merge, as far as positions go. */
  function TryMerge(r: Req, b: Bio): Place {
    if r.sector + Sectors(r.dataLen) == b.sector then AtBack
    else if b.sector + Sectors(b.size) == r.sector then AtFront
    else Nowhere
  }

  /** A bio is taken at the back exactly when the request is not closed to merging and sectors
      and counted segments stay within the limits; its bytes then follow those of the request.
      A refusal for a limit closes the request, and nothing else of it changes. */
  lemma BackMergeIff(q: Queue, r: Req, b: Bio)
    requires r.bios != []
    ensures var a := BackMerge(q, r, b);
            && (a.ok <==> !r.noMerge && Sectors(r.dataLen) + Sectors(b.size) <= q.maxSectors && r.nr + Counted(q, b).phys <= q.maxSegments)
            && (a.ok ==> Rests(a.req.bios) == Rests(r.bios) + Rests([b]) && a.req.nr <= q.maxSegments && a.req.noMerge == r.noMerge
                         && a.req.sector == r.sector && a.req.dataLen == r.dataLen + b.size)
            && (!a.ok ==> Rests(a.req.bios) == Rests(r.bios) && a.req == r.(bios := a.req.bios, noMerge := true))
            && RestOf(a.other) == RestOf(b) && a.req.kind == r.kind && a.req.special == r.special
  {
    hide Counted, RestOf, Sectors;
    NotesKeepRest(q, b);
    var l := |r.bios| - 1;
    Renote(q, r.bios, l);
    var bios := r.bios[l := Counted(q, r.bios[l])];
    RestsBoth(bios, [Counted(q, b)]);
    OneNoted(q, b);
    assert r.bios[l := r.bios[l]] == r.bios;
  }

  lemma OneNoted(q: Queue, b: Bio)
    ensures Rests([Counted(q, b)]) == Rests([b]) == [RestOf(b)]
  {
    hide Counted, RestOf;
    NotesKeepRest(q, b);
  }

  lemma RestsBoth(a: seq<Bio>, b: seq<Bio>)
    ensures Rests(a + b) == Rests(a) + Rests(b)
  {
    hide RestOf;
  }

  /** The same at the front, where the request then begins with the bio. */
  lemma FrontMergeIff(q: Queue, r: Req, b: Bio)
    requires r.bios != []
    ensures var a := FrontMerge(q, r, b);
            && (a.ok <==> !r.noMerge && Sectors(r.dataLen) + Sectors(b.size) <= q.maxSectors && r.nr + Counted(q, b).phys <= q.maxSegments)
            && (a.ok ==> Rests(a.req.bios) == Rests([b]) + Rests(r.bios) && a.req.nr <= q.maxSegments && a.req.noMerge == r.noMerge
                         && a.req.sector == b.sector && a.req.dataLen == r.dataLen + b.size)
            && (!a.ok ==> Rests(a.req.bios) == Rests(r.bios) && a.req == r.(bios := a.req.bios, noMerge := true))
            && RestOf(a.other) == RestOf(b) && a.req.kind == r.kind && a.req.special == r.special
  {
    hide Counted, RestOf, Sectors;
    NotesKeepRest(q, b);
    Renote(q, r.bios, 0);
    var bios := r.bios[0 := Counted(q, r.bios[0])];
    RestsBoth([Counted(q, b)], bios);
    OneNoted(q, b);
  }

  /** Two requests are merged exactly when both are open to it and of one kind, the second begins
      where the first ends, and the limits allow it, a segment being saved where they meet. */
  lemma MergeReqsIff(q: Queue, r: Req, n: Req)
    requires r.bios != [] && n.bios != []
    ensures var a := MergeReqs(q, r, n);
            var saved := if PhysContig(q, Last(r.bios), n.bios[0]) && r.nr + n.nr > 0 then 1 else 0;
            && (a.ok <==>
                  && !r.noMerge && !n.noMerge && !r.special && !n.special && r.kind == n.kind
                  && r.sector + Sectors(r.dataLen) == n.sector
                  && Sectors(r.dataLen) + Sectors(n.dataLen) <= q.maxSectors && r.nr + n.nr - saved <= q.maxSegments)
            && (a.ok ==> Rests(a.req.bios) == Rests(r.bios) + Rests(n.bios) && a.req.nr == r.nr + n.nr - saved
                         && a.req.dataLen == r.dataLen + n.dataLen)
            && (!a.ok ==> Rests(a.req.bios) == Rests(r.bios) && Rests(a.other.bios) == Rests(n.bios)
                          && a.req == r.(bios := a.req.bios) && a.other == n.(bios := a.other.bios))
            && a.req.sector == r.sector && a.req.kind == r.kind && a.req.noMerge == r.noMerge
  {
    hide RestOf, PhysContig, SetFront, SetBack, Sectors, Rests;
    var size := Last(r.bios).back + n.bios[0].front;
    FrontBackRests(r.bios, size);
    FrontBackRests(n.bios, size);
    var contig := PhysContig(q, Last(r.bios), n.bios[0]);
    var rs := if contig && r.nr == 1 then SetFront(r.bios, size) else r.bios;
    var ns := if contig && n.nr == 1 then SetBack(n.bios, size) else n.bios;
    RestsBoth(rs, ns);
  }

  // ------------------------------------------------------------------------- runs

  /** A request whose bios lie end to end on the disk from its first sector on, and whose length
      is theirs. */
  ghost predicate OnDisk(r: Req) {
    var rs := Rests(r.bios);
    r.bios != [] && WellFormed(rs) && WholeSectors(rs) && r.dataLen == Total(rs) && Lies(rs, r.sector)
  }

  /** What callers see to: whole sectors, of requests that keep their sector, and merges where
      elv_try_merge finds the bio to belong. */
  ghost predicate Aligned(p: Pool, o: Op) {
    match o
    case Submit(b) => b.size % 512 == 0
    case Back(i, k) => i < |p.reqs| && k < |p.loose| ==> TryMerge(p.reqs[i], p.loose[k]) == AtBack
    case Front(i, k) => i < |p.reqs| && k < |p.loose| ==> TryMerge(p.reqs[i], p.loose[k]) == AtFront
    case Update(i, fs, n, ok, after) => fs && n % 512 == 0
    case _ => true
  }

  ghost predicate Whole(b: Bio) {
    Sized(b) && b.size % 512 == 0
  }

  lemma OneOnDisk(b: Bio)
    requires Whole(b)
    ensures var rs := Rests([b]); rs == [RestOf(b)] && WellFormed(rs) && WholeSectors(rs) && Total(rs) == b.size && Lies(rs, b.sector)
  {
    hide Len, Bio.Live;
    var rs := Rests([b]);
    assert rs == [RestOf(b)] && rs[1..] == [];
  }

  lemma StartOnDisk(q: Queue, b: Bio, kind: nat)
    requires Whole(b)
    ensures OnDisk(NewReq(q, b, kind))
  {
    hide Counted, Whole, WellFormed, WholeSectors, Total, Lies, Rests;
    OneNoted(q, b);
    OneOnDisk(b);
  }

  lemma JoinOnDisk(a: seq<Rest>, b: seq<Rest>, sector: nat)
    requires WellFormed(a) && WholeSectors(a) && Lies(a, sector) && WellFormed(b) && WholeSectors(b) && Lies(b, sector + Total(a) / 512)
    ensures WellFormed(a + b) && WholeSectors(a + b) && Lies(a + b, sector) && Total(a + b) == Total(a) + Total(b)
  {
    hide Lies, Total, Len;
    LiesConcat(a, b, sector);
    TotalConcat(a, b);
  }

  lemma BackOnDisk(q: Queue, r: Req, b: Bio)
    requires OnDisk(r) && Whole(b) && TryMerge(r, b) == AtBack
    ensures var a := BackMerge(q, r, b); OnDisk(a.req) && Whole(a.other)
  {
    hide Counted, Whole, WellFormed, WholeSectors, Total, Lies, Rests, RestOf, BackMerge;
    BackMergeIff(q, r, b);
    OneOnDisk(b);
    WholeSame(b, BackMerge(q, r, b).other);
    JoinOnDisk(Rests(r.bios), Rests([b]), r.sector);
    HasRests(r.bios, BackMerge(q, r, b).req.bios);
  }

  lemma FrontOnDisk(q: Queue, r: Req, b: Bio)
    requires OnDisk(r) && Whole(b) && TryMerge(r, b) == AtFront
    ensures var a := FrontMerge(q, r, b); OnDisk(a.req) && Whole(a.other)
  {
    hide Counted, Whole, WellFormed, WholeSectors, Total, Lies, Rests, RestOf, FrontMerge;
    FrontMergeIff(q, r, b);
    OneOnDisk(b);
    WholeSame(b, FrontMerge(q, r, b).other);
    JoinOnDisk(Rests([b]), Rests(r.bios), b.sector);
    HasRests(r.bios, FrontMerge(q, r, b).req.bios);
  }

  lemma MergeOnDisk(q: Queue, r: Req, n: Req)
    requires OnDisk(r) && OnDisk(n)
    ensures var a := MergeReqs(q, r, n); OnDisk(a.req) && (!a.ok ==> OnDisk(a.other))
  {
    hide WellFormed, WholeSectors, Total, Lies, Rests, MergeReqs, PhysContig;
    MergeReqsIff(q, r, n);
    var a := MergeReqs(q, r, n);
    HasRests(r.bios, a.req.bios);
    HasRests(n.bios, a.other.bios);
    if a.ok {
      JoinOnDisk(Rests(r.bios), Rests(n.bios), r.sector);
    }
  }

  lemma WholeSame(b: Bio, c: Bio)
    requires Whole(b) && RestOf(c) == RestOf(b)
    ensures Whole(c)
  {
    SameRest(c, b);
  }

  /** Bios that have a rest to do are there. */
  lemma HasRests(a: seq<Bio>, b: seq<Bio>)
    ensures |Rests(a)| == |a| && |Rests(b)| == |b|
  {
  }

  lemma UpdateOnDisk(q: Queue, r: Req, n: nat, ok: bool, after: Req)
    requires OnDisk(r) && n % 512 == 0 && n < Total(Rests(r.bios)) && Updates(q, r, true, n, ok, after)
    ensures OnDisk(after)
  {
    hide WellFormed, WholeSectors, Total, Lies, Rests, Recount, Drop;
    var bios :| UpdatesBy(q, r, true, n, ok, after, bios);
    RecountRests(q, bios);
    DropsBytes(Rests(r.bios), n, ok);
    DropLies(Rests(r.bios), r.sector, n, ok);
    HasRests(bios, after.bios);
  }

  ghost predicate AllOnDisk(p: Pool) {
    (forall r :: r in p.reqs ==> OnDisk(r)) && (forall b :: b in p.loose ==> Whole(b))
  }

  lemma NextOnDisk(q: Queue, p: Pool, o: Op)
    requires AllOnDisk(p) && Enabled(q, p, o) && Aligned(p, o)
    ensures AllOnDisk(Next(q, p, o))
  {
    hide OnDisk, Whole, NewReq, BackMerge, FrontMerge, MergeReqs, Updates, Total, Rests, TryMerge;
    match o
    case Submit(b) => SubmitWhole(b);
    case Start(k, kind) => StartOnDisk(q, p.loose[k], kind);
    case Back(i, k) => BackOnDisk(q, p.reqs[i], p.loose[k]);
    case Front(i, k) => FrontOnDisk(q, p.reqs[i], p.loose[k]);
    case Merge(i, j) => MergeOnDisk(q, p.reqs[i], p.reqs[j]);
    case Update(i, fs, n, ok, after) =>
      if n < Total(Rests(p.reqs[i].bios)) {
        UpdateOnDisk(q, p.reqs[i], n, ok, after);
      }
  }

  lemma SubmitWhole(b: Bio)
    requires Sized(b) && b.size % 512 == 0
    ensures Whole(b)
  {
  }

  lemma {:induction false} RunOnDisk(q: Queue, ps: seq<Pool>, os: seq<Op>)
    requires Run(q, ps, os) && forall i :: 0 <= i < |os| ==> Aligned(ps[i], os[i])
    ensures AllOnDisk(ps[|os|])
    decreases |os|
  {
    hide OnDisk, Whole, Next, Enabled, Aligned;
    if os != [] {
      var m := |os| - 1;
      RunOnDisk(q, ps[..|ps| - 1], os[..m]);
      NextOnDisk(q, ps[m], os[m]);
    }
  }

  /** In every state of such a run, the driver that transfers the bytes of a request in order from
      its first sector on puts those of each bio where the bio says. */
  lemma EveryByteInPlace(q: Queue, ps: seq<Pool>, os: seq<Op>, i: nat, j: nat)
    requires Run(q, ps, os) && forall k :: 0 <= k < |os| ==> Aligned(ps[k], os[k])
    requires i < |ps[|os|].reqs| && j < |ps[|os|].reqs[i].bios|
    ensures var r := ps[|os|].reqs[i];
            var rs, b := Rests(r.bios), r.bios[j];
            var o := Total(rs[..j]);
            && r.dataLen == |AllBytes(rs)| && o + b.size <= |AllBytes(rs)|
            && b.sector * 512 == r.sector * 512 + o && AllBytes(rs)[o..o + b.size] == Bytes(b.Live())
  {
    hide Next, Enabled, Aligned, Total, Lies, WellFormed, WholeSectors, AllBytes, Bytes, Bio.Live, Run;
    RunOnDisk(q, ps, os);
    RunLength(q, ps, os);
    var r := ps[|os|].reqs[i];
    assert r in ps[|os|].reqs && OnDisk(r);
    AllBytesLen(Rests(r.bios));
    LiesAt(Rests(r.bios), r.sector, j);
  }

  lemma RunLength(q: Queue, ps: seq<Pool>, os: seq<Op>)
    requires Run(q, ps, os)
    ensures |ps| == |os| + 1
  {
  }
}
