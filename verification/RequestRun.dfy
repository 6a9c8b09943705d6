/** Whole runs over a set of requests: bios arrive, start requests, are merged into them from
    either side, requests are merged and partly completed, in any order.  The number of
    segments a request counts always covers the scatterlist that would be built from it. */
module RequestRun {
  import opened Segments
  import opened Requests
  import opened Completion
  import opened RequestInPlace

  datatype Pool = Pool(reqs: seq<Req>, loose: seq<Bio>)

  datatype Op =
    | Submit(b: Bio)
    | Start(k: nat, kind: nat)
    | Back(i: nat, k: nat)
    | Front(i: nat, k: nat)
    | Merge(i: nat, j: nat)
    | Update(i: nat, fs: bool, n: nat, ok: bool, after: Req)

  function RemoveAt<T>(s: seq<T>, k: nat): seq<T>
    requires k < |s|
  {
    s[..k] + s[k + 1..]
  }

  /** A bio as it is submitted: as long as its vectors say, counted before or not. */
  ghost predicate Sized(b: Bio) {
    b.size == Len(b.Live()) && b.size > 0
  }

  /** No bio is submitted with a count, or sizes noted with it, that does not hold. */
  ghost predicate Truthful(q: Queue, os: seq<Op>) {
    forall i :: 0 <= i < |os| && os[i].Submit? ==> BioOk(q, os[i].b)
  }

  ghost predicate Enabled(q: Queue, p: Pool, o: Op) {
    match o
    case Submit(b) => Sized(b)
    case Start(k, _) => k < |p.loose|
    case Back(i, k) => i < |p.reqs| && p.reqs[i].bios != [] && k < |p.loose|
    case Front(i, k) => i < |p.reqs| && p.reqs[i].bios != [] && k < |p.loose|
    case Merge(i, j) => i < |p.reqs| && j < |p.reqs| && i != j && p.reqs[i].bios != [] && p.reqs[j].bios != []
    case Update(i, fs, n, ok, after) =>
      && i < |p.reqs|
      && (n < Total(Rests(p.reqs[i].bios)) ==> Updates(q, p.reqs[i], fs, n, ok, after))
  }

  ghost function Next(q: Queue, p: Pool, o: Op): Pool
    requires Enabled(q, p, o)
  {
    match o
    case Submit(b) => p.(loose := p.loose + [b])
    case Start(k, kind) => Pool(p.reqs + [NewReq(q, p.loose[k], kind)], RemoveAt(p.loose, k))
    case Back(i, k) => Merged(p, i, k, BackMerge(q, p.reqs[i], p.loose[k]))
    case Front(i, k) => Merged(p, i, k, FrontMerge(q, p.reqs[i], p.loose[k]))
    case Merge(i, j) =>
      var a := MergeReqs(q, p.reqs[i], p.reqs[j]);
      var reqs := p.reqs[i := a.req][j := a.other];
      p.(reqs := if a.ok then RemoveAt(reqs, j) else reqs)
    case Update(i, fs, n, ok, after) =>
      p.(reqs := if n < Total(Rests(p.reqs[i].bios)) then p.reqs[i := after] else RemoveAt(p.reqs, i))
  }

  function Merged(p: Pool, i: nat, k: nat, a: Attempt<Bio>): Pool
    requires i < |p.reqs| && k < |p.loose|
  {
    Pool(p.reqs[i := a.req], if a.ok then RemoveAt(p.loose, k) else p.loose[k := a.other])
  }

  ghost predicate Run(q: Queue, ps: seq<Pool>, os: seq<Op>) {
    && |ps| == |os| + 1 && ps[0] == Pool([], [])
    && forall i :: 0 <= i < |os| ==> Enabled(q, ps[i], os[i]) && ps[i + 1] == Next(q, ps[i], os[i])
  }

  // -------------------------------------------------------------------- invariant

  /** A request in order whose length is what its bios have left. */
  ghost predicate GoodReq(q: Queue, r: Req) {
    ReqOk(q, r) && WellFormed(Rests(r.bios)) && r.dataLen == Total(Rests(r.bios))
  }

  ghost predicate GoodBio(q: Queue, b: Bio) {
    BioOk(q, b) && Sized(b)
  }

  ghost predicate Inv(q: Queue, p: Pool) {
    && (forall i :: 0 <= i < |p.reqs| ==> GoodReq(q, p.reqs[i]))
    && (forall k :: 0 <= k < |p.loose| ==> GoodBio(q, p.loose[k]))
  }

  lemma SubmitGood(q: Queue, b: Bio)
    requires BioOk(q, b) && Sized(b)
    ensures GoodBio(q, b)
  {
  }

  lemma {:induction false} TotalConcat(a: seq<Rest>, b: seq<Rest>)
    ensures Total(a + b) == Total(a) + Total(b)
  {
    if a == [] {
      assert a + b == b;
    } else {
      TotalConcat(a[1..], b);
      assert (a + b)[1..] == a[1..] + b;
    }
  }

  lemma RestsConcat(a: seq<Bio>, b: seq<Bio>)
    ensures Rests(a + b) == Rests(a) + Rests(b) && Total(Rests(a + b)) == Total(Rests(a)) + Total(Rests(b))
    ensures WellFormed(Rests(a)) && WellFormed(Rests(b)) ==> WellFormed(Rests(a + b))
  {
    hide Total, Len, RestOf;
    TotalConcat(Rests(a), Rests(b));
    assert Rests(a + b) == Rests(a) + Rests(b);
  }

  lemma OneRest(b: Bio)
    ensures Rests([b]) == [RestOf(b)] && Total(Rests([b])) == b.size
    ensures b.size == Len(b.Live()) && b.size > 0 ==> WellFormed(Rests([b]))
  {
    hide Len, Bio.Live;
    assert [RestOf(b)][1..] == [];
  }

  /** Noting sizes in a bio changes nothing of what it has left. */
  lemma NotesKeepRest(q: Queue, b: Bio)
    ensures RestOf(Counted(q, b)) == RestOf(b) && Counted(q, b).size == b.size
  {
    hide Cut, Len, AllVecs;
  }

  lemma SameRests(a: seq<Bio>, b: seq<Bio>)
    requires |a| == |b| && forall i :: 0 <= i < |a| ==> RestOf(a[i]) == RestOf(b[i])
    ensures Rests(a) == Rests(b)
  {
  }

  lemma StartGood(q: Queue, b: Bio, kind: nat)
    requires GoodBio(q, b)
    ensures GoodReq(q, NewReq(q, b, kind))
  {
    hide BioOk, ReqOk, Counted, Total, WellFormed, Rests, Len, Bio.Live;
    NewReqOk(q, b, kind);
    NotesKeepRest(q, b);
    OneRest(b);
    OneRest(Counted(q, b));
    SameRest(b, Counted(q, b));
  }

  lemma SameRest(a: Bio, b: Bio)
    requires RestOf(a) == RestOf(b)
    ensures a.Live() == b.Live() && a.size == b.size
  {
  }

  lemma MergedGood(q: Queue, r: Req, b: Bio, a: Attempt<Bio>)
    requires GoodReq(q, r) && GoodBio(q, b)
    requires a == BackMerge(q, r, b) || a == FrontMerge(q, r, b)
    ensures GoodReq(q, a.req) && GoodBio(q, a.other)
  {
    hide BioOk, ReqOk, Counted, Total, WellFormed, Rests, Len, Bio.Live;
    BackMergeOk(q, r, b);
    FrontMergeOk(q, r, b);
    NotesKeepRest(q, b);
    var c := Counted(q, b);
    SameRest(b, c);
    OneRest(b);
    OneRest(c);
    HasBios(q, r);
    var l := |r.bios| - 1;
    Renote(q, r.bios, l);
    Renote(q, r.bios, 0);
    RestsConcat(r.bios[l := Counted(q, r.bios[l])], [c]);
    RestsConcat([c], r.bios[0 := Counted(q, r.bios[0])]);
  }

  lemma HasBios(q: Queue, r: Req)
    requires ReqOk(q, r)
    ensures r.bios != []
  {
  }

  lemma Renote(q: Queue, bios: seq<Bio>, i: nat)
    requires i < |bios|
    ensures Rests(bios[i := Counted(q, bios[i])]) == Rests(bios)
  {
    hide Counted, RestOf;
    NotesKeepRest(q, bios[i]);
    SameRests(bios[i := Counted(q, bios[i])], bios);
  }

  lemma FrontBackRests(bios: seq<Bio>, x: nat)
    requires bios != []
    ensures Rests(SetFront(bios, x)) == Rests(bios) && Rests(SetBack(bios, x)) == Rests(bios)
  {
    SameRests(SetFront(bios, x), bios);
    SameRests(SetBack(bios, x), bios);
  }

  lemma MergeGood(q: Queue, r: Req, n: Req)
    requires GoodReq(q, r) && GoodReq(q, n)
    ensures r.bios != [] && n.bios != []
    ensures var a := MergeReqs(q, r, n); GoodReq(q, a.req) && (!a.ok ==> GoodReq(q, a.other))
  {
    hide ReqOk, Total, WellFormed, Rests, PhysContig, SetFront, SetBack, Sectors;
    HasBios(q, r);
    HasBios(q, n);
    MergeReqsOk(q, r, n);
    var size := Last(r.bios).back + n.bios[0].front;
    FrontBackRests(r.bios, size);
    FrontBackRests(n.bios, size);
    var a := MergeReqs(q, r, n);
    var rs := if PhysContig(q, Last(r.bios), n.bios[0]) && r.nr == 1 then SetFront(r.bios, size) else r.bios;
    var ns := if PhysContig(q, Last(r.bios), n.bios[0]) && n.nr == 1 then SetBack(n.bios, size) else n.bios;
    RestsConcat(rs, ns);
  }

  lemma UpdateGood(q: Queue, r: Req, fs: bool, n: nat, ok: bool, after: Req)
    requires GoodReq(q, r) && n < Total(Rests(r.bios)) && Updates(q, r, fs, n, ok, after)
    ensures GoodReq(q, after)
  {
    hide ReqOk, Total, WellFormed, Rests, Recount, Drop;
    var bios :| UpdatesBy(q, r, fs, n, ok, after, bios);
    DropsBytes(Rests(r.bios), n, ok);
    Recounted(q, after.(bios := bios));
  }

  // ------------------------------------------------------------------------- runs

  lemma NextReqs(q: Queue, p: Pool, o: Op)
    requires Inv(q, p) && Enabled(q, p, o) && (o.Submit? ==> BioOk(q, o.b))
    ensures forall r :: r in Next(q, p, o).reqs ==> GoodReq(q, r)
  {
    hide GoodReq, GoodBio, NewReq, BackMerge, FrontMerge, MergeReqs, Updates, Total, Rests, Sized;
    match o
    case Submit(b) =>
    case Start(k, kind) => StartGood(q, p.loose[k], kind);
    case Back(i, k) => MergedGood(q, p.reqs[i], p.loose[k], BackMerge(q, p.reqs[i], p.loose[k]));
    case Front(i, k) => MergedGood(q, p.reqs[i], p.loose[k], FrontMerge(q, p.reqs[i], p.loose[k]));
    case Merge(i, j) => MergeGood(q, p.reqs[i], p.reqs[j]);
    case Update(i, fs, n, ok, after) =>
      if n < Total(Rests(p.reqs[i].bios)) {
        UpdateGood(q, p.reqs[i], fs, n, ok, after);
      }
  }

  lemma NextLoose(q: Queue, p: Pool, o: Op)
    requires Inv(q, p) && Enabled(q, p, o) && (o.Submit? ==> BioOk(q, o.b))
    ensures forall b :: b in Next(q, p, o).loose ==> GoodBio(q, b)
  {
    hide GoodReq, GoodBio, NewReq, BackMerge, FrontMerge, MergeReqs, Updates, Total, Rests, Sized;
    match o
    case Submit(b) => SubmitGood(q, b);
    case Start(k, kind) =>
    case Back(i, k) => MergedGood(q, p.reqs[i], p.loose[k], BackMerge(q, p.reqs[i], p.loose[k]));
    case Front(i, k) => MergedGood(q, p.reqs[i], p.loose[k], FrontMerge(q, p.reqs[i], p.loose[k]));
    case Merge(i, j) =>
    case Update(i, fs, n, ok, after) =>
  }

  lemma {:induction false} RunKeeps(q: Queue, ps: seq<Pool>, os: seq<Op>)
    requires Run(q, ps, os) && Truthful(q, os)
    ensures Inv(q, ps[|os|])
    decreases |os|
  {
    hide GoodReq, GoodBio, Next, Enabled;
    if os != [] {
      var m := |os| - 1;
      RunKeeps(q, ps[..|ps| - 1], os[..m]);
      NextReqs(q, ps[m], os[m]);
      NextLoose(q, ps[m], os[m]);
    }
  }

  /** In every state that truthful submissions lead to, mapping any request takes at most
      nr_phys_segments entries. */
  lemma MapNeverOverflows(q: Queue, ps: seq<Pool>, os: seq<Op>, i: nat)
    requires Run(q, ps, os) && Truthful(q, os) && i < |ps[|os|].reqs|
    ensures MapSg(q, ps[|os|].reqs[i]) <= ps[|os|].reqs[i].nr
  {
    hide ReqOk, WellFormed, Rests, Total, MapSg, Next, Enabled;
    RunKeeps(q, ps, os);
    assert GoodReq(q, ps[|os|].reqs[i]);
    MapFits(q, ps[|os|].reqs[i]);
  }
}
