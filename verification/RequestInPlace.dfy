/** The functions of block/blk-merge.c and block/blk-core.c that work in place on a request,
    each proved against modules Segments, Requests and Completion. */
module RequestInPlace {
  import opened Segments
  import opened Requests
  import opened Completion

  /** A scatterlist entry. */
  datatype Sg = Sg(pfn: nat, offset: nat, length: nat)

  function SgOf(s: seq<Vec>): Sg
    requires s != []
  {
    Sg(s[0].pfn, s[0].offset, Len(s))
  }

  function RestOf(b: Bio): Rest {
    Rest(b.id, b.Live(), b.size, b.sector, b.uptodate)
  }

  function Rests(bios: seq<Bio>): seq<Rest> {
    seq(|bios|, i requires 0 <= i < |bios| => RestOf(bios[i]))
  }

  class Request {
    var bios: seq<Bio>
    var nr: nat
    var sector: nat
    var dataLen: nat
    var kind: nat
    var noMerge: bool
    var special: bool
    var fs: bool                 // REQ_TYPE_FS or REQ_DISCARD: __sector is kept
    var flushSeq: bool           // REQ_FLUSH_SEQ
    var ended: seq<End>          // bio_endio calls made

    ghost function View(): Req
      reads this
    {
      Req(bios, nr, sector, dataLen, kind, noMerge, special)
    }

    /** blk_rq_map_sg without padding and drain: the scatterlist is the greedy cutting of the
        request's vectors, entry by entry. */
    method MapSg(q: Queue) returns (sg: seq<Sg>)
      ensures var p := Cut(q, false, AllVecs(bios));
              |sg| == |p| && forall i :: 0 <= i < |p| ==> p[i] != [] && sg[i] == SgOf(p[i])
      ensures ReqOk(q, View()) ==> |sg| <= nr
    {
      hide Len, AllVecs, Joins, High, ReqOk;
      if ReqOk(q, View()) {
        MapFits(q, View());
      }
      var vs := AllVecs(bios);
      sg := [];
      ghost var pre: seq<seq<Vec>>, cur: seq<Vec> := [], [];
      var k := 0;
      while k < |vs|
        invariant k <= |vs| && |sg| == |pre| + (if k == 0 then 0 else 1)
        invariant k == 0 ==> pre == []
        invariant k > 0 ==> cur != [] && cur[|cur|-1] == vs[k-1] && sg[|pre|] == SgOf(cur)
        invariant k > 0 ==> Cut(q, false, vs) == pre + Greedy(q, false, cur, vs[k..])
        invariant forall i :: 0 <= i < |pre| ==> pre[i] != [] && sg[i] == SgOf(pre[i])
      {
        var v := vs[k];
        var last := |sg| - 1;
        if k > 0 && q.cluster && sg[last].length + v.len <= q.maxSegSize && Joins(q, vs[k-1], v) {
          TakeVec(q, false, cur, vs, k);
          cur := cur + [v];
          sg := sg[last := sg[last].(length := sg[last].length + v.len)];
        } else {
          if k > 0 {
            CloseSeg(q, false, cur, vs, k);
            assert pre + ([cur] + Greedy(q, false, [v], vs[k+1..])) == (pre + [cur]) + Greedy(q, false, [v], vs[k+1..]);
            pre := pre + [cur];
          } else {
            assert [] + Greedy(q, false, [v], vs[1..]) == Greedy(q, false, [v], vs[1..]);
          }
          cur := [v];
          OneLen(v);
          sg := sg + [Sg(v.pfn, v.offset, v.len)];
        }
        k := k + 1;
      }
      if k > 0 {
        assert vs[k..] == [];
        assert Cut(q, false, vs) == pre + [cur];
      }
    }

    /** __blk_recalc_rq_segments, on a chain of bios */
    static method Recalc(q: Queue, chain: seq<Bio>) returns (bios: seq<Bio>, nr: nat)
      ensures (bios, nr) == Recount(q, chain)
    {
      hide Len, AllVecs, Joins, High;
      bios, nr := chain, 0;
      if bios == [] {
        NoVecs();
        return;
      }
      var vs := AllVecs(bios);
      var front := bios[0].front;
      var segSize, n, k := 0, 0, 0;
      var highPrev := true;
      ghost var pre: seq<seq<Vec>>, cur: seq<Vec> := [], [];
      while k < |vs|
        invariant k <= |vs| && n == |pre| + (if k == 0 then 0 else 1) && bios == chain && bios != []
        invariant k == 0 ==> highPrev && segSize == 0 && pre == []
        invariant k > 0 ==> cur != [] && cur[|cur|-1] == vs[k-1] && segSize == Len(cur) && (highPrev <==> High(q, vs[k-1]))
        invariant k > 0 ==> Cut(q, true, vs) == pre + Greedy(q, true, cur, vs[k..])
        invariant front == if n >= 2 then Max(bios[0].front, Len(pre[0])) else bios[0].front
      {
        var v := vs[k];
        var high := High(q, v);
        if !high && !highPrev && q.cluster && segSize + v.len <= q.maxSegSize && Joins(q, vs[k-1], v) {
          TakeVec(q, true, cur, vs, k);
          cur := cur + [v];
          segSize := segSize + v.len;
        } else {
          if n == 1 && segSize > front {
            front := segSize;
          }
          if k > 0 {
            CloseSeg(q, true, cur, vs, k);
            assert pre + ([cur] + Greedy(q, true, [v], vs[k+1..])) == (pre + [cur]) + Greedy(q, true, [v], vs[k+1..]);
            pre := pre + [cur];
          } else {
            assert [] + Greedy(q, true, [v], vs[1..]) == Greedy(q, true, [v], vs[1..]);
          }
          cur := [v];
          OneLen(v);
          n := n + 1;
          segSize := v.len;
          highPrev := high;
        }
        k := k + 1;
      }
      if k > 0 {
        assert vs[k..] == [];
        assert Cut(q, true, vs) == pre + [cur];
      } else {
        assert vs == [];
      }
      if n == 1 && segSize > front {
        front := segSize;
      }
      ghost var p := Cut(q, true, vs);
      assert k > 0 ==> p[0] == (if n == 1 then cur else pre[0]) && Last(p) == cur && front == Max(bios[0].front, Len(p[0]));
      bios := bios[0 := bios[0].(front := front)];
      assert k == 0 ==> bios == chain;
      if segSize > bios[|bios|-1].back {
        bios := bios[|bios|-1 := bios[|bios|-1].(back := segSize)];
      } else {
        assert bios[|bios|-1 := Last(bios).(back := Last(bios).back)] == bios;
      }
      nr := n;
    }

    /** blk_recalc_rq_segments */
    method RecalcSegments(q: Queue)
      modifies `bios, `nr
      ensures (bios, nr) == Recount(q, old(bios))
    {
      bios, nr := Recalc(q, bios);
    }

    /** blk_recount_segments for a bio not marked BIO_SEG_VALID */
    static method CountBio(q: Queue, b: Bio) returns (c: Bio)
      ensures c == Counted(q, b)
    {
      if b.segValid {
        return b;
      }
      var bios, n := Recalc(q, [b]);
      c := bios[0].(phys := n, segValid := true);
    }

    /** bio_attempt_back_merge */
    method AttemptBackMerge(q: Queue, b: Bio) returns (merged: bool, c: Bio)
      requires bios != []
      modifies this
      ensures Attempt(View(), c, merged) == BackMerge(q, old(View()), b)
      ensures ended == old(ended) && fs == old(fs) && flushSeq == old(flushSeq)
    {
      hide Counted;
      merged, c := false, b;
      if noMerge {
        return;
      }
      if Sectors(dataLen) + Sectors(b.size) > q.maxSectors {
        noMerge := true;
        return;
      }
      var tail := CountBio(q, bios[|bios|-1]);
      bios := bios[|bios|-1 := tail];
      c := CountBio(q, b);
      if nr + c.phys > q.maxSegments {
        noMerge := true;
        return;
      }
      nr := nr + c.phys;
      bios := bios + [c];
      dataLen := dataLen + b.size;
      merged := true;
    }

    /** bio_attempt_front_merge */
    method AttemptFrontMerge(q: Queue, b: Bio) returns (merged: bool, c: Bio)
      requires bios != []
      modifies this
      ensures Attempt(View(), c, merged) == FrontMerge(q, old(View()), b)
      ensures ended == old(ended) && fs == old(fs) && flushSeq == old(flushSeq)
    {
      hide Counted;
      merged, c := false, b;
      if noMerge {
        return;
      }
      if Sectors(dataLen) + Sectors(b.size) > q.maxSectors {
        noMerge := true;
        return;
      }
      c := CountBio(q, b);
      var first := CountBio(q, bios[0]);
      bios := bios[0 := first];
      if nr + c.phys > q.maxSegments {
        noMerge := true;
        return;
      }
      nr := nr + c.phys;
      bios := [c] + bios;
      sector := b.sector;
      dataLen := dataLen + b.size;
      merged := true;
    }

    /** attempt_merge: `next` is appended to this request if the limits allow. */
    method AttemptMerge(q: Queue, next: Request) returns (merged: bool)
      requires bios != [] && next.bios != [] && next != this
      modifies this, next
      ensures Attempt(View(), next.View(), merged) == MergeReqs(q, old(View()), old(next.View()))
      ensures ended == old(ended) && fs == old(fs) && flushSeq == old(flushSeq)
    {
      hide PhysContig, Sectors;
      merged := false;
      var size := bios[|bios|-1].back + next.bios[0].front;
      if noMerge || next.noMerge || kind != next.kind || sector + Sectors(dataLen) != next.sector {
        return;
      }
      if special || next.special || Sectors(dataLen) + Sectors(next.dataLen) > q.maxSectors {
        return;
      }
      var total := nr + next.nr;
      if PhysContig(q, bios[|bios|-1], next.bios[0]) {
        if nr == 1 {
          bios := bios[0 := bios[0].(front := size)];
        }
        if next.nr == 1 {
          next.bios := next.bios[|next.bios|-1 := next.bios[|next.bios|-1].(back := size)];
        }
        if total > 0 {
          total := total - 1;
        }
      }
      if total > q.maxSegments {
        return;
      }
      nr := total;
      bios := bios + next.bios;
      dataLen := dataLen + next.dataLen;
      merged := true;
    }
  
    /** req_bio_endio of a whole bio: outside a flush sequence it is ended. */
    method EndFirst(ok: bool)
      requires bios != []
      modifies `bios, `ended
      ensures bios == old(bios)[1..]
      ensures ended == old(ended) + if flushSeq then [] else [End(old(bios)[0].id, ok && old(bios)[0].uptodate)]
    {
      if !flushSeq {
        ended := ended + [End(bios[0].id, ok && bios[0].uptodate)];
      }
      bios := bios[1..];
    }

    /** The loop of blk_update_request: end whole bios while the bytes last, then walk into
        the first one left; `done` bytes of it are complete, `total` bytes in all. */
    method WalkBios(ok: bool, nrBytes: nat) returns (total: nat, done: nat, next: nat, n: nat, ghost log: seq<End>)
      requires bios != [] && Fit(Rests(bios))
      modifies `bios, `ended
      ensures WellFormed(Rests(bios)) && ended == old(ended) + (if flushSeq then [] else log)
      ensures Drop(Rests(old(bios)), nrBytes, ok) == Drop(Rests(bios), if bios == [] then n else done, ok)
      ensures Ends(Rests(old(bios)), nrBytes, ok) == log + Ends(Rests(bios), if bios == [] then n else done, ok)
      ensures bios != [] ==>
        && total == nrBytes && Landed(bios[0], next, done, n)
        && Total(Rests(old(bios))) + done == Total(Rests(bios)) + total
    {
      hide Walked, Stopped, WellFormed, Fit, Rests, Drop, Ends, Total, Landed, InBio, Len, Bio.Live;
      ghost var rs := Rests(bios);
      n, total, done, next := nrBytes, 0, 0, 0;
      log := [];
      WalkStart(bios, nrBytes, ok);
      while bios != []
        invariant Walked(rs, nrBytes, ok, bios, n, done, next, total, log)
        invariant ended == old(ended) + (if flushSeq then [] else log)
        decreases |bios|, if bios == [] then 0 else |bios[0].Live()| - next
      {
        var b := bios[0];
        var nbytes;
        if n >= b.size {
          WalkPop(rs, nrBytes, ok, bios, n, done, next, total, log);
          EndFirst(ok);
          nbytes := b.size;
          log := log + [End(b.id, ok && b.uptodate)];
          next, done := 0, 0;
        } else {
          WalkVec(rs, nrBytes, ok, bios, n, done, next, total, log);
          var idx := b.idx + next;
          nbytes := b.vecs[idx].len;
          if nbytes > n {
            done := done + n;
            total := total + n;
            break;
          }
          next := next + 1;
          done := done + nbytes;
        }
        total := total + nbytes;
        n := n - nbytes;
        if bios != [] && n <= 0 {
          break;
        }
      }
      if bios == [] {
        WalkedAll(rs, nrBytes, ok, n, done, next, total, log);
      } else {
        StoppedAt(rs, nrBytes, ok, bios, n, done, next, total, log);
      }
    }

    /** The partial completion of the first bio left (bio_nbytes and the vector it stops in). */
    method AdvanceHead(ok: bool, done: nat, next: nat, n: nat)
      requires bios != [] && WellFormed(Rests(bios)) && Landed(bios[0], next, done, n)
      modifies `bios
      ensures Rests(bios) == Drop(Rests(old(bios)), done, ok) && Ends(Rests(old(bios)), done, ok) == []
      ensures bios != [] && WellFormed(Rests(bios)) && Total(Rests(bios)) + done == Total(Rests(old(bios)))
    {
      hide Drop, Ends, Total, WellFormed, Rests, DropVecs, Len, Recount, ReqOk, InBio, Landed, Bio.Live, RestOf;
      StayBio(bios, next, done, n, ok);
      if done > 0 {
        var b := bios[0];
        var k := b.idx + next;
        LandedIndex(b, next, done, n);
        b := b.(size := b.size - done, sector := b.sector + done / 512, uptodate := b.uptodate && ok, idx := k,
                vecs := b.vecs[k := b.vecs[k].(offset := b.vecs[k].offset + n, len := b.vecs[k].len - n)]);
        assert b == PartDone(bios[0], next, done, n, ok);
        bios := [b] + bios[1..];
      }
    }

    /** blk_update_request: complete the first nrBytes bytes.  What is left is the old rest
        with that many bytes dropped; the result says whether anything is left.  A request
        in flush sequencing ends no bio. */
    method UpdateRequest(q: Queue, ok: bool, nrBytes: nat) returns (more: bool)
      requires Fit(Rests(bios)) && dataLen == Total(Rests(bios))
      modifies this
      ensures Rests(bios) == Drop(Rests(old(bios)), nrBytes, ok)
      ensures WellFormed(Rests(bios)) && dataLen == Total(Rests(bios))
      ensures ended == old(ended) + (if flushSeq then [] else Ends(Rests(old(bios)), nrBytes, ok))
      ensures more <==> bios != []
      ensures !more ==> sector == old(sector)
      ensures more ==> ReqOk(q, View()) && Updates(q, old(View()), fs, nrBytes, ok, View())
      ensures kind == old(kind) && noMerge == old(noMerge) && special == old(special)
      ensures fs == old(fs) && flushSeq == old(flushSeq)
    {
      hide Drop, Ends, Total, WellFormed, Fit, Rests, DropVecs, Len, Recount, ReqOk, InBio, Landed, Bio.Live, RestOf, Updates;
      if bios == [] {
        NothingLeft(nrBytes, ok);
        return false;
      }
      ghost var log;
      var total, done, next, n;
      total, done, next, n, log := WalkBios(ok, nrBytes);
      if bios == [] {
        NothingLeft(n, ok);
        dataLen := 0;
        return false;
      }
      BioFacts(bios);
      AdvanceHead(ok, done, next, n);
      dataLen := dataLen - total;
      if fs {
        sector := sector + total / 512;
      }
      FirstVec(bios);
      // the "request botched" repair, which never changes dataLen
      dataLen := Max(dataLen, bios[0].vecs[bios[0].idx].len);
      Recounted(q, View());
      Updated(q, old(View()), fs, nrBytes, ok, View());
      RecalcSegments(q);
      more := true;
    }
  }

  lemma NoVecs()
    ensures AllVecs([]) == []
  {
  }

  lemma OneLen(v: Vec)
    ensures Len([v]) == v.len
  {
    assert [v][..0] == [];
  }

  lemma TakeVec(q: Queue, low: bool, cur: seq<Vec>, vs: seq<Vec>, k: nat)
    requires cur != [] && k < |vs|
    requires q.cluster && Len(cur) + vs[k].len <= q.maxSegSize && Joins(q, cur[|cur|-1], vs[k])
    requires low ==> !High(q, vs[k]) && !High(q, cur[|cur|-1])
    ensures Greedy(q, low, cur, vs[k..]) == Greedy(q, low, cur + [vs[k]], vs[k+1..])
    ensures Len(cur + [vs[k]]) == Len(cur) + vs[k].len
  {
    assert vs[k..][1..] == vs[k+1..];
    ExtendSegment(q, low, cur, vs[k]);
  }

  lemma CloseSeg(q: Queue, low: bool, cur: seq<Vec>, vs: seq<Vec>, k: nat)
    requires cur != [] && k < |vs| && !Extends(q, low, cur, vs[k])
    ensures Greedy(q, low, cur, vs[k..]) == [cur] + Greedy(q, low, [vs[k]], vs[k+1..])
  {
    assert vs[k..][1..] == vs[k+1..];
  }

  // --------------------------------------------------- steps of blk_update_request

  /** `after` is what completing n bytes makes of `r` when something is left: bios with those
      bytes dropped, recounted, and the first sector moved on if it is kept (`fs`). */
  ghost predicate UpdatesBy(q: Queue, r: Req, fs: bool, n: nat, ok: bool, after: Req, bios: seq<Bio>) {
    && bios != [] && Rests(bios) == Drop(Rests(r.bios), n, ok)
    && after == r.(bios := Recount(q, bios).0, nr := Recount(q, bios).1, dataLen := Total(Rests(bios)),
                   sector := r.sector + if fs then n / 512 else 0)
  }

  ghost predicate Updates(q: Queue, r: Req, fs: bool, n: nat, ok: bool, after: Req) {
    exists bios :: UpdatesBy(q, r, fs, n, ok, after, bios)
  }

  lemma Updated(q: Queue, r: Req, fs: bool, n: nat, ok: bool, left: Req)
    requires left.bios != [] && Rests(left.bios) == Drop(Rests(r.bios), n, ok)
    requires left == r.(bios := left.bios, dataLen := Total(Rests(left.bios)), sector := r.sector + if fs then n / 512 else 0)
    ensures Updates(q, r, fs, n, ok, left.(bios := Recount(q, left.bios).0, nr := Recount(q, left.bios).1))
  {
    hide Drop, Total, Rests, Recount;
    assert UpdatesBy(q, r, fs, n, ok, left.(bios := Recount(q, left.bios).0, nr := Recount(q, left.bios).1), left.bios);
  }

  /** Two partial completions leave what one for both would: the same rest of the bios, the same
      length, first sector and number of segments. */
  lemma UpdatedTwice(q: Queue, r: Req, fs: bool, a: nat, b: nat, ok: bool, mid: Req, after: Req, once: Req)
    requires WellFormed(Rests(r.bios)) && WholeSectors(Rests(r.bios)) && a % 512 == 0
    requires Updates(q, r, fs, a, ok, mid) && Updates(q, mid, fs, b, ok, after) && Updates(q, r, fs, a + b, ok, once)
    ensures Rests(after.bios) == Rests(once.bios) && after == once.(bios := after.bios)
  {
    hide Drop, Ends, Total, WellFormed, WholeSectors, Rests, Recount;
    var x :| UpdatesBy(q, r, fs, a, ok, mid, x);
    var y :| UpdatesBy(q, mid, fs, b, ok, after, y);
    var z :| UpdatesBy(q, r, fs, a + b, ok, once, z);
    RecountRests(q, x);
    RecountRests(q, y);
    RecountRests(q, z);
    InPieces(Rests(r.bios), a, b, ok);
    SameCount(q, y, z);
    assert (a + b) / 512 == a / 512 + b / 512;
  }

  lemma SameCount(q: Queue, a: seq<Bio>, b: seq<Bio>)
    requires Rests(a) == Rests(b)
    ensures Recount(q, a).1 == Recount(q, b).1
  {
    hide AllVecs, Cut, Len, Rests;
    SameVecs(a, b);
  }

  lemma {:induction false} SameVecs(a: seq<Bio>, b: seq<Bio>)
    requires Rests(a) == Rests(b)
    ensures AllVecs(a) == AllVecs(b)
  {
    hide Bio.Live;
    assert |Rests(a)| == |a| && |Rests(b)| == |b|;
    if a != [] {
      assert RestOf(a[0]) == Rests(a)[0] == Rests(b)[0] == RestOf(b[0]);
      assert Rests(a)[1..] == Rests(a[1..]) && Rests(b)[1..] == Rests(b[1..]);
      SameVecs(a[1..], b[1..]);
    }
  }

  /** The cursor stands after `next` whole vectors of `b`, `done` bytes, with n to go. */
  ghost predicate InBio(b: Bio, next: nat, done: nat, n: nat) {
    && next <= |b.Live()| && done == Len(b.Live()[..next])
    && (next > 0 ==> n > 0 && n + done < b.size && DropVecs(b.Live(), done + n) == DropVecs(b.Live()[next..], n))
  }

  /** The cursor has come to rest n bytes into vector `next`, `done` bytes into `b`. */
  ghost predicate Landed(b: Bio, next: nat, done: nat, n: nat) {
    && done < b.size && next <= |b.Live()|
    && (done > 0 ==>
          && next < |b.Live()| && n <= b.Live()[next].len
          && var v := b.Live()[next];
             DropVecs(b.Live(), done) == [v.(offset := v.offset + n, len := v.len - n)] + b.Live()[next + 1..])
  }

  /** The walk has ended the bios of `log` and stands in the first of `bios`, n bytes to go. */
  ghost predicate Walked(rs: seq<Rest>, nrBytes: nat, ok: bool, bios: seq<Bio>, n: nat, done: nat, next: nat, total: nat, log: seq<End>) {
    && Fit(Rests(bios)) && (bios == [] ==> done == 0)
    && total + n == nrBytes && Total(rs) + done == Total(Rests(bios)) + total
    && Drop(rs, nrBytes, ok) == Drop(Rests(bios), n + done, ok)
    && Ends(rs, nrBytes, ok) == log + Ends(Rests(bios), n + done, ok)
    && (bios != [] ==> InBio(bios[0], next, done, n))
  }

  /** The walk has come to rest in the first of `bios`. */
  ghost predicate Stopped(rs: seq<Rest>, nrBytes: nat, ok: bool, bios: seq<Bio>, n: nat, done: nat, next: nat, total: nat, log: seq<End>) {
    && bios != [] && WellFormed(Rests(bios)) && Landed(bios[0], next, done, n)
    && total == nrBytes && Total(rs) + done == Total(Rests(bios)) + total
    && Drop(rs, nrBytes, ok) == Drop(Rests(bios), done, ok)
    && Ends(rs, nrBytes, ok) == log + Ends(Rests(bios), done, ok)
  }

  lemma WalkStart(bios: seq<Bio>, n: nat, ok: bool)
    requires bios != [] && Fit(Rests(bios))
    ensures Walked(Rests(bios), n, ok, bios, n, 0, 0, 0, [])
  {
    hide Fit, Rests, Drop, Ends, Total, InBio;
    BioStart(bios[0], n);
    assert Ends(Rests(bios), n, ok) == [] + Ends(Rests(bios), n, ok);
  }

  lemma WalkPop(rs: seq<Rest>, nrBytes: nat, ok: bool, bios: seq<Bio>, n: nat, done: nat, next: nat, total: nat, log: seq<End>)
    requires bios != [] && n >= bios[0].size && Walked(rs, nrBytes, ok, bios, n, done, next, total, log)
    ensures var b := bios[0];
            var log' := log + [End(b.id, ok && b.uptodate)];
            && Walked(rs, nrBytes, ok, bios[1..], n - b.size, 0, 0, total + b.size, log')
            && (bios[1..] != [] && n == b.size ==> Stopped(rs, nrBytes, ok, bios[1..], 0, 0, 0, total + b.size, log'))
  {
    hide Fit, WellFormed, Rests, Drop, Ends, Total, InBio, Landed, Len, Bio.Live;
    var b, t := bios[0], bios[1..];
    FitFacts(bios);
    AtStart(b, next, done, n);
    PopBio(bios, n, ok);
    LogMore(log, End(b.id, ok && b.uptodate), Ends(Rests(t), n - b.size, ok));
    if t != [] {
      BioFacts(t);
      BioStart(t[0], n - b.size);
    }
  }

  lemma LogMore(log: seq<End>, e: End, rest: seq<End>)
    ensures log + ([e] + rest) == log + [e] + rest
  {
  }

  lemma WalkVec(rs: seq<Rest>, nrBytes: nat, ok: bool, bios: seq<Bio>, n: nat, done: nat, next: nat, total: nat, log: seq<End>)
    requires bios != [] && n < bios[0].size && Walked(rs, nrBytes, ok, bios, n, done, next, total, log)
    ensures var b := bios[0];
            && next < |b.Live()| && b.idx + next < |b.vecs|
            && var l := b.vecs[b.idx + next].len;
               && (l > n ==> Stopped(rs, nrBytes, ok, bios, n, done + n, next, total + n, log))
               && (l < n ==> Walked(rs, nrBytes, ok, bios, n - l, done + l, next + 1, total + l, log))
               && (l == n ==> Stopped(rs, nrBytes, ok, bios, 0, done + l, next + 1, total + l, log))
  {
    hide Fit, WellFormed, Rests, Drop, Ends, Total, InBio, Landed, Len, Bio.Live;
    var b := bios[0];
    FitFacts(bios);
    MoreVecs(b, next, done, n);
    if b.vecs[b.idx + next].len > n {
      LandInside(b, next, done, n);
    } else {
      NextVec(b, next, done, n);
    }
  }

  lemma WalkedAll(rs: seq<Rest>, nrBytes: nat, ok: bool, n: nat, done: nat, next: nat, total: nat, log: seq<End>)
    requires Walked(rs, nrBytes, ok, [], n, done, next, total, log)
    ensures WellFormed(Rests([])) && Drop(rs, nrBytes, ok) == Drop(Rests([]), n, ok) && Ends(rs, nrBytes, ok) == log + Ends(Rests([]), n, ok)
  {
    hide Fit, Drop, Ends, Total;
    assert Rests([]) == [];
  }

  lemma StoppedAt(rs: seq<Rest>, nrBytes: nat, ok: bool, bios: seq<Bio>, n: nat, done: nat, next: nat, total: nat, log: seq<End>)
    requires Stopped(rs, nrBytes, ok, bios, n, done, next, total, log)
    ensures bios != [] && WellFormed(Rests(bios)) && Landed(bios[0], next, done, n)
    ensures total == nrBytes && Total(rs) + done == Total(Rests(bios)) + total
    ensures Drop(rs, nrBytes, ok) == Drop(Rests(bios), done, ok) && Ends(rs, nrBytes, ok) == log + Ends(Rests(bios), done, ok)
  {
    hide WellFormed, Rests, Drop, Ends, Total, Landed;
  }

  lemma NothingLeft(n: nat, ok: bool)
    ensures Rests([]) == [] && Drop([], n, ok) == [] && Ends([], n, ok) == [] && Total([]) == 0 && WellFormed([])
  {
  }

  lemma BioStart(b: Bio, n: nat)
    ensures InBio(b, 0, 0, n)
    ensures n == 0 && b.size > 0 ==> Landed(b, 0, 0, 0)
  {
    assert b.Live()[..0] == [];
  }

  lemma AtStart(b: Bio, next: nat, done: nat, n: nat)
    requires InBio(b, next, done, n) && n >= b.size
    ensures next == 0 && done == 0
  {
    assert b.Live()[..0] == [];
  }

  lemma BioFacts(bios: seq<Bio>)
    requires bios != [] && WellFormed(Rests(bios))
    ensures var b := bios[0];
            && b.size == Len(b.Live()) && b.size > 0 && b.Live() != []
            && WellFormed(Rests(bios[1..])) && Total(Rests(bios)) == b.size + Total(Rests(bios[1..]))
  {
    var rs := Rests(bios);
    assert rs[0] == RestOf(bios[0]);
    assert rs[1..] == Rests(bios[1..]);
  }

  lemma FitFacts(bios: seq<Bio>)
    requires bios != [] && Fit(Rests(bios))
    ensures var b := bios[0];
            && (b.size > 0 ==> WellFormed(Rests(bios)) && b.size == Len(b.Live()) && b.Live() != [])
            && WellFormed(Rests(bios[1..])) && Fit(Rests(bios[1..])) && Total(Rests(bios)) == b.size + Total(Rests(bios[1..]))
  {
    hide Len, Bio.Live;
    var rs := Rests(bios);
    assert rs[0] == RestOf(bios[0]);
    assert rs[1..] == Rests(bios[1..]);
    if WellFormed(rs) {
      BioFacts(bios);
    }
  }

  lemma PopBio(bios: seq<Bio>, n: nat, ok: bool)
    requires bios != [] && n >= bios[0].size
    ensures Drop(Rests(bios), n, ok) == Drop(Rests(bios[1..]), n - bios[0].size, ok)
    ensures Ends(Rests(bios), n, ok) == [End(bios[0].id, ok && bios[0].uptodate)] + Ends(Rests(bios[1..]), n - bios[0].size, ok)
  {
    assert Rests(bios)[1..] == Rests(bios[1..]);
  }

  lemma LenTake(vs: seq<Vec>, k: nat)
    requires k < |vs|
    ensures Len(vs[..k + 1]) == Len(vs[..k]) + vs[k].len
  {
    assert vs[..k + 1][..k] == vs[..k];
  }

  lemma MoreVecs(b: Bio, next: nat, done: nat, n: nat)
    requires InBio(b, next, done, n) && n < b.size && b.size == Len(b.Live())
    ensures next < |b.Live()| && b.idx + next < |b.vecs| && b.vecs[b.idx + next] == b.Live()[next]
    ensures n + done < b.size
  {
    assert b.Live()[..0] == [];
    assert b.Live()[..|b.Live()|] == b.Live();
  }

  lemma LandInside(b: Bio, next: nat, done: nat, n: nat)
    requires InBio(b, next, done, n) && n + done < b.size && next < |b.Live()| && n < b.Live()[next].len
    ensures Landed(b, next, done + n, n)
  {
    assert b.Live()[..0] == [];
    assert b.Live()[0..] == b.Live();
    assert b.Live()[next..][1..] == b.Live()[next + 1..];
  }

  lemma NextVec(b: Bio, next: nat, done: nat, n: nat)
    requires InBio(b, next, done, n) && n + done < b.size && b.size == Len(b.Live())
    requires next < |b.Live()| && n >= b.Live()[next].len
    ensures var l := b.Live()[next].len;
            && (n > l ==> InBio(b, next + 1, done + l, n - l))
            && (n == l ==> Landed(b, next + 1, done + l, 0))
  {
    hide Len, DropVecs, Bio.Live;
    var vs := b.Live();
    var l := vs[next].len;
    LenTake(vs, next);
    DropStart(vs, next, done, n);
    DropNext(vs, next, n);
    assert done + n == (done + l) + (n - l);
    if n == l {
      RestStarts(vs, next + 1, done + l);
    }
  }

  lemma DropStart(vs: seq<Vec>, next: nat, done: nat, n: nat)
    requires next <= |vs| && done == Len(vs[..next])
    ensures next == 0 ==> done == 0 && DropVecs(vs, done + n) == DropVecs(vs[next..], n)
  {
    assert vs[..0] == [] && vs[0..] == vs;
  }

  lemma DropNext(vs: seq<Vec>, next: nat, n: nat)
    requires next < |vs| && n >= vs[next].len
    ensures n > 0 ==> DropVecs(vs[next..], n) == DropVecs(vs[next + 1..], n - vs[next].len)
    ensures DropVecs(vs[next + 1..], 0) == vs[next + 1..]
  {
    assert vs[next..][1..] == vs[next + 1..];
  }

  lemma RestStarts(vs: seq<Vec>, k: nat, done: nat)
    requires k <= |vs| && done == Len(vs[..k]) < Len(vs)
    ensures k < |vs| && vs[k..] == [vs[k].(offset := vs[k].offset + 0, len := vs[k].len - 0)] + vs[k + 1..]
  {
    hide Len;
    assert vs[..|vs|] == vs;
  }

  lemma LandedIndex(b: Bio, next: nat, done: nat, n: nat)
    requires Landed(b, next, done, n) && done > 0
    ensures b.idx + next < |b.vecs| && b.vecs[b.idx + next] == b.Live()[next] && n <= b.vecs[b.idx + next].len
    ensures done < b.size
  {
  }

  /** The bio after `done` of its bytes, n of them in vector `next`. */
  function PartDone(b: Bio, next: nat, done: nat, n: nat, ok: bool): Bio
    requires done <= b.size && b.idx + next < |b.vecs| && n <= b.vecs[b.idx + next].len
  {
    var k := b.idx + next;
    b.(size := b.size - done, sector := b.sector + done / 512, uptodate := b.uptodate && ok, idx := k,
       vecs := b.vecs[k := b.vecs[k].(offset := b.vecs[k].offset + n, len := b.vecs[k].len - n)])
  }

  /** The partly completed bio is what dropping `done` bytes from it leaves. */
  lemma StayBio(bios: seq<Bio>, next: nat, done: nat, n: nat, ok: bool)
    requires bios != [] && WellFormed(Rests(bios)) && Landed(bios[0], next, done, n)
    ensures Ends(Rests(bios), done, ok) == [] && done < bios[0].size
    ensures done == 0 ==> Drop(Rests(bios), done, ok) == Rests(bios)
    ensures done > 0 ==> bios[0].idx + next < |bios[0].vecs| && n <= bios[0].vecs[bios[0].idx + next].len
    ensures done > 0 ==>
      var left := [PartDone(bios[0], next, done, n, ok)] + bios[1..];
      && Drop(Rests(bios), done, ok) == Rests(left)
      && WellFormed(Rests(left)) && Total(Rests(left)) + done == Total(Rests(bios))
  {
    hide DropVecs, Len, Total, WellFormed, Drop, Ends, Bio.Live, RestOf, Rests, DropBio, PartDone;
    DropsBytes(Rests(bios), done, ok);
    BioFacts(bios);
    FirstRest(bios);
    LandedShort(bios[0], next, done, n);
    StayRest(Rests(bios), done, ok);
    if done > 0 {
      LandedIndex(bios[0], next, done, n);
      StayOne(bios[0], next, done, n, ok);
    }
  }

  lemma LandedShort(b: Bio, next: nat, done: nat, n: nat)
    requires Landed(b, next, done, n)
    ensures done < b.size
  {
    hide DropVecs, Bio.Live;
  }

  lemma FirstRest(bios: seq<Bio>)
    requires bios != []
    ensures var rs := Rests(bios); rs != [] && rs[0] == RestOf(bios[0]) && rs[0].size == bios[0].size
    ensures forall c: Bio :: Rests([c] + bios[1..]) == [RestOf(c)] + Rests(bios)[1..]
  {
  }

  lemma StayRest(rs: seq<Rest>, done: nat, ok: bool)
    requires rs != [] && done < rs[0].size
    ensures Ends(rs, done, ok) == []
    ensures Drop(rs, done, ok) == if done == 0 then rs else [DropBio(rs[0], done, ok)] + rs[1..]
  {
    hide DropVecs;
    assert [rs[0]] + rs[1..] == rs;
  }

  lemma StayOne(b: Bio, next: nat, done: nat, n: nat, ok: bool)
    requires Landed(b, next, done, n) && done > 0 && b.idx + next < |b.vecs| && n <= b.vecs[b.idx + next].len
    ensures RestOf(PartDone(b, next, done, n, ok)) == DropBio(RestOf(b), done, ok)
  {
    hide DropVecs, Len;
    var k := b.idx + next;
    var w := b.vecs[k].(offset := b.vecs[k].offset + n, len := b.vecs[k].len - n);
    LiveFrom(b.vecs, b.idx, next, w);
  }

  lemma LiveFrom(vecs: seq<Vec>, idx: nat, next: nat, w: Vec)
    requires idx + next < |vecs|
    ensures var k := idx + next;
            vecs[k := w][k..] == [w] + vecs[k + 1..] && vecs[idx..][next + 1..] == vecs[k + 1..] && vecs[idx..][next] == vecs[k]
  {
  }

  lemma FirstVec(bios: seq<Bio>)
    requires bios != [] && WellFormed(Rests(bios))
    ensures var b := bios[0]; b.idx < |b.vecs| && b.vecs[b.idx].len <= Total(Rests(bios))
  {
    BioFacts(bios);
    LenFirst(bios[0].Live());
  }

  lemma Recounted(q: Queue, r: Req)
    requires r.bios != [] && WellFormed(Rests(r.bios))
    ensures var (b, n) := Recount(q, r.bios);
            ReqOk(q, r.(bios := b, nr := n)) && Rests(b) == Rests(r.bios)
  {
    hide Recount, Covered, AllVecs, Len;
    BioFacts(r.bios);
    VecsNonEmpty(r.bios);
    RecountOk(q, r.bios);
    var b := Recount(q, r.bios).0;
    RecountRests(q, r.bios);
    assert forall i :: 0 <= i < |r.bios| ==> Rests(r.bios)[i] == RestOf(r.bios[i]);
    forall i | 0 <= i < |b| ensures b[i].Live() != [] {
      assert Rests(r.bios)[i].size > 0;
      NoLen();
    }
  }

  lemma NoLen()
    ensures Len([]) == 0
  {
  }

  lemma RecountRests(q: Queue, bios: seq<Bio>)
    ensures Rests(Recount(q, bios).0) == Rests(bios)
  {
    hide Cut, AllVecs, Len;
  }
}
