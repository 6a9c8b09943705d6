/** The per-queue side of block/blk-throttle.c: the service tree of groups with its cached
    leftmost node, and the dispatch round. */
module ThrottleTree {
  import opened Throttle
  import opened ThrottleGroups
  import opened Lists

  class ThrotlData {
    const cfg: Config
    var groups: seq<Grp>
    var tree: seq<nat>
    var left: Option<nat>        // tg_service_tree.left
    var count: nat               // tg_service_tree.count
    var nrQueued: RW<nat>
    var jiffies: nat             // the clock that every check reads

    /** Groups with the given limits, nothing queued yet. */
    constructor (cfg: Config, limits: seq<RW<Limits>>, now: nat)
      requires cfg.Valid() && forall i :: 0 <= i < |limits| ==> limits[i].read.Valid() && limits[i].write.Valid()
      ensures Valid() && |groups| == |limits| && this.cfg == cfg && jiffies == now
      ensures forall g :: 0 <= g < |groups| ==> groups[g].lim == limits[g] && !groups[g].Queued()
    {
      this.cfg := cfg;
      groups := seq(|limits|, i requires 0 <= i < |limits| => Idle(limits[i]));
      tree, left, count, nrQueued, jiffies := [], None, 0, RW(0, 0), now;
      new;
      NoneQueued(groups);
    }

    /** Everything but the tie between being queued and being on the tree. */
    ghost predicate Sound()
      reads this
    {
      && cfg.Valid()
      && AllSound(groups, tree) && AllMetered(cfg, groups, jiffies) && count == |tree|
      && (left.Some? ==> tree != [] && left.value == tree[0])
      && nrQueued == RW(Sum(groups, false), Sum(groups, true))
    }

    /** A group is on the service tree exactly when it has queued bios, `but` excepted. */
    ghost predicate Busy(but: Option<nat>)
      reads this
    {
      forall g :: 0 <= g < |groups| && but != Some(g) ==> (groups[g].onRr <==> groups[g].Queued())
    }

    ghost predicate Valid()
      reads this
    {
      Sound() && Busy(None)
    }

    /** Groups on the tree whose time has come. */
    ghost function Due(): set<nat>
      reads this
    {
      set g | 0 <= g < |groups| && groups[g].onRr && groups[g].disptime <= jiffies
    }

    /** In every state that the operations below lead to, what has gone of a limited group and
        direction since its first check is within both rates. */
    lemma Rates(g: nat, w: bool)
      requires Valid() && g < |groups| && groups[g].gone.At(w) != []
      requires groups[g].lim.At(w).bps < 0xffff_ffff_ffff_ffff || groups[g].lim.At(w).iops < 0xffff_ffff
      ensures var x := groups[g];
              var lim, es := x.lim.At(w), x.log.At(w);
              && es != [] && es[0].now <= jiffies
              && Bytes(x.gone.At(w)) * cfg.hz <= lim.bps * (jiffies - es[0].now + cfg.hz / 10)
              && |x.gone.At(w)| * cfg.hz <= lim.iops * (jiffies - es[0].now + cfg.hz / 10)
    {
      hide InOrder, Sum, Run, Metered;
      assert groups[g].Sound() && Metered(cfg, groups[g], jiffies);
      GroupRates(cfg, groups[g], w, jiffies);
    }

    /** The clock moves on. */
    method Elapse(d: nat)
      requires Valid()
      modifies `jiffies
      ensures Valid() && jiffies == old(jiffies) + d
    {
      hide AllSound, Sum, AllMetered;
      MeteredLater(cfg, groups, jiffies, jiffies + d);
      jiffies := jiffies + d;
    }

    lemma MeteredSet(y: Grp, g: nat)
      requires AllMetered(cfg, groups, jiffies) && g < |groups| && y.lim == groups[g].lim
      requires y.meter == groups[g].meter && y.gone == groups[g].gone && y.log == groups[g].log
      ensures AllMetered(cfg, groups[g := y], jiffies)
    {
      SameMetered(cfg, groups[g], y, jiffies);
      MeteredUpdate(cfg, groups, g, y, jiffies);
    }

    /** throtl_rb_first: the earliest group, looked up in the tree only when not cached. */
    method RbFirst() returns (tg: Option<nat>)
      requires Sound()
      modifies `left
      ensures Sound()
      ensures tg == if tree == [] then None else Some(tree[0])
    {
      if count == 0 {
        return None;
      }
      if left == None {
        left := Some(tree[0]);
      }
      return left;
    }

    /** throtl_dequeue_tg */
    method Dequeue(g: nat)
      requires Sound() && g < |groups|
      modifies `groups, `tree, `left, `count
      ensures Sound() && groups == old(groups)[g := old(groups)[g].(onRr := false)]
    {
      hide InOrder, Sum, Grp.Sound, Metered, AllMetered;
      if groups[g].onRr {
        var k :| 0 <= k < |tree| && tree[k] == g;
        if left == Some(g) {
          left := None;
        }
        CutOrder(groups, tree, k);
        SameLists(groups, g, groups[g].(onRr := false));
        SameSound(groups[g], groups[g].(onRr := false));
        MeteredSet(groups[g].(onRr := false), g);
        tree := tree[..k] + tree[k+1..];
        count := count - 1;
        groups := groups[g := groups[g].(onRr := false)];
      } else {
        assert groups[g := groups[g].(onRr := false)] == groups;
      }
    }

    /** throtl_enqueue_tg, with tg_service_tree_add */
    method Enqueue(g: nat)
      requires Sound() && g < |groups|
      modifies `groups, `tree, `left, `count
      ensures Sound() && groups == old(groups)[g := old(groups)[g].(onRr := true)]
    {
      hide InOrder, Sum, Grp.Sound, Metered, AllMetered;
      if groups[g].onRr {
        assert groups[g := groups[g].(onRr := true)] == groups;
        return;
      }
      var k := Slot(groups, tree, groups[g].disptime);
      PasteOrder(groups, tree, g);
      if k == 0 {
        left := Some(g);
      }
      SameLists(groups, g, groups[g].(onRr := true));
      SameSound(groups[g], groups[g].(onRr := true));
      MeteredSet(groups[g].(onRr := true), g);
      tree := tree[..k] + [g] + tree[k..];
      count := count + 1;
      groups := groups[g := groups[g].(onRr := true)];
    }
  
    /** throtl_add_bio_tg */
    method AddBio(g: nat, w: bool, bio: Bio)
      requires Sound() && g < |groups|
      modifies `groups, `tree, `left, `count, `nrQueued
      ensures Sound()
      ensures groups == old(groups)[g := old(groups)[g].(
                list := old(groups)[g].list.Put(w, old(groups)[g].list.At(w) + [bio]),
                arrived := old(groups)[g].arrived.Put(w, old(groups)[g].arrived.At(w) + [bio]),
                nr := old(groups)[g].nr.Put(w, old(groups)[g].nr.At(w) + 1), onRr := true)]
    {
      hide InOrder, Sum, Metered, AllMetered;
      var x := groups[g];
      var y := x.(list := x.list.Put(w, x.list.At(w) + [bio]), arrived := x.arrived.Put(w, x.arrived.At(w) + [bio]),
                  nr := x.nr.Put(w, x.nr.At(w) + 1));
      assert y.Sound() by {
        assert x.Sound();
        assert x.gone.At(w) + x.list.At(w) + [bio] == x.gone.At(w) + (x.list.At(w) + [bio]);
      }
      UpdateSound(groups, tree, g, y);
      MeteredSet(y, g);
      SumUpdate(groups, g, y, false);
      SumUpdate(groups, g, y, true);
      groups := groups[g := y];
      nrQueued := nrQueued.Put(w, nrQueued.At(w) + 1);
      Enqueue(g);
    }

    /** tg_may_dispatch for a bio of group g; its BUG_ON asks for the first one queued. A yes
        stands until the bio is charged. */
    method Ask(g: nat, w: bool, bio: Bio) returns (v: Verdict)
      requires Sound() && g < |groups| && (groups[g].list.At(w) != [] ==> bio == groups[g].list.At(w)[0])
      modifies `groups
      ensures Sound() && old(groups)[g].lim.At(w).Valid()
      ensures groups == old(groups)[g := Asked(cfg, old(groups)[g], w, jiffies, bio.size)]
      ensures v == MayDispatch(cfg, old(groups)[g].lim.At(w), old(groups)[g].meter.At(w), jiffies, bio.size).1
      ensures v.ok ==> Granted(cfg, groups[g], w, jiffies, bio.size)
    {
      hide InOrder, Sum, MayDispatch, Metered;
      var x := groups[g];
      assert x.Sound() && x.lim.At(w).Valid();
      var r := MayDispatch(cfg, x.lim.At(w), x.meter.At(w), jiffies, bio.size);
      v := r.1;
      var y := x.(meter := x.meter.Put(w, r.0), log := x.log.Put(w, x.log.At(w) + [Offer(jiffies, bio.size, false)]));
      GrantStands(cfg, x.lim.At(w), x.meter.At(w), jiffies, bio.size);
      AskMetered(cfg, x, w, jiffies, bio.size);
      SameSound(x, y);
      MeteredUpdate(cfg, groups, g, y, jiffies);
      UpdateSound(groups, tree, g, y);
      SameLists(groups, g, y);
      groups := groups[g := y];
    }

    /** tg_dispatch_one_bio */
    method DispatchOne(g: nat, w: bool, bl: seq<Bio>) returns (bl': seq<Bio>)
      requires Sound() && g < |groups| && groups[g].list.At(w) != [] && groups[g].lim.At(w).Valid()
      requires Granted(cfg, groups[g], w, jiffies, groups[g].list.At(w)[0].size)
      modifies `groups, `nrQueued
      ensures Sound() && old(groups)[g].nr.At(w) > 0
      ensures groups == old(groups)[g := Popped(cfg, old(groups)[g], w, jiffies)]
      ensures nrQueued == old(nrQueued).Put(w, nrQueued.At(w)) && nrQueued.At(w) + 1 == old(nrQueued).At(w)
      ensures bl' == bl + [old(groups)[g].list.At(w)[0]]
    {
      hide InOrder, Sum, Trim, Charge, MayDispatch, Metered;
      var x := groups[g];
      PoppedSound(cfg, x, w, jiffies);
      var y := Popped(cfg, x, w, jiffies);
      SentMetered(cfg, x, w, jiffies, x.list.At(w)[0]);
      SameMetered(cfg, Sent(cfg, x, w, jiffies, x.list.At(w)[0]), y, jiffies);
      MeteredUpdate(cfg, groups, g, y, jiffies);
      UpdateSound(groups, tree, g, y);
      SumUpdate(groups, g, y, false);
      SumUpdate(groups, g, y, true);
      groups := groups[g := y];
      assert nrQueued.At(w) > 0;
      nrQueued := nrQueued.Put(w, nrQueued.At(w) - 1);
      bl' := bl + [x.list.At(w)[0]];
    }

    /** The part of a group that dispatching direction w may not touch. */
    static ghost predicate OnlyDir(x: Grp, y: Grp, w: bool) {
      && y.lim == x.lim && y.disptime == x.disptime && y.onRr == x.onRr && y.arrived == x.arrived
      && y.list.At(!w) == x.list.At(!w) && y.meter.At(!w) == x.meter.At(!w) && y.gone.At(!w) == x.gone.At(!w)
    }

    /** One of the two loops of throtl_dispatch_tg: up to `max` bios of direction w leave from
        the front, and if fewer leave, the next one, if any, is refused. */
    method DispatchDir(g: nat, w: bool, max: nat, bl: seq<Bio>) returns (n: nat, bl': seq<Bio>)
      requires Sound() && g < |groups|
      modifies `groups, `nrQueued
      ensures Sound() && |groups| == |old(groups)| && groups == old(groups)[g := groups[g]]
      ensures OnlyDir(old(groups)[g], groups[g], w)
      ensures n <= max && n <= |old(groups)[g].list.At(w)|
      ensures bl' == bl + old(groups)[g].list.At(w)[..n]
      ensures groups[g].gone.At(w) == old(groups)[g].gone.At(w) + old(groups)[g].list.At(w)[..n]
      ensures groups[g].list.At(w) == old(groups)[g].list.At(w)[n..]
      ensures nrQueued == old(nrQueued).Put(w, nrQueued.At(w)) && nrQueued.At(w) + n == old(nrQueued).At(w)
      ensures groups[g].lim.At(w).Valid() && (n < max ==> Refused(cfg, groups[g], w, jiffies))
    {
      hide InOrder, Sum, MayDispatch, Trim, Charge, Metered, AllMetered;
      ghost var l := groups[g].list.At(w);
      n, bl' := 0, bl;
      assert groups[g].Sound() && groups[g].lim.At(w).Valid();
      while n < max && groups[g].list.At(w) != []
        invariant Sound() && |groups| == |old(groups)| && groups == old(groups)[g := groups[g]]
        invariant OnlyDir(old(groups)[g], groups[g], w) && groups[g].lim.At(w).Valid()
        invariant n <= max && n <= |l| && groups[g].list.At(w) == l[n..]
        invariant nrQueued == old(nrQueued).Put(w, nrQueued.At(w)) && nrQueued.At(w) + n == old(nrQueued).At(w)
        invariant bl' == bl + l[..n] && groups[g].gone.At(w) == old(groups)[g].gone.At(w) + l[..n]
        decreases |l| - n
      {
        ghost var x := groups[g];
        var bio := groups[g].list.At(w)[0];
        var v := Ask(g, w, bio);
        if !v.ok {
          RefusalStands(cfg, x.lim.At(w), x.meter.At(w), jiffies, bio.size);
          return;
        }
        bl' := DispatchOne(g, w, bl');
        assert l[..n + 1] == l[..n] + [l[n]];
        n := n + 1;
      }
    }

    /** throtl_dispatch_tg: three quarters of the quantum for reads, the rest for writes. */
    method DispatchTg(g: nat, bl: seq<Bio>) returns (n: nat, bl': seq<Bio>)
      requires Sound() && g < |groups|
      modifies `groups, `nrQueued
      ensures Sound() && |groups| == |old(groups)| && groups == old(groups)[g := groups[g]]
      ensures groups[g].onRr == old(groups)[g].onRr && groups[g].lim == old(groups)[g].lim
      ensures n <= GROUP_QUANTUM && |bl'| == |bl| + n && bl <= bl'
      ensures nrQueued.read + nrQueued.write + n == old(nrQueued.read + nrQueued.write)
      ensures groups[g].arrived == old(groups)[g].arrived
      ensures Leaves(old(groups)[g], groups[g], bl, bl')
      ensures groups[g].lim.read.Valid() && groups[g].lim.write.Valid()
      ensures |groups[g].list.read| + 6 >= |old(groups)[g].list.read| && |groups[g].list.write| + 2 >= |old(groups)[g].list.write|
      ensures |groups[g].list.read| + 6 > |old(groups)[g].list.read| ==> Refused(cfg, groups[g], false, jiffies)
      ensures |groups[g].list.write| + 2 > |old(groups)[g].list.write| ==> Refused(cfg, groups[g], true, jiffies)
      ensures n == 0 ==> Refused(cfg, groups[g], false, jiffies) && Refused(cfg, groups[g], true, jiffies)
    {
      hide InOrder, Sum, MayDispatch, Metered, AllMetered;
      var maxReads := GROUP_QUANTUM * 3 / 4;
      var nrReads, nrWrites;
      nrReads, bl' := DispatchDir(g, false, maxReads, bl);
      nrWrites, bl' := DispatchDir(g, true, GROUP_QUANTUM - maxReads, bl');
      n := nrReads + nrWrites;
    }

    /** The group leaves the tree and goes back under a new key. */
    method Rekey(g: nat, disptime: nat)
      requires Sound() && g < |groups|
      modifies `groups, `tree, `left, `count
      ensures Sound() && groups == old(groups)[g := old(groups)[g].(onRr := true, disptime := disptime)]
    {
      hide InOrder, Sum, Grp.Sound, Metered, AllMetered;
      Dequeue(g);
      var y := groups[g].(disptime := disptime);
      SameSound(groups[g], y);
      MeteredSet(y, g);
      UpdateSound(groups, tree, g, y);
      SameLists(groups, g, y);
      groups := groups[g := y];
      Enqueue(g);
    }

    /** tg_update_disptime: the group goes back on the tree, keyed by the earliest time at
        which one of its first bios may go. */
    method UpdateDisptime(g: nat)
      requires Sound() && g < |groups| && groups[g].Queued()
      modifies `groups, `tree, `left, `count
      ensures Sound() && |groups| == |old(groups)| && groups == old(groups)[g := groups[g]]
      ensures groups[g].onRr && groups[g].list == old(groups)[g].list && groups[g].disptime >= jiffies
      ensures groups[g].arrived == old(groups)[g].arrived && groups[g].gone == old(groups)[g].gone
      ensures old(groups)[g].lim.read.Valid() && old(groups)[g].lim.write.Valid()
      ensures var x := old(groups)[g];
              var r, w := Wait(cfg, x, false, jiffies), Wait(cfg, x, true, jiffies);
              groups[g].disptime == jiffies + if r < w then r else w
      ensures Refused(cfg, old(groups)[g], false, jiffies) && Refused(cfg, old(groups)[g], true, jiffies) ==> groups[g].disptime > jiffies
    {
      hide InOrder, Sum, MayDispatch, Metered, AllMetered;
      ghost var x := groups[g];
      assert x.Sound() && x.lim.At(false).Valid() && x.lim.At(true).Valid();
      var readWait, writeWait := U64 - 1, U64 - 1;
      if groups[g].list.read != [] {
        ghost var bio := groups[g].list.read[0];
        var v := Ask(g, false, groups[g].list.read[0]);
        WaitPositive(cfg, x.lim.read, x.meter.read, jiffies, bio.size);
        readWait := v.wait;
      }
      if groups[g].list.write != [] {
        ghost var bio := groups[g].list.write[0];
        var v := Ask(g, true, groups[g].list.write[0]);
        WaitPositive(cfg, x.lim.write, x.meter.write, jiffies, bio.size);
        writeWait := v.wait;
      }
      var minWait := if readWait < writeWait then readWait else writeWait;
      Rekey(g, jiffies + minWait);
    }

    /** One turn of the loop of throtl_select_dispatch: the first group leaves the tree, some of
        its bios leave, and it goes back on the tree if it has more. If none left, it is no
        longer due. */
    method Turn(g: nat, bl: seq<Bio>) returns (n: nat, bl': seq<Bio>)
      requires Valid() && g in Due()
      modifies this
      ensures Valid() && jiffies == old(jiffies)
      ensures n <= GROUP_QUANTUM && |bl'| == |bl| + n
      ensures nrQueued.read + nrQueued.write + n == old(nrQueued.read + nrQueued.write)
      ensures multiset(bl') + Pending(groups) == multiset(bl) + Pending(old(groups))
      ensures |groups| == |old(groups)| && forall h :: 0 <= h < |groups| && h != g ==> groups[h] == old(groups)[h]
      ensures groups[g].arrived == old(groups)[g].arrived
      ensures n == 0 ==> g !in Due()
    {
      hide Sum, MayDispatch, Grp.Sound, Pending, Leaves, Wait, InOrder, Metered, AllMetered, AllSound;
      ghost var gs := groups;
      Dequeue(g);
      PendingSame(gs, groups);
      LeavesWhenever(groups, g, bl);
      n, bl' := DispatchTg(g, bl);
      ghost var mid := groups;
      Listed(groups, tree, g);
      if groups[g].nr.read > 0 || groups[g].nr.write > 0 {
        UpdateDisptime(g);
        Enqueue(g);
      }
      PendingSame(mid, groups);
    }

    /** throtl_select_dispatch: it ends, and then either the quantum is spent or no group on
        the tree is due. */
    method SelectDispatch() returns (nrDisp: nat, bl: seq<Bio>)
      requires Valid()
      modifies this
      ensures Valid() && jiffies == old(jiffies) && nrDisp == |bl|
      ensures nrDisp >= 32 || Due() == {}
      ensures nrDisp < 40
      ensures nrQueued.read + nrQueued.write + nrDisp == old(nrQueued.read + nrQueued.write)
      ensures multiset(bl) + Pending(groups) == Pending(old(groups))
      ensures |groups| == |old(groups)|
      ensures forall h :: 0 <= h < |groups| && h !in old(Due()) ==> groups[h] == old(groups)[h]
      ensures forall h :: 0 <= h < |groups| ==> groups[h].arrived == old(groups)[h].arrived
    {
      hide Sum, Grp.Sound, Pending, AllMetered;
      nrDisp, bl := 0, [];
      while true
        invariant Valid() && jiffies == old(jiffies) && nrDisp == |bl| && nrDisp < QUANTUM
        invariant nrQueued.read + nrQueued.write + nrDisp == old(nrQueued.read + nrQueued.write)
        invariant multiset(bl) + Pending(groups) == Pending(old(groups))
        invariant |groups| == |old(groups)| && forall h :: 0 <= h < |groups| ==> groups[h].arrived == old(groups)[h].arrived
        invariant forall h :: 0 <= h < |groups| && h !in old(Due()) ==> groups[h] == old(groups)[h]
        decreases QUANTUM - nrDisp, Due()
      {
        var tg := RbFirst();
        if tg == None {
          break;
        }
        var g := tg.value;
        if jiffies < groups[g].disptime {
          FirstIsEarliest(groups, tree);
          break;
        }
        ghost var due := Due();
        var n;
        n, bl := Turn(g, bl);
        nrDisp := nrDisp + n;
        if nrDisp >= QUANTUM {
          break;
        }
        assert g in due && (n == 0 ==> Due() < due);
      }
    }

    /** The bio passes at once: it is charged and the slice trimmed. */
    method PassBio(g: nat, w: bool, bio: Bio)
      requires Sound() && g < |groups| && groups[g].list.At(w) == [] && groups[g].lim.At(w).Valid()
      requires Granted(cfg, groups[g], w, jiffies, bio.size)
      modifies `groups
      ensures Sound()
      ensures var x := old(groups)[g];
              groups == old(groups)[g := Sent(cfg, x, w, jiffies, bio).(arrived := x.arrived.Put(w, x.arrived.At(w) + [bio]))]
    {
      hide InOrder, Sum, MayDispatch, Trim, Charge, Metered;
      var x := groups[g];
      var y := Sent(cfg, x, w, jiffies, bio).(arrived := x.arrived.Put(w, x.arrived.At(w) + [bio]));
      assert y.Sound() by {
        assert x.Sound();
        assert x.gone.At(w) + [] + [bio] == (x.gone.At(w) + [bio]) + [];
      }
      SentMetered(cfg, x, w, jiffies, bio);
      SameMetered(cfg, Sent(cfg, x, w, jiffies, bio), y, jiffies);
      MeteredUpdate(cfg, groups, g, y, jiffies);
      UpdateSound(groups, tree, g, y);
      SameLists(groups, g, y);
      groups := groups[g := y];
    }

    /** blk_throtl_bio: the bio passes at once or joins its group's queue; either way bios of
        one group and direction leave in the order in which they came. */
    method ThrotlBio(g: nat, w: bool, bio: Bio) returns (passed: bool)
      requires Valid() && g < |groups|
      modifies this
      ensures Valid() && |groups| == |old(groups)|
      ensures forall h :: 0 <= h < |groups| && h != g ==> groups[h] == old(groups)[h]
      ensures groups[g].arrived == old(groups)[g].arrived.Put(w, old(groups)[g].arrived.At(w) + [bio])
      ensures jiffies == old(jiffies) && old(groups)[g].lim.read.Valid() && old(groups)[g].lim.write.Valid()
      ensures var x := old(groups)[g];
              passed <==> x.list.At(w) == [] && MayDispatch(cfg, x.lim.At(w), x.meter.At(w), jiffies, bio.size).1.ok
      ensures passed ==> groups[g].list == old(groups)[g].list
      ensures passed ==> groups[g].gone == old(groups)[g].gone.Put(w, old(groups)[g].gone.At(w) + [bio])
      ensures !passed ==> groups[g].list == old(groups)[g].list.Put(w, old(groups)[g].list.At(w) + [bio])
      ensures !passed ==> groups[g].gone == old(groups)[g].gone
      ensures !passed && old(groups)[g].list.At(w) != [] ==> groups[g].disptime == old(groups)[g].disptime
      ensures !passed && old(groups)[g].list.At(w) == [] ==>
                var y := old(groups)[g].(list := old(groups)[g].list.Put(w, [bio]));
                var r, s := Wait(cfg, y, false, jiffies), Wait(cfg, y, true, jiffies);
                groups[g].disptime == jiffies + if r < s then r else s
    {
      hide InOrder, Sum, MayDispatch, Trim, Charge, Metered, AllMetered, Wait;
      ghost var x0 := groups[g];
      assert x0.Sound() && x0.lim.At(false).Valid() && x0.lim.At(true).Valid();
      var update := true;
      if groups[g].nr.At(w) > 0 {
        update := false;
      } else {
        assert groups[g].Sound() && groups[g].list.At(w) == [];
        var v := Ask(g, w, bio);
        if v.ok {
          PassBio(g, w, bio);
          return true;
        }
      }
      passed := false;
      AddBio(g, w, bio);
      if update {
        assert x0.list.At(w) + [bio] == [bio];
        WaitAsked(cfg, x0, groups[g], w, jiffies, bio);
        UpdateDisptime(g);
      }
    }
  }
}
