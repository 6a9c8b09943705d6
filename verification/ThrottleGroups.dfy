/** The groups of block/blk-throttle.c: their FIFOs, what has gone through their meters, and
    their order on the service tree. */
module ThrottleGroups {
  import opened Throttle
  import opened Lists

  /** bi_size is an unsigned int. */
  type Size = x: nat | x < U32

  datatype Bio = Bio(id: nat, size: Size)

  /** A pair indexed by READ (false) and WRITE (true). */
  datatype RW<T> = RW(read: T, write: T) {
    function At(w: bool): T { if w then write else read }

    function Put(w: bool, x: T): RW<T> { if w then this.(write := x) else this.(read := x) }
  }

  /** struct throtl_grp, with records of what has arrived and left and of every check made. */
  datatype Grp = Grp(
    lim: RW<Limits>, meter: RW<Meter>, list: RW<seq<Bio>>, nr: RW<nat>,
    disptime: nat, onRr: bool, arrived: RW<seq<Bio>>, gone: RW<seq<Bio>>, log: RW<seq<Event>>)
  {
    predicate Queued() { list.read != [] || list.write != [] }

    /** The counters agree with the lists and bios have left in arrival order. */
    predicate Sound() {
      forall w :: lim.At(w).Valid() && nr.At(w) == |list.At(w)| && arrived.At(w) == gone.At(w) + list.At(w)
    }
  }

  function Sum(gs: seq<Grp>, w: bool): nat {
    if gs == [] then 0 else |gs[0].list.At(w)| + Sum(gs[1..], w)
  }

  lemma {:induction false} SumUpdate(gs: seq<Grp>, g: nat, x: Grp, w: bool)
    requires g < |gs|
    ensures Sum(gs[g := x], w) + |gs[g].list.At(w)| == Sum(gs, w) + |x.list.At(w)|
    ensures Sum(gs, w) >= |gs[g].list.At(w)|
  {
    if g == 0 {
      assert gs[g := x][1..] == gs[1..];
    } else {
      assert gs[g := x][1..] == gs[1..][g - 1 := x];
      SumUpdate(gs[1..], g - 1, x, w);
    }
  }

  /** The bios queued by one group, and by all of them. */
  function Held(x: Grp): multiset<Bio> {
    multiset(x.list.read) + multiset(x.list.write)
  }

  function Pending(gs: seq<Grp>): multiset<Bio> {
    if gs == [] then multiset{} else Held(gs[0]) + Pending(gs[1..])
  }

  lemma {:induction false} PendingUpdate(gs: seq<Grp>, g: nat, x: Grp)
    requires g < |gs|
    ensures Pending(gs[g := x]) + Held(gs[g]) == Pending(gs) + Held(x)
  {
    hide Held;
    if g == 0 {
      assert gs[g := x][1..] == gs[1..];
    } else {
      assert gs[g := x][1..] == gs[1..][g - 1 := x];
      PendingUpdate(gs[1..], g - 1, x);
      Carry(Held(gs[0]), Pending(gs[1..][g - 1 := x]), Held(gs[g]), Pending(gs[1..]), Held(x));
    }
  }

  lemma Carry(h: multiset<Bio>, p: multiset<Bio>, a: multiset<Bio>, q: multiset<Bio>, b: multiset<Bio>)
    requires p + a == q + b
    ensures (h + p) + a == (h + q) + b
  {
    assert (h + p) + a == h + (p + a) && (h + q) + b == h + (q + b);
  }

  lemma Settle(p': multiset<Bio>, x: multiset<Bio>, p: multiset<Bio>, y: multiset<Bio>, out: multiset<Bio>, b: multiset<Bio>)
    requires p' + x == p + y && x == y + out
    ensures (b + out) + p' == b + p
  {
    assert forall z :: p'[z] + x[z] == (p' + x)[z] && p[z] + y[z] == (p + y)[z];
  }

  lemma {:induction false} PendingSame(gs: seq<Grp>, gs': seq<Grp>)
    requires |gs| == |gs'| && forall h :: 0 <= h < |gs| ==> gs[h].list == gs'[h].list
    ensures Pending(gs) == Pending(gs')
  {
    if gs != [] {
      PendingSame(gs[1..], gs'[1..]);
    }
  }

  /** From group x as it was to group y as it is, bios left from the front of both lists, reads
      first, onto the end of bl. */
  ghost predicate Leaves(x: Grp, y: Grp, bl: seq<Bio>, bl': seq<Bio>) {
    && |x.list.read| >= |y.list.read| && |x.list.write| >= |y.list.write|
    && var a, b := |x.list.read| - |y.list.read|, |x.list.write| - |y.list.write|;
       && y.list == RW(x.list.read[a..], x.list.write[b..])
       && y.gone == RW(x.gone.read + x.list.read[..a], x.gone.write + x.list.write[..b])
       && bl' == bl + x.list.read[..a] + x.list.write[..b]
  }

  lemma LeavesConserve(gs: seq<Grp>, g: nat, y: Grp, bl: seq<Bio>, bl': seq<Bio>)
    requires g < |gs| && Leaves(gs[g], y, bl, bl')
    ensures multiset(bl') + Pending(gs[g := y]) == multiset(bl) + Pending(gs)
  {
    var x := gs[g];
    var a, b := |x.list.read| - |y.list.read|, |x.list.write| - |y.list.write|;
    assert x.list.read == x.list.read[..a] + x.list.read[a..];
    assert x.list.write == x.list.write[..b] + x.list.write[b..];
    var out := multiset(x.list.read[..a]) + multiset(x.list.write[..b]);
    assert Held(x) == Held(y) + out && multiset(bl') == multiset(bl) + out;
    hide Held, Leaves, Pending;
    PendingUpdate(gs, g, y);
    Settle(Pending(gs[g := y]), Held(x), Pending(gs), Held(y), out, multiset(bl));
  }

  lemma LeavesWhenever(gs: seq<Grp>, g: nat, bl: seq<Bio>)
    requires g < |gs|
    ensures forall y: Grp, bl': seq<Bio> :: Leaves(gs[g], y, bl, bl') ==> multiset(bl') + Pending(gs[g := y]) == multiset(bl) + Pending(gs)
  {
    forall y: Grp, bl': seq<Bio> | Leaves(gs[g], y, bl, bl') ensures multiset(bl') + Pending(gs[g := y]) == multiset(bl) + Pending(gs) {
      LeavesConserve(gs, g, y, bl, bl');
    }
  }

  /** How long the first bio of direction w has to wait. */
  function Wait(cfg: Config, x: Grp, w: bool, now: nat): nat
    requires cfg.Valid() && x.lim.At(w).Valid()
  {
    if x.list.At(w) == [] then U64 - 1
    else MayDispatch(cfg, x.lim.At(w), x.meter.At(w), now, x.list.At(w)[0].size).1.wait
  }

  function Key(gs: seq<Grp>, g: nat): nat {
    if g < |gs| then gs[g].disptime else 0
  }

  ghost predicate Distinct(tree: seq<nat>, n: nat) {
    && (forall i :: 0 <= i < |tree| ==> tree[i] < n)
    && (forall i, j :: 0 <= i < j < |tree| ==> tree[i] != tree[j])
  }

  ghost predicate Sorted(gs: seq<Grp>, tree: seq<nat>) {
    forall i, j :: 0 <= i < j < |tree| ==> Key(gs, tree[i]) <= Key(gs, tree[j])
  }

  /** The tree read in order: each group on it once, earliest dispatch time first. */
  ghost predicate InOrder(gs: seq<Grp>, tree: seq<nat>) {
    Distinct(tree, |gs|) && Sorted(gs, tree)
  }

  /** Where tg_service_tree_add puts a key: after every key that is not greater. */
  function Slot(gs: seq<Grp>, tree: seq<nat>, key: nat): nat {
    if tree == [] || key < Key(gs, tree[0]) then 0 else 1 + Slot(gs, tree[1..], key)
  }

  lemma {:induction false} SlotSplits(gs: seq<Grp>, tree: seq<nat>, key: nat)
    requires Sorted(gs, tree)
    ensures var k := Slot(gs, tree, key);
            && k <= |tree|
            && (forall i :: 0 <= i < k ==> Key(gs, tree[i]) <= key)
            && (forall i :: k <= i < |tree| ==> key < Key(gs, tree[i]))
  {
    if tree != [] && key >= Key(gs, tree[0]) {
      SlotSplits(gs, tree[1..], key);
      var k := Slot(gs, tree[1..], key);
      forall i | 0 <= i < k + 1 ensures Key(gs, tree[i]) <= key {
        if i > 0 { assert tree[i] == tree[1..][i - 1]; }
      }
      forall i | k + 1 <= i < |tree| ensures key < Key(gs, tree[i]) {
        assert tree[i] == tree[1..][i - 1];
      }
    }
  }

  ghost predicate AllSound(gs: seq<Grp>, tree: seq<nat>) {
    InOrder(gs, tree) && forall g :: 0 <= g < |gs| ==> gs[g].Sound() && (gs[g].onRr <==> g in tree)
  }

  lemma UpdateSound(gs: seq<Grp>, tree: seq<nat>, g: nat, x: Grp)
    requires AllSound(gs, tree) && g < |gs| && x.Sound() && x.onRr == gs[g].onRr
    requires x.disptime == gs[g].disptime || !x.onRr
    ensures AllSound(gs[g := x], tree)
  {
    hide Grp.Sound;
    var gs' := gs[g := x];
    forall i, j | 0 <= i < j < |tree| ensures Key(gs', tree[i]) <= Key(gs', tree[j]) {
      assert tree[i] in tree && tree[j] in tree;
      assert Key(gs, tree[i]) <= Key(gs, tree[j]);
    }
  }

  /** throtl_grp_quantum and throtl_quantum */
  const GROUP_QUANTUM: nat := 8
  const QUANTUM: nat := 32

  /** tg_may_dispatch as seen by the group: the meter of direction w may move on. */
  function Asked(cfg: Config, x: Grp, w: bool, now: nat, size: nat): Grp
    requires cfg.Valid() && x.lim.At(w).Valid()
  {
    x.(meter := x.meter.Put(w, MayDispatch(cfg, x.lim.At(w), x.meter.At(w), now, size).0),
       log := x.log.Put(w, x.log.At(w) + [Offer(now, size, false)]))
  }

  /** Would the first bio of direction w be refused now? */
  predicate Refused(cfg: Config, x: Grp, w: bool, now: nat)
    requires cfg.Valid() && x.lim.At(w).Valid()
  {
    x.list.At(w) != [] ==> !MayDispatch(cfg, x.lim.At(w), x.meter.At(w), now, x.list.At(w)[0].size).1.ok
  }

  /** A bio of that size has been asked for and may go. */
  predicate Granted(cfg: Config, x: Grp, w: bool, now: nat, size: nat)
    requires cfg.Valid() && x.lim.At(w).Valid()
  {
    MayDispatch(cfg, x.lim.At(w), x.meter.At(w), now, size) == (x.meter.At(w), Verdict(true, 0))
  }

  /** throtl_charge_bio and throtl_trim_slice for a bio that goes. */
  function Sent(cfg: Config, x: Grp, w: bool, now: nat, bio: Bio): Grp
    requires cfg.Valid()
  {
    x.(gone := x.gone.Put(w, x.gone.At(w) + [bio]),
       meter := x.meter.Put(w, Trim(cfg, x.lim.At(w), Charge(x.meter.At(w), bio.size), now)),
       log := x.log.Put(w, x.log.At(w) + [Offer(now, bio.size, true)]))
  }

  /** tg_dispatch_one_bio: the first bio leaves, is charged, and the slice is trimmed. */
  function Popped(cfg: Config, x: Grp, w: bool, now: nat): Grp
    requires cfg.Valid() && x.list.At(w) != [] && x.nr.At(w) > 0
  {
    Sent(cfg, x, w, now, x.list.At(w)[0])
      .(list := x.list.Put(w, x.list.At(w)[1..]), nr := x.nr.Put(w, x.nr.At(w) - 1))
  }

  // -------------------------------------------------------------- groups and their runs

  function Bytes(bios: seq<Bio>): nat {
    if bios == [] then 0 else Bytes(bios[..|bios| - 1]) + bios[|bios| - 1].size
  }

  const ZERO := Meter(0, 0, 0, 0)

  /** The meter of a limited direction is that of the run of its recorded checks, which let
      through exactly what has gone. */
  ghost predicate Tied(cfg: Config, lim: Limits, m: Meter, gone: seq<Bio>, es: seq<Event>, now: nat) {
    cfg.Valid() && lim.Valid() && !lim.Unlimited() ==>
      if es == [] then m == ZERO && gone == []
      else
        && Ordered(es[0].now, es) && es[|es| - 1].now <= now
        && var f := Run(cfg, lim, es[0].now, es);
           f.m == m && f.bytes == Bytes(gone) && f.ios == |gone|
  }

  ghost predicate Metered(cfg: Config, x: Grp, now: nat) {
    && Tied(cfg, x.lim.read, x.meter.read, x.gone.read, x.log.read, now)
    && Tied(cfg, x.lim.write, x.meter.write, x.gone.write, x.log.write, now)
  }

  ghost predicate AllMetered(cfg: Config, gs: seq<Grp>, now: nat) {
    forall g :: 0 <= g < |gs| ==> Metered(cfg, gs[g], now)
  }

  lemma MeteredUpdate(cfg: Config, gs: seq<Grp>, g: nat, x: Grp, now: nat)
    requires AllMetered(cfg, gs, now) && g < |gs| && Metered(cfg, x, now)
    ensures AllMetered(cfg, gs[g := x], now)
  {
    hide Metered;
  }

  lemma SameMetered(cfg: Config, x: Grp, y: Grp, now: nat)
    requires Metered(cfg, x, now) && y.lim == x.lim && y.meter == x.meter && y.gone == x.gone && y.log == x.log
    ensures Metered(cfg, y, now)
  {
    hide Tied;
  }

  lemma MeteredLater(cfg: Config, gs: seq<Grp>, now: nat, later: nat)
    requires AllMetered(cfg, gs, now) && now <= later
    ensures AllMetered(cfg, gs, later)
  {
    hide Run;
  }

  lemma OrderedAppend(es: seq<Event>, e: Event)
    requires es != [] && Ordered(es[0].now, es) && es[|es| - 1].now <= e.now && e.size < U32
    ensures var fs := es + [e];
            Ordered(fs[0].now, fs) && fs[..|fs| - 1] == es && fs[0] == es[0] && fs[|fs| - 1] == e
  {
    var fs := es + [e];
    assert forall i :: 0 <= i < |es| ==> fs[i] == es[i] && es[i].now <= es[|es| - 1].now;
  }

  /** The first check of a zeroed meter is that of a slice that starts now. */
  lemma FirstAsk(cfg: Config, lim: Limits, now: nat, size: nat)
    requires cfg.Valid() && lim.Valid() && !lim.Unlimited()
    ensures MayDispatch(cfg, lim, ZERO, now, size) == MayDispatch(cfg, lim, NewSlice(cfg, now), now, size)
  {
    hide RoundUp, WithinBps, WithinIops;
    RoundUpBounds(cfg.Slice(), cfg.Slice());
    assert Renew(cfg, ZERO, now) == NewSlice(cfg, now) == Renew(cfg, NewSlice(cfg, now), now);
  }

  /** A bio that may go may still go when asked again, and the meter does not move. */
  lemma GrantStands(cfg: Config, lim: Limits, m: Meter, now: nat, size: nat)
    requires cfg.Valid() && lim.Valid()
    ensures var (m1, v) := MayDispatch(cfg, lim, m, now, size);
            v.ok ==> MayDispatch(cfg, lim, m1, now, size) == (m1, Verdict(true, 0))
  {
    hide RoundUp, WithinBps, WithinIops;
    RoundUpBounds(now + cfg.Slice(), cfg.Slice());
    assert Renew(cfg, Renew(cfg, m, now), now) == Renew(cfg, m, now);
  }

  lemma FirstRun(cfg: Config, lim: Limits, e: Event)
    requires cfg.Valid() && lim.Valid()
    ensures Run(cfg, lim, e.now, [e]) == Step(cfg, lim, Flow(NewSlice(cfg, e.now), 0, 0, e.now), e)
  {
    hide Step;
    assert [e][..0] == [];
  }

  lemma AskTied(cfg: Config, lim: Limits, m: Meter, gone: seq<Bio>, es: seq<Event>, now: nat, size: nat)
    requires Tied(cfg, lim, m, gone, es, now) && cfg.Valid() && lim.Valid() && size < U32
    ensures Tied(cfg, lim, MayDispatch(cfg, lim, m, now, size).0, gone, es + [Offer(now, size, false)], now)
  {
    hide MayDispatch;
    var e := Offer(now, size, false);
    if !lim.Unlimited() {
      if es == [] {
        FirstAsk(cfg, lim, now, size);
        FirstRun(cfg, lim, e);
        assert es + [e] == [e];
      } else {
        OrderedAppend(es, e);
      }
    }
  }

  lemma SentTied(cfg: Config, lim: Limits, m: Meter, gone: seq<Bio>, es: seq<Event>, now: nat, bio: Bio)
    requires Tied(cfg, lim, m, gone, es, now) && cfg.Valid() && lim.Valid()
    requires MayDispatch(cfg, lim, m, now, bio.size) == (m, Verdict(true, 0))
    ensures Tied(cfg, lim, Trim(cfg, lim, Charge(m, bio.size), now), gone + [bio], es + [Offer(now, bio.size, true)], now)
  {
    hide MayDispatch, Trim, Charge;
    if !lim.Unlimited() {
      NotZero(cfg, lim, now, bio.size);
      OrderedAppend(es, Offer(now, bio.size, true));
      assert (gone + [bio])[..|gone|] == gone;
    }
  }

  lemma NotZero(cfg: Config, lim: Limits, now: nat, size: nat)
    requires cfg.Valid() && lim.Valid() && !lim.Unlimited()
    ensures MayDispatch(cfg, lim, ZERO, now, size).0 != ZERO
  {
    hide RoundUp, WithinBps, WithinIops;
    FirstSlice(cfg, now);
    var m1 := Renew(cfg, ZERO, now);
    RoundUpBounds(now + MayDispatch(cfg, lim, ZERO, now, size).1.wait, cfg.Slice());
  }

  lemma AskMetered(cfg: Config, x: Grp, w: bool, now: nat, size: nat)
    requires Metered(cfg, x, now) && cfg.Valid() && x.lim.At(w).Valid() && size < U32
    ensures Metered(cfg, Asked(cfg, x, w, now, size), now)
  {
    hide Tied, MayDispatch;
    AskTied(cfg, x.lim.At(w), x.meter.At(w), x.gone.At(w), x.log.At(w), now, size);
  }

  lemma SentMetered(cfg: Config, x: Grp, w: bool, now: nat, bio: Bio)
    requires Metered(cfg, x, now) && cfg.Valid() && x.lim.At(w).Valid() && Granted(cfg, x, w, now, bio.size)
    ensures Metered(cfg, Sent(cfg, x, w, now, bio), now)
  {
    hide Tied, MayDispatch, Trim, Charge;
    SentTied(cfg, x.lim.At(w), x.meter.At(w), x.gone.At(w), x.log.At(w), now, bio);
  }

  /** The rate bounds for a group whose meters are tied to their runs: what has gone, in bytes
      and in bios, since the first check of that direction. */
  lemma GroupRates(cfg: Config, x: Grp, w: bool, now: nat)
    requires Metered(cfg, x, now) && cfg.Valid() && x.lim.At(w).Valid() && !x.lim.At(w).Unlimited() && x.gone.At(w) != []
    ensures var lim, es := x.lim.At(w), x.log.At(w);
            && es != [] && es[0].now <= now
            && Bytes(x.gone.At(w)) * cfg.hz <= lim.bps * (now - es[0].now + cfg.Slice())
            && |x.gone.At(w)| * cfg.hz <= lim.iops * (now - es[0].now + cfg.Slice())
  {
    hide Run, Config.Slice;
    var lim, es := x.lim.At(w), x.log.At(w);
    assert Tied(cfg, lim, x.meter.At(w), x.gone.At(w), es, now);
    ByteRate(cfg, lim, es[0].now, es);
    IoRate(cfg, lim, es[0].now, es);
    var t, s := es[|es| - 1].now - es[0].now, cfg.Slice();
    MulMono(lim.bps, t + s, now - es[0].now + s);
    MulMono(lim.iops, t + s, now - es[0].now + s);
  }

  lemma PoppedSound(cfg: Config, x: Grp, w: bool, now: nat)
    requires cfg.Valid() && x.Sound() && x.list.At(w) != []
    ensures x.nr.At(w) > 0 && Popped(cfg, x, w, now).Sound()
  {
    hide Trim, Charge;
    var y := Popped(cfg, x, w, now);
    assert x.gone.At(w) + x.list.At(w) == (x.gone.At(w) + [x.list.At(w)[0]]) + x.list.At(w)[1..];
    forall v ensures y.lim.At(v).Valid() && y.nr.At(v) == |y.list.At(v)| && y.arrived.At(v) == y.gone.At(v) + y.list.At(v) {
      assert x.lim.At(v).Valid();
    }
  }

  function Idle(lim: RW<Limits>): Grp {
    Grp(lim, RW(ZERO, ZERO), RW([], []), RW(0, 0), 0, false, RW([], []), RW([], []), RW([], []))
  }

  lemma {:induction false} NoneQueued(gs: seq<Grp>)
    requires forall g :: 0 <= g < |gs| ==> !gs[g].Queued()
    ensures Sum(gs, false) == 0 && Sum(gs, true) == 0
  {
    if gs != [] {
      NoneQueued(gs[1..]);
    }
  }

  lemma Listed(gs: seq<Grp>, tree: seq<nat>, g: nat)
    requires AllSound(gs, tree) && g < |gs|
    ensures gs[g].Queued() <==> gs[g].nr.read > 0 || gs[g].nr.write > 0
  {
    hide InOrder;
    var x := gs[g];
    assert x.nr.At(false) == |x.list.At(false)| && x.nr.At(true) == |x.list.At(true)|;
  }

  lemma FirstIsEarliest(gs: seq<Grp>, tree: seq<nat>)
    requires InOrder(gs, tree) && tree != []
    ensures forall g :: g in tree ==> g < |gs| && gs[tree[0]].disptime <= gs[g].disptime
  {
    forall g | g in tree ensures g < |gs| && gs[tree[0]].disptime <= gs[g].disptime {
      var i :| 0 <= i < |tree| && tree[i] == g;
      if i > 0 { assert Key(gs, tree[0]) <= Key(gs, tree[i]); }
    }
  }

  /** The waits of a group whose first bio of direction w has just been refused. */
  lemma WaitAsked(cfg: Config, x: Grp, z: Grp, w: bool, now: nat, bio: Bio)
    requires cfg.Valid() && x.lim.read.Valid() && x.lim.write.Valid() && x.list.At(w) == []
    requires !MayDispatch(cfg, x.lim.At(w), x.meter.At(w), now, bio.size).1.ok
    requires z.lim == x.lim && z.list == x.list.Put(w, [bio]) && z.meter == Asked(cfg, x, w, now, bio.size).meter
    ensures var y := x.(list := x.list.Put(w, [bio]));
            Wait(cfg, z, false, now) == Wait(cfg, y, false, now) && Wait(cfg, z, true, now) == Wait(cfg, y, true, now)
  {
    hide MayDispatch;
    RefusalStands(cfg, x.lim.At(w), x.meter.At(w), now, bio.size);
  }

  lemma WaitPositive(cfg: Config, lim: Limits, m: Meter, now: nat, size: nat)
    requires cfg.Valid() && lim.Valid()
    ensures var v := MayDispatch(cfg, lim, m, now, size).1; !v.ok ==> v.wait >= 1
  {
    hide MayDispatch;
    if !MayDispatch(cfg, lim, m, now, size).1.ok {
      RefusalStands(cfg, lim, m, now, size);
    }
  }

  lemma SameSound(x: Grp, y: Grp)
    requires x.Sound() && y.lim == x.lim && y.nr == x.nr && y.list == x.list && y.arrived == x.arrived && y.gone == x.gone
    ensures y.Sound()
  {
  }

  lemma CutOrder(gs: seq<Grp>, tree: seq<nat>, k: nat)
    requires InOrder(gs, tree) && k < |tree|
    ensures var t := tree[..k] + tree[k+1..]; var g := tree[k];
            && g < |gs| && InOrder(gs[g := gs[g].(onRr := false)], t)
            && (forall x :: x in t <==> x in tree && x != g)
            && (k > 0 ==> t != [] && t[0] == tree[0])
  {
    hide Sorted, Distinct;
    CutDistinct(tree, |gs|, k);
    CutSorted(gs, tree, k);
  }

  lemma CutDistinct(tree: seq<nat>, n: nat, k: nat)
    requires Distinct(tree, n) && k < |tree|
    ensures var t := tree[..k] + tree[k+1..];
            tree[k] < n && Distinct(t, n) && forall x :: x in t <==> x in tree && x != tree[k]
  {
    var t := tree[..k] + tree[k+1..];
    assert forall i :: 0 <= i < |t| ==> t[i] == tree[if i < k then i else i + 1];
    assert tree == tree[..k] + [tree[k]] + tree[k+1..];
  }

  lemma CutSorted(gs: seq<Grp>, tree: seq<nat>, k: nat)
    requires Sorted(gs, tree) && k < |tree| && tree[k] < |gs|
    ensures Sorted(gs[tree[k] := gs[tree[k]].(onRr := false)], tree[..k] + tree[k+1..])
  {
    var t := tree[..k] + tree[k+1..];
    var gs' := gs[tree[k] := gs[tree[k]].(onRr := false)];
    assert forall i :: 0 <= i < |t| ==> t[i] == tree[if i < k then i else i + 1];
    assert forall x :: Key(gs', x) == Key(gs, x);
  }

  lemma PasteOrder(gs: seq<Grp>, tree: seq<nat>, g: nat)
    requires InOrder(gs, tree) && g < |gs| && g !in tree
    ensures var k := Slot(gs, tree, gs[g].disptime);
            && k <= |tree|
            && var t := tree[..k] + [g] + tree[k..];
            && InOrder(gs[g := gs[g].(onRr := true)], t)
            && (forall x :: x in t <==> x in tree || x == g)
            && (k > 0 ==> t[0] == tree[0]) && (k == 0 ==> t[0] == g)
  {
    hide Slot, Distinct, Sorted;
    SlotSplits(gs, tree, gs[g].disptime);
    var k := Slot(gs, tree, gs[g].disptime);
    PasteMembers(tree, k, g);
    PasteDistinct(tree, |gs|, k, g);
    PasteSorted(gs, tree, k, g);
  }

  lemma PasteDistinct(tree: seq<nat>, n: nat, k: nat, g: nat)
    requires Distinct(tree, n) && k <= |tree| && g < n && g !in tree
    ensures Distinct(tree[..k] + [g] + tree[k..], n)
  {
    var t := tree[..k] + [g] + tree[k..];
    assert forall i :: 0 <= i < |tree| ==> tree[i] in tree;
    forall i, j | 0 <= i < j < |t| ensures t[i] != t[j] {
      PasteAt(tree, k, g, i);
      PasteAt(tree, k, g, j);
    }
  }

  lemma PasteSorted(gs: seq<Grp>, tree: seq<nat>, k: nat, g: nat)
    requires Sorted(gs, tree) && k <= |tree| && g < |gs|
    requires forall i :: 0 <= i < k ==> Key(gs, tree[i]) <= gs[g].disptime
    requires forall i :: k <= i < |tree| ==> gs[g].disptime < Key(gs, tree[i])
    ensures Sorted(gs[g := gs[g].(onRr := true)], tree[..k] + [g] + tree[k..])
  {
    var t := tree[..k] + [g] + tree[k..];
    var gs' := gs[g := gs[g].(onRr := true)];
    assert forall x :: Key(gs', x) == Key(gs, x);
    forall i, j | 0 <= i < j < |t| ensures Key(gs', t[i]) <= Key(gs', t[j]) {
      PasteAt(tree, k, g, i);
      PasteAt(tree, k, g, j);
    }
  }

  lemma PasteAt(tree: seq<nat>, k: nat, g: nat, i: nat)
    requires k <= |tree| && i <= |tree|
    ensures (tree[..k] + [g] + tree[k..])[i] == if i < k then tree[i] else if i == k then g else tree[i - 1]
  {
  }

  lemma PasteMembers(tree: seq<nat>, k: nat, g: nat)
    requires k <= |tree|
    ensures forall x :: x in tree[..k] + [g] + tree[k..] <==> x in tree || x == g
  {
    assert tree == tree[..k] + tree[k..];
  }

  lemma SameLists(gs: seq<Grp>, g: nat, x: Grp)
    requires g < |gs| && x.list == gs[g].list
    ensures Sum(gs[g := x], false) == Sum(gs, false) && Sum(gs[g := x], true) == Sum(gs, true)
  {
    SumUpdate(gs, g, x, false);
    SumUpdate(gs, g, x, true);
  }
}
