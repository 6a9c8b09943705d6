/** crypto_remove_spawns working in place on the registry's lists. */
module SpawnsInPlace {
  import opened Lists
  import opened Spawns

  class AlgRegistry {
    var users: map<nat, seq<nat>>      // cra_users of each algorithm
    var alg: map<nat, Option<nat>>     // spawn->alg
    const inst: map<nat, nat>          // spawn->inst
    const mask: map<nat, bv32>         // spawn->mask
    const kind: map<nat, bv32>         // cra_flags of each algorithm, but for CRYPTO_ALG_DEAD
    var dead: set<nat>                 // CRYPTO_ALG_DEAD
    var hashed: set<nat>               // instances on their template's list
    const template: set<nat>           // instances whose template can still be held

    ghost function G(): Graph
      reads this
    {
      Graph(users, inst)
    }

    ghost predicate Valid()
      reads this
    {
      && Registry(G(), alg)
      && (forall x :: x in users ==> x in kind) && (forall s :: s in alg ==> s in mask)
    }

    /** crypto_remove_spawn.  The user list of the instance has to be empty by then. */
    method RemoveSpawn(s: nat, list: seq<nat>) returns (r: seq<nat>)
      requires s in inst && inst[s] in users && users[inst[s]] == []
      modifies `dead, `hashed
      ensures dead == old(dead) + {inst[s]}
      ensures hashed == if inst[s] in old(dead) || inst[s] !in template then old(hashed) else old(hashed) - {inst[s]}
      ensures r == if inst[s] in old(dead) || inst[s] !in old(hashed) || inst[s] !in template then list else [inst[s]] + list
    {
      var i := inst[s];
      if i in dead {
        return list;
      }
      dead := dead + {i};
      if i !in hashed {
        return list;
      }
      if i !in template {
        return list;
      }
      r := [i] + list;
      hashed := hashed - {i};
    }

    /** The mask-matching users of a, all of them, are set aside. */
    method SetAside(a: nat) returns (top: seq<nat>)
      requires Valid() && a in users
      modifies `users
      ensures users == old(users)[a := []] && NoDup(top) && forall s :: s in top <==> s in old(users)[a]
    {
      var l := users[a];
      top := [];
      var k := 0;
      var newType := kind[a];
      assert l[0..] == l && users == users[a := l];
      AllName(a);
      while k < |l|
        invariant forall s :: s in l ==> Names(s, a)
        invariant k <= |l| && users == old(users)[a := l[k..]]
        invariant NoDup(top) && forall s :: s in top <==> s in l[..k]
      {
        var s := l[k];
        assert s in l && Names(s, a);
        NoDifference(newType, mask[s]);
        if (kind[alg[s].value] ^ newType) & mask[s] == 0 {
          assert s !in l[..k] && users[a] == l[k..];
          assert l[..k + 1] == l[..k] + [s] && l[k..][1..] == l[k + 1..];
          users := users[a := users[a][1..]];
          top := [s] + top;
        }
        k := k + 1;
      }
      assert l[..|l|] == l && l[|l|..] == [];
    }

    lemma AllName(a: nat)
      requires Valid() && a in users
      ensures NoDup(users[a]) && forall s :: s in users[a] ==> Names(s, a)
    {
      assert forall s :: s in users[a] ==> G().Uses(a, s);
    }

    /** On the list of a, a spawn names a. */
    ghost predicate Names(s: nat, a: nat)
      reads `alg
    {
      s in alg && alg[s] == Some(a) && s in mask && a in kind
    }

    ghost function View(top: seq<nat>, stack: seq<nat>, secondary: seq<nat>, cur: Cursor): Walk
      reads this
    {
      Walk(users, alg, top, stack, secondary, cur)
    }

    /** The inner loop: down to a list that is empty, stacking and cutting off the first
        spawn of each list on the way. */
    method Descend(a: nat, top0: seq<nat>, stack0: seq<nat>, secondary: seq<nat>, cur0: Cursor,
                   ghost g: Graph, ghost alg0: map<nat, Option<nat>>)
      returns (top: seq<nat>, stack: seq<nat>, cur: Cursor)
      requires Registry(g, alg0) && g.inst == inst && Walking(g, alg0, a, View(top0, stack0, secondary, cur0))
      requires forall s :: g.Reaches(a, s) ==> g.Inst(s) != a
      modifies `users, `alg
      ensures Walking(g, alg0, a, View(top, stack, secondary, cur)) && View(top, stack, secondary, cur).Current() == []
      ensures |stack0| <= |stack|
    {
      hide Walking, Registry, Graph.Reaches;
      top, stack, cur := top0, stack0, cur0;
      while true
        invariant Walking(g, alg0, a, View(top, stack, secondary, cur)) && |stack0| <= |stack|
        decreases |alg0| - |stack| - |secondary|
      {
        ghost var w := View(top, stack, secondary, cur);
        var l := match cur case Top => top case UsersOf(x) => if x in users then users[x] else [];
        if l == [] {
          break;
        }
        CurrentFirst(g, alg0, a, w);
        TakeWalking(g, alg0, a, w);
        Room(g, alg0, a, Take(g, w));
        assert |Take(g, w).stack| == |stack| + 1 && Take(g, w).secondary == secondary;
        KnownSpawn(g, alg0, l[0]);
        var s := l[0];
        var i := inst[s];
        assert i != a;
        match cur {
          case Top => top := l[1..];
          case UsersOf(x) => users := users[x := l[1..]];
        }
        stack := [s] + stack;
        alg := alg[s := None];
        cur := UsersOf(i);
        assert View(top, stack, secondary, cur) == Take(g, w);
      }
    }

    /** The nested loops of crypto_remove_spawns with crypto_more_spawns.  Without a
        replacement every spawn on the stack has a NULL alg, so that none is given back. */
    method WalkUsers(a: nat, first: seq<nat>, ghost g: Graph, ghost alg0: map<nat, Option<nat>>) returns (secondary: seq<nat>)
      requires Registry(g, alg0) && g.inst == inst && Walking(g, alg0, a, View(first, [], [], Top))
      requires forall s :: g.Reaches(a, s) ==> g.Inst(s) != a
      modifies `users, `alg
      ensures Walking(g, alg0, a, View([], [], secondary, Top))
    {
      hide Walking, Registry, Graph.Reaches;
      var top: seq<nat>, stack: seq<nat>, cur := first, [], Top;
      secondary := [];
      while true
        invariant Walking(g, alg0, a, View(top, stack, secondary, cur))
        decreases |alg0| - |stack| - |secondary|, |stack|
      {
        top, stack, cur := Descend(a, top, stack, secondary, cur, g, alg0);
        ghost var w := View(top, stack, secondary, cur);
        Room(g, alg0, a, w);
        if stack == [] {
          AtTop(g, alg0, a, w);
          break;
        }
        PopWalking(g, alg0, a, w);
        StackKnown(g, alg0, a, w);
        secondary := [stack[0]] + secondary;
        stack := stack[1..];
        cur := if stack == [] then Top else UsersOf(inst[stack[0]]);
        assert View(top, stack, secondary, cur) == Pop(g, w);
      }
      assert top == [] && stack == [] && cur == Top;
    }

    /** crypto_remove_spawns(a, list, NULL), for an algorithm that nothing reachable from it
        belongs to.  Exactly the reachable spawns lose their algorithm and exactly their
        instances die; those are put on `list`, once, if they were alive, on their template's
        list, and the template could be held. */
    method RemoveSpawns(a: nat) returns (list: seq<nat>)
      requires Valid() && a in users
      requires forall s :: G().Reaches(a, s) ==> G().Inst(s) != a
      modifies this
      ensures Valid() && users.Keys == old(users.Keys) && alg.Keys == old(alg.Keys)
      ensures forall s :: s in alg ==> alg[s] == if old(G()).Reaches(a, s) then None else old(alg)[s]
      ensures forall x :: x in users ==>
        users[x] == if x == a || exists s :: old(G()).Reaches(a, s) && old(G()).Inst(s) == x then [] else old(users)[x]
      ensures forall x :: x in dead <==> x in old(dead) || exists s :: old(G()).Reaches(a, s) && old(G()).Inst(s) == x
      ensures NoDup(list) && hashed == old(hashed) - set x | x in list
      ensures forall x :: x in list <==>
        && x !in old(dead) && x in old(hashed) && x in template
        && exists s :: old(G()).Reaches(a, s) && old(G()).Inst(s) == x
    {
      hide Walking, Registry, Graph.Reaches;
      ghost var g, alg0 := G(), alg;
      var top := SetAside(a);
      StartWalking(g, alg0, a, View(top, [], [], Top));
      var secondary := WalkUsers(a, top, g, alg0);
      ghost var w := View([], [], secondary, Top);
      WalkEnds(g, alg0, a, w);
      StillRegistry(g, alg0, a, w);
      InstKnown(g, alg0, a, w);
      list := RemoveAll(secondary);
      assert forall s :: s in secondary ==> inst[s] == g.Inst(s);
    }

    /** The last loop of crypto_remove_spawns. */
    method RemoveAll(secondary: seq<nat>) returns (list: seq<nat>)
      requires forall s :: s in secondary ==> s in inst && inst[s] in users && users[inst[s]] == []
      modifies `dead, `hashed
      ensures forall x :: x in dead <==> x in old(dead) || exists s :: s in secondary && inst[s] == x
      ensures NoDup(list) && hashed == old(hashed) - set x | x in list
      ensures forall x :: x in list <==> x in dead && x !in old(dead) && x in old(hashed) && x in template
    {
      list := [];
      var k := 0;
      while k < |secondary|
        invariant k <= |secondary|
        invariant forall x :: x in dead <==> x in old(dead) || exists s :: s in secondary[..k] && inst[s] == x
        invariant forall x :: x in list <==> x in dead && x !in old(dead) && x in old(hashed) && x in template
        invariant NoDup(list) && hashed == old(hashed) - set x | x in list
      {
        assert secondary[..k + 1] == secondary[..k] + [secondary[k]];
        list := RemoveSpawn(secondary[k], list);
        k := k + 1;
      }
      assert secondary[..|secondary|] == secondary;
    }
  }

  lemma NoDifference(k: bv32, m: bv32)
    ensures (k ^ k) & m == 0
  {
  }

  lemma TakeWalking(g: Graph, alg: map<nat, Option<nat>>, a: nat, w: Walk)
    requires Registry(g, alg) && Walking(g, alg, a, w) && w.Current() != []
    requires forall s :: g.Reaches(a, s) ==> g.Inst(s) != a
    ensures Walking(g, alg, a, Take(g, w))
  {
    hide Registry, Graph.Reaches, Sorted, Accounted, Placed, Take;
    TakeSorted(g, alg, a, w);
    TakeAccounted(g, alg, a, w);
    TakePlaced(g, alg, a, w);
  }

  /** Each spawn is stacked at most once, so there is room for the walk to end. */
  lemma Room(g: Graph, alg: map<nat, Option<nat>>, a: nat, w: Walk)
    requires Walking(g, alg, a, w)
    ensures |w.stack| + |w.secondary| <= |alg|
  {
    hide Graph.Reaches;
    var l := w.stack + w.secondary;
    assert forall i :: 0 <= i < |l| ==> l[i] == if i < |w.stack| then w.stack[i] else w.secondary[i - |w.stack|];
    assert forall i :: 0 <= i < |w.stack| ==> w.Moved(w.stack[i]);
    assert forall i :: 0 <= i < |w.secondary| ==> w.Moved(w.secondary[i]);
    Fits(l, alg.Keys);
  }

  lemma {:induction false} Fits(l: seq<nat>, m: set<nat>)
    requires NoDup(l) && forall i :: 0 <= i < |l| ==> l[i] in m
    ensures |l| <= |m|
  {
    if l != [] {
      FirstOnce(l);
      Fits(l[1..], m - {l[0]});
    }
  }

  lemma KnownSpawn(g: Graph, alg: map<nat, Option<nat>>, s: nat)
    requires Registry(g, alg) && s in alg
    ensures s in g.inst && g.Inst(s) == g.inst[s] && g.inst[s] in g.users
  {
  }

  lemma StackKnown(g: Graph, alg: map<nat, Option<nat>>, a: nat, w: Walk)
    requires Registry(g, alg) && Walking(g, alg, a, w)
    ensures forall i :: 0 <= i < |w.stack| ==> w.stack[i] in g.inst
  {
    hide Graph.Reaches;
    assert forall i :: 0 <= i < |w.stack| ==> w.Moved(w.stack[i]);
  }

  lemma AtTop(g: Graph, alg: map<nat, Option<nat>>, a: nat, w: Walk)
    requires Walking(g, alg, a, w) && w.stack == []
    ensures w.cur == Top
  {
  }

  lemma StartWalking(g: Graph, alg: map<nat, Option<nat>>, a: nat, w: Walk)
    requires Registry(g, alg) && a in g.users && NoDup(w.top) && forall s :: s in w.top <==> s in g.users[a]
    requires w.users == g.users[a := []] && w.alg == alg && w.stack == [] && w.secondary == [] && w.cur == Top
    ensures Walking(g, alg, a, w)
  {
    hide Graph.Reaches;
  }

  lemma StillRegistry(g: Graph, alg: map<nat, Option<nat>>, a: nat, w: Walk)
    requires Registry(g, alg) && Walking(g, alg, a, w) && w.stack == [] && w.top == []
    ensures Registry(Graph(w.users, g.inst), w.alg)
    ensures w.users.Keys == g.users.Keys && w.alg.Keys == alg.Keys
  {
    hide Graph.Reaches, NoDup;
  }

  lemma InstKnown(g: Graph, alg: map<nat, Option<nat>>, a: nat, w: Walk)
    requires Registry(g, alg) && Walking(g, alg, a, w) && w.stack == [] && w.top == []
    ensures forall s :: s in w.secondary ==>
      s in g.inst && g.Inst(s) == g.inst[s] && g.inst[s] in w.users && w.users[g.inst[s]] == [] && g.Reaches(a, s)
  {
    hide Graph.Reaches, NoDup;
    assert forall s :: s in w.secondary ==> w.Moved(s);
  }
}
