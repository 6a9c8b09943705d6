/** Taking down what depends on an algorithm, crypto/algapi.c: crypto_remove_spawns without a
    replacement, an iterative walk over the users of an algorithm, the users of those, and on. */
module Spawns {
  import opened Lists

  // -------------------------------------------------------------------- reachable

  /** Who uses what: the spawns on each algorithm's cra_users list, and for each spawn the
      instance it belongs to. */
  datatype Graph = Graph(users: map<nat, seq<nat>>, inst: map<nat, nat>) {
    predicate Uses(x: nat, s: nat) { x in users && s in users[x] }

    /** The instance a spawn belongs to; every registered spawn has one. */
    function Inst(s: nat): nat { if s in inst then inst[s] else s }

    /** p leads from the users of a through the users of instances. */
    ghost predicate Path(a: nat, p: seq<nat>) {
      && p != [] && Uses(a, p[0])
      && (forall i :: 0 < i < |p| ==> Uses(Inst(p[i - 1]), p[i]))
    }

    ghost predicate Reaches(a: nat, s: nat) {
      exists p :: Path(a, p) && p[|p| - 1] == s
    }
  }

  lemma ReachFirst(g: Graph, a: nat, s: nat)
    requires g.Uses(a, s)
    ensures g.Reaches(a, s)
  {
    assert g.Path(a, [s]);
  }

  lemma ReachNext(g: Graph, a: nat, t: nat, s: nat)
    requires g.Reaches(a, t) && g.Uses(g.Inst(t), s)
    ensures g.Reaches(a, s)
  {
    var p :| g.Path(a, p) && p[|p| - 1] == t;
    assert g.Path(a, p + [s]);
  }

  /** A set that holds the users of a and, with a spawn, the users of its instance, holds all
      that can be reached. */
  lemma Closed(g: Graph, a: nat, m: set<nat>)
    requires forall s :: g.Uses(a, s) ==> s in m
    requires forall t, s :: t in m && g.Uses(g.Inst(t), s) ==> s in m
    ensures forall s :: g.Reaches(a, s) ==> s in m
  {
    forall s | g.Reaches(a, s) ensures s in m {
      var p :| g.Path(a, p) && p[|p| - 1] == s;
      PathInside(g, a, m, p);
    }
  }

  lemma {:induction false} PathInside(g: Graph, a: nat, m: set<nat>, p: seq<nat>)
    requires forall s :: g.Uses(a, s) ==> s in m
    requires forall t, s :: t in m && g.Uses(g.Inst(t), s) ==> s in m
    requires g.Path(a, p)
    ensures p[|p| - 1] in m
  {
    var n := |p| - 1;
    if n > 0 {
      assert g.Path(a, p[..n]);
      PathInside(g, a, m, p[..n]);
      assert g.Uses(g.Inst(p[n - 1]), p[n]);
    }
  }

  // ---------------------------------------------------------------------- the walk

  /** The list being walked: the users of the removed algorithm, set aside, or those of an
      instance. */
  datatype Cursor = Top | UsersOf(x: nat)

  /** The state of the walk. */
  datatype Walk = Walk(
    users: map<nat, seq<nat>>, alg: map<nat, Option<nat>>,
    top: seq<nat>, stack: seq<nat>, secondary: seq<nat>, cur: Cursor)
  {
    predicate Moved(s: nat) { s in stack || s in secondary }

    function Current(): seq<nat> {
      match cur
      case Top => top
      case UsersOf(x) => if x in users then users[x] else []
    }
  }

  /** A well-formed registry: a spawn is on the list of the algorithm it names, once, and
      belongs to a known instance. */
  ghost predicate Registry(g: Graph, alg: map<nat, Option<nat>>) {
    && (forall x :: x in g.users ==> NoDup(g.users[x]))
    && (forall x: nat, s: nat :: g.Uses(x, s) ==> s in alg && alg[s] == Some(x))
    && (forall s :: s in alg ==> s in g.inst && g.inst[s] in g.users)
  }

  /** What each list of the walk holds. */
  ghost predicate Sorted(g: Graph, alg: map<nat, Option<nat>>, a: nat, w: Walk) {
    && w.users.Keys == g.users.Keys && w.alg.Keys == alg.Keys && a in g.users && w.users[a] == []
    && (forall s :: s in alg ==> w.alg[s] == if w.Moved(s) then None else alg[s])
    && (forall s :: w.Moved(s) ==> s in alg && g.Reaches(a, s))
    && NoDup(w.stack) && NoDup(w.secondary) && (forall s :: !(s in w.stack && s in w.secondary))
  }

  /** Nothing is lost: a spawn has moved or is where it was. */
  ghost predicate Accounted(g: Graph, a: nat, w: Walk) {
    && NoDup(w.top) && (forall s :: s in w.top <==> g.Uses(a, s) && !w.Moved(s))
    && (forall x :: x in w.users ==> NoDup(w.users[x]))
    && (forall x: nat, s: nat :: x in w.users && x != a ==> (s in w.users[x] <==> g.Uses(x, s) && !w.Moved(s)))
  }

  /** Where the walk stands, and what it leaves behind. */
  ghost predicate Placed(g: Graph, a: nat, w: Walk) {
    && w.cur == (if w.stack == [] then Top else UsersOf(g.Inst(w.stack[0])))
    && (forall s :: s in w.secondary && g.Inst(s) in w.users ==> w.users[g.Inst(s)] == [])
    && (forall x :: x in w.users && x in g.users && x != a && w.users[x] != g.users[x] ==>
          exists s :: w.Moved(s) && g.Inst(s) == x)
  }

  ghost predicate Walking(g: Graph, alg: map<nat, Option<nat>>, a: nat, w: Walk)
  {
    Sorted(g, alg, a, w) && Accounted(g, a, w) && Placed(g, a, w)
  }

  /** One turn of the inner loop: the first spawn of the list is stacked and cut off. */
  function Take(g: Graph, w: Walk): Walk
    requires w.Current() != []
  {
    var s := w.Current()[0];
    var rest := w.Current()[1..];
    var v := match w.cur case Top => w.(top := rest) case UsersOf(x) => w.(users := w.users[x := rest]);
    v.(stack := [s] + w.stack, alg := w.alg[s := None], cur := UsersOf(g.Inst(s)))
  }

  /** crypto_more_spawns on spawns whose alg is NULL */
  function Pop(g: Graph, w: Walk): Walk
    requires w.stack != []
  {
    var rest := w.stack[1..];
    w.(stack := rest, secondary := [w.stack[0]] + w.secondary,
       cur := if rest == [] then Top else UsersOf(g.Inst(rest[0])))
  }

  /** What the walk takes next is still unmoved and reachable. */
  lemma CurrentFirst(g: Graph, alg: map<nat, Option<nat>>, a: nat, w: Walk)
    requires Registry(g, alg) && Walking(g, alg, a, w) && w.Current() != []
    requires forall s :: g.Reaches(a, s) ==> g.Inst(s) != a
    ensures var s := w.Current()[0];
            && s in alg && g.Reaches(a, s) && !w.Moved(s) && g.Inst(s) != a && g.Inst(s) in g.users && NoDup(w.Current())
    ensures w.cur.UsersOf? ==> w.stack != [] && w.cur.x == g.Inst(w.stack[0]) && w.cur.x != a && w.cur.x in w.users
  {
    hide NoDup, Graph.Reaches;
    if w.stack == [] {
      CurrentTop(g, alg, a, w);
    } else {
      CurrentUsers(g, alg, a, w);
    }
  }

  lemma CurrentTop(g: Graph, alg: map<nat, Option<nat>>, a: nat, w: Walk)
    requires Registry(g, alg) && Accounted(g, a, w) && w.cur == Top && w.Current() != []
    ensures var s := w.Current()[0];
            s in alg && g.Reaches(a, s) && !w.Moved(s) && g.Inst(s) in g.users && NoDup(w.Current())
  {
    hide NoDup, Graph.Reaches;
    var s := w.Current()[0];
    assert s in w.top;
    ReachFirst(g, a, s);
  }

  lemma CurrentUsers(g: Graph, alg: map<nat, Option<nat>>, a: nat, w: Walk)
    requires Registry(g, alg) && Sorted(g, alg, a, w) && Accounted(g, a, w)
    requires w.stack != [] && w.cur == UsersOf(g.Inst(w.stack[0])) && w.Current() != []
    requires forall s :: g.Reaches(a, s) ==> g.Inst(s) != a
    ensures var s := w.Current()[0];
            s in alg && g.Reaches(a, s) && !w.Moved(s) && g.Inst(s) in g.users && NoDup(w.Current())
    ensures w.cur.x != a && w.cur.x in w.users
  {
    hide NoDup, Graph.Reaches;
    var s, t := w.Current()[0], w.stack[0];
    assert w.Moved(t);
    assert s in w.users[g.Inst(t)];
    ReachNext(g, a, t, s);
  }

  lemma FirstOnce(l: seq<nat>)
    requires NoDup(l) && l != []
    ensures NoDup(l[1..]) && forall y :: y in l[1..] <==> y in l && y != l[0]
  {
    assert forall i :: 0 <= i < |l| - 1 ==> l[1..][i] == l[i + 1];
    assert forall y :: y in l ==> y == l[0] || y in l[1..];
  }

  lemma TakeSorted(g: Graph, alg: map<nat, Option<nat>>, a: nat, w: Walk)
    requires Registry(g, alg) && Walking(g, alg, a, w) && w.Current() != []
    requires forall s :: g.Reaches(a, s) ==> g.Inst(s) != a
    ensures Sorted(g, alg, a, Take(g, w))
  {
    hide Graph.Reaches, Registry, Accounted, Placed;
    CurrentFirst(g, alg, a, w);
  }

  lemma TakeAccounted(g: Graph, alg: map<nat, Option<nat>>, a: nat, w: Walk)
    requires Registry(g, alg) && Walking(g, alg, a, w) && w.Current() != []
    requires forall s :: g.Reaches(a, s) ==> g.Inst(s) != a
    ensures Accounted(g, a, Take(g, w))
  {
    hide Graph.Reaches, NoDup;
    CurrentFirst(g, alg, a, w);
    FirstOnce(w.Current());
    var s, v := w.Current()[0], Take(g, w);
    var o := if w.cur.Top? then a else w.cur.x;
    assert s in w.Current();
    assert g.Uses(o, s) && alg[s] == Some(o);
    assert forall y :: v.Moved(y) <==> w.Moved(y) || y == s;
    assert forall x: nat :: x != o ==> !g.Uses(x, s);
    forall x: nat, y: nat | x in v.users && x != a ensures y in v.users[x] <==> g.Uses(x, y) && !v.Moved(y) {
      assert y in w.users[x] <==> g.Uses(x, y) && !w.Moved(y);
    }
    forall y ensures y in v.top <==> g.Uses(a, y) && !v.Moved(y) {
      assert y in w.top <==> g.Uses(a, y) && !w.Moved(y);
    }
  }

  lemma TakePlaced(g: Graph, alg: map<nat, Option<nat>>, a: nat, w: Walk)
    requires Registry(g, alg) && Walking(g, alg, a, w) && w.Current() != []
    requires forall s :: g.Reaches(a, s) ==> g.Inst(s) != a
    ensures Placed(g, a, Take(g, w))
  {
    hide Graph.Reaches, Registry, Accounted, NoDup, Graph.Uses;
    CurrentFirst(g, alg, a, w);
  }

  lemma PopWalking(g: Graph, alg: map<nat, Option<nat>>, a: nat, w: Walk)
    requires Registry(g, alg) && Walking(g, alg, a, w) && w.Current() == [] && w.stack != []
    ensures Walking(g, alg, a, Pop(g, w))
  {
    hide Graph.Reaches;
    FirstOnce(w.stack);
    var s := w.stack[0];
    assert w.Moved(s);
    assert forall y :: Pop(g, w).Moved(y) <==> w.Moved(y);
  }

  /** The walk is over: exactly the reachable spawns have moved, the lists of their instances
      and of the algorithm are empty, and every other list is as it was. */
  lemma WalkEnds(g: Graph, alg: map<nat, Option<nat>>, a: nat, w: Walk)
    requires Registry(g, alg) && Walking(g, alg, a, w) && w.stack == [] && w.top == []
    ensures forall s :: s in w.secondary <==> g.Reaches(a, s)
    ensures forall s :: s in alg ==> w.alg[s] == if g.Reaches(a, s) then None else alg[s]
    ensures forall x :: x in g.users ==>
      w.users[x] == if x == a || exists s :: g.Reaches(a, s) && g.Inst(s) == x then [] else g.users[x]
  {
    hide Graph.Reaches, NoDup;
    var m := set s | s in w.secondary;
    forall t, s | t in m && g.Uses(g.Inst(t), s) ensures s in m {
      assert w.Moved(t);
      assert w.users[g.Inst(t)] == [];
    }
    Closed(g, a, m);
  }
}
