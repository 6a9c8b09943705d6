/** Intrusive lists of the kernel as sequences of request numbers. */
module Lists {

  datatype Option<T> = None | Some(value: T)

  /** The list without `id`: unlinking an intrusive list node. */
  function Without(s: seq<nat>, id: nat): seq<nat> {
    if s == [] then []
    else if s[0] == id then Without(s[1..], id)
    else [s[0]] + Without(s[1..], id)
  }

  predicate NoDup(s: seq<nat>) {
    forall i, j :: 0 <= i < j < |s| ==> s[i] != s[j]
  }

  lemma {:induction false} WithoutCounts(s: seq<nat>, id: nat)
    ensures multiset(Without(s, id)) == multiset(s)[id := 0]
    ensures id !in s ==> Without(s, id) == s
    ensures forall x :: x in Without(s, id) <==> x in s && x != id
  {
    if s != [] {
      assert s == [s[0]] + s[1..];
      WithoutCounts(s[1..], id);
    }
    assert forall x :: x in Without(s, id) <==> x in multiset(Without(s, id));
    assert forall x :: x in s <==> x in multiset(s);
  }

  /** A node linked once leaves the others in place. */
  lemma {:induction false} WithoutCut(s: seq<nat>, k: nat)
    requires NoDup(s) && k < |s|
    ensures Without(s, s[k]) == s[..k] + s[k + 1..]
  {
    if k == 0 {
      assert s[0] !in s[1..];
      WithoutCounts(s[1..], s[0]);
    } else {
      assert NoDup(s[1..]) by {
        assert forall i :: 0 <= i < |s| - 1 ==> s[1..][i] == s[i + 1];
      }
      WithoutCut(s[1..], k - 1);
      assert s[1..][..k - 1] == s[1..k] && s[1..][k..] == s[k + 1..];
      assert [s[0]] + s[1..k] == s[..k];
    }
  }

  lemma CutNoDup(s: seq<nat>, k: nat)
    requires NoDup(s) && k < |s|
    ensures NoDup(s[..k] + s[k + 1..]) && s[k] !in s[..k] + s[k + 1..]
  {
    var t := s[..k] + s[k + 1..];
    assert forall i :: 0 <= i < |t| ==> t[i] == s[if i < k then i else i + 1];
  }

  lemma CutCount(s: seq<nat>, k: nat)
    requires k < |s|
    ensures multiset(s[..k] + s[k + 1..]) + multiset{s[k]} == multiset(s)
  {
    assert s == s[..k] + [s[k]] + s[k + 1..];
  }

  lemma {:induction false} SameSize(s: seq<nat>, t: seq<nat>)
    requires NoDup(s) && NoDup(t) && forall x :: x in s <==> x in t
    ensures |s| == |t|
    decreases |s|
  {
    assert t != [] ==> t[0] in s;
    if s != [] {
      var n := |s| - 1;
      var x := s[n];
      assert x in t;
      var j :| 0 <= j < |t| && t[j] == x;
      CutNoDup(t, j);
      CutNoDup(s, n);
      CutIn(s, n);
      CutIn(t, j);
      var a, b := s[..n] + s[n + 1..], t[..j] + t[j + 1..];
      forall y ensures y in a <==> y in b {
        assert y in s <==> y in t;
      }
      SameSize(a, b);
    }
  }

  lemma CutIn(s: seq<nat>, k: nat)
    requires NoDup(s) && k < |s|
    ensures forall y :: y in s[..k] + s[k + 1..] <==> y in s && y != s[k]
  {
    CutNoDup(s, k);
    assert s == s[..k] + [s[k]] + s[k + 1..];
  }

  /** One node put in the place of another. */
  lemma PlaceTaken(u: seq<nat>, k: nat, x: nat)
    requires NoDup(u) && k < |u| && x !in u
    ensures NoDup(u[k := x]) && multiset(u[k := x]) + multiset{u[k]} == multiset(u) + multiset{x}
    ensures forall z :: z in u[k := x] <==> (z in u && z != u[k]) || z == x
  {
    PutIn(u, k, x);
    PutCounts(u, k, x);
  }

  lemma PutIn(u: seq<nat>, k: nat, x: nat)
    requires NoDup(u) && k < |u| && x !in u
    ensures NoDup(u[k := x]) && forall z :: z in u[k := x] <==> (z in u && z != u[k]) || z == x
  {
    var f := u[k := x];
    assert f[k] == x;
    forall z | z in u && z != u[k] ensures z in f {
      var i :| 0 <= i < |u| && u[i] == z;
      assert f[i] == z;
    }
  }

  lemma PutCounts(u: seq<nat>, k: nat, x: nat)
    requires k < |u|
    ensures multiset(u[k := x]) + multiset{u[k]} == multiset(u) + multiset{x}
  {
    assert u[k := x] == u[..k] + [x] + u[k + 1..] && u == u[..k] + [u[k]] + u[k + 1..];
  }

  /** list_del: unlink one entry from a list. */
  method Delete(s: seq<nat>, id: nat) returns (t: seq<nat>)
    ensures t == Without(s, id)
  {
    t := [];
    var k := |s|;
    assert s[k..] == [];
    while k > 0
      invariant 0 <= k <= |s|
      invariant t == Without(s[k..], id)
    {
      k := k - 1;
      assert s[k..][1..] == s[k+1..];
      if s[k] != id {
        t := [s[k]] + t;
      }
    }
    assert s[0..] == s;
  }
}
