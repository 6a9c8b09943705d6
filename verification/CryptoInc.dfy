/** The big-endian counter increment of crypto/algapi.c: 32-bit words from the end, then the
    bytes left over at the front. */
module CryptoInc {

  newtype Byte = x: int | 0 <= x < 256

  /** The number that the bytes spell, most significant first. */
  function Value(s: seq<Byte>): nat {
    if s == [] then 0 else 256 * Value(s[..|s| - 1]) + s[|s| - 1] as nat
  }

  function Pow256(n: nat): (r: nat)
    ensures r > 0
  {
    if n == 0 then 1 else 256 * Pow256(n - 1)
  }

  /** Increment with carry, byte by byte. */
  function Inc(s: seq<Byte>): (r: seq<Byte>)
    ensures |r| == |s|
  {
    if s == [] then []
    else
      var n := |s| - 1;
      if s[n] == 255 then Inc(s[..n]) + [0] else s[..n] + [s[n] + 1]
  }

  /** be32_to_cpu and cpu_to_be32 */
  function Word(s: seq<Byte>): nat
    requires |s| == 4
  {
    s[0] as nat * 0x100_0000 + s[1] as nat * 0x1_0000 + s[2] as nat * 0x100 + s[3] as nat
  }

  function WordBytes(c: nat): seq<Byte>
    requires c < 0x1_0000_0000
  {
    [(c / 0x100_0000) as Byte, (c / 0x1_0000 % 256) as Byte, (c / 0x100 % 256) as Byte, (c % 256) as Byte]
  }

  lemma {:induction false} ValueBound(s: seq<Byte>)
    ensures Value(s) < Pow256(|s|)
  {
    if s != [] {
      ValueBound(s[..|s| - 1]);
    }
  }

  /** Bytes of one length that spell the same number are the same. */
  lemma {:induction false} ValueInjective(s: seq<Byte>, t: seq<Byte>)
    requires |s| == |t| && Value(s) == Value(t)
    ensures s == t
  {
    if s != [] {
      var n := |s| - 1;
      ValueInjective(s[..n], t[..n]);
      assert s == s[..n] + [s[n]] && t == t[..n] + [t[n]];
    }
  }

  /** The increment adds one, modulo 256 to the number of bytes. */
  lemma {:induction false} IncValue(s: seq<Byte>)
    ensures Value(Inc(s)) == (Value(s) + 1) % Pow256(|s|)
  {
    if s != [] {
      var n := |s| - 1;
      ValueBound(s[..n]);
      if s[n] == 255 {
        IncValue(s[..n]);
        assert (Inc(s[..n]) + [0])[..n] == Inc(s[..n]);
        ModScale(Value(s[..n]) + 1, Pow256(n));
      } else {
        assert (s[..n] + [s[n] + 1])[..n] == s[..n];
        Small(Value(s) + 1, Pow256(n + 1));
      }
    }
  }

  lemma Small(a: nat, m: nat)
    requires a < m
    ensures a % m == a
  {
  }

  lemma ModScale(a: nat, m: nat)
    requires m > 0 && a <= m
    ensures (256 * a) % (256 * m) == 256 * (a % m)
  {
    if a == m {
      Same(m);
      Same(256 * m);
    } else {
      Small(a, m);
      Small(256 * a, 256 * m);
    }
  }

  lemma Same(m: nat)
    requires m > 0
    ensures m % m == 0
  {
  }

  lemma WordValue(s: seq<Byte>)
    requires |s| == 4
    ensures Word(s) == Value(s)
  {
    assert s[..3][..2] == s[..2] && s[..2][..1] == s[..1] && s[..1][..0] == [];
    assert Value(s[..1]) == s[0] as nat;
    assert Value(s[..2]) == 256 * Value(s[..1]) + s[1] as nat;
    assert Value(s[..3]) == 256 * Value(s[..2]) + s[2] as nat;
  }

  lemma WordBytesWord(c: nat)
    requires c < 0x1_0000_0000
    ensures Word(WordBytes(c)) == c
  {
    var a := c / 0x100;
    var b := a / 0x100;
    assert c / 0x1_0000 == b && c / 0x100_0000 == b / 0x100;
    assert c == a * 0x100 + c % 256 && a == b * 0x100 + a % 256;
  }

  const FULL: seq<Byte> := [255, 255, 255, 255]

  /** A word that does not wrap takes the increment; one that does hands on the carry. */
  lemma IncWord(p: seq<Byte>, w: seq<Byte>)
    requires |w| == 4
    ensures var c := (Word(w) + 1) % 0x1_0000_0000;
            Inc(p + w) == if c != 0 then p + WordBytes(c) else Inc(p) + [0, 0, 0, 0]
    ensures Word(w) < 0x1_0000_0000
  {
    WordValue(w);
    ValueBound(w);
    assert Pow256(4) == 0x1_0000_0000;
    IncValue(w);
    IncTail(p, w);
    var c := (Word(w) + 1) % 0x1_0000_0000;
    WordValue(WordBytes(c));
    WordBytesWord(c);
    ValueInjective(Inc(w), WordBytes(c));
    WordValue(FULL);
    if c == 0 {
      assert Value(w) == Value(FULL);
      ValueInjective(w, FULL);
      assert WordBytes(0) == [0, 0, 0, 0];
    } else {
      assert w != FULL;
    }
  }

  predicate AllFull(w: seq<Byte>) {
    forall i :: 0 <= i < |w| ==> w[i] == 255
  }

  lemma IncSnoc(s: seq<Byte>, x: Byte)
    ensures Inc(s + [x]) == if x == 255 then Inc(s) + [0] else s + [x + 1]
  {
    assert (s + [x])[..|s|] == s;
  }

  lemma {:induction false} IncTail(p: seq<Byte>, w: seq<Byte>)
    ensures Inc(p + w) == if AllFull(w) then Inc(p) + Inc(w) else p + Inc(w)
  {
    hide Inc;
    if w == [] {
      assert p + w == p && Inc(p) + Inc(w) == Inc(p);
    } else {
      var n := |w| - 1;
      var u, x := w[..n], w[n];
      assert w == u + [x] && p + w == (p + u) + [x];
      IncSnoc(u, x);
      IncSnoc(p + u, x);
      IncTail(p, u);
      assert AllFull(w) <==> x == 255 && AllFull(u);
      Regroup(p, u, x);
    }
  }

  lemma Regroup(p: seq<Byte>, u: seq<Byte>, x: Byte)
    ensures Inc(p) + Inc(u) + [0] == Inc(p) + (Inc(u) + [0]) && p + Inc(u) + [0] == p + (Inc(u) + [0])
    ensures x != 255 ==> p + u + [x + 1] == p + (u + [x + 1])
  {
    hide Inc;
  }

  /** The buffer part of the way through: n bytes to do, `done` behind them, then the rest. */
  ghost predicate At(a: seq<Byte>, s: seq<Byte>, t: seq<Byte>, done: seq<Byte>, n: nat) {
    n <= |s| && |done| == |s| - n && a == s[..n] + done + t && Inc(s) == Inc(s[..n]) + done
  }

  lemma AtStart(a: seq<Byte>, s: seq<Byte>, t: seq<Byte>)
    requires a == s + t
    ensures At(a, s, t, [], |s|)
  {
    hide Inc;
    assert s[..|s|] == s && Inc(s) + [] == Inc(s);
  }

  /** One byte more. */
  lemma ByteStep(a: seq<Byte>, s: seq<Byte>, t: seq<Byte>, done: seq<Byte>, n: nat)
    requires At(a, s, t, done, n) && n > 0
    ensures n <= |a| && a[n - 1] == s[n - 1]
    ensures a[n - 1] == 255 ==> At(a[n - 1 := 0], s, t, [0] + done, n - 1)
    ensures a[n - 1] != 255 ==> a[n - 1 := a[n - 1] + 1] == Inc(s) + t
  {
    hide Inc;
    var u, x := s[..n - 1], s[n - 1];
    assert s[..n] == u + [x];
    IncSnoc(u, x);
    PutByte(u, x, 0, done, t);
    Behind(Inc(u), 0, done);
    if x != 255 {
      PutByte(u, x, x + 1, done, t);
    }
  }

  lemma PutByte(u: seq<Byte>, x: Byte, y: Byte, done: seq<Byte>, t: seq<Byte>)
    ensures var a := u + [x] + done + t;
            a[|u|] == x && a[|u| := y] == u + [y] + done + t == u + ([y] + done) + t
  {
  }

  lemma Behind(u: seq<Byte>, x: Byte, done: seq<Byte>)
    ensures u + [x] + done == u + ([x] + done)
  {
  }

  /** One word more. */
  lemma WordStep(a: seq<Byte>, s: seq<Byte>, t: seq<Byte>, done: seq<Byte>, n: nat)
    requires At(a, s, t, done, n) && n >= 4
    ensures n <= |a| && Word(a[n - 4..n]) < 0x1_0000_0000
    ensures var c := (Word(a[n - 4..n]) + 1) % 0x1_0000_0000;
            var b := a[..n - 4] + WordBytes(c) + a[n..];
            && (c == 0 ==> At(b, s, t, WordBytes(c) + done, n - 4))
            && (c != 0 ==> b == Inc(s) + t)
  {
    hide Inc, Word, WordBytes;
    var u, w := s[..n - 4], s[n - 4..n];
    assert s[..n] == u + w;
    Parts(u, w, done, t);
    IncWord(u, w);
    var c := (Word(w) + 1) % 0x1_0000_0000;
    ZeroWord(c);
    if c == 0 {
      WordCarries(s, t, done, n);
    } else {
      Together(u, WordBytes(c), done, t);
    }
  }

  lemma WordCarries(s: seq<Byte>, t: seq<Byte>, done: seq<Byte>, n: nat)
    requires 4 <= n <= |s| && |done| == |s| - n && Inc(s) == Inc(s[..n - 4]) + [0, 0, 0, 0] + done
    ensures At(s[..n - 4] + [0, 0, 0, 0] + (done + t), s, t, [0, 0, 0, 0] + done, n - 4)
  {
    hide Inc;
    Together(s[..n - 4], [0, 0, 0, 0], done, t);
    Together(Inc(s[..n - 4]), [0, 0, 0, 0], done, t);
  }

  lemma Together(u: seq<Byte>, w: seq<Byte>, done: seq<Byte>, t: seq<Byte>)
    ensures u + w + done == u + (w + done) && u + w + (done + t) == u + (w + done) + t == (u + w + done) + t
  {
  }

  lemma Parts(u: seq<Byte>, w: seq<Byte>, done: seq<Byte>, t: seq<Byte>)
    ensures var a, n := u + w + done + t, |u| + |w|;
            a[..|u|] == u && a[|u|..n] == w && a[n..] == done + t
  {
  }

  lemma ZeroWord(c: nat)
    requires c < 0x1_0000_0000
    ensures |WordBytes(c)| == 4 && (c == 0 ==> WordBytes(c) == [0, 0, 0, 0])
  {
  }

  /** crypto_inc_byte */
  method IncByte(a: array<Byte>, size: nat)
    requires size <= a.Length
    modifies a
    ensures a[..] == Inc(old(a[..size])) + old(a[size..])
  {
    hide Inc, At;
    ghost var s, t := a[..size], a[size..];
    assert a[..] == s + t;
    AtStart(a[..], s, t);
    ghost var done: seq<Byte> := [];
    var n := size;
    while n > 0
      invariant n <= size && At(a[..], s, t, done, n)
    {
      ByteStep(a[..], s, t, done, n);
      var c: Byte := if a[n - 1] == 255 then 0 else a[n - 1] + 1;
      a[n - 1] := c;
      if c != 0 {
        return;
      }
      done := [0] + done;
      n := n - 1;
    }
    AtEnd(a[..], s, t, done);
  }

  lemma AtEnd(a: seq<Byte>, s: seq<Byte>, t: seq<Byte>, done: seq<Byte>)
    requires At(a, s, t, done, 0)
    ensures a == Inc(s) + t
  {
    assert s[..0] == [] && [] + done == done;
  }

  /** crypto_inc: the first `size` bytes, read as one big-endian number, go up by one and wrap
      at 256 to the size; what follows them is untouched. */
  method CryptoInc(a: array<Byte>, size: nat)
    requires size <= a.Length
    modifies a
    ensures a[..] == Inc(old(a[..size])) + old(a[size..])
    ensures Value(a[..size]) == (Value(old(a[..size])) + 1) % Pow256(size)
  {
    hide Inc, At, Word, WordBytes, Value, Pow256;
    ghost var s, t := a[..size], a[size..];
    IncValue(s);
    assert a[..] == s + t;
    AtStart(a[..], s, t);
    ghost var done: seq<Byte> := [];
    var n := size;
    while n >= 4
      invariant n <= size && At(a[..], s, t, done, n)
    {
      WordStep(a[..], s, t, done, n);
      assert a[..][n - 4..n] == a[n - 4..n] && a[..][..n - 4] == a[..n - 4] && a[..][n..] == a[n..];
      var c := (Word(a[n - 4..n]) + 1) % 0x1_0000_0000;
      PutWord(a, n - 4, c);
      if c != 0 {
        assert a[..size] == Inc(s);
        return;
      }
      done := WordBytes(c) + done;
      n := n - 4;
    }
    Leftover(a[..], s, t, done, n);
    assert a[..][..n] == a[..n] && a[..][n..] == a[n..];
    IncByte(a, n);
    assert a[..size] == Inc(s);
  }

  lemma Leftover(a: seq<Byte>, s: seq<Byte>, t: seq<Byte>, done: seq<Byte>, n: nat)
    requires At(a, s, t, done, n)
    ensures n <= |a| && Inc(a[..n]) + a[n..] == Inc(s) + t
  {
    hide Inc;
    assert a[..n] == s[..n] && a[n..] == done + t;
    assert Inc(s[..n]) + (done + t) == Inc(s[..n]) + done + t;
  }

  method PutWord(a: array<Byte>, k: nat, c: nat)
    requires k + 4 <= a.Length && c < 0x1_0000_0000
    modifies a
    ensures a[..] == old(a[..k]) + WordBytes(c) + old(a[k + 4..])
  {
    var b := WordBytes(c);
    a[k], a[k + 1], a[k + 2], a[k + 3] := b[0], b[1], b[2], b[3];
  }
}
