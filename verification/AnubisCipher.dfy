/** crypto/anubis.c on its buffers: anubis_setkey, and anubis_crypt, anubis_encrypt and
    anubis_decrypt on blocks of sixteen bytes. */
module AnubisInPlace {
  import opened AnubisTables
  import opened Anubis
  import opened AnubisSchedule

  const MAX_ROUNDS: nat := 18
  const MAX_N: nat := 10

  /** Row r of a table of round keys. */
  function Key(k: array2<bv32>, r: nat): Block
    requires r < k.Length0 && k.Length1 == 4
    reads k
  {
    Block(k[r, 0], k[r, 1], k[r, 2], k[r, 3])
  }

  /** The first n round keys. */
  function Keys(k: array2<bv32>, n: nat): seq<Block>
    requires n <= k.Length0 && k.Length1 == 4
    reads k
  {
    seq(n, r requires 0 <= r < n reads k => Key(k, r))
  }

  function WordAt(s: seq<bv8>, i: nat): bv32
    requires i + 4 <= |s|
  {
    Word(s[i], s[i + 1], s[i + 2], s[i + 3])
  }

  function WordBytesOf(w: bv32): (s: seq<bv8>)
    ensures |s| == 4
  {
    [B0(w), B1(w), B2(w), B3(w)]
  }

  function BlockOf(s: seq<bv8>): Block
    requires |s| >= 16
  {
    Block(WordAt(s, 0), WordAt(s, 4), WordAt(s, 8), WordAt(s, 12))
  }

  function BytesOf(b: Block): (s: seq<bv8>)
    ensures |s| == 16
  {
    WordBytesOf(b.w0) + WordBytesOf(b.w1) + WordBytesOf(b.w2) + WordBytesOf(b.w3)
  }

  /** Bytes and words carry the same block. */
  lemma BlockBytes(b: Block, s: seq<bv8>)
    requires |s| == 16
    ensures BlockOf(BytesOf(b)) == b && BytesOf(BlockOf(s)) == s
  {
    hide WordAt, WordBytesOf;
    var t := BytesOf(b);
    Quarters(WordBytesOf(b.w0), WordBytesOf(b.w1), WordBytesOf(b.w2), WordBytesOf(b.w3));
    WordRound(b.w0, t, 0);
    WordRound(b.w1, t, 4);
    WordRound(b.w2, t, 8);
    WordRound(b.w3, t, 12);
    BytesRound(s, 0);
    BytesRound(s, 4);
    BytesRound(s, 8);
    BytesRound(s, 12);
    Whole(s);
  }

  /** Byte j of word i of a block is byte 4 * i + j of the buffer. */
  lemma BlockByte(s: seq<bv8>, j: nat)
    requires |s| >= 16 && j < 4
    ensures var b := BlockOf(s);
            Byte(b.w0, j) == s[j] && Byte(b.w1, j) == s[4 + j] && Byte(b.w2, j) == s[8 + j] && Byte(b.w3, j) == s[12 + j]
  {
    hide Byte, WordAt;
    WordByte(s, 0, j);
    WordByte(s, 4, j);
    WordByte(s, 8, j);
    WordByte(s, 12, j);
  }

  lemma WordByte(s: seq<bv8>, i: nat, j: nat)
    requires i + 4 <= |s| && j < 4
    ensures Byte(WordAt(s, i), j) == s[i + j]
  {
    hide B0, B1, B2, B3, Word;
    WordBytes(s[i], s[i + 1], s[i + 2], s[i + 3]);
  }

  lemma Whole(s: seq<bv8>)
    requires |s| == 16
    ensures s == s[0..4] + s[4..8] + s[8..12] + s[12..16]
  {
  }

  lemma Quarters(a: seq<bv8>, b: seq<bv8>, c: seq<bv8>, d: seq<bv8>)
    requires |a| == |b| == |c| == |d| == 4
    ensures var t := a + b + c + d; t[0..4] == a && t[4..8] == b && t[8..12] == c && t[12..16] == d
  {
  }

  lemma WordRound(w: bv32, s: seq<bv8>, i: nat)
    requires i + 4 <= |s| && s[i..i + 4] == WordBytesOf(w)
    ensures WordAt(s, i) == w
  {
    hide B0, B1, B2, B3, Word;
    assert s[i] == s[i..i + 4][0] && s[i + 1] == s[i..i + 4][1] && s[i + 2] == s[i..i + 4][2] && s[i + 3] == s[i..i + 4][3];
    BytesWord(w);
  }

  lemma BytesRound(s: seq<bv8>, i: nat)
    requires i + 4 <= |s|
    ensures WordBytesOf(WordAt(s, i)) == s[i..i + 4]
  {
    hide B0, B1, B2, B3, Word;
    WordBytes(s[i], s[i + 1], s[i + 2], s[i + 3]);
  }

  class AnubisCtx {
    var rounds: nat
    const E: array2<bv32>
    const D: array2<bv32>

    /** A key is set: D is the inverse schedule of E. */
    ghost predicate Ready()
      reads this, E, D
    {
      && E != D && E.Length0 == MAX_ROUNDS + 1 && D.Length0 == MAX_ROUNDS + 1 && E.Length1 == 4 && D.Length1 == 4
      && 12 <= rounds <= MAX_ROUNDS
      && Keys(D, rounds + 1) == Inverse(Keys(E, rounds + 1))
    }

    constructor ()
      ensures fresh(E) && fresh(D) && E != D
      ensures E.Length0 == MAX_ROUNDS + 1 && D.Length0 == MAX_ROUNDS + 1 && E.Length1 == 4 && D.Length1 == 4
    {
      rounds := 0;
      E := new bv32[MAX_ROUNDS + 1, 4];
      D := new bv32[MAX_ROUNDS + 1, 4];
    }

    /** anubis_setkey.  Any key length but 16, 20, ..., 40 is refused. */
    method SetKey(key: array<bv8>) returns (ok: bool)
      requires E != D && E.Length0 == MAX_ROUNDS + 1 && D.Length0 == MAX_ROUNDS + 1 && E.Length1 == 4 && D.Length1 == 4
      modifies this, E, D
      ensures ok <==> key.Length % 4 == 0 && 16 <= key.Length <= 40
      ensures ok ==> Ready() && rounds == 8 + key.Length / 4 && Keys(E, rounds + 1) == Forward(KeyState(key[..]))
      ensures !ok ==> unchanged(this) && unchanged(E) && unchanged(D)
    {
      hide Inverse, Forward, KeyState, Keys;
      if key.Length !in {16, 20, 24, 28, 32, 36, 40} {
        return false;
      }
      var n := key.Length * 8 / 32;
      rounds := 8 + n;
      var kappa := LoadKey(key, n);
      FillBoth(kappa, n, rounds);
      ok := true;
    }

    /** Both schedules, from the key state. */
    method FillBoth(kappa: array<bv32>, n: nat, R: nat)
      requires E != D && E.Length0 == MAX_ROUNDS + 1 && D.Length0 == MAX_ROUNDS + 1 && E.Length1 == 4 && D.Length1 == 4
      requires kappa.Length == MAX_N && 4 <= n <= MAX_N && R == n + 8
      modifies E, D, kappa
      ensures Keys(E, R + 1) == Forward(old(kappa[..n])) && Keys(D, R + 1) == Inverse(Keys(E, R + 1))
    {
      hide InverseKey, Inverse, Extract, State, Forward, Key;
      ghost var f := Forward(kappa[..n]);
      ForwardAt(kappa[..n]);
      FillForward(kappa, n, R);
      FillInverse(R);
      KeysAre(E, f);
      InverseAt(f);
      KeysAre(D, Inverse(f));
    }

    /** The first part of anubis_setkey: R + 1 round keys, each from a key state. */
    method FillForward(kappa: array<bv32>, n: nat, R: nat)
      requires E.Length0 == MAX_ROUNDS + 1 && E.Length1 == 4 && kappa.Length == MAX_N && 4 <= n <= MAX_N && R == n + 8
      modifies E, kappa
      ensures forall i :: 0 <= i <= R ==> Key(E, i) == Extract(State(old(kappa[..n]), i))
    {
      hide Extract, Evolve, Key, State;
      ghost var k0 := kappa[..n];
      NextState(k0, 0);
      var r := 0;
      while true
        invariant 0 <= r <= R && kappa[..n] == State(k0, r)
        invariant forall i :: 0 <= i < r ==> Key(E, i) == Extract(State(k0, i))
        decreases R - r
      {
        var k := RoundKey(kappa, n);
        PutKey(r, k);
        if r == R {
          break;
        }
        NextState(k0, r);
        EvolveInPlace(kappa, n, RC[r]);
        r := r + 1;
      }
    }

    method PutKey(r: nat, k: Block)
      requires E.Length0 == MAX_ROUNDS + 1 && E.Length1 == 4 && r <= MAX_ROUNDS
      modifies E
      ensures Key(E, r) == k && forall i :: 0 <= i <= MAX_ROUNDS && i != r ==> Key(E, i) == old(Key(E, i))
    {
      E[r, 0], E[r, 1], E[r, 2], E[r, 3] := k.w0, k.w1, k.w2, k.w3;
    }

    /** The last part of anubis_setkey. */
    method FillInverse(R: nat)
      requires E != D && E.Length0 == MAX_ROUNDS + 1 && D.Length0 == MAX_ROUNDS + 1 && E.Length1 == 4 && D.Length1 == 4
      requires 1 <= R <= MAX_ROUNDS
      modifies D
      ensures Key(D, 0) == Key(E, R) && Key(D, R) == Key(E, 0)
      ensures forall r :: 0 < r < R ==> Key(D, r) == InverseKey(Key(E, R - r))
    {
      hide Sbox, InverseWord, T0, T1, T2, T3, T4, Low, B0, B1, B2, B3, Sum;
      var i := 0;
      while i < 4
        invariant i <= 4
        invariant forall j :: 0 <= j < i ==> D[0, j] == E[R, j] && D[R, j] == E[0, j]
      {
        D[0, i] := E[R, i];
        D[R, i] := E[0, i];
        i := i + 1;
      }
      var r := 1;
      while r < R
        invariant 1 <= r <= R
        invariant forall j :: 0 <= j < 4 ==> D[0, j] == E[R, j] && D[R, j] == E[0, j]
        invariant forall k, j :: 0 < k < r && 0 <= j < 4 ==> D[k, j] == InverseWord(E[R - k, j])
      {
        FillRow(r, R);
        r := r + 1;
      }
    }

    /** One inner key of the inverse schedule. */
    method FillRow(r: nat, R: nat)
      requires E != D && E.Length0 == MAX_ROUNDS + 1 && D.Length0 == MAX_ROUNDS + 1 && E.Length1 == 4 && D.Length1 == 4
      requires 0 < r < R <= MAX_ROUNDS
      modifies D
      ensures forall j :: 0 <= j < 4 ==> D[r, j] == InverseWord(E[R - r, j])
      ensures forall k, j :: 0 <= k <= MAX_ROUNDS && k != r && 0 <= j < 4 ==> D[k, j] == old(D[k, j])
    {
      hide InverseWord, T0, T1, T2, T3, T4, Low, B0, B1, B2, B3, Sum;
      var i := 0;
      while i < 4
        invariant i <= 4
        invariant forall j :: 0 <= j < i ==> D[r, j] == InverseWord(E[R - r, j])
        invariant forall k, j :: 0 <= k <= MAX_ROUNDS && k != r && 0 <= j < 4 ==> D[k, j] == old(D[k, j])
      {
        var v := E[R - r, i];
        InverseWordCode(v);
        D[r, i] := Sum(T0(Low(T4(B0(v)))), T1(Low(T4(B1(v)))), T2(Low(T4(B2(v)))), T3(Low(T4(B3(v)))));
        i := i + 1;
      }
    }

    /** anubis_encrypt */
    method Encrypt(dst: array<bv8>, src: array<bv8>)
      requires Ready() && dst.Length == 16 && src.Length == 16
      modifies dst
      ensures dst[..] == BytesOf(Crypt(Keys(E, rounds + 1), BlockOf(old(src[..]))))
    {
      hide Crypt, BytesOf, BlockOf, Inverse;
      AnubisCrypt(E, dst, src, rounds);
    }

    /** anubis_decrypt */
    method Decrypt(dst: array<bv8>, src: array<bv8>)
      requires Ready() && dst.Length == 16 && src.Length == 16
      modifies dst
      ensures dst[..] == BytesOf(Crypt(Keys(D, rounds + 1), BlockOf(old(src[..]))))
    {
      hide Crypt, BytesOf, BlockOf, Inverse;
      AnubisCrypt(D, dst, src, rounds);
    }

    /** With any key set, decrypting an encrypted block gives the block back, and the other way
        round. */
    lemma RoundTrip(p: seq<bv8>)
      requires Ready() && |p| == 16
      ensures BytesOf(Crypt(Keys(D, rounds + 1), BlockOf(BytesOf(Crypt(Keys(E, rounds + 1), BlockOf(p)))))) == p
      ensures BytesOf(Crypt(Keys(E, rounds + 1), BlockOf(BytesOf(Crypt(Keys(D, rounds + 1), BlockOf(p)))))) == p
    {
      hide Crypt, Inverse, BlockOf, BytesOf;
      var e, d := Keys(E, rounds + 1), Keys(D, rounds + 1);
      BlockBytes(Crypt(e, BlockOf(p)), p);
      BlockBytes(Crypt(d, BlockOf(p)), p);
      DecryptEncrypt(e, BlockOf(p));
      EncryptDecrypt(e, BlockOf(p));
    }
  }

  lemma ForwardAt(kappa: seq<bv32>)
    requires 4 <= |kappa| <= MAX_N
    ensures forall r :: 0 <= r < |kappa| + 9 ==> Forward(kappa)[r] == Extract(State(kappa, r))
  {
    hide Extract, State;
  }

  lemma NextState(kappa: seq<bv32>, r: nat)
    requires |kappa| >= 4 && r < |RC|
    ensures State(kappa, 0) == kappa && State(kappa, r + 1) == Evolve(State(kappa, r), RC[r])
  {
    hide Evolve;
  }

  /** Map the cipher key to the initial key state. */
  method LoadKey(key: array<bv8>, n: nat) returns (kappa: array<bv32>)
    requires key.Length == 4 * n && n <= MAX_N
    ensures fresh(kappa) && kappa.Length == MAX_N && kappa[..n] == KeyState(key[..])
  {
    hide Word;
    kappa := new bv32[MAX_N];
    ghost var k := KeyState(key[..]);
    var i := 0;
    while i < n
      invariant i <= n && forall m :: 0 <= m < i ==> kappa[m] == k[m]
    {
      kappa[i] := Word(key[4 * i], key[4 * i + 1], key[4 * i + 2], key[4 * i + 3]);
      assert kappa[i] == k[i];
      i := i + 1;
    }
    assert kappa[..n] == k;
  }

  /** One round key, by Horner's rule from the last word of the key state to the first. */
  method RoundKey(kappa: array<bv32>, n: nat) returns (k: Block)
    requires 1 <= n <= kappa.Length
    ensures k == Extract(kappa[..n])
  {
    hide T4, T5, B0, B1, B2, B3, Turn, Poly, Column;
    var v := kappa[n - 1];
    k := Block(T4(B0(v)), T4(B1(v)), T4(B2(v)), T4(B3(v)));
    LastColumns(kappa[n - 1..n]);
    var i := n - 1;
    while i > 0
      invariant 0 <= i < n && k == Extract(kappa[i..n])
    {
      i := i - 1;
      v := kappa[i];
      NextColumns(kappa[i..n]);
      assert kappa[i..n][1..] == kappa[i + 1..n];
      k := Block(Turn(B0(v), k.w0), Turn(B1(v), k.w1), Turn(B2(v), k.w2), Turn(B3(v), k.w3));
    }
    assert kappa[0..n] == kappa[..n];
  }

  lemma LastColumns(s: seq<bv32>)
    requires |s| == 1
    ensures Extract(s) == Block(T4(B0(s[0])), T4(B1(s[0])), T4(B2(s[0])), T4(B3(s[0])))
  {
    hide T4, B0, B1, B2, B3, Poly;
    assert Column(s, 0) == [B0(s[0])] && Column(s, 1) == [B1(s[0])] && Column(s, 2) == [B2(s[0])] && Column(s, 3) == [B3(s[0])];
    OneTerm(B0(s[0]));
    OneTerm(B1(s[0]));
    OneTerm(B2(s[0]));
    OneTerm(B3(s[0]));
  }

  lemma NextColumns(s: seq<bv32>)
    requires s != []
    ensures var v, k := s[0], Extract(s[1..]);
            Extract(s) == Block(Turn(B0(v), k.w0), Turn(B1(v), k.w1), Turn(B2(v), k.w2), Turn(B3(v), k.w3))
  {
    hide Turn, B0, B1, B2, B3, Poly, Column;
    var v, t := s[0], s[1..];
    FirstByte(s, 0);
    FirstByte(s, 1);
    FirstByte(s, 2);
    FirstByte(s, 3);
    TurnIs(B0(v), Column(t, 0));
    TurnIs(B1(v), Column(t, 1));
    TurnIs(B2(v), Column(t, 2));
    TurnIs(B3(v), Column(t, 3));
  }

  lemma FirstByte(s: seq<bv32>, j: nat)
    requires s != []
    ensures Column(s, j) == [Byte(s[0], j)] + Column(s[1..], j)
  {
    hide Byte;
  }

  /** The step from one key state to the next, through a second array. */
  method EvolveInPlace(kappa: array<bv32>, n: nat, c: bv32)
    requires 4 <= n <= kappa.Length
    modifies kappa
    ensures kappa[..n] == Evolve(old(kappa[..n]), c)
  {
    hide T0, T1, T2, T3, X, B0, B1, B2, B3, Theta, Rotated;
    ghost var k := kappa[..n];
    var inter := new bv32[n];
    var i := 0;
    while i < n
      invariant i <= n && kappa[..n] == k && forall m :: 0 <= m < i ==> inter[m] == Theta(Rotated(k, m))
    {
      var j: int := i;
      var w := T0(B0(kappa[j]));
      j := j - 1;
      if j < 0 {
        j := n - 1;
      }
      w := X(w, T1(B1(kappa[j])));
      j := j - 1;
      if j < 0 {
        j := n - 1;
      }
      w := X(w, T2(B2(kappa[j])));
      j := j - 1;
      if j < 0 {
        j := n - 1;
      }
      w := X(w, T3(B3(kappa[j])));
      inter[i] := w;
      RotatedLookup(k, i);
      i := i + 1;
    }
    kappa[0] := X(inter[0], c);
    i := 1;
    while i < n
      invariant 1 <= i <= n && (forall m :: 0 <= m < n ==> inter[m] == Theta(Rotated(k, m)))
      invariant kappa[0] == X(inter[0], c) && forall m :: 1 <= m < i ==> kappa[m] == inter[m]
    {
      kappa[i] := inter[i];
      i := i + 1;
    }
    assert kappa[..n] == Evolve(k, c);
  }

  lemma RotatedLookup(k: seq<bv32>, i: nat)
    requires |k| >= 4 && i < |k|
    ensures var n := |k|;
            Theta(Rotated(k, i)) == X(X(X(T0(B0(k[i])), T1(B1(k[Behind(i, 1, n)]))), T2(B2(k[Behind(i, 2, n)]))), T3(B3(k[Behind(i, 3, n)])))
  {
    hide T0, T1, T2, T3, X, B0, B1, B2, B3, Theta, Substitute, Behind;
    var n := |k|;
    LookupIs(B0(k[i]), B1(k[Behind(i, 1, n)]), B2(k[Behind(i, 2, n)]), B3(k[Behind(i, 3, n)]));
  }

  lemma KeysAre(k: array2<bv32>, f: seq<Block>)
    requires k.Length1 == 4 && |f| <= k.Length0 && forall i :: 0 <= i < |f| ==> Key(k, i) == f[i]
    ensures Keys(k, |f|) == f
  {
    hide Key;
  }

  lemma InverseAt(f: seq<Block>)
    requires |f| >= 2
    ensures var d, n := Inverse(f), |f| - 1;
            |d| == |f| && d[0] == f[n] && d[n] == f[0] && forall r :: 0 < r < n ==> d[r] == InverseKey(f[n - r])
  {
    hide InverseKey;
  }

  lemma InverseWordCode(v: bv32)
    ensures InverseWord(v) == Sum(T0(Low(T4(B0(v)))), T1(Low(T4(B1(v)))), T2(Low(T4(B2(v)))), T3(Low(T4(B3(v)))))
  {
    hide T0, T1, T2, T3, T4, Low, B0, B1, B2, B3, Sum;
  }

  /** anubis_crypt.  The block is read before any of it is written, so `dst` may be `src`. */
  method AnubisCrypt(roundKey: array2<bv32>, dst: array<bv8>, src: array<bv8>, R: nat)
    requires roundKey.Length1 == 4 && 1 <= R < roundKey.Length0 && dst.Length == 16 && src.Length == 16
    modifies dst
    ensures dst[..] == BytesOf(Crypt(Keys(roundKey, R + 1), BlockOf(old(src[..]))))
  {
    hide Round, LastRound, Xor, Word, B0, B1, B2, B3;
    ghost var keys, p := Keys(roundKey, R + 1), BlockOf(src[..]);
    var s := Load(roundKey, src);
    var r := 1;
    while r < R
      invariant 1 <= r <= R && s == Rounds(keys, p, r - 1)
    {
      s := OneRound(s, roundKey, r);
      r := r + 1;
    }
    s := FinalRound(s, roundKey, R);
    Store(dst, s);
  }

  /** Map the plaintext to the state and add the first key. */
  method Load(roundKey: array2<bv32>, src: array<bv8>) returns (s: Block)
    requires roundKey.Length1 == 4 && 1 <= roundKey.Length0 && src.Length == 16
    ensures s == Xor(BlockOf(src[..]), Key(roundKey, 0))
  {
    hide Word, X;
    s := Block(X(Word(src[0], src[1], src[2], src[3]), roundKey[0, 0]), X(Word(src[4], src[5], src[6], src[7]), roundKey[0, 1]),
               X(Word(src[8], src[9], src[10], src[11]), roundKey[0, 2]), X(Word(src[12], src[13], src[14], src[15]), roundKey[0, 3]));
  }

  method OneRound(s: Block, roundKey: array2<bv32>, r: nat) returns (t: Block)
    requires roundKey.Length1 == 4 && r < roundKey.Length0
    ensures t == Round(s, Key(roundKey, r))
  {
    hide T0, T1, T2, T3, B0, B1, B2, B3, X, Sum;
    var i0 := X(Sum(T0(B0(s.w0)), T1(B0(s.w1)), T2(B0(s.w2)), T3(B0(s.w3))), roundKey[r, 0]);
    var i1 := X(Sum(T0(B1(s.w0)), T1(B1(s.w1)), T2(B1(s.w2)), T3(B1(s.w3))), roundKey[r, 1]);
    var i2 := X(Sum(T0(B2(s.w0)), T1(B2(s.w1)), T2(B2(s.w2)), T3(B2(s.w3))), roundKey[r, 2]);
    var i3 := X(Sum(T0(B3(s.w0)), T1(B3(s.w1)), T2(B3(s.w2)), T3(B3(s.w3))), roundKey[r, 3]);
    t := Block(i0, i1, i2, i3);
  }

  method FinalRound(s: Block, roundKey: array2<bv32>, r: nat) returns (t: Block)
    requires roundKey.Length1 == 4 && r < roundKey.Length0
    ensures t == LastRound(s, Key(roundKey, r))
  {
    hide T0, T1, T2, T3, B0, B1, B2, B3, X, Sum;
    var i0 := X(Sum(T0(B0(s.w0)) & 0xff00_0000, T1(B0(s.w1)) & 0x00ff_0000,
                    T2(B0(s.w2)) & 0x0000_ff00, T3(B0(s.w3)) & 0x0000_00ff), roundKey[r, 0]);
    var i1 := X(Sum(T0(B1(s.w0)) & 0xff00_0000, T1(B1(s.w1)) & 0x00ff_0000,
                    T2(B1(s.w2)) & 0x0000_ff00, T3(B1(s.w3)) & 0x0000_00ff), roundKey[r, 1]);
    var i2 := X(Sum(T0(B2(s.w0)) & 0xff00_0000, T1(B2(s.w1)) & 0x00ff_0000,
                    T2(B2(s.w2)) & 0x0000_ff00, T3(B2(s.w3)) & 0x0000_00ff), roundKey[r, 2]);
    var i3 := X(Sum(T0(B3(s.w0)) & 0xff00_0000, T1(B3(s.w1)) & 0x00ff_0000,
                    T2(B3(s.w2)) & 0x0000_ff00, T3(B3(s.w3)) & 0x0000_00ff), roundKey[r, 3]);
    t := Block(i0, i1, i2, i3);
  }

  /** Map the state to the ciphertext. */
  method Store(dst: array<bv8>, s: Block)
    requires dst.Length == 16
    modifies dst
    ensures dst[..] == BytesOf(s)
  {
    hide B0, B1, B2, B3;
    var b := BytesOf(s);
    forall i | 0 <= i < 16 {
      dst[i] := b[i];
    }
  }
}
