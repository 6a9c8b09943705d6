/** The rounds of crypto/anubis.c and why running them with the inverse key schedule undoes
    them. */
module Anubis {
  import opened AnubisTables

  /** The cipher state: four rows of four bytes. */
  datatype Block = Block(w0: bv32, w1: bv32, w2: bv32, w3: bv32)

  function B0(w: bv32): bv8 { (w >> 24) as bv8 }

  function B1(w: bv32): bv8 { ((w >> 16) & 0xff) as bv8 }

  function B2(w: bv32): bv8 { ((w >> 8) & 0xff) as bv8 }

  function B3(w: bv32): bv8 { (w & 0xff) as bv8 }

  /** Exclusive or of words, of bytes, and of four of each. */
  function X(a: bv32, b: bv32): bv32 { a ^ b }

  function Y(a: bv8, b: bv8): bv8 { a ^ b }

  function Sum(a: bv32, b: bv32, c: bv32, d: bv32): bv32 { X(X(X(a, b), c), d) }

  function ByteSum(a: bv8, b: bv8, c: bv8, d: bv8): bv8 { a ^ b ^ c ^ d }

  function Xor(a: Block, b: Block): Block {
    Block(X(a.w0, b.w0), X(a.w1, b.w1), X(a.w2, b.w2), X(a.w3, b.w3))
  }

  // ----------------------------------------------------------------- as the code has it

  function Lookup(a: bv8, b: bv8, c: bv8, d: bv8): bv32 {
    Sum(T0(a), T1(b), T2(c), T3(d))
  }

  /** A full round. */
  function Round(s: Block, k: Block): Block {
    Block(X(Lookup(B0(s.w0), B0(s.w1), B0(s.w2), B0(s.w3)), k.w0),
          X(Lookup(B1(s.w0), B1(s.w1), B1(s.w2), B1(s.w3)), k.w1),
          X(Lookup(B2(s.w0), B2(s.w1), B2(s.w2), B2(s.w3)), k.w2),
          X(Lookup(B3(s.w0), B3(s.w1), B3(s.w2), B3(s.w3)), k.w3))
  }

  function LastLookup(a: bv8, b: bv8, c: bv8, d: bv8): bv32 {
    Sum(T0(a) & 0xff00_0000, T1(b) & 0x00ff_0000, T2(c) & 0x0000_ff00, T3(d) & 0x0000_00ff)
  }

  /** The last round, without diffusion. */
  function LastRound(s: Block, k: Block): Block {
    Block(X(LastLookup(B0(s.w0), B0(s.w1), B0(s.w2), B0(s.w3)), k.w0),
          X(LastLookup(B1(s.w0), B1(s.w1), B1(s.w2), B1(s.w3)), k.w1),
          X(LastLookup(B2(s.w0), B2(s.w1), B2(s.w2), B2(s.w3)), k.w2),
          X(LastLookup(B3(s.w0), B3(s.w1), B3(s.w2), B3(s.w3)), k.w3))
  }

  /** A word of an inner key of the inverse schedule. */
  function InverseWord(v: bv32): bv32 {
    Lookup(Sbox(B0(v)), Sbox(B1(v)), Sbox(B2(v)), Sbox(B3(v)))
  }

  function InverseKey(k: Block): Block {
    Block(InverseWord(k.w0), InverseWord(k.w1), InverseWord(k.w2), InverseWord(k.w3))
  }

  /** The state after the initial key and r full rounds. */
  function Rounds(keys: seq<Block>, p: Block, r: nat): Block
    requires r < |keys|
  {
    if r == 0 then Xor(p, keys[0]) else Round(Rounds(keys, p, r - 1), keys[r])
  }

  /** anubis_crypt with |keys| - 1 rounds */
  function Crypt(keys: seq<Block>, p: Block): Block
    requires |keys| >= 2
  {
    LastRound(Rounds(keys, p, |keys| - 2), keys[|keys| - 1])
  }

  /** The inverse key schedule of anubis_setkey. */
  function Inverse(keys: seq<Block>): (d: seq<Block>)
    ensures |d| == |keys|
  {
    seq(|keys|, r requires 0 <= r < |keys| =>
      if r == 0 || r == |keys| - 1 then keys[|keys| - 1 - r] else InverseKey(keys[|keys| - 1 - r]))
  }

  // -------------------------------------------------------------------- what it means

  /** Diffusion of one row. */
  function Theta(w: bv32): bv32 {
    Sum(Mix0(B0(w)), Mix1(B1(w)), Mix2(B2(w)), Mix3(B3(w)))
  }

  function Diffuse(s: Block): Block {
    Block(Theta(s.w0), Theta(s.w1), Theta(s.w2), Theta(s.w3))
  }

  function Substitute(a: bv8, b: bv8, c: bv8, d: bv8): bv32 {
    Word(Sbox(a), Sbox(b), Sbox(c), Sbox(d))
  }

  /** Substitution and transposition. */
  function Gamma(s: Block): Block {
    Block(Substitute(B0(s.w0), B0(s.w1), B0(s.w2), B0(s.w3)),
          Substitute(B1(s.w0), B1(s.w1), B1(s.w2), B1(s.w3)),
          Substitute(B2(s.w0), B2(s.w1), B2(s.w2), B2(s.w3)),
          Substitute(B3(s.w0), B3(s.w1), B3(s.w2), B3(s.w3)))
  }

  // ------------------------------------------------------------------ bits and bytes

  lemma WordBytes(a: bv8, b: bv8, c: bv8, d: bv8)
    ensures var w := Word(a, b, c, d); B0(w) == a && B1(w) == b && B2(w) == c && B3(w) == d
  {
  }

  lemma BytesWord(w: bv32)
    ensures Word(B0(w), B1(w), B2(w), B3(w)) == w
  {
  }

  lemma ByteXor(v: bv32, w: bv32)
    ensures B0(X(v, w)) == Y(B0(v), B0(w)) && B1(X(v, w)) == Y(B1(v), B1(w))
    ensures B2(X(v, w)) == Y(B2(v), B2(w)) && B3(X(v, w)) == Y(B3(v), B3(w))
  {
    hide B0, B1, B2, B3;
    RawByteXor(v, w);
  }

  lemma RawByteXor(v: bv32, w: bv32)
    ensures B0(v ^ w) == B0(v) ^ B0(w) && B1(v ^ w) == B1(v) ^ B1(w)
    ensures B2(v ^ w) == B2(v) ^ B2(w) && B3(v ^ w) == B3(v) ^ B3(w)
  {
  }

  lemma WordXor(a: bv8, b: bv8, c: bv8, d: bv8, a': bv8, b': bv8, c': bv8, d': bv8)
    ensures X(Word(a, b, c, d), Word(a', b', c', d')) == Word(Y(a, a'), Y(b, b'), Y(c, c'), Y(d, d'))
  {
  }

  lemma XAssoc(a: bv32, b: bv32, c: bv32)
    ensures X(X(a, b), c) == X(a, X(b, c))
  {
  }

  lemma XComm(a: bv32, b: bv32)
    ensures X(a, b) == X(b, a)
  {
  }

  lemma XSwap(a: bv32, b: bv32, c: bv32, d: bv32)
    ensures X(X(a, b), X(c, d)) == X(X(a, c), X(b, d))
  {
    hide X;
    XAssoc(a, b, X(c, d));
    XAssoc(b, c, d);
    XComm(b, c);
    XAssoc(c, b, d);
    XAssoc(a, c, X(b, d));
  }

  lemma SumXor(a: bv32, b: bv32, c: bv32, d: bv32, a': bv32, b': bv32, c': bv32, d': bv32)
    ensures Sum(X(a, a'), X(b, b'), X(c, c'), X(d, d')) == X(Sum(a, b, c, d), Sum(a', b', c', d'))
  {
    hide X;
    XSwap(a, a', b, b');
    XSwap(X(a, b), X(a', b'), c, c');
    XSwap(X(X(a, b), c), X(X(a', b'), c'), d, d');
  }

  lemma SumIs(a: bv32, b: bv32, c: bv32, d: bv32)
    ensures Sum(a, b, c, d) == X(X(a, b), X(c, d))
  {
    hide X;
    XAssoc(X(a, b), c, d);
  }

  lemma ByteSumIs(a: bv8, b: bv8, c: bv8, d: bv8)
    ensures ByteSum(a, b, c, d) == Y(Y(a, b), Y(c, d))
  {
  }

  lemma SwapBytes(a: bv8, b: bv8, c: bv8, d: bv8)
    ensures Y(Y(a, b), Y(c, d)) == Y(Y(a, c), Y(b, d))
  {
    assert (a ^ b) ^ (c ^ d) == (a ^ c) ^ (b ^ d);
  }

  lemma XorAway(a: bv32, b: bv32)
    ensures X(X(a, b), b) == a
  {
  }

  // --------------------------------------------------------------------- diffusion

  function Shl(s: bv8): bv8 { s << 1 }

  predicate Top(s: bv8) { s & 0x80 != 0 }

  lemma DblIs(s: bv8)
    ensures Dbl(s) == if Top(s) then Y(Shl(s), 0x1d) else Shl(s)
  {
  }

  lemma ShlLinear(a: bv8, b: bv8)
    ensures Shl(Y(a, b)) == Y(Shl(a), Shl(b)) && (Top(Y(a, b)) <==> Top(a) != Top(b))
  {
  }

  lemma Reduce(a: bv8, b: bv8, k: bv8)
    ensures Y(Y(a, k), b) == Y(Y(a, b), k) && Y(a, Y(b, k)) == Y(Y(a, b), k) && Y(Y(a, k), Y(b, k)) == Y(a, b)
  {
    hide Y;
    YLaws(a, k, b);
    YLaws(a, b, k);
    SwapBytes(a, k, b, k);
    YLaws(Y(a, b), k, k);
  }

  lemma YLaws(a: bv8, b: bv8, c: bv8)
    ensures Y(Y(a, b), c) == Y(a, Y(b, c)) && Y(b, c) == Y(c, b) && Y(b, b) == 0 && Y(a, 0) == a
  {
  }

  lemma DblLinear(a: bv8, b: bv8)
    ensures Dbl(Y(a, b)) == Y(Dbl(a), Dbl(b))
  {
    hide Dbl, Shl, Top, Y;
    DblIs(a);
    DblIs(b);
    DblIs(Y(a, b));
    ShlLinear(a, b);
    Reduce(Shl(a), Shl(b), 0x1d);
  }

  lemma SixIs(s: bv8)
    ensures Six(s) == Y(Four(s), Dbl(s)) && Four(s) == Dbl(Dbl(s))
  {
  }

  lemma TimesLinear(a: bv8, b: bv8)
    ensures Dbl(Y(a, b)) == Y(Dbl(a), Dbl(b)) && Four(Y(a, b)) == Y(Four(a), Four(b)) && Six(Y(a, b)) == Y(Six(a), Six(b))
  {
    hide Dbl, Four, Six, Y;
    DblLinear(a, b);
    DblLinear(Dbl(a), Dbl(b));
    SixIs(a);
    SixIs(b);
    SixIs(Y(a, b));
    SwapBytes(Four(a), Four(b), Dbl(a), Dbl(b));
  }

  lemma MixLinear(a: bv8, b: bv8)
    ensures Mix0(Y(a, b)) == X(Mix0(a), Mix0(b)) && Mix1(Y(a, b)) == X(Mix1(a), Mix1(b))
    ensures Mix2(Y(a, b)) == X(Mix2(a), Mix2(b)) && Mix3(Y(a, b)) == X(Mix3(a), Mix3(b))
  {
    hide Dbl, Four, Six, Word, X, Y;
    TimesLinear(a, b);
    WordXor(a, Dbl(a), Four(a), Six(a), b, Dbl(b), Four(b), Six(b));
    WordXor(Dbl(a), a, Six(a), Four(a), Dbl(b), b, Six(b), Four(b));
    WordXor(Four(a), Six(a), a, Dbl(a), Four(b), Six(b), b, Dbl(b));
    WordXor(Six(a), Four(a), Dbl(a), a, Six(b), Four(b), Dbl(b), b);
  }

  /** Diffusion is linear, */
  lemma ThetaLinear(v: bv32, w: bv32)
    ensures Theta(X(v, w)) == X(Theta(v), Theta(w))
  {
    hide Mix0, Mix1, Mix2, Mix3, B0, B1, B2, B3, X, Y, Sum;
    ByteXor(v, w);
    MixLinear(B0(v), B0(w));
    MixLinear(B1(v), B1(w));
    MixLinear(B2(v), B2(w));
    MixLinear(B3(v), B3(w));
    SumXor(Mix0(B0(v)), Mix1(B1(v)), Mix2(B2(v)), Mix3(B3(v)), Mix0(B0(w)), Mix1(B1(w)), Mix2(B2(w)), Mix3(B3(w)));
  }

  lemma SumWords(a0: bv8, a1: bv8, a2: bv8, a3: bv8, b0: bv8, b1: bv8, b2: bv8, b3: bv8,
                 c0: bv8, c1: bv8, c2: bv8, c3: bv8, d0: bv8, d1: bv8, d2: bv8, d3: bv8)
    ensures Sum(Word(a0, a1, a2, a3), Word(b0, b1, b2, b3), Word(c0, c1, c2, c3), Word(d0, d1, d2, d3))
         == Word(ByteSum(a0, b0, c0, d0), ByteSum(a1, b1, c1, d1), ByteSum(a2, b2, c2, d2), ByteSum(a3, b3, c3, d3))
  {
    hide X, Y, Sum, ByteSum, Word;
    SumIs(Word(a0, a1, a2, a3), Word(b0, b1, b2, b3), Word(c0, c1, c2, c3), Word(d0, d1, d2, d3));
    WordXor(a0, a1, a2, a3, b0, b1, b2, b3);
    WordXor(c0, c1, c2, c3, d0, d1, d2, d3);
    WordXor(Y(a0, b0), Y(a1, b1), Y(a2, b2), Y(a3, b3), Y(c0, d0), Y(c1, d1), Y(c2, d2), Y(c3, d3));
    ByteSumIs(a0, b0, c0, d0);
    ByteSumIs(a1, b1, c1, d1);
    ByteSumIs(a2, b2, c2, d2);
    ByteSumIs(a3, b3, c3, d3);
  }

  /** 1, 2, 4 and 6 times a byte, times 1, 2, 4 and 6: the sums that the squared matrix asks
      for are the byte itself on the diagonal and nothing elsewhere. */
  lemma Squares(b: bv8)
    ensures var d, q, t := Dbl(b), Four(b), Six(b);
            && ByteSum(b, Dbl(d), Four(q), Six(t)) == b
            && ByteSum(d, d, Six(q), Four(t)) == 0
            && ByteSum(q, Six(d), q, Dbl(t)) == 0
            && ByteSum(t, Four(d), Dbl(q), t) == 0
  {
    hide Dbl, Four, Six, Y, ByteSum;
    var d, q, t := Dbl(b), Four(b), Six(b);
    var e := Dbl(q);
    var f := Dbl(e);
    SixIs(b);
    SixIs(d);
    SixIs(q);
    SixIs(t);
    DblLinear(q, d);
    DblLinear(e, q);
    assert Dbl(t) == Y(e, q) && Four(t) == Y(f, e) && Six(t) == Y(Y(f, e), Y(e, q));
    Cancel(b, d, q, t, e, f);
  }

  lemma Cancel(b: bv8, d: bv8, q: bv8, t: bv8, e: bv8, f: bv8)
    ensures ByteSum(b, q, f, Y(Y(f, e), Y(e, q))) == b
    ensures ByteSum(d, d, Y(f, e), Y(f, e)) == 0
    ensures ByteSum(q, Y(e, q), q, Y(e, q)) == 0
    ensures ByteSum(t, e, e, t) == 0
  {
    assert b ^ q ^ f ^ ((f ^ e) ^ (e ^ q)) == b;
    assert d ^ d ^ (f ^ e) ^ (f ^ e) == 0;
    assert q ^ (e ^ q) ^ q ^ (e ^ q) == 0;
    assert t ^ e ^ e ^ t == 0;
  }

  /** Diffusing the diffusion of one byte gives the byte back in its place. */
  lemma ThetaByte(b: bv8)
    ensures Theta(Mix0(b)) == Word(b, 0, 0, 0) && Theta(Mix1(b)) == Word(0, b, 0, 0)
    ensures Theta(Mix2(b)) == Word(0, 0, b, 0) && Theta(Mix3(b)) == Word(0, 0, 0, b)
  {
    hide Word, Dbl, Four, Six, B0, B1, B2, B3, Sum, ByteSum;
    var d, q, t := Dbl(b), Four(b), Six(b);
    WordBytes(b, d, q, t);
    WordBytes(d, b, t, q);
    WordBytes(q, t, b, d);
    WordBytes(t, q, d, b);
    Squares(b);
    SquaresToo(b);
    SumWords(b, d, q, t, Dbl(d), d, Six(d), Four(d), Four(q), Six(q), q, Dbl(q), Six(t), Four(t), Dbl(t), t);
    SumWords(d, Dbl(d), Four(d), Six(d), Dbl(b), b, Six(b), Four(b), Four(t), Six(t), t, Dbl(t), Six(q), Four(q), Dbl(q), q);
    SumWords(q, Dbl(q), Four(q), Six(q), Dbl(t), t, Six(t), Four(t), Four(b), Six(b), b, Dbl(b), Six(d), Four(d), Dbl(d), d);
    SumWords(t, Dbl(t), Four(t), Six(t), Dbl(q), q, Six(q), Four(q), Four(d), Six(d), d, Dbl(d), Six(b), Four(b), Dbl(b), b);
  }

  /** The other three rows of the squared matrix. */
  lemma SquaresToo(b: bv8)
    ensures var d, q, t := Dbl(b), Four(b), Six(b);
            && ByteSum(d, Dbl(b), Four(t), Six(q)) == 0 && ByteSum(Dbl(d), b, Six(t), Four(q)) == b
            && ByteSum(Four(d), Six(b), t, Dbl(q)) == 0 && ByteSum(Six(d), Four(b), Dbl(t), q) == 0
            && ByteSum(q, Dbl(t), Four(b), Six(d)) == 0 && ByteSum(Dbl(q), t, Six(b), Four(d)) == 0
            && ByteSum(Four(q), Six(t), b, Dbl(d)) == b && ByteSum(Six(q), Four(t), Dbl(b), d) == 0
            && ByteSum(t, Dbl(q), Four(d), Six(b)) == 0 && ByteSum(Dbl(t), q, Six(d), Four(b)) == 0
            && ByteSum(Four(t), Six(q), d, Dbl(b)) == 0 && ByteSum(Six(t), Four(q), Dbl(d), b) == b
  {
    hide Dbl, Four, Six, ByteSum;
    var d, q, t := Dbl(b), Four(b), Six(b);
    Squares(b);
    SixIs(b);
    Shuffle(b, Dbl(d), Four(q), Six(t));
    Shuffle(d, d, Six(q), Four(t));
    Shuffle(q, q, Six(d), Dbl(t));
    Shuffle(q, Six(d), q, Dbl(t));
    Shuffle(t, t, Four(d), Dbl(q));
    Shuffle(t, Four(d), Dbl(q), t);
  }

  /** The order of the summands does not matter. */
  lemma Shuffle(a: bv8, b: bv8, c: bv8, d: bv8)
    ensures ByteSum(a, b, c, d) == ByteSum(a, b, d, c) == ByteSum(b, a, d, c) == ByteSum(a, c, b, d)
    ensures ByteSum(a, b, c, d) == ByteSum(b, a, c, d) == ByteSum(d, c, b, a) == ByteSum(c, d, a, b)
    ensures ByteSum(a, b, c, d) == ByteSum(a, d, c, b) == ByteSum(d, a, b, c) == ByteSum(a, d, b, c)
    ensures ByteSum(a, b, c, d) == ByteSum(c, b, a, d) == ByteSum(b, c, d, a) == ByteSum(c, a, b, d)
  {
  }

  lemma Together(a: bv8, b: bv8, c: bv8, d: bv8)
    ensures Sum(Word(a, 0, 0, 0), Word(0, b, 0, 0), Word(0, 0, c, 0), Word(0, 0, 0, d)) == Word(a, b, c, d)
  {
    hide Sum, Word, ByteSum;
    SumWords(a, 0, 0, 0, 0, b, 0, 0, 0, 0, c, 0, 0, 0, 0, d);
    Alone(a);
    Alone(b);
    Alone(c);
    Alone(d);
  }

  lemma Alone(a: bv8)
    ensures ByteSum(a, 0, 0, 0) == a && ByteSum(0, a, 0, 0) == a && ByteSum(0, 0, a, 0) == a && ByteSum(0, 0, 0, a) == a
  {
  }

  lemma ThetaSum(a: bv32, b: bv32, c: bv32, d: bv32)
    ensures Theta(Sum(a, b, c, d)) == Sum(Theta(a), Theta(b), Theta(c), Theta(d))
  {
    hide Theta, X;
    ThetaLinear(X(X(a, b), c), d);
    ThetaLinear(X(a, b), c);
    ThetaLinear(a, b);
  }

  /** and is its own inverse. */
  lemma ThetaInverse(w: bv32)
    ensures Theta(Theta(w)) == w
  {
    hide Mix0, Mix1, Mix2, Mix3, B0, B1, B2, B3, Word, Sum;
    ThetaSum(Mix0(B0(w)), Mix1(B1(w)), Mix2(B2(w)), Mix3(B3(w)));
    ThetaByte(B0(w));
    ThetaByte(B1(w));
    ThetaByte(B2(w));
    ThetaByte(B3(w));
    Together(B0(w), B1(w), B2(w), B3(w));
    BytesWord(w);
  }

  // ------------------------------------------------------- the tables do what is meant

  lemma TableMix(x: bv8)
    ensures T0(x) == Mix0(Sbox(x)) && T1(x) == Mix1(Sbox(x)) && T2(x) == Mix2(Sbox(x)) && T3(x) == Mix3(Sbox(x))
  {
    hide T0, T1, T2, T3, T4, Mix0, Mix1, Mix2, Mix3, Low;
    Tables(x);
  }

  /** A table lookup substitutes and diffuses. */
  lemma LookupIs(a: bv8, b: bv8, c: bv8, d: bv8)
    ensures Lookup(a, b, c, d) == Theta(Substitute(a, b, c, d))
  {
    hide T0, T1, T2, T3, Mix0, Mix1, Mix2, Mix3, Sbox, Sum, Word, B0, B1, B2, B3;
    TableMix(a);
    TableMix(b);
    TableMix(c);
    TableMix(d);
    WordBytes(Sbox(a), Sbox(b), Sbox(c), Sbox(d));
  }

  lemma MixMask(s: bv8)
    ensures Mix0(s) & 0xff00_0000 == Word(s, 0, 0, 0) && Mix1(s) & 0x00ff_0000 == Word(0, s, 0, 0)
    ensures Mix2(s) & 0x0000_ff00 == Word(0, 0, s, 0) && Mix3(s) & 0x0000_00ff == Word(0, 0, 0, s)
  {
    hide Dbl, Four, Six;
  }

  /** A masked table lookup only substitutes. */
  lemma LastLookupIs(a: bv8, b: bv8, c: bv8, d: bv8)
    ensures LastLookup(a, b, c, d) == Substitute(a, b, c, d)
  {
    hide T0, T1, T2, T3, Mix0, Mix1, Mix2, Mix3, Sbox, Sum, Word;
    TableMix(a);
    TableMix(b);
    TableMix(c);
    TableMix(d);
    MixMask(Sbox(a));
    MixMask(Sbox(b));
    MixMask(Sbox(c));
    MixMask(Sbox(d));
    Together(Sbox(a), Sbox(b), Sbox(c), Sbox(d));
  }

  lemma RoundIs(s: Block, k: Block)
    ensures Round(s, k) == Xor(Diffuse(Gamma(s)), k) && LastRound(s, k) == Xor(Gamma(s), k)
  {
    hide Lookup, LastLookup, Theta, Substitute, B0, B1, B2, B3, X;
    LookupIs(B0(s.w0), B0(s.w1), B0(s.w2), B0(s.w3));
    LookupIs(B1(s.w0), B1(s.w1), B1(s.w2), B1(s.w3));
    LookupIs(B2(s.w0), B2(s.w1), B2(s.w2), B2(s.w3));
    LookupIs(B3(s.w0), B3(s.w1), B3(s.w2), B3(s.w3));
    LastLookupIs(B0(s.w0), B0(s.w1), B0(s.w2), B0(s.w3));
    LastLookupIs(B1(s.w0), B1(s.w1), B1(s.w2), B1(s.w3));
    LastLookupIs(B2(s.w0), B2(s.w1), B2(s.w2), B2(s.w3));
    LastLookupIs(B3(s.w0), B3(s.w1), B3(s.w2), B3(s.w3));
  }

  lemma InverseWordIs(v: bv32)
    ensures InverseWord(v) == Theta(v)
  {
    hide Lookup, Theta, Sbox, Word, B0, B1, B2, B3;
    LookupIs(Sbox(B0(v)), Sbox(B1(v)), Sbox(B2(v)), Sbox(B3(v)));
    SboxInverse(B0(v));
    SboxInverse(B1(v));
    SboxInverse(B2(v));
    SboxInverse(B3(v));
    BytesWord(v);
  }

  /** An inner key of the inverse schedule is the diffused forward key. */
  lemma InverseKeyIs(k: Block)
    ensures InverseKey(k) == Diffuse(k)
  {
    hide InverseWord, Theta;
    InverseWordIs(k.w0);
    InverseWordIs(k.w1);
    InverseWordIs(k.w2);
    InverseWordIs(k.w3);
  }

  lemma DiffuseInverse(s: Block)
    ensures Diffuse(Diffuse(s)) == s
  {
    hide Theta;
    ThetaInverse(s.w0);
    ThetaInverse(s.w1);
    ThetaInverse(s.w2);
    ThetaInverse(s.w3);
  }

  lemma DiffuseLinear(s: Block, k: Block)
    ensures Diffuse(Xor(s, k)) == Xor(Diffuse(s), Diffuse(k))
  {
    hide Theta, X;
    ThetaLinear(s.w0, k.w0);
    ThetaLinear(s.w1, k.w1);
    ThetaLinear(s.w2, k.w2);
    ThetaLinear(s.w3, k.w3);
  }

  lemma XorTwice(s: Block, k: Block)
    ensures Xor(Xor(s, k), k) == s
  {
    hide X;
    XorAway(s.w0, k.w0);
    XorAway(s.w1, k.w1);
    XorAway(s.w2, k.w2);
    XorAway(s.w3, k.w3);
  }

  lemma SubstituteTwice(w: bv32)
    ensures Word(Sbox(Sbox(B0(w))), Sbox(Sbox(B1(w))), Sbox(Sbox(B2(w))), Sbox(Sbox(B3(w)))) == w
  {
    hide Sbox, Word, B0, B1, B2, B3;
    SboxInverse(B0(w));
    SboxInverse(B1(w));
    SboxInverse(B2(w));
    SboxInverse(B3(w));
    BytesWord(w);
  }

  lemma SubstituteBytes(a: bv8, b: bv8, c: bv8, d: bv8)
    ensures var w := Substitute(a, b, c, d);
            B0(w) == Sbox(a) && B1(w) == Sbox(b) && B2(w) == Sbox(c) && B3(w) == Sbox(d)
  {
    hide Sbox, Word, B0, B1, B2, B3;
    WordBytes(Sbox(a), Sbox(b), Sbox(c), Sbox(d));
  }

  /** Substituting and transposing twice changes nothing. */
  lemma GammaInverse(s: Block)
    ensures Gamma(Gamma(s)) == s
  {
    hide Sbox, Word, B0, B1, B2, B3;
    SubstituteBytes(B0(s.w0), B0(s.w1), B0(s.w2), B0(s.w3));
    SubstituteBytes(B1(s.w0), B1(s.w1), B1(s.w2), B1(s.w3));
    SubstituteBytes(B2(s.w0), B2(s.w1), B2(s.w2), B2(s.w3));
    SubstituteBytes(B3(s.w0), B3(s.w1), B3(s.w2), B3(s.w3));
    SubstituteTwice(s.w0);
    SubstituteTwice(s.w1);
    SubstituteTwice(s.w2);
    SubstituteTwice(s.w3);
  }

  // ------------------------------------------------------------------- the theorem

  /** Halfway: r rounds of decryption undo the last r rounds of encryption, but for the
      substitution. */
  lemma {:induction false} RoundsUndo(e: seq<Block>, p: Block, r: nat)
    requires |e| >= 2 && r <= |e| - 2
    ensures Rounds(Inverse(e), Crypt(e, p), r) == Gamma(Rounds(e, p, |e| - 2 - r))
  {
    hide Round, LastRound, Gamma, Diffuse, InverseKey, Xor;
    var n := |e| - 2;
    var d := Inverse(e);
    if r == 0 {
      RoundIs(Rounds(e, p, n), e[n + 1]);
      XorTwice(Gamma(Rounds(e, p, n)), e[n + 1]);
    } else {
      RoundsUndo(e, p, r - 1);
      var m := n - r;
      var s, k := Rounds(e, p, m), e[m + 1];
      var t := Diffuse(Gamma(s));
      assert d[r] == InverseKey(k);
      RoundIs(s, k);
      RoundIs(Gamma(Xor(t, k)), d[r]);
      GammaInverse(Xor(t, k));
      InverseKeyIs(k);
      DiffuseLinear(t, k);
      XorTwice(Diffuse(t), Diffuse(k));
      DiffuseInverse(Gamma(s));
    }
  }

  /** Decryption undoes encryption, for every block and every array of round keys. */
  lemma DecryptEncrypt(e: seq<Block>, p: Block)
    requires |e| >= 2
    ensures Crypt(Inverse(e), Crypt(e, p)) == p
  {
    hide Round, LastRound, Gamma, Diffuse, InverseKey, Xor, Rounds;
    var n := |e| - 2;
    RoundsUndo(e, p, n);
    var s := Rounds(e, p, 0);
    RoundIs(Gamma(s), Inverse(e)[n + 1]);
    GammaInverse(s);
    assert Inverse(e)[n + 1] == e[0];
    FirstState(e, p);
    XorTwice(p, e[0]);
  }

  lemma FirstState(e: seq<Block>, p: Block)
    requires |e| >= 1
    ensures Rounds(e, p, 0) == Xor(p, e[0])
  {
  }

  /** The inverse of the inverse schedule is the schedule. */
  lemma InverseTwice(e: seq<Block>)
    requires |e| >= 2
    ensures Inverse(Inverse(e)) == e
  {
    hide InverseKey, Diffuse;
    var d := Inverse(e);
    forall r | 0 <= r < |e| ensures Inverse(d)[r] == e[r] {
      InverseKeyIs(e[r]);
      InverseKeyIs(InverseKey(e[r]));
      DiffuseInverse(e[r]);
    }
  }

  /** Encryption undoes decryption as well. */
  lemma EncryptDecrypt(e: seq<Block>, c: Block)
    requires |e| >= 2
    ensures Crypt(e, Crypt(Inverse(e), c)) == c
  {
    hide Crypt, Inverse;
    InverseTwice(e);
    InverseLength(e);
    DecryptEncrypt(Inverse(e), c);
  }

  lemma InverseLength(e: seq<Block>)
    ensures |Inverse(e)| == |e|
  {
  }
}
