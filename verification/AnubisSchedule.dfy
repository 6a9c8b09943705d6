/** The key schedule of crypto/anubis.c.  The loops over T4 and T5 evaluate a polynomial by
    Horner's rule, and the key state evolves by an invertible map. */
module AnubisSchedule {
  import opened AnubisTables
  import opened Anubis

  function T5Row0(x: bv8): bv32 {
    Pick(x, 0x00000000, 0x01020608, 0x02040c10, 0x03060a18, 0x04081820, 0x050a1e28, 0x060c1430, 0x070e1238,
         0x08103040, 0x09123648, 0x0a143c50, 0x0b163a58, 0x0c182860, 0x0d1a2e68, 0x0e1c2470, 0x0f1e2278)
  }
  function T5Row1(x: bv8): bv32 {
    Pick(x, 0x10206080, 0x11226688, 0x12246c90, 0x13266a98, 0x142878a0, 0x152a7ea8, 0x162c74b0, 0x172e72b8,
         0x183050c0, 0x193256c8, 0x1a345cd0, 0x1b365ad8, 0x1c3848e0, 0x1d3a4ee8, 0x1e3c44f0, 0x1f3e42f8)
  }
  function T5Row2(x: bv8): bv32 {
    Pick(x, 0x2040c01d, 0x2142c615, 0x2244cc0d, 0x2346ca05, 0x2448d83d, 0x254ade35, 0x264cd42d, 0x274ed225,
         0x2850f05d, 0x2952f655, 0x2a54fc4d, 0x2b56fa45, 0x2c58e87d, 0x2d5aee75, 0x2e5ce46d, 0x2f5ee265)
  }
  function T5Row3(x: bv8): bv32 {
    Pick(x, 0x3060a09d, 0x3162a695, 0x3264ac8d, 0x3366aa85, 0x3468b8bd, 0x356abeb5, 0x366cb4ad, 0x376eb2a5,
         0x387090dd, 0x397296d5, 0x3a749ccd, 0x3b769ac5, 0x3c7888fd, 0x3d7a8ef5, 0x3e7c84ed, 0x3f7e82e5)
  }
  function T5Row4(x: bv8): bv32 {
    Pick(x, 0x40809d3a, 0x41829b32, 0x4284912a, 0x43869722, 0x4488851a, 0x458a8312, 0x468c890a, 0x478e8f02,
         0x4890ad7a, 0x4992ab72, 0x4a94a16a, 0x4b96a762, 0x4c98b55a, 0x4d9ab352, 0x4e9cb94a, 0x4f9ebf42)
  }
  function T5Row5(x: bv8): bv32 {
    Pick(x, 0x50a0fdba, 0x51a2fbb2, 0x52a4f1aa, 0x53a6f7a2, 0x54a8e59a, 0x55aae392, 0x56ace98a, 0x57aeef82,
         0x58b0cdfa, 0x59b2cbf2, 0x5ab4c1ea, 0x5bb6c7e2, 0x5cb8d5da, 0x5dbad3d2, 0x5ebcd9ca, 0x5fbedfc2)
  }
  function T5Row6(x: bv8): bv32 {
    Pick(x, 0x60c05d27, 0x61c25b2f, 0x62c45137, 0x63c6573f, 0x64c84507, 0x65ca430f, 0x66cc4917, 0x67ce4f1f,
         0x68d06d67, 0x69d26b6f, 0x6ad46177, 0x6bd6677f, 0x6cd87547, 0x6dda734f, 0x6edc7957, 0x6fde7f5f)
  }
  function T5Row7(x: bv8): bv32 {
    Pick(x, 0x70e03da7, 0x71e23baf, 0x72e431b7, 0x73e637bf, 0x74e82587, 0x75ea238f, 0x76ec2997, 0x77ee2f9f,
         0x78f00de7, 0x79f20bef, 0x7af401f7, 0x7bf607ff, 0x7cf815c7, 0x7dfa13cf, 0x7efc19d7, 0x7ffe1fdf)
  }
  function T5Row8(x: bv8): bv32 {
    Pick(x, 0x801d2774, 0x811f217c, 0x82192b64, 0x831b2d6c, 0x84153f54, 0x8517395c, 0x86113344, 0x8713354c,
         0x880d1734, 0x890f113c, 0x8a091b24, 0x8b0b1d2c, 0x8c050f14, 0x8d07091c, 0x8e010304, 0x8f03050c)
  }
  function T5Row9(x: bv8): bv32 {
    Pick(x, 0x903d47f4, 0x913f41fc, 0x92394be4, 0x933b4dec, 0x94355fd4, 0x953759dc, 0x963153c4, 0x973355cc,
         0x982d77b4, 0x992f71bc, 0x9a297ba4, 0x9b2b7dac, 0x9c256f94, 0x9d27699c, 0x9e216384, 0x9f23658c)
  }
  function T5RowA(x: bv8): bv32 {
    Pick(x, 0xa05de769, 0xa15fe161, 0xa259eb79, 0xa35bed71, 0xa455ff49, 0xa557f941, 0xa651f359, 0xa753f551,
         0xa84dd729, 0xa94fd121, 0xaa49db39, 0xab4bdd31, 0xac45cf09, 0xad47c901, 0xae41c319, 0xaf43c511)
  }
  function T5RowB(x: bv8): bv32 {
    Pick(x, 0xb07d87e9, 0xb17f81e1, 0xb2798bf9, 0xb37b8df1, 0xb4759fc9, 0xb57799c1, 0xb67193d9, 0xb77395d1,
         0xb86db7a9, 0xb96fb1a1, 0xba69bbb9, 0xbb6bbdb1, 0xbc65af89, 0xbd67a981, 0xbe61a399, 0xbf63a591)
  }
  function T5RowC(x: bv8): bv32 {
    Pick(x, 0xc09dba4e, 0xc19fbc46, 0xc299b65e, 0xc39bb056, 0xc495a26e, 0xc597a466, 0xc691ae7e, 0xc793a876,
         0xc88d8a0e, 0xc98f8c06, 0xca89861e, 0xcb8b8016, 0xcc85922e, 0xcd879426, 0xce819e3e, 0xcf839836)
  }
  function T5RowD(x: bv8): bv32 {
    Pick(x, 0xd0bddace, 0xd1bfdcc6, 0xd2b9d6de, 0xd3bbd0d6, 0xd4b5c2ee, 0xd5b7c4e6, 0xd6b1cefe, 0xd7b3c8f6,
         0xd8adea8e, 0xd9afec86, 0xdaa9e69e, 0xdbabe096, 0xdca5f2ae, 0xdda7f4a6, 0xdea1febe, 0xdfa3f8b6)
  }
  function T5RowE(x: bv8): bv32 {
    Pick(x, 0xe0dd7a53, 0xe1df7c5b, 0xe2d97643, 0xe3db704b, 0xe4d56273, 0xe5d7647b, 0xe6d16e63, 0xe7d3686b,
         0xe8cd4a13, 0xe9cf4c1b, 0xeac94603, 0xebcb400b, 0xecc55233, 0xedc7543b, 0xeec15e23, 0xefc3582b)
  }
  function T5RowF(x: bv8): bv32 {
    Pick(x, 0xf0fd1ad3, 0xf1ff1cdb, 0xf2f916c3, 0xf3fb10cb, 0xf4f502f3, 0xf5f704fb, 0xf6f10ee3, 0xf7f308eb,
         0xf8ed2a93, 0xf9ef2c9b, 0xfae92683, 0xfbeb208b, 0xfce532b3, 0xfde734bb, 0xfee13ea3, 0xffe338ab)
  }

  function T5(x: bv8): bv32 {
    if x < 0x10 then T5Row0(x) else if x < 0x20 then T5Row1(x) else if x < 0x30 then T5Row2(x) else if x < 0x40 then T5Row3(x) else
    if x < 0x50 then T5Row4(x) else if x < 0x60 then T5Row5(x) else if x < 0x70 then T5Row6(x) else if x < 0x80 then T5Row7(x) else
    if x < 0x90 then T5Row8(x) else if x < 0xa0 then T5Row9(x) else if x < 0xb0 then T5RowA(x) else if x < 0xc0 then T5RowB(x) else
    if x < 0xd0 then T5RowC(x) else if x < 0xe0 then T5RowD(x) else if x < 0xf0 then T5RowE(x) else T5RowF(x)
  }

  const RC: seq<bv32> := [
    0xba542f74, 0x53d3d24d, 0x50ac8dbf, 0x70529a4c, 0xead597d1, 0x33515ba6,
    0xde48a899, 0xdb32b7fc, 0xe39e919b, 0xe2bb416e, 0xa5cb6b95, 0xa1f3b102,
    0xccc41d14, 0xc363da5d, 0x5fdc7dcd, 0x7f5a6c5c, 0xf726ffed, 0xe89d6f8e,
    0x19a0f089]

  /** 8 times a byte. */
  function Eight(s: bv8): bv8 { Dbl(Four(s)) }

  function Multiples(s: bv8): bv32 { Word(s, Dbl(s), Six(s), Eight(s)) }

  lemma Times0(x: bv8)
    ensures T5Row0(x) == Multiples(0x00 | (x & 0xf))
  {
  }

  lemma Times1(x: bv8)
    ensures T5Row1(x) == Multiples(0x10 | (x & 0xf))
  {
  }

  lemma Times2(x: bv8)
    ensures T5Row2(x) == Multiples(0x20 | (x & 0xf))
  {
  }

  lemma Times3(x: bv8)
    ensures T5Row3(x) == Multiples(0x30 | (x & 0xf))
  {
  }

  lemma Times4(x: bv8)
    ensures T5Row4(x) == Multiples(0x40 | (x & 0xf))
  {
  }

  lemma Times5(x: bv8)
    ensures T5Row5(x) == Multiples(0x50 | (x & 0xf))
  {
  }

  lemma Times6(x: bv8)
    ensures T5Row6(x) == Multiples(0x60 | (x & 0xf))
  {
  }

  lemma Times7(x: bv8)
    ensures T5Row7(x) == Multiples(0x70 | (x & 0xf))
  {
  }

  lemma Times8(x: bv8)
    ensures T5Row8(x) == Multiples(0x80 | (x & 0xf))
  {
  }

  lemma Times9(x: bv8)
    ensures T5Row9(x) == Multiples(0x90 | (x & 0xf))
  {
  }

  lemma TimesA(x: bv8)
    ensures T5RowA(x) == Multiples(0xa0 | (x & 0xf))
  {
  }

  lemma TimesB(x: bv8)
    ensures T5RowB(x) == Multiples(0xb0 | (x & 0xf))
  {
  }

  lemma TimesC(x: bv8)
    ensures T5RowC(x) == Multiples(0xc0 | (x & 0xf))
  {
  }

  lemma TimesD(x: bv8)
    ensures T5RowD(x) == Multiples(0xd0 | (x & 0xf))
  {
  }

  lemma TimesE(x: bv8)
    ensures T5RowE(x) == Multiples(0xe0 | (x & 0xf))
  {
  }

  lemma TimesF(x: bv8)
    ensures T5RowF(x) == Multiples(0xf0 | (x & 0xf))
  {
  }

  /** T5 holds 1, 2, 6 and 8 times its index. */
  lemma T5Is(x: bv8)
    ensures T5(x) == Multiples(x)
  {
    hide Multiples, Pick;
    if x < 0x10 {
      Times0(x);
    } else if x < 0x20 {
      Times1(x);
    } else if x < 0x30 {
      Times2(x);
    } else if x < 0x40 {
      Times3(x);
    } else if x < 0x50 {
      Times4(x);
    } else if x < 0x60 {
      Times5(x);
    } else if x < 0x70 {
      Times6(x);
    } else if x < 0x80 {
      Times7(x);
    } else if x < 0x90 {
      Times8(x);
    } else if x < 0xa0 {
      Times9(x);
    } else if x < 0xb0 {
      TimesA(x);
    } else if x < 0xc0 {
      TimesB(x);
    } else if x < 0xd0 {
      TimesC(x);
    } else if x < 0xe0 {
      TimesD(x);
    } else if x < 0xf0 {
      TimesE(x);
    } else {
      TimesF(x);
    }
  }

  // --------------------------------------------------------------------- round keys

  /** The bytes of a word, 1, 2, 6 and 8 times. */
  function Scaled(w: bv32): bv32 { Word(B0(w), Dbl(B1(w)), Six(B2(w)), Eight(B3(w))) }

  function Power(w: bv32, e: nat): bv32 {
    if e == 0 then w else Scaled(Power(w, e - 1))
  }

  function Repeat(s: bv8): bv32 { Word(s, s, s, s) }

  /** The sum of the substituted bytes, the one at place i scaled i + e times: in each of the
      four bytes of the result a polynomial, at 1, 2, 6 and 8. */
  function Poly(col: seq<bv8>, e: nat): bv32 {
    if col == [] then 0 else X(Power(Repeat(Sbox(col[0])), e), Poly(col[1..], e + 1))
  }

  function Byte(w: bv32, j: nat): bv8 {
    if j == 0 then B0(w) else if j == 1 then B1(w) else if j == 2 then B2(w) else B3(w)
  }

  function Column(kappa: seq<bv32>, j: nat): seq<bv8> {
    seq(|kappa|, i requires 0 <= i < |kappa| => Byte(kappa[i], j))
  }

  /** The round key that a key state gives. */
  function Extract(kappa: seq<bv32>): Block {
    Block(Poly(Column(kappa, 0), 0), Poly(Column(kappa, 1), 0), Poly(Column(kappa, 2), 0), Poly(Column(kappa, 3), 0))
  }

  lemma MultiplesMask(s: bv8)
    ensures Multiples(s) & 0xff00_0000 == Word(s, 0, 0, 0) && Multiples(s) & 0x00ff_0000 == Word(0, Dbl(s), 0, 0)
    ensures Multiples(s) & 0x0000_ff00 == Word(0, 0, Six(s), 0) && Multiples(s) & 0x0000_00ff == Word(0, 0, 0, Eight(s))
  {
    hide Dbl, Six, Eight;
  }

  /** What the code adds to a table entry of T4, with masks. */
  lemma MaskedIs(k: bv32)
    ensures Sum(T5(B0(k)) & 0xff00_0000, T5(B1(k)) & 0x00ff_0000, T5(B2(k)) & 0x0000_ff00, T5(B3(k)) & 0x0000_00ff) == Scaled(k)
  {
    hide T5, Multiples, Sum, Word, B0, B1, B2, B3, Dbl, Six, Eight;
    T5Is(B0(k));
    T5Is(B1(k));
    T5Is(B2(k));
    T5Is(B3(k));
    MultiplesMask(B0(k));
    MultiplesMask(B1(k));
    MultiplesMask(B2(k));
    MultiplesMask(B3(k));
    Together(B0(k), Dbl(B1(k)), Six(B2(k)), Eight(B3(k)));
  }

  lemma EightIs(s: bv8)
    ensures Eight(s) == Dbl(Four(s))
  {
  }

  lemma EightLinear(a: bv8, b: bv8)
    ensures Eight(Y(a, b)) == Y(Eight(a), Eight(b))
  {
    hide Eight, Dbl, Four, Y;
    EightIs(a);
    EightIs(b);
    EightIs(Y(a, b));
    TimesLinear(a, b);
    DblLinear(Four(a), Four(b));
  }

  lemma ScaledLinear(v: bv32, w: bv32)
    ensures Scaled(X(v, w)) == X(Scaled(v), Scaled(w))
  {
    hide Dbl, Six, Eight, Word, B0, B1, B2, B3, X, Y;
    ByteXor(v, w);
    TimesLinear(B1(v), B1(w));
    TimesLinear(B2(v), B2(w));
    EightLinear(B3(v), B3(w));
    WordXor(B0(v), Dbl(B1(v)), Six(B2(v)), Eight(B3(v)), B0(w), Dbl(B1(w)), Six(B2(w)), Eight(B3(w)));
  }

  lemma ScaledZero()
    ensures Scaled(0) == 0
  {
  }

  lemma {:induction false} PolyShift(col: seq<bv8>, e: nat)
    ensures Poly(col, e + 1) == Scaled(Poly(col, e))
    decreases |col|
  {
    hide Scaled, X, Repeat, Sbox;
    if col == [] {
      ScaledZero();
    } else {
      PolyShift(col[1..], e + 1);
      ScaledLinear(Power(Repeat(Sbox(col[0])), e), Poly(col[1..], e + 1));
    }
  }

  /** Horner's rule. */
  lemma HornerStep(x: bv8, col: seq<bv8>)
    ensures Poly([x] + col, 0) == X(Repeat(Sbox(x)), Scaled(Poly(col, 0)))
  {
    hide Scaled, X, Repeat, Sbox;
    assert ([x] + col)[1..] == col;
    PolyShift(col, 0);
  }

  lemma T4Is(x: bv8)
    ensures T4(x) == Repeat(Sbox(x))
  {
    hide T0, T1, T2, T3, T4, Mix0, Mix1, Mix2, Mix3, Low, Word;
    Tables(x);
  }

  lemma FiveTerms(t: bv32, a: bv32, b: bv32, c: bv32, d: bv32)
    ensures X(X(X(X(t, a), b), c), d) == X(t, Sum(a, b, c, d))
  {
    hide X;
    XAssoc(t, a, b);
    XAssoc(t, X(a, b), c);
    XAssoc(t, X(X(a, b), c), d);
  }

  /** One turn of the inner loop, as the code computes it. */
  function Turn(x: bv8, k: bv32): bv32 {
    X(X(X(X(T4(x), T5(B0(k)) & 0xff00_0000), T5(B1(k)) & 0x00ff_0000), T5(B2(k)) & 0x0000_ff00), T5(B3(k)) & 0x0000_00ff)
  }

  lemma TurnIs(x: bv8, col: seq<bv8>)
    ensures Turn(x, Poly(col, 0)) == Poly([x] + col, 0)
  {
    hide T4, T5, X, Sum, B0, B1, B2, B3, Scaled, Repeat, Sbox, Poly;
    var k := Poly(col, 0);
    FiveTerms(T4(x), T5(B0(k)) & 0xff00_0000, T5(B1(k)) & 0x00ff_0000, T5(B2(k)) & 0x0000_ff00, T5(B3(k)) & 0x0000_00ff);
    MaskedIs(k);
    T4Is(x);
    HornerStep(x, col);
  }

  lemma OneTerm(x: bv8)
    ensures T4(x) == Poly([x], 0)
  {
    hide T4, Repeat, Sbox;
    T4Is(x);
  }

  // ---------------------------------------------------------------------- key states

  /** Place i - b of a cycle of n. */
  function Behind(i: nat, b: nat, n: nat): (k: nat)
    requires i < n && b < n
    ensures k < n
  {
    if i >= b then i - b else i + n - b
  }

  /** Substitution, rotation of the columns, diffusion, and a constant on the first word. */
  function Evolve(kappa: seq<bv32>, c: bv32): (s: seq<bv32>)
    requires |kappa| >= 4
    ensures |s| == |kappa|
  {
    seq(|kappa|, i requires 0 <= i < |kappa| => Plus(i, Theta(Rotated(kappa, i)), c))
  }

  function Plus(i: nat, w: bv32, c: bv32): bv32 {
    if i == 0 then X(w, c) else w
  }

  function Rotated(kappa: seq<bv32>, i: nat): bv32
    requires |kappa| >= 4 && i < |kappa|
  {
    var n := |kappa|;
    Substitute(B0(kappa[i]), B1(kappa[Behind(i, 1, n)]), B2(kappa[Behind(i, 2, n)]), B3(kappa[Behind(i, 3, n)]))
  }

  /** The way back. */
  function Devolve(s: seq<bv32>, c: bv32): (kappa: seq<bv32>)
    requires |s| >= 4
    ensures |kappa| == |s|
  {
    var w := Undiffused(s, c);
    seq(|s|, i requires 0 <= i < |s| => Unrotated(w, i))
  }

  function Unrotated(w: seq<bv32>, i: nat): bv32
    requires |w| >= 4 && i < |w|
  {
    var n := |w|;
    Substitute(B0(w[i]), B1(w[Behind(i, n - 1, n)]), B2(w[Behind(i, n - 2, n)]), B3(w[Behind(i, n - 3, n)]))
  }

  function Undiffused(s: seq<bv32>, c: bv32): (w: seq<bv32>)
    ensures |w| == |s|
  {
    seq(|s|, i requires 0 <= i < |s| => Theta(Plus(i, s[i], c)))
  }

  lemma PlusTwice(i: nat, w: bv32, c: bv32)
    ensures Theta(Plus(i, Plus(i, Theta(w), c), c)) == w
  {
    hide Theta, X;
    XorAway(Theta(w), c);
    ThetaInverse(w);
  }

  /** No key state is lost: evolving can be undone. */
  lemma EvolveBack(kappa: seq<bv32>, c: bv32)
    requires |kappa| >= 4
    ensures Devolve(Evolve(kappa, c), c) == kappa
  {
    hide Theta, Plus, Rotated, Unrotated, Undiffused, Evolve;
    var s := Evolve(kappa, c);
    var w := Undiffused(s, c);
    forall i | 0 <= i < |w| ensures w[i] == Rotated(kappa, i) {
      UndiffusedAt(kappa, c, i);
    }
    forall i | 0 <= i < |kappa| ensures Devolve(s, c)[i] == kappa[i] {
      UnrotatedBack(kappa, w, i);
    }
  }

  lemma UnrotatedBack(kappa: seq<bv32>, w: seq<bv32>, i: nat)
    requires |w| == |kappa| >= 4 && i < |kappa| && forall j :: 0 <= j < |w| ==> w[j] == Rotated(kappa, j)
    ensures Unrotated(w, i) == kappa[i]
  {
    hide Rotated, Substitute, B0, B1, B2, B3, Behind;
    RotatedBack(kappa, i);
  }

  lemma UndiffusedAt(kappa: seq<bv32>, c: bv32, i: nat)
    requires |kappa| >= 4 && i < |kappa|
    ensures Undiffused(Evolve(kappa, c), c)[i] == Rotated(kappa, i)
  {
    hide Theta, Plus, Rotated;
    PlusTwice(i, Rotated(kappa, i), c);
  }

  lemma BehindBack(i: nat, b: nat, n: nat)
    requires i < n && 0 < b < n
    ensures Behind(Behind(i, n - b, n), b, n) == i
  {
  }

  lemma RotatedBack(kappa: seq<bv32>, i: nat)
    requires |kappa| >= 4 && i < |kappa|
    ensures var n := |kappa|;
            Substitute(B0(Rotated(kappa, i)), B1(Rotated(kappa, Behind(i, n - 1, n))),
                       B2(Rotated(kappa, Behind(i, n - 2, n))), B3(Rotated(kappa, Behind(i, n - 3, n)))) == kappa[i]
  {
    hide Sbox, Word, B0, B1, B2, B3, Behind, Rotated;
    var n := |kappa|;
    RotatedBytes(kappa, i);
    RotatedBytes(kappa, Behind(i, n - 1, n));
    RotatedBytes(kappa, Behind(i, n - 2, n));
    RotatedBytes(kappa, Behind(i, n - 3, n));
    BehindBack(i, 1, n);
    BehindBack(i, 2, n);
    BehindBack(i, 3, n);
    SubstituteTwice(kappa[i]);
  }

  lemma RotatedBytes(kappa: seq<bv32>, i: nat)
    requires |kappa| >= 4 && i < |kappa|
    ensures var n, w := |kappa|, Rotated(kappa, i);
            && B0(w) == Sbox(B0(kappa[i])) && B1(w) == Sbox(B1(kappa[Behind(i, 1, n)]))
            && B2(w) == Sbox(B2(kappa[Behind(i, 2, n)])) && B3(w) == Sbox(B3(kappa[Behind(i, 3, n)]))
  {
    hide Sbox, Word, B0, B1, B2, B3, Behind, Substitute;
    var n := |kappa|;
    SubstituteBytes(B0(kappa[i]), B1(kappa[Behind(i, 1, n)]), B2(kappa[Behind(i, 2, n)]), B3(kappa[Behind(i, 3, n)]));
  }

  /** The key state of round r. */
  function State(kappa: seq<bv32>, r: nat): (s: seq<bv32>)
    requires |kappa| >= 4 && r <= |RC|
    ensures |s| == |kappa|
  {
    if r == 0 then kappa else Evolve(State(kappa, r - 1), RC[r - 1])
  }

  /** Four entries of the S-box from x on. */
  function Entries(x: bv8): bv32 { Word(Sbox(x), Sbox(x + 1), Sbox(x + 2), Sbox(x + 3)) }

  /** The constants are the S-box itself, four entries to a word. */
  lemma ConstantsAre()
    ensures RC == [
      Entries(0x00), Entries(0x04), Entries(0x08), Entries(0x0c), Entries(0x10),
      Entries(0x14), Entries(0x18), Entries(0x1c), Entries(0x20), Entries(0x24),
      Entries(0x28), Entries(0x2c), Entries(0x30), Entries(0x34), Entries(0x38),
      Entries(0x3c), Entries(0x40), Entries(0x44), Entries(0x48)]
  {
    hide Entries;
    Constants0();
    Constants1();
    Constants2();
    Constants3();
    Constants4();
    Constants5();
    Constants6();
  }

  lemma Constants0()
    ensures Entries(0x00) == 0xba542f74 && Entries(0x04) == 0x53d3d24d && Entries(0x08) == 0x50ac8dbf
  {
    hide Sbox;
    Entries0();
  }

  lemma Entries0()
    ensures Sbox(0x00) == 0xba && Sbox(0x01) == 0x54 && Sbox(0x02) == 0x2f && Sbox(0x03) == 0x74
    ensures Sbox(0x04) == 0x53 && Sbox(0x05) == 0xd3 && Sbox(0x06) == 0xd2 && Sbox(0x07) == 0x4d
    ensures Sbox(0x08) == 0x50 && Sbox(0x09) == 0xac && Sbox(0x0a) == 0x8d && Sbox(0x0b) == 0xbf
  {
  }

  lemma Constants1()
    ensures Entries(0x0c) == 0x70529a4c && Entries(0x10) == 0xead597d1 && Entries(0x14) == 0x33515ba6
  {
    hide Sbox;
    Entries1();
  }

  lemma Entries1()
    ensures Sbox(0x0c) == 0x70 && Sbox(0x0d) == 0x52 && Sbox(0x0e) == 0x9a && Sbox(0x0f) == 0x4c
    ensures Sbox(0x10) == 0xea && Sbox(0x11) == 0xd5 && Sbox(0x12) == 0x97 && Sbox(0x13) == 0xd1
    ensures Sbox(0x14) == 0x33 && Sbox(0x15) == 0x51 && Sbox(0x16) == 0x5b && Sbox(0x17) == 0xa6
  {
  }

  lemma Constants2()
    ensures Entries(0x18) == 0xde48a899 && Entries(0x1c) == 0xdb32b7fc && Entries(0x20) == 0xe39e919b
  {
    hide Sbox;
    Entries2();
  }

  lemma Entries2()
    ensures Sbox(0x18) == 0xde && Sbox(0x19) == 0x48 && Sbox(0x1a) == 0xa8 && Sbox(0x1b) == 0x99
    ensures Sbox(0x1c) == 0xdb && Sbox(0x1d) == 0x32 && Sbox(0x1e) == 0xb7 && Sbox(0x1f) == 0xfc
    ensures Sbox(0x20) == 0xe3 && Sbox(0x21) == 0x9e && Sbox(0x22) == 0x91 && Sbox(0x23) == 0x9b
  {
  }

  lemma Constants3()
    ensures Entries(0x24) == 0xe2bb416e && Entries(0x28) == 0xa5cb6b95 && Entries(0x2c) == 0xa1f3b102
  {
    hide Sbox;
    Entries3();
  }

  lemma Entries3()
    ensures Sbox(0x24) == 0xe2 && Sbox(0x25) == 0xbb && Sbox(0x26) == 0x41 && Sbox(0x27) == 0x6e
    ensures Sbox(0x28) == 0xa5 && Sbox(0x29) == 0xcb && Sbox(0x2a) == 0x6b && Sbox(0x2b) == 0x95
    ensures Sbox(0x2c) == 0xa1 && Sbox(0x2d) == 0xf3 && Sbox(0x2e) == 0xb1 && Sbox(0x2f) == 0x02
  {
  }

  lemma Constants4()
    ensures Entries(0x30) == 0xccc41d14 && Entries(0x34) == 0xc363da5d && Entries(0x38) == 0x5fdc7dcd
  {
    hide Sbox;
    Entries4();
  }

  lemma Entries4()
    ensures Sbox(0x30) == 0xcc && Sbox(0x31) == 0xc4 && Sbox(0x32) == 0x1d && Sbox(0x33) == 0x14
    ensures Sbox(0x34) == 0xc3 && Sbox(0x35) == 0x63 && Sbox(0x36) == 0xda && Sbox(0x37) == 0x5d
    ensures Sbox(0x38) == 0x5f && Sbox(0x39) == 0xdc && Sbox(0x3a) == 0x7d && Sbox(0x3b) == 0xcd
  {
  }

  lemma Constants5()
    ensures Entries(0x3c) == 0x7f5a6c5c && Entries(0x40) == 0xf726ffed && Entries(0x44) == 0xe89d6f8e
  {
    hide Sbox;
    Entries5();
  }

  lemma Entries5()
    ensures Sbox(0x3c) == 0x7f && Sbox(0x3d) == 0x5a && Sbox(0x3e) == 0x6c && Sbox(0x3f) == 0x5c
    ensures Sbox(0x40) == 0xf7 && Sbox(0x41) == 0x26 && Sbox(0x42) == 0xff && Sbox(0x43) == 0xed
    ensures Sbox(0x44) == 0xe8 && Sbox(0x45) == 0x9d && Sbox(0x46) == 0x6f && Sbox(0x47) == 0x8e
  {
  }

  lemma Constants6()
    ensures Entries(0x48) == 0x19a0f089
  {
    hide Sbox;
    Entries6();
  }

  lemma Entries6()
    ensures Sbox(0x48) == 0x19 && Sbox(0x49) == 0xa0 && Sbox(0x4a) == 0xf0 && Sbox(0x4b) == 0x89
  {
  }

  /** Different keys have different key states in every round. */
  lemma {:induction false} StatesDiffer(kappa: seq<bv32>, kappa': seq<bv32>, r: nat)
    requires |kappa| == |kappa'| >= 4 && r <= |RC| && kappa != kappa'
    ensures State(kappa, r) != State(kappa', r)
  {
    hide Evolve, Devolve;
    if r > 0 {
      StatesDiffer(kappa, kappa', r - 1);
      EvolveBack(State(kappa, r - 1), RC[r - 1]);
      EvolveBack(State(kappa', r - 1), RC[r - 1]);
    }
  }

  /** The forward key schedule. */
  function Forward(kappa: seq<bv32>): (f: seq<Block>)
    requires 4 <= |kappa| <= 10
    ensures |f| == |kappa| + 9
  {
    seq(|kappa| + 9, r requires 0 <= r < |kappa| + 9 => Extract(State(kappa, r)))
  }

  /** The words of a key, most significant byte first. */
  function KeyState(key: seq<bv8>): (kappa: seq<bv32>)
    ensures |kappa| == |key| / 4
  {
    seq(|key| / 4, i requires 0 <= i < |key| / 4 => Word(key[4 * i], key[4 * i + 1], key[4 * i + 2], key[4 * i + 3]))
  }

  /** Byte j of word i of a key state is byte 4 * i + j of the key. */
  lemma KeyByte(key: seq<bv8>, i: nat, j: nat)
    requires i < |key| / 4 && j < 4
    ensures Byte(KeyState(key)[i], j) == key[4 * i + j]
  {
    hide B0, B1, B2, B3, Word;
    WordBytes(key[4 * i], key[4 * i + 1], key[4 * i + 2], key[4 * i + 3]);
  }
}
