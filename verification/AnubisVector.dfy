/** The first test vector of the kernel for Anubis, crypto/testmgr.h: key and block of sixteen
    bytes 0xfe.  It holds every table, constant and index of the cipher in place. */
module AnubisVector {
  import opened AnubisTables
  import opened Anubis
  import opened AnubisSchedule
  import opened AnubisInPlace

  /** The four words of a key state, through the tables. */
  lemma EvolveFour(a: bv32, b: bv32, c: bv32, d: bv32, k: bv32)
    ensures Evolve([a, b, c, d], k) ==
            [X(X(X(X(T0(B0(a)), T1(B1(d))), T2(B2(c))), T3(B3(b))), k), X(X(X(T0(B0(b)), T1(B1(a))), T2(B2(d))), T3(B3(c))),
             X(X(X(T0(B0(c)), T1(B1(b))), T2(B2(a))), T3(B3(d))), X(X(X(T0(B0(d)), T1(B1(c))), T2(B2(b))), T3(B3(a)))]
  {
    hide T0, T1, T2, T3, X, B0, B1, B2, B3, Theta, Rotated;
    var s := [a, b, c, d];
    RotatedLookup(s, 0);
    RotatedLookup(s, 1);
    RotatedLookup(s, 2);
    RotatedLookup(s, 3);
  }

  /** One word of a round key, from one byte of each word of the state. */
  function Column4(x: bv8, y: bv8, z: bv8, w: bv8): bv32 {
    Turn(x, Turn(y, Turn(z, T4(w))))
  }

  lemma ColumnIs(x: bv8, y: bv8, z: bv8, w: bv8)
    ensures Poly([x, y, z, w], 0) == Column4(x, y, z, w)
  {
    hide Poly, Turn, T4;
    OneTerm(w);
    TurnIs(z, [w]);
    TurnIs(y, [z, w]);
    TurnIs(x, [y, z, w]);
    assert [x] + [y, z, w] == [x, y, z, w] && [y] + [z, w] == [y, z, w] && [z] + [w] == [z, w];
  }

  lemma ColumnAt(a: bv32, b: bv32, c: bv32, d: bv32, j: nat)
    ensures Column([a, b, c, d], j) == [Byte(a, j), Byte(b, j), Byte(c, j), Byte(d, j)]
  {
    hide Byte;
  }

  lemma ExtractFour(a: bv32, b: bv32, c: bv32, d: bv32)
    ensures Extract([a, b, c, d]) ==
            Block(Column4(B0(a), B0(b), B0(c), B0(d)), Column4(B1(a), B1(b), B1(c), B1(d)),
                  Column4(B2(a), B2(b), B2(c), B2(d)), Column4(B3(a), B3(b), B3(c), B3(d)))
  {
    hide Poly, Column4, B0, B1, B2, B3, Column;
    ColumnAt(a, b, c, d, 0);
    ColumnAt(a, b, c, d, 1);
    ColumnAt(a, b, c, d, 2);
    ColumnAt(a, b, c, d, 3);
    ColumnIs(B0(a), B0(b), B0(c), B0(d));
    ColumnIs(B1(a), B1(b), B1(c), B1(d));
    ColumnIs(B2(a), B2(b), B2(c), B2(d));
    ColumnIs(B3(a), B3(b), B3(c), B3(d));
  }

  lemma TurnFive(x: bv8, k: bv32)
    ensures Turn(x, k) ==
            X(X(X(X(T4(x), T5(B0(k)) & 0xff00_0000), T5(B1(k)) & 0x00ff_0000), T5(B2(k)) & 0x0000_ff00), T5(B3(k)) & 0x0000_00ff)
  {
    hide T4, T5, X, B0, B1, B2, B3;
  }

  lemma RoundFour(a: bv32, b: bv32, c: bv32, d: bv32, k: Block)
    ensures Round(Block(a, b, c, d), k) ==
            Block(X(X(X(X(T0(B0(a)), T1(B0(b))), T2(B0(c))), T3(B0(d))), k.w0), X(X(X(X(T0(B1(a)), T1(B1(b))), T2(B1(c))), T3(B1(d))), k.w1),
                  X(X(X(X(T0(B2(a)), T1(B2(b))), T2(B2(c))), T3(B2(d))), k.w2), X(X(X(X(T0(B3(a)), T1(B3(b))), T2(B3(c))), T3(B3(d))), k.w3))
  {
    hide T0, T1, T2, T3, X, B0, B1, B2, B3;
  }

  lemma LastFour(a: bv32, b: bv32, c: bv32, d: bv32, k: Block)
    ensures LastRound(Block(a, b, c, d), k) ==
            Block(X(LastLookup(B0(a), B0(b), B0(c), B0(d)), k.w0), X(LastLookup(B1(a), B1(b), B1(c), B1(d)), k.w1),
                  X(LastLookup(B2(a), B2(b), B2(c), B2(d)), k.w2), X(LastLookup(B3(a), B3(b), B3(c), B3(d)), k.w3))
  {
    hide LastLookup, X, B0, B1, B2, B3;
  }

  lemma State1()
    ensures Evolve([0xfefefefe, 0xfefefefe, 0xfefefefe, 0xfefefefe], RC[0]) == [0x10fe85de, 0xaaaaaaaa, 0xaaaaaaaa, 0xaaaaaaaa]
  {
    hide Evolve;
    EvolveFour(0xfefefefe, 0xfefefefe, 0xfefefefe, 0xfefefefe, 0xba542f74);
  }

  lemma State2()
    ensures Evolve([0x10fe85de, 0xaaaaaaaa, 0xaaaaaaaa, 0xaaaaaaaa], RC[1]) == [0xb9057ccb, 0x56aa1bb3, 0xfb77b872, 0x90412f18]
  {
    hide Evolve;
    EvolveFour(0x10fe85de, 0xaaaaaaaa, 0xaaaaaaaa, 0xaaaaaaaa, 0x53d3d24d);
  }

  lemma State3()
    ensures Evolve([0xb9057ccb, 0x56aa1bb3, 0xfb77b872, 0x90412f18], RC[2]) == [0x28d49c8d, 0x01c159ff, 0x2bf7690d, 0xac74ebe0]
  {
    hide Evolve;
    EvolveFour(0xb9057ccb, 0x56aa1bb3, 0xfb77b872, 0x90412f18, 0x50ac8dbf);
  }

  lemma State4()
    ensures Evolve([0x28d49c8d, 0x01c159ff, 0x2bf7690d, 0xac74ebe0], RC[3]) == [0x580432f6, 0xd8a7f9f1, 0x01b0c3d4, 0xe68e7086]
  {
    hide Evolve;
    EvolveFour(0x28d49c8d, 0x01c159ff, 0x2bf7690d, 0xac74ebe0, 0x70529a4c);
  }

  lemma State5()
    ensures Evolve([0x580432f6, 0xd8a7f9f1, 0x01b0c3d4, 0xe68e7086], RC[4]) == [0x6416b20e, 0x48bc998d, 0x915fe82a, 0xafe4bc7d]
  {
    hide Evolve;
    EvolveFour(0x580432f6, 0xd8a7f9f1, 0x01b0c3d4, 0xe68e7086, 0xead597d1);
  }

  lemma State6()
    ensures Evolve([0x6416b20e, 0x48bc998d, 0x915fe82a, 0xafe4bc7d], RC[5]) == [0x2ee4c935, 0x3fda81b9, 0xfc3a1ad4, 0x29ac87f5]
  {
    hide Evolve;
    EvolveFour(0x6416b20e, 0x48bc998d, 0x915fe82a, 0xafe4bc7d, 0x33515ba6);
  }

  lemma State7()
    ensures Evolve([0x2ee4c935, 0x3fda81b9, 0xfc3a1ad4, 0x29ac87f5], RC[6]) == [0xba740811, 0x03fadfa3, 0x928b4041, 0x0434483b]
  {
    hide Evolve;
    EvolveFour(0x2ee4c935, 0x3fda81b9, 0xfc3a1ad4, 0x29ac87f5, 0xde48a899);
  }

  lemma State8()
    ensures Evolve([0xba740811, 0x03fadfa3, 0x928b4041, 0x0434483b], RC[7]) == [0xd54621c2, 0xc225923d, 0x31b94333, 0x9d956110]
  {
    hide Evolve;
    EvolveFour(0xba740811, 0x03fadfa3, 0x928b4041, 0x0434483b, 0xdb32b7fc);
  }

  lemma State9()
    ensures Evolve([0xd54621c2, 0xc225923d, 0x31b94333, 0x9d956110], RC[8]) == [0xf6b676cc, 0x98cbbf0b, 0xabc2ddbf, 0x6e157226]
  {
    hide Evolve;
    EvolveFour(0xd54621c2, 0xc225923d, 0x31b94333, 0x9d956110, 0xe39e919b);
  }

  lemma State10()
    ensures Evolve([0xf6b676cc, 0x98cbbf0b, 0xabc2ddbf, 0x6e157226], RC[9]) == [0xf633355b, 0x51feb75c, 0x02d63150, 0x685baf6f]
  {
    hide Evolve;
    EvolveFour(0xf6b676cc, 0x98cbbf0b, 0xabc2ddbf, 0x6e157226, 0xe2bb416e);
  }

  lemma State11()
    ensures Evolve([0xf633355b, 0x51feb75c, 0x02d63150, 0x685baf6f], RC[10]) == [0x56571006, 0x28a772ba, 0x7ea688f0, 0x908fc8da]
  {
    hide Evolve;
    EvolveFour(0xf633355b, 0x51feb75c, 0x02d63150, 0x685baf6f, 0xa5cb6b95);
  }

  lemma State12()
    ensures Evolve([0x56571006, 0x28a772ba, 0x7ea688f0, 0x908fc8da], RC[11]) == [0x3ec995c7, 0x0d0d6d8a, 0xea91aa47, 0xf0624dc7]
  {
    hide Evolve;
    EvolveFour(0x56571006, 0x28a772ba, 0x7ea688f0, 0x908fc8da, 0xa1f3b102);
  }

  lemma Key0Word0()
    ensures T4(0xfe) == 0xaaaaaaaa && Turn(0xfe, 0xaaaaaaaa) == 0x00e37193
         && Turn(0xfe, 0x00e37193) == 0xaa719146 && Turn(0xfe, 0xaa719146) == 0x0048eba0
  {
    hide Turn;
    TurnFive(0xfe, 0xaaaaaaaa);
    TurnFive(0xfe, 0x00e37193);
    TurnFive(0xfe, 0xaa719146);
  }

  lemma Key0Word1()
    ensures T4(0xfe) == 0xaaaaaaaa && Turn(0xfe, 0xaaaaaaaa) == 0x00e37193
         && Turn(0xfe, 0x00e37193) == 0xaa719146 && Turn(0xfe, 0xaa719146) == 0x0048eba0
  {
    hide Turn;
    TurnFive(0xfe, 0xaaaaaaaa);
    TurnFive(0xfe, 0x00e37193);
    TurnFive(0xfe, 0xaa719146);
  }

  lemma Key0Word2()
    ensures T4(0xfe) == 0xaaaaaaaa && Turn(0xfe, 0xaaaaaaaa) == 0x00e37193
         && Turn(0xfe, 0x00e37193) == 0xaa719146 && Turn(0xfe, 0xaa719146) == 0x0048eba0
  {
    hide Turn;
    TurnFive(0xfe, 0xaaaaaaaa);
    TurnFive(0xfe, 0x00e37193);
    TurnFive(0xfe, 0xaa719146);
  }

  lemma Key0Word3()
    ensures T4(0xfe) == 0xaaaaaaaa && Turn(0xfe, 0xaaaaaaaa) == 0x00e37193
         && Turn(0xfe, 0x00e37193) == 0xaa719146 && Turn(0xfe, 0xaa719146) == 0x0048eba0
  {
    hide Turn;
    TurnFive(0xfe, 0xaaaaaaaa);
    TurnFive(0xfe, 0x00e37193);
    TurnFive(0xfe, 0xaa719146);
  }

  lemma Key0()
    ensures Extract([0xfefefefe, 0xfefefefe, 0xfefefefe, 0xfefefefe]) == Block(0x0048eba0, 0x0048eba0, 0x0048eba0, 0x0048eba0)
  {
    hide Extract, Turn, T4;
    ExtractFour(0xfefefefe, 0xfefefefe, 0xfefefefe, 0xfefefefe);
    Key0Word0();
    Key0Word1();
    Key0Word2();
    Key0Word3();
  }

  lemma Key1Word0()
    ensures T4(0xaa) == 0xfefefefe && Turn(0xaa, 0xfefefefe) == 0x001fc05d
         && Turn(0xaa, 0x001fc05d) == 0xfec0442c && Turn(0x10, 0xfec0442c) == 0x14776f97
  {
    hide Turn;
    TurnFive(0xaa, 0xfefefefe);
    TurnFive(0xaa, 0x001fc05d);
    TurnFive(0x10, 0xfec0442c);
  }

  lemma Key1Word1()
    ensures T4(0xaa) == 0xfefefefe && Turn(0xaa, 0xfefefefe) == 0x001fc05d
         && Turn(0xaa, 0x001fc05d) == 0xfec0442c && Turn(0xfe, 0xfec0442c) == 0x54372fd7
  {
    hide Turn;
    TurnFive(0xaa, 0xfefefefe);
    TurnFive(0xaa, 0x001fc05d);
    TurnFive(0xfe, 0xfec0442c);
  }

  lemma Key1Word2()
    ensures T4(0xaa) == 0xfefefefe && Turn(0xaa, 0xfefefefe) == 0x001fc05d
         && Turn(0xaa, 0x001fc05d) == 0xfec0442c && Turn(0x85, 0xfec0442c) == 0x46253dc5
  {
    hide Turn;
    TurnFive(0xaa, 0xfefefefe);
    TurnFive(0xaa, 0x001fc05d);
    TurnFive(0x85, 0xfec0442c);
  }

  lemma Key1Word3()
    ensures T4(0xaa) == 0xfefefefe && Turn(0xaa, 0xfefefefe) == 0x001fc05d
         && Turn(0xaa, 0x001fc05d) == 0xfec0442c && Turn(0xde, 0xfec0442c) == 0xe6859d65
  {
    hide Turn;
    TurnFive(0xaa, 0xfefefefe);
    TurnFive(0xaa, 0x001fc05d);
    TurnFive(0xde, 0xfec0442c);
  }

  lemma Key1()
    ensures Extract([0x10fe85de, 0xaaaaaaaa, 0xaaaaaaaa, 0xaaaaaaaa]) == Block(0x14776f97, 0x54372fd7, 0x46253dc5, 0xe6859d65)
  {
    hide Extract, Turn, T4;
    ExtractFour(0x10fe85de, 0xaaaaaaaa, 0xaaaaaaaa, 0xaaaaaaaa);
    Key1Word0();
    Key1Word1();
    Key1Word2();
    Key1Word3();
  }

  lemma Key2Word0()
    ensures T4(0x90) == 0xb5b5b5b5 && Turn(0xfb, 0xb5b5b5b5) == 0xfa38d68e
         && Turn(0x56, 0xfa38d68e) == 0x25af11db && Turn(0xb9, 0x25af11db) == 0x452306f6
  {
    hide Turn;
    TurnFive(0xfb, 0xb5b5b5b5);
    TurnFive(0x56, 0xfa38d68e);
    TurnFive(0xb9, 0x25af11db);
  }

  lemma Key2Word1()
    ensures T4(0x41) == 0x26262626 && Turn(0x77, 0x26262626) == 0xf09a02fb
         && Turn(0xaa, 0xf09a02fb) == 0x0ed7f275 && Turn(0x05, 0x0ed7f275) == 0xdd60c55c
  {
    hide Turn;
    TurnFive(0x77, 0x26262626);
    TurnFive(0xaa, 0xf09a02fb);
    TurnFive(0x05, 0x0ed7f275);
  }

  lemma Key2Word2()
    ensures T4(0x2f) == 0x02020202 && Turn(0xb8, 0x02020202) == 0x87818995
         && Turn(0x1b, 0x87818995) == 0x1e868845 && Turn(0x7c, 0x1e868845) == 0xc9c6c0c5
  {
    hide Turn;
    TurnFive(0xb8, 0x02020202);
    TurnFive(0x1b, 0x87818995);
    TurnFive(0x7c, 0x1e868845);
  }

  lemma Key2Word3()
    ensures T4(0x18) == 0xdededede && Turn(0x72, 0xdededede) == 0xb6c996d6
         && Turn(0xb3, 0xb6c996d6) == 0x566fb31e && Turn(0xcb, 0x566fb31e) == 0x7ff7a4d9
  {
    hide Turn;
    TurnFive(0x72, 0xdededede);
    TurnFive(0xb3, 0xb6c996d6);
    TurnFive(0xcb, 0x566fb31e);
  }

  lemma Key2()
    ensures Extract([0xb9057ccb, 0x56aa1bb3, 0xfb77b872, 0x90412f18]) == Block(0x452306f6, 0xdd60c55c, 0xc9c6c0c5, 0x7ff7a4d9)
  {
    hide Extract, Turn, T4;
    ExtractFour(0xb9057ccb, 0x56aa1bb3, 0xfb77b872, 0x90412f18);
    Key2Word0();
    Key2Word1();
    Key2Word2();
    Key2Word3();
  }

  lemma Key3Word0()
    ensures T4(0xac) == 0x09090909 && Turn(0x2b, 0x09090909) == 0x9c87a3dd
         && Turn(0x01, 0x9c87a3dd) == 0xc847b9f2 && Turn(0x28, 0xc847b9f2) == 0x6d2b1466
  {
    hide Turn;
    TurnFive(0x2b, 0x09090909);
    TurnFive(0x01, 0x9c87a3dd);
    TurnFive(0x28, 0xc847b9f2);
  }

  lemma Key3Word1()
    ensures T4(0x74) == 0x03030303 && Turn(0xf7, 0x03030303) == 0x43464a58
         && Turn(0xc1, 0x43464a58) == 0x36f9d48f && Turn(0xd4, 0x36f9d48f) == 0xf32a07c9
  {
    hide Turn;
    TurnFive(0xf7, 0x03030303);
    TurnFive(0xc1, 0x43464a58);
    TurnFive(0xd4, 0x36f9d48f);
  }

  lemma Key3Word2()
    ensures T4(0xeb) == 0xb4b4b4b4 && Turn(0x69, 0xb4b4b4b4) == 0x3cfd1741
         && Turn(0x59, 0x3cfd1741) == 0xe13aafef && Turn(0x9c, 0xe13aafef) == 0x148130de
  {
    hide Turn;
    TurnFive(0x69, 0xb4b4b4b4);
    TurnFive(0x59, 0x3cfd1741);
    TurnFive(0x9c, 0xe13aafef);
  }

  lemma Key3Word3()
    ensures T4(0xe0) == 0xb3b3b3b3 && Turn(0x0d, 0xb3b3b3b3) == 0xe129dfa3
         && Turn(0xff, 0xe129dfa3) == 0xa310ba33 && Turn(0x8d, 0xa310ba33) == 0xa92ab18f
  {
    hide Turn;
    TurnFive(0x0d, 0xb3b3b3b3);
    TurnFive(0xff, 0xe129dfa3);
    TurnFive(0x8d, 0xa310ba33);
  }

  lemma Key3()
    ensures Extract([0x28d49c8d, 0x01c159ff, 0x2bf7690d, 0xac74ebe0]) == Block(0x6d2b1466, 0xf32a07c9, 0x148130de, 0xa92ab18f)
  {
    hide Extract, Turn, T4;
    ExtractFour(0x28d49c8d, 0x01c159ff, 0x2bf7690d, 0xac74ebe0);
    Key3Word0();
    Key3Word1();
    Key3Word2();
    Key3Word3();
  }

  lemma Key4Word0()
    ensures T4(0xe6) == 0xa3a3a3a3 && Turn(0x01, 0xa3a3a3a3) == 0xf70fb925
         && Turn(0xd8, 0xf70fb925) == 0x8d64cb4f && Turn(0x58, 0x8d64cb4f) == 0xf4b1f93b
  {
    hide Turn;
    TurnFive(0x01, 0xa3a3a3a3);
    TurnFive(0xd8, 0xf70fb925);
    TurnFive(0x58, 0x8d64cb4f);
  }

  lemma Key4Word1()
    ensures T4(0x8e) == 0x47474747 && Turn(0xb0, 0x47474747) == 0xa66f6ee3
         && Turn(0xa7, 0xa66f6ee3) == 0x245cfbc9 && Turn(0x04, 0x245cfbc9) == 0x77eb7355
  {
    hide Turn;
    TurnFive(0xb0, 0x47474747);
    TurnFive(0xa7, 0xa66f6ee3);
    TurnFive(0x04, 0x245cfbc9);
  }

  lemma Key4Word2()
    ensures T4(0x70) == 0x0c0c0c0c && Turn(0xc3, 0x0c0c0c0c) == 0x382c1c54
         && Turn(0xf9, 0x382c1c54) == 0x9afaea38 && Turn(0x32, 0x9afaea38) == 0x87f45bc0
  {
    hide Turn;
    TurnFive(0xc3, 0x0c0c0c0c);
    TurnFive(0xf9, 0x382c1c54);
    TurnFive(0x32, 0x9afaea38);
  }

  lemma Key4Word3()
    ensures T4(0x86) == 0xc7c7c7c7 && Turn(0xd4, 0xc7c7c7c7) == 0x02566db3
         && Turn(0xf1, 0x02566db3) == 0xbf11ce4c && Turn(0xf6, 0xbf11ce4c) == 0xd548f430
  {
    hide Turn;
    TurnFive(0xd4, 0xc7c7c7c7);
    TurnFive(0xf1, 0x02566db3);
    TurnFive(0xf6, 0xbf11ce4c);
  }

  lemma Key4()
    ensures Extract([0x580432f6, 0xd8a7f9f1, 0x01b0c3d4, 0xe68e7086]) == Block(0xf4b1f93b, 0x77eb7355, 0x87f45bc0, 0xd548f430)
  {
    hide Extract, Turn, T4;
    ExtractFour(0x580432f6, 0xd8a7f9f1, 0x01b0c3d4, 0xe68e7086);
    Key4Word0();
    Key4Word1();
    Key4Word2();
    Key4Word3();
  }

  lemma Key5Word0()
    ensures T4(0xaf) == 0x4e4e4e4e && Turn(0x91, 0x4e4e4e4e) == 0x6cbe9b68
         && Turn(0x48, 0x6cbe9b68) == 0x7578647e && Turn(0x64, 0x7578647e) == 0x20a51082
  {
    hide Turn;
    TurnFive(0x91, 0x4e4e4e4e);
    TurnFive(0x48, 0x6cbe9b68);
    TurnFive(0x64, 0x7578647e);
  }

  lemma Key5Word1()
    ensures T4(0xe4) == 0xb2b2b2b2 && Turn(0x5f, 0xb2b2b2b2) == 0x8a41b3c1
         && Turn(0xbc, 0x8a41b3c1) == 0x7e7679b2 && Turn(0x16, 0x7e7679b2) == 0x25b750a2
  {
    hide Turn;
    TurnFive(0x5f, 0xb2b2b2b2);
    TurnFive(0xbc, 0x8a41b3c1);
    TurnFive(0x16, 0x7e7679b2);
  }

  lemma Key5Word2()
    ensures T4(0xbc) == 0xf4f4f4f4 && Turn(0xe8, 0xf4f4f4f4) == 0xb0b146b7
         && Turn(0x99, 0xb0b146b7) == 0xab6492ca && Turn(0xb2, 0xab6492ca) == 0x4f2caffa
  {
    hide Turn;
    TurnFive(0xe8, 0xf4f4f4f4);
    TurnFive(0x99, 0xb0b146b7);
    TurnFive(0xb2, 0xab6492ca);
  }

  lemma Key5Word3()
    ensures T4(0x7d) == 0x3a3a3a3a && Turn(0x2a, 0x3a3a3a3a) == 0x511ff7a6
         && Turn(0x8d, 0x511ff7a6) == 0x5b340253 && Turn(0x0e, 0x5b340253) == 0xc1f29638
  {
    hide Turn;
    TurnFive(0x2a, 0x3a3a3a3a);
    TurnFive(0x8d, 0x511ff7a6);
    TurnFive(0x0e, 0x5b340253);
  }

  lemma Key5()
    ensures Extract([0x6416b20e, 0x48bc998d, 0x915fe82a, 0xafe4bc7d]) == Block(0x20a51082, 0x25b750a2, 0x4f2caffa, 0xc1f29638)
  {
    hide Extract, Turn, T4;
    ExtractFour(0x6416b20e, 0x48bc998d, 0x915fe82a, 0xafe4bc7d);
    Key5Word0();
    Key5Word1();
    Key5Word2();
    Key5Word3();
  }

  lemma Key6Word0()
    ensures T4(0x29) == 0xcbcbcbcb && Turn(0xfc, 0xcbcbcbcb) == 0xd4949f09
         && Turn(0x3f, 0xd4949f09) == 0x88693914 && Turn(0x2e, 0x88693914) == 0x39632711
  {
    hide Turn;
    TurnFive(0xfc, 0xcbcbcbcb);
    TurnFive(0x3f, 0xd4949f09);
    TurnFive(0x2e, 0x88693914);
  }

  lemma Key6Word1()
    ensures T4(0xac) == 0x09090909 && Turn(0x3a, 0x09090909) == 0x746f4b35
         && Turn(0xda, 0x746f4b35) == 0x42e89183 && Turn(0xe4, 0x42e89183) == 0xf07ff3de
  {
    hide Turn;
    TurnFive(0x3a, 0x09090909);
    TurnFive(0xda, 0x746f4b35);
    TurnFive(0xe4, 0x42e89183);
  }

  lemma Key6Word2()
    ensures T4(0x87) == 0xaeaeaeae && Turn(0x1a, 0xaeaeaeae) == 0x06e96bb1
         && Turn(0x81, 0x06e96bb1) == 0x9059f177 && Turn(0xc9, 0x9059f177) == 0x3d1fb132
  {
    hide Turn;
    TurnFive(0x1a, 0xaeaeaeae);
    TurnFive(0x81, 0x06e96bb1);
    TurnFive(0xc9, 0x9059f177);
  }

  lemma Key6Word3()
    ensures T4(0xf5) == 0x9c9c9c9c && Turn(0xd4, 0x9c9c9c9c) == 0x59e0aa51
         && Turn(0xb9, 0x59e0aa51) == 0x39bdbbd2 && Turn(0x35, 0x39bdbbd2) == 0x5a04debd
  {
    hide Turn;
    TurnFive(0xd4, 0x9c9c9c9c);
    TurnFive(0xb9, 0x59e0aa51);
    TurnFive(0x35, 0x39bdbbd2);
  }

  lemma Key6()
    ensures Extract([0x2ee4c935, 0x3fda81b9, 0xfc3a1ad4, 0x29ac87f5]) == Block(0x39632711, 0xf07ff3de, 0x3d1fb132, 0x5a04debd)
  {
    hide Extract, Turn, T4;
    ExtractFour(0x2ee4c935, 0x3fda81b9, 0xfc3a1ad4, 0x29ac87f5);
    Key6Word0();
    Key6Word1();
    Key6Word2();
    Key6Word3();
  }

  lemma Key7Word0()
    ensures T4(0x04) == 0x53535353 && Turn(0x92, 0x53535353) == 0xb6431247
         && Turn(0x03, 0xb6431247) == 0xc2f21876 && Turn(0xba, 0xc2f21876) == 0xc2f95097
  {
    hide Turn;
    TurnFive(0x92, 0x53535353);
    TurnFive(0x03, 0xb6431247);
    TurnFive(0xba, 0xc2f21876);
  }

  lemma Key7Word1()
    ensures T4(0x34) == 0xc3c3c3c3 && Turn(0x8b, 0xc3c3c3c3) == 0x6a3219ff
         && Turn(0xfa, 0x6a3219ff) == 0xeae4d62b && Turn(0x74, 0xeae4d62b) == 0xe9d6cd46
  {
    hide Turn;
    TurnFive(0x8b, 0xc3c3c3c3);
    TurnFive(0xfa, 0x6a3219ff);
    TurnFive(0x74, 0xeae4d62b);
  }

  lemma Key7Word2()
    ensures T4(0x48) == 0x19191919 && Turn(0x40, 0x19191919) == 0xeec5a13f
         && Turn(0xdf, 0xeec5a13f) == 0xb8c1b7b3 && Turn(0x08, 0xb8c1b7b3) == 0xe8cfc5a1
  {
    hide Turn;
    TurnFive(0x40, 0x19191919);
    TurnFive(0xdf, 0xeec5a13f);
    TurnFive(0x08, 0xb8c1b7b3);
  }

  lemma Key7Word3()
    ensures T4(0x3b) == 0xcdcdcdcd && Turn(0x41, 0xcdcdcdcd) == 0xeba1b200
         && Turn(0xa3, 0xeba1b200) == 0x0db96de6 && Turn(0x11, 0x0db96de6) == 0xd8baa6b6
  {
    hide Turn;
    TurnFive(0x41, 0xcdcdcdcd);
    TurnFive(0xa3, 0xeba1b200);
    TurnFive(0x11, 0x0db96de6);
  }

  lemma Key7()
    ensures Extract([0xba740811, 0x03fadfa3, 0x928b4041, 0x0434483b]) == Block(0xc2f95097, 0xe9d6cd46, 0xe8cfc5a1, 0xd8baa6b6)
  {
    hide Extract, Turn, T4;
    ExtractFour(0xba740811, 0x03fadfa3, 0x928b4041, 0x0434483b);
    Key7Word0();
    Key7Word1();
    Key7Word2();
    Key7Word3();
  }

  lemma Key8Word0()
    ensures T4(0x9d) == 0x45454545 && Turn(0x31, 0x45454545) == 0x814e47d6
         && Turn(0xc2, 0x814e47d6) == 0x6e736011 && Turn(0xd5, 0x6e736011) == 0x7ff74c99
  {
    hide Turn;
    TurnFive(0x31, 0x45454545);
    TurnFive(0xc2, 0x814e47d6);
    TurnFive(0xd5, 0x6e736011);
  }

  lemma Key8Word1()
    ensures T4(0x95) == 0x2b2b2b2b && Turn(0xb9, 0x2b2b2b2b) == 0x4b369a25
         && Turn(0x25, 0x4b369a25) == 0xf0d7c08e && Turn(0x46, 0xf0d7c08e) == 0x9fdcd56b
  {
    hide Turn;
    TurnFive(0xb9, 0x2b2b2b2b);
    TurnFive(0x25, 0x4b369a25);
    TurnFive(0x46, 0xf0d7c08e);
  }

  lemma Key8Word2()
    ensures T4(0x61) == 0x73737373 && Turn(0x43, 0x73737373) == 0x9e0bda52
         && Turn(0x92, 0x9e0bda52) == 0x7bf3034f && Turn(0x21, 0x7bf3034f) == 0xe56594dc
  {
    hide Turn;
    TurnFive(0x43, 0x73737373);
    TurnFive(0x92, 0x9e0bda52);
    TurnFive(0x21, 0x7bf3034f);
  }

  lemma Key8Word3()
    ensures T4(0x10) == 0xeaeaeaea && Turn(0x33, 0xeaeaeaea) == 0xfedd5217
         && Turn(0x3d, 0xfedd5217) == 0xa4fdabe2 && Turn(0xc2, 0xa4fdabe2) == 0x4b0832ac
  {
    hide Turn;
    TurnFive(0x33, 0xeaeaeaea);
    TurnFive(0x3d, 0xfedd5217);
    TurnFive(0xc2, 0xa4fdabe2);
  }

  lemma Key8()
    ensures Extract([0xd54621c2, 0xc225923d, 0x31b94333, 0x9d956110]) == Block(0x7ff74c99, 0x9fdcd56b, 0xe56594dc, 0x4b0832ac)
  {
    hide Extract, Turn, T4;
    ExtractFour(0xd54621c2, 0xc225923d, 0x31b94333, 0x9d956110);
    Key8Word0();
    Key8Word1();
    Key8Word2();
    Key8Word3();
  }

  lemma Key9Word0()
    ensures T4(0x6e) == 0x27272727 && Turn(0xab, 0x27272727) == 0xadc458af
         && Turn(0x98, 0xadc458af) == 0x2e164e92 && Turn(0xf6, 0x2e164e92) == 0x4446d38e
  {
    hide Turn;
    TurnFive(0xab, 0x27272727);
    TurnFive(0x98, 0xadc458af);
    TurnFive(0xf6, 0x2e164e92);
  }

  lemma Key9Word1()
    ensures T4(0x15) == 0x51515151 && Turn(0xc2, 0x51515151) == 0xbe4d145d
         && Turn(0xcb, 0xbe4d145d) == 0x97b351fb && Turn(0xb6, 0x97b351fb) == 0x33df5f2f
  {
    hide Turn;
    TurnFive(0xc2, 0x51515151);
    TurnFive(0xcb, 0xbe4d145d);
    TurnFive(0xb6, 0x97b351fb);
  }

  lemma Key9Word2()
    ensures T4(0x72) == 0x68686868 && Turn(0xdd, 0x68686868) == 0x3189343e
         && Turn(0xbf, 0x3189343e) == 0x3a04b3e6 && Turn(0x76, 0x3a04b3e6) == 0x6d5fda34
  {
    hide Turn;
    TurnFive(0xdd, 0x68686868);
    TurnFive(0xbf, 0x3189343e);
    TurnFive(0x76, 0x3a04b3e6);
  }

  lemma Key9Word3()
    ensures T4(0x26) == 0x41414141 && Turn(0xbf, 0x41414141) == 0x4a899039
         && Turn(0x0b, 0x4a899039) == 0xf5b0f86a && Turn(0xcc, 0xf5b0f86a) == 0xc54d1a47
  {
    hide Turn;
    TurnFive(0xbf, 0x41414141);
    TurnFive(0x0b, 0x4a899039);
    TurnFive(0xcc, 0xf5b0f86a);
  }

  lemma Key9()
    ensures Extract([0xf6b676cc, 0x98cbbf0b, 0xabc2ddbf, 0x6e157226]) == Block(0x4446d38e, 0x33df5f2f, 0x6d5fda34, 0xc54d1a47)
  {
    hide Extract, Turn, T4;
    ExtractFour(0xf6b676cc, 0x98cbbf0b, 0xabc2ddbf, 0x6e157226);
    Key9Word0();
    Key9Word1();
    Key9Word2();
    Key9Word3();
  }

  lemma Key10Word0()
    ensures T4(0x68) == 0x72727272 && Turn(0x02, 0x72727272) == 0x5dcb1e98
         && Turn(0x51, 0x5dcb1e98) == 0x489e51a1 && Turn(0xf6, 0x489e51a1) == 0x224b910b
  {
    hide Turn;
    TurnFive(0x02, 0x72727272);
    TurnFive(0x51, 0x5dcb1e98);
    TurnFive(0xf6, 0x489e51a1);
  }

  lemma Key10Word1()
    ensures T4(0x5b) == 0x16161616 && Turn(0xd6, 0x16161616) == 0x615b03c7
         && Turn(0xfe, 0x615b03c7) == 0xcb1ca0dc && Turn(0x33, 0xcb1ca0dc) == 0xdf2cf3ba
  {
    hide Turn;
    TurnFive(0xd6, 0x16161616);
    TurnFive(0xfe, 0x615b03c7);
    TurnFive(0x33, 0xcb1ca0dc);
  }

  lemma Key10Word2()
    ensures T4(0xaf) == 0x4e4e4e4e && Turn(0x31, 0x4e4e4e4e) == 0x8a587d8e
         && Turn(0xb7, 0x8a587d8e) == 0x94ae0d1a && Turn(0x35, 0x94ae0d1a) == 0xf7224db3
  {
    hide Turn;
    TurnFive(0x31, 0x4e4e4e4e);
    TurnFive(0xb7, 0x8a587d8e);
    TurnFive(0x35, 0x94ae0d1a);
  }

  lemma Key10Word3()
    ensures T4(0x6f) == 0x46464646 && Turn(0x50, 0x46464646) == 0x4e848102
         && Turn(0x5c, 0x4e848102) == 0x712a1e2f && Turn(0x5b, 0x712a1e2f) == 0x67425273
  {
    hide Turn;
    TurnFive(0x50, 0x46464646);
    TurnFive(0x5c, 0x4e848102);
    TurnFive(0x5b, 0x712a1e2f);
  }

  lemma Key10()
    ensures Extract([0xf633355b, 0x51feb75c, 0x02d63150, 0x685baf6f]) == Block(0x224b910b, 0xdf2cf3ba, 0xf7224db3, 0x67425273)
  {
    hide Extract, Turn, T4;
    ExtractFour(0xf633355b, 0x51feb75c, 0x02d63150, 0x685baf6f);
    Key10Word0();
    Key10Word1();
    Key10Word2();
    Key10Word3();
  }

  lemma Key11Word0()
    ensures T4(0x90) == 0xb5b5b5b5 && Turn(0x7e, 0xb5b5b5b5) == 0x7dbf5109
         && Turn(0x28, 0x7dbf5109) == 0xd8c65eed && Turn(0x56, 0xd8c65eed) == 0x074e06e4
  {
    hide Turn;
    TurnFive(0x7e, 0xb5b5b5b5);
    TurnFive(0x28, 0x7dbf5109);
    TurnFive(0x56, 0xd8c65eed);
  }

  lemma Key11Word1()
    ensures T4(0x8f) == 0xf2f2f2f2 && Turn(0xa6, 0xf2f2f2f2) == 0xe5ee01d4
         && Turn(0xa7, 0xe5ee01d4) == 0x6743846c && Turn(0x57, 0x6743846c) == 0x11f04931
  {
    hide Turn;
    TurnFive(0xa6, 0xf2f2f2f2);
    TurnFive(0xa7, 0xe5ee01d4);
    TurnFive(0x57, 0x6743846c);
  }

  lemma Key11Word2()
    ensures T4(0xc8) == 0x7e7e7e7e && Turn(0x88, 0x7e7e7e7e) == 0x179570be
         && Turn(0x72, 0x179570be) == 0x7f5f55f1 && Turn(0x10, 0x7f5f55f1) == 0x95540931
  {
    hide Turn;
    TurnFive(0x88, 0x7e7e7e7e);
    TurnFive(0x72, 0x179570be);
    TurnFive(0x10, 0x7f5f55f1);
  }

  lemma Key11Word3()
    ensures T4(0xda) == 0x36363636 && Turn(0xf0, 0x36363636) == 0x7c26fee7
         && Turn(0xba, 0x7c26fee7) == 0x7c4c3e6b && Turn(0x06, 0x7c4c3e6b) == 0xae4a56ad
  {
    hide Turn;
    TurnFive(0xf0, 0x36363636);
    TurnFive(0xba, 0x7c26fee7);
    TurnFive(0x06, 0x7c4c3e6b);
  }

  lemma Key11()
    ensures Extract([0x56571006, 0x28a772ba, 0x7ea688f0, 0x908fc8da]) == Block(0x074e06e4, 0x11f04931, 0x95540931, 0xae4a56ad)
  {
    hide Extract, Turn, T4;
    ExtractFour(0x56571006, 0x28a772ba, 0x7ea688f0, 0x908fc8da);
    Key11Word0();
    Key11Word1();
    Key11Word2();
    Key11Word3();
  }

  lemma Key12Word0()
    ensures T4(0xf0) == 0x4a4a4a4a && Turn(0xea, 0x4a4a4a4a) == 0x5a84b17a
         && Turn(0x0d, 0x5a84b17a) == 0x0847d3a5 && Turn(0x3e, 0x0847d3a5) == 0x64e2bc2d
  {
    hide Turn;
    TurnFive(0xea, 0x4a4a4a4a);
    TurnFive(0x0d, 0x5a84b17a);
    TurnFive(0x3e, 0x0847d3a5);
  }

  lemma Key12Word1()
    ensures T4(0x62) == 0xe9e9e9e9 && Turn(0x91, 0xe9e9e9e9) == 0xcbed6e39
         && Turn(0x0d, 0xcbed6e39) == 0x99952b87 && Turn(0xc9, 0x99952b87) == 0x349a57e1
  {
    hide Turn;
    TurnFive(0x91, 0xe9e9e9e9);
    TurnFive(0x0d, 0xcbed6e39);
    TurnFive(0xc9, 0x99952b87);
  }

  lemma Key12Word2()
    ensures T4(0x4d) == 0x07070707 && Turn(0xaa, 0x07070707) == 0xf9f0ecc6
         && Turn(0x6d, 0xf9f0ecc6) == 0xa7a30c20 && Turn(0x95, 0xa7a30c20) == 0x8c700336
  {
    hide Turn;
    TurnFive(0xaa, 0x07070707);
    TurnFive(0x6d, 0xf9f0ecc6);
    TurnFive(0x95, 0xa7a30c20);
  }

  lemma Key12Word3()
    ensures T4(0xc7) == 0x86868686 && Turn(0x47, 0x86868686) == 0x089fbdca
         && Turn(0x8a, 0x089fbdca) == 0xa38802b5 && Turn(0xc7, 0xa38802b5) == 0x258b8a47
  {
    hide Turn;
    TurnFive(0x47, 0x86868686);
    TurnFive(0x8a, 0x089fbdca);
    TurnFive(0xc7, 0xa38802b5);
  }

  lemma Key12()
    ensures Extract([0x3ec995c7, 0x0d0d6d8a, 0xea91aa47, 0xf0624dc7]) == Block(0x64e2bc2d, 0x349a57e1, 0x8c700336, 0x258b8a47)
  {
    hide Extract, Turn, T4;
    ExtractFour(0x3ec995c7, 0x0d0d6d8a, 0xea91aa47, 0xf0624dc7);
    Key12Word0();
    Key12Word1();
    Key12Word2();
    Key12Word3();
  }

  lemma Round1()
    ensures Round(Block(0xfeb6155e, 0xfeb6155e, 0xfeb6155e, 0xfeb6155e), Block(0x14776f97, 0x54372fd7, 0x46253dc5, 0xe6859d65)) == Block(0xbeddc53d, 0xf0938b73, 0x17746c94, 0x8be8f008)
  {
    hide Round;
    RoundFour(0xfeb6155e, 0xfeb6155e, 0xfeb6155e, 0xfeb6155e, Block(0x14776f97, 0x54372fd7, 0x46253dc5, 0xe6859d65));
  }

  lemma Round2()
    ensures Round(Block(0xbeddc53d, 0xf0938b73, 0x17746c94, 0x8be8f008), Block(0x452306f6, 0xdd60c55c, 0xc9c6c0c5, 0x7ff7a4d9)) == Block(0x36312464, 0xcc3b694a, 0x0b6bccaf, 0xd8dc94b0)
  {
    hide Round;
    RoundFour(0xbeddc53d, 0xf0938b73, 0x17746c94, 0x8be8f008, Block(0x452306f6, 0xdd60c55c, 0xc9c6c0c5, 0x7ff7a4d9));
  }

  lemma Round3()
    ensures Round(Block(0x36312464, 0xcc3b694a, 0x0b6bccaf, 0xd8dc94b0), Block(0x6d2b1466, 0xf32a07c9, 0x148130de, 0xa92ab18f)) == Block(0x10e2b059, 0x8e6afc15, 0x98b2d96c, 0x586a73f6)
  {
    hide Round;
    RoundFour(0x36312464, 0xcc3b694a, 0x0b6bccaf, 0xd8dc94b0, Block(0x6d2b1466, 0xf32a07c9, 0x148130de, 0xa92ab18f));
  }

  lemma Round4()
    ensures Round(Block(0x10e2b059, 0x8e6afc15, 0x98b2d96c, 0x586a73f6), Block(0xf4b1f93b, 0x77eb7355, 0x87f45bc0, 0xd548f430)) == Block(0xadeb881e, 0x1bc8f851, 0xfea00051, 0x338fb68b)
  {
    hide Round;
    RoundFour(0x10e2b059, 0x8e6afc15, 0x98b2d96c, 0x586a73f6, Block(0xf4b1f93b, 0x77eb7355, 0x87f45bc0, 0xd548f430));
  }

  lemma Round5()
    ensures Round(Block(0xadeb881e, 0x1bc8f851, 0xfea00051, 0x338fb68b), Block(0x20a51082, 0x25b750a2, 0x4f2caffa, 0xc1f29638)) == Block(0x2c38e00d, 0x42f813b8, 0x88206147, 0xd974547a)
  {
    hide Round;
    RoundFour(0xadeb881e, 0x1bc8f851, 0xfea00051, 0x338fb68b, Block(0x20a51082, 0x25b750a2, 0x4f2caffa, 0xc1f29638));
  }

  lemma Round6()
    ensures Round(Block(0x2c38e00d, 0x42f813b8, 0x88206147, 0xd974547a), Block(0x39632711, 0xf07ff3de, 0x3d1fb132, 0x5a04debd)) == Block(0xcf553881, 0x8d72efc2, 0xe686ea3b, 0xf76191bb)
  {
    hide Round;
    RoundFour(0x2c38e00d, 0x42f813b8, 0x88206147, 0xd974547a, Block(0x39632711, 0xf07ff3de, 0x3d1fb132, 0x5a04debd));
  }

  lemma Round7()
    ensures Round(Block(0xcf553881, 0x8d72efc2, 0xe686ea3b, 0xf76191bb), Block(0xc2f95097, 0xe9d6cd46, 0xe8cfc5a1, 0xd8baa6b6)) == Block(0x05ee888e, 0x510f0c5e, 0xa25b4653, 0x40641bdc)
  {
    hide Round;
    RoundFour(0xcf553881, 0x8d72efc2, 0xe686ea3b, 0xf76191bb, Block(0xc2f95097, 0xe9d6cd46, 0xe8cfc5a1, 0xd8baa6b6));
  }

  lemma Round8()
    ensures Round(Block(0x05ee888e, 0x510f0c5e, 0xa25b4653, 0x40641bdc), Block(0x7ff74c99, 0x9fdcd56b, 0xe56594dc, 0x4b0832ac)) == Block(0x4d8e5305, 0x2f96aa72, 0xbce6502d, 0x501736bb)
  {
    hide Round;
    RoundFour(0x05ee888e, 0x510f0c5e, 0xa25b4653, 0x40641bdc, Block(0x7ff74c99, 0x9fdcd56b, 0xe56594dc, 0x4b0832ac));
  }

  lemma Round9()
    ensures Round(Block(0x4d8e5305, 0x2f96aa72, 0xbce6502d, 0x501736bb), Block(0x4446d38e, 0x33df5f2f, 0x6d5fda34, 0xc54d1a47)) == Block(0x80682769, 0x2e9f8d63, 0x4ed65539, 0xf31aa5f4)
  {
    hide Round;
    RoundFour(0x4d8e5305, 0x2f96aa72, 0xbce6502d, 0x501736bb, Block(0x4446d38e, 0x33df5f2f, 0x6d5fda34, 0xc54d1a47));
  }

  lemma Round10()
    ensures Round(Block(0x80682769, 0x2e9f8d63, 0x4ed65539, 0xf31aa5f4), Block(0x224b910b, 0xdf2cf3ba, 0xf7224db3, 0x67425273)) == Block(0xcf622abd, 0x3ab382d2, 0xf011e002, 0x7d424fa9)
  {
    hide Round;
    RoundFour(0x80682769, 0x2e9f8d63, 0x4ed65539, 0xf31aa5f4, Block(0x224b910b, 0xdf2cf3ba, 0xf7224db3, 0x67425273));
  }

  lemma Round11()
    ensures Round(Block(0xcf622abd, 0x3ab382d2, 0xf011e002, 0x7d424fa9), Block(0x074e06e4, 0x11f04931, 0x95540931, 0xae4a56ad)) == Block(0xac97ec89, 0x6ec08692, 0x7b631570, 0xf247857c)
  {
    hide Round;
    RoundFour(0xcf622abd, 0x3ab382d2, 0xf011e002, 0x7d424fa9, Block(0x074e06e4, 0x11f04931, 0x95540931, 0xae4a56ad));
  }

  lemma Round12()
    ensures LastRound(Block(0xac97ec89, 0x6ec08692, 0x7b631570, 0xf247857c), Block(0x64e2bc2d, 0x349a57e1, 0x8c700336, 0x258b8a47)) == Block(0x6dc5daa2, 0x267d626f, 0x08b7528e, 0x6e6e8690)
  {
    hide LastRound;
    LastFour(0xac97ec89, 0x6ec08692, 0x7b631570, 0xf247857c, Block(0x64e2bc2d, 0x349a57e1, 0x8c700336, 0x258b8a47));
  }

  /** Sixteen bytes 0xfe, as key and as block. */
  const FE: seq<bv8> := [0xfe, 0xfe, 0xfe, 0xfe, 0xfe, 0xfe, 0xfe, 0xfe, 0xfe, 0xfe, 0xfe, 0xfe, 0xfe, 0xfe, 0xfe, 0xfe]

  const START: seq<bv32> := [0xfefefefe, 0xfefefefe, 0xfefefefe, 0xfefefefe]

  lemma StartIs()
    ensures KeyState(FE) == START && BlockOf(FE) == Block(0xfefefefe, 0xfefefefe, 0xfefefefe, 0xfefefefe)
  {
    WordIs();
    hide Word;
  }

  lemma WordIs()
    ensures Word(0xfe, 0xfe, 0xfe, 0xfe) == 0xfefefefe
  {
  }

  lemma States()
    ensures State(START, 0) == [0xfefefefe, 0xfefefefe, 0xfefefefe, 0xfefefefe]
    ensures State(START, 1) == [0x10fe85de, 0xaaaaaaaa, 0xaaaaaaaa, 0xaaaaaaaa]
    ensures State(START, 2) == [0xb9057ccb, 0x56aa1bb3, 0xfb77b872, 0x90412f18]
    ensures State(START, 3) == [0x28d49c8d, 0x01c159ff, 0x2bf7690d, 0xac74ebe0]
    ensures State(START, 4) == [0x580432f6, 0xd8a7f9f1, 0x01b0c3d4, 0xe68e7086]
    ensures State(START, 5) == [0x6416b20e, 0x48bc998d, 0x915fe82a, 0xafe4bc7d]
    ensures State(START, 6) == [0x2ee4c935, 0x3fda81b9, 0xfc3a1ad4, 0x29ac87f5]
    ensures State(START, 7) == [0xba740811, 0x03fadfa3, 0x928b4041, 0x0434483b]
    ensures State(START, 8) == [0xd54621c2, 0xc225923d, 0x31b94333, 0x9d956110]
    ensures State(START, 9) == [0xf6b676cc, 0x98cbbf0b, 0xabc2ddbf, 0x6e157226]
    ensures State(START, 10) == [0xf633355b, 0x51feb75c, 0x02d63150, 0x685baf6f]
    ensures State(START, 11) == [0x56571006, 0x28a772ba, 0x7ea688f0, 0x908fc8da]
    ensures State(START, 12) == [0x3ec995c7, 0x0d0d6d8a, 0xea91aa47, 0xf0624dc7]
  {
    hide State, Evolve;
    NextState(START, 0);
    State1();
    NextState(START, 1);
    State2();
    NextState(START, 2);
    State3();
    NextState(START, 3);
    State4();
    NextState(START, 4);
    State5();
    NextState(START, 5);
    State6();
    NextState(START, 6);
    State7();
    NextState(START, 7);
    State8();
    NextState(START, 8);
    State9();
    NextState(START, 9);
    State10();
    NextState(START, 10);
    State11();
    NextState(START, 11);
    State12();
  }

  lemma KeysAreGiven() returns (f: seq<Block>)
    ensures f == Forward(START) && |f| == 13
    ensures f[0] == Block(0x0048eba0, 0x0048eba0, 0x0048eba0, 0x0048eba0) && f[1] == Block(0x14776f97, 0x54372fd7, 0x46253dc5, 0xe6859d65) && f[2] == Block(0x452306f6, 0xdd60c55c, 0xc9c6c0c5, 0x7ff7a4d9) && f[3] == Block(0x6d2b1466, 0xf32a07c9, 0x148130de, 0xa92ab18f) && f[4] == Block(0xf4b1f93b, 0x77eb7355, 0x87f45bc0, 0xd548f430) && f[5] == Block(0x20a51082, 0x25b750a2, 0x4f2caffa, 0xc1f29638) && f[6] == Block(0x39632711, 0xf07ff3de, 0x3d1fb132, 0x5a04debd) && f[7] == Block(0xc2f95097, 0xe9d6cd46, 0xe8cfc5a1, 0xd8baa6b6) && f[8] == Block(0x7ff74c99, 0x9fdcd56b, 0xe56594dc, 0x4b0832ac) && f[9] == Block(0x4446d38e, 0x33df5f2f, 0x6d5fda34, 0xc54d1a47) && f[10] == Block(0x224b910b, 0xdf2cf3ba, 0xf7224db3, 0x67425273) && f[11] == Block(0x074e06e4, 0x11f04931, 0x95540931, 0xae4a56ad) && f[12] == Block(0x64e2bc2d, 0x349a57e1, 0x8c700336, 0x258b8a47)
  {
    hide Forward, State, Extract;
    f := Forward(START);
    ForwardAt(START);
    States();
    Key0();
    Key1();
    Key2();
    Key3();
    Key4();
    Key5();
    Key6();
    Key7();
    Key8();
    Key9();
    Key10();
    Key11();
    Key12();
  }

  lemma RoundsStep(keys: seq<Block>, p: Block, r: nat)
    requires r < |keys|
    ensures Rounds(keys, p, r) == if r == 0 then Xor(p, keys[0]) else Round(Rounds(keys, p, r - 1), keys[r])
  {
    hide Round, Xor;
  }

  lemma FirstXor()
    ensures Xor(Block(0xfefefefe, 0xfefefefe, 0xfefefefe, 0xfefefefe), Block(0x0048eba0, 0x0048eba0, 0x0048eba0, 0x0048eba0)) == Block(0xfeb6155e, 0xfeb6155e, 0xfeb6155e, 0xfeb6155e)
  {
  }

  /** The state after each round. */
  lemma AllRounds(f: seq<Block>)
    requires |f| == 13
    requires f[0] == Block(0x0048eba0, 0x0048eba0, 0x0048eba0, 0x0048eba0) && f[1] == Block(0x14776f97, 0x54372fd7, 0x46253dc5, 0xe6859d65) && f[2] == Block(0x452306f6, 0xdd60c55c, 0xc9c6c0c5, 0x7ff7a4d9) && f[3] == Block(0x6d2b1466, 0xf32a07c9, 0x148130de, 0xa92ab18f) && f[4] == Block(0xf4b1f93b, 0x77eb7355, 0x87f45bc0, 0xd548f430) && f[5] == Block(0x20a51082, 0x25b750a2, 0x4f2caffa, 0xc1f29638) && f[6] == Block(0x39632711, 0xf07ff3de, 0x3d1fb132, 0x5a04debd) && f[7] == Block(0xc2f95097, 0xe9d6cd46, 0xe8cfc5a1, 0xd8baa6b6) && f[8] == Block(0x7ff74c99, 0x9fdcd56b, 0xe56594dc, 0x4b0832ac) && f[9] == Block(0x4446d38e, 0x33df5f2f, 0x6d5fda34, 0xc54d1a47) && f[10] == Block(0x224b910b, 0xdf2cf3ba, 0xf7224db3, 0x67425273) && f[11] == Block(0x074e06e4, 0x11f04931, 0x95540931, 0xae4a56ad) && f[12] == Block(0x64e2bc2d, 0x349a57e1, 0x8c700336, 0x258b8a47)
    ensures Crypt(f, Block(0xfefefefe, 0xfefefefe, 0xfefefefe, 0xfefefefe)) == Block(0x6dc5daa2, 0x267d626f, 0x08b7528e, 0x6e6e8690)
  {
    hide Rounds, Round, LastRound, Xor;
    var p := Block(0xfefefefe, 0xfefefefe, 0xfefefefe, 0xfefefefe);
    RoundsStep(f, p, 0);
    FirstXor();
    RoundsStep(f, p, 1);
    Round1();
    RoundsStep(f, p, 2);
    Round2();
    RoundsStep(f, p, 3);
    Round3();
    RoundsStep(f, p, 4);
    Round4();
    RoundsStep(f, p, 5);
    Round5();
    RoundsStep(f, p, 6);
    Round6();
    RoundsStep(f, p, 7);
    Round7();
    RoundsStep(f, p, 8);
    Round8();
    RoundsStep(f, p, 9);
    Round9();
    RoundsStep(f, p, 10);
    Round10();
    RoundsStep(f, p, 11);
    Round11();
    Round12();
  }

  lemma ResultBytes()
    ensures BytesOf(Block(0x6dc5daa2, 0x267d626f, 0x08b7528e, 0x6e6e8690)) == [0x6d, 0xc5, 0xda, 0xa2, 0x26, 0x7d, 0x62, 0x6f, 0x08, 0xb7, 0x52, 0x8e, 0x6e, 0x6e, 0x86, 0x90]
  {
  }

  /** Encrypting the block with the key gives the result that the kernel's test expects. */
  lemma KnownAnswer()
    ensures BytesOf(Crypt(Forward(KeyState(FE)), BlockOf(FE))) == [0x6d, 0xc5, 0xda, 0xa2, 0x26, 0x7d, 0x62, 0x6f, 0x08, 0xb7, 0x52, 0x8e, 0x6e, 0x6e, 0x86, 0x90]
  {
    hide Crypt, Forward, KeyState, BlockOf, BytesOf;
    StartIs();
    var f := KeysAreGiven();
    AllRounds(f);
    ResultBytes();
  }

  /** The same through anubis_setkey and anubis_encrypt. */
  method FirstVector() returns (dst: array<bv8>)
    ensures dst[..] == [0x6d, 0xc5, 0xda, 0xa2, 0x26, 0x7d, 0x62, 0x6f, 0x08, 0xb7, 0x52, 0x8e, 0x6e, 0x6e, 0x86, 0x90]
  {
    hide Crypt, Forward, KeyState, BlockOf, BytesOf, Inverse;
    var key := new bv8[16](i => 0xfe);
    var src := new bv8[16](i => 0xfe);
    dst := new bv8[16];
    assert key[..] == FE && src[..] == FE;
    var ctx := new AnubisCtx();
    var ok := ctx.SetKey(key);
    ctx.Encrypt(dst, src);
    KnownAnswer();
  }
}
