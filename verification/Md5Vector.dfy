/** The test suite of appendix A.5 of RFC 1321, for the empty message: every constant of the definition has its part. */
module Md5Vector {
  import opened Bytes
  import opened Md5Spec

  // The padded empty message as sixteen words
  function Words(): (x: seq<bv32>)
    ensures |x| == 16
  {
    [0x80, 0, 0, 0, 0, 0, 0, 0, 0, 0, 0, 0, 0, 0, 0, 0]
  }

  /** One operation: the sum before the rotation, and the value written. */
  lemma Step(i: nat, before: Registers, sum: bv32, value: bv32)
    requires i < 64 && Operations(i, INITIAL, Words()) == before
    requires var o := Operands(i, before);
             Sum4(o.a, Auxiliary(i, o.b, o.c, o.d), Words()[Word(i)], T(i)) == sum
             && Add(o.b, RotateLeft(sum, Shift(i))) == value
    ensures Operations(i + 1, INITIAL, Words()) == Write(i, before, value)
  {
    hide Operands, Write, Words, Sum4, Auxiliary, Word, T, Shift, RotateLeft, Add;
  }

  lemma Steps0()
    requires Operations(0, INITIAL, Words()) == Registers(0x67452301, 0xefcdab89, 0x98badcfe, 0x10325476)
    ensures Operations(2, INITIAL, Words()) == Registers(0xa5202774, 0xefcdab89, 0x98badcfe, 0xf59592dd)
  {
    hide Operations;
    Step(0, Registers(0x67452301, 0xefcdab89, 0x98badcfe, 0x10325476), 0xd76aa4f7, 0xa5202774);
    Step(1, Registers(0xa5202774, 0xefcdab89, 0x98badcfe, 0x10325476), 0xb6950756, 0xf59592dd);
  }

  lemma Steps1()
    requires Operations(2, INITIAL, Words()) == Registers(0xa5202774, 0xefcdab89, 0x98badcfe, 0xf59592dd)
    ensures Operations(4, INITIAL, Words()) == Registers(0xa5202774, 0x1b163203, 0xe7f06b23, 0xf59592dd)
  {
    hide Operations;
    Step(2, Registers(0xa5202774, 0xefcdab89, 0x98badcfe, 0xf59592dd), 0x6c23792d, 0xe7f06b23);
    Step(3, Registers(0xa5202774, 0xefcdab89, 0xe7f06b23, 0xf59592dd), 0x971b80cc, 0x1b163203);
  }

  lemma Steps2()
    requires Operations(4, INITIAL, Words()) == Registers(0xa5202774, 0x1b163203, 0xe7f06b23, 0xf59592dd)
    ensures Operations(6, INITIAL, Words()) == Registers(0x32033344, 0x1b163203, 0xe7f06b23, 0x2f35d494)
  {
    hide Operations;
    Step(4, Registers(0xa5202774, 0x1b163203, 0xe7f06b23, 0xf59592dd), 0x822dda02, 0x32033344);
    Step(5, Registers(0x32033344, 0x1b163203, 0xe7f06b23, 0xf59592dd), 0x150fd32a, 0x2f35d494);
  }

  lemma Steps3()
    requires Operations(6, INITIAL, Words()) == Registers(0x32033344, 0x1b163203, 0xe7f06b23, 0x2f35d494)
    ensures Operations(8, INITIAL, Words()) == Registers(0x32033344, 0x9bc13ce9, 0xf5b158db, 0x2f35d494)
  {
    hide Operations;
    Step(6, Registers(0x32033344, 0x1b163203, 0xe7f06b23, 0x2f35d494), 0xc223e33d, 0xf5b158db);
    Step(7, Registers(0x32033344, 0x1b163203, 0xf5b158db, 0x2f35d494), 0x3f903a98, 0x9bc13ce9);
  }

  lemma Steps4()
    requires Operations(8, INITIAL, Words()) == Registers(0x32033344, 0x9bc13ce9, 0xf5b158db, 0x2f35d494)
    ensures Operations(10, INITIAL, Words()) == Registers(0x3893b991, 0x9bc13ce9, 0xf5b158db, 0xfce4a312)
  {
    hide Operations;
    Step(8, Registers(0x32033344, 0x9bc13ce9, 0xf5b158db, 0x2f35d494), 0x5139a4f9, 0x3893b991);
    Step(9, Registers(0x3893b991, 0x9bc13ce9, 0xf5b158db, 0x2f35d494), 0x981c450e, 0xfce4a312);
  }

  lemma Steps5()
    requires Operations(10, INITIAL, Words()) == Registers(0x3893b991, 0x9bc13ce9, 0xf5b158db, 0xfce4a312)
    ensures Operations(12, INITIAL, Words()) == Registers(0x3893b991, 0x70768a29, 0xe1ef0576, 0xfce4a312)
  {
    hide Operations;
    Step(10, Registers(0x3893b991, 0x9bc13ce9, 0xf5b158db, 0xfce4a312), 0x31327285, 0xe1ef0576);
    Step(11, Registers(0x3893b991, 0x9bc13ce9, 0xe1ef0576, 0xfce4a312), 0x1e12ce3a, 0x70768a29);
  }

  lemma Steps6()
    requires Operations(12, INITIAL, Words()) == Registers(0x3893b991, 0x70768a29, 0xe1ef0576, 0xfce4a312)
    ensures Operations(14, INITIAL, Words()) == Registers(0xf56c7cf1, 0x70768a29, 0xe1ef0576, 0x374943a7)
  {
    hide Operations;
    Step(12, Registers(0x3893b991, 0x70768a29, 0xe1ef0576, 0xfce4a312), 0x9109ebe5, 0xf56c7cf1);
    Step(13, Registers(0xf56c7cf1, 0x70768a29, 0xe1ef0576, 0xfce4a312), 0x6b641dcc, 0x374943a7);
  }

  lemma Steps7()
    requires Operations(14, INITIAL, Words()) == Registers(0xf56c7cf1, 0x70768a29, 0xe1ef0576, 0x374943a7)
    ensures Operations(16, INITIAL, Words()) == Registers(0xf56c7cf1, 0xd6819c6a, 0x5aa53f75, 0x374943a7)
  {
    hide Operations;
    Step(14, Registers(0xf56c7cf1, 0x70768a29, 0xe1ef0576, 0x374943a7), 0xfde711ad, 0x5aa53f75);
    Step(15, Registers(0xf56c7cf1, 0x70768a29, 0x5aa53f75, 0x374943a7), 0x7173d5ef, 0xd6819c6a);
  }

  lemma Steps8()
    requires Operations(16, INITIAL, Words()) == Registers(0xf56c7cf1, 0xd6819c6a, 0x5aa53f75, 0x374943a7)
    ensures Operations(18, INITIAL, Words()) == Registers(0x1c7d7513, 0xd6819c6a, 0x5aa53f75, 0x7bd57a3a)
  {
    hide Operations;
    Step(16, Registers(0xf56c7cf1, 0xd6819c6a, 0x5aa53f75, 0x374943a7), 0x4a2fdec5, 0x1c7d7513);
    Step(17, Registers(0x1c7d7513, 0xd6819c6a, 0x5aa53f75, 0x374943a7), 0x93afac02, 0x7bd57a3a);
  }

  lemma Steps9()
    requires Operations(18, INITIAL, Words()) == Registers(0x1c7d7513, 0xd6819c6a, 0x5aa53f75, 0x7bd57a3a)
    ensures Operations(20, INITIAL, Words()) == Registers(0x1c7d7513, 0xbd782e17, 0xc095f13a, 0x7bd57a3a)
  {
    hide Operations;
    Step(18, Registers(0x1c7d7513, 0xd6819c6a, 0x5aa53f75, 0x7bd57a3a), 0xdc011301, 0xc095f13a);
    Step(19, Registers(0x1c7d7513, 0xd6819c6a, 0xc095f13a, 0x7bd57a3a), 0x23cddfce, 0xbd782e17);
  }

  lemma Steps10()
    requires Operations(20, INITIAL, Words()) == Registers(0x1c7d7513, 0xbd782e17, 0xc095f13a, 0x7bd57a3a)
    ensures Operations(22, INITIAL, Words()) == Registers(0x3d1e3e6c, 0xbd782e17, 0xc095f13a, 0x68b7b3e3)
  {
    hide Operations;
    Step(20, Registers(0x1c7d7513, 0xbd782e17, 0xc095f13a, 0x7bd57a3a), 0xabfd3082, 0x3d1e3e6c);
    Step(21, Registers(0x3d1e3e6c, 0xbd782e17, 0xc095f13a, 0x7bd57a3a), 0xbb95ccba, 0x68b7b3e3);
  }

  lemma Steps11()
    requires Operations(22, INITIAL, Words()) == Registers(0x3d1e3e6c, 0xbd782e17, 0xc095f13a, 0x68b7b3e3)
    ensures Operations(24, INITIAL, Words()) == Registers(0x3d1e3e6c, 0xe422531a, 0xeb41643e, 0x68b7b3e3)
  {
    hide Operations;
    Step(22, Registers(0x3d1e3e6c, 0xbd782e17, 0xc095f13a, 0x68b7b3e3), 0xc16e0a26, 0xeb41643e);
    Step(23, Registers(0x3d1e3e6c, 0xbd782e17, 0xeb41643e, 0x68b7b3e3), 0x0eedcf8e, 0xe422531a);
  }

  lemma Steps12()
    requires Operations(24, INITIAL, Words()) == Registers(0x3d1e3e6c, 0xe422531a, 0xeb41643e, 0x68b7b3e3)
    ensures Operations(26, INITIAL, Words()) == Registers(0x306ec122, 0xe422531a, 0xeb41643e, 0xd28c77c2)
  {
    hide Operations;
    Step(24, Registers(0x3d1e3e6c, 0xe422531a, 0xeb41643e, 0x68b7b3e3), 0x42626370, 0x306ec122);
    Step(25, Registers(0x306ec122, 0xe422531a, 0xeb41643e, 0x68b7b3e3), 0x50510edb, 0xd28c77c2);
  }

  lemma Steps13()
    requires Operations(26, INITIAL, Words()) == Registers(0x306ec122, 0xe422531a, 0xeb41643e, 0xd28c77c2)
    ensures Operations(28, INITIAL, Words()) == Registers(0x306ec122, 0xa0572807, 0xa3c663da, 0xd28c77c2)
  {
    hide Operations;
    Step(26, Registers(0x306ec122, 0xe422531a, 0xeb41643e, 0xd28c77c2), 0xb06344e7, 0xa3c663da);
    Step(27, Registers(0x306ec122, 0xe422531a, 0xa3c663da, 0xd28c77c2), 0x0c42dfc9, 0xa0572807);
  }

  lemma Steps14()
    requires Operations(28, INITIAL, Words()) == Registers(0x306ec122, 0xa0572807, 0xa3c663da, 0xd28c77c2)
    ensures Operations(30, INITIAL, Words()) == Registers(0x13707036, 0xa0572807, 0xa3c663da, 0xae7813db)
  {
    hide Operations;
    Step(28, Registers(0x306ec122, 0xa0572807, 0xa3c663da, 0xd28c77c2), 0x7b98ca41, 0x13707036);
    Step(29, Registers(0x13707036, 0xa0572807, 0xa3c663da, 0xd28c77c2), 0xd2cd83d1, 0xae7813db);
  }

  lemma Steps15()
    requires Operations(30, INITIAL, Words()) == Registers(0x13707036, 0xa0572807, 0xa3c663da, 0xae7813db)
    ensures Operations(32, INITIAL, Words()) == Registers(0x13707036, 0xa2205f1f, 0x1c31c384, 0xae7813db)
  {
    hide Operations;
    Step(30, Registers(0x13707036, 0xa0572807, 0xa3c663da, 0xae7813db), 0xbea5b6e6, 0x1c31c384);
    Step(31, Registers(0x13707036, 0xa0572807, 0x1c31c384, 0xae7813db), 0xe9b9b85e, 0xa2205f1f);
  }

  lemma Steps16()
    requires Operations(32, INITIAL, Words()) == Registers(0x13707036, 0xa2205f1f, 0x1c31c384, 0xae7813db)
    ensures Operations(34, INITIAL, Words()) == Registers(0xdf63eaa1, 0xa2205f1f, 0x1c31c384, 0xc3689f5b)
  {
    hide Operations;
    Step(32, Registers(0x13707036, 0xa2205f1f, 0x1c31c384, 0xae7813db), 0x23d438b8, 0xdf63eaa1);
    Step(33, Registers(0xdf63eaa1, 0xa2205f1f, 0x1c31c384, 0xae7813db), 0x975c8096, 0xc3689f5b);
  }

  lemma Steps17()
    requires Operations(34, INITIAL, Words()) == Registers(0xdf63eaa1, 0xa2205f1f, 0x1c31c384, 0xc3689f5b)
    ensures Operations(36, INITIAL, Words()) == Registers(0xdf63eaa1, 0x004b6669, 0x12f3e755, 0xc3689f5b)
  {
    hide Operations;
    Step(34, Registers(0xdf63eaa1, 0xa2205f1f, 0x1c31c384, 0xc3689f5b), 0x47fa4f8b, 0x12f3e755);
    Step(35, Registers(0xdf63eaa1, 0xa2205f1f, 0x12f3e755, 0xc3689f5b), 0xaefe29da, 0x004b6669);
  }

  lemma Steps18()
    requires Operations(36, INITIAL, Words()) == Registers(0xdf63eaa1, 0x004b6669, 0x12f3e755, 0xc3689f5b)
    ensures Operations(38, INITIAL, Words()) == Registers(0x5f7a9b2e, 0x004b6669, 0x12f3e755, 0xabc34e16)
  {
    hide Operations;
    Step(36, Registers(0xdf63eaa1, 0x004b6669, 0x12f3e755, 0xc3689f5b), 0x55f2f34c, 0x5f7a9b2e);
    Step(37, Registers(0x5f7a9b2e, 0x004b6669, 0x12f3e755, 0xc3689f5b), 0x5d098916, 0xabc34e16);
  }

  lemma Steps19()
    requires Operations(38, INITIAL, Words()) == Registers(0x5f7a9b2e, 0x004b6669, 0x12f3e755, 0xabc34e16)
    ensures Operations(40, INITIAL, Words()) == Registers(0x5f7a9b2e, 0xc5dc8c15, 0x91ca4cb7, 0xabc34e16)
  {
    hide Operations;
    Step(38, Registers(0x5f7a9b2e, 0x004b6669, 0x12f3e755, 0xabc34e16), 0xfea1e606, 0x91ca4cb7);
    Step(39, Registers(0x5f7a9b2e, 0x004b6669, 0x91ca4cb7, 0xabc34e16), 0x247ebc68, 0xc5dc8c15);
  }

  lemma Steps20()
    requires Operations(40, INITIAL, Words()) == Registers(0x5f7a9b2e, 0xc5dc8c15, 0x91ca4cb7, 0xabc34e16)
    ensures Operations(42, INITIAL, Words()) == Registers(0x4497169d, 0xc5dc8c15, 0x91ca4cb7, 0x76fd93d4)
  {
    hide Operations;
    Step(40, Registers(0x5f7a9b2e, 0xc5dc8c15, 0x91ca4cb7, 0xabc34e16), 0x87eba8a8, 0x4497169d);
    Step(41, Registers(0x4497169d, 0xc5dc8c15, 0x91ca4cb7, 0xabc34e16), 0xa6e64ccf, 0x76fd93d4);
  }

  lemma Steps21()
    requires Operations(42, INITIAL, Words()) == Registers(0x4497169d, 0xc5dc8c15, 0x91ca4cb7, 0x76fd93d4)
    ensures Operations(44, INITIAL, Words()) == Registers(0x4497169d, 0x0fe32453, 0xfd95f243, 0x76fd93d4)
  {
    hide Operations;
    Step(42, Registers(0x4497169d, 0xc5dc8c15, 0x91ca4cb7, 0x76fd93d4), 0x5e6f8698, 0xfd95f243);
    Step(43, Registers(0x4497169d, 0xc5dc8c15, 0xfd95f243, 0x76fd93d4), 0x9a642024, 0x0fe32453);
  }

  lemma Steps22()
    requires Operations(44, INITIAL, Words()) == Registers(0x4497169d, 0x0fe32453, 0xfd95f243, 0x76fd93d4)
    ensures Operations(46, INITIAL, Words()) == Registers(0x3f55edfd, 0x0fe32453, 0xfd95f243, 0x22a31f54)
  {
    hide Operations;
    Step(44, Registers(0x4497169d, 0x0fe32453, 0xfd95f243, 0x76fd93d4), 0xa2f72c9a, 0x3f55edfd);
    Step(45, Registers(0x3f55edfd, 0x0fe32453, 0xfd95f243, 0x76fd93d4), 0x2afc69a6, 0x22a31f54);
  }

  lemma Steps23()
    requires Operations(46, INITIAL, Words()) == Registers(0x3f55edfd, 0x0fe32453, 0xfd95f243, 0x22a31f54)
    ensures Operations(48, INITIAL, Words()) == Registers(0x3f55edfd, 0xca7d2dbd, 0x68d84ea2, 0x22a31f54)
  {
    hide Operations;
    Step(46, Registers(0x3f55edfd, 0x0fe32453, 0xfd95f243, 0x22a31f54), 0x2f4e4635, 0x68d84ea2);
    Step(47, Registers(0x3f55edfd, 0x0fe32453, 0x68d84ea2, 0x22a31f54), 0x49be36c3, 0xca7d2dbd);
  }

  lemma Steps24()
    requires Operations(48, INITIAL, Words()) == Registers(0x3f55edfd, 0xca7d2dbd, 0x68d84ea2, 0x22a31f54)
    ensures Operations(50, INITIAL, Words()) == Registers(0x93aa2577, 0xca7d2dbd, 0x68d84ea2, 0x1688dc85)
  {
    hide Operations;
    Step(48, Registers(0x3f55edfd, 0xca7d2dbd, 0x68d84ea2, 0x22a31f54), 0xeb24b3de, 0x93aa2577);
    Step(49, Registers(0x93aa2577, 0xca7d2dbd, 0x68d84ea2, 0x22a31f54), 0xc3a0b7ad, 0x1688dc85);
  }

  lemma Steps25()
    requires Operations(50, INITIAL, Words()) == Registers(0x93aa2577, 0xca7d2dbd, 0x68d84ea2, 0x1688dc85)
    ensures Operations(52, INITIAL, Words()) == Registers(0x93aa2577, 0x561e0689, 0xcd85b8cb, 0x1688dc85)
  {
    hide Operations;
    Step(50, Registers(0x93aa2577, 0xca7d2dbd, 0x68d84ea2, 0x1688dc85), 0xb88d6df9, 0xcd85b8cb);
    Step(51, Registers(0x93aa2577, 0xca7d2dbd, 0xcd85b8cb, 0x1688dc85), 0xc26df444, 0x561e0689);
  }

  lemma Steps26()
    requires Operations(52, INITIAL, Words()) == Registers(0x93aa2577, 0x561e0689, 0xcd85b8cb, 0x1688dc85)
    ensures Operations(54, INITIAL, Words()) == Registers(0x5625a114, 0x561e0689, 0xcd85b8cb, 0x3450f42b)
  {
    hide Operations;
    Step(52, Registers(0x93aa2577, 0x561e0689, 0xcd85b8cb, 0x1688dc85), 0x2c001e6a, 0x5625a114);
    Step(53, Registers(0x5625a114, 0x561e0689, 0xcd85b8cb, 0x1688dc85), 0xc5f78ad4, 0x3450f42b);
  }

  lemma Steps27()
    requires Operations(54, INITIAL, Words()) == Registers(0x5625a114, 0x561e0689, 0xcd85b8cb, 0x3450f42b)
    ensures Operations(56, INITIAL, Words()) == Registers(0x5625a114, 0x1e77fa61, 0x392ad0d0, 0x3450f42b)
  {
    hide Operations;
    Step(54, Registers(0x5625a114, 0x561e0689, 0xcd85b8cb, 0x3450f42b), 0xb94a09b3, 0x392ad0d0);
    Step(55, Registers(0x5625a114, 0x561e0689, 0x392ad0d0, 0x3450f42b), 0x694c8f2a, 0x1e77fa61);
  }

  lemma Steps28()
    requires Operations(56, INITIAL, Words()) == Registers(0x5625a114, 0x1e77fa61, 0x392ad0d0, 0x3450f42b)
    ensures Operations(58, INITIAL, Words()) == Registers(0x474a9c8c, 0x1e77fa61, 0x392ad0d0, 0xdfce00bc)
  {
    hide Operations;
    Step(56, Registers(0x5625a114, 0x1e77fa61, 0x392ad0d0, 0x3450f42b), 0xaca34a88, 0x474a9c8c);
    Step(57, Registers(0x474a9c8c, 0x1e77fa61, 0x392ad0d0, 0x3450f42b), 0x0c2620d9, 0xdfce00bc);
  }

  lemma Steps29()
    requires Operations(58, INITIAL, Words()) == Registers(0x474a9c8c, 0x1e77fa61, 0x392ad0d0, 0xdfce00bc)
    ensures Operations(60, INITIAL, Words()) == Registers(0x474a9c8c, 0x30130182, 0x36594b14, 0xdfce00bc)
  {
    hide Operations;
    Step(58, Registers(0x474a9c8c, 0x1e77fa61, 0x392ad0d0, 0xdfce00bc), 0x94b0ad16, 0x36594b14);
    Step(59, Registers(0x474a9c8c, 0x1e77fa61, 0x36594b14, 0xdfce00bc), 0xcdb377cd, 0x30130182);
  }

  lemma Steps30()
    requires Operations(60, INITIAL, Words()) == Registers(0x474a9c8c, 0x30130182, 0x36594b14, 0xdfce00bc)
    ensures Operations(62, INITIAL, Words()) == Registers(0x7246fad3, 0x30130182, 0x36594b14, 0x6e10a476)
  {
    hide Operations;
    Step(60, Registers(0x474a9c8c, 0x30130182, 0x36594b14, 0xdfce00bc), 0x4508cfe5, 0x7246fad3);
    Step(61, Registers(0x7246fad3, 0x30130182, 0x36594b14, 0xdfce00bc), 0x68fef26a, 0x6e10a476);
  }

  lemma Steps31()
    requires Operations(62, INITIAL, Words()) == Registers(0x7246fad3, 0x30130182, 0x36594b14, 0x6e10a476)
    ensures Operations(64, INITIAL, Words()) == Registers(0x7246fad3, 0x14e45506, 0xff4ea3eb, 0x6e10a476)
  {
    hide Operations;
    Step(62, Registers(0x7246fad3, 0x30130182, 0x36594b14, 0x6e10a476), 0xfeeb227b, 0xff4ea3eb);
    Step(63, Registers(0x7246fad3, 0x30130182, 0xff4ea3eb, 0x6e10a476), 0xad88d8ac, 0x14e45506);
  }

  lemma SixtyFourOperations()
    ensures Operations(64, INITIAL, Words()) == Registers(0x7246fad3, 0x14e45506, 0xff4ea3eb, 0x6e10a476)
  {
    hide Operations, Words;
    assert Operations(0, INITIAL, Words()) == INITIAL by { NoOperation(); }
    Steps0();
    Steps1();
    Steps2();
    Steps3();
    Steps4();
    Steps5();
    Steps6();
    Steps7();
    Steps8();
    Steps9();
    Steps10();
    Steps11();
    Steps12();
    Steps13();
    Steps14();
    Steps15();
    Steps16();
    Steps17();
    Steps18();
    Steps19();
    Steps20();
    Steps21();
    Steps22();
    Steps23();
    Steps24();
    Steps25();
    Steps26();
    Steps27();
    Steps28();
    Steps29();
    Steps30();
    Steps31();
  }

  lemma NoOperation()
    ensures Operations(0, INITIAL, Words()) == INITIAL
  {
  }

  function Block(): (b: seq<byte>)
    ensures |b| == 64
  {
    [0x80] + seq(63, _ => 0)
  }

  lemma EmptyPadded()
    ensures Padded([]) == Block()
  {
    assert ZeroCount(0) == 55;
    assert LengthOctets(Uint64(0)) == [0, 0, 0, 0, 0, 0, 0, 0];
    assert [] + Tail(0) == Block();
  }

  lemma BlockIsWords()
    ensures BlockWords(Block()) == Words()
  {
    var b := Block();
    assert WordAt(b, 0) == 0x80;
    forall j | 0 < j < 16
      ensures WordAt(b, j) == 0 && Words()[j] == 0
    {
      assert b[4 * j] == b[4 * j + 1] == b[4 * j + 2] == b[4 * j + 3] == 0;
      ZeroAt(j);
    }
    assert Words()[0] == 0x80;
  }

  lemma ZeroAt(j: nat)
    requires 0 < j < 16
    ensures Words()[j] == 0
  {
    match j
    case 1 => case 2 => case 3 => case 4 => case 5 => case 6 => case 7 => case 8 =>
    case 9 => case 10 => case 11 => case 12 => case 13 => case 14 => case _ =>
  }

  /** The digest of the empty message. */
  lemma EmptyDigest()
    ensures Digest([]) == Registers(0xd98c1dd4, 0x04b2008f, 0x980980e9, 0x7e42f8ec)
  {
    hide Operations, Words, BlockWords, Padded;
    EmptyPadded();
    BlockIsWords();
    SixtyFourOperations();
    assert Block()[..0] == [] && Block()[0..] == Block();
    assert CompressAll(INITIAL, Block()) == Compress(INITIAL, Block());
  }

  lemma OctetsOfDigest()
    ensures WordOctets(0xd98c1dd4) == [0xd4, 0x1d, 0x8c, 0xd9]
    ensures WordOctets(0x04b2008f) == [0x8f, 0x00, 0xb2, 0x04]
    ensures WordOctets(0x980980e9) == [0xe9, 0x80, 0x09, 0x98]
    ensures WordOctets(0x7e42f8ec) == [0xec, 0xf8, 0x42, 0x7e]
  {
  }
}
