/** Two digests of the test suite in appendix A.5 of RFC 1321, step by step. */
module Md5Vectors {
  import opened Bytes
  import opened Md5Spec
  import opened Md5Facts

  // ---- The tables ----

  lemma Places1()
    ensures T(0) == 0xd76aa478 && Index(0) == 0 && Shift(0) == 7
    ensures T(1) == 0xe8c7b756 && Index(1) == 1 && Shift(1) == 12
    ensures T(2) == 0x242070db && Index(2) == 2 && Shift(2) == 17
    ensures T(3) == 0xc1bdceee && Index(3) == 3 && Shift(3) == 22
    ensures T(4) == 0xf57c0faf && Index(4) == 4 && Shift(4) == 7
    ensures T(5) == 0x4787c62a && Index(5) == 5 && Shift(5) == 12
    ensures T(6) == 0xa8304613 && Index(6) == 6 && Shift(6) == 17
    ensures T(7) == 0xfd469501 && Index(7) == 7 && Shift(7) == 22
  {
  }

  lemma Places2()
    ensures T(8) == 0x698098d8 && Index(8) == 8 && Shift(8) == 7
    ensures T(9) == 0x8b44f7af && Index(9) == 9 && Shift(9) == 12
    ensures T(10) == 0xffff5bb1 && Index(10) == 10 && Shift(10) == 17
    ensures T(11) == 0x895cd7be && Index(11) == 11 && Shift(11) == 22
    ensures T(12) == 0x6b901122 && Index(12) == 12 && Shift(12) == 7
    ensures T(13) == 0xfd987193 && Index(13) == 13 && Shift(13) == 12
    ensures T(14) == 0xa679438e && Index(14) == 14 && Shift(14) == 17
    ensures T(15) == 0x49b40821 && Index(15) == 15 && Shift(15) == 22
  {
  }

  lemma Places3()
    ensures T(16) == 0xf61e2562 && Index(16) == 1 && Shift(16) == 5
    ensures T(17) == 0xc040b340 && Index(17) == 6 && Shift(17) == 9
    ensures T(18) == 0x265e5a51 && Index(18) == 11 && Shift(18) == 14
    ensures T(19) == 0xe9b6c7aa && Index(19) == 0 && Shift(19) == 20
    ensures T(20) == 0xd62f105d && Index(20) == 5 && Shift(20) == 5
    ensures T(21) == 0x02441453 && Index(21) == 10 && Shift(21) == 9
    ensures T(22) == 0xd8a1e681 && Index(22) == 15 && Shift(22) == 14
    ensures T(23) == 0xe7d3fbc8 && Index(23) == 4 && Shift(23) == 20
  {
  }

  lemma Places4()
    ensures T(24) == 0x21e1cde6 && Index(24) == 9 && Shift(24) == 5
    ensures T(25) == 0xc33707d6 && Index(25) == 14 && Shift(25) == 9
    ensures T(26) == 0xf4d50d87 && Index(26) == 3 && Shift(26) == 14
    ensures T(27) == 0x455a14ed && Index(27) == 8 && Shift(27) == 20
    ensures T(28) == 0xa9e3e905 && Index(28) == 13 && Shift(28) == 5
    ensures T(29) == 0xfcefa3f8 && Index(29) == 2 && Shift(29) == 9
    ensures T(30) == 0x676f02d9 && Index(30) == 7 && Shift(30) == 14
    ensures T(31) == 0x8d2a4c8a && Index(31) == 12 && Shift(31) == 20
  {
  }

  lemma Places5()
    ensures T(32) == 0xfffa3942 && Index(32) == 5 && Shift(32) == 4
    ensures T(33) == 0x8771f681 && Index(33) == 8 && Shift(33) == 11
    ensures T(34) == 0x6d9d6122 && Index(34) == 11 && Shift(34) == 16
    ensures T(35) == 0xfde5380c && Index(35) == 14 && Shift(35) == 23
    ensures T(36) == 0xa4beea44 && Index(36) == 1 && Shift(36) == 4
    ensures T(37) == 0x4bdecfa9 && Index(37) == 4 && Shift(37) == 11
    ensures T(38) == 0xf6bb4b60 && Index(38) == 7 && Shift(38) == 16
    ensures T(39) == 0xbebfbc70 && Index(39) == 10 && Shift(39) == 23
  {
  }

  lemma Places6()
    ensures T(40) == 0x289b7ec6 && Index(40) == 13 && Shift(40) == 4
    ensures T(41) == 0xeaa127fa && Index(41) == 0 && Shift(41) == 11
    ensures T(42) == 0xd4ef3085 && Index(42) == 3 && Shift(42) == 16
    ensures T(43) == 0x04881d05 && Index(43) == 6 && Shift(43) == 23
    ensures T(44) == 0xd9d4d039 && Index(44) == 9 && Shift(44) == 4
    ensures T(45) == 0xe6db99e5 && Index(45) == 12 && Shift(45) == 11
    ensures T(46) == 0x1fa27cf8 && Index(46) == 15 && Shift(46) == 16
    ensures T(47) == 0xc4ac5665 && Index(47) == 2 && Shift(47) == 23
  {
  }

  lemma Places7()
    ensures T(48) == 0xf4292244 && Index(48) == 0 && Shift(48) == 6
    ensures T(49) == 0x432aff97 && Index(49) == 7 && Shift(49) == 10
    ensures T(50) == 0xab9423a7 && Index(50) == 14 && Shift(50) == 15
    ensures T(51) == 0xfc93a039 && Index(51) == 5 && Shift(51) == 21
    ensures T(52) == 0x655b59c3 && Index(52) == 12 && Shift(52) == 6
    ensures T(53) == 0x8f0ccc92 && Index(53) == 3 && Shift(53) == 10
    ensures T(54) == 0xffeff47d && Index(54) == 10 && Shift(54) == 15
    ensures T(55) == 0x85845dd1 && Index(55) == 1 && Shift(55) == 21
  {
  }

  lemma Places8()
    ensures T(56) == 0x6fa87e4f && Index(56) == 8 && Shift(56) == 6
    ensures T(57) == 0xfe2ce6e0 && Index(57) == 15 && Shift(57) == 10
    ensures T(58) == 0xa3014314 && Index(58) == 6 && Shift(58) == 15
    ensures T(59) == 0x4e0811a1 && Index(59) == 13 && Shift(59) == 21
    ensures T(60) == 0xf7537e82 && Index(60) == 4 && Shift(60) == 6
    ensures T(61) == 0xbd3af235 && Index(61) == 11 && Shift(61) == 10
    ensures T(62) == 0x2ad7d2bb && Index(62) == 2 && Shift(62) == 15
    ensures T(63) == 0xeb86d391 && Index(63) == 9 && Shift(63) == 21
  {
  }

  // ---- The steps ----

  /** One step more. */
  lemma Then(i: nat, r: Registers, x: seq<word>, next: Registers)
    requires i < 64 && |x| == 16 && Step(i, Steps(i, r, x), x) == next
    ensures Steps(i + 1, r, x) == next
  {
    hide Step;
  }

  /** The padding of no message. */
  predicate NothingBlock(x: seq<word>) {
    && |x| == 16
    && x[0] == 0x00000080 && x[1] == 0x00000000 && x[2] == 0x00000000 && x[3] == 0x00000000
    && x[4] == 0x00000000 && x[5] == 0x00000000 && x[6] == 0x00000000 && x[7] == 0x00000000
    && x[8] == 0x00000000 && x[9] == 0x00000000 && x[10] == 0x00000000 && x[11] == 0x00000000
    && x[12] == 0x00000000 && x[13] == 0x00000000 && x[14] == 0x00000000 && x[15] == 0x00000000
  }

  lemma Nothing1(r: Registers, x: seq<word>)
    requires NothingBlock(x) && Steps(0, r, x) == Registers(0x67452301, 0xefcdab89, 0x98badcfe, 0x10325476)
    ensures Steps(16, r, x) == Registers(0xf56c7cf1, 0xd6819c6a, 0x5aa53f75, 0x374943a7)
  {
    hide Steps, T, Index, Shift;
    Places1();
    Places2();
    Then(0, r, x, Registers(0x10325476, 0xa5202774, 0xefcdab89, 0x98badcfe));
    Then(1, r, x, Registers(0x98badcfe, 0xf59592dd, 0xa5202774, 0xefcdab89));
    Then(2, r, x, Registers(0xefcdab89, 0xe7f06b23, 0xf59592dd, 0xa5202774));
    Then(3, r, x, Registers(0xa5202774, 0x1b163203, 0xe7f06b23, 0xf59592dd));
    Then(4, r, x, Registers(0xf59592dd, 0x32033344, 0x1b163203, 0xe7f06b23));
    Then(5, r, x, Registers(0xe7f06b23, 0x2f35d494, 0x32033344, 0x1b163203));
    Then(6, r, x, Registers(0x1b163203, 0xf5b158db, 0x2f35d494, 0x32033344));
    Then(7, r, x, Registers(0x32033344, 0x9bc13ce9, 0xf5b158db, 0x2f35d494));
    Then(8, r, x, Registers(0x2f35d494, 0x3893b991, 0x9bc13ce9, 0xf5b158db));
    Then(9, r, x, Registers(0xf5b158db, 0xfce4a312, 0x3893b991, 0x9bc13ce9));
    Then(10, r, x, Registers(0x9bc13ce9, 0xe1ef0576, 0xfce4a312, 0x3893b991));
    Then(11, r, x, Registers(0x3893b991, 0x70768a29, 0xe1ef0576, 0xfce4a312));
    Then(12, r, x, Registers(0xfce4a312, 0xf56c7cf1, 0x70768a29, 0xe1ef0576));
    Then(13, r, x, Registers(0xe1ef0576, 0x374943a7, 0xf56c7cf1, 0x70768a29));
    Then(14, r, x, Registers(0x70768a29, 0x5aa53f75, 0x374943a7, 0xf56c7cf1));
    Then(15, r, x, Registers(0xf56c7cf1, 0xd6819c6a, 0x5aa53f75, 0x374943a7));
  }

  lemma Nothing2(r: Registers, x: seq<word>)
    requires NothingBlock(x) && Steps(16, r, x) == Registers(0xf56c7cf1, 0xd6819c6a, 0x5aa53f75, 0x374943a7)
    ensures Steps(32, r, x) == Registers(0x13707036, 0xa2205f1f, 0x1c31c384, 0xae7813db)
  {
    hide Steps, T, Index, Shift;
    Places3();
    Places4();
    Then(16, r, x, Registers(0x374943a7, 0x1c7d7513, 0xd6819c6a, 0x5aa53f75));
    Then(17, r, x, Registers(0x5aa53f75, 0x7bd57a3a, 0x1c7d7513, 0xd6819c6a));
    Then(18, r, x, Registers(0xd6819c6a, 0xc095f13a, 0x7bd57a3a, 0x1c7d7513));
    Then(19, r, x, Registers(0x1c7d7513, 0xbd782e17, 0xc095f13a, 0x7bd57a3a));
    Then(20, r, x, Registers(0x7bd57a3a, 0x3d1e3e6c, 0xbd782e17, 0xc095f13a));
    Then(21, r, x, Registers(0xc095f13a, 0x68b7b3e3, 0x3d1e3e6c, 0xbd782e17));
    Then(22, r, x, Registers(0xbd782e17, 0xeb41643e, 0x68b7b3e3, 0x3d1e3e6c));
    Then(23, r, x, Registers(0x3d1e3e6c, 0xe422531a, 0xeb41643e, 0x68b7b3e3));
    Then(24, r, x, Registers(0x68b7b3e3, 0x306ec122, 0xe422531a, 0xeb41643e));
    Then(25, r, x, Registers(0xeb41643e, 0xd28c77c2, 0x306ec122, 0xe422531a));
    Then(26, r, x, Registers(0xe422531a, 0xa3c663da, 0xd28c77c2, 0x306ec122));
    Then(27, r, x, Registers(0x306ec122, 0xa0572807, 0xa3c663da, 0xd28c77c2));
    Then(28, r, x, Registers(0xd28c77c2, 0x13707036, 0xa0572807, 0xa3c663da));
    Then(29, r, x, Registers(0xa3c663da, 0xae7813db, 0x13707036, 0xa0572807));
    Then(30, r, x, Registers(0xa0572807, 0x1c31c384, 0xae7813db, 0x13707036));
    Then(31, r, x, Registers(0x13707036, 0xa2205f1f, 0x1c31c384, 0xae7813db));
  }

  lemma Nothing3(r: Registers, x: seq<word>)
    requires NothingBlock(x) && Steps(32, r, x) == Registers(0x13707036, 0xa2205f1f, 0x1c31c384, 0xae7813db)
    ensures Steps(48, r, x) == Registers(0x3f55edfd, 0xca7d2dbd, 0x68d84ea2, 0x22a31f54)
  {
    hide Steps, T, Index, Shift;
    Places5();
    Places6();
    Then(32, r, x, Registers(0xae7813db, 0xdf63eaa1, 0xa2205f1f, 0x1c31c384));
    Then(33, r, x, Registers(0x1c31c384, 0xc3689f5b, 0xdf63eaa1, 0xa2205f1f));
    Then(34, r, x, Registers(0xa2205f1f, 0x12f3e755, 0xc3689f5b, 0xdf63eaa1));
    Then(35, r, x, Registers(0xdf63eaa1, 0x004b6669, 0x12f3e755, 0xc3689f5b));
    Then(36, r, x, Registers(0xc3689f5b, 0x5f7a9b2e, 0x004b6669, 0x12f3e755));
    Then(37, r, x, Registers(0x12f3e755, 0xabc34e16, 0x5f7a9b2e, 0x004b6669));
    Then(38, r, x, Registers(0x004b6669, 0x91ca4cb7, 0xabc34e16, 0x5f7a9b2e));
    Then(39, r, x, Registers(0x5f7a9b2e, 0xc5dc8c15, 0x91ca4cb7, 0xabc34e16));
    Then(40, r, x, Registers(0xabc34e16, 0x4497169d, 0xc5dc8c15, 0x91ca4cb7));
    Then(41, r, x, Registers(0x91ca4cb7, 0x76fd93d4, 0x4497169d, 0xc5dc8c15));
    Then(42, r, x, Registers(0xc5dc8c15, 0xfd95f243, 0x76fd93d4, 0x4497169d));
    Then(43, r, x, Registers(0x4497169d, 0x0fe32453, 0xfd95f243, 0x76fd93d4));
    Then(44, r, x, Registers(0x76fd93d4, 0x3f55edfd, 0x0fe32453, 0xfd95f243));
    Then(45, r, x, Registers(0xfd95f243, 0x22a31f54, 0x3f55edfd, 0x0fe32453));
    Then(46, r, x, Registers(0x0fe32453, 0x68d84ea2, 0x22a31f54, 0x3f55edfd));
    Then(47, r, x, Registers(0x3f55edfd, 0xca7d2dbd, 0x68d84ea2, 0x22a31f54));
  }

  lemma Nothing4(r: Registers, x: seq<word>)
    requires NothingBlock(x) && Steps(48, r, x) == Registers(0x3f55edfd, 0xca7d2dbd, 0x68d84ea2, 0x22a31f54)
    ensures Steps(64, r, x) == Registers(0x7246fad3, 0x14e45506, 0xff4ea3eb, 0x6e10a476)
  {
    hide Steps, T, Index, Shift;
    Places7();
    Places8();
    Then(48, r, x, Registers(0x22a31f54, 0x93aa2577, 0xca7d2dbd, 0x68d84ea2));
    Then(49, r, x, Registers(0x68d84ea2, 0x1688dc85, 0x93aa2577, 0xca7d2dbd));
    Then(50, r, x, Registers(0xca7d2dbd, 0xcd85b8cb, 0x1688dc85, 0x93aa2577));
    Then(51, r, x, Registers(0x93aa2577, 0x561e0689, 0xcd85b8cb, 0x1688dc85));
    Then(52, r, x, Registers(0x1688dc85, 0x5625a114, 0x561e0689, 0xcd85b8cb));
    Then(53, r, x, Registers(0xcd85b8cb, 0x3450f42b, 0x5625a114, 0x561e0689));
    Then(54, r, x, Registers(0x561e0689, 0x392ad0d0, 0x3450f42b, 0x5625a114));
    Then(55, r, x, Registers(0x5625a114, 0x1e77fa61, 0x392ad0d0, 0x3450f42b));
    Then(56, r, x, Registers(0x3450f42b, 0x474a9c8c, 0x1e77fa61, 0x392ad0d0));
    Then(57, r, x, Registers(0x392ad0d0, 0xdfce00bc, 0x474a9c8c, 0x1e77fa61));
    Then(58, r, x, Registers(0x1e77fa61, 0x36594b14, 0xdfce00bc, 0x474a9c8c));
    Then(59, r, x, Registers(0x474a9c8c, 0x30130182, 0x36594b14, 0xdfce00bc));
    Then(60, r, x, Registers(0xdfce00bc, 0x7246fad3, 0x30130182, 0x36594b14));
    Then(61, r, x, Registers(0x36594b14, 0x6e10a476, 0x7246fad3, 0x30130182));
    Then(62, r, x, Registers(0x30130182, 0xff4ea3eb, 0x6e10a476, 0x7246fad3));
    Then(63, r, x, Registers(0x7246fad3, 0x14e45506, 0xff4ea3eb, 0x6e10a476));
  }

  lemma NothingDone(r: Registers, x: seq<word>)
    requires r == Registers(0x67452301, 0xefcdab89, 0x98badcfe, 0x10325476) && NothingBlock(x)
    ensures Increment(r, Steps(64, r, x)) == Registers(0xd98c1dd4, 0x04b2008f, 0x980980e9, 0x7e42f8ec)
  {
    assert Steps(0, r, x) == r;
    hide Steps, NothingBlock;
    Nothing1(r, x);
    Nothing2(r, x);
    Nothing3(r, x);
    Nothing4(r, x);
  }

  /** Letters and digits, and the first two bytes of their padding. */
  predicate FirstBlock(x: seq<word>) {
    && |x| == 16
    && x[0] == 0x44434241 && x[1] == 0x48474645 && x[2] == 0x4c4b4a49 && x[3] == 0x504f4e4d
    && x[4] == 0x54535251 && x[5] == 0x58575655 && x[6] == 0x62615a59 && x[7] == 0x66656463
    && x[8] == 0x6a696867 && x[9] == 0x6e6d6c6b && x[10] == 0x7271706f && x[11] == 0x76757473
    && x[12] == 0x7a797877 && x[13] == 0x33323130 && x[14] == 0x37363534 && x[15] == 0x00803938
  }

  lemma First1(r: Registers, x: seq<word>)
    requires FirstBlock(x) && Steps(0, r, x) == Registers(0x67452301, 0xefcdab89, 0x98badcfe, 0x10325476)
    ensures Steps(16, r, x) == Registers(0x3cbdcd45, 0x5d38e690, 0xfa148c8a, 0xb8dec763)
  {
    hide Steps, T, Index, Shift;
    Places1();
    Places2();
    Then(0, r, x, Registers(0x10325476, 0xc6c10796, 0xefcdab89, 0x98badcfe));
    Then(1, r, x, Registers(0x98badcfe, 0x99a09999, 0xc6c10796, 0xefcdab89));
    Then(2, r, x, Registers(0xefcdab89, 0x11067980, 0x99a09999, 0xc6c10796));
    Then(3, r, x, Registers(0xc6c10796, 0x27bce07a, 0x11067980, 0x99a09999));
    Then(4, r, x, Registers(0x99a09999, 0xf22e6c4e, 0x27bce07a, 0x11067980));
    Then(5, r, x, Registers(0x11067980, 0xb4ac9218, 0xf22e6c4e, 0x27bce07a));
    Then(6, r, x, Registers(0x27bce07a, 0xa95a2fc0, 0xb4ac9218, 0xf22e6c4e));
    Then(7, r, x, Registers(0xf22e6c4e, 0xa4799506, 0xa95a2fc0, 0xb4ac9218));
    Then(8, r, x, Registers(0xb4ac9218, 0x1eb3e7c1, 0xa4799506, 0xa95a2fc0));
    Then(9, r, x, Registers(0xa95a2fc0, 0xa6e70cfe, 0x1eb3e7c1, 0xa4799506));
    Then(10, r, x, Registers(0xa4799506, 0xca27520b, 0xa6e70cfe, 0x1eb3e7c1));
    Then(11, r, x, Registers(0x1eb3e7c1, 0x8a7612ec, 0xca27520b, 0xa6e70cfe));
    Then(12, r, x, Registers(0xa6e70cfe, 0x3cbdcd45, 0x8a7612ec, 0xca27520b));
    Then(13, r, x, Registers(0xca27520b, 0xb8dec763, 0x3cbdcd45, 0x8a7612ec));
    Then(14, r, x, Registers(0x8a7612ec, 0xfa148c8a, 0xb8dec763, 0x3cbdcd45));
    Then(15, r, x, Registers(0x3cbdcd45, 0x5d38e690, 0xfa148c8a, 0xb8dec763));
  }

  lemma First2(r: Registers, x: seq<word>)
    requires FirstBlock(x) && Steps(16, r, x) == Registers(0x3cbdcd45, 0x5d38e690, 0xfa148c8a, 0xb8dec763)
    ensures Steps(32, r, x) == Registers(0x9b085fa9, 0xdd789ecc, 0x5993248f, 0x4400a9bd)
  {
    hide Steps, T, Index, Shift;
    Places3();
    Places4();
    Then(16, r, x, Registers(0xb8dec763, 0x04b9d52a, 0x5d38e690, 0xfa148c8a));
    Then(17, r, x, Registers(0xfa148c8a, 0x783002eb, 0x04b9d52a, 0x5d38e690));
    Then(18, r, x, Registers(0x5d38e690, 0xd3ee3ed1, 0x783002eb, 0x04b9d52a));
    Then(19, r, x, Registers(0x04b9d52a, 0x47ae7c81, 0xd3ee3ed1, 0x783002eb));
    Then(20, r, x, Registers(0x783002eb, 0x2d7d8a3f, 0x47ae7c81, 0xd3ee3ed1));
    Then(21, r, x, Registers(0xd3ee3ed1, 0xd1210823, 0x2d7d8a3f, 0x47ae7c81));
    Then(22, r, x, Registers(0x47ae7c81, 0x4b534dc3, 0xd1210823, 0x2d7d8a3f));
    Then(23, r, x, Registers(0x2d7d8a3f, 0x75292030, 0x4b534dc3, 0xd1210823));
    Then(24, r, x, Registers(0xd1210823, 0x9d2a6e33, 0x75292030, 0x4b534dc3));
    Then(25, r, x, Registers(0x4b534dc3, 0x0e8d2e44, 0x9d2a6e33, 0x75292030));
    Then(26, r, x, Registers(0x75292030, 0xd473b564, 0x0e8d2e44, 0x9d2a6e33));
    Then(27, r, x, Registers(0x9d2a6e33, 0xf2ff6ea0, 0xd473b564, 0x0e8d2e44));
    Then(28, r, x, Registers(0x0e8d2e44, 0x9b085fa9, 0xf2ff6ea0, 0xd473b564));
    Then(29, r, x, Registers(0xd473b564, 0x4400a9bd, 0x9b085fa9, 0xf2ff6ea0));
    Then(30, r, x, Registers(0xf2ff6ea0, 0x5993248f, 0x4400a9bd, 0x9b085fa9));
    Then(31, r, x, Registers(0x9b085fa9, 0xdd789ecc, 0x5993248f, 0x4400a9bd));
  }

  lemma First3(r: Registers, x: seq<word>)
    requires FirstBlock(x) && Steps(32, r, x) == Registers(0x9b085fa9, 0xdd789ecc, 0x5993248f, 0x4400a9bd)
    ensures Steps(48, r, x) == Registers(0x2dbee21d, 0xf166f514, 0xee46e961, 0xe95c3a43)
  {
    hide Steps, T, Index, Shift;
    Places5();
    Places6();
    Then(32, r, x, Registers(0x4400a9bd, 0x21c8d2b7, 0xdd789ecc, 0x5993248f));
    Then(33, r, x, Registers(0x5993248f, 0x1d55a18e, 0x21c8d2b7, 0xdd789ecc));
    Then(34, r, x, Registers(0xdd789ecc, 0x056ec119, 0x1d55a18e, 0x21c8d2b7));
    Then(35, r, x, Registers(0x21c8d2b7, 0x1b9504f8, 0x056ec119, 0x1d55a18e));
    Then(36, r, x, Registers(0x1d55a18e, 0x436b7fe9, 0x1b9504f8, 0x056ec119));
    Then(37, r, x, Registers(0x056ec119, 0x075800c1, 0x436b7fe9, 0x1b9504f8));
    Then(38, r, x, Registers(0x1b9504f8, 0xf404c2f6, 0x075800c1, 0x436b7fe9));
    Then(39, r, x, Registers(0x436b7fe9, 0xcf0341ed, 0xf404c2f6, 0x075800c1));
    Then(40, r, x, Registers(0x075800c1, 0x888e7d8a, 0xcf0341ed, 0xf404c2f6));
    Then(41, r, x, Registers(0xf404c2f6, 0xbbdaecd8, 0x888e7d8a, 0xcf0341ed));
    Then(42, r, x, Registers(0xcf0341ed, 0xce620273, 0xbbdaecd8, 0x888e7d8a));
    Then(43, r, x, Registers(0x888e7d8a, 0x047b9419, 0xce620273, 0xbbdaecd8));
    Then(44, r, x, Registers(0xbbdaecd8, 0x2dbee21d, 0x047b9419, 0xce620273));
    Then(45, r, x, Registers(0xce620273, 0xe95c3a43, 0x2dbee21d, 0x047b9419));
    Then(46, r, x, Registers(0x047b9419, 0xee46e961, 0xe95c3a43, 0x2dbee21d));
    Then(47, r, x, Registers(0x2dbee21d, 0xf166f514, 0xee46e961, 0xe95c3a43));
  }

  lemma First4(r: Registers, x: seq<word>)
    requires FirstBlock(x) && Steps(48, r, x) == Registers(0x2dbee21d, 0xf166f514, 0xee46e961, 0xe95c3a43)
    ensures Steps(64, r, x) == Registers(0x1cb80f0a, 0xef2e3a46, 0x10f68731, 0xea3d3eb4)
  {
    hide Steps, T, Index, Shift;
    Places7();
    Places8();
    Then(48, r, x, Registers(0xe95c3a43, 0xe47fd4f3, 0xf166f514, 0xee46e961));
    Then(49, r, x, Registers(0xee46e961, 0xfb887751, 0xe47fd4f3, 0xf166f514));
    Then(50, r, x, Registers(0xf166f514, 0xf22aedcc, 0xfb887751, 0xe47fd4f3));
    Then(51, r, x, Registers(0xe47fd4f3, 0x7a13bc5c, 0xf22aedcc, 0xfb887751));
    Then(52, r, x, Registers(0xfb887751, 0xa691d430, 0x7a13bc5c, 0xf22aedcc));
    Then(53, r, x, Registers(0xf22aedcc, 0x528452f2, 0xa691d430, 0x7a13bc5c));
    Then(54, r, x, Registers(0x7a13bc5c, 0x3fc23df6, 0x528452f2, 0xa691d430));
    Then(55, r, x, Registers(0xa691d430, 0xefb0e72f, 0x3fc23df6, 0x528452f2));
    Then(56, r, x, Registers(0x528452f2, 0x27145703, 0xefb0e72f, 0x3fc23df6));
    Then(57, r, x, Registers(0x3fc23df6, 0x21a11069, 0x27145703, 0xefb0e72f));
    Then(58, r, x, Registers(0xefb0e72f, 0x374fbe79, 0x21a11069, 0x27145703));
    Then(59, r, x, Registers(0x27145703, 0x49d9a5b4, 0x374fbe79, 0x21a11069));
    Then(60, r, x, Registers(0x21a11069, 0x1cb80f0a, 0x49d9a5b4, 0x374fbe79));
    Then(61, r, x, Registers(0x374fbe79, 0xea3d3eb4, 0x1cb80f0a, 0x49d9a5b4));
    Then(62, r, x, Registers(0x49d9a5b4, 0x10f68731, 0xea3d3eb4, 0x1cb80f0a));
    Then(63, r, x, Registers(0x1cb80f0a, 0xef2e3a46, 0x10f68731, 0xea3d3eb4));
  }

  lemma FirstDone(r: Registers, x: seq<word>)
    requires r == Registers(0x67452301, 0xefcdab89, 0x98badcfe, 0x10325476) && FirstBlock(x)
    ensures Increment(r, Steps(64, r, x)) == Registers(0x83fd320b, 0xdefbe5cf, 0xa9b1642f, 0xfa6f932a)
  {
    assert Steps(0, r, x) == r;
    hide Steps, FirstBlock;
    First1(r, x);
    First2(r, x);
    First3(r, x);
    First4(r, x);
  }

  /** The rest of that padding. */
  predicate SecondBlock(x: seq<word>) {
    && |x| == 16
    && x[0] == 0x00000000 && x[1] == 0x00000000 && x[2] == 0x00000000 && x[3] == 0x00000000
    && x[4] == 0x00000000 && x[5] == 0x00000000 && x[6] == 0x00000000 && x[7] == 0x00000000
    && x[8] == 0x00000000 && x[9] == 0x00000000 && x[10] == 0x00000000 && x[11] == 0x00000000
    && x[12] == 0x00000000 && x[13] == 0x00000000 && x[14] == 0x000001f0 && x[15] == 0x00000000
  }

  lemma Second1(r: Registers, x: seq<word>)
    requires SecondBlock(x) && Steps(0, r, x) == Registers(0x83fd320b, 0xdefbe5cf, 0xa9b1642f, 0xfa6f932a)
    ensures Steps(16, r, x) == Registers(0xa70737da, 0xa36f556f, 0x96f6586e, 0x5473f8a7)
  {
    hide Steps, T, Index, Shift;
    Places1();
    Places2();
    Then(0, r, x, Registers(0xfa6f932a, 0xeda23ed1, 0xdefbe5cf, 0xa9b1642f));
    Then(1, r, x, Registers(0xa9b1642f, 0x989939cf, 0xeda23ed1, 0xdefbe5cf));
    Then(2, r, x, Registers(0xdefbe5cf, 0x3c307338, 0x989939cf, 0xeda23ed1));
    Then(3, r, x, Registers(0xeda23ed1, 0xddcf0634, 0x3c307338, 0x989939cf));
    Then(4, r, x, Registers(0x989939cf, 0x75144433, 0xddcf0634, 0x3c307338));
    Then(5, r, x, Registers(0x3c307338, 0xc8875807, 0x75144433, 0xddcf0634));
    Then(6, r, x, Registers(0xddcf0634, 0xc783cb60, 0xc8875807, 0x75144433));
    Then(7, r, x, Registers(0x75144433, 0x99b6b699, 0xc783cb60, 0xc8875807));
    Then(8, r, x, Registers(0xc8875807, 0xa60a3f69, 0x99b6b699, 0xc783cb60));
    Then(9, r, x, Registers(0xc783cb60, 0xaa6630be, 0xa60a3f69, 0x99b6b699));
    Then(10, r, x, Registers(0x99b6b699, 0x64db26e9, 0xaa6630be, 0xa60a3f69));
    Then(11, r, x, Registers(0xa60a3f69, 0x64cc7c5a, 0x64db26e9, 0xaa6630be));
    Then(12, r, x, Registers(0xaa6630be, 0xa70737da, 0x64cc7c5a, 0x64db26e9));
    Then(13, r, x, Registers(0x64db26e9, 0x5473f8a7, 0xa70737da, 0x64cc7c5a));
    Then(14, r, x, Registers(0x64cc7c5a, 0x96f6586e, 0x5473f8a7, 0xa70737da));
    Then(15, r, x, Registers(0xa70737da, 0xa36f556f, 0x96f6586e, 0x5473f8a7));
  }

  lemma Second2(r: Registers, x: seq<word>)
    requires SecondBlock(x) && Steps(16, r, x) == Registers(0xa70737da, 0xa36f556f, 0x96f6586e, 0x5473f8a7)
    ensures Steps(32, r, x) == Registers(0x24eba695, 0x9c03e2e8, 0x10c42a2f, 0x4bd0378b)
  {
    hide Steps, T, Index, Shift;
    Places3();
    Places4();
    Then(16, r, x, Registers(0x5473f8a7, 0xa5050ad3, 0xa36f556f, 0x96f6586e));
    Then(17, r, x, Registers(0x96f6586e, 0x28776046, 0xa5050ad3, 0xa36f556f));
    Then(18, r, x, Registers(0xa36f556f, 0x27dcd8b4, 0x28776046, 0xa5050ad3));
    Then(19, r, x, Registers(0xa5050ad3, 0x82b8827c, 0x27dcd8b4, 0x28776046));
    Then(20, r, x, Registers(0x28776046, 0xe04f070c, 0x82b8827c, 0x27dcd8b4));
    Then(21, r, x, Registers(0x27dcd8b4, 0x2f3cd2a2, 0xe04f070c, 0x82b8827c));
    Then(22, r, x, Registers(0x82b8827c, 0xc0d22b61, 0x2f3cd2a2, 0xe04f070c));
    Then(23, r, x, Registers(0xe04f070c, 0xdf35cb56, 0xc0d22b61, 0x2f3cd2a2));
    Then(24, r, x, Registers(0x2f3cd2a2, 0x242dd210, 0xdf35cb56, 0xc0d22b61));
    Then(25, r, x, Registers(0xc0d22b61, 0x576ace33, 0x242dd210, 0xdf35cb56));
    Then(26, r, x, Registers(0xdf35cb56, 0x5c295967, 0x576ace33, 0x242dd210));
    Then(27, r, x, Registers(0x242dd210, 0x2291191a, 0x5c295967, 0x576ace33));
    Then(28, r, x, Registers(0x576ace33, 0x24eba695, 0x2291191a, 0x5c295967));
    Then(29, r, x, Registers(0x5c295967, 0x4bd0378b, 0x24eba695, 0x2291191a));
    Then(30, r, x, Registers(0x2291191a, 0x10c42a2f, 0x4bd0378b, 0x24eba695));
    Then(31, r, x, Registers(0x24eba695, 0x9c03e2e8, 0x10c42a2f, 0x4bd0378b));
  }

  lemma Second3(r: Registers, x: seq<word>)
    requires SecondBlock(x) && Steps(32, r, x) == Registers(0x24eba695, 0x9c03e2e8, 0x10c42a2f, 0x4bd0378b)
    ensures Steps(48, r, x) == Registers(0x54c9eb3a, 0x79c0710a, 0x2ec86f72, 0xd4d9c6ac)
  {
    hide Steps, T, Index, Shift;
    Places5();
    Places6();
    Then(32, r, x, Registers(0x4bd0378b, 0x5be1d526, 0x9c03e2e8, 0x10c42a2f));
    Then(33, r, x, Registers(0x10c42a2f, 0x9e414279, 0x5be1d526, 0x9c03e2e8));
    Then(34, r, x, Registers(0x9c03e2e8, 0x9f4a1a7e, 0x9e414279, 0x5be1d526));
    Then(35, r, x, Registers(0x5be1d526, 0xa2448453, 0x9f4a1a7e, 0x9e414279));
    Then(36, r, x, Registers(0x9e414279, 0xe14e403d, 0xa2448453, 0x9f4a1a7e));
    Then(37, r, x, Registers(0x9f4a1a7e, 0xe8cfd670, 0xe14e403d, 0xa2448453));
    Then(38, r, x, Registers(0xa2448453, 0x60cc183a, 0xe8cfd670, 0xe14e403d));
    Then(39, r, x, Registers(0xe14e403d, 0xfe314121, 0x60cc183a, 0xe8cfd670));
    Then(40, r, x, Registers(0xe8cfd670, 0xfff62809, 0xfe314121, 0x60cc183a));
    Then(41, r, x, Registers(0x60cc183a, 0xe37209ac, 0xfff62809, 0xfe314121));
    Then(42, r, x, Registers(0xfe314121, 0x8cb5221c, 0xe37209ac, 0xfff62809));
    Then(43, r, x, Registers(0xfff62809, 0x7c7e974c, 0x8cb5221c, 0xe37209ac));
    Then(44, r, x, Registers(0xe37209ac, 0x54c9eb3a, 0x7c7e974c, 0x8cb5221c));
    Then(45, r, x, Registers(0x8cb5221c, 0xd4d9c6ac, 0x54c9eb3a, 0x7c7e974c));
    Then(46, r, x, Registers(0x7c7e974c, 0x2ec86f72, 0xd4d9c6ac, 0x54c9eb3a));
    Then(47, r, x, Registers(0x54c9eb3a, 0x79c0710a, 0x2ec86f72, 0xd4d9c6ac));
  }

  lemma Second4(r: Registers, x: seq<word>)
    requires SecondBlock(x) && Steps(48, r, x) == Registers(0x54c9eb3a, 0x79c0710a, 0x2ec86f72, 0xd4d9c6ac)
    ensures Steps(64, r, x) == Registers(0x14ae42c6, 0x16dd9203, 0x826afd76, 0xa52dae75)
  {
    hide Steps, T, Index, Shift;
    Places7();
    Places8();
    Then(48, r, x, Registers(0xd4d9c6ac, 0x02095af1, 0x79c0710a, 0x2ec86f72));
    Then(49, r, x, Registers(0x2ec86f72, 0x13d245fd, 0x02095af1, 0x79c0710a));
    Then(50, r, x, Registers(0x79c0710a, 0xa8dcfe26, 0x13d245fd, 0x02095af1));
    Then(51, r, x, Registers(0x02095af1, 0x2ba98e3f, 0xa8dcfe26, 0x13d245fd));
    Then(52, r, x, Registers(0x13d245fd, 0xe126c1aa, 0x2ba98e3f, 0xa8dcfe26));
    Then(53, r, x, Registers(0xa8dcfe26, 0x96b00fa7, 0xe126c1aa, 0x2ba98e3f));
    Then(54, r, x, Registers(0x2ba98e3f, 0x6f287ff5, 0x96b00fa7, 0xe126c1aa));
    Then(55, r, x, Registers(0xe126c1aa, 0xfb7bcee0, 0x6f287ff5, 0x96b00fa7));
    Then(56, r, x, Registers(0x96b00fa7, 0x452c1099, 0xfb7bcee0, 0x6f287ff5));
    Then(57, r, x, Registers(0x6f287ff5, 0xca801ba6, 0x452c1099, 0xfb7bcee0));
    Then(58, r, x, Registers(0xfb7bcee0, 0xc197ea8e, 0xca801ba6, 0x452c1099));
    Then(59, r, x, Registers(0x452c1099, 0x5ac74608, 0xc197ea8e, 0xca801ba6));
    Then(60, r, x, Registers(0xca801ba6, 0x14ae42c6, 0x5ac74608, 0xc197ea8e));
    Then(61, r, x, Registers(0xc197ea8e, 0xa52dae75, 0x14ae42c6, 0x5ac74608));
    Then(62, r, x, Registers(0x5ac74608, 0x826afd76, 0xa52dae75, 0x14ae42c6));
    Then(63, r, x, Registers(0x14ae42c6, 0x16dd9203, 0x826afd76, 0xa52dae75));
  }

  lemma SecondDone(r: Registers, x: seq<word>)
    requires r == Registers(0x83fd320b, 0xdefbe5cf, 0xa9b1642f, 0xfa6f932a) && SecondBlock(x)
    ensures Increment(r, Steps(64, r, x)) == Registers(0x98ab74d1, 0xf5d977d2, 0x2c1c61a5, 0x9f9d419f)
  {
    assert Steps(0, r, x) == r;
    hide Steps, SecondBlock;
    Second1(r, x);
    Second2(r, x);
    Second3(r, x);
    Second4(r, x);
  }

  // ---- The digests ----

  lemma WordAt(block: seq<byte>, i: nat)
    requires |block| == 64 && i < 16
    ensures Words(block)[i] == Four(block[4 * i], block[4 * i + 1], block[4 * i + 2], block[4 * i + 3])
  {
    hide WordOf, Four;
    WordOfFour(block, i);
  }

  lemma WordsAre(block: seq<byte>)
    requires |block| == 64
    ensures |Words(block)| == 16
    ensures forall i | 0 <= i < 16 ::
              Words(block)[i] == Four(block[4 * i], block[4 * i + 1], block[4 * i + 2], block[4 * i + 3])
  {
    hide Four, WordOf;
    assert |Words(block)| == 16;
    hide Words;
    forall i | 0 <= i < 16
      ensures Words(block)[i] == Four(block[4 * i], block[4 * i + 1], block[4 * i + 2], block[4 * i + 3])
    {
      WordAt(block, i);
    }
  }

  lemma OneBlock(r: Registers, m: seq<byte>)
    requires |m| >= 64
    ensures Fold(r, m) == Fold(Compress(r, m[..64]), m[64..])
    ensures |m| == 64 ==> m[..64] == m && Fold(r, m) == Compress(r, m)
  {
    hide Compress;
    if |m| == 64 {
      assert m[..64] == m && m[64..] == [];
    }
  }

  lemma NothingWords()
    ensures Four(0x80, 0, 0, 0) == 0x00000080 && Four(0, 0, 0, 0) == 0x00000000
  {
  }

  lemma NothingPadded()
    ensures var p := Padded([]); |p| == 64 && p[0] == 0x80 && forall i | 0 < i < 64 :: p[i] == 0
  {
    assert LittleEndian(0, 8) == [0, 0, 0, 0, 0, 0, 0, 0];
    hide LittleEndian;
  }

  lemma NothingIsBlock()
    ensures var p := Padded([]); |p| == 64 && NothingBlock(Words(p))
  {
    hide Padded, Four, Words;
    NothingPadded();
    WordsAre(Padded([]));
    NothingWords();
  }

  /** MD5 ("") = d41d8cd98f00b204e9800998ecf8427e */
  lemma DigestOfNothing()
    ensures Digest([]) == [0xd4, 0x1d, 0x8c, 0xd9, 0x8f, 0x00, 0xb2, 0x04, 0xe9, 0x80, 0x09, 0x98, 0xec, 0xf8, 0x42, 0x7e]
  {
    hide Padded, Steps, NothingBlock, WordBytes, Increment, Fold, Words;
    NothingIsBlock();
    NothingDone(INITIAL, Words(Padded([])));
    OneBlock(INITIAL, Padded([]));
    NothingBytes();
  }

  lemma NothingBytes()
    ensures var r := Registers(0xd98c1dd4, 0x04b2008f, 0x980980e9, 0x7e42f8ec);
            WordBytes(r.a) + WordBytes(r.b) + WordBytes(r.c) + WordBytes(r.d) ==
            [0xd4, 0x1d, 0x8c, 0xd9, 0x8f, 0x00, 0xb2, 0x04, 0xe9, 0x80, 0x09, 0x98, 0xec, 0xf8, 0x42, 0x7e]
  {
    assert WordBytes(0xd98c1dd4) == [0xd4, 0x1d, 0x8c, 0xd9];
    assert WordBytes(0x04b2008f) == [0x8f, 0x00, 0xb2, 0x04];
    assert WordBytes(0x980980e9) == [0xe9, 0x80, 0x09, 0x98];
    assert WordBytes(0x7e42f8ec) == [0xec, 0xf8, 0x42, 0x7e];
    hide WordBytes;
  }

  /** Capital letters, small letters and digits in ASCII. */
  function Alphanumeric(): (m: seq<byte>)
    ensures |m| == 62
  {
    seq(62, i requires 0 <= i < 62 => if i < 26 then 65 + i else if i < 52 then 71 + i else i - 4)
  }

  lemma AlphanumericPadded()
    ensures var m, p := Alphanumeric(), Padded(Alphanumeric());
            && |p| == 128 && (forall i | 0 <= i < 62 :: p[i] == m[i]) && p[62] == 0x80
            && (forall i | 63 <= i < 128 :: p[i] == if i == 120 then 0xf0 else if i == 121 then 1 else 0)
  {
    hide LittleEndian, Alphanumeric;
    LengthBytes();
  }

  lemma LengthBytes()
    ensures LittleEndian(496, 8) == [0xf0, 1, 0, 0, 0, 0, 0, 0]
  {
  }

  lemma FirstWords1()
    ensures Four(0x41, 0x42, 0x43, 0x44) == 0x44434241 && Four(0x45, 0x46, 0x47, 0x48) == 0x48474645
    ensures Four(0x49, 0x4a, 0x4b, 0x4c) == 0x4c4b4a49 && Four(0x4d, 0x4e, 0x4f, 0x50) == 0x504f4e4d
    ensures Four(0x51, 0x52, 0x53, 0x54) == 0x54535251 && Four(0x55, 0x56, 0x57, 0x58) == 0x58575655
    ensures Four(0x59, 0x5a, 0x61, 0x62) == 0x62615a59 && Four(0x63, 0x64, 0x65, 0x66) == 0x66656463
  {
  }

  lemma FirstWords2()
    ensures Four(0x67, 0x68, 0x69, 0x6a) == 0x6a696867 && Four(0x6b, 0x6c, 0x6d, 0x6e) == 0x6e6d6c6b
    ensures Four(0x6f, 0x70, 0x71, 0x72) == 0x7271706f && Four(0x73, 0x74, 0x75, 0x76) == 0x76757473
    ensures Four(0x77, 0x78, 0x79, 0x7a) == 0x7a797877 && Four(0x30, 0x31, 0x32, 0x33) == 0x33323130
    ensures Four(0x34, 0x35, 0x36, 0x37) == 0x37363534 && Four(0x38, 0x39, 0x80, 0) == 0x00803938
  {
  }

  lemma FirstPadded()
    ensures var p := Padded(Alphanumeric()); |p| == 128 && FirstBlock(Words(p[..64]))
  {
    hide Padded, Words, Four;
    AlphanumericPadded();
    WordsAre(Padded(Alphanumeric())[..64]);
    FirstWords1();
    FirstWords2();
  }

  lemma SecondWords()
    ensures Four(0, 0, 0, 0) == 0x00000000 && Four(0xf0, 0x01, 0, 0) == 0x000001f0
  {
  }

  lemma SecondPadded()
    ensures var p := Padded(Alphanumeric()); |p| == 128 && SecondBlock(Words(p[64..]))
  {
    hide Padded, Words, Four, Alphanumeric;
    AlphanumericPadded();
    WordsAre(Padded(Alphanumeric())[64..]);
    SecondWords();
  }

  /** MD5 of the letters and digits = d174ab98d277d9f5a5611c2c9f419d9f */
  lemma DigestOfAlphanumeric()
    ensures Digest(Alphanumeric()) == [0xd1, 0x74, 0xab, 0x98, 0xd2, 0x77, 0xd9, 0xf5,
                                         0xa5, 0x61, 0x1c, 0x2c, 0x9f, 0x41, 0x9d, 0x9f]
  {
    hide Padded, Alphanumeric, Steps, FirstBlock, SecondBlock, WordBytes, Increment, Fold, Words;
    var p := Padded(Alphanumeric());
    FirstPadded();
    SecondPadded();
    FirstDone(INITIAL, Words(p[..64]));
    OneBlock(INITIAL, p);
    var r := Compress(INITIAL, p[..64]);
    SecondDone(r, Words(p[64..]));
    OneBlock(r, p[64..]);
    SecondBytes();
  }

  lemma SecondBytes()
    ensures var r := Registers(0x98ab74d1, 0xf5d977d2, 0x2c1c61a5, 0x9f9d419f);
            WordBytes(r.a) + WordBytes(r.b) + WordBytes(r.c) + WordBytes(r.d) ==
            [0xd1, 0x74, 0xab, 0x98, 0xd2, 0x77, 0xd9, 0xf5, 0xa5, 0x61, 0x1c, 0x2c, 0x9f, 0x41, 0x9d, 0x9f]
  {
    assert WordBytes(0x98ab74d1) == [0xd1, 0x74, 0xab, 0x98];
    assert WordBytes(0xf5d977d2) == [0xd2, 0x77, 0xd9, 0xf5];
    assert WordBytes(0x2c1c61a5) == [0xa5, 0x61, 0x1c, 0x2c];
    assert WordBytes(0x9f9d419f) == [0x9f, 0x41, 0x9d, 0x9f];
    hide WordBytes;
  }
}
