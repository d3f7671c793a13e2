/** The constants and the four rounds as the program unrolls them. */
module Md5 {
  import opened Bytes
  import opened Md5Spec

  const T_MASK: word := 0xffffffff
  const T1: word := T_MASK ^ 0x28955b87
  const T2: word := T_MASK ^ 0x173848a9
  const T3: word := 0x242070db
  const T4: word := T_MASK ^ 0x3e423111
  const T5: word := T_MASK ^ 0x0a83f050
  const T6: word := 0x4787c62a
  const T7: word := T_MASK ^ 0x57cfb9ec
  const T8: word := T_MASK ^ 0x02b96afe
  const T9: word := 0x698098d8
  const T10: word := T_MASK ^ 0x74bb0850
  const T11: word := T_MASK ^ 0x0000a44e
  const T12: word := T_MASK ^ 0x76a32841
  const T13: word := 0x6b901122
  const T14: word := T_MASK ^ 0x02678e6c
  const T15: word := T_MASK ^ 0x5986bc71
  const T16: word := 0x49b40821
  const T17: word := T_MASK ^ 0x09e1da9d
  const T18: word := T_MASK ^ 0x3fbf4cbf
  const T19: word := 0x265e5a51
  const T20: word := T_MASK ^ 0x16493855
  const T21: word := T_MASK ^ 0x29d0efa2
  const T22: word := 0x02441453
  const T23: word := T_MASK ^ 0x275e197e
  const T24: word := T_MASK ^ 0x182c0437
  const T25: word := 0x21e1cde6
  const T26: word := T_MASK ^ 0x3cc8f829
  const T27: word := T_MASK ^ 0x0b2af278
  const T28: word := 0x455a14ed
  const T29: word := T_MASK ^ 0x561c16fa
  const T30: word := T_MASK ^ 0x03105c07
  const T31: word := 0x676f02d9
  const T32: word := T_MASK ^ 0x72d5b375
  const T33: word := T_MASK ^ 0x0005c6bd
  const T34: word := T_MASK ^ 0x788e097e
  const T35: word := 0x6d9d6122
  const T36: word := T_MASK ^ 0x021ac7f3
  const T37: word := T_MASK ^ 0x5b4115bb
  const T38: word := 0x4bdecfa9
  const T39: word := T_MASK ^ 0x0944b49f
  const T40: word := T_MASK ^ 0x4140438f
  const T41: word := 0x289b7ec6
  const T42: word := T_MASK ^ 0x155ed805
  const T43: word := T_MASK ^ 0x2b10cf7a
  const T44: word := 0x04881d05
  const T45: word := T_MASK ^ 0x262b2fc6
  const T46: word := T_MASK ^ 0x1924661a
  const T47: word := 0x1fa27cf8
  const T48: word := T_MASK ^ 0x3b53a99a
  const T49: word := T_MASK ^ 0x0bd6ddbb
  const T50: word := 0x432aff97
  const T51: word := T_MASK ^ 0x546bdc58
  const T52: word := T_MASK ^ 0x036c5fc6
  const T53: word := 0x655b59c3
  const T54: word := T_MASK ^ 0x70f3336d
  const T55: word := T_MASK ^ 0x00100b82
  const T56: word := T_MASK ^ 0x7a7ba22e
  const T57: word := 0x6fa87e4f
  const T58: word := T_MASK ^ 0x01d3191f
  const T59: word := T_MASK ^ 0x5cfebceb
  const T60: word := 0x4e0811a1
  const T61: word := T_MASK ^ 0x08ac817d
  const T62: word := T_MASK ^ 0x42c50dca
  const T63: word := 0x2ad7d2bb
  const T64: word := T_MASK ^ 0x14792c6e

  lemma Constants1()
    ensures T(0) == T1
    ensures T(1) == T2
    ensures T(2) == T3
    ensures T(3) == T4
    ensures T(4) == T5
    ensures T(5) == T6
    ensures T(6) == T7
    ensures T(7) == T8
    ensures T(8) == T9
    ensures T(9) == T10
    ensures T(10) == T11
    ensures T(11) == T12
    ensures T(12) == T13
    ensures T(13) == T14
    ensures T(14) == T15
    ensures T(15) == T16
  {
  }

  lemma Places1()
    ensures Index(0) == 0 && Shift(0) == 7
    ensures Index(1) == 1 && Shift(1) == 12
    ensures Index(2) == 2 && Shift(2) == 17
    ensures Index(3) == 3 && Shift(3) == 22
    ensures Index(4) == 4 && Shift(4) == 7
    ensures Index(5) == 5 && Shift(5) == 12
    ensures Index(6) == 6 && Shift(6) == 17
    ensures Index(7) == 7 && Shift(7) == 22
    ensures Index(8) == 8 && Shift(8) == 7
    ensures Index(9) == 9 && Shift(9) == 12
    ensures Index(10) == 10 && Shift(10) == 17
    ensures Index(11) == 11 && Shift(11) == 22
    ensures Index(12) == 12 && Shift(12) == 7
    ensures Index(13) == 13 && Shift(13) == 12
    ensures Index(14) == 14 && Shift(14) == 17
    ensures Index(15) == 15 && Shift(15) == 22
  {
  }

  lemma Constants2()
    ensures T(16) == T17
    ensures T(17) == T18
    ensures T(18) == T19
    ensures T(19) == T20
    ensures T(20) == T21
    ensures T(21) == T22
    ensures T(22) == T23
    ensures T(23) == T24
    ensures T(24) == T25
    ensures T(25) == T26
    ensures T(26) == T27
    ensures T(27) == T28
    ensures T(28) == T29
    ensures T(29) == T30
    ensures T(30) == T31
    ensures T(31) == T32
  {
  }

  lemma Places2()
    ensures Index(16) == 1 && Shift(16) == 5
    ensures Index(17) == 6 && Shift(17) == 9
    ensures Index(18) == 11 && Shift(18) == 14
    ensures Index(19) == 0 && Shift(19) == 20
    ensures Index(20) == 5 && Shift(20) == 5
    ensures Index(21) == 10 && Shift(21) == 9
    ensures Index(22) == 15 && Shift(22) == 14
    ensures Index(23) == 4 && Shift(23) == 20
    ensures Index(24) == 9 && Shift(24) == 5
    ensures Index(25) == 14 && Shift(25) == 9
    ensures Index(26) == 3 && Shift(26) == 14
    ensures Index(27) == 8 && Shift(27) == 20
    ensures Index(28) == 13 && Shift(28) == 5
    ensures Index(29) == 2 && Shift(29) == 9
    ensures Index(30) == 7 && Shift(30) == 14
    ensures Index(31) == 12 && Shift(31) == 20
  {
  }

  lemma Constants3()
    ensures T(32) == T33
    ensures T(33) == T34
    ensures T(34) == T35
    ensures T(35) == T36
    ensures T(36) == T37
    ensures T(37) == T38
    ensures T(38) == T39
    ensures T(39) == T40
    ensures T(40) == T41
    ensures T(41) == T42
    ensures T(42) == T43
    ensures T(43) == T44
    ensures T(44) == T45
    ensures T(45) == T46
    ensures T(46) == T47
    ensures T(47) == T48
  {
  }

  lemma Places3()
    ensures Index(32) == 5 && Shift(32) == 4
    ensures Index(33) == 8 && Shift(33) == 11
    ensures Index(34) == 11 && Shift(34) == 16
    ensures Index(35) == 14 && Shift(35) == 23
    ensures Index(36) == 1 && Shift(36) == 4
    ensures Index(37) == 4 && Shift(37) == 11
    ensures Index(38) == 7 && Shift(38) == 16
    ensures Index(39) == 10 && Shift(39) == 23
    ensures Index(40) == 13 && Shift(40) == 4
    ensures Index(41) == 0 && Shift(41) == 11
    ensures Index(42) == 3 && Shift(42) == 16
    ensures Index(43) == 6 && Shift(43) == 23
    ensures Index(44) == 9 && Shift(44) == 4
    ensures Index(45) == 12 && Shift(45) == 11
    ensures Index(46) == 15 && Shift(46) == 16
    ensures Index(47) == 2 && Shift(47) == 23
  {
  }

  lemma Constants4()
    ensures T(48) == T49
    ensures T(49) == T50
    ensures T(50) == T51
    ensures T(51) == T52
    ensures T(52) == T53
    ensures T(53) == T54
    ensures T(54) == T55
    ensures T(55) == T56
    ensures T(56) == T57
    ensures T(57) == T58
    ensures T(58) == T59
    ensures T(59) == T60
    ensures T(60) == T61
    ensures T(61) == T62
    ensures T(62) == T63
    ensures T(63) == T64
  {
  }

  lemma Places4()
    ensures Index(48) == 0 && Shift(48) == 6
    ensures Index(49) == 7 && Shift(49) == 10
    ensures Index(50) == 14 && Shift(50) == 15
    ensures Index(51) == 5 && Shift(51) == 21
    ensures Index(52) == 12 && Shift(52) == 6
    ensures Index(53) == 3 && Shift(53) == 10
    ensures Index(54) == 10 && Shift(54) == 15
    ensures Index(55) == 1 && Shift(55) == 21
    ensures Index(56) == 8 && Shift(56) == 6
    ensures Index(57) == 15 && Shift(57) == 10
    ensures Index(58) == 6 && Shift(58) == 15
    ensures Index(59) == 13 && Shift(59) == 21
    ensures Index(60) == 4 && Shift(60) == 6
    ensures Index(61) == 11 && Shift(61) == 10
    ensures Index(62) == 2 && Shift(62) == 15
    ensures Index(63) == 9 && Shift(63) == 21
  {
  }

  /** Round 1. `i` is the state before it, `o` the message block. */
  method Round1(i: Registers, ghost o: Registers, x: seq<word>) returns (q: Registers)
    requires |x| == 16 && i == Steps(0, o, x)
    ensures q == Steps(16, o, x)
  {
    Constants1();
    Places1();
    hide F, G, H, I, Rotate, Set, Steps, T, Index, Shift;
    var a, b, c, d := i.a, i.b, i.c, i.d;
    OneStep(0, o, x, a, b, c, d, 0, 7, T1);
    a := Set(F(b, c, d), a, b, x[0], T1, 7);
    OneStep(1, o, x, d, a, b, c, 1, 12, T2);
    d := Set(F(a, b, c), d, a, x[1], T2, 12);
    OneStep(2, o, x, c, d, a, b, 2, 17, T3);
    c := Set(F(d, a, b), c, d, x[2], T3, 17);
    OneStep(3, o, x, b, c, d, a, 3, 22, T4);
    b := Set(F(c, d, a), b, c, x[3], T4, 22);
    OneStep(4, o, x, a, b, c, d, 4, 7, T5);
    a := Set(F(b, c, d), a, b, x[4], T5, 7);
    OneStep(5, o, x, d, a, b, c, 5, 12, T6);
    d := Set(F(a, b, c), d, a, x[5], T6, 12);
    OneStep(6, o, x, c, d, a, b, 6, 17, T7);
    c := Set(F(d, a, b), c, d, x[6], T7, 17);
    OneStep(7, o, x, b, c, d, a, 7, 22, T8);
    b := Set(F(c, d, a), b, c, x[7], T8, 22);
    OneStep(8, o, x, a, b, c, d, 8, 7, T9);
    a := Set(F(b, c, d), a, b, x[8], T9, 7);
    OneStep(9, o, x, d, a, b, c, 9, 12, T10);
    d := Set(F(a, b, c), d, a, x[9], T10, 12);
    OneStep(10, o, x, c, d, a, b, 10, 17, T11);
    c := Set(F(d, a, b), c, d, x[10], T11, 17);
    OneStep(11, o, x, b, c, d, a, 11, 22, T12);
    b := Set(F(c, d, a), b, c, x[11], T12, 22);
    OneStep(12, o, x, a, b, c, d, 12, 7, T13);
    a := Set(F(b, c, d), a, b, x[12], T13, 7);
    OneStep(13, o, x, d, a, b, c, 13, 12, T14);
    d := Set(F(a, b, c), d, a, x[13], T14, 12);
    OneStep(14, o, x, c, d, a, b, 14, 17, T15);
    c := Set(F(d, a, b), c, d, x[14], T15, 17);
    OneStep(15, o, x, b, c, d, a, 15, 22, T16);
    b := Set(F(c, d, a), b, c, x[15], T16, 22);
    q := Registers(a, b, c, d);
  }

  /** Round 2. `i` is the state before it, `o` the message block. */
  method Round2(i: Registers, ghost o: Registers, x: seq<word>) returns (q: Registers)
    requires |x| == 16 && i == Steps(16, o, x)
    ensures q == Steps(32, o, x)
  {
    Constants2();
    Places2();
    hide F, G, H, I, Rotate, Set, Steps, T, Index, Shift;
    var a, b, c, d := i.a, i.b, i.c, i.d;
    OneStep(16, o, x, a, b, c, d, 1, 5, T17);
    a := Set(G(b, c, d), a, b, x[1], T17, 5);
    OneStep(17, o, x, d, a, b, c, 6, 9, T18);
    d := Set(G(a, b, c), d, a, x[6], T18, 9);
    OneStep(18, o, x, c, d, a, b, 11, 14, T19);
    c := Set(G(d, a, b), c, d, x[11], T19, 14);
    OneStep(19, o, x, b, c, d, a, 0, 20, T20);
    b := Set(G(c, d, a), b, c, x[0], T20, 20);
    OneStep(20, o, x, a, b, c, d, 5, 5, T21);
    a := Set(G(b, c, d), a, b, x[5], T21, 5);
    OneStep(21, o, x, d, a, b, c, 10, 9, T22);
    d := Set(G(a, b, c), d, a, x[10], T22, 9);
    OneStep(22, o, x, c, d, a, b, 15, 14, T23);
    c := Set(G(d, a, b), c, d, x[15], T23, 14);
    OneStep(23, o, x, b, c, d, a, 4, 20, T24);
    b := Set(G(c, d, a), b, c, x[4], T24, 20);
    OneStep(24, o, x, a, b, c, d, 9, 5, T25);
    a := Set(G(b, c, d), a, b, x[9], T25, 5);
    OneStep(25, o, x, d, a, b, c, 14, 9, T26);
    d := Set(G(a, b, c), d, a, x[14], T26, 9);
    OneStep(26, o, x, c, d, a, b, 3, 14, T27);
    c := Set(G(d, a, b), c, d, x[3], T27, 14);
    OneStep(27, o, x, b, c, d, a, 8, 20, T28);
    b := Set(G(c, d, a), b, c, x[8], T28, 20);
    OneStep(28, o, x, a, b, c, d, 13, 5, T29);
    a := Set(G(b, c, d), a, b, x[13], T29, 5);
    OneStep(29, o, x, d, a, b, c, 2, 9, T30);
    d := Set(G(a, b, c), d, a, x[2], T30, 9);
    OneStep(30, o, x, c, d, a, b, 7, 14, T31);
    c := Set(G(d, a, b), c, d, x[7], T31, 14);
    OneStep(31, o, x, b, c, d, a, 12, 20, T32);
    b := Set(G(c, d, a), b, c, x[12], T32, 20);
    q := Registers(a, b, c, d);
  }

  /** Round 3. `i` is the state before it, `o` the message block. */
  method Round3(i: Registers, ghost o: Registers, x: seq<word>) returns (q: Registers)
    requires |x| == 16 && i == Steps(32, o, x)
    ensures q == Steps(48, o, x)
  {
    Constants3();
    Places3();
    hide F, G, H, I, Rotate, Set, Steps, T, Index, Shift;
    var a, b, c, d := i.a, i.b, i.c, i.d;
    OneStep(32, o, x, a, b, c, d, 5, 4, T33);
    a := Set(H(b, c, d), a, b, x[5], T33, 4);
    OneStep(33, o, x, d, a, b, c, 8, 11, T34);
    d := Set(H(a, b, c), d, a, x[8], T34, 11);
    OneStep(34, o, x, c, d, a, b, 11, 16, T35);
    c := Set(H(d, a, b), c, d, x[11], T35, 16);
    OneStep(35, o, x, b, c, d, a, 14, 23, T36);
    b := Set(H(c, d, a), b, c, x[14], T36, 23);
    OneStep(36, o, x, a, b, c, d, 1, 4, T37);
    a := Set(H(b, c, d), a, b, x[1], T37, 4);
    OneStep(37, o, x, d, a, b, c, 4, 11, T38);
    d := Set(H(a, b, c), d, a, x[4], T38, 11);
    OneStep(38, o, x, c, d, a, b, 7, 16, T39);
    c := Set(H(d, a, b), c, d, x[7], T39, 16);
    OneStep(39, o, x, b, c, d, a, 10, 23, T40);
    b := Set(H(c, d, a), b, c, x[10], T40, 23);
    OneStep(40, o, x, a, b, c, d, 13, 4, T41);
    a := Set(H(b, c, d), a, b, x[13], T41, 4);
    OneStep(41, o, x, d, a, b, c, 0, 11, T42);
    d := Set(H(a, b, c), d, a, x[0], T42, 11);
    OneStep(42, o, x, c, d, a, b, 3, 16, T43);
    c := Set(H(d, a, b), c, d, x[3], T43, 16);
    OneStep(43, o, x, b, c, d, a, 6, 23, T44);
    b := Set(H(c, d, a), b, c, x[6], T44, 23);
    OneStep(44, o, x, a, b, c, d, 9, 4, T45);
    a := Set(H(b, c, d), a, b, x[9], T45, 4);
    OneStep(45, o, x, d, a, b, c, 12, 11, T46);
    d := Set(H(a, b, c), d, a, x[12], T46, 11);
    OneStep(46, o, x, c, d, a, b, 15, 16, T47);
    c := Set(H(d, a, b), c, d, x[15], T47, 16);
    OneStep(47, o, x, b, c, d, a, 2, 23, T48);
    b := Set(H(c, d, a), b, c, x[2], T48, 23);
    q := Registers(a, b, c, d);
  }

  /** Round 4. `i` is the state before it, `o` the message block. */
  method Round4(i: Registers, ghost o: Registers, x: seq<word>) returns (q: Registers)
    requires |x| == 16 && i == Steps(48, o, x)
    ensures q == Steps(64, o, x)
  {
    Constants4();
    Places4();
    hide F, G, H, I, Rotate, Set, Steps, T, Index, Shift;
    var a, b, c, d := i.a, i.b, i.c, i.d;
    OneStep(48, o, x, a, b, c, d, 0, 6, T49);
    a := Set(I(b, c, d), a, b, x[0], T49, 6);
    OneStep(49, o, x, d, a, b, c, 7, 10, T50);
    d := Set(I(a, b, c), d, a, x[7], T50, 10);
    OneStep(50, o, x, c, d, a, b, 14, 15, T51);
    c := Set(I(d, a, b), c, d, x[14], T51, 15);
    OneStep(51, o, x, b, c, d, a, 5, 21, T52);
    b := Set(I(c, d, a), b, c, x[5], T52, 21);
    OneStep(52, o, x, a, b, c, d, 12, 6, T53);
    a := Set(I(b, c, d), a, b, x[12], T53, 6);
    OneStep(53, o, x, d, a, b, c, 3, 10, T54);
    d := Set(I(a, b, c), d, a, x[3], T54, 10);
    OneStep(54, o, x, c, d, a, b, 10, 15, T55);
    c := Set(I(d, a, b), c, d, x[10], T55, 15);
    OneStep(55, o, x, b, c, d, a, 1, 21, T56);
    b := Set(I(c, d, a), b, c, x[1], T56, 21);
    OneStep(56, o, x, a, b, c, d, 8, 6, T57);
    a := Set(I(b, c, d), a, b, x[8], T57, 6);
    OneStep(57, o, x, d, a, b, c, 15, 10, T58);
    d := Set(I(a, b, c), d, a, x[15], T58, 10);
    OneStep(58, o, x, c, d, a, b, 6, 15, T59);
    c := Set(I(d, a, b), c, d, x[6], T59, 15);
    OneStep(59, o, x, b, c, d, a, 13, 21, T60);
    b := Set(I(c, d, a), b, c, x[13], T60, 21);
    OneStep(60, o, x, a, b, c, d, 4, 6, T61);
    a := Set(I(b, c, d), a, b, x[4], T61, 6);
    OneStep(61, o, x, d, a, b, c, 11, 10, T62);
    d := Set(I(a, b, c), d, a, x[11], T62, 10);
    OneStep(62, o, x, c, d, a, b, 2, 15, T63);
    c := Set(I(d, a, b), c, d, x[2], T63, 15);
    OneStep(63, o, x, b, c, d, a, 9, 21, T64);
    b := Set(I(c, d, a), b, c, x[9], T64, 21);
    q := Registers(a, b, c, d);
  }
}
