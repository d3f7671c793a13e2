/** What the functions of MD5 on words mean, bit by bit and as numbers. */
module Md5Facts {
  import opened Bytes
  import opened Arithmetic
  import opened Md5Spec

  // ---- The four functions, by their truth tables ----

  /** Where `x` has ones the bit of `y`, elsewhere that of `z`. */
  lemma FChooses(x: word, y: word, z: word)
    ensures x & F(x, y, z) == x & y && !x & F(x, y, z) == !x & z
  {
  }

  lemma FInThreeOperations(x: word, y: word, z: word)
    ensures F(x, y, z) == z ^ (x & (y ^ z))
  {
  }

  /** Where `z` has ones the bit of `x`, elsewhere that of `y`. */
  lemma GChooses(x: word, y: word, z: word)
    ensures z & G(x, y, z) == z & x && !z & G(x, y, z) == !z & y
  {
  }

  lemma GInThreeOperations(x: word, y: word, z: word)
    ensures G(x, y, z) == y ^ (z & (x ^ y))
  {
  }

  /** The parity of the three bits. */
  lemma HIsParity(x: word, y: word, z: word)
    ensures H(x, y, z) == (x & y & z) | (x & !y & !z) | (!x & y & !z) | (!x & !y & z)
  {
  }

  /** Where `z` has ones `x` and `y` differ, elsewhere not `y`. */
  lemma IIsMixed(x: word, y: word, z: word)
    ensures z & I(x, y, z) == z & ((x & !y) | (!x & y)) && !z & I(x, y, z) == !z & !y
  {
  }

  // ---- One step ----

  /** a = b + ((a + f + x + t) <<< s), sum by sum. */
  lemma SetIs(f: word, a: word, b: word, x: word, t: word, s: nat)
    requires 0 < s < 32
    ensures var sum := ((a + f) + x) + t; Set(f, a, b, x, t, s) == b + Rotate(sum, s)
  {
    hide Rotate;
  }

  /** The sixteen bytes of the initial registers. */
  lemma InitialBytes()
    ensures var r := INITIAL;
            WordBytes(r.a) + WordBytes(r.b) + WordBytes(r.c) + WordBytes(r.d) ==
            [0x01, 0x23, 0x45, 0x67, 0x89, 0xab, 0xcd, 0xef, 0xfe, 0xdc, 0xba, 0x98, 0x76, 0x54, 0x32, 0x10]
  {
  }

  // ---- Bytes of words ----

  lemma TopByte(w: word)
    ensures w as nat == 0x100_0000 * ((w >> 24) as nat) + ((w & 0xff_ffff) as nat)
  {
  }

  lemma ThirdByte(w: word)
    ensures (w & 0xff_ffff) as nat == 0x1_0000 * (((w >> 16) & 0xff) as nat) + ((w & 0xffff) as nat)
  {
  }

  lemma SecondByte(w: word)
    ensures (w & 0xffff) as nat == 0x100 * (((w >> 8) & 0xff) as nat) + ((w & 0xff) as nat)
  {
  }

  lemma TopIsByte(w: word)
    ensures (w >> 24) & 0xff == w >> 24
  {
  }

  /** Four digits to the base 256, the lowest first. */
  lemma FourDigits(a: byte, b: byte, c: byte, d: byte, n: nat)
    requires n == a + 0x100 * b + 0x1_0000 * c + 0x100_0000 * d
    ensures LittleEndian(n, 4) == [a, b, c, d]
  {
    assert n / 256 == b + 0x100 * c + 0x1_0000 * d && n % 256 == a;
    var n1 := n / 256;
    assert n1 / 256 == c + 0x100 * d && n1 % 256 == b;
    var n2 := n1 / 256;
    assert n2 / 256 == d && n2 % 256 == c;
    assert LittleEndian(d, 1) == [d];
    assert LittleEndian(n2, 2) == [c] + LittleEndian(d, 1);
    assert LittleEndian(n1, 3) == [b] + LittleEndian(n2, 2);
  }

  lemma WordBytesAre(w: word)
    ensures WordBytes(w) == LittleEndian(w as nat, 4)
  {
    hide LittleEndian;
    TopByte(w);
    ThirdByte(w);
    SecondByte(w);
    TopIsByte(w);
    var bs := WordBytes(w);
    FourDigits(bs[0], bs[1], bs[2], bs[3], w as nat);
  }

  lemma SameByte(x: word)
    requires x < 256
    ensures x as int < 256 && Widened(x as byte) == x
  {
  }

  lemma FourParts(w: word)
    ensures (w & 0xff) + (((w >> 8) & 0xff) << 8) + (((w >> 16) & 0xff) << 16) + (((w >> 24) & 0xff) << 24) == w
    ensures w & 0xff < 256 && (w >> 8) & 0xff < 256 && (w >> 16) & 0xff < 256 && (w >> 24) & 0xff < 256
  {
  }

  /** The word of four bytes, the lowest first. */
  function Four(a: byte, b: byte, c: byte, d: byte): word {
    Widened(a) + (Widened(b) << 8) + (Widened(c) << 16) + (Widened(d) << 24)
  }

  lemma FourOfWord(w: word)
    ensures var bs := WordBytes(w); Four(bs[0], bs[1], bs[2], bs[3]) == w
  {
    BytesWidened(w);
    hide Widened, WordBytes;
    FourParts(w);
  }

  lemma BytesWidened(w: word)
    ensures var bs := WordBytes(w);
            Widened(bs[0]) == w & 0xff && Widened(bs[1]) == (w >> 8) & 0xff &&
            Widened(bs[2]) == (w >> 16) & 0xff && Widened(bs[3]) == (w >> 24) & 0xff
  {
    hide Widened;
    FourParts(w);
    SameByte(w & 0xff);
    SameByte((w >> 8) & 0xff);
    SameByte((w >> 16) & 0xff);
    SameByte((w >> 24) & 0xff);
  }

  lemma WordOfFour(block: seq<byte>, i: nat)
    requires 4 * i + 4 <= |block|
    ensures WordOf(block, i) == Four(block[4 * i], block[4 * i + 1], block[4 * i + 2], block[4 * i + 3])
  {
    hide Widened;
  }

  /** The word of four bytes is the number they stand for, the lowest first. */
  lemma WordOfIs(block: seq<byte>, i: nat, w: word)
    requires 4 * i + 4 <= |block| && block[4 * i..4 * i + 4] == LittleEndian(w as nat, 4)
    ensures WordOf(block, i) == w
  {
    hide LittleEndian, WordBytes, WordOf, Four;
    WordBytesAre(w);
    FourOfWord(w);
    WordOfFour(block, i);
    var four := block[4 * i..4 * i + 4];
    assert block[4 * i] == four[0] && block[4 * i + 1] == four[1];
    assert block[4 * i + 2] == four[2] && block[4 * i + 3] == four[3];
  }

  // ---- Rotation ----

  /** The bits that go round come in at the low end. */
  function Turned(v: nat, n: nat): nat
    requires n <= 32
  {
    Around(v, Pow2(n), Pow2(32 - n))
  }

  function Around(v: nat, p: nat, q: nat): nat
    requires q > 0
  {
    v * p % 0x1_0000_0000 + v / q
  }

  lemma Powers(n: nat, k: nat)
    ensures Pow2(n + k) == Pow2(n) * Pow2(k)
  {
    if n > 0 {
      Powers(n - 1, k);
      hide Pow2;
    }
  }

  lemma AroundIs(v: nat, p: nat, q: nat, hi: nat, lo: nat)
    requires p * q == 0x1_0000_0000 && q > 0 && v == q * hi + lo && lo < q && hi < p
    ensures Around(v, p, q) == p * lo + hi
  {
    DivisionIsUnique(v, q, hi, lo);
    assert v * p == hi * (p * q) + p * lo;
    assert p * lo < p * q;
    DivisionIsUnique(v * p, p * q, hi, p * lo);
  }

  function Number(w: word): nat { w as nat }

  /** The `n`-fold turn of a word, as numbers. */
  ghost predicate Turns(n: nat) {
    0 < n < 32 && forall x: word :: Number(Rotate(x, n)) == Turned(Number(x), n)
  }

  lemma Shl4(x: word)
    ensures Number(x << 4) == 0x10 * Number(x & 0xfffffff)
  {
  }

  lemma Split4(x: word)
    ensures Number(x) == 0x10000000 * Number(x >> 28) + Number(x & 0xfffffff)
  {
  }

  lemma Join4(x: word)
    ensures Number((x << 4) | (x >> 28)) == Number(x << 4) + Number(x >> 28)
  {
  }

  lemma High4(x: word)
    ensures Number(x >> 28) < 0x10
  {
  }

  lemma Turns4()
    ensures Turns(4)
  {
    hide Number, Turned;
    assert Pow2(4) == 0x10 && Pow2(28) == 0x10000000 by { TwoPowers(); }
    forall x: word ensures Number(Rotate(x, 4)) == Turned(Number(x), 4) {
      Shl4(x);
      Split4(x);
      Join4(x);
      High4(x);
      NumberBelow(x << 4);
      AroundIs(Number(x), 0x10, 0x10000000, Number(x >> 28), Number(x & 0xfffffff));
      TurnedIs(Number(x), 4);
    }
  }

  lemma Shl5(x: word)
    ensures Number(x << 5) == 0x20 * Number(x & 0x7ffffff)
  {
  }

  lemma Split5(x: word)
    ensures Number(x) == 0x8000000 * Number(x >> 27) + Number(x & 0x7ffffff)
  {
  }

  lemma Join5(x: word)
    ensures Number((x << 5) | (x >> 27)) == Number(x << 5) + Number(x >> 27)
  {
  }

  lemma High5(x: word)
    ensures Number(x >> 27) < 0x20
  {
  }

  lemma Turns5()
    ensures Turns(5)
  {
    hide Number, Turned;
    assert Pow2(5) == 0x20 && Pow2(27) == 0x8000000 by { TwoPowers(); }
    forall x: word ensures Number(Rotate(x, 5)) == Turned(Number(x), 5) {
      Shl5(x);
      Split5(x);
      Join5(x);
      High5(x);
      NumberBelow(x << 5);
      AroundIs(Number(x), 0x20, 0x8000000, Number(x >> 27), Number(x & 0x7ffffff));
      TurnedIs(Number(x), 5);
    }
  }

  lemma Shl6(x: word)
    ensures Number(x << 6) == 0x40 * Number(x & 0x3ffffff)
  {
  }

  lemma Split6(x: word)
    ensures Number(x) == 0x4000000 * Number(x >> 26) + Number(x & 0x3ffffff)
  {
  }

  lemma Join6(x: word)
    ensures Number((x << 6) | (x >> 26)) == Number(x << 6) + Number(x >> 26)
  {
  }

  lemma High6(x: word)
    ensures Number(x >> 26) < 0x40
  {
  }

  lemma Turns6()
    ensures Turns(6)
  {
    hide Number, Turned;
    assert Pow2(6) == 0x40 && Pow2(26) == 0x4000000 by { TwoPowers(); }
    forall x: word ensures Number(Rotate(x, 6)) == Turned(Number(x), 6) {
      Shl6(x);
      Split6(x);
      Join6(x);
      High6(x);
      NumberBelow(x << 6);
      AroundIs(Number(x), 0x40, 0x4000000, Number(x >> 26), Number(x & 0x3ffffff));
      TurnedIs(Number(x), 6);
    }
  }

  lemma Shl7(x: word)
    ensures Number(x << 7) == 0x80 * Number(x & 0x1ffffff)
  {
  }

  lemma Split7(x: word)
    ensures Number(x) == 0x2000000 * Number(x >> 25) + Number(x & 0x1ffffff)
  {
  }

  lemma Join7(x: word)
    ensures Number((x << 7) | (x >> 25)) == Number(x << 7) + Number(x >> 25)
  {
  }

  lemma High7(x: word)
    ensures Number(x >> 25) < 0x80
  {
  }

  lemma Turns7()
    ensures Turns(7)
  {
    hide Number, Turned;
    assert Pow2(7) == 0x80 && Pow2(25) == 0x2000000 by { TwoPowers(); }
    forall x: word ensures Number(Rotate(x, 7)) == Turned(Number(x), 7) {
      Shl7(x);
      Split7(x);
      Join7(x);
      High7(x);
      NumberBelow(x << 7);
      AroundIs(Number(x), 0x80, 0x2000000, Number(x >> 25), Number(x & 0x1ffffff));
      TurnedIs(Number(x), 7);
    }
  }

  lemma TurnedIs(v: nat, n: nat)
    requires n <= 32
    ensures Turned(v, n) == Around(v, Pow2(n), Pow2(32 - n))
  {
  }

  lemma TwoPowers()
    ensures Pow2(4) == 0x10 && Pow2(5) == 0x20 && Pow2(6) == 0x40 && Pow2(7) == 0x80
    ensures Pow2(25) == 0x200_0000 && Pow2(26) == 0x400_0000 && Pow2(27) == 0x800_0000 && Pow2(28) == 0x1000_0000
  {
    assert Pow2(12) == 0x1000;
    assert Pow2(20) == 0x10_0000;
  }

  // ---- One turn after another ----

  lemma Times(x: int, y: int, z: int)
    ensures x * (y + z) == x * y + x * z && x * (y * z) == x * y * z && x * y == y * x
  {
  }

  lemma Product(a: nat, b: nat, c: nat, d: nat)
    requires a < b && c < d
    ensures d * a + c < d * b
  {
    var e := b - a - 1;
    Times(d, a + 1, e);
    Times(d, a, 1);
    NotNegative(d, e);
  }

  lemma NotNegative(x: nat, y: nat)
    ensures x * y >= 0
  {
  }

  /** A number in digits `hi`, `t` and `l`, regrouped. */
  lemma Regroup(pa: nat, pb: nat, c: nat, hi: nat, t: nat, l: nat)
    ensures c * pb * hi + (c * t + l) == c * (pb * hi + t) + l
    ensures pa * (c * t + l) + hi == c * pa * t + (pa * l + hi)
    ensures pb * (pa * l + hi) == pa * pb * l + pb * hi
  {
    Times(c, pb * hi, t);
    Times(c, pb, hi);
    Times(pa, c * t, l);
    Times(pa, c, t);
    Times(pb, pa * l, hi);
    Times(pb, pa, l);
    Times(pb, pa, 0);
  }

  lemma Products(pa: nat, pb: nat, c: nat)
    ensures pb * (c * pa) == pa * (c * pb) && pa * pb * c == pa * (c * pb)
  {
    Times(pb, c, pa);
    Times(pa, c, pb);
    Times(pa, pb, c);
    Times(pb * c, pa, 0);
    Times(pb, c, 0);
  }

  /** The digits of a number, high `hi`, middle `t` and low `l`, turned by one place and then by the next. */
  lemma TurnDigits(pa: nat, pb: nat, c: nat, hi: nat, t: nat, l: nat)
    requires pa > 0 && pb > 0 && c > 0 && c * pb > 0 && c * pa > 0 && pa * (c * pb) == 0x1_0000_0000
    requires hi < pa && t < pb && l < c
    ensures var v := c * pb * hi + (c * t + l);
            Around(Around(v, pa, c * pb), pb, c * pa) == Around(v, pa * pb, c)
  {
    hide Around;
    var lo, r := c * t + l, pa * l + hi;
    var v := c * pb * hi + lo;
    Regroup(pa, pb, c, hi, t, l);
    Products(pa, pb, c);
    Product(t, pb, l, c);
    AroundIs(v, pa, c * pb, hi, lo);
    Product(l, c, hi, pa);
    Times(pa, c, 0);
    AroundIs(pa * lo + hi, pb, c * pa, t, r);
    Product(hi, pa, t, pb);
    Times(pa, pb, 0);
    AroundIs(v, pa * pb, c, pb * hi + t, l);
  }

  lemma TurnTwice(v: nat, a: nat, b: nat)
    requires v < 0x1_0000_0000 && a + b <= 32
    ensures Turned(Turned(v, a), b) == Turned(v, a + b)
  {
    hide Pow2, Turned, Around;
    var pa, pb, c := Pow2(a), Pow2(b), Pow2(32 - (a + b));
    SharedPowers(a, b);
    TurnedIs(v, a);
    TurnedIs(v, a + b);
    TurnedIs(Turned(v, a), b);
    var hi, lo := Digits(v, pa, c * pb);
    var t, l := Digits(lo, pb, c);
    TurnDigits(pa, pb, c, hi, t, l);
  }

  lemma Digits(v: nat, p: nat, q: nat) returns (hi: nat, lo: nat)
    requires q > 0 && v < q * p
    ensures v == q * hi + lo && lo < q && hi < p
  {
    hi, lo := v / q, v % q;
    Times(q, hi, 0);
    if hi >= p {
      Times(q, p, hi - p);
      NotNegative(q, hi - p);
    }
  }

  lemma SharedPowers(a: nat, b: nat)
    requires a + b <= 32
    ensures var pa, pb, c := Pow2(a), Pow2(b), Pow2(32 - (a + b));
            && Pow2(a + b) == pa * pb && Pow2(32 - a) == c * pb && Pow2(32 - b) == c * pa
            && c * pb * pa == 0x1_0000_0000 && pa * (c * pb) == 0x1_0000_0000
            && c > 0 && c * pb > 0 && c * pa > 0
  {
    hide Pow2;
    Powers(a, b);
    Powers(32 - (a + b), b);
    Powers(32 - (a + b), a);
    Powers(32 - a, a);
    AllBits();
    Times(Pow2(32 - a), Pow2(a), 0);
  }

  lemma AllBits()
    ensures Pow2(32) == 0x1_0000_0000
  {
    hide Pow2;
    TwoPowers();
    Powers(4, 28);
  }

  lemma Compose(a: nat, b: nat)
    requires Turns(a) && Turns(b) && a + b < 32
    requires forall x: word :: Rotate(x, a + b) == Rotate(Rotate(x, a), b)
    ensures Turns(a + b)
  {
    hide Number, Turned, Rotate;
    forall x: word ensures Number(Rotate(x, a + b)) == Turned(Number(x), a + b) {
      NumberBelow(x);
      TurnTwice(Number(x), a, b);
    }
  }

  lemma NumberBelow(x: word)
    ensures Number(x) < 0x1_0000_0000
  {
  }

  lemma Turns9()
    ensures Turns(9)
  {
    hide Turns;
    Turns4();
    Turns5();
    forall x: word ensures Rotate(x, 9) == Rotate(Rotate(x, 4), 5) {
    }
    Compose(4, 5);
  }

  lemma Turns10()
    ensures Turns(10)
  {
    hide Turns;
    Turns5();
    forall x: word ensures Rotate(x, 10) == Rotate(Rotate(x, 5), 5) {
    }
    Compose(5, 5);
  }

  lemma Turns11()
    ensures Turns(11)
  {
    hide Turns;
    Turns4();
    Turns7();
    forall x: word ensures Rotate(x, 11) == Rotate(Rotate(x, 4), 7) {
    }
    Compose(4, 7);
  }

  lemma Turns12()
    ensures Turns(12)
  {
    hide Turns;
    Turns6();
    forall x: word ensures Rotate(x, 12) == Rotate(Rotate(x, 6), 6) {
    }
    Compose(6, 6);
  }

  lemma Turns14()
    ensures Turns(14)
  {
    hide Turns;
    Turns7();
    forall x: word ensures Rotate(x, 14) == Rotate(Rotate(x, 7), 7) {
    }
    Compose(7, 7);
  }

  lemma Turns15()
    ensures Turns(15)
  {
    hide Turns;
    Turns5();
    Turns10();
    forall x: word ensures Rotate(x, 15) == Rotate(Rotate(x, 5), 10) {
    }
    Compose(5, 10);
  }

  lemma Turns16()
    ensures Turns(16)
  {
    hide Turns;
    Turns6();
    Turns10();
    forall x: word ensures Rotate(x, 16) == Rotate(Rotate(x, 6), 10) {
    }
    Compose(6, 10);
  }

  lemma Turns17()
    ensures Turns(17)
  {
    hide Turns;
    Turns7();
    Turns10();
    forall x: word ensures Rotate(x, 17) == Rotate(Rotate(x, 7), 10) {
    }
    Compose(7, 10);
  }

  lemma Turns20()
    ensures Turns(20)
  {
    hide Turns;
    Turns10();
    forall x: word ensures Rotate(x, 20) == Rotate(Rotate(x, 10), 10) {
    }
    Compose(10, 10);
  }

  lemma Turns21()
    ensures Turns(21)
  {
    hide Turns;
    Turns10();
    Turns11();
    forall x: word ensures Rotate(x, 21) == Rotate(Rotate(x, 10), 11) {
    }
    Compose(10, 11);
  }

  lemma Turns22()
    ensures Turns(22)
  {
    hide Turns;
    Turns11();
    forall x: word ensures Rotate(x, 22) == Rotate(Rotate(x, 11), 11) {
    }
    Compose(11, 11);
  }

  lemma Turns23()
    ensures Turns(23)
  {
    hide Turns;
    Turns11();
    Turns12();
    forall x: word ensures Rotate(x, 23) == Rotate(Rotate(x, 11), 12) {
    }
    Compose(11, 12);
  }

  /** Each rotation of the table moves the bits up and brings those that go out in at the low end. */
  lemma RotateInNumbers(x: word, i: nat)
    requires i < 64
    ensures var n := Shift(i);
            Rotate(x, n) as nat == (x as nat) * Pow2(n) % 0x1_0000_0000 + (x as nat) / Pow2(32 - n)
  {
    AllTurn(i);
    hide Rotate, Pow2, Shift;
    assert Number(Rotate(x, Shift(i))) == Turned(Number(x), Shift(i));
  }

  lemma AllTurn(i: nat)
    requires i < 64
    ensures Turns(Shift(i))
  {
    hide Turns;
    var n := Shift(i);
    Turns7();
    Turns12();
    Turns17();
    Turns22();
    Turns5();
    Turns9();
    Turns14();
    Turns20();
    Turns4();
    Turns11();
    Turns16();
    Turns23();
    Turns6();
    Turns10();
    Turns15();
    Turns21();
  }
}
