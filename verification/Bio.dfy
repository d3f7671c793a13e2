/** Signed numbers as little-endian bytes: the loops that write and read them. */
module Bio {
  import opened Bytes

  /** `value` in `n` bytes of two's complement, the lowest first. */
  function TwosComplement(value: int, n: nat): (s: seq<byte>)
    ensures |s| == n
  {
    LittleEndian(value % Pow256(n), n)
  }

  /** The number that a little-endian byte string stands for. */
  function FromLittleEndian(s: seq<byte>): (n: nat)
    ensures n < Pow256(|s|)
  {
    if s == [] then 0 else s[0] + 256 * FromLittleEndian(s[1..])
  }

  /** The signed number of `n` bytes with the same bits. */
  function Signed(u: nat, n: nat): int {
    if 2 * u < Pow256(n) then u else u - Pow256(n)
  }

  predicate InRange(value: int, n: nat) {
    0 <= 2 * value + Pow256(n) && 2 * value < Pow256(n)
  }

  /** What `decode` makes of `n` bytes. */
  function Decoded(s: seq<byte>): int {
    Signed(FromLittleEndian(s), |s|)
  }

  lemma {:induction false} LittleEndianRoundTrip(u: nat, n: nat)
    requires u < Pow256(n)
    ensures FromLittleEndian(LittleEndian(u, n)) == u
  {
    if n > 0 {
      LittleEndianRoundTrip(u / 256, n - 1);
      assert LittleEndian(u, n)[1..] == LittleEndian(u / 256, n - 1);
    }
  }

  lemma {:induction false} LittleEndianBack(s: seq<byte>)
    ensures LittleEndian(FromLittleEndian(s), |s|) == s
  {
    if s != [] {
      LittleEndianBack(s[1..]);
      var u := FromLittleEndian(s);
      assert u % 256 == s[0] && u / 256 == FromLittleEndian(s[1..]);
      assert s == [s[0]] + s[1..];
    }
  }

  lemma Wraps(value: int, p: nat)
    requires p > 0 && 0 <= 2 * value + p && 2 * value < p
    ensures value % p == if value < 0 then value + p else value
  {
    if value < 0 {
      assert p * -1 + p == 0;
      Remainder(value, p, -1, value + p);
    } else {
      assert p * 0 == 0;
      Remainder(value, p, 0, value);
    }
  }

  /** Every value in range survives. */
  lemma DecodeOfEncode(value: int, n: nat)
    requires n > 0 && InRange(value, n)
    ensures Decoded(TwosComplement(value, n)) == value
  {
    var p := Pow256(n);
    Wraps(value, p);
    LittleEndianRoundTrip(value % p, n);
  }

  /** Every byte string survives. */
  lemma EncodeOfDecode(s: seq<byte>)
    requires s != []
    ensures InRange(Decoded(s), |s|) && TwosComplement(Decoded(s), |s|) == s
  {
    var p, u := Pow256(|s|), FromLittleEndian(s);
    assert p % 2 == 0;
    Wraps(Signed(u, |s|), p);
    LittleEndianBack(s);
  }

  // ---- Writing ----

  /** The low byte of `value`, then those of what an arithmetic shift by eight leaves. */
  lemma LowByteFirst(value: int, n: nat)
    requires n > 0
    ensures TwosComplement(value, n) == [value % 256] + TwosComplement(value / 256, n - 1)
  {
    var p := Pow256(n - 1);
    var u := value % (256 * p);
    ShiftedRemainder(value, p);
    assert Pow256(n) == 256 * p;
    assert LittleEndian(u, n) == [u % 256] + LittleEndian(u / 256, n - 1);
  }

  lemma ShiftedRemainder(value: int, p: nat)
    requires p > 0
    ensures value % (256 * p) % 256 == value % 256 && value % (256 * p) / 256 == value / 256 % p
  {
    var w, b := value / 256, value % 256;
    var q, r := w / p, w % p;
    assert value == 256 * w + b && w == q * p + r;
    assert value == (256 * p) * q + (256 * r + b) by {
      assert 256 * (q * p + r) == (256 * p) * q + 256 * r;
    }
    assert 0 <= 256 * r + b < 256 * p;
    Remainder(value, 256 * p, q, 256 * r + b);
  }

  lemma Remainder(value: int, d: nat, q: int, r: int)
    requires value == d * q + r && 0 <= r < d
    ensures value % d == r
  {
    OneQuotient(d, q, r, value / d, value % d);
  }

  lemma OneQuotient(d: nat, q: int, r: int, q': int, r': int)
    requires d * q + r == d * q' + r' && 0 <= r < d && 0 <= r' < d
    ensures r == r'
  {
    assert d * (q - q') == r' - r;
    Multiple(d, q - q');
  }

  lemma Multiple(d: nat, e: int)
    requires d > 0
    ensures e >= 1 ==> d * e >= d
    ensures e <= -1 ==> d * e <= -1 * d
  {
  }

  /** `encode` of `Int32` (`n` four) and `Int64` (`n` eight). */
  method Encode(value: int, data: array<byte>, n: nat) returns (written: nat)
    requires n <= data.Length
    modifies data
    ensures written == n && data[..n] == TwosComplement(value, n) && data[n..] == old(data[n..])
  {
    var v, b, p := value, n, 0;
    assert data[..0] == [];
    while b > 0
      invariant 0 <= b <= n && p == n - b
      invariant data[..p] + TwosComplement(v, b) == TwosComplement(value, n)
      invariant data[n..] == old(data[n..])
    {
      LowByteFirst(v, b);
      data[p] := v % 256;
      assert data[..p + 1] == data[..p] + [v % 256];
      v := v / 256;
      p := p + 1;
      b := b - 1;
    }
    written := n;
  }

  // ---- Reading ----

  function OrBits(a: nat, b: nat, k: nat): (x: nat) {
    if k == 0 then 0 else (if a % 2 == 0 && b % 2 == 0 then 0 else 1) + 2 * OrBits(a / 2, b / 2, k - 1)
  }

  lemma {:induction false} OrOfZero(b: nat, k: nat)
    requires b < Pow2(k)
    ensures OrBits(0, b, k) == b
  {
    if k > 0 {
      OrOfZero(b / 2, k - 1);
    }
  }

  /** Bits that do not overlap add up. */
  lemma {:induction false} OrAdds(a: nat, c: nat, m: nat, k: nat)
    requires m <= k && a < Pow2(m) && c < Pow2(k - m)
    ensures OrBits(a, c * Pow2(m), k) == a + c * Pow2(m)
  {
    if m == 0 {
      OrOfZero(c, k);
    } else {
      var b := c * Pow2(m - 1);
      assert c * Pow2(m) == 2 * b;
      OrAdds(a / 2, c, m - 1, k - 1);
    }
  }

  lemma {:induction false} BytesAndBits(n: nat)
    ensures Pow256(n) == Pow2(8 * n)
  {
    if n > 0 {
      BytesAndBits(n - 1);
      assert Pow2(8 * n) == 2 * Pow2(8 * n - 1);
      assert Pow2(8 * n - 1) == 2 * Pow2(8 * n - 2);
      assert Pow2(8 * n - 2) == 2 * Pow2(8 * n - 3);
      assert Pow2(8 * n - 3) == 2 * Pow2(8 * n - 4);
      assert Pow2(8 * n - 4) == 2 * Pow2(8 * n - 5);
      assert Pow2(8 * n - 5) == 2 * Pow2(8 * n - 6);
      assert Pow2(8 * n - 6) == 2 * Pow2(8 * n - 7);
      assert Pow2(8 * n - 7) == 2 * Pow2(8 * n - 8);
    }
  }

  lemma {:induction false} HighByteLast(s: seq<byte>, c: byte)
    ensures FromLittleEndian(s + [c]) == FromLittleEndian(s) + c * Pow256(|s|)
  {
    if s == [] {
      assert s + [c] == [c];
    } else {
      assert (s + [c])[1..] == s[1..] + [c];
      HighByteLast(s[1..], c);
      Reorder(c, Pow256(|s| - 1));
    }
  }

  lemma Reorder(c: nat, p: nat)
    ensures 256 * (c * p) == c * (256 * p)
  {
  }

  /** A byte shifted into place among `n` bytes and joined by `|` is the next byte. */
  lemma OrNextByte(s: seq<byte>, c: byte, n: nat)
    requires |s| < n
    ensures OrBits(FromLittleEndian(s), c * Pow2(8 * |s|), 8 * n) == FromLittleEndian(s + [c])
  {
    HighByteLast(s, c);
    BytesAndBits(|s|);
    Pow2Grows(8, 8 * n - 8 * |s|);
    assert Pow2(8) == 256 by {
      BytesAndBits(1);
    }
    OrAdds(FromLittleEndian(s), c, 8 * |s|, 8 * n);
  }

  lemma {:induction false} Pow2Grows(j: nat, k: nat)
    requires j <= k
    ensures Pow2(j) <= Pow2(k)
  {
    if j < k {
      Pow2Grows(j, k - 1);
    }
  }

  /** `decode` of `Int32` (`n` four) and `Int64` (`n` eight); the accumulator is kept as its bits. */
  method Decode(data: array<byte>, n: nat) returns (value: int, taken: nat)
    requires n <= data.Length
    ensures taken == n && value == Decoded(data[..n])
  {
    var v: nat, c := 0, n;
    assert data[..0] == [];
    while c > 0
      invariant 0 <= c <= n && v == FromLittleEndian(data[..n - c])
    {
      var k := n - c;
      OrNextByte(data[..k], data[k], n);
      assert data[..k + 1] == data[..k] + [data[k]];
      v := OrBits(v, data[k] * Pow2(8 * k), 8 * n);
      c := c - 1;
    }
    value, taken := Signed(v, n), n;
  }

  // ---- In numbers ----

  /** Four bytes, the lowest first and the sign in the top bit of the last; all of the 32-bit range. */
  lemma Int32InNumbers(value: int, a: byte, b: byte, c: byte, d: byte)
    requires TwosComplement(value, 4) == [a, b, c, d] && -0x8000_0000 <= value < 0x8000_0000
    ensures value == Low(a, b, c, d) - if d >= 128 then 0x1_0000_0000 else 0
    ensures Decoded([a, b, c, d]) == value
  {
    FourBytes(a, b, c, d);
    assert Pow256(4) == 0x1_0000_0000 by { assert Pow256(2) == 0x1_0000; }
    hide FromLittleEndian, Pow256;
    DecodeOfEncode(value, 4);
  }

  /** Eight bytes likewise. */
  lemma Int64InNumbers(value: int, a: byte, b: byte, c: byte, d: byte, e: byte, f: byte, g: byte, h: byte)
    requires TwosComplement(value, 8) == [a, b, c, d, e, f, g, h]
    requires -0x8000_0000_0000_0000 <= value < 0x8000_0000_0000_0000
    ensures value == Low(a, b, c, d) + 0x1_0000_0000 * Low(e, f, g, h) - if h >= 128 then 0x1_0000_0000_0000_0000 else 0
    ensures Decoded([a, b, c, d, e, f, g, h]) == value
  {
    FourBytes(e, f, g, h);
    EightBytes(a, b, c, d, e, f, g, h);
    assert Pow256(8) == 0x1_0000_0000_0000_0000 by {
      assert Pow256(4) == 0x1_0000_0000;
      assert Pow256(6) == 0x1_0000_0000_0000;
    }
    hide FromLittleEndian, Pow256;
    DecodeOfEncode(value, 8);
  }

  function Low(a: nat, b: nat, c: nat, d: nat): nat {
    a + 0x100 * b + 0x1_0000 * c + 0x100_0000 * d
  }

  lemma FourBytes(a: byte, b: byte, c: byte, d: byte)
    ensures FromLittleEndian([a, b, c, d]) == Low(a, b, c, d)
  {
    FirstByte(a, [b, c, d]);
    FirstByte(b, [c, d]);
    FirstByte(c, [d]);
    FirstByte(d, []);
    assert FromLittleEndian([]) == 0;
    hide FromLittleEndian;
    assert [a] + [b, c, d] == [a, b, c, d] && [b] + [c, d] == [b, c, d] && [c] + [d] == [c, d] && [d] + [] == [d];
  }

  lemma EightBytes(a: byte, b: byte, c: byte, d: byte, e: byte, f: byte, g: byte, h: byte)
    ensures FromLittleEndian([a, b, c, d, e, f, g, h]) == Low(a, b, c, d) + 0x1_0000_0000 * FromLittleEndian([e, f, g, h])
  {
    hide FromLittleEndian;
    FirstByte(a, [b, c, d, e, f, g, h]);
    FirstByte(b, [c, d, e, f, g, h]);
    FirstByte(c, [d, e, f, g, h]);
    FirstByte(d, [e, f, g, h]);
    assert [a] + [b, c, d, e, f, g, h] == [a, b, c, d, e, f, g, h] && [b] + [c, d, e, f, g, h] == [b, c, d, e, f, g, h];
    assert [c] + [d, e, f, g, h] == [c, d, e, f, g, h] && [d] + [e, f, g, h] == [d, e, f, g, h];
  }

  lemma FirstByte(a: byte, s: seq<byte>)
    ensures FromLittleEndian([a] + s) == a + 0x100 * FromLittleEndian(s)
  {
    assert ([a] + s)[1..] == s;
  }
}
