/** The MD5 message-digest algorithm as RFC 1321 describes it, on whole messages. */
module Md5Spec {
  import opened Bytes

  type word = bv32

  datatype Registers = Registers(a: word, b: word, c: word, d: word)

  /** Section 3.3. */
  const INITIAL := Registers(0x67452301, 0xefcdab89, 0x98badcfe, 0x10325476)

  // ---- Section 3.4: one block ----

  function F(x: word, y: word, z: word): word { (x & y) | (!x & z) }
  function G(x: word, y: word, z: word): word { (x & z) | (y & !z) }
  function H(x: word, y: word, z: word): word { x ^ y ^ z }
  function I(x: word, y: word, z: word): word { y ^ (x | !z) }

  function Rotate(x: word, n: nat): word
    requires 0 < n < 32
  {
    (x << n) | (x >> (32 - n))
  }

  /** The table of section 3.4: entry `i` is the integer part of 4294967296 times abs(sin(i + 1)). */
  function T(i: nat): word
    requires i < 64
  {
    if i < 16 then
      [0xd76aa478, 0xe8c7b756, 0x242070db, 0xc1bdceee, 0xf57c0faf, 0x4787c62a, 0xa8304613, 0xfd469501,
       0x698098d8, 0x8b44f7af, 0xffff5bb1, 0x895cd7be, 0x6b901122, 0xfd987193, 0xa679438e, 0x49b40821][i - 0]
    else if i < 32 then
      [0xf61e2562, 0xc040b340, 0x265e5a51, 0xe9b6c7aa, 0xd62f105d, 0x02441453, 0xd8a1e681, 0xe7d3fbc8,
       0x21e1cde6, 0xc33707d6, 0xf4d50d87, 0x455a14ed, 0xa9e3e905, 0xfcefa3f8, 0x676f02d9, 0x8d2a4c8a][i - 16]
    else if i < 48 then
      [0xfffa3942, 0x8771f681, 0x6d9d6122, 0xfde5380c, 0xa4beea44, 0x4bdecfa9, 0xf6bb4b60, 0xbebfbc70,
       0x289b7ec6, 0xeaa127fa, 0xd4ef3085, 0x04881d05, 0xd9d4d039, 0xe6db99e5, 0x1fa27cf8, 0xc4ac5665][i - 32]
    else
      [0xf4292244, 0x432aff97, 0xab9423a7, 0xfc93a039, 0x655b59c3, 0x8f0ccc92, 0xffeff47d, 0x85845dd1,
       0x6fa87e4f, 0xfe2ce6e0, 0xa3014314, 0x4e0811a1, 0xf7537e82, 0xbd3af235, 0x2ad7d2bb, 0xeb86d391][i - 48]
  }

  /** The message word that step `i` uses. */
  function Index(i: nat): (k: nat)
    requires i < 64
    ensures k < 16
  {
    if i < 16 then i
    else if i < 32 then (5 * i + 1) % 16
    else if i < 48 then (3 * i + 5) % 16
    else 7 * i % 16
  }

  function Shift(i: nat): (n: nat)
    requires i < 64
    ensures 0 < n < 32
  {
    if i < 16 then [7, 12, 17, 22][i % 4]
    else if i < 32 then [5, 9, 14, 20][i % 4]
    else if i < 48 then [4, 11, 16, 23][i % 4]
    else [6, 10, 15, 21][i % 4]
  }

  function Mix(i: nat, x: word, y: word, z: word): word
    requires i < 64
  {
    if i < 16 then F(x, y, z) else if i < 32 then G(x, y, z) else if i < 48 then H(x, y, z) else I(x, y, z)
  }

  /** a = b + ((a + f(b,c,d) + x + t) <<< s). */
  function Set(f: word, a: word, b: word, x: word, t: word, s: nat): word
    requires 0 < s < 32
  {
    Rotate(a + f + x + t, s) + b
  }

  /** Step `i`, after which the registers have moved one place round. */
  function Step(i: nat, r: Registers, x: seq<word>): Registers
    requires i < 64 && |x| == 16
  {
    Registers(r.d, Set(Mix(i, r.b, r.c, r.d), r.a, r.b, x[Index(i)], T(i), Shift(i)), r.b, r.c)
  }

  /** The first `n` steps. */
  function Steps(n: nat, r: Registers, x: seq<word>): Registers
    requires n <= 64 && |x| == 16
  {
    if n == 0 then r else Step(n - 1, Steps(n - 1, r, x), x)
  }

  /** Word `i` of a block, low-order byte first. */
  function WordOf(block: seq<byte>, i: nat): word
    requires 4 * i + 4 <= |block|
  {
    Widened(block[4 * i]) + (Widened(block[4 * i + 1]) << 8)
    + (Widened(block[4 * i + 2]) << 16) + (Widened(block[4 * i + 3]) << 24)
  }

  function Widened(b: byte): word { b as word }

  function Words(block: seq<byte>): seq<word>
    requires |block| == 64
  {
    seq(16, i requires 0 <= i < 16 => WordOf(block, i))
  }

  function Compress(r: Registers, block: seq<byte>): Registers
    requires |block| == 64
  {
    Increment(r, Steps(64, r, Words(block)))
  }

  /** Each register gains the value it had before the block. */
  function Increment(r: Registers, q: Registers): Registers {
    Registers(r.a + q.a, r.b + q.b, r.c + q.c, r.d + q.d)
  }

  /** The registers after the whole blocks of `m`. */
  function Fold(r: Registers, m: seq<byte>): Registers
    decreases |m|
  {
    if |m| < 64 then r else Fold(Compress(r, m[..64]), m[64..])
  }

  // ---- Sections 3.1, 3.2 and 3.5: padding and output ----

  function Zeros(n: nat): seq<byte> { seq(n, _ => 0) }

  /** The least number of zero bytes that, after one byte, brings the length to 56 modulo 64. */
  function PadLength(length: nat): (n: nat)
    ensures n < 64 && (length + 1 + n) % 64 == 56
  {
    if length % 64 < 56 then 55 - length % 64 else 119 - length % 64
  }

  function Padded(m: seq<byte>): seq<byte> {
    m + ([0x80] + Zeros(PadLength(|m|))) + LittleEndian(8 * |m| % 0x1_0000_0000_0000_0000, 8)
  }

  function WordBytes(w: word): seq<byte> {
    [(w & 0xff) as byte, ((w >> 8) & 0xff) as byte, ((w >> 16) & 0xff) as byte, ((w >> 24) & 0xff) as byte]
  }

  function Digest(m: seq<byte>): seq<byte> {
    var r := Fold(INITIAL, Padded(m));
    WordBytes(r.a) + WordBytes(r.b) + WordBytes(r.c) + WordBytes(r.d)
  }

  /** Step `i` on named registers, its message word, shift and table entry given. */
  lemma OneStep(i: nat, r: Registers, x: seq<word>, a: word, b: word, c: word, d: word, k: nat, s: nat, t: word)
    requires i < 64 && |x| == 16 && Steps(i, r, x) == Registers(a, b, c, d)
    requires k == Index(i) && s == Shift(i) && t == T(i)
    ensures Steps(i + 1, r, x) == Registers(d, Set(Mix(i, b, c, d), a, b, x[k], t, s), b, c)
  {
    hide T, Index, Shift, Mix, Rotate, Set;
  }
}
