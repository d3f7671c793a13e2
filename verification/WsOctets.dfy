/** The octets that the client reads and writes, in numbers (sections 5.2 and 5.3 of RFC 6455). */
module WsOctets {
  import opened Bytes
  import opened Arithmetic
  import opened WsFrame
  import opened WsSocket
  import opened WsReference
  import opened WsSend

  // ---- What is read ----

  /** The first two octets that the client reads on from, and those of a close. */
  lemma RefusalInNumbers(b0: byte, b1: byte)
    ensures Refusal(b0, b1) == None <==>
            b0 % 16 == 10 || (b1 < 128 && b0 / 16 % 8 == 0 && (b0 % 16 <= 2 || (b0 == 137 && b1 <= 125)))
    ensures Refusal(b0, b1) == Some(PeerClosed) <==> b0 == 136 && b1 < 128
  {
    assert b0 == 128 * (b0 / 128) + 16 * (b0 / 16 % 8) + b0 % 16;
  }

  /** Two and eight octets as numbers, the highest first. */
  function Two(a: nat, b: nat): nat { 0x100 * a + b }

  function Eight(a: nat, b: nat, c: nat, d: nat, e: nat, f: nat, g: nat, h: nat): nat {
    0x100_0000_0000_0000 * a + 0x1_0000_0000_0000 * b + 0x100_0000_0000 * c + 0x1_0000_0000 * d
    + 0x100_0000 * e + 0x1_0000 * f + 0x100 * g + h
  }

  /** A payload length of 126 is followed by two octets of length, of 127 by eight. */
  lemma LengthInNumbers(x: seq<byte>)
    requires |x| >= 2
    ensures x[1] % 128 < 126 ==> HasHeader(x) && HeaderSize(x[1]) == 2 && DeclaredLength(x) == x[1] % 128
    ensures x[1] % 128 == 126 && |x| >= 4 ==>
              HasHeader(x) && HeaderSize(x[1]) == 4 && DeclaredLength(x) == Two(x[2], x[3])
    ensures x[1] % 128 == 127 && |x| >= 10 ==>
              HasHeader(x) && HeaderSize(x[1]) == 10 &&
              DeclaredLength(x) == Eight(x[2], x[3], x[4], x[5], x[6], x[7], x[8], x[9])
  {
    hide FromBigEndian, Two, Eight;
    if |x| >= 4 {
      TwoOctets(x[2], x[3]);
      assert x[2..4] == [x[2], x[3]];
    }
    if |x| >= 10 {
      EightOctets(x[2], x[3], x[4], x[5], x[6], x[7], x[8], x[9]);
      assert x[2..10] == [x[2], x[3], x[4], x[5], x[6], x[7], x[8], x[9]];
    }
  }

  lemma OneMore(s: seq<byte>, b: byte)
    ensures FromBigEndian(s + [b]) == 256 * FromBigEndian(s) + b
  {
    assert (s + [b])[..|s|] == s;
  }

  lemma TwoOctets(a: byte, b: byte)
    ensures FromBigEndian([a, b]) == Two(a, b)
  {
    assert FromBigEndian([]) == 0;
    hide FromBigEndian;
    OneMore([], a);
    OneMore([a], b);
    assert [] + [a] == [a] && [a] + [b] == [a, b];
  }

  lemma EightOctets(a: byte, b: byte, c: byte, d: byte, e: byte, f: byte, g: byte, h: byte)
    ensures FromBigEndian([a, b, c, d, e, f, g, h]) == Eight(a, b, c, d, e, f, g, h)
  {
    hide FromBigEndian;
    TwoOctets(a, b);
    OneMore([a, b], c);
    OneMore([a, b, c], d);
    OneMore([a, b, c, d], e);
    OneMore([a, b, c, d, e], f);
    OneMore([a, b, c, d, e, f], g);
    OneMore([a, b, c, d, e, f, g], h);
    assert [a, b] + [c] == [a, b, c] && [a, b, c] + [d] == [a, b, c, d] && [a, b, c, d] + [e] == [a, b, c, d, e];
    assert [a, b, c, d, e] + [f] == [a, b, c, d, e, f] && [a, b, c, d, e, f] + [g] == [a, b, c, d, e, f, g];
    assert [a, b, c, d, e, f, g] + [h] == [a, b, c, d, e, f, g, h];
  }

  /** What the first octet of a final frame says its payload is. */
  predicate Says(b0: byte, kind: Kind) {
    (b0 == 129 && kind == Text) || (b0 == 130 && kind == Binary) || (b0 == 137 && kind == Ping)
  }

  lemma FrameInNumbers(kind: Kind, b0: byte, header: seq<byte>, p: seq<byte>, rest: seq<byte>)
    requires |header| >= 2 && header[0] == b0 && Says(b0, kind) && header[1] < 128 && (b0 == 137 ==> header[1] <= 125)
    requires HasHeader(header) && HeaderSize(header[1]) == |header| && DeclaredLength(header) == |p| < 0x8000_0000_0000_0000
    ensures Decode(NoKind, header + p + rest) == Before([Data(kind, p)], Decode(NoKind, rest))
  {
    hide Decode, DeclaredLength, HeaderSize;
    var x := header + (p + rest);
    assert header + p + rest == x && x[0] == b0 && x[1] == header[1];
    HeaderOfPrefix(header, p + rest);
    RefusalInNumbers(b0, header[1]);
    hide Refusal;
    assert Readable(x) && FrameEnd(x) == |header| + |p|;
    assert !Hazard(NoKind, x) && NextKind(NoKind, x) == NoKind;
    DecodeWhole(NoKind, x);
    assert x[|header|..FrameEnd(x)] == p && x[FrameEnd(x)..] == rest;
    assert KindOf(b0 % 16, NoKind) == kind;
  }

  /** A final text, binary or ping frame of fewer than 126 octets is delivered as that. */
  lemma ShortMessage(kind: Kind, b0: byte, p: seq<byte>, rest: seq<byte>)
    requires Says(b0, kind) && |p| < 126
    ensures Decode(NoKind, [b0, |p|] + p + rest) == Before([Data(kind, p)], Decode(NoKind, rest))
  {
    hide Decode;
    FrameInNumbers(kind, b0, [b0, |p|], p, rest);
  }

  /** With 126 the length is in the next two octets, the higher first. */
  lemma MediumMessage(kind: Kind, b0: byte, a: byte, b: byte, p: seq<byte>, rest: seq<byte>)
    requires Says(b0, kind) && kind != Ping && |p| == Two(a, b)
    ensures Decode(NoKind, [b0, 126, a, b] + p + rest) == Before([Data(kind, p)], Decode(NoKind, rest))
  {
    hide Decode, FromBigEndian;
    TwoOctets(a, b);
    assert [b0, 126, a, b][2..4] == [a, b];
    FrameInNumbers(kind, b0, [b0, 126, a, b], p, rest);
  }

  /** With 127 it is in the next eight, the highest first. */
  lemma LongMessage(kind: Kind, b0: byte, a: byte, b: byte, c: byte, d: byte, e: byte, f: byte, g: byte, h: byte,
                    p: seq<byte>, rest: seq<byte>)
    requires Says(b0, kind) && kind != Ping && a < 128
    requires |p| == Eight(a, b, c, d, e, f, g, h)
    ensures Decode(NoKind, [b0, 127, a, b, c, d, e, f, g, h] + p + rest) ==
            Before([Data(kind, p)], Decode(NoKind, rest))
  {
    hide Decode, FromBigEndian;
    EightOctets(a, b, c, d, e, f, g, h);
    assert [b0, 127, a, b, c, d, e, f, g, h][2..10] == [a, b, c, d, e, f, g, h];
    FrameInNumbers(kind, b0, [b0, 127, a, b, c, d, e, f, g, h], p, rest);
  }

  /** A text or binary frame that is not final and empty says what its continuation is; an empty pong says nothing. */
  lemma ContinuedMessage(p: seq<byte>, rest: seq<byte>)
    requires |p| < 126
    ensures Decode(NoKind, [1, 0, 128, |p|] + p + rest) == Before([Data(Text, p)], Decode(NoKind, rest))
    ensures Decode(NoKind, [2, 0, 128, |p|] + p + rest) == Before([Data(Binary, p)], Decode(NoKind, rest))
    ensures Decode(NoKind, [138, 0] + rest) == Decode(NoKind, rest)
  {
    hide Decode;
    Begun(1, Text, p, rest);
    Begun(2, Binary, p, rest);
    EmptyFrame(138, NoKind, NoKind, rest);
  }

  lemma Begun(b0: byte, kind: Kind, p: seq<byte>, rest: seq<byte>)
    requires (b0 == 1 && kind == Text) || (b0 == 2 && kind == Binary)
    requires |p| < 126
    ensures Decode(NoKind, [b0, 0, 128, |p|] + p + rest) == Before([Data(kind, p)], Decode(NoKind, rest))
  {
    hide Decode;
    assert [b0, 0, 128, |p|] + p + rest == [b0, 0] + ([128, |p|] + p + rest);
    EmptyFrame(b0, NoKind, kind, [128, |p|] + p + rest);
    Continuation(kind, p, rest);
  }

  lemma EmptyFrame(b0: byte, current: Kind, kind: Kind, rest: seq<byte>)
    requires (b0 == 1 && kind == Text) || (b0 == 2 && kind == Binary) || (b0 == 138 && kind == current)
    ensures Decode(current, [b0, 0] + rest) == Decode(kind, rest)
  {
    hide Decode;
    var x := [b0, 0] + rest;
    RefusalInNumbers(b0, 0);
    hide Refusal;
    assert Readable(x) && FrameEnd(x) == 2 && !Hazard(current, x) && NextKind(current, x) == kind;
    DecodeWhole(current, x);
    assert x[2..] == rest;
    assert [] + Decode(kind, rest).events == Decode(kind, rest).events;
  }

  lemma Continuation(kind: Kind, p: seq<byte>, rest: seq<byte>)
    requires kind != NoKind && |p| < 126
    ensures Decode(kind, [128, |p|] + p + rest) == Before([Data(kind, p)], Decode(NoKind, rest))
  {
    hide Decode;
    var x := [128, |p|] + p + rest;
    RefusalInNumbers(128, |p|);
    hide Refusal;
    assert x[0] == 128 && x[1] == |p|;
    assert Readable(x) && FrameEnd(x) == 2 + |p| && !Hazard(kind, x) && NextKind(kind, x) == NoKind;
    DecodeWhole(kind, x);
    assert x[2..FrameEnd(x)] == p && x[FrameEnd(x)..] == rest;
  }

  // ---- What is written ----

  /** Bit `i` of an octet. */
  function Bit(x: nat, i: nat): nat {
    x / Pow2(i) % 2
  }

  /** Exclusive or, bit by bit. */
  lemma XorInBits(a: byte, b: byte, i: nat)
    requires i < 8
    ensures Bit(Xor(a, b), i) == (if Bit(a, i) != Bit(b, i) then 1 else 0)
  {
    BitOfXor(a, b, 8, i);
  }

  lemma {:induction false} BitOfXor(a: nat, b: nat, k: nat, i: nat)
    requires i < k
    ensures Bit(XorBits(a, b, k), i) == (if Bit(a, i) != Bit(b, i) then 1 else 0)
  {
    hide XorBits, Bit;
    var x := XorBits(a, b, k);
    XorStep(a, b, k);
    if i > 0 {
      BitOfXor(a / 2, b / 2, k - 1, i - 1);
      BitBelow(a, i);
      BitBelow(b, i);
      BitBelow(x, i);
    } else {
      BitZero(a);
      BitZero(b);
      BitZero(x);
    }
  }

  lemma XorStep(a: nat, b: nat, k: nat)
    requires k > 0
    ensures var x := XorBits(a, b, k);
            x % 2 == (if a % 2 != b % 2 then 1 else 0) && x / 2 == XorBits(a / 2, b / 2, k - 1)
  {
  }

  lemma BitZero(x: nat)
    ensures Bit(x, 0) == x % 2
  {
  }

  /** The same as the exclusive or of eight bits. */
  lemma XorIsXor(y: bv8, z: bv8)
    ensures Xor(y as byte, z as byte) == (y ^ z) as byte
  {
    assert Pow2(8) == 256 by { assert Pow2(4) == 16; }
    hide Octet, Pow2, XorBits;
    OctetBelow(y);
    OctetBelow(z);
    XorBitsAre(y, z, 8);
    OctetIs(y);
    OctetIs(z);
    OctetIs(y ^ z);
  }

  function Octet(y: bv8): nat { y as nat }

  lemma OctetIs(y: bv8)
    ensures Octet(y) == y as byte
  {
  }

  lemma OctetBelow(y: bv8)
    ensures Octet(y) < 256
  {
  }

  lemma {:induction false} XorBitsAre(y: bv8, z: bv8, k: nat)
    requires Octet(y) < Pow2(k) && Octet(z) < Pow2(k)
    ensures XorBits(Octet(y), Octet(z), k) == Octet(y ^ z)
  {
    hide Octet;
    if k == 0 {
      OctetZero(y);
      OctetZero(z);
      OctetZero(y ^ z);
    } else {
      Halved(y);
      Halved(z);
      Halved(y ^ z);
      Odd(y);
      Odd(z);
      Odd(y ^ z);
      XorHalves(y, z);
      XorBitsAre(y >> 1, z >> 1, k - 1);
    }
  }

  lemma OctetZero(y: bv8)
    ensures Octet(y) == 0 <==> y == 0
  {
  }

  lemma Halved(y: bv8)
    ensures Octet(y >> 1) == Octet(y) / 2
  {
  }

  lemma Odd(y: bv8)
    ensures Octet(y) % 2 == (if y & 1 == 1 then 1 else 0)
  {
  }

  lemma XorHalves(y: bv8, z: bv8)
    ensures (y ^ z) >> 1 == (y >> 1) ^ (z >> 1)
    ensures (y ^ z) & 1 == 1 <==> (y & 1 == 1) != (z & 1 == 1)
  {
  }

  lemma BitBelow(x: nat, i: nat)
    requires i > 0
    ensures Bit(x, i) == Bit(x / 2, i - 1)
  {
    var p := Pow2(i - 1);
    DivideTwice(x, p);
  }

  lemma DivideTwice(x: nat, p: nat)
    requires p > 0
    ensures x / (2 * p) == x / 2 / p
  {
    var q, r := x / 2 / p, x / 2 % p;
    assert x == 2 * (q * p + r) + x % 2;
    assert x == q * (2 * p) + (2 * r + x % 2) by { assert 2 * (q * p) == q * (2 * p); }
    assert 2 * r + x % 2 < 2 * p;
    DivisionIsUnique(x, 2 * p, q, 2 * r + x % 2);
  }

  /** Where the key starts in a frame with `n` octets of payload. */
  function KeyStart(n: nat): (start: nat)
    ensures 2 <= start <= 10
  {
    if n < 126 then 2 else if n < 0x1_0000 then 4 else 10
  }

  /** The octets of one frame sent: what it is, how long, the key, and each octet of payload masked with it. */
  predicate IsFrameOf(x: seq<byte>, kind: Kind, data: seq<byte>, key: seq<byte>)
    requires |key| == 4
  {
    var n, start := |data|, KeyStart(|data|);
    && |x| == start + 4 + n && Says(x[0], kind)
    && (n < 126 ==> x[1] == 128 + n)
    && (126 <= n < 0x1_0000 ==> x[1] == 254 && Two(x[2], x[3]) == n)
    && (0x1_0000 <= n ==> x[1] == 255 && Eight(x[2], x[3], x[4], x[5], x[6], x[7], x[8], x[9]) == n)
    && x[start..start + 4] == key
    && forall i | 0 <= i < n :: Masks(data[i], key[i % 4], x[start + 4 + i])
  }

  lemma SentInNumbers(m: Sent)
    requires m.Valid()
    ensures IsFrameOf(Masking(m), m.kind, m.data, m.key)
  {
    hide Masking, Masks, DeclaredLength, MaskedData, Says, Two, Eight, Refusal;
    var x := Masking(m);
    assert x + [] == x;
    ReadSent(m, []);
    LengthInNumbers(x);
    SentKind(m);
    forall i | 0 <= i < |m.data| ensures Masks(m.data[i], m.key[i % 4], x[KeyStart(|m.data|) + 4 + i]) {
      SentOctet(m, i);
    }
  }

  /** Each bit of `c` is set exactly when those of `a` and `b` differ. */
  predicate Masks(a: byte, b: byte, c: byte) {
    forall j | 0 <= j < 8 :: Bit(c, j) == if Bit(a, j) != Bit(b, j) then 1 else 0
  }

  lemma SentKind(m: Sent)
    requires m.Valid()
    ensures |Masking(m)| >= 2 && Says(Masking(m)[0], m.kind)
  {
  }

  lemma SentOctet(m: Sent, i: nat)
    requires m.Valid() && i < |m.data|
    ensures var x, start := Masking(m), KeyStart(|m.data|);
            start + 4 + i < |x| && Masks(m.data[i], m.key[i % 4], x[start + 4 + i])
  {
    var x, start := Masking(m), KeyStart(|m.data|);
    assert x[start + 4 + i] == Xor(m.data[i], m.key[i % 4]);
    hide Masking, Xor, Bit;
    forall j | 0 <= j < 8
      ensures Bit(x[start + 4 + i], j) == if Bit(m.data[i], j) != Bit(m.key[i % 4], j) then 1 else 0
    {
      XorInBits(m.data[i], m.key[i % 4], j);
    }
  }

  // ---- Lengths in 64 bits ----

  /** A length is kept as the signed 64-bit number with the same bits. */
  lemma LengthKept(n: nat)
    ensures -0x8000_0000_0000_0000 <= ToInt64(n) < 0x8000_0000_0000_0000 && (ToInt64(n) - n) % 0x1_0000_0000_0000_0000 == 0
    ensures n < 0x8000_0000_0000_0000 ==> ToInt64(n) == n
  {
  }
}
