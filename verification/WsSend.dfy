/** The frames the client writes, and a server that reads them (sections 5.2 and 5.3 of RFC 6455). */
module WsSend {
  import opened Bytes
  import opened WsFrame

  /** Exclusive or of the low `k` bits. */
  function XorBits(a: nat, b: nat, k: nat): (x: nat)
  {
    if k == 0 then 0 else (if a % 2 == b % 2 then 0 else 1) + 2 * XorBits(a / 2, b / 2, k - 1)
  }

  lemma {:induction false} XorBitsTwice(a: nat, b: nat, k: nat)
    ensures XorBits(a, b, k) < Pow2(k)
    ensures a < Pow2(k) ==> XorBits(XorBits(a, b, k), b, k) == a
  {
    if k > 0 {
      XorBitsTwice(a / 2, b / 2, k - 1);
      assert XorBits(a, b, k) / 2 == XorBits(a / 2, b / 2, k - 1);
    }
  }

  function Xor(a: byte, b: byte): (x: byte)
    ensures XorBits(x, b, 8) == a
  {
    XorTwice(a, b);
    XorBits(a, b, 8)
  }

  lemma XorTwice(a: byte, b: byte)
    ensures XorBits(a, b, 8) < 256 && XorBits(XorBits(a, b, 8), b, 8) == a
  {
    XorBitsTwice(a, b, 8);
    assert Pow2(4) == 16;
  }

  /** Section 5.3: octet `i` of the payload with octet `i` modulo 4 of the key. */
  function MaskedData(data: seq<byte>, key: seq<byte>): (m: seq<byte>)
    requires |key| == 4
    ensures |m| == |data|
  {
    seq(|data|, i requires 0 <= i < |data| => Xor(data[i], key[i % 4]))
  }

  lemma MaskedOne(data: seq<byte>, key: seq<byte>, i: nat)
    requires |key| == 4 && i < |data|
    ensures MaskedData(data[..i + 1], key) == MaskedData(data[..i], key) + [Xor(data[i], key[i % 4])]
  {
  }

  lemma MaskedTwice(data: seq<byte>, key: seq<byte>)
    requires |key| == 4
    ensures MaskedData(MaskedData(data, key), key) == data
  {
    hide XorBits;
    forall i | 0 <= i < |data| ensures MaskedData(MaskedData(data, key), key)[i] == data[i] {
      XorTwice(data[i], key[i % 4]);
    }
  }

  function MinimalForm(n: nat): Form {
    if n < 126 then Short else if n < 0x1_0000 then Medium else Long
  }

  datatype Sent = Sent(kind: Kind, data: seq<byte>, key: seq<byte>) {
    predicate Valid() {
      kind != NoKind && |data| < 0x8000_0000 && |key| == 4
    }
  }

  /** What one `send` appends to the output. */
  function Masking(m: Sent): seq<byte>
    requires m.Valid()
  {
    WireHeader(OpcodeOf(m.kind), true, MinimalForm(|m.data|), |m.data|) + m.key + MaskedData(m.data, m.key)
  }

  datatype Message = Message(opcode: nat, payload: seq<byte>)

  function Output(sends: seq<Sent>): seq<byte>
    requires forall m <- sends :: m.Valid()
  {
    if sends == [] then []
    else Masking(sends[0]) + Output(sends[1..])
  }

  function Meant(sends: seq<Sent>): seq<Message> {
    if sends == [] then [] else [Message(OpcodeOf(sends[0].kind), sends[0].data)] + Meant(sends[1..])
  }

  /** A server reading final masked frames until the stream ends; None if it does not end at a frame's end. */
  function ServerRead(x: seq<byte>): Option<seq<Message>>
    decreases |x|
  {
    if x == [] then Some([])
    else if !HasHeader(x) then None
    else
      var start, n := HeaderSize(x[1]), DeclaredLength(x);
      if !Fin(x[0]) || Rsv(x[0]) != 0 || !Masked(x[1]) || |x| < start + 4 + n then None
      else
        var key := x[start..start + 4];
        var payload := MaskedData(x[start + 4..start + 4 + n], key);
        match ServerRead(x[start + 4 + n..])
        case None => None
        case Some(rest) => Some([Message(Opcode(x[0]), payload)] + rest)
  }

  /** The frame of one send: minimal length form, at most 14 bytes before the payload, and read back. */
  lemma ReadSent(m: Sent, rest: seq<byte>)
    requires m.Valid()
    ensures var x := Masking(m) + rest;
            var start, n := HeaderSize(x[1]), |m.data|;
            HasHeader(x) && DeclaredLength(x) == n && start + 4 <= 14 && |x| == start + 4 + n + |rest| &&
            (start == 2 <==> n <= 125) && (start == 4 <==> 126 <= n <= 0xFFFF) && (start == 10 <==> n > 0xFFFF) &&
            Fin(x[0]) && Rsv(x[0]) == 0 && Masked(x[1]) && Opcode(x[0]) == OpcodeOf(m.kind) &&
            x[start..start + 4] == m.key && MaskedData(x[start + 4..start + 4 + n], m.key) == m.data &&
            x[start + 4 + n..] == rest
  {
    hide ToBigEndian, FromBigEndian, MaskedData, DeclaredLength;
    var n := |m.data|;
    var masked := MaskedData(m.data, m.key);
    var h := WireHeader(OpcodeOf(m.kind), true, MinimalForm(n), n);
    var x := Masking(m) + rest;
    assert x == h + (m.key + masked + rest);
    HeaderReadsBack(OpcodeOf(m.kind), true, MinimalForm(n), n, m.key + masked + rest);
    assert x[|h|..|h| + 4] == m.key;
    assert x[|h| + 4..|h| + 4 + n] == masked;
    assert x[|h| + 4 + n..] == rest;
    MaskedTwice(m.data, m.key);
  }

  /** Whatever is sent, with whatever keys, a server reads back the same messages in order. */
  lemma {:induction false} ServerReadsWhatIsSent(sends: seq<Sent>)
    requires forall m <- sends :: m.Valid()
    ensures ServerRead(Output(sends)) == Some(Meant(sends))
  {
    if sends != [] {
      hide Masking, MaskedData, DeclaredLength;
      ReadSent(sends[0], Output(sends[1..]));
      ServerReadsWhatIsSent(sends[1..]);
    }
  }
}
