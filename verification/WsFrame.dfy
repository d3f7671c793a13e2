/** The base framing of section 5.2 of RFC 6455, as the client reads it. */
module WsFrame {
  import opened Bytes

  const OP_CONTINUE := 0
  const OP_TEXT := 1
  const OP_BINARY := 2
  const OP_CLOSE := 8
  const OP_PING := 9
  const OP_PONG := 10

  /** What the payload being received is: `_bodyType`. */
  datatype Kind = NoKind | Text | Binary | Ping

  /** Why a connection was closed. */
  datatype Reason = Unsupported | PeerClosed | BadStatus | ResolveFailed | TransportFailed

  predicate Fin(b0: byte) { b0 / 128 == 1 }

  function Rsv(b0: byte): nat { b0 / 16 % 8 }

  function Opcode(b0: byte): nat { b0 % 16 }

  predicate Masked(b1: byte) { b1 / 128 == 1 }

  function ShortLength(b1: byte): nat { b1 % 128 }

  /** Bytes taken by the first two bytes and the extended length. */
  function HeaderSize(b1: byte): (size: nat)
    ensures 2 <= size <= 10
  {
    if ShortLength(b1) == 127 then 10 else if ShortLength(b1) == 126 then 4 else 2
  }

  /** `x` starts with a whole header. */
  predicate HasHeader(x: seq<byte>) {
    |x| >= 2 && |x| >= HeaderSize(x[1])
  }

  /** The payload length a header declares. */
  function DeclaredLength(x: seq<byte>): nat
    requires HasHeader(x)
  {
    if HeaderSize(x[1]) == 2 then ShortLength(x[1]) else FromBigEndian(x[2..HeaderSize(x[1])])
  }

  /** Why the client closes on the first two bytes of a frame, if it does. */
  function Refusal(b0: byte, b1: byte): Option<Reason> {
    var op := Opcode(b0);
    var control := op == OP_CLOSE || op == OP_PING;
    if (Masked(b1) || Rsv(b0) != 0) && op != OP_PONG then Some(Unsupported)
    else if !control && op != OP_BINARY && op != OP_CONTINUE && op != OP_TEXT && op != OP_PONG then Some(Unsupported)
    else if control && !Fin(b0) then Some(Unsupported)
    else if op == OP_CLOSE then Some(PeerClosed)
    else if control && ShortLength(b1) > 125 then Some(Unsupported)
    else None
  }

  /** The kind a frame gives the payload; a continuation keeps the current one. */
  function KindOf(op: nat, current: Kind): Kind {
    if op == OP_TEXT then Text
    else if op == OP_BINARY then Binary
    else if op == OP_PING then Ping
    else current
  }

  /** The opcode that names a kind. */
  function OpcodeOf(kind: Kind): nat {
    match kind
    case NoKind => OP_CONTINUE
    case Text => OP_TEXT
    case Binary => OP_BINARY
    case Ping => OP_PING
  }

  /** The three ways of section 5.2 to write a payload length. */
  datatype Form = Short | Medium | Long

  predicate Fits(form: Form, n: nat) {
    match form
    case Short => n < 126
    case Medium => n < 0x1_0000
    case Long => n < 0x8000_0000_0000_0000
  }

  /** The header of a final frame. */
  function WireHeader(op: nat, masked: bool, form: Form, n: nat): (h: seq<byte>)
    requires op < 16 && Fits(form, n)
  {
    var mask := if masked then 128 else 0;
    [128 + op] +
    match form
    case Short => [mask + n]
    case Medium => [mask + 126] + ToBigEndian(n, 2)
    case Long => [mask + 127] + ToBigEndian(n, 8)
  }

  lemma HeaderReadsBack(op: nat, masked: bool, form: Form, n: nat, rest: seq<byte>)
    requires op < 16 && Fits(form, n)
    ensures var h := WireHeader(op, masked, form, n);
            var x := h + rest;
            HasHeader(x) && HeaderSize(x[1]) == |h| && DeclaredLength(x) == n &&
            Fin(x[0]) && Rsv(x[0]) == 0 && Opcode(x[0]) == op && Masked(x[1]) == masked &&
            (ShortLength(x[1]) <= 125 <==> form == Short)
  {
    hide ToBigEndian, FromBigEndian;
    var x := WireHeader(op, masked, form, n) + rest;
    PowersOf256();
    match form
    case Short =>
    case Medium =>
      assert x[2..4] == ToBigEndian(n, 2);
      BigEndianRoundTrip(n, 2);
    case Long =>
      assert x[2..10] == ToBigEndian(n, 8);
      BigEndianRoundTrip(n, 8);
  }

  lemma PowersOf256()
    ensures Pow256(2) == 0x1_0000 && Pow256(8) == 0x1_0000_0000_0000_0000
  {
    assert Pow256(4) == 0x1_0000_0000;
    assert Pow256(6) == 0x1_0000_0000_0000;
  }

  /** A header depends only on its own bytes. */
  lemma HeaderOfPrefix(x: seq<byte>, y: seq<byte>)
    requires HasHeader(x)
    ensures HasHeader(x + y) && DeclaredLength(x + y) == DeclaredLength(x)
  {
    var size := HeaderSize(x[1]);
    assert (x + y)[1] == x[1];
    assert (x + y)[2..size] == x[2..size];
  }
}
