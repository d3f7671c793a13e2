/** Exactly which frame headers make the outcome depend on where the stream is cut. */
module WsCuts {
  import opened Bytes
  import opened WsFrame
  import opened WsSocket
  import opened WsReference

  /** A body is under way, which the input continues. */
  predicate UnderWay(s: Socket) {
    s.kind != NoKind && s.bodyLength > 0
  }

  /** Two connections have shown the same and hold the same undecoded bytes. */
  predicate Agree(a: Socket, b: Socket) {
    && a.state == b.state && a.trace == b.trace && a.kind == b.kind && a.bodyLength == b.bodyLength
    && a.body + a.input == b.body + b.input && (UnderWay(a) || a.body == b.body)
  }

  /** The bytes `x` in two reads cut at `k` end as they do in one read. */
  ghost predicate CutAgrees(status: seq<byte> -> int, s: Socket, x: seq<byte>, k: nat)
    requires k <= |x|
  {
    Agree(FeedAll(status, s, [x[..k], x[k..]]), Feed(status, s, x))
  }

  /** Decoding leaves no choice of socket: all that reach the same ending agree. */
  lemma ReachersAgree(s: Socket, d: Decoded, a: Socket, b: Socket)
    requires Reaches(s, d, a) && Reaches(s, d, b) && d.ending.Waiting?
    ensures Agree(a, b)
  {
    hide Decode, DeclaredLength, Readable, Hazard, Refusal;
    var tail := d.ending.tail;
    if HasHeader(tail) {
      AfterHeader(a, d.ending.kind, tail);
      AfterHeader(b, d.ending.kind, tail);
      hide Midway;
    } else {
      assert a.body + a.input == b.body + b.input;
    }
  }

  lemma AfterHeader(s: Socket, kind: Kind, tail: seq<byte>)
    requires Midway(s, kind, tail)
    ensures s.body + s.input == tail[HeaderSize(tail[1])..]
    ensures s.kind == KindOf(Opcode(tail[0]), kind) && s.bodyLength == DeclaredLength(tail) && UnderWay(s)
  {
    hide FromBigEndian, Refusal;
    var size := HeaderSize(tail[1]);
    assert tail[size..] == (tail[..size] + s.body + s.input)[size..];
  }

  /** Any two ways of cutting a stream without hazards agree, and so do their final states. */
  lemma AllCutsAgree(status: seq<byte> -> int, s: Socket, kind: Kind, cuts: seq<seq<byte>>, others: seq<seq<byte>>)
    requires Holds(s, kind, []) && Concat(cuts) == Concat(others)
    requires Decode(kind, Concat(cuts)).ending.Waiting?
    ensures Agree(FeedAll(status, s, cuts), FeedAll(status, s, others))
  {
    hide Decode, Feed, Reading, Agree, Reaches;
    var x := Concat(cuts);
    assert [] + x == x && [] + Concat(others) == x;
    FeedAllOpened(status, s, kind, [], cuts);
    FeedAllOpened(status, s, kind, [], others);
    ReachersAgree(s, Decode(kind, x), FeedAll(status, s, cuts), FeedAll(status, s, others));
  }

  lemma FeedTwo(status: seq<byte> -> int, s: Socket, a: seq<byte>, b: seq<byte>)
    ensures FeedAll(status, s, [a, b]) == Feed(status, Feed(status, s, a), b)
    ensures FeedAll(status, s, [b]) == Feed(status, s, b)
    ensures Concat([a, b]) == a + b && Concat([b]) == b
  {
    assert [a, b][1..] == [b];
    assert FeedAll(status, Feed(status, s, a), [b]) == Feed(status, Feed(status, s, a), b);
    assert Concat([b]) == b;
  }

  /** A whole header that the client reads on from, and nothing after it. */
  predicate BareHeader(h: seq<byte>) {
    Readable(h) && |h| == HeaderSize(h[1])
  }

  /** A bare header takes the decoder to the start of its payload. */
  lemma FeedHeader(status: seq<byte> -> int, s: Socket, kind: Kind, h: seq<byte>, rest: seq<byte>)
    requires s.state == Opened && s.live && Clean(s, kind, []) && BareHeader(h)
    requires 0 < DeclaredLength(h) && |rest| <= DeclaredLength(h)
    ensures var op := Opcode(h[0]);
            var t := Feed(status, s, h + rest);
            t.state == Opened && t.live && t.input == [] &&
            if op == OP_PONG then t.body == [] && t.kind == kind && t.bodyLength == 0 && t.trace == s.trace
            else if Fin(h[0]) && |rest| == DeclaredLength(h) then
              t.trace == s.trace + [Data(KindOf(op, kind), rest)]
            else t.body == rest && t.kind == KindOf(op, kind) && t.bodyLength == ToInt64(DeclaredLength(h)) &&
                 t.trace == s.trace
  {
    var x := h + rest;
    HeaderOfPrefix(h, rest);
    assert x[|h|..] == rest && [] + rest == rest;
    var t := s.(input := [] + x, received := s.received + x);
    assert [] + x == x;
    hide FromBigEndian;
    ReadHeader(t, h, rest);
    ReadOn(status, t);
    ReadNothing(status, ReadFrame(t).s);
  }

  lemma ReadHeader(t: Socket, h: seq<byte>, rest: seq<byte>)
    requires t.state == Opened && t.bodyLength == 0 && t.body == [] && BareHeader(h) && t.input == h + rest
    requires 0 < DeclaredLength(h) && |rest| <= DeclaredLength(h)
    ensures var op := Opcode(h[0]);
            var u := ReadFrame(t).s;
            ReadFrame(t).Go? && u.state == t.state && u.live == t.live && u.input == [] &&
            if op == OP_PONG then u.body == [] && u.kind == t.kind && u.bodyLength == 0 && u.trace == t.trace
            else if Fin(h[0]) && |rest| == DeclaredLength(h) then
              u.trace == t.trace + [Data(KindOf(op, t.kind), rest)]
            else u.body == rest && u.kind == KindOf(op, t.kind) && u.bodyLength == ToInt64(DeclaredLength(h)) &&
                 u.trace == t.trace
  {
    hide FromBigEndian;
    var x := t.input;
    HeaderOfPrefix(h, rest);
    assert [] + rest == rest;
    PayloadPart(h, rest);
  }

  lemma PayloadPart(h: seq<byte>, rest: seq<byte>)
    ensures (h + rest)[..|h|] == h && (h + rest)[|h|..] == rest
    ensures (h + rest)[|h|..|h| + |rest|] == rest && (h + rest)[|h| + |rest|..] == []
  {
  }

  /** For each hazard, bytes of its payload that tell the cut after the header from no cut. */
  function Witness(kind: Kind, h: seq<byte>): seq<byte>
    requires BareHeader(h) && Hazard(kind, h)
  {
    var n := DeclaredLength(h);
    if Opcode(h[0]) == OP_PONG || n == 1 then [0]
    else if KindOf(Opcode(h[0]), kind) == NoKind || n >= 0x8000_0000_0000_0000 then [136, 0]
    else seq(n, _ => 0)
  }

  lemma DeclaredBound(h: seq<byte>)
    requires HasHeader(h)
    ensures DeclaredLength(h) < 0x1_0000_0000_0000_0000
  {
    PowersOf256();
  }

  lemma ReadOneByte(status: seq<byte> -> int, s: Socket)
    requires s.state == Opened && !UnderWay(s) && |s.input| == 1
    ensures Reading(status, s) == s
  {
  }

  lemma ReadClose(status: seq<byte> -> int, s: Socket)
    requires s.state == Opened && !UnderWay(s) && s.input == [136, 0]
    ensures Reading(status, s).state == Closed
  {
    assert Refusal(136, 0) == Some(PeerClosed);
  }

  lemma HazardTells(status: seq<byte> -> int, s: Socket, kind: Kind, h: seq<byte>)
    requires s.state == Opened && s.live && Clean(s, kind, []) && BareHeader(h) && Hazard(kind, h)
    ensures !CutAgrees(status, s, h + Witness(kind, h), |h|)
  {
    hide Reading, ReadFrame, DeclaredLength, FeedAll, Feed, Agree, Readable;
    var rest := Witness(kind, h);
    DeclaredBound(h);
    PayloadPart(h, rest);
    FeedTwo(status, s, h, rest);
    assert h + [] == h;
    FeedHeader(status, s, kind, h, []);
    FeedHeader(status, s, kind, h, rest);
    var t, b := Feed(status, s, h), Feed(status, s, h + rest);
    if UnderWay(t) {
      BodyTells(status, t, rest, b);
    } else if rest == [0] {
      OneByteTells(status, t, b);
    } else {
      CloseTells(status, t, b);
    }
  }

  /** Cut, the rest completes the body; uncut, it does not. */
  lemma BodyTells(status: seq<byte> -> int, t: Socket, rest: seq<byte>, b: Socket)
    requires t.state == Opened && t.live && t.input == [] && t.body == [] && UnderWay(t)
    requires |rest| == t.bodyLength && b.trace == t.trace
    ensures !Agree(Feed(status, t, rest), b)
  {
    hide Reading, ReadFrame, Resume;
    var u := t.(input := t.input + rest, received := t.received + rest);
    assert u.input == rest;
    FinishBody(status, u);
    ReadNothing(status, Resume(u));
    assert |Feed(status, t, rest).trace| == |t.trace| + 1;
  }

  /** Cut, the byte starts the next frame; uncut, it is payload. */
  lemma OneByteTells(status: seq<byte> -> int, t: Socket, b: Socket)
    requires t.state == Opened && t.live && t.input == [] && t.body == [] && !UnderWay(t)
    requires b.trace != t.trace || (b.input == [] && (b.body == [] || b.body == [0]))
    ensures !Agree(Feed(status, t, [0]), b)
  {
    var u := t.(input := t.input + [0], received := t.received + [0]);
    assert u.input == [0];
    ReadOneByte(status, u);
    hide Reading;
    assert Feed(status, t, [0]) == u;
  }

  /** Cut, the rest is a close frame; uncut, it is payload. */
  lemma CloseTells(status: seq<byte> -> int, t: Socket, b: Socket)
    requires t.state == Opened && t.live && t.input == [] && !UnderWay(t) && b.state == Opened
    ensures !Agree(Feed(status, t, [136, 0]), b)
  {
    hide Reading;
    var u := t.(input := t.input + [136, 0], received := t.received + [136, 0]);
    assert u.input == [136, 0];
    ReadClose(status, u);
  }

  /**
   At a frame boundary, a header can be cut anywhere in or after it exactly when
   it is no hazard.
   */
  lemma CutSafeIffNoHazard(status: seq<byte> -> int, s: Socket, kind: Kind, h: seq<byte>)
    requires s.state == Opened && s.live && Clean(s, kind, []) && BareHeader(h)
    ensures !Hazard(kind, h) <==>
            forall rest, k | |rest| <= DeclaredLength(h) && 0 <= k <= |h + rest| :: CutAgrees(status, s, h + rest, k)
  {
    if Hazard(kind, h) {
      HazardTells(status, s, kind, h);
      assert |h| <= |h + Witness(kind, h)|;
      assert |Witness(kind, h)| <= DeclaredLength(h);
    } else {
      forall rest, k | |rest| <= DeclaredLength(h) && 0 <= k <= |h + rest|
        ensures CutAgrees(status, s, h + rest, k)
      {
        NoHazardNoDifference(status, s, kind, h, rest, k);
      }
    }
  }

  lemma NoHazardNoDifference(status: seq<byte> -> int, s: Socket, kind: Kind, h: seq<byte>, rest: seq<byte>, k: nat)
    requires s.state == Opened && s.live && Clean(s, kind, []) && BareHeader(h) && !Hazard(kind, h)
    requires |rest| <= DeclaredLength(h) && k <= |h + rest|
    ensures CutAgrees(status, s, h + rest, k)
  {
    hide Decode, Reading, Feed, FeedAll, Hazard, Agree, Readable;
    var x := h + rest;
    DecodeFirst(kind, h, rest);
    assert Holds(s, kind, []) by { DecodeNothing(kind); }
    FeedTwo(status, s, x[..k], x[k..]);
    FeedTwo(status, s, x, x);
    assert x[..k] + x[k..] == x;
    AllCutsAgree(status, s, kind, [x[..k], x[k..]], [x]);
  }

  lemma DecodeNothing(kind: Kind)
    ensures Decode(kind, []) == Decoded([], Waiting(kind, []))
  {
  }

  lemma DecodeFirst(kind: Kind, h: seq<byte>, rest: seq<byte>)
    requires BareHeader(h) && !Hazard(kind, h) && |rest| <= DeclaredLength(h)
    ensures Decode(kind, h + rest).ending.Waiting?
  {
    hide FromBigEndian;
    HeaderOfPrefix(h, rest);
    var x := h + rest;
    if |rest| == DeclaredLength(h) {
      DecodeWhole(kind, x);
      assert x[FrameEnd(x)..] == [];
    } else {
      DecodeHazard(kind, x);
    }
  }

  // ---- Whole streams ----

  /** Whole frames may come in a read of their own. */
  lemma FrameApart(status: seq<byte> -> int, s: Socket, kind: Kind, f: seq<byte>, z: seq<byte>)
    requires s.state == Opened && s.live && Clean(s, kind, [])
    requires Readable(f) && !Hazard(kind, f) && |f| == FrameEnd(f)
    ensures var t := Feed(status, s, f);
            && Feed(status, s, f + z) == Feed(status, t, z)
            && t.state == Opened && t.live && Clean(t, NextKind(kind, f), [])
  {
    hide ReadFrame, Reading, Hazard, Readable, DeclaredLength, HeaderSize;
    var a := s.(input := [] + f, received := s.received + f);
    var b := s.(input := [] + (f + z), received := s.received + (f + z));
    assert [] + f == f && [] + (f + z) == f + z && f + [] == f;
    SameFrame(a, b, f, z);
    WholeFrame(a);
    assert a.input[FrameEnd(f)..] == [];
    ReadOn(status, a);
    ReadNothing(status, ReadFrame(a).s);
    WholeFrame(b);
    ReadOn(status, b);
    var t := Feed(status, s, f);
    assert t == ReadFrame(a).s;
    assert s.received + f + z == s.received + (f + z);
    assert t.input + z == z;
  }

  /** What is read of a whole frame does not depend on what follows it. */
  lemma SameFrame(a: Socket, b: Socket, f: seq<byte>, z: seq<byte>)
    requires a.input == f
    requires b == a.(input := f + z, received := a.received + z)
    requires Readable(f) && !Hazard(a.kind, f) && |f| == FrameEnd(f)
    ensures Readable(f + z) && !Hazard(a.kind, f + z) && FrameEnd(f + z) == |f| && (f + z)[|f|..] == z
    ensures ReadFrame(b).Go? && ReadFrame(a).Go?
    ensures ReadFrame(b).s == ReadFrame(a).s.(input := z, received := a.received + z)
    ensures ReadFrame(a).s.received == a.received
  {
    HeaderOfPrefix(f, z);
    SameFirstFrame(a.kind, f, z);
    assert (f + z)[0] == f[0] && (f + z)[1] == f[1];
    hide ReadFrame, Hazard, Readable, DeclaredLength, HeaderSize, Accept, Opcode, Fin, KindOf;
    OneFrame(a);
    OneFrame(b);
    var size, declared := HeaderSize(f[1]), DeclaredLength(f);
    assert FrameEnd(f) == size + declared;
    hide FrameEnd;
    SamePayload(f, z, size);
    SameAccept(a, f, z, KindOf(Opcode(f[0]), a.kind), Fin(f[0]), size, declared);
  }

  lemma SameAccept(a: Socket, f: seq<byte>, z: seq<byte>, kind: Kind, fin: bool, size: nat, declared: nat)
    requires a.input == f && |f| == size + declared
    ensures Accept(a.(kind := kind, input := f + z, received := a.received + z), fin, size, declared, declared) ==
            Accept(a.(kind := kind), fin, size, declared, declared).(input := z, received := a.received + z)
    ensures Accept(a.(kind := kind), fin, size, declared, declared).received == a.received
  {
    hide ToInt64;
    SamePayload(f, z, size);
  }

  lemma SamePayload(f: seq<byte>, z: seq<byte>, size: nat)
    requires size <= |f|
    ensures (f + z)[..size] == f[..size] && (f + z)[size..|f|] == f[size..|f|] && (f + z)[|f|..] == z && f[|f|..] == []
  {
  }

  /** Cutting after a whole frame is cutting where it leaves off. */
  lemma CutAfterFrame(status: seq<byte> -> int, s: Socket, kind: Kind, f: seq<byte>, y: seq<byte>, k: nat)
    requires s.state == Opened && s.live && Clean(s, kind, []) && k <= |y|
    requires Readable(f) && !Hazard(kind, f) && |f| == FrameEnd(f)
    ensures CutAgrees(status, s, f + y, |f| + k) == CutAgrees(status, Feed(status, s, f), y, k)
  {
    hide Feed, FeedAll, Hazard, Readable, FrameEnd, Agree, Clean, NextKind;
    var x, t := f + y, Feed(status, s, f);
    assert x[..|f| + k] == f + y[..k] && x[|f| + k..] == y[k..];
    FrameApart(status, s, kind, f, y);
    FrameApart(status, s, kind, f, y[..k]);
    FeedTwo(status, s, f + y[..k], y[k..]);
    FeedTwo(status, t, y[..k], y[k..]);
  }

  /**
   In a stream with a hazard, the bytes up to the first hazardous header have a
   continuation for which a cut after that header makes a difference.
   */
  lemma {:induction false} StreamTells(status: seq<byte> -> int, s: Socket, kind: Kind, x: seq<byte>)
    returns (k: nat, rest: seq<byte>)
    requires s.state == Opened && s.live && Clean(s, kind, []) && Decode(kind, x).ending == CutDependent
    ensures k <= |x| && !CutAgrees(status, s, x[..k] + rest, k)
    decreases |x|
  {
    hide Decode, Feed, Hazard, CutAgrees, DeclaredLength, HeaderSize, Refusal;
    CutDependentIsReadable(kind, x);
    if Hazard(kind, x) {
      k := HeaderSize(x[1]);
      HeaderAlone(kind, x);
      rest := Witness(kind, x[..k]);
      HazardTells(status, s, kind, x[..k]);
    } else {
      var f, z := x[..FrameEnd(x)], x[FrameEnd(x)..];
      FirstFrame(kind, x);
      FrameApart(status, s, kind, f, []);
      var k', rest' := StreamTells(status, Feed(status, s, f), NextKind(kind, f), z);
      k, rest := |f| + k', rest';
      var y := z[..k'] + rest';
      CutAfterFrame(status, s, kind, f, y, k');
      assert x[..k] + rest == f + y;
    }
  }

  lemma CutDependentIsReadable(kind: Kind, x: seq<byte>)
    requires Decode(kind, x).ending == CutDependent
    ensures Readable(x) && (Hazard(kind, x) || FrameEnd(x) <= |x|)
  {
  }

  lemma HeaderAlone(kind: Kind, x: seq<byte>)
    requires Readable(x) && Hazard(kind, x)
    ensures var h := x[..HeaderSize(x[1])]; BareHeader(h) && Hazard(kind, h)
  {
    hide FromBigEndian;
    var h := x[..HeaderSize(x[1])];
    assert h + x[|h|..] == x;
    HeaderOfPrefix(h, x[|h|..]);
  }

  lemma FirstFrame(kind: Kind, x: seq<byte>)
    requires Readable(x) && !Hazard(kind, x) && FrameEnd(x) <= |x|
    ensures var f, z := x[..FrameEnd(x)], x[FrameEnd(x)..];
            && Readable(f) && !Hazard(kind, f) && |f| == FrameEnd(f) && |z| < |x|
            && Decode(kind, x).ending == Decode(NextKind(kind, f), z).ending
  {
    var f, z := x[..FrameEnd(x)], x[FrameEnd(x)..];
    assert f + z == x;
    HeaderOfPrefix(f, z);
    SameFirstFrame(kind, f, z);
    DecodeWhole(kind, x);
  }

  // ---- Why only up to the hazardous header ----

  /** A pong with two bytes of payload; these and the next two are each the start of a refused frame. */
  const PONG_REFUSED: seq<byte> := [138, 2, 131, 131, 131, 131]

  predicate StartsRefused(x: seq<byte>) {
    |x| >= 2 && x[0] == 131 && x[1] == 131
  }

  predicate StartsPong(x: seq<byte>) {
    |x| >= 6 && x[0] == 138 && x[1] == 2 && x[2] == x[3] == x[4] == x[5] == 131
  }

  predicate Idle(s: Socket, kind: Kind, trace: seq<Event>) {
    s.state == Opened && s.live && s.kind == kind && s.bodyLength == 0 && s.body == [] && s.trace == trace
  }

  /** What every cutting comes to. */
  predicate ShutUnsupported(s: Socket, kind: Kind, trace: seq<Event>) {
    && s.state == Closed && !s.live && s.kind == kind && s.bodyLength == 0 && s.body == [] && s.input == []
    && s.trace == trace + [Close(Unsupported)]
  }

  lemma ReadRefused(status: seq<byte> -> int, s: Socket, kind: Kind, trace: seq<Event>)
    requires Idle(s, kind, trace) && StartsRefused(s.input)
    ensures ShutUnsupported(Reading(status, s), kind, trace)
  {
    hide HasHeader, DeclaredLength;
    assert Refusal(131, 131) == Some(Unsupported);
  }

  /** A pong of two bytes is skipped as far as it is there. */
  lemma SkipPong(status: seq<byte> -> int, s: Socket, kind: Kind, trace: seq<Event>)
    requires Idle(s, kind, trace) && |s.input| >= 2 && s.input[0] == 138 && s.input[1] == 2
    ensures var t := ReadFrame(s).s;
            Idle(t, kind, trace) && t.input == s.input[2 + Min(2, |s.input| - 2)..] && Reading(status, s) == Reading(status, t)
  {
    hide Reading, ReadFrame, HasHeader, DeclaredLength, Refusal, Accept;
    PongHeader(s.input);
    OneFrame(s);
    ReadOn(status, s);
  }

  lemma PongHeader(x: seq<byte>)
    requires |x| >= 2 && x[0] == 138 && x[1] == 2
    ensures Readable(x) && Opcode(x[0]) == OP_PONG && HeaderSize(x[1]) == 2 && DeclaredLength(x) == 2
  {
  }

  lemma ReadPongRefused(status: seq<byte> -> int, s: Socket, kind: Kind, trace: seq<Event>)
    requires Idle(s, kind, trace) && StartsPong(s.input)
    ensures ShutUnsupported(Reading(status, s), kind, trace)
  {
    hide Reading, ReadFrame;
    SkipPong(status, s, kind, trace);
    ReadRefused(status, ReadFrame(s).s, kind, trace);
  }

  /** A first read of fewer than six of the bytes leaves what will be refused with the rest. */
  lemma ReadPart(status: seq<byte> -> int, s: Socket, kind: Kind, trace: seq<Event>, rest: seq<byte>)
    requires Idle(s, kind, trace) && |s.input| < 6 && StartsPong(s.input + rest)
    ensures var t := Reading(status, s);
            Idle(t, kind, trace) && (StartsPong(t.input + rest) || StartsRefused(t.input + rest))
  {
    hide Reading, ReadFrame, Refusal, DeclaredLength, StartsPong, StartsRefused;
    if |s.input| < 2 {
      ReadShort(status, s);
    } else {
      AfterSkip(s.input, rest);
      SkipPong(status, s, kind, trace);
      ReadShort(status, ReadFrame(s).s);
    }
  }

  lemma AfterSkip(x: seq<byte>, rest: seq<byte>)
    requires 2 <= |x| < 6 && StartsPong(x + rest)
    ensures x[0] == 138 && x[1] == 2
    ensures StartsRefused(x[2 + Min(2, |x| - 2)..] + rest)
  {
    var n := 2 + Min(2, |x| - 2);
    var y := x[n..] + rest;
    assert x[0] == (x + rest)[0] && x[1] == (x + rest)[1];
    assert y == (x + rest)[n..];
    assert y[0] == (x + rest)[n] && y[1] == (x + rest)[n + 1];
  }

  lemma ReadShort(status: seq<byte> -> int, s: Socket)
    requires s.state == Opened && !UnderWay(s) && |s.input| < 2
    ensures Reading(status, s) == s
  {
  }

  /**
   With these bytes behind the hazardous header a cut anywhere makes no difference,
   whatever comes after: a stream with a hazard need not itself tell.
   */
  lemma HazardHidden(status: seq<byte> -> int, s: Socket, kind: Kind, y: seq<byte>, k: nat)
    requires s.state == Opened && s.live && Clean(s, kind, []) && k <= |PONG_REFUSED + y|
    ensures Decode(kind, PONG_REFUSED + y).ending == CutDependent && CutAgrees(status, s, PONG_REFUSED + y, k)
  {
    var x := PONG_REFUSED + y;
    HazardInFront(kind, y);
    hide Decode, Feed, FeedAll, StartsPong, ShutUnsupported;
    FeedTwo(status, s, x[..k], x[k..]);
    assert x[..k] + x[k..] == x;
    FeedPongRefused(status, s, kind, x);
    if k < 6 {
      FeedPart(status, s, kind, x[..k], x[k..]);
    } else {
      PongInFront(x, k);
      FeedPongRefused(status, s, kind, x[..k]);
      FeedShut(status, Feed(status, s, x[..k]), kind, s.trace, x[k..]);
    }
    BothShut(Feed(status, Feed(status, s, x[..k]), x[k..]), Feed(status, s, x), kind, s.trace);
  }

  lemma HazardInFront(kind: Kind, y: seq<byte>)
    ensures Decode(kind, PONG_REFUSED + y).ending == CutDependent && StartsPong(PONG_REFUSED + y)
  {
    var x := PONG_REFUSED + y;
    assert x[0] == 138 && x[1] == 2;
    assert Refusal(138, 2) == None && DeclaredLength(x) == 2;
  }

  lemma PongInFront(x: seq<byte>, k: nat)
    requires StartsPong(x) && 6 <= k <= |x|
    ensures StartsPong(x[..k])
  {
  }

  lemma BothShut(a: Socket, b: Socket, kind: Kind, trace: seq<Event>)
    requires ShutUnsupported(a, kind, trace) && ShutUnsupported(b, kind, trace)
    ensures Agree(a, b)
  {
  }

  lemma FeedShut(status: seq<byte> -> int, s: Socket, kind: Kind, trace: seq<Event>, x: seq<byte>)
    requires ShutUnsupported(s, kind, trace)
    ensures Feed(status, s, x) == s
  {
  }

  lemma FeedPongRefused(status: seq<byte> -> int, s: Socket, kind: Kind, x: seq<byte>)
    requires s.state == Opened && s.live && Clean(s, kind, []) && StartsPong(x)
    ensures ShutUnsupported(Feed(status, s, x), kind, s.trace)
  {
    hide Reading, StartsPong, ShutUnsupported;
    assert [] + x == x;
    ReadPongRefused(status, s.(input := [] + x, received := s.received + x), kind, s.trace);
  }

  lemma FeedPart(status: seq<byte> -> int, s: Socket, kind: Kind, x: seq<byte>, rest: seq<byte>)
    requires s.state == Opened && s.live && Clean(s, kind, []) && |x| < 6 && StartsPong(x + rest)
    ensures ShutUnsupported(Feed(status, Feed(status, s, x), rest), kind, s.trace)
  {
    hide Reading, StartsPong, StartsRefused, ShutUnsupported;
    assert [] + x == x;
    ReadPart(status, s.(input := [] + x, received := s.received + x), kind, s.trace, rest);
    var t := Feed(status, s, x);
    var b := t.(input := t.input + rest, received := t.received + rest);
    if StartsPong(b.input) {
      ReadPongRefused(status, b, kind, s.trace);
    } else {
      ReadRefused(status, b, kind, s.trace);
    }
  }
}
