/** Whole runs of a connection: any callbacks in any order. */
module WsRuns {
  import opened Bytes
  import opened WsFrame
  import opened WsSocket
  import opened WsReference
  import opened WsHandshake

  datatype Callback =
    | DnsResolved
    | DnsFailed
    | BevConnected
    | BevFailed
    | BevWritten
    | BevRead(chunk: seq<byte>)
    | ScriptClose

  /**
   One callback. A freed bufferevent makes none, but connecting it on the answer of the
   resolver faults; reading is enabled or not by libevent. After a fault nothing happens.
   */
  function Apply(status: seq<byte> -> int, s: Socket, c: Callback): Socket {
    if s.faulted then s
    else match c
      case DnsResolved => if s.state == Fresh then s.(state := Resolving, faulted := !s.live) else s
      case DnsFailed => Shut(s, ResolveFailed)
      case BevConnected => if s.live && s.state == Resolving then s.(state := Connected) else s
      case BevFailed => if s.live then Shut(s, TransportFailed) else s
      case BevWritten => s
      case BevRead(chunk) => Feed(status, s, chunk)
      case ScriptClose => Free(s)
  }

  function Run(status: seq<byte> -> int, s: Socket, cs: seq<Callback>): Socket
    decreases |cs|
  {
    if cs == [] then s else Apply(status, Run(status, s, cs[..|cs| - 1]), cs[|cs| - 1])
  }

  // ---- State and trace ----

  predicate AllData(trace: seq<Event>) {
    forall e <- trace :: e.Data?
  }

  /** (Open Data*)? Close?, as far as the state allows. */
  predicate Shape(s: Socket) {
    match s.state
    case Opened => |s.trace| > 0 && s.trace[0] == Open && AllData(s.trace[1..])
    case Closed =>
      && |s.trace| > 0 && s.trace[|s.trace| - 1].Close?
      && (|s.trace| > 1 ==> s.trace[0] == Open && AllData(s.trace[1..|s.trace| - 1]))
    case _ => s.trace == []
  }

  lemma DeliverShape(s: Socket)
    requires s.state == Opened && Shape(s)
    ensures Shape(Deliver(s))
  {
    var t := Deliver(s);
    assert t.trace[1..] == s.trace[1..] + [Data(s.kind, s.body)];
  }

  lemma ShutShape(s: Socket, reason: Reason)
    requires Shape(s)
    ensures Shape(Shut(s, reason))
  {
    if s.state != Closed {
      var t := Shut(s, reason).trace;
      assert t[|t| - 1] == Close(reason);
      if |t| > 1 {
        assert t[1..|t| - 1] == s.trace[1..];
      }
    }
  }

  /** One pass of the decoder keeps the shape. */
  lemma PassShape(s: Socket)
    requires s.state == Opened && Shape(s)
    ensures Shape(Resume(s)) && Shape(ReadFrame(s).s)
    ensures Resume(s).state == Opened && |Resume(s).input| <= |s.input|
    ensures ReadFrame(s).s.state == Opened || ReadFrame(s).s.state == Closed
  {
    hide Shape, Deliver, Shut, ReadFrame, Resume;
    ResumeShape(s);
    FrameShape(s);
    ResumeOpened(s);
    FrameOpened(s);
  }

  lemma ResumeShape(s: Socket)
    requires s.state == Opened && Shape(s)
    ensures Shape(Resume(s))
  {
    DeliverShape(s);
    if |s.input| > 0 && 0 < s.bodyLength - |s.body| <= |s.input| {
      var v := s.bodyLength - |s.body|;
      DeliverShape(s.(body := s.body + s.input[..v], input := s.input[v..], log := s.log + [Payload(s.input[..v])]));
    }
  }

  lemma FrameShape(s: Socket)
    requires s.state == Opened && Shape(s)
    ensures Shape(ReadFrame(s).s)
  {
    hide Shape, ReadFrame, Refusal, HeaderSize, DeclaredLength, KindOf, Shut;
    var x := s.input;
    NoFrame(s);
    if |x| >= 2 {
      if Refusal(x[0], x[1]).Some? {
        ShutShape(s, Refusal(x[0], x[1]).value);
      } else if HasHeader(x) {
        OneFrame(s);
        var size, declared := HeaderSize(x[1]), DeclaredLength(x);
        var len := Min(declared, |x| - size);
        var t := s.(kind := KindOf(Opcode(x[0]), s.kind));
        SameShape(s, t);
        AcceptShape(t, Fin(x[0]), size, declared, len);
        SameShape(s, ReadFrame(s).s);
      }
    }
  }

  /** The shape is of state and trace. */
  lemma SameShape(s: Socket, t: Socket)
    ensures s.state == t.state && s.trace == t.trace ==> Shape(s) == Shape(t)
  {
  }

  lemma AcceptShape(s: Socket, fin: bool, size: nat, declared: nat, len: nat)
    requires s.state == Opened && Shape(s) && size + len <= |s.input|
    ensures Shape(Accept(s, fin, size, declared, len))
  {
    hide Shape, ToInt64, Deliver;
    var x := s.input;
    var t := s.(input := x[size + len..], log := s.log + [Head(x[..size]), Payload(x[size..size + len])],
                body := s.body + x[size..size + len]);
    SameShape(s, t);
    DeliverShape(t);
    SameShape(t, t.(bodyLength := ToInt64(declared)));
  }

  lemma {:induction false} ReadingShape(status: seq<byte> -> int, s: Socket)
    requires Shape(s)
    ensures Shape(Reading(status, s)) && Rank(s.state) <= Rank(Reading(status, s).state)
    decreases 4 - Rank(s.state), |s.input|
  {
    hide ReadFrame, Resume, Shape, ScanFrom, Shut;
    if s.state == Connected {
      if ScanFrom(s.input, 0, 0).Some? {
        var end := ScanFrom(s.input, 0, 0).value;
        var t := s.(input := s.input[end..], log := s.log + [Handshake(s.input[..end])]);
        var u := t.(state := Opened, trace := t.trace + [Open]);
        HandshakeShape(s, t, u);
        ReadingShape(status, u);
        SameShape(Reading(status, u), AskOutput(Reading(status, u)));
      }
    } else if s.state == Opened {
      var t := Resume(s);
      PassShape(s);
      PassShape(t);
      if ReadFrame(t).Go? {
        ReadingShape(status, ReadFrame(t).s);
      }
    }
  }

  lemma HandshakeShape(s: Socket, t: Socket, u: Socket)
    requires s.state == t.state == Connected && s.trace == t.trace && Shape(s)
    requires u == t.(state := Opened, trace := t.trace + [Open])
    ensures Shape(u) && Shape(Shut(t, BadStatus)) && Shut(t, BadStatus).state == Closed
  {
    ShutShape(t, BadStatus);
  }

  lemma ReadingClosed(status: seq<byte> -> int, s: Socket)
    ensures s.state == Closed ==> Reading(status, s) == s
  {
  }

  lemma NewShape()
    ensures Shape(NewSocket)
  {
  }

  lemma ApplyShape(status: seq<byte> -> int, s: Socket, c: Callback)
    requires Shape(s)
    ensures Shape(Apply(status, s, c)) && Rank(s.state) <= Rank(Apply(status, s, c).state)
    ensures s.state == Closed ==> Apply(status, s, c).state == Closed && Apply(status, s, c).trace == s.trace
    ensures s.faulted ==> Apply(status, s, c) == s
  {
    hide Reading;
    match c
    case DnsFailed => ShutShape(s, ResolveFailed);
    case BevFailed => ShutShape(s, TransportFailed);
    case BevRead(chunk) =>
      ReadingShape(status, s.(input := s.input + chunk, received := s.received + chunk));
      ReadingClosed(status, s.(input := s.input + chunk, received := s.received + chunk));
    case _ =>
  }

  /**
   In every run the state never goes back, Closed is final, the callbacks are handed
   (Open Data*)? Close?, and after a fault nothing happens.
   */
  lemma {:induction false} ConnectionSafety(status: seq<byte> -> int, cs: seq<Callback>, i: nat)
    requires i <= |cs|
    ensures Shape(Run(status, NewSocket, cs))
    ensures Rank(Run(status, NewSocket, cs[..i]).state) <= Rank(Run(status, NewSocket, cs).state)
    ensures Run(status, NewSocket, cs[..i]).state == Closed ==>
              Run(status, NewSocket, cs).state == Closed &&
              Run(status, NewSocket, cs).trace == Run(status, NewSocket, cs[..i]).trace
    ensures Run(status, NewSocket, cs[..i]).faulted ==> Run(status, NewSocket, cs) == Run(status, NewSocket, cs[..i])
    decreases |cs|
  {
    hide Apply, Shape;
    if cs == [] {
      NewShape();
    } else {
      var n := |cs| - 1;
      ConnectionSafety(status, cs[..n], if i <= n then i else n);
      ApplyShape(status, Run(status, NewSocket, cs[..n]), cs[n]);
      if i <= n {
        assert cs[..n][..i] == cs[..i];
      } else {
        assert cs[..i] == cs;
      }
    }
  }

  // ---- Conservation ----

  function BytesOf(log: seq<Segment>): seq<byte>
  {
    if log == [] then [] else BytesOf(log[..|log| - 1]) + log[|log| - 1].bytes
  }

  /** The payload bytes taken in, in order. */
  function PayloadOf(log: seq<Segment>): seq<byte> {
    if log == [] then []
    else
      var last := log[|log| - 1];
      PayloadOf(log[..|log| - 1]) + if last.Payload? then last.bytes else []
  }

  /** The payload bytes handed to `onData`, in order. */
  function DeliveredBy(trace: seq<Event>): seq<byte> {
    if trace == [] then []
    else
      var last := trace[|trace| - 1];
      DeliveredBy(trace[..|trace| - 1]) + if last.Data? then last.payload else []
  }

  /**
   Every byte received is still in the input or in one segment of the log, in
   order; every payload byte taken in has been delivered or is in the body, in
   order. Freeing the bufferevent drops the input.
   */
  predicate Conserved(s: Socket) {
    && (if s.live then BytesOf(s.log) + s.input == s.received else BytesOf(s.log) <= s.received && s.input == [])
    && PayloadOf(s.log) == DeliveredBy(s.trace) + s.body
  }

  lemma LogOne(log: seq<Segment>, g: Segment)
    ensures BytesOf(log + [g]) == BytesOf(log) + g.bytes
    ensures PayloadOf(log + [g]) == PayloadOf(log) + if g.Payload? then g.bytes else []
  {
    assert (log + [g])[..|log|] == log;
  }

  lemma TraceOne(trace: seq<Event>, e: Event)
    ensures DeliveredBy(trace + [e]) == DeliveredBy(trace) + if e.Data? then e.payload else []
  {
    assert (trace + [e])[..|trace|] == trace;
  }

  lemma DeliverConserves(s: Socket)
    requires Conserved(s)
    ensures Conserved(Deliver(s))
  {
    TraceOne(s.trace, Data(s.kind, s.body));
  }

  lemma ShutConserves(s: Socket, reason: Reason)
    requires Conserved(s)
    ensures Conserved(Shut(s, reason))
  {
    TraceOne(s.trace, Close(reason));
  }

  /** Taking `n` input bytes as segment `g` conserves bytes; payload goes to the body. */
  lemma TakeConserves(s: Socket, n: nat, g: Segment)
    requires Conserved(s) && s.live && n <= |s.input| && g.bytes == s.input[..n]
    ensures Conserved(s.(input := s.input[n..], log := s.log + [g],
                         body := if g.Payload? then s.body + g.bytes else s.body))
  {
    LogOne(s.log, g);
    assert s.input == s.input[..n] + s.input[n..];
    assert BytesOf(s.log) + s.input == BytesOf(s.log) + g.bytes + s.input[n..];
    if g.Payload? {
      assert DeliveredBy(s.trace) + (s.body + g.bytes) == DeliveredBy(s.trace) + s.body + g.bytes;
    }
  }

  lemma ResumeConserves(s: Socket)
    requires Conserved(s) && s.live
    ensures Conserved(Resume(s)) && Resume(s).live
  {
    hide Conserved;
    DeliverConserves(s);
    var v := s.bodyLength - |s.body|;
    if |s.input| > 0 && 0 < v <= |s.input| {
      TakeConserves(s, v, Payload(s.input[..v]));
      DeliverConserves(s.(body := s.body + s.input[..v], input := s.input[v..], log := s.log + [Payload(s.input[..v])]));
    }
  }

  /** Header fields are no part of what is conserved. */
  lemma FieldsConserve(s: Socket, state: State, kind: Kind, bodyLength: int)
    ensures Conserved(s.(state := state, kind := kind, bodyLength := bodyLength)) == Conserved(s)
  {
  }

  lemma FrameConserves(s: Socket)
    requires Conserved(s) && s.live
    ensures Conserved(ReadFrame(s).s) && (ReadFrame(s).Go? ==> ReadFrame(s).s.live)
  {
    hide Conserved, ReadFrame, Refusal, HeaderSize, DeclaredLength, KindOf;
    var x := s.input;
    NoFrame(s);
    if |x| >= 2 {
      if Refusal(x[0], x[1]).Some? {
        ShutConserves(s, Refusal(x[0], x[1]).value);
      } else if HasHeader(x) {
        var size, declared := HeaderSize(x[1]), DeclaredLength(x);
        var len := Min(declared, |x| - size);
        OneFrame(s);
        if Opcode(x[0]) == OP_PONG {
          TakeTwo(s, size, len, Skipped(x[size..size + len]));
        } else {
          var t := s.(kind := KindOf(Opcode(x[0]), s.kind));
          FieldsConserve(s, s.state, t.kind, s.bodyLength);
          AcceptConserves(t, Fin(x[0]), size, declared, len);
        }
      }
    }
  }

  /** A header and what follows it are taken together. */
  lemma TakeTwo(s: Socket, size: nat, len: nat, g: Segment)
    requires Conserved(s) && s.live && size + len <= |s.input| && g.bytes == s.input[size..size + len]
    ensures Conserved(s.(input := s.input[size + len..], log := s.log + [Head(s.input[..size]), g],
                         body := if g.Payload? then s.body + g.bytes else s.body))
  {
    hide Conserved;
    var x := s.input;
    TakeConserves(s, size, Head(x[..size]));
    var t := s.(input := x[size..], log := s.log + [Head(x[..size])]);
    assert t.input[..len] == x[size..size + len] && t.input[len..] == x[size + len..];
    TakeConserves(t, len, g);
    assert t.log + [g] == s.log + [Head(x[..size]), g];
  }

  lemma AcceptConserves(s: Socket, fin: bool, size: nat, declared: nat, len: nat)
    requires Conserved(s) && s.live && size + len <= |s.input|
    ensures Conserved(Accept(s, fin, size, declared, len)) && Accept(s, fin, size, declared, len).live
  {
    hide Conserved, ToInt64;
    var x := s.input;
    TakeTwo(s, size, len, Payload(x[size..size + len]));
    var t := s.(input := x[size + len..], log := s.log + [Head(x[..size]), Payload(x[size..size + len])],
                body := s.body + x[size..size + len]);
    DeliverConserves(t);
    FieldsConserve(t, t.state, t.kind, ToInt64(declared));
  }

  lemma {:induction false} ReadingConserves(status: seq<byte> -> int, s: Socket)
    requires Conserved(s) && s.live
    ensures Conserved(Reading(status, s))
    decreases 4 - Rank(s.state), |s.input|
  {
    hide Conserved, ReadFrame, Resume, ScanFrom;
    if s.state == Connected {
      if ScanFrom(s.input, 0, 0).Some? {
        var end := ScanFrom(s.input, 0, 0).value;
        TakeConserves(s, end, Handshake(s.input[..end]));
        var t := s.(input := s.input[end..], log := s.log + [Handshake(s.input[..end])]);
        OpenConserves(t);
        ReadingConserves(status, t.(state := Opened, trace := t.trace + [Open]));
        AskConserves(Reading(status, t.(state := Opened, trace := t.trace + [Open])));
        ShutConserves(t, BadStatus);
      }
    } else if s.state == Opened {
      ResumeConserves(s);
      ResumeShrinks(s);
      var t := Resume(s);
      FrameConserves(t);
      if ReadFrame(t).Go? {
        ReadingConserves(status, ReadFrame(t).s);
      }
    }
  }

  lemma AskConserves(s: Socket)
    ensures Conserved(AskOutput(s)) == Conserved(s)
  {
  }

  lemma OpenConserves(t: Socket)
    requires Conserved(t)
    ensures Conserved(t.(state := Opened, trace := t.trace + [Open]))
  {
    TraceOne(t.trace, Open);
  }

  lemma ResumeShrinks(s: Socket)
    ensures |Resume(s).input| <= |s.input| && Resume(s).state == s.state
  {
  }

  lemma ApplyConserves(status: seq<byte> -> int, s: Socket, c: Callback)
    requires Conserved(s)
    ensures Conserved(Apply(status, s, c))
  {
    match c
    case DnsFailed => ShutConserves(s, ResolveFailed);
    case BevFailed => ShutConserves(s, TransportFailed);
    case BevRead(chunk) =>
      if s.live {
        var t := s.(input := s.input + chunk, received := s.received + chunk);
        assert BytesOf(s.log) + (s.input + chunk) == BytesOf(s.log) + s.input + chunk;
        ReadingConserves(status, t);
      }
    case _ =>
  }

  /** Conservation in every run, whatever the bytes and however they are cut. */
  lemma {:induction false} RunConserves(status: seq<byte> -> int, cs: seq<Callback>)
    ensures Conserved(Run(status, NewSocket, cs))
  {
    if cs != [] {
      hide Apply, Conserved;
      RunConserves(status, cs[..|cs| - 1]);
      ApplyConserves(status, Run(status, NewSocket, cs[..|cs| - 1]), cs[|cs| - 1]);
    }
  }

  // ---- What the segments are ----

  /** The header and at most the payload of a pong, dropped together. */
  predicate DroppedPong(log: seq<Segment>, i: nat)
    requires i < |log| && log[i].Skipped?
  {
    && i > 0 && log[i - 1].Head? && HasHeader(log[i - 1].bytes)
    && Opcode(log[i - 1].bytes[0]) == OP_PONG && |log[i].bytes| <= DeclaredLength(log[i - 1].bytes)
  }

  /** Each segment is what its name says; only handshakes, headers and pong payloads never reach `onData`. */
  ghost predicate WellLogged(log: seq<Segment>) {
    && (forall i | 0 <= i < |log| && log[i].Handshake? :: i == 0 && FirstEmptyLine(log[i].bytes, |log[i].bytes|))
    && (forall i | 0 <= i < |log| && log[i].Head? :: BareFrameHeader(log[i].bytes))
    && (forall i | 0 <= i < |log| && log[i].Skipped? :: DroppedPong(log, i))
  }

  predicate BareFrameHeader(h: seq<byte>) {
    HasHeader(h) && |h| == HeaderSize(h[1]) && Refusal(h[0], h[1]).None?
  }

  ghost predicate Recorded(s: Socket) {
    WellLogged(s.log) && (s.state != Opened && s.state != Closed ==> s.log == [])
  }

  lemma FrameRecorded(s: Socket)
    requires Recorded(s) && s.state == Opened
    ensures Recorded(ReadFrame(s).s)
  {
    hide FromBigEndian;
    var x := s.input;
    if Readable(x) {
      var size := HeaderSize(x[1]);
      var head := x[..size];
      assert head + x[size..] == x;
      HeaderOfPrefix(head, x[size..]);
      assert BareFrameHeader(head);
      AppendRecorded(s.log, head, ReadFrame(s).s.log);
    }
  }

  lemma AppendRecorded(log: seq<Segment>, head: seq<byte>, log': seq<Segment>)
    requires WellLogged(log) && BareFrameHeader(head)
    requires |log'| == |log| + 2 && log'[..|log|] == log && log'[|log|] == Head(head)
    requires log'[|log| + 1].Payload? ||
             (log'[|log| + 1].Skipped? && Opcode(head[0]) == OP_PONG && |log'[|log| + 1].bytes| <= DeclaredLength(head))
    ensures WellLogged(log')
  {
    hide FirstEmptyLine;
    assert forall i | 0 <= i < |log| :: log'[i] == log[i];
    forall i | 0 <= i < |log'| && log'[i].Skipped? ensures DroppedPong(log', i) {
      if i < |log| {
        assert DroppedPong(log, i);
      }
    }
  }

  lemma ResumeRecorded(s: Socket)
    requires Recorded(s) && s.state == Opened
    ensures Recorded(Resume(s))
  {
    var log' := Resume(s).log;
    if log' != s.log {
      assert log' == s.log + [log'[|s.log|]] && log'[|s.log|].Payload?;
      PayloadRecorded(s.log, log'[|s.log|]);
    }
  }

  lemma PayloadRecorded(log: seq<Segment>, g: Segment)
    requires WellLogged(log) && g.Payload?
    ensures WellLogged(log + [g])
  {
    var log' := log + [g];
    forall i | 0 <= i < |log'| && log'[i].Skipped? ensures DroppedPong(log', i) {
      assert DroppedPong(log, i);
    }
  }

  lemma HeadersEnd(x: seq<byte>)
    requires ScanFrom(x, 0, 0).Some?
    ensures var h := x[..ScanFrom(x, 0, 0).value]; FirstEmptyLine(h, |h|)
  {
    var end := ScanFrom(x, 0, 0).value;
    ScanIsFirstEmptyLine(x, end);
    var h := x[..end];
    assert h + x[end..] == x;
    forall e | 2 <= e <= end ensures EndsWithEmptyLine(h, e) <==> EndsWithEmptyLine(x, e) {
      AfterLineFeedOfPrefix(h, x[end..], e - 1);
    }
  }

  lemma {:induction false} ReadingRecorded(status: seq<byte> -> int, s: Socket)
    requires Recorded(s)
    ensures Recorded(Reading(status, s))
    decreases 4 - Rank(s.state), |s.input|
  {
    if s.state == Connected {
      if ScanFrom(s.input, 0, 0).Some? {
        var end := ScanFrom(s.input, 0, 0).value;
        HeadersEnd(s.input);
        var t := s.(input := s.input[end..], log := s.log + [Handshake(s.input[..end])]);
        ReadingRecorded(status, t.(state := Opened, trace := t.trace + [Open]));
      }
    } else if s.state == Opened {
      ResumeRecorded(s);
      ResumeShrinks(s);
      FrameRecorded(Resume(s));
      hide ReadFrame, Resume;
      var t := Resume(s);
      if ReadFrame(t).Go? {
        ReadingRecorded(status, ReadFrame(t).s);
      }
    }
  }

  lemma {:induction false} RunRecorded(status: seq<byte> -> int, cs: seq<Callback>)
    ensures Recorded(Run(status, NewSocket, cs))
  {
    if cs != [] {
      RunRecorded(status, cs[..|cs| - 1]);
      var s := Run(status, NewSocket, cs[..|cs| - 1]);
      hide Reading, WellLogged;
      match cs[|cs| - 1]
      case BevRead(chunk) => ReadingRecorded(status, s.(input := s.input + chunk, received := s.received + chunk));
      case _ =>
    }
  }

  // ---- The first callbacks ----

  /** The order of a handshake, and why the connection closes before it is opened. */
  lemma FirstCallbacks(status: seq<byte> -> int)
    ensures Run(status, NewSocket, [DnsResolved]).state == Resolving
    ensures Run(status, NewSocket, [DnsResolved, BevConnected]).state == Connected
    ensures Run(status, NewSocket, [BevConnected]) == NewSocket
    ensures Run(status, NewSocket, [DnsFailed]).trace == [Close(ResolveFailed)]
    ensures Run(status, NewSocket, [DnsResolved, BevFailed]).trace == [Close(TransportFailed)]
  {
    assert Run(status, NewSocket, []) == NewSocket;
    RunOne(status, DnsResolved);
    RunOne(status, BevConnected);
    RunOne(status, DnsFailed);
    RunTwo(status, DnsResolved, BevConnected);
    RunTwo(status, DnsResolved, BevFailed);
  }

  lemma RunOne(status: seq<byte> -> int, a: Callback)
    ensures Run(status, NewSocket, [a]) == Apply(status, NewSocket, a)
  {
    hide Apply;
    assert [a][..0] == [];
  }

  lemma RunTwo(status: seq<byte> -> int, a: Callback, b: Callback)
    ensures Run(status, NewSocket, [a, b]) == Apply(status, Apply(status, NewSocket, a), b)
  {
    hide Apply;
    RunOne(status, a);
    assert [a, b][..1] == [a];
  }
}
