/**
 A decoder that sees the whole stream at once, and the proof that the
 incremental one agrees with it however the stream is cut.
 */
module WsReference {
  import opened Bytes
  import opened WsFrame
  import opened WsSocket

  /** How decoding a stream ends: more bytes wanted, closed, or at a frame whose meaning depends on the cuts. */
  datatype Ending = Waiting(kind: Kind, tail: seq<byte>) | Refused | CutDependent

  datatype Decoded = Decoded(events: seq<Event>, ending: Ending)

  /** The first frame of `x` is one that the client treats differently when it is split. */
  predicate Hazard(kind: Kind, x: seq<byte>)
    requires HasHeader(x)
  {
    var op := Opcode(x[0]);
    var n := DeclaredLength(x);
    n > 0 && (op == OP_PONG || !Fin(x[0]) || KindOf(op, kind) == NoKind || n >= 0x8000_0000_0000_0000)
  }

  function Before(event: seq<Event>, d: Decoded): Decoded {
    d.(events := event + d.events)
  }

  /** Frame after frame, from the whole stream. */
  function Decode(kind: Kind, x: seq<byte>): Decoded
    decreases |x|
  {
    if |x| < 2 then Decoded([], Waiting(kind, x))
    else if Refusal(x[0], x[1]).Some? then Decoded([Close(Refusal(x[0], x[1]).value)], Refused)
    else if !HasHeader(x) then Decoded([], Waiting(kind, x))
    else if Hazard(kind, x) then Decoded([], CutDependent)
    else
      var start := HeaderSize(x[1]);
      var end := start + DeclaredLength(x);
      if |x| < end then Decoded([], Waiting(kind, x))
      else if Opcode(x[0]) == OP_PONG then Decode(kind, x[end..])
      else
        var k := KindOf(Opcode(x[0]), kind);
        if Fin(x[0]) then Before([Data(k, x[start..end])], Decode(NoKind, x[end..]))
        else Decode(k, x[end..])
  }

  /** `s` stands for the undecoded bytes `tail`, whose header may already have been taken in. */
  predicate Holds(s: Socket, kind: Kind, tail: seq<byte>) {
    && s.state == Opened && s.live
    && (if HasHeader(tail) then Midway(s, kind, tail) else Clean(s, kind, tail))
    && Decode(kind, tail) == Decoded([], Waiting(kind, tail))
  }

  predicate Clean(s: Socket, kind: Kind, tail: seq<byte>) {
    s.kind == kind && s.bodyLength == 0 && s.body == [] && s.input == tail
  }

  predicate Midway(s: Socket, kind: Kind, tail: seq<byte>) {
    && HasHeader(tail) && Refusal(tail[0], tail[1]).None? && !Hazard(kind, tail)
    && s.bodyLength == DeclaredLength(tail)
    && |s.body| + |s.input| < s.bodyLength
    && s.kind == KindOf(Opcode(tail[0]), kind)
    && tail == tail[..HeaderSize(tail[1])] + s.body + s.input
  }

  /** `s'` is what `s` becomes when the stream has been decoded to `d`. */
  predicate Reaches(s: Socket, d: Decoded, s': Socket) {
    && s'.trace == s.trace + d.events
    && match d.ending
       case Waiting(kind, tail) => Holds(s', kind, tail)
       case Refused => s'.state == Closed
       case CutDependent => true
  }

  /** The header of `x` is whole and the client reads on. */
  predicate Readable(x: seq<byte>) {
    HasHeader(x) && Refusal(x[0], x[1]).None?
  }

  function FrameEnd(x: seq<byte>): nat
    requires HasHeader(x)
  {
    HeaderSize(x[1]) + DeclaredLength(x)
  }

  /** What reading the start of a frame leaves: the same undecoded bytes, less the header. */
  lemma PartialFrame(s: Socket)
    requires s.state == Opened && s.live && s.bodyLength == 0 && s.body == []
    requires Readable(s.input) && !Hazard(s.kind, s.input) && |s.input| < FrameEnd(s.input)
    ensures ReadFrame(s).Go?
    ensures var t := ReadFrame(s).s;
            t.trace == s.trace && t.live && t.state == Opened && Midway(t, s.kind, s.input) && t.input == []
  {
    hide FromBigEndian;
    SlicedOff(s.input, HeaderSize(s.input[1]));
  }

  lemma SlicedOff(x: seq<byte>, size: nat)
    requires size <= |x|
    ensures [] + x[size..size + (|x| - size)] == x[size..] && x[size + (|x| - size)..] == []
    ensures x == x[..size] + x[size..] + []
  {
  }

  lemma ReadNothing(status: seq<byte> -> int, s: Socket)
    requires s.state == Opened && s.input == []
    ensures Reading(status, s) == s
  {
  }

  /** With no body under way the loop goes straight to the next frame. */
  lemma ReadOn(status: seq<byte> -> int, s: Socket)
    requires s.state == Opened && s.bodyLength == 0 && ReadFrame(s).Go?
    ensures Reading(status, s) == Reading(status, ReadFrame(s).s)
  {
  }

  lemma StopAtBoundary(status: seq<byte> -> int, s: Socket)
    requires s.state == Opened && s.live && s.bodyLength == 0 && s.body == []
    requires !Readable(s.input)
    ensures Reaches(s, Decode(s.kind, s.input), Reading(status, s))
  {
    assert s.trace + [] == s.trace;
  }

  /** The kind in force after the whole frame at the head of `x`, and what that frame delivers. */
  function NextKind(kind: Kind, x: seq<byte>): Kind
    requires HasHeader(x)
  {
    if Opcode(x[0]) == OP_PONG then kind else if Fin(x[0]) then NoKind else KindOf(Opcode(x[0]), kind)
  }

  function FirstEvents(kind: Kind, x: seq<byte>): seq<Event>
    requires HasHeader(x) && FrameEnd(x) <= |x|
  {
    if Opcode(x[0]) == OP_PONG || !Fin(x[0]) then []
    else [Data(KindOf(Opcode(x[0]), kind), x[HeaderSize(x[1])..FrameEnd(x)])]
  }

  /** What reading a whole frame at a frame boundary leaves. */
  lemma WholeFrame(s: Socket)
    requires s.state == Opened && s.bodyLength == 0 && s.body == []
    requires Readable(s.input) && !Hazard(s.kind, s.input) && FrameEnd(s.input) <= |s.input|
    ensures var x := s.input;
            var p := ReadFrame(s);
            p.Go? && Clean(p.s, NextKind(s.kind, x), x[FrameEnd(x)..]) &&
            p.s.state == Opened && p.s.live == s.live && p.s.trace == s.trace + FirstEvents(s.kind, x)
  {
    hide FromBigEndian, ReadFrame, Refusal, HasHeader, DeclaredLength, HeaderSize, KindOf, Accept;
    var x := s.input;
    var size, declared := HeaderSize(x[1]), DeclaredLength(x);
    OneFrame(s);
    assert s.trace + [] == s.trace;
    if Opcode(x[0]) != OP_PONG {
      AcceptWhole(s.(kind := KindOf(Opcode(x[0]), s.kind)), Fin(x[0]), size, declared);
    }
  }

  /** A whole payload is delivered if its frame is final; one without hazard is otherwise empty. */
  lemma AcceptWhole(s: Socket, fin: bool, size: nat, declared: nat)
    requires s.bodyLength == 0 && s.body == [] && size + declared <= |s.input| && (fin || declared == 0)
    ensures var t := Accept(s, fin, size, declared, declared);
            && Clean(t, if fin then NoKind else s.kind, s.input[size + declared..])
            && t.state == s.state && t.live == s.live
            && t.trace == s.trace + if fin then [Data(s.kind, s.input[size..size + declared])] else []
  {
    var payload := s.input[size..size + declared];
    assert |payload| == declared;
    assert s.body + payload == payload;
    assert s.trace + [] == s.trace;
  }

  /** Where the client does not get to the payload. */
  lemma NoFrame(s: Socket)
    ensures |s.input| < 2 ==> ReadFrame(s) == Stop(s)
    ensures |s.input| >= 2 ==>
              var refusal := Refusal(s.input[0], s.input[1]);
              && (refusal.Some? ==> ReadFrame(s) == Stop(Shut(s, refusal.value)))
              && (refusal.None? && !HasHeader(s.input) ==> ReadFrame(s) == Stop(s))
  {
    hide Refusal, HeaderSize, DeclaredLength, Shut, Accept;
  }

  /** What the client does with a frame it reads on from. */
  lemma OneFrame(s: Socket)
    requires Readable(s.input)
    ensures var x := s.input;
            var size, declared := HeaderSize(x[1]), DeclaredLength(x);
            var len := Min(declared, |x| - size);
            ReadFrame(s) ==
            Go(if Opcode(x[0]) == OP_PONG
               then s.(input := x[size + len..], log := s.log + [Head(x[..size]), Skipped(x[size..size + len])])
               else Accept(s.(kind := KindOf(Opcode(x[0]), s.kind)), Fin(x[0]), size, declared, len))
  {
    hide FromBigEndian, Accept, Refusal, KindOf, HeaderSize, DeclaredLength;
  }

  lemma DecodeWhole(kind: Kind, x: seq<byte>)
    requires Readable(x) && !Hazard(kind, x) && FrameEnd(x) <= |x|
    ensures Decode(kind, x) ==
            Before(FirstEvents(kind, x), Decode(NextKind(kind, x), x[FrameEnd(x)..]))
  {
    var d := Decode(NextKind(kind, x), x[FrameEnd(x)..]);
    assert [] + d.events == d.events;
  }

  /** Reaching is preserved by putting the events of the first frame in front. */
  lemma ReachesFrom(s: Socket, e: seq<Event>, next: Socket, d: Decoded, s': Socket)
    requires next.trace == s.trace + e && Reaches(next, d, s')
    ensures Reaches(s, Before(e, d), s')
  {
    assert s.trace + (e + d.events) == (s.trace + e) + d.events;
  }

  /** From a frame boundary one read decodes all of its input. */
  lemma {:induction false} ReadFromBoundary(status: seq<byte> -> int, s: Socket)
    requires s.state == Opened && s.live && s.bodyLength == 0 && s.body == []
    requires Decode(s.kind, s.input).ending != CutDependent
    ensures Reaches(s, Decode(s.kind, s.input), Reading(status, s))
    decreases |s.input|
  {
    hide ReadFrame, Resume, Decode, Reading;
    var x := s.input;
    if !Readable(x) {
      StopAtBoundary(status, s);
    } else if FrameEnd(x) <= |x| {
      assert !Hazard(s.kind, x) by { DecodeHazard(s.kind, x); }
      WholeFrame(s);
      DecodeWhole(s.kind, x);
      ReadOn(status, s);
      var next := ReadFrame(s).s;
      ReadFromBoundary(status, next);
      ReachesFrom(s, FirstEvents(s.kind, x), next, Decode(next.kind, next.input), Reading(status, next));
    } else {
      DecodeHazard(s.kind, x);
      PartialFrame(s);
      ReadOn(status, s);
      ReadNothing(status, ReadFrame(s).s);
      assert s.trace + [] == s.trace;
    }
  }

  lemma DecodeHazard(kind: Kind, x: seq<byte>)
    requires Readable(x)
    ensures Hazard(kind, x) ==> Decode(kind, x).ending == CutDependent
    ensures !Hazard(kind, x) && |x| < FrameEnd(x) ==> Decode(kind, x) == Decoded([], Waiting(kind, x))
  {
  }

  // ---- Reads that find a body under way ----

  lemma StillMidway(status: seq<byte> -> int, s: Socket, kind: Kind, tail: seq<byte>, chunk: seq<byte>)
    requires s.state == Opened && s.live && Midway(s, kind, tail)
    requires |s.body| + |s.input| + |chunk| < s.bodyLength
    ensures var t := s.(input := s.input + chunk);
            Reading(status, t) == t && Midway(t, kind, tail + chunk)
  {
    HeaderOfPrefix(tail, chunk);
    var size := HeaderSize(tail[1]);
    assert (tail + chunk)[..size] == tail[..size];
    assert tail + chunk == tail[..size] + s.body + (s.input + chunk);
  }

  /** The undecoded bytes, seen from a body under way to which enough has been added. */
  lemma WholeAtLast(s: Socket, kind: Kind, tail: seq<byte>, chunk: seq<byte>)
    requires Midway(s, kind, tail)
    requires |s.body| + |s.input| + |chunk| >= s.bodyLength
    ensures var x := tail + chunk;
            var v := s.bodyLength - |s.body|;
            var input := s.input + chunk;
            Readable(x) && !Hazard(kind, x) && FrameEnd(x) <= |x| &&
            NextKind(kind, x) == NoKind &&
            FirstEvents(kind, x) == [Data(s.kind, s.body + input[..v])] && x[FrameEnd(x)..] == input[v..]
  {
    hide FromBigEndian;
    var x, input := tail + chunk, s.input + chunk;
    HeaderOfPrefix(tail, chunk);
    var size := HeaderSize(tail[1]);
    var v := s.bodyLength - |s.body|;
    assert x[..size] == tail[..size] && x[0] == tail[0] && x[1] == tail[1];
    assert x == x[..size] + s.body + input;
    assert x[size..FrameEnd(x)] == s.body + input[..v];
    assert x[FrameEnd(x)..] == input[v..];
  }

  /** The rest of a body arrives: it is delivered and the loop goes on at the next frame. */
  lemma FinishBody(status: seq<byte> -> int, s: Socket)
    requires s.state == Opened && s.kind != NoKind && |s.body| < s.bodyLength <= |s.body| + |s.input|
    ensures var v := s.bodyLength - |s.body|;
            var r := Resume(s);
            Reading(status, s) == Reading(status, r) && r.state == Opened && r.live == s.live &&
            r.kind == NoKind && r.bodyLength == 0 && r.body == [] && r.input == s.input[v..] &&
            r.trace == s.trace + [Data(s.kind, s.body + s.input[..v])]
  {
    hide ReadFrame;
    assert Resume(Resume(s)) == Resume(s);
  }

  // ---- The stream cut into reads ----

  /** One read callback: libevent adds the bytes to the input and calls `onReading`. */
  function Feed(status: seq<byte> -> int, s: Socket, chunk: seq<byte>): Socket {
    if s.live then Reading(status, s.(input := s.input + chunk, received := s.received + chunk)) else s
  }

  function FeedAll(status: seq<byte> -> int, s: Socket, chunks: seq<seq<byte>>): Socket
    decreases |chunks|
  {
    if chunks == [] then s else FeedAll(status, Feed(status, s, chunks[0]), chunks[1..])
  }

  lemma FeedOpened(status: seq<byte> -> int, s: Socket, kind: Kind, tail: seq<byte>, chunk: seq<byte>)
    requires Holds(s, kind, tail)
    requires Decode(kind, tail + chunk).ending != CutDependent
    ensures Reaches(s, Decode(kind, tail + chunk), Feed(status, s, chunk))
  {
    hide ReadFrame, Resume, Decode, Reading;
    var x := tail + chunk;
    var s0 := s.(received := s.received + chunk);
    var t := s0.(input := s0.input + chunk);
    assert Feed(status, s, chunk) == Reading(status, t);
    if !HasHeader(tail) {
      ReadFromBoundary(status, t);
    } else if |s.body| + |t.input| < s.bodyLength {
      StillMidway(status, s0, kind, tail, chunk);
      DecodeHazard(kind, x);
      assert s.trace + [] == s.trace;
    } else {
      WholeAtLast(s0, kind, tail, chunk);
      FinishBody(status, t);
      DecodeWhole(kind, x);
      var r := Resume(t);
      ReadFromBoundary(status, r);
      ReachesFrom(s, FirstEvents(kind, x), r, Decode(r.kind, r.input), Reading(status, r));
    }
  }

  /** Reading on an opened connection does not fault, and frees the bufferevent only by closing. */
  lemma {:induction false} ReadingOpened(status: seq<byte> -> int, s: Socket)
    requires s.state == Opened
    ensures var r := Reading(status, s);
            && r.faulted == s.faulted && (r.state == Opened || r.state == Closed)
            && (s.live ==> r.live == (r.state == Opened))
    decreases |s.input|
  {
    hide ReadFrame, Resume;
    ResumeOpened(s);
    FrameOpened(Resume(s));
    if ReadFrame(Resume(s)).Go? {
      ReadingOpened(status, ReadFrame(Resume(s)).s);
    }
  }

  lemma ResumeOpened(s: Socket)
    requires s.state == Opened
    ensures var r := Resume(s);
            r.state == Opened && r.live == s.live && r.faulted == s.faulted && |r.input| <= |s.input|
  {
  }

  lemma FrameOpened(s: Socket)
    requires s.state == Opened
    ensures var r := ReadFrame(s).s;
            && r.faulted == s.faulted && (r.state == Opened || r.state == Closed)
            && (s.live ==> r.live == (r.state == Opened))
  {
    hide FromBigEndian, ToInt64, Refusal;
  }

  /** Once the header is in, no read faults. */
  lemma {:induction false} NoMoreFaults(status: seq<byte> -> int, s: Socket, chunks: seq<seq<byte>>)
    requires s.state == Opened || s.state == Closed
    ensures FeedAll(status, s, chunks).faulted == s.faulted
    decreases |chunks|
  {
    if chunks != [] {
      hide Reading;
      var t := s.(input := s.input + chunks[0], received := s.received + chunks[0]);
      if s.state == Opened {
        ReadingOpened(status, t);
      } else {
        ReadingElsewhere(status, t);
      }
      NoMoreFaults(status, Feed(status, s, chunks[0]), chunks[1..]);
    }
  }

  lemma ReadingElsewhere(status: seq<byte> -> int, s: Socket)
    requires s.state != Connected && s.state != Opened
    ensures Reading(status, s) == s
  {
  }

  ghost predicate Resumes(kind: Kind, x: seq<byte>, y: seq<byte>) {
    var d := Decode(kind, x);
    if d.ending.Waiting? then Decode(kind, x + y) == Before(d.events, Decode(d.ending.kind, d.ending.tail + y))
    else Decode(kind, x + y) == d
  }

  lemma ResumesAtOnce(kind: Kind, x: seq<byte>, y: seq<byte>)
    requires Readable(x) ==> Hazard(kind, x) || |x| < FrameEnd(x)
    ensures Resumes(kind, x, y)
  {
    assert [] + Decode(kind, x + y).events == Decode(kind, x + y).events;
    if |x| >= 2 {
      assert (x + y)[0] == x[0] && (x + y)[1] == x[1];
      if Readable(x) {
        HeaderOfPrefix(x, y);
      }
    }
  }

  lemma ResumesAfterFrame(kind: Kind, x: seq<byte>, y: seq<byte>)
    requires Readable(x) && !Hazard(kind, x) && FrameEnd(x) <= |x|
    requires Resumes(NextKind(kind, x), x[FrameEnd(x)..], y)
    ensures Resumes(kind, x, y)
  {
    hide Decode, Hazard, FirstEvents, NextKind;
    var rest, e := x[FrameEnd(x)..], FirstEvents(kind, x);
    SameFirstFrame(kind, x, y);
    DecodeWhole(kind, x);
    DecodeWhole(kind, x + y);
    var d := Decode(NextKind(kind, x), rest);
    if d.ending.Waiting? {
      var f := Decode(d.ending.kind, d.ending.tail + y).events;
      assert e + (d.events + f) == (e + d.events) + f;
    }
  }

  lemma SameFirstFrame(kind: Kind, x: seq<byte>, y: seq<byte>)
    requires Readable(x) && FrameEnd(x) <= |x|
    ensures Readable(x + y) && FrameEnd(x + y) == FrameEnd(x) && Hazard(kind, x + y) == Hazard(kind, x)
    ensures NextKind(kind, x + y) == NextKind(kind, x) && FirstEvents(kind, x + y) == FirstEvents(kind, x)
    ensures (x + y)[FrameEnd(x)..] == x[FrameEnd(x)..] + y
  {
    HeaderOfPrefix(x, y);
    assert (x + y)[0] == x[0] && (x + y)[1] == x[1];
    assert (x + y)[HeaderSize(x[1])..FrameEnd(x)] == x[HeaderSize(x[1])..FrameEnd(x)];
  }

  /** Decoding may stop after any prefix and take up its tail with the rest. */
  lemma {:induction false} DecodeAppend(kind: Kind, x: seq<byte>, y: seq<byte>)
    ensures Resumes(kind, x, y)
    decreases |x|
  {
    if Readable(x) && !Hazard(kind, x) && FrameEnd(x) <= |x| {
      DecodeAppend(NextKind(kind, x), x[FrameEnd(x)..], y);
      ResumesAfterFrame(kind, x, y);
    } else {
      ResumesAtOnce(kind, x, y);
    }
  }

  /** The client keeps up with the whole-stream decoder, read by read. */
  lemma {:induction false} FeedAllOpened(status: seq<byte> -> int, s: Socket, kind: Kind, tail: seq<byte>,
                                         chunks: seq<seq<byte>>)
    requires Holds(s, kind, tail)
    requires Decode(kind, tail + Concat(chunks)).ending != CutDependent
    ensures Reaches(s, Decode(kind, tail + Concat(chunks)), FeedAll(status, s, chunks))
    decreases |chunks|
  {
    hide Decode, Reading, Feed;
    var all := Concat(chunks);
    if chunks == [] {
      assert tail + all == tail;
      assert s.trace + [] == s.trace;
    } else {
      var x, more := tail + chunks[0], Concat(chunks[1..]);
      assert tail + all == x + more;
      DecodeAppend(kind, x, more);
      FeedOpened(status, s, kind, tail, chunks[0]);
      var d, s' := Decode(kind, x), Feed(status, s, chunks[0]);
      if d.ending.Waiting? {
        FeedAllOpened(status, s', d.ending.kind, d.ending.tail, chunks[1..]);
        ReachesFrom(s, d.events, s', Decode(d.ending.kind, d.ending.tail + more), FeedAll(status, s', chunks[1..]));
      } else {
        FeedAllClosed(status, s', chunks[1..]);
      }
    }
  }

  lemma {:induction false} FeedAllClosed(status: seq<byte> -> int, s: Socket, chunks: seq<seq<byte>>)
    requires s.state == Closed
    ensures FeedAll(status, s, chunks).state == Closed && FeedAll(status, s, chunks).trace == s.trace
    decreases |chunks|
  {
    if chunks != [] {
      FeedAllClosed(status, Feed(status, s, chunks[0]), chunks[1..]);
    }
  }
}
