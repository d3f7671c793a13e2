/** Streams of well-formed server frames. */
module WsFrames {
  import opened Bytes
  import opened WsFrame
  import opened WsSocket
  import opened WsReference
  import opened WsHandshake

  /** A final, unmasked frame; a ping has the short form (section 5.5 of RFC 6455). */
  datatype Frame = Frame(kind: Kind, form: Form, payload: seq<byte>) {
    predicate Valid() {
      kind != NoKind && Fits(form, |payload|) && (kind == Ping ==> form == Short)
    }
  }

  function Wire(f: Frame): seq<byte>
    requires f.Valid()
  {
    WireHeader(OpcodeOf(f.kind), false, f.form, |f.payload|) + f.payload
  }

  function Stream(frames: seq<Frame>): seq<byte>
    requires forall f <- frames :: f.Valid()
  {
    if frames == [] then [] else Wire(frames[0]) + Stream(frames[1..])
  }

  function Messages(frames: seq<Frame>): seq<Event> {
    if frames == [] then [] else [Data(frames[0].kind, frames[0].payload)] + Messages(frames[1..])
  }

  lemma DecodeWire(f: Frame, rest: seq<byte>)
    requires f.Valid()
    ensures Decode(NoKind, Wire(f) + rest) == Before([Data(f.kind, f.payload)], Decode(NoKind, rest))
  {
    hide Decode;
    var h := WireHeader(OpcodeOf(f.kind), false, f.form, |f.payload|);
    var x := h + (f.payload + rest);
    assert Wire(f) + rest == x;
    HeaderReadsBack(OpcodeOf(f.kind), false, f.form, |f.payload|, f.payload + rest);
    DecodeWhole(NoKind, x);
    assert x[|h|..FrameEnd(x)] == f.payload;
    assert x[FrameEnd(x)..] == rest;
  }

  lemma {:induction false} DecodeStream(frames: seq<Frame>, rest: seq<byte>)
    requires forall f <- frames :: f.Valid()
    ensures Decode(NoKind, Stream(frames) + rest) == Before(Messages(frames), Decode(NoKind, rest))
  {
    hide Decode;
    var d := Decode(NoKind, rest);
    if frames == [] {
      assert Stream(frames) + rest == rest;
      assert Messages(frames) + d.events == d.events;
    } else {
      var more := Stream(frames[1..]) + rest;
      assert Stream(frames) + rest == Wire(frames[0]) + more;
      DecodeWire(frames[0], more);
      DecodeStream(frames[1..], rest);
      var e := [Data(frames[0].kind, frames[0].payload)];
      assert e + (Messages(frames[1..]) + d.events) == (e + Messages(frames[1..])) + d.events;
    }
  }

  lemma DecodeStart(kind: Kind, x: seq<byte>)
    requires !HasHeader(x) && (|x| >= 2 ==> Refusal(x[0], x[1]).None?)
    ensures Decode(kind, x) == Decoded([], Waiting(kind, x))
  {
    hide Refusal;
  }

  /** A frame that has not arrived whole delivers nothing. */
  lemma DecodePart(f: Frame, part: seq<byte>)
    requires f.Valid() && |part| < |Wire(f)| && part == Wire(f)[..|part|]
    ensures Decode(NoKind, part) == Decoded([], Waiting(NoKind, part))
  {
    hide FromBigEndian, ToBigEndian, WireHeader, Decode;
    HeaderReadsBack(OpcodeOf(f.kind), false, f.form, |f.payload|, f.payload);
    var rest := Wire(f)[|part|..];
    assert part + rest == Wire(f);
    if HasHeader(part) {
      HeaderOfPrefix(part, rest);
      DecodeHazard(NoKind, part);
    } else {
      assert |part| >= 2 ==> part[0] == Wire(f)[0] && part[1] == Wire(f)[1];
      DecodeStart(NoKind, part);
    }
  }

  /**
   A 101 response, then well-formed frames, then part of one more: however these
   bytes are cut into reads, the callbacks are handed Open and exactly those messages,
   the part is what the client still holds, and it does not fault. The script is shown
   Open and the messages other than pings.
   */
  lemma MessagesSurviveChunking(status: seq<byte> -> int, s: Socket, head: seq<byte>, frames: seq<Frame>,
                                last: Frame, part: seq<byte>, chunks: seq<seq<byte>>)
    requires Awaiting(s, []) && !s.faulted && FirstEmptyLine(head, |head|) && status(head) == 101
    requires (forall f <- frames :: f.Valid()) && last.Valid()
    requires |part| < |Wire(last)| && part == Wire(last)[..|part|]
    requires Concat(chunks) == head + Stream(frames) + part
    ensures var s' := FeedAll(status, s, chunks);
            s'.trace == s.trace + [Open] + Messages(frames) && Holds(s', NoKind, part) && !s'.faulted &&
            Shown(s'.trace) == Shown(s.trace) + [Open] + Messages(WithoutPings(frames))
  {
    hide Decode, ScanFrom, FeedAll, Holds, Stream, Wire, Messages, AfterLineFeed, FaultsIn, Shown, WithoutPings;
    var x := head + (Stream(frames) + part);
    assert [] + Concat(chunks) == x;
    SessionOfMessages(status, head, frames, last, part);
    ScanIsFirstEmptyLine([], 0);
    ChunkingIndependence(status, s, [], chunks);
    if FaultsIn(status, [], chunks) {
      FaultsOnRefusal(status, [], chunks);
    }
    assert s.trace + ([Open] + Messages(frames)) == s.trace + [Open] + Messages(frames);
    ScriptSeesMessages(frames);
    ShownAppend(s.trace + [Open], Messages(frames));
    ShownOne(s.trace, Open);
  }

  lemma ShownOne(trace: seq<Event>, e: Event)
    ensures Shown(trace + [e]) == Shown(trace) + ShownOf(e)
  {
    assert (trace + [e])[..|trace|] == trace;
  }

  /** Of those, the script is shown all but the pings. */
  lemma {:induction false} ScriptSeesMessages(frames: seq<Frame>)
    ensures Shown(Messages(frames)) == Messages(WithoutPings(frames))
    decreases |frames|
  {
    hide Shown, WithoutPings;
    NoPingsMore(frames);
    if frames == [] {
      ShownNone();
    } else {
      var e := Data(frames[0].kind, frames[0].payload);
      ShownAppend([e], Messages(frames[1..]));
      ShownNone();
      ShownOne([], e);
      assert [] + [e] == [e] && [] + ShownOf(e) == ShownOf(e);
      ScriptSeesMessages(frames[1..]);
    }
  }

  lemma ShownNone()
    ensures Shown([]) == []
  {
  }

  lemma {:induction false} ShownAppend(a: seq<Event>, b: seq<Event>)
    ensures Shown(a + b) == Shown(a) + Shown(b)
    decreases |b|
  {
    hide ShownOf;
    if b == [] {
      assert a + b == a;
    } else {
      var n := |b| - 1;
      assert (a + b)[..|a + b| - 1] == a + b[..n];
      ShownAppend(a, b[..n]);
    }
  }

  lemma NoPingsMore(frames: seq<Frame>)
    ensures frames == [] ==> WithoutPings(frames) == []
    ensures frames != [] ==>
              var e := Data(frames[0].kind, frames[0].payload);
              Messages(WithoutPings(frames)) == ShownOf(e) + Messages(WithoutPings(frames[1..]))
  {
    if frames != [] {
      var rest := WithoutPings(frames[1..]);
      if frames[0].kind == Ping {
        assert [] + rest == rest;
      } else {
        assert ([frames[0]] + rest)[1..] == rest;
      }
    }
  }

  function WithoutPings(frames: seq<Frame>): seq<Frame> {
    if frames == [] then []
    else (if frames[0].kind == Ping then [] else [frames[0]]) + WithoutPings(frames[1..])
  }

  lemma SessionOfMessages(status: seq<byte> -> int, head: seq<byte>, frames: seq<Frame>, last: Frame, part: seq<byte>)
    requires FirstEmptyLine(head, |head|) && status(head) == 101
    requires (forall f <- frames :: f.Valid()) && last.Valid()
    requires |part| < |Wire(last)| && part == Wire(last)[..|part|]
    ensures var x := head + (Stream(frames) + part);
            ScanFrom(x, 0, 0).Some? && Session(status, x) == Decoded([Open] + Messages(frames), Waiting(NoKind, part))
  {
    hide Decode, ScanFrom, Stream, Wire, Messages, AfterLineFeed;
    var x := head + (Stream(frames) + part);
    ScanIsFirstEmptyLine(head, |head|);
    ScanOfPrefix(head, Stream(frames) + part);
    assert x[..|head|] == head && x[|head|..] == Stream(frames) + part;
    DecodeStream(frames, part);
    DecodePart(last, part);
    assert Messages(frames) + [] == Messages(frames);
  }
}
