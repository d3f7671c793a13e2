/** The response header, the whole session, and streams of well-formed server frames. */
module WsHandshake {
  import opened Bytes
  import opened WsFrame
  import opened WsSocket
  import opened WsReference

  /** `x[..end]` ends with a line feed that only carriage returns separate from the one before. */
  ghost predicate EndsWithEmptyLine(x: seq<byte>, end: int) {
    2 <= end <= |x| && x[end - 1] == 10 && AfterLineFeed(x, end - 1)
  }

  /** The last byte before `i` that is not a carriage return is a line feed. */
  predicate AfterLineFeed(x: seq<byte>, i: int)
    requires i <= |x|
    decreases i
  {
    i > 0 && (x[i - 1] == 10 || (x[i - 1] == 13 && AfterLineFeed(x, i - 1)))
  }

  ghost predicate FirstEmptyLine(x: seq<byte>, end: int) {
    EndsWithEmptyLine(x, end) && forall e :: EndsWithEmptyLine(x, e) ==> end <= e
  }

  lemma {:induction false} ScanFinds(x: seq<byte>, i: nat, n: nat)
    requires i <= |x| && n == (if AfterLineFeed(x, i) then 1 else 0)
    requires forall e :: EndsWithEmptyLine(x, e) ==> i < e
    ensures ScanFrom(x, i, n).Some? ==> FirstEmptyLine(x, ScanFrom(x, i, n).value)
    ensures ScanFrom(x, i, n).None? ==> forall e :: !EndsWithEmptyLine(x, e)
    decreases |x| - i
  {
    if i < |x| {
      if x[i] == 10 && n == 1 {
        assert EndsWithEmptyLine(x, i + 1);
      } else {
        assert !EndsWithEmptyLine(x, i + 1);
        ScanFinds(x, i + 1, if x[i] == 13 then n else if x[i] == 10 then 1 else 0);
      }
    }
  }

  /** The scan finds the first empty line, and finds it if there is one. */
  lemma ScanIsFirstEmptyLine(x: seq<byte>, end: int)
    ensures ScanFrom(x, 0, 0) == Some(end) <==> FirstEmptyLine(x, end)
    ensures ScanFrom(x, 0, 0) == None <==> forall e :: !EndsWithEmptyLine(x, e)
  {
    ScanFinds(x, 0, 0);
  }

  lemma {:induction false} AfterLineFeedOfPrefix(x: seq<byte>, y: seq<byte>, i: nat)
    requires i <= |x|
    ensures AfterLineFeed(x + y, i) == AfterLineFeed(x, i)
  {
    if i > 0 {
      AfterLineFeedOfPrefix(x, y, i - 1);
    }
  }

  lemma ScanOfPrefix(x: seq<byte>, y: seq<byte>)
    requires ScanFrom(x, 0, 0).Some?
    ensures ScanFrom(x + y, 0, 0) == ScanFrom(x, 0, 0)
  {
    var end := ScanFrom(x, 0, 0).value;
    ScanIsFirstEmptyLine(x, end);
    forall e: int | 2 <= e <= |x| ensures EndsWithEmptyLine(x + y, e) <==> EndsWithEmptyLine(x, e) {
      AfterLineFeedOfPrefix(x, y, e - 1);
    }
    assert FirstEmptyLine(x + y, end);
    ScanIsFirstEmptyLine(x + y, end);
  }

  /** A connection waiting for its response header, with what has arrived of it. */
  predicate Awaiting(s: Socket, x: seq<byte>) {
    s.state == Connected && s.live && s.kind == NoKind && s.bodyLength == 0 && s.body == [] && s.input == x
  }

  /** The events of the whole stream `x` on a connection that has just been made. */
  function Session(status: seq<byte> -> int, x: seq<byte>): Decoded {
    match ScanFrom(x, 0, 0)
    case None => Decoded([], Waiting(NoKind, x))
    case Some(end) =>
      if status(x[..end]) == 101 then Before([Open], Decode(NoKind, x[end..]))
      else Decoded([Close(BadStatus)], Refused)
  }

  ghost predicate SessionReaches(status: seq<byte> -> int, s: Socket, x: seq<byte>, s': Socket) {
    if ScanFrom(x, 0, 0).None? then s'.trace == s.trace && Awaiting(s', x)
    else Reaches(s, Session(status, x), s')
  }

  /** The header is in `x`, and after it something on which the client closes. */
  predicate RefusedWithHeader(status: seq<byte> -> int, x: seq<byte>) {
    match ScanFrom(x, 0, 0)
    case None => false
    case Some(end) => status(x[..end]) == 101 && Decode(NoKind, x[end..]).ending == Refused
  }

  /** The read that completes the header brings what the client closes on. */
  predicate FaultsIn(status: seq<byte> -> int, x: seq<byte>, chunks: seq<seq<byte>>)
    decreases |chunks|
  {
    if chunks == [] then false
    else if ScanFrom(x + chunks[0], 0, 0).None? then FaultsIn(status, x + chunks[0], chunks[1..])
    else RefusedWithHeader(status, x + chunks[0])
  }

  /** The connection at the point where `onOpen` reads on. */
  function Opening(s: Socket, end: nat): Socket
    requires end <= |s.input|
  {
    s.(state := Opened, input := s.input[end..], trace := s.trace + [Open], log := s.log + [Handshake(s.input[..end])])
  }

  /** A read faults if and only if it completes a 101 header and reading on closes the connection. */
  lemma ReadFaultsIff(status: seq<byte> -> int, s: Socket)
    requires s.live && !s.faulted
    ensures Reading(status, s).faulted <==>
            && s.state == Connected && ScanFrom(s.input, 0, 0).Some?
            && var end := ScanFrom(s.input, 0, 0).value;
               status(s.input[..end]) == 101 && Reading(status, Opening(s, end)).state == Closed
  {
    hide ScanFrom, Resume, ReadFrame;
    if s.state == Connected {
      if ScanFrom(s.input, 0, 0).Some? {
        var end := ScanFrom(s.input, 0, 0).value;
        ReadingOpened(status, Opening(s, end));
      }
    } else if s.state == Opened {
      ReadingOpened(status, s);
    }
  }

  /** On a stream without hazard, that is when what follows the header is refused. */
  lemma FeedFaultsIff(status: seq<byte> -> int, s: Socket, x: seq<byte>, chunk: seq<byte>)
    requires Awaiting(s, x) && !s.faulted
    requires Session(status, x + chunk).ending != CutDependent
    ensures Feed(status, s, chunk).faulted <==> RefusedWithHeader(status, x + chunk)
  {
    hide ReadFrame, Resume, Decode, Reading;
    var t := s.(input := x + chunk, received := s.received + chunk);
    ReadFaultsIff(status, t);
    match ScanFrom(x + chunk, 0, 0)
    case None =>
    case Some(end) =>
      if status(t.input[..end]) == 101 {
        ReadFromBoundary(status, Opening(t, end));
      }
  }

  lemma {:induction false} ChunksFaultIff(status: seq<byte> -> int, s: Socket, x: seq<byte>, chunks: seq<seq<byte>>)
    requires Awaiting(s, x) && ScanFrom(x, 0, 0) == None && !s.faulted
    requires Session(status, x + Concat(chunks)).ending != CutDependent
    ensures FeedAll(status, s, chunks).faulted <==> FaultsIn(status, x, chunks)
    decreases |chunks|
  {
    hide Decode, Reading, Feed, ScanFrom, RefusedWithHeader;
    if chunks != [] {
      var y, more := x + chunks[0], Concat(chunks[1..]);
      assert x + Concat(chunks) == y + more;
      if ScanFrom(y, 0, 0).Some? {
        SessionAppend(status, y, more);
      }
      FeedAwaiting(status, s, x, chunks[0]);
      FeedFaultsIff(status, s, x, chunks[0]);
      var s' := Feed(status, s, chunks[0]);
      if ScanFrom(y, 0, 0).None? {
        NoRefusal(status, y);
        ChunksFaultIff(status, s', y, chunks[1..]);
      } else {
        NoMoreFaults(status, s', chunks[1..]);
      }
    }
  }

  /** What faults in some way of cutting is refused after the header in the whole. */
  lemma {:induction false} FaultsOnRefusal(status: seq<byte> -> int, x: seq<byte>, chunks: seq<seq<byte>>)
    requires FaultsIn(status, x, chunks)
    ensures RefusedWithHeader(status, x + Concat(chunks))
    decreases |chunks|
  {
    hide Decode, ScanFrom, RefusedWithHeader;
    var y, more := x + chunks[0], Concat(chunks[1..]);
    assert x + Concat(chunks) == y + more;
    if ScanFrom(y, 0, 0).None? {
      FaultsOnRefusal(status, y, chunks[1..]);
    } else {
      RefusedAppend(status, y, more);
    }
  }

  lemma RefusedAppend(status: seq<byte> -> int, x: seq<byte>, y: seq<byte>)
    requires RefusedWithHeader(status, x)
    ensures RefusedWithHeader(status, x + y)
  {
    hide Decode;
    ScanOfPrefix(x, y);
    var end := ScanFrom(x, 0, 0).value;
    assert (x + y)[..end] == x[..end] && (x + y)[end..] == x[end..] + y;
    DecodeAppend(NoKind, x[end..], y);
  }

  lemma NoRefusal(status: seq<byte> -> int, x: seq<byte>)
    requires ScanFrom(x, 0, 0).None?
    ensures !RefusedWithHeader(status, x)
  {
  }

  lemma FeedAwaiting(status: seq<byte> -> int, s: Socket, x: seq<byte>, chunk: seq<byte>)
    requires Awaiting(s, x)
    requires Session(status, x + chunk).ending != CutDependent
    ensures SessionReaches(status, s, x + chunk, Feed(status, s, chunk))
  {
    hide ReadFrame, Resume, Decode;
    var t := s.(input := x + chunk, received := s.received + chunk);
    match ScanFrom(x + chunk, 0, 0)
    case None =>
    case Some(end) =>
      if status(t.input[..end]) == 101 {
        var v := Opening(t, end);
        ReadFromBoundary(status, v);
        ReachesFrom(s, [Open], v, Decode(NoKind, v.input), Reading(status, v));
      }
  }

  /**
   However the stream is cut into reads, the callbacks are handed the events of the
   whole stream, and the undecoded tail is what input and body hold. Only whether the
   client faults afterwards depends on the cuts.
   */
  lemma ChunkingIndependence(status: seq<byte> -> int, s: Socket, x: seq<byte>, chunks: seq<seq<byte>>)
    requires Awaiting(s, x) && ScanFrom(x, 0, 0) == None && !s.faulted
    requires Session(status, x + Concat(chunks)).ending != CutDependent
    ensures SessionReaches(status, s, x + Concat(chunks), FeedAll(status, s, chunks))
    ensures FeedAll(status, s, chunks).faulted <==> FaultsIn(status, x, chunks)
  {
    hide *;
    SameEvents(status, s, x, chunks);
    ChunksFaultIff(status, s, x, chunks);
  }

  lemma {:induction false} SameEvents(status: seq<byte> -> int, s: Socket, x: seq<byte>, chunks: seq<seq<byte>>)
    requires Awaiting(s, x) && ScanFrom(x, 0, 0) == None
    requires Session(status, x + Concat(chunks)).ending != CutDependent
    ensures SessionReaches(status, s, x + Concat(chunks), FeedAll(status, s, chunks))
    decreases |chunks|
  {
    hide Decode, Reading, Feed, ScanFrom;
    if chunks == [] {
      assert x + Concat(chunks) == x;
    } else {
      var y, more := x + chunks[0], Concat(chunks[1..]);
      assert x + Concat(chunks) == y + more;
      if ScanFrom(y, 0, 0).Some? {
        SessionAppend(status, y, more);
      }
      FeedAwaiting(status, s, x, chunks[0]);
      var s' := Feed(status, s, chunks[0]);
      if ScanFrom(y, 0, 0).None? {
        SameEvents(status, s', y, chunks[1..]);
      } else {
        var d := Session(status, y);
        if d.ending.Waiting? {
          FeedAllOpened(status, s', d.ending.kind, d.ending.tail, chunks[1..]);
          ReachesFrom(s, d.events, s', Decode(d.ending.kind, d.ending.tail + more), FeedAll(status, s', chunks[1..]));
        } else {
          FeedAllClosed(status, s', chunks[1..]);
        }
      }
    }
  }

  ghost predicate SessionResumes(status: seq<byte> -> int, x: seq<byte>, y: seq<byte>) {
    var d := Session(status, x);
    if d.ending.Waiting? then Session(status, x + y) == Before(d.events, Decode(d.ending.kind, d.ending.tail + y))
    else Session(status, x + y) == d
  }

  lemma SessionAppend(status: seq<byte> -> int, x: seq<byte>, y: seq<byte>)
    requires ScanFrom(x, 0, 0).Some?
    ensures ScanFrom(x + y, 0, 0).Some?
    ensures SessionResumes(status, x, y)
  {
    hide Decode, EndsWithEmptyLine, FirstEmptyLine, AfterLineFeed;
    ScanOfPrefix(x, y);
    var end := ScanFrom(x, 0, 0).value;
    assert (x + y)[..end] == x[..end];
    assert (x + y)[end..] == x[end..] + y;
    if status(x[..end]) == 101 {
      DecodeAppend(NoKind, x[end..], y);
      var d := Decode(NoKind, x[end..]);
      if d.ending.Waiting? {
        var f := Decode(d.ending.kind, d.ending.tail + y).events;
        assert [Open] + (d.events + f) == ([Open] + d.events) + f;
      }
    }
  }
}
