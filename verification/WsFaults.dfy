/** Exactly when the client uses a bufferevent that it has freed. */
module WsFaults {
  import opened Bytes
  import opened WsFrame
  import opened WsSocket
  import opened WsReference
  import opened WsHandshake
  import opened WsRuns

  // ---- One stream, all ways of cutting it ----

  /**
   A stream without hazard can be cut so that the client faults if and only if it is
   refused after a 101 header; the header alone in a read of its own is always safe.
   */
  lemma SomeCutFaultsIff(status: seq<byte> -> int, s: Socket, x: seq<byte>)
    requires Awaiting(s, []) && !s.faulted && Session(status, x).ending != CutDependent
    ensures (exists chunks: seq<seq<byte>> :: Concat(chunks) == x && FeedAll(status, s, chunks).faulted)
            <==> RefusedWithHeader(status, x)
    ensures RefusedWithHeader(status, x) ==>
              var end := ScanFrom(x, 0, 0).value;
              FeedAll(status, s, [x]).faulted && !FeedAll(status, s, [x[..end], x[end..]]).faulted
  {
    hide FeedAll, FaultsIn, RefusedWithHeader, Session, ScanFrom;
    assert [] + x == x;
    NoHeaderYet();
    forall chunks: seq<seq<byte>> | Concat(chunks) == x && FeedAll(status, s, chunks).faulted
      ensures RefusedWithHeader(status, x)
    {
      ChunkingIndependence(status, s, [], chunks);
      FaultsOnRefusal(status, [], chunks);
    }
    if RefusedWithHeader(status, x) {
      InOneRead(status, x);
      ChunkingIndependence(status, s, [], [x]);
      var end := ScanFrom(x, 0, 0).value;
      HeaderApart(status, x);
      ChunkingIndependence(status, s, [], [x[..end], x[end..]]);
    }
  }

  lemma NoHeaderYet()
    ensures ScanFrom([], 0, 0) == None
  {
  }

  lemma InOneRead(status: seq<byte> -> int, x: seq<byte>)
    requires RefusedWithHeader(status, x)
    ensures Concat([x]) == x && FaultsIn(status, [], [x]) && ScanFrom(x, 0, 0).Some?
  {
    assert [] + x == x;
  }

  /** The header on its own. */
  lemma HeaderApart(status: seq<byte> -> int, x: seq<byte>)
    requires ScanFrom(x, 0, 0).Some?
    ensures var end := ScanFrom(x, 0, 0).value;
            Concat([x[..end], x[end..]]) == x && !FaultsIn(status, [], [x[..end], x[end..]])
  {
    hide ScanFrom, FirstEmptyLine, Decode;
    var end := ScanFrom(x, 0, 0).value;
    var head, rest := x[..end], x[end..];
    assert [head, rest][1..] == [rest];
    assert Concat([head, rest]) == head + rest == x by { assert Concat([rest]) == rest; }
    HeadersEnd(x);
    ScanIsFirstEmptyLine(head, end);
    assert [] + head == head && head[..end] == head && head[end..] == [];
    NothingRefused();
  }

  lemma NothingRefused()
    ensures Decode(NoKind, []).ending != Refused
  {
  }

  /** A close frame in the read that completes the header faults; in a read of its own it does not. */
  lemma CloseWithHeader(status: seq<byte> -> int, s: Socket, head: seq<byte>)
    requires Awaiting(s, []) && !s.faulted && FirstEmptyLine(head, |head|) && status(head) == 101
    ensures FeedAll(status, s, [head + [136, 0]]).faulted
    ensures !FeedAll(status, s, [head, [136, 0]]).faulted
    ensures FeedAll(status, s, [head + [136, 0]]).trace == FeedAll(status, s, [head, [136, 0]]).trace ==
            s.trace + [Open, Close(PeerClosed)]
  {
    hide FeedAll, FaultsIn, AfterLineFeed;
    var x := head + [136, 0];
    ScanIsFirstEmptyLine(head, |head|);
    ScanOfPrefix(head, [136, 0]);
    hide ScanFrom;
    assert x[..|head|] == head && x[|head|..] == [136, 0];
    assert Refusal(136, 0) == Some(PeerClosed);
    assert Decode(NoKind, [136, 0]) == Decoded([Close(PeerClosed)], Refused);
    assert [Open] + [Close(PeerClosed)] == [Open, Close(PeerClosed)];
    assert Session(status, x) == Decoded([Open, Close(PeerClosed)], Refused);
    SomeCutFaultsIff(status, s, x);
    NoHeaderYet();
    assert [] + x == x;
    InOneRead(status, x);
    HeaderApart(status, x);
    ChunkingIndependence(status, s, [], [x]);
    ChunkingIndependence(status, s, [], [head, [136, 0]]);
  }

  // ---- Whole runs ----

  /**
   The callback uses a freed bufferevent: to connect it when the script has closed the
   connection before the resolver answers, or at the end of `onOpen`.
   */
  predicate Faults(status: seq<byte> -> int, s: Socket, c: Callback) {
    match c
    case DnsResolved => s.state == Fresh && !s.live
    case BevRead(chunk) => s.live && s.state == Connected && ClosesOnOpening(status, s, chunk)
    case _ => false
  }

  /** The chunk completes a 101 header, and what follows that closes the connection. */
  predicate ClosesOnOpening(status: seq<byte> -> int, s: Socket, chunk: seq<byte>) {
    var t := s.(input := s.input + chunk, received := s.received + chunk);
    match ScanFrom(t.input, 0, 0)
    case None => false
    case Some(end) => status(t.input[..end]) == 101 && Reading(status, Opening(t, end)).state == Closed
  }

  lemma ApplyFaultsIff(status: seq<byte> -> int, s: Socket, c: Callback)
    requires !s.faulted
    ensures Apply(status, s, c).faulted <==> Faults(status, s, c)
  {
    hide Reading, ScanFrom;
    match c
    case BevRead(chunk) =>
      if s.live {
        ReadFaultsIff(status, s.(input := s.input + chunk, received := s.received + chunk));
      }
    case _ =>
  }

  predicate FaultsAt(status: seq<byte> -> int, cs: seq<Callback>, i: nat) {
    i < |cs| && !Run(status, NewSocket, cs[..i]).faulted && Faults(status, Run(status, NewSocket, cs[..i]), cs[i])
  }

  lemma FaultsAtPrefix(status: seq<byte> -> int, cs: seq<Callback>, n: nat, i: nat)
    requires i < n <= |cs|
    ensures FaultsAt(status, cs[..n], i) == FaultsAt(status, cs, i)
  {
    hide Run, Faults;
    assert cs[..n][..i] == cs[..i];
  }

  /** A run faults if and only if one of its callbacks does. */
  lemma {:induction false} RunFaultsIff(status: seq<byte> -> int, cs: seq<Callback>)
    ensures Run(status, NewSocket, cs).faulted <==> exists i: nat :: FaultsAt(status, cs, i)
    decreases |cs|
  {
    if cs == [] {
      hide Faults;
    } else {
      hide Faults, Apply, FaultsAt;
      var n := |cs| - 1;
      RunFaultsIff(status, cs[..n]);
      forall i | 0 <= i < n ensures FaultsAt(status, cs[..n], i) == FaultsAt(status, cs, i) {
        FaultsAtPrefix(status, cs, n, i);
      }
      LastFaults(status, cs, n);
      assert Run(status, NewSocket, cs).faulted <==> Run(status, NewSocket, cs[..n]).faulted || FaultsAt(status, cs, n);
      hide Run;
      FaultsBelow(status, cs[..n]);
      FaultsBelow(status, cs);
    }
  }

  lemma FaultsBelow(status: seq<byte> -> int, cs: seq<Callback>)
    ensures forall i: nat | FaultsAt(status, cs, i) :: i < |cs|
  {
  }

  lemma LastFaults(status: seq<byte> -> int, cs: seq<Callback>, n: nat)
    requires |cs| == n + 1
    ensures Run(status, NewSocket, cs).faulted <==> Run(status, NewSocket, cs[..n]).faulted || FaultsAt(status, cs, n)
  {
    hide Faults, Apply;
    var s := Run(status, NewSocket, cs[..n]);
    if s.faulted {
      ConnectionSafety(status, cs, n);
    } else {
      ApplyFaultsIff(status, s, cs[n]);
    }
  }

  /** The script closes before the resolver answers. */
  lemma AnswerAfterClose(status: seq<byte> -> int)
    ensures Run(status, NewSocket, [ScriptClose, DnsResolved]).faulted
  {
    assert [ScriptClose, DnsResolved][..1] == [ScriptClose] && [ScriptClose][..0] == [];
    assert Run(status, NewSocket, [ScriptClose]) == Free(Run(status, NewSocket, []));
  }

  /** A connection that waits for its header is as the stream theorems ask. */
  lemma {:induction false} RunAwaits(status: seq<byte> -> int, cs: seq<Callback>)
    ensures var s := Run(status, NewSocket, cs);
            Rank(s.state) <= Rank(Connected) ==>
              s.kind == NoKind && s.bodyLength == 0 && s.body == [] &&
              (s.live && s.state == Connected ==> Awaiting(s, s.input))
    decreases |cs|
  {
    if cs != [] {
      RunAwaits(status, cs[..|cs| - 1]);
      var s := Run(status, NewSocket, cs[..|cs| - 1]);
      hide Run;
      match cs[|cs| - 1]
      case BevRead(chunk) => ReadingBefore(status, s.(input := s.input + chunk, received := s.received + chunk));
      case _ =>
    }
  }

  lemma ReadingBefore(status: seq<byte> -> int, s: Socket)
    ensures Rank(Reading(status, s).state) <= Rank(Connected) ==> Reading(status, s) == s
  {
    hide ScanFrom, ReadFrame, Resume;
    if s.state == Connected {
      if ScanFrom(s.input, 0, 0).Some? {
        ReadingOpened(status, Opening(s, ScanFrom(s.input, 0, 0).value));
      }
    } else if s.state == Opened {
      ReadingOpened(status, s);
    }
  }

  /** Over every run: a read whose bytes hold no hazard faults if and only if they are refused after the header. */
  lemma ReadInRunFaultsIff(status: seq<byte> -> int, cs: seq<Callback>, chunk: seq<byte>)
    requires var s := Run(status, NewSocket, cs);
             s.live && s.state == Connected && !s.faulted && Session(status, s.input + chunk).ending != CutDependent
    ensures var s := Run(status, NewSocket, cs);
            Faults(status, s, BevRead(chunk)) <==> RefusedWithHeader(status, s.input + chunk)
  {
    hide Reading, Run, Session, RefusedWithHeader, ClosesOnOpening;
    var s := Run(status, NewSocket, cs);
    RunAwaits(status, cs);
    FeedFaultsIff(status, s, s.input, chunk);
    ApplyFaultsIff(status, s, BevRead(chunk));
  }
}
