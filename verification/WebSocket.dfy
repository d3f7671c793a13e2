/** The client as the program writes it: fields updated in loops, each callback tied to its value. */
module WebSocketClient {
  import opened Bytes
  import opened WsFrame
  import opened WsSocket
  import opened WsReference
  import opened WsRuns
  import opened WsSend
  import opened WsOctets

  /** One round of the loop of `onReading`, case by case. */
  lemma ReadingUnfolds(status: seq<byte> -> int, s: Socket)
    ensures s.state == Connected && ScanFrom(s.input, 0, 0) == None ==> Reading(status, s) == s
    ensures s.state == Connected && ScanFrom(s.input, 0, 0).Some? ==>
              var end := ScanFrom(s.input, 0, 0).value;
              var t := s.(input := s.input[end..], log := s.log + [Handshake(s.input[..end])]);
              Reading(status, s) ==
              if status(s.input[..end]) == 101
              then AskOutput(Reading(status, t.(state := Opened, trace := t.trace + [Open])))
              else Shut(t, BadStatus)
    ensures s.state == Opened ==>
              var t := Resume(s);
              Reading(status, s) ==
              if (Suspended(s) && t.bodyLength > 0) || |t.input| < 2 then t
              else if ReadFrame(t).Stop? then ReadFrame(t).s
              else Reading(status, ReadFrame(t).s)
    ensures s.state != Connected && s.state != Opened ==> Reading(status, s) == s
  {
    hide ScanFrom;
  }

  lemma NothingMasked(data: seq<byte>, key: seq<byte>)
    requires |key| == 4
    ensures MaskedData(data[..0], key) == []
  {
  }

  class WebSocket {
    var state: State
    var bev: bool
    var bodyType: Kind
    var bodyLength: int
    var body: seq<byte>
    var input: seq<byte>
    var output: seq<byte>
    var trace: seq<Event>
    ghost var received: seq<byte>
    ghost var log: seq<Segment>
    ghost var faulted: bool
    const status: seq<byte> -> int

    ghost function Snapshot(): Socket
      reads this
    {
      Socket(state, bev, bodyType, bodyLength, body, input, output, trace, received, log, faulted)
    }

    constructor (status: seq<byte> -> int)
      ensures Snapshot() == NewSocket.(live := false) && this.status == status
    {
      this.status := status;
      state, bev, bodyType, bodyLength, body := Fresh, false, NoKind, 0, [];
      input, output, trace, received, log, faulted := [], [], [], [], [], false;
    }

    /** `open` makes the bufferevent; the socket is then the one that every run starts from. */
    method Open()
      requires Snapshot() == NewSocket.(live := false)
      modifies `bev
      ensures Snapshot() == NewSocket
    {
      bev := true;
    }

    method Close()
      modifies this
      ensures Snapshot() == Free(old(Snapshot()))
    {
      bev, input, output := false, [], [];
    }

    method OnClose(reason: Reason)
      modifies this
      ensures Snapshot() == Shut(old(Snapshot()), reason)
    {
      if state != Closed {
        state := Closed;
        trace := trace + [WsSocket.Close(reason)];
        Close();
      }
    }

    /** The resolver's answer, which may come after the script has closed the connection. */
    method OnResolve()
      requires !faulted
      modifies this
      ensures Snapshot() == Apply(status, old(Snapshot()), DnsResolved)
    {
      if state == Fresh {
        state := Resolving;
        Connect();
      }
    }

    /** `bufferevent_socket_connect`, given the bufferevent as it is. */
    method Connect()
      modifies `faulted
      ensures faulted == (old(faulted) || !bev)
    {
      if !bev {
        faulted := true;
      }
    }

    method OnConnected()
      requires bev && !faulted
      modifies this
      ensures Snapshot() == Apply(status, old(Snapshot()), BevConnected)
    {
      if state == Resolving {
        state := Connected;
      }
    }

    /** The script is shown a message, and nothing for a ping. */
    method OnData(kind: Kind, data: seq<byte>)
      modifies `trace
      ensures trace == old(trace) + [Data(kind, data)]
      ensures Shown(trace) == Shown(old(trace)) + if kind == Ping then [] else [Data(kind, data)]
    {
      trace := trace + [Data(kind, data)];
      assert trace[..|trace| - 1] == old(trace);
    }

    /** The end of the response header in the input, if it is there. */
    method FindHeaderEnd() returns (n: nat, p: nat)
      ensures p <= |input|
      ensures n == 2 <==> ScanFrom(input, 0, 0).Some?
      ensures n == 2 ==> ScanFrom(input, 0, 0) == Some(p)
    {
      p, n := 0, 0;
      while p != |input|
        invariant p <= |input| && n < 2
        invariant ScanFrom(input, p, n) == ScanFrom(input, 0, 0)
      {
        if input[p] == 13 {
        } else if input[p] == 10 {
          n := n + 1;
          if n == 2 {
            p := p + 1;
            break;
          }
        } else {
          n := 0;
        }
        p := p + 1;
      }
    }

    /** After reading on, the bufferevent is asked for its output, without a test. */
    method OnOpen()
      requires state == Connected
      modifies this
      ensures Snapshot() == AskOutput(Reading(status, old(Snapshot()).(state := Opened, trace := old(trace) + [Event.Open])))
      decreases 2, 0, 0
    {
      state := Opened;
      trace := trace + [Event.Open];
      OnReading();
      if !bev {
        faulted := true;
      }
    }

    method OnReading()
      modifies this
      ensures Snapshot() == Reading(status, old(Snapshot()))
      decreases if state == Connected then 2 else 1, 1, |input|
    {
      hide Reading, ReadFrame, ScanFrom, Resume, Suspended;
      ghost var s0 := Snapshot();
      while true
        invariant state == s0.state && (state == Connected ==> Snapshot() == s0)
        invariant Reading(status, Snapshot()) == Reading(status, s0)
        decreases |input|
      {
        ReadingUnfolds(status, Snapshot());
        if state == Connected {
          var n, p := FindHeaderEnd();
          if n == 2 {
            var code := status(input[..p]);
            log := log + [Handshake(input[..p])];
            input := input[p..];
            if code == 101 {
              OnOpen();
              return;
            } else {
              OnClose(BadStatus);
              return;
            }
          }
        } else if state == Opened {
          var suspended := FinishBody();
          if suspended {
            return;
          }
          if |input| >= 2 {
            var stop := ReadOneFrame();
            if stop {
              return;
            }
            continue;
          }
        }
        break;
      }
    }

    /** The body collected goes to `OnData`. */
    method HandOver()
      modifies this
      ensures Snapshot() == Deliver(old(Snapshot()))
      ensures state == old(state) && input == old(input) && bodyLength == 0
    {
      hide Shown;
      OnData(bodyType, body);
      body, bodyType, bodyLength := [], NoKind, 0;
    }

    /** The head of the loop: a body begun in an earlier read is completed, or waits for more. */
    method FinishBody() returns (suspended: bool)
      requires state == Opened
      modifies this
      ensures var s := old(Snapshot());
              Snapshot() == Resume(s) && suspended == (Suspended(s) && bodyLength > 0)
      ensures state == Opened && |input| <= |old(input)|
    {
      hide Deliver;
      ghost var s := Snapshot();
      suspended := false;
      if bodyType != NoKind && bodyLength > 0 && |input| > 0 {
        var v := bodyLength - |body|;
        if v > 0 && |input| >= v {
          body := body + input[..v];
          log := log + [Payload(input[..v])];
          input := input[v..];
        }
        ghost var t := Snapshot();
        assert Resume(s) == if |t.body| == t.bodyLength then Deliver(t) else t;
        hide Resume;
        if |body| == bodyLength {
          HandOver();
        } else {
          suspended := true;
        }
      }
    }

    /** The tests that close the connection on the first two bytes of a frame. */
    method CheckHeader() returns (closed: bool)
      requires state == Opened && |input| >= 2
      modifies this
      ensures var refusal := old(Refusal(input[0], input[1]));
              closed == refusal.Some? &&
              Snapshot() == if closed then Shut(old(Snapshot()), refusal.value) else old(Snapshot())
      ensures var b0, b1 := old(input[0]), old(input[1]);
              !closed <==>
              b0 % 16 == 10 || (b1 < 128 && b0 / 16 % 8 == 0 && (b0 % 16 <= 2 || (b0 == 137 && b1 <= 125)))
    {
      RefusalInNumbers(input[0], input[1]);
      var isFin, receivedOpcode := input[0] / 128 == 1, input[0] % 16;
      var isMasked, payloadLen := input[1] / 128 == 1, input[1] % 128;
      closed := true;
      if (isMasked || input[0] / 16 % 8 != 0) && receivedOpcode != OP_PONG {
        OnClose(Unsupported);
        Close();
        return;
      }
      var isControlFrame := receivedOpcode == OP_CLOSE || receivedOpcode == OP_PING;
      if !isControlFrame && receivedOpcode != OP_BINARY && receivedOpcode != OP_CONTINUE
         && receivedOpcode != OP_TEXT && receivedOpcode != OP_PONG {
        OnClose(Unsupported);
        Close();
        return;
      }
      if isControlFrame && !isFin {
        OnClose(Unsupported);
        Close();
        return;
      }
      if receivedOpcode == OP_CLOSE {
        OnClose(PeerClosed);
        Close();
        return;
      }
      if isControlFrame && payloadLen > 125 {
        OnClose(Unsupported);
        Close();
        return;
      }
      closed := false;
    }

    /** Where the payload starts and, if that has arrived, how long it is. */
    method ReadLength() returns (offset: nat, dataLength: nat)
      requires |input| >= 2
      ensures offset == HeaderSize(input[1])
      ensures HasHeader(input) ==> dataLength == DeclaredLength(input)
    {
      hide FromBigEndian;
      dataLength, offset := input[1] % 128, 2;
      if dataLength == 127 {
        offset := offset + 8;
      } else if dataLength == 126 {
        offset := offset + 2;
      }
      if offset > 2 && offset <= |input| {
        dataLength := FromBigEndian(input[2..offset]);
      }
    }

    /** The body of the loop from the test for two input bytes on; `stop` where the source returns. */
    method ReadOneFrame() returns (stop: bool)
      requires state == Opened && |input| >= 2
      modifies this
      ensures var p := ReadFrame(old(Snapshot())); Snapshot() == p.s && stop == p.Stop?
    {
      hide ReadFrame, Refusal, HeaderSize, DeclaredLength, WsSocket.Accept, Shut, KindOf;
      ghost var s := Snapshot();
      NoFrame(s);
      var isFin, receivedOpcode := input[0] / 128 == 1, input[0] % 16;
      var closed := CheckHeader();
      if closed {
        return true;
      }
      var offset, dataLength := ReadLength();
      if |input| < offset {
        return true;
      }
      OneFrame(s);
      var len := dataLength;
      if dataLength > |input| - offset {
        len := |input| - offset;
      }
      if receivedOpcode == OP_PONG {
        log := log + [Head(input[..offset]), Skipped(input[offset..offset + len])];
        input := input[offset + len..];
        return false;
      }
      SetType(receivedOpcode);
      Accept(isFin, offset, dataLength, len);
      return false;
    }

    /** The type of what is received; a continuation keeps it. */
    method SetType(receivedOpcode: nat)
      modifies `bodyType
      ensures bodyType == KindOf(receivedOpcode, old(bodyType))
    {
      if receivedOpcode == OP_TEXT {
        bodyType := Text;
      } else if receivedOpcode == OP_BINARY {
        bodyType := Binary;
      } else if receivedOpcode == OP_PING {
        bodyType := Ping;
      }
    }

    /** Move a header and `len` bytes of payload out of the input; deliver a final frame that is whole. */
    method Accept(isFin: bool, offset: nat, dataLength: nat, len: nat)
      requires offset + len <= |input|
      modifies this
      ensures Snapshot() == WsSocket.Accept(old(Snapshot()), isFin, offset, dataLength, len)
    {
      hide ToInt64, Deliver;
      log := log + [Head(input[..offset]), Payload(input[offset..offset + len])];
      body := body + input[offset..offset + len];
      input := input[offset + len..];
      if isFin && |body| == dataLength {
        HandOver();
      } else {
        bodyLength := ToInt64(dataLength);
      }
    }

    /** libevent's read callback. */
    method Read(chunk: seq<byte>)
      requires bev && !faulted
      modifies this
      ensures Snapshot() == Apply(status, old(Snapshot()), BevRead(chunk))
    {
      input := input + chunk;
      received := received + chunk;
      OnReading();
    }

    /** The frame buffer of a send: header and key, and where the key starts. */
    static method BuildFrame(n: nat, kind: Kind, key: seq<byte>) returns (frame: array<byte>, offset: nat)
      requires n < 0x8000_0000 && |key| == 4
      ensures fresh(frame) && offset <= 10 && frame.Length == 32
      ensures frame[..offset] == WireHeader(OpcodeOf(kind), true, MinimalForm(n), n)
      ensures frame[offset..offset + 4] == key
    {
      hide ToBigEndian;
      frame := new byte[32](_ => 0);
      frame[0] := 128 + OpcodeOf(kind);
      offset := 2;
      if n < 126 {
        frame[1] := n;
      } else if n <= 0xFFFF {
        frame[1] := 126;
        PutBigEndian(frame, 2, n, 2);
        offset := offset + 2;
      } else {
        frame[1] := 127;
        PutBigEndian(frame, 2, n, 8);
        offset := offset + 8;
      }
      frame[1] := frame[1] + 128;
      assert frame[..offset] == WireHeader(OpcodeOf(kind), true, MinimalForm(n), n);
      hide WireHeader;
      PutKey(frame, offset, key);
    }

    /** The masking key, byte by byte, at `at`. */
    static method PutKey(frame: array<byte>, at: nat, key: seq<byte>)
      requires |key| == 4 && at + 4 <= frame.Length
      modifies frame
      ensures frame[..at] == old(frame[..at]) && frame[at..at + 4] == key
    {
      var i := 0;
      while i < 4
        invariant i <= 4 && frame[..at] == old(frame[..at]) && frame[at..at + i] == key[..i]
      {
        frame[at + i] := key[i];
        i := i + 1;
      }
    }

    /** `send` for a masking key drawn at random. */
    method Send(data: seq<byte>, kind: Kind, key: seq<byte>)
      requires |data| < 0x8000_0000 && |key| == 4
      modifies `output
      ensures output == old(output) + if bev && kind != NoKind then Masking(Sent(kind, data, key)) else []
      ensures bev && kind != NoKind ==> IsFrameOf(output[|old(output)|..], kind, data, key)
    {
      hide WireHeader, Xor, MaskedData, IsFrameOf;
      if !bev {
        return;
      }
      if kind == NoKind {
        return;
      }
      var n := |data|;
      var frame, offset := BuildFrame(n, kind, key);
      output := output + frame[..offset + 4];
      assert frame[..offset + 4] == frame[..offset] + frame[offset..offset + 4];
      AppendMasked(data, frame, offset, key);
      SentInNumbers(Sent(kind, data, key));
    }

    /** The payload, each byte masked with the key in the frame buffer. */
    method AppendMasked(data: seq<byte>, frame: array<byte>, offset: nat, ghost key: seq<byte>)
      requires |key| == 4 && offset + 4 <= frame.Length && frame[offset..offset + 4] == key
      modifies `output
      ensures output == old(output) + MaskedData(data, key)
    {
      hide Xor, MaskedData;
      ghost var before := output;
      NothingMasked(data, key);
      var i := 0;
      while i < |data|
        invariant i <= |data| && output == before + MaskedData(data[..i], key)
      {
        var u := Xor(data[i], frame[offset + i % 4]);
        assert frame[offset + i % 4] == frame[offset..offset + 4][i % 4];
        MaskedOne(data, key, i);
        output := output + [u];
        i := i + 1;
      }
      assert data[..i] == data;
    }

    /** `htons` and `htonll`: the low `k` bytes of `n`, most significant first, at `at`. */
    static method PutBigEndian(frame: array<byte>, at: nat, n: nat, k: nat)
      requires at + k <= frame.Length
      modifies frame
      ensures frame[..] == old(frame[..at]) + ToBigEndian(n, k) + old(frame[at + k..])
      decreases k
    {
      if k > 0 {
        frame[at + k - 1] := n % 256;
        assert frame[..at] == old(frame[..at]);
        assert frame[at + k - 1..] == [n % 256] + old(frame[at + k..]);
        PutBigEndian(frame, at, n / 256, k - 1);
      }
    }
  }
}
