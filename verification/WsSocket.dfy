/**
 The client connection as a value: what one callback does to it.
 `Reading` follows the decoder's loop pass by pass.
 */
module WsSocket {
  import opened Bytes
  import opened WsFrame

  datatype State = Fresh | Resolving | Connected | Opened | Closed

  /** A call of `onOpen`, `onData` or `onClose`. */
  datatype Event = Open | Data(kind: Kind, payload: seq<byte>) | Close(reason: Reason)

  /** How the decoder used a run of input bytes. */
  datatype Segment =
    | Handshake(bytes: seq<byte>)
    | Head(bytes: seq<byte>)
    | Payload(bytes: seq<byte>)
    | Skipped(bytes: seq<byte>)

  /**
   `live` says that the bufferevent has not been freed; `trace`, `received` and `log`
   record the run. The client has `faulted` when it has used a freed bufferevent.
   */
  datatype Socket = Socket(
    state: State, live: bool,
    kind: Kind, bodyLength: int, body: seq<byte>,
    input: seq<byte>, output: seq<byte>, trace: seq<Event>,
    received: seq<byte>, log: seq<Segment>, faulted: bool)

  /** The socket as `open` leaves it. */
  const NewSocket := Socket(Fresh, true, NoKind, 0, [], [], [], [], [], [], false)

  /** What the script is shown of the calls: nothing for a ping. */
  function Shown(trace: seq<Event>): seq<Event> {
    if trace == [] then []
    else Shown(trace[..|trace| - 1]) + ShownOf(trace[|trace| - 1])
  }

  function ShownOf(e: Event): seq<Event> {
    if e.Data? && e.kind == Ping then [] else [e]
  }

  /** Two's-complement reading of a 64-bit word. */
  function ToInt64(n: nat): int
  {
    var m := n % 0x1_0000_0000_0000_0000;
    if m < 0x8000_0000_0000_0000 then m else m - 0x1_0000_0000_0000_0000
  }

  function Min(a: nat, b: nat): nat { if a < b then a else b }

  /** `close()`: the bufferevent goes, and its buffers with it. */
  function Free(s: Socket): Socket {
    s.(live := false, input := [], output := [])
  }

  /** `onClose`: at most once. */
  function Shut(s: Socket, reason: Reason): Socket {
    if s.state == Closed then s
    else Free(s.(state := Closed, trace := s.trace + [Close(reason)]))
  }

  /** The end of the first empty line at or after `i`, carriage returns ignored; `n` line feeds seen in a row. */
  function ScanFrom(x: seq<byte>, i: nat, n: nat): (end: Option<nat>)
    requires i <= |x|
    ensures end.Some? ==> i < end.value <= |x|
    decreases |x| - i
  {
    if i == |x| then None
    else if x[i] == 13 then ScanFrom(x, i + 1, n)
    else if x[i] == 10 then (if n == 1 then Some(i + 1) else ScanFrom(x, i + 1, n + 1))
    else ScanFrom(x, i + 1, 0)
  }

  /** Hand the collected body over. */
  function Deliver(s: Socket): Socket {
    s.(trace := s.trace + [Data(s.kind, s.body)], body := [], kind := NoKind, bodyLength := 0)
  }

  /** The part of the decoder that finishes a body begun in an earlier read. */
  function Resume(s: Socket): Socket
  {
    if s.kind != NoKind && s.bodyLength > 0 && |s.input| > 0 then
      var v := s.bodyLength - |s.body|;
      var s' := if v > 0 && |s.input| >= v
                then s.(body := s.body + s.input[..v], input := s.input[v..], log := s.log + [Payload(s.input[..v])])
                else s;
      if |s'.body| == s'.bodyLength then Deliver(s') else s'
    else s
  }

  /** The decoder leaves a body unfinished and returns. */
  predicate Suspended(s: Socket) {
    s.kind != NoKind && s.bodyLength > 0 && |s.input| > 0
  }

  datatype Pass = Stop(s: Socket) | Go(s: Socket)

  /** A header of `size` bytes and `len` bytes of payload leave the input; a final frame that is whole is delivered. */
  function Accept(s: Socket, fin: bool, size: nat, declared: nat, len: nat): Socket
    requires size + len <= |s.input|
  {
    var x := s.input;
    var s' := s.(body := s.body + x[size..size + len], input := x[size + len..],
                 log := s.log + [Head(x[..size]), Payload(x[size..size + len])]);
    if fin && |s'.body| == declared then Deliver(s') else s'.(bodyLength := ToInt64(declared))
  }

  /** The part of the decoder that reads one frame header and what is there of its payload. */
  function ReadFrame(s: Socket): (p: Pass)
    ensures p.s.state != Closed && s.state != Closed ==> p.s.state == s.state
    ensures p.Go? ==> |p.s.input| < |s.input| && p.s.state == s.state
  {
    var x := s.input;
    if |x| < 2 then Stop(s)
    else match Refusal(x[0], x[1])
      case Some(reason) => Stop(Shut(s, reason))
      case None =>
        if !HasHeader(x) then Stop(s)
        else
          var size := HeaderSize(x[1]);
          var declared := DeclaredLength(x);
          var len := Min(declared, |x| - size);
          if Opcode(x[0]) == OP_PONG then
            Go(s.(input := x[size + len..], log := s.log + [Head(x[..size]), Skipped(x[size..size + len])]))
          else Go(Accept(s.(kind := KindOf(Opcode(x[0]), s.kind)), Fin(x[0]), size, declared, len))
  }

  function Rank(state: State): nat {
    match state
    case Fresh => 0
    case Resolving => 1
    case Connected => 2
    case Opened => 3
    case Closed => 4
  }

  /** The end of `onOpen`: the bufferevent is asked for its output, freed or not. */
  function AskOutput(s: Socket): Socket {
    if s.live then s else s.(faulted := true)
  }

  /** `onReading`. `status` gives the code of a response header. */
  function Reading(status: seq<byte> -> int, s: Socket): Socket
    decreases 4 - Rank(s.state), |s.input|
  {
    if s.state == Connected then
      match ScanFrom(s.input, 0, 0)
      case None => s
      case Some(end) =>
        var s' := s.(input := s.input[end..], log := s.log + [Handshake(s.input[..end])]);
        if status(s.input[..end]) == 101
        then AskOutput(Reading(status, s'.(state := Opened, trace := s'.trace + [Open])))
        else Shut(s', BadStatus)
    else if s.state == Opened then
      var s' := Resume(s);
      if Suspended(s) && s'.bodyLength > 0 then s'
      else match ReadFrame(s')
        case Stop(t) => t
        case Go(t) => Reading(status, t)
    else s
  }
}
