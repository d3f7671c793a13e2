# Verified model of the kk runtime's state machines and codecs

This project models the stateful cores of the kk C++ runtime and proves what
they are for. `dafny verify dfyconfig.toml` checks all of it.

| part | files | what it is |
|---|---|---|
| WebSocket client | `Ws*.dfy`, `WebSocket.dfy` | the incremental frame decoder, the masking encoder and the connection states of `src/kk-ws.cc`, against RFC 6455 |
| MD5 | `Md5*.dfy` | the buffered incremental hash of `lib/md5/md5.c`, against RFC 1321 |
| Ownership | `Ownership*.dfy` | retain counts, strong and weak handles, autorelease scopes and the cascade of destruction of `src/kk-object.cc`, on one thread |
| Deferred delete | `DeleteProtocol.dfy`, `DeleteRuns.dfy` | the same counts and the drain queue under two mutexes, for any threads in any interleaving |
| Dispatch queue | `Dispatch*.dfy` | producers, the runner, `sync` and `join` of `src/kk-dispatch.cc` and `src/kk-chan.cc`, step by step and as the runner's own loop |
| Serialiser | `Binary*.dfy` | script values as a tagged linked list and back, `src/kk-binary.cc` |
| Event index | `EventIndex.dfy`, `EventRuns.dfy`, `EventEmitter.dfy` | callbacks, the index of their names, and what `off` reads from callbacks already freed while emits begin and end, `src/kk-event.cc` |
| Weak maps | `WeakMap.dfy` | maps and the objects that know who holds them, found through prototypes, `src/kk-script.cc` |
| Smaller cores | `Strings.dfy`, `Timer.dfy`, `Bio.dfy` | split and join, timers, signed integers as bytes |

How it is built. Event buffers are byte sequences with append and drain;
mutexes and condition variables are guards on the steps of threads; script
objects are abstract identities. Code that updates fields is a class whose
methods are proved against functions on a snapshot of the fields; the theorems
are about those functions and about every run of them. Names used below:
`Decode` reads a whole stream at once and is written from the standard, with
no state; `Gone` and `LeastGone` say which objects a release destroys; `Flat`
and `Decode` of `BinarySpec` are the two directions of the serialiser.

What the definitions themselves come to is stated apart from them, in numbers or
by example: the octets of frames (`WsOctets`), two digests of the test suite of
RFC 1321 and the truth tables and rotations behind them (`Md5Vectors`,
`Md5Facts`), counts and lives of objects (`OwnershipEffects`, `DeleteRuns`), what
the calls on a queue make of its jobs (`DispatchCalls`), and lemmas named
`...InWords`, `...InNumbers` and `...ThenGet` elsewhere.

Where the code and its purpose part, the code is kept and the difference is
proved exactly:

- A frame header can be cut anywhere only if it is no *hazard*: a pong with a
  payload, a frame that is not final with a payload, a continuation with no
  message begun, or a length of 2^63 and more (`WsCuts.CutSafeIffNoHazard`).
  RFC 6455 asks that none of these depend on how the bytes arrive. Any stream
  with a hazard has, up to its first hazardous header, a continuation that
  tells (`WsCuts.StreamTells`); the stream itself need not
  (`WsCuts.HazardHidden`).
- `onOpen` goes on to use the transport after reading. A stream without hazard
  can be cut so that the client faults there if and only if something it
  refuses follows a 101 header, and then only by a read that holds both
  (`WsFaults.SomeCutFaultsIff`). In a run the only other fault is an answer of
  the resolver after the script has closed (`WsFaults.RunFaultsIff`,
  `WsFaults.AnswerAfterClose`).
- A value survives the serialiser in front of other values exactly when no
  array or object in it has an array or object as its last child, because the
  encoder links the end marker to the head of the last child
  (`BinaryDamage.SurvivesIffLastAtomic`). At the end of a message an object
  may besides end in an empty array or object
  (`BinaryDamage.SurvivesAtEndIff`); so it is decided exactly which messages
  arrive (`BinaryDamage.MessageArrivesIff`).
- Assigning a strong handle writes to a freed handle exactly when the object
  that the handle belongs to is among those the assignment leaves unkept
  (`Ownership.HandleSurvivesIff`, `Ownership.SelfReferenceExample`).
- `has` of an event name can stay true with nothing registered, exactly for
  names that were registered while a callback of that name was registered
  (`EventIndex.DisagreeOnlyOnDoubled`).
- `off` reads the name of a callback it has just freed, except for callbacks
  that a running `emit` holds (`EventRuns.NoFreedReadIffHeld`). A run, with
  emits beginning and ending in it, keeps the index right whatever freed
  memory holds if and only if no `off` in it takes off a callback not held at
  that moment (`EventRuns.UntouchedIffHeld`, `EventRuns.RightIffUntouched`);
  otherwise the index can lose another name (`EventRuns.FreedNameHidesAnother`).
- A weak map keeps track of a key exactly when the key is a live object that
  has a WeakObject of its own or no prototype with one. A key that inherits
  one is registered with its prototype's (`WeakMap.SetAgreesIffOwn`,
  `WeakMap.ChildKeyOutlives`), and a string is not registered at all
  (`WeakMap.StringKeyOutlives`).
- Splitting a joined list gives the list back exactly when its last item is
  not empty and no item contains or completes a delimiter
  (`Strings.SplitOfJoined`).
- A call of `sync` whose job is queued behind the job that ends the loop never
  returns, however the run goes on (`DispatchReturns.BehindBreakForEver`,
  `DispatchReturns.SyncBehindBreak`). Where no thread can step any more, the
  calls that have returned are exactly the others
  (`DispatchReturns.SyncReturnsIff`).

## Model

| member | source | states |
|---|---|---|
| WsFrame.HeaderReadsBack | src/kk-ws.cc:304-356 | the opcode, final bit, mask bit, size and length read from a header in any of the three length forms are those it was written with |
| WsOctets.RefusalInNumbers | src/kk-ws.cc:306-342 | which first two octets are read on from and which close with the peer's close, for all 65536 pairs |
| WsOctets.LengthInNumbers | src/kk-ws.cc:344-356 | the seven-bit, 16-bit and 64-bit length, highest octet first |
| WsOctets.ShortMessage | src/kk-ws.cc:304-397 | octets 129, 130 and 137, a length below 126 and a payload are delivered as that text, binary or ping |
| WsOctets.MediumMessage | src/kk-ws.cc:304-397 | with 126 and two octets of length likewise |
| WsOctets.LongMessage | src/kk-ws.cc:304-397 | with 127 and eight octets of length likewise |
| WsOctets.ContinuedMessage | src/kk-ws.cc:364-397 | an empty first frame names the kind of its continuation; an empty pong changes nothing |
| WsOctets.LengthKept | src/kk-ws.cc:396-396 | a length is kept as the signed 64-bit number with the same bits |
| WsSocket.ReadFrame | src/kk-ws.cc:304-400 | a pass that continues strictly shortens the input and stays in the same state, so the loop ends |
| WsReference.ReadFromBoundary | src/kk-ws.cc:276-403 | from a frame boundary the loop delivers the events of the whole input and holds its undecoded tail, as the one-pass reference decoder says |
| WsReference.FinishBody | src/kk-ws.cc:282-302 | a body under way resumes where the previous read stopped, or keeps waiting, without losing or reordering a byte |
| WsReference.FeedOpened | src/kk-ws.cc:227-408 | one more read takes the client from the decoding of the stream so far to the decoding of the longer stream |
| WsReference.DecodeAppend | src/kk-ws.cc:276-403 | the reference decoding of a stream is that of a prefix continued from its unfinished tail |
| WsReference.FeedAllOpened | src/kk-ws.cc:276-403 | once opened, any cutting of a stream with no hazard gives the events of the whole stream and holds its tail |
| WsHandshake.ScanIsFirstEmptyLine | src/kk-ws.cc:231-253 | the handshake scan stops just after the first empty line and nowhere else |
| WsHandshake.ChunkingIndependence | src/kk-ws.cc:227-408 | for every cutting of handshake and frames into reads the callbacks are handed the events of the uncut stream, and input plus body is its undecoded tail; the client then faults exactly when the read that completes a 101 header brings what it refuses |
| WsHandshake.SessionAppend | src/kk-ws.cc:227-408 | what a session has decoded is not changed by bytes that come later |
| WsHandshake.ReadFaultsIff | src/kk-ws.cc:442-446 | for any bytes, a read faults if and only if it completes a 101 header and reading on closes the connection |
| WsHandshake.FeedFaultsIff | src/kk-ws.cc:442-446 | without hazards, that is if and only if what follows the header in the bytes arrived decodes to a refusal |
| WsFaults.SomeCutFaultsIff | src/kk-ws.cc:227-446 | some cutting of a stream faults if and only if the stream is refused after a 101 header; a read of the header alone is safe |
| WsFaults.CloseWithHeader | src/kk-ws.cc:442-446 | a header and a close frame fault in one read and not in two, with the same events |
| WsFrames.DecodeStream | src/kk-ws.cc:304-397 | a stream of well-formed frames decodes to exactly their kinds and payloads in order |
| WsFrames.MessagesSurviveChunking | src/kk-ws.cc:227-408 | a 101 response, valid frames in any length form and part of another: however cut, `onOpen` and `onData` are handed exactly those messages, the script is shown all but the pings, the part is still held, and nothing faults |
| WsFrames.ScriptSeesMessages | src/kk-ws.cc:172-176 | of a stream of messages the script is shown those that are no pings, in order |
| WsCuts.AllCutsAgree | src/kk-ws.cc:276-403 | two cuttings of the same stream leave the same state, events and bytes held |
| WsCuts.HazardTells | src/kk-ws.cc:364-397 | for every hazardous header there are bytes after which cutting at the header's end changes what happens |
| WsCuts.CutSafeIffNoHazard | src/kk-ws.cc:276-403 | a header can be cut at every place with the same outcome if and only if it is none of the four hazards |
| WsCuts.StreamTells | src/kk-ws.cc:276-403 | every stream with a hazard has, up to its first hazardous header, a continuation for which a cut there makes a difference |
| WsCuts.HazardHidden | src/kk-ws.cc:304-367 | a pong whose payload hides two refused frames: whatever follows, a cut anywhere makes no difference |
| WsRuns.ReadingShape | src/kk-ws.cc:227-408 | a read keeps the shape (Open Data*)? Close? of what the callbacks have been handed, for arbitrary bytes |
| WsRuns.ConnectionSafety | src/kk-ws.cc:119-170 | over every run of callbacks the state never goes back, Closed is final and silent, `onOpen`, `onData` and `onClose` are called as (Open Data*)? Close?, and nothing follows a fault |
| WsRuns.ReadingConserves | src/kk-ws.cc:227-408 | for arbitrary input every byte drained is a header, delivered, in the body, or skipped, in order |
| WsRuns.RunConserves | src/kk-ws.cc:227-408 | over every run bytes received are those drained and those still in the input, and payload drained is what was delivered and what the body holds, in order |
| WsRuns.RunRecorded | src/kk-ws.cc:227-408 | only one leading handshake, whole frame headers and pong payloads are ever kept from `onData` |
| WsRuns.FirstCallbacks | src/kk-ws.cc:129-164 | resolving and connecting in order, connecting alone does nothing, and each failure closes with its own reason |
| WsFaults.RunFaultsIff | src/kk-ws.cc:151-446 | a run of callbacks faults if and only if one of them connects a freed transport or opens and closes in one read |
| WsFaults.AnswerAfterClose | src/kk-ws.cc:151-157 | a close by the script before the resolver's answer faults |
| WsFaults.ReadInRunFaultsIff | src/kk-ws.cc:442-446 | in every run a read without hazards faults if and only if its bytes are refused after the header |
| WsFaults.RunAwaits | src/kk-ws.cc:98-164 | in every run a connection waiting for its header holds no body, as the stream theorems ask |
| WsSend.MaskedTwice | src/kk-ws.cc:579-582 | masking with the same key twice gives the payload back |
| WsSend.ReadSent | src/kk-ws.cc:528-585 | each frame sent has the shortest length form, at most 14 bytes before its payload, and reads back as opcode, key and payload |
| WsSend.ServerReadsWhatIsSent | src/kk-ws.cc:528-585 | a server written from sections 5.2 and 5.3 of RFC 6455 reads back exactly the messages sent, for any payloads and keys |
| WsOctets.XorInBits | src/kk-ws.cc:580-580 | a bit of the masked octet is set exactly when those of payload and key differ |
| WsOctets.XorIsXor | src/kk-ws.cc:580-580 | for all octets, the exclusive or of eight bits |
| WsOctets.SentInNumbers | src/kk-ws.cc:528-585 | the octets of a frame sent: 129, 130 or 137, 128 and the length or 254 or 255 and the length highest first, the key, and each octet of payload masked bit by bit |
| WebSocketClient.WebSocket.constructor | src/kk-ws.cc:98-102 | a new socket is in its first state with no transport and nothing read, held or seen |
| WebSocketClient.WebSocket.Open | src/kk-ws.cc:642-642 | with its transport made, the socket is the one from which every run starts |
| WebSocketClient.WebSocket.Close | src/kk-ws.cc:112-117 | the transport is freed once, and with it input and output |
| WebSocketClient.WebSocket.OnClose | src/kk-ws.cc:450-517 | closing is announced at most once and frees the transport |
| WebSocketClient.WebSocket.OnResolve | src/kk-ws.cc:151-157 | only a fresh socket starts to connect, and faults if its transport is already freed |
| WebSocketClient.WebSocket.Connect | src/kk-ws.cc:155-155 | connecting faults exactly without a transport |
| WebSocketClient.WebSocket.OnConnected | src/kk-ws.cc:159-164 | only a resolving socket becomes connected |
| WebSocketClient.WebSocket.OnData | src/kk-ws.cc:172-225 | the calls grow by this payload alone, and what the script is shown by it unless it is a ping |
| WebSocketClient.WebSocket.FindHeaderEnd | src/kk-ws.cc:235-253 | the byte loop finds what the specified scan finds |
| WebSocketClient.WebSocket.OnOpen | src/kk-ws.cc:410-448 | opening tells the script, decodes what came with the handshake, and faults exactly if that freed the transport |
| WebSocketClient.WebSocket.OnReading | src/kk-ws.cc:227-408 | the loop over fields and buffers refines the reading function, and ends |
| WebSocketClient.WebSocket.FinishBody | src/kk-ws.cc:282-302 | the head of the loop completes a body or leaves it as it was |
| WebSocketClient.WebSocket.HandOver | src/kk-ws.cc:391-394 | the body goes to `onData` once and is emptied with its type and length |
| WebSocketClient.WebSocket.CheckHeader | src/kk-ws.cc:306-342 | the chain of tests closes for exactly the refused first two bytes, with the first reason that applies; which those are, in numbers |
| WebSocketClient.WebSocket.ReadLength | src/kk-ws.cc:344-356 | the two length tests find where the payload starts and how long it is declared |
| WebSocketClient.WebSocket.ReadOneFrame | src/kk-ws.cc:304-400 | one pass over a header refines the frame step, and stops where that stops |
| WebSocketClient.WebSocket.Accept | src/kk-ws.cc:369-397 | payload moves from input to body, and a whole final frame to `onData` |
| WebSocketClient.WebSocket.Read | src/kk-ws.cc:119-122 | libevent's read callback is the read step of a run |
| WebSocketClient.WebSocket.BuildFrame | src/kk-ws.cc:534-571 | the frame buffer holds the standard's header for this payload and then the key |
| WebSocketClient.WebSocket.Send | src/kk-ws.cc:528-585 | the output grows by exactly the masked frame, octet for octet, and by nothing without a transport or a type |
| WebSocketClient.WebSocket.AppendMasked | src/kk-ws.cc:576-582 | the byte loop appends the masked payload |
| WebSocketClient.WebSocket.PutBigEndian | src/kk-ws.cc:559-566 | a length in network byte order is written in place and nothing else is touched |
| Md5Spec.OneStep | lib/md5/md5.c:203-205 | one `SET` is one step of section 3.4 of RFC 1321, with its register rotation |
| Md5Facts.FChooses | lib/md5/md5.c:202-202 | F takes the bit of y where x has a one and that of z elsewhere |
| Md5Facts.GChooses | lib/md5/md5.c:228-228 | G takes the bit of x where z has a one and that of y elsewhere |
| Md5Facts.HIsParity | lib/md5/md5.c:254-254 | H is the parity of the three bits |
| Md5Facts.IIsMixed | lib/md5/md5.c:280-280 | I is the difference of x and y where z has a one and not y elsewhere |
| Md5Facts.FInThreeOperations | lib/md5/md5.c:202-202 | F as z ^ (x & (y ^ z)) |
| Md5Facts.GInThreeOperations | lib/md5/md5.c:228-228 | G as y ^ (z & (x ^ y)) |
| Md5Facts.SetIs | lib/md5/md5.c:203-205 | a = b + ((a + f + x + t) <<< s), sum by sum |
| Md5Facts.RotateInNumbers | lib/md5/md5.c:197-197 | each rotation of the table, as numbers: times 2^n modulo 2^32 plus the quotient by 2^(32-n) |
| Md5Facts.InitialBytes | lib/md5/md5.c:315-319 | the initial registers are the bytes 01 23 .. ef fe dc .. 10 |
| Md5Facts.WordBytesAre | lib/md5/md5.c:379-380 | a word is written as its four bytes, the lowest first |
| Md5Facts.WordOfIs | lib/md5/md5.c:192-193 | four bytes are read as the word they stand for, the lowest first |
| Md5.Constants1 | lib/md5/md5.c:65-80 | the first sixteen masked literals are the constants of the table in section 3.4 of RFC 1321 |
| Md5.Constants2 | lib/md5/md5.c:81-96 | the next sixteen are too |
| Md5.Constants3 | lib/md5/md5.c:97-112 | the next sixteen are too |
| Md5.Constants4 | lib/md5/md5.c:113-128 | the last sixteen are too |
| Md5.Round1 | lib/md5/md5.c:199-223 | sixteen unrolled statements are steps 1 to 16 of the standard's loop |
| Md5.Round2 | lib/md5/md5.c:225-249 | steps 17 to 32 |
| Md5.Round3 | lib/md5/md5.c:251-275 | steps 33 to 48 |
| Md5.Round4 | lib/md5/md5.c:277-301 | steps 49 to 64 |
| Md5Stream.FoldInPieces | lib/md5/md5.c:351-353 | compressing whole blocks in two parts is compressing them all |
| Md5Stream.CountAppended | lib/md5/md5.c:333-337 | two 32-bit words with this carry hold eight times the length modulo 2^64 |
| Md5Stream.CountBytes | lib/md5/md5.c:372-374 | the bytes of the two counter words are the low-order bytes of the bit count modulo 2^64 |
| Md5Stream.PadFormula | lib/md5/md5.c:375-376 | the padding count from the low word alone is the standard's, one to 64 bytes up to 56 modulo 64 |
| Md5Stream.PaddedIsWhole | lib/md5/md5.c:375-378 | padding and length end at a block boundary for every length |
| Md5Stream.Md5State.constructor | lib/md5/md5.c:312-320 | the initial state is that of the empty message |
| Md5Stream.Md5State.Process | lib/md5/md5.c:131-310 | the unrolled rounds add the compression of the block to the registers |
| Md5Stream.Md5State.LoadWords | lib/md5/md5.c:147-195 | the sixteen words are the block's bytes, low-order first |
| Md5Stream.Md5State.Append | lib/md5/md5.c:322-358 | after any append the registers are the fold of the whole blocks so far, the buffer the rest, the counter the length |
| Md5Stream.Md5State.TopUp | lib/md5/md5.c:340-349 | bytes that complete the partial block extend the fold by it, fewer leave the new remainder in the buffer |
| Md5Stream.Md5State.Finish | lib/md5/md5.c:360-381 | the digest is the standard's digest of everything appended |
| Md5Stream.Md5State.LengthBytes | lib/md5/md5.c:372-374 | the eight length bytes are the bit count, low-order first |
| Md5Stream.DigestOf | lib/md5/md5.c:312-381 | for every way to cut a message into appends the digest is the one-shot digest of sections 3.1 to 3.5 |
| Md5Vectors.DigestOfNothing | lib/md5/md5.c:312-381 | the digest of the empty message is d41d8cd98f00b204e9800998ecf8427e |
| Md5Vectors.DigestOfAlphanumeric | lib/md5/md5.c:312-381 | the digest of the 62 letters and digits, over two blocks with all words different, is d174ab98d277d9f5a5611c2c9f419d9f |
| BinaryRoundTrip.RoundTrip | src/kk-binary.cc:91-176 | a value with atoms last everywhere is read back from its cells, up to null, leaving the rest of the list |
| BinarySpec.KnownIsPlain | src/kk-binary.cc:91-176 | a value with nothing unknown in it is seen as it is |
| BinarySpec.UnknownIsUndefined | src/kk-binary.cc:21-53 | null and what the encoder has no case for is seen as undefined |
| BinarySpec.PlainOneByOne | src/kk-binary.cc:133-168 | children are seen one by one, in order |
| BinarySpec.PutIsFound | src/kk-binary.cc:133-151 | a property put is found, the others are as before, and an equal key is not repeated |
| BinaryDamage.FlatNet | src/kk-binary.cc:54-86 | a flattened value never closes more composites than it has opened, and closes all if and only if no composite is last in one |
| BinaryDamage.ReadBalance | src/kk-binary.cc:91-176 | what is read from a list that does not run out closes at least as many composites as it opens |
| BinaryDamage.SurvivesIffLastAtomic | src/kk-binary.cc:68-85 | a value is read back before any following list if and only if no array or object has one as its last child |
| BinaryDamage.LastChildDamaged | src/kk-binary.cc:68 | a concrete array in an array loses its contents |
| BinaryDamage.EmptyLastValueAtTheEnd | src/kk-binary.cc:147-150 | an empty array as an object's last value is still read back at the very end of a message |
| BinaryDamage.SurvivesAtEndIff | src/kk-binary.cc:133-168 | the last value of a message is read back if and only if it would be anywhere, or is an object whose last value alone is an empty array or object |
| BinaryDamage.MessageArrivesIff | src/kk-wk.cc:168-181 | a message of any values is read back value by value, exactly as many as were sent, if and only if all but the last survive anywhere and the last survives at the end |
| BinaryList.BinaryAdd | src/kk-binary.cc:205-213 | the walk finds the last node of the list and links there, and only there |
| BinaryList.BinaryAlloc | src/kk-binary.cc:21-89 | the linked nodes are the flattened value, including the cut-off last child |
| BinaryList.AddItems | src/kk-binary.cc:54-68 | an array's loop builds its head, its children and the end marker linked to the last child's head |
| BinaryList.AddEntries | src/kk-binary.cc:69-86 | an object's loop does the same for keys and values in turn |
| BinaryList.BinaryPushContext | src/kk-binary.cc:91-176 | the recursive reader pushes the value decoded from the list and returns the node where the rest begins |
| BinaryList.PushArray | src/kk-binary.cc:153-168 | the loop pushes elements up to the end marker, and faults where the list is missing |
| BinaryList.PushObject | src/kk-binary.cc:133-151 | the loop puts pairs up to the end marker or the end of the list |
| BinaryMessage.Post | src/kk-wk.cc:168-181 | all arguments are joined to one list of all their cells |
| BinaryMessage.Receive | src/kk-wk.cc:133-148 | the receiving loop pushes what the whole list decodes to |
| BinaryMessage.Deliver | src/kk-wk.cc:133-181 | posting and receiving leaves exactly the values posted on the receiver's stack, as the other side sees them and unchanged if all are known, if and only if the message is one that arrives |
| OwnershipLaws.DropKeeps | src/kk-object.cc:146-151 | a release that leaves a reference destroys nothing and keeps every count equal to its references |
| OwnershipLaws.BeginKeeps | src/kk-object.cc:152-158 | when the last reference goes nothing else refers to the object |
| OwnershipLaws.EndKeeps | src/kk-object.cc:118-140 | nulling the known weak slots leaves none that holds the destroyed object |
| OwnershipLaws.GoneTwice | src/kk-object.cc:37-41 | what cascades destroy adds up, and stays unavoidable |
| OwnershipLaws.Destroyed | src/kk-object.cc:118-162 | a destructor with the releases of its members destroys one object and what they destroy, no more than must go |
| OwnershipOps.SettledIsAssigned | src/kk-object.cc:43-53 | retaining, releasing and only then assigning ends as if the slot had been assigned first |
| OwnershipOps.WatchingKeeps | src/kk-object.cc:88-98 | a weak handle and the objects it leaves and joins keep knowing of each other exactly |
| OwnershipOps.LeastDestroyed | src/kk-object.cc:146-162 | once quiet, the objects destroyed are the least set outside of which everything is kept by a survivor, a scope or a retain |
| OwnershipEffects.LastGoes | src/kk-object.cc:146-162 | an object whose references are all given up is destroyed |
| OwnershipEffects.OthersKeep | src/kk-object.cc:146-162 | where every object has a reference that is not given up, none is destroyed |
| OwnershipEffects.GivesUpOne | src/kk-object.cc:146-162 | one reference given up: the last destroys the object, another takes one from its count and changes no other |
| OwnershipEffects.ScopeClosed | src/kk-object.cc:210-230 | each entry of a closed scope gives up one reference, and an object held by nothing else goes |
| Ownership.HandleSurvivesIff | src/kk-object.cc:43-53 | after the release inside `set`, however it went, the handle is still there if and only if its owner is kept once the slot is assigned |
| Ownership.SelfReferenceIsDoomed | src/kk-object.cc:43-53 | an object kept by its own member alone is destroyed by setting that member to null, and the member with it |
| Ownership.SelfReferenceExample | src/kk-object.cc:43-53 | a concrete such heap |
| Ownership.Runtime.constructor | src/kk-object.cc:312-312 | a new runtime has no objects and nothing under way |
| Ownership.Runtime.Release | src/kk-object.cc:146-162 | any cascade ends, leaves the queue empty, keeps counts and weak handles right and destroys exactly an unavoidable set |
| Ownership.Runtime.Delete | src/kk-object.cc:265-288 | deleting what was popped destroys the object with what its members alone kept |
| Ownership.Runtime.DestroyStrongs | src/kk-object.cc:37-41 | the members of a dying object are released one by one, in any order, with the same outcome bound |
| Ownership.Runtime.DestroyMember | src/kk-object.cc:37-41 | one member more gone leaves only the others to release, and nothing outside the allowed set destroyed |
| Ownership.Runtime.DestroyStrong | src/kk-object.cc:37-41 | destroying a handle gives up exactly its reference |
| Ownership.Runtime.DestroyWeaks | src/kk-object.cc:82-86 | weak members are forgotten by what they watched |
| Ownership.Runtime.DestroyWeak | src/kk-object.cc:82-86 | destroying a weak handle takes it from the set of the object it held |
| Ownership.Runtime.EndObject | src/kk-object.cc:118-140 | the destructor nulls the slots it knows of, and these are all that hold it |
| Ownership.Runtime.NullWatchers | src/kk-object.cc:126-134 | the loop over the known slots nulls exactly those that held the object |
| Ownership.Runtime.Create | src/kk-object.cc:115-116 | a new object counts zero and is watched by none, and nothing else changes |
| Ownership.Runtime.Retain | src/kk-object.cc:164-173 | the count goes up by one and the retains by hand by one, nothing else changed |
| Ownership.Runtime.ReleaseByHand | src/kk-object.cc:146-162 | one retain by hand less: the last reference destroys the least set that nothing keeps any more, another destroys nothing and counts one less |
| Ownership.Runtime.SetStrong | src/kk-object.cc:43-53 | reassigning a handle that survives destroys the least set that nothing keeps after it; retains by hand and scopes stay, the new target counts one more and the old one less; the same target changes nothing |
| Ownership.Runtime.RetainThenRelease | src/kk-object.cc:43-50 | the new target survives the release of the old, even if only the old kept it |
| Ownership.Runtime.DropStrong | src/kk-object.cc:37-41 | destroying a free handle gives up its one reference, and destroys the least set that nothing keeps |
| Ownership.Runtime.NewStrong | src/kk-object.cc:25-27 | a new handle holds nothing |
| Ownership.Runtime.NewWeak | src/kk-object.cc:70-72 | a new weak handle holds nothing |
| Ownership.Runtime.SetWeak | src/kk-object.cc:88-98 | the handle moves, the new object knows of it and the old one no more, and no other object's handles change |
| Ownership.Runtime.DropWeak | src/kk-object.cc:82-86 | a free weak handle is forgotten by what it held |
| Ownership.Runtime.OpenScope | src/kk-object.cc:206-208 | a scope opens empty inside the current one |
| Ownership.Runtime.AddToScope | src/kk-object.cc:232-235 | the object goes last in the innermost scope and counts one more, nothing else changed |
| Ownership.Runtime.ReleaseOldest | src/kk-object.cc:220-224 | one entry taken out and released, the rest in order |
| Ownership.Runtime.CloseScope | src/kk-object.cc:210-230 | all entries are released oldest first, the outer scope is current again, and the least set that nothing keeps is destroyed; an object held by the scope alone is in it |
| Ownership.RetainedAndReleased | src/kk-object.cc:146-173 | a new object retained and released by hand is gone |
| Ownership.RetainedTwice | src/kk-object.cc:146-173 | retained twice and released once it is alive and counts one |
| Ownership.HeldAndDropped | src/kk-object.cc:25-53 | a new object put in a handle is gone when the handle is dropped |
| Ownership.ScopedAndClosed | src/kk-object.cc:206-235 | a new object added to a scope is gone when the scope closes |
| DeleteProtocol.CheckingStep | src/kk-object.cc:283-285 | an object popped from the queue is still at zero, whatever other threads do |
| DeleteProtocol.StepKeeps | src/kk-object.cc:261-294 | every step of every thread keeps locks, counts, places and history consistent |
| DeleteProtocol.RunsKeepInv | src/kk-object.cc:146-173 | so do all runs |
| DeleteProtocol.ExactlyOnce | src/kk-object.cc:146-294 | in every interleaving an object is queued and deleted at most once, after its last reference, by a thread holding neither mutex |
| DeleteProtocol.UnheldRetainQueuesAgain | src/kk-object.cc:146-173 | why retaining needs an object still held: one already queued would be queued again |
| DeleteProtocol.QuietIsClean | src/kk-object.cc:265-294 | with no thread inside, the queue is empty, all that was queued is deleted, and what is left at zero was never retained |
| DeleteProtocol.NoDeadlock | src/kk-object.cc:261-294 | while some thread is inside, some thread inside can step |
| DeleteRuns.RetainAddsOne | src/kk-object.cc:164-173 | a retain of what is held adds one to the count and one reference, and changes nothing else |
| DeleteRuns.FirstIsOne | src/kk-object.cc:164-173 | after the first retain of a new object the count is one and the thread holds the reference |
| DeleteRuns.ReleaseTakesOne | src/kk-object.cc:146-162 | a release takes one from the count and its reference away; the last, and only it, has the object queued |
| DeleteRuns.DeleteInherits | src/kk-object.cc:283-288 | a delete takes the object away and leaves its members' references to the deleting thread |
| DeleteRuns.RetainedReleasedDeleted | src/kk-object.cc:146-294 | a run in which an object is made, retained, released, queued and deleted, and all is quiet again |
| DispatchProtocol.InvKept | src/kk-dispatch.cc:51-137 | every step of callers and runner keeps locks, order, jobs and waiters consistent |
| DispatchProtocol.RunsKeepInv | src/kk-dispatch.cc:121-251 | so do all runs |
| DispatchProtocol.RunInOrder | src/kk-dispatch.cc:121-143 | jobs run in push order, each once, none after the first that breaks; when join has returned all up to it have run |
| DispatchProtocol.DeletedOnce | src/kk-chan.cc:30-79 | each job object is deleted once, after its run or unrun with the channel, and in the end all are |
| DispatchProtocol.SyncReturnsAfterRun | src/kk-dispatch.cc:248-251 | a call of sync that has returned had its function run |
| DispatchProtocol.AwaitedIsWaiting | src/kk-dispatch.cc:51-66 | while the runner holds a job's mutex its caller is inside the wait |
| DispatchProtocol.NoLostWakeup | src/kk-dispatch.cc:51-66 | the broadcast always finds the caller waiting and wakes it; who still waits has not been broadcast to |
| DispatchProtocol.StuckOnlyBehindBreak | src/kk-dispatch.cc:219-251 | if nothing can step the runner has left its loop and each caller inside waits for a job queued behind the break |
| DispatchReturns.SyncReturnsIff | src/kk-dispatch.cc:121-251 | where no thread can step, a call of sync has returned if and only if its job is not behind the first that breaks |
| DispatchReturns.BehindBreakForEver | src/kk-dispatch.cc:121-251 | a job pushed behind the break is not run and its sync has not returned in any continuation of any run |
| DispatchReturns.BehindBreakNotReturned | src/kk-dispatch.cc:121-251 | in every reachable world no call whose job is behind the break has returned |
| DispatchReturns.SyncBehindBreak | src/kk-dispatch.cc:121-251 | a run of sixteen steps, a breaking job and then a sync, after which nobody can step and the caller waits |
| DispatchReturns.DestroyedAfterAllReturned | src/kk-dispatch.cc:195-213 | when the queue is destroyed every call of sync has returned |
| DispatchReturns.RunServes | src/kk-dispatch.cc:51-66 | in every run who has been notified has returned or is awake on its way out of the wait |
| DispatchCalls.JobsAreAsCalled | src/kk-dispatch.cc:219-251 | in every run each job is what its call made it: join's breaks, sync's is waited for, async's and sync's break as their functions do |
| DispatchCalls.JobsHaveCalls | src/kk-dispatch.cc:219-251 | and no job is there without such a call |
| DispatchCalls.BreakingCallIsLast | src/kk-dispatch.cc:137-151 | once the function of a breaking call or of a join has run it is the last that ran, the loop is broken, and no continuation runs another |
| DispatchCalls.RunsUpToBreak | src/kk-dispatch.cc:121-143 | a job of the queue runs if and only if none before it breaks |
| DispatchCalls.JoinReturns | src/kk-dispatch.cc:219-226 | a run that joins and in which join returns, its job run and deleted |
| DispatchProtocol.PrefixUpToBreak | src/kk-dispatch.cc:137-141 | jobs of which only the last may break are a prefix of those up to the first break |
| Dispatch.Chan.Push | src/kk-chan.cc:51-55 | the job goes last |
| Dispatch.Chan.Pop | src/kk-chan.cc:57-71 | the oldest job comes out, or nothing from an empty channel |
| Dispatch.Chan.Destroy | src/kk-chan.cc:30-49 | what was never taken is released, oldest first |
| Dispatch.UpToBreakInPieces | src/kk-dispatch.cc:121-143 | how pushes fall between timer firings makes no difference to what runs |
| Dispatch.SplitAtBreak | src/kk-dispatch.cc:137-141 | queued jobs are those that run and those left behind the first break |
| Dispatch.Queue.Async | src/kk-dispatch.cc:243-246 | pushing keeps what has run and the order |
| Dispatch.Queue.Run | src/kk-dispatch.cc:121-143 | one firing runs the queue up to the first break, deletes each job run, and re-arms the timer exactly if none broke |
| Dispatch.Queue.Destroy | src/kk-dispatch.cc:195-213 | after a break the jobs behind it are deleted unrun, so that every job pushed is deleted once |
| EventIndex.ReachedAre | src/kk-event.cc:132-152 | the callbacks an event reaches are exactly those registered under its name or a starred prefix of it |
| EventIndex.ReachedInOrder | src/kk-event.cc:132-152 | earlier registrations are reached before later ones |
| EventIndex.MatchesInWords | src/kk-event.cc:136-149 | a name with a star is for the events that begin as it does, a star alone for all, any other for its own event |
| EventIndex.KeptAre | src/kk-event.cc:50-60 | what `off` leaves is exactly what does not match its name and function, empty name and null function matching all |
| EventIndex.KeptInOrder | src/kk-event.cc:50-60 | and stays in the order of registration |
| EventIndex.KeptInWords | src/kk-event.cc:53-54 | `off` leaves a callback exactly if its name or its function is another than the one given |
| EventIndex.ReachedIsIndexed | src/kk-event.cc:97-151 | `has` is true whenever `emit` would reach a callback |
| EventIndex.IndexIsExact | src/kk-event.cc:97-151 | `has` holds of an event if and only if a callback or a forgotten name matches it |
| EventIndex.ApplyAgrees | src/kk-event.cc:44-95 | every on, and every off that reads the names of living callbacks, keeps counts above what is registered, and exact where they are one |
| EventIndex.RunAgrees | src/kk-event.cc:44-95 | so does every run |
| EventIndex.CountTwoIsDoubled | src/kk-event.cc:63-95 | a count is above one exactly for names once registered while a callback of that name was registered, for ever after |
| EventIndex.DisagreeOnlyOnDoubled | src/kk-event.cc:44-151 | after any run of on and off as they are meant, `has` and `emit` disagree on an event exactly when nothing is reached and it matches a name once registered twice at once that has no callbacks left |
| EventIndex.ExactUnlessDoubled | src/kk-event.cc:44-151 | where no matching name was ever registered twice at once, `has` holds if and only if `emit` reaches a callback |
| EventIndex.ClearedKeepsDoubled | src/kk-event.cc:49-95 | after everything is taken off, `has` holds exactly of what matches a name once registered twice at once |
| EventIndex.OneErased | src/kk-event.cc:53-56 | erasing one callback and removing its name once keeps the index to its survivors |
| EventIndex.RunOneEach | src/kk-event.cc:44-61 | in every run a callback is in the list once, so erasing its handle there frees it unless an emit holds it |
| EventRuns.NoFreedReadIffHeld | src/kk-event.cc:52-56 | `off` reads no freed name if and only if every callback it takes off is held by a running `emit` |
| EventRuns.IntactIffHeld | src/kk-event.cc:52-56 | the names read are right whatever freed memory holds if and only if every callback taken off is held |
| EventRuns.OffAsMeant | src/kk-event.cc:49-61 | with the right names read, `off` leaves the survivors and their names |
| EventRuns.IntactRun | src/kk-event.cc:44-95 | a run of on, off and emits beginning and ending, in which every off reads the right names, leaves what its operations are meant to leave |
| EventRuns.UntouchedIffHeld | src/kk-event.cc:49-167 | a run reads no freed callback if and only if each off, when it is done, takes off only callbacks of emits then running |
| EventRuns.UntouchedRun | src/kk-event.cc:44-167 | a run that reads no freed callback leaves what its operations are meant to leave, and `has` and `emit` agree there exactly as far as names were not registered twice at once |
| EventRuns.RightIffUntouched | src/kk-event.cc:49-167 | the names a run reads are right whatever freed memory holds if and only if it reads none there |
| EventRuns.SameCallbacks | src/kk-event.cc:49-61 | what freed memory holds changes nothing but the index |
| EventRuns.OffInsideEmit | src/kk-event.cc:49-167 | two emits one after the other, each with an off of what it calls, read nothing freed |
| EventRuns.FreedNameHidesAnother | src/kk-event.cc:55-56 | two names, one off: where the freed memory reads as the other name, `has` denies an event that `emit` would deliver |
| EventEmitter.Emitter.On | src/kk-event.cc:44-47 | the callback goes last, its name is indexed, and the run has one step more |
| EventEmitter.Emitter.Off | src/kk-event.cc:49-61 | the erasing loop keeps exactly the callbacks of another name or function in order, un-indexes the names it reads, and reads freed callbacks exactly where no emit holds them |
| EventEmitter.Emitter.EraseAt | src/kk-event.cc:52-56 | the handle goes first, then the name is read, from living memory exactly if an emit holds the callback |
| EventEmitter.Emitter.Add | src/kk-event.cc:63-75 | the name, or its stem, is in the right set once |
| EventEmitter.Emitter.Remove | src/kk-event.cc:77-95 | only a count of one is taken back, with its entry in the sets |
| EventEmitter.Emitter.Has | src/kk-event.cc:97-124 | the look-up by key and prefix finds a match if and only if an indexed name matches; with nothing freed read and no matching name registered twice at once, if and only if `emit` would reach a callback |
| EventEmitter.Emitter.Select | src/kk-event.cc:128-152 | the first loop collects exactly the matching callbacks in order |
| EventEmitter.Emitter.CallAll | src/kk-event.cc:154-167 | the second loop calls each collected callback that has a function, and what these do, emits included, are the next steps of the run |
| EventEmitter.Emitter.React | src/kk-event.cc:163-163 | what a called function registers, takes off and emits are steps of the run, and leave the running emits as they were |
| EventEmitter.Emitter.Emit | src/kk-event.cc:126-167 | exactly the callbacks matching at entry are called, in order, whatever they register, take off or emit meanwhile; their list holds them until then, and the emitter ends where the steps of the run lead |
| WeakMap.OpRefines | src/kk-script.cc:774-1058 | each operation that asks a key for its own WeakObject does what it means to a plain map of maps, or throws and changes nothing, and keeps keys, registrations and values in step |
| WeakMap.RunRefines | src/kk-script.cc:774-1079 | so does every run of them, with births, deaths and changes of prototype in between |
| WeakMap.WeakMapAgreement | src/kk-script.cc:949-1079 | over every run a map holds a key if and only if it is registered with it if and only if it has a value; get is the last value set; no object keeps a map that is gone |
| WeakMap.SetAgreesIffOwn | src/kk-script.cc:852-998 | setting keeps the agreement if and only if the key is a live object that has a WeakObject of its own or no prototype with one |
| WeakMap.ChildKeyOutlives | src/kk-script.cc:858-874 | an object with a key for prototype is registered with that key: its value outlives it, or deleting it forgets the other |
| WeakMap.StringKeyOutlives | src/kk-script.cc:1103-1117 | a string key of a map's initial object is never registered, and its value is found by an object made later at its address |
| WeakMap.ClashLosesValue | src/kk-script.cc:991-993 | two keys keep their own values if and only if their addresses print differently |
| WeakMap.SetThenGet | src/kk-script.cc:978-1030 | what is set is there, and nothing else that prints differently or in another map changes |
| WeakMap.DeleteThenGet | src/kk-script.cc:1011-1053 | what is deleted is not there, and nothing else that prints differently or in another map changes |
| WeakMap.NothingThenGet | src/kk-script.cc:967-976 | a new map has nothing, and a map forgets a key that dies registered with it |
| WeakMap.ClosedThrows | src/kk-script.cc:874-889 | a closed object makes set throw unless it had its WeakObject before |
| WeakMap.ScriptHeap.FindHolder | src/kk-script.cc:852-872 | the look-up along the prototypes finds the nearest WeakObject, the key's own first |
| WeakMap.ScriptHeap.SetValue | src/kk-script.cc:978-998 | the field updates are the specified set; it throws, changing nothing, exactly when a new key needs a WeakObject and takes no properties |
| WeakMap.ScriptHeap.Register | src/kk-script.cc:852-937 | the nearest WeakObject gains this map, made for an object that finds none, and a plain value nothing |
| WeakMap.ScriptHeap.Unregister | src/kk-script.cc:939-947 | only this map is taken, from the nearest WeakObject of this key |
| WeakMap.ScriptHeap.GetValue | src/kk-script.cc:1011-1030 | in agreement, the value the plain map of maps has for the key, and undefined for one it has not |
| WeakMap.ScriptHeap.Remove | src/kk-script.cc:1032-1053 | key and value go, and the map from the key's nearest WeakObject |
| WeakMap.ScriptHeap.FinaliseKey | src/kk-script.cc:783-802 | the loop over the maps registered with a key's own WeakObject makes each forget the key, and no other map |
| WeakMap.ScriptHeap.FinaliseMap | src/kk-script.cc:956-965 | the loop over held keys takes the map from the nearest WeakObject of each |
| Strings.PiecesRejoin | src/kk-string.cc:70-94 | the pieces joined give the string back, but for one delimiter at its end, and each ends at the delimiter's first match |
| Strings.NoDelimiterInside | src/kk-string.cc:80-88 | no piece contains the delimiter |
| Strings.SplitOfJoined | src/kk-string.cc:70-138 | splitting a joined list gives the list back if and only if its last item is not empty and every delimiter matches first where it was put |
| Strings.SplitOfJoin | src/kk-string.cc:123-138 | the same through the returned string with its NUL |
| Strings.PiecesInWords | src/kk-string.cc:70-138 | concrete strings: an empty piece inside counts, one at the end does not, matches do not overlap |
| Strings.Split | src/kk-string.cc:70-94 | the two-pointer loop finds the pieces |
| Strings.SplitToSet | src/kk-string.cc:96-120 | the set form collects the same pieces |
| Strings.Join | src/kk-string.cc:123-138 | the stream loop joins, and leaves a NUL at the end |
| Timer.NewTimeval | src/kk-ev.cc:50-55 | seconds and microseconds add up to the milliseconds given |
| Timer.TimevalInNumbers | src/kk-ev.cc:50-55 | 1500 milliseconds are one second and half a million microseconds |
| Timer.HappensSettled | src/kk-ev.cc:80-145 | whatever happens to a timer that is due finds it not yet freed |
| Timer.Lifetime | src/kk-ev.cc:80-173 | over every run a timer is freed once, exactly by the time its finaliser has run and its callback returned; nothing happens to it afterwards; a one-shot starts once; an interval is pending until then |
| Timer.OneShot | src/kk-ev.cc:93-145 | a one-shot timer fires once and is freed with its finaliser |
| Timer.Interval | src/kk-ev.cc:93-145 | an interval timer fires again until cleared, and is freed once by that |
| Timer.EventTimer.Recycle | src/kk-ev.cc:80-91 | inside its callback a timer is only marked, outside it is freed; a second call changes nothing |
| Timer.EventTimer.Call | src/kk-ev.cc:93-145 | a firing ends re-armed, done or freed according to when the finaliser ran, touching no field after the free |
| Timer.EventTimer.Finalise | src/kk-ev.cc:161-173 | the finaliser outside a callback frees the timer and its event |
| Bio.DecodeOfEncode | src/kk-bio.cc:33-111 | every value in range is read back from the bytes written |
| Bio.EncodeOfDecode | src/kk-bio.cc:33-111 | every byte string of the width is written back from the value read |
| Bio.Int32InNumbers | src/kk-bio.cc:33-96 | the value of four bytes, the lowest first, the top bit of the last the sign |
| Bio.Int64InNumbers | src/kk-bio.cc:47-111 | the value of eight bytes likewise |
| Bio.LowByteFirst | src/kk-bio.cc:38-42 | masking and arithmetic shifting peel two's complement from the low end, for negative values too |
| Bio.OrNextByte | src/kk-bio.cc:88-93 | shifting a byte into place and or-ing it in adds the next digit |
| Bio.Encode | src/kk-bio.cc:33-57 | the loop writes the two's complement, lowest byte first, and nothing beyond |
| Bio.Decode | src/kk-bio.cc:83-111 | the loop reads the signed value of the bytes |

## Left out

- Fragmentation of section 5.4 of RFC 6455: the client hands each fragment with a payload over on its own, so no reassembly is claimed.
- WsHandshake.ChunkingIndependence: asks that the stream has no hazard, because for each hazard WsCuts.HazardTells shows that the claim fails.
- WebSocketClient.WebSocket.OnReading: an extended length that has not all arrived is not read at all, where the code reads past the input and then discards what it read.
- Script functions called while a read is under way do not call `close` or `send` on that socket; after such a `close` the decoder would go on with the transport freed. The status code is a function of the response header.
- The moments at which reading and writing are enabled on the transport; the URL of `open`, the request it puts in the output, and destroying a socket while the resolver's answer is outstanding.
- WebSocketClient.WebSocket.Send: the masking key is a parameter in place of `rand`, and payloads are below 2^31 bytes, the range of the loop's index.
- Md5Stream.Md5State.Append: asks for fewer than 2^28 bytes a call, because the shift of a longer length overflows a signed int.
- The choice by byte order of how `md5_process` loads its words; the model loads them byte by byte.
- BinaryList.BinaryAlloc: numbers, strings, buffers and functions are opaque payloads, and the nodes cut off behind a damaged last child are not followed to `BinaryDealloc`.
- Conversion of keys that are not strings, which only a damaged list can produce.
- Ownership.Runtime.SetStrong: asks that the handle survives the release, where the code would otherwise write to freed memory; Ownership.HandleSurvivesIff gives the exact condition and Ownership.SelfReferenceExample an input without it.
- Objects, handles and scopes are entries of the runtime's maps rather than objects of their own, as script objects are of the script heap's; an identity is not used again after its object is gone, where an address may be.
- Destructors do nothing but destroy members; what a subclass's destructor may do besides is not part of this model.
- DeleteProtocol.ExactlyOnce: assumes that what a thread retains is new or still held by some thread or handle when the mutex is taken, and that releases match retains; DeleteProtocol.UnheldRetainQueuesAgain shows the need for the first.
- Reading a weak handle while another thread deletes its target.
- DispatchReturns.SyncReturnsIff: is of standstills; that one is reached, under a fair scheduler, is not claimed.
- DispatchProtocol.StuckOnlyBehindBreak: condition variables wake only when broadcast to, and no job calls `sync` on its own queue.
- Attached queues, whose loop runs one more job when fired after a break, and the destruction of a queue that was never joined.
- That a job object outlives its caller's return from the wait: the code may delete it before the caller has its mutex again.
- The libevent loop of a queue beyond its timer, and the signal event.
- EventEmitter.Emitter.Off: a freed name reads as some string, one for each callback, where the program may also crash; strong handles to callbacks outside the emitter's list and running emits do not exist in the code.
- Events to scripts, and script-side lists of callbacks.
- WeakMap.OpRefines: is for keys that ask for their own WeakObject, and live addresses that print differently in 32 bits; WeakMap.SetAgreesIffOwn and WeakMap.ClashLosesValue say why.
- WeakMap.ScriptHeap.FinaliseMap: a freed key that a map still holds has no WeakObject, where the code would push a dangling pointer.
- The test of `set` that both arguments are objects, maps that take no properties, scripts that meddle with the `__weakObject` property, and objects finalised before those whose prototype they are.
- Null pointers given to the string functions, an empty delimiter (for which the loop does not end), and the set form of join.
- Bio.Decode: shifting the top byte left in a signed type overflows from 128 up in C++; the model takes the two's complement result.
- Timer.Lifetime: the finaliser runs once and the callback is a function; timers whose addresses print alike are not told apart.
- `duk_weak` and `duk_unweak` slots, reflection, the rest of the script binding, HTTP, cryptography other than MD5, web workers beyond their messages, path helpers, and the byte, boolean and floating-point codecs.
