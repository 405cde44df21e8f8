# Multiplexers, codecs and framings of the webrun packages

A Dafny model of the wire layers of the webrun packages, and proofs of what
they promise. Each piece is modelled twice over: as values and functions that
say what one synchronous block of the code does, and as classes and loops
whose methods update the code's own fields in place and are proved to do
exactly that. Two ends are joined by two first-in first-out pipes; a step is
one block of code between two `await`s at either end, and the results hold of
every interleaving of such steps. Timers and settling promises are steps that
may happen at any time.

Check the project with `dafny verify dfyconfig.toml`.

## The parts

**The windowed port multiplexer** (`Port*.dfy`). One pipe carries many ports,
each with a byte window, a three-step handshake, a blocked send queue, batched
credit, fair framing, reassembly under a shared cap, and half-close.

- `PortSide` is one end of one port as a value; `PortWorld` is a port between
  its two ends, with the invariant every step keeps: a two-party ledger of
  bytes, what the frames under way still amount to, and the order of `end` and
  `close`. `PortWire` says what a pipe's content means. `PortSendSteps`,
  `PortCloseSteps`, `PortReceiveSteps` and `PortRuns` prove the invariant.
- `PortTheorems`, `PortProgress`, `PortStreams` and `PortChannel` say what it
  means for users: prefix delivery, conservation, the window, no stall,
  half-close, and the stream layer above. `PortEnds` reads off the acts of a run
  what the consumers asked for and proves that it happens; `PortPace` is how soon.
  `PortRefused` and `PortWide` prove exactly when the stream layer refuses a sender
  that follows its rules, and `PortReceiver` when it refuses any peer at all.
- `PortTable`, `PortFair`, `PortNet` and `PortMux` put many ports together: the
  tables and ring of one multiplexer against any peer whatever, fairness, the
  proof that each port of two joined multiplexers runs as if it were alone, and
  the class whose methods are the code's own loops.
- `PortEstimate` is the size estimate for codecs that cannot count bytes.
  `PortCodecs` is the MessagePack codec of a port and `PortChunks` are the chunk
  payloads of the stream layer: both are shown to be what the port results ask
  of a codec and of a chunk's cost. `Values` are the payloads.

**The credit multiplexer** (`Credit*.dfy`, `FlowControl`, `Uint32`). A sender's
ledger reserves credit, a receiver's grantor returns it in batches; a pump cuts
input into pieces of at most the MTU and the credit at hand. `CreditEnds` tells
from the acts of a run how each loop finishes. `CreditNet` joins two whole
multiplexers, with any number of streams called from either end.

**Framing** (`Varint`, `Cutter`, `StreamFrames`). Varints over 32-bit shifts,
and parsers that meet the bytes in pieces: any cut of the stream gives the same
frames. `StreamFrames.MessageReader` is the sliding buffer.

**MessagePack** (`Msgpack*.dfy`, `Utf8`). The serializer with its growing
buffer, the reader with its cursor, 64-bit integers out of 32-bit halves, the
three timestamp layouts ("Timestamp extension type" of the MessagePack
specification) and UTF-8 out of UTF-16 (section 3 of RFC 3629). `MsgpackForms`
goes through the layouts lead byte by lead byte, `MsgpackNames` through
properties of one name.

**Socket accounting** (`Socket*.dfy`). A client that is still connecting, bytes
in flight, coalesced acknowledgements, the queue before `accept`, and the relay
that splits an acknowledgement between two holders of one socket. `SocketEnds`
is the close handshake and the pings, told from the acts of a run, and
`SocketChain` the handshake across such a relay.

**HTTP/1.1** (`Http*.dfy`). Printing and reading whole messages over a pull
reader: header text, the framing rules of section 6.3 of RFC 9112 and section
8.6 of RFC 9110, the chunked coding of section 7.1 of RFC 9112, the round
trip of requests and responses under every framing and every re-chunking, and
a relay that decodes and sends on (`HttpRelay`). A reader's state is its buffer
and the chunks not pulled yet (`HttpBytes.Feed`); every method is proved to be
a function of it, and `HttpArrivals` says exactly which messages are read alike
from every chunking of their bytes. `HttpNames`, `HttpLines` and `HttpWire` say in
literal terms which names are the same, which lines are read, and what a message
is on the wire.

## Where the code does not do what one might expect

Each of these is proved, with the condition under which the expected property
does hold.

- A port that closes sends what is queued regardless of its window, so a sender
  of chunks that followed the rules, waiting behind each chunk for the queue to
  empty, can have its receiver report "sent past the window".
  `PortWide.RefusedExactly` proves that it can if and only if pipelining is agreed
  and some chunk that the codec carries, and the receiver's cap on reassembled
  bytes lets through, costs more than the whole window: `PortWide.ClosingCanViolate`
  builds the run, whatever the two ends' options, and `PortRefused.RefusedTakesWide`
  proves that a refusal always had such a chunk delivered and such a close behind
  it. Over MessagePack there is such a chunk for every window
  (`PortChunks.WideChunkViolates`). A sender that ended its direction is never
  refused (`PortChannel.HonestSenderNeverViolates`).
- A credit-multiplexed loop can finish normally with part of the data missing in
  two ways: its peer closes without an END (`CreditRuns.CloseCutsShort`), or, for
  a server's request, this side closes it because the handler's output was over
  first (`CreditRuns.OwnCloseCutsShort`, although the sender ended).
  `CreditEnds.FinishedBy` proves what each finish means of what the two ends did,
  and `CreditRuns.NormalFinish` of every finish without an error that the END was
  taken exactly if it is the cause, and that the whole was then read.
  `CreditRuns.EndsWithSender` proves that this is so exactly when the sender ended,
  always for a response, and for a request if its END is heard before the
  handler's output is over; if it is not, `CreditRuns.ServerCloses` proves that
  the server's own close cuts the request.
- A varint of a value of 2^32 or more reads back reduced modulo 2^32:
  `Varint.RoundTrip` holds if and only if the value is below that.
- `readLine`'s bound is tested only while a line is incomplete, and bytes behind
  a message are noticed only if they are buffered already, so whether a message
  is read or refused can depend on how its bytes arrive.
  `HttpBytes.TooLongExactly` says when a line is refused, and
  `HttpArrivals.LongLineDiffers` gives, for every bound, a body read from one
  arrival and refused from another. `HttpArrivals.RequestOutcome` and
  `ResponseOutcome` prove that the outcome is the same for every chunking if and
  only if the message is refused anyway, or every chunk-size line is within the
  bound and nothing follows the message. A head's outcome never depends on it,
  because the running total is tested after each line (`HttpText.SectionAll`).

## Model

| member | source | states |
|---|---|---|
| PortTheorems.DeliveredIsPrefix | packages/webrun-rpc/src/multiplex-port.ts:420-478 | in every reachable state of a port, with windows, frames, fair framing and half-close on, what either end delivered is, intact and in order, a prefix of what the other posted |
| PortTheorems.NothingElseIsMissing | packages/webrun-rpc/src/multiplex-port.ts:265-310 | while nothing was thrown away, delivered payloads plus those decoded from what is in the ring, the pipe and the partial message plus those queued are exactly the posted ones |
| PortTheorems.CreditConserved | packages/webrun-rpc/src/multiplex-port.ts:371-387 | with both ends open, `outstanding` equals bytes in ring, pipe and partial, plus the peer's unconsumed and ungranted bytes, plus credit in flight; after a sizing downgrade it is at most that |
| PortTheorems.CreditIsOutstanding | packages/webrun-rpc/src/multiplex-port.ts:635-654 | the clamp at zero never bites: an arriving credit is never more than what is outstanding |
| PortTheorems.OwedIsOutstanding | packages/webrun-rpc/src/multiplex-port.ts:688-693 | what a receiver still owes back is never more than what the sender counts as outstanding |
| PortTheorems.WindowHolds | packages/webrun-rpc/src/multiplex-port.ts:347-366 | once the window holds an end, no step takes its outstanding bytes past the window or its largest message |
| PortTheorems.WindowHoldsOverRuns | packages/webrun-rpc/src/multiplex-port.ts:347-359 | the same over any run of both ends in which it posts nothing larger |
| PortTheorems.OnlyClosingSpills | packages/webrun-rpc/src/multiplex-port.ts:484-500 | a port counts as having sent a queue regardless of its window exactly from the close of an open port with something queued |
| PortTheorems.FrameHasRoom | packages/webrun-rpc/src/multiplex-port.ts:693-707 | a frame of an honest peer always fits what the window left, on a port sized exactly, whose peer has not ended |
| PortTheorems.HonestFrameAccepted | packages/webrun-rpc/src/multiplex-port.ts:681-727 | an honest peer's frame is refused if and only if the cap all ports share is passed |
| PortTheorems.HonestTrafficAccepted | packages/webrun-rpc/src/multiplex-port.ts:656-679 | an honest peer's whole message is delivered and its `end` recorded; neither trips a protocol failure |
| PortTheorems.CapsAgree | packages/webrun-rpc/src/multiplex-port.ts:606-614 | the capabilities either end relies on are those both speak, and the sizing modes agree |
| PortTheorems.EndIsLast | packages/webrun-rpc/src/multiplex-port.ts:522-541 | an `end` leaves behind everything posted before it; nothing but credit or a close follows it |
| PortTheorems.EndMeansAllDelivered | packages/webrun-rpc/src/multiplex-port.ts:740-759 | an end that read its peer's `end` has delivered every payload the peer posted |
| PortTheorems.BothEnded | packages/webrun-rpc/src/multiplex-port.ts:320-333 | once both ends of both directions are processed, both tables dropped the port and nothing posted was lost |
| PortTheorems.ClosedNeverEnds | packages/webrun-rpc/src/multiplex-port.ts:530-538 | a port closed meanwhile never puts an `end` on the pipe |
| PortEnds.DoneAsTold | packages/webrun-rpc/src/multiplex-port.ts:420-541 | over every run, told from the acts alone: an end posts exactly what its consumer posted before it ended or lost the port, is ending exactly if its consumer ended it, and is out of the table once its consumer closed, refused or shut it |
| PortEnds.NothingLater | packages/webrun-rpc/src/multiplex-port.ts:421-423 | once its consumer ended or closed, nothing more is posted, whatever follows |
| PortEnds.EndComesThrough | packages/webrun-rpc/src/multiplex-port.ts:522-541 | at rest, an end whose consumer ended it has sent its `end`, the peer has read it and delivered all that was posted before it, unless both tables dropped the port |
| PortEnds.BothComeThrough | packages/webrun-rpc/src/multiplex-port.ts:320-332 | ended by both consumers, a port is in neither table at rest |
| PortEnds.NothingBehindAnEnd | packages/webrun-rpc/src/multiplex-port.ts:334-341 | whatever a peer sends behind its `end`, or an `end` that was not agreed, delivers nothing and closes the port |
| PortEnds.CloseMeansAllDelivered | packages/webrun-rpc/src/multiplex-port.ts:484-500 | an end that hears a close has delivered everything its peer posted, unless the peer threw something away |
| PortEnds.CloseDropsNothing | packages/webrun-rpc/src/multiplex-port.ts:488-498 | and a consumer's own close throws nothing away |
| PortEnds.CloseComesThrough | packages/webrun-rpc/src/multiplex-port.ts:484-500 | closed, refused or shut by either consumer, a port is in neither table at rest |
| PortEnds.DiesOnlyFor | packages/webrun-rpc/src/multiplex-port.ts:573-768 | without a close, refusal, shutdown, full table or full cap, a port leaves a table only when both consumers ended it, and then all is delivered: nothing an honest peer sends takes it away |
| PortEnds.EveryEndComesThrough | packages/webrun-rpc/src/multiplex-port.ts:522-541 | so in such a run every `end` comes through, with everything posted before it |
| PortEnds.EveryPostComesThrough | packages/webrun-rpc/src/multiplex-port.ts:420-478 | and so does every post |
| PortProgress.NoStall | packages/webrun-rpc/src/multiplex-port.ts:347-387 | while an open end has something queued, some step of the code, the pipe, a timer or a listener is enabled at one of the ends |
| PortProgress.RestIsDone | packages/webrun-rpc/src/multiplex-port.ts:353-358 | at rest, both queues are empty, both `outstanding` are zero and everything posted is delivered, both ways |
| PortProgress.AutomaticProgress | packages/webrun-rpc/src/multiplex-port.ts:268-305 | every step that needs no new post decreases one measure of the remaining work |
| PortProgress.ComesToRest | packages/webrun-rpc/src/multiplex-port.ts:268-291 | so a run without new posts is no longer than that measure |
| PortPace.WaitsOnlyWhenFull | packages/webrun-rpc/src/multiplex-port.ts:347-359 | an end flushes before it does anything else, exactly while the head of its queue fits the window, nothing is outstanding, the window does not hold it yet, or it is an `end` |
| PortPace.CreditReturns | packages/webrun-rpc/src/multiplex-port.ts:368-387 | over every run, what an end has consumed and not given back is under a quarter of the window, and a timer is set for it |
| PortPace.BothHoldTheWindow | packages/webrun-rpc/src/multiplex-port.ts:600-654 | at rest both ends of an open port hold their sends to the window, and rely on the same sizing and capabilities |
| PortPace.FlushIsFair | packages/webrun-rpc/src/multiplex-port.ts:454-473 | under a frame size, with the window in force and sizes exact, a flush puts nothing larger than a frame on the ring, behind what the port has there |
| PortRuns.StepKeeps | packages/webrun-rpc/src/multiplex-port.ts:573-760 | every step of either end keeps the whole invariant: ledger, transfer, half-close, handshake and room |
| PortRuns.RunKeeps | packages/webrun-rpc/src/multiplex-port.ts:389-571 | every run does |
| PortRuns.ReachableInv | packages/webrun-rpc/src/multiplex-port.ts:87-93 | every reachable state of a port satisfies the invariant |
| PortWire.FeedPieces | packages/webrun-rpc/src/multiplex-port.ts:463-470 | the frames a message is cut into reassemble to exactly that message, for every frame size |
| PortWire.FeedAppend | packages/webrun-rpc/src/multiplex-port.ts:722-736 | what a receiver gets of two stretches of pipe is what it gets of one after the other |
| PortWire.CostPieces | packages/webrun-rpc/src/multiplex-port.ts:432-435 | cutting a message into frames changes nothing of what it costs the window |
| PortWire.FitsPieces | packages/webrun-rpc/src/multiplex-port.ts:702-711 | the frames of a message that fits, or that begins with nothing owed, pass the receiver's test one by one |
| PortSendSteps.FlushKeeps | packages/webrun-rpc/src/multiplex-port.ts:347-359 | one turn of the flush loop keeps both parties' accounts |
| PortSendSteps.PumpKeeps | packages/webrun-rpc/src/multiplex-port.ts:271-284 | moving one item of the ring to the pipe keeps them |
| PortCloseSteps.CloseKeeps | packages/webrun-rpc/src/multiplex-port.ts:484-500 | a close, which sends everything queued past the window, keeps what the peer can still rely on |
| PortReceiveSteps.ConsumeKeeps | packages/webrun-rpc/src/multiplex-port.ts:371-387 | consuming a payload and granting its bytes, at once or by timer, keeps the ledger |
| PortReceiveSteps.CreditKeeps | packages/webrun-rpc/src/multiplex-port.ts:635-654 | hearing credit, the ack included, keeps it |
| PortReceiveSteps.MessageKeeps | packages/webrun-rpc/src/multiplex-port.ts:669-679 | hearing a whole message delivers the next posted payload and keeps the rest |
| PortReceiveSteps.FrameKeeps | packages/webrun-rpc/src/multiplex-port.ts:681-737 | hearing a frame, the last included, does too |
| PortReceiveSteps.EndKeeps | packages/webrun-rpc/src/multiplex-port.ts:740-759 | hearing an `end` does too |
| PortStreams.HeldIsUnconsumed | packages/webrun-rpc/src/duplex-over-port.ts:42-49 | what the stream layer counts as held is at most what the window counts as unconsumed, where a chunk costs no more than its estimate and its encoded bytes |
| PortStreams.ChunkHasRoom | packages/webrun-rpc/src/duplex-over-port.ts:635-673 | when a pipelined chunk arrives at an open receiver, earlier ones held are within the window, whether its sender is open, ended or closed, unless that close sent a queue past the window |
| PortStreams.ChunkWithinWindow | packages/webrun-rpc/src/duplex-over-port.ts:663-668 | so the "sent past the window" test is false in every reachable state, but behind such a close |
| PortChannel.ChunkReceiver.constructor | packages/webrun-rpc/src/duplex-over-port.ts:481-485 | a receiver starts with nothing outstanding, held or refused |
| PortChannel.ChunkReceiver.OnRequest | packages/webrun-rpc/src/duplex-over-port.ts:597-617 | a confirmed chunk beside held or outstanding ones is a violation, else it is outstanding |
| PortChannel.ChunkReceiver.OnChunk | packages/webrun-rpc/src/duplex-over-port.ts:641-673 | a pipelined chunk where none was agreed, beside a confirmed one, whose value is not bytes, or past the window is a violation, else its size is held |
| PortChannel.ChunkReceiver.OnPeerEnd | packages/webrun-rpc/src/duplex-over-port.ts:559-575 | the peer's `end` without a last chunk is a violation |
| PortReceiver.RefusedIffBroken | packages/webrun-rpc/src/duplex-over-port.ts:559-673 | whatever a peer sends, it is refused if and only if some message of its broke the rules of the channel, told from the history alone |
| PortReceiver.HoldsAtMost | packages/webrun-rpc/src/duplex-over-port.ts:663-673 | no peer makes a receiver hold more than the window and one chunk |
| PortChannel.NextInOrder | packages/webrun-rpc/src/duplex-over-port.ts:777-801 | a chunk or call arriving from a sender that follows the rules is the next one it may have sent |
| PortChannel.NothingViolates | packages/webrun-rpc/src/duplex-over-port.ts:597-673 | whatever such a sender's payload is, the receiver does not refuse it, though the sender may have ended or closed meanwhile, unless its close sent a queue past the window |
| PortChannel.HonestSenderNeverViolates | packages/webrun-rpc/src/duplex-over-port.ts:639-668 | over every run of a stream, the receiver refuses only a sender whose close sent a queue past the window, and never one that ended its direction; `PortWide.RefusedExactly` is the exact condition |
| PortRefused.LetGoIsCounted | packages/webrun-rpc/src/duplex-over-port.ts:635-673 | what an open sender let go of and the receiver still holds or expects costs no more than what the window counts as outstanding |
| PortRefused.SenderSpread | packages/webrun-rpc/src/multiplex-port.ts:347-359 | no step of such a sender lets go of more than the window in chunks that fit it, and a close lets go of one chunk more at most |
| PortRefused.FrameCrosses | packages/webrun-rpc/src/multiplex-port.ts:703-711 | a message delivered from frames is at most the window and the cap long |
| PortRefused.RefusedTakesWide | packages/webrun-rpc/src/duplex-over-port.ts:639-668 | a refused sender had a chunk that costs more than the window delivered, and closed with something queued |
| PortWide.RefusedExactly | packages/webrun-rpc/src/duplex-over-port.ts:785-797 | an honest sender can be refused if and only if pipelining is agreed and some chunk that gets across costs more than the window |
| PortWide.ClosingCanViolate | packages/webrun-rpc/src/multiplex-port.ts:488-496 | for any options of the two ends and either direction, given a chunk that costs more than the window and gets across, a run in which a close flushes a second one past the window and the receiver refuses it |
| PortEstimate.WalkIsWhole | packages/webrun-rpc/src/multiplex-port.ts:65-85 | within four levels and the node budget the walk counts every leaf, and the budget once a node |
| PortEstimate.SmallMessagesWhole | packages/webrun-rpc/src/multiplex-port.ts:65-85 | a message of at most 256 nodes and four levels is estimated at its whole size, or 64 |
| PortEstimate.PastTheLimits | packages/webrun-rpc/src/multiplex-port.ts:67-77 | past the node budget nothing is counted, and from the fifth level on eight for whatever is no text and no bytes |
| PortCodecs.MessageBack | packages/webrun-msgpack/src/port-codec.ts:37-92 | the envelope of any payload MessagePack gives back as it was is decoded to that payload, on its port |
| PortCodecs.MsgpackIsCodec | packages/webrun-msgpack/src/port-codec.ts:70-92 | the codec meets all the port results ask of one, so they hold of ports over MessagePack |
| PortChunks.EstimateCovers | packages/webrun-rpc/src/multiplex-port.ts:65-85 | a chunk's estimate is at least its bytes plus `CHUNK_OVERHEAD`, for every shape of chunk payload |
| PortChunks.BytesCover | packages/webrun-rpc/src/duplex-over-port.ts:42-49 | so are the bytes of its MessagePack envelope |
| PortChunks.StreamsAreCovered | packages/webrun-rpc/src/duplex-over-port.ts:635-673 | for every channel, window and port, the stream layer's assumptions on codec and cost hold over MessagePack, sized either way |
| PortChunks.StreamNeverViolates | packages/webrun-rpc/src/duplex-over-port.ts:639-668 | so over every run of such a stream an honest sender is refused only behind a close that sent a queue past the window |
| PortChunks.WideChunkViolates | packages/webrun-rpc/src/multiplex-port.ts:488-496 | for every window and any options that agree on pipelining, a chunk one byte longer than the window that gets across, and a run in which such a close is refused |
| PortChunks.StreamRefusedExactly | packages/webrun-rpc/src/duplex-over-port.ts:639-668 | over MessagePack, for every channel, window and options, a refusal is possible if and only if pipelining is agreed and such a chunk gets across |
| PortTable.PutRingOk | packages/webrun-rpc/src/multiplex-port.ts:292-305 | adding items keeps the ring free of duplicates and equal to the ports with something to send |
| PortTable.PumpRingOk | packages/webrun-rpc/src/multiplex-port.ts:271-284 | so does a turn of the pump, and the ring's first port does have an item |
| PortTable.DeedKeeps | packages/webrun-rpc/src/multiplex-port.ts:573-760 | every deed of a multiplexer, with any envelope a peer may send, keeps its table, ring and shared cap |
| PortTable.TableHolds | packages/webrun-rpc/src/multiplex-port.ts:583-590 | over every run against any peer the table never passes `maxPorts` and `reassembling` is the sum of the charges, within its cap |
| PortTable.PartialsBounded | packages/webrun-rpc/src/multiplex-port.ts:703-711 | partial messages never hold more than the sum of the windows plus `maxReassembledBytes` |
| PortFair.OneItemEach | packages/webrun-rpc/src/multiplex-port.ts:260-291 | while a port waits, no two of the turns before its own serve the same port, whatever else happens |
| PortFair.WaitBounded | packages/webrun-rpc/src/multiplex-port.ts:260-291 | so it waits for fewer turns than there are ports in the ring |
| PortNet.OthersUntouched | packages/webrun-rpc/src/multiplex-port.ts:573-760 | a deed about one port leaves every other port's two ends and traffic unchanged |
| PortNet.DeedIsAct | packages/webrun-rpc/src/multiplex-port.ts:265-310 | a deed about a port is exactly one step of that port seen alone |
| PortNet.EveryPortRunsAlone | packages/webrun-rpc/src/multiplex-port.ts:87-93 | in every run of two joined multiplexers each port is in a state it reaches alone, so all its theorems hold |
| PortNet.EveryPortDelivers | packages/webrun-rpc/src/multiplex-port.ts:420-478 | every port of two joined multiplexers delivers a prefix of its own posts, both ways |
| PortMux.FlushAllSteps | packages/webrun-rpc/src/multiplex-port.ts:347-359 | a whole flush is a run of single flush steps |
| PortMux.PortMux.SendOnPort | packages/webrun-rpc/src/multiplex-port.ts:292-305 | the map and ring of the fair framing change as for one more item of that port, or the item runs at once |
| PortMux.PortMux.DropOutgoing | packages/webrun-rpc/src/multiplex-port.ts:306-310 | a port's queue and its place in the ring go, and nothing else |
| PortMux.PortMux.Turn | packages/webrun-rpc/src/multiplex-port.ts:276-284 | the first port of the ring sends one item and goes to the back if it has more |
| PortMux.PortMux.SendPieces | packages/webrun-rpc/src/multiplex-port.ts:463-471 | the loop over a message's bytes sends exactly its pieces |
| PortMux.PortMux.Flush | packages/webrun-rpc/src/multiplex-port.ts:347-366 | the loop sends exactly what the window lets go |
| PortMux.PortMux.PostMessage | packages/webrun-rpc/src/multiplex-port.ts:421-478 | a payload is sized, queued and flushed on that port alone, or dropped after its end |
| PortMux.PortMux.EndPort | packages/webrun-rpc/src/multiplex-port.ts:522-542 | on an open port where it was agreed, this side is ending, and its `end` is sent, on the ring, or waits behind what was posted; where it was not, nothing changes |
| PortMux.PortMux.ClosePort | packages/webrun-rpc/src/multiplex-port.ts:484-500 | the loop sends what is queued regardless of the window, then the close |
| PortMux.PortMux.Grant | packages/webrun-rpc/src/multiplex-port.ts:371-387 | credit goes back at once from a quarter of the window, else by a timer |
| PortMux.PortMux.FireTimer | packages/webrun-rpc/src/multiplex-port.ts:374-379 | a timer returns what is still ungranted of an open port |
| PortMux.PortMux.FailPort | packages/webrun-rpc/src/multiplex-port.ts:334-341 | a failed port keeps no partial, queue or entry, and its peer hears a close |
| PortMux.PortMux.Reassemble | packages/webrun-rpc/src/multiplex-port.ts:728-733 | the copy loop yields the concatenation of the frames |
| PortMux.PortMux.TakeFrame | packages/webrun-rpc/src/multiplex-port.ts:687-737 | a frame is refused, kept or completes its message, and the shared counter follows |
| PortMux.PortMux.HandleOpen | packages/webrun-rpc/src/multiplex-port.ts:583-630 | an `open` is acknowledged, refused for room, or ignored as a duplicate |
| PortMux.PortMux.HandleCredit | packages/webrun-rpc/src/multiplex-port.ts:635-654 | credit, and the ack's settling of sizing and capabilities, then a flush |
| PortMux.PortMux.HandleMessage | packages/webrun-rpc/src/multiplex-port.ts:659-679 | a message is delivered, or fails a port whose peer had ended |
| PortMux.PortMux.HandleEnd | packages/webrun-rpc/src/multiplex-port.ts:740-759 | an `end` where it was agreed, or a protocol failure |
| PortMux.PortMux.Hear | packages/webrun-rpc/src/multiplex-port.ts:573-768 | any envelope of any peer changes the multiplexer as the value model says, and keeps its tables and caps |
| PortMux.PortMux.OpenPort | packages/webrun-rpc/src/multiplex-port.ts:852-890 | a port opens under the next id, or is refused when `maxPorts` are open |
| PortMux.PortMux.CloseMux | packages/webrun-rpc/src/multiplex-port.ts:804-830 | the loops close every open port and every port with something waiting, and the multiplexer is closed |
| Uint32.RoundTrip | packages/webrun-streams/src/uint32.ts:19-34 | a count reads back clamped; it reads back as itself if and only if it fits 32 bits |
| Uint32.Canonical | packages/webrun-streams/src/uint32.ts:31-34 | any four bytes are the encoding of what they decode to |
| FlowControl.ReleaseConserves | packages/webrun-streams/src/flow-control.ts:51-104 | units given plus units left are the units there were; waiters are served in order, none for more than it asked |
| FlowControl.LeftIsUnwanted | packages/webrun-streams/src/flow-control.ts:58-67 | credit is left over only when every waiter was served in full |
| FlowControl.ReserveConserves | packages/webrun-streams/src/flow-control.ts:73-91 | less than what is asked is given only when nothing is left; a reservation waits only where there is no credit, behind those before it |
| FlowControl.CreditLedger.TryReserve | packages/webrun-streams/src/flow-control.ts:20-104 | a reservation is given at once within its limit, waits, or is refused after a failure |
| FlowControl.CreditLedger.Pump | packages/webrun-streams/src/flow-control.ts:51-104 | the loop over the waiters gives exactly what the specification releases |
| FlowControl.CreditLedger.AddCredit | packages/webrun-streams/src/flow-control.ts:51-104 | a grant is all available or given, none of it lost |
| FlowControl.ConsumeConserves | packages/webrun-streams/src/flow-control.ts:133-146 | pending and granted units are the consumed ones; with the queue empty none is held back, and with bytes queued only what is below half the window |
| FlowControl.CreditGrantor.Drained | packages/webrun-streams/src/flow-control.ts:133-146 | the grantor's field and grant are those of the specification |
| CreditRuns.StepKeeps | packages/webrun-streams/src/emulate-mux.ts:265-383 | every step of either end of a stream keeps faithfulness, order and credit, both ways |
| CreditRuns.RunKeeps | packages/webrun-streams/src/emulate-mux.ts:87-110 | every run does |
| CreditRuns.ReadIsPrefix | packages/webrun-streams/src/emulate-mux.ts:184-224 | bytes read by the consumer are a prefix of the concatenated input, for every mtu and window |
| CreditEnds.FinishedBy | packages/webrun-streams/src/emulate-mux.ts:225-262 | how each loop finishes, told from the acts of the run: by an END only if the other input ended, and then all it gave was read; by a CLOSE only if the other consumer left or the other handler was done, and never behind an input that threw; by an ERROR only if the input threw or the stream was refused; by its own close or error only for its own part |
| CreditEnds.FailureIsThrown | packages/webrun-streams/src/emulate-mux.ts:230-236 | the reader of an input that threw never finishes without an error, unless its own handler was done first |
| CreditEnds.CallerHearsFailure | packages/webrun-streams/src/emulate-mux.ts:373-376 | the caller whose response threw always does |
| CreditEnds.LeavingFrees | packages/webrun-streams/src/emulate-mux.ts:506-511 | who threw, refused, was done or left before the end of the other input frees both tables, once nothing is on the way |
| CreditEnds.RestReads | packages/webrun-streams/src/emulate-mux.ts:349-366 | with nothing left to do, all that a live input gave is read, and its pump waits for no credit |
| CreditEnds.EveryInputIsRead | packages/webrun-streams/src/emulate-mux.ts:205-229 | where nobody threw, left, refused or stopped, an input that ended is read whole and its reader finishes by the END |
| CreditEnds.StaysBounded | packages/webrun-streams/src/emulate-mux.ts:327-343 | whatever a peer sends, a live stream holds no more than its buffer, and owes at most half of it |
| CreditRuns.EndsWithSender | packages/webrun-streams/src/emulate-mux.ts:225-263 | such a finish is by END if and only if the sender ended, always for a response, and for a request whose END was heard before the handler's output was over |
| CreditRuns.ServerCloses | packages/webrun-streams/src/emulate-mux.ts:248-263 | a server whose output is over ends its own request if and only if the END was not heard |
| CreditRuns.CloseCutsShort | packages/webrun-streams/src/emulate-mux.ts:377-383 | a run in which a CLOSE without END finishes the consumer normally with bytes missing |
| CreditRuns.OwnCloseCutsShort | packages/webrun-streams/src/emulate-mux.ts:248-263 | a run in which the server's own close finishes its request reader normally, the sender ended and bytes missing |
| CreditRuns.CreditConserved | packages/webrun-streams/src/emulate-mux.ts:205-224 | credit in the ledger, reserved, in flight, queued, pending and returning always sums to the clamped advertised window |
| CreditRuns.NeverOverflows | packages/webrun-streams/src/emulate-mux.ts:328-343 | an honest peer's DATA never trips the overflow teardown |
| CreditRuns.GrantsAreExact | packages/webrun-streams/src/emulate-mux.ts:351-357 | consumed bytes move to pending or to a grant in full, none clamped, none pending over an empty queue |
| CreditRuns.ParkedIsAwaited | packages/webrun-streams/src/emulate-mux.ts:212-224 | a pump parked on credit has data in flight, a grant in flight, unread bytes at the peer, or a handshake or farewell under way |
| CreditRuns.SlotsAgree | packages/webrun-streams/src/emulate-mux.ts:126-155 | of one stream: if one end only holds it, its OPEN or a terminating frame is in flight; with empty pipes both or neither hold it |
| CreditMux.OpensWithinLimit | packages/webrun-streams/src/emulate-mux.ts:290-322 | no frame takes the table past `maxStreams`, an OPEN of a finished id included |
| CreditMux.PiecesFaithful | packages/webrun-streams/src/emulate-mux.ts:205-224 | a pumped chunk leaves as pieces within mtu and credit whose concatenation, with what is left, is the chunk |
| CreditMux.CreditMux.Call | packages/webrun-streams/src/emulate-mux.ts:402-414 | a call is refused if and only if the table is full, else opens the next id, whatever is under it |
| CreditMux.CreditMux.PumpChunk | packages/webrun-streams/src/emulate-mux.ts:205-224 | the offset loop sends exactly the pieces the credit allows |
| CreditMux.CreditMux.HandleFrame | packages/webrun-streams/src/emulate-mux.ts:265-383 | any frame changes that stream alone, as the value model says; an OPEN is ignored for a live stream only, and accepted or refused anew for a finished one |
| CreditMux.CreditMux.Settle | packages/webrun-streams/src/emulate-mux.ts:351-357 | consumed bytes are granted back in batches |
| CreditNet.OthersUntouched | packages/webrun-streams/src/emulate-mux.ts:265-383 | no call, frame or pump of one stream changes another's ends or frames |
| CreditNet.DeedIsStep | packages/webrun-streams/src/emulate-mux.ts:265-383 | what a multiplexer does about a stream is one step of that stream seen alone |
| CreditNet.NetStepKeeps | packages/webrun-streams/src/emulate-mux.ts:402-414 | every step of two joined multiplexers keeps every stream a run of its own and both tables within `maxStreams` |
| CreditNet.EveryStreamRunsAlone | packages/webrun-streams/src/emulate-mux.ts:65-85 | in every run of two joined multiplexers, calling from either end, each stream is in a state it reaches alone, so all its theorems hold |
| CreditNet.TablesAgree | packages/webrun-streams/src/emulate-mux.ts:126-155 | the two tables differ only in streams with a frame on the wire; with empty pipes they hold the same set of ids |
| CreditNet.EveryStreamReads | packages/webrun-streams/src/emulate-mux.ts:184-224 | on every stream each consumer has read a prefix of what the other end's input gave |
| Varint.RoundTrip | packages/webrun-streams-libp2p/src/duplex-over-stream.ts:487-514 | at any offset and before any bytes, a varint reads back modulo 2^32; as itself if and only if below 2^32 |
| Varint.EncodeLoop | packages/webrun-streams-libp2p/src/duplex-over-stream.ts:487-499 | the loop over 32-bit shifts writes that varint |
| Varint.DecodeLoop | packages/webrun-streams-libp2p/src/duplex-over-stream.ts:501-514 | the loop reads it, or says it is too long or cut |
| Varint.DecodeOutcome | packages/webrun-streams-libp2p/src/duplex-over-stream.ts:501-514 | too long exactly at five continuing bytes, cut exactly when fewer are all continuing |
| Varint.LengthOutcome | packages/webrun-streams-libp2p/src/message-target-over-stream.ts:192-199 | a length is malformed exactly at five continuing bytes, incomplete exactly when fewer are all continuing |
| Varint.DecodeStable | packages/webrun-streams-libp2p/src/message-target-over-stream.ts:192-199 | an outcome already known is not changed by more bytes |
| Cutter.ChunksDoNotMatter | packages/webrun-streams-libp2p/src/duplex-over-stream.ts:416-448 | for any parser whose cuts are stable, feeding bytes in pieces gives the items of the whole |
| Cutter.SplitFramesRoundTrip | packages/webrun-streams-libp2p/src/duplex-over-stream.ts:416-448 | any split of written items is parsed to exactly those items with nothing left |
| Cutter.Parse | packages/webrun-streams-libp2p/src/duplex-over-stream.ts:419-447 | the read loop yields what one drain of all the bytes yields |
| StreamFrames.FramesRoundTrip | packages/webrun-streams-libp2p/src/duplex-over-stream.ts:459-476 | typed frames split in any way come back as the same list |
| StreamFrames.FramesSplitFreely | packages/webrun-streams-libp2p/src/duplex-over-stream.ts:416-448 | for any bytes at all, the frames do not depend on how they arrive |
| StreamFrames.MessagesRoundTrip | packages/webrun-streams-libp2p/src/message-target-over-stream.ts:103-134 | messages within the bound, split in any way, come back as the same list |
| StreamFrames.MessageReader.MakeRoom | packages/webrun-streams-libp2p/src/message-target-over-stream.ts:111-118 | sliding or doubling the buffer keeps the unread bytes |
| StreamFrames.MessageReader.CutOne | packages/webrun-streams-libp2p/src/message-target-over-stream.ts:121-133 | one turn of the inner loop delivers a message, fails or waits, and changes nothing of what is to come |
| StreamFrames.MessageReader.Receive | packages/webrun-streams-libp2p/src/message-target-over-stream.ts:109-134 | a chunk through the sliding buffer does exactly what the simple parser does |
| MsgpackInts.Int64Is | packages/webrun-msgpack/src/msgpack-core.ts:310-328 | the two 32-bit halves are the eight big-endian two's complement bytes of every safe integer |
| MsgpackInts.UIntBack | packages/webrun-msgpack/src/msgpack-core.ts:444-452 | unsigned bytes read back as the number |
| MsgpackInts.SIntBack | packages/webrun-msgpack/src/msgpack-core.ts:424-442 | signed bytes read back as the number |
| MsgpackInts.UIntExact | packages/webrun-msgpack/src/msgpack-core.ts:444-452 | every intermediate of reading a safe unsigned integer is safe |
| MsgpackInts.SIntExact | packages/webrun-msgpack/src/msgpack-core.ts:424-442 | every intermediate of reading a safe signed integer is within 2^53 |
| Utf8.RoundTrip | packages/webrun-msgpack/src/msgpack-core.ts:551-600 | a string's bytes decode to it with lone surrogates replaced |
| Utf8.Canonical | packages/webrun-msgpack/src/msgpack-core.ts:599-617 | well-formed bytes are the encoding of what they decode to |
| Utf8.EncodeLoop | packages/webrun-msgpack/src/msgpack-core.ts:551-600 | the two-pass byte loop over the array writes those bytes within the room it made |
| MsgpackProofs.ReadNumber | packages/webrun-msgpack/src/msgpack-core.ts:140-190 | every safe integer, in the shortest of its forms, reads back |
| MsgpackProofs.ReadDate | packages/webrun-msgpack/src/msgpack-core.ts:251-284 | every date, in whichever of the three timestamp layouts, reads back to the millisecond |
| MsgpackProofs.ReadTextBack | packages/webrun-msgpack/src/msgpack-core.ts:192-202 | a string under any of its length forms reads back |
| MsgpackProofs.ReadBinBack | packages/webrun-msgpack/src/msgpack-core.ts:216-224 | binary data under any of its length forms reads back |
| Msgpack.Read | packages/webrun-msgpack/src/msgpack-core.ts:379-422 | on any bytes a read terminates, takes at least one byte and never passes the end |
| MsgpackTrips.ReadBack | packages/webrun-msgpack/src/msgpack-core.ts:88-130 | a value written anywhere in a buffer is read there as its normal form, over exactly its length |
| MsgpackTrips.RoundTrip | packages/webrun-msgpack/src/msgpack-core.ts:70-87 | deserializing a serialized value and any rest gives its normal form and its length, for nested arrays, maps, strings, binaries, dates and safe integers |
| MsgpackTrips.ReadCut | packages/webrun-msgpack/src/msgpack-core.ts:371-377 | cutting the input behind a value changes nothing; cutting into it gives the insufficient-data error |
| MsgpackTrips.PrefixesFallShort | packages/webrun-msgpack/src/msgpack-core.ts:371-377 | every non-empty strict prefix of a serialized value fails with that error |
| MsgpackTrips.PacketsRoundTrip | packages/webrun-msgpack/src/msgpack.ts:9-45 | a stream of framed values split in any way yields those values |
| MsgpackWriter.Writer.Grow | packages/webrun-msgpack/src/msgpack-core.ts:286-308 | the buffer is replaced by a larger one with the same contents |
| MsgpackWriter.Writer.AppendNumber | packages/webrun-msgpack/src/msgpack-core.ts:140-190 | a number's bytes are appended |
| MsgpackWriter.Writer.Append | packages/webrun-msgpack/src/msgpack-core.ts:88-130 | the recursive walk appends exactly a value's serialization |
| MsgpackWriter.SerializeToBytes | packages/webrun-msgpack/src/msgpack-core.ts:70-87 | the whole serializer returns it |
| MsgpackReader.Reader.TakeUInt | packages/webrun-msgpack/src/msgpack-core.ts:444-452 | the cursor's loop reads an unsigned integer, or finds too few bytes and stays |
| MsgpackReader.Reader.TakeInt | packages/webrun-msgpack/src/msgpack-core.ts:424-442 | so for a signed one |
| MsgpackReader.Reader.TakeStamp | packages/webrun-msgpack/src/msgpack-core.ts:524-547 | a timestamp is read, the longest by stepping eight bytes back |
| MsgpackReader.Reader.TakeArray | packages/webrun-msgpack/src/msgpack-core.ts:492-499 | the loop reads the array's items, or the first error |
| MsgpackReader.Reader.TakeMap | packages/webrun-msgpack/src/msgpack-core.ts:469-490 | the loop reads the map's fields, a later one replacing an earlier of its name |
| MsgpackReader.Reader.TakeValue | packages/webrun-msgpack/src/msgpack-core.ts:379-422 | the reader returns the specified value or error and leaves the cursor behind the value |
| MsgpackReader.DeserializeBytes | packages/webrun-msgpack/src/msgpack-core.ts:336-369 | the whole reader, an empty input refused |
| MsgpackForms.FixedForms | packages/webrun-msgpack/src/msgpack-core.ts:379-422 | each lead byte that is a whole value is read as that value; 0xc1 is refused |
| MsgpackForms.IntegerForms | packages/webrun-msgpack/src/msgpack-core.ts:424-452 | 0xcc to 0xd3 are integers of 1, 2, 4 and 8 bytes, unsigned and two's complement |
| MsgpackForms.FloatForms | packages/webrun-msgpack/src/msgpack-core.ts:454-459 | 0xca and 0xcb are floats of 4 and 8 bytes |
| MsgpackForms.TextForms | packages/webrun-msgpack/src/msgpack-core.ts:501-507 | every head of a text, its length in the lead byte or in 1, 2 or 4 bytes, is read with the text behind it |
| MsgpackForms.BinForms | packages/webrun-msgpack/src/msgpack-core.ts:461-467 | so of binary data |
| MsgpackForms.ArrayForms | packages/webrun-msgpack/src/msgpack-core.ts:492-499 | so of an array, whose values follow |
| MsgpackForms.MapForms | packages/webrun-msgpack/src/msgpack-core.ts:469-490 | so of a map, whose pairs follow |
| MsgpackForms.ExtForms | packages/webrun-msgpack/src/msgpack-core.ts:509-547 | every head of an extension is read with its type and data; a timestamp of another length than 4, 8 or 12 is refused |
| MsgpackForms.ShortestNumber | packages/webrun-msgpack/src/msgpack-core.ts:140-190 | no bytes that read as a safe integer are fewer than those written for it |
| MsgpackForms.ShortestHeads | packages/webrun-msgpack/src/msgpack-core.ts:192-249 | the heads written are heads of their families, and none of a family is shorter |
| MsgpackNames.PairsSettle | packages/webrun-msgpack/src/msgpack-core.ts:469-490 | of the pairs of a map under one name the last value is kept, where the first was |
| MsgpackNames.NormalSettles | packages/webrun-msgpack/src/msgpack-core.ts:226-249 | so of the properties of an object whose names have one normal form |
| Socket.PortSocket.SendData | packages/webrun-http-browser/src/ws/socket-core.ts:159-173 | a send, from a reservation or not, is counted in flight |
| Socket.PortSocket.Connect | packages/webrun-http-browser/src/ws/client.ts:244-268 | a client that gets its port opens and pings, or, closed meanwhile, posts a close and is closed |
| Socket.PortSocket.Close | packages/webrun-http-browser/src/ws/client.ts:199-219 | an open end posts one close; a connecting one only notes it |
| Socket.PortSocket.DeliverFrame | packages/webrun-http-browser/src/ws/socket-core.ts:130-144 | a message is handed over and its bytes are due an acknowledgement, or dropped by an end that is not open; a close closes, and is posted back by an end that had posted none |
| Socket.PortSocket.OnFrame | packages/webrun-http-browser/src/ws/socket-core.ts:110-128 | an acknowledgement, a message, a ping or a close frame |
| Socket.PortSocket.AcceptSocket | packages/webrun-http-browser/src/ws/server.ts:179-186 | accepting delivers everything queued before it, in order |
| Socket.PortSocket.AckNow | packages/webrun-http-browser/src/ws/socket-core.ts:146-157 | one coalesced acknowledgement returns all that is due |
| SocketRuns.StepKeeps | packages/webrun-http-browser/src/ws/socket-core.ts:110-173 | every step of either end keeps the byte account and the order of messages, both ways |
| SocketRuns.AccountsHold | packages/webrun-http-browser/src/ws/socket-core.ts:110-173 | in every run, while neither end is closing or closed, a client that is still connecting included, bytes in flight are those reserved, travelling, queued, due and acknowledged on the way; what arrived is a prefix of what was sent, and the rest is under way |
| SocketEnds.DoneAsTold | packages/webrun-http-browser/src/ws/socket-core.ts:159-206 | over every run, told from the acts alone: an end sent exactly what its user sent while it was open, in order; and a close it posted is on the way, or waits for `accept()`, until the other end is closed |
| SocketEnds.CloseComesThrough | packages/webrun-http-browser/src/ws/socket-core.ts:183-206 | closed by either user and by no timer, both ends are closed once nothing is on the way, the client has its port and the server accepted |
| SocketEnds.EndsAgree | packages/webrun-http-browser/src/ws/socket-core.ts:196-206 | then, and without timers, the two ends are always both open or both closed |
| SocketEnds.OpenStaysOpen | packages/webrun-http-browser/src/ws/socket-core.ts:110-138 | where nobody closes neither end does, and all that was sent is handed over |
| SocketEnds.PingsAnswered | packages/webrun-http-browser/src/ws/server.ts:239-240 | between ends that are not closed, every ping is on the way, or its pong is, or was heard |
| SocketRelay.DetachRelay.OnPort | packages/webrun-http-browser/src/ws/server.ts:118-176 | an acknowledgement pays the detached end's bytes first and passes on the rest |
| SocketRelay.DetachRelay.OnHolder | packages/webrun-http-browser/src/ws/server.ts:118-176 | the holder's frames pass, a close noted |
| SocketRelay.RelaySplits | packages/webrun-http-browser/src/ws/server.ts:118-176 | the holder sees exactly the part of an acknowledgement that is for its own bytes, even of one that spans both holders |
| SocketRelay.DetachStarts | packages/webrun-http-browser/src/ws/server.ts:118-176 | after any run, detaching an unaccepted end starts with every byte accounted for |
| SocketRelay.AccountsSurviveDetach | packages/webrun-http-browser/src/ws/server.ts:118-176 | after any run and a detach, even from a peer that is still connecting, over every run through the relay, both outer ends' accounts are exact and messages stay in order |
| SocketChain.CloseComesThrough | packages/webrun-http-browser/src/ws/server.ts:140-171 | after any run and a detach, a close by either outer user, and no timer, closes both ends through the relay, once nothing is left to pass |
| SocketChain.RelayRuns | packages/webrun-http-browser/src/ws/server.ts:149-152 | the relay passes whatever waits until a close has gone each way |
| HttpBytes.LineBack | packages/webrun-http-streams/src/bytes.ts:123-143 | a line within the bound, written with its CRLF before any bytes, is the next line |
| HttpBytes.ByteReader.Pull | packages/webrun-http-streams/src/bytes.ts:77-93 | one non-empty chunk joins the buffer and no byte is lost |
| HttpBytes.ByteReader.ReadSome | packages/webrun-http-streams/src/bytes.ts:103-111 | between one and `max` bytes, in order, or the end exactly when nothing is left |
| HttpBytes.ByteReader.ReadLine | packages/webrun-http-streams/src/bytes.ts:123-143 | the next line, or the failure, that the buffer and the chunks to come decide, and the reader behind it |
| HttpBytes.TooLongExactly | packages/webrun-http-streams/src/bytes.ts:117-143 | a line is refused as too long if and only if, after some number of chunks, it has no LF yet and is longer than the bound |
| HttpBytes.LineOfAll | packages/webrun-http-streams/src/bytes.ts:123-143 | however it arrives, a line within the bound is read and one ended by a bare LF or by the end of input is not; one past the bound is read whole or refused as too long |
| HttpBytes.ByteReader.Rest | packages/webrun-http-streams/src/bytes.ts:146-156 | everything not yet consumed |
| HttpNames.MatchedExactly | packages/webrun-http-streams/src/http1/headers.ts:167-175 | two names are matched if and only if they are equal letter by letter, or one letter is a capital and the other 32 higher |
| HttpNames.GetAllIs | packages/webrun-http-streams/src/http1/headers.ts:167-170 | a lookup gives exactly the values under every name that is the same but for its case, in order |
| HttpNames.WithoutKeeps | packages/webrun-http-streams/src/http1/headers.ts:172-175 | dropping names drops them under any casing and keeps every other value in order |
| HttpText.PrintHeaderLines | packages/webrun-http-streams/src/http1/headers.ts:118-126 | the loop prints the lines, or refuses a bad name or value |
| HttpText.ReadHeaderSection | packages/webrun-http-streams/src/http1/headers.ts:132-165 | the loop reads the headers that buffer and chunks decide, or refuses, and leaves the reader behind them |
| HttpText.SectionAll | packages/webrun-http-streams/src/http1/headers.ts:132-165 | those depend on the bytes alone: the same headers, or the refusal, for every arrival |
| HttpText.HeaderBack | packages/webrun-http-streams/src/http1/headers.ts:150-163 | a printed header line parses to the same name and value |
| HttpText.HeadersBack | packages/webrun-http-streams/src/http1/headers.ts:118-165 | printed header lines and a blank line are read back as the same list within the bound |
| HttpLines.HeaderLineIs | packages/webrun-http-streams/src/http1/headers.ts:150-163 | a line is read as a header if and only if it is a name of visible characters that are no delimiters, a colon, and between blanks a value without control characters |
| HttpLines.HeadWithin | packages/webrun-http-streams/src/http1/headers.ts:138-149 | a head that is read takes no more bytes than the bound, start line and empty line included |
| HttpFraming.LengthsFold | packages/webrun-http-streams/src/http1/headers.ts:189-208 | two lists of lengths are one number if and only if each is that number, written the same |
| HttpFraming.ListIsFields | packages/webrun-http-streams/src/http1/headers.ts:189-208 | a comma-separated list means what the same values in separate fields mean |
| HttpFraming.LengthBack | packages/webrun-http-streams/src/http1/headers.ts:203-207 | a length declared in decimal is read as that length if and only if it has at most fifteen digits |
| HttpNames.LengthInAnyCase | packages/webrun-http-streams/src/http1/headers.ts:233-264 | a decimal length under any casing of its name, among any other fields, is the length of the body |
| HttpNames.ChunkedInAnyCase | packages/webrun-http-streams/src/http1/headers.ts:243-256 | so the chunked coding, name and value in any case; HTTP/1.0 has none |
| HttpNames.BothRefused | packages/webrun-http-streams/src/http1/headers.ts:237-241 | a head with both fields, in any case and order, is refused |
| HttpLines.LengthIsDigits | packages/webrun-http-streams/src/http1/headers.ts:189-208 | a length that is read has only digits, commas and spaces in it |
| HttpLines.CodingIsChunked | packages/webrun-http-streams/src/http1/headers.ts:243-251 | a coding that is read has only the letters of "chunked", commas and spaces in it |
| HttpFraming.ChunkedIsChunked | packages/webrun-http-streams/src/http1/headers.ts:243-256 | the coding the encoder writes is the one the decoder accepts |
| HttpChunked.HexBack | packages/webrun-http-streams/src/http1/chunked.ts:11-28 | a size written in hexadecimal is read as that size |
| HttpChunked.SizeBack | packages/webrun-http-streams/src/http1/chunked.ts:39-48 | every safe size passes the size line's tests |
| HttpLines.SizeAnyCase | packages/webrun-http-streams/src/http1/chunked.ts:39-48 | zeros in front, digits in either case and an extension behind change nothing of a size, up to 32 digits |
| HttpLines.SizeBounded | packages/webrun-http-streams/src/http1/chunked.ts:45-48 | a size past the safe integers is refused however it is written |
| HttpLines.SizeDigitsOnly | packages/webrun-http-streams/src/http1/chunked.ts:40-44 | a size line with another character in front of its extension is refused |
| HttpLines.DataEnds | packages/webrun-http-streams/src/http1/chunked.ts:78-87 | data that is not followed by CR LF breaks the body |
| HttpChunked.EncodeChunked | packages/webrun-http-streams/src/http1/chunked.ts:20-28 | the loop emits the chunked form, empty chunks skipped |
| HttpChunked.SkipTrailers | packages/webrun-http-streams/src/http1/chunked.ts:50-66 | trailers are read and dropped under one bound, and the reader is left behind them |
| HttpChunked.ReadExactly | packages/webrun-http-streams/src/http1/decode.ts:71-83 | exactly the announced bytes in whatever pieces, failing if and only if fewer come |
| HttpChunked.DecodeChunked | packages/webrun-http-streams/src/http1/chunked.ts:34-89 | the nested loops yield the body, or the failure, that buffer and chunks decide, and stop behind it |
| HttpChunked.ChunksAll | packages/webrun-http-streams/src/http1/chunked.ts:34-89 | a body read at all is the one its bytes alone make; a broken one never is, and one whose size lines are within the bound always is |
| HttpChunked.ChunkedBack | packages/webrun-http-streams/src/http1/chunked.ts:20-89 | any body chunked in any way is read back whole, and for every arrival of its bytes |
| HttpCodec.EmitBody | packages/webrun-http-streams/src/http1/encode.ts:71-93 | a body is sent if and only if it has the declared length, and never past it |
| HttpCodec.PrintRequestHead | packages/webrun-http-streams/src/http1/encode.ts:100-117 | the head built piece by piece is the specified one, or every refusal of the code |
| HttpCodec.PrintResponseHead | packages/webrun-http-streams/src/http1/encode.ts:142-167 | so for a response |
| HttpCodec.EncodeRequest | packages/webrun-http-streams/src/http1/encode.ts:95-130 | what is sent is head and body; nothing is sent exactly when the head is refused |
| HttpCodec.EncodeResponse | packages/webrun-http-streams/src/http1/encode.ts:132-183 | so for a response; behind the head there is nothing for a status below 200, 204, 304 or a HEAD in any case, and the whole body otherwise |
| HttpCodec.DrainBody | packages/webrun-http-streams/src/http1/decode.ts:60-89 | a drained body, or the failure, is the one that buffer and chunks decide for each framing, bytes behind it refused if buffered |
| HttpCodec.DecodeRequest | packages/webrun-http-streams/src/http1/decode.ts:104-167 | envelope, body and failure are exactly those the chunks decide; a length declared under any casing of its name is the length of the body, both framing fields are refused, and neither means no body |
| HttpCodec.DecodeResponse | packages/webrun-http-streams/src/http1/decode.ts:169-208 | so for a response, without a body for a status below 200, 204, 304 or a HEAD in any case, and otherwise all that follows where neither field is there |
| HttpCodec.RequestAll | packages/webrun-http-streams/src/http1/decode.ts:104-167 | the envelope depends on the bytes alone, not on how they arrive, and so does a body that is read to its end |
| HttpCodec.ResponseAll | packages/webrun-http-streams/src/http1/decode.ts:169-208 | so for a response |
| HttpArrivals.BodyOutcome | packages/webrun-http-streams/src/http1/decode.ts:21-32 | a body has the same outcome for every arrival if and only if it is broken anyway, or every size line is within the bound and nothing follows it |
| HttpArrivals.BodyDiffers | packages/webrun-http-streams/src/http1/decode.ts:60-89 | for any other body, an arrival from which it is read and one from which it is refused |
| HttpArrivals.LongLineDiffers | packages/webrun-http-streams/src/http1/chunked.ts:37-48 | for every bound there is a chunked body, its size line past it, read from one arrival and refused from another |
| HttpArrivals.RequestOutcome | packages/webrun-http-streams/src/http1/decode.ts:104-167 | a request has the same outcome for every chunking of its bytes if and only if its head is refused or its body is settled so |
| HttpArrivals.ResponseOutcome | packages/webrun-http-streams/src/http1/decode.ts:169-208 | so for a response |
| HttpTrips.SentFraming | packages/webrun-http-streams/src/http1/headers.ts:233-264 | the headers written resolve to the framing the body was written under |
| HttpTrips.TopBack | packages/webrun-http-streams/src/http1/decode.ts:110-130 | a start line and its headers are read back whatever is behind them |
| HttpTrips.UrlBack | packages/webrun-http-streams/src/http1/decode.ts:132-158 | the decoded URL is the configured scheme, the sent host and the sent target |
| HttpTrips.StatusLineBack | packages/webrun-http-streams/src/http1/decode.ts:179-194 | status and reason, spaces and all, are read back |
| HttpTrips.BodyBack | packages/webrun-http-streams/src/http1/decode.ts:60-89 | a body is read back whole under chunked, declared-length and bodyless framing |
| HttpTrips.RequestRoundTrip | packages/webrun-http-streams/src/http1/encode.ts:95-130 | for every re-chunking of an encoded request the decoder yields the same method, target and body and the headers re-derived |
| HttpTrips.ReceiveRequest | packages/webrun-http-streams/src/http1/decode.ts:104-167 | the same of the decoding method run on any such re-chunking |
| HttpTrips.ResponseRoundTrip | packages/webrun-http-streams/src/http1/encode.ts:132-183 | for every re-chunking of an encoded response the decoder yields the same status, reason and headers, and the whole body, or none for a status below 200, 204, 304 or a HEAD in any case |
| HttpTrips.ReceiveResponse | packages/webrun-http-streams/src/http1/decode.ts:169-208 | the same of the decoding method run on any such re-chunking |
| HttpWire.ResponseBodyBack | packages/webrun-http-streams/src/http1/headers.ts:210-221 | from 200 to 599, but for 204, 304 and an answer to HEAD, the body that is read is the whole body that was sent |
| HttpWire.ResponseOnWire | packages/webrun-http-streams/src/http1/encode.ts:132-183 | the bytes of a response: its own fields in order, one `Connection`, a coding exactly for a body without a length, no length where no body is allowed, and the body as they say |
| HttpWire.RequestOnWire | packages/webrun-http-streams/src/http1/encode.ts:95-130 | the bytes of a request: one `Host`, one `Connection`, its other fields in order, a coding exactly for a body without a length, and the body as they say |
| HttpWire.ReceivedResponse | packages/webrun-http-streams/src/http1/decode.ts:196-204 | any received response: no body, the declared length, or all that follows, and both fields refused |
| HttpWire.ReceivedRequest | packages/webrun-http-streams/src/http1/decode.ts:130-163 | any received request: the declared length, or no body, and both fields refused |
| HttpLines.RequestLineIs | packages/webrun-http-streams/src/http1/decode.ts:111-128 | a line is read as a request line if and only if it is a method, a target of visible characters and a version, single spaces between |
| HttpLines.StatusLineIs | packages/webrun-http-streams/src/http1/decode.ts:177-194 | a line is read as a status line if and only if it is a version, three digits, and perhaps a space and a reason |
| HttpLines.HostIs | packages/webrun-http-streams/src/http1/headers.ts:48-68 | a host is accepted if and only if it is a registered name or a bracketed literal, character by character, and perhaps a port of at most five digits |
| HttpLines.HostRules | packages/webrun-http-streams/src/http1/decode.ts:132-158 | two hosts are refused, none is but in HTTP/1.0, and one that is no host is |
| HttpRelay.OneRequestLine | packages/webrun-http-streams/src/http1/encode.ts:36-69 | whatever the URL and method, an accepted request puts exactly one request line of three fields on the wire: method, target and version, whatever follows |
| HttpRelay.AbsoluteSplits | packages/webrun-http-streams/src/http1/encode.ts:46-69 | path and query are a verbatim slice of an absolute URL; the host is named without credentials and the fragment is dropped |
| HttpRelay.UrlComesBack | packages/webrun-http-streams/src/http1/encode.ts:28-34 | a URL of the configured scheme is the one the decoder assembles again |
| HttpRelay.DecodedIsClean | packages/webrun-http-streams/src/http1/decode.ts:125-130 | whatever bytes arrive, a decoded request has a token method and headers with token names and trimmed values free of control characters |
| HttpRelay.OriginIs | packages/webrun-http-streams/src/http1/decode.ts:132-143 | every decoded request with a path for a target names the URL of that path at its host |
| HttpRelay.RelayAccepts | packages/webrun-http-streams/src/http1/headers.ts:177-188 | a decoded request in origin form is accepted by the encoder, with target, host and declared length as they came |
| HttpRelay.RelayKeeps | packages/webrun-http-streams/src/http1/headers.ts:25-29 | decoding, sending on and decoding again keeps method, URL and every header the codec does not own, for every re-chunking |

## Left out

Weaker than the source, or true only under a condition:

- PortChannel.HonestSenderNeverViolates: a necessary condition of each run; the exact condition, PortWide.RefusedExactly, is about which chunks there are, not about which closes are refused.
- PortWide.RefusedExactly: of the wait behind each chunk, what the model keeps is that the next one is posted only once the last has left the queue; the code also waits for what other senders queued on that port, so every run of the code is one of the model, and the refused runs built are runs of the code. Not where the opener sizes exactly and the other end does not, because the code then resets its counter.
- PortTheorems.CreditConserved: after the opener's exact sizing was answered without it, only "at most" holds, since the code then resets its counter.
- PortStreams.ChunkWithinWindow: not where the opener sizes exactly and the other end does not, for the same reason.
- PortTheorems.DeliveredIsPrefix: payloads are values the port's codec gives back unchanged; the codec is any that does, and MessagePack is proved to be one for its normal forms. A port id that arrives written as a float is not matched.
- CreditMux.CreditMux.Call: a stream the peer opened under this end's next id is replaced in the table, as in the code; what the replaced stream's own pump still sends under that id is not followed.
- MsgpackForms.IntegerForms: an eight-byte integer past 2^53 - 1, which the writer never writes, is rounded by the code; the model keeps it exact.
- MsgpackTrips.RoundTrip: objects are lists of fields in the order they are written; JavaScript's reordering of integer-like keys is not modelled.
- HttpTrips.RequestRoundTrip: header values must have no outer blanks and the host must be a valid one, as the decoder trims the former and refuses the latter; a configured host that is not valid is printed and then refused.

Not part of this model:

- Real pipes, workers, sockets and channels; a pipe is a queue, and "has room" may come at any time.
- Leak registry, weak references, abort signals, keepalive, idle timeouts and close grace periods; a port or stream closing is a step that may happen at any time.
- Ports without a window, which pass messages straight through, and the waiters for room in a port's queue other than senders of chunks.
- A port closed before its peer's `open` arrived, and ids of the remote side reused after a close.
- Error values: their serialization, and the texts of failures.
- The credit multiplexer's whole-mux close and failure; two joined multiplexers take sides of different parity, as the options ask; a malformed ACK payload is ignored by the code and cannot be sent by the modelled peer.
- Varint ids inside credit-multiplexer frames; frames are modelled after decoding, and the varint is proved separately.
- `parseFrames` waiting for more bytes when a varint is over-long: the error of the varint decoder is taken as "not yet", as in the code, and such a stream never yields another frame.
- MessagePack floats, which are opaque bytes; typed arrays other than bytes; replacements for invalid types; the `multiple` option; lengths of 2^32 and more; the repair of malformed UTF-8, a parameter.
- Socket heartbeats past the first ping, drain waiters and the reading of blobs; a server end reserves nothing; a detach with nothing queued or owed hands out the port itself.
- `new URL`, a predicate parameter; absolute-form targets are decoded as the code does, but the relay results are for targets that are paths.
- Case folding of header names is that of ASCII letters, which is all the names compared here need.
