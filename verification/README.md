# A verified model of thincan

thincan is a set of crates for talking over CAN: typed messages multiplexed on an ISO-TP link, a file-transfer
protocol on top of them, a simulated CAN bus over Unix sockets, and adapters for CAN controllers. This project
models the parts that are state machines and proves what they are for. `dafny verify dfyconfig.toml` checks
everything.

## What is proved

**File transfer** (`TransferTypes`, `Sender`, `GoBackN`, `SendState`, `Receiver`, `ReceiverSafety`,
`ReceiverFailures`, `NoAllocReceiver`, `NoAllocSafety`, `TransferPair`, `Agreement`, `FifoPair`, `NoFalseAlarm`,
`BoundedRuns`, `LosslessRuns`, `Recovery`, `LostAcks`, `Backpressure`). The windowed go-back-N sender and the
cumulative-ack receiver are machines over their await points, and the source's nested loops are methods proved to run
exactly these machines. SHA-256 is an arbitrary function on byte sequences.

- If the sender of a non-empty file returns Ok, the receiver has already committed exactly the sender's bytes,
  whatever the channels lose, duplicate or reorder. For an empty file this is false, and `GuaranteedIff` gives the
  exact condition.
- Over order-preserving channels that may lose but not duplicate, an honest pair fails only at a timeout, a transport
  error or a store error; the window is exactly full at every wait for an ack; every run has at most
  `5n + (X + 1)(5W + 1) + 3X + 8` events, and stops exactly when both ends have returned or the receiver hangs in its
  wait for the offer; without loss it ends in success at both ends, never more than a window of chunks is under way,
  and a mailbox of that depth refuses none of them.
- Losses of offers, chunks and progress acks are recovered: if the timeouts stay within the retry limit and the last
  loss is followed by a timeout, a run that can go no further has succeeded at both ends with the file stored. This is
  as far as it goes: the accept and the completion are sent once, and after the loss of either the sender never
  succeeds.
- Against any environment at all, a timeout within the limit makes the sender transmit a whole window again from the
  first unacknowledged byte, and both ends give up exactly at stated answers, with stated errors. The sender keeps its
  offsets, window and chunk accounting, and the receiver's store calls and acks obey a reference automaton that knows
  nothing of the receiver's variables. A committed transfer is reported as an error exactly if its completion ack
  could not be sent. The chunk size in the accept is the smaller of the two limits, and no write exceeds it. The
  allocation-free receiver obeys the same automaton.
- The allocation-free receiver is interchangeable with the allocating one on exactly the offers that fit it.

**Message bus** (`Mailbox`, `Bus`, `BusSession`, `Wakeup`). Slot arrays with remove-first-match and shift are bounded
sequences; over any sequence of arrivals and receives every accepted message is delivered at most once, byte-exact, to
receives that ask for its id and sender, oldest first, and a receive that gets nothing had nothing to get; no
interleaving of ingesters and waiters loses a wakeup.

**Simulated CAN bus** (`CanTypes`, `Wire`, `WireFormat`, `Stream`, `Requests`, `ClientSpec`, `Client`, `ClientCalls`,
`ClientSession`, `Server`, `ServerReader`, `BusMeaning`, `BusAnswers`, `CutOffWrites`, `Trust`). All codecs and both
directions of the byte stream round-trip, and which byte strings decode to what is stated byte by byte. A filter
passes exactly the ids of its width that agree with it on every bit of its mask. The client's calls are functions of
the socket's events (`ClientSpec`), its code is proved to compute exactly these (`Client`), and over any sequence of
calls it loses, repeats and reorders no frame; undisturbed, a call returns what the first answer to its number on the
stream says. Every request on the bus is answered, and a client whose stream has ended is gone. The server's state and
every client's queue follow from the command sequence by definitions that do not mention the server. Before the
sequence numbers wrap, a `send` that returned Ok was on the bus, provided that no earlier call on the connection
failed part-way through a write. An application cannot see such a cut, but it can see results: if every writing call
returned Ok or that nobody acknowledged, nothing was cut (`AllClearIsUncut`, `SendOkAfterClearCalls`). An application
that goes on after a cut is told Ok for frames that never were on the bus, so either way of stopping is enough and
going on is not (`TrustworthyIff`).

**Two smaller cores.** `FilterBanks`: the two-pass packer never fails half-way and its banks accept the union of the
filters. `RequestActor`: every caller gets the result of its own request, bursts are bounded, and receive events are
the node's deliveries.

## How it is modelled

- An await point is a step that consumes the environment's answer: a send result, a received message, a timeout, a
  store result. A method whose answers run out returns "still waiting". The receiver's wait for an offer has no
  timeout in the source, so it can fail only before it begins to listen.
- Messages whose encoding is Cap'n Proto are typed records; the two wire formats the repository defines itself are
  modelled byte by byte.
- 32-bit and 64-bit counters wrap or are checked where the source wraps or checks. `usize` is taken to be at least
  64 bits wide, so conversions from `u32` to `usize` do not fail.
- Locks are atomic steps, the watch cell is a version counter, and threads and tasks are interleavings.

## Findings

- For an empty file the sender returns Ok at the accept, before the receiver commits (`EmptyFileOkTooEarly`).
- The receiver can return an error after a successful commit (`CommittedYetFailed`), for every non-empty file; never
  otherwise than by a lost completion ack (`CommittedFailsIff`, `CommitMeansOkIff`).
- A lost accept or a lost completion dooms the sender, although everything else that is lost is recovered
  (`LostForGood`, `LossesAreRecovered`); after a lost completion the receiver has stored the file all the same.
- If every offer is lost, or the sender refuses its own configuration, the sender returns and the receiver waits
  forever (`ReceiverCanHang`).
- A client that goes on after a call failed part-way through a write can get Ok for a frame that was never on the bus,
  and be told of filters it never requested: the server takes the next request for the rest of the one cut off, and
  then reads requests out of the data of a frame (`SendOkCanLie`, `FiltersCanLie`).
- A filter whose id and mask differ in width matches nothing, but on the wire it becomes a filter that matches every
  id of its width (`MismatchedFilterChangesMeaning`).
- A filter list of more than 454 entries costs the client its connection (`RequestReadsBack`), although the client
  itself accepts and sends it.

## Model

| member | source | states |
|---|---|---|
| `TransferTypes.DivCeilIsDivision` | thincan-file-transfer/src/tokio_impl.rs:541-552 | the counting definition of the number of chunks in flight is `div_ceil` |
| `Sender.WaitForTransferAck` | thincan-file-transfer/src/tokio_impl.rs:354-414 | skips acks of other transfers, which leave the sender's machine where it is, and hands over the first other answer |
| `Sender.OfferRound` | thincan-file-transfer/src/tokio_impl.rs:641-676 | one offer and the wait after it run the machine to the accept, to its end or to the next round |
| `Sender.OfferLoop` | thincan-file-transfer/src/tokio_impl.rs:640-677 | the offer loop runs the machine up to the accept, or to the same final outcome and messages |
| `Sender.HandleOfferWait` | thincan-file-transfer/src/tokio_impl.rs:659-676 | an answered wait for the accept is an error, an accept or another offer, as in the machine |
| `Sender.SendOne` | thincan-file-transfer/src/tokio_impl.rs:694-721 | one transmission is one step of the machine, or its end |
| `Sender.FillWindow` | thincan-file-transfer/src/tokio_impl.rs:691-722 | the inner loop transmits until the machine can send no more, or ends where it ends |
| `Sender.HandleWait` | thincan-file-transfer/src/tokio_impl.rs:724-757 | an answered wait changes the offsets and retries as the machine does, or fails as it does |
| `Sender.StreamLoop` | thincan-file-transfer/src/tokio_impl.rs:684-758 | the streaming loop reaches the machine's outcome with the machine's messages |
| `Sender.SendFileImpl` | thincan-file-transfer/src/tokio_impl.rs:594-767 | the whole sender equals its machine in outcome and messages, for every environment |
| `Sender.SenderSafety` | thincan-file-transfer/src/tokio_impl.rs:684-758 | against any acks and timeouts: acknowledged <= sent <= total, at most a window outstanding, the checked addition never fails, every message is the offer or a true slice |
| `Sender.SuccessAccounting` | thincan-file-transfer/src/tokio_impl.rs:684-766 | on Ok the chunks sent lie between ceil(T/c) and ceil(T/c) + retries * window, and equal ceil(T/c) without retries |
| `GoBackN.FillsWindow` | thincan-file-transfer/src/tokio_impl.rs:691-722 | with room for n chunks the sender transmits the next n chunks of the file in order, or up to its end, and then waits |
| `GoBackN.TimeoutResends` | thincan-file-transfer/src/tokio_impl.rs:724-732 | after a timeout within the retry limit the sender transmits a whole window again from the first unacknowledged byte, then waits |
| `GoBackN.OffersRepeated` | thincan-file-transfer/src/tokio_impl.rs:640-668 | without an ack the offer is made once more than there are retries, send timeouts included, and then the timeout is reported |
| `GoBackN.AcceptStarts` | thincan-file-transfer/src/tokio_impl.rs:669-690 | an accept after any such rounds starts the transfer at offset 0 with the accepted size, ends it if the file is empty, or is refused for its size |
| `GoBackN.RefusedAtOnce` | thincan-file-transfer/src/tokio_impl.rs:631-637 | an invalid configuration or an oversized file fails without a message |
| `GoBackN.OffersFirst` | thincan-file-transfer/src/tokio_impl.rs:631-652 | any other one is offered with its length, limit and digest |
| `GoBackN.FailsIff` | thincan-file-transfer/src/tokio_impl.rs:659-757 | a wait fails exactly at a non-timeout error, an exhausted retry limit, a refusal or abort, a size that was not offered, or an offset outside what was sent, with the stated error, and nothing is sent after that |
| `GoBackN.SendFailsIff` | thincan-file-transfer/src/tokio_impl.rs:646-721 | a transmission fails the transfer exactly if it fails, except that an offer may time out |
| `SendState.SendState.AllocTransferId` | thincan-file-transfer/src/tokio_impl.rs:210-214 | hands out an id above all ids used so far until the 32-bit counter wraps |
| `SendState.SendState.ObserveTransferId` | thincan-file-transfer/src/tokio_impl.rs:216-221 | keeps the counter above every observed id until it wraps |
| `SendState.SendState.SendFile` | thincan-file-transfer/src/tokio_impl.rs:554-592 | every message it sends carries an id that was not used before, until the counter wraps, with the sender machine's outcome |
| `SendState.SendState.SendFileWithId` | thincan-file-transfer/src/tokio_impl.rs:594-634 | refuses an invalid configuration before it observes the id |
| `Receiver.WaitForTransferChunk` | thincan-file-transfer/src/tokio_impl.rs:429-486 | skips chunks of other transfers without a step of the receiver's machine |
| `Receiver.ChunkLoop` | thincan-file-transfer/src/tokio_impl.rs:980-1213 | the receive loop reaches the machine's outcome with the machine's store calls and acks |
| `Receiver.WriteChunk` | thincan-file-transfer/src/tokio_impl.rs:1108-1125 | one write, with the hasher, the offset and the decision to report or to finish |
| `Receiver.SendProgress` | thincan-file-transfer/src/tokio_impl.rs:1083-1106 | a progress ack, or an abort of the write if it cannot be sent |
| `Receiver.Finish` | thincan-file-transfer/src/tokio_impl.rs:1124-1188 | digest check, then commit and completion, or abort |
| `Receiver.FinishEmpty` | thincan-file-transfer/src/tokio_impl.rs:940-978 | the empty file: digest check and commit right after the accept, no completion ack |
| `Receiver.Transfer` | thincan-file-transfer/src/tokio_impl.rs:913-1213 | from `begin_write` on, the receiver equals its machine |
| `Receiver.SendAccept` | thincan-file-transfer/src/tokio_impl.rs:919-978 | from the accept on |
| `Receiver.RecvFileImpl` | thincan-file-transfer/src/tokio_impl.rs:770-1216 | the whole receiver equals its machine in outcome, store calls and acks; the error after the loop is never reached |
| `ReceiverSafety.ReceiverDiscipline` | thincan-file-transfer/src/tokio_impl.rs:913-1213 | for any chunk stream the calls obey the reference automaton: writes tile the file in order, commit only the full length with the offered digest, progress never ahead of the writes; at each loop head less than a stride is unreported |
| `ReceiverSafety.ClosedExactlyOnce` | thincan-file-transfer/src/tokio_impl.rs:913-1215 | every exit after `begin_write` has called exactly one of commit and abort, every other exit neither |
| `ReceiverSafety.ProgressNeverRetreats` | thincan-file-transfer/src/tokio_impl.rs:1083-1106 | progress offsets never decrease |
| `ReceiverSafety.AckMeaning` | thincan-file-transfer/src/tokio_impl.rs:1151-1212 | progress stays below the total, a successful commit stands before the completion ack, which names the total, an accept goes with an opened write and the one size that both limits call for |
| `ReceiverSafety.ReceivedMeansCommitted` | thincan-file-transfer/src/tokio_impl.rs:1124-1188 | Ok means the store committed an image of the offered length and digest, announced unless empty; the result tells the offer that came first, its metadata and hash included, and the agreed chunk size |
| `ReceiverSafety.NegotiatedIsAgreed` | thincan-file-transfer/src/tokio_impl.rs:887-892 | the negotiated size is the only one that is positive, within both limits (zero is no limit) and equal to one of them; it is zero exactly if there is no limit |
| `ReceiverSafety.SizesRespected` | thincan-file-transfer/src/tokio_impl.rs:887-1125 | against any environment an accept names that size and no write is longer than either limit |
| `ReceiverFailures.RefusesIff` | thincan-file-transfer/src/tokio_impl.rs:826-910 | an offer is refused exactly for an unknown algorithm, a hash that is not 32 bytes, or no size limit, with the first reason that applies and before any store call |
| `ReceiverFailures.FailsIff` | thincan-file-transfer/src/tokio_impl.rs:913-1213 | past the offer the receiver fails exactly at the stated answers, with the store's own error if the store failed, and tells the store and the sender exactly what is stated |
| `ReceiverFailures.NoOffer` | thincan-file-transfer/src/tokio_impl.rs:807-825 | a failed wait for the offer, or an unreadable one, ends everything without a call |
| `ReceiverSafety.CommittedFailsIff` | thincan-file-transfer/src/tokio_impl.rs:1151-1176 | a run that ended with a commit failed if and only if its completion ack could not be sent |
| `ReceiverSafety.CommittedYetFailed` | thincan-file-transfer/src/tokio_impl.rs:1159-1176 | for a file of any length and any number of chunks there is a run that commits and then reports an error |
| `ReceiverSafety.CommitMeansOkIff` | thincan-file-transfer/src/tokio_impl.rs:940-1176 | a commit is reported as success on all runs with an offer if and only if the file is empty, the offer is refused, or no data have that length and digest |
| `NoAllocReceiver.CopyChunk` | thincan-file-transfer/src/tokio_impl.rs:1503-1513 | the fixed buffer holds the chunk's front and zeros |
| `NoAllocReceiver.React` | thincan-file-transfer/src/tokio_impl.rs:1502-1625 | what an arrived chunk leads to over the fixed buffer: the machine's step |
| `NoAllocReceiver.BoundedWait` | thincan-file-transfer/src/tokio_impl.rs:429-486 | skips chunks of other transfers without a step of the machine |
| `NoAllocReceiver.BoundedWrite` | thincan-file-transfer/src/tokio_impl.rs:1621-1637 | one write out of the buffer, with the hasher, the offset and the decision to report or to finish |
| `NoAllocReceiver.BoundedProgress` | thincan-file-transfer/src/tokio_impl.rs:1596-1619 | a progress ack, or an abort of the write if it cannot be sent |
| `NoAllocReceiver.BoundedChunkLoop` | thincan-file-transfer/src/tokio_impl.rs:1491-1726 | the receive loop over the fixed buffer reaches the bounded machine's outcome, store calls and acks |
| `NoAllocReceiver.BoundedAccept` | thincan-file-transfer/src/tokio_impl.rs:1430-1489 | from the accept on |
| `NoAllocReceiver.BoundedTransfer` | thincan-file-transfer/src/tokio_impl.rs:1424-1726 | from `begin_write` on |
| `NoAllocReceiver.RecvFileNoAllocImpl` | thincan-file-transfer/src/tokio_impl.rs:1219-1729 | the whole allocation-free receiver equals the bounded machine, for every environment |
| `NoAllocReceiver.InterchangeableIffFits` | thincan-file-transfer/src/tokio_impl.rs:1258-1729 | the bounded machine has the same store calls, acks and outcome as the other receiver's on every continuation, exactly for the offers that fit the capacities (with a distinguishing run for every other offer) |
| `ReceiverFailures.BoundedRefusesIff` | thincan-file-transfer/src/tokio_impl.rs:1258-1422 | this receiver refuses metadata and hashes beyond its capacities first, and else exactly what the other one refuses |
| `NoAllocSafety.BoundedDiscipline` | thincan-file-transfer/src/tokio_impl.rs:1424-1726 | whatever arrives and whatever the capacities, the calls obey the same automaton, opened writes are closed exactly once, and Ok means committed |
| `NoAllocSafety.BoundedSizes` | thincan-file-transfer/src/tokio_impl.rs:1398-1637 | an accept names the agreed size and no write is longer than either limit |
| `Agreement.SenderOkMeansStored` | thincan-file-transfer/src/tokio_impl.rs:684-758 | over channels that lose, duplicate and reorder: sender Ok on a non-empty file implies the receiver has committed exactly its bytes |
| `Agreement.ReceiverOkMeansStored` | thincan-file-transfer/src/tokio_impl.rs:983-1188 | receiver Ok implies the committed image is the sender's file |
| `Agreement.EmptyFileOkTooEarly` | thincan-file-transfer/src/tokio_impl.rs:690-690 | for an empty file a run exists in which the sender is done and nothing is committed |
| `Agreement.GuaranteedIff` | thincan-file-transfer/src/tokio_impl.rs:684-758 | agreement holds on all runs if and only if the file is non-empty or the offer can never be accepted |
| `NoFalseAlarm.WindowFull` | thincan-file-transfer/src/tokio_impl.rs:690-757 | at every ack wait, also after timeouts, next = min(total, acked + window * chunk) |
| `NoFalseAlarm.HeadAckWelcome` | thincan-file-transfer/src/tokio_impl.rs:737-757 | the next ack in the channel passes the sender's range and completion tests |
| `NoFalseAlarm.OnlyFaultsFail` | thincan-file-transfer/src/tokio_impl.rs:1057-1150 | in every run of the honest pair no abort or reject is sent, all four offsets are chunk boundaries, and an end fails only at a timeout, transport error or store error |
| `BoundedRuns.RunsAreBounded` | thincan-file-transfer/src/tokio_impl.rs:640-758 | an explicit bound on the number of events of any run of the honest pair |
| `BoundedRuns.StoppedIff` | thincan-file-transfer/src/tokio_impl.rs:807-810 | no end can take a step if and only if both have returned, or the sender has and the receiver listens for an offer with none on the way |
| `BoundedRuns.ReceiverCanHang` | thincan-file-transfer/src/tokio_impl.rs:640-668 | for every transfer and every configuration, runnable or not, there is a run that ends in that hang |
| `LosslessRuns.LosslessTransferSucceeds` | thincan-file-transfer/src/tokio_impl.rs:690-758 | a run without loss, timeout or fault that can go no further has succeeded at both ends, with the file stored |
| `LosslessRuns.NeverMoreThanAWindow` | thincan-file-transfer/src/tokio_impl.rs:690-722 | in such runs at most a window of chunks is sent and not yet taken |
| `Recovery.LossesAreRecovered` | thincan-file-transfer/src/tokio_impl.rs:640-757 | runs that lose offers, chunks and progress acks, with timeouts within the retry limit and one after the last loss: if such a run can go no further, both ends have succeeded with the file stored |
| `LostAcks.LostForGood` | thincan-file-transfer/src/tokio_impl.rs:659-757 | after the loss of the accept or of the completion the sender never succeeds, whatever happens then |
| `Backpressure.BoxedFlows` | thincan/src/lib.rs:869-885 | with a mailbox in the way that holds a window of chunks, every state of a run without loss and faults keeps the plain channel's invariants and its bound on the chunks under way, the front ones of which are in the mailbox |
| `Backpressure.BoxedIsPlainRun` | thincan/src/lib.rs:869-885 | with the mailbox left out, such a run is a run of the plain channel |
| `Backpressure.NoChunkRefused` | thincan/src/lib.rs:395-412 | in such a run no push of a chunk into the mailbox is refused |
| `Backpressure.FirstChunkMatches` | thincan/src/lib.rs:414-430 | with any search that accepts the chunks of the transfer, also one that accepts everything, the receiver finds the chunk that is next in the channel at the front |
| `Mailbox.TypeMailbox.Push` | thincan/src/lib.rs:395-412 | appends to the sequence, or reports size or fullness and changes no slot |
| `Mailbox.TypeMailbox.FindMatch` | thincan/src/lib.rs:414-430 | the index of the first entry of that sender that satisfies the predicate |
| `Mailbox.TypeMailbox.PopMatchingWhere` | thincan/src/lib.rs:414-442 | removes exactly the first match, keeps the others in order and the free slots empty |
| `Mailbox.TypeMailbox.ShiftDown` | thincan/src/lib.rs:432-440 | closes the gap and clears the last used slot |
| `Bus.WireRoundTrip` | thincan/src/lib.rs:169-180 | a message's id and body survive encoding and decoding |
| `Bus.EncodeIntoBuf` | thincan/src/lib.rs:301-324 | the front of the buffer is the wire form of the message, or the error says what was too small |
| `Bus.SlotForId` | thincan/src/lib.rs:231-240 | the first index at which the id occurs |
| `Bus.ConcatIds` | thincan/src/lib.rs:1286-1299 | the bundles' ids, one after the other |
| `Bus.HasNoDuplicates` | thincan/src/lib.rs:1306-1319 | true exactly if all ids differ |
| `Bus.FirstMatchIsOldest` | thincan/src/lib.rs:414-430 | the first match in a mailbox is the oldest undelivered message that the receive asks for |
| `Bus.DeliveredOnceInOrder` | thincan/src/lib.rs:1007-1016 | of two receives, the later one on a later board, no message is delivered twice, and equal ones get messages in order of acceptance |
| `BusSession.Session` | thincan/src/lib.rs:869-1017 | over any sequence of arrivals and receives on a new interface the boards evolve call by call: an arrival adds its message or is refused, a receive gets the oldest undelivered message it asks for, and gets nothing only if there is none |
| `BusSession.DeliveredOnce` | thincan/src/lib.rs:1007-1016 | in such a session two receives that got messages got those of two different arrivals, and equal receives got them in order of arrival |
| `BusSession.NothingLost` | thincan/src/lib.rs:1007-1016 | a receive that gets nothing had nothing to get: every earlier arrival that it would take was delivered by a receive before it |
| `BusSession.DeliveredAsEncoded` | thincan/src/lib.rs:301-324 | in such a session an encoded message is delivered with the id and body it had before encoding |
| `Bus.Interface.Ingest` | thincan/src/lib.rs:869-885 | adds exactly the decoded message to the accepted ones, or reports why not and changes nothing |
| `Bus.Interface.TryReceive` | thincan/src/lib.rs:999-1013 | takes the oldest undelivered message with that id, sender and predicate, byte-exact, or there is none |
| `Wakeup.NoLostWakeup` | thincan/src/lib.rs:869-885 | a sleeping waiter with a fitting queued message can wake, or that message's ingest is yet to notify |
| `Wakeup.QuiescentMeansNothingFits` | thincan/src/lib.rs:991-1017 | when nothing can move, no queued message fits any waiter |
| `Wakeup.WokenWaiterDelivers` | thincan/src/lib.rs:1007-1016 | a woken waiter with a fitting message takes the oldest one at its next check |
| `CanTypes.NewFrame` | embedded-can/embedded-can-unix-socket/src/frame.rs:27-39 | accepts up to 64 bytes, keeps them and leaves zeros behind them |
| `CanTypes.NewRemote` | embedded-can/embedded-can-unix-socket/src/frame.rs:41-51 | a remote frame of the requested length, all zeros |
| `CanTypes.BitOfAnd` | embedded-can/embedded-can-unix-socket/src/server.rs:344-349 | bit k of the conjunction is the product of the bits k |
| `CanTypes.MaskedEqualIff` | embedded-can/embedded-can-unix-socket/src/server.rs:344-349 | the masked comparison holds exactly if both numbers agree on every bit that the mask sets |
| `CanTypes.FilterMatchIff` | embedded-can/embedded-can-unix-socket/src/server.rs:342-352 | a filter passes exactly the ids of its own width that agree with it on every bit of its mask |
| `CanTypes.FiltersMatchIff` | embedded-can/embedded-can-unix-socket/src/server.rs:333-340 | a list passes what one of its filters passes, an empty list everything |
| `Wire.FrameRoundTrip` | embedded-can/embedded-can-unix-socket/src/wire.rs:106-133 | a frame survives exactly if it is zero past its length |
| `Wire.SendFrameRoundTrip` | embedded-can/embedded-can-unix-socket/src/wire.rs:65-104 | the same for send-frames, with sequence number and ack flag |
| `Wire.AckRoundTrip` | embedded-can/embedded-can-unix-socket/src/wire.rs:135-147 | acks survive |
| `Wire.FiltersRoundTrip` | embedded-can/embedded-can-unix-socket/src/wire.rs:149-204 | a filter list survives exactly if it has fewer than 65536 entries and all widths match |
| `Wire.MismatchedFilterChangesMeaning` | embedded-can/embedded-can-unix-socket/src/wire.rs:155-164 | a mismatched filter matches nothing, its wire form every id of its width |
| `WireFormat.FrameDecodesIff` | embedded-can/embedded-can-unix-socket/src/wire.rs:115-133 | the byte strings that decode to a frame, and which bytes and flag bits its fields come from |
| `WireFormat.SendFrameDecodesIff` | embedded-can/embedded-can-unix-socket/src/wire.rs:80-104 | the same for send-frames |
| `WireFormat.FiltersDecodeIff` | embedded-can/embedded-can-unix-socket/src/wire.rs:172-204 | the same for filter lists, record by record |
| `LittleEndian.MostSignificantLast` | embedded-can/embedded-can-unix-socket/src/wire.rs:42-46 | numbers are read least significant byte first |
| `Wire.EncodeFrameInto` | embedded-can/embedded-can-unix-socket/src/wire.rs:106-113 | the buffer's front is the encoding of the frame |
| `Wire.EncodeSendFrameInto` | embedded-can/embedded-can-unix-socket/src/wire.rs:65-78 | the buffer's front is the encoding of the send-frame |
| `Wire.EncodeAckInto` | embedded-can/embedded-can-unix-socket/src/wire.rs:135-138 | the buffer is the encoding of the ack |
| `Wire.EncodeFiltersLoop` | embedded-can/embedded-can-unix-socket/src/wire.rs:149-170 | the loop builds the filter encoding |
| `Wire.DecodeFiltersLoop` | embedded-can/embedded-can-unix-socket/src/wire.rs:172-204 | the loop decodes all records or reports the first bad one |
| `Stream.StreamRoundTrip` | embedded-can/embedded-can-unix-socket/src/wire.rs:28-40 | any sequence of server messages, framed and concatenated, decodes to itself and then to what follows |
| `Stream.PrefixDecodesToPrefix` | embedded-can/embedded-can-unix-socket/src/client.rs:218-247 | a partial stream decodes to a prefix of the messages |
| `Stream.UnknownSkipped` | embedded-can/embedded-can-unix-socket/src/client.rs:357-376 | a message of an unknown type is passed over |
| `Client.UnixCan.ReadMoreOnce` | embedded-can/embedded-can-unix-socket/src/client.rs:205-216 | one read of the socket is the specified one |
| `Client.UnixCan.NextDecodedMsg` | embedded-can/embedded-can-unix-socket/src/client.rs:218-247 | parsing with an offset and compaction is the specified parsing of the bytes left |
| `Client.UnixCan.RecvDecodedMsg` | embedded-can/embedded-can-unix-socket/src/client.rs:249-261 | the parse and read loop reaches the specified message or error |
| `Client.UnixCan.NextSeq` | embedded-can/embedded-can-unix-socket/src/client.rs:135-139 | counts up and wraps at 64 bits |
| `Client.UnixCan.WriteAll` | embedded-can/embedded-can-unix-socket/src/client.rs:263-280 | the write loop leaves exactly the specified bytes, events and result |
| `Client.UnixCan.WriteMessage` | embedded-can/embedded-can-unix-socket/src/client.rs:282-297 | header, then payload |
| `Client.UnixCan.WaitFor` | embedded-can/embedded-can-unix-socket/src/client.rs:299-355 | the three wait loops reach the specified result, queue and stream |
| `Client.UnixCan.Send` | embedded-can/embedded-can-unix-socket/src/client.rs:382-388 | is the call whose meaning is stated below |
| `Client.UnixCan.TrySend` | embedded-can/embedded-can-unix-socket/src/client.rs:390-397 | the same without waiting |
| `Client.UnixCan.SetFilters` | embedded-can/embedded-can-unix-socket/src/client.rs:121-133 | the same with the local copy changed first |
| `Client.UnixCan.RecvFrame` | embedded-can/embedded-can-unix-socket/src/client.rs:413-426 | queue first, then the stream |
| `Client.UnixCan.DrainBuffer` | embedded-can/embedded-can-unix-socket/src/client.rs:432-440 | parses on as far as the buffer goes |
| `Client.UnixCan.TryRecvFrame` | embedded-can/embedded-can-unix-socket/src/client.rs:428-441 | queue, one read, then the buffer |
| `ClientCalls.ReadMoreKeeps` | embedded-can/embedded-can-unix-socket/src/client.rs:205-216 | a read changes nothing about what is still to be decoded |
| `ClientCalls.NextMsgTakes` | embedded-can/embedded-can-unix-socket/src/client.rs:218-247 | takes exactly the next message of the stream, or changes nothing |
| `ClientCalls.RecvMsgTakes` | embedded-can/embedded-can-unix-socket/src/client.rs:249-261 | the next message of the stream however the reads cut it; undisturbed, none only if none is left |
| `ClientCalls.WaitTakes` | embedded-can/embedded-can-unix-socket/src/client.rs:299-355 | reads the stream in order up to the first answer, which decides the result, and queues every frame read; undisturbed, it stays without an answer only if the stream holds none |
| `ClientCalls.RecvTakes` | embedded-can/embedded-can-unix-socket/src/client.rs:413-426 | returns the oldest pending frame, or loses none; undisturbed, it fails only if none is pending |
| `ClientCalls.TryRecvTakes` | embedded-can/embedded-can-unix-socket/src/client.rs:428-441 | the same with at most one read; it would block only if nothing at hand is left |
| `ClientCalls.WriteEnds` | embedded-can/embedded-can-unix-socket/src/client.rs:263-280 | a write is left waiting only when the socket stops, and undisturbed does not fail |
| `ClientCalls.WroteRequest` | embedded-can/embedded-can-unix-socket/src/client.rs:282-297 | what goes out is a prefix of the request itself, all of it if the write is Ok |
| `ClientCalls.AskHonoured` | embedded-can/embedded-can-unix-socket/src/client.rs:334-388 | Ok needs the request written whole and its own OK ack read, no-ack its own no-ack status; anything else written is a prefix of the request |
| `ClientCalls.AskAnswered` | embedded-can/embedded-can-unix-socket/src/client.rs:334-388 | the first answer decides; undisturbed, a call stays without one only if the stream holds none or its request does not get out |
| `ClientCalls.WaitReturns` | embedded-can/embedded-can-unix-socket/src/client.rs:299-355 | undisturbed, a wait reads exactly up to the first answer on the stream and returns what its status says: OK, no-ack or protocol error |
| `ClientCalls.CallReturns` | embedded-can/embedded-can-unix-socket/src/client.rs:378-388 | undisturbed and written out, `send` and `set_filters` return what the first answer to their number says |
| `ClientCalls.FaultEndsRead` | embedded-can/embedded-can-unix-socket/src/client.rs:159-216 | a read that meets a fault before a message is complete ends with that fault's error: closed, timed out or failed |
| `ClientCalls.BadFrontFails` | embedded-can/embedded-can-unix-socket/src/client.rs:218-247 | a front that does not decode is a protocol error and stays one |
| `ClientCalls.FaultEndsWrite` | embedded-can/embedded-can-unix-socket/src/client.rs:182-280 | a write that meets a fault ends with that fault's error, having written what was taken before |
| `ClientCalls.TryRecvFails` | embedded-can/embedded-can-unix-socket/src/client.rs:428-441 | `try_recv` passes on a closed or failed socket |
| `ClientCalls.CallKeeps` | embedded-can/embedded-can-unix-socket/src/client.rs:378-457 | for every call, whatever its result: frames pending before = frame returned ++ frames pending after, and no message is skipped |
| `ClientSession.RunIsGood` | embedded-can/embedded-can-unix-socket/src/client.rs:135-139 | on a new connection and before the numbers wrap, the bytes written are what each call wrote of its request, whole or cut off, under the numbers 1, 2, ..., and every result is honest about its request and its ack |
| `ClientSession.RunConserves` | embedded-can/embedded-can-unix-socket/src/client.rs:378-457 | over any sequence of calls, frames returned ++ frames pending = frames pending before |
| `ClientSession.RunExcused` | embedded-can/embedded-can-unix-socket/src/client.rs:141-203 | a call of a session is left waiting only when the socket stops and fails on the socket only if that was disturbed |
| `ClientSession.CallAll` | embedded-can/embedded-can-unix-socket/src/client.rs:378-457 | any sequence of calls gives exactly the specified results and connection |
| `ClientSession.ReturnsAsAnswered` | embedded-can/embedded-can-unix-socket/src/client.rs:378-388 | in an undisturbed session each `send` and `set_filters` whose request is taken returns what the first answer to its number still to come says |
| `ClientSession.LocalFilters` | embedded-can/embedded-can-unix-socket/src/client.rs:121-127 | the local copy of the filters is the list set last, acknowledged or not |
| `ClientSession.Connect` | embedded-can/embedded-can-unix-socket/src/client.rs:103-119 | waits for the greeting as specified |
| `ClientSession.ConnectsIffGreeted` | embedded-can/embedded-can-unix-socket/src/client.rs:103-119 | undisturbed, connecting succeeds exactly if the greeting is on the stream; frames that arrive before it are kept |
| `ClientSession.PlaySession` | embedded-can/embedded-can-unix-socket/src/client.rs:103-119 | connecting and making calls gives exactly the specified session: whether it connected, one result per call, and the bytes written |
| `ClientSession.PlayIsGood` | embedded-can/embedded-can-unix-socket/src/client.rs:103-139 | every such session has a good trace that starts after the greeting, and frames returned ++ frames pending = frames of the whole stream |
| `ClientSession.AllClearIsUncut` | embedded-can/embedded-can-unix-socket/src/client.rs:263-297 | if every writing call returned Ok or no-ack, none failed part-way through its write |
| `Server.StateFollowsCommands` | embedded-can/embedded-can-unix-socket/src/server.rs:248-323 | membership and filters are those of the last join, leave and filter commands, also for filters that arrive before the join |
| `Server.PendingApartFromConnected` | embedded-can/embedded-can-unix-socket/src/server.rs:254-319 | pending and connected ids never overlap |
| `Server.QueuedIsEntitled` | embedded-can/embedded-can-unix-socket/src/server.rs:279-331 | a client is queued exactly the frames that passed its latest filters while it was connected, in bus order |
| `Server.OneBusOrder` | embedded-can/embedded-can-unix-socket/src/server.rs:325-331 | every client's frames are a subsequence of one bus log |
| `Server.GreetingFirst` | embedded-can/embedded-can-unix-socket/src/server.rs:254-274 | whatever a client is queued starts with the greeting it waits for when it connects |
| `Server.FilterEpochs` | embedded-can/embedded-can-unix-socket/src/server.rs:254-320 | each frame in a queue passes the very list that was the client's latest when the last OK filter ack before it was queued |
| `Server.AckHasCause` | embedded-can/embedded-can-unix-socket/src/server.rs:285-300 | every frame ack stems from a send command of that client with that number, and its status says whether others were connected |
| `Server.QueuesOnlyGrow` | embedded-can/embedded-can-unix-socket/src/server.rs:248-323 | no command takes back or reorders what was queued |
| `Server.BusThread.BroadcastFrame` | embedded-can/embedded-can-unix-socket/src/server.rs:325-331 | each connected client whose filters match gets the frame once, in whatever order the map is walked |
| `Server.BusThread.Join` | embedded-can/embedded-can-unix-socket/src/server.rs:254-274 | greeting first, then the ack of filters that were waiting, which are in force from then on |
| `Server.BusThread.HandleCommand` | embedded-can/embedded-can-unix-socket/src/server.rs:248-323 | the new state is the specified one, for every command |
| `Server.BusThread.Loop` | embedded-can/embedded-can-unix-socket/src/server.rs:232-246 | handles the commands before the first shutdown, in order |
| `ServerReader.ReaderLoop` | embedded-can/embedded-can-unix-socket/src/server.rs:158-199 | the commands of a byte stream, including those for malformed messages and end of file |
| `ServerReader.ReadSendsAreClean` | embedded-can/embedded-can-unix-socket/src/wire.rs:80-104 | whatever bytes arrive, frames handed to the bus are zero past their length |
| `ServerReader.RequestReadsBack` | embedded-can/embedded-can-unix-socket/src/wire.rs:42-57 | a request is read as its command exactly if it fits; more than 454 filters end the connection |
| `ServerReader.RequestsRoundTrip` | embedded-can/embedded-can-unix-socket/src/server.rs:158-199 | requests that fit are read as sent, in order |
| `ServerReader.ReadCommandWasRequested` | embedded-can/embedded-can-unix-socket/src/server.rs:158-199 | however much was read of a stream of whole requests, each command is a hang-up or the command of one of them |
| `ServerReader.RemovesIff` | embedded-can/embedded-can-unix-socket/src/server.rs:158-182 | the reader removes its client exactly if the stream has ended or holds an over-long message or a malformed send-frame, once and as its last command, and speaks only for its own client |
| `ServerReader.OddMessages` | embedded-can/embedded-can-unix-socket/src/server.rs:184-197 | a malformed filter list is passed on under the number 0, other message types are ignored |
| `BusMeaning.QueuesSendable` | embedded-can/embedded-can-unix-socket/src/server.rs:201-230 | everything the bus queues can be written to the stream |
| `BusMeaning.WriterLoop` | embedded-can/embedded-can-unix-socket/src/server.rs:201-230 | the queue goes out framed and in order, exactly up to where the socket fails, which removes the client |
| `BusMeaning.DecodedWasQueued` | embedded-can/embedded-can-unix-socket/src/client.rs:205-247 | what a client decodes so far is a prefix of what was queued for it |
| `BusMeaning.AckMeansOnTheBus` | embedded-can/embedded-can-unix-socket/src/server.rs:279-300 | whatever was written, whole or cut off: an OK ack means that a frame which the server read under that number was handled with another client connected and queued for exactly the connected clients with matching filters, ahead of the ack |
| `BusMeaning.SendOkMeansOnTheBus` | embedded-can/embedded-can-unix-socket/src/client.rs:334-388 | before the numbers wrap, and if no call so far failed part-way through a write, a `send` whose result is Ok means this of the very frame sent |
| `BusMeaning.SendOkAfterClearCalls` | embedded-can/embedded-can-unix-socket/src/client.rs:334-388 | the same if every writing call so far returned Ok or no-ack, which an application can check |
| `BusMeaning.ServerSide` | embedded-can/embedded-can-unix-socket/src/server.rs:201-246 | the bus thread and the writer put exactly the bytes of the queue on the stream, up to where the socket fails |
| `BusMeaning.Together` | embedded-can/embedded-can-unix-socket/src/server.rs:138-156 | client, reader, bus thread and writer, each running its own code: the results and bytes are those of the specified session, `fits` says exactly whether the streams agree, and if they do and nothing was cut off, every send whose result is Ok was on the bus |
| `BusMeaning.NoAckMeansAlone` | embedded-can/embedded-can-unix-socket/src/server.rs:285-300 | a no-ack status means that no other client was connected when the frame was handled |
| `BusAnswers.EveryRequestAnswered` | embedded-can/embedded-can-unix-socket/src/server.rs:279-320 | every request of a connected client is answered at once: OK exactly if somebody else is connected, else no-ack; filters OK, or an error under the number 0 |
| `BusAnswers.GoneForGood` | embedded-can/embedded-can-unix-socket/src/server.rs:275-278 | a client that was removed is not connected and is queued nothing more |
| `BusAnswers.ClosedIsGone` | embedded-can/embedded-can-unix-socket/src/server.rs:158-166 | a client whose stream has ended or is broken is gone once its reader's commands are handled |
| `BusAnswers.LastOneIsAlone` | embedded-can/embedded-can-unix-socket/src/server.rs:285-300 | when all others have closed, a send is told that nobody acknowledged |
| `BusMeaning.FramesPassReadFilters` | embedded-can/embedded-can-unix-socket/src/server.rs:301-320 | whatever was written: every frame a client decodes passes the list of the very filter command behind the last OK filter ack before it |
| `BusMeaning.FramesPassRequestedFilters` | embedded-can/embedded-can-unix-socket/src/client.rs:121-133 | if no call so far failed part-way through a write, that list is the one requested under the ack's number (as the wire carries it) |
| `CutOffWrites.SmuggledRequest` | embedded-can/embedded-can-unix-socket/src/client.rs:263-297 | after a header without its payload, any request that fits into the data of the next frame is read by the server as a request of its own |
| `CutOffWrites.CutSessionReads` | embedded-can/embedded-can-unix-socket/src/client.rs:103-139 | the client's own code plays this: it is greeted, a call times out after its header, and the next one is written whole, returns Ok if the ack under its number is the one to come, and else reads all there is |
| `Trust.SendOkCanLie` | embedded-can/embedded-can-unix-socket/src/client.rs:263-297 | such a session in which `send` returned Ok and its frame was never on the bus |
| `Trust.FiltersCanLie` | embedded-can/embedded-can-unix-socket/src/client.rs:263-297 | such a session, of sends only, that has read an OK filter ack and a frame after it |
| `Trust.TrustworthyIff` | embedded-can/embedded-can-unix-socket/src/client.rs:263-297 | over all sessions of the client's code, Ok means on the bus if and only if the application stops using a connection after a cut-off write, or at any error of a writing call |
| `Trust.FiltersTrustedIff` | embedded-can/embedded-can-unix-socket/src/client.rs:263-297 | the same for acknowledged filters |
| `FilterBanks.PackAccepts` | embedded-can/embedded-can-embassy-stm32/src/bxcan.rs:65-107 | the packed banks accept the union of the filters |
| `FilterBanks.PackSize` | embedded-can/embedded-can-embassy-stm32/src/bxcan.rs:30-60 | the packing takes one bank per extended filter and per pair or single of neighbouring standard filters |
| `FilterBanks.FirstFaultIff` | embedded-can/embedded-can-embassy-stm32/src/bxcan.rs:30-55 | a list is refused exactly if a filter has mixed widths or a mask beyond 11 or 29 bits, and for the first such filter |
| `FilterBanks.CountBanks` | embedded-can/embedded-can-embassy-stm32/src/bxcan.rs:30-60 | the first pass counts exactly the banks the second one enables, or reports the first invalid filter |
| `FilterBanks.AllocateOne` | embedded-can/embedded-can-embassy-stm32/src/bxcan.rs:69-104 | one filter of the second pass enables the next free banks, each once, within the byte counter |
| `FilterBanks.Allocate` | embedded-can/embedded-can-embassy-stm32/src/bxcan.rs:65-107 | the second pass enables banks 0, 1, ... with the packing and no other |
| `FilterBanks.SetFilters` | embedded-can/embedded-can-embassy-stm32/src/bxcan.rs:18-110 | errors exactly when a filter is invalid or the banks do not suffice, and then no bank changes; otherwise exactly the needed banks are enabled and accept an id if and only if some filter agrees with it on every bit of its mask, an empty list everything |
| `RequestActor.EachCallerGetsItsOwnResult` | iso-tp/can-isotp-queue/src/embassy.rs:211-269 | in every interleaving the results returned are, in order, the node's results for those very calls; at most one request or response is in flight and draining drops nothing |
| `RequestActor.BurstsAreBounded` | iso-tp/can-isotp-queue/src/embassy.rs:390-442 | at most the burst limit of sends (at least 1) between two receive polls |
| `RequestActor.EventsAreDeliveries` | iso-tp/can-isotp-queue/src/embassy.rs:442-478 | events taken, queued and in hand are the node's deliveries, filtered by source and relabelled, in order |
| `RequestActor.DeliveryIsExact` | iso-tp/can-isotp-queue/src/embassy.rs:442-478 | each result of a poll: a delivery becomes an event exactly if its source is allowed, with its bytes and the configured label; too-small and errors are passed on, nothing is nothing |
| `RequestActor.PollComesNear` | iso-tp/can-isotp-queue/src/embassy.rs:390-442 | each step of the actor brings its next poll nearer, so requests cannot starve receiving; without a request the poll comes next |
| `RequestActor.BurstGoesOn` | iso-tp/can-isotp-queue/src/embassy.rs:390-440 | the burst goes on while requests wait, up to the configured number of sends and no sooner |
| `RequestActor.TooLargeIff` | iso-tp/can-isotp-queue/src/embassy.rs:211-225 | a call is turned away exactly if its bytes exceed the payload |
| `RequestActor.RecvOneInto` | iso-tp/can-isotp-queue/src/embassy.rs:304-337 | copies the payload to the front of the buffer, or reports and leaves the buffer alone |
| `RequestActor.RunActor` | iso-tp/can-isotp-queue/src/embassy.rs:366-480 | the actor's nested loops under any schedule are a run of the step machine |
| `RequestActor.Burst` | iso-tp/can-isotp-queue/src/embassy.rs:391-440 | the burst loop, up to the limit or until no request waits |
| `RequestActor.ServeOne` | iso-tp/can-isotp-queue/src/embassy.rs:393-437 | one request, from the queue over the node to its response |
| `RequestActor.PollOnce` | iso-tp/can-isotp-queue/src/embassy.rs:442-478 | one receive poll and the event it may become |
| `RequestActor.PublishEvent` | iso-tp/can-isotp-queue/src/embassy.rs:340-364 | the event waits for room in the queue and is handed over |

## Left out

- Cap'n Proto encoding and decoding: messages are typed records, and a malformed body is one of the environment's answers.
- Clocks, `poll`, sockets, threads and async runtimes: a timeout or an error is an event that may happen at any wait that has a deadline.
- The end of the allocation-free receiver (thincan-file-transfer/src/tokio_impl.rs:1451-1489 and 1637-1701): its loop is modelled in its own form, but for the commit and completion it uses the same two methods as the other receiver, whose code there is the same.
- The receiver's second look at a chunk's transfer id (thincan-file-transfer/src/tokio_impl.rs:1031-1055 and 1544-1568): the filter before it already rules other ids out.
- Reuse of a transfer id in a later session: stale messages of the earlier one are not told apart by the protocol.
- Cancelled sends of the embassy queue: a caller that gives up between request and response is not modelled.
- Liveness of the simulated bus and of the request actor: only what has happened is constrained, not that it happens.
- Arbitration on the simulated bus: the crate's README mentions it, the code does not do it.
- Commands of a reused client id: client ids are taken to be fresh, as the accept loop's counter hands them out.
- `modify_filters` and its handle: they only forward to `set_filters`.
- The `maplet!` form without duplicate check: a repeated id then leaves its later slot unused, and routing is stated for that case too.
- ISO-TP endpoints for Linux, socketcan adapters, FDCAN filter tables and the tokio queue: wrappers and table filling that would only add easy members.
- Hooks, backpressure logging, benches, examples and the command line: no property beyond single calls.
