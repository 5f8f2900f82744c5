# Verified model of the UDSP transport

UDSP carries prioritised, ordered streams over UDP. A sending stream queues packets, cuts
them into chunks (a small packet, or a begin chunk and pieces), and keeps each reliable
packet until it is acknowledged or its deadline passes. A receiving stream keeps a queue
with placeholders for missing packets, delivers in order, acknowledges, asks for
retransmission, and gives up by its own clock. A connection multiplexes the streams into
datagrams by priority, and controls datagram size, sending rate and loss reports.

This project models that behaviour in Dafny and proves what holds over every run.
`dafny verify dfyconfig.toml` checks all of it.

## How it is built

- **Meaning.** `RxModel` and `TxModel` say on values what each operation of a receiving and a
  sending stream does. `Protocol` joins one of each over a network that may lose, duplicate
  and reorder chunks, with free clocks; every run is a list of steps.
- **Invariant.** `Runs.RunInv` proves one invariant of every run, built from four parts:
  `RxOrder` (order, contiguity), `TxOrder` (conservation), `Soundness` (what an
  acknowledgement means), `Payload` and `Pieces` (which bytes arrive). `Guarantees` reads the
  promises off it. `GapExample` and `GiveUpExample` are concrete runs which show that the
  exceptions in those promises are needed.
- **Progress.** `SenderLaws` and `ReceiverLaws` say in the fields of a packet and the clock what
  each operation must do: when a packet is due, reported, acknowledged, asked for or given up.
  `Assembly` follows a packet through its pieces. `Progress` carries this to every run: what is
  due is sent, what arrives is answered, and one round trip brings the oldest packet home.
- **Code.** `RxStreams`, `Receivers`, `TxStreams`, `Selection`, `Requests` and `Connections`
  are the imperative code, with its loops and in-place updates, each method proved to do what
  the model says. `Refinement` shows that each operation of a connection is, to each of its
  streams, a list of steps of `Protocol`. `Outgoing` and `Filling` hold what one datagram keeps
  while it is filled, `Incoming` what one data chunk keeps of a receiving stream.
- **Two connections.** `Ends` is a connection as a value, which the class keeps equal to its
  fields. `TwoConnections` lets two of them send, write and read in any order, with any number
  of streams. After every session each stream of either direction is a run of `Protocol`, so
  the promises of `Guarantees` hold of connections.
- **Format.** `Chunks`, `Codec` and `Datagrams` are the byte format.
- **Control.** `Scheduler`, `PacketSearch`, `Pmtu`, `LossWindow` and `RateControl`.

Callbacks become logs: `RxEvent` for `onReceived`, `TxEvent` for `onDelivered`. The clock, the
round-trip time, the buffering threshold and the random slot of the scheduler are parameters
or free choices. Machine widths are written out where a sum or product can wrap.

## Results that go against the source's own words

- **A gap delivers zeros.** The repeat range of a piece that arrives ahead is computed after
  the offset was overwritten, so the missing bytes are never asked for.
  `GapExample.GapDeliversZeros` is a run that delivers them as zeros, and
  `GapExample.GapLeavesAHole` one that leaves them out of the pieces.
  `Guarantees.DeliveredBytes` and `Guarantees.PieceEventsTile` say for every run which bytes
  come, and exactly when they are the payload.
- **'s' at the sender is not delivery.** An id below the front is acknowledged even if the
  receiver timed it out (`GiveUpExample.AcknowledgedNotDelivered`).
  `Guarantees.AckSoundness` proves, in both directions, that this is the only exception.
- **Share tests wrap.** `count * 100` is a 32-bit product. `Scheduler.ShareTestExactIff`
  proves that each of the six tests is right for every total exactly up to 42949672 bytes.
- **The receiver's wrap branch repeats an id** (`RxOrder.WrapRepeatsAnId`).
  `RxOrder.EmplaceContiguousIff` proves that the queue stays contiguous exactly when that
  branch is not taken.
- **The front can move backwards** (`RxOrder.LateIdRewindsFront`).
  `RxOrder.FrontRewindsIff` says exactly when.
- **A repeat request may name an offset outside the payload**, which is stored unchecked
  (`Outgoing.RequestOutside`). `Outgoing.ReadRepeatOk` proves that the queue stays fit for
  sending exactly when it does not, `TxStreams.PieceInsideIff` that the bytes of a piece lie in
  the payload exactly when its offset does, and `TwoConnections.ConnectionsStayValid` that a
  peer which runs this code never asks for one.
- **Disconnect is silent about acknowledged packets** that wait behind an unacknowledged one
  (`TxOrder.NobodyReportsTheSecond`). `TxOrder.ReportedOnceIff` proves that every packet of a
  stream's life is reported exactly once if and only if there is none.
- **A cut acknowledgement passes the end of the datagram.** With 3, 4 or 5 bytes left readChunk
  returns 6, against the assertion of its caller (`Codec.CutAckOverruns`).
  `Codec.ReadDatagram` proves that the loop stays inside exactly when no such chunk is left,
  and `Codec.WrittenStaysInside` that what the writer makes has none.
- **A flag can outlive its cause.** After bad feedback of one kind, good feedback of the other
  kind alone lowers the limit for ever (`RateControl.GoodLowers`); `RateControl.FlagsClearIff`
  says exactly when a flag clears.

- **The loss window loses one across the wrap.** There the number of expected datagrams is one
  less than the distance (`LossWindow.ExpectedIs`, which also says that a late datagram expects
  none).

## Model

| member | source | states |
|---|---|---|
| Guarantees.AckSoundness | UdspSocket/Stream.cpp:628-743 | in every run over a lossy, duplicating, reordering network, a reliable packet reported 's' was delivered or is held by the receiver if and only if the receiver did not time it out itself |
| Progress.ReceivedIsAnswered | UdspSocket/Stream.cpp:676-918 | in every run of a reliable stream, a packet that was delivered or is held complete has its acknowledgement waiting at the receiver or on the wire: the other direction of acknowledgement soundness |
| Progress.BroughtIsAnswered | UdspSocket/Stream.cpp:906-914 | a reliable chunk that brings its packet home puts its acknowledgement at the end of the queue, for small packets and for pieces |
| Progress.DueIsSent | UdspSocket/Stream.cpp:253-606 | in every reachable state in which a packet is due, an offer with 18 bytes of room puts a chunk of the first due packet on the wire, cut as its kind demands |
| Progress.OneRoundTrip | UdspSocket/Stream.cpp:122-1051 | from every reachable state in which the oldest packet is due and fits one chunk, and the receiver has room, one round trip without loss reports it as 's' |
| Progress.WantedIsAsked | UdspSocket/Stream.cpp:200-251 | with nothing to acknowledge and room for a request, a packet that lacks something is asked for, with its own offset and size, and then asks no more |
| Progress.MissingBeginIsWanted | UdspSocket/Stream.cpp:866-871 | in every run a reliable piece whose begin chunk is missing leaves its packet asking for offset 0 |
| Progress.RequestRestarts | UdspSocket/Stream.cpp:946-963 | in every run a request from offset 0 makes the sender start again: the next chunk of the packet is the whole packet or its begin chunk |
| Guarantees.EndToEnd | UdspSocket/Stream.cpp:253-1051 | 's' means the receiving application has, or is about to get, exactly the bytes handed to send(), if and only if the receiver did not time the packet out and no byte was jumped over, or only zeros of a buffer |
| Guarantees.FrontRuleSafety | UdspSocket/Stream.cpp:972-1051 | a reliable packet dropped for being below the front was already reported 't' by the sender |
| Guarantees.BelowFrontAccounted | UdspSocket/Impl.hpp:288-308 | every id below frontPacketId of a reliable stream was received, given up by the receiver, or timed out by the sender |
| Guarantees.DeliveredBytes | UdspSocket/Stream.cpp:804-918 | a delivered buffer is the payload with zeros exactly at the skipped bytes; it equals the payload if and only if the skipped bytes were zero |
| Guarantees.PieceEventsTile | UdspSocket/Stream.cpp:866-916 | 'p' events are true slices and never overlap; the pieces of a packet are the bytes up to an offset that no piece jumped over, and at 's' they are the payload if and only if none was |
| Guarantees.InOrderAtMostOnce | UdspSocket/Stream.cpp:972-1018 | terminal callbacks of a run have strictly increasing ids that were all sent |
| Guarantees.OffsetsStayInside | UdspSocket/Stream.cpp:544-600 | every offset still to be sent, every piece and every repeat request on the wire lies inside its payload |
| Runs.RunInv | UdspSocket/Stream.cpp:253-1051 | the invariant of every run with fewer ids than a quarter of the circle |
| Runs.FrontIsSettled | UdspSocket/Stream.cpp:472 | a chunk marked front proves that everything older is settled on both sides |
| Runs.NextChunkOk | UdspSocket/Stream.cpp:463-604 | a chunk cut from the queue carries true bytes and is marked front only at the oldest packet |
| Soundness.DropIsSafe | UdspSocket/Stream.cpp:987-998 | a packet about to be dropped for being below the front was timed out by the sender |
| Soundness.ReadDataSound | UdspSocket/Stream.cpp:627-918 | each data chunk keeps every queued acknowledgement, the front and every drop accounted for, and loses nothing received |
| Payload.ReadDataTrue | UdspSocket/Stream.cpp:627-918 | each data chunk keeps every buffered byte equal to the payload outside the skipped bytes |
| Pieces.ReadDataTiled | UdspSocket/Stream.cpp:804-918 | each data chunk keeps the pieces of every packet equal to what was reached of it, also after a jump and after a restart |
| Pieces.ReachedIsPrefix | UdspSocket/Stream.cpp:880-885 | what is reached is the prefix itself if and only if nothing in it was jumped over |
| GapExample.GapDeliversZeros | UdspSocket/Stream.cpp:880-885 | a run in which five sevens are sent and two zeros and three sevens are delivered as 's' |
| GapExample.GapLeavesAHole | UdspSocket/Stream.cpp:880-885 | the same run without a buffer reports 's' after pieces that leave out the first two bytes |
| GiveUpExample.AcknowledgedNotDelivered | UdspSocket/Stream.cpp:690-700 | a run in which the sender reports 's' for a packet the receiver timed out |
| RxOrder.OrderedAtMostOnce | UdspSocket/Stream.cpp:972-1018 | for every sequence of chunks, honest or not, with ids below UINT32_MAX/4: terminal events strictly increase and the queue stays contiguous with its front at most frontPacketId |
| RxOrder.GetFinds | UdspSocket/Impl.hpp:398-421 | get() appends placeholders only and finds the packet it was asked for, so its fallback is unreachable |
| RxOrder.ReadDataOk | UdspSocket/Stream.cpp:627-918 | every data chunk keeps the queue contiguous, its buffers of the packet size and the log ordered |
| RxOrder.EmplaceContiguousIff | UdspSocket/Impl.hpp:339-397 | on the id circle emplace() keeps the queue contiguous if and only if it does not take the wrap branch |
| RxOrder.WrapRepeatsAnId | UdspSocket/Impl.hpp:367-387 | a queue that takes the wrap branch, and the id it then holds twice |
| RxOrder.ReceivedBeforeIsBehind | UdspSocket/Impl.hpp:309-337 | an id counts as received before if and only if it lies at most a quarter of the circle behind the front |
| RxOrder.FrontRewindsIff | UdspSocket/Impl.hpp:288-308 | for every queue and id, the front moves behind itself if and only if the oldest queued id, or the id of a chunk marked front, is three quarters of the circle above it |
| RxOrder.LateIdRewindsFront | UdspSocket/Impl.hpp:298-307 | such an id: one from before the wrap that comes late |
| ReceiverLaws.ProcessPops | UdspSocket/Stream.cpp:972-1018 | in the fields: a pass removes the longest run of packets from the front that are complete, below the front or past their time, reports for each which of these held, and moves the front behind them |
| ReceiverLaws.ReadDataHasIff | UdspSocket/Stream.cpp:650-918 | a data chunk brings home exactly its own packet, if and only if it reaches it and is a small packet or the piece that ends it in order |
| ReceiverLaws.ReadDataAnswersIff | UdspSocket/Stream.cpp:650-918 | it queues an acknowledgement, its own and at the end, if and only if it brings a reliable packet home or carries payload for an id below the front |
| ReceiverLaws.OthersStay | UdspSocket/Impl.hpp:339-397 | the packet a chunk reaches waits from now for its grace; every other one stays as it was, or is a new placeholder that waits 50 ms |
| ReceiverLaws.OldestWaits | UdspSocket/Stream.cpp:650-918 | after a small packet, a begin chunk or a completing piece the oldest packet left is neither complete nor below the front nor past its time |
| ReceiverLaws.PieceMoves | UdspSocket/Stream.cpp:866-916 | a piece that does not complete its packet: what it stores, what it passes on, and what it asks for, in each of its cases |
| Assembly.InOrderArrives | UdspSocket/Stream.cpp:744-918 | from every state with only a placeholder for it, a begin chunk and all pieces in order bring the packet to the application with its bytes, and its acknowledgement to the end of the queue |
| Assembly.BeginIsOnce | UdspSocket/Stream.cpp:744-803 | a second begin chunk brings its packet nothing but time |
| TxOrder.SenderConservation | UdspSocket/Stream.cpp:122-171 | for every sequence of sends, offers, acknowledgements and repeat requests, the packets ever sent are the reported ones, once each, in order, as 's' or 't', followed by the queue |
| TxOrder.ProcessPasses | UdspSocket/Stream.cpp:1020-1051 | in the fields: a pass removes the longest run of packets from the front that are acknowledged or past their deadline, and reports 's' exactly for the first kind, 't' exactly for the second |
| SenderLaws.ReportsExplained | UdspSocket/Stream.cpp:1020-1051 | after any inputs, a packet is reported 't' only if the sender looked at its clock past the deadline handed to send(), and 's' of a reliable stream only if its acknowledgement came after it was sent |
| SenderLaws.OldestIsAlive | UdspSocket/Stream.cpp:1020-1051 | after any inputs and an offer, the oldest packet left is not acknowledged and not past its deadline |
| SenderLaws.AckMarks | UdspSocket/Stream.cpp:628-649 | an acknowledgement marks the packet it names, no other, and a pass follows |
| SenderLaws.AckReports | UdspSocket/Stream.cpp:628-649 | the oldest packet is reported 's' at once |
| SenderLaws.RepeatMoves | UdspSocket/Stream.cpp:946-963 | a repeat request moves exactly the packet it names, if reliable, to the offset; at 0 it has not started |
| SenderLaws.SentIsDue | UdspSocket/Stream.cpp:122-171 | a packet handed to send() starts at its first byte and is due at once, up to its deadline |
| SenderLaws.NextKind | UdspSocket/Stream.cpp:463-604 | a packet not started is sent whole if it fits and announced if not; one that has started gives its next bytes, as many as fit |
| SenderLaws.NoChunkIff | UdspSocket/Stream.cpp:463-552 | in bytes, exactly when no chunk of a packet fits the room |
| SenderLaws.DueAgainIff | UdspSocket/Stream.cpp:485-600 | for each kind of chunk, exactly when its packet is due again: two round trips later, in the next datagram, at once or never |
| TxOrder.DisconnectReportsTheRest | UdspSocket/Stream.cpp:1053-1076 | disconnect reports 'd' for exactly the queued packets not acknowledged, once each and in order |
| TxOrder.ReportedOnceIff | UdspSocket/Stream.cpp:1020-1076 | after any inputs and a disconnect, every packet ever sent was reported exactly once, in order, if and only if none in the queue is acknowledged |
| TxOrder.NobodyReportsTheSecond | UdspSocket/Stream.cpp:1058-1069 | two sends, an acknowledgement of the second, and a disconnect: the second is never reported |
| RxStreams.RxStream.UpdateFrontPacketId | UdspSocket/Impl.hpp:288-308 | below the first quarter the front becomes the maximum; on the whole circle it moves behind itself exactly in the case of FrontRewindsIff |
| RxStreams.RxStream.ReceivedBefore | UdspSocket/Impl.hpp:309-337 | the answer is the distance on the circle behind the front, against a quarter of it |
| RxStreams.RxStream.Emplace | UdspSocket/Impl.hpp:339-397 | appends the placeholders of the model, in both queues, also across the wrap |
| RxStreams.RxStream.Get | UdspSocket/Impl.hpp:398-421 | for every id, the last position that holds it or the oldest; away from the wrap it is found for every id from the front on, so the assertion holds |
| RxStreams.RxStream.PopFront | UdspSocket/Stream.cpp:1011-1016 | removes the front of both queues and moves frontPacketId and packetIdx |
| Receivers.Receiver.ProcessRxFifo | UdspSocket/Stream.cpp:972-1018 | the loop reports and removes exactly the packets the model does, at the wrap too |
| Receivers.Receiver.ReadSmall | UdspSocket/Stream.cpp:650-743 | for every id a small packet does to queue, acknowledgements and callbacks what the model says |
| Receivers.Receiver.ReadBegin | UdspSocket/Stream.cpp:744-803 | the same for a begin chunk |
| Receivers.Receiver.ReadPiece | UdspSocket/Stream.cpp:804-918 | the same for a piece; what it must do is ReadDataHasIff, ReadDataAnswersIff and PieceMoves |
| Receivers.Receiver.WithPiece | UdspSocket/Stream.cpp:867-916 | the tests of a piece, in the source's order; the bytes fit the buffer wherever the buffer has the size of the packet |
| Receivers.Receiver.FindRepeat | UdspSocket/Stream.cpp:205-210 | the round robin over the queue stops where the model's does |
| TxStreams.ProcessTxFifo | UdspSocket/Stream.cpp:1020-1051 | the loop reports and removes exactly the packets of ProcessPasses |
| TxStreams.ScanStream | UdspSocket/Stream.cpp:276-315 | the scan stops at the first due packet of ScanFindsIff, with the return to the oldest packet |
| TxOrder.ScanFindsIff | UdspSocket/Stream.cpp:276-315 | in the fields: the scan finds a packet if and only if one from its start on, within 131072, is unacknowledged, before its deadline, new to the datagram, and started or begun two round trips ago; it stops at the first, and starts at the oldest when the return time is due |
| TxStreams.CutChunk | UdspSocket/Stream.cpp:463-604 | the chunk and the packet left behind are those of the model, unless the piece starts past the payload, which it tells exactly |
| TxStreams.PieceInsideIff | UdspSocket/Stream.cpp:552-555 | with the size from a uint64 subtraction, the bytes of a piece lie inside the payload if and only if its offset does |
| TxStreams.FindPacket | UdspSocket/Stream.cpp:640-644 | the binary search agrees with a linear search |
| TxStreams.ReadAck | UdspSocket/Stream.cpp:628-649 | an acknowledgement for any id does what the model says |
| TxStreams.ReadRepeat | UdspSocket/Stream.cpp:946-963 | a repeat request for any id does what the model says |
| TxStreams.ConservedConsecutive | UdspSocket/Stream.cpp:165-169 | a conserved queue is consecutive modulo 2^32, which is all the search needs |
| TxStreams.ReportDisconnected | UdspSocket/Stream.cpp:1058-1069 | the loop reports what the model says |
| PacketSearch.FindPacketIdx | UdspSocket/Connection.cpp:72-102 | on consecutive ids that may wrap inside: terminates without underflow, returns the one position of the id, or SIZE_MAX exactly when it is absent |
| Outgoing.ChunkFits | UdspSocket/Stream.cpp:463-604 | a chunk fits the space it was cut for and the fields of the format; the default branches of the width switches are unreachable |
| Outgoing.NotTwice | UdspSocket/Stream.cpp:293-311 | a packet the scan stops at has given the datagram nothing, or only its begin chunk |
| Outgoing.WriteRemembers | UdspSocket/Stream.cpp:485-600 | writing a chunk leaves a mark that keeps the packet out of the datagram, and keeps earlier marks |
| Filling.CutStep | UdspSocket/Stream.cpp:463-604 | with one more data chunk the datagram still holds no payload twice, over all streams |
| Filling.RepeatStep | UdspSocket/Stream.cpp:207-246 | with one more repeat request no packet is asked for twice in the datagram |
| Selection.GroupByPriority | UdspSocket/Impl.hpp:234-245 | every stream is once in the vector of its priority, and in no other |
| Selection.ScanClass | UdspSocket/Stream.cpp:267-322 | the class offers the first ready stream from vecIdx on, scans no stream twice and leaves other classes alone |
| Selection.ScanAll | UdspSocket/Stream.cpp:264-323 | what the four classes offer is independent of the order of the search |
| Selection.WorkConserving | UdspSocket/Stream.cpp:325-454 | no stream is chosen if and only if no queue has a packet to send; the chosen one has one and is of the chosen class |
| Selection.SendNext | UdspSocket/Stream.cpp:253-606 | the chosen stream alone gives its next chunk, if it fits |
| Selection.FullMeans | UdspSocket/Stream.cpp:253-606 | a datagram that takes no more data has fewer than 18 bytes left, or no stream has a due packet |
| Selection.AccountedTotal | UdspSocket/Stream.cpp:495-601 | the bytes of a chunk are counted once, for the class that sent it |
| Selection.RotatedIs | UdspSocket/Stream.cpp:457-461 | the class that had its turn, and only it, moves on by one stream |
| Requests.ScanRepeats | UdspSocket/Stream.cpp:200-251 | a request comes from the first waiting stream in turn and from a packet that wants one, and marks it; there is none only if no queue wants one or one does not fit |
| Requests.WaitsIff | UdspSocket/Stream.cpp:205-210 | the scan of a stream finds a packet if and only if one of its turns wants a retransmission before it meets one already in the datagram |
| Requests.WantedIff | UdspSocket/Stream.cpp:205-210 | with no packet in the datagram yet, one is found if and only if some queued packet wants it |
| Requests.ScanRepeatFirst | UdspSocket/Impl.hpp:482-491 | the round robin goes on behind the packet it stopped at and takes the first that wants something |
| Requests.ScanForRequest | UdspSocket/Stream.cpp:203-210 | the pass over one queue and its round robin, run in place on a loaded stream, are the model's |
| Refinement.DataChunkIsStep | UdspSocket/Stream.cpp:253-606 | to every sending stream writeDataChunk is a list of steps of the model that puts exactly its chunk, if any, on the wire |
| Refinement.RequestIsStep | UdspSocket/Stream.cpp:200-251 | to every receiving stream the search for requests is a list of steps that sends back exactly its request, if any |
| Refinement.AckIsStep | UdspSocket/Stream.cpp:183-199 | writing an acknowledgement is a step of every receiving stream |
| Refinement.AcksAreSteps | UdspSocket/Stream.cpp:183-199 | the acknowledgements of a datagram are steps of a stream that does not exist yet, too |
| Refinement.OtherAckIsStep | UdspSocket/Stream.cpp:676-743 | a data chunk of another stream is to a stream nothing, or a foreign acknowledgement in the shared queue |
| TwoConnections.SessionsAreRuns | UdspSocket/Stream.cpp:122-1051 | after every interleaving of sends, datagrams and reads by two connections, each stream from one to the other is a run of the two-endpoint model, with the packets sent, the chunks and the queues as they are |
| TwoConnections.BothWaysAreRuns | UdspSocket/Stream.cpp:122-1051 | the same in both directions at once |
| TwoConnections.ConnectionsStayValid | UdspSocket/Stream.cpp:946-963 | after every session both connections can go on sending: no offset left its payload, no receiving queue is near the wrap, and all that is on the way can be read |
| TwoConnections.ConnectionAckSoundness | UdspSocket/Stream.cpp:628-743 | for every stream of two connections, a packet reported 's' was delivered or is held by the other side if and only if that side did not time it out |
| TwoConnections.ConnectionAnswered | UdspSocket/Stream.cpp:676-918 | each packet that arrived on a stream of two connections has its acknowledgement waiting or on the way back |
| TwoConnections.ConnectionEndToEnd | UdspSocket/Stream.cpp:253-1051 | and its bytes are with the other application, or ready for it, if and only if also nothing harmful was jumped over |
| TwoConnections.ConnectionInOrder | UdspSocket/Stream.cpp:972-1018 | every stream of two connections reports each packet at most once, in order, and only packets that were sent on it |
| Connections.Connection.Send | UdspSocket/Stream.cpp:122-171 | refuses an empty payload and a timeout below 10 ms and changes nothing, otherwise appends the packet with its deadline to the stream, which it may create, whatever arrived before |
| Connections.Connection.WriteDataChunk | UdspSocket/Stream.cpp:253-606 | appends the chunk of the chosen stream, counts its bytes for its class, moves the rotation, and keeps the datagram free of duplicates |
| Connections.Connection.WriteMetaChunk | UdspSocket/Stream.cpp:181-252 | acknowledgements first, oldest first, then repeat requests |
| Connections.Connection.FillMeta | UdspSocket/Connection.cpp:114-124 | the loop ends only when no acknowledgement and no request goes into the room; if it wrote nothing, none was waiting or there was no room |
| Connections.Connection.FillData | UdspSocket/Connection.cpp:125-136 | the loop ends only when there is no room for data, nothing is due on any stream, or the chunk of the chosen stream does not fit |
| Connections.Connection.WritePacket | UdspSocket/Connection.cpp:104-175 | the loops end; the datagram is at most PMTU_B, is read back as the same header and chunks, with no byte left unless padded, holds no payload twice and exactly the acknowledgements that left the queue; it takes what is waiting: an empty one of at least 1172 bytes means that no acknowledgement waited, no packet lacked anything and none was due, and in general fewer than 18 bytes are left or nothing is due; every stream took a list of steps of the model that put exactly its chunks on the wire, which is the writing move of TwoConnections; an empty datagram takes no number |
| Connections.Connection.ReadAck | UdspSocket/Stream.cpp:628-649 | acknowledges on the right stream, whatever state the queues are in, and keeps a connection that can send able to |
| Connections.Connection.ReadRepeat | UdspSocket/Stream.cpp:946-963 | any request, after any other, keeps what was sent accounted for; the connection may send on if and only if the offset lies inside the payload of a queued reliable packet |
| Outgoing.ReadRepeatOk | UdspSocket/Stream.cpp:946-963 | any request keeps the packets of the queue; its offsets stay inside their payloads if and only if the one asked for does |
| Outgoing.RequestOutside | UdspSocket/Stream.cpp:946-963 | a request at offset 9 for five bytes, after which the next piece starts outside them |
| Connections.Connection.ReadData | UdspSocket/Stream.cpp:676-743 | for every id a data chunk does to its stream, new or not, and to the shared acknowledgements what the model says; every stream is visited for requests from then on |
| Connections.Connection.ReadChunk | UdspSocket/Stream.cpp:616-970 | any chunk goes to the queue it is for and is the reading move of TwoConnections |
| Connections.Received | UdspSocket/Stream.cpp:627-918 | the branches of readChunk, run on a loaded stream, give the model's result for every id |
| Incoming.ParsedPlain | UdspSocket/Stream.cpp:616-970 | whatever bytes arrive, the fields of a parsed chunk are ones the receiver can hold |
| Incoming.ReadDataKeeps | UdspSocket/Stream.cpp:627-918 | any parsed data chunk with an id below the first quarter keeps the stream fit for requests |
| Incoming.ReadDataAcks | UdspSocket/Stream.cpp:627-918 | a data chunk with any id adds at most its own acknowledgement to the queue |
| Chunks.NumberOfBits | UdspSocket/Impl.hpp:124-141 | the branch-free code picks the least width for every uint64 |
| Codec.WidthFits | UdspSocket/Impl.hpp:124-144 | a value fits the width chosen for it and no narrower one |
| Codec.ChunkIdRoundTrip | UdspSocket/Impl.hpp:145-182 | every bit field of a chunk id is read back as it was packed |
| Codec.ChunkRoundTrip | UdspSocket/Stream.cpp:616-970 | one chunk, whatever follows it, is parsed back with its exact length |
| Codec.DatagramRoundTrip | UdspSocket/Connection.cpp:689-705 | a list of chunks is parsed back as itself and every byte is consumed |
| Codec.EncodeAllInjective | UdspSocket/Stream.cpp:463-604 | different chunk lists have different bytes |
| Codec.FirstByte | UdspSocket/Impl.hpp:145-182 | the first byte of a chunk in numbers: type, flags and widths where the bit fields have them |
| Codec.ChunkBytes | UdspSocket/Stream.cpp:183-604 | one chunk of each kind, byte by byte |
| Codec.ParsedBytes | UdspSocket/Stream.cpp:616-970 | whatever is parsed, its ids and its payload are the bytes at their places, and the payload has a length its kind allows |
| Codec.ReadDatagram | UdspSocket/Connection.cpp:689-705 | on any bytes at all the loop reads what the parser reads; its offset stays inside the datagram if and only if the parser does not end at an acknowledgement cut to 3, 4 or 5 bytes, and then passes the end |
| Codec.CutAckOverruns | UdspSocket/Stream.cpp:616-649 | three bytes that readChunk takes for an acknowledgement of six |
| Codec.WrittenStaysInside | UdspSocket/Connection.cpp:689-705 | what the writer makes never ends in one |
| Datagrams.PacketHeaderRoundTrip | UdspSocket/Impl.hpp:89-102 | the 26-byte header is read back field by field |
| Datagrams.HeaderBytes | UdspSocket/Impl.hpp:89-102 | where each field of the header lies |
| Datagrams.PaddingIsInert | UdspSocket/Connection.cpp:139-142 | zero padding adds no chunk |
| Scheduler.FillSlots | UdspSocket/Stream.cpp:343-355 | the nested loops end and fill the slots with classes that have a packet |
| Scheduler.SlotsCover | UdspSocket/Stream.cpp:343-355 | every class with a packet has a slot |
| Scheduler.Pick | UdspSocket/Stream.cpp:333-454 | the class picked has a packet; none is picked if and only if there is none; its percentages are pinned by RealtimeAloneIff, BoundedShareError and PairShareError |
| Scheduler.PickClass | UdspSocket/Stream.cpp:333-454 | the decision tree with its 32-bit sums and products and the slots filled by the loop is the pick of those lemmas |
| Scheduler.RealtimeAloneIff | UdspSocket/Stream.cpp:338-363 | while realtime waits it takes the turn for every draw if and only if it has less than 98 percent of the bytes or no other class waits |
| Scheduler.NoneShutOut | UdspSocket/Stream.cpp:343-361 | at 98 percent or more each waiting class has a draw that gives it the turn |
| Scheduler.SlotsRotate | UdspSocket/Stream.cpp:343-355 | the slots begin with realtime and go round the classes that have a packet |
| Scheduler.ShareTestExactIff | UdspSocket/Stream.cpp:339 | the 32-bit share test is exact for every total if and only if the count is at most 42949672 |
| Scheduler.BoundedShareError | UdspSocket/Stream.cpp:386-399 | with high, medium and low waiting, each stays within 1.2 chunks and a byte of 80, 16 and 4 percent, as long as no tested counter is above the exact limit |
| Scheduler.PairShareError | UdspSocket/Stream.cpp:400-443 | the same for two waiting classes, 84:16, 95:5 and 80:20, with the limit on the one counter that is tested |
| Scheduler.RealtimeGuarantee | UdspSocket/Stream.cpp:338-363 | while realtime waits it keeps 98 percent of the bytes, up to one chunk, whatever the slots and whatever the other classes have sent |
| Scheduler.SelectComplete | UdspSocket/Stream.cpp:267-322 | the round from vecIdx finds a stream if and only if one is ready |
| Scheduler.NoStarvation | UdspSocket/Stream.cpp:457-461 | a stream ready at every scan is selected in any n consecutive selections of its class |
| Pmtu.PmtuSearch.Tick | UdspSocket/Connection.cpp:309-332 | the step and probe count after a probe timer, and the size of the probe |
| Pmtu.PmtuSearch.OnHeader | UdspSocket/Connection.cpp:651-658 | an echoed probe becomes the PMTU, which stays between 1172 and 65535 |
| Pmtu.PmtuSearch.SearchPhase | UdspSocket/Connection.cpp:309-332 | on a path that carries L bytes every search ends within a bounded number of ticks with PMTU_B <= L < PMTU_B + 4 (section 5.3 of RFC 8899) |
| LossWindow.ReportInRange | UdspSocket/Connection.cpp:720-761 | for every order of arrival, with every wrap, the report is within 0..10000 |
| LossWindow.ReportExact | UdspSocket/Connection.cpp:720-761 | with arrivals in order each crossing reports exactly the share lost since the last one, and 0 if and only if nothing was |
| LossWindow.ExpectedIs | UdspSocket/Connection.cpp:732-748 | how many datagrams are expected, on the whole circle: none for a late number, otherwise the distance, and one less across the wrap |
| LossWindow.LateReportsNothing | UdspSocket/Connection.cpp:728-748 | a late datagram in an old window counts and reports nothing |
| LossWindow.LossMeter.OnDatagram | UdspSocket/Connection.cpp:720-761 | the fields are the function of all numbers arrived so far |
| RateControl.AlwaysInRange | UdspSocket/Connection.cpp:382-388 | every interleaving of feedback, caps and resets keeps 127 <= limit <= max(desired, 2^18) |
| RateControl.GoodReaches | UdspSocket/Connection.cpp:632-641 | good feedback alone reaches the desired limit |
| RateControl.BadReaches | UdspSocket/Connection.cpp:624-625 | bad feedback alone falls to exactly 127 |
| RateControl.Sustained | UdspSocket/Connection.cpp:618-685 | with both flags clear sustained good feedback, RTT and loss in any mixture, is repeated increase; bad feedback is repeated decrease |
| RateControl.FlagsClearIff | UdspSocket/Connection.cpp:643-685 | under good feedback each flag clears if and only if feedback of its own kind comes |
| RateControl.GoodLowers | UdspSocket/Connection.cpp:624-675 | good feedback of one kind alone lowers the limit every time while the flag of the other kind is set |
| RateControl.BadRttIff | UdspSocket/Connection.cpp:618-622 | an RTT is bad exactly above 1 ms when above five times the smallest or above 100 ms |
| RateControl.BadLossIff | UdspSocket/Connection.cpp:668-672 | a loss is bad exactly above one percent |
| RateControl.BadStep | UdspSocket/Connection.cpp:624-625 | bad feedback takes one part in 128 off the limit, rounded down |
| RateControl.GoodStep | UdspSocket/Connection.cpp:632-641 | good feedback with clear flags adds 9376 bytes or one part in 256, whichever is more, up to the goal |
| RateControl.CapStep | UdspSocket/Connection.cpp:382-388 | once a second the limit is cut to four times the speed, not below 262144 |
| RateControl.RateLimit.OnRtt | UdspSocket/Connection.cpp:584-644 | a sample moves the limit as the model says, or counts for the probe; the smallest RTT, the eight samples of a probe, the sixteen bad ones that start it and the ten seconds after it |
| RateControl.RateLimit.OnLoss | UdspSocket/Connection.cpp:668-685 | a loss report moves the limit as the model says, except during a probe |
| RateControl.RateLimit.EverySecond | UdspSocket/Connection.cpp:382-388 | the cap at four times the measured speed keeps the limit in range |
| RateControl.RateLimit.PartialReset | UdspSocket/Connection.cpp:46-70 | the limit and the smallest RTT go back to their defaults and a probe in progress goes on |

## Left out

- UdpSocket, Impl.cpp, the public API, threads and mutexes: no protocol logic; the command queue is modelled as atomic sends.
- Connection lifecycle (connect, timeout, erase, client map): the session of the model has no disconnect except the report of the rest.
- SmoothModelHolt and the floating-point statistics: RTT is an arbitrary input.
- A null callback: the model always has one.
- setTxStreamPriority_ts: a stream keeps its priority and its reliability for the session.
- Receiver ids from UINT32_MAX/4 on: the end-to-end results, and the sessions of `TwoConnections`, stop there; what happens at the wrap is stated by `RxOrder.EmplaceContiguousIff` and `RxOrder.FrontRewindsIff`.
- Sessions of `TwoConnections`: chunks are read one by one, in any order and any number of times; probes, keep-alives and the disconnect are no moves.
- Codec.ReadDatagram: after a cut acknowledgement the source goes on outside the datagram; the model ends there.
- TxStreams.CutChunk: with an offset past the payload the source copies bytes from outside it; the model tells that it would and stops.
- Scheduler.PickClass: requires the byte counters to sum to less than 2^32 - 1; above, a sum may wrap to zero and the source divides by it.
- Liveness under loss: how long a network that loses chunks may take is not modelled; `Progress.OneRoundTrip` is about one lossless round trip of a packet that fits one chunk, and `Assembly.InOrderArrives` about the pieces of a larger one arriving in order.
- Offsets and sizes near 2^64: sums of offset and size are unbounded in the model.
- CRC32 and repeatSize: written as zero and not read by the source.
- The shadow queue of TxStream: the search runs on the ids of the queue itself.
- `begin_us` of an unreliable small packet: set before the packet may be popped, not after.
- Connections.Connection.WritePacket: requires offsets inside the payloads and receiving ids below UINT32_MAX/4, which `TwoConnections.ConnectionsStayValid` proves of every session; RTT fields of the header are parameters; byte counters stay below 2^32 since their reset, which comes in the 1 Hz block.
- Connections.Connection.Send: requires fewer than 2^32 queued packets, so that ids in the queue are distinct.
- LossWindow.LossMeter.OnDatagram: does not model partialReset, which sets the report back to 0 until the next crossing.
