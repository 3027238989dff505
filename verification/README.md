# dsquic in Dafny

A model of the hard core of dsquic, a QUIC implementation without input or output
of its own, and proofs about it: reliable streams over a lossy network, key
updates, loss recovery and congestion control, the CRYPTO stream and the TLS
message slicer it feeds, the frame and packet codecs, packet protection, and the
loop that packs frames into datagrams.

Each part has the same shape. A file defines the state as values with one function
per operation of the source; where the source is an object whose methods update
fields or run loops, a class or method does the same work and is proved equal to
the function; the theorems then speak about the functions, for all inputs or, over
state machines, for all runs: what no run can break, and what every run can still
achieve. Only `dfyconfig.toml` is needed to check everything:
`dafny verify dfyconfig.toml`.

| files | subject |
|---|---|
| `RangeSets`, `Streams`, `Managers`, `Delivery` | range sets, stream halves, the stream table, one stream end to end |
| `Transfer`, `TransferInv`, `SenderSide`, `ReceiverSide`, `Totals`, `TransferProof`, `TransferReceive`, `TransferTheorems`, `Connections` | two endpoints over a network that loses, repeats and reorders packets |
| `CreditKept`, `RoundTrips`, `Progress` | in the same runs: no credit is lost, and everything written can always still be delivered |
| `PeerStreams`, `CreditFlow` | stream concurrency and flow control against an arbitrary peer |
| `Buffers`, `Frames`, `FrameCodec`, `FrameGrammar`, `Acks` | varints, frames, their grammar, acknowledgments |
| `KeyUpdate`, `KeyProgress` | key phases and generations |
| `NewReno`, `Recovery`, `RecoveryProof`, `RecoveryRules`, `RecoveryRuns`, `RecoveryTheorems`, `LossDetection` | congestion control, loss detection, timers |
| `Crypto`, `CryptoRuns`, `CryptoProgress`, `Handshakes` | CRYPTO reassembly and TLS message slicing |
| `PacketNumbers`, `Protection`, `Headers` | packet numbers, header protection, headers, coalescing |
| `Packing`, `Datagrams`, `Allowances`, `SendLoop`, `SendWindow` | frame selection, datagram building, exact packet sizes, the send loop, amplification, the congestion window |
| `Options`, `Numbers` | shared types and functions |

Times are real numbers. The network, the clock, the congestion and pacing advice of
the send loop, and the moments at which packets are declared lost in the stream
runs are parameters of a run, so the theorems hold for every choice of them. The
ciphers are parameters too: a mask function, and a pair of functions to seal and
open.

Four things one would expect of this code are false as first stated, and the exact
conditions are proved instead. A packet number is recovered not exactly within its
window but also where the correction is suppressed at an edge of the number space
(`PacketNumbers.DecodeIsExact`, `WindowIsNotExact`). A PTO names the space that
expired because confirmation discards Initial and Handshake, not because of the
arithmetic (`RecoveryTheorems.ProbeHitsExpiredSpace`, `OrderNeedsInvariant`). An
Initial datagram keeps to the configured size, whatever is queued, exactly when its
header fits the fixed allowance, which a tokenless one always does
(`Allowances.AllowanceIsExact`, `TokenOverruns`, `Datagrams.DatagramFits`). A padded
Initial packet reaches 1200 bytes except where its Length field is a byte shorter
than the trial header's (`Allowances.InitialIsExpanded`, `ShortInitial`).

## Model

| member | source | states |
|---|---|---|
| `TransferTheorems.EndToEnd` | src/dsquic/connection.py:1218-1240 | In every run of two endpoints, under any interleaving of writes, sends, losses, requeues, probes, repetitions and reorderings, the data of a stream's events is a prefix of what was written to it; the end is reported at most once, with the last event, and only when every byte up to the FIN has been delivered. |
| `TransferTheorems.NoRunFails` | src/dsquic/streams.py:223-243 | In no run does either endpoint raise FLOW_CONTROL_ERROR, FINAL_SIZE_ERROR, STREAM_LIMIT_ERROR or STREAM_STATE_ERROR at the other, acknowledge a packet never sent, or grant credit for an unknown stream. |
| `TransferTheorems.CreditAgreement` | src/dsquic/connection.py:1127-1141 | In every run each allowance a sender holds (per stream, for the connection, for the number of streams of either kind) is at most what its peer has advertised, and its use is within the allowance, although credit frames are lost, repeated and reordered. |
| `TransferTheorems.AcknowledgedIsDelivered` | src/dsquic/streams.py:178-188 | In every run a sending half in Data Recvd implies that the peer's receiving half holds exactly the bytes written and the same final size, and has delivered them, through the received-packet record, ACK building and ACK processing. |
| `TransferTheorems.NoByteLeftBehind` | src/dsquic/connection.py:1105-1173 | In every run each stream byte below the send offset, and a sent FIN, is acknowledged, queued for retransmission, or in a frame of a packet that recovery still holds. |
| `TransferTheorems.IdleMeansDelivered` | src/dsquic/connection.py:1048-1063 | In every run, when a stream has nothing pending or queued and no held packet carries a frame of it, everything written has been delivered, and the end reported if the stream was finished. |
| `TransferTheorems.RunKeeps` | src/dsquic/connection.py:958-1063 | The joint invariant of both endpoints and the network holds after every run. |
| `Progress.EveryRunCanFinish` | src/dsquic/connection.py:1105-1253 | From every state of every run, whatever was lost, withheld, repeated or probed for, some continuation without further writes delivers everything written to every stream in both directions and reports every end: flow control never deadlocks, provided the initial limits are not zero. |
| `Progress.WrittenCanArrive` | src/dsquic/connection.py:1974-1977 | In every run, what either side writes to a stream it has not finished can be brought to the other side whole, after everything written to it before, and with the FIN its end. |
| `Progress.OpenedCanArrive` | src/dsquic/connection.py:1960-1972 | In every run in which the peer's limit allows another stream, opening it and writing to it can bring exactly that data to the peer. |
| `Progress.SomethingWorks` | src/dsquic/streams.py:143-172 | In every state of a run with work left, some packet given up, or some frame sent, received and acknowledged, leaves less to do: new bytes, held packets, repairs or announcements, in that order. |
| `RoundTrips.RoundTrip` | src/dsquic/connection.py:888-917 | In every state of a run the newest packet, once it arrives, is recorded, its acknowledgement is owed and sent, and when that arrives recovery no longer holds the packet; nothing else waiting to be sent changes but announced credit. |
| `RoundTrips.LostAndProbedAlike` | src/dsquic/connection.py:1105-1157 | A packet given up or probed for gives every stream back exactly the frames it had in it, verbatim and in order behind those already waiting; a probe leaves the packet with recovery, a loss does not. |
| `Progress.DataPays` | src/dsquic/streams.py:143-172 | When nothing is lost, held or unannounced on either side, both credits have room and a stream with unsent bytes or an unsent end can send some of it at once. |
| `TransferTheorems.DataRecvdIsExact` | src/dsquic/streams.py:178-188 | In every run a sending half is in Data Recvd if and only if its FIN and every byte up to the final size are acknowledged. |
| `CreditKept.NoCreditLeftBehind` | src/dsquic/connection.py:1105-1141 | In every run each current limit (connection, streams of either kind, every stream) is the one the peer holds, or a frame at that value is queued or in a packet recovery still holds. |
| `CreditKept.IdleMeansCreditKnown` | src/dsquic/connection.py:1127-1141 | In every run, once nothing is queued and no held packet carries the limit, the peer holds its current value. |
| `CreditKept.RequeueRenews` | src/dsquic/connection.py:1127-1141 | Requeueing a lost credit frame of any kind queues a frame with the current value of that limit. |
| `CreditKept.AckReleases` | src/dsquic/connection.py:1048-1050 | Processing an ACK releases exactly the held packets it names and leaves every limit, queue and packet as it was. |
| `CreditFlow.StreamCreditFlows` | src/dsquic/streams.py:259-267 | Against any peer, in every run that has not failed, a stream whose size is unknown may send at least half its initial window beyond what was read, and no stream more than a whole one. |
| `CreditFlow.ConnectionCreditFlows` | src/dsquic/streams.py:440-483 | Against any peer, in every run that has not failed, connection credit is at least half and at most one initial window beyond what was read, and the peer may open half a window of streams more or all that closed ones make room for. |
| `Delivery.DeliveredIsPrefix` | src/dsquic/streams.py:250-257 | For one stream: the delivered chunks join to a prefix of the written bytes, and an end mark comes last and only with everything. |
| `Delivery.DataRecvdIsSound` | src/dsquic/streams.py:178-188 | For one stream: Data Recvd at the sender means the receiver's buffer is what was written, with its final size, fully read. |
| `Delivery.NextKeeps` | src/dsquic/streams.py:143-172 | A frame just cut is a frame of the written bytes at its own offset, earlier frames stay so, and new bytes stay within stream and connection credit. |
| `Delivery.NeverRefused` | src/dsquic/streams.py:223-237 | A frame cut from the written bytes within credit is never refused by the receiving half. |
| `Delivery.DeliverKeeps` | src/dsquic/streams.py:223-257 | Taking in any frame of the written bytes and reading keeps the agreement of both halves and adds exactly the next bytes to what was delivered. |
| `Streams.SendStream.Put` | src/dsquic/streams.py:134-141 | The object's write is the specified one: it appends, records the final size with the FIN, and refuses after it. |
| `Streams.SendStream.Take` | src/dsquic/streams.py:143-172 | The object's next frame is the specified one: lost frames verbatim first, then new data within all budgets, with the FIN on the last. |
| `Streams.SendStream.OnMaxStreamData` | src/dsquic/streams.py:174-176 | Credit is only ever raised. |
| `Streams.SendStream.OnFrameAcked` | src/dsquic/streams.py:178-188 | Acknowledged ranges are joined and Data Recvd is entered exactly when the FIN and every byte up to the final size are acknowledged. |
| `Streams.SendStream.Lost` | src/dsquic/streams.py:190-198 | A lost frame with data or FIN is queued verbatim; an empty one is not. |
| `Streams.RecvStream.OnStreamFrame` | src/dsquic/streams.py:223-248 | The object takes in a frame as specified: final size and credit errors in the source's order, bytes overlaid at their offset, the range joined, the state advanced. |
| `Streams.RecvStream.ReadData` | src/dsquic/streams.py:250-257 | Reading returns the contiguous unread bytes and enters Data Read exactly at the final size. |
| `Streams.RecvStream.NewCredit` | src/dsquic/streams.py:259-267 | A new limit is granted exactly when less than half the window is left and the size is unknown. |
| `Managers.StreamManager.Open` | src/dsquic/streams.py:326-339 | Opening takes the next identifier, or is refused at the peer's limit with nothing changed. |
| `Managers.StreamManager.OnStreamFrame` | src/dsquic/streams.py:371-404 | A frame is routed to its stream, which is created when the peer may open it; only new highest offsets are charged to the connection. |
| `Managers.StreamManager.NextStreamFrame` | src/dsquic/streams.py:406-419 | Only offsets sent for the first time are charged to the connection. |
| `Managers.StreamManager.NewStreamLimit` | src/dsquic/streams.py:440-472 | The counting loop computes the specified stream limit update. |
| `Managers.StreamManager.NewDataLimit` | src/dsquic/streams.py:474-483 | The summing loop computes the specified connection limit update. |
| `Managers.FrameIsCharged` | src/dsquic/streams.py:390-404 | A frame taken without error charges the connection for exactly the offsets it reaches for the first time, stays within the credit granted, and touches no other stream. |
| `Managers.StreamManager.OnMaxData` | src/dsquic/streams.py:429-430 | Connection credit is only ever raised. |
| `Managers.StreamManager.OnMaxStreams` | src/dsquic/streams.py:432-438 | A stream limit of one kind is only ever raised, the other is left. |
| `PeerStreams.ConcurrencyBound` | src/dsquic/streams.py:371-386 | For an endpoint with all its operations, against a peer that sends any frames, in every run the streams of a kind the peer has opened are within the advertised count, and those not fully read never exceed the initial window. |
| `PeerStreams.UpdatesRaise` | src/dsquic/streams.py:440-472 | An advertised stream limit strictly increases when updated, to the number closed plus the window. |
| `PeerStreams.DataReadIsTerminal` | src/dsquic/streams.py:245-257 | Data Read is never left. |
| `PeerStreams.OpenedIsCardinality` | src/dsquic/streams.py:440-455 | The count of opened streams is the number of distinct sequence numbers, the pigeonhole behind the concurrency bound. |
| `Connections.Connection.OnPacket` | src/dsquic/connection.py:888-917 | The connection object handles a decrypted packet as specified: a duplicate is dropped, otherwise the number is recorded and the frames handled in order. |
| `Connections.Connection.OnPayload` | src/dsquic/connection.py:958-983 | The loop over a payload's frames is the specified fold and stops at the first error. |
| `Connections.Connection.OnFrame` | src/dsquic/connection.py:985-1036 | Each frame has its specified effect on streams, credit, acknowledgements and the pending ACK flag. |
| `Connections.Connection.OnAck` | src/dsquic/connection.py:1038-1050 | The loops over newly acknowledged packets and their frames reach exactly the held packets the ACK names; an unsent number closes the connection. |
| `Connections.Connection.OnStream` | src/dsquic/connection.py:1218-1240 | Take in, read, report, extend credit: the specified handler. |
| `Connections.Connection.MaybeExtendCredit` | src/dsquic/connection.py:1242-1253 | Stream, connection and both stream-count limits are updated in that order, each queueing its frame. |
| `Connections.Connection.RequeueLost` | src/dsquic/connection.py:1105-1141 | The loop over a lost packet's frames queues stream frames verbatim and credit at its current value. |
| `Connections.Connection.OnLost` | src/dsquic/connection.py:1052-1063 | A packet given up has its frames queued again and is no longer held. |
| `Connections.Connection.SendStreamData` | src/dsquic/connection.py:1974-1977 | Writing reaches the stream, or nothing changes after its FIN. |
| `Connections.Connection.OpenStream` | src/dsquic/connection.py:1960-1972 | Opening returns the next identifier; at the limit it returns none and queues STREAMS_BLOCKED. |
| `RangeSets.InsertIsUnion` | src/dsquic/streams.py:69-82 | Adding a range keeps the list sorted, disjoint and non-adjacent and denotes exactly the union. |
| `RangeSets.NormalIsCanonical` | src/dsquic/streams.py:58-67 | Two normal lists that denote the same integers are equal. |
| `RangeSets.ContiguousIsMaximalRun` | src/dsquic/streams.py:87-92 | The contiguous end is the end of the maximal run from the start. |
| `RangeSets.CoversIsInclusion` | src/dsquic/streams.py:94-95 | Covering is inclusion of every integer of the range. |
| `RangeSets.RangeSet.Add` | src/dsquic/streams.py:69-82 | The rebuilding loop computes the specified insertion, hence the union. |
| `RangeSets.RangeSet.ContiguousEnd` | src/dsquic/streams.py:87-92 | The scanning loop finds the specified end. |
| `Acks.AckReportsTopRuns` | src/dsquic/connection.py:1758-1771 | Every ACK built from a record encodes without a negative gap, parses back to itself, starts at the largest number received, and acknowledges exactly the numbers of the top 32 runs. |
| `Acks.RecordingKeeps` | src/dsquic/connection.py:897-908 | Recording a packet keeps the largest received number the maximum of the record. |
| `KeyUpdate.GenerationsAgree` | src/dsquic/connection.py:541-632 | In every run the generations of two endpoints differ by at most one, no packet in the network is more than one generation ahead of its receiver, and no acknowledgment names an unsent packet. |
| `KeyUpdate.DeliveryIsExact` | src/dsquic/connection.py:494-539 | In every run a packet opens exactly when its number was recovered and its generation is the current one, the previous one before it expires, or the next one once confirmed. |
| `KeyUpdate.SelectionIsExact` | src/dsquic/connection.py:550-577 | From the phase bit and the packet number alone, selection picks exactly the generation the packet was sealed with, including while no boundary is known. |
| `KeyUpdate.BoundaryIsLowest` | src/dsquic/connection.py:541-548 | In every run the phase boundary is the least packet number received in the current phase, or the 0 the first phase starts with, and is unset exactly when nothing of the phase was received. |
| `KeyUpdate.PreviousKeysExpire` | src/dsquic/connection.py:579-602 | In every run, after a rotation and for every continuation without another, a packet of the phase left opens until three probe timeouts after the rotation and not after. |
| `KeyUpdate.GateImpliesFollowed` | src/dsquic/connection.py:618-632 | An acknowledgment of a packet of the current phase means that the peer has followed, so the next update cannot run two ahead. |
| `KeyProgress.UpdateCanComplete` | src/dsquic/connection.py:579-632 | From every state of every run of two confirmed endpoints some continuation ends with both sending and receiving under the generation after the later of theirs. |
| `KeyProgress.Hop` | src/dsquic/connection.py:494-577 | A confirmed receiver that is not ahead opens the newest packet of its peer, follows it into its generation, records it and takes in what it acknowledges. |
| `KeyUpdate.KeySpace.RotateKeys` | src/dsquic/connection.py:579-602 | Rotation of the object's fields is the specified one. |
| `KeyUpdate.KeySpace.Decrypt` | src/dsquic/connection.py:494-539 | Decryption opens exactly the specified packets and leaves the specified keys, unchanged on failure. |
| `KeyUpdate.KeySpace.InitiateKeyUpdate` | src/dsquic/connection.py:618-632 | An update starts exactly when confirmed and a packet of the current phase was acknowledged. |
| `RecoveryTheorems.InFlightIsConserved` | src/dsquic/recovery.py:136-235 | After every run of sends, ACKs, timeouts, ECN marks, restarts, discards and confirmation, bytes in flight equal the sizes of the in-flight packets still held over the three spaces, hence are never negative. |
| `RecoveryTheorems.EachPacketHasOneFate` | src/dsquic/recovery.py:350-377 | After every run each packet sent is in exactly one place: still held, acknowledged, lost or dropped with its space; one never sent is in none. |
| `RecoveryProof.LossIsExact` | src/dsquic/recovery.py:202-223 | One detection pass returns precisely the packets at or below the largest acknowledged that are three or more below it, or were sent at least 9/8 of the latest and of the smoothed round trip and a millisecond ago, and keeps precisely the others. |
| `RecoveryProof.NextDeadlineIsExact` | src/dsquic/recovery.py:224-228 | The deadline left is the first moment at which some survivor at or below the largest acknowledged meets the time threshold, strictly after the pass, and absent exactly when there is no such survivor. |
| `RecoveryTheorems.LossTimerMakesProgress` | src/dsquic/recovery.py:331-337 | In every run a fired loss timer declares a loss or re-arms its space strictly later, and asks for no probe; when its deadline had come, exactly one space fewer is due afterwards. |
| `RecoveryTheorems.ProbeHitsExpiredSpace` | src/dsquic/recovery.py:262-348 | In every run a PTO probes the space its timer was set for: live, with an ack-eliciting packet outstanding and no earlier deadline, although the backoff is doubled and capped before the level is recomputed. |
| `RecoveryTheorems.OrderNeedsInvariant` | src/dsquic/recovery.py:281-293 | Without the connection's invariant that confirmation implies Initial and Handshake are discarded, the recomputed level can be another space than the one that expired. |
| `RecoveryTheorems.BackoffKeepsOrder` | src/dsquic/recovery.py:262-293 | Under that invariant changing the backoff never changes which space is earliest. |
| `RecoveryTheorems.BackoffDoubles` | src/dsquic/recovery.py:262-269 | Each expiration doubles the probe interval, truncated at a minute. |
| `RecoveryTheorems.AntiDeadlockProbesLiveSpace` | src/dsquic/recovery.py:314-348 | In every run an unconfirmed client with nothing to wait for has a timer exactly once something happened, and probes a live space. |
| `RecoveryTheorems.OutstandingDataArmsTimer` | src/dsquic/recovery.py:295-329 | In every run a timer is armed while an ack-eliciting packet is held, at every level and on both sides, except for a server's application data before confirmation. |
| `RecoveryTheorems.SmoothedStaysAboveMinimum` | src/dsquic/recovery.py:83-100 | A sample never takes the smoothed round trip below the minimum seen, whatever delay the peer reports. |
| `RecoveryTheorems.SampleMovesEstimate` | src/dsquic/recovery.py:83-100 | A sample moves the smoothed round trip an eighth of the way to the adjusted sample and the variation a quarter of the way to their distance, the first sample sets both, and the minimum is exact. |
| `RecoveryRules.AckTakesExactly` | src/dsquic/recovery.py:156-200 | An ACK of a number never sent is refused with nothing changed; otherwise it takes exactly the held packets it names, and what is held afterwards is exactly what it neither named nor exposed as lost. |
| `RecoveryRules.SampleRule` | src/dsquic/recovery.py:178-195 | An ACK is a round trip sample exactly when the packet it names as largest is newly acknowledged and some newly acknowledged packet elicits acknowledgements; the delay is capped by the peer's maximum once confirmed; the backoff is reset. |
| `RecoveryRules.TimeoutRule` | src/dsquic/recovery.py:331-348 | A timeout asks for a probe and backs off by one exactly when no live space has a loss pending. |
| `RecoveryRules.ProbeInterval` | src/dsquic/recovery.py:254-269 | Without backoff a probe timeout is the smoothed round trip, four times its variation or a millisecond, and at the application level the peer's delay, truncated at a minute. |
| `RecoveryRules.PersistentIsExact` | src/dsquic/recovery.py:237-248 | Losses are persistent congestion if and only if the outermost ack-eliciting ones are two packets sent further apart than three probe timeouts. |
| `RecoveryRules.CongestionRule` | src/dsquic/recovery.py:226-235 | A detection pass that loses nothing in flight leaves the controller alone; under persistent congestion, once there is a round trip sample, the window is two datagrams; otherwise a loss outside recovery halves it. |
| `RecoveryRules.TimerRule` | src/dsquic/recovery.py:271-329 | The timer is the earliest pending loss; without one, the earliest probe timeout over the spaces that wait, each counted from its last ack-eliciting packet; without one, an unconfirmed client counts from the last event, and otherwise there is none. |
| `RecoveryRules.FirstProbe` | src/dsquic/recovery.py:254-269 | Before any sample the Initial probe timeout is 0.999 seconds. |
| `RecoveryRuns.StepKeeps` | src/dsquic/connection.py:1389-1398 | Every operation the connection performs on recovery keeps the account, the ledger of fates and the discard invariant. |
| `LossDetection.LossDetection.PacketSent` | src/dsquic/recovery.py:136-141 | Sending updates the object as specified. |
| `LossDetection.LossDetection.AckReceived` | src/dsquic/recovery.py:156-200 | The ACK loops, RTT sample, backoff reset, controller call and detection pass compute the specified state and outcome; an unsent number is refused. |
| `LossDetection.LossDetection.DetectAndRemoveLost` | src/dsquic/recovery.py:202-248 | The detection loop, the congestion signal and the persistent congestion test compute the specified state and losses. |
| `LossDetection.Sweep` | src/dsquic/recovery.py:202-228 | The loop over packet numbers splits a space into losses and survivors and finds the next deadline, as specified. |
| `LossDetection.TakeAcknowledged` | src/dsquic/recovery.py:171-177 | The nested loops over ranges and packets take out exactly the packets the ACK names, in order of number. |
| `LossDetection.LossDetection.TimeoutFired` | src/dsquic/recovery.py:331-348 | The timer's effect on the object is the specified one. |
| `LossDetection.LossDetection.Restart` | src/dsquic/recovery.py:350-365 | The space is emptied with no congestion signal and what was held is returned. |
| `LossDetection.LossDetection.Discard` | src/dsquic/recovery.py:367-377 | The space is emptied and closed with no congestion signal. |
| `Recovery.RttEstimator.Update` | src/dsquic/recovery.py:83-100 | The estimator's update is the specified one. |
| `NewReno.WindowNeverBelowMinimum` | src/dsquic/new_reno.py:19-27 | On no run does the congestion window drop below two datagrams. |
| `NewReno.ReductionsAreSeparated` | src/dsquic/new_reno.py:67-92 | Absent persistent congestion, of two successive reductions by loss or ECN the second is caused by a packet sent after the first. |
| `NewReno.OnlySignalsReduce` | src/dsquic/new_reno.py:43-103 | Only a congestion signal outside its recovery period, or persistent congestion, lowers the window. |
| `NewReno.SignalsHalve` | src/dsquic/new_reno.py:67-103 | A loss or mark that opens a recovery period halves the window, down to two datagrams, and ends slow start there; persistent congestion collapses it to two datagrams; any other loss or mark leaves window and threshold. |
| `NewReno.SlowStartGrowth` | src/dsquic/new_reno.py:51-60 | In slow start a batch of packets sent outside recovery grows the window by exactly its in-flight bytes while below the threshold. |
| `NewReno.NoGrowthInRecovery` | src/dsquic/new_reno.py:51-60 | Packets sent before the recovery period began leave the window as it is. |
| `NewReno.AvoidanceStep` | src/dsquic/new_reno.py:61-65 | In congestion avoidance one packet grows the window by exactly the whole part of its share of a datagram. |
| `NewReno.InitialWindow` | src/dsquic/new_reno.py:19-27 | The window starts at ten datagrams, capped at 14720 bytes unless two datagrams are more. |
| `NewReno.AvoidanceGrowth` | src/dsquic/new_reno.py:51-65 | In congestion avoidance a batch grows the window by at most one datagram per window of acknowledged bytes, with truncation at every packet. |
| `NewReno.OneDatagramPerWindow` | src/dsquic/new_reno.py:61-65 | A batch of at most one window grows it by at most one datagram. |
| `NewReno.Controller.PacketsAcked` | src/dsquic/new_reno.py:51-65 | The loop over acknowledged packets computes the specified window and bytes in flight. |
| `NewReno.Controller.PacketsLost` | src/dsquic/new_reno.py:67-80 | The loop over lost packets computes the specified reduction, once per recovery period. |
| `NewReno.Controller.EcnMarked` | src/dsquic/new_reno.py:82-92 | An ECN mark reduces as a loss does, once per recovery period. |
| `NewReno.Controller.PacketsDiscarded` | src/dsquic/new_reno.py:94-98 | Discarded bytes leave flight with no other effect. |
| `CryptoRuns.TlsIsFedAPrefix` | src/dsquic/connection.py:1186-1213 | In every run, whatever was lost, split, copied, repeated or reordered, the peer's TLS machine was fed exactly a prefix of the output, and handled exactly the first messages of the output. |
| `CryptoRuns.RefusalMeansOverflow` | src/dsquic/connection.py:1197-1201 | CRYPTO_BUFFER_EXCEEDED is raised only where TLS produced more than 65536 bytes at the level. |
| `CryptoRuns.NoCryptoByteLeftBehind` | src/dsquic/connection.py:1105-1110 | In every run, with packets held, acknowledged, lost, requeued and copied, each CRYPTO byte sent is in a frame of an acknowledged packet, in the retransmission queue, or in a frame of a packet recovery holds, and the peer holds every byte of an acknowledged packet: splitting and requeueing lose no byte. |
| `CryptoRuns.IdleMeansFed` | src/dsquic/connection.py:1571-1595 | In every run, once nothing is pending or queued and no held packet carries CRYPTO data, the peer's TLS machine was fed the whole output and handled all its messages. |
| `CryptoRuns.RunKeeps` | src/dsquic/connection.py:1186-1213 | The joint invariant of the level's sender, its loss recovery and its peer holds after every run. |
| `CryptoProgress.LevelCanFinish` | src/dsquic/connection.py:1186-1213 | From every state of every run some continuation without more output ends with the peer's TLS machine fed the whole output, all its messages handled and nothing left to send or held, if and only if the output is at most 65536 bytes. |
| `Crypto.CryptoSpace.Next` | src/dsquic/connection.py:1571-1595 | The next CRYPTO frame is the specified one: lost bytes first, split to fit, otherwise new ones. |
| `Crypto.CryptoSpace.OnFrame` | src/dsquic/connection.py:1186-1213 | Reassembly of the object's buffer is the specified one. |
| `Handshakes.SlicingIgnoresChunks` | src/dsquic/tls.py:1006-1024 | The messages and the remainder do not depend on where the bytes were cut. |
| `Handshakes.SlicingIsExact` | src/dsquic/tls.py:1006-1024 | Messages and remainder join to the input, and the remainder holds no complete message. |
| `Handshakes.HandledIsMessages` | src/dsquic/tls.py:1006-1024 | For any list of chunks the messages handled are those of the joined bytes. |
| `Handshakes.Slicer.Receive` | src/dsquic/tls.py:1006-1024 | The slicing loop handles exactly the complete messages and keeps the rest. |
| `FrameCodec.PayloadRoundTrip` | src/dsquic/frames.py:572-592 | Parsing the joined encodings of any non-empty well-formed frame list gives the list back. |
| `FrameCodec.ReparseIsStable` | src/dsquic/frames.py:405-592 | For every accepted payload, encoding the parsed frames and parsing again gives the same frames, whatever varint and STREAM or DATAGRAM forms were used. |
| `FrameCodec.FrameRoundTrip` | src/dsquic/frames.py:73-397 | A well-formed frame followed by anything parses to itself and leaves what follows. |
| `FrameGrammar.BodyIsExact` | src/dsquic/frames.py:405-570 | A frame body is parsed as a given frame, leaving a given rest, if and only if it is spelled by the fields of the frame's layout for that type, with every integer in any of its four forms; data without a length runs to the end and padding takes every zero byte. |
| `FrameGrammar.FrameIsExact` | src/dsquic/frames.py:583-592 | A frame is parsed exactly when its type, in one byte, is followed by the fields of its layout. |
| `FrameGrammar.PayloadIsExact` | src/dsquic/frames.py:572-592 | A payload parses to a list of frames if and only if it is not empty and is those frames one after another, each in any of its forms. |
| `FrameGrammar.StreamToTheEnd` | src/dsquic/frames.py:461-469 | For every identifier and offset in any form, and all data, types 0x08, 0x09, 0x0C and 0x0D parse to one STREAM frame with all the remaining data and nothing left. |
| `FrameGrammar.DatagramToTheEnd` | src/dsquic/frames.py:534-537 | Type 0x30 parses to one DATAGRAM frame with all the remaining data and nothing left, and 0x31 to the bytes its length counts. |
| `FrameGrammar.PulledIsForm` | src/dsquic/buffer.py:85-92 | What is read as a variable-length integer is one of the four forms of its value, and any of the four forms is read back. |
| `FrameCodec.AckRoundTrip` | src/dsquic/frames.py:109-127 | The gap encoding of ACK ranges is inverted by the parser. |
| `FrameCodec.EncodeAck` | src/dsquic/frames.py:109-127 | The encoding loop produces the specified bytes or raises exactly when a field or gap is out of range. |
| `FrameCodec.ParseFramesLoop` | src/dsquic/frames.py:572-592 | The parsing loop is the specified parser, with its errors. |
| `Buffers.VarintRoundTrip` | src/dsquic/buffer.py:22-32 | Decoding the shortest form gives the value back and leaves what follows it. |
| `Buffers.PulledVarintInRange` | src/dsquic/buffer.py:85-92 | Whatever form was received, the value is in range and its shortest form is no longer than the one read. |
| `Buffers.Buffer.Varint` | src/dsquic/buffer.py:85-92 | The accumulating loop reads the specified value and advances past it. |
| `Buffers.Buffer.Pull` | src/dsquic/buffer.py:58-65 | Reading advances over exactly the bytes returned, or raises with the position unchanged. |
| `PacketNumbers.DecodeIsExact` | src/dsquic/packet.py:330-345 | A truncated number is recovered if and only if it lies in the half-open window around the expected number, or the correction is suppressed at an edge of the number space. |
| `PacketNumbers.WindowIsNotExact` | src/dsquic/packet.py:336-345 | The window alone is not the exact condition: with nothing received a one-byte field recovers 200. |
| `PacketNumbers.SendersNumberIsRecovered` | src/dsquic/connection.py:1688-1696 | The sender's own encoding of any number below 2^62 is recovered if and only if the decoder's condition holds; below 2^31 - 1 it holds the number whole, meets the upper end of every window, and is recovered if and only if the receiver is less than half a window ahead. |
| `PacketNumbers.FieldIsShortestSafe` | src/dsquic/packet.py:319-327 | The field chosen is the shortest whose half window exceeds the unacknowledged count, or four bytes. |
| `PacketNumbers.FieldHoldsLowPart` | src/dsquic/packet.py:319-327 | The field holds the number modulo its window. |
| `Protection.HeaderProtectionRoundTrip` | src/dsquic/protection.py:177-205 | For any mask function, removing header protection from what was protected restores header, key phase and ciphertext and decodes the number from the field sent. |
| `Protection.PacketRoundTrip` | src/dsquic/protection.py:140-216 | For any mask function, any AEAD that opens what it sealed and any number below 2^62, the receiver recovers the number, hence the payload, of a built packet if and only if the decoder's condition holds; the padded packet is always long enough to sample. |
| `Protection.NoncesAreDistinct` | src/dsquic/protection.py:135-137 | Under one key no two packet numbers share a nonce. |
| `Protection.MaskInPlace` | src/dsquic/protection.py:151-158 | The in-place masking loop changes the first byte and the number field as specified and nothing else. |
| `Protection.ProtectPacket` | src/dsquic/protection.py:140-159 | Protecting through the byte array is the specified function. |
| `Headers.ParseFields` | src/dsquic/packet.py:113-148 | A built version 1 header parses back to its fields and the offset of its number, whatever the masked bits and everything from the number on. |
| `Headers.OtherVersionRefused` | src/dsquic/packet.py:126-132 | A version other than 1 is refused by its number, whatever follows the connection IDs. |
| `Headers.BuiltHeadersCarry` | src/dsquic/connection.py:1695-1729 | Both kinds of built header end in the encoded number, and the short one announces the key phase. |
| `Headers.ProtectedPacketDelimits` | src/dsquic/connection.py:686-727 | Every protected long packet tells where it ends, whatever is coalesced behind it. |
| `Headers.CoalescedPacketsSeparate` | src/dsquic/connection.py:676-685 | Packets coalesced into one datagram are found again exactly, in order, with a short header packet allowed last. |
| `Headers.SplitLoop` | src/dsquic/connection.py:676-685 | The datagram loop finds the specified packets. |
| `SendLoop.DatagramDrains` | src/dsquic/connection.py:1403-1428 | Every datagram built strictly decreases the measure of pending ACK flags, CRYPTO bytes and frames, probes, control frames, stream bytes, FINs and retransmissions. |
| `SendLoop.DatagramsToSend` | src/dsquic/connection.py:1403-1428 | The send loop terminates for every congestion and pacing advice and computes the specified datagrams. |
| `SendLoop.RoundIsBounded` | src/dsquic/connection.py:1403-1428 | The datagrams of a round keep to the configured size but for at most as many as Initial packets were sent, each over by at most its token; their bytes are counted, and a round has at most as many datagrams as units of pending work. |
| `SendLoop.AmplificationIsBounded` | src/dsquic/connection.py:1472-1548 | In every run, whatever is received and queued, an unvalidated server's counted bytes stay below three times those received plus one datagram. |
| `SendWindow.FullWindowBlocks` | src/dsquic/connection.py:1472-1492 | With no probe owed and no room in the congestion window the send loop sends nothing and changes nothing. |
| `SendWindow.RoundKeepsWindow` | src/dsquic/connection.py:1403-1428 | Over a round every datagram built unpaced with no probe owed had room in the congestion window, and every one built while paced out carries ACK frames only. |
| `SendWindow.RoundStaysInWindow` | src/dsquic/connection.py:1472-1492 | Where the advice allows no more than the window less what is in flight, a round without probes keeps the bytes it adds in flight within the window. |
| `SendWindow.ReadyMeansSent` | src/dsquic/connection.py:1472-1492 | An endpoint that may send to its peer and is not paced out builds a datagram whenever a level has something to send, given room in the congestion window or a probe owed. |
| `SendWindow.PieceTaken` | src/dsquic/connection.py:1571-1595 | A CRYPTO frame is taken exactly when there is room and something queued, lost bytes first, as full as the room allows. |
| `Packing.FramesFit` | src/dsquic/connection.py:1550-1657 | The frames chosen for a packet encode to at most one byte more than its room. |
| `Packing.FramesDrain` | src/dsquic/connection.py:1550-1657 | A non-empty choice of frames strictly decreases the pending work; no choice increases it. |
| `Packing.NothingIsDropped` | src/dsquic/connection.py:1550-1657 | Choosing frames takes nothing from the queues but what goes into the packet: the pending ACK only with an ACK frame, control frames in order with the rest left, CRYPTO bytes only in their frame, a probe only with an ack-eliciting packet. |
| `Packing.ControlIsMaximal` | src/dsquic/connection.py:1639-1646 | The control frames chosen stop only where the next one does not fit. |
| `Packing.ChooseControl` | src/dsquic/connection.py:1639-1646 | The control loop takes exactly the longest prefix of queued frames that fits. |
| `Packing.ChooseStreams` | src/dsquic/connection.py:1647-1656 | The stream loop takes the specified frames, one per writable stream while room lasts. |
| `Datagrams.PacketFits` | src/dsquic/connection.py:1659-1730 | A packet fits the room it was built for although its frames may overrun by one byte; an Initial exceeds it by at most its token. |
| `Allowances.AllowanceIsExact` | src/dsquic/connection.py:1675-1684 | Whatever is queued at the Initial level, the datagram fits the configured size if and only if the header of the fullest packet keeps to the allowance of 64 bytes. |
| `Allowances.NoOverrun` | src/dsquic/connection.py:1550-1610 | At a level without application frames the frames chosen for a whole datagram never overrun their room, because an ACK reports at most 32 runs. |
| `Allowances.InitialIsExpanded` | src/dsquic/connection.py:1709-1723 | An Initial packet padded to 1200 bytes comes out below 1200, at 1199, if and only if it has room for padding and its Length field then takes one byte where the trial header took two; otherwise it is exactly 1200 or, unpadded, no shorter. |
| `Allowances.ShortInitial` | src/dsquic/connection.py:1709-1723 | With a 1130-byte token and a probe to send the Initial datagram built is 1199 bytes. |
| `Datagrams.DatagramFits` | src/dsquic/connection.py:1494-1548 | A datagram keeps to the configured size unless it is an Initial packet, and then exceeds it by at most the token. |
| `Allowances.TokenOverruns` | src/dsquic/connection.py:1677-1680 | With a 100-byte token and handshake bytes to send, the datagram built is 1236 bytes where 1200 are configured. |
| `Datagrams.LongLengthIsExact` | src/dsquic/packet.py:292-316 | The header length used by the bounds is the length of the built header. |

## Left out

- EveryRunCanFinish: asks that neither side starts from a zero limit for the connection or for bidirectional streams, which would forbid the data altogether; it says that a way to completion exists, not that a given network takes it.
- WrittenCanArrive: asks the same of the limits.
- OpenedCanArrive: asks the same of the limits.
- UpdateCanComplete: says that a way to the next generation exists, not that the schedule of a given network takes it.
- NoRunFails: is about the errors it lists; FRAME_ENCODING_ERROR for a stream limit above 2^60 is outside it, since the model does not have that check.
- HandleFrame: does not refuse a MAX_STREAMS above 2^60 (`src/dsquic/connection.py:1024-1028`), which a dsquic peer sends only after more than 2^59 streams were opened.
- Connection: holds packets by number and is told which are lost; that the lost ones are those recovery names is stated separately, in `RecoveryProof.LossIsExact`.
- StreamManager: holds stream halves as values instead of objects shared with the connection, so aliasing of a half is not modelled.
- Outbox: the connection's sending fields are a value that the send loop reassigns, not fields updated in place.
- ReparseIsStable: is stated for payloads of at most 2^62 - 1 bytes, the longest a length field can describe.
- FramesFit: is stated for rooms below 2^30 bytes, far above a UDP datagram, because the header allowances assume a four-byte length.
- DatagramFits: assumes a configured datagram size of at least 1200 bytes, as section 14 of RFC 9000 requires, and connection IDs of at most 20.
- InitialIsExpanded: is about the full 1200 bytes; a server held back by anti-amplification pads only to what it may send.
- CryptoRuns: a run ends where the level's keys are discarded, which empties its queues.
- Size: counts a frame that does not encode as zero bytes, where the source raises ValueError.
- BuildPacket: sends nothing where packet numbers run out at 2^62, instead of closing with INTERNAL_ERROR.
- AmplificationIsBounded: counts what the source counts; the datagram that closes a connection is not counted there.
- Slicer: parsing and handling of a sliced TLS message, and the alerts they raise, are not modelled.
- Varint limits on stream offsets, stream identifiers and packet numbers inside long runs: the runs use unbounded numbers, and the codec theorems say when a frame encodes.
- Half windows (`window / 2` on a float) are compared as doubled integers; floating-point rounding of times and growth is not modelled.
- ECN counts in the ACK frames of stream runs, ECN validation and its effect on marking: the controller's response to a mark is modelled, the counting is not.
- Lowering of limits on 0-RTT rejection, 0-RTT keys and early data: a restart is modelled as the loss of every packet held.
- TLS handshake logic, certificates, HKDF, session tickets, AEAD and header protection ciphers: foreign cryptography.
- Pacing credit, idle and closing timers, Retry, Version Negotiation, NEW_TOKEN, path validation and connection close: mostly single decisions.
- `transport_parameters.py`, `hq.py`, qlog, key logging, endpoints and sockets: codecs that would add only easy members, output, and I/O.
