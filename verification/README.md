# TCP/FIPS: a verified model of the connection state machine

`fips-tcp` is a TCP stack without I/O: bytes from an authenticated peer and a clock go in, bytes to
send come out. This project models one connection of it, two connections over a carrier that loses,
repeats, reorders and delays segments, and the table that holds a stack's connections, and proves what
they promise. The model follows the Rust sources; the TypeScript core is a twin of the same machine.

## How the project is built

Every piece of mutable state appears twice. A value (a datatype) and functions on it say what an
operation makes of it; a class with the program's fields and loops does it in place, and each of its
methods ensures that the value it holds becomes what the function says. Properties are proved about
the values, so they hold of the objects.

- `Numbers`, `SequenceSpace`: number widths, saturating operators, and wrapping 32-bit sequence
  numbers. A sequence number stands for an unbounded *position*; below 2^31 apart, the wrapping tests
  are the order of the positions (section 3.4 of RFC 9293).
- `Wire`: the header and option codec (section 3.1 of RFC 9293), with its loops.
- `Reno`, `Rtt`, `Marker`: congestion control, the round-trip estimator with Karn's gate, and
  acknowledgement markers, as values and as objects.
- `Receiver`, `Delivery`, `Reassembly`: reassembly. `RxOk` is the capacity invariant, kept for any input
  whatever; `RxMatches` ties the receiver to the peer's byte stream; nothing in the window is lost.
- `Sender`, `SendInvariant`, `SendSteps`: the sending half. `TxOk` says that the retransmission queue
  followed by the send queue is the byte stream from the acknowledged position on, and that the Karn
  mark, the retry budget and the recovery mark lie inside it.
- `Connection`, `ConnectionInvariant`, `ConnectionSteps`: a whole connection as a value, its
  invariant `ConnOk`, and the proof that input, write, read, close and poll keep it and send only
  segments that agree with the byte stream.
- `ConnectionRuns`, `FastRetransmit`, `Retries`, `Timers`: theorems about the *life* of a connection,
  any sequence of arriving bytes, writes, reads, closes and polls from its creation on.
- `Answers`, `Windows`, `Teardown`, `Recovery`, `Control`: what a connection must do in every life:
  acknowledge data, announce itself, send what it tracks; follow the peer's window; carry out a close;
  time and repair on advancing ACKs; and feed its congestion controller.
- `Resets`: exactly which inputs close a connection, and how a restarted client clears a stale one.
- `Handshake`: the loss-free three-way handshake opens both ends, and the segment size it settles.
- `Network`, `NetworkSafety`, `NetworkRuns`, `NetworkAnswers`: two endpoints and the carrier as a step
  system, from the client's first SYN on, and the end-to-end theorems over every run.
- `ConnectionObject`: the class `Connection` with the program's fields, loops and helper objects.
- `StackSpec`, `StackSafety`, `StackRuns`, `StackTheorems`, `StackTimers`, `StackObject`: the
  connection table, admission, reservation, port scan, dispatch, polling and abort, as a value, over
  runs, and as a class.
- `StackRefinement`, `StackAccepts`: in every run, each entry of the table is the life of a connection
  under its own operations, so the theorems about lives hold of the table; and the accept queues.

Positions and the byte streams are history: byte i that an endpoint's application wrote has position
`base + i`, its SYN `base - 1`, and its FIN the position just after the last byte. A tracked segment
carries one history counter, `sends`, that no operation reads; it counts how often any part of the
segment was sent, so that Karn's rule can be stated.

## Assumptions

- A delivered segment other than a reset is less than 2^31 positions stale (`Network.NotStale`), and
  the carrier holds only segments of this pair of connections, not of an earlier pair with the same tuple.
- A peer is an opaque value with equality; the carrier authenticates it.
- Initial sequence numbers and the clock are parameters. The clock may go backwards except where a
  theorem speaks of a strictly later deadline, which needs a clock short of its maximum.
- Byte counters (128 bits) and marker tokens are not exhausted. Connection identifiers wrap as in the
  program; statements over runs of a table last as long as the 2^64 identifiers do.

## Model

| member | source | states |
|---|---|---|
| `SequenceSpace.WrapOrder` | rust/fips-tcp/src/seq.rs:3-21 | below 2^31 apart, before, after, equality and distance of sequence numbers are the order and difference of their positions |
| `SequenceSpace.WrapInterval` | rust/fips-tcp/src/seq.rs:15-17 | the closed-interval test holds exactly of the positions in an interval shorter than 2^31 |
| `Wire.EncodeSucceeds` | rust/fips-tcp/src/wire.rs:160-191 | encoding succeeds exactly for non-zero ports, agreeing ACK flag and field, a header within 60 bytes and encodable options, and gives header plus payload bytes |
| `Wire.SegmentRoundTrip` | rust/fips-tcp/src/wire.rs:160-268 | any segment comes back from its own encoding as itself exactly when it encodes and its options are canonical |
| `Wire.OptionsRoundTrip` | rust/fips-tcp/src/wire.rs:77-99 | canonical options followed by any padding decode to themselves |
| `Wire.DecodedReencodes` | rust/fips-tcp/src/wire.rs:193-268 | whatever bytes decode, the segment encodes again, to bytes that decode to the same segment |
| `Wire.EncodeSegment` | rust/fips-tcp/src/wire.rs:160-191 | the encoder's loop over the options produces exactly the specified bytes or error |
| `Wire.EncodeInto` | rust/fips-tcp/src/wire.rs:77-99 | one option is appended to the output, or refused |
| `Wire.DecodeOptionList` | rust/fips-tcp/src/wire.rs:232-268 | the decoder's loop over a shrinking slice computes the specified options or error |
| `RenoControl.RenoRunBounds` | rust/fips-tcp/src/reno.rs:21-74 | in every run of events, with any segment sizes negotiated, the window holds one segment and the threshold two of the smallest size so far; so both hold of the current size while it is the smallest |
| `RenoControl.RaisedSegmentSize` | rust/fips-tcp/src/reno.rs:25-50 | a larger size set during fast recovery would leave a window below one segment; the only caller takes a minimum and never raises it |
| `RenoControl.RepeatedTimeouts` | rust/fips-tcp/src/reno.rs:67-74 | after a timeout, until payload is acknowledged, recovery lasts and no further timeout changes the threshold, whatever duplicate ACKs and fast losses come between; without a fast loss nothing changes at all |
| `RenoControl.SlowStartDoubles` | rust/fips-tcp/src/reno.rs:30-50 | below the threshold, over any run of ACKs, the window grows by exactly the bytes acknowledged |
| `RenoControl.AvoidanceGrowth` | rust/fips-tcp/src/reno.rs:30-50 | in avoidance, over any run of ACKs, each one grows the window by between one segment size squared over the final and over the first window, at least one byte |
| `RenoControl.AvoidancePerRoundTrip` | rust/fips-tcp/src/reno.rs:30-50 | so a window's worth of ACKs grows the window by at most one segment, or one byte each, and by at least one byte each (section 3.1 of RFC 5681) |
| `RenoControl.FastRecoveryCycle` | rust/fips-tcp/src/reno.rs:30-65 | a fast loss sets the threshold to half the flight or two segments and the window to that plus three segments and one per further duplicate; the next ACK of payload leaves exactly the threshold (section 3.2 of RFC 5681) |
| `RenoControl.Reno.OnAck` | rust/fips-tcp/src/reno.rs:30-50 | the object takes the specified transition on an acknowledgement: leave recovery, slow start or avoidance |
| `RenoControl.Reno.OnFastLoss` | rust/fips-tcp/src/reno.rs:58-65 | the object enters fast recovery once |
| `RenoControl.Reno.OnTimeout` | rust/fips-tcp/src/reno.rs:67-74 | the object falls back to one segment and lowers the threshold once per recovery |
| `RttEstimation.RttRunBounds` | rust/fips-tcp/src/rtt.rs:42-69 | in every run the timeout stays between its bounds, and the smoothed time between the bounds of the samples |
| `RttEstimation.Backoff` | rust/fips-tcp/src/rtt.rs:62-69 | k timeouts without a sample multiply the timeout by 2^k, up to the maximum |
| `RttEstimation.ConstantSamples` | rust/fips-tcp/src/rtt.rs:42-60 | under equal samples s the smoothed time is s, the variance sinks to at most 3, and the timeout stays at or above clamp(s + 5) and settles at or below clamp(s + 12) |
| `RttEstimation.TimeoutCovers` | rust/fips-tcp/src/rtt.rs:42-69 | in every run the timeout is at least the smoothed time plus four variances, and plus five, up to its maximum; and no sample leaves a timeout below itself |
| `RttEstimation.TimeoutsForget` | rust/fips-tcp/src/rtt.rs:62-69 | timeouts in a row drop the measurement at the third and count modulo three; they leave the mark and the smoothed time |
| `RttEstimation.RttEstimator.Sample` | rust/fips-tcp/src/rtt.rs:42-60 | the object takes the specified sample transition and clears the Karn mark |
| `RttEstimation.RttEstimator.OnTimeout` | rust/fips-tcp/src/rtt.rs:62-69 | the object backs off, and forgets its measurement at the third timeout in a row |
| `Markers.MarkerLife` | rust/fips-tcp/src/marker.rs:57-73 | a marker is acknowledged exactly once all bytes outstanding when it was taken are, stays so, and is gone for any other connection |
| `Receiver.ReceiveKeepsCapacity` | rust/fips-tcp/src/stack.rs:636-731 | any segment from any peer leaves every parked chunk after `recv_nxt` and within the capacity, counting all chunks before it in list order |
| `Receiver.OpenWindow` | rust/fips-tcp/src/stack.rs:891-899 | the window is at least the last parked chunk's offset, and zero exactly when the queue is full with nothing parked |
| `Receiver.TurnTakesChunk` | rust/fips-tcp/src/stack.rs:697-730 | a turn of the drain always takes the rest of a chunk: the branch that parks a leftover is unreachable |
| `Receiver.DrainFindsFirstHole` | rust/fips-tcp/src/stack.rs:691-731 | whatever the list order, the drain moves `recv_nxt` to the first position no chunk covers |
| `Receiver.CoveringSegmentAdvances` | rust/fips-tcp/src/stack.rs:649-689 | with an open window, a segment covering `recv_nxt` advances it if and only if the reassembly list has a free slot |
| `Reassembly.KeptOrDelivered` | rust/fips-tcp/src/stack.rs:649-731 | for any segment and any parked chunks: a position is delivered or parked afterwards if and only if it was parked before, or lies in the segment's part of the window and the list has a free slot |
| `Reassembly.StopsAtHole` | rust/fips-tcp/src/stack.rs:691-731 | after any segment, nothing is parked at the new `recv_nxt`, so all that is contiguous was delivered |
| `Reassembly.OrderDoesNotMatter` | rust/fips-tcp/src/stack.rs:649-731 | two segments of the peer's stream that fit the window leave the same `recv_nxt` and the same queue in either order |
| `Delivery.ReceiveDelivers` | rust/fips-tcp/src/stack.rs:636-741 | a segment that agrees with the peer's stream extends the queue by exactly the stream's next bytes, and consumes a FIN only at its end |
| `SendSteps.AckAcceptance` | rust/fips-tcp/src/stack.rs:566-572 | an ACK is taken exactly when it lies in [una, nxt] modulo 2^32, and then stands for a position there |
| `SendSteps.ApplyAckKeeps` | rust/fips-tcp/src/stack.rs:566-634 | any ACK number keeps the sender's invariant, moves `una` to its own position or not at all, and reports the FIN exactly when it passes the stream's end |
| `SendSteps.KarnsRule` | rust/fips-tcp/src/stack.rs:594-629 | an RTT sample times a segment that was sent exactly once; taking it leaves no segment behind that was sent twice |
| `Recovery.AdvanceIsUsed` | rust/fips-tcp/src/stack.rs:594-633 | in a synchronised state, an advancing ACK times the last segment it passes exactly if Karn's gate lets that one through, and causes exactly one retransmission, from the first unacknowledged number, if the flight timed out with its mark still ahead, the advertised window is open and the segment has budget left; else none |
| `SendSteps.RetransmitKeeps` | rust/fips-tcp/src/connection_recovery.rs:2-32 | sending the oldest segment again keeps the invariant and sends a piece of the stream, at most one; a suppressed attempt changes nothing |
| `SendSteps.FlushQueueKeeps` | rust/fips-tcp/src/stack.rs:785-800 | the send loop ends with what is in flight inside both windows, no payload above the segment size, and nothing left to send; all it sends is tracked, in order |
| `SendSteps.FlushQueueFills` | rust/fips-tcp/src/stack.rs:785-800 | every segment of the send loop but the last is full, and the last too unless it exhausts the queue or the windows |
| `SendSteps.FlushFinKeeps` | rust/fips-tcp/src/stack.rs:801-816 | the FIN is created only with an empty send queue and room, ends the stream, and is last in the queue |
| `SendSteps.PollZeroWindowKeeps` | rust/fips-tcp/src/stack_poll.rs:60-84 | the persist timer gives up exactly when due with its probes spent, and sends exactly when due with budget and payload left: one byte of the stream; the invariant is kept |
| `SendSteps.ProbesOldestByte` | rust/fips-tcp/src/stack.rs:820-842 | a zero-window probe always carries the first byte of the stream that is not acknowledged, at its own number, whether it was sent before or not |
| `Timers.ProbesBackOff` | rust/fips-tcp/src/stack_poll.rs:60-84 | while the window stays closed, each probe is due twice as long after the last as that was, doubled sixteen times at most and never beyond the maximum |
| `SendSteps.PollRetransmitKeeps` | rust/fips-tcp/src/stack_poll.rs:86-105 | the retransmission timer gives up exactly when due with the budget spent; else when due it marks the flight, falls back to one segment of window, doubles the timeout up to its maximum, and sends the piece at `una` again; it is due at the oldest segment's last send plus the timeout |
| `ConnectionInvariant.ClientOk` | rust/fips-tcp/src/stack.rs:342-361 | a new client satisfies the invariant with its SYN in flight |
| `ConnectionInvariant.ServerOk` | rust/fips-tcp/src/stack.rs:363-383 | a new server satisfies the invariant with its SYN-ACK in flight |
| `ConnectionSteps.InputKeeps` | rust/fips-tcp/src/stack.rs:152-510 | every segment a stack may hand to a connection keeps its invariant; only an acceptable ACK moves `una`; all output agrees with the stream and encodes |
| `ConnectionSteps.WriteKeeps` | rust/fips-tcp/src/stack.rs:512-531 | a write succeeds exactly in the two sending states without a requested close, and appends to the stream the bytes offered, or as many as the send buffer has room for |
| `ConnectionSteps.ReadKeeps` | rust/fips-tcp/src/stack.rs:533-549 | a read takes exactly the front bytes of the receive queue, the fewer of all and those asked for, and changes nothing else; it announces the window exactly when it took any in a synchronised state before TIME-WAIT, so the growth test never decides |
| `ConnectionSteps.CloseKeeps` | rust/fips-tcp/src/stack.rs:551-564 | closing removes the connection exactly in the handshake states, and otherwise keeps the invariant |
| `ConnectionSteps.PollKeeps` | rust/fips-tcp/src/stack_poll.rs:48-106 | polling keeps the invariant and sends only pieces of the stream |
| `ConnectionSteps.InputStates` | rust/fips-tcp/src/stack.rs:425-510 | the handshake states are left for good, and closing a connection emits nothing |
| `Answers.EverySegmentAnnounces` | rust/fips-tcp/src/stack.rs:855-899 | every segment a connection emits carries its ports, the number it expects next, and exactly the free space of its buffer, before or after the operation; the one exception is the reset that answers a stale ACK in SYN-SENT |
| `Answers.DataIsAcknowledged` | rust/fips-tcp/src/stack.rs:505-509 | whatever segment with data or a FIN reaches a connection that stays open, in order or not, is answered by a pure ACK of exactly what was then received, with the window then free |
| `Answers.TrackedIsSent` | rust/fips-tcp/src/stack.rs:764-818 | whatever an operation adds to the retransmission queue is among the segments it emits |
| `Windows.InputWindow` | rust/fips-tcp/src/stack.rs:495-497 | the remote window becomes what a segment advertises exactly if its ACK lies in [una, nxt] or completes the handshake; the persist deadline is armed by the first zero window, one timeout away, and dropped by an open one |
| `Windows.WindowIsAdvertised` | rust/fips-tcp/src/stack.rs:844-853 | over every life the remote window is what the peer advertised in the last segment that counted |
| `Windows.NewDataFitsWindow` | rust/fips-tcp/src/stack.rs:785-800 | over every life, an operation that sends new sequence space, probes apart, leaves no more in flight than the peer last advertised and than the congestion window |
| `Windows.NothingWaits` | rust/fips-tcp/src/stack.rs:785-818 | in every life, while bytes or a close are queued, what is in flight fills the remote or the congestion window |
| `Teardown.StatesTellBothFins` | rust/fips-tcp/src/stack.rs:476-494 | in every life the peer's FIN was consumed exactly in CLOSE-WAIT, CLOSING, LAST-ACK and TIME-WAIT; FIN-WAIT-1 is our FIN pending without it, CLOSING and LAST-ACK our FIN pending with it |
| `Teardown.OpMoves` | rust/fips-tcp/src/stack.rs:733-762 | every operation moves the state only along the state diagram: CLOSING follows FIN-WAIT-1 alone, LAST-ACK only a FIN of the peer before ours; FIN-WAIT-2 and TIME-WAIT get their deadlines when entered and keep them (section 3.3.2 of RFC 9293) |
| `Teardown.CloseTakesEffect` | rust/fips-tcp/src/stack.rs:551-564 | a close in a sending state is never forgotten: in the rest of the life the FIN is made, or requested and held back only by queued bytes or full windows |
| `Control.RenoFollowsLife` | rust/fips-tcp/src/stack.rs:566-634 | over every life the congestion controller is exactly the run of the life's events: every byte newly acknowledged, every qualifying duplicate, every third one, and every timeout, once and in order |
| `Control.FirstReno` | rust/fips-tcp/src/reno.rs:11-28 | a new connection starts with two segments of window, no threshold, the configured first timeout and no measurement |
| `Resets.InputCloses` | rust/fips-tcp/src/connection_reset.rs:2-29 | in every life, for every segment: an input closes the connection exactly if it is a reset acknowledging the SYN in SYN-SENT, a reset at exactly `recv_nxt` later, or the ACK of our FIN in LAST-ACK (section 3.10.7 of RFC 9293, RFC 5961); without a reset never before the peer's FIN was consumed |
| `Resets.ResetIsChallenged` | rust/fips-tcp/src/connection_reset.rs:13-28 | a reset that does not close changes nothing, and draws one ACK of what is expected next exactly if it lies in the window beyond it (section 3.2 of RFC 5961) |
| `Resets.ReplyPlaces` | rust/fips-tcp/src/stack.rs:282-297 | the stateless reset stands at the ACK number of what it answers, or else acknowledges all of its sequence space |
| `Resets.ClosedPortRefuses` | rust/fips-tcp/src/stack.rs:146-150 | a connection attempt that nobody listens for is refused at once: the stateless reset closes it |
| `Resets.AbortReachesPeer` | rust/fips-tcp/src/stack_abort.rs:20-47 | the reset of an abort closes the peer's connection exactly if the peer has received all that was sent |
| `Resets.HalfOpenRecovers` | rust/fips-tcp/src/stack.rs:152-175 | a restarted client's SYN on a tuple the peer still holds draws a challenge ACK, that a reset, and that removes the stale connection while the client stays in SYN-SENT; it fails, with a silent client, exactly if the stale `recv_nxt` is the new number plus one |
| `Resets.SynAgain` | rust/fips-tcp/src/stack_poll.rs:86-104 | the SYN that client sends again at its deadline is its first one, so the recovered tuple opens as in the handshake |
| `Resets.SynAckAgain` | rust/fips-tcp/src/stack.rs:446-453 | a SYN that arrives again in SYN-RECEIVED draws the same SYN-ACK again while its budget lasts, and nothing the handshake depends on changes |
| `Handshake.HandshakeOpens` | rust/fips-tcp/src/stack.rs:342-466 | for all configurations, ports, numbers and times, SYN, SYN-ACK and ACK open both ends, each expecting the other's first byte, with the smaller of the two segment sizes on both |
| `Handshake.SizeSettled` | rust/fips-tcp/src/stack.rs:886-889 | the segment size is the smaller of our own and the first MSS option, or 1024 without one, at least one; the congestion window is at least that |
| `ConnectionRuns.BufferIsStream` | rust/fips-tcp/src/stack.rs:512-531 | in every life the stream from the acknowledged count on is the unacknowledged payloads then the send queue; accepted = acknowledged + in flight + queued, within the send buffer |
| `ConnectionRuns.FlightIsContiguous` | rust/fips-tcp/src/stack.rs:764-783 | in every life the retransmission queue is one contiguous run of sequence numbers from `una` to `nxt`, each segment non-empty, adding up to what is in flight, at most 65535 |
| `ConnectionRuns.FinDiscipline` | rust/fips-tcp/src/stack.rs:476-494 | FIN-WAIT-1, CLOSING and LAST-ACK hold exactly while the FIN is unacknowledged, last in the queue; FIN-WAIT-2 and TIME-WAIT have empty queues and their deadline (section 3.3.2 of RFC 9293) |
| `ConnectionRuns.FinOnlyOnce` | rust/fips-tcp/src/stack.rs:801-816 | once the FIN is made no later state is before it and no byte is accepted |
| `ConnectionRuns.RetryBudget` | rust/fips-tcp/src/connection_recovery.rs:2-44 | recorded transmissions stay between 1 and max(1, limit), the flight within 65535, and the recovery mark in (una, nxt] |
| `ConnectionRuns.KarnInEveryLife` | rust/fips-tcp/src/rtt.rs:33-40 | a segment any part of which was sent twice never passes the gate for RTT samples (section 3 of RFC 6298) |
| `ConnectionRuns.DeadlineIsExact` | rust/fips-tcp/src/stack_poll.rs:33-106 | a poll before the predicted deadline does nothing; at it, it closes or emits and leaves a later deadline |
| `ConnectionRuns.SilentPeerEnds` | rust/fips-tcp/src/stack_poll.rs:48-106 | without input, polls at the deadlines remove any connection with anything outstanding, within one more than the limit |
| `ConnectionRuns.WindowsInEveryLife` | rust/fips-tcp/src/stack.rs:891-903 | in every life both windows, the threshold and the timeout stay in their bounds |
| `Timers.PollBeforeDeadline` | rust/fips-tcp/src/stack_poll.rs:33-106 | before its deadline, or without one, a poll changes and emits nothing |
| `Timers.PollAtDeadline` | rust/fips-tcp/src/stack_poll.rs:48-106 | at its deadline a poll closes a connection exactly when its counter is spent; else it emits and leaves one poll fewer and a deadline at most the maximum timeout away |
| `Timers.CloseWaitsForever` | rust/fips-tcp/src/stack_poll.rs:36-39 | with nothing outstanding there is a deadline exactly when a close waits at a zero window with its probes spent |
| `Timers.SilentPeerTerminates` | rust/fips-tcp/src/stack_poll.rs:48-106 | a silent peer's connection closes at exactly the poll its counters predict, each gap at most the maximum timeout |
| `FastRetransmit.OneAttemptPerStreak` | rust/fips-tcp/src/stack.rs:573-594 | `duplicate_acks` is the saturating number of qualifying ACKs since the last interruption, and a streak attempts exactly one fast retransmit, however long it is (section 3.2 of RFC 5681) |
| `FastRetransmit.AttemptResends` | rust/fips-tcp/src/stack.rs:573-592 | of all a qualifying ACK makes the connection emit, exactly one segment is a retransmission, the oldest, if it was the third and the budget is not spent; otherwise none is |
| `Retries.SentAtMost` | rust/fips-tcp/src/connection_recovery.rs:2-44 | over every life, each piece of the stream is sent in full at most max(1, limit) times, whoever asks for it |
| `Retries.OneResendPerInput` | rust/fips-tcp/src/stack.rs:425-510 | any input causes at most one retransmission |
| `Retries.FlushQueueFresh` | rust/fips-tcp/src/stack.rs:785-800 | the send loop sends only sequence space from `nxt` on |
| `NetworkRuns.StepKeepsInv` | rust/fips-tcp/src/stack.rs:120-239 | every step of either endpoint or the carrier keeps the invariant of the pair |
| `NetworkRuns.StreamSafety` | rust/fips-tcp/src/stack.rs:566-842 | in every run what was read and what is queued is a prefix of what the peer wrote, with `recv_nxt` standing for exactly its length |
| `NetworkRuns.AcksTellTheTruth` | rust/fips-tcp/src/stack.rs:469-510 | in every run `una` is at most the peer's `recv_nxt`, which is at most `nxt`; every acknowledged byte is held by the peer's stack |
| `NetworkRuns.FinsTellTheTruth` | rust/fips-tcp/src/stack.rs:726-741 | in every run a closed receive side has the peer's whole stream, and FIN-WAIT-2 and TIME-WAIT mean that the peer consumed our FIN |
| `NetworkRuns.AckedMarkerMeansHeld` | rust/fips-tcp/src/marker.rs:65-73 | a marker taken at any moment of a run and reported as acknowledged at any later one means that the peer's stack holds every byte written before it was taken |
| `NetworkRuns.CarrierRoundTrip` | rust/fips-tcp/src/stack.rs:265-297 | every segment either endpoint ever emits encodes and decodes to itself |
| `NetworkAnswers.DeliveryIsAnswered` | rust/fips-tcp/src/stack.rs:505-509 | in every world, data delivered to a connection that stays open puts an ACK on the carrier for exactly the position the receiver has reached |
| `NetworkAnswers.AckReleases` | rust/fips-tcp/src/stack.rs:566-634 | in every reachable world, an ACK delivered to a synchronised connection that stays open moves `una` to exactly the position acknowledged if that is beyond, and never back |
| `NetworkAnswers.GracefulEnd` | rust/fips-tcp/src/stack.rs:476-494 | in every reachable world, a delivery that ends a connection without a reset finds both streams complete in the stacks they were sent to, and both FINs consumed |
| `ConnectionObject.Connection.New` | rust/fips-tcp/src/stack.rs:385-423 | the object's initial fields are the specified blank connection |
| `ConnectionObject.Connection.Client` | rust/fips-tcp/src/stack.rs:342-361 | creates the specified client and its SYN |
| `ConnectionObject.Connection.Server` | rust/fips-tcp/src/stack.rs:363-383 | creates the specified server and its SYN-ACK |
| `ConnectionObject.Connection.OnSegment` | rust/fips-tcp/src/stack.rs:425-510 | one segment turns the object's value, output and flags into the specified ones |
| `ConnectionObject.Connection.OnSynSent` | rust/fips-tcp/src/stack.rs:430-443 | the SYN-ACK synchronises the object as specified |
| `ConnectionObject.Connection.OnSynReceived` | rust/fips-tcp/src/stack.rs:445-467 | a repeated SYN is answered, the handshake ACK establishes, as specified |
| `ConnectionObject.Connection.ProcessAck` | rust/fips-tcp/src/stack.rs:470-502 | ACK, FIN acknowledgement, window and repair change the object as specified |
| `ConnectionObject.Connection.FinishSegment` | rust/fips-tcp/src/stack.rs:505-509 | stream data, its ACK and the flush change the object as specified |
| `ConnectionObject.Connection.OnReset` | rust/fips-tcp/src/connection_reset.rs:2-29 | a reset closes on the exact number, draws an ACK inside the window, and is dropped otherwise; nothing changes |
| `ConnectionObject.Connection.Write` | rust/fips-tcp/src/stack.rs:512-531 | accepts what the buffer takes, counts it and flushes, or refuses with the state |
| `ConnectionObject.Connection.Read` | rust/fips-tcp/src/stack.rs:533-549 | returns the front of the queue, and an ACK if the window grew |
| `ConnectionObject.Connection.Close` | rust/fips-tcp/src/stack.rs:551-564 | requests the FIN or closes, by state |
| `ConnectionObject.Connection.ApplyAck` | rust/fips-tcp/src/stack.rs:566-634 | one ACK number changes the object as specified |
| `ConnectionObject.Connection.DuplicateAck` | rust/fips-tcp/src/stack.rs:573-592 | counts, inflates and sends again as specified |
| `ConnectionObject.Connection.PopAcked` | rust/fips-tcp/src/stack.rs:598-609 | the loop pops exactly the covered segments and totals their payload, FIN and last sample |
| `ConnectionObject.Connection.TrimCut` | rust/fips-tcp/src/stack.rs:610-620 | the cut segment loses exactly its acknowledged bytes |
| `ConnectionObject.Connection.Acknowledge` | rust/fips-tcp/src/stack.rs:595-633 | an advancing ACK changes queue, marks, estimator, Reno and counters as specified |
| `ConnectionObject.Connection.InsertReceived` | rust/fips-tcp/src/stack.rs:649-689 | trims to both edges and parks the chunk unless it is empty, a duplicate or the list is full |
| `ConnectionObject.Connection.DrainReassembly` | rust/fips-tcp/src/stack.rs:691-731 | the loop computes the specified drain, and repeated FINs change the state only once |
| `ConnectionObject.Connection.OnRemoteFin` | rust/fips-tcp/src/stack.rs:733-741 | the peer's FIN moves the state as specified |
| `ConnectionObject.Connection.SendTracked` | rust/fips-tcp/src/stack.rs:764-783 | the new segment is last in the queue and moves `nxt` past itself |
| `ConnectionObject.Connection.FlushData` | rust/fips-tcp/src/stack.rs:785-818 | sends the specified segments, and the FIN behind them |
| `ConnectionObject.Connection.FlushQueue` | rust/fips-tcp/src/stack.rs:790-800 | the loop sends exactly what the recursive specification sends, in order |
| `ConnectionObject.Connection.ZeroWindowProbe` | rust/fips-tcp/src/stack.rs:820-842 | one byte of the oldest payload, else the first queued byte, tracked |
| `ConnectionObject.Connection.UpdateRemoteWindow` | rust/fips-tcp/src/stack.rs:844-853 | the persist deadline is set with a zero window and cleared with an open one |
| `ConnectionObject.Connection.NegotiateMss` | rust/fips-tcp/src/stack.rs:886-889 | the segment size is the smaller offer, at least one |
| `ConnectionObject.Connection.RetransmitOldest` | rust/fips-tcp/src/connection_recovery.rs:2-32 | the front segment is sent, stamped and counted, or nothing changes when its budget is spent |
| `ConnectionObject.Connection.RepairTimedOutFlight` | rust/fips-tcp/src/connection_recovery.rs:34-44 | repairs one hole of a timed-out flight if the window and the budget allow |
| `ConnectionObject.Connection.NextPollAt` | rust/fips-tcp/src/stack_poll.rs:33-46 | predicts the specified deadline |
| `ConnectionObject.Connection.PollPersist` | rust/fips-tcp/src/stack_poll.rs:60-84 | the persist timer probes, waits or gives up as specified |
| `ConnectionObject.Connection.PollTimeout` | rust/fips-tcp/src/stack_poll.rs:86-104 | the retransmission timer resends, waits or gives up as specified |
| `ConnectionObject.Connection.Poll` | rust/fips-tcp/src/stack_poll.rs:48-106 | a poll changes the object as specified |
| `StackTheorems.TableGuarantee` | rust/fips-tcp/src/stack.rs:91-187 | in every run, reservations installed on the way included, lookup and connections mirror each other, both limits hold, and everything queued decodes |
| `StackTheorems.ReservationGuarantee` | rust/fips-tcp/src/stack_admission.rs:18-50 | from its installation on, on any table, ordinary peers never hold more than the unreserved slots or what they held then; if that was within the rest, a selected peer below its limit is refused only when selected peers hold all reserved slots |
| `StackTheorems.AdmissionIsCapacity` | rust/fips-tcp/src/stack_admission.rs:32-50 | a peer is admitted exactly when the table stays within both limits with its connection in it, and there is no reservation, or it is selected, or the table stays within the rest |
| `StackTheorems.EphemeralPort` | rust/fips-tcp/src/stack.rs:315-329 | from any cursor a port is found if and only if one of the 16384 is unused, and the one found is unused |
| `StackTheorems.ScanFindsFirst` | rust/fips-tcp/src/stack.rs:315-329 | the port found is the first free one in cyclic order |
| `StackTheorems.AbortIsolation` | rust/fips-tcp/src/stack_abort.rs:20-47 | an abort removes one connection, leaves exactly its reset queued for the tuple, and keeps all other output in order |
| `StackTheorems.AbortPeerIsolation` | rust/fips-tcp/src/stack_abort.rs:7-17 | aborting a peer removes exactly its connections, leaves exactly the reset of each queued for its tuple, and keeps other peers' output in order |
| `StackRuns.StackStepKeeps` | rust/fips-tcp/src/stack.rs:54-329 | every operation keeps the table's invariant and every connection's own; every one but a new reservation keeps the reservation and takes no reserved slot for an ordinary peer |
| `StackRuns.InsertMirrored` | rust/fips-tcp/src/stack.rs:99-118 | a new connection keeps lookup and table mirrored exactly when its identifier is not in use |
| `StackTimers.PollServesDue` | rust/fips-tcp/src/stack.rs:189-201 | polling connections in any order touches exactly those whose deadline has passed: each is removed, or has something queued for its tuple and a later deadline; if none is due nothing happens |
| `StackRefinement.TableRunsLives` | rust/fips-tcp/src/stack.rs:91-239 | for every run from an empty stack and every entry of its table: one operation opened it, and its connection is that client's or server's life under exactly the arrivals whose decoded tuple is the entry's and its own writes, reads, closes and polls, in order; what was queued for the tuple since, taken away or not, decodes to exactly what that life emitted; what it accepted is what the stack reported |
| `StackRefinement.StepTracks` | rust/fips-tcp/src/stack.rs:120-239 | one operation of the stack, seen from a connection it does not abort: the entry takes exactly the steps of its life that the operation means to it and is gone exactly if one ends it |
| `StackRefinement.RunEnds` | rust/fips-tcp/src/stack.rs:120-239 | over any run, a connection that is never aborted is in the table exactly as long as its life lasts |
| `StackRefinement.TableBuffers` | rust/fips-tcp/src/stack.rs:203-211 | in every run the send buffer of every entry is the unacknowledged end of the bytes that writes reported as accepted |
| `StackRefinement.TableDeadlines` | rust/fips-tcp/src/stack.rs:189-201 | in every run the predicted deadline of every entry is exact: polling it earlier changes nothing at all, polling it then removes it, or queues something for its tuple and leaves a later deadline |
| `StackRefinement.TableSendsBounded` | rust/fips-tcp/src/stack.rs:120-239 | in every run, each piece of every entry's stream was sent in full at most max(1, limit) times since it was opened |
| `StackRefinement.ConnectOpens` | rust/fips-tcp/src/stack.rs:91-118 | a connection is opened exactly when both ports are set, the peer is admitted and the tuple is free; it is then in the table under a fresh identifier with its SYN queued, and otherwise nothing changes |
| `StackRefinement.StrangersAnswered` | rust/fips-tcp/src/stack.rs:120-150 | a segment for a free tuple: a SYN of the version to a listener opens a server if admitted, else is refused without effect; any other SYN to a listener, and anything else but a reset, is answered by a stateless reset and nothing else happens |
| `StackRefinement.RequestsReported` | rust/fips-tcp/src/stack.rs:203-239 | unknown identifiers are reported and change nothing; a write is refused exactly once closing has begun; a read returns the bytes it takes from the front of the queue |
| `StackRefinement.ArrivalsReported` | rust/fips-tcp/src/stack.rs:120-126 | bytes that do not decode report the wire error and change nothing; bytes for a known tuple are taken |
| `StackAccepts.StepJoins` | rust/fips-tcp/src/stack.rs:176-181 | in every operation, a connection joins the accept queue of its local port exactly when it leaves SYN-RECEIVED and stays open, and nothing else joins any queue |
| `StackAccepts.HandedOutOnce` | rust/fips-tcp/src/stack.rs:70-78 | in every run, what `accept` returns is in the table with that port and its handshake complete, and no later `accept` returns it again |
| `StackAccepts.PopsFront` | rust/fips-tcp/src/stack.rs:70-78 | `accept` takes the first connection in line that still exists, drops those before it, keeps those behind it, and returns none only if none in line exists |
| `StackObject.Stack.Listen` | rust/fips-tcp/src/stack.rs:54-63 | opens a listener, or refuses port zero and a second one |
| `StackObject.Stack.Accept` | rust/fips-tcp/src/stack.rs:70-78 | the loop returns the first queued connection that still exists |
| `StackObject.Stack.SetConnectionReservation` | rust/fips-tcp/src/stack_admission.rs:18-30 | installs a reservation exactly if it leaves ordinary capacity |
| `StackObject.Stack.EnsureConnectionCapacity` | rust/fips-tcp/src/stack_admission.rs:32-50 | admits by both limits and the reservation |
| `StackObject.Stack.AllocateEphemeralPort` | rust/fips-tcp/src/stack.rs:315-329 | the loop computes the specified scan and cursor |
| `StackObject.Stack.ConnectFromWithIsn` | rust/fips-tcp/src/stack.rs:91-118 | opens a connection or returns the first applicable error; keeps the invariant unless the next identifier is in use |
| `StackObject.Stack.Connect` | rust/fips-tcp/src/stack.rs:80-89 | scans for a port and connects, as specified; keeps the invariant unless the next identifier is in use |
| `StackObject.Stack.Input` | rust/fips-tcp/src/stack.rs:120-187 | decodes and dispatches bytes to a connection, a listener or nobody, as specified; keeps the invariant unless the next identifier is in use |
| `StackObject.Stack.Dispatch` | rust/fips-tcp/src/stack.rs:152-187 | the gate against stale handshake segments, then the connection |
| `StackObject.Stack.Write` | rust/fips-tcp/src/stack.rs:203-211 | writes to one connection, as specified |
| `StackObject.Stack.Read` | rust/fips-tcp/src/stack.rs:213-226 | reads from one connection, as specified |
| `StackObject.Stack.Close` | rust/fips-tcp/src/stack.rs:228-239 | closes one connection, as specified |
| `StackObject.Stack.Poll` | rust/fips-tcp/src/stack.rs:189-201 | polls every connection exactly once, in some order |
| `StackObject.Stack.NextPollAt` | rust/fips-tcp/src/stack_poll.rs:8-13 | the loop finds the least deadline of all connections, or that there is none |
| `StackObject.Stack.Emit` | rust/fips-tcp/src/stack.rs:265-280 | queues the encoded segments in order; none fails |
| `StackObject.Stack.EmitReset` | rust/fips-tcp/src/stack.rs:282-297 | queues the reset that answers a segment |
| `StackObject.Stack.RemoveConnection` | rust/fips-tcp/src/stack.rs:299-307 | removes a connection and its tuple |
| `StackObject.Stack.RetainOthers` | rust/fips-tcp/src/stack_abort.rs:33-43 | the filter over decoded output keeps exactly the other tuples' items, in order |
| `StackObject.Stack.Abort` | rust/fips-tcp/src/stack_abort.rs:20-47 | aborts one connection as specified |
| `StackObject.Stack.AbortPeer` | rust/fips-tcp/src/stack_abort.rs:7-17 | aborts exactly the peer's connections and returns how many |

## Left out

- The TypeScript core (`ts/src`): the same machine; its proofs would repeat these.
- The endpoint crate, the interop driver, the oracle and all tests: carrier plumbing and harnesses.
- `next_isn` and peer identities: an initial sequence number is any 32-bit number, a peer any value.
- NetworkRuns.StreamSafety: assumes the bound on stale segments and excludes an earlier connection's segments, because 32-bit numbers cannot tell those apart.
- StackRuns.StackStepKeeps: asks for a next identifier that is not in use, which fails only after 2^64 openings; `InsertMirrored` shows that the program's table then breaks, so the condition is exact.
- StackObject: the table holds connection values, not `Connection` objects, so aliasing between table entries is not captured; the class `Connection` is proved against the same values.
- `write_with_marker` and `marker_status` of the stack (stack_marker.rs): a table lookup around `SendProgress`, which the table's connection values do not carry; its counters are the connection's `accepted` and `acked`.
- The network step `Stray` lets a removed or absent endpoint answer any segment with a reset, also where the program would open a new connection for a fresh SYN; new incarnations are excluded.
- The round-trip estimator's smoothed values are unbounded naturals; the program's 64-bit products cannot overflow for samples far below 2^61 milliseconds.
- Two stacks are not run against each other: the end-to-end theorems are about the connections of `Network`, and a table's entries are tied to lives, not to worlds.
- Fairness and throughput of congestion control, and delivery without further assumptions: the program promises bounded retries, not delivery.
- Error texts, default values other than the sample configuration, and plain getters.
