/**
 * The sending half of a connection: the send queue, the retransmission queue, acknowledgements,
 * fast retransmit, repair after a timeout, and zero-window probes.
 */
module Sender {
  import opened Numbers
  import opened SequenceSpace
  import opened Wire
  import opened RenoControl
  import opened RttEstimation
  import opened Types

  /**
   * A segment in the retransmission queue. `sends` is a history counter: how often any part of the
   * segment was put on the wire. No operation reads it.
   */
  datatype Tracked = Tracked(
    seqNo: u32,
    flags: Flags,
    payload: seq<byte>,
    sentAt: u64,
    transmissions: u8,
    sends: nat)
  {
    function Len(): nat {
      |payload| + Bit(flags.syn) + Bit(flags.fin)
    }

    function End(): u32 {
      Add(Add(Add(seqNo, |payload|), Bit(flags.syn)), Bit(flags.fin))
    }
  }

  datatype Tx = Tx(
    una: u32,
    nxt: u32,
    queue: seq<byte>,
    unacked: seq<Tracked>,
    window: u16,
    mss: Mss,
    maxTransmissions: u8,
    rtt: RttState,
    reno: RenoState,
    duplicateAcks: u8,
    rtoRecoveryUntil: Option<u32>,
    closeRequested: bool,
    probeAt: Option<u64>,
    probes: u8,
    accepted: nat,
    acked: nat)

  /** A new sender state and the segments it puts on the wire. */
  datatype Sent = Sent(tx: Tx, out: seq<Tracked>)

  function InFlight(tx: Tx): u32 {
    Distance(tx.una, tx.nxt)
  }

  /** How much more may be in flight. */
  function Room(tx: Tx): nat {
    SatSub(Min(tx.window, tx.reno.Window()), InFlight(tx))
  }

  function PayloadIn(ts: seq<Tracked>): nat {
    if ts == [] then 0 else |ts[0].payload| + PayloadIn(ts[1..])
  }

  // ---------------------------------------------------------------- sending

  function Fresh(tx: Tx, flags: Flags, payload: seq<byte>, now: u64): Tracked {
    Tracked(tx.nxt, flags, payload, now, 1, 1)
  }

  function SendTracked(tx: Tx, flags: Flags, payload: seq<byte>, now: u64): Tx {
    var t := Fresh(tx, flags, payload, now);
    tx.(nxt := t.End(), unacked := tx.unacked + [t])
  }

  function NextSize(tx: Tx): nat {
    Min(Min(Room(tx), tx.mss), |tx.queue|)
  }

  function SendNext(tx: Tx, now: u64): Tx {
    var n := NextSize(tx);
    SendTracked(tx.(queue := tx.queue[n..]), DATA_FLAGS, tx.queue[..n], now)
  }

  /** The send loop: segments of at most `mss` bytes while the windows leave room. */
  function FlushQueue(tx: Tx, now: u64): Sent
    decreases |tx.queue|
  {
    if Room(tx) == 0 || tx.queue == [] then Sent(tx, [])
    else
      var rest := FlushQueue(SendNext(tx, now), now);
      Sent(rest.tx, [Fresh(tx, DATA_FLAGS, tx.queue[..NextSize(tx)], now)] + rest.out)
  }

  datatype Flushed = Flushed(tx: Tx, out: seq<Tracked>, fin: bool)

  /** A requested close sends its FIN once the queue is empty and there is room. */
  function FlushFin(tx: Tx, now: u64): Flushed {
    if tx.closeRequested && tx.queue == [] && Room(tx) > 0 then
      Flushed(SendTracked(tx.(closeRequested := false), FIN_FLAGS, [], now), [Fresh(tx, FIN_FLAGS, [], now)], true)
    else
      Flushed(tx, [], false)
  }

  function Flush(tx: Tx, now: u64): Flushed {
    var data := FlushQueue(tx, now);
    var fin := FlushFin(data.tx, now);
    Flushed(fin.tx, data.out + fin.out, fin.fin)
  }

  /** The oldest segment is sent again unless its budget is spent. */
  function RetransmitOldest(tx: Tx, now: u64, timeout: bool): Sent {
    if tx.unacked == [] || tx.unacked[0].transmissions >= tx.maxTransmissions then Sent(tx, [])
    else
      var t := tx.unacked[0];
      var t' := t.(sentAt := now, transmissions := Min(t.transmissions + 1, 255), sends := t.sends + 1);
      Sent(tx.(unacked := [t'] + tx.unacked[1..],
               rtt := tx.rtt.OnRetransmit(tx.nxt),
               duplicateAcks := if timeout then 0 else tx.duplicateAcks),
           [t'])
  }

  /** An advancing ACK repairs one more hole of a flight that timed out. */
  function Repair(tx: Tx, now: u64, cfg: Config): Sent {
    if tx.rtoRecoveryUntil == None || tx.unacked == [] || tx.window == 0
       || tx.unacked[0].transmissions >= cfg.maxRetransmissions then Sent(tx, [])
    else RetransmitOldest(tx, now, false)
  }

  // ---------------------------------------------------------------- acknowledgements

  /** How many leading segments an ACK covers completely. */
  function AckedCount(ts: seq<Tracked>, ack: u32): (n: nat)
    ensures n <= |ts|
  {
    if ts == [] || !BeforeOrEqual(ts[0].End(), ack) then 0 else 1 + AckedCount(ts[1..], ack)
  }

  predicate HasFin(ts: seq<Tracked>) {
    exists i :: 0 <= i < |ts| && ts[i].flags.fin
  }

  /** The RTT of the last segment that the Karn gate lets through. */
  function LastSample(ts: seq<Tracked>, rtt: RttState, now: u64): Option<nat> {
    if ts == [] then None
    else
      var t := ts[|ts| - 1];
      if rtt.CanSample(t.End()) then Some(SatSub(now, t.sentAt)) else LastSample(ts[..|ts| - 1], rtt, now)
  }

  predicate PartlyAcked(ts: seq<Tracked>, ack: u32) {
    && ts != [] && Before(ts[0].seqNo, ack) && Before(ack, ts[0].End())
    && !ts[0].flags.syn && !ts[0].flags.fin
  }

  function TrimCount(ts: seq<Tracked>, ack: u32): (n: nat)
    ensures n > 0 ==> ts != [] && n <= |ts[0].payload|
  {
    if PartlyAcked(ts, ack) then Min(Distance(ts[0].seqNo, ack), |ts[0].payload|) else 0
  }

  function TrimFront(ts: seq<Tracked>, ack: u32): seq<Tracked> {
    if PartlyAcked(ts, ack) then
      [ts[0].(payload := ts[0].payload[TrimCount(ts, ack)..], seqNo := ack)] + ts[1..]
    else ts
  }

  datatype AckOutcome = AckOutcome(tx: Tx, finAcked: bool, resent: seq<Tracked>)

  /** An ACK beyond `una`. */
  function Acknowledge(tx: Tx, ack: u32, now: u64): AckOutcome {
    var k := AckedCount(tx.unacked, ack);
    var popped, rest := tx.unacked[..k], tx.unacked[k..];
    var count := PayloadIn(popped) + TrimCount(rest, ack);
    var sample := LastSample(popped, tx.rtt, now);
    AckOutcome(
      tx.(unacked := TrimFront(rest, ack),
          una := ack,
          duplicateAcks := 0,
          rtoRecoveryUntil :=
            if tx.rtoRecoveryUntil.Some? && !Before(ack, tx.rtoRecoveryUntil.value) then None else tx.rtoRecoveryUntil,
          rtt := if sample.Some? then tx.rtt.Sample(sample.value) else tx.rtt,
          reno := tx.reno.OnAck(count),
          acked := tx.acked + count),
      HasFin(popped),
      [])
  }

  /** An ACK of `una` itself: the third duplicate in a row retransmits. */
  function DuplicateAck(tx: Tx, now: u64, candidate: bool): AckOutcome {
    if !candidate || tx.unacked == [] then AckOutcome(tx.(duplicateAcks := 0), false, [])
    else
      var counted := tx.(duplicateAcks := Min(tx.duplicateAcks + 1, 255), reno := tx.reno.OnDuplicateAck());
      if counted.duplicateAcks != 3 then AckOutcome(counted, false, [])
      else
        var r := RetransmitOldest(counted.(reno := counted.reno.OnFastLoss(InFlight(counted))), now, false);
        AckOutcome(r.tx, false, r.out)
  }

  predicate Acceptable(tx: Tx, ack: u32) {
    !After(ack, tx.nxt) && !Before(ack, tx.una)
  }

  function ApplyAck(tx: Tx, ack: u32, now: u64, candidate: bool): AckOutcome {
    if !Acceptable(tx, ack) then AckOutcome(tx, false, [])
    else if ack == tx.una then DuplicateAck(tx, now, candidate)
    else Acknowledge(tx, ack, now)
  }

  /** Compared before the remote window is updated: reopening a window is no evidence of loss. */
  predicate IsDuplicateAckCandidate(s: Segment, una: u32, window: u16) {
    s.ack == Some(una) && s.payload == [] && !s.flags.syn && !s.flags.fin && s.window <= window
  }

  // ---------------------------------------------------------------- windows and timers

  function UpdateWindow(tx: Tx, window: u16, now: u64): Tx {
    if window == 0 then
      tx.(window := 0, probeAt := if tx.probeAt.Some? then tx.probeAt else Some(SatAdd(now, tx.rtt.rto)))
    else
      tx.(window := window, probeAt := None, probes := 0)
  }

  function NegotiateMss(tx: Tx, s: Segment, cfg: Config): Tx {
    var offered := FirstMss(s.options);
    var mss: Mss := Max(Min(if offered.Some? then offered.value else 1024, cfg.mss), 1);
    tx.(mss := mss, reno := tx.reno.SetMss(mss))
  }

  /** The index of the first segment with payload. */
  function FirstPayload(ts: seq<Tracked>): (r: Option<nat>)
    ensures r.Some? ==> r.value < |ts| && ts[r.value].payload != []
    ensures r.Some? ==> forall i :: 0 <= i < r.value ==> ts[i].payload == []
    ensures r.None? ==> forall i :: 0 <= i < |ts| ==> ts[i].payload == []
  {
    if ts == [] then None
    else if ts[0].payload != [] then Some(0)
    else match FirstPayload(ts[1..])
      case None => None
      case Some(i) => Some(i + 1)
  }

  predicate HasProbePayload(tx: Tx) {
    tx.queue != [] || FirstPayload(tx.unacked).Some?
  }

  predicate ZeroWindowWork(tx: Tx) {
    tx.window == 0 && (tx.closeRequested || HasProbePayload(tx))
  }

  /** One byte: of the oldest unacked payload if there is one, else the first queued byte. */
  function Probe(tx: Tx, now: u64): Sent {
    match FirstPayload(tx.unacked)
    case Some(i) =>
      var t := tx.unacked[i];
      Sent(tx.(unacked := tx.unacked[i := t.(sends := t.sends + 1)], rtt := tx.rtt.OnRetransmit(tx.nxt)),
           [Tracked(t.seqNo, DATA_FLAGS, [t.payload[0]], now, 1, 1)])
    case None =>
      if tx.queue == [] then Sent(tx, [])
      else Sent(SendTracked(tx.(queue := tx.queue[1..]), DATA_FLAGS, [tx.queue[0]], now),
                [Fresh(tx, DATA_FLAGS, [tx.queue[0]], now)])
  }

  datatype Polled = Polled(tx: Tx, out: seq<Tracked>, closed: bool)

  function ProbeDelay(probes: u8, cfg: Config): u64 {
    Min(SatMul(cfg.initialRto, Pow2(Min(probes, 16))), cfg.maxRto)
  }

  /** The persist timer. */
  function PollZeroWindow(tx: Tx, now: u64, cfg: Config): Polled {
    var deadline := if tx.probeAt.Some? then tx.probeAt.value else SatAdd(now, cfg.initialRto);
    var armed := tx.(probeAt := Some(deadline));
    if now < deadline then Polled(armed, [], false)
    else if tx.probes >= cfg.maxRetransmissions then Polled(armed, [], true)
    else
      var probe := Probe(armed, now);
      if probe.out == [] then Polled(probe.tx, [], false)
      else
        var probes := Min(tx.probes + 1, 255);
        Polled(probe.tx.(probes := probes, probeAt := Some(SatAdd(now, ProbeDelay(probes, cfg)))), probe.out, false)
  }

  function RtoDeadline(tx: Tx): u64
    requires tx.unacked != []
  {
    SatAdd(tx.unacked[0].sentAt, tx.rtt.rto)
  }

  /** The retransmission timer. */
  function PollRetransmit(tx: Tx, now: u64, cfg: Config): Polled {
    if tx.unacked == [] || now < RtoDeadline(tx) then Polled(tx, [], false)
    else if tx.unacked[0].transmissions >= cfg.maxRetransmissions then Polled(tx, [], true)
    else
      var backedOff := tx.(
        rtoRecoveryUntil := if tx.rtoRecoveryUntil.Some? then tx.rtoRecoveryUntil else Some(tx.nxt),
        reno := tx.reno.OnTimeout(InFlight(tx)),
        rtt := tx.rtt.OnTimeout());
      var r := RetransmitOldest(backedOff, now, true);
      Polled(r.tx, r.out, false)
  }
}
