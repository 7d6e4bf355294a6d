/** One connection as a value, and what every operation makes of it. */
module ConnectionSpec {
  import opened Numbers
  import opened SequenceSpace
  import opened Wire
  import opened RenoControl
  import opened RttEstimation
  import opened Types
  import opened Sender
  import opened Receiver

  datatype Conn = Conn(
    localPort: u16,
    remotePort: u16,
    state: State,
    tx: Tx,
    rx: Rx,
    finWait2Until: Option<u64>,
    timeWaitUntil: Option<u64>)

  datatype Update = Update(conn: Conn, segments: seq<Segment>, accepted: bool, closed: bool)

  function Open(conn: Conn, segments: seq<Segment>): Update {
    Update(conn, segments, false, false)
  }

  // ---------------------------------------------------------------- segments

  function WindowField(c: Conn): u16 {
    Min(AvailableWindow(c.rx), 0xFFFF)
  }

  /** The ACK number is present exactly when the flag is; a SYN carries MSS and version. */
  function Build(c: Conn, seqNo: u32, window: u16, flags: Flags, payload: seq<byte>): Segment {
    Segment(c.localPort, c.remotePort, seqNo,
            if flags.ack then Some(c.rx.nxt) else None,
            flags, window,
            if flags.syn then [MaxSegmentSize(c.tx.mss), FipsVersion(FIPS_VERSION, 0)] else [],
            payload)
  }

  function SegmentFor(c: Conn, t: Tracked): Segment {
    Build(c, t.seqNo, WindowField(c), t.flags, t.payload)
  }

  function SegmentsFor(c: Conn, ts: seq<Tracked>): (r: seq<Segment>)
    ensures |r| == |ts| && forall i :: 0 <= i < |ts| ==> r[i] == SegmentFor(c, ts[i])
  {
    if ts == [] then [] else [SegmentFor(c, ts[0])] + SegmentsFor(c, ts[1..])
  }

  function AckSegment(c: Conn): Segment {
    Build(c, c.tx.nxt, WindowField(c), ACK_FLAG, [])
  }

  function ResetSegment(c: Conn): Segment {
    Build(c, c.tx.nxt, 0, RST_FLAG, [])
  }

  /** The stateless reset that answers an unacceptable segment. */
  function ResetReply(s: Segment): Segment {
    if s.ack.Some? then Segment(s.dstPort, s.srcPort, s.ack.value, None, RST_FLAG, 0, [], [])
    else Segment(s.dstPort, s.srcPort, 0, Some(Add(s.seqNo, SequenceLen(s))), RST_ACK, 0, [], [])
  }

  // ---------------------------------------------------------------- construction

  function Blank(localPort: u16, remotePort: u16, state: State, isn: u32, recvNxt: u32, cfg: Config): Conn {
    Conn(localPort, remotePort, state,
         Tx(isn, isn, [], [], 0xFFFF, cfg.mss, cfg.maxRetransmissions,
            RttEstimation.Initial(cfg.initialRto, cfg.minRto, cfg.maxRto), RenoControl.Initial(cfg.mss),
            0, None, false, None, 0, 0, 0),
         Rx(recvNxt, [], [], cfg.receiveBuffer, false),
         None, None)
  }

  function Client(localPort: u16, remotePort: u16, isn: u32, now: u64, cfg: Config): Update {
    var c := Blank(localPort, remotePort, SynSent, isn, 0, cfg);
    var c' := c.(tx := SendTracked(c.tx, SYN_FLAG, [], now));
    Open(c', [SegmentFor(c', Fresh(c.tx, SYN_FLAG, [], now))])
  }

  function Server(syn: Segment, isn: u32, now: u64, cfg: Config): Update {
    var c := Blank(syn.dstPort, syn.srcPort, SynReceived, isn, Add(syn.seqNo, 1), cfg);
    var tx := NegotiateMss(UpdateWindow(c.tx, syn.window, now), syn, cfg);
    var c' := c.(tx := SendTracked(tx, SYN_ACK, [], now));
    Open(c', [SegmentFor(c', Fresh(tx, SYN_ACK, [], now))])
  }

  // ---------------------------------------------------------------- input

  /** Sections 3.10.7.3 and 3.10.7.4 of RFC 9293 with the exact-sequence rule of RFC 5961. */
  function OnReset(c: Conn, s: Segment): Update {
    if c.state == SynSent then
      Update(c, [], false, s.ack.Some? && After(s.ack.value, c.tx.una) && !After(s.ack.value, c.tx.nxt))
    else if s.seqNo == c.rx.nxt then
      Update(c, [], false, true)
    else
      var window := AvailableWindow(c.rx);
      Open(c, if window > 0 && Distance(c.rx.nxt, s.seqNo) < window then [AckSegment(c)] else [])
  }

  function EnterTimeWait(c: Conn, now: u64, cfg: Config): Conn {
    c.(state := TimeWait, finWait2Until := None, timeWaitUntil := Some(SatAdd(now, cfg.timeWait)))
  }

  /** The peer's FIN was consumed. */
  function OnRemoteFin(c: Conn, now: u64, cfg: Config): Conn {
    match c.state
    case Established => c.(state := CloseWait)
    case FinWait1 => c.(state := Closing)
    case FinWait2 => EnterTimeWait(c, now, cfg)
    case _ => c
  }

  /** Our FIN was acknowledged in a state other than LAST-ACK. */
  function OnFinAcked(c: Conn, now: u64, cfg: Config): Conn {
    match c.state
    case FinWait1 => c.(state := FinWait2, finWait2Until := Some(SatAdd(now, cfg.finWait2)))
    case Closing => EnterTimeWait(c, now, cfg)
    case _ => c
  }

  /** Reassembly, then the FIN if the drain consumed it. */
  function ReceiveData(c: Conn, s: Segment, now: u64, cfg: Config): Conn {
    var d := Receive(c.rx, s.seqNo, s.payload, s.flags.fin, cfg.receiveBuffer, cfg.maxReassemblySegments);
    var c' := c.(rx := d.rx);
    if d.fin then OnRemoteFin(c', now, cfg) else c'
  }

  function AfterFlush(c: Conn, tx: Tx, fin: bool): Conn {
    c.(tx := tx, state := if !fin then c.state else if c.state == Established then FinWait1 else LastAck)
  }

  /** Sends what the windows allow, in the two states that may send data. */
  function FlushData(c: Conn, now: u64): Update {
    if c.state != Established && c.state != CloseWait then Open(c, [])
    else
      var r := Flush(c.tx, now);
      Open(AfterFlush(c, r.tx, r.fin), SegmentsFor(c, r.out))
  }

  /** The tail of segment processing: stream data, then whatever may now be sent. */
  function FinishSegment(c: Conn, output: seq<Segment>, s: Segment, now: u64, cfg: Config): Update {
    var data := s.payload != [] || s.flags.fin;
    var c' := if data then ReceiveData(c, s, now, cfg) else c;
    var flushed := FlushData(c', now);
    Open(flushed.conn, output + (if data then [AckSegment(c')] else []) + flushed.segments)
  }

  function OnSynSent(c: Conn, s: Segment, now: u64, cfg: Config): Update {
    if s.flags.syn && s.flags.ack && s.ack == Some(c.tx.nxt) && SupportsFipsVersion(s, FIPS_VERSION) then
      var tx := NegotiateMss(UpdateWindow(c.tx, s.window, now), s, cfg);
      var o := ApplyAck(tx, tx.nxt, now, false);
      var c' := c.(tx := o.tx, rx := c.rx.(nxt := Add(s.seqNo, 1)), state := Established);
      Open(c', [AckSegment(c')])
    else Open(c, [])
  }

  function OnSynReceived(c: Conn, s: Segment, now: u64, cfg: Config): Update {
    if s.flags.syn && !s.flags.ack && Add(s.seqNo, 1) == c.rx.nxt then
      var r := RetransmitOldest(c.tx, now, false);
      Open(c.(tx := r.tx), SegmentsFor(c, r.out))
    else if s.ack != Some(c.tx.nxt) then Open(c, [])
    else
      var o := ApplyAck(c.tx, c.tx.nxt, now, false);
      var c' := c.(tx := UpdateWindow(o.tx, s.window, now), state := Established);
      FinishSegment(c', [], s, now, cfg).(accepted := true)
  }

  function AckedTx(tx: Tx, ack: u32, s: Segment, now: u64): AckOutcome {
    ApplyAck(tx, ack, now, IsDuplicateAckCandidate(s, tx.una, tx.window))
  }

  /** After an ACK: the peer's window counts if the ACK lies in the flight, and an advance repairs. */
  function RepairedTx(tx: Tx, ack: u32, s: Segment, now: u64, cfg: Config): Sent {
    var o := AckedTx(tx, ack, s, now);
    var tx1 := if InClosedInterval(ack, o.tx.una, o.tx.nxt) then UpdateWindow(o.tx, s.window, now) else o.tx;
    if After(tx1.una, tx.una) then Repair(tx1, now, cfg) else Sent(tx1, [])
  }

  function FinAckedState(c: Conn, finAcked: bool, now: u64, cfg: Config): Conn {
    if finAcked then OnFinAcked(c, now, cfg) else c
  }

  /** ACK processing in the synchronised states, up to the FIN. */
  function AckPart(c: Conn, ack: u32, s: Segment, now: u64, cfg: Config): Update {
    var o := AckedTx(c.tx, ack, s, now);
    var output := SegmentsFor(c, o.resent);
    if o.finAcked && c.state == LastAck then Update(c.(tx := o.tx), output, false, true)
    else
      var r := RepairedTx(c.tx, ack, s, now, cfg);
      Open(FinAckedState(c, o.finAcked, now, cfg).(tx := r.tx), output + SegmentsFor(c, r.out))
  }

  function OnSynchronized(c: Conn, s: Segment, now: u64, cfg: Config): Update {
    if s.ack == None then FinishSegment(c, [], s, now, cfg)
    else
      var part := AckPart(c, s.ack.value, s, now, cfg);
      if part.closed then part else FinishSegment(part.conn, part.segments, s, now, cfg)
  }

  function OnSegment(c: Conn, s: Segment, now: u64, cfg: Config): Update {
    if s.flags.rst then OnReset(c, s)
    else if c.state == SynSent then OnSynSent(c, s, now, cfg)
    else if c.state == SynReceived then OnSynReceived(c, s, now, cfg)
    else OnSynchronized(c, s, now, cfg)
  }

  /** The gate of the stack: stale handshake segments never reach `OnSegment`. */
  predicate StaleHandshakeAck(c: Conn, s: Segment) {
    && c.state == SynSent && !s.flags.rst && s.ack.Some?
    && (!After(s.ack.value, c.tx.una) || After(s.ack.value, c.tx.nxt))
  }

  predicate UnexpectedSyn(c: Conn, s: Segment) {
    && c.state != SynSent && !s.flags.rst && s.flags.syn
    && (c.state != SynReceived || Add(s.seqNo, 1) != c.rx.nxt)
  }

  function Input(c: Conn, s: Segment, now: u64, cfg: Config): Update {
    if StaleHandshakeAck(c, s) then Open(c, [ResetReply(s)])
    else if UnexpectedSyn(c, s) then Open(c, [AckSegment(c)])
    else OnSegment(c, s, now, cfg)
  }

  // ---------------------------------------------------------------- the application

  predicate MayWrite(c: Conn) {
    (c.state == Established || c.state == CloseWait) && !c.tx.closeRequested
  }

  function Buffered(c: Conn): nat {
    |c.tx.queue| + PayloadIn(c.tx.unacked)
  }

  /** How many of the offered bytes the send buffer takes. */
  function AcceptCount(c: Conn, bytes: seq<byte>, cfg: Config): (n: nat)
    ensures n <= |bytes|
  {
    Min(|bytes|, SatSub(cfg.sendBuffer, Buffered(c)))
  }

  function Accepting(c: Conn, data: seq<byte>): Conn {
    c.(tx := c.tx.(queue := c.tx.queue + data, accepted := c.tx.accepted + |data|))
  }

  function Write(c: Conn, bytes: seq<byte>, now: u64, cfg: Config): Result<Update, State> {
    if !MayWrite(c) then Err(c.state)
    else Ok(FlushData(Accepting(c, bytes[..AcceptCount(c, bytes, cfg)]), now))
  }

  function ReadCount(c: Conn, max: nat): (n: nat)
    ensures n <= |c.rx.queue|
  {
    Min(max, |c.rx.queue|)
  }

  /** The bytes read, and an ACK if the window grew. */
  function Read(c: Conn, max: nat): Update {
    var count := ReadCount(c, max);
    var c' := c.(rx := c.rx.(queue := c.rx.queue[count..]));
    var update := count > 0 && AvailableWindow(c'.rx) > AvailableWindow(c.rx)
                  && c.state != SynSent && c.state != SynReceived && c.state != TimeWait;
    Open(c', if update then [AckSegment(c')] else [])
  }

  function Close(c: Conn, now: u64): Update {
    match c.state
    case Established => FlushData(c.(tx := c.tx.(closeRequested := true)), now)
    case CloseWait => FlushData(c.(tx := c.tx.(closeRequested := true)), now)
    case SynSent => Update(c, [], false, true)
    case SynReceived => Update(c, [], false, true)
    case _ => Open(c, [])
  }

  // ---------------------------------------------------------------- timers

  function CloseDeadline(c: Conn): Option<u64> {
    match c.state
    case FinWait2 => c.finWait2Until
    case TimeWait => c.timeWaitUntil
    case _ => None
  }

  function Poll(c: Conn, now: u64, cfg: Config): Update {
    if CloseDeadline(c).Some? && now >= CloseDeadline(c).value then Update(c, [], false, true)
    else if ZeroWindowWork(c.tx) then
      var r := PollZeroWindow(c.tx, now, cfg);
      Update(c.(tx := r.tx), SegmentsFor(c, r.out), false, r.closed)
    else
      var r := PollRetransmit(c.tx, now, cfg);
      var c' := c.(tx := r.tx);
      if r.closed then Update(c', [], false, true)
      else
        var flushed := FlushData(c', now);
        Open(flushed.conn, SegmentsFor(c, r.out) + flushed.segments)
  }

  function Earliest(a: Option<u64>, b: Option<u64>): Option<u64> {
    if a.None? then b else if b.None? then a else Some(Min(a.value, b.value))
  }

  function TransportDeadline(c: Conn, now: u64, cfg: Config): Option<u64> {
    if ZeroWindowWork(c.tx) then
      if HasProbePayload(c.tx) || c.tx.probes >= cfg.maxRetransmissions
      then Some(if c.tx.probeAt.Some? then c.tx.probeAt.value else now)
      else None
    else if c.tx.unacked == [] then None
    else Some(RtoDeadline(c.tx))
  }

  function NextPollAt(c: Conn, now: u64, cfg: Config): Option<u64> {
    Earliest(CloseDeadline(c), TransportDeadline(c, now, cfg))
  }
}
