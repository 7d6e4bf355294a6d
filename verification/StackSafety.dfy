/**
 * What every operation of the stack keeps: the tuple lookup and the connections mirror each other,
 * both limits hold, every connection satisfies the connection invariant, and everything queued for
 * the carrier decodes.
 */
module StackSafety {
  import opened Numbers
  import opened SequenceSpace
  import opened Wire
  import opened RenoControl
  import opened RttEstimation
  import opened Types
  import opened Sender
  import opened Receiver
  import opened Delivery
  import opened ConnectionSpec
  import opened ConnectionInvariant
  import opened ConnectionSteps

  // ---------------------------------------------------------------- connections in the table

  /** The connection satisfies its invariant for the stream of bytes it has accepted. */
  ghost predicate Healthy(c: Conn, cfg: Config) {
    exists s: Stream :: ConnOk(c, cfg, s)
  }

  /** What the stack relies on about an update. */
  ghost predicate Sound(c: Conn, r: Update, cfg: Config) {
    && r.conn.localPort == c.localPort && r.conn.remotePort == c.remotePort
    && (forall g :: g in r.segments ==> Sendable(g))
    && (!r.closed ==> Healthy(r.conn, cfg))
  }

  lemma SendableOutput(out: seq<Segment>, c: Conn, c': Conn, s: Stream, lo: int, n: int)
    requires OutputOk(out, c, c', s, lo, n)
    ensures forall g :: g in out ==> Sendable(g)
  {
    hide TruthfulFrom, Sendable;
  }

  lemma SoundOutput(c: Conn, r: Update, cfg: Config)
    requires Sound(c, r, cfg)
    ensures forall g :: g in r.segments ==> Sendable(g)
  {
    hide Sendable, Healthy;
  }

  lemma StepSound(c: Conn, r: Update, cfg: Config, s: Stream)
    requires StepOk(c, r, cfg, s) && r.conn.localPort == c.localPort && r.conn.remotePort == c.remotePort
    ensures Sound(c, r, cfg)
  {
    hide ConnOk, OutputOk, Sendable, UnaPos, SndPos;
    if r.closed {
      SendableOutput(r.segments, c, r.conn, s, UnaPos(c, s), SndPos(c, s));
    } else {
      var s' := StreamIn(r.conn, s);
      assert ConnOk(r.conn, cfg, s');
      SendableOutput(r.segments, c, r.conn, s', UnaPos(c, s), SndPos(r.conn, s'));
    }
  }

  lemma OpenSound(c: Conn, r: Update, cfg: Config, s: Stream)
    requires KeepsOpen(c, r, cfg, s) && !r.closed && r.conn.localPort == c.localPort
    requires r.conn.remotePort == c.remotePort
    ensures Sound(c, r, cfg)
  {
    hide KeepsOpen, Sound;
    StepSound(c, r, cfg, s);
  }

  // ---------------------------------------------------------------- ports never change

  predicate SamePorts(c: Conn, c': Conn) {
    c'.localPort == c.localPort && c'.remotePort == c.remotePort
  }

  lemma FlushPorts(c: Conn, now: u64)
    ensures SamePorts(c, FlushData(c, now).conn)
  {
    hide Flush, SegmentsFor;
  }

  lemma FinishPorts(c: Conn, output: seq<Segment>, g: Segment, now: u64, cfg: Config)
    ensures SamePorts(c, FinishSegment(c, output, g, now, cfg).conn)
  {
    hide FlushData, Receive, AckSegment;
    FlushPorts(if g.payload != [] || g.flags.fin then ReceiveData(c, g, now, cfg) else c, now);
  }

  lemma InputPorts(c: Conn, g: Segment, now: u64, cfg: Config)
    ensures SamePorts(c, Input(c, g, now, cfg).conn)
  {
    hide FinishSegment, ApplyAck, AckSegment, RetransmitOldest, NegotiateMss, UpdateWindow, ResetReply, Before, Add;
    hide AckedTx;
    hide AvailableWindow, Distance, RepairedTx, SupportsFipsVersion, SegmentsFor, StaleHandshakeAck, UnexpectedSyn;
    var o := ApplyAck(c.tx, c.tx.nxt, now, false);
    FinishPorts(c.(tx := UpdateWindow(o.tx, g.window, now), state := Established), [], g, now, cfg);
    FinishPorts(c, [], g, now, cfg);
    if g.ack.Some? {
      var part := AckPart(c, g.ack.value, g, now, cfg);
      FinishPorts(part.conn, part.segments, g, now, cfg);
    }
  }

  lemma PollPorts(c: Conn, now: u64, cfg: Config)
    ensures SamePorts(c, Poll(c, now, cfg).conn)
  {
    hide FlushData, PollRetransmit, PollZeroWindow, ZeroWindowWork, SegmentsFor, CloseDeadline;
    FlushPorts(c.(tx := PollRetransmit(c.tx, now, cfg).tx), now);
  }

  lemma LocalPorts(c: Conn, bytes: seq<byte>, max: nat, now: u64, cfg: Config)
    ensures Write(c, bytes, now, cfg).Ok? ==>
      SamePorts(c, Write(c, bytes, now, cfg).value.conn) && !Write(c, bytes, now, cfg).value.closed
    ensures SamePorts(c, Read(c, max).conn) && !Read(c, max).closed && SamePorts(c, Close(c, now).conn)
  {
    hide Flush, AcceptCount, AvailableWindow, AckSegment, SegmentsFor;
  }

  // ---------------------------------------------------------------- sound operations

  lemma InputSound(c: Conn, g: Segment, now: u64, cfg: Config)
    requires Healthy(c, cfg) && g.srcPort != 0 && g.dstPort != 0
    ensures Sound(c, Input(c, g, now, cfg), cfg)
  {
    hide ConnOk, Input, StepOk, Sound, UnaFollows, RxFollows;
    var s: Stream :| ConnOk(c, cfg, s);
    InputKeeps(c, g, now, cfg, s);
    InputPorts(c, g, now, cfg);
    StepSound(c, Input(c, g, now, cfg), cfg, s);
  }

  lemma WriteSound(c: Conn, bytes: seq<byte>, now: u64, cfg: Config)
    requires Healthy(c, cfg)
    ensures match Write(c, bytes, now, cfg) case Err(_) => true case Ok(r) => Sound(c, r, cfg)
  {
    hide ConnOk, Write, KeepsOpen, Sound, UnaPos, StreamIn, Stream.Extends, AcceptCount;
    var s: Stream :| ConnOk(c, cfg, s);
    WriteKeeps(c, bytes, now, cfg, s);
    LocalPorts(c, bytes, 0, now, cfg);
    if MayWrite(c) {
      OpenSound(c, Write(c, bytes, now, cfg).value, cfg, s.(bytes := s.bytes + bytes[..AcceptCount(c, bytes, cfg)]));
    }
  }

  lemma ReadSound(c: Conn, max: nat, cfg: Config)
    requires Healthy(c, cfg)
    ensures Sound(c, Read(c, max), cfg)
  {
    hide ConnOk, Read, KeepsOpen, Sound, ReadCount;
    var s: Stream :| ConnOk(c, cfg, s);
    ReadKeeps(c, max, cfg, s);
    LocalPorts(c, [], max, 0, cfg);
    OpenSound(c, Read(c, max), cfg, s);
  }

  lemma CloseSound(c: Conn, now: u64, cfg: Config)
    requires Healthy(c, cfg)
    ensures Sound(c, Close(c, now), cfg)
  {
    hide ConnOk, Close, StepOk, Sound, UnaPos, StreamIn;
    var s: Stream :| ConnOk(c, cfg, s);
    CloseKeeps(c, now, cfg, s);
    LocalPorts(c, [], 0, now, cfg);
    StepSound(c, Close(c, now), cfg, s);
  }

  lemma PollSound(c: Conn, now: u64, cfg: Config)
    requires Healthy(c, cfg)
    ensures Sound(c, Poll(c, now, cfg), cfg)
  {
    hide ConnOk, Poll, StepOk, Sound, UnaPos, StreamIn;
    var s: Stream :| ConnOk(c, cfg, s);
    PollKeeps(c, now, cfg, s);
    PollPorts(c, now, cfg);
    StepSound(c, Poll(c, now, cfg), cfg, s);
  }

  lemma ClientSound(localPort: u16, remotePort: u16, isn: u32, now: u64, cfg: Config)
    requires localPort != 0 && remotePort != 0
    ensures var r := Client(localPort, remotePort, isn, now, cfg);
            && Healthy(r.conn, cfg) && (forall g :: g in r.segments ==> Sendable(g))
            && r.conn.localPort == localPort && r.conn.remotePort == remotePort
  {
    ClientOk(localPort, remotePort, isn, now, cfg);
    var r, s := Client(localPort, remotePort, isn, now, cfg), Stream(isn + 1, [], false);
    hide ConnOk, OutputOk, Sendable, SendTracked, UnaPos, SndPos, SegmentFor, RenoControl.Initial;
    hide RttEstimation.Initial;
    SendableOutput(r.segments, r.conn, r.conn, s, isn, isn + 1);
  }

  lemma ServerSound(syn: Segment, isn: u32, now: u64, cfg: Config)
    requires syn.srcPort != 0 && syn.dstPort != 0
    ensures var r := Server(syn, isn, now, cfg);
            && Healthy(r.conn, cfg) && (forall g :: g in r.segments ==> Sendable(g))
            && r.conn.localPort == syn.dstPort && r.conn.remotePort == syn.srcPort
  {
    ServerOk(syn, isn, now, cfg);
    var r, s := Server(syn, isn, now, cfg), Stream(isn + 1, [], false);
    hide ConnOk, OutputOk, Sendable, SendTracked, UnaPos, SndPos, SegmentFor, NegotiateMss, UpdateWindow;
    SendableOutput(r.segments, r.conn, r.conn, s, isn, isn + 1);
  }

  lemma AbortSound(c: Conn, cfg: Config)
    requires Healthy(c, cfg)
    ensures Sendable(ResetSegment(c)) && ResetSegment(c).srcPort == c.localPort
    ensures ResetSegment(c).dstPort == c.remotePort
  {
    hide ConnOk, Sendable;
    var s: Stream :| ConnOk(c, cfg, s);
    ConnFacts(c, cfg, s);
    CoreFacts(c, cfg, s);
    BuildSendable(c, c.tx.nxt, 0, RST_FLAG, []);
  }
}
