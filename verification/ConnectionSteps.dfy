/** Every operation of a connection keeps `ConnOk` and emits only truthful segments. */
module ConnectionSteps {
  import opened Numbers
  import opened SequenceSpace
  import opened Wire
  import opened RenoControl
  import opened RttEstimation
  import opened Types
  import opened Sender
  import opened Receiver
  import opened Delivery
  import opened SendInvariant
  import opened SendSteps
  import opened ConnectionSpec
  import opened ConnectionInvariant

  // ---------------------------------------------------------------- what the sender's steps leave alone

  /** The fields that neither acknowledgements nor retransmissions touch. */
  predicate SameSettings(tx: Tx, tx': Tx) {
    && tx'.nxt == tx.nxt && tx'.queue == tx.queue && tx'.window == tx.window && tx'.mss == tx.mss
    && tx'.maxTransmissions == tx.maxTransmissions && tx'.closeRequested == tx.closeRequested
    && tx'.probeAt == tx.probeAt && tx'.probes == tx.probes && tx'.accepted == tx.accepted
    && tx'.rtt.minRto == tx.rtt.minRto && tx'.rtt.maxRto == tx.rtt.maxRto
  }

  lemma ApplyAckFields(tx: Tx, ack: u32, now: u64, candidate: bool)
    ensures SameSettings(tx, ApplyAck(tx, ack, now, candidate).tx)
    ensures !ApplyAck(tx, ack, now, candidate).finAcked || ApplyAck(tx, ack, now, candidate).resent == []
  {
    hide AckedCount, PayloadIn, TrimCount, TrimFront, LastSample, HasFin, Acceptable, RenoState.OnAck;
  }

  lemma RepairFields(tx: Tx, now: u64, cfg: Config)
    ensures SameSettings(tx, Repair(tx, now, cfg).tx) && Repair(tx, now, cfg).tx.acked == tx.acked
  {
  }

  lemma PollRetransmitFields(tx: Tx, now: u64, cfg: Config)
    ensures SameSettings(tx, PollRetransmit(tx, now, cfg).tx) && PollRetransmit(tx, now, cfg).tx.acked == tx.acked
  {
  }

  // ---------------------------------------------------------------- acknowledgements

  /** What ACK processing does to the sender: apply, update the window, repair. */
  lemma AckedSender(tx: Tx, s: Stream, u: int, ack: u32, g: Segment, now: u64, cfg: Config)
    requires TxOk(tx, s, u) && (tx.window == 0 <==> tx.probeAt.Some?)
    ensures var o := AckedTx(tx, ack, g, now); var r := RepairedTx(tx, ack, g, now, cfg); var a := u + AckStep(tx, ack);
            && TxOk(r.tx, s, a) && NxtPos(r.tx, a) == NxtPos(tx, u) && a <= NxtPos(tx, u)
            && (o.finAcked <==> s.ended && u < a == s.End() + 1)
            && PacketsOk(o.resent, s, u, NxtPos(tx, u)) && PacketsOk(r.out, s, u, NxtPos(tx, u))
            && |o.resent| + |r.out| <= 1 && (o.finAcked ==> o.resent == [])
            && (r.tx.window == 0 <==> r.tx.probeAt.Some?)
            && SameSettings(tx, r.tx.(window := tx.window, probeAt := tx.probeAt, probes := tx.probes))
  {
    hide TxOk, NxtPos, PacketsOk, ApplyAck, InClosedInterval, After, Repair, AckStep, SameSettings;
    var candidate := IsDuplicateAckCandidate(g, tx.una, tx.window);
    ApplyAckKeeps(tx, s, u, ack, now, candidate);
    ApplyAckFields(tx, ack, now, candidate);
    ResentMeansUnmoved(tx, ack, now, candidate);
    RepairedSender(tx, s, u, ack, g, now, cfg);
  }

  lemma RepairedSender(tx: Tx, s: Stream, u: int, ack: u32, g: Segment, now: u64, cfg: Config)
    requires tx.window == 0 <==> tx.probeAt.Some?
    requires var o := AckedTx(tx, ack, g, now); var a := u + AckStep(tx, ack);
             TxOk(o.tx, s, a) && NxtPos(o.tx, a) == NxtPos(tx, u) && SameSettings(tx, o.tx)
             && (o.resent != [] ==> !After(o.tx.una, tx.una))
    ensures var o := AckedTx(tx, ack, g, now); var r := RepairedTx(tx, ack, g, now, cfg); var a := u + AckStep(tx, ack);
            && TxOk(r.tx, s, a) && NxtPos(r.tx, a) == NxtPos(tx, u)
            && PacketsOk(r.out, s, u, NxtPos(tx, u)) && |r.out| <= 1 && (o.resent != [] ==> r.out == [])
            && (r.tx.window == 0 <==> r.tx.probeAt.Some?)
            && SameSettings(tx, r.tx.(window := tx.window, probeAt := tx.probeAt, probes := tx.probes))
            && r.tx.acked == o.tx.acked
  {
    hide TxOk, NxtPos, PacketsOk, AckedTx, InClosedInterval, After, Repair, AckStep;
    var o := AckedTx(tx, ack, g, now);
    var a := u + AckStep(tx, ack);
    var tx1 := if InClosedInterval(ack, o.tx.una, o.tx.nxt) then UpdateWindow(o.tx, g.window, now) else o.tx;
    TimersAreIndependent(o.tx, s, a, tx1);
    RepairKeeps(tx1, s, a, now, cfg);
    RepairFields(tx1, now, cfg);
    PacketsExtend(Repair(tx1, now, cfg).out, s, a, NxtPos(tx, u), s, u, NxtPos(tx, u));
    NoPackets(s, u, NxtPos(tx, u));
  }

  /** Only a duplicate ACK retransmits by itself, and it does not move `una`. */
  lemma ResentMeansUnmoved(tx: Tx, ack: u32, now: u64, candidate: bool)
    ensures var o := ApplyAck(tx, ack, now, candidate);
            o.resent != [] ==> o.tx.una == tx.una && !After(o.tx.una, tx.una)
  {
    hide AckedCount, PayloadIn, TrimCount, TrimFront, LastSample, HasFin, Acceptable, RenoState.OnAck;
  }

  /** The position of `una` after an ACK. */
  function UnaAfter(c: Conn, ack: u32, s: Stream): int {
    UnaPos(c, s) + AckStep(c.tx, ack)
  }

  /** The state follows the acknowledgement of the FIN, so the position of `una` stays derived. */
  lemma UnaAfterAck(c: Conn, cfg: Config, s: Stream, tx: Tx, a: int, finAcked: bool, now: u64)
    requires CoreOk(c, cfg, s) && Synchronized(c.state) && UnaPos(c, s) <= a <= SndPos(c, s)
    requires TxOk(tx, s, a) && NxtPos(tx, a) == SndPos(c, s)
    requires finAcked <==> s.ended && UnaPos(c, s) < a == s.End() + 1
    ensures finAcked ==> c.state in {FinWait1, Closing, LastAck}
    ensures c.state != LastAck || !finAcked ==>
      var moved := FinAckedState(c, finAcked, now, cfg).(tx := tx);
      && UnaPos(moved, s) == a && FinMade(moved.state) == FinMade(c.state) && MaySend(moved.state) == MaySend(c.state)
  {
    TxFacts(c.tx, s, UnaPos(c, s));
    TxFacts(tx, s, a);
    hide TxOk, Wrap, RxOk, Chain, NxtPos;
  }

  lemma FinAckedShape(c: Conn, finAcked: bool, now: u64, cfg: Config)
    ensures var moved := FinAckedState(c, finAcked, now, cfg);
            && moved.tx == c.tx && moved.rx == c.rx && moved.localPort == c.localPort
            && moved.remotePort == c.remotePort
            && (Synchronized(c.state) ==> Synchronized(moved.state)) && PeerDone(moved.state) == PeerDone(c.state)
            && (TimersOk(c) && (c.state in {FinWait1, Closing} || !finAcked) ==> TimersOk(moved))
  {
  }

  /** ACK processing keeps everything but quietness; only the ACK of a FIN in LAST-ACK closes. */
  lemma AckPartKeeps(c: Conn, ack: u32, g: Segment, now: u64, cfg: Config, s: Stream)
    requires CoreOk(c, cfg, s) && Synchronized(c.state)
    ensures var r := AckPart(c, ack, g, now, cfg);
            && OutputOk(r.segments, c, r.conn, s, UnaPos(c, s), SndPos(c, s)) && |r.segments| <= 1
            && Synchronized(r.conn.state) && r.conn.rx == c.rx
            && (r.closed ==> c.state == LastAck)
            && (!r.closed ==>
                  && CoreOk(r.conn, cfg, s) && SndPos(r.conn, s) == SndPos(c, s)
                  && UnaPos(r.conn, s) == UnaAfter(c, ack, s))
  {
    hide TxOk, NxtPos, PacketsOk, AckedTx, RepairedTx, FinAckedState, RxOk, SegmentsFor, OutputOk, UnaPos, Stream.Count;
    hide AckStep, TimersOk;
    var u := UnaPos(c, s);
    var o := AckedTx(c.tx, ack, g, now);
    var rep := RepairedTx(c.tx, ack, g, now, cfg);
    CoreFacts(c, cfg, s);
    AckedSender(c.tx, s, u, ack, g, now, cfg);
    UnaAfterAck(c, cfg, s, rep.tx, UnaAfter(c, ack, s), o.finAcked, now);
    FinAckedShape(c, o.finAcked, now, cfg);
    AckPartOutput(c, ack, g, now, cfg, s);
    var r := AckPart(c, ack, g, now, cfg);
    if !r.closed {
      NewTimers(c, FinAckedState(c, o.finAcked, now, cfg), rep.tx);
      assert r.conn == FinAckedState(c, o.finAcked, now, cfg).(tx := rep.tx);
    }
  }

  lemma NewTimers(c: Conn, moved: Conn, tx: Tx)
    requires TimersOk(moved) && (tx.window == 0 <==> tx.probeAt.Some?) && tx.closeRequested == moved.tx.closeRequested
    ensures TimersOk(moved.(tx := tx))
  {
  }

  lemma AckPartOutput(c: Conn, ack: u32, g: Segment, now: u64, cfg: Config, s: Stream)
    requires CoreOk(c, cfg, s) && Synchronized(c.state)
    ensures var r := AckPart(c, ack, g, now, cfg);
            && OutputOk(r.segments, c, r.conn, s, UnaPos(c, s), SndPos(c, s)) && |r.segments| <= 1
            && Synchronized(r.conn.state) && r.conn.rx == c.rx
  {
    var u, n := UnaPos(c, s), SndPos(c, s);
    var o := AckedTx(c.tx, ack, g, now);
    var rep := RepairedTx(c.tx, ack, g, now, cfg);
    assert s.base <= u by { hide TxOk; }
    hide TxOk, NxtPos, PacketsOk, AckedTx, RepairedTx, FinAckedState, RxOk, OutputOk, UnaPos, HandshakeOk;
    hide AckStep, FlagsFit, Wrap;
    AckedSender(c.tx, s, u, ack, g, now, cfg);
    FinAckedShape(c, o.finAcked, now, cfg);
    var r := AckPart(c, ack, g, now, cfg);
    PacketsNoSyn(o.resent, s, u, n);
    PacketsNoSyn(rep.out, s, u, n);
    NoSynFits(o.resent, r.conn.state);
    NoSynFits(rep.out, r.conn.state);
    PacketsTruthful(c, o.resent, c, r.conn, s, u, n);
    PacketsTruthful(c, rep.out, c, r.conn, s, u, n);
    OutputJoin(SegmentsFor(c, o.resent), SegmentsFor(c, rep.out), c, r.conn, s, u, n);
  }

  lemma NoSynFits(out: seq<Tracked>, state: State)
    requires forall t :: t in out ==> !t.flags.syn
    ensures forall t :: t in out ==> FlagsFit(t.flags, state)
  {
  }

  lemma OutputJoin(out: seq<Segment>, more: seq<Segment>, c: Conn, c': Conn, s: Stream, lo: int, n: int)
    requires OutputOk(out, c, c', s, lo, n) && OutputOk(more, c, c', s, lo, n)
    ensures OutputOk(out + more, c, c', s, lo, n)
  {
    hide Honest, Sendable;
  }

  // ---------------------------------------------------------------- receiving and flushing

  lemma ReceiveDataKeeps(c: Conn, g: Segment, now: u64, cfg: Config, s: Stream)
    requires CoreOk(c, cfg, s) && Synchronized(c.state)
    ensures var c' := ReceiveData(c, g, now, cfg);
            && CoreOk(c', cfg, s) && Synchronized(c'.state) && UnaPos(c', s) == UnaPos(c, s) && c'.tx == c.tx
            && c'.rx == Receive(c.rx, g.seqNo, g.payload, g.flags.fin, cfg.receiveBuffer, cfg.maxReassemblySegments).rx
            && c'.localPort == c.localPort && c'.remotePort == c.remotePort
  {
    hide TxOk, RxOk, Receive;
    ReceiveKeepsCapacity(c.rx, g.seqNo, g.payload, g.flags.fin, cfg.maxReassemblySegments);
    ReceiveCloses(c.rx, g.seqNo, g.payload, g.flags.fin, cfg.receiveBuffer, cfg.maxReassemblySegments);
  }

  /** Flushing leaves nothing to flush and changes the state exactly when it sends the FIN. */
  lemma FlushDataKeeps(c: Conn, now: u64, cfg: Config, s: Stream)
    requires CoreOk(c, cfg, s) && Synchronized(c.state)
    ensures var r := FlushData(c, now); var s' := StreamIn(r.conn, s);
            && ConnOk(r.conn, cfg, s') && Synchronized(r.conn.state) && !r.closed && !r.accepted
            && s'.Extends(s) && r.conn.rx == c.rx && UnaPos(r.conn, s') == UnaPos(c, s)
            && SndPos(c, s) <= SndPos(r.conn, s')
            && OutputOk(r.segments, c, r.conn, s', UnaPos(c, s), SndPos(r.conn, s'))
            && r.conn.tx.window == c.tx.window && r.conn.tx.accepted == c.tx.accepted
  {
    hide TxOk, RxOk, NxtPos, OutputOk, PacketsOk, Flush, FlagsFit, Quiet, HandshakeOk, SegmentsFor;
    var r := FlushData(c, now);
    if MaySend(c.state) {
      var f := Flush(c.tx, now);
      var s', u := StreamIn(r.conn, s), UnaPos(c, s);
      FlushKeeps(c.tx, s, u, now);
      assert Ended(s, f.fin) == s' && r.conn == AfterFlush(c, f.tx, f.fin);
      assert u == s.base + c.tx.acked;
      PacketsNoSyn(f.out, s', u, NxtPos(f.tx, u));
      NoSynFits(f.out, r.conn.state);
      PacketsTruthful(c, f.out, c, r.conn, s', u, NxtPos(f.tx, u));
      FlushedHandshake(r.conn, cfg, s');
    } else {
      EmptyOutput(c, r.conn, s, UnaPos(c, s), SndPos(c, s));
    }
  }

  lemma FlushedHandshake(c: Conn, cfg: Config, s: Stream)
    requires Synchronized(c.state)
    ensures HandshakeOk(c, cfg, s)
  {
  }

  lemma EmptyOutput(c: Conn, c': Conn, s: Stream, lo: int, n: int)
    ensures OutputOk([], c, c', s, lo, n)
  {
  }

  /** The rest of segment processing: stream data from any peer whatever, then a flush. */
  lemma FinishSegmentKeeps(
      c0: Conn, c: Conn, output: seq<Segment>, g: Segment, now: u64, cfg: Config, s: Stream, lo: int)
    requires CoreOk(c, cfg, s) && Synchronized(c.state)
    requires OutputOk(output, c0, c, s, lo, SndPos(c, s)) && c.rx.nxt == c0.rx.nxt && c0.state != SynSent
    requires lo <= UnaPos(c, s)
    ensures var r := FinishSegment(c, output, g, now, cfg); var s' := StreamIn(r.conn, s);
            && ConnOk(r.conn, cfg, s') && Synchronized(r.conn.state) && !r.closed && !r.accepted
            && s'.Extends(s) && UnaPos(r.conn, s') == UnaPos(c, s) && SndPos(c, s) <= SndPos(r.conn, s')
            && OutputOk(r.segments, c0, r.conn, s', lo, SndPos(r.conn, s'))
            && r.conn.rx == ReceivedRx(c, g, cfg) && r.conn.tx.accepted == c.tx.accepted
  {
    var data := g.payload != [] || g.flags.fin;
    var c' := if data then ReceiveData(c, g, now, cfg) else c;
    if data { ReceiveDataKeeps(c, g, now, cfg, s); }
    FlushDataKeeps(c', now, cfg, s);
    var f := FlushData(c', now);
    var s', n := StreamIn(f.conn, s), SndPos(f.conn, StreamIn(f.conn, s));
    TxFacts(c'.tx, s, UnaPos(c', s));
    hide TxOk, RxOk, NxtPos, OutputOk, FlushData, HandshakeOk, ReceiveData, UnaPos, Wrap, Chain, Stream.Count, TimersOk;
    hide Quiet;
    hide ReceivedRx, AckSegment;
    OutputExtends(output, c0, c, f.conn, s, s', lo, SndPos(c, s), n);
    ReceivedRxIs(c, g, now, cfg);
    AckTruthful(c', c0, f.conn, s', lo, SndPos(c', s), n);
    RebaseOutput(f.segments, c', c0, f.conn, s', UnaPos(c', s), lo, n);
    EmptyOutput(c0, f.conn, s', lo, n);
    var acks := if data then [AckSegment(c')] else [];
    OutputJoin(output, acks, c0, f.conn, s', lo, n);
    OutputJoin(output + acks, f.segments, c0, f.conn, s', lo, n);
  }

  /** The receiver after the stream data of a segment. */
  function ReceivedRx(c: Conn, g: Segment, cfg: Config): Rx {
    if g.payload != [] || g.flags.fin
    then Receive(c.rx, g.seqNo, g.payload, g.flags.fin, cfg.receiveBuffer, cfg.maxReassemblySegments).rx
    else c.rx
  }

  lemma ReceivedRxIs(c: Conn, g: Segment, now: u64, cfg: Config)
    ensures (if g.payload != [] || g.flags.fin then ReceiveData(c, g, now, cfg) else c).rx == ReceivedRx(c, g, cfg)
  {
    hide Receive;
  }

  /** Output whose ACK number is already the final one counts from any earlier state. */
  lemma RebaseOutput(out: seq<Segment>, c: Conn, c0: Conn, c': Conn, s: Stream, lo: int, lo': int, n: int)
    requires OutputOk(out, c, c', s, lo, n) && c.rx.nxt == c'.rx.nxt && lo' <= lo
    ensures OutputOk(out, c0, c', s, lo', n)
  {
    hide Sendable, HonestAt;
    forall g | g in out && !g.flags.rst
      ensures TruthfulFrom(g, c0, c', s, lo', n)
    {
      var p :| HonestAt(g, p, s) && lo <= p && p + SequenceLen(g) <= n;
    }
  }

  // ---------------------------------------------------------------- whole inputs

  /** What an update that leaves the connection open keeps. */
  ghost predicate KeepsOpen(c: Conn, r: Update, cfg: Config, s: Stream) {
    var s' := StreamIn(r.conn, s);
    && ConnOk(r.conn, cfg, s') && s'.Extends(s)
    && UnaPos(c, s) <= UnaPos(r.conn, s') && SndPos(c, s) <= SndPos(r.conn, s')
    && OutputOk(r.segments, c, r.conn, s', UnaPos(c, s), SndPos(r.conn, s'))
  }

  /** An update that closes the connection still emits only truthful segments. */
  ghost predicate StepOk(c: Conn, r: Update, cfg: Config, s: Stream) {
    if r.closed then OutputOk(r.segments, c, r.conn, s, UnaPos(c, s), SndPos(c, s)) && r.conn.rx == c.rx
    else KeepsOpen(c, r, cfg, s)
  }

  /** Only an acceptable ACK number moves `una`, to its own position. */
  predicate UnaFollows(c: Conn, r: Update, g: Segment, s: Stream) {
    || UnaPos(r.conn, StreamIn(r.conn, s)) == UnaPos(c, s)
    || (g.ack.Some? && !g.flags.rst && Acceptable(c.tx, g.ack.value)
        && UnaPos(r.conn, StreamIn(r.conn, s)) == UnaPos(c, s) + Distance(c.tx.una, g.ack.value))
  }

  /** The receiver stays, takes the segment's stream data, or learns the peer's initial number. */
  predicate RxFollows(c: Conn, r: Update, g: Segment, cfg: Config) {
    || (r.conn.rx == c.rx && (c.state == SynSent ==> r.conn.state == SynSent))
    || (c.state == SynSent && g.flags.syn && !g.flags.rst && g.ack == Some(c.tx.nxt)
        && r.conn.rx == c.rx.(nxt := Add(g.seqNo, 1)) && r.conn.state == Established)
    || (c.state != SynSent && !g.flags.rst && r.conn.rx == ReceivedRx(c, g, cfg)
        && (g.flags.syn ==> c.state == SynReceived && g.ack.Some?))
  }

  lemma UnchangedKeeps(c: Conn, out: seq<Segment>, cfg: Config, s: Stream)
    requires ConnOk(c, cfg, s) && OutputOk(out, c, c, s, UnaPos(c, s), SndPos(c, s))
    ensures KeepsOpen(c, Open(c, out), cfg, s)
  {
    hide TxOk, RxOk, NxtPos, OutputOk, Quiet;
  }

  lemma AckOnly(c: Conn, cfg: Config, s: Stream)
    requires CoreOk(c, cfg, s) && c.state != SynSent
    ensures OutputOk([AckSegment(c)], c, c, s, UnaPos(c, s), SndPos(c, s))
  {
    TxFacts(c.tx, s, UnaPos(c, s));
    hide TxOk, RxOk, NxtPos, OutputOk, Chain, Wrap, Stream.Count, UnaPos, AckSegment, HandshakeOk, TimersOk;
    AckTruthful(c, c, c, s, UnaPos(c, s), SndPos(c, s), SndPos(c, s));
  }

  lemma OnResetKeeps(c: Conn, g: Segment, cfg: Config, s: Stream)
    requires ConnOk(c, cfg, s)
    ensures StepOk(c, OnReset(c, g), cfg, s)
  {
    hide ConnOk, CoreOk, OutputOk, KeepsOpen, UnaPos, SndPos, AckSegment;
    ConnFacts(c, cfg, s);
    EmptyOutput(c, c, s, UnaPos(c, s), SndPos(c, s));
    UnchangedKeeps(c, [], cfg, s);
    if c.state != SynSent {
      AckOnly(c, cfg, s);
      UnchangedKeeps(c, [AckSegment(c)], cfg, s);
    }
  }

  /** In SYN-SENT the flight is our SYN, and its acknowledgement synchronises. */
  lemma HandshakeAck(c: Conn, cfg: Config, s: Stream, tx: Tx, now: u64)
    requires TxOk(tx, s, s.base - 1) && InFlight(tx) == 1 && s.bytes == [] && !s.ended
    ensures var o := ApplyAck(tx, tx.nxt, now, false);
            && TxOk(o.tx, s, s.base) && NxtPos(o.tx, s.base) == s.base && o.tx.acked == 0
            && o.tx.queue == [] && Acceptable(tx, tx.nxt) && Distance(tx.una, tx.nxt) == 1
  {
    TxFacts(tx, s, s.base - 1);
    AckAcceptance(tx, s, s.base - 1, tx.nxt) by { UnaWraps(tx, s, s.base - 1); }
    ApplyAckKeeps(tx, s, s.base - 1, tx.nxt, now, false);
    var o := ApplyAck(tx, tx.nxt, now, false);
    assert AckStep(tx, tx.nxt) == 1;
    TxFacts(o.tx, s, s.base);
    ApplyAckFields(tx, tx.nxt, now, false);
    NoQueue(tx, s, s.base - 1);
  }

  lemma NoQueue(tx: Tx, s: Stream, u: int)
    requires TxOk(tx, s, u) && s.bytes == []
    ensures tx.queue == []
  {
  }

  lemma OnSynSentKeeps(c: Conn, g: Segment, now: u64, cfg: Config, s: Stream)
    requires ConnOk(c, cfg, s) && c.state == SynSent && !g.flags.rst
    ensures var r := OnSynSent(c, g, now, cfg);
            StepOk(c, r, cfg, s) && UnaFollows(c, r, g, s) && RxFollows(c, r, g, cfg)
  {
    UnaInHandshake(c, cfg, s);
    hide TxOk, RxOk, OutputOk, ApplyAck, NegotiateMss, UpdateWindow, Acceptable, Distance, AckSegment, Quiet, Wrap;
    var r := OnSynSent(c, g, now, cfg);
    EmptyOutput(c, c, s, UnaPos(c, s), SndPos(c, s));
    UnchangedKeeps(c, [], cfg, s);
    if r.segments != [] {
      NegotiatedSender(c, g, now, cfg, s);
      var tx := NegotiateMss(UpdateWindow(c.tx, g.window, now), g, cfg);
      HandshakeAck(c, cfg, s, tx, now);
      ApplyAckFields(tx, tx.nxt, now, false);
      LearnedRx(c.rx, Add(g.seqNo, 1));
      QuietWhenEmpty(r.conn.tx);
      assert CoreOk(r.conn, cfg, s);
      AckOnly(r.conn, cfg, s);
      RebaseOutput(r.segments, r.conn, c, r.conn, s, UnaPos(r.conn, s), UnaPos(c, s), SndPos(r.conn, s));
      assert StreamIn(r.conn, s) == s;
    }
  }

  lemma UnaInHandshake(c: Conn, cfg: Config, s: Stream)
    requires CoreOk(c, cfg, s) && !Synchronized(c.state)
    ensures UnaPos(c, s) == s.base - 1 && c.tx.acked == 0 && SndPos(c, s) == s.base && !s.ended && s.bytes == []
  {
    TxFacts(c.tx, s, UnaPos(c, s));
    hide TxOk, Chain, Wrap;
  }

  lemma QuietWhenEmpty(tx: Tx)
    requires tx.queue == [] && !tx.closeRequested
    ensures Quiet(tx)
  {
  }

  lemma LearnedRx(rx: Rx, nxt: u32)
    requires RxOk(rx) && rx.chunks == []
    ensures RxOk(rx.(nxt := nxt))
  {
  }

  lemma NegotiatedSender(c: Conn, g: Segment, now: u64, cfg: Config, s: Stream)
    requires CoreOk(c, cfg, s) && c.state == SynSent
    ensures var tx := NegotiateMss(UpdateWindow(c.tx, g.window, now), g, cfg);
            && TxOk(tx, s, s.base - 1) && InFlight(tx) == 1 && (tx.window == 0 <==> tx.probeAt.Some?)
            && tx.nxt == c.tx.nxt && tx.una == c.tx.una && tx.closeRequested == c.tx.closeRequested
            && tx.maxTransmissions == c.tx.maxTransmissions && tx.rtt == c.tx.rtt && tx.accepted == c.tx.accepted
            && Acceptable(tx, tx.nxt) == Acceptable(c.tx, tx.nxt)
  {
    TxFacts(c.tx, s, UnaPos(c, s));
    hide TxOk, RxOk, Wrap, Chain;
    TimersAreIndependent(c.tx, s, s.base - 1, UpdateWindow(c.tx, g.window, now));
    NegotiateKeeps(UpdateWindow(c.tx, g.window, now), s, s.base - 1, g, cfg);
  }

  lemma OnSynReceivedKeeps(c: Conn, g: Segment, now: u64, cfg: Config, s: Stream)
    requires ConnOk(c, cfg, s) && c.state == SynReceived && !g.flags.rst
    ensures var r := OnSynReceived(c, g, now, cfg);
            StepOk(c, r, cfg, s) && UnaFollows(c, r, g, s) && RxFollows(c, r, g, cfg)
  {
    ConnFacts(c, cfg, s);
    ConnFacts(c, cfg, s);
    hide ConnOk, CoreOk, KeepsOpen, OutputOk, UnaPos, SndPos, RetransmitOldest, FinishSegment, ApplyAck, Acceptable;
    hide ReceivedRx;
    hide Add;
    EmptyOutput(c, c, s, UnaPos(c, s), SndPos(c, s));
    UnchangedKeeps(c, [], cfg, s);
    if g.flags.syn && !g.flags.ack && Add(g.seqNo, 1) == c.rx.nxt {
      RetransmitSynKeeps(c, now, cfg, s);
      RetransmitUna(c, now, s);
    } else if g.ack == Some(c.tx.nxt) {
      EstablishedKeeps(c, g, now, cfg, s);
    }
  }

  lemma RetransmitSynKeeps(c: Conn, now: u64, cfg: Config, s: Stream)
    requires ConnOk(c, cfg, s) && !Synchronized(c.state)
    ensures var r := RetransmitOldest(c.tx, now, false);
            KeepsOpen(c, Open(c.(tx := r.tx), SegmentsFor(c, r.out)), cfg, s)
  {
    hide TxOk, RxOk, NxtPos, RetransmitOldest, OutputOk, PacketsOk, SegmentsFor;
    var r := RetransmitOldest(c.tx, now, false);
    var c' := c.(tx := r.tx);
    RetransmitKeeps(c.tx, s, UnaPos(c, s), now, false);
    RetransmitShape(c.tx, now, false);
    PacketsTruthful(c, r.out, c, c', s, UnaPos(c, s), SndPos(c, s));
  }

  lemma RetransmitUna(c: Conn, now: u64, s: Stream)
    requires StreamIn(c, s) == s
    ensures var r := RetransmitOldest(c.tx, now, false); var c' := c.(tx := r.tx);
            StreamIn(c', s) == s && UnaPos(c', s) == UnaPos(c, s)
  {
  }

  lemma RetransmitShape(tx: Tx, now: u64, timeout: bool)
    ensures var r := RetransmitOldest(tx, now, timeout);
            && SameSettings(tx, r.tx) && r.tx.acked == tx.acked && r.tx.una == tx.una && |r.tx.unacked| == |tx.unacked|
            && (tx.unacked != [] ==> r.tx.unacked[0].flags == tx.unacked[0].flags)
            && (forall t :: t in r.out ==> tx.unacked != [] && t.flags == tx.unacked[0].flags)
  {
  }

  lemma EstablishedKeeps(c: Conn, g: Segment, now: u64, cfg: Config, s: Stream)
    requires ConnOk(c, cfg, s) && c.state == SynReceived && !g.flags.rst && g.ack == Some(c.tx.nxt)
    requires !(g.flags.syn && !g.flags.ack && Add(g.seqNo, 1) == c.rx.nxt)
    ensures var r := OnSynReceived(c, g, now, cfg);
            StepOk(c, r, cfg, s) && UnaFollows(c, r, g, s) && RxFollows(c, r, g, cfg)
  {
    hide TxOk, RxOk, OutputOk, ApplyAck, Acceptable, Distance, Quiet, Wrap, FinishSegment, ReceivedRx, Chain, CoreOk;
    hide KeepsOpen, UnaPos, UpdateWindow, SndPos;
    var o := ApplyAck(c.tx, c.tx.nxt, now, false);
    var c' := c.(tx := UpdateWindow(o.tx, g.window, now), state := Established);
    EstablishedCore(c, g, now, cfg, s);
    EmptyOutput(c, c', s, UnaPos(c, s), SndPos(c', s));
    FinishSegmentKeeps(c, c', [], g, now, cfg, s, UnaPos(c, s));
    ReceivedSame(c, c', g, cfg);
    KeepsFromFinish(c, c', OnSynReceived(c, g, now, cfg), cfg, s);
  }

  lemma KeepsFromFinish(c: Conn, c': Conn, r: Update, cfg: Config, s: Stream)
    requires UnaPos(c, s) <= UnaPos(c', s) && SndPos(c, s) <= SndPos(c', s)
    requires var s' := StreamIn(r.conn, s);
             ConnOk(r.conn, cfg, s') && s'.Extends(s) && UnaPos(r.conn, s') == UnaPos(c', s)
             && SndPos(c', s) <= SndPos(r.conn, s')
             && OutputOk(r.segments, c, r.conn, s', UnaPos(c, s), SndPos(r.conn, s'))
    ensures KeepsOpen(c, r, cfg, s)
  {
  }

  /** The ACK of the SYN-ACK establishes the connection. */
  lemma EstablishedCore(c: Conn, g: Segment, now: u64, cfg: Config, s: Stream)
    requires ConnOk(c, cfg, s) && c.state == SynReceived
    ensures var o := ApplyAck(c.tx, c.tx.nxt, now, false);
            var c' := c.(tx := UpdateWindow(o.tx, g.window, now), state := Established);
            && CoreOk(c', cfg, s) && UnaPos(c', s) == UnaPos(c, s) + 1 && SndPos(c', s) == SndPos(c, s)
            && Acceptable(c.tx, c.tx.nxt) && Distance(c.tx.una, c.tx.nxt) == 1
  {
    UnaInHandshake(c, cfg, s);
    hide TxOk, RxOk, ApplyAck, Acceptable, Distance, Wrap, Chain;
    HandshakeAck(c, cfg, s, c.tx, now);
    ApplyAckFields(c.tx, c.tx.nxt, now, false);
    var o := ApplyAck(c.tx, c.tx.nxt, now, false);
    TimersAreIndependent(o.tx, s, s.base, UpdateWindow(o.tx, g.window, now));
  }

  lemma ReceivedSame(c: Conn, c': Conn, g: Segment, cfg: Config)
    requires c.rx == c'.rx
    ensures ReceivedRx(c, g, cfg) == ReceivedRx(c', g, cfg)
  {
  }

  lemma OnSynchronizedKeeps(c: Conn, g: Segment, now: u64, cfg: Config, s: Stream)
    requires ConnOk(c, cfg, s) && Synchronized(c.state) && !g.flags.rst && !g.flags.syn
    ensures var r := OnSynchronized(c, g, now, cfg);
            StepOk(c, r, cfg, s) && (!r.closed ==> UnaFollows(c, r, g, s) && RxFollows(c, r, g, cfg))
  {
    hide TxOk, RxOk, OutputOk, Quiet, FinishSegment, ReceivedRx, AckPart, HandshakeOk, TimersOk, NxtPos, UnaPos;
    hide Configured, StreamIn;
    var u := UnaPos(c, s);
    EmptyOutput(c, c, s, u, SndPos(c, s));
    ConnFacts(c, cfg, s);
    if g.ack == None {
      FinishSegmentKeeps(c, c, [], g, now, cfg, s, u);
    } else {
      AckPartKeeps(c, g.ack.value, g, now, cfg, s);
      var part := AckPart(c, g.ack.value, g, now, cfg);
      if !part.closed {
        FinishSegmentKeeps(c, part.conn, part.segments, g, now, cfg, s, u);
        ReceivedSame(c, part.conn, g, cfg);
        KeepsFromFinish(c, part.conn, OnSynchronized(c, g, now, cfg), cfg, s);
      }
    }
  }

  /**
   * Every input a stack may hand to a connection, from any peer, keeps its invariant; `una` moves
   * only to an acceptable ACK number, and all segments sent agree with the stream.
   */
  lemma InputKeeps(c: Conn, g: Segment, now: u64, cfg: Config, s: Stream)
    requires ConnOk(c, cfg, s) && g.srcPort != 0 && g.dstPort != 0
    ensures var r := Input(c, g, now, cfg);
            StepOk(c, r, cfg, s) && (!r.closed ==> UnaFollows(c, r, g, s) && RxFollows(c, r, g, cfg))
  {
    ConnFacts(c, cfg, s);
    hide ConnOk, OutputOk, OnSynSent, OnSynReceived, OnSynchronized, TxOk, NxtPos, RxOk, ReceivedRx, Acceptable;
    hide Distance;
    hide HandshakeOk, TimersOk, Configured, AckSegment, KeepsOpen, After, Add, UnaPos, ResetReply;
    ConnFacts(c, cfg, s);
    EmptyOutput(c, c, s, UnaPos(c, s), SndPos(c, s));
    ResetReplySendable(g);
    if StaleHandshakeAck(c, g) {
      ResetOutput(c, ResetReply(g), s, UnaPos(c, s), SndPos(c, s));
      UnchangedKeeps(c, [ResetReply(g)], cfg, s);
    } else if UnexpectedSyn(c, g) {
      AckOnly(c, cfg, s);
      UnchangedKeeps(c, [AckSegment(c)], cfg, s);
    } else if g.flags.rst {
      OnResetKeeps(c, g, cfg, s);
    } else if c.state == SynSent {
      OnSynSentKeeps(c, g, now, cfg, s);
    } else if c.state == SynReceived {
      OnSynReceivedKeeps(c, g, now, cfg, s);
    } else {
      OnSynchronizedKeeps(c, g, now, cfg, s);
    }
  }

  lemma ResetOutput(c: Conn, g: Segment, s: Stream, lo: int, n: int)
    requires Sendable(g) && g.flags.rst
    ensures OutputOk([g], c, c, s, lo, n)
  {
  }

  // ---------------------------------------------------------------- the application and the timers

  /** Writing appends what the send buffer accepts to the stream. */
  lemma WriteKeeps(c: Conn, bytes: seq<byte>, now: u64, cfg: Config, s: Stream)
    requires ConnOk(c, cfg, s)
    ensures Write(c, bytes, now, cfg).Ok? <==> MayWrite(c)
    ensures var n := AcceptCount(c, bytes, cfg);
            if Buffered(c) + |bytes| <= cfg.sendBuffer then n == |bytes| else n == Max(0, cfg.sendBuffer - Buffered(c))
    ensures MayWrite(c) ==>
      var r := Write(c, bytes, now, cfg).value; var s' := s.(bytes := s.bytes + bytes[..AcceptCount(c, bytes, cfg)]);
      && KeepsOpen(c, r, cfg, s') && StreamIn(r.conn, s').Extends(s) && !r.closed && r.conn.rx == c.rx
      && UnaPos(r.conn, StreamIn(r.conn, s')) == UnaPos(c, s) && UnaPos(c, s') == UnaPos(c, s)
      && Synchronized(c.state) && Synchronized(r.conn.state)
  {
    AcceptCounts(c, bytes, cfg);
    if MayWrite(c) {
      hide ConnOk, KeepsOpen, FlushData, UnaPos, Accepting, AcceptCount, StreamIn, Stream.Extends, Buffered;
      FlushAccepted(c, bytes[..AcceptCount(c, bytes, cfg)], now, cfg, s);
    }
  }

  lemma AcceptCounts(c: Conn, bytes: seq<byte>, cfg: Config)
    ensures var n := AcceptCount(c, bytes, cfg);
            if Buffered(c) + |bytes| <= cfg.sendBuffer then n == |bytes| else n == Max(0, cfg.sendBuffer - Buffered(c))
  {
    hide PayloadIn;
  }

  lemma FlushAccepted(c: Conn, data: seq<byte>, now: u64, cfg: Config, s: Stream)
    requires ConnOk(c, cfg, s) && MaySend(c.state)
    ensures var r := FlushData(Accepting(c, data), now); var s' := s.(bytes := s.bytes + data);
      && KeepsOpen(c, r, cfg, s') && StreamIn(r.conn, s').Extends(s) && !r.closed && r.conn.rx == c.rx
      && UnaPos(r.conn, StreamIn(r.conn, s')) == UnaPos(c, s) && UnaPos(c, s') == UnaPos(c, s)
      && Synchronized(r.conn.state)
  {
    ConnFacts(c, cfg, s);
    ConnFacts(c, cfg, s);
    hide ConnOk, CoreOk, OutputOk, FlushData, UnaPos, SndPos, KeepsOpen, StreamIn, Stream.Extends;
    var s' := s.(bytes := s.bytes + data);
    var c' := Accepting(c, data);
    AcceptedCore(c, data, cfg, s);
    FlushDataKeeps(c', now, cfg, s');
    var r := FlushData(c', now);
    RebaseOutput(r.segments, c', c, r.conn, StreamIn(r.conn, s'), UnaPos(c', s'), UnaPos(c, s'),
                 SndPos(r.conn, StreamIn(r.conn, s')));
    SameInFlight(c, c', s, s');
    KeepsFromFinish(c, c', r, cfg, s');
    AppendExtends(s, data, StreamIn(r.conn, s'));
  }

  lemma AppendExtends(s: Stream, data: seq<byte>, s'': Stream)
    requires !s.ended && s''.Extends(s.(bytes := s.bytes + data))
    ensures s''.Extends(s)
  {
  }

  /** Accepted bytes join the queue and the stream. */
  lemma AcceptedCore(c: Conn, data: seq<byte>, cfg: Config, s: Stream)
    requires CoreOk(c, cfg, s) && MaySend(c.state)
    ensures var c' := Accepting(c, data);
            var s' := s.(bytes := s.bytes + data);
            CoreOk(c', cfg, s') && UnaPos(c', s') == UnaPos(c, s') == UnaPos(c, s)
  {
    hide TxOk, RxOk, NxtPos;
    AcceptKeeps(c.tx, s, UnaPos(c, s), data);
  }

  lemma SameInFlight(c: Conn, c': Conn, s: Stream, s': Stream)
    requires c'.tx.una == c.tx.una && c'.tx.nxt == c.tx.nxt && UnaPos(c', s') == UnaPos(c, s')
    ensures SndPos(c', s') == SndPos(c, s')
  {
  }

  /** The window grows by exactly the bytes read, so reading any at all announces it. */
  lemma ReadAnnounces(c: Conn, max: nat, cfg: Config, s: Stream)
    requires ConnOk(c, cfg, s)
    ensures AvailableWindow(Read(c, max).conn.rx) == AvailableWindow(c.rx) + ReadCount(c, max)
    ensures Read(c, max).segments != [] <==> ReadCount(c, max) > 0 && Synchronized(c.state) && c.state != TimeWait
  {
    ConnFacts(c, cfg, s);
    hide ConnOk, RxOk, AvailableWindow, AckSegment, ReadCount;
    var rx' := c.rx.(queue := c.rx.queue[ReadCount(c, max)..]);
    ReadKeepsCapacity(c.rx, ReadCount(c, max));
    WindowCoversParked(c.rx);
    WindowCoversParked(rx');
  }

  lemma ReadCounts(c: Conn, max: nat)
    ensures var rest := c.rx.queue[ReadCount(c, max)..];
            if |c.rx.queue| <= max then rest == [] else |c.rx.queue| - |rest| == max
  {
  }

  /** Reading takes bytes from the front of the receive queue, all it may, and changes nothing else. */
  lemma ReadKeeps(c: Conn, max: nat, cfg: Config, s: Stream)
    requires ConnOk(c, cfg, s)
    ensures var r := Read(c, max);
            && KeepsOpen(c, r, cfg, s) && !r.closed
            && r.conn == c.(rx := c.rx.(queue := c.rx.queue[ReadCount(c, max)..]))
            && (if |c.rx.queue| <= max then r.conn.rx.queue == [] else |c.rx.queue| - |r.conn.rx.queue| == max)
            && (r.segments != [] <==> ReadCount(c, max) > 0 && Synchronized(c.state) && c.state != TimeWait)
  {
    ReadCounts(c, max);
    ReadAnnounces(c, max, cfg, s);
    hide ConnOk, CoreOk, OutputOk, AvailableWindow, AckSegment, UnaPos, SndPos, KeepsOpen, ReadCount;
    var count := ReadCount(c, max);
    var c' := c.(rx := c.rx.(queue := c.rx.queue[count..]));
    ReadCore(c, count, cfg, s);
    ConnFacts(c', cfg, s);
    EmptyOutput(c, c', s, UnaPos(c, s), SndPos(c, s));
    KeepsOpenIf(c, c', [], cfg, s);
    if c.state != SynSent {
      AckOnly(c', cfg, s);
      RebaseOutput([AckSegment(c')], c', c, c', s, UnaPos(c', s), UnaPos(c, s), SndPos(c', s));
      KeepsOpenIf(c, c', [AckSegment(c')], cfg, s);
    }
  }

  lemma ReadCore(c: Conn, count: nat, cfg: Config, s: Stream)
    requires ConnOk(c, cfg, s) && count <= |c.rx.queue|
    ensures var c' := c.(rx := c.rx.(queue := c.rx.queue[count..]));
            ConnOk(c', cfg, s) && UnaPos(c', s) == UnaPos(c, s) && SndPos(c', s) == SndPos(c, s) && StreamIn(c', s) == s
  {
    hide TxOk, RxOk, Quiet, NxtPos;
    ReadKeepsCapacity(c.rx, count);
  }

  lemma KeepsOpenIf(c: Conn, c': Conn, out: seq<Segment>, cfg: Config, s: Stream)
    requires ConnOk(c', cfg, s) && StreamIn(c', s) == s && UnaPos(c', s) == UnaPos(c, s)
    requires SndPos(c', s) == SndPos(c, s)
    requires OutputOk(out, c, c', s, UnaPos(c, s), SndPos(c, s))
    ensures KeepsOpen(c, Open(c', out), cfg, s)
  {
  }

  lemma CloseKeeps(c: Conn, now: u64, cfg: Config, s: Stream)
    requires ConnOk(c, cfg, s)
    ensures var r := Close(c, now);
            && StepOk(c, r, cfg, s) && r.conn.rx == c.rx
            && (r.closed <==> !Synchronized(c.state))
            && (!r.closed ==> UnaPos(r.conn, StreamIn(r.conn, s)) == UnaPos(c, s) && Synchronized(r.conn.state))
  {
    hide TxOk, RxOk, OutputOk, Quiet, FlushData, NxtPos;
    EmptyOutput(c, c, s, UnaPos(c, s), SndPos(c, s));
    if MaySend(c.state) {
      var c' := c.(tx := c.tx.(closeRequested := true));
      CloseRequestKeeps(c.tx, s, UnaPos(c, s));
      FlushDataKeeps(c', now, cfg, s);
      var r := FlushData(c', now);
      RebaseOutput(r.segments, c', c, r.conn, StreamIn(r.conn, s), UnaPos(c', s), UnaPos(c, s),
                   SndPos(r.conn, StreamIn(r.conn, s)));
      SameInFlight(c, c', s, s);
    } else {
      UnchangedKeeps(c, [], cfg, s);
    }
  }

  lemma CloseRequestKeeps(tx: Tx, s: Stream, u: int)
    requires TxOk(tx, s, u)
    ensures TxOk(tx.(closeRequested := true), s, u)
  {
    hide KarnInv, Off, Wrap, Chain, RenoOk, RttOk, Distance;
  }

  lemma PollKeeps(c: Conn, now: u64, cfg: Config, s: Stream)
    requires ConnOk(c, cfg, s)
    ensures var r := Poll(c, now, cfg);
            && StepOk(c, r, cfg, s) && r.conn.rx == c.rx
            && (!r.closed ==> UnaPos(r.conn, StreamIn(r.conn, s)) == UnaPos(c, s)
                              && (Synchronized(r.conn.state) <==> Synchronized(c.state)))
  {
    hide ConnOk, CoreOk, OutputOk, KeepsOpen, PollZeroWindow, PollRetransmit, FlushData, ZeroWindowWork, SegmentsFor;
    hide SndPos;
    hide UnaPos;
    EmptyOutput(c, Poll(c, now, cfg).conn, s, UnaPos(c, s), SndPos(c, s));
    if CloseDeadline(c).Some? && now >= CloseDeadline(c).value {
    } else if ZeroWindowWork(c.tx) {
      PollZeroWindowConn(c, now, cfg, s);
    } else {
      PollRetransmitConn(c, now, cfg, s);
    }
  }

  lemma PollZeroWindowShape(tx: Tx, now: u64, cfg: Config)
    requires tx.window == 0 && tx.probeAt.Some?
    ensures var r := PollZeroWindow(tx, now, cfg);
            && r.tx.window == 0 && r.tx.probeAt.Some? && r.tx.closeRequested == tx.closeRequested
            && r.tx.maxTransmissions == tx.maxTransmissions && r.tx.acked == tx.acked && r.tx.accepted == tx.accepted
            && r.tx.rtt.minRto == tx.rtt.minRto && r.tx.rtt.maxRto == tx.rtt.maxRto && r.tx.una == tx.una
            && (r.closed ==> r.out == [])
            && Quiet(r.tx)
            && (forall t :: t in r.out ==> !t.flags.syn)
  {
  }

  lemma PollZeroWindowConn(c: Conn, now: u64, cfg: Config, s: Stream)
    requires ConnOk(c, cfg, s) && ZeroWindowWork(c.tx)
    ensures var z := PollZeroWindow(c.tx, now, cfg);
            var r := Update(c.(tx := z.tx), SegmentsFor(c, z.out), false, z.closed);
            && StepOk(c, r, cfg, s) && UnaPos(r.conn, StreamIn(r.conn, s)) == UnaPos(c, s)
  {
    hide ConnOk, CoreOk, OutputOk, PollZeroWindow, SegmentsFor, UnaPos, SndPos, PacketsOk, FlagsFit, KeepsOpen;
    hide ZeroWindowWork;
    ConnFacts(c, cfg, s);
    var z := PollZeroWindow(c.tx, now, cfg);
    var c' := c.(tx := z.tx);
    ProbedCore(c, now, cfg, s);
    NoSynFits(z.out, c'.state);
    CoreFacts(c, cfg, s);
    PacketsTruthful(c, z.out, c, c', s, UnaPos(c, s), SndPos(c', s));
    EmptyOutput(c, c', s, UnaPos(c, s), SndPos(c, s));
    NoSegments(c, z.out);
    KeepsGrown(c, c', SegmentsFor(c, z.out), cfg, s);
  }

  lemma KeepsGrown(c: Conn, c': Conn, out: seq<Segment>, cfg: Config, s: Stream)
    requires ConnOk(c', cfg, s) && StreamIn(c', s) == s && UnaPos(c', s) == UnaPos(c, s)
    requires SndPos(c, s) <= SndPos(c', s)
    requires OutputOk(out, c, c', s, UnaPos(c, s), SndPos(c', s))
    ensures KeepsOpen(c, Open(c', out), cfg, s)
  {
  }

  /** A probe keeps the connection's invariant; the window is zero, so nothing can be flushed. */
  lemma ProbedCore(c: Conn, now: u64, cfg: Config, s: Stream)
    requires ConnOk(c, cfg, s) && ZeroWindowWork(c.tx)
    ensures var z := PollZeroWindow(c.tx, now, cfg); var c' := c.(tx := z.tx);
            && ConnOk(c', cfg, s) && UnaPos(c', s) == UnaPos(c, s) && SndPos(c, s) <= SndPos(c', s)
            && StreamIn(c', s) == s && Synchronized(c.state)
            && PacketsOk(z.out, s, UnaPos(c, s), SndPos(c', s))
            && (forall t :: t in z.out ==> !t.flags.syn) && (z.closed ==> z.out == [])
  {
    ProbingIsSynchronized(c, cfg, s);
    hide TxOk, RxOk, PollZeroWindow, NxtPos, Quiet, PacketsOk;
    PollZeroWindowKeeps(c.tx, s, UnaPos(c, s), now, cfg);
    PollZeroWindowShape(c.tx, now, cfg);
  }

  lemma NoSegments(c: Conn, out: seq<Tracked>)
    ensures out == [] ==> SegmentsFor(c, out) == []
  {
  }

  lemma ProbingIsSynchronized(c: Conn, cfg: Config, s: Stream)
    requires CoreOk(c, cfg, s) && ZeroWindowWork(c.tx)
    ensures Synchronized(c.state)
  {
    if !Synchronized(c.state) {
      HandshakeHasNoWork(c, cfg, s);
    }
  }

  /** A SYN carries no payload to probe with. */
  lemma HandshakeHasNoWork(c: Conn, cfg: Config, s: Stream)
    requires CoreOk(c, cfg, s) && !Synchronized(c.state)
    ensures !ZeroWindowWork(c.tx) && !HasProbePayload(c.tx)
  {
    NoQueue(c.tx, s, UnaPos(c, s));
    UnaInHandshake(c, cfg, s);
    TxFacts(c.tx, s, s.base - 1);
    hide TxOk, Wrap;
    assert PieceOk(c.tx.unacked[0], s.base - 1, s);
    assert c.tx.unacked[1..] == [];
  }

  lemma PollRetransmitConn(c: Conn, now: u64, cfg: Config, s: Stream)
    requires ConnOk(c, cfg, s)
    ensures var p := PollRetransmit(c.tx, now, cfg); var c' := c.(tx := p.tx); var f := FlushData(c', now);
            var r := if p.closed then Update(c', [], false, true) else Open(f.conn, SegmentsFor(c, p.out) + f.segments);
            && StepOk(c, r, cfg, s) && r.conn.rx == c.rx
            && (!r.closed ==> UnaPos(r.conn, StreamIn(r.conn, s)) == UnaPos(c, s)
                              && (Synchronized(r.conn.state) <==> Synchronized(c.state)))
  {
    hide ConnOk, CoreOk, OutputOk, PollRetransmit, SegmentsFor, UnaPos, SndPos, PacketsOk, FlushData, KeepsOpen;
    ConnFacts(c, cfg, s);
    var p := PollRetransmit(c.tx, now, cfg);
    var c' := c.(tx := p.tx);
    RetransmittedCore(c, now, cfg, s);
    EmptyOutput(c, c', s, UnaPos(c, s), SndPos(c, s));
    PacketsTruthfulPolled(c, p.out, c', cfg, s);
    if !p.closed {
      if Synchronized(c.state) {
        FlushedAfter(c, c', SegmentsFor(c, p.out), now, cfg, s);
      } else {
        NoFlush(c', now);
        assert SegmentsFor(c, p.out) + [] == SegmentsFor(c, p.out);
        HandshakeIsQuiet(c', cfg, s);
        KeepsOpenIf(c, c', SegmentsFor(c, p.out), cfg, s);
      }
    }
  }

  lemma HandshakeIsQuiet(c: Conn, cfg: Config, s: Stream)
    requires CoreOk(c, cfg, s) && !Synchronized(c.state)
    ensures ConnOk(c, cfg, s)
  {
  }

  /** A retransmission keeps the connection's invariant. */
  lemma RetransmittedCore(c: Conn, now: u64, cfg: Config, s: Stream)
    requires CoreOk(c, cfg, s)
    ensures var p := PollRetransmit(c.tx, now, cfg); var c' := c.(tx := p.tx);
            && CoreOk(c', cfg, s) && UnaPos(c', s) == UnaPos(c, s) && SndPos(c', s) == SndPos(c, s)
            && StreamIn(c', s) == s
            && PacketsOk(p.out, s, UnaPos(c, s), SndPos(c, s))
            && (forall t :: t in p.out ==> c.tx.unacked != [] && t.flags == c.tx.unacked[0].flags)
  {
    PollRetransmitShape(c.tx, now, cfg);
    PollRetransmitFields(c.tx, now, cfg);
    hide TxOk, RxOk, PollRetransmit, NxtPos, PacketsOk;
    PollRetransmitKeeps(c.tx, s, UnaPos(c, s), now, cfg);
  }

  lemma NoFlush(c: Conn, now: u64)
    requires !MaySend(c.state)
    ensures FlushData(c, now) == Open(c, [])
  {
  }

  lemma FlushedAfter(c: Conn, c': Conn, output: seq<Segment>, now: u64, cfg: Config, s: Stream)
    requires CoreOk(c', cfg, s) && Synchronized(c'.state) && c'.rx == c.rx
    requires UnaPos(c', s) == UnaPos(c, s) && SndPos(c', s) == SndPos(c, s)
    requires OutputOk(output, c, c', s, UnaPos(c, s), SndPos(c, s))
    ensures var f := FlushData(c', now); var r := Open(f.conn, output + f.segments);
            && KeepsOpen(c, r, cfg, s) && r.conn.rx == c.rx && Synchronized(r.conn.state)
            && UnaPos(r.conn, StreamIn(r.conn, s)) == UnaPos(c, s)
  {
    hide ConnOk, OutputOk, FlushData, UnaPos, SndPos;
    FlushDataKeeps(c', now, cfg, s);
    var f := FlushData(c', now);
    var s', n := StreamIn(f.conn, s), SndPos(f.conn, StreamIn(f.conn, s));
    OutputExtends(output, c, c', f.conn, s, s', UnaPos(c, s), SndPos(c, s), n);
    RebaseOutput(f.segments, c', c, f.conn, s', UnaPos(c', s), UnaPos(c, s), n);
    OutputJoin(output, f.segments, c, f.conn, s', UnaPos(c, s), n);
  }

  lemma PollRetransmitShape(tx: Tx, now: u64, cfg: Config)
    ensures var r := PollRetransmit(tx, now, cfg);
            && r.tx.una == tx.una && |r.tx.unacked| == |tx.unacked|
            && (tx.unacked != [] ==> r.tx.unacked[0].flags == tx.unacked[0].flags)
            && (forall t :: t in r.out ==> tx.unacked != [] && t.flags == tx.unacked[0].flags)
            && (r.closed ==> r.tx == tx)
  {
  }

  lemma PacketsTruthfulPolled(c: Conn, out: seq<Tracked>, c': Conn, cfg: Config, s: Stream)
    requires CoreOk(c, cfg, s) && PacketsOk(out, s, UnaPos(c, s), SndPos(c, s))
    requires forall t :: t in out ==> c.tx.unacked != [] && t.flags == c.tx.unacked[0].flags
    requires c'.state == c.state && c'.rx == c.rx
    ensures OutputOk(SegmentsFor(c, out), c, c', s, UnaPos(c, s), SndPos(c, s))
  {
    if Synchronized(c.state) {
      TxFacts(c.tx, s, UnaPos(c, s));
      NoSyn(c.tx.unacked, UnaPos(c, s), SndPos(c, s), s);
    }
    hide TxOk, RxOk, OutputOk, NxtPos, PacketsOk, Wrap, Chain, Stream.Count;
    PacketsTruthful(c, out, c, c', s, UnaPos(c, s), SndPos(c, s));
  }

  // ---------------------------------------------------------------- states and closing

  /** The handshake states are left for good, and neither turns into the other. */
  predicate StatesApart(c: Conn, c': Conn) {
    && (c.state != SynSent ==> c'.state != SynSent)
    && (c.state != SynReceived ==> c'.state != SynReceived)
  }

  lemma FlushStates(c: Conn, now: u64)
    ensures StatesApart(c, FlushData(c, now).conn) && !FlushData(c, now).closed
  {
    hide Flush, SegmentsFor;
  }

  lemma FinishStates(c: Conn, output: seq<Segment>, g: Segment, now: u64, cfg: Config)
    ensures StatesApart(c, FinishSegment(c, output, g, now, cfg).conn) && !FinishSegment(c, output, g, now, cfg).closed
  {
    hide FlushData, Receive, AckSegment;
    var c' := if g.payload != [] || g.flags.fin then ReceiveData(c, g, now, cfg) else c;
    FlushStates(c', now);
  }

  /** Past the handshake a reset or a SYN changes nothing, and any other segment takes one way. */
  lemma SynchronizedInput(c: Conn, g: Segment, now: u64, cfg: Config)
    requires Synchronized(c.state)
    ensures if g.flags.rst || g.flags.syn then Input(c, g, now, cfg).conn == c
            else Input(c, g, now, cfg) == OnSynchronized(c, g, now, cfg)
  {
    hide OnSynSent, OnSynReceived, OnSynchronized, AckSegment, ResetReply, SequenceSpace.After, AvailableWindow;
    hide Distance;
  }

  /** Closing a connection emits nothing. */
  lemma InputStates(c: Conn, g: Segment, now: u64, cfg: Config)
    ensures var r := Input(c, g, now, cfg); StatesApart(c, r.conn) && (r.closed ==> r.segments == [])
  {
    hide FinishSegment, ApplyAck, AckSegment, RetransmitOldest, Repair, NegotiateMss, UpdateWindow, ResetReply, Before;
    hide Add;
    hide InClosedInterval, AvailableWindow, Distance, RepairedTx, IsDuplicateAckCandidate, SupportsFipsVersion;
    var o := ApplyAck(c.tx, c.tx.nxt, now, false);
    FinishStates(c.(tx := UpdateWindow(o.tx, g.window, now), state := Established), [], g, now, cfg);
    FinishStates(c, [], g, now, cfg);
    if g.ack.Some? {
      var part := AckPart(c, g.ack.value, g, now, cfg);
      FinishStates(part.conn, part.segments, g, now, cfg);
      ApplyAckFields(c.tx, g.ack.value, now, IsDuplicateAckCandidate(g, c.tx.una, c.tx.window));
    }
  }

  lemma PollStates(c: Conn, now: u64, cfg: Config)
    ensures var r := Poll(c, now, cfg); StatesApart(c, r.conn) && (r.closed ==> r.segments == [])
  {
    hide FlushData, PollRetransmit, Probe, ZeroWindowWork, ProbeDelay;
    FlushStates(c.(tx := PollRetransmit(c.tx, now, cfg).tx), now);
  }

  lemma CloseStates(c: Conn, now: u64)
    ensures var r := Close(c, now); StatesApart(c, r.conn) && (r.closed ==> r.segments == [])
  {
    hide FlushData;
    FlushStates(c.(tx := c.tx.(closeRequested := true)), now);
  }
}
