/**
 * What every operation of a connection keeps, for every input a peer or the application may give:
 * the sending and receiving halves' invariants, the agreement of the state with the FIN, and the
 * facts the timers rest on. A connection's byte stream is a history value: the bytes accepted.
 */
module ConnectionInvariant {
  import opened Numbers
  import opened SequenceSpace
  import opened Wire
  import opened RenoControl
  import opened RttEstimation
  import opened Types
  import opened Sender
  import opened Receiver
  import opened Delivery
  import opened SendInvariant
  import opened SendSteps
  import opened ConnectionSpec

  predicate Synchronized(state: State) {
    state != SynSent && state != SynReceived
  }

  /** The states after our FIN was created. */
  predicate FinMade(state: State) {
    state in {FinWait1, State.FinWait2, Closing, LastAck, TimeWait}
  }

  /** The states after our FIN was acknowledged. */
  predicate FinAcked(state: State) {
    state == State.FinWait2 || state == TimeWait
  }

  /** The states after the peer's FIN was consumed. */
  predicate PeerDone(state: State) {
    state in {CloseWait, Closing, LastAck, TimeWait}
  }

  predicate MaySend(state: State) {
    state == Established || state == CloseWait
  }

  /** The position of `una` follows from the state and the count of acknowledged bytes. */
  function UnaPos(c: Conn, s: Stream): int {
    s.base - 1 + Bit(Synchronized(c.state)) + c.tx.acked + Bit(FinAcked(c.state))
  }

  function SndPos(c: Conn, s: Stream): int {
    NxtPos(c.tx, UnaPos(c, s))
  }

  /** The stream `s`, ended if the state says so. */
  function StreamIn(c: Conn, s: Stream): Stream {
    s.(ended := FinMade(c.state))
  }

  ghost predicate Configured(c: Conn, cfg: Config) {
    && c.tx.maxTransmissions == cfg.maxRetransmissions
    && c.rx.capacity == cfg.receiveBuffer
    && c.tx.rtt.minRto == cfg.minRto && c.tx.rtt.maxRto == cfg.maxRto
    && c.localPort != 0 && c.remotePort != 0
  }

  /** Before the handshake completes there is nothing but our SYN. */
  ghost predicate HandshakeOk(c: Conn, cfg: Config, s: Stream) {
    !Synchronized(c.state) ==>
      && s.bytes == [] && !c.tx.closeRequested && InFlight(c.tx) == 1
      && |c.tx.unacked| == 1
      && c.tx.unacked[0].flags == (if c.state == SynSent then SYN_FLAG else SYN_ACK)
      && (c.state == SynSent ==> c.tx.mss == cfg.mss)
      && c.rx.queue == [] && c.rx.chunks == [] && !c.rx.closed
  }

  /** The persist deadline is set exactly while the remote window is zero; closing states have theirs. */
  ghost predicate TimersOk(c: Conn) {
    && (c.tx.window == 0 <==> c.tx.probeAt.Some?)
    && (c.state == State.FinWait2 ==> c.finWait2Until.Some?)
    && (c.state == TimeWait ==> c.timeWaitUntil.Some?)
    && (c.tx.closeRequested ==> MaySend(c.state))
  }

  ghost predicate CoreOk(c: Conn, cfg: Config, s: Stream) {
    && TxOk(c.tx, s, UnaPos(c, s))
    && RxOk(c.rx)
    && s.ended == FinMade(c.state)
    && c.rx.closed == PeerDone(c.state)
    && Configured(c, cfg)
    && HandshakeOk(c, cfg, s)
    && TimersOk(c)
  }

  /** Between operations there is also nothing left to flush. */
  ghost predicate ConnOk(c: Conn, cfg: Config, s: Stream) {
    CoreOk(c, cfg, s) && (MaySend(c.state) ==> Quiet(c.tx))
  }

  /** The parts of the invariant that hold within an operation. */
  lemma CoreFacts(c: Conn, cfg: Config, s: Stream)
    requires CoreOk(c, cfg, s)
    ensures TxOk(c.tx, s, UnaPos(c, s)) && RxOk(c.rx) && c.rx.capacity == cfg.receiveBuffer
    ensures RenoOk(c.tx.reno) && c.tx.reno.mss == c.tx.mss && RttOk(c.tx.rtt)
    ensures c.tx.rtt.minRto == cfg.minRto && c.tx.rtt.maxRto == cfg.maxRto
    ensures c.tx.maxTransmissions == cfg.maxRetransmissions
    ensures c.localPort != 0 && c.remotePort != 0
    ensures (c.tx.window == 0 <==> c.tx.probeAt.Some?) && (c.tx.closeRequested ==> MaySend(c.state))
    ensures s.ended == FinMade(c.state) && StreamIn(c, s) == s && c.tx.acked == s.Count(UnaPos(c, s))
    ensures c.rx.closed == PeerDone(c.state)
  {
    hide QueuesOk, KarnOk, BudgetOk, RecoveryOk, RxOk, HandshakeOk, RenoOk, RttOk;
    AckedAt(c.tx, s, UnaPos(c, s));
  }

  lemma AckedAt(tx: Tx, s: Stream, u: int)
    requires TxOk(tx, s, u)
    ensures tx.acked == s.Count(u)
  {
    hide Chain, KarnOk, Wrap;
  }

  /** Between operations the invariant holds whole. */
  lemma ConnFacts(c: Conn, cfg: Config, s: Stream)
    requires ConnOk(c, cfg, s)
    ensures CoreOk(c, cfg, s) && (MaySend(c.state) ==> Quiet(c.tx))
    ensures TxOk(c.tx, s, UnaPos(c, s)) && RxOk(c.rx) && c.rx.capacity == cfg.receiveBuffer
    ensures RenoOk(c.tx.reno) && c.tx.reno.mss == c.tx.mss && RttOk(c.tx.rtt)
    ensures c.tx.rtt.minRto == cfg.minRto && c.tx.rtt.maxRto == cfg.maxRto
    ensures c.tx.maxTransmissions == cfg.maxRetransmissions
    ensures c.localPort != 0 && c.remotePort != 0
    ensures (c.tx.window == 0 <==> c.tx.probeAt.Some?) && (c.tx.closeRequested ==> MaySend(c.state))
    ensures s.ended == FinMade(c.state) && StreamIn(c, s) == s && c.tx.acked == s.Count(UnaPos(c, s))
    ensures c.rx.closed == PeerDone(c.state)
  {
    hide CoreOk, Quiet;
    CoreFacts(c, cfg, s);
  }

  // ---------------------------------------------------------------- emitted segments

  /** The segment's sequence space, at position `p`, agrees with the stream. */
  ghost predicate HonestAt(g: Segment, p: int, s: Stream) {
    && g.seqNo == Wrap(p)
    && (g.flags.syn ==> g.payload == [] && !g.flags.fin && p == s.base - 1)
    && (g.payload != [] ==> s.Holds(p, g.payload))
    && (g.flags.fin ==> s.ended && g.payload == [] && p == s.End())
  }

  ghost predicate Honest(g: Segment, s: Stream, lo: int, n: int) {
    exists p :: HonestAt(g, p, s) && lo <= p && p + SequenceLen(g) <= n
  }

  /** The segment encodes, and decodes to itself. */
  ghost predicate Sendable(g: Segment) {
    Encodable(g) && Canonical(g.options)
  }

  /** All segments of an update from `c` to `c'` tell the truth about the stream and `recv_nxt`. */
  ghost predicate OutputOk(out: seq<Segment>, c: Conn, c': Conn, s: Stream, lo: int, n: int) {
    forall g :: g in out ==> Sendable(g) && (g.flags.rst || TruthfulFrom(g, c, c', s, lo, n))
  }

  /** An ACK number emitted between two states of a connection is `recv_nxt` of one of them. */
  predicate AckBetween(ack: u32, c: Conn, c': Conn) {
    ack == c'.rx.nxt || (c.state != SynSent && ack == c.rx.nxt)
  }

  ghost predicate TruthfulFrom(g: Segment, c: Conn, c': Conn, s: Stream, lo: int, n: int) {
    && Honest(g, s, lo, n)
    && (g.ack.Some? ==> c'.state != SynSent && AckBetween(g.ack.value, c, c'))
    && (g.flags.syn ==> c'.state == if g.ack.Some? then SynReceived else SynSent)
  }

  lemma BuildSendable(c: Conn, seqNo: u32, window: u16, flags: Flags, payload: seq<byte>)
    requires c.localPort != 0 && c.remotePort != 0
    ensures Sendable(Build(c, seqNo, window, flags, payload))
  {
    var options := [MaxSegmentSize(c.tx.mss), FipsVersion(FIPS_VERSION, 0)];
    assert options[1..] == [FipsVersion(FIPS_VERSION, 0)] && options[1..][1..] == [];
    assert OptionsLen(options[1..]) == 4 + OptionsLen(options[1..][1..]) == 4;
    assert OptionsLen(options) == 4 + OptionsLen(options[1..]);
  }

  lemma SendableDecodes(g: Segment)
    requires Sendable(g)
    ensures Echo(g) == Ok(g)
  {
    SegmentRoundTrip(g);
  }

  lemma ResetReplySendable(s: Segment)
    requires s.srcPort != 0 && s.dstPort != 0
    ensures Sendable(ResetReply(s)) && ResetReply(s).flags.rst
  {
  }

  /** The flags a state may put on its tracked segments. */
  predicate FlagsFit(flags: Flags, state: State) {
    flags.syn ==> flags == (if state == SynSent then SYN_FLAG else SYN_ACK) && !Synchronized(state)
  }

  lemma PacketTruthful(c: Conn, t: Tracked, c0: Conn, c': Conn, s: Stream, lo: int, n: int)
    requires PacketOk(t, s, lo, n) && c.localPort != 0 && c.remotePort != 0
    requires FlagsFit(t.flags, c'.state) && (c'.state == SynSent ==> t.flags.syn)
    requires AckBetween(c.rx.nxt, c0, c')
    ensures Sendable(SegmentFor(c, t)) && TruthfulFrom(SegmentFor(c, t), c0, c', s, lo, n)
  {
    BuildSendable(c, t.seqNo, WindowField(c), t.flags, t.payload);
    var p :| PieceOk(t, p, s) && lo <= p && p + t.Len() <= n;
    hide Wrap, WindowField, Sendable;
    assert HonestAt(SegmentFor(c, t), p, s);
  }

  lemma {:induction false} PacketsTruthful(c: Conn, out: seq<Tracked>, c0: Conn, c': Conn, s: Stream, lo: int, n: int)
    requires PacketsOk(out, s, lo, n) && c.localPort != 0 && c.remotePort != 0
    requires forall t :: t in out ==> FlagsFit(t.flags, c'.state) && (c'.state == SynSent ==> t.flags.syn)
    requires AckBetween(c.rx.nxt, c0, c')
    ensures OutputOk(SegmentsFor(c, out), c0, c', s, lo, n)
  {
    forall i | 0 <= i < |out|
      ensures Sendable(SegmentFor(c, out[i])) && TruthfulFrom(SegmentFor(c, out[i]), c0, c', s, lo, n)
    {
      PacketTruthful(c, out[i], c0, c', s, lo, n);
    }
  }

  /** A pure ACK carries no sequence space. */
  lemma AckTruthful(c: Conn, c0: Conn, c': Conn, s: Stream, lo: int, p: int, n: int)
    requires c.localPort != 0 && c.remotePort != 0 && c.tx.nxt == Wrap(p) && lo <= p <= n
    requires c'.state != SynSent && AckBetween(c.rx.nxt, c0, c')
    ensures OutputOk([AckSegment(c)], c0, c', s, lo, n)
  {
    BuildSendable(c, c.tx.nxt, WindowField(c), ACK_FLAG, []);
    hide Wrap, WindowField, Sendable;
    assert HonestAt(AckSegment(c), p, s);
  }

  /** Truthful output stays truthful as the stream and the state move on. */
  lemma OutputExtends(out: seq<Segment>, c: Conn, c1: Conn, c2: Conn, s: Stream, s': Stream, lo: int, n: int, n': int)
    requires OutputOk(out, c, c1, s, lo, n) && s'.Extends(s) && n <= n'
    requires AckBetween(c1.rx.nxt, c, c2)
    requires Synchronized(c1.state) && Synchronized(c2.state)
    ensures OutputOk(out, c, c2, s', lo, n')
  {
    hide Wrap, Sendable;
    forall g | g in out && !g.flags.rst
      ensures TruthfulFrom(g, c, c2, s', lo, n')
    {
      var p :| HonestAt(g, p, s) && lo <= p && p + SequenceLen(g) <= n;
      assert HonestAt(g, p, s');
    }
  }

  // ---------------------------------------------------------------- facts about the halves

  lemma TxFacts(tx: Tx, s: Stream, u: int)
    requires TxOk(tx, s, u)
    ensures tx.una == Wrap(u) && tx.nxt == Wrap(NxtPos(tx, u))
    ensures s.base - 1 <= u <= NxtPos(tx, u) <= u + MAX_SPAN && s.base <= NxtPos(tx, u) <= s.End() + Bit(s.ended)
    ensures s.ended ==> NxtPos(tx, u) == s.End() + 1 && tx.queue == []
    ensures tx.acked == s.Count(u) && tx.accepted == |s.bytes|
    ensures Chain(tx.unacked, u, NxtPos(tx, u), s) && (tx.unacked == [] <==> InFlight(tx) == 0)
    ensures u == NxtPos(tx, u) <==> tx.unacked == []
  {
    NxtWraps(tx, u);
    ChainOrder(tx.unacked, u, NxtPos(tx, u), s);
  }

  /** In a synchronised state the queue holds no SYN. */
  lemma {:induction false} NoSyn(ts: seq<Tracked>, p: int, q: int, s: Stream)
    requires Chain(ts, p, q, s) && s.base <= p
    ensures forall t :: t in ts ==> !t.flags.syn
  {
    hide Wrap;
    if ts != [] {
      NoSyn(ts[1..], p + ts[0].Len(), q, s);
    }
  }

  /** Packets at or after the stream's base carry no SYN. */
  lemma PacketsNoSyn(out: seq<Tracked>, s: Stream, lo: int, n: int)
    requires PacketsOk(out, s, lo, n) && s.base <= lo
    ensures forall t :: t in out ==> !t.flags.syn
  {
    forall t | t in out
      ensures !t.flags.syn
    {
      var p :| PieceOk(t, p, s) && lo <= p && p + t.Len() <= n;
    }
  }

  // ---------------------------------------------------------------- construction

  lemma ClientOk(localPort: u16, remotePort: u16, isn: u32, now: u64, cfg: Config)
    requires localPort != 0 && remotePort != 0
    ensures var r := Client(localPort, remotePort, isn, now, cfg); var s := Stream(isn + 1, [], false);
            && ConnOk(r.conn, cfg, s) && UnaPos(r.conn, s) == isn && SndPos(r.conn, s) == isn + 1
            && OutputOk(r.segments, r.conn, r.conn, s, isn, isn + 1)
  {
    var c := Blank(localPort, remotePort, SynSent, isn, 0, cfg);
    var r := Client(localPort, remotePort, isn, now, cfg);
    var s := Stream(isn + 1, [], false);
    var t := Fresh(c.tx, SYN_FLAG, [], now);
    BlankControl(localPort, remotePort, SynSent, isn, 0, cfg);
    hide ControlOk, RenoControl.Initial, RttEstimation.Initial;
    FreshSynOk(c.tx, isn, SYN_FLAG, now);
    hide TxOk, PacketsOk, OutputOk, InFlight, SendTracked, Wrap, NxtPos, Quiet;
    assert r.segments == SegmentsFor(r.conn, [t]);
    assert ConnOk(r.conn, cfg, s) by { hide SegmentsFor; FreshReceiver(r.conn.rx, cfg); }
    hide ConnOk;
    PacketsTruthful(r.conn, [t], r.conn, r.conn, s, isn, isn + 1);
  }

  lemma FreshReceiver(rx: Rx, cfg: Config)
    requires rx.queue == [] && rx.chunks == [] && rx.capacity == cfg.receiveBuffer
    ensures RxOk(rx)
  {
  }

  lemma BlankControl(localPort: u16, remotePort: u16, state: State, isn: u32, recvNxt: u32, cfg: Config)
    ensures var tx := Blank(localPort, remotePort, state, isn, recvNxt, cfg).tx;
            ControlOk(tx) && tx.rtt.sampleAfter == None && tx.rtt.minRto == cfg.minRto && tx.rtt.maxRto == cfg.maxRto
  {
  }

  lemma ServerOk(syn: Segment, isn: u32, now: u64, cfg: Config)
    requires syn.srcPort != 0 && syn.dstPort != 0
    ensures var r := Server(syn, isn, now, cfg); var s := Stream(isn + 1, [], false);
            && ConnOk(r.conn, cfg, s) && UnaPos(r.conn, s) == isn && SndPos(r.conn, s) == isn + 1
            && OutputOk(r.segments, r.conn, r.conn, s, isn, isn + 1)
            && r.conn.rx == Rx(Add(syn.seqNo, 1), [], [], cfg.receiveBuffer, false)
  {
    var c := Blank(syn.dstPort, syn.srcPort, SynReceived, isn, Add(syn.seqNo, 1), cfg);
    var tx := NegotiateMss(UpdateWindow(c.tx, syn.window, now), syn, cfg);
    var r := Server(syn, isn, now, cfg);
    var s := Stream(isn + 1, [], false);
    var t := Fresh(tx, SYN_ACK, [], now);
    BlankControl(syn.dstPort, syn.srcPort, SynReceived, isn, Add(syn.seqNo, 1), cfg);
    NegotiatedControl(c.tx, syn, now, cfg);
    hide ControlOk, NegotiateMss, RenoControl.Initial, RttEstimation.Initial;
    FreshSynOk(tx, isn, SYN_ACK, now);
    hide TxOk, PacketsOk, OutputOk, InFlight, FirstMss, SendTracked, Wrap, NxtPos, Quiet;
    assert r.segments == SegmentsFor(r.conn, [t]);
    assert ConnOk(r.conn, cfg, s) by { hide SegmentsFor; FreshReceiver(r.conn.rx, cfg); }
    hide ConnOk;
    PacketsTruthful(r.conn, [t], r.conn, r.conn, s, isn, isn + 1);
  }

  lemma NegotiatedControl(tx: Tx, syn: Segment, now: u64, cfg: Config)
    requires ControlOk(tx) && tx.mss == cfg.mss
    ensures var tx' := NegotiateMss(UpdateWindow(tx, syn.window, now), syn, cfg);
            && ControlOk(tx') && tx'.rtt == tx.rtt
            && tx' == UpdateWindow(tx, syn.window, now).(mss := tx'.mss, reno := tx'.reno)
  {
  }

  /** A new sender whose SYN is its only segment. */
  lemma FreshSynOk(tx: Tx, isn: u32, flags: Flags, now: u64)
    requires tx.una == tx.nxt == isn && tx.queue == [] && tx.unacked == [] && tx.accepted == tx.acked == 0
    requires tx.rtoRecoveryUntil == None && tx.rtt.sampleAfter == None && ControlOk(tx)
    requires flags == SYN_FLAG || flags == SYN_ACK
    ensures var tx' := SendTracked(tx, flags, [], now); var s := Stream(isn + 1, [], false);
            && TxOk(tx', s, isn) && NxtPos(tx', isn) == isn + 1 && InFlight(tx') == 1
            && PacketsOk([Fresh(tx, flags, [], now)], s, isn, isn + 1)
            && tx' == tx.(nxt := tx'.nxt, unacked := [Fresh(tx, flags, [], now)])
  {
    var t := Fresh(tx, flags, [], now);
    var s := Stream(isn + 1, [], false);
    var tx' := SendTracked(tx, flags, [], now);
    FreshSynShape(tx, isn, flags, now);
    hide SendTracked, PieceOk, Wrap, InFlight, Off, RenoOk, RttOk, Tracked.Len;
    assert tx'.unacked == [t] && tx'.unacked[1..] == [];
    assert Chain(tx'.unacked, isn, isn + 1, s);
    assert !tx'.rtt.sampleAfter.Some? && KarnMark(tx', isn) == isn;
    assert KarnChain(tx'.unacked, isn, isn);
    assert PacketOk(t, s, isn, isn + 1);
  }

  lemma FreshSynShape(tx: Tx, isn: u32, flags: Flags, now: u64)
    requires tx.una == tx.nxt == isn && tx.unacked == []
    requires flags == SYN_FLAG || flags == SYN_ACK
    ensures var t := Fresh(tx, flags, [], now); var tx' := SendTracked(tx, flags, [], now);
            && tx' == tx.(nxt := tx'.nxt, unacked := [t]) && InFlight(tx') == 1 && tx.una == Wrap(isn)
            && PieceOk(t, isn, Stream(isn + 1, [], false)) && t.Len() == 1 && t.sends == 1 && t.transmissions == 1
  {
    var t := Fresh(tx, flags, [], now);
    assert isn == Wrap(isn) && PieceOk(t, isn, Stream(isn + 1, [], false));
    PieceLen(t, isn, Stream(isn + 1, [], false));
    hide Wrap, PieceOk, Tracked.End, Tracked.Len, Distance;
    WrapOrder(isn, isn + 1);
    assert SendTracked(tx, flags, [], now).nxt == Wrap(isn + 1);
  }
}
