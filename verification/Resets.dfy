/** Which inputs close a connection, and how a restarted client gets rid of a stale one. */
module Resets {
  import opened Numbers
  import opened SequenceSpace
  import opened Wire
  import opened RenoControl
  import opened RttEstimation
  import opened Types
  import opened Sender
  import opened Receiver
  import opened Delivery
  import opened SendInvariant
  import opened SendSteps
  import opened ConnectionSpec
  import opened ConnectionInvariant
  import opened ConnectionSteps
  import opened ConnectionRuns
  import opened Handshake

  // ---------------------------------------------------------------- when an input closes

  /** In SYN-SENT a reset must acknowledge the SYN; later its number must be exactly `recv_nxt`. */
  predicate AcceptedReset(c: Conn, g: Segment) {
    g.flags.rst && if c.state == SynSent then g.ack == Some(c.tx.nxt) else g.seqNo == c.rx.nxt
  }

  /** The acknowledgement of everything sent, our FIN included, in LAST-ACK. */
  predicate LastAcknowledgement(c: Conn, g: Segment) {
    c.state == LastAck && !g.flags.rst && !g.flags.syn && g.ack == Some(c.tx.nxt)
  }

  /** With one number in flight, only `nxt` is an acceptable ACK. */
  lemma OnlyNxt(una: u32, ack: u32)
    ensures After(ack, una) && !After(ack, Add(una, 1)) <==> ack == Add(una, 1)
  {
  }

  lemma SynInFlight(c: Conn, cfg: Config, s: Stream)
    requires ConnOk(c, cfg, s) && c.state == SynSent
    ensures c.tx.nxt == Add(c.tx.una, 1)
  {
    TxFacts(c.tx, s, UnaPos(c, s));
    WrapAdd(UnaPos(c, s), 1);
    hide TxOk, RxOk, Wrap, Add, Quiet, Chain, UnaPos;
  }

  /** In LAST-ACK an ACK passes our FIN exactly when it is `nxt`. */
  lemma FinPassed(c: Conn, ack: u32, g: Segment, now: u64, cfg: Config, s: Stream)
    requires ConnOk(c, cfg, s) && c.state == LastAck
    ensures AckedTx(c.tx, ack, g, now).finAcked <==> ack == c.tx.nxt
  {
    ConnFacts(c, cfg, s);
    var u := UnaPos(c, s);
    TxFacts(c.tx, s, u);
    FinFacts(c, cfg, s);
    UnaWraps(c.tx, s, u);
    AckedSender(c.tx, s, u, ack, g, now, cfg);
    AckAcceptance(c.tx, s, u, ack);
    hide ConnOk, CoreOk, TxOk, Chain, AckedTx, RepairedTx, UnaPos, Acceptable, QueuesOk, PacketsOk;
    WrapOrder(NxtPos(c.tx, u), u);
  }

  /**
   * For every segment: an input closes a connection exactly if it is an acceptable reset or, in
   * LAST-ACK, the acknowledgement of our FIN; and without a reset never before the peer's FIN was
   * consumed.
   */
  lemma InputCloses(l: Life, g: Segment, now: u64, cfg: Config)
    requires Reached(l, cfg)
    ensures Input(l.conn, g, now, cfg).closed <==> AcceptedReset(l.conn, g) || LastAcknowledgement(l.conn, g)
    ensures Input(l.conn, g, now, cfg).closed && !g.flags.rst ==> l.conn.rx.closed
  {
    hide *;
    ReachedOk(l, cfg);
    ConnInputCloses(l.conn, g, now, cfg, StreamNow(l));
  }

  lemma ConnInputCloses(c: Conn, g: Segment, now: u64, cfg: Config, s: Stream)
    requires ConnOk(c, cfg, s)
    ensures Input(c, g, now, cfg).closed <==> AcceptedReset(c, g) || LastAcknowledgement(c, g)
    ensures Input(c, g, now, cfg).closed && !g.flags.rst ==> c.rx.closed
  {
    ConnFacts(c, cfg, s);
    if c.state == SynSent {
      SynInFlight(c, cfg, s);
      if g.ack.Some? { OnlyNxt(c.tx.una, g.ack.value); }
    }
    if c.state == LastAck && g.ack.Some? {
      FinPassed(c, g.ack.value, g, now, cfg, s);
    }
    hide ConnOk, FinishSegment, AckedTx, RepairedTx, ApplyAck, AckSegment, ResetReply, RetransmitOldest, NegotiateMss;
    hide UpdateWindow, SequenceSpace.After, Add, AvailableWindow, Distance, SupportsFipsVersion, SegmentsFor;
    NeverClosed(c, g, now, cfg);
  }

  lemma NeverClosed(c: Conn, g: Segment, now: u64, cfg: Config)
    ensures forall d: Conn, output: seq<Segment> :: !FinishSegment(d, output, g, now, cfg).closed
  {
    hide FlushData, ReceiveData, AckSegment;
  }

  // ---------------------------------------------------------------- what a reset is answered with

  /**
   * A reset that does not close changes nothing. Later than SYN-SENT it draws one challenge ACK, of
   * exactly what is expected next, if it lies in the window beyond that, and nothing otherwise
   * (section 3.2 of RFC 5961).
   */
  lemma ResetIsChallenged(c: Conn, g: Segment, now: u64, cfg: Config)
    requires g.flags.rst && RxOk(c.rx)
    ensures var r := Input(c, g, now, cfg); var o := Off(c.rx.nxt, g.seqNo);
            && r.conn == c
            && (r.segments != [] <==> c.state != SynSent && 0 < o < AvailableWindow(c.rx))
            && (r.segments != [] ==>
                  && |r.segments| == 1 && r.segments[0].flags == ACK_FLAG && r.segments[0].payload == []
                  && r.segments[0].ack == Some(c.rx.nxt) && r.segments[0].seqNo == c.tx.nxt)
  {
    WindowCoversParked(c.rx);
    OffOrder(c.rx.nxt, g.seqNo);
    hide Off, AvailableWindow, RxOk, WindowField, SequenceSpace.After;
    FarIsOutside(c.rx.nxt, g.seqNo);
  }

  /** A number before `nxt` is at least 2^31 after it, so outside any window. */
  lemma FarIsOutside(nxt: u32, s: u32)
    ensures Off(nxt, s) < 0 ==> Distance(nxt, s) >= 0x8000_0000
    ensures Off(nxt, s) >= 0 ==> Distance(nxt, s) == Off(nxt, s)
  {
  }

  /**
   * The stateless reset stands at the ACK number of what it answers, or else acknowledges all of its
   * sequence space, SYN and FIN included; it goes back the way that came and carries nothing.
   */
  lemma ReplyPlaces(g: Segment, p: int)
    requires g.seqNo == Wrap(p)
    ensures var r := ResetReply(g);
            && r.srcPort == g.dstPort && r.dstPort == g.srcPort && r.flags.rst && SequenceLen(r) == 0
            && (if g.ack.Some? then r.seqNo == g.ack.value && r.ack == None
                else r.seqNo == 0 && r.ack == Some(Wrap(p + |g.payload| + Bit(g.flags.syn) + Bit(g.flags.fin))))
  {
    WrapAdd(p, SequenceLen(g));
    hide Wrap, Add;
  }

  /** A connection attempt that nobody listens for is refused at once: the stateless reset closes it. */
  lemma ClosedPortRefuses(localPort: u16, remotePort: u16, isn: u32, t0: u64, now: u64, cfg: Config)
    ensures var c0 := Client(localPort, remotePort, isn, t0, cfg);
            |c0.segments| == 1 && Input(c0.conn, ResetReply(c0.segments[0]), now, cfg).closed
  {
    ClientSyn(localPort, remotePort, isn, t0, cfg);
    OnlyNxt(isn, Add(isn, 1));
    AddAdd(isn, 1, 0);
    hide Client, SequenceSpace.After, Add;
  }

  /** An abort ends the peer's connection too exactly if the peer has received all that was sent. */
  lemma AbortReachesPeer(c: Conn, peer: Conn, now: u64, cfg: Config)
    requires peer.state != SynSent
    ensures Input(peer, ResetSegment(c), now, cfg).closed <==> peer.rx.nxt == c.tx.nxt
  {
    hide AvailableWindow, Distance;
  }

  // ---------------------------------------------------------------- half-open connections

  /**
   * A client restarted and sends a SYN on a tuple for which the peer still holds a connection. The
   * peer answers with an ACK of its old position, the client, which cannot have been sent that,
   * with a reset on exactly that position, and the stale connection is removed, while the client
   * waits to send its SYN again. That is so exactly if the old position is not the one the new
   * SYN would lead to; else the client takes the ACK for a late one and keeps silent.
   */
  lemma HalfOpenRecovers(stale: Conn, server: Config, client: Config, localPort: u16, remotePort: u16, isn: u32,
                         t0: u64, t1: u64, t2: u64, t3: u64)
    requires Synchronized(stale.state)
    ensures var c0 := Client(localPort, remotePort, isn, t0, client);
            |c0.segments| == 1 &&
            var challenge := Input(stale, c0.segments[0], t1, server);
            challenge == Open(stale, [AckSegment(stale)]) &&
            var answer := Input(c0.conn, AckSegment(stale), t2, client);
            && answer.conn == c0.conn && !answer.closed
            && if stale.rx.nxt == Add(isn, 1) then answer.segments == []
               else answer.segments == [ResetReply(AckSegment(stale))]
                    && Input(stale, answer.segments[0], t3, server) == Update(stale, [], false, true)
  {
    ClientSyn(localPort, remotePort, isn, t0, client);
    OnlyNxt(isn, stale.rx.nxt);
    hide Client, WindowField, SequenceSpace.After, Add, SequenceLen;
  }

  /** The SYN the client sends again is its first one, so it opens a new connection as that would. */
  lemma SynAgain(localPort: u16, remotePort: u16, isn: u32, t0: u64, now: u64, cfg: Config)
    requires cfg.maxRetransmissions > 1
    ensures var c0 := Client(localPort, remotePort, isn, t0, cfg);
            && NextPollAt(c0.conn, now, cfg).Some?
            && (now >= NextPollAt(c0.conn, now, cfg).value ==> Poll(c0.conn, now, cfg).segments == c0.segments)
  {
    hide Add, RttState.OnTimeout, RenoState.OnTimeout, InFlight;
  }

  /**
   * A client's SYN that arrives again before the handshake is complete is answered by the same SYN-ACK
   * again, as long as its budget lasts, and changes nothing the handshake depends on.
   */
  lemma SynAckAgain(c: Conn, g: Segment, now: u64, cfg: Config, s: Stream)
    requires ConnOk(c, cfg, s) && c.state == SynReceived && !g.flags.rst
    requires g.flags.syn && !g.flags.ack && Add(g.seqNo, 1) == c.rx.nxt
    ensures var r := Input(c, g, now, cfg);
            && !r.closed && r.conn.state == SynReceived && r.conn.rx == c.rx
            && r.conn.tx.una == c.tx.una && r.conn.tx.nxt == c.tx.nxt
            && (if c.tx.unacked[0].transmissions < cfg.maxRetransmissions then
                  && |r.segments| == 1 && r.segments[0].flags == SYN_ACK && r.segments[0].seqNo == c.tx.una
                  && r.segments[0].ack == Some(c.rx.nxt)
                else r == Open(c, []))
  {
    ConnFacts(c, cfg, s);
    TxFacts(c.tx, s, UnaPos(c, s));
    hide Wrap, Add, WindowField, RxOk, Quiet, KarnOk, StaleHandshakeAck;
  }
}
