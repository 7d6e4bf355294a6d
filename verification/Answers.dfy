/**
 * What a connection must say: every segment it emits announces its receiver as it is, received data
 * is acknowledged, and nothing enters the retransmission queue without going out.
 */
module Answers {
  import opened Numbers
  import opened SequenceSpace
  import opened Wire
  import opened Types
  import opened Sender
  import opened Receiver
  import opened Delivery
  import opened SendInvariant
  import opened SendSteps
  import opened ConnectionSpec
  import opened ConnectionInvariant
  import opened ConnectionSteps
  import opened ConnectionRuns
  import opened Retries

  // ---------------------------------------------------------------- what segments announce

  /** The segment carries the connection's ports, its `recv_nxt` and the free space of its buffer. */
  predicate Announces(g: Segment, localPort: u16, remotePort: u16, rx: Rx) {
    && g.srcPort == localPort && g.dstPort == remotePort
    && g.ack == (if g.flags.ack then Some(rx.nxt) else None)
    && g.window == Min(SatSub(rx.capacity, |rx.queue| + PayloadBytes(rx.chunks)), 0xFFFF)
  }

  /** All segments announce the receiver before or after the operation. */
  ghost predicate AllAnnounce(out: seq<Segment>, c: Conn, c': Conn) {
    forall g :: g in out ==>
      Announces(g, c.localPort, c.remotePort, c.rx) || Announces(g, c.localPort, c.remotePort, c'.rx)
  }

  lemma BuildAnnounces(c: Conn, out: seq<Tracked>)
    ensures forall g :: g in SegmentsFor(c, out) ==> Announces(g, c.localPort, c.remotePort, c.rx)
    ensures Announces(AckSegment(c), c.localPort, c.remotePort, c.rx)
  {
    hide PayloadBytes;
  }

  lemma FlushAnnounces(c: Conn, now: u64)
    ensures var r := FlushData(c, now);
            && r.conn.rx == c.rx && r.conn.localPort == c.localPort && r.conn.remotePort == c.remotePort
            && (forall g :: g in r.segments ==> Announces(g, c.localPort, c.remotePort, c.rx))
  {
    hide Flush, Announces, SegmentsFor;
    BuildAnnounces(c, Flush(c.tx, now).out);
  }

  lemma ReceiveDataShape(c: Conn, g: Segment, now: u64, cfg: Config)
    ensures var c' := ReceiveData(c, g, now, cfg);
            c'.tx == c.tx && c'.localPort == c.localPort && c'.remotePort == c.remotePort
  {
    hide Receive;
  }

  /** The tail of segment processing: its ACK, if any, announces the receiver it leaves. */
  lemma FinishAnnounces(c: Conn, output: seq<Segment>, g: Segment, now: u64, cfg: Config)
    ensures var r := FinishSegment(c, output, g, now, cfg);
            && r.conn.localPort == c.localPort && r.conn.remotePort == c.remotePort
            && (forall a :: a in r.segments ==> a in output || Announces(a, c.localPort, c.remotePort, r.conn.rx))
            && (g.payload != [] || g.flags.fin ==> exists a :: a in r.segments && IsAck(a, r.conn))
  {
    hide FlushData, ReceiveData, Announces, IsAck, AckSegment;
    var data := g.payload != [] || g.flags.fin;
    var c' := if data then ReceiveData(c, g, now, cfg) else c;
    if data { ReceiveDataShape(c, g, now, cfg); }
    FlushAnnounces(c', now);
    BuildAnnounces(c', []);
    if data {
      assert AckSegment(c') in FinishSegment(c, output, g, now, cfg).segments;
      AckIsAck(c', FlushData(c', now).conn);
    }
  }

  /** A segment without sequence space that acknowledges all that was received, and tells the window. */
  predicate IsAck(a: Segment, c: Conn) {
    && SequenceLen(a) == 0 && !a.flags.rst && a.ack == Some(c.rx.nxt)
    && a.window == Min(SatSub(c.rx.capacity, |c.rx.queue| + PayloadBytes(c.rx.chunks)), 0xFFFF)
  }

  lemma AckIsAck(c: Conn, c': Conn)
    requires c'.rx == c.rx
    ensures IsAck(AckSegment(c), c')
  {
  }

  lemma AckPartAnnounces(c: Conn, ack: u32, g: Segment, now: u64, cfg: Config)
    ensures var r := AckPart(c, ack, g, now, cfg);
            && r.conn.rx == c.rx && r.conn.localPort == c.localPort && r.conn.remotePort == c.remotePort
            && (forall a :: a in r.segments ==> Announces(a, c.localPort, c.remotePort, c.rx))
  {
    hide AckedTx, RepairedTx, Announces, SegmentsFor;
    BuildAnnounces(c, AckedTx(c.tx, ack, g, now).resent);
    BuildAnnounces(c, RepairedTx(c.tx, ack, g, now, cfg).out);
  }

  lemma InputAnnounces(c: Conn, g: Segment, now: u64, cfg: Config)
    ensures var r := Input(c, g, now, cfg);
            if StaleHandshakeAck(c, g) then r == Open(c, [ResetReply(g)]) else AllAnnounce(r.segments, c, r.conn)
  {
    hide ResetReply, Announces, OnSynSent, OnSynReceived, OnSynchronized, AckSegment, StaleHandshakeAck, UnexpectedSyn;
    hide OnReset;
    BuildAnnounces(c, []);
    OnResetAnnounces(c, g);
    SynSentAnnounces(c, g, now, cfg);
    SynReceivedAnnounces(c, g, now, cfg);
    SynchronizedAnnounces(c, g, now, cfg);
  }

  lemma OnResetAnnounces(c: Conn, g: Segment)
    ensures AllAnnounce(OnReset(c, g).segments, c, OnReset(c, g).conn)
  {
    hide Announces, AckSegment, AvailableWindow, Distance, SequenceSpace.After;
    BuildAnnounces(c, []);
  }

  lemma SynSentAnnounces(c: Conn, g: Segment, now: u64, cfg: Config)
    ensures AllAnnounce(OnSynSent(c, g, now, cfg).segments, c, OnSynSent(c, g, now, cfg).conn)
  {
    hide Announces, AckSegment, ApplyAck, NegotiateMss, UpdateWindow, SupportsFipsVersion, Add;
    BuildAnnounces(OnSynSent(c, g, now, cfg).conn, []);
  }

  lemma SynReceivedAnnounces(c: Conn, g: Segment, now: u64, cfg: Config)
    ensures AllAnnounce(OnSynReceived(c, g, now, cfg).segments, c, OnSynReceived(c, g, now, cfg).conn)
  {
    hide Announces, FinishSegment, ApplyAck, RetransmitOldest, UpdateWindow, Add, SegmentsFor;
    BuildAnnounces(c, RetransmitOldest(c.tx, now, false).out);
    var o := ApplyAck(c.tx, c.tx.nxt, now, false);
    FinishAnnounces(c.(tx := UpdateWindow(o.tx, g.window, now), state := Established), [], g, now, cfg);
  }

  lemma SynchronizedAnnounces(c: Conn, g: Segment, now: u64, cfg: Config)
    ensures AllAnnounce(OnSynchronized(c, g, now, cfg).segments, c, OnSynchronized(c, g, now, cfg).conn)
  {
    hide Announces, FinishSegment, AckPart;
    FinishAnnounces(c, [], g, now, cfg);
    if g.ack.Some? {
      AckPartAnnounces(c, g.ack.value, g, now, cfg);
      var part := AckPart(c, g.ack.value, g, now, cfg);
      FinishAnnounces(part.conn, part.segments, g, now, cfg);
    }
  }

  lemma LocalAnnounces(c: Conn, data: seq<byte>, max: nat, now: u64, cfg: Config)
    ensures Write(c, data, now, cfg).Ok? ==>
      AllAnnounce(Write(c, data, now, cfg).value.segments, c, Write(c, data, now, cfg).value.conn)
    ensures AllAnnounce(Read(c, max).segments, c, Read(c, max).conn)
    ensures AllAnnounce(Close(c, now).segments, c, Close(c, now).conn)
  {
    hide Announces, FlushData, AckSegment, AvailableWindow, AcceptCount, ReadCount;
    FlushAnnounces(Accepting(c, data[..AcceptCount(c, data, cfg)]), now);
    FlushAnnounces(c.(tx := c.tx.(closeRequested := true)), now);
    BuildAnnounces(Read(c, max).conn, []);
  }

  lemma PollAnnounces(c: Conn, now: u64, cfg: Config)
    ensures AllAnnounce(Poll(c, now, cfg).segments, c, Poll(c, now, cfg).conn)
  {
    hide Announces, FlushData, PollRetransmit, PollZeroWindow, ZeroWindowWork, SegmentsFor, CloseDeadline;
    BuildAnnounces(c, PollZeroWindow(c.tx, now, cfg).out);
    BuildAnnounces(c, PollRetransmit(c.tx, now, cfg).out);
    FlushAnnounces(c.(tx := PollRetransmit(c.tx, now, cfg).tx), now);
  }

  /**
   * Every segment a connection emits carries its ports, the number it expects next, and exactly the
   * free space of its receive buffer, before or after the operation that emits it. The one exception
   * is the reset that answers a stale ACK in SYN-SENT.
   */
  lemma EverySegmentAnnounces(l: Life, op: Op, cfg: Config)
    ensures
      if !l.closed && op.Arrive? && Decode(op.bytes).Ok? && StaleHandshakeAck(l.conn, Decode(op.bytes).value) then
        Output(l, op, cfg) == [ResetReply(Decode(op.bytes).value)]
      else AllAnnounce(Output(l, op, cfg), l.conn, Perform(l, op, cfg).conn)
  {
    hide StaleHandshakeAck, ResetReply, Announces, Input, Write, Read, Close, Poll, Decode, AcceptCount;
    match op
    case Arrive(bytes, now) => if Decode(bytes).Ok? { InputAnnounces(l.conn, Decode(bytes).value, now, cfg); }
    case Put(data, now) =>
      LocalAnnounces(l.conn, data, 0, now, cfg);
      WriteAllowed(l.conn, data, now, cfg);
    case Get(max) => LocalAnnounces(l.conn, [], max, 0, cfg);
    case Shut(now) => LocalAnnounces(l.conn, [], 0, now, cfg);
    case Tick(now) => PollAnnounces(l.conn, now, cfg);
  }

  lemma WriteAllowed(c: Conn, data: seq<byte>, now: u64, cfg: Config)
    ensures Write(c, data, now, cfg).Ok? <==> MayWrite(c)
  {
    hide FlushData, AcceptCount;
  }

  // ---------------------------------------------------------------- received data is acknowledged

  /** The segment is processed up to its data: the handshake is or gets completed, and it is no reset or SYN. */
  predicate CarriesData(c: Conn, g: Segment) {
    && (g.payload != [] || g.flags.fin) && !g.flags.rst && !g.flags.syn
    && (Synchronized(c.state) || (c.state == SynReceived && g.ack == Some(c.tx.nxt)))
  }

  /**
   * Whatever segment with data or a FIN reaches an open connection, in order or not, new or old, is
   * answered by a pure ACK of exactly what was then received, with exactly the window then free.
   */
  lemma DataIsAcknowledged(c: Conn, g: Segment, now: u64, cfg: Config)
    requires CarriesData(c, g) && !Input(c, g, now, cfg).closed
    ensures exists a :: a in Input(c, g, now, cfg).segments && IsAck(a, Input(c, g, now, cfg).conn)
  {
    hide FinishSegment, AckPart, IsAck, AckSegment, ResetReply, RetransmitOldest, UpdateWindow, Add;
    if c.state == SynReceived {
      var o := ApplyAck(c.tx, c.tx.nxt, now, false);
      FinishAnnounces(c.(tx := UpdateWindow(o.tx, g.window, now), state := Established), [], g, now, cfg);
    } else if g.ack == None {
      FinishAnnounces(c, [], g, now, cfg);
    } else {
      var part := AckPart(c, g.ack.value, g, now, cfg);
      FinishAnnounces(part.conn, part.segments, g, now, cfg);
    }
  }

  // ---------------------------------------------------------------- what is tracked was sent

  /** New segments of a retransmission queue, by number, flags and payload, are among the output. */
  ghost predicate NewAreSent(tx: Tx, tx': Tx, out: seq<Segment>) {
    forall t :: t in tx'.unacked && Off(tx.nxt, t.seqNo) >= 0 ==>
      exists g :: g in out && g.seqNo == t.seqNo && g.flags == t.flags && g.payload == t.payload
  }

  /** What was tracked before starts before `nxt`. */
  lemma OldStartsBefore(tx: Tx, s: Stream, u: int, t: Tracked)
    requires TxOk(tx, s, u) && t in tx.unacked
    ensures Off(tx.nxt, t.seqNo) < 0
  {
    TxFacts(tx, s, u);
    hide TxOk, Chain, PieceOk, Wrap, Off, NxtPos;
    var i :| 0 <= i < |tx.unacked| && tx.unacked[i] == t;
    var p := ChainMember(tx.unacked, u, NxtPos(tx, u), s, i);
    PieceLen(t, p, s);
    WrapOrder(p, NxtPos(tx, u));
  }

  lemma NothingNew(tx: Tx, tx': Tx, out: seq<Segment>, s: Stream, u: int)
    requires TxOk(tx', s, u) && tx'.nxt == tx.nxt
    ensures NewAreSent(tx, tx', out)
  {
    hide TxOk, Off;
    forall t | t in tx'.unacked
      ensures Off(tx.nxt, t.seqNo) < 0
    {
      OldStartsBefore(tx', s, u, t);
    }
  }

  lemma FlushSendsNew(c: Conn, now: u64, cfg: Config, s: Stream)
    requires CoreOk(c, cfg, s) && Synchronized(c.state)
    ensures NewAreSent(c.tx, FlushData(c, now).conn.tx, FlushData(c, now).segments)
  {
    CoreFacts(c, cfg, s);
    var u := UnaPos(c, s);
    hide CoreOk, TxOk, Flush, Off, PacketsOk, SegmentFor;
    if MaySend(c.state) {
      var f := Flush(c.tx, now);
      FlushKeeps(c.tx, s, u, now);
      forall t | t in f.tx.unacked && Off(c.tx.nxt, t.seqNo) >= 0
        ensures exists g :: g in FlushData(c, now).segments && Carries(g, t)
      {
        if t in c.tx.unacked { OldStartsBefore(c.tx, s, u, t); }
        var i :| 0 <= i < |f.out| && f.out[i] == t;
        SegmentCarries(c, t);
        assert SegmentsFor(c, f.out)[i] in FlushData(c, now).segments;
      }
    } else {
      NothingNew(c.tx, c.tx, [], s, u);
    }
  }

  predicate Carries(g: Segment, t: Tracked) {
    g.seqNo == t.seqNo && g.flags == t.flags && g.payload == t.payload
  }

  lemma SegmentCarries(c: Conn, t: Tracked)
    ensures Carries(SegmentFor(c, t), t)
  {
    hide WindowField;
  }

  lemma FinishSendsNew(c: Conn, output: seq<Segment>, g: Segment, now: u64, cfg: Config, s: Stream)
    requires CoreOk(c, cfg, s) && Synchronized(c.state)
    ensures var r := FinishSegment(c, output, g, now, cfg); NewAreSent(c.tx, r.conn.tx, r.segments)
  {
    hide CoreOk, FlushData, UnaPos, Receive, AckSegment, Off;
    var data := g.payload != [] || g.flags.fin;
    var c' := if data then ReceiveData(c, g, now, cfg) else c;
    if data { ReceiveDataKeeps(c, g, now, cfg, s); }
    hide ReceiveData;
    FlushSendsNew(c', now, cfg, s);
  }

  lemma InputSendsNew(c: Conn, g: Segment, now: u64, cfg: Config, s: Stream)
    requires ConnOk(c, cfg, s) && g.srcPort != 0 && g.dstPort != 0
    ensures var r := Input(c, g, now, cfg); !r.closed ==> NewAreSent(c.tx, r.conn.tx, r.segments)
  {
    hide ConnOk, CoreOk, StepOk, Input, UnaFollows, RxFollows, FinishSegment, AckPart, UnaPos, NewAreSent, SndPos;
    hide OutputOk, UnaAfter;
    InputKeeps(c, g, now, cfg, s);
    var r := Input(c, g, now, cfg);
    if !r.closed {
      StepTx(c, r, cfg, s);
      if r.conn.tx.nxt == c.tx.nxt {
        NothingNew(c.tx, r.conn.tx, r.segments, StreamIn(r.conn, s), UnaPos(r.conn, StreamIn(r.conn, s)));
      } else {
        NxtMovers(c, g, now, cfg);
        if c.state == SynReceived {
          EstablishedCore(c, g, now, cfg, s);
          FinishSendsNew(EstablishedBy(c, g, now), [], g, now, cfg, s);
          SameNxt(c.tx, EstablishedBy(c, g, now).tx, r.conn.tx, r.segments);
        } else if g.ack == None {
          ConnFacts(c, cfg, s);
          FinishSendsNew(c, [], g, now, cfg, s);
        } else {
          ConnFacts(c, cfg, s);
          var part := AckPart(c, g.ack.value, g, now, cfg);
          AckPartKeeps(c, g.ack.value, g, now, cfg, s);
          AckPartNxt(c, g.ack.value, g, now, cfg, s);
          FinishSendsNew(part.conn, part.segments, g, now, cfg, s);
          SameNxt(c.tx, part.conn.tx, r.conn.tx, r.segments);
        }
      }
    }
  }

  function EstablishedBy(c: Conn, g: Segment, now: u64): Conn {
    c.(tx := UpdateWindow(ApplyAck(c.tx, c.tx.nxt, now, false).tx, g.window, now), state := Established)
  }

  lemma SameNxt(tx: Tx, tx1: Tx, tx': Tx, out: seq<Segment>)
    requires NewAreSent(tx1, tx', out) && tx1.nxt == tx.nxt
    ensures NewAreSent(tx, tx', out)
  {
    hide Off;
  }

  lemma StepTx(c: Conn, r: Update, cfg: Config, s: Stream)
    requires StepOk(c, r, cfg, s) && !r.closed
    ensures TxOk(r.conn.tx, StreamIn(r.conn, s), UnaPos(r.conn, StreamIn(r.conn, s)))
  {
    hide ConnOk, OutputOk, UnaPos;
    ConnFacts(r.conn, cfg, StreamIn(r.conn, s));
  }

  /** Only the tail of segment processing moves `nxt`. */
  lemma NxtMovers(c: Conn, g: Segment, now: u64, cfg: Config)
    requires !Input(c, g, now, cfg).closed && Input(c, g, now, cfg).conn.tx.nxt != c.tx.nxt
    ensures var r := Input(c, g, now, cfg);
            if c.state == SynReceived then
              r == FinishSegment(EstablishedBy(c, g, now), [], g, now, cfg).(accepted := true)
              && EstablishedBy(c, g, now).tx.nxt == c.tx.nxt
            else
              && Synchronized(c.state)
              && (if g.ack == None then r == FinishSegment(c, [], g, now, cfg)
                  else var part := AckPart(c, g.ack.value, g, now, cfg);
                       !part.closed && r == FinishSegment(part.conn, part.segments, g, now, cfg))
  {
    hide FinishSegment, ApplyAck, AckSegment, ResetReply, RetransmitOldest, NegotiateMss, SupportsFipsVersion, Add;
    hide SequenceSpace.After, AvailableWindow, Distance, SegmentsFor, AckedTx, RepairedTx;
    var o := ApplyAck(c.tx, c.tx.nxt, now, false);
    ApplyAckFields(c.tx, c.tx.nxt, now, false);
    NegotiatedNxt(c, g, now, cfg);
    RetransmitShape(c.tx, now, false);
  }

  lemma NegotiatedNxt(c: Conn, g: Segment, now: u64, cfg: Config)
    ensures var tx := NegotiateMss(UpdateWindow(c.tx, g.window, now), g, cfg);
            tx.nxt == c.tx.nxt && ApplyAck(tx, tx.nxt, now, false).tx.nxt == c.tx.nxt
  {
    hide FirstMss, ApplyAck;
    var tx := NegotiateMss(UpdateWindow(c.tx, g.window, now), g, cfg);
    ApplyAckFields(tx, tx.nxt, now, false);
  }

  lemma WriteSendsNew(c: Conn, data: seq<byte>, now: u64, cfg: Config, s: Stream)
    requires ConnOk(c, cfg, s) && MayWrite(c)
    ensures var r := Write(c, data, now, cfg).value; NewAreSent(c.tx, r.conn.tx, r.segments)
  {
    ConnFacts(c, cfg, s);
    hide ConnOk, CoreOk, FlushData, NewAreSent, AcceptCount;
    var accepted := data[..AcceptCount(c, data, cfg)];
    AcceptedCore(c, accepted, cfg, s);
    var c' := Accepting(c, accepted);
    FlushSendsNew(c', now, cfg, s.(bytes := s.bytes + accepted));
    SameNxt(c.tx, c'.tx, FlushData(c', now).conn.tx, FlushData(c', now).segments);
  }

  lemma CloseSendsNew(c: Conn, now: u64, cfg: Config, s: Stream)
    requires ConnOk(c, cfg, s)
    ensures var r := Close(c, now); !r.closed ==> NewAreSent(c.tx, r.conn.tx, r.segments)
  {
    ConnFacts(c, cfg, s);
    hide ConnOk, CoreOk, FlushData, NewAreSent, TxOk;
    if MaySend(c.state) {
      var c' := c.(tx := c.tx.(closeRequested := true));
      ClosingCore(c, cfg, s);
      FlushSendsNew(c', now, cfg, s);
      SameNxt(c.tx, c'.tx, FlushData(c', now).conn.tx, FlushData(c', now).segments);
    } else {
      NothingNew(c.tx, c.tx, [], s, UnaPos(c, s));
    }
  }

  lemma PollSendsNew(c: Conn, now: u64, cfg: Config, s: Stream)
    requires ConnOk(c, cfg, s)
    ensures var r := Poll(c, now, cfg); !r.closed ==> NewAreSent(c.tx, r.conn.tx, r.segments)
  {
    ConnFacts(c, cfg, s);
    hide ConnOk, CoreOk, FlushData, NewAreSent, TxOk, PollRetransmit, PollZeroWindow, ZeroWindowWork, CloseDeadline;
    hide SegmentsFor, UnaPos, PacketsOk;
    if ZeroWindowWork(c.tx) {
      ProbeSendsNew(c, now, cfg, s);
    } else {
      var c' := c.(tx := PollRetransmit(c.tx, now, cfg).tx);
      RetransmittedCore(c, now, cfg, s);
      PollRetransmitFields(c.tx, now, cfg);
      var f := FlushData(c', now);
      if Synchronized(c.state) {
        FlushSendsNew(c', now, cfg, s);
      } else {
        NoFlush(c', now);
        CoreFacts(c', cfg, s);
        NothingNew(c'.tx, c'.tx, f.segments, s, UnaPos(c', s));
      }
      MoreOutput(c.tx, c'.tx, f.conn.tx, SegmentsFor(c, PollRetransmit(c.tx, now, cfg).out), f.segments);
    }
  }

  lemma MoreOutput(tx: Tx, tx1: Tx, tx': Tx, more: seq<Segment>, out: seq<Segment>)
    requires NewAreSent(tx1, tx', out) && tx1.nxt == tx.nxt
    ensures NewAreSent(tx, tx', more + out)
  {
    hide Off;
    forall t | t in tx'.unacked && Off(tx.nxt, t.seqNo) >= 0
      ensures exists g :: g in more + out && g.seqNo == t.seqNo && g.flags == t.flags && g.payload == t.payload
    {
      var g :| g in out && g.seqNo == t.seqNo && g.flags == t.flags && g.payload == t.payload;
      assert g in more + out;
    }
  }

  /** A probe of the send queue is tracked as it is sent; a probe of the flight adds nothing. */
  lemma ProbeSendsNew(c: Conn, now: u64, cfg: Config, s: Stream)
    requires ConnOk(c, cfg, s) && ZeroWindowWork(c.tx)
    ensures var z := PollZeroWindow(c.tx, now, cfg); NewAreSent(c.tx, z.tx, SegmentsFor(c, z.out))
  {
    var z := PollZeroWindow(c.tx, now, cfg);
    ProbedCore(c, now, cfg, s);
    ConnFacts(c.(tx := z.tx), cfg, s);
    ConnFacts(c, cfg, s);
    hide ConnOk, CoreOk, TxOk, ZeroWindowWork, PacketsOk, UnaPos, SegmentFor, ProbeDelay, Off;
    if z.tx.nxt == c.tx.nxt {
      NothingNew(c.tx, z.tx, SegmentsFor(c, z.out), s, UnaPos(c, s));
    } else {
      ProbeShape(c.tx, now, cfg);
      forall t | t in z.tx.unacked && Off(c.tx.nxt, t.seqNo) >= 0
        ensures exists g :: g in SegmentsFor(c, z.out) && Carries(g, t)
      {
        if t in c.tx.unacked { OldStartsBefore(c.tx, s, UnaPos(c, s), t); }
        SegmentCarries(c, t);
        assert SegmentsFor(c, z.out)[0] == SegmentFor(c, t);
      }
    }
  }

  lemma ProbeShape(tx: Tx, now: u64, cfg: Config)
    requires PollZeroWindow(tx, now, cfg).tx.nxt != tx.nxt
    ensures var z := PollZeroWindow(tx, now, cfg); |z.out| == 1 && z.tx.unacked == tx.unacked + z.out
  {
    hide ProbeDelay;
  }

  /**
   * Whatever an operation adds to the retransmission queue, it also puts on the wire: no data and no
   * FIN waits for a timeout to be sent for the first time.
   */
  lemma TrackedIsSent(l: Life, op: Op, cfg: Config)
    requires LifeOk(l, cfg) && !l.closed && !Perform(l, op, cfg).closed
    ensures NewAreSent(l.conn.tx, Perform(l, op, cfg).conn.tx, Output(l, op, cfg))
  {
    hide ConnOk, Input, Write, Read, Close, Poll, Decode, AcceptCount, NewAreSent, StreamNow;
    var c, s := l.conn, StreamNow(l);
    ConnFacts(c, cfg, s);
    NothingNew(c.tx, c.tx, Output(l, op, cfg), s, UnaPos(c, s));
    match op
    case Arrive(bytes, now) =>
      if Decode(bytes).Ok? {
        DecodedPorts(bytes);
        InputSendsNew(c, Decode(bytes).value, now, cfg, s);
      }
    case Put(data, now) =>
      WriteAllowed(c, data, now, cfg);
      if MayWrite(c) { WriteSendsNew(c, data, now, cfg, s); }
    case Get(max) => ReadKeeps(c, max, cfg, s);
    case Shut(now) => CloseSendsNew(c, now, cfg, s);
    case Tick(now) => PollSendsNew(c, now, cfg, s);
  }
}
