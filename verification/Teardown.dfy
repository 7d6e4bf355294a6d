/**
 * Closing: what each state says about both FINs, the only ways from state to state, the deadlines of
 * the closing states, and that a requested close is carried out.
 */
module Teardown {
  import opened Numbers
  import opened SequenceSpace
  import opened Wire
  import opened Types
  import opened Sender
  import opened Receiver
  import opened SendInvariant
  import opened ConnectionSpec
  import opened ConnectionInvariant
  import opened ConnectionSteps
  import opened ConnectionRuns
  import opened Answers

  // ---------------------------------------------------------------- states and FINs

  /**
   * In every life the state says exactly whether our FIN was made and acknowledged, and whether the
   * peer's was consumed; only CLOSING and LAST-ACK, which differ in who closed first, agree in all
   * three.
   */
  lemma StatesTellBothFins(l: Life, cfg: Config)
    requires Reached(l, cfg)
    ensures var c := l.conn; var pending := HasFin(c.tx.unacked);
            && (c.rx.closed <==> c.state in {CloseWait, Closing, LastAck, TimeWait})
            && (c.state == FinWait1 <==> pending && !c.rx.closed)
            && (c.state in {Closing, LastAck} <==> pending && c.rx.closed)
            && (c.state in {State.FinWait2, TimeWait} ==> c.tx.unacked == [] && c.tx.queue == [])
            && (c.state == TimeWait <==> c.rx.closed && FinAcked(c.state))
  {
    hide *;
    ReachedOk(l, cfg);
    ConnFacts(l.conn, cfg, StreamNow(l));
    FinShape(l.conn, cfg, StreamNow(l));
    FinTable(l.conn);
  }

  lemma FinTable(c: Conn)
    requires c.rx.closed == PeerDone(c.state)
    requires c.state in {FinWait1, Closing, LastAck} <==> HasFin(c.tx.unacked)
    requires c.state in {State.FinWait2, TimeWait} ==> c.tx.unacked == [] && c.tx.queue == []
    ensures var pending := HasFin(c.tx.unacked);
            && (c.rx.closed <==> c.state in {CloseWait, Closing, LastAck, TimeWait})
            && (c.state == FinWait1 <==> pending && !c.rx.closed)
            && (c.state in {Closing, LastAck} <==> pending && c.rx.closed)
            && (c.state in {State.FinWait2, TimeWait} ==> c.tx.unacked == [] && c.tx.queue == [])
            && (c.state == TimeWait <==> c.rx.closed && FinAcked(c.state))
  {
    hide HasFin;
  }

  // ---------------------------------------------------------------- transitions and deadlines

  /** The ways from state to state in one operation, and the deadlines set on the way. */
  predicate Moves(c: Conn, c': Conn, now: u64, cfg: Config) {
    match c'.state
    case SynSent => c.state == SynSent
    case SynReceived => c.state == SynReceived
    case Established => c.state in {SynSent, SynReceived, Established}
    case FinWait1 => c.state in {SynReceived, Established, FinWait1}
    case CloseWait => c.state in {SynReceived, Established, CloseWait}
    case Closing => c.state in {FinWait1, Closing}
    case LastAck => c.state in {SynReceived, Established, CloseWait, LastAck}
    case FinWait2 =>
      if c.state == State.FinWait2 then c'.finWait2Until == c.finWait2Until
      else c.state == FinWait1 && c'.finWait2Until == Some(SatAdd(now, cfg.finWait2))
    case TimeWait =>
      if c.state == TimeWait then c'.timeWaitUntil == c.timeWaitUntil
      else c.state in {FinWait1, State.FinWait2, Closing} && c'.timeWaitUntil == Some(SatAdd(now, cfg.timeWait))
  }

  lemma FinishMoves(c: Conn, output: seq<Segment>, g: Segment, now: u64, cfg: Config)
    ensures var c' := FinishSegment(c, output, g, now, cfg).conn;
            match c.state
            case Established => c'.state in {Established, CloseWait, FinWait1, LastAck}
            case CloseWait => c'.state in {CloseWait, LastAck}
            case FinWait1 => c'.state in {FinWait1, Closing}
            case FinWait2 => (c'.state == State.FinWait2 && c'.finWait2Until == c.finWait2Until)
                             || (c'.state == TimeWait && c'.timeWaitUntil == Some(SatAdd(now, cfg.timeWait)))
            case _ => c'.state == c.state && c'.timeWaitUntil == c.timeWaitUntil
  {
    hide Receive, Flush, SegmentsFor, AckSegment;
  }

  lemma AckMoves(c: Conn, ack: u32, g: Segment, now: u64, cfg: Config)
    ensures var c' := AckPart(c, ack, g, now, cfg).conn;
            match c.state
            case FinWait1 => c'.state == FinWait1
                             || (c'.state == State.FinWait2 && c'.finWait2Until == Some(SatAdd(now, cfg.finWait2)))
            case Closing => c'.state == Closing
                            || (c'.state == TimeWait && c'.timeWaitUntil == Some(SatAdd(now, cfg.timeWait)))
            case _ => c'.state == c.state && c'.finWait2Until == c.finWait2Until && c'.timeWaitUntil == c.timeWaitUntil
  {
    hide AckedTx, RepairedTx, SegmentsFor;
  }

  lemma InputMoves(c: Conn, g: Segment, now: u64, cfg: Config)
    ensures Moves(c, Input(c, g, now, cfg).conn, now, cfg)
  {
    hide ApplyAck, AckSegment, RetransmitOldest, NegotiateMss, UpdateWindow, ResetReply, Add, FinishSegment, AckPart;
    hide AvailableWindow, Distance, SupportsFipsVersion, SegmentsFor, StaleHandshakeAck, UnexpectedSyn;
    hide SequenceSpace.After;
    FinishMoves(c, [], g, now, cfg);
    FinishMoves(EstablishedBy(c, g, now), [], g, now, cfg);
    if g.ack.Some? {
      var part := AckPart(c, g.ack.value, g, now, cfg);
      AckMoves(c, g.ack.value, g, now, cfg);
      FinishMoves(part.conn, part.segments, g, now, cfg);
    }
  }

  lemma LocalMoves(c: Conn, data: seq<byte>, max: nat, now: u64, cfg: Config)
    ensures Write(c, data, now, cfg).Ok? ==> Moves(c, Write(c, data, now, cfg).value.conn, now, cfg)
    ensures Moves(c, Read(c, max).conn, now, cfg) && Moves(c, Close(c, now).conn, now, cfg)
  {
    hide Flush, SegmentsFor, AcceptCount, ReadCount, AckSegment, AvailableWindow;
  }

  lemma PollMoves(c: Conn, now: u64, cfg: Config)
    ensures Moves(c, Poll(c, now, cfg).conn, now, cfg)
  {
    hide Flush, SegmentsFor, PollZeroWindow, PollRetransmit, ZeroWindowWork, CloseDeadline;
  }

  /** The time an operation is given; reading takes none and changes no state. */
  function TimeOf(op: Op): u64 {
    match op
    case Arrive(_, now) => now
    case Put(_, now) => now
    case Get(_) => 0
    case Shut(now) => now
    case Tick(now) => now
  }

  /**
   * Every operation moves the state only along the connection state diagram (section 3.3.2 of RFC
   * 9293): CLOSING follows FIN-WAIT-1 alone and LAST-ACK a FIN of the peer before ours; FIN-WAIT-2 and
   * TIME-WAIT get their deadline when they are entered and keep it.
   */
  lemma OpMoves(l: Life, op: Op, cfg: Config)
    ensures Moves(l.conn, Perform(l, op, cfg).conn, TimeOf(op), cfg)
  {
    hide Input, Write, Read, Close, Poll, Decode, AcceptCount;
    match op
    case Arrive(bytes, now) => if Decode(bytes).Ok? { InputMoves(l.conn, Decode(bytes).value, now, cfg); }
    case Put(data, now) => LocalMoves(l.conn, data, 0, now, cfg);
    case Get(max) => LocalMoves(l.conn, [], max, 0, cfg);
    case Shut(now) => LocalMoves(l.conn, [], 0, now, cfg);
    case Tick(now) => PollMoves(l.conn, now, cfg);
  }

  // ---------------------------------------------------------------- a requested close

  /** The close is requested or carried out. */
  predicate CloseUnderWay(c: Conn) {
    c.tx.closeRequested || FinMade(c.state)
  }

  lemma FlushKeepsClose(c: Conn, now: u64)
    ensures CloseUnderWay(c) ==> CloseUnderWay(FlushData(c, now).conn)
  {
    hide FlushQueue, SegmentsFor, Room;
    FlushQueueFlags(c.tx, now);
  }

  lemma {:induction false} FlushQueueFlags(tx: Tx, now: u64)
    ensures FlushQueue(tx, now).tx.closeRequested == tx.closeRequested
    decreases |tx.queue|
  {
    hide Room;
    if Room(tx) != 0 && tx.queue != [] {
      FlushQueueFlags(SendNext(tx, now), now);
    }
  }

  lemma FinishKeepsClose(c: Conn, output: seq<Segment>, g: Segment, now: u64, cfg: Config)
    ensures CloseUnderWay(c) ==> CloseUnderWay(FinishSegment(c, output, g, now, cfg).conn)
  {
    hide FlushData, Receive, AckSegment;
    FlushKeepsClose(if g.payload != [] || g.flags.fin then ReceiveData(c, g, now, cfg) else c, now);
  }

  lemma InputKeepsClose(c: Conn, g: Segment, now: u64, cfg: Config)
    requires Synchronized(c.state) && CloseUnderWay(c)
    ensures CloseUnderWay(Input(c, g, now, cfg).conn)
  {
    hide FinishSegment, AckSegment, ResetReply, AckedTx, RepairedTx, AvailableWindow, Distance, SegmentsFor;
    FinishKeepsClose(c, [], g, now, cfg);
    if g.ack.Some? {
      AckKeepsClose(c.tx, g.ack.value, g, now, cfg);
      var part := AckPart(c, g.ack.value, g, now, cfg);
      FinishKeepsClose(part.conn, part.segments, g, now, cfg);
    }
  }

  lemma AckKeepsClose(tx: Tx, ack: u32, g: Segment, now: u64, cfg: Config)
    ensures AckedTx(tx, ack, g, now).tx.closeRequested == tx.closeRequested
    ensures RepairedTx(tx, ack, g, now, cfg).tx.closeRequested == tx.closeRequested
  {
    hide ApplyAck, InClosedInterval, SequenceSpace.After, RetransmitOldest;
    var o := AckedTx(tx, ack, g, now);
    ApplyAckFields(tx, ack, now, IsDuplicateAckCandidate(g, tx.una, tx.window));
    var tx1 := if InClosedInterval(ack, o.tx.una, o.tx.nxt) then UpdateWindow(o.tx, g.window, now) else o.tx;
    RepairFields(tx1, now, cfg);
  }

  lemma PollKeepsClose(c: Conn, now: u64, cfg: Config)
    requires CloseUnderWay(c)
    ensures CloseUnderWay(Poll(c, now, cfg).conn)
  {
    hide FlushData, SegmentsFor, PollRetransmit, ZeroWindowWork, CloseDeadline;
    PollRetransmitFields(c.tx, now, cfg);
    FlushKeepsClose(c.(tx := PollRetransmit(c.tx, now, cfg).tx), now);
    ProbeKeepsFlag(c.tx, now, cfg);
    hide PollZeroWindow;
  }

  lemma ProbeKeepsFlag(tx: Tx, now: u64, cfg: Config)
    ensures PollZeroWindow(tx, now, cfg).tx.closeRequested == tx.closeRequested
  {
    hide ProbeDelay;
  }

  lemma OpKeepsClose(l: Life, op: Op, cfg: Config)
    requires Synchronized(l.conn.state) && CloseUnderWay(l.conn)
    ensures var l' := Perform(l, op, cfg); CloseUnderWay(l'.conn) && l'.sent == l.sent
  {
    hide Input, Poll, Decode, AcceptCount, FlushData, ReadCount, AvailableWindow, AckSegment;
    match op
    case Arrive(bytes, now) => if Decode(bytes).Ok? { InputKeepsClose(l.conn, Decode(bytes).value, now, cfg); }
    case Put(data, now) =>
    case Get(max) =>
    case Shut(now) => FlushKeepsClose(l.conn.(tx := l.conn.tx.(closeRequested := true)), now);
    case Tick(now) => PollKeepsClose(l.conn, now, cfg);
  }

  /** After a close the connection writes no more, and its FIN is made as soon as all data is sent and there is room. */
  lemma {:induction false} CloseTakesEffect(l: Life, now: u64, ops: seq<Op>, cfg: Config)
    requires LifeOk(l, cfg) && !l.closed && MaySend(l.conn.state)
    requires !Live(Perform(l, Shut(now), cfg), ops, cfg).closed
    ensures var l' := Live(Perform(l, Shut(now), cfg), ops, cfg);
            && l'.sent == l.sent
            && (FinMade(l'.conn.state)
                || (l'.conn.tx.closeRequested && (l'.conn.tx.queue != [] || Room(l'.conn.tx) == 0)))
  {
    hide LifeOk, Perform, Room;
    ShutRequests(l, now, cfg);
    var l1 := Perform(l, Shut(now), cfg);
    OpKeeps(l, Shut(now), cfg);
    StaysUnderWay(l1, ops, cfg);
    EveryLifeKeeps(l1, ops, cfg);
    QuietLife(Live(l1, ops, cfg), cfg);
  }

  lemma ShutRequests(l: Life, now: u64, cfg: Config)
    requires LifeOk(l, cfg) && !l.closed && MaySend(l.conn.state)
    ensures var l1 := Perform(l, Shut(now), cfg);
            !l1.closed && CloseUnderWay(l1.conn) && Synchronized(l1.conn.state) && l1.sent == l.sent
  {
    hide LifeOk, Flush, SegmentsFor;
    FlushKeepsClose(l.conn.(tx := l.conn.tx.(closeRequested := true)), now);
  }

  lemma {:induction false} StaysUnderWay(l: Life, ops: seq<Op>, cfg: Config)
    requires Synchronized(l.conn.state) && CloseUnderWay(l.conn)
    ensures var l' := Live(l, ops, cfg); CloseUnderWay(l'.conn) && l'.sent == l.sent
    decreases |ops|
  {
    hide Perform;
    if ops != [] {
      OpKeepsClose(l, ops[0], cfg);
      OpMoves(l, ops[0], cfg);
      StaysUnderWay(Perform(l, ops[0], cfg), ops[1..], cfg);
    }
  }

  lemma QuietLife(l: Life, cfg: Config)
    requires LifeOk(l, cfg)
    ensures l.conn.tx.closeRequested ==> l.conn.tx.queue != [] || Room(l.conn.tx) == 0
  {
    ConnFacts(l.conn, cfg, StreamNow(l));
    hide ConnOk, CoreOk, TxOk, Room;
  }
}
