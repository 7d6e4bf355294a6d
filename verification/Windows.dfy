/**
 * Flow control over whole lives: the remote window is what the peer last advertised, and new data
 * stays within it.
 */
module Windows {
  import opened Numbers
  import opened SequenceSpace
  import opened Wire
  import opened RenoControl
  import opened Types
  import opened Sender
  import opened Receiver
  import opened Delivery
  import opened SendInvariant
  import opened SendSteps
  import opened ConnectionSpec
  import opened ConnectionInvariant
  import opened ConnectionSteps
  import opened ConnectionRuns
  import opened FastRetransmit
  import opened Retries
  import opened Answers
  import opened Resets
  import Timers

  // ---------------------------------------------------------------- one input

  /** The ACK number lies in [una, nxt]. */
  predicate AcksFlight(c: Conn, g: Segment) {
    g.ack.Some? && Distance(c.tx.una, g.ack.value) <= InFlight(c.tx)
  }

  /**
   * The segment's window counts: in a synchronised state if its ACK lies in the flight, and with the
   * segment that completes the handshake.
   */
  predicate Advertises(c: Conn, g: Segment) {
    && !g.flags.rst
    && match c.state
       case SynSent =>
         g.flags.syn && g.flags.ack && g.ack == Some(c.tx.nxt) && SupportsFipsVersion(g, FIPS_VERSION)
       case SynReceived =>
         g.ack == Some(c.tx.nxt) && (g.flags.syn ==> g.flags.ack && Add(g.seqNo, 1) == c.rx.nxt)
       case _ => !g.flags.syn && AcksFlight(c, g)
  }

  /**
   * How a segment leaves window and persist timer: the first zero window arms the timer for one
   * retransmission timeout, an open one clears it.
   */
  predicate WindowMoves(tx: Tx, tx': Tx, advertised: bool, window: u16, now: u64) {
    if !advertised then tx'.window == tx.window && tx'.probeAt == tx.probeAt && tx'.probes == tx.probes
    else
      && tx'.window == window
      && (window != 0 ==> tx'.probeAt == None && tx'.probes == 0)
      && (window == 0 && tx.probeAt.Some? ==> tx'.probeAt == tx.probeAt && tx'.probes == tx.probes)
      && (window == 0 && tx.probeAt.None? ==>
            tx'.probes == tx.probes && tx'.probeAt in {Some(SatAdd(now, tx.rtt.rto)), Some(SatAdd(now, tx'.rtt.rto))})
  }

  lemma FlushWindow(c: Conn, now: u64, cfg: Config, s: Stream)
    requires CoreOk(c, cfg, s) && Synchronized(c.state)
    ensures var tx, tx' := c.tx, FlushData(c, now).conn.tx;
            && tx'.window == tx.window && tx'.probeAt == tx.probeAt && tx'.probes == tx.probes && tx'.reno == tx.reno
            && tx'.una == tx.una && tx'.rtt == tx.rtt
            && (tx'.nxt != tx.nxt ==> InFlight(tx') <= Min(tx.window, tx.reno.Window()))
  {
    CoreFacts(c, cfg, s);
    hide CoreOk, TxOk, Flush, PacketsOk, SegmentsFor, NxtPos, RenoState.Window;
    if MaySend(c.state) {
      FlushKeeps(c.tx, s, UnaPos(c, s), now);
      SilentFlush(c.tx, now);
    }
  }

  lemma SilentFlush(tx: Tx, now: u64)
    ensures Flush(tx, now).out == [] ==> Flush(tx, now).tx.nxt == tx.nxt
  {
    FlushQueueSilent(tx, now);
  }

  lemma FlushQueueSilent(tx: Tx, now: u64)
    ensures FlushQueue(tx, now).out == [] ==> FlushQueue(tx, now).tx == tx
  {
  }

  lemma FinishWindow(c: Conn, output: seq<Segment>, g: Segment, now: u64, cfg: Config, s: Stream)
    requires CoreOk(c, cfg, s) && Synchronized(c.state)
    ensures var tx, tx' := c.tx, FinishSegment(c, output, g, now, cfg).conn.tx;
            && tx'.window == tx.window && tx'.probeAt == tx.probeAt && tx'.probes == tx.probes && tx'.reno == tx.reno
            && tx'.una == tx.una && tx'.rtt == tx.rtt
            && (tx'.nxt != tx.nxt ==> InFlight(tx') <= Min(tx.window, tx.reno.Window()))
  {
    hide CoreOk, FlushData, UnaPos, Receive, AckSegment, RenoState.Window, InFlight;
    var data := g.payload != [] || g.flags.fin;
    var c' := if data then ReceiveData(c, g, now, cfg) else c;
    if data { ReceiveDataKeeps(c, g, now, cfg, s); }
    hide ReceiveData;
    FlushWindow(c', now, cfg, s);
  }

  /** An acceptable ACK is one in the flight, also after it moved `una`. */
  lemma AckedWindow(c: Conn, g: Segment, now: u64, cfg: Config, s: Stream)
    requires CoreOk(c, cfg, s) && g.ack.Some?
    ensures WindowMoves(c.tx, RepairedTx(c.tx, g.ack.value, g, now, cfg).tx, AcksFlight(c, g), g.window, now)
  {
    hide CoreOk, TxOk, QueuesOk, ApplyAck, InClosedInterval, Acceptable, SequenceSpace.After, UnaPos, Distance;
    hide InFlight;
    CoreFacts(c, cfg, s);
    var ack := g.ack.value;
    UnaWraps(c.tx, s, UnaPos(c, s));
    AckAcceptance(c.tx, s, UnaPos(c, s), ack);
    ApplyAckFields(c.tx, ack, now, IsDuplicateAckCandidate(g, c.tx.una, c.tx.window));
    InInterval(c, g, now, cfg, s);
    hide AckedTx, Repair;
    var o := AckedTx(c.tx, ack, g, now);
    var tx1 := if InClosedInterval(ack, o.tx.una, o.tx.nxt) then UpdateWindow(o.tx, g.window, now) else o.tx;
    RepairFields(tx1, now, cfg);
  }

  lemma InInterval(c: Conn, g: Segment, now: u64, cfg: Config, s: Stream)
    requires CoreOk(c, cfg, s) && g.ack.Some?
    ensures var o := AckedTx(c.tx, g.ack.value, g, now);
            InClosedInterval(g.ack.value, o.tx.una, o.tx.nxt) <==> Acceptable(c.tx, g.ack.value)
  {
    CoreFacts(c, cfg, s);
    var u := UnaPos(c, s);
    var ack := g.ack.value;
    AckMovesUna(c.tx, ack, now, IsDuplicateAckCandidate(g, c.tx.una, c.tx.window));
    if Acceptable(c.tx, ack) {
      AckWithin(c.tx, s, u, ack);
      TxFacts(c.tx, s, u);
      hide CoreOk, TxOk, Chain, Wrap, Acceptable, UnaPos, NxtPos, Distance;
      WrapOrder(u + Distance(c.tx.una, ack), NxtPos(c.tx, u));
      WrapOrder(u + Distance(c.tx.una, ack), u + Distance(c.tx.una, ack));
    }
  }

  lemma AckMovesUna(tx: Tx, ack: u32, now: u64, candidate: bool)
    ensures var o := ApplyAck(tx, ack, now, candidate);
            o.tx.nxt == tx.nxt && o.tx.una == if Acceptable(tx, ack) then ack else tx.una
  {
    hide AckedCount, PayloadIn, TrimCount, TrimFront, LastSample, HasFin, Acceptable, RenoState.OnAck, InFlight;
    hide RenoState.OnFastLoss, RenoState.OnDuplicateAck;
  }

  lemma SynSentWindow(c: Conn, g: Segment, now: u64, cfg: Config, s: Stream)
    requires ConnOk(c, cfg, s) && c.state == SynSent
    ensures WindowMoves(c.tx, Input(c, g, now, cfg).conn.tx, Advertises(c, g), g.window, now)
  {
    SynInFlight(c, cfg, s);
    if g.ack.Some? { OnlyNxt(c.tx.una, g.ack.value); }
    hide ConnOk, ApplyAck, AckSegment, ResetReply, SupportsFipsVersion, SequenceSpace.After, Add, FirstMss;
    var tx := NegotiateMss(UpdateWindow(c.tx, g.window, now), g, cfg);
    ApplyAckFields(tx, tx.nxt, now, false);
  }

  lemma SynReceivedWindow(c: Conn, g: Segment, now: u64, cfg: Config, s: Stream)
    requires ConnOk(c, cfg, s) && c.state == SynReceived
    ensures var r := Input(c, g, now, cfg); !r.closed ==> WindowMoves(c.tx, r.conn.tx, Advertises(c, g), g.window, now)
  {
    hide ConnOk, CoreOk, AckSegment, ResetReply, Add, FinishSegment, RetransmitOldest, AvailableWindow, Distance;
    hide ApplyAck, WindowMoves, UpdateWindow, SegmentsFor;
    Unmoved(c.tx, g.window, now);
    RetransmitShape(c.tx, now, false);
    MovesOn(c.tx, c.tx, RetransmitOldest(c.tx, now, false).tx, false, g.window, now);
    EstablishedCore(c, g, now, cfg, s);
    EstablishedWindow(c, g, now);
    var c' := EstablishedBy(c, g, now);
    FinishWindow(c', [], g, now, cfg, s);
    MovesOn(c.tx, c'.tx, FinishSegment(c', [], g, now, cfg).conn.tx, true, g.window, now);
  }

  lemma EstablishedWindow(c: Conn, g: Segment, now: u64)
    ensures WindowMoves(c.tx, EstablishedBy(c, g, now).tx, true, g.window, now)
  {
    hide ApplyAck;
    ApplyAckFields(c.tx, c.tx.nxt, now, false);
  }

  lemma SynchronizedWindow(c: Conn, g: Segment, now: u64, cfg: Config, s: Stream)
    requires ConnOk(c, cfg, s) && Synchronized(c.state)
    ensures var r := Input(c, g, now, cfg); !r.closed ==> WindowMoves(c.tx, r.conn.tx, Advertises(c, g), g.window, now)
  {
    hide ConnOk, CoreOk, Input, AckSegment, FinishSegment, AckedTx, RepairedTx, AvailableWindow, Distance, UnaPos;
    hide OutputOk, UnaAfter, InFlight, WindowMoves, SegmentsFor, SndPos;
    ConnFacts(c, cfg, s);
    SynchronizedInput(c, g, now, cfg);
    Unmoved(c.tx, g.window, now);
    if g.flags.rst || g.flags.syn {
    } else if g.ack == None {
      FinishWindow(c, [], g, now, cfg, s);
      MovesOn(c.tx, c.tx, FinishSegment(c, [], g, now, cfg).conn.tx, false, g.window, now);
    } else {
      AckedWindow(c, g, now, cfg, s);
      var part := AckPart(c, g.ack.value, g, now, cfg);
      AckPartKeeps(c, g.ack.value, g, now, cfg, s);
      if !part.closed {
        FinishWindow(part.conn, part.segments, g, now, cfg, s);
        var r := FinishSegment(part.conn, part.segments, g, now, cfg);
        MovesOn(c.tx, part.conn.tx, r.conn.tx, AcksFlight(c, g), g.window, now);
      }
    }
  }

  lemma Unmoved(tx: Tx, window: u16, now: u64)
    ensures WindowMoves(tx, tx, false, window, now)
  {
  }

  lemma MovesOn(tx: Tx, tx1: Tx, tx': Tx, advertised: bool, window: u16, now: u64)
    requires WindowMoves(tx, tx1, advertised, window, now)
    requires tx'.window == tx1.window && tx'.probeAt == tx1.probeAt && tx'.probes == tx1.probes
    requires advertised ==> tx'.rtt.rto == tx1.rtt.rto
    ensures WindowMoves(tx, tx', advertised, window, now)
  {
  }

  /**
   * For every segment: the remote window becomes exactly what the segment advertises if its ACK lies
   * in the flight or completes the handshake, and is left alone by any other; the persist timer runs
   * exactly from the first zero window to the next open one.
   */
  lemma InputWindow(c: Conn, g: Segment, now: u64, cfg: Config, s: Stream)
    requires ConnOk(c, cfg, s)
    ensures var r := Input(c, g, now, cfg); !r.closed ==> WindowMoves(c.tx, r.conn.tx, Advertises(c, g), g.window, now)
  {
    hide ConnOk, Input, Advertises, WindowMoves;
    match c.state
    case SynSent => SynSentWindow(c, g, now, cfg, s);
    case SynReceived => SynReceivedWindow(c, g, now, cfg, s);
    case _ => SynchronizedWindow(c, g, now, cfg, s);
  }

  // ---------------------------------------------------------------- whole lives

  /** The window field of the last segment that counted, after a first window. */
  function Advertised(l: Life, ops: seq<Op>, cfg: Config): u16
    decreases |ops|
  {
    if ops == [] then l.conn.tx.window
    else
      var before, op := Live(l, ops[..|ops| - 1], cfg), ops[|ops| - 1];
      if op.Arrive? && Decode(op.bytes).Ok? && Advertises(before.conn, Decode(op.bytes).value)
      then Decode(op.bytes).value.window
      else Advertised(l, ops[..|ops| - 1], cfg)
  }

  /** The first window is that of the peer's SYN, or not yet known. */
  lemma FirstWindow(localPort: u16, remotePort: u16, syn: Segment, isn: u32, now: u64, cfg: Config)
    ensures Client(localPort, remotePort, isn, now, cfg).conn.tx.window == 0xFFFF
    ensures Server(syn, isn, now, cfg).conn.tx.window == syn.window
  {
    hide RenoControl.Initial, RttEstimation.Initial, FirstMss, SegmentFor, Tracked.End;
  }

  lemma OpWindow(l: Life, op: Op, cfg: Config)
    requires LifeOk(l, cfg) && !l.closed && !Perform(l, op, cfg).closed
    ensures Perform(l, op, cfg).conn.tx.window
         == if op.Arrive? && Decode(op.bytes).Ok? && Advertises(l.conn, Decode(op.bytes).value)
            then Decode(op.bytes).value.window else l.conn.tx.window
  {
    hide ConnOk, Input, Write, Read, Close, Poll, Decode, AcceptCount, StreamNow, Advertises;
    var c, s := l.conn, StreamNow(l);
    match op
    case Arrive(bytes, now) => if Decode(bytes).Ok? { InputWindow(c, Decode(bytes).value, now, cfg, s); }
    case Put(data, now) =>
      WriteAllowed(c, data, now, cfg);
      if MayWrite(c) { WriteWindow(c, data, now, cfg, s); }
    case Get(max) => ReadKeeps(c, max, cfg, s);
    case Shut(now) => CloseWindow(c, now, cfg, s);
    case Tick(now) => PollWindow(c, now, cfg, s);
  }

  /** Window kept, and any new sequence space within the windows. */
  predicate WithinWindows(tx: Tx, tx': Tx) {
    && tx'.window == tx.window
    && (tx'.nxt != tx.nxt ==> InFlight(tx') <= Min(tx'.window, tx'.reno.Window()))
  }

  lemma WriteWindow(c: Conn, data: seq<byte>, now: u64, cfg: Config, s: Stream)
    requires ConnOk(c, cfg, s) && MayWrite(c)
    ensures WithinWindows(c.tx, Write(c, data, now, cfg).value.conn.tx)
  {
    ConnFacts(c, cfg, s);
    hide ConnOk, CoreOk, FlushData, AcceptCount, RenoState.Window, InFlight;
    var accepted := data[..AcceptCount(c, data, cfg)];
    AcceptedCore(c, accepted, cfg, s);
    FlushWindow(Accepting(c, accepted), now, cfg, s.(bytes := s.bytes + accepted));
  }

  lemma CloseWindow(c: Conn, now: u64, cfg: Config, s: Stream)
    requires ConnOk(c, cfg, s)
    ensures WithinWindows(c.tx, Close(c, now).conn.tx)
  {
    ConnFacts(c, cfg, s);
    hide ConnOk, CoreOk, FlushData, RenoState.Window, InFlight;
    if MaySend(c.state) {
      ClosingCore(c, cfg, s);
      FlushWindow(c.(tx := c.tx.(closeRequested := true)), now, cfg, s);
    }
  }

  lemma PollWindow(c: Conn, now: u64, cfg: Config, s: Stream)
    requires ConnOk(c, cfg, s)
    ensures var r := Poll(c, now, cfg);
            !r.closed ==> r.conn.tx.window == c.tx.window && (ZeroWindowWork(c.tx) || WithinWindows(c.tx, r.conn.tx))
  {
    ConnFacts(c, cfg, s);
    hide ConnOk, CoreOk, FlushData, PollRetransmit, PollZeroWindow, ZeroWindowWork, CloseDeadline, SegmentsFor;
    hide InFlight, RenoState.Window, UnaPos, PacketsOk;
    if ZeroWindowWork(c.tx) {
      Timers.ZeroWindow(c.tx);
      PollZeroWindowShape(c.tx, now, cfg);
    } else {
      var c' := c.(tx := PollRetransmit(c.tx, now, cfg).tx);
      RetransmittedCore(c, now, cfg, s);
      PollRetransmitFields(c.tx, now, cfg);
      if Synchronized(c.state) {
        FlushWindow(c', now, cfg, s);
      } else {
        NoFlush(c', now);
      }
    }
  }

  /** In every life the remote window is what the peer last advertised in a segment that counted. */
  lemma {:induction false} WindowIsAdvertised(l: Life, ops: seq<Op>, cfg: Config)
    requires LifeOk(l, cfg) && !l.closed && !Live(l, ops, cfg).closed
    ensures Live(l, ops, cfg).conn.tx.window == Advertised(l, ops, cfg)
    decreases |ops|
  {
    hide LifeOk, Perform, Advertises, Decode;
    if ops != [] {
      var front, op := ops[..|ops| - 1], ops[|ops| - 1];
      LiveSnoc(l, ops, cfg);
      PrefixOpen(Live(l, front, cfg), op, cfg);
      WindowIsAdvertised(l, front, cfg);
      EveryLifeKeeps(l, front, cfg);
      OpWindow(Live(l, front, cfg), op, cfg);
    }
  }

  lemma OpWithin(l: Life, op: Op, cfg: Config)
    requires LifeOk(l, cfg) && !l.closed && !Perform(l, op, cfg).closed && !Probing(l, op)
    ensures var tx, tx' := l.conn.tx, Perform(l, op, cfg).conn.tx;
            tx'.nxt != tx.nxt ==> InFlight(tx') <= Min(tx'.window, tx'.reno.Window())
  {
    hide ConnOk, Input, Write, Read, Close, Poll, Decode, AcceptCount, StreamNow, InFlight, RenoState.Window;
    hide ZeroWindowWork;
    var c, s := l.conn, StreamNow(l);
    match op
    case Arrive(bytes, now) =>
      if Decode(bytes).Ok? { InputWithin(c, Decode(bytes).value, now, cfg, s); }
    case Put(data, now) =>
      WriteAllowed(c, data, now, cfg);
      if MayWrite(c) { WriteWindow(c, data, now, cfg, s); }
    case Get(max) => ReadKeeps(c, max, cfg, s);
    case Shut(now) => CloseWindow(c, now, cfg, s);
    case Tick(now) => PollWindow(c, now, cfg, s);
  }

  lemma InputWithin(c: Conn, g: Segment, now: u64, cfg: Config, s: Stream)
    requires ConnOk(c, cfg, s) && !Input(c, g, now, cfg).closed
    ensures var tx' := Input(c, g, now, cfg).conn.tx;
            tx'.nxt != c.tx.nxt ==> InFlight(tx') <= Min(tx'.window, tx'.reno.Window())
  {
    hide ConnOk, CoreOk, Input, FinishSegment, AckPart, UnaPos, SndPos, OutputOk, UnaAfter, InFlight, RenoState.Window;
    if Input(c, g, now, cfg).conn.tx.nxt != c.tx.nxt {
      NxtMovers(c, g, now, cfg);
      if c.state == SynReceived {
        EstablishedCore(c, g, now, cfg, s);
        FinishWindow(EstablishedBy(c, g, now), [], g, now, cfg, s);
      } else if g.ack == None {
        ConnFacts(c, cfg, s);
        FinishWindow(c, [], g, now, cfg, s);
      } else {
        ConnFacts(c, cfg, s);
        var part := AckPart(c, g.ack.value, g, now, cfg);
        AckPartKeeps(c, g.ack.value, g, now, cfg, s);
        AckPartNxt(c, g.ack.value, g, now, cfg, s);
        FinishWindow(part.conn, part.segments, g, now, cfg, s);
      }
    }
  }

  /**
   * Flow control: whatever operation sends new sequence space, probes of a zero window apart, leaves
   * no more in flight than the window the peer last advertised, and than the congestion window.
   */
  lemma NewDataFitsWindow(l: Life, ops: seq<Op>, op: Op, cfg: Config)
    requires LifeOk(l, cfg) && !l.closed && !Live(l, ops + [op], cfg).closed && !Probing(Live(l, ops, cfg), op)
    ensures var tx, tx' := Live(l, ops, cfg).conn.tx, Live(l, ops + [op], cfg).conn.tx;
            tx'.nxt != tx.nxt ==> InFlight(tx') <= Min(Advertised(l, ops + [op], cfg), tx'.reno.cwnd)
  {
    hide LifeOk, Perform, Advertised, Probing, InFlight, RenoState.Window;
    LiveSnoc(l, ops + [op], cfg);
    assert (ops + [op])[..|ops|] == ops;
    var before := Live(l, ops, cfg);
    PrefixOpen(before, op, cfg);
    EveryLifeKeeps(l, ops, cfg);
    OpWithin(before, op, cfg);
    OpKeeps(before, op, cfg);
    WholeWindow(Live(l, ops + [op], cfg), cfg);
    WindowIsAdvertised(l, ops + [op], cfg);
  }

  lemma WholeWindow(l: Life, cfg: Config)
    requires LifeOk(l, cfg)
    ensures l.conn.tx.reno.Window() == l.conn.tx.reno.cwnd
  {
    ConnFacts(l.conn, cfg, StreamNow(l));
    hide ConnOk;
  }

  /**
   * In every life nothing waits that could be sent: while bytes or a close are queued, what is in
   * flight fills the remote or the congestion window.
   */
  lemma NothingWaits(l: Life, cfg: Config)
    requires Reached(l, cfg)
    ensures var tx := l.conn.tx;
            tx.queue != [] || tx.closeRequested ==> InFlight(tx) >= Min(tx.window, tx.reno.cwnd)
  {
    hide Reached, LifeOk, ConnOk, CoreOk, TxOk, UnaPos, InFlight, RenoState.Window;
    ReachedOk(l, cfg);
    var c, s := l.conn, StreamNow(l);
    ConnFacts(c, cfg, s);
    WholeWindow(l, cfg);
    if FinMade(c.state) {
      FinFacts(c, cfg, s);
    } else if !Synchronized(c.state) {
      UnaInHandshake(c, cfg, s);
      QueueIsStream(l, cfg);
    }
  }
}
