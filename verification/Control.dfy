/**
 * The congestion controller inside a connection: over a whole life it takes exactly the events that
 * acknowledgements and timeouts stand for.
 */
module Control {
  import opened Numbers
  import opened SequenceSpace
  import opened Wire
  import opened RenoControl
  import opened Types
  import opened Sender
  import opened Receiver
  import opened Delivery
  import opened SendInvariant
  import opened ConnectionSpec
  import opened ConnectionInvariant
  import opened ConnectionSteps
  import opened ConnectionRuns
  import opened FastRetransmit
  import opened Retries
  import opened Answers
  import opened Windows

  // ---------------------------------------------------------------- congestion events

  /** What an ACK in a synchronised state means to congestion control. */
  function AckEvents(c: Conn, g: Segment, acked: nat): seq<RenoEvent> {
    if Qualifies(c, g) then
      [RenoEvent.Duplicate] + (if c.tx.duplicateAcks == 2 then [RenoEvent.FastLoss(InFlight(c.tx))] else [])
    else if acked > 0 then [RenoEvent.Acked(acked)]
    else []
  }

  /**
   * What an operation means to congestion control, read off what anyone can see of it: payload newly
   * acknowledged, qualifying duplicates, a retransmission timeout, and the negotiated segment size.
   */
  function Events(l: Life, op: Op, cfg: Config): seq<RenoEvent> {
    var l' := Perform(l, op, cfg);
    match op
    case Arrive(bytes, _) =>
      if Decode(bytes).Err? then []
      else if l.conn.state == SynSent then
        if l'.conn.state == SynSent then [] else [RenoEvent.Negotiated(l'.conn.tx.mss)]
      else if Synchronized(l.conn.state) then
        AckEvents(l.conn, Decode(bytes).value, SatSub(l'.conn.tx.acked, l.conn.tx.acked))
      else []
    case Tick(now) => if TimerResends(l.conn, now, cfg) then [RenoEvent.Timeout(InFlight(l.conn.tx))] else []
    case _ => []
  }

  lemma NoEvents(r: RenoState)
    ensures RenoRun(r, []) == r
  {
  }

  lemma OneEvent(r: RenoState, e: RenoEvent)
    ensures RenoRun(r, [e]) == OnEvent(r, e)
  {
    assert [e][1..] == [];
  }

  lemma TwoEvents(r: RenoState, e: RenoEvent, f: RenoEvent)
    ensures RenoRun(r, [e, f]) == OnEvent(OnEvent(r, e), f)
  {
    assert [e, f][1..] == [f];
    OneEvent(OnEvent(r, e), f);
  }

  /** What one ACK number does to congestion control. */
  lemma AckedReno(tx: Tx, ack: u32, now: u64, candidate: bool)
    ensures var o := ApplyAck(tx, ack, now, candidate);
            && tx.acked <= o.tx.acked && (!Acceptable(tx, ack) || ack == tx.una ==> o.tx.acked == tx.acked)
            && o.tx.reno == (if !Acceptable(tx, ack) then tx.reno
                             else if ack != tx.una then tx.reno.OnAck(o.tx.acked - tx.acked)
                             else if !candidate || tx.unacked == [] then tx.reno
                             else if tx.duplicateAcks == 2 then tx.reno.OnDuplicateAck().OnFastLoss(InFlight(tx))
                             else tx.reno.OnDuplicateAck())
  {
    hide AckedCount, PayloadIn, TrimCount, TrimFront, LastSample, HasFin, Acceptable, RenoState.OnAck, Distance;
    hide RenoState.OnFastLoss, RenoState.OnDuplicateAck;
  }

  lemma RepairedReno(tx: Tx, ack: u32, g: Segment, now: u64, cfg: Config)
    ensures var o := AckedTx(tx, ack, g, now); var r := RepairedTx(tx, ack, g, now, cfg);
            r.tx.reno == o.tx.reno && r.tx.acked == o.tx.acked
  {
    hide ApplyAck, InClosedInterval, SequenceSpace.After, IsDuplicateAckCandidate;
  }

  lemma ArriveReno(c: Conn, g: Segment, now: u64, cfg: Config, s: Stream)
    requires ConnOk(c, cfg, s) && Synchronized(c.state)
    ensures var r := Input(c, g, now, cfg);
            !r.closed ==>
              c.tx.acked <= r.conn.tx.acked
              && r.conn.tx.reno == RenoRun(c.tx.reno, AckEvents(c, g, r.conn.tx.acked - c.tx.acked))
  {
    hide ConnOk, CoreOk, AckPart, FinishSegment, AckSegment, AckEvents, UnaPos, OutputOk, UnaAfter, SndPos;
    ConnFacts(c, cfg, s);
    var tx := c.tx;
    NothingMeans(c, g);
    if g.flags.rst || g.flags.syn {
    } else if g.ack == None {
      FinishWindow(c, [], g, now, cfg, s);
      FinishAcked(c, [], g, now, cfg);
    } else {
      var ack := g.ack.value;
      var part := AckPart(c, ack, g, now, cfg);
      AckPartKeeps(c, ack, g, now, cfg, s);
      AckPartEvents(c, g, now, cfg, s);
      if !part.closed {
        FinishWindow(part.conn, part.segments, g, now, cfg, s);
        FinishAcked(part.conn, part.segments, g, now, cfg);
      }
    }
  }

  /** A reset, a SYN or a segment without ACK means nothing to congestion control. */
  lemma NothingMeans(c: Conn, g: Segment)
    ensures g.flags.rst || g.flags.syn || g.ack == None ==> RenoRun(c.tx.reno, AckEvents(c, g, 0)) == c.tx.reno
  {
    NoSynCandidate(c, g);
    NoEvents(c.tx.reno);
    if g.ack == None { NoAckCandidate(c, g); }
    hide IsDuplicateAckCandidate;
  }

  lemma AckPartEvents(c: Conn, g: Segment, now: u64, cfg: Config, s: Stream)
    requires ConnOk(c, cfg, s) && Synchronized(c.state) && !g.flags.rst && !g.flags.syn && g.ack.Some?
    ensures var part := AckPart(c, g.ack.value, g, now, cfg);
            && c.tx.acked <= part.conn.tx.acked
            && part.conn.tx.reno == RenoRun(c.tx.reno, AckEvents(c, g, part.conn.tx.acked - c.tx.acked))
  {
    hide ConnOk, Acceptable, ApplyAck, RepairedTx, SegmentsFor, InFlight, RenoState.OnAck, RenoState.OnDuplicateAck;
    hide RenoState.OnFastLoss, IsDuplicateAckCandidate;
    UnaAcceptable(c, cfg, s);
    var tx, ack := c.tx, g.ack.value;
    var candidate := IsDuplicateAckCandidate(g, tx.una, tx.window);
    AckedReno(tx, ack, now, candidate);
    RepairedReno(tx, ack, g, now, cfg);
    CandidateAcksUna(c, g);
    QualifiesIs(c, g);
    var b := ApplyAck(tx, ack, now, candidate).tx.acked - tx.acked;
    NoEvents(tx.reno);
    OneEvent(tx.reno, RenoEvent.Duplicate);
    TwoEvents(tx.reno, RenoEvent.Duplicate, RenoEvent.FastLoss(InFlight(tx)));
    NothingAcked(tx.reno);
    OneEvent(tx.reno, RenoEvent.Acked(b));
    assert [RenoEvent.Duplicate] + [RenoEvent.FastLoss(InFlight(tx))]
        == [RenoEvent.Duplicate, RenoEvent.FastLoss(InFlight(tx))];
    assert [RenoEvent.Duplicate] + [] == [RenoEvent.Duplicate];
  }

  lemma NothingAcked(r: RenoState)
    ensures r.OnAck(0) == r
  {
  }

  lemma CandidateAcksUna(c: Conn, g: Segment)
    ensures IsDuplicateAckCandidate(g, c.tx.una, c.tx.window) ==> g.ack == Some(c.tx.una)
  {
  }

  lemma {:induction false} FlushQueueAcked(tx: Tx, now: u64)
    ensures FlushQueue(tx, now).tx.acked == tx.acked
    decreases |tx.queue|
  {
    hide Room;
    if Room(tx) != 0 && tx.queue != [] {
      FlushQueueAcked(SendNext(tx, now), now);
    }
  }

  lemma FinishAcked(c: Conn, output: seq<Segment>, g: Segment, now: u64, cfg: Config)
    ensures FinishSegment(c, output, g, now, cfg).conn.tx.acked == c.tx.acked
  {
    FlushQueueAcked(c.tx, now);
    hide FlushQueue, Room, Receive, AckSegment, SegmentsFor;
  }

  lemma SynSentReno(c: Conn, g: Segment, now: u64, cfg: Config, s: Stream)
    requires ConnOk(c, cfg, s) && c.state == SynSent
    ensures var c' := Input(c, g, now, cfg).conn;
            c'.tx.reno == RenoRun(c.tx.reno, if c'.state == SynSent then [] else [RenoEvent.Negotiated(c'.tx.mss)])
  {
    UnaInHandshake(c, cfg, s);
    NegotiatedSender(c, g, now, cfg, s);
    var tx := NegotiateMss(UpdateWindow(c.tx, g.window, now), g, cfg);
    HandshakeAck(c, cfg, s, tx, now);
    AckedReno(tx, tx.nxt, now, false);
    ApplyAckFields(tx, tx.nxt, now, false);
    NegotiatedReno(c.tx, g, now, cfg);
    NothingAcked(tx.reno);
    NoEvents(c.tx.reno);
    OneEvent(c.tx.reno, RenoEvent.Negotiated(tx.mss));
    hide ConnOk, CoreOk, TxOk, ApplyAck, NegotiateMss, UpdateWindow, StaleHandshakeAck, ResetReply, AckSegment, Add;
    hide SupportsFipsVersion, RenoState.OnAck, RenoState.SetMss, Acceptable, SequenceSpace.After, UnaPos, InFlight;
    hide Distance;
  }

  lemma NegotiatedReno(tx: Tx, g: Segment, now: u64, cfg: Config)
    ensures var tx' := NegotiateMss(UpdateWindow(tx, g.window, now), g, cfg);
            tx'.reno == tx.reno.SetMss(tx'.mss) && tx'.acked == tx.acked
  {
    hide FirstMss;
  }

  lemma SynReceivedReno(c: Conn, g: Segment, now: u64, cfg: Config, s: Stream)
    requires ConnOk(c, cfg, s) && c.state == SynReceived
    ensures Input(c, g, now, cfg).conn.tx.reno == c.tx.reno
  {
    EstablishedCore(c, g, now, cfg, s);
    EstablishedReno(c, g, now, cfg, s);
    hide ConnOk, CoreOk, FinishSegment, UpdateWindow, ResetReply, AckSegment, Add, AvailableWindow, Distance;
    FinishWindow(EstablishedBy(c, g, now), [], g, now, cfg, s);
  }

  lemma EstablishedReno(c: Conn, g: Segment, now: u64, cfg: Config, s: Stream)
    requires ConnOk(c, cfg, s) && c.state == SynReceived
    ensures EstablishedBy(c, g, now).tx.reno == c.tx.reno
  {
    EstablishedCore(c, g, now, cfg, s);
    hide ConnOk, CoreOk, Acceptable, Distance, ApplyAck, RenoState.OnAck, InFlight, SndPos;
    AckedReno(c.tx, c.tx.nxt, now, false);
    NothingAcked(c.tx.reno);
    ConnFacts(c, cfg, s);
    CoreFacts(EstablishedBy(c, g, now), cfg, s);
  }

  lemma TickReno(c: Conn, now: u64, cfg: Config, s: Stream)
    requires ConnOk(c, cfg, s)
    ensures var r := Poll(c, now, cfg);
            !r.closed ==>
              r.conn.tx.reno == if TimerResends(c, now, cfg) then c.tx.reno.OnTimeout(InFlight(c.tx)) else c.tx.reno
  {
    hide ConnOk, CoreOk, FlushData, ZeroWindowWork, SegmentsFor, CloseDeadline, RenoState.OnTimeout, InFlight, UnaPos;
    hide PacketsOk, RenoState.Window, PollZeroWindow, PollRetransmit, RtoDeadline;
    ConnFacts(c, cfg, s);
    ProbeReno(c.tx, now, cfg);
    var c' := c.(tx := PollRetransmit(c.tx, now, cfg).tx);
    if !ZeroWindowWork(c.tx) && !(CloseDeadline(c).Some? && now >= CloseDeadline(c).value) {
      PollReno(c, now, cfg);
    }
    RetransmittedCore(c, now, cfg, s);
    if Synchronized(c.state) {
      FlushWindow(c', now, cfg, s);
    } else {
      NoFlush(c', now);
    }
  }

  lemma PollReno(c: Conn, now: u64, cfg: Config)
    requires !ZeroWindowWork(c.tx) && !(CloseDeadline(c).Some? && now >= CloseDeadline(c).value)
    ensures var p := PollRetransmit(c.tx, now, cfg);
            p.tx.reno == if TimerResends(c, now, cfg) then c.tx.reno.OnTimeout(InFlight(c.tx)) else c.tx.reno
  {
    hide ZeroWindowWork, CloseDeadline, RenoState.OnTimeout, Distance;
  }

  lemma ProbeReno(tx: Tx, now: u64, cfg: Config)
    ensures PollZeroWindow(tx, now, cfg).tx.reno == tx.reno
  {
    hide ProbeDelay;
  }

  lemma LocalReno(c: Conn, data: seq<byte>, max: nat, now: u64, cfg: Config, s: Stream)
    requires ConnOk(c, cfg, s)
    ensures Write(c, data, now, cfg).Ok? ==> Write(c, data, now, cfg).value.conn.tx.reno == c.tx.reno
    ensures Read(c, max).conn.tx.reno == c.tx.reno && Close(c, now).conn.tx.reno == c.tx.reno
  {
    FlushReno(Accepting(c, data[..AcceptCount(c, data, cfg)]), now);
    FlushReno(c.(tx := c.tx.(closeRequested := true)), now);
    hide FlushData, AcceptCount, ReadCount, AvailableWindow, AckSegment;
  }

  lemma {:induction false} FlushQueueReno(tx: Tx, now: u64)
    ensures FlushQueue(tx, now).tx.reno == tx.reno
    decreases |tx.queue|
  {
    hide Room;
    if Room(tx) != 0 && tx.queue != [] {
      FlushQueueReno(SendNext(tx, now), now);
    }
  }

  lemma FlushReno(c: Conn, now: u64)
    ensures FlushData(c, now).conn.tx.reno == c.tx.reno
  {
    FlushQueueReno(c.tx, now);
    hide FlushQueue, Room, SegmentsFor;
  }

  lemma OpReno(l: Life, op: Op, cfg: Config)
    requires LifeOk(l, cfg) && !l.closed && !Perform(l, op, cfg).closed
    ensures Perform(l, op, cfg).conn.tx.reno == RenoRun(l.conn.tx.reno, Events(l, op, cfg))
  {
    hide ConnOk, Input, Write, Read, Close, Poll, Decode, AcceptCount, StreamNow, AckEvents, TimerResends, InFlight;
    hide RenoState.OnTimeout;
    var c, s := l.conn, StreamNow(l);
    NoEvents(c.tx.reno);
    match op
    case Arrive(bytes, now) =>
      if Decode(bytes).Ok? {
        var g := Decode(bytes).value;
        if c.state == SynSent { SynSentReno(c, g, now, cfg, s); }
        else if c.state == SynReceived { SynReceivedReno(c, g, now, cfg, s); }
        else { ArriveReno(c, g, now, cfg, s); }
      }
    case Put(data, now) => LocalReno(c, data, 0, now, cfg, s);
    case Get(max) => LocalReno(c, [], max, 0, cfg, s);
    case Shut(now) => LocalReno(c, [], 0, now, cfg, s);
    case Tick(now) =>
      TickReno(c, now, cfg, s);
      OneEvent(c.tx.reno, RenoEvent.Timeout(InFlight(c.tx)));
  }

  // ---------------------------------------------------------------- whole lives

  /** The congestion events of a life, in order. */
  function AllEvents(l: Life, ops: seq<Op>, cfg: Config): seq<RenoEvent>
    decreases |ops|
  {
    if ops == [] then [] else Events(l, ops[0], cfg) + AllEvents(Perform(l, ops[0], cfg), ops[1..], cfg)
  }

  lemma {:induction false} RunJoin(r: RenoState, a: seq<RenoEvent>, b: seq<RenoEvent>)
    ensures RenoRun(r, a + b) == RenoRun(RenoRun(r, a), b)
    decreases |a|
  {
    if a == [] {
      assert a + b == b;
    } else {
      RunJoin(OnEvent(r, a[0]), a[1..], b);
      assert (a + b)[1..] == a[1..] + b;
    }
  }

  /**
   * Over a whole life the congestion controller is exactly the run of the life's congestion events: it
   * hears of every newly acknowledged byte, every qualifying duplicate and every timeout, once and in
   * order, and of nothing else. So what holds of all runs of events holds of connections.
   */
  lemma {:induction false} RenoFollowsLife(l: Life, ops: seq<Op>, cfg: Config)
    requires LifeOk(l, cfg) && !l.closed && !Live(l, ops, cfg).closed
    ensures Live(l, ops, cfg).conn.tx.reno == RenoRun(l.conn.tx.reno, AllEvents(l, ops, cfg))
    decreases |ops|
  {
    hide LifeOk, Perform, Events;
    if ops != [] {
      var l1 := Perform(l, ops[0], cfg);
      if l1.closed {
        StaysClosed(l1, ops[1..], cfg);
      } else {
        OpKeeps(l, ops[0], cfg);
        OpReno(l, ops[0], cfg);
        RenoFollowsLife(l1, ops[1..], cfg);
        RunJoin(l.conn.tx.reno, Events(l, ops[0], cfg), AllEvents(l1, ops[1..], cfg));
      }
    }
  }

  /**
   * A connection's controllers start fresh: two segments of window of the size its SYN gives, no less
   * than one of the size the peer's SYN leaves, and the configured first timeout without measurement.
   */
  lemma FirstReno(localPort: u16, remotePort: u16, syn: Segment, isn: u32, now: u64, cfg: Config)
    ensures Client(localPort, remotePort, isn, now, cfg).conn.tx.reno == RenoControl.Initial(cfg.mss)
    ensures var tx := Server(syn, isn, now, cfg).conn.tx;
            tx.reno == RenoControl.Initial(cfg.mss).SetMss(tx.mss) && tx.mss <= cfg.mss
    ensures RenoControl.Initial(cfg.mss).cwnd == 2 * cfg.mss && RenoControl.Initial(cfg.mss).ssthresh == U64_MAX
    ensures var rtt := Client(localPort, remotePort, isn, now, cfg).conn.tx.rtt;
            && rtt == Server(syn, isn, now, cfg).conn.tx.rtt
            && rtt.rto == cfg.initialRto && !rtt.haveMeasurement && rtt.sampleAfter == None
  {
    hide FirstMss, SegmentFor, Tracked.End, RenoState.SetMss;
  }
}
