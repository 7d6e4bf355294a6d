/**
 * Fast retransmit over whole lives: `duplicate_acks` is the number of qualifying ACKs since the last
 * interruption, and each uninterrupted run of them attempts exactly one retransmission.
 */
module FastRetransmit {
  import opened Numbers
  import opened SequenceSpace
  import opened Wire
  import opened RenoControl
  import opened RttEstimation
  import opened Types
  import opened Sender
  import opened Receiver
  import opened Delivery
  import opened SendInvariant
  import opened SendSteps
  import opened ConnectionSpec
  import opened ConnectionInvariant
  import opened ConnectionSteps
  import opened ConnectionRuns
  import opened Retries

  /** A bare repeat of `una` that does not enlarge the window, while something is in flight. */
  predicate Qualifies(c: Conn, g: Segment) {
    && Synchronized(c.state) && !g.flags.rst && c.tx.unacked != []
    && g.ack == Some(c.tx.una) && g.payload == [] && !g.flags.syn && !g.flags.fin && g.window <= c.tx.window
  }

  lemma QualifiesIs(c: Conn, g: Segment)
    ensures Qualifies(c, g) <==>
      && Synchronized(c.state) && !g.flags.rst && c.tx.unacked != []
      && IsDuplicateAckCandidate(g, c.tx.una, c.tx.window)
  {
  }

  /** Any other ACK that is taken: it advances, carries data or a FIN, or enlarges the window. */
  predicate OtherAck(c: Conn, g: Segment) {
    && Synchronized(c.state) && !g.flags.rst && !g.flags.syn && !Qualifies(c, g)
    && g.ack.Some? && Acceptable(c.tx, g.ack.value)
  }

  /** The retransmission timer sends the oldest segment again. */
  predicate TimerResends(c: Conn, now: u64, cfg: Config) {
    && !(CloseDeadline(c).Some? && now >= CloseDeadline(c).value) && !ZeroWindowWork(c.tx)
    && c.tx.unacked != [] && now >= SatAdd(c.tx.unacked[0].sentAt, c.tx.rtt.rto)
    && c.tx.unacked[0].transmissions < cfg.maxRetransmissions
  }

  predicate Counts(l: Life, op: Op) {
    op.Arrive? && Decode(op.bytes).Ok? && Qualifies(l.conn, Decode(op.bytes).value)
  }

  predicate Interrupts(l: Life, op: Op, cfg: Config) {
    || (op.Arrive? && Decode(op.bytes).Ok? && OtherAck(l.conn, Decode(op.bytes).value))
    || (op.Tick? && TimerResends(l.conn, op.now, cfg))
  }

  // ---------------------------------------------------------------- one operation

  lemma {:induction false} FlushQueueCount(tx: Tx, now: u64)
    ensures FlushQueue(tx, now).tx.duplicateAcks == tx.duplicateAcks
    decreases |tx.queue|
  {
    if Room(tx) != 0 && tx.queue != [] {
      FlushQueueCount(SendNext(tx, now), now);
    }
  }

  lemma FlushCount(c: Conn, now: u64)
    ensures FlushData(c, now).conn.tx.duplicateAcks == c.tx.duplicateAcks
  {
    FlushQueueCount(c.tx, now);
    hide FlushQueue, SegmentsFor;
  }

  lemma FinishCount(c: Conn, output: seq<Segment>, g: Segment, now: u64, cfg: Config)
    ensures FinishSegment(c, output, g, now, cfg).conn.tx.duplicateAcks == c.tx.duplicateAcks
  {
    hide FlushData, Receive, AckSegment;
    FlushCount(if g.payload != [] || g.flags.fin then ReceiveData(c, g, now, cfg) else c, now);
  }

  /** The oldest segment after it was sent once more. */
  function SentAgain(t: Tracked, now: u64): Tracked {
    t.(sentAt := now, transmissions := Min(t.transmissions + 1, 255), sends := t.sends + 1)
  }

  /** What one ACK does to the count, and when it sends the oldest segment again by itself. */
  lemma AckMovesCount(tx: Tx, ack: u32, g: Segment, now: u64, cfg: Config)
    requires g.ack == Some(ack) && Acceptable(tx, tx.una)
    ensures var candidate := tx.unacked != [] && IsDuplicateAckCandidate(g, tx.una, tx.window);
            var n := if candidate then Min(tx.duplicateAcks + 1, 255)
                     else if Acceptable(tx, ack) then 0 else tx.duplicateAcks;
            && AckedTx(tx, ack, g, now).tx.duplicateAcks == n && RepairedTx(tx, ack, g, now, cfg).tx.duplicateAcks == n
            && (AckedTx(tx, ack, g, now).resent != [] <==>
                candidate && n == 3 && tx.unacked[0].transmissions < tx.maxTransmissions)
            && (AckedTx(tx, ack, g, now).resent != [] ==>
                  AckedTx(tx, ack, g, now).resent == [SentAgain(tx.unacked[0], now)])
  {
    hide AckedCount, PayloadIn, TrimCount, TrimFront, LastSample, HasFin, Acceptable, RenoState.OnAck;
    hide RenoState.OnFastLoss;
    hide RenoState.OnDuplicateAck, Distance, InClosedInterval, SequenceSpace.After;
  }

  lemma UnaAcceptable(c: Conn, cfg: Config, s: Stream)
    requires ConnOk(c, cfg, s)
    ensures Acceptable(c.tx, c.tx.una)
  {
    TxFacts(c.tx, s, UnaPos(c, s));
    UnaWraps(c.tx, s, UnaPos(c, s));
    AckAcceptance(c.tx, s, UnaPos(c, s), c.tx.una);
  }

  lemma ArriveCount(c: Conn, g: Segment, now: u64, cfg: Config, s: Stream)
    requires ConnOk(c, cfg, s) && Synchronized(c.state)
    ensures var r := Input(c, g, now, cfg);
            !r.closed ==>
              r.conn.tx.duplicateAcks == (if Qualifies(c, g) then Min(c.tx.duplicateAcks + 1, 255)
                                          else if OtherAck(c, g) then 0 else c.tx.duplicateAcks)
  {
    hide ConnOk, Acceptable, AckedTx, RepairedTx, FinishSegment, IsDuplicateAckCandidate, SegmentsFor, Input;
    UnaAcceptable(c, cfg, s);
    SynchronizedInput(c, g, now, cfg);
    QualifiesIs(c, g);
    NoSynCandidate(c, g);
    if !g.flags.rst && !g.flags.syn {
      if g.ack == None {
        FinishCount(c, [], g, now, cfg);
        NoAckCandidate(c, g);
      } else {
        AckMovesCount(c.tx, g.ack.value, g, now, cfg);
        var part := AckPart(c, g.ack.value, g, now, cfg);
        FinishCount(part.conn, part.segments, g, now, cfg);
      }
    }
  }

  lemma NoSynCandidate(c: Conn, g: Segment)
    ensures IsDuplicateAckCandidate(g, c.tx.una, c.tx.window) ==> !g.flags.syn
  {
  }

  lemma NoAckCandidate(c: Conn, g: Segment)
    requires g.ack == None
    ensures !IsDuplicateAckCandidate(g, c.tx.una, c.tx.window)
  {
  }

  /** During the handshake the count is zero, and the ACK that ends it leaves it there. */
  lemma HandshakeCount(c: Conn, g: Segment, now: u64, cfg: Config, s: Stream)
    requires ConnOk(c, cfg, s) && !Synchronized(c.state) && c.tx.duplicateAcks == 0
    ensures Input(c, g, now, cfg).conn.tx.duplicateAcks == 0
  {
    hide ConnOk, Acknowledge, FinishSegment, AckSegment, NegotiateMss, UpdateWindow, StaleHandshakeAck, Add;
    hide SequenceSpace.After;
    hide SupportsFipsVersion, Acceptable, ResetReply, RetransmitOldest;
    var tx := NegotiateMss(UpdateWindow(c.tx, g.window, now), g, cfg);
    SettingsCount(c.tx, g, now, cfg);
    HandshakeAckCount(tx, now);
    HandshakeAckCount(c.tx, now);
    ResendCount(c.tx, now);
    var o := ApplyAck(c.tx, c.tx.nxt, now, false);
    WindowCount(o.tx, g.window, now);
    FinishCount(c.(tx := UpdateWindow(o.tx, g.window, now), state := Established), [], g, now, cfg);
  }

  lemma SettingsCount(tx: Tx, g: Segment, now: u64, cfg: Config)
    ensures NegotiateMss(UpdateWindow(tx, g.window, now), g, cfg).duplicateAcks == tx.duplicateAcks
  {
  }

  lemma WindowCount(tx: Tx, window: u16, now: u64)
    ensures UpdateWindow(tx, window, now).duplicateAcks == tx.duplicateAcks
  {
  }

  lemma HandshakeAckCount(tx: Tx, now: u64)
    requires tx.duplicateAcks == 0
    ensures ApplyAck(tx, tx.nxt, now, false).tx.duplicateAcks == 0
  {
    hide AckedCount, PayloadIn, TrimCount, TrimFront, LastSample, HasFin, Acceptable, RenoState.OnAck;
  }

  lemma ResendCount(tx: Tx, now: u64)
    ensures RetransmitOldest(tx, now, false).tx.duplicateAcks == tx.duplicateAcks
  {
  }

  lemma TickCount(c: Conn, now: u64, cfg: Config)
    requires c.tx.maxTransmissions == cfg.maxRetransmissions
    ensures var r := Poll(c, now, cfg);
            !r.closed ==> r.conn.tx.duplicateAcks == if TimerResends(c, now, cfg) then 0 else c.tx.duplicateAcks
  {
    hide FlushData, ZeroWindowWork, ProbeDelay, SegmentsFor, CloseDeadline, RenoState.OnTimeout, InFlight;
    ProbeCount(c.tx, now, cfg);
    hide PollZeroWindow;
    FlushCount(c.(tx := PollRetransmit(c.tx, now, cfg).tx), now);
  }

  lemma ProbeCount(tx: Tx, now: u64, cfg: Config)
    ensures PollZeroWindow(tx, now, cfg).tx.duplicateAcks == tx.duplicateAcks
  {
    hide ProbeDelay;
  }

  lemma LocalCount(l: Life, op: Op, cfg: Config)
    requires !l.closed && (op.Put? || op.Get? || op.Shut?)
    ensures Perform(l, op, cfg).conn.tx.duplicateAcks == l.conn.tx.duplicateAcks
  {
    hide FlushData, AcceptCount, ReadCount, AvailableWindow, AckSegment;
    match op
    case Put(data, now) => FlushCount(Accepting(l.conn, data[..AcceptCount(l.conn, data, cfg)]), now);
    case Get(_) =>
    case Shut(now) => FlushCount(l.conn.(tx := l.conn.tx.(closeRequested := true)), now);
  }

  // ---------------------------------------------------------------- whole lives

  lemma LiveSnoc(l: Life, ops: seq<Op>, cfg: Config)
    requires ops != []
    ensures Live(l, ops, cfg) == Perform(Live(l, ops[..|ops| - 1], cfg), ops[|ops| - 1], cfg)
    decreases |ops|
  {
    hide Perform;
    if |ops| > 1 {
      LiveSnoc(Perform(l, ops[0], cfg), ops[1..], cfg);
      assert ops[1..][..|ops| - 2] == ops[..|ops| - 1][1..];
    }
  }

  /** The number of qualifying ACKs since the last interruption. */
  function Streak(l: Life, ops: seq<Op>, cfg: Config): nat
    decreases |ops|
  {
    if ops == [] then 0
    else
      var before, op := Live(l, ops[..|ops| - 1], cfg), ops[|ops| - 1];
      if Counts(before, op) then Streak(l, ops[..|ops| - 1], cfg) + 1
      else if Interrupts(before, op, cfg) then 0
      else Streak(l, ops[..|ops| - 1], cfg)
  }

  /** How many of the streak's ACKs attempted a fast retransmit: those that found the count at two. */
  function Attempts(l: Life, ops: seq<Op>, cfg: Config): nat
    decreases |ops|
  {
    if ops == [] then 0
    else
      var before, op := Live(l, ops[..|ops| - 1], cfg), ops[|ops| - 1];
      if Counts(before, op) then Attempts(l, ops[..|ops| - 1], cfg) + Bit(before.conn.tx.duplicateAcks == 2)
      else if Interrupts(before, op, cfg) then 0
      else Attempts(l, ops[..|ops| - 1], cfg)
  }

  /** How an operation moves the count. */
  predicate CountMoves(l: Life, op: Op, cfg: Config) {
    var l' := Perform(l, op, cfg);
    !l'.closed ==>
      && l'.conn.tx.duplicateAcks == (if Counts(l, op) then Min(l.conn.tx.duplicateAcks + 1, 255)
                                      else if Interrupts(l, op, cfg) then 0 else l.conn.tx.duplicateAcks)
      && (!Synchronized(l.conn.state) ==> l'.conn.tx.duplicateAcks == 0)
  }

  lemma CountStep(l: Life, op: Op, cfg: Config)
    requires LifeOk(l, cfg) && !l.closed && (!Synchronized(l.conn.state) ==> l.conn.tx.duplicateAcks == 0)
    ensures CountMoves(l, op, cfg)
  {
    hide LifeOk, CountMoves;
    match op
    case Arrive(bytes, now) => CountArrives(l, bytes, now, cfg);
    case Tick(now) => CountTicks(l, now, cfg);
    case _ => CountLocal(l, op, cfg);
  }

  lemma CountArrives(l: Life, bytes: seq<byte>, now: u64, cfg: Config)
    requires LifeOk(l, cfg) && !l.closed && (!Synchronized(l.conn.state) ==> l.conn.tx.duplicateAcks == 0)
    ensures CountMoves(l, Arrive(bytes, now), cfg)
  {
    hide ConnOk, Input, Decode, Qualifies, OtherAck, StreamNow, Synchronized;
    if Decode(bytes).Ok? {
      if Synchronized(l.conn.state) {
        ArriveCount(l.conn, Decode(bytes).value, now, cfg, StreamNow(l));
      } else {
        HandshakeCount(l.conn, Decode(bytes).value, now, cfg, StreamNow(l));
        NotYet(l.conn, Decode(bytes).value);
      }
    }
  }

  lemma CountTicks(l: Life, now: u64, cfg: Config)
    requires LifeOk(l, cfg) && !l.closed && (!Synchronized(l.conn.state) ==> l.conn.tx.duplicateAcks == 0)
    ensures CountMoves(l, Tick(now), cfg)
  {
    hide ConnOk, Poll, TimerResends, StreamNow, Synchronized;
    ConnFacts(l.conn, cfg, StreamNow(l));
    TickCount(l.conn, now, cfg);
  }

  lemma CountLocal(l: Life, op: Op, cfg: Config)
    requires !l.closed && (op.Put? || op.Get? || op.Shut?)
    requires !Synchronized(l.conn.state) ==> l.conn.tx.duplicateAcks == 0
    ensures CountMoves(l, op, cfg)
  {
    hide Perform, Synchronized;
    LocalCount(l, op, cfg);
  }

  lemma NotYet(c: Conn, g: Segment)
    requires !Synchronized(c.state)
    ensures !Qualifies(c, g) && !OtherAck(c, g)
  {
  }

  /** The handshake states are never entered again. */
  lemma StaysSynchronized(l: Life, op: Op, cfg: Config)
    requires LifeOk(l, cfg) && !l.closed && Synchronized(l.conn.state) && !Perform(l, op, cfg).closed
    ensures Synchronized(Perform(l, op, cfg).conn.state)
  {
    OpKeeps(l, op, cfg);
    hide Perform;
    var l' := Perform(l, op, cfg);
    if !Synchronized(l'.conn.state) {
      ConnFacts(l'.conn, cfg, StreamNow(l'));
      UnaInHandshake(l'.conn, cfg, StreamNow(l'));
    }
  }

  lemma BornCount(l: Life, cfg: Config)
    requires Born(l, cfg)
    ensures l.conn.tx.duplicateAcks == 0 && !Synchronized(l.conn.state) && !l.closed
  {
    hide RenoControl.Initial, RttEstimation.Initial, SegmentFor;
  }

  /**
   * In every life `duplicate_acks` is the number of qualifying ACKs since the last interruption,
   * saturating; and a streak, however long, attempts exactly one fast retransmit, at its third ACK.
   */
  lemma {:induction false} OneAttemptPerStreak(l: Life, ops: seq<Op>, cfg: Config)
    requires Born(l, cfg) && !Live(l, ops, cfg).closed
    ensures Live(l, ops, cfg).conn.tx.duplicateAcks == Min(Streak(l, ops, cfg), 255)
    ensures Attempts(l, ops, cfg) == if Streak(l, ops, cfg) >= 3 then 1 else 0
    ensures !Synchronized(Live(l, ops, cfg).conn.state) ==> Streak(l, ops, cfg) == 0
    decreases |ops|
  {
    hide Born, Counts, Interrupts, Perform, LifeOk, Synchronized;
    BornCount(l, cfg);
    if ops != [] {
      var front, op := ops[..|ops| - 1], ops[|ops| - 1];
      LiveSnoc(l, ops, cfg);
      var before := Live(l, front, cfg);
      PrefixOpen(before, op, cfg);
      OneAttemptPerStreak(l, front, cfg);
      BornOk(l, cfg);
      EveryLifeKeeps(l, front, cfg);
      CountStep(before, op, cfg);
      if Synchronized(before.conn.state) {
        StaysSynchronized(before, op, cfg);
      } else {
        NeverCounts(before, op);
      }
    }
  }

  lemma PrefixOpen(l: Life, op: Op, cfg: Config)
    requires !Perform(l, op, cfg).closed
    ensures !l.closed
  {
    hide Input, Write, Read, Close, Poll, Decode;
  }

  lemma NeverCounts(l: Life, op: Op)
    requires !Synchronized(l.conn.state)
    ensures !Counts(l, op)
  {
    hide Decode;
  }

  // ---------------------------------------------------------------- what an attempt does

  /** A bare repeat of `una` acknowledges nothing, so nothing is repaired and no FIN is passed. */
  lemma DuplicatePart(c: Conn, g: Segment, now: u64, cfg: Config)
    requires Qualifies(c, g) && Acceptable(c.tx, c.tx.una)
    ensures g.ack == Some(c.tx.una)
    ensures var part := AckPart(c, c.tx.una, g, now, cfg);
            && !part.closed && part.segments == SegmentsFor(c, AckedTx(c.tx, c.tx.una, g, now).resent)
            && Input(c, g, now, cfg) == FinishSegment(part.conn, part.segments, g, now, cfg)
  {
    hide Acceptable, SegmentsFor, FinishSegment, AckedTx, ReceiveData, FlushData, AckSegment, ResetReply;
    DuplicateLeavesUna(c, g, now);
  }

  lemma DuplicateLeavesUna(c: Conn, g: Segment, now: u64)
    requires Qualifies(c, g) && Acceptable(c.tx, c.tx.una)
    ensures var o := AckedTx(c.tx, c.tx.una, g, now); !o.finAcked && o.tx.una == c.tx.una
  {
    hide Acceptable, InFlight, RenoState.OnFastLoss, RenoState.OnDuplicateAck;
  }

  /** The oldest segment sent again counts as one retransmission. */
  lemma OldestCounts(c: Conn, cfg: Config, s: Stream, now: u64)
    requires ConnOk(c, cfg, s) && c.tx.unacked != []
    ensures Retransmissions(SegmentsFor(c, [SentAgain(c.tx.unacked[0], now)]), c.tx.nxt) == 1
  {
    var t, u := c.tx.unacked[0], UnaPos(c, s);
    TxFacts(c.tx, s, u);
    PieceLen(t, u, s);
    WrapOrder(u, NxtPos(c.tx, u));
    hide ConnOk, UnaPos, NxtPos, Chain, Off, Wrap, WindowField, PieceOk;
    var g := SegmentFor(c, SentAgain(t, now));
    assert SegmentsFor(c, [SentAgain(t, now)]) == [g];
    assert [g][1..] == [];
    assert Retransmissions([g], c.tx.nxt) == 1 + Retransmissions([], c.tx.nxt);
  }

  /**
   * Of everything a qualifying ACK makes the connection emit, new data included, the third one's
   * output holds exactly one retransmission, the oldest segment, unless its retry budget is spent;
   * any other one's holds none.
   */
  lemma AttemptResends(l: Life, cfg: Config, g: Segment, now: u64)
    requires LifeOk(l, cfg) && Qualifies(l.conn, g)
    ensures var c := l.conn; var out := Input(c, g, now, cfg).segments; var t := c.tx.unacked[0];
            var attempt := c.tx.duplicateAcks == 2 && t.transmissions < cfg.maxRetransmissions;
            && Retransmissions(out, c.tx.nxt) == Bit(attempt)
            && (attempt ==> out != [] && out[0] == SegmentFor(c, SentAgain(t, now)))
  {
    var c, s := l.conn, StreamNow(l);
    ConnFacts(c, cfg, s);
    UnaAcceptable(c, cfg, s);
    DuplicatePart(c, g, now, cfg);
    AckMovesCount(c.tx, c.tx.una, g, now, cfg);
    OldestCounts(c, cfg, s, now);
    hide LifeOk, ConnOk, CoreOk, AckedTx, Acceptable, AckPart, FinishSegment, Retransmissions, UnaPos, SndPos, OutputOk;
    hide Input, UnaAfter, RepairedTx, IsDuplicateAckCandidate, SegmentFor;
    var part := AckPart(c, c.tx.una, g, now, cfg);
    AckPartKeeps(c, c.tx.una, g, now, cfg, s);
    AckPartNxt(c, c.tx.una, g, now, cfg, s);
    FinishResends(part.conn, part.segments, g, now, cfg, s);
    FinishStarts(part.conn, part.segments, g, now, cfg);
    assert Retransmissions(SegmentsFor(c, []), c.tx.nxt) == 0 by { hide *; }
  }

  lemma FinishStarts(c: Conn, output: seq<Segment>, g: Segment, now: u64, cfg: Config)
    ensures output <= FinishSegment(c, output, g, now, cfg).segments
  {
    hide FlushData, ReceiveData, AckSegment;
  }
}
