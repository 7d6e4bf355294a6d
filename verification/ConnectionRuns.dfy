/**
 * The life of one connection under any sequence of arriving bytes, writes, reads, closes and polls.
 * The peer may send anything that decodes; what every life keeps is stated at the end.
 */
module ConnectionRuns {
  import opened Numbers
  import opened SequenceSpace
  import opened Wire
  import opened Types
  import opened Sender
  import opened Receiver
  import opened Delivery
  import opened SendInvariant
  import opened SendSteps
  import opened ConnectionSpec
  import opened ConnectionInvariant
  import opened ConnectionSteps
  import opened Timers

  datatype Op =
    | Arrive(bytes: seq<byte>, now: u64)
    | Put(data: seq<byte>, now: u64)
    | Get(max: nat)
    | Shut(now: u64)
    | Tick(now: u64)

  /** A connection with the bytes it has accepted; `base` is the position of the first. */
  datatype Life = Life(conn: Conn, base: int, sent: seq<byte>, closed: bool)

  function StreamNow(l: Life): Stream {
    Stream(l.base, l.sent, FinMade(l.conn.state))
  }

  function Continue(l: Life, r: Update): Life {
    l.(conn := r.conn, closed := r.closed)
  }

  function Perform(l: Life, op: Op, cfg: Config): Life {
    if l.closed then l
    else match op
      case Arrive(bytes, now) =>
        (match Decode(bytes)
         case Err(_) => l
         case Ok(g) => Continue(l, Input(l.conn, g, now, cfg)))
      case Put(data, now) =>
        (match Write(l.conn, data, now, cfg)
         case Err(_) => l
         case Ok(r) => Continue(l, r).(sent := l.sent + data[..AcceptCount(l.conn, data, cfg)]))
      case Get(max) => Continue(l, Read(l.conn, max))
      case Shut(now) => Continue(l, Close(l.conn, now))
      case Tick(now) => Continue(l, Poll(l.conn, now, cfg))
  }

  function Live(l: Life, ops: seq<Op>, cfg: Config): Life
    decreases |ops|
  {
    if ops == [] then l else Live(Perform(l, ops[0], cfg), ops[1..], cfg)
  }

  /** A client's or a server's first state. */
  ghost predicate Born(l: Life, cfg: Config) {
    && !l.closed && l.sent == []
    && ((exists localPort: u16, remotePort: u16, isn: u32, now: u64 ::
           localPort != 0 && remotePort != 0
           && l.conn == Client(localPort, remotePort, isn, now, cfg).conn && l.base == isn + 1)
        || (exists syn: Segment, isn: u32, now: u64 ::
              syn.srcPort != 0 && syn.dstPort != 0
              && l.conn == Server(syn, isn, now, cfg).conn && l.base == isn + 1))
  }

  /** The invariant, and the send buffer's bound. */
  ghost predicate LifeOk(l: Life, cfg: Config) {
    ConnOk(l.conn, cfg, StreamNow(l)) && |l.sent| - l.conn.tx.acked <= cfg.sendBuffer
  }

  /** From `l` to `l'` the stream only grows and acknowledgements only advance. */
  ghost predicate Follows(l: Life, l': Life) {
    && l'.base == l.base && StreamNow(l').Extends(StreamNow(l))
    && UnaPos(l.conn, StreamNow(l)) <= UnaPos(l'.conn, StreamNow(l'))
  }

  lemma BornOk(l: Life, cfg: Config)
    requires Born(l, cfg)
    ensures LifeOk(l, cfg)
  {
    hide ConnOk, Client, Server, UnaPos, SndPos, OutputOk;
    if localPort: u16, remotePort: u16, isn: u32, now: u64 :|
      localPort != 0 && remotePort != 0 && l.conn == Client(localPort, remotePort, isn, now, cfg).conn
        && l.base == isn + 1 {
      ClientOk(localPort, remotePort, isn, now, cfg);
      NewStream(l, cfg, Stream(isn + 1, [], false));
    } else {
      var syn: Segment, isn: u32, now: u64 :|
        syn.srcPort != 0 && syn.dstPort != 0 && l.conn == Server(syn, isn, now, cfg).conn && l.base == isn + 1;
      ServerOk(syn, isn, now, cfg);
      NewStream(l, cfg, Stream(isn + 1, [], false));
    }
  }

  lemma NewStream(l: Life, cfg: Config, s: Stream)
    requires ConnOk(l.conn, cfg, s) && s.base == l.base && s.bytes == l.sent == []
    ensures LifeOk(l, cfg)
  {
    ConnFacts(l.conn, cfg, s);
    assert StreamNow(l) == s by { hide TxOk; }
    hide ConnOk, CoreOk;
  }

  // ---------------------------------------------------------------- every operation

  /** What an update that keeps the connection open means for its life. */
  lemma Continues(l: Life, r: Update, cfg: Config, data: seq<byte>)
    requires LifeOk(l, cfg) && !r.closed
    requires var s := StreamNow(l); var s' := s.(bytes := s.bytes + data);
      && KeepsOpen(l.conn, r, cfg, s') && UnaPos(l.conn, s') == UnaPos(l.conn, s) && StreamIn(r.conn, s').Extends(s)
      && |l.sent| + |data| - l.conn.tx.acked <= Max(cfg.sendBuffer, |l.sent| - l.conn.tx.acked)
    ensures var l' := Continue(l, r).(sent := l.sent + data); LifeOk(l', cfg) && Follows(l, l')
  {
    var l' := Continue(l, r).(sent := l.sent + data);
    var s := StreamNow(l);
    assert StreamNow(l') == StreamIn(r.conn, s.(bytes := s.bytes + data)) by { hide ConnOk, OutputOk; }
    hide StreamNow, StreamIn;
    OpenConn(l.conn, r, cfg, s.(bytes := s.bytes + data));
    hide KeepsOpen, OutputOk;
    ConnFacts(l.conn, cfg, s);
    ConnFacts(r.conn, cfg, StreamNow(l'));
    hide ConnOk, UnaPos;
    CountGrows(s, StreamNow(l'), UnaPos(l.conn, s), UnaPos(r.conn, StreamNow(l')));
  }

  lemma OpenConn(c: Conn, r: Update, cfg: Config, s: Stream)
    requires KeepsOpen(c, r, cfg, s)
    ensures ConnOk(r.conn, cfg, StreamIn(r.conn, s)) && UnaPos(c, s) <= UnaPos(r.conn, StreamIn(r.conn, s))
  {
    hide ConnOk, OutputOk;
  }

  lemma CountGrows(s: Stream, s': Stream, p: int, q: int)
    requires s'.Extends(s) && p <= q
    ensures s.Count(p) <= s'.Count(q)
  {
  }

  lemma {:induction false} OpKeeps(l: Life, op: Op, cfg: Config)
    requires LifeOk(l, cfg) && !l.closed
    ensures var l' := Perform(l, op, cfg); !l'.closed ==> LifeOk(l', cfg) && Follows(l, l')
  {
    hide ConnOk, Input, Write, Read, Close, Poll, UnaPos, KeepsOpen, StreamIn, Decode, AcceptCount, UnaFollows;
    hide RxFollows;
    hide StreamNow, ReadCount, StepOk;
    var s := StreamNow(l);
    NowShape(l);
    Same(l);
    match op
    case Arrive(bytes, now) =>
      if Decode(bytes).Ok? {
        DecodedPorts(bytes);
        InputKeeps(l.conn, Decode(bytes).value, now, cfg, s);
        StepContinues(l, Input(l.conn, Decode(bytes).value, now, cfg), cfg);
      }
    case Put(data, now) =>
      WriteKeeps(l.conn, data, now, cfg, s);
      if MayWrite(l.conn) {
        BufferBound(l, data, cfg);
        Continues(l, Write(l.conn, data, now, cfg).value, cfg, data[..AcceptCount(l.conn, data, cfg)]);
      }
    case Get(max) =>
      ReadKeeps(l.conn, max, cfg, s);
      OpenStep(l, Read(l.conn, max), cfg);
    case Shut(now) =>
      CloseKeeps(l.conn, now, cfg, s);
      StepContinues(l, Close(l.conn, now), cfg);
    case Tick(now) =>
      PollKeeps(l.conn, now, cfg, s);
      StepContinues(l, Poll(l.conn, now, cfg), cfg);
  }

  lemma NowShape(l: Life)
    ensures StreamNow(l).bytes == l.sent && StreamNow(l).base == l.base
  {
  }

  lemma Same(l: Life)
    ensures Follows(l, l)
  {
    hide UnaPos;
  }

  lemma DecodedPorts(bytes: seq<byte>)
    requires Decode(bytes).Ok?
    ensures Decode(bytes).value.srcPort != 0 && Decode(bytes).value.dstPort != 0
  {
    hide Decode, HeaderLen;
    DecodedIsEncodable(bytes);
  }

  lemma StepContinues(l: Life, r: Update, cfg: Config)
    requires LifeOk(l, cfg) && StepOk(l.conn, r, cfg, StreamNow(l))
    ensures !r.closed ==> LifeOk(Continue(l, r), cfg) && Follows(l, Continue(l, r))
  {
    hide ConnOk, KeepsOpen, LifeOk, Follows, OutputOk;
    if !r.closed {
      OpenStep(l, r, cfg);
    }
  }

  lemma OpenStep(l: Life, r: Update, cfg: Config)
    requires LifeOk(l, cfg) && KeepsOpen(l.conn, r, cfg, StreamNow(l)) && !r.closed
    ensures LifeOk(Continue(l, r), cfg) && Follows(l, Continue(l, r))
  {
    var s := StreamNow(l);
    assert s.(bytes := s.bytes + []) == s;
    assert StreamIn(r.conn, s).Extends(s) by { hide ConnOk, OutputOk; }
    hide ConnOk, KeepsOpen, UnaPos, StreamIn;
    assert l.sent + [] == l.sent;
    Continues(l, r, cfg, []);
  }

  /** A write never fills the send buffer beyond its limit. */
  lemma BufferBound(l: Life, data: seq<byte>, cfg: Config)
    requires LifeOk(l, cfg)
    ensures |l.sent| + AcceptCount(l.conn, data, cfg) - l.conn.tx.acked
         <= Max(cfg.sendBuffer, |l.sent| - l.conn.tx.acked)
  {
    QueueIsStream(l, cfg);
    hide LifeOk, PayloadIn;
  }

  // ---------------------------------------------------------------- the retransmission queue is the stream

  function Payloads(ts: seq<Tracked>): (r: seq<byte>)
    ensures |r| == PayloadIn(ts)
  {
    if ts == [] then [] else ts[0].payload + Payloads(ts[1..])
  }

  lemma {:induction false} ChainPayloads(ts: seq<Tracked>, p: int, q: int, s: Stream)
    requires Chain(ts, p, q, s)
    ensures p <= q && Payloads(ts) == s.Slice(p, q)
  {
    hide Wrap, PieceOk, Stream.Slice;
    ChainOrder(ts, p, q, s);
    if ts == [] {
      EmptySlice(s, p);
    } else {
      ChainPayloads(ts[1..], p + ts[0].Len(), q, s);
      SliceJoin(s, p, p + ts[0].Len(), q);
      PieceSlice(ts[0], p, s);
    }
  }

  lemma EmptySlice(s: Stream, p: int)
    ensures s.Slice(p, p) == []
  {
  }

  lemma PieceSlice(t: Tracked, p: int, s: Stream)
    requires PieceOk(t, p, s)
    ensures t.payload == s.Slice(p, p + t.Len())
  {
  }

  /**
   * The stream from the acknowledged count on is the payloads of the retransmission queue followed
   * by the send queue; so accepted = acknowledged + in flight + queued.
   */
  lemma QueueIsStream(l: Life, cfg: Config)
    requires LifeOk(l, cfg)
    ensures var tx := l.conn.tx;
            && tx.acked <= |l.sent| && l.sent[tx.acked..] == Payloads(tx.unacked) + tx.queue
            && tx.accepted == |l.sent| == tx.acked + Buffered(l.conn)
            && Buffered(l.conn) <= cfg.sendBuffer
  {
    var s, u, n := StreamNow(l), UnaPos(l.conn, StreamNow(l)), SndPos(l.conn, StreamNow(l));
    TxFacts(l.conn.tx, s, u);
    QueueFacts(l.conn.tx, s, u);
    ChainPayloads(l.conn.tx.unacked, u, n, s);
    hide ConnOk, UnaPos, SndPos, Chain, Payloads, Wrap;
    assert s.bytes[s.Count(u)..] == s.bytes[s.Count(u)..s.Count(n)] + s.bytes[s.Count(n)..];
  }

  lemma QueueFacts(tx: Tx, s: Stream, u: int)
    requires TxOk(tx, s, u)
    ensures tx.queue == s.bytes[s.Count(NxtPos(tx, u))..]
  {
    hide Chain, Wrap, KarnOk;
  }

  // ---------------------------------------------------------------- whole lives

  lemma {:induction false} EveryLifeKeeps(l: Life, ops: seq<Op>, cfg: Config)
    requires LifeOk(l, cfg) && !Live(l, ops, cfg).closed && !l.closed
    ensures LifeOk(Live(l, ops, cfg), cfg) && Follows(l, Live(l, ops, cfg))
    decreases |ops|
  {
    hide LifeOk, Perform, Follows;
    Same(l);
    if ops != [] {
      var l1 := Perform(l, ops[0], cfg);
      if l1.closed {
        StaysClosed(l1, ops[1..], cfg);
      } else {
        OpKeeps(l, ops[0], cfg);
        EveryLifeKeeps(l1, ops[1..], cfg);
        FollowsTrans(l, l1, Live(l, ops, cfg));
      }
    }
  }

  lemma FollowsTrans(l: Life, l1: Life, l2: Life)
    requires Follows(l, l1) && Follows(l1, l2)
    ensures Follows(l, l2)
  {
    hide UnaPos;
  }

  lemma {:induction false} StaysClosed(l: Life, ops: seq<Op>, cfg: Config)
    requires l.closed
    ensures Live(l, ops, cfg) == l
    decreases |ops|
  {
    if ops != [] {
      StaysClosed(l, ops[1..], cfg);
    }
  }

  /** An open connection after any operations whatever. */
  ghost predicate Reached(l: Life, cfg: Config) {
    exists l0: Life, ops: seq<Op> :: Born(l0, cfg) && l == Live(l0, ops, cfg) && !l.closed
  }

  lemma ReachedOk(l: Life, cfg: Config)
    requires Reached(l, cfg)
    ensures LifeOk(l, cfg) && ConnOk(l.conn, cfg, StreamNow(l))
  {
    hide ConnOk;
    hide Live, Follows;
    var l0: Life, ops: seq<Op> :| Born(l0, cfg) && l == Live(l0, ops, cfg) && !l.closed;
    assert !l0.closed;
    BornOk(l0, cfg);
    hide Born;
    EveryLifeKeeps(l0, ops, cfg);
  }

  // ---------------------------------------------------------------- what every life keeps

  /** In every life the send buffer's content is the unacknowledged end of the accepted stream. */
  lemma BufferIsStream(l: Life, cfg: Config)
    requires Reached(l, cfg)
    ensures var tx := l.conn.tx;
            && tx.acked <= |l.sent| && l.sent[tx.acked..] == Payloads(tx.unacked) + tx.queue
            && tx.accepted == |l.sent| == tx.acked + Buffered(l.conn)
            && Buffered(l.conn) <= cfg.sendBuffer
  {
    hide *;
    ReachedOk(l, cfg);
    QueueIsStream(l, cfg);
  }

  /** The segments follow one another in sequence space, each taking some of it. */
  ghost predicate Contiguous(ts: seq<Tracked>, first: u32, next: u32) {
    if ts == [] then first == next
    else ts[0].seqNo == first && ts[0].Len() > 0 && Contiguous(ts[1..], ts[0].End(), next)
  }

  lemma {:induction false} ChainContiguous(ts: seq<Tracked>, p: int, q: int, s: Stream, d: int)
    requires Chain(ts, p, q, s)
    ensures Contiguous(ts, Wrap(p), Wrap(q)) && SpanOf(ts, d) == d + q - p
  {
    hide Wrap, Tracked.End;
    if ts != [] {
      PieceLen(ts[0], p, s);
      hide PieceOk;
      ChainContiguous(ts[1..], p + ts[0].Len(), q, s, d + ts[0].Len());
    }
  }

  /**
   * In every life the retransmission queue is one contiguous run of sequence numbers from `una` to
   * `nxt`, whose lengths add up to what is in flight, never more than a window's 65535.
   */
  lemma FlightIsContiguous(l: Life, cfg: Config)
    requires Reached(l, cfg)
    ensures var tx := l.conn.tx;
            && Contiguous(tx.unacked, tx.una, tx.nxt) && SpanOf(tx.unacked, 0) == InFlight(tx) <= MAX_SPAN
            && (tx.unacked == [] <==> tx.una == tx.nxt)
  {
    hide Reached, LifeOk, ConnOk, CoreOk, TxOk, UnaPos, Chain, Contiguous, Wrap;
    ReachedOk(l, cfg);
    var c, s := l.conn, StreamNow(l);
    var u := UnaPos(c, s);
    ConnFacts(c, cfg, s);
    TxFacts(c.tx, s, u);
    ChainContiguous(c.tx.unacked, u, NxtPos(c.tx, u), s, 0);
    WrapOrder(NxtPos(c.tx, u), u);
  }

  /** A FIN is last in the queue, and only there once the stream has ended. */
  lemma {:induction false} FinIsLast(ts: seq<Tracked>, p: int, q: int, s: Stream)
    requires Chain(ts, p, q, s) && (s.ended ==> q == s.End() + 1)
    ensures !s.ended ==> forall t :: t in ts ==> !t.flags.fin
    ensures s.ended && ts != [] ==> ts[|ts| - 1].flags.fin && forall i :: 0 <= i < |ts| - 1 ==> !ts[i].flags.fin
  {
    hide Wrap;
    ChainOrder(ts, p, q, s);
    if ts != [] {
      PieceLen(ts[0], p, s);
      ChainOrder(ts[1..], p + ts[0].Len(), q, s);
      FinIsLast(ts[1..], p + ts[0].Len(), q, s);
      hide PieceOk, Chain;
      forall i | 0 < i < |ts|
        ensures ts[i] == ts[1..][i - 1]
      {
      }
    }
  }

  lemma FinFacts(c: Conn, cfg: Config, s: Stream)
    requires ConnOk(c, cfg, s)
    ensures FinMade(c.state) <==> s.ended
    ensures FinMade(c.state) && !FinAcked(c.state) ==> c.tx.unacked != []
    ensures FinMade(c.state) ==> c.tx.queue == []
    ensures FinAcked(c.state) ==> c.tx.unacked == []
    ensures c.state == State.FinWait2 ==> c.finWait2Until.Some?
    ensures c.state == TimeWait ==> c.timeWaitUntil.Some?
  {
    TxFacts(c.tx, s, UnaPos(c, s));
    hide TxOk, RxOk, Wrap, Chain, Quiet;
  }

  /**
   * FIN-WAIT-1, CLOSING and LAST-ACK hold exactly when our FIN is in the retransmission queue; it is
   * then last there and the send queue is empty. FIN-WAIT-2 and TIME-WAIT have nothing left to send
   * and their deadline set.
   */
  lemma FinDiscipline(l: Life, cfg: Config)
    requires Reached(l, cfg)
    ensures var c := l.conn; var ts := c.tx.unacked;
            && (c.state in {FinWait1, Closing, LastAck} <==> HasFin(ts))
            && (HasFin(ts) ==>
                  ts[|ts| - 1].flags.fin && c.tx.queue == [] && forall i :: 0 <= i < |ts| - 1 ==> !ts[i].flags.fin)
            && (c.state in {State.FinWait2, TimeWait} ==> ts == [] && c.tx.queue == [])
            && (c.state == State.FinWait2 ==> c.finWait2Until.Some?)
            && (c.state == TimeWait ==> c.timeWaitUntil.Some?)
  {
    hide *;
    ReachedOk(l, cfg);
    FinShape(l.conn, cfg, StreamNow(l));
  }

  lemma FinShape(c: Conn, cfg: Config, s: Stream)
    requires ConnOk(c, cfg, s)
    ensures var ts := c.tx.unacked;
            && (c.state in {FinWait1, Closing, LastAck} <==> HasFin(ts))
            && (HasFin(ts) ==>
                  ts[|ts| - 1].flags.fin && c.tx.queue == [] && forall i :: 0 <= i < |ts| - 1 ==> !ts[i].flags.fin)
            && (c.state in {State.FinWait2, TimeWait} ==> ts == [] && c.tx.queue == [])
            && (c.state == State.FinWait2 ==> c.finWait2Until.Some?)
            && (c.state == TimeWait ==> c.timeWaitUntil.Some?)
  {
    FinFacts(c, cfg, s);
    TxFacts(c.tx, s, UnaPos(c, s));
    hide ConnOk, UnaPos, NxtPos, Chain, Wrap;
    FinIsLast(c.tx.unacked, UnaPos(c, s), SndPos(c, s), s);
  }

  /** Our FIN is created at most once: from then on no state goes back and no byte is accepted. */
  lemma FinOnlyOnce(l: Life, ops: seq<Op>, cfg: Config)
    requires Reached(l, cfg) && FinMade(l.conn.state) && !Live(l, ops, cfg).closed
    ensures FinMade(Live(l, ops, cfg).conn.state) && Live(l, ops, cfg).sent == l.sent
  {
    ReachedOk(l, cfg);
    NotClosed(l, cfg);
    hide Reached, LifeOk, Live, UnaPos;
    EveryLifeKeeps(l, ops, cfg);
  }

  lemma NotClosed(l: Life, cfg: Config)
    requires Reached(l, cfg)
    ensures !l.closed
  {
    hide Live, Born;
  }

  /**
   * The retry budget and the recovery mark: a tracked segment was sent in full at least once and at
   * most max(1, limit) times, and `rto_recovery_until` lies in (una, nxt].
   */
  lemma RetryBudget(l: Life, cfg: Config)
    requires Reached(l, cfg)
    ensures var tx := l.conn.tx;
            && (forall t :: t in tx.unacked ==> 1 <= t.transmissions <= Max(1, cfg.maxRetransmissions))
            && InFlight(tx) <= MAX_SPAN
            && (tx.rtoRecoveryUntil.Some? ==> 0 < Off(tx.una, tx.rtoRecoveryUntil.value) <= InFlight(tx))
  {
    hide Reached, Chain, KarnOk, RxOk, Quiet, ControlOk, Off, Wrap, HandshakeOk;
    ReachedOk(l, cfg);
  }

  /**
   * Karn's rule in every life: a segment of which any part was sent twice ends at or before
   * `sample_after`, so no RTT sample is taken from it.
   */
  lemma KarnInEveryLife(l: Life, cfg: Config, i: nat)
    requires Reached(l, cfg) && i < |l.conn.tx.unacked| && l.conn.tx.unacked[i].sends != 1
    ensures l.conn.tx.rtt.sampleAfter.Some? && !l.conn.tx.rtt.CanSample(l.conn.tx.unacked[i].End())
  {
    hide Reached;
    ReachedOk(l, cfg);
    KarnFacts(l.conn, cfg, StreamNow(l), i);
  }

  lemma KarnFacts(c: Conn, cfg: Config, s: Stream, i: nat)
    requires ConnOk(c, cfg, s) && i < |c.tx.unacked| && c.tx.unacked[i].sends != 1
    ensures c.tx.rtt.sampleAfter.Some? && !c.tx.rtt.CanSample(c.tx.unacked[i].End())
  {
    var u := UnaPos(c, s);
    var m, n := KarnMark(c.tx, u), NxtPos(c.tx, u);
    TxFacts(c.tx, s, u);
    KarnOf(c.tx, s, u);
    MarkWraps(c.tx, u);
    hide ConnOk, UnaPos, Chain, KarnChain, Wrap, Off, Tracked.End, Before, PieceOk, NxtPos;
    var r := SpanMember(c.tx.unacked, u, n, s, m, i);
    PieceLen(c.tx.unacked[i], r, s);
    ChainOrder(c.tx.unacked, u, n, s);
    assert c.tx.rtt.sampleAfter.Some?;
    WrapOrder(r + c.tx.unacked[i].Len(), m);
  }

  lemma KarnOf(tx: Tx, s: Stream, u: int)
    requires TxOk(tx, s, u)
    ensures KarnChain(tx.unacked, u, KarnMark(tx, u)) && KarnMark(tx, u) <= NxtPos(tx, u)
    ensures u <= KarnMark(tx, u) || (tx.unacked != [] && u + tx.unacked[0].Len() - KarnMark(tx, u) <= MAX_SPAN)
    ensures tx.una == Wrap(u)
  {
    hide KarnChain, Chain, Off, BudgetOk, RecoveryOk, ControlOk, Wrap;
  }

  /**
   * The predicted deadline is exact in every life: before it, or at any time when there is none, a
   * poll changes and emits nothing; at it, a poll closes the connection or emits a segment and leaves
   * a later deadline. The last claim needs a clock short of its maximum.
   */
  lemma DeadlineIsExact(l: Life, now: u64, cfg: Config)
    requires Reached(l, cfg) && now < U64_MAX
    ensures var d := NextPollAt(l.conn, now, cfg); var r := Poll(l.conn, now, cfg);
            if d.None? || now < d.value then r == Open(l.conn, [])
            else
              r.closed
              || (r.segments != [] && NextPollAt(r.conn, now, cfg).Some? && NextPollAt(r.conn, now, cfg).value > now)
  {
    hide Reached, NextPollAt, Poll, ConnOk, LifeOk, PollsLeft, Pending;
    ReachedOk(l, cfg);
    var d := NextPollAt(l.conn, now, cfg);
    if d.None? || now < d.value {
      PollBeforeDeadline(l.conn, now, cfg, StreamNow(l));
    } else {
      PollAtDeadline(l.conn, now, cfg, StreamNow(l));
    }
  }

  /** In every life, polling alone removes a connection that has anything outstanding. */
  lemma SilentPeerEnds(l: Life, now: u64, cfg: Config)
    requires Reached(l, cfg)
    requires l.conn.tx.unacked != [] || l.conn.tx.queue != [] || l.conn.state in {State.FinWait2, TimeWait}
    ensures exists k :: 1 <= k <= cfg.maxRetransmissions + 1 && ClosesAfter(l.conn, now, cfg, k)
  {
    hide Reached, ConnOk, LifeOk, PollsLeft, ClosesAfter;
    ReachedOk(l, cfg);
    SilentPeerTerminates(l.conn, now, cfg, StreamNow(l));
    assert ClosesAfter(l.conn, now, cfg, PollsLeft(l.conn, cfg));
  }

  /**
   * In every life the congestion window holds a segment, a loss leaves a threshold of two, the
   * timeout stays within its bounds, and the receive window closes only on a full queue.
   */
  lemma WindowsInEveryLife(l: Life, cfg: Config)
    requires Reached(l, cfg)
    ensures var tx, rx := l.conn.tx, l.conn.rx;
            && 1 <= tx.mss <= tx.reno.cwnd && 2 * tx.mss <= tx.reno.ssthresh
            && cfg.minRto <= tx.rtt.rto <= cfg.maxRto
            && (AvailableWindow(rx) == 0 <==> |rx.queue| == cfg.receiveBuffer && rx.chunks == [])
            && (rx.chunks != [] ==> AvailableWindow(rx) >= Off(rx.nxt, rx.chunks[|rx.chunks| - 1].seqNo) > 0)
  {
    hide Reached;
    ReachedOk(l, cfg);
    ConnFacts(l.conn, cfg, StreamNow(l));
    hide ConnOk, LifeOk, AvailableWindow, Off;
    OpenWindow(l.conn.rx);
  }
}
