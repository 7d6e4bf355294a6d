/** Every step keeps the invariant, and what it says about the two applications in every run. */
module NetworkRuns {
  import opened Numbers
  import opened SequenceSpace
  import opened Wire
  import opened Types
  import opened Sender
  import opened Receiver
  import opened Delivery
  import opened SendInvariant
  import opened SendSteps
  import opened ConnectionSpec
  import opened ConnectionInvariant
  import opened ConnectionSteps
  import opened Network
  import opened NetworkSafety
  import Markers

  // ---------------------------------------------------------------- one endpoint's operation

  /** An operation that leaves the connection open. */
  lemma OpenStep(w: World, clientSide: bool, e': Endpoint, out: seq<Segment>)
    requires Inv(w) && EndOk(e', clientSide)
    requires var e := Side(w, clientSide); var peer := Side(w, !clientSide);
      && e.phase == Live && e'.phase == Live && e'.base == e.base && StatesApart(e.conn, e'.conn)
      && StreamOf(e').Extends(StreamOf(e)) && Snd(e) <= Snd(e') && Una(e') <= Rcv(peer, e)
      && OutputOk(out, e.conn, e'.conn, StreamOf(e'), Una(e), Snd(e'))
      && Channel(peer, e') && Rcv(e, peer) <= Rcv(e', peer)
      && (Heard(e) ==> Rcv(e', peer) <= Rcv(e, peer) + 0x1_0000)
    ensures Inv(Commit(w, clientSide, e', out))
  {
    var e, peer := Side(w, clientSide), Side(w, !clientSide);
    hide ConnOk, Wrap, Snd, Una, Rcv, OnWire, StreamOf, MsgOk, OutputOk, Channel;
    WireExtends(e, e');
    OutputStamps(e, e', peer, out, clientSide);
    hide EndOk;
    EndpointMoves(w, clientSide, e', out);
  }

  lemma OutputStamps(e: Endpoint, e': Endpoint, peer: Endpoint, out: seq<Segment>, clientSide: bool)
    requires EndOk(e, clientSide) && EndOk(e', clientSide) && e.phase == Live && e'.phase == Live
    requires Channel(e, peer) && Channel(peer, e) && Channel(peer, e') && e'.base == e.base
    requires StatesApart(e.conn, e'.conn)
    requires OutputOk(out, e.conn, e'.conn, StreamOf(e'), Una(e), Snd(e')) && Una(e') <= Rcv(peer, e)
    requires Rcv(e, peer) <= Rcv(e', peer) && (Heard(e) ==> Rcv(e', peer) <= Rcv(e, peer) + 0x1_0000)
    ensures forall g :: g in out ==> MsgOk(Stamp(clientSide, e', peer, g), e', peer)
  {
    EndFacts(e);
    EndFacts(e');
    hide ConnOk, Wrap, Snd, Una, Rcv, OnWire, StreamOf, Sendable, MsgOk, TruthfulFrom;
    if Heard(e') { RcvFacts(peer, e'); }
    if Heard(e) { RcvFacts(peer, e); }
    assert Snd(e') <= Una(e) + 0x4_0000;
    hide Channel, EndOk, Stamp;
    forall g | g in out
      ensures MsgOk(Stamp(clientSide, e', peer, g), e', peer)
    {
      if g.flags.rst {
        ResetOk(clientSide, e', peer, g);
      } else {
        StampOk(e, e', peer, g, clientSide);
      }
    }
  }

  lemma ResetOk(clientSide: bool, e: Endpoint, peer: Endpoint, g: Segment)
    requires Sendable(g) && g.flags.rst
    ensures MsgOk(Stamp(clientSide, e, peer, g), e, peer)
  {
  }

  /** The connection is removed; at most a reset goes out. */
  lemma GoneStep(w: World, clientSide: bool, out: seq<Segment>)
    requires Inv(w) && Side(w, clientSide).phase == Live && forall g :: g in out ==> Sendable(g) && g.flags.rst
    ensures Inv(Commit(w, clientSide, Side(w, clientSide).(phase := Gone), out))
  {
    var e, peer := Side(w, clientSide), Side(w, !clientSide);
    var e' := e.(phase := Gone);
    hide ConnOk, Sendable, MsgOk, Wrap;
    assert StreamOf(e') == StreamOf(e) && OnWire(e') == OnWire(e);
    SameChannel(peer, e, e');
    forall g | g in out
      ensures MsgOk(Stamp(clientSide, e', peer, g), e', peer)
    {
      ResetOk(clientSide, e', peer, g);
    }
    EndpointMoves(w, clientSide, e', out);
  }

  // ---------------------------------------------------------------- delivery

  /** An acceptable ACK, less than 2^31 positions stale, moves `una` to the position it stands for. */
  lemma AckLands(e: Endpoint, ack: u32, q: int)
    requires ConnOk(e.conn, e.cfg, StreamOf(e)) && Acceptable(e.conn.tx, ack) && ack == Wrap(q)
    requires Una(e) - 0x8000_0000 < q <= Una(e) + MAX_SPAN
    ensures Una(e) + Distance(e.conn.tx.una, ack) == q
  {
    EndFacts(e);
    TxFacts(e.conn.tx, StreamOf(e), Una(e));
    ConnFacts(e.conn, e.cfg, StreamOf(e));
    UnaWraps(e.conn.tx, StreamOf(e), Una(e));
    AckAcceptance(e.conn.tx, StreamOf(e), Una(e), ack);
    hide ConnOk, CoreOk, TxOk, QueuesOk, Chain, Una, Snd, StreamOf, Acceptable, Stream.Count;
    WrapOrder(q, Una(e));
  }

  /** Whatever the segment was, `una` stays at or below the peer's `recv_nxt`. */
  lemma UnaStaysBelow(x: Endpoint, y: Endpoint, m: Msg, r: Update)
    requires ConnOk(y.conn, y.cfg, StreamOf(y)) && Channel(y, x) && y.phase == Live
    requires MsgOk(m, x, y) && NotStale(m, y, x) && UnaFollows(y.conn, r, m.seg, StreamOf(y))
    ensures UnaPos(r.conn, StreamIn(r.conn, StreamOf(y))) <= Rcv(x, y)
  {
    EndFacts(y);
    hide ConnOk, Snd, Rcv, OnWire, Acceptable, Distance, Wrap, HonestAt, Sendable, RxMatches, Arrived, StreamIn;
    hide Stream.Slice;
    if UnaPos(r.conn, StreamIn(r.conn, StreamOf(y))) != Una(y) {
      hide UnaPos;
      assert m.seg.ack.value == Wrap(m.ackPos) && m.ackPos <= Rcv(x, y) <= Snd(y) <= Una(y) + MAX_SPAN;
      AckLands(y, m.seg.ack.value, m.ackPos);
    }
  }

  /** The SYN-ACK tells the client where the server's stream begins. */
  lemma LearnsBase(x: Endpoint, y: Endpoint, m: Msg, y': Endpoint)
    requires EndOk(y, true) && EndOk(x, false) && Channel(x, y) && MsgOk(m, x, y) && !m.seg.flags.rst && m.seg.flags.syn
    requires y.phase == Live && y.conn.state == SynSent && y'.phase == Live && y'.conn.state == Established
    requires y'.conn.rx == y.conn.rx.(nxt := Add(m.seg.seqNo, 1)) && y'.got == y.got
    ensures Channel(x, y') && Rcv(y, x) <= Rcv(y', x)
  {
    hide Una, Snd, Wrap, Add, Sendable, ConnOk, StreamOf, OnWire, MsgOk, HonestAt;
    SynStart(x, y, m);
    EndFacts(x);
    BlankReceiver(y.conn, y.cfg, StreamOf(y));
    assert OnWire(x).base == x.base by { WireBase(x); }
    FreshRx(y'.conn.rx, x.base, OnWire(x));
    assert Arrived(y') == [];
    hide Rcv, RxMatches, Arrived;
    ArrivedPosition(y', x, x.base);
    ChannelHolds(x, y', x.base);
  }

  /** The number after a SYN stands for the first byte of its stream. */
  lemma SynStart(x: Endpoint, y: Endpoint, m: Msg)
    requires MsgOk(m, x, y) && !m.seg.flags.rst && m.seg.flags.syn
    ensures Add(m.seg.seqNo, 1) == Wrap(x.base) && x.phase != Absent
  {
    WireBase(x);
    WrapAdd(x.base - 1, 1);
    hide Una, Snd, Wrap, Add, Sendable, OnWire, Rcv;
  }

  lemma WireBase(x: Endpoint)
    ensures OnWire(x).base == x.base
  {
  }

  lemma BlankReceiver(c: Conn, cfg: Config, s: Stream)
    requires ConnOk(c, cfg, s) && c.state == SynSent
    ensures c.rx.queue == [] && c.rx.chunks == [] && !c.rx.closed
  {
    hide TxOk, RxOk;
  }

  lemma FreshRx(rx: Rx, r: int, s: Stream)
    requires rx.nxt == Wrap(r) && rx.chunks == [] && !rx.closed && r == s.base
    ensures RxMatches(rx, r, s) && s.Slice(r, r) == []
  {
  }

  /** The receiver's side of a delivery. */
  lemma Received(x: Endpoint, y: Endpoint, m: Msg, y': Endpoint, clientSide: bool)
    requires EndOk(x, !clientSide) && EndOk(y, clientSide) && y.phase == Live && y'.phase == Live && y'.got == y.got
    requires Channel(x, y) && MsgOk(m, x, y) && m.fromClient == !clientSide && NotStale(m, y, x)
    requires StatesApart(y.conn, y'.conn)
    requires exists r: Update :: r.conn == y'.conn && RxFollows(y.conn, r, m.seg, y.cfg)
    ensures Channel(x, y') && Rcv(y, x) <= Rcv(y', x) && (Heard(y) ==> Rcv(y', x) <= Rcv(y, x) + 0x1_0000)
  {
    var r: Update :| r.conn == y'.conn && RxFollows(y.conn, r, m.seg, y.cfg);
    hide ConnOk, Channel, Rcv, ReceivedRx, Arrived, OnWire, Una, Snd, Wrap, Add, HonestAt, Sendable;
    if y.conn.state == SynSent && y'.conn.state != SynSent {
      LearnsBase(x, y, m, y');
    } else if y'.conn.rx == y.conn.rx {
      SameChannel(x, y, y');
    } else {
      assert !m.seg.flags.syn;
      DataArrives(x, y, m, y');
    }
  }

  /** An update that leaves the connection open, seen from the network. */
  lemma UpdateFits(e: Endpoint, r: Update, s: Stream, e': Endpoint, clientSide: bool)
    requires EndOk(e, clientSide) && e.phase == Live && KeepsOpen(e.conn, r, e.cfg, s) && StatesApart(e.conn, r.conn)
    requires e'.conn == r.conn && e'.base == e.base && e'.cfg == e.cfg && e'.phase == Live
    requires StreamOf(e') == StreamIn(r.conn, s)
    requires UnaPos(e.conn, s) == Una(e) && SndPos(e.conn, s) == Snd(e)
    ensures EndOk(e', clientSide) && Snd(e) <= Snd(e') && Una(e) <= Una(e')
    ensures OutputOk(r.segments, e.conn, e'.conn, StreamOf(e'), Una(e), Snd(e')) && StreamOf(e').Extends(s)
  {
    hide ConnOk, OutputOk, UnaPos, SndPos, StreamOf, StreamIn, Stream.Extends;
  }

  lemma DeliverKeeps(w: World, m: Msg, now: u64)
    requires Inv(w) && Enabled(w, Deliver(m, now))
    ensures Inv(Apply(w, Deliver(m, now)))
  {
    var side := !m.fromClient;
    var y, x := Side(w, side), Side(w, !side);
    assert Channel(x, y) && Channel(y, x) && EndOk(x, !side) && EndOk(y, side) && MsgOk(m, x, y);
    PortsNonZero(m.seg) by { hide HonestAt, OnWire, Snd, Rcv, Channel, EndOk; }
    InputKeeps(y.conn, m.seg, now, y.cfg, StreamOf(y));
    InputStates(y.conn, m.seg, now, y.cfg);
    hide ConnOk, Channel, Rcv, Una, Input, MsgOk, KeepsOpen, UnaFollows, RxFollows, NotStale, Inv, Commit, EndOk;
    hide StatesApart;
    var r := Input(y.conn, m.seg, now, y.cfg);
    if r.closed {
      GoneStep(w, side, []);
    } else {
      DeliverOpen(w, m, r);
    }
  }

  lemma DeliverOpen(w: World, m: Msg, r: Update)
    requires Inv(w) && m in w.net && Side(w, !m.fromClient).phase == Live
    requires var y := Side(w, !m.fromClient);
      && NotStale(m, y, Side(w, m.fromClient)) && KeepsOpen(y.conn, r, y.cfg, StreamOf(y))
      && StatesApart(y.conn, r.conn)
      && UnaFollows(y.conn, r, m.seg, StreamOf(y)) && RxFollows(y.conn, r, m.seg, y.cfg)
    ensures Inv(Commit(w, !m.fromClient, Side(w, !m.fromClient).(conn := r.conn), r.segments))
  {
    var side := !m.fromClient;
    var y, x := Side(w, side), Side(w, !side);
    var y' := y.(conn := r.conn);
    assert Channel(x, y) && Channel(y, x) && EndOk(x, !side) && EndOk(y, side) && MsgOk(m, x, y);
    assert ConnOk(y.conn, y.cfg, StreamOf(y));
    hide ConnOk, Channel, Rcv, Una, Snd, MsgOk, KeepsOpen, UnaFollows, RxFollows, NotStale, Inv, Commit, EndOk;
    hide StatesApart;
    hide StreamOf, UnaPos, SndPos, OutputOk, StreamIn, Stream.Extends;
    SameStream(y, r.conn);
    UnaSnd(y);
    UnaSnd(y');
    UpdateFits(y, r, StreamOf(y), y', side);
    UnaStaysBelow(x, y, m, r);
    Received(x, y, m, y', side);
    OpenStep(w, side, y', r.segments);
  }

  lemma PortsNonZero(g: Segment)
    requires Sendable(g)
    ensures g.srcPort != 0 && g.dstPort != 0
  {
  }

  lemma SameStream(e: Endpoint, conn: Conn)
    ensures StreamOf(e.(conn := conn)) == StreamIn(conn, StreamOf(e))
  {
  }

  lemma UnaSnd(e: Endpoint)
    ensures Una(e) == UnaPos(e.conn, StreamOf(e)) && Snd(e) == SndPos(e.conn, StreamOf(e))
  {
  }

  // ---------------------------------------------------------------- local operations

  /** An operation that leaves `una` and the receiver's position alone. */
  lemma LocalStep(w: World, clientSide: bool, r: Update, s: Stream, e': Endpoint)
    requires Inv(w) && Side(w, clientSide).phase == Live
    requires var e := Side(w, clientSide);
      && KeepsOpen(e.conn, r, e.cfg, s) && StatesApart(e.conn, r.conn) && s.Extends(StreamOf(e))
      && e'.conn == r.conn && e'.base == e.base && e'.cfg == e.cfg && e'.phase == Live
      && StreamOf(e') == StreamIn(r.conn, s)
      && UnaPos(e.conn, s) == Una(e) && SndPos(e.conn, s) == Snd(e) && Una(e') == Una(e)
      && StreamOf(e').Extends(StreamOf(e))
      && Channel(Side(w, !clientSide), e') && Rcv(e', Side(w, !clientSide)) == Rcv(e, Side(w, !clientSide))
    ensures Inv(Commit(w, clientSide, e', r.segments))
  {
    var e, peer := Side(w, clientSide), Side(w, !clientSide);
    assert EndOk(e, clientSide) && Channel(e, peer) && Channel(peer, e);
    assert e.phase != Absent && Una(e') <= Rcv(peer, e) by { hide EndOk, Rcv, Una, Snd; }
    hide Channel, Rcv, Una, Snd, KeepsOpen, Inv, Commit, EndOk, StatesApart, StreamOf, UnaPos, SndPos, OutputOk;
    hide StreamIn;
    hide Stream.Extends;
    UpdateFits(e, r, s, e', clientSide);
    OpenStep(w, clientSide, e', r.segments);
  }

  lemma PollOrCloseKeeps(w: World, clientSide: bool, r: Update)
    requires Inv(w) && Side(w, clientSide).phase == Live
    requires var e := Side(w, clientSide); var s := StreamOf(e);
      && StepOk(e.conn, r, e.cfg, s) && r.conn.rx == e.conn.rx && StatesApart(e.conn, r.conn)
      && (r.closed ==> r.segments == [])
      && (!r.closed ==> UnaPos(r.conn, StreamIn(r.conn, s)) == UnaPos(e.conn, s)
                        && (Synchronized(r.conn.state) <==> Synchronized(e.conn.state)))
    ensures Inv(Commit(w, clientSide, Updated(Side(w, clientSide), r), r.segments))
  {
    var e, peer := Side(w, clientSide), Side(w, !clientSide);
    var s := StreamOf(e);
    hide Channel, Rcv, Una, Snd, KeepsOpen, Commit, EndOk, StreamOf, UnaPos, SndPos, OutputOk, StreamIn;
    if r.closed {
      GoneStep(w, clientSide, []);
    } else {
      var e' := e.(conn := r.conn);
      SameStream(e, r.conn);
      UnaSnd(e);
      UnaSnd(e');
      SameChannel(peer, e, e');
      assert s.Extends(s) && StreamOf(e').Extends(s) by { KeepsExtends(e.conn, r, e.cfg, s); }
      LocalStep(w, clientSide, r, s, e');
    }
  }

  lemma KeepsExtends(c: Conn, r: Update, cfg: Config, s: Stream)
    requires KeepsOpen(c, r, cfg, s)
    ensures StreamIn(r.conn, s).Extends(s) && s.Extends(s)
  {
    hide ConnOk, OutputOk;
  }

  lemma LiveOk(w: World, clientSide: bool)
    requires Inv(w) && Side(w, clientSide).phase == Live
    ensures var e := Side(w, clientSide); ConnOk(e.conn, e.cfg, StreamOf(e))
    ensures EndOk(Side(w, clientSide), clientSide)
    ensures Channel(Side(w, !clientSide), Side(w, clientSide)) && Channel(Side(w, clientSide), Side(w, !clientSide))
  {
    hide ConnOk, Channel, StreamOf;
  }

  lemma PollStepKeeps(w: World, clientSide: bool, now: u64)
    requires Inv(w) && Side(w, clientSide).phase == Live
    ensures var e := Side(w, clientSide); var r := Poll(e.conn, now, e.cfg);
            Inv(Commit(w, clientSide, Updated(e, r), r.segments))
  {
    hide Inv, ConnOk, EndOk, StepOk, Poll, UnaPos, StreamOf, StreamIn, StatesApart, Commit, Updated, Channel;
    var e := Side(w, clientSide);
    LiveOk(w, clientSide);
    PollKeeps(e.conn, now, e.cfg, StreamOf(e));
    PollStates(e.conn, now, e.cfg);
    PollOrCloseKeeps(w, clientSide, Poll(e.conn, now, e.cfg));
  }

  lemma CloseStepKeeps(w: World, clientSide: bool, now: u64)
    requires Inv(w) && Side(w, clientSide).phase == Live
    ensures var e := Side(w, clientSide); var r := Close(e.conn, now);
            Inv(Commit(w, clientSide, Updated(e, r), r.segments))
  {
    hide Inv, ConnOk, EndOk, StepOk, Close, UnaPos, StreamOf, StreamIn, StatesApart, Commit, Updated, Channel;
    var e := Side(w, clientSide);
    LiveOk(w, clientSide);
    CloseKeeps(e.conn, now, e.cfg, StreamOf(e));
    CloseStates(e.conn, now);
    PollOrCloseKeeps(w, clientSide, Close(e.conn, now));
  }

  /** The endpoint after a write of which `data` was accepted. */
  function Wrote(e: Endpoint, conn: Conn, data: seq<byte>): Endpoint {
    e.(conn := conn, sent := e.sent + data)
  }

  lemma WroteStream(e: Endpoint, conn: Conn, data: seq<byte>)
    ensures StreamOf(Wrote(e, conn, data)) == StreamIn(conn, StreamOf(e).(bytes := StreamOf(e).bytes + data))
  {
  }

  lemma WriteStepKeeps(w: World, clientSide: bool, bytes: seq<byte>, now: u64)
    requires Inv(w) && Side(w, clientSide).phase == Live && MayWrite(Side(w, clientSide).conn)
    ensures var e := Side(w, clientSide); var r := Write(e.conn, bytes, now, e.cfg);
            && r.Ok?
            && Inv(Commit(w, clientSide, Wrote(e, r.value.conn, bytes[..AcceptCount(e.conn, bytes, e.cfg)]),
                          r.value.segments))
  {
    hide Inv, ConnOk, EndOk, Write, UnaPos, StreamOf, StreamIn, Commit, Channel, KeepsOpen, AcceptCount, Una, Snd, Rcv;
    hide Stream.Extends, Wrote, Arrived, SndPos;
    var e, peer := Side(w, clientSide), Side(w, !clientSide);
    var s := StreamOf(e);
    LiveOk(w, clientSide);
    WriteKeeps(e.conn, bytes, now, e.cfg, s);
    var r := Write(e.conn, bytes, now, e.cfg).value;
    var data := bytes[..AcceptCount(e.conn, bytes, e.cfg)];
    var s' := s.(bytes := s.bytes + data);
    var e' := Wrote(e, r.conn, data);
    WroteStream(e, r.conn, data);
    AcceptedExtends(e, data);
    UnaSnd(e);
    UnaSnd(e');
    SameInFlight(e.conn, e.conn, s, s');
    WroteFields(e, r.conn, data);
    SameSnd(e.conn, s, s');
    SameChannel(peer, e, e');
    LocalStep(w, clientSide, r, s', e');
  }

  lemma WroteFields(e: Endpoint, conn: Conn, data: seq<byte>)
    ensures var e' := Wrote(e, conn, data);
            e'.conn == conn && e'.base == e.base && e'.cfg == e.cfg && e'.phase == e.phase && e'.got == e.got
  {
  }

  lemma SameSnd(c: Conn, s: Stream, s': Stream)
    requires UnaPos(c, s') == UnaPos(c, s)
    ensures SndPos(c, s') == SndPos(c, s)
  {
    hide UnaPos;
  }

  lemma AcceptedExtends(e: Endpoint, data: seq<byte>)
    requires ConnOk(e.conn, e.cfg, StreamOf(e)) && MayWrite(e.conn)
    ensures var s := StreamOf(e); s.(bytes := s.bytes + data).Extends(s)
  {
    ConnFacts(e.conn, e.cfg, StreamOf(e));
  }

  /** Reading moves bytes from the queue to the application; what has arrived stays the same. */
  lemma ReadChannel(x: Endpoint, y: Endpoint, y': Endpoint, count: nat)
    requires Channel(x, y) && y.phase == Live && y'.phase == Live && y'.conn.state == y.conn.state
    requires count <= |y.conn.rx.queue| && y'.conn.rx == y.conn.rx.(queue := y.conn.rx.queue[count..])
    requires y'.got == y.got + y.conn.rx.queue[..count] && (!Heard(y) ==> y.conn.rx.queue == [])
    ensures Channel(x, y') && Rcv(y', x) == Rcv(y, x) && Arrived(y') == Arrived(y)
  {
    assert Arrived(y') == Arrived(y);
    hide Arrived, Una, Snd, OnWire, RxMatches;
    assert Rcv(y', x) == Rcv(y, x);
    if Heard(y) {
      MatchesRead(y.conn.rx, y'.conn.rx.queue, Rcv(y, x), OnWire(x));
    }
  }

  lemma MatchesRead(rx: Rx, queue: seq<byte>, r: int, s: Stream)
    requires RxMatches(rx, r, s)
    ensures RxMatches(rx.(queue := queue), r, s)
  {
    hide Off, Wrap, ChunkMatches;
  }

  lemma ReadStepKeeps(w: World, clientSide: bool, max: nat)
    requires Inv(w) && Side(w, clientSide).phase == Live
    ensures var e := Side(w, clientSide); var r := Read(e.conn, max);
            Inv(Commit(w, clientSide, e.(conn := r.conn, got := e.got + e.conn.rx.queue[..ReadCount(e.conn, max)]),
                       r.segments))
  {
    hide Inv, ConnOk, EndOk, Read, SndPos, Commit, Channel, KeepsOpen, ReadCount, Una, Snd, Rcv, UnaPos, StreamOf;
    hide StreamIn;
    hide Stream.Extends;
    var e, peer := Side(w, clientSide), Side(w, !clientSide);
    var s := StreamOf(e);
    LiveOk(w, clientSide);
    ReadKeeps(e.conn, max, e.cfg, s);
    var r := Read(e.conn, max);
    var e' := e.(conn := r.conn, got := e.got + e.conn.rx.queue[..ReadCount(e.conn, max)]);
    if !Heard(e) { BlankReceiver(e.conn, e.cfg, s); }
    KeepsExtends(e.conn, r, e.cfg, s);
    ReadStream(e, e');
    UnaSnd(e);
    UnaSnd(e');
    ReadChannel(peer, e, e', ReadCount(e.conn, max));
    LocalStep(w, clientSide, r, s, e');
  }

  lemma ReadStream(e: Endpoint, e': Endpoint)
    requires e'.conn.tx == e.conn.tx && e'.conn.state == e.conn.state && e'.base == e.base && e'.sent == e.sent
    ensures StreamOf(e') == StreamOf(e) == StreamIn(e'.conn, StreamOf(e)) && Una(e') == Una(e)
  {
  }

  lemma AbortStepKeeps(w: World, clientSide: bool)
    requires Inv(w) && Side(w, clientSide).phase == Live
    ensures var e := Side(w, clientSide); Inv(Commit(w, clientSide, e.(phase := Gone), [ResetSegment(e.conn)]))
  {
    hide Inv, ConnOk, CoreOk, EndOk, Commit, Channel, Sendable, StreamOf;
    var e := Side(w, clientSide);
    LiveOk(w, clientSide);
    ConnFacts(e.conn, e.cfg, StreamOf(e));
    CoreFacts(e.conn, e.cfg, StreamOf(e));
    BuildSendable(e.conn, e.conn.tx.nxt, 0, RST_FLAG, []);
    GoneStep(w, clientSide, [ResetSegment(e.conn)]);
  }

  /** A segment for a removed or absent connection is answered by a reset. */
  lemma StrayStepKeeps(w: World, m: Msg)
    requires Inv(w) && m in w.net
    ensures Inv(Commit(w, !m.fromClient, Side(w, !m.fromClient), [ResetReply(m.seg)]))
  {
    hide EndOk, Channel, Snd, Rcv, OnWire, HonestAt, Wrap, Sendable, Stamp, ResetReply;
    var side := !m.fromClient;
    var e, peer := Side(w, side), Side(w, !side);
    assert Sendable(m.seg);
    PortsNonZero(m.seg);
    ResetReplySendable(m.seg);
    ResetOk(side, e, peer, ResetReply(m.seg));
    var w' := Commit(w, side, e, [ResetReply(m.seg)]);
    hide MsgOk;
    forall n | n in w'.net
      ensures if n.fromClient then MsgOk(n, w.client, w.server) else MsgOk(n, w.server, w.client)
    {
      if n !in w.net {
        StampSide(side, e, peer, ResetReply(m.seg));
        assert n == Stamp(side, e, peer, ResetReply(m.seg));
      }
    }
  }

  // ---------------------------------------------------------------- the passive open

  /** A first SYN creates the server's endpoint. */
  lemma AcceptKeeps(w: World, m: Msg, isn: u32, now: u64)
    requires Inv(w) && w.server.phase == Absent && m in w.net && m.fromClient
    requires m.seg.flags.syn && !m.seg.flags.ack && !m.seg.flags.rst
    ensures var r := Server(m.seg, isn, now, w.server.cfg);
            Inv(Commit(w, false, Endpoint(w.server.cfg, Live, r.conn, isn + 1, [], []), r.segments))
  {
    hide ConnOk, Snd, Una, Rcv, OnWire, Wrap, Sendable, RxMatches, HonestAt, Server, Arrived, StreamOf, OutputOk;
    hide Commit, Add;
    var x, y := w.client, w.server;
    var r := Server(m.seg, isn, now, y.cfg);
    var y' := Endpoint(y.cfg, Live, r.conn, isn + 1, [], []);
    assert MsgOk(m, x, y) && EndOk(x, true) && Channel(x, y) && Channel(y, x);
    PortsNonZero(m.seg);
    ServerOk(m.seg, isn, now, y.cfg);
    ServerState(m.seg, isn, now, y.cfg);
    ServerEndpoint(x, y, m, y', isn);
    OutputStamps(y', y', x, r.segments, false);
    hide EndOk, Channel, MsgOk, Stamp, Inv;
    ServerJoins(w, y', r.segments);
  }

  lemma ServerState(syn: Segment, isn: u32, now: u64, cfg: Config)
    ensures Server(syn, isn, now, cfg).conn.state == SynReceived
  {
    hide NegotiateMss, UpdateWindow, SendTracked;
  }

  lemma ServerEndpoint(x: Endpoint, y: Endpoint, m: Msg, y': Endpoint, isn: u32)
    requires EndOk(x, true) && y.phase == Absent && Channel(x, y) && Channel(y, x) && MsgOk(m, x, y)
    requires m.seg.flags.syn && !m.seg.flags.rst && y'.base == isn + 1
    requires y'.phase == Live && y'.sent == y'.got == [] && y'.conn.state == SynReceived
    requires var s := Stream(isn + 1, [], false);
             ConnOk(y'.conn, y'.cfg, s) && UnaPos(y'.conn, s) == isn && SndPos(y'.conn, s) == isn + 1
    requires y'.conn.rx == Rx(Add(m.seg.seqNo, 1), [], [], y'.cfg.receiveBuffer, false)
    ensures EndOk(y', false) && Channel(x, y') && Channel(y', x)
    ensures StreamOf(y') == Stream(isn + 1, [], false) && Una(y') == isn == Rcv(x, y') && Snd(y') == isn + 1
    ensures !Heard(x)
  {
    hide ConnOk, Una, Snd, Wrap, OnWire, Add, UnaPos, SndPos, Stream.Slice, MsgOk, Arrived, RxMatches;
    UnaSnd(y');
    assert StreamOf(y') == Stream(isn + 1, [], false);
    hide StreamOf;
    assert EndOk(y', false);
    ServerUnheard(x, y, y');
    hide EndOk, Channel;
    ClientReached(x, y, m, y');
  }

  lemma ServerUnheard(x: Endpoint, y: Endpoint, y': Endpoint)
    requires y.phase == Absent && Channel(y, x) && y'.phase == Live && Una(y') == y'.base - 1 && Snd(y') == y'.base
    ensures Channel(y', x) && Rcv(x, y') == y'.base - 1 && !Heard(x)
  {
    hide Una, Snd, OnWire, RxMatches, Arrived;
  }

  lemma ClientReached(x: Endpoint, y: Endpoint, m: Msg, y': Endpoint)
    requires EndOk(x, true) && y.phase == Absent && Channel(x, y) && MsgOk(m, x, y)
    requires m.seg.flags.syn && !m.seg.flags.rst && y'.phase == Live && y'.got == [] && y'.conn.state == SynReceived
    requires y'.conn.rx == Rx(Add(m.seg.seqNo, 1), [], [], y'.cfg.receiveBuffer, false)
    ensures Channel(x, y')
  {
    hide ConnOk, Snd, Una, Wrap, StreamOf, OnWire, Add, Stream.Slice, MsgOk, Channel, EndOk, Rcv, RxMatches;
    SynPosition(x, y, m);
    UnheardBase(x, y);
    WrapAdd(x.base - 1, 1);
    WireBase(x);
    FreshRx(y'.conn.rx, x.base, OnWire(x));
    assert Arrived(y') == [];
    hide Arrived;
    ArrivedPosition(y', x, x.base);
    ChannelHolds(x, y', x.base);
  }

  lemma SynPosition(x: Endpoint, y: Endpoint, m: Msg)
    requires MsgOk(m, x, y) && m.seg.flags.syn && !m.seg.flags.rst
    ensures m.seg.seqNo == Wrap(x.base - 1)
  {
    hide OnWire, Snd, Rcv, Sendable, Wrap, Heard;
    WireBase(x);
  }

  lemma UnheardBase(x: Endpoint, y: Endpoint)
    requires EndOk(x, true) && y.phase == Absent && Channel(x, y)
    ensures Una(x) <= x.base <= Snd(x) && x.phase != Absent
  {
    EndFacts(x);
    hide ConnOk, Snd, Una, RxMatches, OnWire, Arrived;
  }

  /** Everything already on the carrier came from the client, or was a reset. */
  lemma ServerJoins(w: World, y': Endpoint, out: seq<Segment>)
    requires Inv(w) && w.server.phase == Absent && EndOk(y', false) && Channel(w.client, y') && Channel(y', w.client)
    requires !Heard(w.client)
    requires forall g :: g in out ==> MsgOk(Stamp(false, y', w.client, g), y', w.client)
    ensures Inv(Commit(w, false, y', out))
  {
    hide EndOk, Channel, Snd, Rcv, OnWire, HonestAt, Wrap, Sendable, Stamp, Heard;
    var w' := Commit(w, false, y', out);
    forall m | m in w'.net
      ensures if m.fromClient then MsgOk(m, w'.client, w'.server) else MsgOk(m, w'.server, w'.client)
    {
      if m !in w.net {
        var g :| g in out && m == Stamp(false, y', w.client, g);
        StampSide(false, y', w.client, g);
      }
    }
  }

  lemma StampSide(fromClient: bool, e: Endpoint, peer: Endpoint, g: Segment)
    ensures Stamp(fromClient, e, peer, g).fromClient == fromClient
  {
  }

  // ---------------------------------------------------------------- runs

  lemma StartOk(clientCfg: Config, serverCfg: Config, localPort: u16, remotePort: u16, isn: u32, now: u64)
    requires localPort != 0 && remotePort != 0
    ensures Inv(Start(clientCfg, serverCfg, localPort, remotePort, isn, now))
  {
    hide ConnOk, Client, OutputOk, StreamOf, UnaPos, SndPos, OnWire, RxMatches, MsgOk, Sendable, Wrap;
    var r := Client(localPort, remotePort, isn, now, clientCfg);
    var s := Stream(isn + 1, [], false);
    var x := Endpoint(clientCfg, Live, r.conn, isn + 1, [], []);
    var y := Endpoint(serverCfg, Absent, r.conn, 0, [], []);
    ClientOk(localPort, remotePort, isn, now, clientCfg);
    ClientState(localPort, remotePort, isn, now, clientCfg);
    FirstStream(x, s);
    UnaSnd(x);
    hide Una, Snd;
    assert EndOk(x, true) && EndOk(y, false) && Channel(x, y) && Channel(y, x);
    FirstMessages(x, y, r.segments);
  }

  lemma FirstStream(e: Endpoint, s: Stream)
    requires e.base == s.base && e.sent == s.bytes && e.conn.state == SynSent && !s.ended
    ensures StreamOf(e) == s
  {
  }

  lemma ClientState(localPort: u16, remotePort: u16, isn: u32, now: u64, cfg: Config)
    ensures Client(localPort, remotePort, isn, now, cfg).conn.state == SynSent
  {
    hide SendTracked;
  }

  lemma FirstMessages(x: Endpoint, y: Endpoint, out: seq<Segment>)
    requires EndOk(x, true) && EndOk(y, false) && Channel(x, y) && Channel(y, x) && x.phase == Live && y.phase == Absent
    requires OutputOk(out, x.conn, x.conn, StreamOf(x), Una(x), Snd(x)) && x.conn.state == SynSent
    ensures forall m :: m in Stamps(true, x, y, out) ==> m.fromClient && MsgOk(m, x, y)
  {
    hide StreamOf, OnWire, MsgOk, Sendable, Una, Snd, Rcv, OutputOk;
    assert Una(x) <= Rcv(y, x) by { hide EndOk; }
    OutputStamps(x, x, y, out, true);
    hide EndOk, Channel, Stamp;
    forall m | m in Stamps(true, x, y, out)
      ensures m.fromClient && MsgOk(m, x, y)
    {
      var g :| g in out && m == Stamp(true, x, y, g);
      StampSide(true, x, y, g);
    }
  }

  /** Every step of either endpoint or of the carrier keeps the invariant. */
  lemma StepKeepsInv(w: World, step: Step)
    requires Inv(w) && Enabled(w, step)
    ensures Inv(Apply(w, step))
  {
    hide Inv, NotStale, MayWrite, Poll, Close, Read, Write, Input, Server, Commit, Updated, AcceptCount, ReadCount;
    hide ResetReply;
    hide ResetSegment;
    match step
    case Accept(m, isn, now) => AcceptKeeps(w, m, isn, now);
    case Deliver(m, now) => DeliverKeeps(w, m, now);
    case Stray(m) => StrayStepKeeps(w, m);
    case WriteBytes(clientSide, bytes, now) => WriteStepKeeps(w, clientSide, bytes, now);
    case ReadBytes(clientSide, max) => ReadStepKeeps(w, clientSide, max);
    case CloseStream(clientSide, now) => CloseStepKeeps(w, clientSide, now);
    case PollTimers(clientSide, now) => PollStepKeeps(w, clientSide, now);
    case Abort(clientSide) => AbortStepKeeps(w, clientSide);
  }

  lemma {:induction false} RunKeepsInv(w: World, steps: seq<Step>)
    requires Inv(w) && Runnable(w, steps)
    ensures Inv(Run(w, steps))
    decreases |steps|
  {
    hide Inv, Enabled, Apply;
    if steps != [] {
      StepKeepsInv(w, steps[0]);
      RunKeepsInv(Apply(w, steps[0]), steps[1..]);
    }
  }

  /** The worlds that runs from a first SYN lead to. */
  ghost predicate Reachable(w: World) {
    exists clientCfg: Config, serverCfg: Config, localPort: u16, remotePort: u16, isn: u32, now: u64,
      steps: seq<Step> ::
      && localPort != 0 && remotePort != 0
      && Runnable(Start(clientCfg, serverCfg, localPort, remotePort, isn, now), steps)
      && w == Run(Start(clientCfg, serverCfg, localPort, remotePort, isn, now), steps)
  }

  lemma ReachableOk(w: World)
    requires Reachable(w)
    ensures Inv(w)
  {
    hide Inv, Start, Run, Runnable;
    var clientCfg: Config, serverCfg: Config, localPort: u16, remotePort: u16, isn: u32, now: u64, steps: seq<Step> :|
      && localPort != 0 && remotePort != 0
      && Runnable(Start(clientCfg, serverCfg, localPort, remotePort, isn, now), steps)
      && w == Run(Start(clientCfg, serverCfg, localPort, remotePort, isn, now), steps);
    StartOk(clientCfg, serverCfg, localPort, remotePort, isn, now);
    RunKeepsInv(Start(clientCfg, serverCfg, localPort, remotePort, isn, now), steps);
  }

  // ---------------------------------------------------------------- what the applications see

  /** An endpoint and its peer in a world that keeps the invariant. */
  lemma Sides(w: World, side: bool)
    requires Inv(w)
    ensures var x, y := Side(w, side), Side(w, !side);
            && Channel(x, y) && EndOk(x, side) && EndOk(y, !side)
            && (x.phase != Absent ==> ConnOk(x.conn, x.cfg, StreamOf(x)))
  {
    hide ConnOk, Channel, StreamOf;
  }

  lemma ArrivedIsPrefix(x: Endpoint, y: Endpoint, clientSide: bool)
    requires Channel(x, y) && EndOk(y, clientSide)
    ensures y.got <= Arrived(y) <= x.sent
    ensures Heard(y) ==> y.conn.rx.nxt == Wrap(x.base + |Arrived(y)| + Bit(y.conn.rx.closed))
  {
    hide ConnOk, Una, Snd, ChunkMatches, Off, Wrap;
    if y.phase != Absent && !Heard(y) {
      BlankReceiver(y.conn, y.cfg, StreamOf(y));
    }
  }

  lemma AckedHeld(x: Endpoint, y: Endpoint)
    requires Channel(x, y) && x.phase != Absent && ConnOk(x.conn, x.cfg, StreamOf(x))
    ensures Una(x) <= Rcv(y, x) <= Snd(x) && x.conn.tx.acked <= |x.sent| && x.conn.tx.acked <= |Arrived(y)|
  {
    EndFacts(x);
    hide ConnOk, Snd, Wrap, RxMatches;
    assert Una(x) <= Rcv(y, x);
  }

  /**
   * In every run, what an application has read and what waits in its receive queue is a prefix of
   * the bytes the peer's application wrote, and `recv_nxt` stands for exactly its length.
   */
  lemma StreamSafety(w: World, side: bool)
    requires Reachable(w)
    ensures var x, y := Side(w, side), Side(w, !side);
            && y.got <= Arrived(y) <= x.sent
            && (Heard(y) ==> y.conn.rx.nxt == Wrap(x.base + |Arrived(y)| + Bit(y.conn.rx.closed)))
  {
    hide *;
    ReachableOk(w);
    Sides(w, side);
    ArrivedIsPrefix(Side(w, side), Side(w, !side), !side);
  }

  /**
   * In every run `una` is at or below the peer's `recv_nxt`, which is at or below `nxt`; so every
   * byte counted as acknowledged is held by the peer's stack.
   */
  lemma AcksTellTheTruth(w: World, side: bool)
    requires Reachable(w) && Side(w, side).phase != Absent
    ensures var x, y := Side(w, side), Side(w, !side);
            && Una(x) <= Rcv(y, x) <= Snd(x)
            && x.conn.tx.acked <= |x.sent| && x.sent[..x.conn.tx.acked] <= Arrived(y)
  {
    hide *;
    ReachableOk(w);
    Sides(w, side);
    ArrivedIsPrefix(Side(w, side), Side(w, !side), !side);
    AckedHeld(Side(w, side), Side(w, !side));
  }

  /**
   * In every run a closed receive side has delivered the peer's whole stream, and the peer has sent
   * its FIN; in FIN-WAIT-2 and TIME-WAIT the peer has consumed ours.
   */
  lemma FinsTellTheTruth(w: World, side: bool)
    requires Reachable(w)
    ensures var x, y := Side(w, side), Side(w, !side);
            && (Heard(y) && y.conn.rx.closed ==> x.phase != Absent && FinMade(x.conn.state) && Arrived(y) == x.sent)
            && (x.phase != Absent && FinAcked(x.conn.state) ==> Heard(y) && y.conn.rx.closed && Arrived(y) == x.sent)
  {
    hide *;
    ReachableOk(w);
    Sides(w, side);
    var x, y := Side(w, side), Side(w, !side);
    if Heard(y) && y.conn.rx.closed {
      ClosedMeansAll(x, y);
    }
    if x.phase != Absent && FinAcked(x.conn.state) {
      FinAckedMeansClosed(x, y);
      ClosedMeansAll(x, y);
    }
  }

  lemma ClosedMeansAll(x: Endpoint, y: Endpoint)
    requires Channel(x, y) && Heard(y) && y.conn.rx.closed && (x.phase != Absent ==> ConnOk(x.conn, x.cfg, StreamOf(x)))
    ensures x.phase != Absent && FinMade(x.conn.state) && Arrived(y) == x.sent
  {
    assert x.phase != Absent by { hide ConnOk, RxMatches, Una, Snd, Rcv, OnWire, Arrived; }
    EndFacts(x);
    hide ConnOk, Wrap, Una, Snd, ChunkMatches, Off;
  }

  lemma FinAckedMeansClosed(x: Endpoint, y: Endpoint)
    requires Channel(x, y) && x.phase != Absent && FinAcked(x.conn.state) && ConnOk(x.conn, x.cfg, StreamOf(x))
    ensures Heard(y) && y.conn.rx.closed
  {
    EndFacts(x);
    FinAckedEnd(x);
    hide ConnOk, Wrap, Una, Snd, ChunkMatches, Off;
  }

  lemma FinAckedEnd(x: Endpoint)
    requires FinAcked(x.conn.state) && ConnOk(x.conn, x.cfg, StreamOf(x))
    ensures Una(x) == x.base + |x.sent| + 1
  {
    EndFacts(x);
    TxFacts(x.conn.tx, StreamOf(x), Una(x));
    hide TxOk, RxOk, Quiet, Wrap, Chain;
  }

  /** Every segment either endpoint ever emits encodes, and decodes to itself. */
  lemma CarrierRoundTrip(w: World, m: Msg)
    requires Reachable(w) && m in w.net
    ensures Echo(m.seg) == Ok(m.seg)
  {
    hide *;
    ReachableOk(w);
    OnCarrier(w, m);
    SendableDecodes(m.seg);
  }

  lemma OnCarrier(w: World, m: Msg)
    requires Inv(w) && m in w.net
    ensures Sendable(m.seg)
  {
    hide Sendable, EndOk, Channel, Rcv, HonestAt, OnWire, Snd, Heard, Wrap;
  }

  // ---------------------------------------------------------------- markers

  /** Along a run an endpoint that exists stays the same connection and its stream only grows. */
  predicate Grows(e: Endpoint, e': Endpoint) {
    e.phase != Absent ==> e'.phase != Absent && e'.base == e.base && e.sent <= e'.sent
  }

  lemma StepGrows(w: World, step: Step, side: bool)
    requires Enabled(w, step)
    ensures Grows(Side(w, side), Side(Apply(w, step), side))
  {
    hide Stamps, Poll, Close, Read, Write, Input, Server, ResetReply, ResetSegment, NotStale, MayWrite;
    hide SupportsFipsVersion;
  }

  lemma {:induction false} RunGrows(w: World, steps: seq<Step>, side: bool)
    requires Runnable(w, steps)
    ensures Grows(Side(w, side), Side(Run(w, steps), side))
    decreases |steps|
  {
    hide Enabled, Apply;
    if steps != [] {
      StepGrows(w, steps[0], side);
      RunGrows(Apply(w, steps[0]), steps[1..], side);
    }
  }

  /** The counters behind an endpoint's markers. */
  function ProgressOf(e: Endpoint, token: u64): Markers.Progress {
    Markers.Progress(token, e.conn.tx.accepted, e.conn.tx.acked)
  }

  /**
   * A marker taken at any moment of a run and reported as acknowledged at any later one means that
   * the peer's stack holds every byte written before it was taken.
   */
  lemma AckedMarkerMeansHeld(w: World, steps: seq<Step>, side: bool, id: u64, token: u64)
    requires Reachable(w) && Side(w, side).phase != Absent && Runnable(w, steps)
    ensures var before, x, y := Side(w, side), Side(Run(w, steps), side), Side(Run(w, steps), !side);
            ProgressOf(x, token).Status(ProgressOf(before, token).Marker(id)) == Markers.Acked ==>
              before.sent <= Arrived(y)
  {
    hide *;
    RunGrows(w, steps, side);
    ReachableOk(w);
    RunKeepsInv(w, steps);
    MarkerHeld(w, Run(w, steps), side, id, token);
  }

  lemma MarkerHeld(w: World, w': World, side: bool, id: u64, token: u64)
    requires Inv(w) && Inv(w') && Side(w, side).phase != Absent && Grows(Side(w, side), Side(w', side))
    ensures var before, x := Side(w, side), Side(w', side);
            ProgressOf(x, token).Status(ProgressOf(before, token).Marker(id)) == Markers.Acked ==>
              before.sent <= Arrived(Side(w', !side))
  {
    hide Inv, Channel, EndOk, ConnOk, Arrived, Una, Snd, Rcv, StreamOf;
    Sides(w, side);
    AcceptedCount(Side(w, side));
    Sides(w', side);
    ArrivedIsPrefix(Side(w', side), Side(w', !side), !side);
    AckedHeld(Side(w', side), Side(w', !side));
  }

  lemma AcceptedCount(e: Endpoint)
    requires ConnOk(e.conn, e.cfg, StreamOf(e))
    ensures e.conn.tx.accepted == |e.sent|
  {
    TxFacts(e.conn.tx, StreamOf(e), Una(e));
    hide TxOk, RxOk, Quiet, Wrap, Chain, NxtPos;
  }
}
