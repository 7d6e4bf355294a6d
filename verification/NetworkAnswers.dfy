/**
 * What a delivery brings about between two connections: data is answered with an ACK of exactly what
 * was received, an ACK releases exactly what it covers, and a connection that ends without a reset
 * leaves both streams complete.
 */
module NetworkAnswers {
  import opened Numbers
  import opened SequenceSpace
  import opened Wire
  import opened Types
  import opened Sender
  import opened Receiver
  import opened Delivery
  import opened ConnectionSpec
  import opened ConnectionInvariant
  import opened ConnectionSteps
  import opened Network
  import opened NetworkSafety
  import opened NetworkRuns
  import Answers
  import Resets
  import Windows

  // ---------------------------------------------------------------- data is answered

  /** A pure ACK on the carrier for everything the endpoint has received, with the space it has left. */
  predicate Acknowledges(n: Msg, fromClient: bool, y: Endpoint, x: Endpoint) {
    && n.fromClient == fromClient && !n.seg.flags.rst && SequenceLen(n.seg) == 0
    && n.seg.ack == Some(y.conn.rx.nxt) && n.ackPos == Rcv(y, x)
    && n.seg.window == Min(SatSub(y.conn.rx.capacity, |y.conn.rx.queue| + PayloadBytes(y.conn.rx.chunks)), 0xFFFF)
  }

  lemma SameOff(a: u32)
    ensures Off(a, a) == 0
  {
  }

  lemma StampAcknowledges(side: bool, y: Endpoint, x: Endpoint, a: Segment)
    requires Answers.IsAck(a, y.conn)
    ensures Acknowledges(Stamp(side, y, x, a), side, y, x)
  {
    hide Rcv, Snd, Off, PayloadBytes;
    SameOff(y.conn.rx.nxt);
  }

  /**
   * In every world, whatever data or FIN is delivered to a connection that stays open, there is then
   * an ACK on its way back for exactly what the receiver holds in order.
   */
  lemma DeliveryIsAnswered(w: World, m: Msg, now: u64)
    requires Enabled(w, Deliver(m, now))
    requires Answers.CarriesData(Side(w, !m.fromClient).conn, m.seg)
    ensures var w' := Apply(w, Deliver(m, now)); var side := !m.fromClient;
            Side(w', side).phase == Live ==>
              exists n :: n in w'.net && Acknowledges(n, side, Side(w', side), Side(w', !side))
  {
    hide Input, NotStale, Answers.CarriesData, Answers.IsAck, Acknowledges, Stamp;
    var side := !m.fromClient;
    var y, x := Side(w, side), Side(w, !side);
    var r := Input(y.conn, m.seg, now, y.cfg);
    if !r.closed {
      Answers.DataIsAcknowledged(y.conn, m.seg, now, y.cfg);
      var a :| a in r.segments && Answers.IsAck(a, r.conn);
      var y' := y.(conn := r.conn);
      StampAcknowledges(side, y', x, a);
      assert Stamp(side, y', x, a) in Apply(w, Deliver(m, now)).net;
    }
  }

  // ---------------------------------------------------------------- an ACK releases what it covers

  lemma UnaMoves(c: Conn, g: Segment, now: u64, cfg: Config, s: Stream)
    requires ConnOk(c, cfg, s) && Synchronized(c.state) && !g.flags.rst && !g.flags.syn && g.ack.Some?
    ensures var r := Input(c, g, now, cfg);
            !r.closed ==> r.conn.tx.una == if Acceptable(c.tx, g.ack.value) then g.ack.value else c.tx.una
  {
    hide ConnOk, CoreOk, FinishSegment, AckPart, UnaPos, OutputOk, UnaAfter, SndPos, Acceptable, Input;
    ConnFacts(c, cfg, s);
    SynchronizedInput(c, g, now, cfg);
    var part := AckPart(c, g.ack.value, g, now, cfg);
    AckPartKeeps(c, g.ack.value, g, now, cfg, s);
    PartUna(c, g, now, cfg);
    if !part.closed { Windows.FinishWindow(part.conn, part.segments, g, now, cfg, s); }
  }

  lemma PartUna(c: Conn, g: Segment, now: u64, cfg: Config)
    requires g.ack.Some?
    ensures AckPart(c, g.ack.value, g, now, cfg).conn.tx.una
         == if Acceptable(c.tx, g.ack.value) then g.ack.value else c.tx.una
  {
    hide ApplyAck, Acceptable, SegmentsFor, Repair, InClosedInterval, SequenceSpace.After;
    var ack := g.ack.value;
    Windows.AckMovesUna(c.tx, ack, now, IsDuplicateAckCandidate(g, c.tx.una, c.tx.window));
    hide IsDuplicateAckCandidate;
    var o := AckedTx(c.tx, ack, g, now);
    RepairUna(if InClosedInterval(ack, o.tx.una, o.tx.nxt) then UpdateWindow(o.tx, g.window, now) else o.tx, now, cfg);
  }

  lemma RepairUna(tx: Tx, now: u64, cfg: Config)
    ensures Repair(tx, now, cfg).tx.una == tx.una
  {
  }

  /**
   * In every reachable world, an ACK delivered to a synchronised connection that stays open moves its
   * `una` to exactly the position acknowledged, if that is beyond, and never back.
   */
  lemma AckReleases(w: World, m: Msg, now: u64)
    requires Reachable(w) && Enabled(w, Deliver(m, now)) && Synchronized(Side(w, !m.fromClient).conn.state)
    requires !m.seg.flags.rst && !m.seg.flags.syn && m.seg.ack.Some?
    ensures var side := !m.fromClient;
            var y, y' := Side(w, side), Side(Apply(w, Deliver(m, now)), side);
            y'.phase == Live ==> Una(y') == Max(Una(y), m.ackPos)
  {
    hide *;
    ReachableOk(w);
    StepKeepsInv(w, Deliver(m, now));
    var side, w' := !m.fromClient, Apply(w, Deliver(m, now));
    var y, y', x := Side(w, side), Side(w', side), Side(w, !side);
    DeliveryIs(w, m, now);
    Sides(w, side);
    Sides(w', side);
    MessageOk(w, m);
    if y'.phase == Live {
      UnaMoves(y.conn, m.seg, now, y.cfg, StreamOf(y));
      Releases(x, y, y', m);
    }
  }

  /** What a delivery makes of the endpoint. */
  lemma DeliveryIs(w: World, m: Msg, now: u64)
    requires Enabled(w, Deliver(m, now))
    ensures var side := !m.fromClient; var y := Side(w, side);
            var y', r := Side(Apply(w, Deliver(m, now)), side), Input(y.conn, m.seg, now, y.cfg);
            && y.phase == Live && NotStale(m, y, Side(w, !side)) && m in w.net
            && Side(Apply(w, Deliver(m, now)), !side) == Side(w, !side)
            && y' == (if r.closed then y.(phase := Gone) else y.(conn := r.conn))
  {
    hide Input, NotStale, Stamps;
  }

  lemma MessageOk(w: World, m: Msg)
    requires Inv(w) && m in w.net
    ensures MsgOk(m, Side(w, m.fromClient), Side(w, !m.fromClient))
  {
    hide MsgOk, EndOk, Channel;
  }

  lemma Releases(x: Endpoint, y: Endpoint, y': Endpoint, m: Msg)
    requires ConnOk(y.conn, y.cfg, StreamOf(y)) && ConnOk(y'.conn, y'.cfg, StreamOf(y'))
    requires Channel(y, x) && Channel(y', x) && y.phase == Live && y'.phase == Live && y'.base == y.base
    requires MsgOk(m, x, y) && NotStale(m, y, x) && !m.seg.flags.rst && m.seg.ack.Some?
    requires y'.conn.tx.una == if Acceptable(y.conn.tx, m.seg.ack.value) then m.seg.ack.value else y.conn.tx.una
    ensures Una(y') == Max(Una(y), m.ackPos)
  {
    EndFacts(y);
    EndFacts(y');
    AckIsAt(x, y, m);
    Between(y, y', x);
    hide ConnOk, Una, Snd, Rcv, Channel, MsgOk, NotStale, Acceptable, Wrap;
    WrapOrder(m.ackPos, Una(y));
    WrapOrder(Una(y'), Una(y));
    WrapOrder(Una(y'), m.ackPos);
  }

  /** The peer's position bounds both. */
  lemma Between(y: Endpoint, y': Endpoint, x: Endpoint)
    requires Channel(y, x) && Channel(y', x) && y.phase == Live && y'.phase == Live && y'.base == y.base
    ensures Una(y) <= Rcv(x, y) && Una(y') <= Rcv(x, y) <= Snd(y')
  {
    hide Una, Snd, RxMatches, Arrived, OnWire;
  }

  /** The position acknowledged is within what the peer received, and acceptable exactly if not old. */
  lemma AckIsAt(x: Endpoint, y: Endpoint, m: Msg)
    requires ConnOk(y.conn, y.cfg, StreamOf(y)) && Channel(y, x) && y.phase == Live
    requires MsgOk(m, x, y) && NotStale(m, y, x) && !m.seg.flags.rst && m.seg.ack.Some?
    ensures m.seg.ack.value == Wrap(m.ackPos) && Una(y) - 0x8000_0000 < m.ackPos <= Rcv(x, y) <= Snd(y)
    ensures Acceptable(y.conn.tx, m.seg.ack.value) <==> Una(y) <= m.ackPos
  {
    EndFacts(y);
    hide ConnOk, Una, Snd, Rcv, RxMatches, Arrived, OnWire, Wrap, HonestAt, Sendable;
    WrapOrder(m.ackPos, Una(y));
    if Una(y) <= m.ackPos { WrapOrder(m.ackPos, Snd(y)); }
  }

  // ---------------------------------------------------------------- the end of a connection

  /**
   * In every reachable world, a delivery that ends a connection without a reset finds both streams
   * complete: each application's stack holds every byte the other application wrote.
   */
  lemma GracefulEnd(w: World, m: Msg, now: u64)
    requires Reachable(w) && Enabled(w, Deliver(m, now)) && !m.seg.flags.rst
    requires Side(Apply(w, Deliver(m, now)), !m.fromClient).phase == Gone
    ensures var y, x := Side(w, !m.fromClient), Side(w, m.fromClient);
            Arrived(y) == x.sent && Arrived(x) == y.sent && y.conn.rx.closed && x.conn.rx.closed
  {
    hide *;
    ReachableOk(w);
    var side := !m.fromClient;
    var y, x := Side(w, side), Side(w, !side);
    DeliveryIs(w, m, now);
    Sides(w, side);
    Sides(w, !side);
    MessageOk(w, m);
    LastAckCloses(y, m, now);
    HeardLately(y);
    ClosedMeansAll(x, y);
    AckIsAt(x, y, m);
    AllAcknowledged(x, y, m);
    ClosedMeansAll(y, x);
  }

  lemma LastAckCloses(y: Endpoint, m: Msg, now: u64)
    requires ConnOk(y.conn, y.cfg, StreamOf(y)) && Input(y.conn, m.seg, now, y.cfg).closed && !m.seg.flags.rst
    ensures y.conn.state == LastAck && y.conn.rx.closed && m.seg.ack == Some(y.conn.tx.nxt)
  {
    hide ConnOk, Input;
    Resets.ConnInputCloses(y.conn, m.seg, now, y.cfg, StreamOf(y));
  }

  lemma HeardLately(y: Endpoint)
    requires y.phase == Live && y.conn.state == LastAck
    ensures Heard(y) && FinMade(y.conn.state)
  {
  }

  /** An ACK of everything means that the peer consumed our FIN. */
  lemma AllAcknowledged(x: Endpoint, y: Endpoint, m: Msg)
    requires ConnOk(y.conn, y.cfg, StreamOf(y)) && Channel(y, x) && y.phase == Live && y.conn.state == LastAck
    requires m.seg.ack == Some(y.conn.tx.nxt) && m.seg.ack.value == Wrap(m.ackPos)
    requires Una(y) - 0x8000_0000 < m.ackPos <= Rcv(x, y) <= Snd(y)
    ensures Heard(x) && x.conn.rx.closed
  {
    EndFacts(y);
    SameNumber(m.ackPos, Snd(y));
    hide ConnOk, Una, Snd, Wrap, RxMatches, Off;
  }

  lemma SameNumber(p: int, q: int)
    requires Wrap(p) == Wrap(q) && -0x1_0000_0000 < p - q < 0x1_0000_0000
    ensures p == q
  {
  }
}
