/** Every step of the network keeps the invariant, and what that says about the two applications. */
module NetworkSafety {
  import opened Numbers
  import opened SequenceSpace
  import opened Wire
  import opened Types
  import opened Receiver
  import opened Delivery
  import opened SendInvariant
  import opened SendSteps
  import opened ConnectionInvariant
  import opened ConnectionSteps
  import opened Network

  // ---------------------------------------------------------------- an endpoint's own side

  lemma EndFacts(e: Endpoint)
    requires ConnOk(e.conn, e.cfg, StreamOf(e))
    ensures e.conn.tx.una == Wrap(Una(e)) && e.conn.tx.nxt == Wrap(Snd(e))
    ensures e.base - 1 <= Una(e) <= Snd(e) <= Una(e) + MAX_SPAN
    ensures e.base <= Snd(e) <= StreamOf(e).End() + Bit(StreamOf(e).ended)
    ensures StreamOf(e).ended ==> Snd(e) == StreamOf(e).End() + 1
    ensures OnWire(e).End() + Bit(OnWire(e).ended) == Snd(e)
    ensures e.conn.tx.acked <= |e.sent| && e.conn.tx.acked == StreamOf(e).Count(Una(e))
  {
    TxFacts(e.conn.tx, StreamOf(e), Una(e));
    hide TxOk, RxOk, Quiet, Wrap, Chain, NxtPos;
  }

  lemma WireExtends(e: Endpoint, e': Endpoint)
    requires ConnOk(e.conn, e.cfg, StreamOf(e)) && ConnOk(e'.conn, e'.cfg, StreamOf(e'))
    requires StreamOf(e').Extends(StreamOf(e)) && Snd(e) <= Snd(e')
    ensures OnWire(e').Extends(OnWire(e))
  {
    EndFacts(e);
    EndFacts(e');
    hide ConnOk, Wrap, Snd, Una;
    PrefixExtends(StreamOf(e), StreamOf(e'), Snd(e), Snd(e'));
  }

  lemma PrefixExtends(s: Stream, s': Stream, n: int, n': int)
    requires s'.Extends(s) && n <= n' && (s.ended ==> n > s.End())
    ensures s'.(bytes := s'.bytes[..s'.Count(n')]).Extends(s.(bytes := s.bytes[..s.Count(n)]))
  {
  }

  /** Sequence space below `nxt` agrees with what is on the wire. */
  lemma HonestOnWire(e: Endpoint, g: Segment, p: int)
    requires ConnOk(e.conn, e.cfg, StreamOf(e))
    requires HonestAt(g, p, StreamOf(e)) && p + SequenceLen(g) <= Snd(e)
    ensures HonestAt(g, p, OnWire(e))
  {
    EndFacts(e);
    hide ConnOk, Wrap, Snd, Una;
    if g.payload != [] {
      HeldBelow(StreamOf(e), p, g.payload, StreamOf(e).Count(Snd(e)));
    }
  }

  lemma HeldBelow(s: Stream, p: int, payload: seq<byte>, n: nat)
    requires s.Holds(p, payload) && n <= |s.bytes| && p + |payload| <= s.base + n
    ensures s.(bytes := s.bytes[..n]).Holds(p, payload)
  {
    assert s.bytes[..n][p - s.base..p - s.base + |payload|] == s.bytes[p - s.base..p - s.base + |payload|];
  }

  /** The stamps of truthful output are the positions its numbers stand for. */
  lemma StampOk(e: Endpoint, e': Endpoint, peer: Endpoint, g: Segment, clientSide: bool)
    requires ConnOk(e'.conn, e'.cfg, StreamOf(e')) && e'.phase != Absent
    requires TruthfulFrom(g, e.conn, e'.conn, StreamOf(e'), Una(e), Snd(e')) && Sendable(g)
    requires Snd(e') <= Una(e) + 0x4_0000
    requires e'.conn.state != (if clientSide then SynReceived else SynSent)
    requires Heard(e') ==> e'.conn.rx.nxt == Wrap(Rcv(e', peer))
    requires e.conn.state != SynSent ==>
      e.conn.rx.nxt == Wrap(Rcv(e, peer)) && Rcv(e, peer) <= Rcv(e', peer) <= Rcv(e, peer) + 0x2_0000
    ensures MsgOk(Stamp(clientSide, e', peer, g), e', peer)
  {
    hide ConnOk, Wrap, Snd, Una, Rcv, OnWire, Off, HonestAt, Sendable;
    var p := StampPos(e, e', g);
    if g.ack.Some? {
      StampAck(e, e', peer, g.ack.value);
    }
  }

  lemma StampPos(e: Endpoint, e': Endpoint, g: Segment) returns (p: int)
    requires ConnOk(e'.conn, e'.cfg, StreamOf(e')) && Honest(g, StreamOf(e'), Una(e), Snd(e'))
    requires Snd(e') <= Una(e) + 0x4_0000
    ensures p == Snd(e') + Off(e'.conn.tx.nxt, g.seqNo) && HonestAt(g, p, OnWire(e')) && p + SequenceLen(g) <= Snd(e')
    ensures |g.payload| <= 0x4_0000
  {
    p :| HonestAt(g, p, StreamOf(e')) && Una(e) <= p && p + SequenceLen(g) <= Snd(e');
    EndFacts(e');
    WrapOrder(p, Snd(e'));
    hide ConnOk, Wrap, Snd, Una, OnWire, Off;
    HonestOnWire(e', g, p);
  }

  lemma StampAck(e: Endpoint, e': Endpoint, peer: Endpoint, ack: u32)
    requires AckBetween(ack, e.conn, e'.conn) && e'.conn.rx.nxt == Wrap(Rcv(e', peer))
    requires e.conn.state != SynSent ==>
      e.conn.rx.nxt == Wrap(Rcv(e, peer)) && Rcv(e, peer) <= Rcv(e', peer) <= Rcv(e, peer) + 0x2_0000
    ensures var q := Rcv(e', peer) + Off(e'.conn.rx.nxt, ack); ack == Wrap(q) && q <= Rcv(e', peer)
  {
    hide Rcv;
    WrapOrder(Rcv(e', peer), Rcv(e', peer));
    if ack != e'.conn.rx.nxt {
      WrapOrder(Rcv(e, peer), Rcv(e', peer));
    }
  }

  /** One endpoint moves on; everything the other relies on still holds. */
  lemma EndpointMoves(w: World, clientSide: bool, e': Endpoint, out: seq<Segment>)
    requires Inv(w) && EndOk(e', clientSide)
    requires var e := Side(w, clientSide); var peer := Side(w, !clientSide);
      && e.phase != Absent && e'.phase != Absent && e'.base == e.base
      && OnWire(e').Extends(OnWire(e)) && Una(e') <= Rcv(peer, e) && Snd(e) <= Snd(e')
      && Channel(peer, e') && (Heard(e) ==> Heard(e')) && Rcv(e, peer) <= Rcv(e', peer)
      && (forall g :: g in out ==> MsgOk(Stamp(clientSide, e', peer, g), e', peer))
    ensures Inv(Commit(w, clientSide, e', out))
  {
    var e, peer := Side(w, clientSide), Side(w, !clientSide);
    hide EndOk, Channel, OnWire, Una, Snd, Rcv, MsgOk, Heard, Stream.Extends, Stamp;
    PeerStillMatches(e, e', peer);
    MessagesMove(w, clientSide, e', out);
  }

  lemma MessagesMove(w: World, clientSide: bool, e': Endpoint, out: seq<Segment>)
    requires Inv(w) && e'.phase != Absent
    requires var e := Side(w, clientSide); var peer := Side(w, !clientSide);
      && e'.base == e.base && OnWire(e').Extends(OnWire(e)) && Snd(e) <= Snd(e')
      && (Heard(e) ==> Heard(e')) && Rcv(e, peer) <= Rcv(e', peer)
      && (forall g :: g in out ==> MsgOk(Stamp(clientSide, e', peer, g), e', peer))
    ensures var w' := Commit(w, clientSide, e', out);
            forall m :: m in w'.net ==>
              if m.fromClient then MsgOk(m, w'.client, w'.server) else MsgOk(m, w'.server, w'.client)
  {
    hide EndOk, Channel, OnWire, Una, Snd, Rcv, MsgOk, Heard, Stream.Extends;
    var e, peer := Side(w, clientSide), Side(w, !clientSide);
    var w' := Commit(w, clientSide, e', out);
    forall m | m in w'.net
      ensures if m.fromClient then MsgOk(m, w'.client, w'.server) else MsgOk(m, w'.server, w'.client)
    {
      if m in w.net {
        if m.fromClient == clientSide {
          MsgStillOk(m, e, e', peer);
        } else {
          MsgToStillOk(m, e, e', peer);
        }
      } else {
        var g :| g in out && m == Stamp(clientSide, e', peer, g);
      }
    }
  }

  lemma PeerStillMatches(e: Endpoint, e': Endpoint, peer: Endpoint)
    requires Channel(e, peer) && e.phase != Absent && e'.phase != Absent && e'.base == e.base
    requires OnWire(e').Extends(OnWire(e)) && Una(e') <= Rcv(peer, e) && Snd(e) <= Snd(e')
    ensures Channel(e', peer)
  {
    hide Una, Snd;
    if Heard(peer) {
      MatchesExtends(peer.conn.rx, Rcv(peer, e), OnWire(e), OnWire(e'));
    }
  }

  lemma MsgStillOk(m: Msg, e: Endpoint, e': Endpoint, peer: Endpoint)
    requires MsgOk(m, e, peer) && e'.phase != Absent && e'.base == e.base
    requires OnWire(e').Extends(OnWire(e)) && Snd(e) <= Snd(e') && (Heard(e) ==> Heard(e'))
    requires Rcv(e, peer) <= Rcv(e', peer)
    ensures MsgOk(m, e', peer)
  {
    hide OnWire, Snd, Sendable, Wrap;
  }

  lemma MsgToStillOk(m: Msg, e: Endpoint, e': Endpoint, peer: Endpoint)
    requires MsgOk(m, peer, e) && e'.base == e.base
    ensures MsgOk(m, peer, e')
  {
    hide OnWire, Snd, Sendable, Wrap, HonestAt;
  }

  // ---------------------------------------------------------------- receiving

  lemma RcvFacts(x: Endpoint, y: Endpoint)
    requires Channel(x, y) && Heard(y)
    ensures y.conn.rx.nxt == Wrap(Rcv(y, x)) && x.base <= Rcv(y, x) && x.phase != Absent
    ensures Rcv(y, x) <= OnWire(x).End() + Bit(OnWire(x).ended)
  {
  }

  /** With a matching receiver, `Arrived` and the closed flag give the position of `recv_nxt`. */
  lemma ArrivedPosition(y: Endpoint, x: Endpoint, r: int)
    requires Heard(y) && RxMatches(y.conn.rx, r, OnWire(x)) && Arrived(y) == OnWire(x).Slice(x.base, r)
    ensures Rcv(y, x) == r
  {
  }

  /** A segment's stream data, delivered less than 2^31 positions stale, extends what has arrived. */
  lemma DataArrives(x: Endpoint, y: Endpoint, m: Msg, y': Endpoint)
    requires Channel(x, y) && Heard(y) && Heard(y') && MsgOk(m, x, y) && !m.seg.flags.rst && !m.seg.flags.syn
    requires ConnOk(y.conn, y.cfg, StreamOf(y)) && ConnOk(x.conn, x.cfg, StreamOf(x))
    requires m.pos > Rcv(y, x) - 0x8000_0000
    requires y'.conn.rx == ReceivedRx(y.conn, m.seg, y.cfg) && y'.got == y.got
    ensures Channel(x, y') && Rcv(y, x) <= Rcv(y', x) <= Rcv(y, x) + 0x1_0000
  {
    hide ReceivedRx, Channel, ConnOk, MsgOk, OnWire, Una, Snd, Rcv, Arrived, RxMatches, RxOk, ChunkMatches, Wrap, Off;
    hide Receive;
    ReceivedIs(y, m.seg);
    if m.seg.payload != [] || m.seg.flags.fin {
      DataMatches(x, y, m);
      RcvFacts(x, y);
      EndFacts(x);
      ConnFacts(y.conn, y.cfg, StreamOf(y));
      hide Heard;
      var r := Rcv(y, x);
      ReceiveDelivers(y.conn.rx, r, OnWire(x), m.seg.seqNo, m.seg.payload, m.seg.flags.fin, m.pos,
                      y.cfg.maxReassemblySegments);
      var r2 := r + Off(y.conn.rx.nxt, y'.conn.rx.nxt);
      ArrivedGrows(x, y, y', r2);
      MatchedBound(y'.conn.rx, r2, OnWire(x));
      ChannelHolds(x, y', r2);
    } else {
      SameChannel(x, y, y');
    }
  }

  lemma ReceivedIs(y: Endpoint, g: Segment)
    ensures ReceivedRx(y.conn, g, y.cfg) ==
            if g.payload != [] || g.flags.fin
            then Receive(y.conn.rx, g.seqNo, g.payload, g.flags.fin, y.cfg.receiveBuffer,
                         y.cfg.maxReassemblySegments).rx
            else y.conn.rx
  {
  }

  lemma ChannelHolds(x: Endpoint, y: Endpoint, r: int)
    requires x.phase != Absent && Heard(y) && Rcv(y, x) == r && Una(x) <= r <= Snd(x)
    requires RxMatches(y.conn.rx, r, OnWire(x)) && Arrived(y) == OnWire(x).Slice(x.base, r) && x.base <= r
    ensures Channel(x, y)
  {
  }

  lemma SameChannel(x: Endpoint, y: Endpoint, y': Endpoint)
    requires Channel(x, y) && (Heard(y) <==> Heard(y')) && (y.phase == Absent <==> y'.phase == Absent)
    requires y'.conn.rx == y.conn.rx && y'.got == y.got
    ensures Channel(x, y') && Rcv(y', x) == Rcv(y, x) && Arrived(y') == Arrived(y)
  {
  }

  /** The segment agrees with what its sender has on the wire, near the receiver's position. */
  lemma DataMatches(x: Endpoint, y: Endpoint, m: Msg)
    requires Channel(x, y) && Heard(y) && MsgOk(m, x, y) && !m.seg.flags.rst && !m.seg.flags.syn
    requires m.seg.payload != [] || m.seg.flags.fin
    requires ConnOk(x.conn, x.cfg, StreamOf(x))
    requires m.pos > Rcv(y, x) - 0x8000_0000
    ensures ChunkMatches(Chunk(m.seg.seqNo, m.seg.payload, m.seg.flags.fin), m.pos, OnWire(x))
    ensures m.seg.seqNo == Wrap(m.pos) && -0x8000_0000 < m.pos - Rcv(y, x) < 0x4000_0000
    ensures |m.seg.payload| < 0x4000_0000 && RxMatches(y.conn.rx, Rcv(y, x), OnWire(x))
    ensures Arrived(y) == OnWire(x).Slice(x.base, Rcv(y, x)) && Una(x) <= Rcv(y, x)
  {
    EndFacts(x);
    hide ConnOk, OnWire, Una, Snd, Wrap, Rcv, Sendable;
  }

  lemma ArrivedGrows(x: Endpoint, y: Endpoint, y': Endpoint, r2: int)
    requires Heard(y) && Heard(y') && Arrived(y) == OnWire(x).Slice(x.base, Rcv(y, x))
    requires x.base <= Rcv(y, x) <= r2 && RxMatches(y'.conn.rx, r2, OnWire(x)) && y'.got == y.got
    requires y'.conn.rx.queue == y.conn.rx.queue + OnWire(x).Slice(Rcv(y, x), r2)
    ensures Arrived(y') == OnWire(x).Slice(x.base, r2) && Rcv(y', x) == r2
  {
    hide OnWire, Wrap, Off, ChunkMatches;
    var s, r := OnWire(x), Rcv(y, x);
    SliceJoin(s, x.base, r, r2);
    assert Arrived(y') == Arrived(y) + s.Slice(r, r2);
    ArrivedPosition(y', x, r2);
  }

  lemma MatchedBound(rx: Rx, r: int, s: Stream)
    requires RxMatches(rx, r, s)
    ensures s.base <= r <= s.End() + Bit(s.ended)
  {
  }
}
