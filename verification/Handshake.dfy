/** The three-way handshake over a carrier that loses nothing: both ends open, with the same segment size. */
module Handshake {
  import opened Numbers
  import opened SequenceSpace
  import opened Wire
  import opened RenoControl
  import opened RttEstimation
  import opened Types
  import opened Sender
  import opened ConnectionSpec

  /** The SYN's sequence number is the first, and `nxt` stands just behind it. */
  lemma ClientSyn(localPort: u16, remotePort: u16, isn: u32, now: u64, cfg: Config)
    ensures var r := Client(localPort, remotePort, isn, now, cfg);
            && |r.segments| == 1 && r.conn.state == SynSent && r.conn.tx.una == isn && r.conn.tx.nxt == Add(isn, 1)
            && r.conn.tx.mss == cfg.mss && r.conn.tx.queue == [] && !r.conn.tx.closeRequested && r.conn.rx.chunks == []
            && var syn := r.segments[0];
               syn == Segment(localPort, remotePort, isn, None, SYN_FLAG, cfg.receiveBuffer,
                              [MaxSegmentSize(cfg.mss), FipsVersion(FIPS_VERSION, 0)], [])
  {
    hide RenoControl.Initial, RttEstimation.Initial, Add;
    AddAdd(isn, 0, 1);
    AddAdd(isn, 1, 0);
  }

  lemma SynSupports(mss: u16, s: Segment)
    requires s.options == [MaxSegmentSize(mss), FipsVersion(FIPS_VERSION, 0)]
    ensures SupportsFipsVersion(s, FIPS_VERSION) && FirstMss(s.options) == Some(mss)
  {
    assert s.options[1] == FipsVersion(FIPS_VERSION, 0);
  }

  lemma ServerSynAck(syn: Segment, mss: u16, isn: u32, now: u64, cfg: Config)
    requires syn.options == [MaxSegmentSize(mss), FipsVersion(FIPS_VERSION, 0)] && mss >= 1
    ensures var r := Server(syn, isn, now, cfg);
            && |r.segments| == 1 && r.conn.state == SynReceived && r.conn.tx.una == isn && r.conn.tx.nxt == Add(isn, 1)
            && r.conn.tx.mss == Min(mss, cfg.mss) && r.conn.tx.queue == [] && !r.conn.tx.closeRequested
            && r.conn.rx.nxt == Add(syn.seqNo, 1) && r.conn.rx.chunks == []
            && var ack := r.segments[0];
               ack == Segment(syn.dstPort, syn.srcPort, isn, Some(Add(syn.seqNo, 1)), SYN_ACK, cfg.receiveBuffer,
                              [MaxSegmentSize(Min(mss, cfg.mss)), FipsVersion(FIPS_VERSION, 0)], [])
  {
    SynSupports(mss, syn);
    hide RenoControl.Initial, RttEstimation.Initial, Add, FirstMss;
    AddAdd(isn, 0, 1);
    AddAdd(isn, 1, 0);
  }

  /** An ACK of everything sent leaves the queues, the segment size and the close request alone. */
  lemma AckLeaves(tx: Tx, now: u64)
    ensures var tx' := ApplyAck(tx, tx.nxt, now, false).tx;
            tx'.mss == tx.mss && tx'.queue == tx.queue && tx'.closeRequested == tx.closeRequested
  {
    hide AckedCount, PayloadIn, TrimCount, TrimFront, LastSample, HasFin, Acceptable;
  }

  lemma OneAhead(isn: u32)
    ensures After(Add(isn, 1), isn) && !After(Add(isn, 1), Add(isn, 1))
  {
  }

  /** The client answers the SYN-ACK with the ACK of the server's SYN, and is established. */
  lemma ClientEstablishes(c: Conn, g: Segment, mss: u16, now: u64, cfg: Config)
    requires c.state == SynSent && c.tx.nxt == Add(c.tx.una, 1) && !g.flags.rst && g.flags == SYN_ACK
    requires g.ack == Some(c.tx.nxt) && g.options == [MaxSegmentSize(mss), FipsVersion(FIPS_VERSION, 0)] && mss >= 1
    ensures var r := Input(c, g, now, cfg);
            && !r.closed && r.conn.state == Established && r.conn.tx.mss == Min(mss, cfg.mss)
            && r.conn.rx == c.rx.(nxt := Add(g.seqNo, 1)) && |r.segments| == 1
            && r.segments[0].ack == Some(Add(g.seqNo, 1)) && r.segments[0].flags == ACK_FLAG
            && r.segments[0].payload == []
  {
    OneAhead(c.tx.una);
    SynSupports(mss, g);
    var tx := NegotiateMss(UpdateWindow(c.tx, g.window, now), g, cfg);
    AckLeaves(tx, now);
    hide ApplyAck, Add, SequenceSpace.After, SupportsFipsVersion, FirstMss, WindowField;
  }

  /** The server's SYN-ACK was acknowledged: it is established, and the application may accept it. */
  lemma ServerEstablishes(c: Conn, g: Segment, now: u64, cfg: Config)
    requires c.state == SynReceived && g.ack == Some(c.tx.nxt) && g.flags == ACK_FLAG && g.payload == []
    requires c.tx.queue == [] && !c.tx.closeRequested
    ensures var r := Input(c, g, now, cfg);
            && !r.closed && r.accepted && r.conn.state == Established && r.conn.tx.mss == c.tx.mss && r.conn.rx == c.rx
            && r.segments == []
  {
    AckLeaves(c.tx, now);
    var o := ApplyAck(c.tx, c.tx.nxt, now, false);
    NothingToFlush(c.(tx := UpdateWindow(o.tx, g.window, now), state := Established), now);
    hide ApplyAck, FlushData, Add;
  }

  lemma NothingToFlush(c: Conn, now: u64)
    requires c.tx.queue == [] && !c.tx.closeRequested
    ensures FlushData(c, now) == Open(c, [])
  {
    hide Room;
    assert c.(tx := c.tx, state := c.state) == c;
  }

  /**
   * For all configurations, ports, initial numbers and times: the SYN, the SYN-ACK and its ACK open
   * both ends, each expecting the other's first byte, and they agree on the segment size.
   */
  lemma HandshakeOpens(client: Config, server: Config, localPort: u16, remotePort: u16, isn: u32, isn2: u32,
                       t0: u64, t1: u64, t2: u64, t3: u64)
    ensures var c0 := Client(localPort, remotePort, isn, t0, client);
            |c0.segments| == 1 &&
            var s0 := Server(c0.segments[0], isn2, t1, server);
            |s0.segments| == 1 &&
            var c1 := Input(c0.conn, s0.segments[0], t2, client);
            |c1.segments| == 1 &&
            var s1 := Input(s0.conn, c1.segments[0], t3, server);
            && c1.conn.state == Established && s1.conn.state == Established && s1.accepted && s1.segments == []
            && c1.conn.rx.nxt == s1.conn.tx.nxt && s1.conn.rx.nxt == c1.conn.tx.nxt
            && c1.conn.tx.mss == s1.conn.tx.mss == Min(client.mss, server.mss)
  {
    hide Input, Client, Server, Add;
    ClientSyn(localPort, remotePort, isn, t0, client);
    var c0 := Client(localPort, remotePort, isn, t0, client);
    ServerSynAck(c0.segments[0], client.mss, isn2, t1, server);
    var s0 := Server(c0.segments[0], isn2, t1, server);
    ClientEstablishes(c0.conn, s0.segments[0], Min(client.mss, server.mss), t2, client);
    var c1 := Input(c0.conn, s0.segments[0], t2, client);
    ServerEstablishes(s0.conn, c1.segments[0], t3, server);
    ClientNxt(c0.conn, s0.segments[0], t2, client);
    ServerNxt(s0.conn, c1.segments[0], t3, server);
  }

  /** Neither end has sent anything but its SYN. */
  lemma ClientNxt(c: Conn, g: Segment, now: u64, cfg: Config)
    requires c.state == SynSent
    ensures Input(c, g, now, cfg).conn.tx.nxt == c.tx.nxt
  {
    hide AckedCount, PayloadIn, TrimCount, TrimFront, LastSample, HasFin, Acceptable, FirstMss, Add;
    hide SequenceSpace.After;
    hide AckSegment, ResetReply, SupportsFipsVersion;
  }

  lemma ServerNxt(c: Conn, g: Segment, now: u64, cfg: Config)
    requires c.state == SynReceived && g.ack == Some(c.tx.nxt) && g.flags == ACK_FLAG && g.payload == []
    requires c.tx.queue == [] && !c.tx.closeRequested
    ensures Input(c, g, now, cfg).conn.tx.nxt == c.tx.nxt
  {
    AckLeaves(c.tx, now);
    var o := ApplyAck(c.tx, c.tx.nxt, now, false);
    NothingToFlush(c.(tx := UpdateWindow(o.tx, g.window, now), state := Established), now);
    hide AckedCount, PayloadIn, TrimCount, TrimFront, LastSample, HasFin, Acceptable, Add, FlushData;
  }

  // ---------------------------------------------------------------- the segment size

  /** The first MSS option of a SYN counts, whatever stands around it; without one it is 1024. */
  lemma {:induction false} FirstOffer(options: seq<TcpOption>, i: nat)
    requires i <= |options| && forall j :: 0 <= j < i ==> !options[j].MaxSegmentSize?
    requires i < |options| ==> options[i].MaxSegmentSize?
    ensures FirstMss(options) == if i < |options| then Some(options[i].mss) else None
  {
    if i > 0 {
      FirstOffer(options[1..], i - 1);
    }
  }

  /**
   * The segment size a SYN settles: the smaller of our own and the first one offered, or 1024 if the
   * SYN offers none; but at least one byte. The congestion window never falls below it.
   */
  lemma SizeSettled(tx: Tx, g: Segment, i: nat, cfg: Config)
    requires i <= |g.options| && forall j :: 0 <= j < i ==> !g.options[j].MaxSegmentSize?
    requires i < |g.options| ==> g.options[i].MaxSegmentSize?
    ensures var offered := if i < |g.options| then g.options[i].mss else 1024;
            var tx' := NegotiateMss(tx, g, cfg);
            && tx'.mss == Max(1, Min(offered, cfg.mss)) == tx'.reno.mss
            && tx'.reno.cwnd == Max(tx.reno.cwnd, tx'.mss)
  {
    FirstOffer(g.options, i);
  }
}
