/**
 * Two endpoints and an adversarial carrier, from the client's first SYN on. The carrier is the set
 * of all segments ever emitted; a step delivers any of them any number of times, or runs one
 * operation of an endpoint. A delivered segment is less than 2^31 positions stale.
 */
module Network {
  import opened Numbers
  import opened SequenceSpace
  import opened Wire
  import opened Types
  import opened Delivery
  import opened ConnectionSpec
  import opened ConnectionInvariant

  datatype Phase = Absent | Live | Gone

  /** A connection with its history: the position of its first byte, bytes accepted, bytes read. */
  datatype Endpoint = Endpoint(
    cfg: Config,
    phase: Phase,
    conn: Conn,
    base: int,
    sent: seq<byte>,
    got: seq<byte>)

  /** A segment on the carrier with the positions its numbers stand for. */
  datatype Msg = Msg(fromClient: bool, seg: Segment, pos: int, ackPos: int)

  datatype World = World(client: Endpoint, server: Endpoint, net: set<Msg>)

  function StreamOf(e: Endpoint): Stream {
    Stream(e.base, e.sent, FinMade(e.conn.state))
  }

  function Una(e: Endpoint): int {
    UnaPos(e.conn, StreamOf(e))
  }

  function Snd(e: Endpoint): int {
    SndPos(e.conn, StreamOf(e))
  }

  /** An endpoint that knows the peer's initial sequence number. */
  predicate Heard(e: Endpoint) {
    e.phase != Absent && e.conn.state != SynSent
  }

  /** The bytes that reached the endpoint's stack in order: read by the application or queued. */
  function Arrived(e: Endpoint): seq<byte> {
    if e.phase == Absent then [] else e.got + e.conn.rx.queue
  }

  /** The position of `recv_nxt` in the peer's stream. */
  function Rcv(e: Endpoint, peer: Endpoint): int {
    if Heard(e) then peer.base + |Arrived(e)| + Bit(e.conn.rx.closed) else peer.base - 1
  }

  // ---------------------------------------------------------------- steps

  function Stamp(fromClient: bool, e: Endpoint, peer: Endpoint, g: Segment): Msg {
    Msg(fromClient, g, Snd(e) + Off(e.conn.tx.nxt, g.seqNo),
        if g.ack.Some? then Rcv(e, peer) + Off(e.conn.rx.nxt, g.ack.value) else 0)
  }

  function Stamps(fromClient: bool, e: Endpoint, peer: Endpoint, out: seq<Segment>): set<Msg> {
    set g | g in out :: Stamp(fromClient, e, peer, g)
  }

  /** The endpoint after an update: a closed connection is removed and stays as it was. */
  function Updated(e: Endpoint, r: Update): Endpoint {
    if r.closed then e.(phase := Gone) else e.(conn := r.conn)
  }

  /** The world after endpoint `me` becomes `e` and emits `out`. */
  function Commit(w: World, clientSide: bool, e: Endpoint, out: seq<Segment>): World {
    if clientSide
    then World(e, w.server, w.net + Stamps(true, e, w.server, out))
    else World(w.client, e, w.net + Stamps(false, e, w.client, out))
  }

  function Side(w: World, clientSide: bool): Endpoint {
    if clientSide then w.client else w.server
  }

  datatype Step =
    | Accept(m: Msg, isn: u32, now: u64)
    | Deliver(m: Msg, now: u64)
    | Stray(m: Msg)
    | WriteBytes(clientSide: bool, bytes: seq<byte>, now: u64)
    | ReadBytes(clientSide: bool, max: nat)
    | CloseStream(clientSide: bool, now: u64)
    | PollTimers(clientSide: bool, now: u64)
    | Abort(clientSide: bool)

  /**
   * The assumption on the carrier: a delivered segment is less than 2^31 positions stale. Resets are
   * free of it; a stateless reset's numbers stand for no position.
   */
  predicate NotStale(m: Msg, e: Endpoint, peer: Endpoint) {
    !m.seg.flags.rst ==>
      && (Heard(e) ==> m.pos > Rcv(e, peer) - 0x8000_0000)
      && (m.seg.ack.Some? ==> m.ackPos > Una(e) - 0x8000_0000)
  }

  predicate Enabled(w: World, step: Step) {
    match step
    case Accept(m, _, _) =>
      && w.server.phase == Absent && m in w.net && m.fromClient
      && m.seg.flags.syn && !m.seg.flags.ack && !m.seg.flags.rst && SupportsFipsVersion(m.seg, FIPS_VERSION)
    case Deliver(m, _) =>
      && m in w.net && Side(w, !m.fromClient).phase == Live
      && NotStale(m, Side(w, !m.fromClient), Side(w, m.fromClient))
    case Stray(m) => m in w.net && Side(w, !m.fromClient).phase != Live && !m.seg.flags.rst
    case WriteBytes(clientSide, _, _) => Side(w, clientSide).phase == Live && MayWrite(Side(w, clientSide).conn)
    case ReadBytes(clientSide, _) => Side(w, clientSide).phase == Live
    case CloseStream(clientSide, _) => Side(w, clientSide).phase == Live
    case PollTimers(clientSide, _) => Side(w, clientSide).phase == Live
    case Abort(clientSide) => Side(w, clientSide).phase == Live
  }

  function Apply(w: World, step: Step): World {
    match step
    case Accept(m, isn, now) =>
      var r := Server(m.seg, isn, now, w.server.cfg);
      Commit(w, false, Endpoint(w.server.cfg, Live, r.conn, isn + 1, [], []), r.segments)
    case Deliver(m, now) =>
      var e := Side(w, !m.fromClient);
      var r := Input(e.conn, m.seg, now, e.cfg);
      Commit(w, !m.fromClient, Updated(e, r), r.segments)
    case Stray(m) =>
      Commit(w, !m.fromClient, Side(w, !m.fromClient), [ResetReply(m.seg)])
    case WriteBytes(clientSide, bytes, now) =>
      var e := Side(w, clientSide);
      (match Write(e.conn, bytes, now, e.cfg)
       case Err(_) => w
       case Ok(r) =>
         Commit(w, clientSide,
                e.(conn := r.conn, sent := e.sent + bytes[..AcceptCount(e.conn, bytes, e.cfg)]), r.segments))
    case ReadBytes(clientSide, max) =>
      var e := Side(w, clientSide);
      var r := Read(e.conn, max);
      Commit(w, clientSide,
             e.(conn := r.conn, got := e.got + e.conn.rx.queue[..ReadCount(e.conn, max)]), r.segments)
    case CloseStream(clientSide, now) =>
      var e := Side(w, clientSide);
      var r := Close(e.conn, now);
      Commit(w, clientSide, Updated(e, r), r.segments)
    case PollTimers(clientSide, now) =>
      var e := Side(w, clientSide);
      var r := Poll(e.conn, now, e.cfg);
      Commit(w, clientSide, Updated(e, r), r.segments)
    case Abort(clientSide) =>
      var e := Side(w, clientSide);
      Commit(w, clientSide, e.(phase := Gone), [ResetSegment(e.conn)])
  }

  function Run(w: World, steps: seq<Step>): World
    decreases |steps|
  {
    if steps == [] then w else Run(Apply(w, steps[0]), steps[1..])
  }

  predicate Runnable(w: World, steps: seq<Step>)
    decreases |steps|
  {
    steps == [] || (Enabled(w, steps[0]) && Runnable(Apply(w, steps[0]), steps[1..]))
  }

  /** The client has just sent its first SYN; nobody has answered. */
  function Start(clientCfg: Config, serverCfg: Config, localPort: u16, remotePort: u16, isn: u32, now: u64): World {
    var r := Client(localPort, remotePort, isn, now, clientCfg);
    var client := Endpoint(clientCfg, Live, r.conn, isn + 1, [], []);
    var server := Endpoint(serverCfg, Absent, r.conn, 0, [], []);
    World(client, server, Stamps(true, client, server, r.segments))
  }

  // ---------------------------------------------------------------- the invariant

  ghost predicate EndOk(e: Endpoint, clientSide: bool) {
    && (e.phase == Absent ==> e.sent == [] && e.got == [])
    && (e.phase != Absent ==>
          ConnOk(e.conn, e.cfg, StreamOf(e)) && e.conn.state != (if clientSide then SynReceived else SynSent))
    && (clientSide ==> e.phase != Absent)
  }

  /** What `x` has put on the wire: its stream up to `nxt`. */
  function OnWire(x: Endpoint): Stream {
    Stream(x.base, x.sent[..StreamOf(x).Count(Snd(x))], FinMade(x.conn.state))
  }

  /** The stream of `x` as `y` has it. */
  ghost predicate Channel(x: Endpoint, y: Endpoint) {
    && (x.phase == Absent ==> !Heard(y))
    && (x.phase != Absent ==> Una(x) <= Rcv(y, x) <= Snd(x))
    && (if Heard(y) then
          RxMatches(y.conn.rx, Rcv(y, x), OnWire(x)) && Arrived(y) == OnWire(x).Slice(x.base, Rcv(y, x))
        else y.got == [])
  }

  /** A segment from `x` to `y` tells the truth about both directions. */
  ghost predicate MsgOk(m: Msg, x: Endpoint, y: Endpoint) {
    && Sendable(m.seg)
    && (m.seg.flags.rst ||
        (&& x.phase != Absent
         && HonestAt(m.seg, m.pos, OnWire(x)) && m.pos + SequenceLen(m.seg) <= Snd(x) && |m.seg.payload| <= 0x4_0000
         && (m.seg.ack.Some? ==> Heard(x) && m.seg.ack.value == Wrap(m.ackPos) && m.ackPos <= Rcv(x, y))
         && (m.seg.flags.syn && m.fromClient ==> m.seg.ack.None?)))
  }

  ghost predicate Inv(w: World) {
    && EndOk(w.client, true) && EndOk(w.server, false)
    && Channel(w.client, w.server) && Channel(w.server, w.client)
    && (forall m :: m in w.net ==>
          if m.fromClient then MsgOk(m, w.client, w.server) else MsgOk(m, w.server, w.client))
  }
}
