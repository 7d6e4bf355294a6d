/**
 * The connection table as a value: tuple lookup, limits and reservation, the scan for a local port,
 * dispatch of arriving bytes, and abort. `P` is the authenticated peer; only its equality is used.
 */
module StackSpec {
  import opened Numbers
  import opened Wire
  import opened Types
  import opened ConnectionSpec

  datatype ConnectionKey<P> = ConnectionKey(peer: P, localPort: u16, remotePort: u16)

  datatype Entry<P> = Entry(peer: P, conn: Conn) {
    function Key(): ConnectionKey<P> {
      ConnectionKey(peer, conn.localPort, conn.remotePort)
    }
  }

  datatype Outbound<P> = Outbound(peer: P, bytes: seq<byte>)

  /** Slots that only peers the classifier selects may use. */
  datatype Reservation<!P> = Reservation(slots: nat, eligible: P -> bool)

  datatype StackError =
    | WireFault(error: WireError)
    | InvalidConfig
    | ZeroPort
    | AlreadyListening(port: u16)
    | ConnectionExists
    | ConnectionLimit
    | NoEphemeralPort
    | UnknownConnection
    | InvalidState(state: State)

  datatype StackState<!P(==)> = StackState(
    reservation: Option<Reservation<P>>,
    listeners: set<u16>,
    accepts: map<u16, seq<u64>>,
    connections: map<u64, Entry<P>>,
    lookup: map<ConnectionKey<P>, u64>,
    outbound: seq<Outbound<P>>,
    nextId: u64,
    nextPort: u16)

  const FIRST_PORT: u16 := 49_152
  const PORTS: nat := 16_384

  function Empty<P(==)>(): StackState<P> {
    StackState(None, {}, map[], map[], map[], [], 1, FIRST_PORT)
  }

  // ---------------------------------------------------------------- output

  /** The queued form of segments; it would stop at one that does not encode. */
  function Encoded<P>(peer: P, segments: seq<Segment>): seq<Outbound<P>> {
    if segments == [] then []
    else match Encode(segments[0])
      case Err(_) => []
      case Ok(bytes) => [Outbound(peer, bytes)] + Encoded(peer, segments[1..])
  }

  function Emit<P(==)>(s: StackState<P>, peer: P, segments: seq<Segment>): StackState<P> {
    s.(outbound := s.outbound + Encoded(peer, segments))
  }

  // ---------------------------------------------------------------- the table

  function Insert<P(==)>(s: StackState<P>, e: Entry<P>): StackState<P> {
    s.(connections := s.connections[s.nextId := e], lookup := s.lookup[e.Key() := s.nextId],
       nextId := Max((s.nextId + 1) % 0x1_0000_0000_0000_0000, 1))
  }

  function Remove<P(==)>(s: StackState<P>, id: u64): StackState<P> {
    if id !in s.connections then s
    else s.(connections := s.connections - {id}, lookup := s.lookup - {s.connections[id].Key()})
  }

  /** The connection's new value, its output, and its removal if it closed. */
  function Replace<P(==)>(s: StackState<P>, id: u64, r: Update): StackState<P>
    requires id in s.connections
  {
    var peer := s.connections[id].peer;
    var s1 := Emit(s.(connections := s.connections[id := Entry(peer, r.conn)]), peer, r.segments);
    if r.closed then Remove(s1, id) else s1
  }

  function OfPeer<P(==)>(connections: map<u64, Entry<P>>, peer: P): set<u64> {
    set id | id in connections && connections[id].peer == peer
  }

  /** Whether one more connection of a peer may be retained. */
  predicate Admits<P(==)>(s: StackState<P>, peer: P, cfg: Config) {
    && |s.connections| < cfg.maxConnections && |OfPeer(s.connections, peer)| < cfg.maxConnectionsPerPeer
    && (s.reservation.Some? && |s.connections| >= cfg.maxConnections - s.reservation.value.slots ==>
          s.reservation.value.eligible(peer))
  }

  function SetReservation<P(==)>(s: StackState<P>, slots: nat, eligible: P -> bool, cfg: Config)
    : Result<StackState<P>, StackError>
  {
    if slots >= cfg.maxConnections then Err(InvalidConfig)
    else Ok(s.(reservation := if slots != 0 then Some(Reservation(slots, eligible)) else None))
  }

  // ---------------------------------------------------------------- opening

  function NextPort(port: u16): u16 {
    if port == 0xFFFF then FIRST_PORT else port + 1
  }

  datatype Scan = Scan(port: Option<u16>, cursor: u16)

  /** Up to `tries` ports from the cursor on, cyclically, until one is free for the peer. */
  function PortScan<P(==)>(lookup: map<ConnectionKey<P>, u64>, peer: P, remotePort: u16, cursor: u16, tries: nat): Scan
    decreases tries
  {
    if tries == 0 then Scan(None, cursor)
    else if ConnectionKey(peer, cursor, remotePort) !in lookup then Scan(Some(cursor), NextPort(cursor))
    else PortScan(lookup, peer, remotePort, NextPort(cursor), tries - 1)
  }

  datatype Outcome<!P(==), T> = Outcome(state: StackState<P>, result: Result<T, StackError>)

  function ConnectFrom<P(==)>(
      s: StackState<P>, peer: P, localPort: u16, remotePort: u16, isn: u32, now: u64, cfg: Config)
    : Outcome<P, u64>
  {
    if localPort == 0 || remotePort == 0 then Outcome(s, Err(StackError.ZeroPort))
    else if !Admits(s, peer, cfg) then Outcome(s, Err(ConnectionLimit))
    else if ConnectionKey(peer, localPort, remotePort) in s.lookup then Outcome(s, Err(ConnectionExists))
    else
      var r := Client(localPort, remotePort, isn, now, cfg);
      Outcome(Emit(Insert(s, Entry(peer, r.conn)), peer, r.segments), Ok(s.nextId))
  }

  function Connect<P(==)>(
      s: StackState<P>, peer: P, remotePort: u16, isn: u32, now: u64, cfg: Config): Outcome<P, u64> {
    var scan := PortScan(s.lookup, peer, remotePort, s.nextPort, PORTS);
    var s1 := s.(nextPort := scan.cursor);
    match scan.port
    case None => Outcome(s1, Err(NoEphemeralPort))
    case Some(port) => ConnectFrom(s1, peer, port, remotePort, isn, now, cfg)
  }

  // ---------------------------------------------------------------- listening

  function Listen<P(==)>(s: StackState<P>, port: u16): Outcome<P, ()> {
    if port == 0 then Outcome(s, Err(StackError.ZeroPort))
    else if port in s.listeners then Outcome(s, Err(AlreadyListening(port)))
    else Outcome(s.(listeners := s.listeners + {port},
                    accepts := if port in s.accepts then s.accepts else s.accepts[port := []]), Ok(()))
  }

  function CloseListener<P(==)>(s: StackState<P>, port: u16): StackState<P> {
    s.(listeners := s.listeners - {port}, accepts := s.accepts - {port})
  }

  /** The first queued connection that still exists, and the queue behind it. */
  function PopLive<P>(queue: seq<u64>, connections: map<u64, Entry<P>>): (Option<u64>, seq<u64>) {
    if queue == [] then (None, [])
    else if queue[0] in connections then (Some(queue[0]), queue[1..])
    else PopLive(queue[1..], connections)
  }

  function AcceptNext<P(==)>(s: StackState<P>, port: u16): (StackState<P>, Option<u64>) {
    if port !in s.accepts then (s, None)
    else
      var popped := PopLive(s.accepts[port], s.connections);
      (s.(accepts := s.accepts[port := popped.1]), popped.0)
  }

  function PushAccepted<P(==)>(s: StackState<P>, port: u16, id: u64): StackState<P> {
    s.(accepts := s.accepts[port := (if port in s.accepts then s.accepts[port] else []) + [id]])
  }

  // ---------------------------------------------------------------- input

  /** A segment for a known tuple. */
  function Deliver<P(==)>(s: StackState<P>, id: u64, g: Segment, now: u64, cfg: Config): StackState<P>
    requires id in s.connections
  {
    var r := Input(s.connections[id].conn, g, now, cfg);
    Replace(if r.accepted then PushAccepted(s, s.connections[id].conn.localPort, id) else s, id, r)
  }

  /** Bytes from a peer: to their connection, to a listener, or to nobody. */
  function Arrive<P(==)>(s: StackState<P>, peer: P, bytes: seq<byte>, isn: u32, now: u64, cfg: Config): Outcome<P, ()> {
    match Decode(bytes)
    case Err(e) => Outcome(s, Err(WireFault(e)))
    case Ok(g) =>
      var key := ConnectionKey(peer, g.dstPort, g.srcPort);
      if key in s.lookup && s.lookup[key] in s.connections then Outcome(Deliver(s, s.lookup[key], g, now, cfg), Ok(()))
      else if g.flags.syn && !g.flags.ack && g.dstPort in s.listeners then
        if !SupportsFipsVersion(g, FIPS_VERSION) then Outcome(Emit(s, peer, [ResetReply(g)]), Ok(()))
        else if !Admits(s, peer, cfg) then Outcome(s, Err(ConnectionLimit))
        else
          var r := Server(g, isn, now, cfg);
          Outcome(Emit(Insert(s, Entry(peer, r.conn)), peer, r.segments), Ok(()))
      else Outcome(if g.flags.rst then s else Emit(s, peer, [ResetReply(g)]), Ok(()))
  }

  // ---------------------------------------------------------------- one connection's operations

  function WriteTo<P(==)>(s: StackState<P>, id: u64, bytes: seq<byte>, now: u64, cfg: Config): Outcome<P, nat> {
    if id !in s.connections then Outcome(s, Err(UnknownConnection))
    else match Write(s.connections[id].conn, bytes, now, cfg)
      case Err(state) => Outcome(s, Err(InvalidState(state)))
      case Ok(r) => Outcome(Replace(s, id, r), Ok(AcceptCount(s.connections[id].conn, bytes, cfg)))
  }

  function ReadFrom<P(==)>(s: StackState<P>, id: u64, max: nat): Outcome<P, seq<byte>> {
    if id !in s.connections then Outcome(s, Err(UnknownConnection))
    else
      var c := s.connections[id].conn;
      Outcome(Replace(s, id, Read(c, max)), Ok(c.rx.queue[..ReadCount(c, max)]))
  }

  function CloseOne<P(==)>(s: StackState<P>, id: u64, now: u64): Outcome<P, ()> {
    if id !in s.connections then Outcome(s, Err(UnknownConnection))
    else Outcome(Replace(s, id, Close(s.connections[id].conn, now)), Ok(()))
  }

  function PollOne<P(==)>(s: StackState<P>, id: u64, now: u64, cfg: Config): StackState<P> {
    if id !in s.connections then s else Replace(s, id, Poll(s.connections[id].conn, now, cfg))
  }

  function PollAll<P(==)>(s: StackState<P>, ids: seq<u64>, now: u64, cfg: Config): StackState<P>
    decreases |ids|
  {
    if ids == [] then s else PollAll(PollOne(s, ids[0], now, cfg), ids[1..], now, cfg)
  }

  // ---------------------------------------------------------------- abort

  /** Whether a queued item belongs to a tuple: it is found by decoding what was queued. */
  predicate ForTuple<P(==)>(o: Outbound<P>, key: ConnectionKey<P>) {
    && o.peer == key.peer && Decode(o.bytes).Ok?
    && Decode(o.bytes).value.srcPort == key.localPort && Decode(o.bytes).value.dstPort == key.remotePort
  }

  function Others<P(==)>(out: seq<Outbound<P>>, key: ConnectionKey<P>): seq<Outbound<P>> {
    if out == [] then []
    else (if ForTuple(out[0], key) then [] else [out[0]]) + Others(out[1..], key)
  }

  function AbortOne<P(==)>(s: StackState<P>, id: u64): Outcome<P, ()> {
    if id !in s.connections then Outcome(s, Err(UnknownConnection))
    else
      var e := s.connections[id];
      Outcome(Remove(Emit(s.(outbound := Others(s.outbound, e.Key())), e.peer, [ResetSegment(e.conn)]), id), Ok(()))
  }

  function AbortAll<P(==)>(s: StackState<P>, ids: seq<u64>): StackState<P>
    decreases |ids|
  {
    if ids == [] then s else AbortAll(AbortOne(s, ids[0]).state, ids[1..])
  }
}
