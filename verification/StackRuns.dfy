/** Whole runs of a stack: the table, its limits and reservation, the port scan, and abort. */
module StackRuns {
  import opened Numbers
  import opened Wire
  import opened Types
  import opened ConnectionSpec
  import opened ConnectionInvariant
  import opened StackSpec
  import opened StackSafety

  type Table<P> = map<u64, Entry<P>>

  // ---------------------------------------------------------------- the invariant

  /** Tuples and connections are in bijection. */
  ghost predicate Mirrored<P>(t: Table<P>, lookup: map<ConnectionKey<P>, u64>) {
    && (forall id :: id in t ==> t[id].Key() in lookup && lookup[t[id].Key()] == id)
    && (forall k :: k in lookup ==> lookup[k] in t && t[lookup[k]].Key() == k)
  }

  ghost predicate Capped<P>(t: Table<P>, cfg: Config) {
    && |t| <= cfg.maxConnections
    && (forall id :: id in t ==> |OfPeer(t, t[id].peer)| <= cfg.maxConnectionsPerPeer)
  }

  ghost predicate AllHealthy<P>(t: Table<P>, cfg: Config) {
    forall id {:trigger Healthy(t[id].conn, cfg)} :: id in t ==> Healthy(t[id].conn, cfg)
  }

  ghost predicate AllDecode<P>(out: seq<Outbound<P>>) {
    forall o :: o in out ==> Decode(o.bytes).Ok?
  }

  ghost predicate StackOk<P>(s: StackState<P>, cfg: Config) {
    && Mirrored(s.connections, s.lookup) && Capped(s.connections, cfg) && AllHealthy(s.connections, cfg)
    && AllDecode(s.outbound) && FIRST_PORT <= s.nextPort
  }

  /** The parts of the invariant. */
  lemma StackFacts<P>(s: StackState<P>, cfg: Config)
    requires StackOk(s, cfg)
    ensures AllDecode(s.outbound) && FIRST_PORT <= s.nextPort
    ensures forall id :: id in s.connections ==> Healthy(s.connections[id].conn, cfg)
    ensures forall k :: k in s.lookup ==> s.lookup[k] in s.connections
    ensures forall id, other :: id in s.connections && other in s.connections && id != other ==>
      s.connections[id].Key() != s.connections[other].Key()
  {
    hide Healthy, AllDecode, Capped, Entry.Key;
  }

  /** Connections of peers that the classifier does not select. */
  function Ordinary<P>(t: Table<P>, eligible: P -> bool): set<u64> {
    set id | id in t && !eligible(t[id].peer)
  }

  function Selected<P>(t: Table<P>, eligible: P -> bool): set<u64> {
    set id | id in t && eligible(t[id].peer)
  }

  /** Ordinary peers take no reserved slot they did not hold before the step. */
  predicate SlotsKept<P>(t: Table<P>, t': Table<P>, reservation: Option<Reservation<P>>, cfg: Config) {
    reservation.Some? ==>
      |Ordinary(t', reservation.value.eligible)|
      <= Max(|Ordinary(t, reservation.value.eligible)|, cfg.maxConnections - reservation.value.slots)
  }

  lemma SlotsTrans<P>(
      t: Table<P>, t1: Table<P>, t2: Table<P>, reservation: Option<Reservation<P>>, cfg: Config)
    requires SlotsKept(t, t1, reservation, cfg) && SlotsKept(t1, t2, reservation, cfg)
    ensures SlotsKept(t, t2, reservation, cfg)
  {
    hide Ordinary;
  }

  lemma SlotsStill<P>(t: Table<P>, reservation: Option<Reservation<P>>, cfg: Config)
    ensures SlotsKept(t, t, reservation, cfg)
  {
    hide Ordinary;
  }

  /** Identifiers are handed out in increasing order. */
  ghost predicate IdsBelow<P>(s: StackState<P>) {
    forall id :: id in s.connections ==> id < s.nextId
  }

  /** A step short of the last identifier uses up at most one, in order. */
  ghost predicate IdsMove<P>(s: StackState<P>, s': StackState<P>) {
    s.nextId < U64_MAX ==> s.nextId <= s'.nextId <= s.nextId + 1 && (IdsBelow(s) ==> IdsBelow(s'))
  }

  // ---------------------------------------------------------------- output

  /** Segments the connections emit all encode, and their queued bytes decode to them. */
  lemma {:induction false} EncodedAll<P>(peer: P, segments: seq<Segment>)
    requires forall g :: g in segments ==> Sendable(g)
    ensures |Encoded(peer, segments)| == |segments| && AllDecode(Encoded(peer, segments))
    ensures forall i :: 0 <= i < |segments| ==>
      Encoded(peer, segments)[i].peer == peer && Decode(Encoded(peer, segments)[i].bytes) == Ok(segments[i])
  {
    hide Encode, Decode, Sendable;
    if segments != [] {
      var g := segments[0];
      assert Encode(g).Ok? && Decode(Encode(g).value) == Ok(g) by { SendableDecodes(g); }
      EncodedAll(peer, segments[1..]);
    }
  }

  lemma EmitDecodes<P>(out: seq<Outbound<P>>, peer: P, segments: seq<Segment>)
    requires AllDecode(out) && forall g :: g in segments ==> Sendable(g)
    ensures AllDecode(out + Encoded(peer, segments))
  {
    EncodedAll(peer, segments);
    hide Encoded, Decode, Sendable;
  }

  lemma EmitKeeps<P>(s: StackState<P>, peer: P, segments: seq<Segment>, cfg: Config)
    requires StackOk(s, cfg) && forall g :: g in segments ==> Sendable(g)
    ensures StackOk(Emit(s, peer, segments), cfg)
  {
    hide Mirrored, Capped, AllHealthy, AllDecode, Encoded, Sendable;
    EmitDecodes(s.outbound, peer, segments);
  }

  // ---------------------------------------------------------------- changes of the table

  lemma {:induction false} SubsetSize<T>(a: set<T>, b: set<T>)
    requires a <= b
    ensures |a| <= |b|
  {
    if a != {} {
      var x :| x in a;
      SubsetSize(a - {x}, b - {x});
    }
  }

  lemma KeySizes<P>(t: Table<P>)
    ensures |t| == |t.Keys|
  {
  }

  /** A new value with the same tuple. */
  lemma StoreMirrored<P>(t: Table<P>, lookup: map<ConnectionKey<P>, u64>, id: u64, e: Entry<P>)
    requires Mirrored(t, lookup) && id in t && e.Key() == t[id].Key()
    ensures Mirrored(t[id := e], lookup)
  {
    hide Entry.Key;
  }

  lemma OfPeerStored<P>(t: Table<P>, id: u64, e: Entry<P>, peer: P)
    requires id in t ==> e.peer == t[id].peer
    ensures OfPeer(t[id := e], peer) == if peer == e.peer then OfPeer(t, peer) + {id} else OfPeer(t, peer)
    ensures id in t && peer == e.peer ==> id in OfPeer(t, peer)
  {
  }

  lemma OrdinaryStored<P>(t: Table<P>, id: u64, e: Entry<P>, eligible: P -> bool)
    requires id in t ==> e.peer == t[id].peer
    ensures Ordinary(t[id := e], eligible) ==
      if eligible(e.peer) then Ordinary(t, eligible) else Ordinary(t, eligible) + {id}
    ensures id in t && !eligible(e.peer) ==> id in Ordinary(t, eligible)
  {
  }

  lemma StoreCapped<P>(t: Table<P>, id: u64, e: Entry<P>, reservation: Option<Reservation<P>>, cfg: Config)
    requires Capped(t, cfg) && id in t && e.peer == t[id].peer
    ensures Capped(t[id := e], cfg) && SlotsKept(t, t[id := e], reservation, cfg)
  {
    hide OfPeer, Ordinary;
    var t' := t[id := e];
    assert t'.Keys == t.Keys;
    KeySizes(t);
    KeySizes(t');
    forall other | other in t'
      ensures |OfPeer(t', t'[other].peer)| <= cfg.maxConnectionsPerPeer
    {
      OfPeerStored(t, id, e, t'[other].peer);
      assert OfPeer(t', t'[other].peer) == OfPeer(t, t[other].peer);
    }
    if reservation.Some? {
      OrdinaryStored(t, id, e, reservation.value.eligible);
      assert Ordinary(t', reservation.value.eligible) == Ordinary(t, reservation.value.eligible);
    }
  }

  lemma RemoveMirrored<P>(t: Table<P>, lookup: map<ConnectionKey<P>, u64>, id: u64)
    requires Mirrored(t, lookup) && id in t
    ensures Mirrored(t - {id}, lookup - {t[id].Key()})
  {
    hide Entry.Key;
  }

  lemma RemoveCapped<P>(t: Table<P>, id: u64, reservation: Option<Reservation<P>>, cfg: Config)
    requires Capped(t, cfg) && id in t
    ensures Capped(t - {id}, cfg) && SlotsKept(t, t - {id}, reservation, cfg)
  {
    var t' := t - {id};
    assert t'.Keys == t.Keys - {id};
    KeySizes(t);
    KeySizes(t');
    forall other | other in t'
      ensures |OfPeer(t', t'[other].peer)| <= |OfPeer(t, t[other].peer)|
    {
      SubsetSize(OfPeer(t', t'[other].peer), OfPeer(t, t[other].peer));
    }
    if reservation.Some? {
      SubsetSize(Ordinary(t', reservation.value.eligible), Ordinary(t, reservation.value.eligible));
    }
  }

  /** A new tuple keeps the mirror exactly when its identifier is not in use. */
  lemma InsertMirrored<P>(t: Table<P>, lookup: map<ConnectionKey<P>, u64>, id: u64, e: Entry<P>)
    requires Mirrored(t, lookup) && e.Key() !in lookup
    ensures Mirrored(t[id := e], lookup[e.Key() := id]) <==> id !in t
  {
    hide Entry.Key;
    if id in t {
      assert lookup[e.Key() := id][t[id].Key()] == id;
    }
  }

  /** An admitted connection keeps both limits, and the reserved slots free. */
  lemma InsertCapped<P>(s: StackState<P>, id: u64, e: Entry<P>, cfg: Config)
    requires Capped(s.connections, cfg) && id !in s.connections && Admits(s, e.peer, cfg)
    ensures Capped(s.connections[id := e], cfg)
    ensures SlotsKept(s.connections, s.connections[id := e], s.reservation, cfg)
  {
    hide OfPeer, Ordinary;
    var t := s.connections;
    var t' := t[id := e];
    assert t'.Keys == t.Keys + {id};
    KeySizes(t);
    KeySizes(t');
    forall other | other in t'
      ensures |OfPeer(t', t'[other].peer)| <= cfg.maxConnectionsPerPeer
    {
      OfPeerStored(t, id, e, t'[other].peer);
    }
    if s.reservation.Some? {
      OrdinaryStored(t, id, e, s.reservation.value.eligible);
      OrdinaryWithin(t, s.reservation.value.eligible);
    }
  }

  lemma OrdinaryWithin<P>(t: Table<P>, eligible: P -> bool)
    ensures |Ordinary(t, eligible)| <= |t| && |Ordinary(t, eligible)| + |Selected(t, eligible)| == |t|
  {
    KeySizes(t);
    SubsetSize(Ordinary(t, eligible), t.Keys);
    assert Ordinary(t, eligible) + Selected(t, eligible) == t.Keys;
  }

  /** What a step keeps besides the invariant. */
  ghost predicate Keeps<P>(s: StackState<P>, s': StackState<P>, cfg: Config) {
    && StackOk(s', cfg) && s'.reservation == s.reservation
    && SlotsKept(s.connections, s'.connections, s.reservation, cfg)
  }

  /** An update of a connection's own making. */
  lemma ReplaceKeeps<P>(s: StackState<P>, id: u64, r: Update, cfg: Config)
    requires StackOk(s, cfg) && id in s.connections && Sound(s.connections[id].conn, r, cfg)
    ensures Keeps(s, Replace(s, id, r), cfg) && IdsMove(s, Replace(s, id, r))
  {
    hide Mirrored, Capped, AllDecode, Encoded, Sendable, Healthy, SlotsKept;
    var e := s.connections[id];
    var e' := Entry(e.peer, r.conn);
    var t := s.connections[id := e'];
    StoreMirrored(s.connections, s.lookup, id, e');
    StoreCapped(s.connections, id, e', s.reservation, cfg);
    EmitDecodes(s.outbound, e.peer, r.segments);
    if r.closed {
      RemoveMirrored(t, s.lookup, id);
      RemoveCapped(t, id, s.reservation, cfg);
      SlotsTrans(s.connections, t, t - {id}, s.reservation, cfg);
      assert forall other :: other in t - {id} ==> t[other] == s.connections[other];
    }
  }

  lemma RemoveKeeps<P>(s: StackState<P>, id: u64, cfg: Config)
    requires StackOk(s, cfg)
    ensures Keeps(s, Remove(s, id), cfg) && IdsMove(s, Remove(s, id))
  {
    hide Mirrored, Capped, AllDecode, Healthy, SlotsKept, Entry.Key;
    SlotsStill(s.connections, s.reservation, cfg);
    if id in s.connections {
      RemoveMirrored(s.connections, s.lookup, id);
      RemoveCapped(s.connections, id, s.reservation, cfg);
    }
  }

  lemma InsertKeeps<P>(s: StackState<P>, e: Entry<P>, cfg: Config)
    requires StackOk(s, cfg) && Admits(s, e.peer, cfg) && e.Key() !in s.lookup && Healthy(e.conn, cfg)
    requires s.nextId !in s.connections
    ensures Keeps(s, Insert(s, e), cfg) && IdsMove(s, Insert(s, e))
  {
    hide Mirrored, Capped, AllDecode, Healthy, SlotsKept, Admits;
    InsertMirrored(s.connections, s.lookup, s.nextId, e);
    InsertCapped(s, s.nextId, e, cfg);
  }

  // ---------------------------------------------------------------- every operation

  ghost predicate Distinct(ids: seq<u64>) {
    forall i, j :: 0 <= i < j < |ids| ==> ids[i] != ids[j]
  }

  datatype StackOp<!P> =
    | DoListen(port: u16)
    | DoCloseListener(port: u16)
    | DoAccept(port: u16)
    | DoConnect(peer: P, remotePort: u16, isn: u32, now: u64)
    | DoConnectFrom(peer: P, localPort: u16, remotePort: u16, isn: u32, now: u64)
    | DoArrive(peer: P, bytes: seq<byte>, isn: u32, now: u64)
    | DoWrite(id: u64, data: seq<byte>, now: u64)
    | DoRead(id: u64, max: nat)
    | DoClose(id: u64, now: u64)
    | DoPoll(ids: seq<u64>, now: u64)
    | DoAbort(ids: seq<u64>)
    | DoReserve(slots: nat, eligible: P -> bool)
    | DoDrain

  /** A refused reservation changes nothing. */
  function Reserved<P(==)>(s: StackState<P>, slots: nat, eligible: P -> bool, cfg: Config): StackState<P> {
    match SetReservation(s, slots, eligible, cfg)
    case Err(_) => s
    case Ok(s') => s'
  }

  function StackStep<P(==)>(s: StackState<P>, op: StackOp<P>, cfg: Config): StackState<P> {
    match op
    case DoListen(port) => Listen(s, port).state
    case DoCloseListener(port) => CloseListener(s, port)
    case DoAccept(port) => AcceptNext(s, port).0
    case DoConnect(peer, remotePort, isn, now) => Connect(s, peer, remotePort, isn, now, cfg).state
    case DoConnectFrom(peer, localPort, remotePort, isn, now) =>
      ConnectFrom(s, peer, localPort, remotePort, isn, now, cfg).state
    case DoArrive(peer, bytes, isn, now) => Arrive(s, peer, bytes, isn, now, cfg).state
    case DoWrite(id, data, now) => WriteTo(s, id, data, now, cfg).state
    case DoRead(id, max) => ReadFrom(s, id, max).state
    case DoClose(id, now) => CloseOne(s, id, now).state
    case DoPoll(ids, now) => PollAll(s, ids, now, cfg)
    case DoAbort(ids) => AbortAll(s, ids)
    case DoReserve(slots, eligible) => Reserved(s, slots, eligible, cfg)
    case DoDrain => s.(outbound := [])
  }

  function StackRun<P(==)>(s: StackState<P>, ops: seq<StackOp<P>>, cfg: Config): StackState<P>
    decreases |ops|
  {
    if ops == [] then s else StackRun(StackStep(s, ops[0], cfg), ops[1..], cfg)
  }

  ghost predicate Steps<P>(s: StackState<P>, s': StackState<P>, cfg: Config) {
    Keeps(s, s', cfg) && IdsMove(s, s')
  }

  /** Listeners, accept queues, the port cursor and dropped output are no part of the table. */
  lemma Unmoved<P>(s: StackState<P>, s': StackState<P>, cfg: Config)
    requires StackOk(s, cfg) && FIRST_PORT <= s'.nextPort
    requires s'.connections == s.connections && s'.lookup == s.lookup && s'.nextId == s.nextId
    requires s'.reservation == s.reservation
    requires s'.outbound == s.outbound || AllDecode(s'.outbound)
    ensures Steps(s, s', cfg)
  {
    hide Mirrored, Capped, AllHealthy, AllDecode, SlotsKept;
    SlotsStill(s.connections, s.reservation, cfg);
  }

  lemma EmitSteps<P>(s: StackState<P>, s1: StackState<P>, peer: P, segments: seq<Segment>, cfg: Config)
    requires Steps(s, s1, cfg) && forall g :: g in segments ==> Sendable(g)
    ensures Steps(s, Emit(s1, peer, segments), cfg)
  {
    hide StackOk, SlotsKept, Sendable;
    EmitKeeps(s1, peer, segments, cfg);
  }

  lemma ConnectFromSteps<P>(s: StackState<P>, peer: P, localPort: u16, remotePort: u16, isn: u32, now: u64, cfg: Config)
    requires StackOk(s, cfg) && s.nextId !in s.connections
    ensures Steps(s, ConnectFrom(s, peer, localPort, remotePort, isn, now, cfg).state, cfg)
  {
    hide StackOk, SlotsKept, Sendable, Client, Admits, Healthy, Encoded;
    Still(s, cfg);
    if localPort != 0 && remotePort != 0 && Admits(s, peer, cfg)
      && ConnectionKey(peer, localPort, remotePort) !in s.lookup {
      ClientSound(localPort, remotePort, isn, now, cfg);
      var r := Client(localPort, remotePort, isn, now, cfg);
      InsertKeeps(s, Entry(peer, r.conn), cfg);
      EmitSteps(s, Insert(s, Entry(peer, r.conn)), peer, r.segments, cfg);
    }
  }

  lemma Still<P>(s: StackState<P>, cfg: Config)
    requires StackOk(s, cfg)
    ensures Steps(s, s, cfg)
  {
    hide StackOk, SlotsKept;
    SlotsStill(s.connections, s.reservation, cfg);
  }

  /** The scan stays in the ephemeral range. */
  lemma {:induction false} ScanRange<P>(
      lookup: map<ConnectionKey<P>, u64>, peer: P, remotePort: u16, cursor: u16, tries: nat)
    requires FIRST_PORT <= cursor
    ensures FIRST_PORT <= PortScan(lookup, peer, remotePort, cursor, tries).cursor
    decreases tries
  {
    if tries > 0 {
      ScanRange(lookup, peer, remotePort, NextPort(cursor), tries - 1);
    }
  }

  lemma ConnectSteps<P>(s: StackState<P>, peer: P, remotePort: u16, isn: u32, now: u64, cfg: Config)
    requires StackOk(s, cfg) && s.nextId !in s.connections
    ensures Steps(s, Connect(s, peer, remotePort, isn, now, cfg).state, cfg)
  {
    hide PortScan, ConnectFrom, StackOk, Steps;
    StackFacts(s, cfg);
    ScanRange(s.lookup, peer, remotePort, s.nextPort, PORTS);
    var scan := PortScan(s.lookup, peer, remotePort, s.nextPort, PORTS);
    var s1 := s.(nextPort := scan.cursor);
    Unmoved(s, s1, cfg);
    StepsOk(s, s1, cfg);
    if scan.port.Some? {
      ConnectFromSteps(s1, peer, scan.port.value, remotePort, isn, now, cfg);
      StepsTrans(s, s1, ConnectFrom(s1, peer, scan.port.value, remotePort, isn, now, cfg).state, cfg);
    }
  }

  lemma StepsOk<P>(s: StackState<P>, s': StackState<P>, cfg: Config)
    requires Steps(s, s', cfg)
    ensures StackOk(s', cfg)
  {
    hide StackOk, SlotsKept;
  }

  lemma ReplaceSteps<P>(s: StackState<P>, id: u64, r: Update, cfg: Config)
    requires StackOk(s, cfg) && id in s.connections && Sound(s.connections[id].conn, r, cfg)
    ensures Steps(s, Replace(s, id, r), cfg)
  {
    hide StackOk, SlotsKept, Sound, Replace, IdsMove;
    ReplaceKeeps(s, id, r, cfg);
  }

  lemma DecodedSegment(bytes: seq<byte>)
    requires Decode(bytes).Ok?
    ensures Decode(bytes).value.srcPort != 0 && Decode(bytes).value.dstPort != 0
    ensures Sendable(ResetReply(Decode(bytes).value))
  {
    hide Decode, HeaderLen, Sendable, ResetReply;
    DecodedIsEncodable(bytes);
    ResetReplySendable(Decode(bytes).value);
  }

  lemma DeliverSteps<P>(s: StackState<P>, id: u64, g: Segment, now: u64, cfg: Config)
    requires StackOk(s, cfg) && id in s.connections && g.srcPort != 0 && g.dstPort != 0
    ensures Steps(s, Deliver(s, id, g, now, cfg), cfg)
  {
    hide StackOk, Steps, Sound, Replace, Input, Healthy;
    StackFacts(s, cfg);
    var c := s.connections[id].conn;
    InputSound(c, g, now, cfg);
    var r := Input(c, g, now, cfg);
    var s1 := PushAccepted(s, c.localPort, id);
    Unmoved(s, s1, cfg);
    StepsOk(s, s1, cfg);
    if r.accepted {
      ReplaceSteps(s1, id, r, cfg);
      StepsTrans(s, s1, Replace(s1, id, r), cfg);
    } else {
      ReplaceSteps(s, id, r, cfg);
    }
  }

  lemma ArriveSteps<P>(s: StackState<P>, peer: P, bytes: seq<byte>, isn: u32, now: u64, cfg: Config)
    requires StackOk(s, cfg) && s.nextId !in s.connections
    ensures Steps(s, Arrive(s, peer, bytes, isn, now, cfg).state, cfg)
  {
    hide StackOk, SlotsKept, Sendable, Server, Admits, Healthy, Encoded, Decode, Deliver, ResetReply;
    hide SupportsFipsVersion, Steps;
    Still(s, cfg);
    if Decode(bytes).Ok? {
      var g := Decode(bytes).value;
      DecodedSegment(bytes);
      EmitSteps(s, s, peer, [ResetReply(g)], cfg);
      var key := ConnectionKey(peer, g.dstPort, g.srcPort);
      if key in s.lookup {
        if s.lookup[key] in s.connections {
          DeliverSteps(s, s.lookup[key], g, now, cfg);
        } else {
          StackFacts(s, cfg);
        }
      } else if Admits(s, peer, cfg) {
        ServerSound(g, isn, now, cfg);
        var r := Server(g, isn, now, cfg);
        InsertSteps(s, Entry(peer, r.conn), cfg);
        EmitSteps(s, Insert(s, Entry(peer, r.conn)), peer, r.segments, cfg);
      }
    }
  }

  lemma InsertSteps<P>(s: StackState<P>, e: Entry<P>, cfg: Config)
    requires StackOk(s, cfg) && Admits(s, e.peer, cfg) && e.Key() !in s.lookup && Healthy(e.conn, cfg)
    requires s.nextId !in s.connections
    ensures Steps(s, Insert(s, e), cfg)
  {
    hide StackOk, SlotsKept, Admits, Healthy, Insert, IdsMove;
    InsertKeeps(s, e, cfg);
  }

  lemma OneConnectionSteps<P>(s: StackState<P>, id: u64, data: seq<byte>, max: nat, now: u64, cfg: Config)
    requires StackOk(s, cfg)
    ensures Steps(s, WriteTo(s, id, data, now, cfg).state, cfg) && Steps(s, ReadFrom(s, id, max).state, cfg)
    ensures Steps(s, CloseOne(s, id, now).state, cfg) && Steps(s, PollOne(s, id, now, cfg), cfg)
  {
    Still(s, cfg);
    if id in s.connections {
      StackFacts(s, cfg);
      hide StackOk, SlotsKept, Sound, Replace, Write, Read, Close, Poll, Healthy, Steps, AcceptCount, ReadCount;
      var c := s.connections[id].conn;
      WriteSound(c, data, now, cfg);
      ReadSound(c, max, cfg);
      CloseSound(c, now, cfg);
      PollSound(c, now, cfg);
      if Write(c, data, now, cfg).Ok? { ReplaceSteps(s, id, Write(c, data, now, cfg).value, cfg); }
      ReplaceSteps(s, id, Read(c, max), cfg);
      ReplaceSteps(s, id, Close(c, now), cfg);
      ReplaceSteps(s, id, Poll(c, now, cfg), cfg);
    }
  }

  /** Steps that open nothing compose. */
  lemma StepsTrans<P>(s: StackState<P>, s1: StackState<P>, s2: StackState<P>, cfg: Config)
    requires Steps(s, s1, cfg) && Steps(s1, s2, cfg) && s1.nextId == s.nextId
    ensures Steps(s, s2, cfg)
  {
    hide StackOk, SlotsKept;
    SlotsTrans(s.connections, s1.connections, s2.connections, s.reservation, cfg);
  }

  lemma SameId<P>(s: StackState<P>, id: u64, now: u64, cfg: Config)
    ensures PollOne(s, id, now, cfg).nextId == s.nextId && AbortOne(s, id).state.nextId == s.nextId
  {
    hide Poll, Encoded, Others, ResetSegment;
  }

  lemma {:induction false} PollAllSteps<P>(s: StackState<P>, ids: seq<u64>, now: u64, cfg: Config)
    requires StackOk(s, cfg)
    ensures Steps(s, PollAll(s, ids, now, cfg), cfg)
    decreases |ids|
  {
    hide StackOk, SlotsKept, PollOne;
    Still(s, cfg);
    if ids != [] {
      var s1 := PollOne(s, ids[0], now, cfg);
      OneConnectionSteps(s, ids[0], [], 0, now, cfg);
      SameId(s, ids[0], now, cfg);
      PollAllSteps(s1, ids[1..], now, cfg);
      StepsTrans(s, s1, PollAll(s1, ids[1..], now, cfg), cfg);
    }
  }

  lemma {:induction false} OthersDecode<P>(out: seq<Outbound<P>>, key: ConnectionKey<P>)
    requires AllDecode(out)
    ensures AllDecode(Others(out, key))
  {
    hide Decode, ForTuple;
    if out != [] {
      OthersDecode(out[1..], key);
    }
  }

  /** Before the tuple is removed: its queued output is replaced by the reset. */
  function Resetting<P(==)>(s: StackState<P>, e: Entry<P>): StackState<P> {
    Emit(s.(outbound := Others(s.outbound, e.Key())), e.peer, [ResetSegment(e.conn)])
  }

  lemma ResettingSteps<P>(s: StackState<P>, e: Entry<P>, cfg: Config)
    requires StackOk(s, cfg) && Sendable(ResetSegment(e.conn))
    ensures Steps(s, Resetting(s, e), cfg) && Resetting(s, e).nextId == s.nextId
    ensures Resetting(s, e).connections == s.connections
  {
    hide StackOk, Steps, Others, Encoded, Sendable, ResetSegment, Entry.Key, AllDecode;
    StackFacts(s, cfg);
    OthersDecode(s.outbound, e.Key());
    var s1 := s.(outbound := Others(s.outbound, e.Key()));
    Unmoved(s, s1, cfg);
    EmitSteps(s, s1, e.peer, [ResetSegment(e.conn)], cfg);
  }

  lemma AbortSteps<P>(s: StackState<P>, id: u64, cfg: Config)
    requires StackOk(s, cfg)
    ensures Steps(s, AbortOne(s, id).state, cfg)
  {
    hide StackOk, Steps, Sendable, ResetSegment, Healthy, Remove, Resetting, Emit, Others, Entry.Key;
    Still(s, cfg);
    if id in s.connections {
      var e := s.connections[id];
      StackFacts(s, cfg);
      AbortSound(e.conn, cfg);
      ResettingSteps(s, e, cfg);
      AbortIs(s, id);
      var s2 := Resetting(s, e);
      StepsOk(s, s2, cfg);
      RemoveSteps(s2, id, cfg);
      StepsTrans(s, s2, Remove(s2, id), cfg);
    }
  }

  lemma AbortIs<P>(s: StackState<P>, id: u64)
    requires id in s.connections
    ensures AbortOne(s, id) == Outcome(Remove(Resetting(s, s.connections[id]), id), Ok(()))
  {
    hide Remove, Emit, Others, ResetSegment;
  }

  lemma RemoveSteps<P>(s: StackState<P>, id: u64, cfg: Config)
    requires StackOk(s, cfg)
    ensures Steps(s, Remove(s, id), cfg)
  {
    hide StackOk, SlotsKept, Remove, IdsMove;
    RemoveKeeps(s, id, cfg);
  }

  lemma {:induction false} AbortAllSteps<P>(s: StackState<P>, ids: seq<u64>, cfg: Config)
    requires StackOk(s, cfg)
    ensures Steps(s, AbortAll(s, ids), cfg)
    decreases |ids|
  {
    hide StackOk, SlotsKept, AbortOne;
    Still(s, cfg);
    if ids != [] {
      var s1 := AbortOne(s, ids[0]).state;
      AbortSteps(s, ids[0], cfg);
      SameId(s, ids[0], 0, cfg);
      AbortAllSteps(s1, ids[1..], cfg);
      StepsTrans(s, s1, AbortAll(s1, ids[1..]), cfg);
    }
  }

  /** Operations that leave the table and the reservation alone. */
  lemma ListenSteps<P>(s: StackState<P>, port: u16, cfg: Config)
    requires StackOk(s, cfg)
    ensures Steps(s, Listen(s, port).state, cfg) && Steps(s, CloseListener(s, port), cfg)
  {
    hide StackOk, Steps, AllDecode, Listen, CloseListener;
    StackFacts(s, cfg);
    ListenFrame(s, port);
    Unmoved(s, Listen(s, port).state, cfg);
    Unmoved(s, CloseListener(s, port), cfg);
  }

  /** Listening touches the listeners and their accept queues only. */
  lemma ListenFrame<P>(s: StackState<P>, port: u16)
    ensures var s' := Listen(s, port).state; s' == s.(listeners := s'.listeners, accepts := s'.accepts)
    ensures var s' := CloseListener(s, port); s' == s.(listeners := s'.listeners, accepts := s'.accepts)
  {
  }

  lemma AcceptSteps<P>(s: StackState<P>, port: u16, cfg: Config)
    requires StackOk(s, cfg)
    ensures Steps(s, AcceptNext(s, port).0, cfg) && Steps(s, s.(outbound := []), cfg)
  {
    hide StackOk, Steps, PopLive, Decode;
    StackFacts(s, cfg);
    Unmoved(s, AcceptNext(s, port).0, cfg);
    Unmoved(s, s.(outbound := []), cfg);
  }

  lemma ReserveKeeps<P>(s: StackState<P>, slots: nat, eligible: P -> bool, cfg: Config)
    requires StackOk(s, cfg)
    ensures StackOk(Reserved(s, slots, eligible, cfg), cfg) && IdsMove(s, Reserved(s, slots, eligible, cfg))
    ensures Reserved(s, slots, eligible, cfg).connections == s.connections
  {
    hide Mirrored, Capped, AllHealthy, AllDecode;
  }

  /** Every operation keeps the table; every one but a new reservation keeps the reserved slots. */
  lemma StackStepKeeps<P>(s: StackState<P>, op: StackOp<P>, cfg: Config)
    requires StackOk(s, cfg) && s.nextId !in s.connections
    ensures StackOk(StackStep(s, op, cfg), cfg) && IdsMove(s, StackStep(s, op, cfg))
    ensures !op.DoReserve? ==> Keeps(s, StackStep(s, op, cfg), cfg)
    ensures op.DoReserve? ==> StackStep(s, op, cfg).connections == s.connections
  {
    hide StackOk, SlotsKept, Connect, ConnectFrom, Arrive, WriteTo, ReadFrom, CloseOne, PollAll, AbortAll, Listen;
    hide CloseListener;
    hide AcceptNext, Reserved, IdsMove;
    match op
    case DoListen(port) => ListenSteps(s, port, cfg);
    case DoCloseListener(port) => ListenSteps(s, port, cfg);
    case DoAccept(port) => AcceptSteps(s, port, cfg);
    case DoConnect(peer, remotePort, isn, now) => ConnectSteps(s, peer, remotePort, isn, now, cfg);
    case DoConnectFrom(peer, localPort, remotePort, isn, now) =>
      ConnectFromSteps(s, peer, localPort, remotePort, isn, now, cfg);
    case DoArrive(peer, bytes, isn, now) => ArriveSteps(s, peer, bytes, isn, now, cfg);
    case DoWrite(id, data, now) => OneConnectionSteps(s, id, data, 0, now, cfg);
    case DoRead(id, max) => OneConnectionSteps(s, id, [], max, 0, cfg);
    case DoClose(id, now) => OneConnectionSteps(s, id, [], 0, now, cfg);
    case DoPoll(ids, now) => PollAllSteps(s, ids, now, cfg);
    case DoAbort(ids) => AbortAllSteps(s, ids, cfg);
    case DoReserve(slots, eligible) => ReserveKeeps(s, slots, eligible, cfg);
    case DoDrain => AcceptSteps(s, 0, cfg);
  }
}
