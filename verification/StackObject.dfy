/**
 * The stack as the program holds it: maps, sets and queues that its methods update in place. Each
 * method is proved to do what `StackSpec` says of the value it holds, and to keep `StackOk`.
 */
module StackObject {
  import opened Numbers
  import SequenceSpace
  import opened Wire
  import opened Types
  import opened ConnectionSpec
  import opened ConnectionInvariant
  import opened StackSpec
  import opened StackSafety
  import opened StackRuns

  lemma {:induction false} EncodedSnoc<P>(peer: P, segments: seq<Segment>, g: Segment)
    requires (forall x :: x in segments ==> Sendable(x)) && Sendable(g)
    ensures Encode(g).Ok?
    ensures Encoded(peer, segments + [g]) == Encoded(peer, segments) + [Outbound(peer, Encode(g).value)]
  {
    hide Encode, Decode, Sendable;
    SendableDecodes(g);
    if segments == [] {
      assert (segments + [g])[1..] == [];
    } else {
      SendableDecodes(segments[0]);
      EncodedSnoc(peer, segments[1..], g);
      assert (segments + [g])[1..] == segments[1..] + [g];
    }
  }

  lemma NothingEncoded<P>(peer: P)
    ensures Encoded(peer, []) == []
  {
  }

  lemma {:induction false} OthersSnoc<P>(out: seq<Outbound<P>>, o: Outbound<P>, key: ConnectionKey<P>)
    ensures Others(out + [o], key) == Others(out, key) + (if ForTuple(o, key) then [] else [o])
  {
    hide ForTuple;
    if out == [] {
      assert (out + [o])[1..] == [];
    } else {
      OthersSnoc(out[1..], o, key);
      assert (out + [o])[1..] == out[1..] + [o];
    }
  }

  lemma NothingKept<P>(key: ConnectionKey<P>)
    ensures Others<P>([], key) == []
  {
  }

  lemma DistinctSnoc(ids: seq<u64>, id: u64)
    requires Distinct(ids) && id !in ids
    ensures Distinct(ids + [id])
  {
    assert forall i :: 0 <= i < |ids| ==> ids[i] in ids;
  }

  lemma {:induction false} PollAllSnoc<P>(s: StackState<P>, ids: seq<u64>, id: u64, now: u64, cfg: Config)
    ensures PollAll(s, ids + [id], now, cfg) == PollOne(PollAll(s, ids, now, cfg), id, now, cfg)
    decreases |ids|
  {
    hide PollOne;
    if ids == [] {
      assert ([] + [id])[1..] == [];
    } else {
      PollAllSnoc(PollOne(s, ids[0], now, cfg), ids[1..], id, now, cfg);
      assert (ids + [id])[1..] == ids[1..] + [id];
    }
  }

  lemma {:induction false} AbortAllSnoc<P>(s: StackState<P>, ids: seq<u64>, id: u64)
    ensures AbortAll(s, ids + [id]) == AbortOne(AbortAll(s, ids), id).state
    decreases |ids|
  {
    hide AbortOne;
    if ids == [] {
      assert ([] + [id])[1..] == [];
    } else {
      AbortAllSnoc(AbortOne(s, ids[0]).state, ids[1..], id);
      assert (ids + [id])[1..] == ids[1..] + [id];
    }
  }

  /** The deadline of a connection, if it has one. */
  function DeadlineOf<P>(e: Entry<P>, now: u64, cfg: Config): Option<u64> {
    ConnectionSpec.NextPollAt(e.conn, now, cfg)
  }

  class Stack<P(==)> {
    const config: Config
    var reservation: Option<Reservation<P>>
    var listeners: set<u16>
    var accepts: map<u16, seq<u64>>
    var connections: map<u64, Entry<P>>
    var lookup: map<ConnectionKey<P>, u64>
    var outbound: seq<Outbound<P>>
    var nextConnectionId: u64
    var nextEphemeralPort: u16

    /** The value the stack holds. */
    function Value(): StackState<P>
      reads this
    {
      StackState(reservation, listeners, accepts, connections, lookup, outbound, nextConnectionId, nextEphemeralPort)
    }

    ghost predicate Valid()
      reads this
    {
      StackOk(Value(), config)
    }

    constructor (config: Config)
      ensures this.config == config && Value() == Empty<P>()
    {
      this.config := config;
      reservation, listeners, accepts, connections, lookup, outbound := None, {}, map[], map[], map[], [];
      nextConnectionId, nextEphemeralPort := 1, FIRST_PORT;
    }

    // -------------------------------------------------------------- listening

    method Listen(port: u16) returns (r: Result<(), StackError>)
      modifies `listeners, `accepts
      ensures Outcome(Value(), r) == StackSpec.Listen(old(Value()), port)
    {
      if port == 0 {
        return Err(StackError.ZeroPort);
      }
      if port in listeners {
        return Err(AlreadyListening(port));
      }
      listeners := listeners + {port};
      if port !in accepts {
        accepts := accepts[port := []];
      }
      r := Ok(());
    }

    method CloseListener(port: u16)
      modifies `listeners, `accepts
      ensures Value() == StackSpec.CloseListener(old(Value()), port)
    {
      listeners := listeners - {port};
      accepts := accepts - {port};
    }

    /** Pops queued connections until one still exists. */
    method Accept(port: u16) returns (id: Option<u64>)
      modifies `accepts
      ensures (Value(), id) == AcceptNext(old(Value()), port)
    {
      if port !in accepts {
        return None;
      }
      var queue := accepts[port];
      id := None;
      while queue != [] && id == None
        invariant id == None ==> PopLive(old(accepts)[port], connections) == PopLive(queue, connections)
        invariant id != None ==> PopLive(old(accepts)[port], connections) == (id, queue)
        decreases |queue|
      {
        if queue[0] in connections {
          id := Some(queue[0]);
        }
        queue := queue[1..];
      }
      accepts := accepts[port := queue];
    }

    // -------------------------------------------------------------- admission

    method SetConnectionReservation(slots: nat, eligible: P -> bool) returns (r: Result<(), StackError>)
      modifies `reservation
      ensures r.Ok? <==> slots < config.maxConnections
      ensures match SetReservation(old(Value()), slots, eligible, config)
              case Err(e) => r == Err(e) && Value() == old(Value())
              case Ok(s) => r == Ok(()) && Value() == s
    {
      if slots >= config.maxConnections {
        return Err(InvalidConfig);
      }
      reservation := if slots != 0 then Some(Reservation(slots, eligible)) else None;
      r := Ok(());
    }

    method EnsureConnectionCapacity(peer: P) returns (r: Result<(), StackError>)
      ensures r == if Admits(Value(), peer, config) then Ok(()) else Err(ConnectionLimit)
    {
      var peerConnections := |OfPeer(connections, peer)|;
      if |connections| >= config.maxConnections || peerConnections >= config.maxConnectionsPerPeer {
        return Err(ConnectionLimit);
      }
      if reservation.Some? && |connections| >= config.maxConnections - reservation.value.slots
         && !reservation.value.eligible(peer) {
        return Err(ConnectionLimit);
      }
      r := Ok(());
    }

    /** Up to 16384 ports from the cursor on, cyclically. */
    method AllocateEphemeralPort(peer: P, remotePort: u16) returns (r: Result<u16, StackError>)
      modifies `nextEphemeralPort
      ensures var scan := PortScan(lookup, peer, remotePort, old(nextEphemeralPort), PORTS);
              && nextEphemeralPort == scan.cursor
              && r == if scan.port.Some? then Ok(scan.port.value) else Err(NoEphemeralPort)
    {
      for i := 0 to PORTS
        invariant PortScan(lookup, peer, remotePort, old(nextEphemeralPort), PORTS)
               == PortScan(lookup, peer, remotePort, nextEphemeralPort, PORTS - i)
      {
        var port := nextEphemeralPort;
        nextEphemeralPort := if port == 0xFFFF then FIRST_PORT else port + 1;
        if ConnectionKey(peer, port, remotePort) !in lookup {
          return Ok(port);
        }
      }
      r := Err(NoEphemeralPort);
    }

    // -------------------------------------------------------------- output and the table

    /** Queues segments; none of them fails to encode. */
    method Emit(peer: P, segments: seq<Segment>)
      requires forall g :: g in segments ==> Sendable(g)
      modifies `outbound
      ensures Value() == StackSpec.Emit(old(Value()), peer, segments)
    {
      hide Encode, Sendable, Encoded;
      NothingEncoded(peer);
      for i := 0 to |segments|
        invariant outbound == old(outbound) + Encoded(peer, segments[..i])
      {
        EncodedSnoc(peer, segments[..i], segments[i]);
        assert segments[..i + 1] == segments[..i] + [segments[i]];
        var bytes := EncodeSegment(segments[i]);
        outbound := outbound + [Outbound(peer, bytes.value)];
      }
      assert segments[..|segments|] == segments;
    }

    method EmitReset(peer: P, incoming: Segment)
      requires incoming.srcPort != 0 && incoming.dstPort != 0
      modifies `outbound
      ensures Value() == StackSpec.Emit(old(Value()), peer, [ResetReply(incoming)])
    {
      hide Sendable, Encoded;
      ResetReplySendable(incoming);
      var reset;
      if incoming.ack.Some? {
        reset := Segment(incoming.dstPort, incoming.srcPort, incoming.ack.value, None, RST_FLAG, 0, [], []);
      } else {
        reset := Segment(incoming.dstPort, incoming.srcPort, 0,
                         Some(SequenceSpace.Add(incoming.seqNo, SequenceLen(incoming))), RST_ACK, 0, [], []);
      }
      Emit(peer, [reset]);
    }

    method RemoveConnection(id: u64)
      modifies `connections, `lookup
      ensures Value() == Remove(old(Value()), id)
    {
      if id in connections {
        var e := connections[id];
        connections := connections - {id};
        lookup := lookup - {ConnectionKey(e.peer, e.conn.localPort, e.conn.remotePort)};
      }
    }

    method AllocateConnectionId() returns (id: u64)
      modifies `nextConnectionId
      ensures id == old(nextConnectionId) && nextConnectionId == Max((id + 1) % 0x1_0000_0000_0000_0000, 1)
    {
      id := nextConnectionId;
      nextConnectionId := Max((id + 1) % 0x1_0000_0000_0000_0000, 1);
    }

    // -------------------------------------------------------------- opening

    method ConnectFromWithIsn(
        peer: P, localPort: u16, remotePort: u16, isn: u32, now: u64) returns (r: Result<u64, StackError>)
      requires Valid()
      modifies this
      ensures Outcome(Value(), r) == ConnectFrom(old(Value()), peer, localPort, remotePort, isn, now, config)
      ensures old(nextConnectionId !in connections) ==> Valid()
    {
      hide StackOk, Client, Admits, Sendable, Encoded, Steps, Healthy;
      if nextConnectionId !in connections {
        ConnectFromSteps(Value(), peer, localPort, remotePort, isn, now, config);
        StepsOk(Value(), ConnectFrom(Value(), peer, localPort, remotePort, isn, now, config).state, config);
      }
      if localPort == 0 || remotePort == 0 {
        return Err(StackError.ZeroPort);
      }
      var capacity := EnsureConnectionCapacity(peer);
      if capacity.Err? {
        return Err(capacity.error);
      }
      var key := ConnectionKey(peer, localPort, remotePort);
      if key in lookup {
        return Err(ConnectionExists);
      }
      ClientSound(localPort, remotePort, isn, now, config);
      var id := AllocateConnectionId();
      var created := Client(localPort, remotePort, isn, now, config);
      lookup := lookup[key := id];
      connections := connections[id := Entry(peer, created.conn)];
      Emit(peer, created.segments);
      r := Ok(id);
    }

    method Connect(peer: P, remotePort: u16, isn: u32, now: u64) returns (r: Result<u64, StackError>)
      requires Valid()
      modifies this
      ensures Outcome(Value(), r) == StackSpec.Connect(old(Value()), peer, remotePort, isn, now, config)
      ensures old(nextConnectionId !in connections) ==> Valid()
    {
      hide StackOk, ConnectFrom, PortScan, Steps;
      StackFacts(Value(), config);
      ScanRange(lookup, peer, remotePort, nextEphemeralPort, PORTS);
      var port := AllocateEphemeralPort(peer, remotePort);
      Unmoved(old(Value()), Value(), config);
      StepsOk(old(Value()), Value(), config);
      if port.Err? {
        return Err(port.error);
      }
      r := ConnectFromWithIsn(peer, port.value, remotePort, isn, now);
    }

    // -------------------------------------------------------------- input

    /** Stores what an operation made of a connection, queues its output, and removes it if it closed. */
    method Apply(id: u64, r: Update)
      requires id in connections && forall g :: g in r.segments ==> Sendable(g)
      modifies `connections, `lookup, `outbound
      ensures Value() == Replace(old(Value()), id, r)
    {
      hide Sendable, Encoded, Remove;
      var peer := connections[id].peer;
      connections := connections[id := Entry(peer, r.conn)];
      Emit(peer, r.segments);
      if r.closed {
        RemoveConnection(id);
      }
    }

    /** A segment for a known tuple; stale handshake segments never reach the connection. */
    method Dispatch(id: u64, segment: Segment, now: u64)
      requires Valid() && id in connections && segment.srcPort != 0 && segment.dstPort != 0
      modifies this
      ensures Valid() && Value() == Deliver(old(Value()), id, segment, now, config)
    {
      hide StackOk, Steps, Sound, Healthy, OnSegment, AckSegment, ResetReply, Sendable, StaleHandshakeAck;
      hide UnexpectedSyn, Replace;
      DeliverSteps(Value(), id, segment, now, config);
      StepsOk(Value(), Deliver(Value(), id, segment, now, config), config);
      StackFacts(Value(), config);
      var connection := connections[id].conn;
      InputSound(connection, segment, now, config);
      SoundOutput(connection, ConnectionSpec.Input(connection, segment, now, config), config);
      var update;
      if StaleHandshakeAck(connection, segment) {
        update := Open(connection, [ResetReply(segment)]);
      } else if UnexpectedSyn(connection, segment) {
        update := Open(connection, [AckSegment(connection)]);
      } else {
        update := OnSegment(connection, segment, now, config);
      }
      if update.accepted {
        var port := connection.localPort;
        accepts := accepts[port := (if port in accepts then accepts[port] else []) + [id]];
      }
      Apply(id, update);
    }

    method Input(peer: P, bytes: seq<byte>, isn: u32, now: u64) returns (r: Result<(), StackError>)
      requires Valid()
      modifies this
      ensures Outcome(Value(), r) == Arrive(old(Value()), peer, bytes, isn, now, config)
      ensures old(nextConnectionId !in connections) ==> Valid()
    {
      hide StackOk, Steps, Decode, Deliver, ResetReply, Server, Admits, Sendable, Encoded, SupportsFipsVersion, Healthy;
      if nextConnectionId !in connections {
        ArriveSteps(Value(), peer, bytes, isn, now, config);
        StepsOk(Value(), Arrive(Value(), peer, bytes, isn, now, config).state, config);
      }
      var decoded := Decode(bytes);
      if decoded.Err? {
        return Err(WireFault(decoded.error));
      }
      var segment := decoded.value;
      DecodedSegment(bytes);
      var key := ConnectionKey(peer, segment.dstPort, segment.srcPort);
      if key in lookup {
        StackFacts(Value(), config);
        Dispatch(lookup[key], segment, now);
      } else if segment.flags.syn && !segment.flags.ack && segment.dstPort in listeners {
        if !SupportsFipsVersion(segment, FIPS_VERSION) {
          EmitReset(peer, segment);
          return Ok(());
        }
        var capacity := EnsureConnectionCapacity(peer);
        if capacity.Err? {
          return Err(capacity.error);
        }
        ServerSound(segment, isn, now, config);
        var id := AllocateConnectionId();
        var created := Server(segment, isn, now, config);
        lookup := lookup[key := id];
        connections := connections[id := Entry(peer, created.conn)];
        Emit(peer, created.segments);
      } else if !segment.flags.rst {
        EmitReset(peer, segment);
      }
      r := Ok(());
    }

    // -------------------------------------------------------------- one connection's operations

    method Write(id: u64, bytes: seq<byte>, now: u64) returns (r: Result<nat, StackError>)
      requires Valid()
      modifies this
      ensures Valid() && Outcome(Value(), r) == WriteTo(old(Value()), id, bytes, now, config)
    {
      hide StackOk, Steps, Sound, Healthy, ConnectionSpec.Write, AcceptCount, Replace;
      OneConnectionSteps(Value(), id, bytes, 0, now, config);
      StepsOk(Value(), WriteTo(Value(), id, bytes, now, config).state, config);
      if id !in connections {
        return Err(UnknownConnection);
      }
      var connection := connections[id].conn;
      StackFacts(Value(), config);
      WriteSound(connection, bytes, now, config);
      var written := ConnectionSpec.Write(connection, bytes, now, config);
      if written.Err? {
        return Err(InvalidState(written.error));
      }
      SoundOutput(connection, written.value, config);
      Apply(id, written.value);
      r := Ok(AcceptCount(connection, bytes, config));
    }

    method Read(id: u64, max: nat) returns (r: Result<seq<byte>, StackError>)
      requires Valid()
      modifies this
      ensures Valid() && Outcome(Value(), r) == ReadFrom(old(Value()), id, max)
    {
      hide StackOk, Steps, Sound, Healthy, ConnectionSpec.Read, ReadCount, Replace;
      OneConnectionSteps(Value(), id, [], max, 0, config);
      StepsOk(Value(), ReadFrom(Value(), id, max).state, config);
      if id !in connections {
        return Err(UnknownConnection);
      }
      var connection := connections[id].conn;
      StackFacts(Value(), config);
      ReadSound(connection, max, config);
      SoundOutput(connection, ConnectionSpec.Read(connection, max), config);
      Apply(id, ConnectionSpec.Read(connection, max));
      r := Ok(connection.rx.queue[..ReadCount(connection, max)]);
    }

    method Close(id: u64, now: u64) returns (r: Result<(), StackError>)
      requires Valid()
      modifies this
      ensures Valid() && Outcome(Value(), r) == CloseOne(old(Value()), id, now)
    {
      hide StackOk, Steps, Sound, Healthy, ConnectionSpec.Close, Replace;
      OneConnectionSteps(Value(), id, [], 0, now, config);
      StepsOk(Value(), CloseOne(Value(), id, now).state, config);
      if id !in connections {
        return Err(UnknownConnection);
      }
      var connection := connections[id].conn;
      StackFacts(Value(), config);
      CloseSound(connection, now, config);
      SoundOutput(connection, ConnectionSpec.Close(connection, now), config);
      Apply(id, ConnectionSpec.Close(connection, now));
      r := Ok(());
    }

    // -------------------------------------------------------------- timers

    /** Polls every connection once, in some order. */
    method Poll(now: u64) returns (ghost order: seq<u64>)
      requires Valid()
      modifies this
      ensures Valid() && (forall id :: id in order <==> id in old(connections)) && Distinct(order)
      ensures Value() == PollAll(old(Value()), order, now, config)
    {
      hide StackOk, Steps, PollOne, Replace;
      var ids := connections.Keys;
      order := [];
      while ids != {}
        invariant Valid() && ids <= old(connections).Keys && Distinct(order)
        invariant forall id :: id in order <==> id in old(connections).Keys - ids
        invariant Value() == PollAll(old(Value()), order, now, config)
        decreases |ids|
      {
        var id :| id in ids;
        assert id !in order;
        ids := ids - {id};
        PollAllSnoc(old(Value()), order, id, now, config);
        PollConnection(id, now);
        DistinctSnoc(order, id);
        order := order + [id];
      }
    }

    method PollConnection(id: u64, now: u64)
      requires Valid()
      modifies this
      ensures Valid() && Value() == PollOne(old(Value()), id, now, config)
    {
      hide StackOk, Steps, Sound, Healthy, ConnectionSpec.Poll, Replace;
      OneConnectionSteps(Value(), id, [], 0, now, config);
      StepsOk(Value(), PollOne(Value(), id, now, config), config);
      if id in connections {
        var connection := connections[id].conn;
        StackFacts(Value(), config);
        PollSound(connection, now, config);
        SoundOutput(connection, ConnectionSpec.Poll(connection, now, config), config);
        Apply(id, ConnectionSpec.Poll(connection, now, config));
      }
    }

    /** The earliest deadline of any connection. */
    method NextPollAt(now: u64) returns (at: Option<u64>)
      ensures at.None? ==> forall id :: id in connections ==> DeadlineOf(connections[id], now, config).None?
      ensures at.Some? ==> exists id :: id in connections && DeadlineOf(connections[id], now, config) == at
      ensures at.Some? ==> forall id :: id in connections && DeadlineOf(connections[id], now, config).Some? ==>
        at.value <= DeadlineOf(connections[id], now, config).value
    {
      hide DeadlineOf;
      var ids := connections.Keys;
      at := None;
      while ids != {}
        invariant ids <= connections.Keys
        invariant at.None? ==> forall id :: id in connections.Keys - ids ==>
          DeadlineOf(connections[id], now, config).None?
        invariant at.Some? ==> exists id :: id in connections && DeadlineOf(connections[id], now, config) == at
        invariant at.Some? ==>
          forall id :: id in connections.Keys - ids && DeadlineOf(connections[id], now, config).Some? ==>
          at.value <= DeadlineOf(connections[id], now, config).value
        decreases |ids|
      {
        var id :| id in ids;
        ids := ids - {id};
        var deadline := DeadlineOf(connections[id], now, config);
        if deadline.Some? && (at.None? || deadline.value < at.value) {
          at := deadline;
        }
      }
    }

    // -------------------------------------------------------------- abort

    /** Drops the queued output of a tuple. */
    method RetainOthers(key: ConnectionKey<P>)
      modifies `outbound
      ensures Value() == old(Value()).(outbound := Others(old(outbound), key))
    {
      hide ForTuple;
      var kept: seq<Outbound<P>> := [];
      NothingKept(key);
      for i := 0 to |outbound|
        invariant outbound == old(outbound) && kept == Others(outbound[..i], key)
      {
        OthersSnoc(outbound[..i], outbound[i], key);
        assert outbound[..i + 1] == outbound[..i] + [outbound[i]];
        if !ForTuple(outbound[i], key) {
          kept := kept + [outbound[i]];
        }
      }
      assert outbound[..|outbound|] == outbound;
      outbound := kept;
    }

    method Abort(id: u64) returns (r: Result<(), StackError>)
      requires Valid()
      modifies this
      ensures Valid() && Outcome(Value(), r) == AbortOne(old(Value()), id)
    {
      hide StackOk, Steps, Healthy, ResetSegment, Others, Sendable, Encoded, Remove, Entry.Key;
      AbortSteps(Value(), id, config);
      StepsOk(Value(), AbortOne(Value(), id).state, config);
      if id !in connections {
        return Err(UnknownConnection);
      }
      var e := connections[id];
      StackFacts(Value(), config);
      AbortSound(e.conn, config);
      RetainOthers(e.Key());
      Emit(e.peer, [ResetSegment(e.conn)]);
      RemoveConnection(id);
      r := Ok(());
    }

    /** Aborts every connection of a peer, in some order. */
    method AbortPeer(peer: P) returns (r: Result<nat, StackError>, ghost order: seq<u64>)
      requires Valid()
      modifies this
      ensures Valid() && r == Ok(|OfPeer(old(connections), peer)|)
      ensures (forall id :: id in order <==> id in OfPeer(old(connections), peer)) && Distinct(order)
      ensures Value() == AbortAll(old(Value()), order)
    {
      hide StackOk, AbortOne, OfPeer;
      var ids := OfPeer(connections, peer);
      var count := |ids|;
      order := [];
      while ids != {}
        invariant Valid() && ids <= OfPeer(old(connections), peer) && Distinct(order)
        invariant forall id :: id in order <==> id in OfPeer(old(connections), peer) - ids
        invariant Value() == AbortAll(old(Value()), order)
        decreases |ids|
      {
        var id :| id in ids;
        assert id !in order;
        ids := ids - {id};
        AbortAllSnoc(old(Value()), order, id);
        var _ := Abort(id);
        DistinctSnoc(order, id);
        order := order + [id];
      }
      r := Ok(count);
    }

    method DrainOutbound() returns (out: seq<Outbound<P>>)
      modifies `outbound
      ensures out == old(outbound) && Value() == old(Value()).(outbound := [])
    {
      out := outbound;
      outbound := [];
    }
  }
}
