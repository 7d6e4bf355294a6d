/**
 * A stack refines its connections' lives: in every run, each entry of the table is what the arrivals
 * for its tuple and its own writes, reads, closes and polls make of it, and what is queued for the
 * tuple is what that life emits.
 */
module StackRefinement {
  import opened Numbers
  import opened SequenceSpace
  import opened Wire
  import opened Types
  import opened Sender
  import opened ConnectionSpec
  import opened ConnectionInvariant
  import opened ConnectionRuns
  import opened Retries
  import opened StackSpec
  import opened StackSafety
  import opened StackRuns
  import opened StackTheorems
  import Answers
  import RenoControl
  import RttEstimation
  import StackTimers

  // ---------------------------------------------------------------- what is queued for a tuple

  /** The segments queued for a tuple, in order: what its items decode to. */
  function Spoken<P(==)>(out: seq<Outbound<P>>, key: ConnectionKey<P>): seq<Segment> {
    if out == [] then []
    else (if ForTuple(out[0], key) then [Decode(out[0].bytes).value] else []) + Spoken(out[1..], key)
  }

  lemma {:induction false} SpokenJoin<P>(a: seq<Outbound<P>>, b: seq<Outbound<P>>, key: ConnectionKey<P>)
    ensures Spoken(a + b, key) == Spoken(a, key) + Spoken(b, key)
  {
    hide Decode;
    if a == [] {
      assert a + b == b;
    } else {
      SpokenJoin(a[1..], b, key);
      assert (a + b)[1..] == a[1..] + b && (a + b)[0] == a[0];
      Associates(if ForTuple(a[0], key) then [Decode(a[0].bytes).value] else [], Spoken(a[1..], key), Spoken(b, key));
    }
  }

  /** The segments belong to the tuple and can be queued. */
  ghost predicate Belong<P>(segments: seq<Segment>, key: ConnectionKey<P>) {
    forall g :: g in segments ==> Sendable(g) && g.srcPort == key.localPort && g.dstPort == key.remotePort
  }

  lemma {:induction false} SpokenEncoded<P>(segments: seq<Segment>, own: ConnectionKey<P>, key: ConnectionKey<P>)
    requires Belong(segments, own)
    ensures Spoken(Encoded(own.peer, segments), key) == if key == own then segments else []
  {
    hide Decode, Encode, Sendable;
    if segments != [] {
      var g := segments[0];
      assert Encode(g).Ok? && Decode(Encode(g).value) == Ok(g) by { SendableDecodes(g); }
      SpokenEncoded(segments[1..], own, key);
    }
  }

  lemma {:induction false} SpokenOf<P>(out: seq<Outbound<P>>, key: ConnectionKey<P>)
    ensures Spoken(out, key) == Spoken(Of(out, key), key)
  {
    hide Decode, ForTuple;
    if out != [] {
      SpokenOf(out[1..], key);
      SpokenJoin(if ForTuple(out[0], key) then [out[0]] else [], Of(out[1..], key), key);
      SpokenJoin([out[0]], out[1..], key);
      assert out == [out[0]] + out[1..];
      if !ForTuple(out[0], key) { NotSpoken(out[0], key); }
    }
  }

  lemma NotSpoken<P>(o: Outbound<P>, key: ConnectionKey<P>)
    requires !ForTuple(o, key)
    ensures Spoken([o], key) == []
  {
    hide ForTuple;
    assert [o][1..] == [];
  }

  // ---------------------------------------------------------------- one connection's operation

  /** The arrival's decoded tuple is the key: its peer, our port and theirs. */
  predicate Addressed<P(==)>(peer: P, bytes: seq<byte>, key: ConnectionKey<P>) {
    && peer == key.peer && Decode(bytes).Ok?
    && Decode(bytes).value.dstPort == key.localPort && Decode(bytes).value.srcPort == key.remotePort
  }

  /** The update an operation of a life makes, if it makes one. */
  function UpdateOf(c: Conn, op: Op, cfg: Config): Option<Update> {
    match op
    case Arrive(bytes, now) => if Decode(bytes).Ok? then Some(Input(c, Decode(bytes).value, now, cfg)) else None
    case Put(data, now) => if MayWrite(c) then Some(Write(c, data, now, cfg).value) else None
    case Get(max) => Some(Read(c, max))
    case Shut(now) => Some(Close(c, now))
    case Tick(now) => Some(Poll(c, now, cfg))
  }

  lemma UpdateFacts(l: Life, op: Op, cfg: Config)
    requires !l.closed
    ensures var l', u := Perform(l, op, cfg), UpdateOf(l.conn, op, cfg);
            if u == None then l' == l && Output(l, op, cfg) == []
            else l'.conn == u.value.conn && l'.closed == u.value.closed && Output(l, op, cfg) == u.value.segments
  {
    Answers.WriteAllowed(l.conn, if op.Put? then op.data else [], if op.Put? then op.now else 0, cfg);
    hide Input, Write, Read, Close, Poll, Decode, AcceptCount, MayWrite;
  }

  /** An arrival carries the connection's own tuple. */
  predicate ForConn(c: Conn, op: Op) {
    op.Arrive? && Decode(op.bytes).Ok? ==>
      Decode(op.bytes).value.dstPort == c.localPort && Decode(op.bytes).value.srcPort == c.remotePort
  }

  lemma UpdateSound(c: Conn, op: Op, cfg: Config)
    requires Healthy(c, cfg)
    ensures var u := UpdateOf(c, op, cfg); u.Some? ==> Sound(c, u.value, cfg)
  {
    hide Healthy, Sound, Input, Write, Read, Close, Poll, Decode, MayWrite;
    match op
    case Arrive(bytes, now) =>
      if Decode(bytes).Ok? {
        DecodedPorts(bytes);
        InputSound(c, Decode(bytes).value, now, cfg);
      }
    case Put(data, now) =>
      Answers.WriteAllowed(c, data, now, cfg);
      WriteSound(c, data, now, cfg);
    case Get(max) => ReadSound(c, max, cfg);
    case Shut(now) => CloseSound(c, now, cfg);
    case Tick(now) => PollSound(c, now, cfg);
  }

  /** Everything an operation emits carries the connection's tuple. */
  lemma OutputTuple(l: Life, op: Op, cfg: Config)
    requires ForConn(l.conn, op)
    ensures forall g :: g in Output(l, op, cfg) ==> g.srcPort == l.conn.localPort && g.dstPort == l.conn.remotePort
  {
    hide Output, Perform, Decode, StaleHandshakeAck;
    Answers.EverySegmentAnnounces(l, op, cfg);
  }

  lemma UpdateBelongs<P>(e: Entry<P>, l: Life, op: Op, cfg: Config)
    requires Healthy(l.conn, cfg) && !l.closed && ForConn(l.conn, op) && e.conn == l.conn
    ensures var u := UpdateOf(l.conn, op, cfg); u.Some? ==> Belong(u.value.segments, e.Key())
  {
    hide Healthy, Output, Perform, UpdateOf, ForConn, Sendable;
    UpdateSound(l.conn, op, cfg);
    UpdateFacts(l, op, cfg);
    OutputTuple(l, op, cfg);
    var u := UpdateOf(l.conn, op, cfg);
    if u.Some? { SoundOutput(l.conn, u.value, cfg); }
    hide Sound;
  }

  /**
   * The table runs one connection's life from `s` to `s'`: the entry is as the life has it, or gone
   * because the life ended, and exactly `out` was queued for its tuple.
   */
  ghost predicate Tracks<P>(s: StackState<P>, s': StackState<P>, id: u64, l': Life, out: seq<Segment>)
    requires id in s.connections
  {
    var e := s.connections[id];
    if l'.closed then id !in s'.connections
    else
      && id in s'.connections && s'.connections[id] == Entry(e.peer, l'.conn) && s'.connections[id].Key() == e.Key()
      && Spoken(s'.outbound, e.Key()) == Spoken(s.outbound, e.Key()) + out
  }

  lemma Idle<P>(s: StackState<P>, s': StackState<P>, id: u64, l: Life)
    requires id in s.connections && id in s'.connections && s'.connections[id] == s.connections[id]
    requires !l.closed && l.conn == s.connections[id].conn
    requires var key := s.connections[id].Key(); Spoken(s'.outbound, key) == Spoken(s.outbound, key)
    ensures Tracks(s, s', id, l, [])
  {
    hide Spoken, Entry.Key;
  }

  /** The table after an operation of connection `i`. */
  function Applied<P(==)>(s: StackState<P>, i: u64, op: Op, cfg: Config): StackState<P> {
    if i !in s.connections then s
    else match UpdateOf(s.connections[i].conn, op, cfg)
      case None => s
      case Some(r) => Replace(s, i, r)
  }

  lemma AppliedTracks<P>(s: StackState<P>, i: u64, op: Op, id: u64, l: Life, cfg: Config)
    requires StackOk(s, cfg) && id in s.connections && !l.closed && l.conn == s.connections[id].conn
    requires i in s.connections ==> ForConn(s.connections[i].conn, op)
    ensures Tracks(s, Applied(s, i, op, cfg), id, if i == id then Perform(l, op, cfg) else l,
                   if i == id then Output(l, op, cfg) else [])
  {
    hide StackOk, Healthy, UpdateOf, ForConn, Output, Perform, Belong, Sound, Spoken, Encoded, Sendable;
    StackFacts(s, cfg);
    Idle(s, s, id, l);
    if i in s.connections {
      var e := s.connections[i];
      var u := UpdateOf(e.conn, op, cfg);
      var li := Life(e.conn, 0, [], false);
      if i == id { UpdateFacts(l, op, cfg); }
      if u.Some? {
        UpdateSound(e.conn, op, cfg);
        UpdateBelongs(e, li, op, cfg);
        StackTimers.ReplaceShape(s, i, u.value);
        var key := s.connections[id].Key();
        SpokenEncoded(u.value.segments, e.Key(), key);
        SpokenJoin(s.outbound, Encoded(e.peer, u.value.segments), key);
        SoundPorts(e.conn, u.value, cfg);
        hide Replace;
      }
    }
  }

  lemma SoundPorts(c: Conn, r: Update, cfg: Config)
    requires Sound(c, r, cfg)
    ensures r.conn.localPort == c.localPort && r.conn.remotePort == c.remotePort
  {
    hide Healthy, Sendable;
  }

  // ---------------------------------------------------------------- what a stack's operation is to one connection

  /** One poll for every time the connection is polled. */
  function Ticks(ids: seq<u64>, id: u64, now: u64): seq<Op> {
    if ids == [] then [] else (if ids[0] == id then [Op.Tick(now)] else []) + Ticks(ids[1..], id, now)
  }

  /** What an operation of the stack means to the connection `id` with the given tuple. */
  function OpsOf<P(==)>(op: StackOp<P>, id: u64, key: ConnectionKey<P>): seq<Op> {
    match op
    case DoArrive(peer, bytes, _, now) => if Addressed(peer, bytes, key) then [Op.Arrive(bytes, now)] else []
    case DoWrite(i, data, now) => if i == id then [Op.Put(data, now)] else []
    case DoRead(i, max) => if i == id then [Op.Get(max)] else []
    case DoClose(i, now) => if i == id then [Op.Shut(now)] else []
    case DoPoll(ids, now) => Ticks(ids, id, now)
    case _ => []
  }

  function AllOpsOf<P(==)>(ops: seq<StackOp<P>>, id: u64, key: ConnectionKey<P>): seq<Op> {
    if ops == [] then [] else OpsOf(ops[0], id, key) + AllOpsOf(ops[1..], id, key)
  }

  /** Everything the operations of a life emit. */
  function Outputs(l: Life, ops: seq<Op>, cfg: Config): seq<Segment>
    decreases |ops|
  {
    if ops == [] then [] else Output(l, ops[0], cfg) + Outputs(Perform(l, ops[0], cfg), ops[1..], cfg)
  }

  lemma {:induction false} LiveJoin(l: Life, a: seq<Op>, b: seq<Op>, cfg: Config)
    ensures Live(l, a + b, cfg) == Live(Live(l, a, cfg), b, cfg)
    ensures Outputs(l, a + b, cfg) == Outputs(l, a, cfg) + Outputs(Live(l, a, cfg), b, cfg)
    decreases |a|
  {
    hide Perform, Output;
    if a == [] {
      assert a + b == b;
    } else {
      var l1 := Perform(l, a[0], cfg);
      LiveJoin(l1, a[1..], b, cfg);
      assert (a + b)[1..] == a[1..] + b && (a + b)[0] == a[0];
      Associates(Output(l, a[0], cfg), Outputs(l1, a[1..], cfg), Outputs(Live(l, a, cfg), b, cfg));
    }
  }

  lemma NoOps(l: Life, cfg: Config)
    ensures Live(l, [], cfg) == l && Outputs(l, [], cfg) == []
  {
  }

  lemma OneOp(l: Life, op: Op, cfg: Config)
    ensures Live(l, [op], cfg) == Perform(l, op, cfg) && Outputs(l, [op], cfg) == Output(l, op, cfg)
  {
    hide Perform, Output;
    NoOps(Perform(l, op, cfg), cfg);
    assert [op][1..] == [];
  }

  lemma LocalIs<P>(s: StackState<P>, i: u64, max: nat, now: u64, cfg: Config)
    ensures ReadFrom(s, i, max).state == Applied(s, i, Op.Get(max), cfg)
    ensures CloseOne(s, i, now).state == Applied(s, i, Op.Shut(now), cfg)
    ensures PollOne(s, i, now, cfg) == Applied(s, i, Op.Tick(now), cfg)
  {
    hide Input, Write, Read, Close, Poll, MayWrite, Replace, ReadCount, Decode;
  }

  lemma WriteIs<P>(s: StackState<P>, i: u64, data: seq<byte>, now: u64, cfg: Config)
    ensures WriteTo(s, i, data, now, cfg).state == Applied(s, i, Op.Put(data, now), cfg)
  {
    hide Input, Write, Read, Close, Poll, MayWrite, Replace, AcceptCount, Decode;
    if i in s.connections { Answers.WriteAllowed(s.connections[i].conn, data, now, cfg); }
  }

  /** An operation of a connection of its own, seen from one connection. */
  lemma LocalTracks<P>(s: StackState<P>, i: u64, op: Op, id: u64, l: Life, cfg: Config)
    requires StackOk(s, cfg) && id in s.connections && !l.closed && l.conn == s.connections[id].conn && !op.Arrive?
    ensures var own := if i == id then [op] else [];
            Tracks(s, Applied(s, i, op, cfg), id, Live(l, own, cfg), Outputs(l, own, cfg))
  {
    hide StackOk, Applied, Tracks, Perform, Output;
    AppliedTracks(s, i, op, id, l, cfg);
    NoOps(l, cfg);
    OneOp(l, op, cfg);
  }

  lemma TracksThen<P>(s: StackState<P>, s1: StackState<P>, s2: StackState<P>, id: u64,
                      l1: Life, l2: Life, a: seq<Segment>, b: seq<Segment>)
    requires id in s.connections && !l1.closed && Tracks(s, s1, id, l1, a) && Tracks(s1, s2, id, l2, b)
    ensures Tracks(s, s2, id, l2, a + b)
  {
    hide Spoken, Entry.Key;
    var key := s.connections[id].Key();
    Associates(Spoken(s.outbound, key), a, b);
  }

  /** Nothing but an opening adds a connection. */
  lemma AppliedShrinks<P>(s: StackState<P>, i: u64, op: Op, cfg: Config)
    ensures Applied(s, i, op, cfg).connections.Keys <= s.connections.Keys
    ensures Applied(s, i, op, cfg).nextId == s.nextId
  {
    hide UpdateOf, Encoded, Entry.Key;
  }

  lemma {:induction false} PollShrinks<P>(s: StackState<P>, ids: seq<u64>, now: u64, cfg: Config)
    ensures PollAll(s, ids, now, cfg).connections.Keys <= s.connections.Keys
    ensures PollAll(s, ids, now, cfg).nextId == s.nextId
    decreases |ids|
  {
    hide Applied, PollOne;
    if ids != [] {
      LocalIs(s, ids[0], 0, now, cfg);
      AppliedShrinks(s, ids[0], Op.Tick(now), cfg);
      PollShrinks(PollOne(s, ids[0], now, cfg), ids[1..], now, cfg);
    }
  }

  lemma {:induction false} PollTracks<P>(s: StackState<P>, ids: seq<u64>, now: u64, id: u64, l: Life, cfg: Config)
    requires StackOk(s, cfg) && id in s.connections && !l.closed && l.conn == s.connections[id].conn
    ensures var own := Ticks(ids, id, now);
            Tracks(s, PollAll(s, ids, now, cfg), id, Live(l, own, cfg), Outputs(l, own, cfg))
    decreases |ids|
  {
    hide StackOk, PollOne, Applied, Perform, Output, Spoken, Entry.Key;
    if ids == [] {
      NoOps(l, cfg);
      Idle(s, s, id, l);
    } else {
      var first := if ids[0] == id then [Op.Tick(now)] else [];
      var s1, l1, rest := PollOne(s, ids[0], now, cfg), Live(l, first, cfg), Ticks(ids[1..], id, now);
      LocalIs(s, ids[0], 0, now, cfg);
      LocalTracks(s, ids[0], Op.Tick(now), id, l, cfg);
      LiveJoin(l, first, rest, cfg);
      if l1.closed {
        StaysClosed(l1, rest, cfg);
        PollShrinks(s1, ids[1..], now, cfg);
      } else {
        OneConnectionSteps(s, ids[0], [], 0, now, cfg);
        StepsOk(s, s1, cfg);
        PollTracks(s1, ids[1..], now, id, l1, cfg);
        TracksThen(s, s1, PollAll(s, ids, now, cfg), id, l1, Live(l1, rest, cfg),
                   Outputs(l, first, cfg), Outputs(l1, rest, cfg));
      }
    }
  }

  /** Output for another tuple, and a new entry, leave a connection alone. */
  lemma EmitElsewhere<P>(s: StackState<P>, segments: seq<Segment>, own: ConnectionKey<P>, id: u64, l: Life)
    requires id in s.connections && !l.closed && l.conn == s.connections[id].conn
    requires Belong(segments, own) && own != s.connections[id].Key()
    ensures Tracks(s, Emit(s, own.peer, segments), id, l, [])
  {
    hide Spoken, Entry.Key, Encoded, Belong;
    var key := s.connections[id].Key();
    SpokenEncoded(segments, own, key);
    SpokenJoin(s.outbound, Encoded(own.peer, segments), key);
  }

  lemma OpenElsewhere<P>(s: StackState<P>, e: Entry<P>, segments: seq<Segment>, id: u64, l: Life)
    requires id in s.connections && !l.closed && l.conn == s.connections[id].conn && id != s.nextId
    requires Belong(segments, e.Key()) && e.Key() != s.connections[id].Key()
    ensures Tracks(s, Emit(Insert(s, e), e.peer, segments), id, l, [])
  {
    hide Spoken, Entry.Key, Encoded, Belong;
    var s1 := Insert(s, e);
    KeyPeer(e);
    Idle(s, s1, id, l);
    EmitElsewhere(s1, segments, e.Key(), id, l);
    TracksThen(s, s1, Emit(s1, e.peer, segments), id, l, l, [], []);
  }

  lemma KeyPeer<P>(e: Entry<P>)
    ensures e.Key().peer == e.peer
  {
  }

  lemma ClientBelongs<P>(peer: P, localPort: u16, remotePort: u16, isn: u32, now: u64, cfg: Config)
    requires localPort != 0 && remotePort != 0
    ensures var r := Client(localPort, remotePort, isn, now, cfg);
            var key := ConnectionKey(peer, localPort, remotePort);
            Belong(r.segments, key) && Entry(peer, r.conn).Key() == key && Healthy(r.conn, cfg)
  {
    ClientSound(localPort, remotePort, isn, now, cfg);
    hide Sendable, Healthy, WindowField, RenoControl.Initial, RttEstimation.Initial;
  }

  lemma ServerBelongs<P>(peer: P, syn: Segment, isn: u32, now: u64, cfg: Config)
    requires syn.srcPort != 0 && syn.dstPort != 0
    ensures var r := Server(syn, isn, now, cfg); var key := ConnectionKey(peer, syn.dstPort, syn.srcPort);
            Belong(r.segments, key) && Entry(peer, r.conn).Key() == key && Healthy(r.conn, cfg)
  {
    ServerSound(syn, isn, now, cfg);
    hide Sendable, Healthy, WindowField, NegotiateMss, UpdateWindow, RenoControl.Initial, RttEstimation.Initial;
  }

  lemma ReplyBelongs<P>(peer: P, bytes: seq<byte>)
    requires Decode(bytes).Ok?
    ensures var g := Decode(bytes).value; Belong([ResetReply(g)], ConnectionKey(peer, g.dstPort, g.srcPort))
  {
    DecodedSegment(bytes);
    hide Sendable, Decode, Add, SequenceLen;
  }

  /** A segment for a known tuple is an operation of its connection; only the accept queue moves besides. */
  lemma DeliverIs<P>(s: StackState<P>, i: u64, bytes: seq<byte>, now: u64, cfg: Config)
    requires i in s.connections && Decode(bytes).Ok?
    ensures var s', a := Deliver(s, i, Decode(bytes).value, now, cfg), Applied(s, i, Op.Arrive(bytes, now), cfg);
            s' == a.(accepts := s'.accepts)
  {
    hide Decode, Input, Encoded, Entry.Key;
  }

  lemma SameTracks<P>(s: StackState<P>, a: StackState<P>, b: StackState<P>, id: u64, l: Life, out: seq<Segment>)
    requires id in s.connections && Tracks(s, a, id, l, out)
    requires b.connections == a.connections && b.outbound == a.outbound
    ensures Tracks(s, b, id, l, out)
  {
    hide Spoken, Entry.Key;
  }

  /** The tuple is free. */
  ghost predicate Free<P>(s: StackState<P>, key: ConnectionKey<P>) {
    forall id :: id in s.connections ==> s.connections[id].Key() != key
  }

  /** A tuple is free exactly if the lookup does not know it, and else leads to its one connection. */
  lemma Linked<P>(s: StackState<P>, key: ConnectionKey<P>, cfg: Config)
    requires StackOk(s, cfg)
    ensures Free(s, key) <==> key !in s.lookup
    ensures key in s.lookup ==> s.lookup[key] in s.connections
    ensures forall id :: id in s.connections ==>
      (s.connections[id].Key() == key <==> key in s.lookup && s.lookup[key] == id)
  {
    hide Capped, AllHealthy, AllDecode, Entry.Key;
  }

  lemma ArriveTracks<P>(
      s: StackState<P>, peer: P, bytes: seq<byte>, isn: u32, now: u64, id: u64, l: Life, cfg: Config)
    requires StackOk(s, cfg) && id in s.connections && !l.closed && l.conn == s.connections[id].conn
    requires s.nextId !in s.connections
    ensures var own := if Addressed(peer, bytes, s.connections[id].Key()) then [Op.Arrive(bytes, now)] else [];
            Tracks(s, StackSpec.Arrive(s, peer, bytes, isn, now, cfg).state, id,
                   Live(l, own, cfg), Outputs(l, own, cfg))
  {
    hide StackOk, Decode, Deliver, Applied, Tracks, Perform, Output, Server, ResetReply, Admits, SupportsFipsVersion;
    hide Entry.Key, Belong, Healthy, Insert, Emit, Free;
    NoOps(l, cfg);
    Idle(s, s, id, l);
    if Decode(bytes).Ok? {
      var g := Decode(bytes).value;
      var key := ConnectionKey(peer, g.dstPort, g.srcPort);
      Linked(s, key, cfg);
      OneOp(l, Op.Arrive(bytes, now), cfg);
      if key in s.lookup {
        var i := s.lookup[key];
        DeliverIs(s, i, bytes, now, cfg);
        OwnTuple(s.connections[i], Op.Arrive(bytes, now));
        AppliedTracks(s, i, Op.Arrive(bytes, now), id, l, cfg);
        SameTracks(s, Applied(s, i, Op.Arrive(bytes, now), cfg), Deliver(s, i, g, now, cfg), id,
                   Live(l, if i == id then [Op.Arrive(bytes, now)] else [], cfg),
                   Outputs(l, if i == id then [Op.Arrive(bytes, now)] else [], cfg));
      } else {
        DecodedSegment(bytes);
        ReplyBelongs(peer, bytes);
        ServerBelongs(peer, g, isn, now, cfg);
        var r := Server(g, isn, now, cfg);
        EmitElsewhere(s, [ResetReply(g)], key, id, l);
        OpenElsewhere(s, Entry(peer, r.conn), r.segments, id, l);
      }
    }
  }

  lemma OwnTuple<P>(e: Entry<P>, op: Op)
    requires op.Arrive? && Decode(op.bytes).Ok?
    requires e.Key().localPort == Decode(op.bytes).value.dstPort && e.Key().remotePort == Decode(op.bytes).value.srcPort
    ensures ForConn(e.conn, op)
  {
    hide Decode;
  }

  lemma ConnectTracks<P>(s: StackState<P>, peer: P, localPort: u16, remotePort: u16, isn: u32, now: u64,
                         id: u64, l: Life, cfg: Config)
    requires StackOk(s, cfg) && id in s.connections && !l.closed && l.conn == s.connections[id].conn
    requires s.nextId !in s.connections
    ensures Tracks(s, ConnectFrom(s, peer, localPort, remotePort, isn, now, cfg).state, id, l, [])
    ensures Tracks(s, Connect(s, peer, remotePort, isn, now, cfg).state, id, l, [])
  {
    hide StackOk, Tracks, ConnectFrom, PortScan, Entry.Key, Spoken, Healthy, AllDecode, Steps;
    ConnectFromTracks(s, peer, localPort, remotePort, isn, now, id, l, cfg);
    var scan := PortScan(s.lookup, peer, remotePort, s.nextPort, PORTS);
    var s1 := s.(nextPort := scan.cursor);
    Idle(s, s1, id, l);
    if scan.port.Some? {
      StackFacts(s, cfg);
      ScanRange(s.lookup, peer, remotePort, s.nextPort, PORTS);
      StackRuns.Unmoved(s, s1, cfg);
      StepsOk(s, s1, cfg);
      var s2 := ConnectFrom(s1, peer, scan.port.value, remotePort, isn, now, cfg).state;
      ConnectFromTracks(s1, peer, scan.port.value, remotePort, isn, now, id, l, cfg);
      TracksThen(s, s1, s2, id, l, l, [], []);
      var none: seq<Segment> := [];
      assert none + [] == none;
    }
  }

  lemma ConnectFromTracks<P>(s: StackState<P>, peer: P, localPort: u16, remotePort: u16, isn: u32, now: u64,
                             id: u64, l: Life, cfg: Config)
    requires StackOk(s, cfg) && id in s.connections && !l.closed && l.conn == s.connections[id].conn
    requires s.nextId !in s.connections
    ensures Tracks(s, ConnectFrom(s, peer, localPort, remotePort, isn, now, cfg).state, id, l, [])
  {
    hide StackOk, Tracks, Client, Admits, Entry.Key, Belong, Healthy, Insert, Emit, Free;
    Idle(s, s, id, l);
    var key := ConnectionKey(peer, localPort, remotePort);
    if localPort != 0 && remotePort != 0 && key !in s.lookup {
      Linked(s, key, cfg);
      ClientBelongs(peer, localPort, remotePort, isn, now, cfg);
      var r := Client(localPort, remotePort, isn, now, cfg);
      OpenElsewhere(s, Entry(peer, r.conn), r.segments, id, l);
    }
  }

  lemma AbortTracks<P>(s: StackState<P>, i: u64, id: u64, l: Life, cfg: Config)
    requires StackOk(s, cfg) && id in s.connections && !l.closed && l.conn == s.connections[id].conn && i != id
    ensures Tracks(s, AbortOne(s, i).state, id, l, [])
  {
    hide StackOk, AbortOne, Entry.Key, Spoken, Others, Of, Elsewhere, OneReset;
    AbortUnknown(s, i);
    if i in s.connections {
      var key, s' := s.connections[id].Key(), AbortOne(s, i).state;
      StackFacts(s, cfg);
      AbortIsolation(s, i, cfg);
      AbortElsewhere(s, i, key, cfg);
      SpokenOf(s.outbound, key);
      SpokenOf(s'.outbound, key);
    }
    Idle(s, AbortOne(s, i).state, id, l);
  }

  lemma AbortUnknown<P>(s: StackState<P>, i: u64)
    ensures i !in s.connections ==> AbortOne(s, i).state == s
  {
    hide Others, Encoded, ResetSegment, Remove;
  }

  lemma {:induction false} AbortAllTracks<P>(s: StackState<P>, ids: seq<u64>, id: u64, l: Life, cfg: Config)
    requires StackOk(s, cfg) && id in s.connections && !l.closed && l.conn == s.connections[id].conn && id !in ids
    ensures Tracks(s, AbortAll(s, ids), id, l, [])
    decreases |ids|
  {
    hide StackOk, AbortOne, Entry.Key, Spoken;
    if ids == [] {
      Idle(s, s, id, l);
    } else {
      var s1 := AbortOne(s, ids[0]).state;
      AbortTracks(s, ids[0], id, l, cfg);
      AbortSteps(s, ids[0], cfg);
      StepsOk(s, s1, cfg);
      AbortAllTracks(s1, ids[1..], id, l, cfg);
      TracksThen(s, s1, AbortAll(s, ids), id, l, l, [], []);
    }
  }

  lemma ListenTracks<P>(s: StackState<P>, port: u16, id: u64, l: Life, slots: nat, eligible: P -> bool, cfg: Config)
    requires id in s.connections && !l.closed && l.conn == s.connections[id].conn
    ensures Tracks(s, Listen(s, port).state, id, l, []) && Tracks(s, CloseListener(s, port), id, l, [])
    ensures Tracks(s, AcceptNext(s, port).0, id, l, []) && Tracks(s, Reserved(s, slots, eligible, cfg), id, l, [])
  {
    hide Tracks, PopLive, Spoken, Entry.Key;
    Idle(s, Listen(s, port).state, id, l);
    Idle(s, CloseListener(s, port), id, l);
    Idle(s, AcceptNext(s, port).0, id, l);
    Idle(s, Reserved(s, slots, eligible, cfg), id, l);
  }

  /**
   * One operation of the stack, seen from one connection that it does not abort: the entry takes
   * exactly the steps of its life that the operation means to it, and is gone exactly when its life
   * ends; exactly what those steps emit is queued for its tuple.
   */
  lemma StepTracks<P>(s: StackState<P>, op: StackOp<P>, id: u64, l: Life, cfg: Config)
    requires StackOk(s, cfg) && id in s.connections && !l.closed && l.conn == s.connections[id].conn
    requires s.nextId !in s.connections && !op.DoDrain? && !(op.DoAbort? && id in op.ids)
    ensures var own := OpsOf(op, id, s.connections[id].Key());
            Tracks(s, StackStep(s, op, cfg), id, Live(l, own, cfg), Outputs(l, own, cfg))
  {
    hide StackOk, Tracks, Perform, Output, Entry.Key, Connect, ConnectFrom, StackSpec.Arrive, WriteTo, ReadFrom;
    hide CloseOne, PollAll, AbortAll, Listen, CloseListener, AcceptNext, Reserved, Ticks, Addressed, Applied;
    NoOps(l, cfg);
    match op
    case DoListen(port) => ListenTracks(s, port, id, l, 0, (p: P) => true, cfg);
    case DoCloseListener(port) => ListenTracks(s, port, id, l, 0, (p: P) => true, cfg);
    case DoAccept(port) => ListenTracks(s, port, id, l, 0, (p: P) => true, cfg);
    case DoConnect(peer, remotePort, isn, now) => ConnectTracks(s, peer, 0, remotePort, isn, now, id, l, cfg);
    case DoConnectFrom(peer, localPort, remotePort, isn, now) =>
      ConnectTracks(s, peer, localPort, remotePort, isn, now, id, l, cfg);
    case DoArrive(peer, bytes, isn, now) => ArriveTracks(s, peer, bytes, isn, now, id, l, cfg);
    case DoWrite(i, data, now) =>
      WriteIs(s, i, data, now, cfg);
      LocalTracks(s, i, Op.Put(data, now), id, l, cfg);
    case DoRead(i, max) =>
      LocalIs(s, i, max, 0, cfg);
      LocalTracks(s, i, Op.Get(max), id, l, cfg);
    case DoClose(i, now) =>
      LocalIs(s, i, 0, now, cfg);
      LocalTracks(s, i, Op.Shut(now), id, l, cfg);
    case DoPoll(ids, now) => PollTracks(s, ids, now, id, l, cfg);
    case DoAbort(ids) => AbortAllTracks(s, ids, id, l, cfg);
    case DoReserve(slots, eligible) => ListenTracks(s, 0, id, l, slots, eligible, cfg);
    case DoDrain => assert false;
  }

  // ---------------------------------------------------------------- identifiers

  /** A step adds no connection but the one with the next identifier. */
  lemma KeysMove<P>(s: StackState<P>, op: StackOp<P>, cfg: Config)
    ensures StackStep(s, op, cfg).connections.Keys <= s.connections.Keys + {s.nextId}
    ensures !op.DoConnect? && !op.DoConnectFrom? && !op.DoArrive? ==>
      StackStep(s, op, cfg).connections.Keys <= s.connections.Keys
    ensures op.DoAbort? ==> forall id :: id in op.ids ==> id !in StackStep(s, op, cfg).connections
  {
    hide PopLive, PortScan, Client, Server, Encoded, Entry.Key, Decode, Admits, Applied, PollAll, AbortAll, Deliver;
    hide WriteTo, ReadFrom, CloseOne, ResetReply, SupportsFipsVersion;
    match op
    case DoArrive(peer, bytes, isn, now) => ArriveKeys(s, peer, bytes, isn, now, cfg);
    case DoWrite(i, data, now) =>
      WriteIs(s, i, data, now, cfg);
      AppliedShrinks(s, i, Op.Put(data, now), cfg);
    case DoRead(i, max) =>
      LocalIs(s, i, max, 0, cfg);
      AppliedShrinks(s, i, Op.Get(max), cfg);
    case DoClose(i, now) =>
      LocalIs(s, i, 0, now, cfg);
      AppliedShrinks(s, i, Op.Shut(now), cfg);
    case DoPoll(ids, now) => PollShrinks(s, ids, now, cfg);
    case DoAbort(ids) => AbortKeys(s, ids);
    case _ =>
  }

  lemma ArriveKeys<P>(s: StackState<P>, peer: P, bytes: seq<byte>, isn: u32, now: u64, cfg: Config)
    ensures StackSpec.Arrive(s, peer, bytes, isn, now, cfg).state.connections.Keys <= s.connections.Keys + {s.nextId}
  {
    hide Decode, Server, Encoded, Entry.Key, Admits, Applied, Deliver, ResetReply, SupportsFipsVersion;
    if Decode(bytes).Ok? {
      var g := Decode(bytes).value;
      var key := ConnectionKey(peer, g.dstPort, g.srcPort);
      if key in s.lookup && s.lookup[key] in s.connections {
        DeliverIs(s, s.lookup[key], bytes, now, cfg);
        AppliedShrinks(s, s.lookup[key], Op.Arrive(bytes, now), cfg);
      }
    }
  }

  lemma {:induction false} AbortKeys<P>(s: StackState<P>, ids: seq<u64>)
    ensures AbortAll(s, ids).connections.Keys <= s.connections.Keys
    ensures forall id :: id in ids ==> id !in AbortAll(s, ids).connections
    decreases |ids|
  {
    hide Others, Encoded, ResetSegment, Entry.Key;
    if ids != [] {
      AbortKeys(AbortOne(s, ids[0]).state, ids[1..]);
    }
  }

  /** An identifier that is handed out and gone never comes back. */
  lemma {:induction false} NeverReturns<P>(s: StackState<P>, ops: seq<StackOp<P>>, id: u64, cfg: Config)
    requires StackOk(s, cfg) && IdsBelow(s) && s.nextId + |ops| <= U64_MAX
    requires id < s.nextId && id !in s.connections
    ensures id !in StackRun(s, ops, cfg).connections
    decreases |ops|
  {
    hide StackOk, StackStep;
    if ops != [] {
      KeysMove(s, ops[0], cfg);
      StackStepKeeps(s, ops[0], cfg);
      NeverReturns(StackStep(s, ops[0], cfg), ops[1..], id, cfg);
    }
  }

  // ---------------------------------------------------------------- runs

  /** The bytes that the stack reported as accepted for a connection. */
  function WrittenBy<P(==)>(s: StackState<P>, op: StackOp<P>, id: u64, cfg: Config): seq<byte> {
    if !op.DoWrite? || op.id != id then []
    else match WriteTo(s, id, op.data, op.now, cfg).result
      case Err(_) => []
      case Ok(n) => op.data[..Min(n, |op.data|)]
  }

  function Written<P(==)>(s: StackState<P>, ops: seq<StackOp<P>>, id: u64, cfg: Config): seq<byte>
    decreases |ops|
  {
    if ops == [] then []
    else WrittenBy(s, ops[0], id, cfg) + Written(StackStep(s, ops[0], cfg), ops[1..], id, cfg)
  }

  /** What the carrier took away during a run. */
  function Taken<P(==)>(s: StackState<P>, ops: seq<StackOp<P>>, cfg: Config): seq<Outbound<P>>
    decreases |ops|
  {
    if ops == [] then []
    else (if ops[0].DoDrain? then s.outbound else []) + Taken(StackStep(s, ops[0], cfg), ops[1..], cfg)
  }

  /** Everything queued by the end of a run, taken away or not. */
  function Queued<P(==)>(s: StackState<P>, ops: seq<StackOp<P>>, cfg: Config): seq<Outbound<P>> {
    Taken(s, ops, cfg) + StackRun(s, ops, cfg).outbound
  }

  lemma {:induction false} TicksSend(l: Life, ids: seq<u64>, id: u64, now: u64, cfg: Config)
    ensures Live(l, Ticks(ids, id, now), cfg).sent == l.sent
    decreases |ids|
  {
    hide Poll;
    if ids != [] {
      var first, rest := if ids[0] == id then [Op.Tick(now)] else [], Ticks(ids[1..], id, now);
      LiveJoin(l, first, rest, cfg);
      OneOp(l, Op.Tick(now), cfg);
      NoOps(l, cfg);
      TicksSend(Live(l, first, cfg), ids[1..], id, now, cfg);
    }
  }

  /** The stack reports exactly the bytes that the connection's life accepts. */
  lemma WritesReported<P>(s: StackState<P>, op: StackOp<P>, id: u64, l: Life, cfg: Config)
    requires id in s.connections && !l.closed && l.conn == s.connections[id].conn
    ensures var own := OpsOf(op, id, s.connections[id].Key());
            Live(l, own, cfg).sent == l.sent + WrittenBy(s, op, id, cfg)
  {
    hide Input, Write, Read, Close, Poll, Decode, AcceptCount, Ticks, Replace, Addressed, Live, Entry.Key;
    NoOps(l, cfg);
    match op
    case DoArrive(peer, bytes, isn, now) => OneOp(l, Op.Arrive(bytes, now), cfg);
    case DoWrite(i, data, now) => OneOp(l, Op.Put(data, now), cfg);
    case DoRead(i, max) => OneOp(l, Op.Get(max), cfg);
    case DoClose(i, now) => OneOp(l, Op.Shut(now), cfg);
    case DoPoll(ids, now) => TicksSend(l, ids, id, now, cfg);
    case _ =>
  }

  /**
   * A whole run, seen from one connection that is still there in the end: its entry is its life under
   * the operations that were its own, what was queued for its tuple is what that life emitted, and
   * what was accepted is what the stack reported.
   */
  lemma {:induction false} RunTracks<P>(s: StackState<P>, ops: seq<StackOp<P>>, id: u64, l: Life, cfg: Config)
    requires StackOk(s, cfg) && IdsBelow(s) && s.nextId + |ops| <= U64_MAX
    requires id in s.connections && !l.closed && l.conn == s.connections[id].conn
    requires id in StackRun(s, ops, cfg).connections
    ensures var key, s' := s.connections[id].Key(), StackRun(s, ops, cfg);
            var own := AllOpsOf(ops, id, key);
            var l' := Live(l, own, cfg);
            && !l'.closed && s'.connections[id] == Entry(s.connections[id].peer, l'.conn)
            && s'.connections[id].Key() == key
            && Spoken(Queued(s, ops, cfg), key) == Spoken(s.outbound, key) + Outputs(l, own, cfg)
            && l'.sent == l.sent + Written(s, ops, id, cfg)
    decreases |ops|
  {
    hide StackOk, StackStep, Perform, Output, Entry.Key, Spoken, OpsOf, WrittenBy;
    var key := s.connections[id].Key();
    if ops == [] {
      NoOps(l, cfg);
      assert Taken(s, ops, cfg) + s.outbound == s.outbound;
    } else {
      var op, s1 := ops[0], StackStep(s, ops[0], cfg);
      var own, rest := OpsOf(op, id, key), AllOpsOf(ops[1..], id, key);
      StackStepKeeps(s, op, cfg);
      KeysMove(s, op, cfg);
      if id !in s1.connections { NeverReturns(s1, ops[1..], id, cfg); }
      FirstStep(s, op, id, l, cfg);
      LiveJoin(l, own, rest, cfg);
      RunTracks(s1, ops[1..], id, Live(l, own, cfg), cfg);
      QueuedAfter(s, ops, key, cfg);
      Associates(l.sent, WrittenBy(s, op, id, cfg), Written(s1, ops[1..], id, cfg));
      Associates(Spoken(s.outbound, key), Outputs(l, own, cfg), Outputs(Live(l, own, cfg), rest, cfg));
      SpokenNone(key);
      if op.DoDrain? { assert Outputs(l, [], cfg) + Outputs(l, rest, cfg) == Outputs(l, rest, cfg); }
    }
  }

  lemma FirstStep<P>(s: StackState<P>, op: StackOp<P>, id: u64, l: Life, cfg: Config)
    requires StackOk(s, cfg) && s.nextId !in s.connections && id in s.connections
    requires !l.closed && l.conn == s.connections[id].conn && id in StackStep(s, op, cfg).connections
    ensures var own, s1 := OpsOf(op, id, s.connections[id].Key()), StackStep(s, op, cfg);
            var l1, e := Live(l, own, cfg), s.connections[id];
            && !l1.closed && s1.connections[id] == Entry(e.peer, l1.conn) && s1.connections[id].Key() == e.Key()
            && l1.sent == l.sent + WrittenBy(s, op, id, cfg)
            && (if op.DoDrain? then s1.outbound == [] && own == []
                else Spoken(s1.outbound, e.Key()) == Spoken(s.outbound, e.Key()) + Outputs(l, own, cfg))
  {
    hide StackOk, Perform, Output, Entry.Key, Spoken, WrittenBy;
    DrainStep(s, l, id, cfg);
    hide StackStep, OpsOf;
    KeysMove(s, op, cfg);
    WritesReported(s, op, id, l, cfg);
    if !op.DoDrain? { StepTracks(s, op, id, l, cfg); }
  }

  /** The carrier takes all that is queued and nothing else happens. */
  lemma DrainStep<P>(s: StackState<P>, l: Life, id: u64, cfg: Config)
    requires id in s.connections
    ensures StackStep(s, DoDrain, cfg) == s.(outbound := []) && OpsOf(DoDrain, id, s.connections[id].Key()) == []
    ensures Live(l, [], cfg) == l
  {
  }

  lemma QueuedAfter<P>(s: StackState<P>, ops: seq<StackOp<P>>, key: ConnectionKey<P>, cfg: Config)
    requires ops != []
    ensures var s1 := StackStep(s, ops[0], cfg);
            Spoken(Queued(s, ops, cfg), key)
            == (if ops[0].DoDrain? then Spoken(s.outbound, key) else []) + Spoken(Queued(s1, ops[1..], cfg), key)
  {
    hide StackStep, Spoken;
    var s1 := StackStep(s, ops[0], cfg);
    var before := if ops[0].DoDrain? then s.outbound else [];
    Associates(before, Taken(s1, ops[1..], cfg), StackRun(s, ops, cfg).outbound);
    SpokenJoin(before, Queued(s1, ops[1..], cfg), key);
    assert Spoken<P>([], key) == [] by { SpokenNone(key); }
  }

  lemma SpokenNone<P>(key: ConnectionKey<P>)
    ensures Spoken<P>([], key) == []
  {
  }

  // ---------------------------------------------------------------- openings

  /** The operation opens a connection for the tuple, with this first state and these first segments. */
  ghost predicate Opens<P>(op: StackOp<P>, key: ConnectionKey<P>, born: Life, first: seq<Segment>, cfg: Config) {
    match op
    case DoConnect(peer, remotePort, isn, now) =>
      && peer == key.peer && remotePort == key.remotePort && IsClient(key, isn, now, born, first, cfg)
    case DoConnectFrom(peer, localPort, remotePort, isn, now) =>
      ConnectionKey(peer, localPort, remotePort) == key && IsClient(key, isn, now, born, first, cfg)
    case DoArrive(peer, bytes, isn, now) =>
      && Addressed(peer, bytes, key) && IsServer(Decode(bytes).value, isn, now, born, first, cfg)
    case _ => false
  }

  ghost predicate IsClient<P>(key: ConnectionKey<P>, isn: u32, now: u64, born: Life, first: seq<Segment>, cfg: Config) {
    var r := Client(key.localPort, key.remotePort, isn, now, cfg);
    key.localPort != 0 && key.remotePort != 0 && born == Life(r.conn, isn + 1, [], false) && first == r.segments
  }

  /** A SYN of the supported version. */
  ghost predicate IsServer(g: Segment, isn: u32, now: u64, born: Life, first: seq<Segment>, cfg: Config) {
    var r := Server(g, isn, now, cfg);
    && g.flags.syn && !g.flags.ack && SupportsFipsVersion(g, FIPS_VERSION)
    && g.srcPort != 0 && g.dstPort != 0 && born == Life(r.conn, isn + 1, [], false) && first == r.segments
  }

  lemma ClientBorn(localPort: u16, remotePort: u16, isn: u32, now: u64, cfg: Config)
    ensures localPort != 0 && remotePort != 0 ==>
      Born(Life(Client(localPort, remotePort, isn, now, cfg).conn, isn + 1, [], false), cfg)
  {
    hide Client, Server;
  }

  lemma ServerBorn(syn: Segment, isn: u32, now: u64, cfg: Config)
    ensures syn.srcPort != 0 && syn.dstPort != 0 ==>
      Born(Life(Server(syn, isn, now, cfg).conn, isn + 1, [], false), cfg)
  {
    hide Client, Server;
  }

  /** The connection is new in `s'`: its first state, and its first segments queued. */
  ghost predicate Begins<P>(s: StackState<P>, s': StackState<P>, id: u64, key: ConnectionKey<P>,
                            born: Life, first: seq<Segment>) {
    && id !in s.connections && id in s'.connections
    && s'.connections[id] == Entry(key.peer, born.conn) && s'.connections[id].Key() == key
    && Spoken(s'.outbound, key) == Spoken(s.outbound, key) + first
  }

  lemma InsertBegins<P>(s: StackState<P>, e: Entry<P>, born: Life, first: seq<Segment>)
    requires s.nextId !in s.connections && e.conn == born.conn && Belong(first, e.Key())
    ensures Begins(s, Emit(Insert(s, e), e.peer, first), s.nextId, e.Key(), born, first)
  {
    hide Spoken, Entry.Key, Encoded, Belong;
    KeyPeer(e);
    SpokenEncoded(first, e.Key(), e.Key());
    SpokenJoin(s.outbound, Encoded(e.peer, first), e.Key());
  }

  lemma ConnectFromBegins<P>(
      s: StackState<P>, peer: P, localPort: u16, remotePort: u16, isn: u32, now: u64, cfg: Config)
    returns (born: Life, first: seq<Segment>)
    requires s.nextId !in s.connections
    ensures var o, key := ConnectFrom(s, peer, localPort, remotePort, isn, now, cfg),
                          ConnectionKey(peer, localPort, remotePort);
            if o.result.Ok? then
              && o.result.value == s.nextId && IsClient(key, isn, now, born, first, cfg)
              && Begins(s, o.state, s.nextId, key, born, first)
            else o.state == s
  {
    hide Client, Begins, Insert, Emit, Belong, Healthy, Admits, Entry.Key;
    var r := Client(localPort, remotePort, isn, now, cfg);
    born, first := Life(r.conn, isn + 1, [], false), r.segments;
    if localPort != 0 && remotePort != 0 {
      ClientBelongs(peer, localPort, remotePort, isn, now, cfg);
      InsertBegins(s, Entry(peer, r.conn), born, first);
    }
  }

  lemma ConnectBegins<P>(s: StackState<P>, peer: P, remotePort: u16, isn: u32, now: u64, cfg: Config)
    returns (key: ConnectionKey<P>, born: Life, first: seq<Segment>)
    requires s.nextId !in s.connections
    ensures var o := Connect(s, peer, remotePort, isn, now, cfg);
            if o.result.Ok? then
              && key.peer == peer && key.remotePort == remotePort && o.result.value == s.nextId
              && IsClient(key, isn, now, born, first, cfg)
              && Begins(s, o.state, s.nextId, key, born, first)
            else o.state.connections == s.connections
  {
    hide ConnectFrom, PortScan, IsClient, Spoken;
    var scan := PortScan(s.lookup, peer, remotePort, s.nextPort, PORTS);
    var port: u16 := if scan.port.Some? then scan.port.value else 0;
    key := ConnectionKey(peer, port, remotePort);
    born, first := ConnectFromBegins(s.(nextPort := scan.cursor), peer, port, remotePort, isn, now, cfg);
  }

  lemma ArriveBegins<P>(s: StackState<P>, peer: P, bytes: seq<byte>, isn: u32, now: u64, cfg: Config)
    returns (key: ConnectionKey<P>, born: Life, first: seq<Segment>)
    requires s.nextId !in s.connections
    ensures var s' := StackSpec.Arrive(s, peer, bytes, isn, now, cfg).state;
            s.nextId in s'.connections ==>
              && Addressed(peer, bytes, key) && key.localPort in s.listeners
              && IsServer(Decode(bytes).value, isn, now, born, first, cfg)
              && Begins(s, s', s.nextId, key, born, first)
  {
    hide Decode, Server, Begins, Insert, Emit, Belong, Healthy, Admits, Entry.Key, Deliver, Applied, ResetReply;
    hide SupportsFipsVersion, Blank, Client;
    key, born, first := ConnectionKey(peer, 0, 0), Life(Client(0, 0, 0, 0, cfg).conn, 0, [], false), [];
    if Decode(bytes).Ok? {
      var g := Decode(bytes).value;
      var r := Server(g, isn, now, cfg);
      key, born, first := ConnectionKey(peer, g.dstPort, g.srcPort), Life(r.conn, isn + 1, [], false), r.segments;
      DecodedPorts(bytes);
      ServerBelongs(peer, g, isn, now, cfg);
      if key in s.lookup && s.lookup[key] in s.connections {
        DeliverIs(s, s.lookup[key], bytes, now, cfg);
        AppliedShrinks(s, s.lookup[key], Op.Arrive(bytes, now), cfg);
      } else {
        EmitTable(s, peer, [ResetReply(g)]);
        InsertBegins(s, Entry(peer, r.conn), born, first);
      }
    }
  }

  lemma EmitTable<P>(s: StackState<P>, peer: P, segments: seq<Segment>)
    ensures Emit(s, peer, segments).connections == s.connections
  {
    hide Encoded;
  }

  /**
   * A connection is opened exactly when both ports are set, the peer is admitted and the tuple is free;
   * it is then in the table under a fresh identifier, in its first state and with its SYN queued. Else
   * nothing changes.
   */
  lemma ConnectOpens<P>(s: StackState<P>, peer: P, localPort: u16, remotePort: u16, isn: u32, now: u64, cfg: Config)
    returns (born: Life, first: seq<Segment>)
    requires StackOk(s, cfg) && s.nextId !in s.connections
    ensures var o, key := ConnectFrom(s, peer, localPort, remotePort, isn, now, cfg),
                          ConnectionKey(peer, localPort, remotePort);
            && (o.result.Ok? <==> localPort != 0 && remotePort != 0 && Admits(s, peer, cfg) && Free(s, key))
            && (if o.result.Ok? then
                  && IsClient(key, isn, now, born, first, cfg) && o.result.value !in s.connections
                  && Begins(s, o.state, o.result.value, key, born, first)
                else o.state == s)
  {
    Linked(s, ConnectionKey(peer, localPort, remotePort), cfg);
    born, first := ConnectFromBegins(s, peer, localPort, remotePort, isn, now, cfg);
    hide StackOk, Free, Admits, Begins, Client, IsClient, Insert, Emit;
  }

  /**
   * A segment for a free tuple: a SYN of the supported version to a listening port opens a connection
   * if its peer is admitted and is dropped with an error if not; any other SYN to a listening port, and
   * anything else but a reset, is answered by a stateless reset and changes nothing else.
   */
  lemma StrangersAnswered<P>(s: StackState<P>, peer: P, bytes: seq<byte>, isn: u32, now: u64, cfg: Config)
    returns (born: Life, first: seq<Segment>)
    requires StackOk(s, cfg) && s.nextId !in s.connections && Decode(bytes).Ok?
    requires var g := Decode(bytes).value; Free(s, ConnectionKey(peer, g.dstPort, g.srcPort))
    ensures var g, o := Decode(bytes).value, StackSpec.Arrive(s, peer, bytes, isn, now, cfg);
            var key := ConnectionKey(peer, g.dstPort, g.srcPort);
            var syn := g.flags.syn && !g.flags.ack && g.dstPort in s.listeners;
            if syn && SupportsFipsVersion(g, FIPS_VERSION) then
              if Admits(s, peer, cfg) then
                IsServer(g, isn, now, born, first, cfg) && Begins(s, o.state, s.nextId, key, born, first)
              else o.state == s && o.result == Err(ConnectionLimit)
            else
              && o.state == s.(outbound := o.state.outbound) && o.result == Ok(())
              && Spoken(o.state.outbound, key)
                 == Spoken(s.outbound, key) + if syn || !g.flags.rst then [ResetReply(g)] else []
  {
    hide Decode, Server, Begins, Insert, Belong, Healthy, Admits, Entry.Key, Deliver, ResetReply, SupportsFipsVersion;
    hide Free, StackOk, Encoded, Spoken;
    var g := Decode(bytes).value;
    var key, r := ConnectionKey(peer, g.dstPort, g.srcPort), Server(g, isn, now, cfg);
    born, first := Life(r.conn, isn + 1, [], false), r.segments;
    Linked(s, key, cfg);
    DecodedPorts(bytes);
    ServerBelongs(peer, g, isn, now, cfg);
    InsertBegins(s, Entry(peer, r.conn), born, first);
    ReplyBelongs(peer, bytes);
    SpokenEncoded([ResetReply(g)], key, key);
    SpokenJoin(s.outbound, Encoded(peer, [ResetReply(g)]), key);
    assert Spoken(s.outbound, key) + [] == Spoken(s.outbound, key);
  }

  /** Whatever operation a new entry comes from opened it. */
  lemma NewEntry<P>(s: StackState<P>, op: StackOp<P>, id: u64, cfg: Config)
    returns (key: ConnectionKey<P>, born: Life, first: seq<Segment>)
    requires s.nextId !in s.connections && id !in s.connections && id in StackStep(s, op, cfg).connections
    ensures id == s.nextId && Opens(op, key, born, first, cfg) && Born(born, cfg) && !op.DoDrain?
    ensures Begins(s, StackStep(s, op, cfg), id, key, born, first) && !born.closed && born.sent == []
  {
    KeysMove(s, op, cfg);
    hide Begins, Born, Client, Server, Connect, ConnectFrom, StackSpec.Arrive, Decode, SupportsFipsVersion;
    if op.DoConnect? {
      key, born, first := ConnectBegins(s, op.peer, op.remotePort, op.isn, op.now, cfg);
      ClientBorn(key.localPort, key.remotePort, op.isn, op.now, cfg);
    } else if op.DoConnectFrom? {
      key := ConnectionKey(op.peer, op.localPort, op.remotePort);
      born, first := ConnectFromBegins(s, op.peer, op.localPort, op.remotePort, op.isn, op.now, cfg);
      ClientBorn(op.localPort, op.remotePort, op.isn, op.now, cfg);
    } else {
      assert op.DoArrive?;
      key, born, first := ArriveBegins(s, op.peer, op.bytes, op.isn, op.now, cfg);
      if Decode(op.bytes).Ok? { ServerBorn(Decode(op.bytes).value, op.isn, op.now, cfg); }
    }
  }

  // ---------------------------------------------------------------- what the application is told

  /**
   * What requests report. An identifier out of the table is unknown and nothing happens; a write is
   * refused, with the state and without effect, exactly once closing has begun; a read returns the
   * bytes it takes from the front of the receive queue.
   */
  lemma RequestsReported<P>(s: StackState<P>, id: u64, data: seq<byte>, max: nat, now: u64, cfg: Config)
    ensures var w, r, c := WriteTo(s, id, data, now, cfg), ReadFrom(s, id, max), CloseOne(s, id, now);
            if id !in s.connections then
              w == Outcome(s, Err(UnknownConnection)) && r == Outcome(s, Err(UnknownConnection))
              && c == Outcome(s, Err(UnknownConnection))
            else
              var conn := s.connections[id].conn;
              && c.result == Ok(()) && r.result.Ok?
              && (w.result.Ok? <==> conn.state in {Established, CloseWait} && !conn.tx.closeRequested)
              && (w.result.Err? ==> w == Outcome(s, Err(InvalidState(conn.state))))
              && id in r.state.connections && |r.result.value| == Min(max, |conn.rx.queue|)
              && r.result.value + r.state.connections[id].conn.rx.queue == conn.rx.queue
  {
    hide FlushData, AcceptCount, Encoded, Entry.Key, Close, WindowField;
  }

  /** What arriving bytes report: a wire error without effect, or that they were taken. */
  lemma ArrivalsReported<P>(s: StackState<P>, peer: P, bytes: seq<byte>, isn: u32, now: u64, id: u64, cfg: Config)
    requires StackOk(s, cfg)
    ensures var o := StackSpec.Arrive(s, peer, bytes, isn, now, cfg);
            && (Decode(bytes).Err? ==> o == Outcome(s, Err(WireFault(Decode(bytes).error))))
            && (id in s.connections && Addressed(peer, bytes, s.connections[id].Key()) ==> o.result == Ok(()))
  {
    hide StackOk, Decode, Deliver, Server, ResetReply, Admits, SupportsFipsVersion, Entry.Key, Insert, Emit, Free;
    if Decode(bytes).Ok? {
      Linked(s, ConnectionKey(peer, Decode(bytes).value.dstPort, Decode(bytes).value.srcPort), cfg);
    }
  }

  // ---------------------------------------------------------------- the refinement

  /**
   * The story of an entry: operation `k` opened it, and ever since it is the life of that opening under
   * exactly the arrivals whose decoded tuple is the entry's and its own writes, reads, closes and
   * polls, in order. What was queued for its tuple since then is what that life emitted, and what its
   * life accepted is what the stack reported as written.
   */
  ghost predicate Story<P>(s: StackState<P>, ops: seq<StackOp<P>>, id: u64, k: nat, key: ConnectionKey<P>,
                           born: Life, first: seq<Segment>, cfg: Config)
  {
    && k < |ops|
    && Opens(ops[k], key, born, first, cfg)
    && (var before, after := StackRun(s, ops[..k], cfg), StackRun(s, ops, cfg);
        var own := AllOpsOf(ops[k + 1..], id, key);
        var l := Live(born, own, cfg);
        && id !in before.connections && id in after.connections
        && !l.closed && after.connections[id] == Entry(key.peer, l.conn) && after.connections[id].Key() == key
        && Spoken(Queued(before, ops[k..], cfg), key) == Spoken(before.outbound, key) + first + Outputs(born, own, cfg)
        && l.sent == Written(s, ops, id, cfg))
  }

  lemma BornNow<P>(s: StackState<P>, ops: seq<StackOp<P>>, id: u64, cfg: Config)
    returns (key: ConnectionKey<P>, born: Life, first: seq<Segment>)
    requires StackOk(s, cfg) && IdsBelow(s) && s.nextId + |ops| <= U64_MAX && ops != []
    requires id !in s.connections && id in StackStep(s, ops[0], cfg).connections
    requires id in StackRun(s, ops, cfg).connections
    ensures Story(s, ops, id, 0, key, born, first, cfg) && Born(born, cfg)
  {
    hide StackOk, StackStep, Entry.Key, Spoken, Opens, AllOpsOf, Outputs, Live, Queued, WrittenBy;
    key, born, first := NewEntry(s, ops[0], id, cfg);
    var s1 := StackStep(s, ops[0], cfg);
    StackStepKeeps(s, ops[0], cfg);
    RunTracks(s1, ops[1..], id, born, cfg);
    QueuedAfter(s, ops, key, cfg);
    NothingWritten(s, ops[0], id, cfg);
    assert StackRun(s, ops[..0], cfg) == s && ops[0..] == ops;
  }

  lemma NothingWritten<P>(s: StackState<P>, op: StackOp<P>, id: u64, cfg: Config)
    requires id !in s.connections
    ensures WrittenBy(s, op, id, cfg) == []
  {
  }

  lemma StoryLater<P>(s: StackState<P>, ops: seq<StackOp<P>>, id: u64, k: nat, key: ConnectionKey<P>,
                      born: Life, first: seq<Segment>, cfg: Config)
    requires ops != [] && id !in s.connections
    requires Story(StackStep(s, ops[0], cfg), ops[1..], id, k, key, born, first, cfg)
    ensures Story(s, ops, id, k + 1, key, born, first, cfg)
  {
    hide StackStep, Entry.Key, Spoken, Opens, AllOpsOf, Outputs, Live, Queued, WrittenBy;
    NothingWritten(s, ops[0], id, cfg);
    assert ops[..k + 1][1..] == ops[1..][..k] && ops[..k + 1][0] == ops[0];
    assert ops[k + 1..] == ops[1..][k..] && ops[k + 2..] == ops[1..][k + 1..];
  }

  lemma {:induction false} EntryHasStory<P>(s: StackState<P>, ops: seq<StackOp<P>>, id: u64, cfg: Config)
    returns (k: nat, key: ConnectionKey<P>, born: Life, first: seq<Segment>)
    requires StackOk(s, cfg) && IdsBelow(s) && s.nextId + |ops| <= U64_MAX
    requires id !in s.connections && id in StackRun(s, ops, cfg).connections
    ensures Story(s, ops, id, k, key, born, first, cfg) && Born(born, cfg)
    decreases |ops|
  {
    hide StackOk, StackStep, Story;
    var s1 := StackStep(s, ops[0], cfg);
    StackStepKeeps(s, ops[0], cfg);
    if id in s1.connections {
      k := 0;
      key, born, first := BornNow(s, ops, id, cfg);
    } else {
      k, key, born, first := EntryHasStory(s1, ops[1..], id, cfg);
      StoryLater(s, ops, id, k, key, born, first, cfg);
      k := k + 1;
    }
  }

  /** The refinement: every entry of the table of every run from an empty stack has its story. */
  lemma TableRunsLives<P>(ops: seq<StackOp<P>>, id: u64, cfg: Config)
    returns (k: nat, key: ConnectionKey<P>, born: Life, first: seq<Segment>)
    requires |ops| < U64_MAX && id in StackRun(Empty<P>(), ops, cfg).connections
    ensures k < |ops| && Story(Empty<P>(), ops, id, k, key, born, first, cfg)
    ensures Born(born, cfg) && Reached(Live(born, AllOpsOf(ops[k + 1..], id, key), cfg), cfg)
  {
    hide StackRun, StackOk, Opens, Born, Live;
    EmptyOk<P>(cfg);
    k, key, born, first := EntryHasStory(Empty<P>(), ops, id, cfg);
  }

  /** Whatever follows, a connection that is never aborted is in the table exactly as long as its life lasts. */
  lemma {:induction false} RunEnds<P>(s: StackState<P>, ops: seq<StackOp<P>>, id: u64, l: Life, cfg: Config)
    requires StackOk(s, cfg) && IdsBelow(s) && s.nextId + |ops| <= U64_MAX
    requires id in s.connections && !l.closed && l.conn == s.connections[id].conn
    requires forall op :: op in ops && op.DoAbort? ==> id !in op.ids
    ensures var own := AllOpsOf(ops, id, s.connections[id].Key());
            id in StackRun(s, ops, cfg).connections <==> !Live(l, own, cfg).closed
    decreases |ops|
  {
    hide StackOk, StackStep, Perform, Output, Entry.Key, Spoken, OpsOf, WrittenBy;
    var key := s.connections[id].Key();
    if ops == [] {
      NoOps(l, cfg);
    } else {
      var op, s1 := ops[0], StackStep(s, ops[0], cfg);
      var own, rest := OpsOf(op, id, key), AllOpsOf(ops[1..], id, key);
      assert op in ops && (op.DoAbort? ==> id !in op.ids);
      StackStepKeeps(s, op, cfg);
      LiveJoin(l, own, rest, cfg);
      DrainStep(s, l, id, cfg);
      if !op.DoDrain? { StepTracks(s, op, id, l, cfg); }
      if id in s1.connections {
        FirstStep(s, op, id, l, cfg);
        RunEnds(s1, ops[1..], id, Live(l, own, cfg), cfg);
      } else {
        NeverReturns(s1, ops[1..], id, cfg);
        StaysClosed(Live(l, own, cfg), rest, cfg);
      }
    }
  }

  // ---------------------------------------------------------------- what lives keep, kept by the table

  /** The send buffer of every entry is the unacknowledged end of what the stack reported as written. */
  lemma TableBuffers<P>(ops: seq<StackOp<P>>, id: u64, cfg: Config)
    requires |ops| < U64_MAX && id in StackRun(Empty<P>(), ops, cfg).connections
    ensures var c, written := StackRun(Empty<P>(), ops, cfg).connections[id].conn, Written(Empty<P>(), ops, id, cfg);
            && c.tx.acked <= |written| && written[c.tx.acked..] == Payloads(c.tx.unacked) + c.tx.queue
            && c.tx.accepted == |written| == c.tx.acked + Buffered(c) && Buffered(c) <= cfg.sendBuffer
  {
    hide StackRun, Live, Reached, Born, Opens, Written, Payloads, Buffered, Spoken, Queued;
    var k, key, born, first := TableRunsLives(ops, id, cfg);
    BufferIsStream(Live(born, AllOpsOf(ops[k + 1..], id, key), cfg), cfg);
  }

  /**
   * The predicted deadline of every entry is exact: polling it earlier does nothing at all, polling it
   * then removes it, or queues something for its tuple and leaves a later deadline.
   */
  lemma TableDeadlines<P>(ops: seq<StackOp<P>>, id: u64, now: u64, cfg: Config)
    requires |ops| < U64_MAX && now < U64_MAX && id in StackRun(Empty<P>(), ops, cfg).connections
    ensures var s := StackRun(Empty<P>(), ops, cfg);
            var d, s' := NextPollAt(s.connections[id].conn, now, cfg), PollOne(s, id, now, cfg);
            if d == None || now < d.value then s' == s
            else StackTimers.Served(s, s', id, now, cfg)
  {
    hide StackRun, StackOk, NextPollAt, PollOne, ForTuple, Entry.Key;
    EmptyOk<P>(cfg);
    StackRunKeeps(Empty<P>(), ops, cfg);
    StackTimers.PollOneServes(StackRun(Empty<P>(), ops, cfg), id, now, cfg);
  }

  /**
   * Since an entry was opened, each piece of its stream was sent in full at most max(1, limit) times,
   * its SYN among them; and what was queued for its tuple is nothing but those sends.
   */
  lemma TableSendsBounded<P>(ops: seq<StackOp<P>>, id: u64, e: int, cfg: Config)
    returns (k: nat, key: ConnectionKey<P>, born: Life, first: seq<Segment>)
    requires |ops| < U64_MAX && id in StackRun(Empty<P>(), ops, cfg).connections
    ensures Story(Empty<P>(), ops, id, k, key, born, first, cfg)
    ensures Bit(e == born.base) + FullSends(born, AllOpsOf(ops[k + 1..], id, key), e, cfg)
         <= Max(1, cfg.maxRetransmissions)
  {
    hide StackRun, Live, Reached, Born, Opens, FullSends, Story;
    k, key, born, first := TableRunsLives(ops, id, cfg);
    SentAtMost(born, AllOpsOf(ops[k + 1..], id, key), e, cfg);
  }
}
