/**
 * The accept queues: a connection joins the queue of its local port exactly when it completes its
 * handshake, and is handed out at most once, in order.
 */
module StackAccepts {
  import opened Numbers
  import opened SequenceSpace
  import opened Wire
  import opened Types
  import opened Sender
  import opened Receiver
  import opened ConnectionSpec
  import opened ConnectionInvariant
  import opened ConnectionRuns
  import opened Retries
  import opened StackSpec
  import opened StackSafety
  import opened StackRuns
  import opened StackTheorems
  import opened StackRefinement
  import Answers
  import Teardown

  // ---------------------------------------------------------------- one connection

  /** An arrival is accepted exactly when it takes a server's connection out of SYN-RECEIVED. */
  lemma AcceptedMeans(c: Conn, g: Segment, now: u64, cfg: Config)
    ensures var r := Input(c, g, now, cfg);
            && (r.accepted <==> c.state == SynReceived && !r.closed && r.conn.state != SynReceived)
            && (r.accepted ==> Synchronized(r.conn.state))
  {
    hide ApplyAck, AckSegment, RetransmitOldest, NegotiateMss, UpdateWindow, ResetReply, Add, FinishSegment, AckPart;
    hide AvailableWindow, Distance, SupportsFipsVersion, SegmentsFor, SequenceSpace.After;
    Teardown.FinishMoves(Answers.EstablishedBy(c, g, now), [], g, now, cfg);
    Teardown.InputMoves(c, g, now, cfg);
    FinishOpen(c, [], g, now, cfg);
    FinishOpen(Answers.EstablishedBy(c, g, now), [], g, now, cfg);
    if g.ack.Some? {
      var part := AckPart(c, g.ack.value, g, now, cfg);
      PartOpen(c, g, now, cfg);
      FinishOpen(part.conn, part.segments, g, now, cfg);
    }
  }

  lemma FinishOpen(c: Conn, output: seq<Segment>, g: Segment, now: u64, cfg: Config)
    ensures var r := FinishSegment(c, output, g, now, cfg); !r.accepted && !r.closed
  {
    hide FlushData, ReceiveData, AckSegment;
  }

  lemma PartOpen(c: Conn, g: Segment, now: u64, cfg: Config)
    requires g.ack.Some?
    ensures !AckPart(c, g.ack.value, g, now, cfg).accepted
  {
    hide AckedTx, RepairedTx, SegmentsFor;
  }

  /** The same stage of the handshake. */
  predicate SameStage(c: Conn, c': Conn) {
    && c'.localPort == c.localPort && (c'.state == SynReceived <==> c.state == SynReceived)
    && (Synchronized(c.state) ==> Synchronized(c'.state))
  }

  /** Only an arrival completes a handshake. */
  lemma StageStays(c: Conn, op: Op, cfg: Config)
    requires Healthy(c, cfg)
    ensures var u := UpdateOf(c, op, cfg);
            u.Some? && !u.value.closed && !u.value.accepted ==> SameStage(c, u.value.conn)
  {
    hide Input, FlushData, ZeroWindowWork, PollZeroWindow, PollRetransmit, SegmentsFor, Decode, AcceptCount, ReadCount;
    hide AvailableWindow, AckSegment, Sound, Healthy;
    UpdatePorts(c, op, cfg);
    match op
    case Arrive(bytes, now) =>
      if Decode(bytes).Ok? {
        AcceptedMeans(c, Decode(bytes).value, now, cfg);
        Teardown.InputMoves(c, Decode(bytes).value, now, cfg);
      }
    case Put(data, now) => Teardown.LocalMoves(c, data, 0, now, cfg);
    case Get(max) =>
    case Shut(now) => Teardown.LocalMoves(c, [], 0, now, cfg);
    case Tick(now) =>
      Teardown.PollMoves(c, now, cfg);
      FlushStage(c.(tx := PollRetransmit(c.tx, now, cfg).tx), now);
  }

  lemma UpdatePorts(c: Conn, op: Op, cfg: Config)
    requires Healthy(c, cfg)
    ensures var u := UpdateOf(c, op, cfg); u.Some? ==> u.value.conn.localPort == c.localPort
  {
    hide UpdateOf, Healthy;
    UpdateSound(c, op, cfg);
    if UpdateOf(c, op, cfg).Some? { SoundPorts(c, UpdateOf(c, op, cfg).value, cfg); }
  }

  lemma FlushStage(c: Conn, now: u64)
    ensures c.state == SynReceived ==> FlushData(c, now).conn == c
  {
    hide Flush;
  }

  // ---------------------------------------------------------------- queues

  predicate InLine<P>(s: StackState<P>, port: u16, id: u64) {
    port in s.accepts && id in s.accepts[port]
  }

  ghost predicate Joins<P>(s: StackState<P>, s': StackState<P>, port: u16, id: u64) {
    InLine(s', port, id) && !InLine(s, port, id)
  }

  /** From `s` to `s'` the connection of that local port leaves SYN-RECEIVED and stays open. */
  ghost predicate Completes<P>(s: StackState<P>, s': StackState<P>, port: u16, id: u64) {
    && id in s.connections && id in s'.connections && s.connections[id].conn.localPort == port
    && s.connections[id].conn.state == SynReceived && s'.connections[id].conn.state != SynReceived
  }

  /** Whatever is in line is past its handshake if it still exists, has that port, and is there once. */
  ghost predicate LinesOk<P>(s: StackState<P>) {
    && (forall port :: port in s.accepts ==> Distinct(s.accepts[port]))
    && (forall port: u16, id: u64 :: InLine(s, port, id) ==>
          && id < s.nextId
          && (id in s.connections ==>
                s.connections[id].conn.localPort == port && Synchronized(s.connections[id].conn.state)))
  }

  ghost predicate JoinsExactly<P>(s: StackState<P>, s': StackState<P>) {
    forall port: u16, id: u64 :: Joins(s, s', port, id) <==> Completes(s, s', port, id)
  }

  /** No connection changes its stage, and at most one is new. */
  ghost predicate Calm<P>(s: StackState<P>, s': StackState<P>) {
    && s.nextId <= s'.nextId
    && forall id :: id in s'.connections && id != s.nextId ==>
         id in s.connections && SameStage(s.connections[id].conn, s'.connections[id].conn)
  }

  /** Nobody joins: the queues at most lose entries from their front, or are gone. */
  ghost predicate OnlyLeave<P>(s: StackState<P>, s': StackState<P>) {
    forall port :: port in s'.accepts ==>
      s'.accepts[port] == [] || (port in s.accepts && IsSuffix(s'.accepts[port], s.accepts[port]))
  }

  predicate IsSuffix(a: seq<u64>, b: seq<u64>) {
    |a| <= |b| && a == b[|b| - |a|..]
  }

  lemma CalmStep<P>(s: StackState<P>, s': StackState<P>)
    requires LinesOk(s) && IdsBelow(s) && Calm(s, s') && OnlyLeave(s, s')
    ensures LinesOk(s') && JoinsExactly(s, s')
  {
    hide SameStage;
    forall port: u16, id: u64 | InLine(s', port, id)
      ensures InLine(s, port, id)
    {
      assert IsSuffix(s'.accepts[port], s.accepts[port]);
    }
    forall port: u16, id: u64 | Completes(s, s', port, id)
      ensures false
    {
      Stages(s.connections[id].conn, s'.connections[id].conn);
    }
    forall port | port in s'.accepts
      ensures Distinct(s'.accepts[port])
    {
      if s'.accepts[port] != [] { SuffixDistinct(s'.accepts[port], s.accepts[port]); }
    }
    forall port: u16, id: u64 | InLine(s', port, id) && id in s'.connections
      ensures s'.connections[id].conn.localPort == port && Synchronized(s'.connections[id].conn.state)
    {
      assert InLine(s, port, id);
      Stages(s.connections[id].conn, s'.connections[id].conn);
    }
  }

  lemma SuffixDistinct(a: seq<u64>, b: seq<u64>)
    requires IsSuffix(a, b) && Distinct(b)
    ensures Distinct(a)
  {
    forall i, j | 0 <= i < j < |a|
      ensures a[i] != a[j]
    {
      assert a[i] == b[|b| - |a| + i] && a[j] == b[|b| - |a| + j];
    }
  }

  lemma Stages(c: Conn, c': Conn)
    requires SameStage(c, c')
    ensures c'.localPort == c.localPort && (c'.state == SynReceived <==> c.state == SynReceived)
    ensures Synchronized(c.state) ==> Synchronized(c'.state)
  {
  }

  lemma SameLines<P>(s: StackState<P>, s': StackState<P>)
    requires s'.accepts == s.accepts
    ensures OnlyLeave(s, s')
  {
  }

  // ---------------------------------------------------------------- operations

  lemma AppliedCalm<P>(s: StackState<P>, i: u64, op: Op, cfg: Config)
    requires StackOk(s, cfg)
    requires i in s.connections ==> (var u := UpdateOf(s.connections[i].conn, op, cfg); u.Some? ==> !u.value.accepted)
    ensures Calm(s, Applied(s, i, op, cfg)) && Applied(s, i, op, cfg).accepts == s.accepts
    ensures forall id :: id in Applied(s, i, op, cfg).connections ==> id in s.connections
  {
    hide UpdateOf, StackOk, Healthy, SameStage, Encoded, Entry.Key;
    StackFacts(s, cfg);
    forall c: Conn
      ensures SameStage(c, c)
    {
      SelfStage(c);
    }
    if i in s.connections { StageStays(s.connections[i].conn, op, cfg); }
  }

  lemma SelfStage(c: Conn)
    ensures SameStage(c, c)
  {
  }

  lemma LocalNeverAccepts(c: Conn, op: Op, cfg: Config)
    requires !op.Arrive?
    ensures var u := UpdateOf(c, op, cfg); u.Some? ==> !u.value.accepted
  {
    hide Flush, ZeroWindowWork, PollZeroWindow, PollRetransmit, SegmentsFor, AcceptCount, ReadCount, CloseDeadline;
    hide AvailableWindow, AckSegment;
  }

  lemma CalmTrans<P>(s: StackState<P>, s1: StackState<P>, s2: StackState<P>)
    requires Calm(s, s1) && Calm(s1, s2) && s1.nextId == s.nextId
    requires forall id :: id in s2.connections ==> id in s1.connections
    ensures Calm(s, s2)
  {
  }

  lemma {:induction false} PollCalm<P>(s: StackState<P>, ids: seq<u64>, now: u64, cfg: Config)
    requires StackOk(s, cfg)
    ensures Calm(s, PollAll(s, ids, now, cfg)) && PollAll(s, ids, now, cfg).accepts == s.accepts
    decreases |ids|
  {
    hide StackOk, PollOne, SameStage, Applied, UpdateOf;
    if ids == [] {
      forall c: Conn
        ensures SameStage(c, c)
      {
        SelfStage(c);
      }
    } else {
      var s1, op := PollOne(s, ids[0], now, cfg), Op.Tick(now);
      LocalIs(s, ids[0], 0, now, cfg);
      if ids[0] in s.connections { LocalNeverAccepts(s.connections[ids[0]].conn, op, cfg); }
      AppliedCalm(s, ids[0], op, cfg);
      AppliedShrinks(s, ids[0], op, cfg);
      OneConnectionSteps(s, ids[0], [], 0, now, cfg);
      StepsOk(s, s1, cfg);
      PollCalm(s1, ids[1..], now, cfg);
      PollShrinks(s1, ids[1..], now, cfg);
      CalmTrans(s, s1, PollAll(s, ids, now, cfg));
    }
  }

  lemma {:induction false} AbortCalm<P>(s: StackState<P>, ids: seq<u64>)
    ensures var s' := AbortAll(s, ids);
            && s'.accepts == s.accepts && s'.nextId == s.nextId
            && (forall id :: id in s'.connections ==> id in s.connections && s'.connections[id] == s.connections[id])
    decreases |ids|
  {
    hide Others, Encoded, ResetSegment, Entry.Key;
    if ids != [] {
      AbortCalm(AbortOne(s, ids[0]).state, ids[1..]);
    }
  }

  /** The table is unchanged but for removals and one new entry. */
  lemma SameTable<P>(s: StackState<P>, s': StackState<P>)
    requires s.nextId <= s'.nextId
    requires forall id :: id in s'.connections && id != s.nextId ==>
      id in s.connections && s'.connections[id] == s.connections[id]
    ensures Calm(s, s')
  {
    hide SameStage;
    forall c: Conn
      ensures SameStage(c, c)
    {
      SelfStage(c);
    }
  }

  /** Opening a connection touches no queue. */
  lemma ConnectCalm<P>(s: StackState<P>, peer: P, localPort: u16, remotePort: u16, isn: u32, now: u64, cfg: Config)
    requires s.nextId < U64_MAX
    ensures var s' := ConnectFrom(s, peer, localPort, remotePort, isn, now, cfg).state;
            Calm(s, s') && s'.accepts == s.accepts
    ensures var s' := Connect(s, peer, remotePort, isn, now, cfg).state; Calm(s, s') && s'.accepts == s.accepts
  {
    hide Client, PortScan, Admits, Encoded, Entry.Key, Calm;
    SameTable(s, ConnectFrom(s, peer, localPort, remotePort, isn, now, cfg).state);
    SameTable(s, Connect(s, peer, remotePort, isn, now, cfg).state);
  }

  /** A segment for a known tuple: the connection joins its queue if its handshake is complete. */
  lemma DeliverJoins<P>(s: StackState<P>, i: u64, bytes: seq<byte>, now: u64, cfg: Config)
    requires StackOk(s, cfg) && i in s.connections && Decode(bytes).Ok? && LinesOk(s) && IdsBelow(s)
    ensures var s' := Deliver(s, i, Decode(bytes).value, now, cfg); LinesOk(s') && JoinsExactly(s, s')
  {
    hide StackOk, Decode, Input, Healthy, Applied, LinesOk, Replace;
    var c, g, op := s.connections[i].conn, Decode(bytes).value, Op.Arrive(bytes, now);
    var r, a, s' := Input(c, g, now, cfg), Applied(s, i, op, cfg), Deliver(s, i, g, now, cfg);
    StackFacts(s, cfg);
    AcceptedMeans(c, g, now, cfg);
    DeliverIs(s, i, bytes, now, cfg);
    DeliverAccepts(s, i, g, now, cfg);
    if r.accepted {
      AppliedEntry(s, i, op, cfg);
      UpdatePorts(c, op, cfg);
      OneJoins(s, s', i);
    } else {
      AppliedCalm(s, i, op, cfg);
      AppliedShrinks(s, i, op, cfg);
      SameLines(s, s');
      CalmStep(s, s');
    }
  }

  lemma DeliverAccepts<P>(s: StackState<P>, i: u64, g: Segment, now: u64, cfg: Config)
    requires i in s.connections
    ensures var c, s' := s.connections[i].conn, Deliver(s, i, g, now, cfg);
            var line := if c.localPort in s.accepts then s.accepts[c.localPort] else [];
            s'.accepts == if Input(c, g, now, cfg).accepted then s.accepts[c.localPort := line + [i]] else s.accepts
  {
    hide Input, Encoded, Entry.Key;
  }

  lemma AppliedEntry<P>(s: StackState<P>, i: u64, op: Op, cfg: Config)
    requires i in s.connections
    requires var u := UpdateOf(s.connections[i].conn, op, cfg); u.Some? && !u.value.closed
    ensures var a, e := Applied(s, i, op, cfg), s.connections[i];
            && a.nextId == s.nextId
            && a.connections == s.connections[i := Entry(e.peer, UpdateOf(e.conn, op, cfg).value.conn)]
  {
    hide UpdateOf, Encoded, Entry.Key;
  }

  /** One connection completes its handshake and is put at the end of its queue. */
  lemma OneJoins<P>(s: StackState<P>, s': StackState<P>, i: u64)
    requires LinesOk(s) && IdsBelow(s) && i in s.connections && i in s'.connections && s'.nextId == s.nextId
    requires var c, c' := s.connections[i].conn, s'.connections[i].conn;
      c.state == SynReceived && Synchronized(c'.state) && c'.localPort == c.localPort
    requires forall id :: id in s'.connections ==> id in s.connections
    requires forall id :: id in s'.connections && id != i ==> s'.connections[id] == s.connections[id]
    requires var port := s.connections[i].conn.localPort;
      s'.accepts == s.accepts[port := (if port in s.accepts then s.accepts[port] else []) + [i]]
    ensures LinesOk(s') && JoinsExactly(s, s')
  {
    var port := s.connections[i].conn.localPort;
    assert forall p: u16 :: !InLine(s, p, i);
    forall p: u16, id: u64
      ensures InLine(s', p, id) <==> InLine(s, p, id) || (p == port && id == i)
    {
    }
    forall p | p in s'.accepts
      ensures Distinct(s'.accepts[p])
    {
      assert !InLine(s, p, i);
      AppendDistinct(if p in s.accepts then s.accepts[p] else [], i);
    }
  }

  lemma AppendDistinct(line: seq<u64>, id: u64)
    requires Distinct(line)
    ensures id !in line ==> Distinct(line + [id])
  {
  }

  lemma ArriveJoins<P>(s: StackState<P>, peer: P, bytes: seq<byte>, isn: u32, now: u64, cfg: Config)
    requires StackOk(s, cfg) && LinesOk(s) && IdsBelow(s) && s.nextId < U64_MAX
    ensures var s' := StackSpec.Arrive(s, peer, bytes, isn, now, cfg).state; LinesOk(s') && JoinsExactly(s, s')
  {
    hide StackOk, Decode, Deliver, LinesOk, JoinsExactly, Calm, OnlyLeave;
    var s' := StackSpec.Arrive(s, peer, bytes, isn, now, cfg).state;
    if Decode(bytes).Ok? {
      var g := Decode(bytes).value;
      var key := ConnectionKey(peer, g.dstPort, g.srcPort);
      if key in s.lookup && s.lookup[key] in s.connections {
        DeliverJoins(s, s.lookup[key], bytes, now, cfg);
        return;
      }
    }
    NoDelivery(s, peer, bytes, isn, now, cfg);
    SameTable(s, s');
    SameLines(s, s');
    CalmStep(s, s');
  }

  lemma NoDelivery<P>(s: StackState<P>, peer: P, bytes: seq<byte>, isn: u32, now: u64, cfg: Config)
    requires s.nextId < U64_MAX
    requires Decode(bytes).Ok? ==>
      var g := Decode(bytes).value; var key := ConnectionKey(peer, g.dstPort, g.srcPort);
      key !in s.lookup || s.lookup[key] !in s.connections
    ensures var s' := StackSpec.Arrive(s, peer, bytes, isn, now, cfg).state;
            && s'.accepts == s.accepts && s.nextId <= s'.nextId
            && (forall id :: id in s'.connections && id != s.nextId ==>
                  id in s.connections && s'.connections[id] == s.connections[id])
  {
    hide Decode, Server, Admits, Encoded, Entry.Key, ResetReply, SupportsFipsVersion, Deliver;
  }

  lemma ListenLines<P>(s: StackState<P>, port: u16, slots: nat, eligible: P -> bool, cfg: Config)
    ensures OnlyLeave(s, Listen(s, port).state) && OnlyLeave(s, CloseListener(s, port))
    ensures OnlyLeave(s, AcceptNext(s, port).0) && OnlyLeave(s, Reserved(s, slots, eligible, cfg))
    ensures Calm(s, Listen(s, port).state) && Calm(s, CloseListener(s, port))
    ensures Calm(s, AcceptNext(s, port).0) && Calm(s, Reserved(s, slots, eligible, cfg))
  {
    SameTable(s, Listen(s, port).state);
    SameTable(s, CloseListener(s, port));
    SameTable(s, AcceptNext(s, port).0);
    SameTable(s, Reserved(s, slots, eligible, cfg));
    hide Calm, PopLive;
    if port in s.accepts { var k := PopsFront(s.accepts[port], s.connections); }
  }

  /**
   * `accept` takes the first connection in line that still exists; those before it are gone, those
   * behind it stay in line. It returns none only if none in line exists.
   */
  lemma {:induction false} PopsFront<P>(line: seq<u64>, connections: map<u64, Entry<P>>) returns (k: nat)
    ensures var popped := PopLive(line, connections);
            && k <= |line| && (forall j :: 0 <= j < k ==> line[j] !in connections)
            && (if k < |line| then popped == (Some(line[k]), line[k + 1..]) && line[k] in connections
                else popped == (None, []))
    ensures IsSuffix(PopLive(line, connections).1, line)
  {
    if line == [] || line[0] in connections {
      k := 0;
    } else {
      k := PopsFront(line[1..], connections);
      k := k + 1;
      assert forall j :: 0 < j < |line| ==> line[j] == line[1..][j - 1];
    }
  }

  /**
   * In every operation, a connection joins the accept queue of its local port exactly when its life
   * leaves SYN-RECEIVED for a synchronised state, and nothing else joins any queue.
   */
  lemma StepJoins<P>(s: StackState<P>, op: StackOp<P>, cfg: Config)
    requires StackOk(s, cfg) && LinesOk(s) && IdsBelow(s) && s.nextId < U64_MAX
    ensures LinesOk(StackStep(s, op, cfg)) && JoinsExactly(s, StackStep(s, op, cfg))
  {
    hide StackOk, LinesOk, JoinsExactly, Calm, OnlyLeave, Applied, UpdateOf, Connect, ConnectFrom, StackSpec.Arrive;
    hide WriteTo, ReadFrom, CloseOne, PollAll, AbortAll, Listen, CloseListener, AcceptNext, Reserved;
    var s' := StackStep(s, op, cfg);
    match op
    case DoListen(port) => ListenLines(s, port, 0, (p: P) => true, cfg); CalmStep(s, s');
    case DoCloseListener(port) => ListenLines(s, port, 0, (p: P) => true, cfg); CalmStep(s, s');
    case DoAccept(port) => ListenLines(s, port, 0, (p: P) => true, cfg); CalmStep(s, s');
    case DoReserve(slots, eligible) => ListenLines(s, 0, slots, eligible, cfg); CalmStep(s, s');
    case DoConnect(peer, remotePort, isn, now) =>
      ConnectCalm(s, peer, 0, remotePort, isn, now, cfg);
      SameLines(s, s');
      CalmStep(s, s');
    case DoConnectFrom(peer, localPort, remotePort, isn, now) =>
      ConnectCalm(s, peer, localPort, remotePort, isn, now, cfg);
      SameLines(s, s');
      CalmStep(s, s');
    case DoArrive(peer, bytes, isn, now) => ArriveJoins(s, peer, bytes, isn, now, cfg);
    case DoWrite(i, data, now) =>
      WriteIs(s, i, data, now, cfg);
      LocalJoins(s, i, Op.Put(data, now), cfg);
    case DoRead(i, max) =>
      LocalIs(s, i, max, 0, cfg);
      LocalJoins(s, i, Op.Get(max), cfg);
    case DoClose(i, now) =>
      LocalIs(s, i, 0, now, cfg);
      LocalJoins(s, i, Op.Shut(now), cfg);
    case DoPoll(ids, now) =>
      PollCalm(s, ids, now, cfg);
      SameLines(s, s');
      CalmStep(s, s');
    case DoAbort(ids) =>
      AbortCalm(s, ids);
      SameTable(s, s');
      SameLines(s, s');
      CalmStep(s, s');
    case DoDrain =>
      SameTable(s, s');
      SameLines(s, s');
      CalmStep(s, s');
  }

  lemma LocalJoins<P>(s: StackState<P>, i: u64, op: Op, cfg: Config)
    requires StackOk(s, cfg) && LinesOk(s) && IdsBelow(s) && !op.Arrive?
    ensures var s' := Applied(s, i, op, cfg); LinesOk(s') && JoinsExactly(s, s')
  {
    hide StackOk, LinesOk, JoinsExactly, Calm, OnlyLeave, Applied, UpdateOf;
    if i in s.connections { LocalNeverAccepts(s.connections[i].conn, op, cfg); }
    AppliedCalm(s, i, op, cfg);
    SameLines(s, Applied(s, i, op, cfg));
    CalmStep(s, Applied(s, i, op, cfg));
  }

  // ---------------------------------------------------------------- runs

  lemma {:induction false} RunLines<P>(s: StackState<P>, ops: seq<StackOp<P>>, cfg: Config)
    requires StackOk(s, cfg) && IdsBelow(s) && s.nextId + |ops| <= U64_MAX && LinesOk(s)
    ensures LinesOk(StackRun(s, ops, cfg)) && IdsBelow(StackRun(s, ops, cfg))
    ensures s.nextId <= StackRun(s, ops, cfg).nextId <= s.nextId + |ops|
    decreases |ops|
  {
    hide StackOk, StackStep, LinesOk, JoinsExactly;
    if ops != [] {
      StepJoins(s, ops[0], cfg);
      StackStepKeeps(s, ops[0], cfg);
      RunLines(StackStep(s, ops[0], cfg), ops[1..], cfg);
    }
  }

  /** The connection was handed out or never will be: it is in no line and past SYN-RECEIVED. */
  ghost predicate Out<P>(s: StackState<P>, id: u64) {
    && id < s.nextId && (forall port: u16 :: !InLine(s, port, id))
    && (id in s.connections ==> s.connections[id].conn.state != SynReceived)
  }

  lemma StaysOut<P>(s: StackState<P>, op: StackOp<P>, id: u64, cfg: Config)
    requires StackOk(s, cfg) && LinesOk(s) && IdsBelow(s) && s.nextId < U64_MAX && Out(s, id)
    ensures Out(StackStep(s, op, cfg), id)
  {
    hide StackOk, LinesOk, StackStep, InLine;
    StepJoins(s, op, cfg);
    StackStepKeeps(s, op, cfg);
    KeysMove(s, op, cfg);
    if id in s.connections { NeverReceived(s, op, id, cfg); }
    hide IdsBelow;
    forall port: u16
      ensures !InLine(StackStep(s, op, cfg), port, id)
    {
      assert Joins(s, StackStep(s, op, cfg), port, id) <==> Completes(s, StackStep(s, op, cfg), port, id);
    }
  }

  /** No operation takes a connection back to SYN-RECEIVED. */
  lemma NeverReceived<P>(s: StackState<P>, op: StackOp<P>, id: u64, cfg: Config)
    requires StackOk(s, cfg) && id in s.connections && s.connections[id].conn.state != SynReceived
    requires s.nextId !in s.connections
    ensures var s' := StackStep(s, op, cfg); id in s'.connections ==> s'.connections[id].conn.state != SynReceived
  {
    hide StackOk, StackStep, Entry.Key, OpsOf, Perform, Output, WrittenBy;
    var l := Life(s.connections[id].conn, 0, [], false);
    var own := OpsOf(op, id, s.connections[id].Key());
    if id in StackStep(s, op, cfg).connections {
      FirstStep(s, op, id, l, cfg);
      LifeNeverReceived(l, own, cfg);
    }
  }

  lemma {:induction false} LifeNeverReceived(l: Life, ops: seq<Op>, cfg: Config)
    requires l.conn.state != SynReceived
    ensures Live(l, ops, cfg).conn.state != SynReceived
    decreases |ops|
  {
    hide Perform;
    if ops != [] {
      Teardown.OpMoves(l, ops[0], cfg);
      LifeNeverReceived(Perform(l, ops[0], cfg), ops[1..], cfg);
    }
  }

  lemma {:induction false} OutForGood<P>(s: StackState<P>, ops: seq<StackOp<P>>, id: u64, cfg: Config)
    requires StackOk(s, cfg) && LinesOk(s) && IdsBelow(s) && s.nextId + |ops| <= U64_MAX && Out(s, id)
    ensures Out(StackRun(s, ops, cfg), id)
    decreases |ops|
  {
    hide StackOk, StackStep, LinesOk, JoinsExactly, Out;
    if ops != [] {
      StepJoins(s, ops[0], cfg);
      StackStepKeeps(s, ops[0], cfg);
      StaysOut(s, ops[0], id, cfg);
      OutForGood(StackStep(s, ops[0], cfg), ops[1..], id, cfg);
    }
  }

  /**
   * In every run from an empty stack, what `accept` returns is a connection of the table with that
   * local port whose handshake is complete, and no later `accept` on any port returns it again.
   */
  lemma HandedOutOnce<P>(ops: seq<StackOp<P>>, port: u16, more: seq<StackOp<P>>, other: u16, cfg: Config)
    requires |ops| + |more| + 1 < U64_MAX
    ensures var s := StackRun(Empty<P>(), ops, cfg);
            var accepted := AcceptNext(s, port);
            accepted.1.Some? ==>
              var id := accepted.1.value;
              && id in s.connections && s.connections[id].conn.localPort == port
              && Synchronized(s.connections[id].conn.state)
              && AcceptNext(StackRun(accepted.0, more, cfg), other).1 != Some(id)
  {
    hide StackOk, StackStep, StackRun, PopLive;
    var s := StackRun(Empty<P>(), ops, cfg);
    EmptyOk<P>(cfg);
    StackRunKeeps(Empty<P>(), ops, cfg);
    RunLines(Empty<P>(), ops, cfg);
    if AcceptNext(s, port).1.Some? {
      var id, s1 := AcceptNext(s, port).1.value, AcceptNext(s, port).0;
      Taken1(s, port, cfg);
      OutForGood(s1, more, id, cfg);
      NotReturned(StackRun(s1, more, cfg), other, id);
    }
  }

  lemma Taken1<P>(s: StackState<P>, port: u16, cfg: Config)
    requires StackOk(s, cfg) && LinesOk(s) && IdsBelow(s) && s.nextId < U64_MAX && AcceptNext(s, port).1.Some?
    ensures var id, s' := AcceptNext(s, port).1.value, AcceptNext(s, port).0;
            && id in s.connections && s.connections[id].conn.localPort == port
            && Synchronized(s.connections[id].conn.state)
            && Out(s', id) && StackOk(s', cfg) && LinesOk(s') && IdsBelow(s') && s'.nextId == s.nextId
  {
    hide StackOk;
    AcceptSteps(s, port, cfg);
    StepsOk(s, AcceptNext(s, port).0, cfg);
    StepJoins(s, DoAccept(port), cfg);
    hide PopLive;
    var k := PopsFront(s.accepts[port], s.connections);
    var id := s.accepts[port][k];
    assert InLine(s, port, id);
  }

  lemma NotReturned<P>(s: StackState<P>, port: u16, id: u64)
    requires Out(s, id)
    ensures AcceptNext(s, port).1 != Some(id)
  {
    if port in s.accepts {
      var k := PopsFront(s.accepts[port], s.connections);
      hide PopLive;
      assert !InLine(s, port, id);
    }
  }
}
