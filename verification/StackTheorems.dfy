/** What holds of a stack after any run: table, limits, reservation, port scan, and abort. */
module StackTheorems {
  import opened Numbers
  import opened Wire
  import opened Types
  import opened ConnectionSpec
  import opened ConnectionInvariant
  import opened StackSpec
  import opened StackSafety
  import opened StackRuns

  // ---------------------------------------------------------------- runs

  /** Every run keeps the invariant, as long as the identifiers last. */
  lemma {:induction false} StackRunKeeps<P>(s: StackState<P>, ops: seq<StackOp<P>>, cfg: Config)
    requires StackOk(s, cfg) && IdsBelow(s) && s.nextId + |ops| <= U64_MAX
    ensures StackOk(StackRun(s, ops, cfg), cfg)
    ensures (forall op :: op in ops ==> !op.DoReserve?) ==> Keeps(s, StackRun(s, ops, cfg), cfg)
    decreases |ops|
  {
    hide StackOk, StackStep, SlotsKept;
    if ops == [] {
      Still(s, cfg);
    } else {
      var s1 := StackStep(s, ops[0], cfg);
      assert ops[0] in ops;
      StackStepKeeps(s, ops[0], cfg);
      StackRunKeeps(s1, ops[1..], cfg);
      if Keeps(s, s1, cfg) && Keeps(s1, StackRun(s1, ops[1..], cfg), cfg) {
        KeepsTrans(s, s1, StackRun(s1, ops[1..], cfg), cfg);
      }
    }
  }

  lemma KeepsTrans<P>(s: StackState<P>, s1: StackState<P>, s2: StackState<P>, cfg: Config)
    requires Keeps(s, s1, cfg) && Keeps(s1, s2, cfg)
    ensures Keeps(s, s2, cfg)
  {
    hide StackOk, SlotsKept;
    SlotsTrans(s.connections, s1.connections, s2.connections, s.reservation, cfg);
  }

  lemma EmptyOk<P>(cfg: Config)
    ensures StackOk(Empty<P>(), cfg) && IdsBelow(Empty<P>())
  {
  }

  /**
   * From an empty stack, after any operations with any arriving bytes and any reservations, lookup
   * and connections mirror each other, both limits hold, and everything queued decodes.
   */
  lemma TableGuarantee<P>(ops: seq<StackOp<P>>, cfg: Config)
    requires |ops| < U64_MAX
    ensures var s := StackRun(Empty<P>(), ops, cfg);
            && (forall id :: id in s.connections ==>
                  s.connections[id].Key() in s.lookup && s.lookup[s.connections[id].Key()] == id)
            && (forall k :: k in s.lookup ==> s.lookup[k] in s.connections && s.connections[s.lookup[k]].Key() == k)
            && |s.connections| <= cfg.maxConnections
            && (forall id :: id in s.connections ==>
                  |OfPeer(s.connections, s.connections[id].peer)| <= cfg.maxConnectionsPerPeer)
            && (forall o :: o in s.outbound ==> Decode(o.bytes).Ok?)
  {
    hide StackStep, StackRun, Healthy, Decode, OfPeer, Entry.Key;
    EmptyOk<P>(cfg);
    StackRunKeeps(Empty<P>(), ops, cfg);
  }

  /**
   * Once a reservation is installed, on whatever table, ordinary peers never hold more than the rest
   * of the slots or what they held then; if that was no more than the rest, a selected peer below its
   * own limit is refused only when selected peers hold all reserved slots.
   */
  lemma ReservationGuarantee<P>(
      s: StackState<P>, slots: nat, eligible: P -> bool, ops: seq<StackOp<P>>, peer: P, cfg: Config)
    requires StackOk(s, cfg) && IdsBelow(s) && s.nextId + |ops| <= U64_MAX
    requires 0 < slots < cfg.maxConnections && forall op :: op in ops ==> !op.DoReserve?
    ensures SetReservation(s, slots, eligible, cfg).Ok?
    ensures var s' := StackRun(SetReservation(s, slots, eligible, cfg).value, ops, cfg);
            var held, rest := |Ordinary(s.connections, eligible)|, cfg.maxConnections - slots;
            && |Ordinary(s'.connections, eligible)| <= Max(held, rest)
            && (held <= rest && eligible(peer) && !Admits(s', peer, cfg) ==>
                  || |OfPeer(s'.connections, peer)| >= cfg.maxConnectionsPerPeer
                  || |Selected(s'.connections, eligible)| >= slots)
  {
    hide StackStep, StackRun, Healthy, Decode, Mirrored, AllHealthy, AllDecode, Capped, OfPeer, Ordinary, Selected;
    var s0 := SetReservation(s, slots, eligible, cfg).value;
    assert Reserved(s, slots, eligible, cfg) == s0;
    ReserveKeeps(s, slots, eligible, cfg);
    StackRunKeeps(s0, ops, cfg);
    OrdinaryWithin(StackRun(s0, ops, cfg).connections, eligible);
  }

  /**
   * A peer is admitted exactly when the table stays within both limits with its connection in it, and
   * either there is no reservation, or the peer is selected, or the table stays within the rest.
   */
  lemma AdmissionIsCapacity<P>(s: StackState<P>, id: u64, e: Entry<P>, cfg: Config)
    requires Capped(s.connections, cfg) && id !in s.connections
    ensures var t' := s.connections[id := e];
            Admits(s, e.peer, cfg) <==>
              && Capped(t', cfg)
              && (s.reservation == None || s.reservation.value.eligible(e.peer)
                  || |t'| <= cfg.maxConnections - s.reservation.value.slots)
  {
    hide OfPeer, Capped;
    CappedWith(s.connections, id, e, cfg);
  }

  lemma CappedWith<P>(t: Table<P>, id: u64, e: Entry<P>, cfg: Config)
    requires Capped(t, cfg) && id !in t
    ensures |t[id := e]| == |t| + 1
    ensures Capped(t[id := e], cfg) <==>
      |t| < cfg.maxConnections && |OfPeer(t, e.peer)| < cfg.maxConnectionsPerPeer
  {
    hide OfPeer;
    var t' := t[id := e];
    assert t'.Keys == t.Keys + {id};
    KeySizes(t);
    KeySizes(t');
    OfPeerStored(t, id, e, e.peer);
    NotOfPeer(t, id, e.peer);
    forall other | other in t'
      ensures |OfPeer(t', t'[other].peer)| <= Max(cfg.maxConnectionsPerPeer, |OfPeer(t', e.peer)|)
    {
      OfPeerStored(t, id, e, t'[other].peer);
    }
  }

  lemma NotOfPeer<P>(t: Table<P>, id: u64, peer: P)
    requires id !in t
    ensures id !in OfPeer(t, peer)
  {
  }

  // ---------------------------------------------------------------- the port scan

  /** The k-th port from the cursor on, cyclically. */
  function PortAt(cursor: u16, k: nat): u16
    requires FIRST_PORT <= cursor
  {
    FIRST_PORT + (cursor - FIRST_PORT + k) % PORTS
  }

  lemma NextPortAt(cursor: u16, k: nat)
    requires FIRST_PORT <= cursor
    ensures FIRST_PORT <= NextPort(cursor) && PortAt(NextPort(cursor), k) == PortAt(cursor, k + 1)
  {
    if cursor == 0xFFFF {
      assert (cursor - FIRST_PORT + (k + 1)) == k + PORTS;
      assert (k + PORTS) % PORTS == k % PORTS;
    }
  }

  /** The scan returns the first free port of its range, the k-th, or none if all of it is taken. */
  lemma {:induction false} ScanFindsFirst<P>(
      lookup: map<ConnectionKey<P>, u64>, peer: P, remotePort: u16, cursor: u16, tries: nat)
    returns (k: nat)
    requires FIRST_PORT <= cursor
    ensures var port := PortScan(lookup, peer, remotePort, cursor, tries).port;
            if port.Some? then k < tries && IsFirstFree(lookup, peer, remotePort, cursor, port.value, k)
            else forall j :: 0 <= j < tries ==> ConnectionKey(peer, PortAt(cursor, j), remotePort) in lookup
    decreases tries
  {
    k := 0;
    if tries > 0 {
      assert PortAt(cursor, 0) == cursor;
      if ConnectionKey(peer, cursor, remotePort) in lookup {
        NextPortAt(cursor, 0);
        k := ScanFindsFirst(lookup, peer, remotePort, NextPort(cursor), tries - 1);
        var port := PortScan(lookup, peer, remotePort, NextPort(cursor), tries - 1).port;
        if port.Some? {
          LaterFree(lookup, peer, remotePort, cursor, port.value, k);
          k := k + 1;
        } else {
          forall j | 0 < j < tries
            ensures ConnectionKey(peer, PortAt(cursor, j), remotePort) in lookup
          {
            NextPortAt(cursor, j - 1);
          }
        }
      }
    }
  }

  ghost predicate IsFirstFree<P>(
      lookup: map<ConnectionKey<P>, u64>, peer: P, remotePort: u16, cursor: u16, port: u16, k: nat)
    requires FIRST_PORT <= cursor
  {
    && port == PortAt(cursor, k) && ConnectionKey(peer, port, remotePort) !in lookup
    && forall j :: 0 <= j < k ==> ConnectionKey(peer, PortAt(cursor, j), remotePort) in lookup
  }

  lemma LaterFree<P>(lookup: map<ConnectionKey<P>, u64>, peer: P, remotePort: u16, cursor: u16, port: u16, k: nat)
    requires FIRST_PORT <= cursor && ConnectionKey(peer, cursor, remotePort) in lookup
    requires FIRST_PORT <= NextPort(cursor) && IsFirstFree(lookup, peer, remotePort, NextPort(cursor), port, k)
    ensures IsFirstFree(lookup, peer, remotePort, cursor, port, k + 1)
  {
    NextPortAt(cursor, k);
    assert PortAt(cursor, 0) == cursor;
    forall j | 0 < j < k + 1
      ensures ConnectionKey(peer, PortAt(cursor, j), remotePort) in lookup
    {
      NextPortAt(cursor, j - 1);
    }
  }

  lemma EveryPortIsScanned(cursor: u16, port: u16) returns (k: nat)
    requires FIRST_PORT <= cursor && FIRST_PORT <= port
    ensures k < PORTS && PortAt(cursor, k) == port
  {
    k := if port >= cursor then port - cursor else port - cursor + PORTS;
    if port < cursor {
      assert (port - FIRST_PORT + PORTS) % PORTS == port - FIRST_PORT;
    }
  }

  /**
   * From any cursor, a local port is found exactly when one of the 16384 is unused for the peer and
   * its remote port, and the one found is unused.
   */
  lemma EphemeralPort<P>(lookup: map<ConnectionKey<P>, u64>, peer: P, remotePort: u16, cursor: u16)
    requires FIRST_PORT <= cursor
    ensures var port := PortScan(lookup, peer, remotePort, cursor, PORTS).port;
            && (port.Some? <==> exists p: u16 :: FIRST_PORT <= p && ConnectionKey(peer, p, remotePort) !in lookup)
            && (port.Some? ==> FIRST_PORT <= port.value && ConnectionKey(peer, port.value, remotePort) !in lookup)
  {
    hide PortScan, PortAt;
    var k := ScanFindsFirst(lookup, peer, remotePort, cursor, PORTS);
    var port := PortScan(lookup, peer, remotePort, cursor, PORTS).port;
    if port == None {
      forall p: u16 | FIRST_PORT <= p
        ensures ConnectionKey(peer, p, remotePort) in lookup
      {
        var j := EveryPortIsScanned(cursor, p);
      }
    } else {
      PortInRange(cursor, k);
    }
  }

  lemma PortInRange(cursor: u16, k: nat)
    requires FIRST_PORT <= cursor
    ensures FIRST_PORT <= PortAt(cursor, k)
  {
  }

  // ---------------------------------------------------------------- abort

  /** The queued items that belong to a tuple. */
  function Of<P(==)>(out: seq<Outbound<P>>, key: ConnectionKey<P>): seq<Outbound<P>> {
    if out == [] then [] else (if ForTuple(out[0], key) then [out[0]] else []) + Of(out[1..], key)
  }

  lemma Associates<T>(a: seq<T>, b: seq<T>, c: seq<T>)
    ensures a + (b + c) == (a + b) + c
  {
  }

  lemma {:induction false} OfJoin<P>(a: seq<Outbound<P>>, b: seq<Outbound<P>>, key: ConnectionKey<P>)
    ensures Of(a + b, key) == Of(a, key) + Of(b, key)
    ensures Others(a + b, key) == Others(a, key) + Others(b, key)
  {
    hide ForTuple;
    if a == [] {
      assert a + b == b;
    } else {
      OfJoin(a[1..], b, key);
      assert (a + b)[1..] == a[1..] + b && (a + b)[0] == a[0];
      Associates(if ForTuple(a[0], key) then [a[0]] else [], Of(a[1..], key), Of(b, key));
      Associates(if ForTuple(a[0], key) then [] else [a[0]], Others(a[1..], key), Others(b, key));
    }
  }

  lemma {:induction false} NoneLeft<P>(out: seq<Outbound<P>>, key: ConnectionKey<P>)
    ensures Of(Others(out, key), key) == [] && Others(Others(out, key), key) == Others(out, key)
  {
    hide ForTuple;
    if out != [] {
      NoneLeft(out[1..], key);
      OfJoin(if ForTuple(out[0], key) then [] else [out[0]], Others(out[1..], key), key);
    }
  }

  /** Filtering for one tuple leaves another tuple's items alone. */
  lemma {:induction false} OthersElsewhere<P>(out: seq<Outbound<P>>, key: ConnectionKey<P>, other: ConnectionKey<P>)
    requires other != key
    ensures Of(Others(out, key), other) == Of(out, other)
  {
    hide Decode;
    if out != [] {
      OthersElsewhere(out[1..], key, other);
      OfJoin(if ForTuple(out[0], key) then [] else [out[0]], Others(out[1..], key), other);
    }
  }

  /** The items are one reset, that of the connection, for its tuple. */
  ghost predicate OneReset<P>(q: seq<Outbound<P>>, e: Entry<P>) {
    |q| == 1 && ForTuple(q[0], e.Key()) && Decode(q[0].bytes) == Ok(ResetSegment(e.conn))
  }

  /** What an abort queues. */
  lemma ResetQueued<P>(e: Entry<P>)
    requires Sendable(ResetSegment(e.conn))
    requires ResetSegment(e.conn).srcPort == e.conn.localPort && ResetSegment(e.conn).dstPort == e.conn.remotePort
    ensures OneReset(Encoded(e.peer, [ResetSegment(e.conn)]), e)
  {
    hide Encode, Decode, Encoded, Sendable, ResetSegment;
    EncodedAll(e.peer, [ResetSegment(e.conn)]);
  }

  /** An abort appends its reset to what is left of the queued output. */
  lemma AbortOutput<P>(s: StackState<P>, id: u64, cfg: Config) returns (q: seq<Outbound<P>>)
    requires StackOk(s, cfg) && id in s.connections
    ensures OneReset(q, s.connections[id])
    ensures var e := s.connections[id];
            AbortOne(s, id).state == s.(connections := s.connections - {id}, lookup := s.lookup - {e.Key()},
                                        outbound := Others(s.outbound, e.Key()) + q)
  {
    hide StackOk, Healthy, Sendable, Decode, Others, Encoded, ResetSegment, Entry.Key, OneReset;
    var e := s.connections[id];
    StackFacts(s, cfg);
    AbortSound(e.conn, cfg);
    ResetQueued(e);
    q := Encoded(e.peer, [ResetSegment(e.conn)]);
  }

  /**
   * Aborting a connection removes it and nothing else, leaves exactly one queued segment for its
   * tuple, its reset, and keeps all other queued output in order.
   */
  lemma AbortIsolation<P>(s: StackState<P>, id: u64, cfg: Config)
    requires StackOk(s, cfg) && id in s.connections
    ensures var e := s.connections[id]; var s' := AbortOne(s, id).state;
            && s'.connections == s.connections - {id} && e.Key() !in s'.lookup
            && Others(s'.outbound, e.Key()) == Others(s.outbound, e.Key())
            && OneReset(Of(s'.outbound, e.Key()), e)
  {
    hide StackOk, AbortOne, Decode, Others, ResetSegment, Of, ForTuple, Entry.Key;
    var e := s.connections[id];
    var q := AbortOutput(s, id, cfg);
    NoneLeft(s.outbound, e.Key());
    OfJoin(Others(s.outbound, e.Key()), q, e.Key());
    OneItem(q[0], e.Key());
    assert q == [q[0]];
  }

  lemma OneItem<P>(o: Outbound<P>, key: ConnectionKey<P>)
    requires ForTuple(o, key)
    ensures Of([o], key) == [o] && Others([o], key) == []
  {
    hide Decode;
    assert [o][1..] == [];
  }

  // ---------------------------------------------------------------- aborting a peer

  /** Queued output for other peers. */
  function Elsewhere<P(==)>(out: seq<Outbound<P>>, peer: P): seq<Outbound<P>> {
    if out == [] then [] else (if out[0].peer == peer then [] else [out[0]]) + Elsewhere(out[1..], peer)
  }

  lemma {:induction false} ElsewhereJoin<P>(a: seq<Outbound<P>>, b: seq<Outbound<P>>, peer: P)
    ensures Elsewhere(a + b, peer) == Elsewhere(a, peer) + Elsewhere(b, peer)
  {
    if a == [] {
      assert a + b == b;
    } else {
      ElsewhereJoin(a[1..], b, peer);
      assert (a + b)[1..] == a[1..] + b && (a + b)[0] == a[0];
      Associates(if a[0].peer == peer then [] else [a[0]], Elsewhere(a[1..], peer), Elsewhere(b, peer));
    }
  }

  lemma {:induction false} OthersKeepElsewhere<P>(out: seq<Outbound<P>>, key: ConnectionKey<P>)
    ensures Elsewhere(Others(out, key), key.peer) == Elsewhere(out, key.peer)
  {
    hide Decode;
    if out != [] {
      OthersKeepElsewhere(out[1..], key);
      ElsewhereJoin(if ForTuple(out[0], key) then [] else [out[0]], Others(out[1..], key), key.peer);
    }
  }

  /** One abort, seen from any other tuple and from other peers. */
  lemma AbortElsewhere<P>(s: StackState<P>, id: u64, key: ConnectionKey<P>, cfg: Config)
    requires StackOk(s, cfg) && id in s.connections
    ensures var e := s.connections[id]; var s' := AbortOne(s, id).state;
            && (key != e.Key() ==> Of(s'.outbound, key) == Of(s.outbound, key))
            && Elsewhere(s'.outbound, e.peer) == Elsewhere(s.outbound, e.peer)
  {
    hide StackOk, AbortOne, Decode, Others, ResetSegment, Of, ForTuple, Elsewhere;
    var e := s.connections[id];
    var q := AbortOutput(s, id, cfg);
    var kept := Others(s.outbound, e.Key());
    assert q == [q[0]];
    OfJoin(kept, q, key);
    ElsewhereJoin(kept, q, e.peer);
    OthersKeepElsewhere(s.outbound, e.Key());
    ItemElsewhere(q[0], e.Key(), key);
    if key != e.Key() {
      OthersElsewhere(s.outbound, e.Key(), key);
    }
  }

  lemma ItemElsewhere<P>(o: Outbound<P>, key: ConnectionKey<P>, other: ConnectionKey<P>)
    requires ForTuple(o, key)
    ensures Elsewhere([o], key.peer) == [] && (other != key ==> Of([o], other) == [])
  {
    hide Decode;
    assert [o][1..] == [];
  }

  /** Aborting several connections of a peer, seen from one tuple and from other peers. */
  lemma {:induction false} AbortAllFacts<P>(
      s: StackState<P>, ids: seq<u64>, peer: P, key: ConnectionKey<P>, cfg: Config)
    requires StackOk(s, cfg) && Distinct(ids)
    requires forall id :: id in ids ==> id in s.connections && s.connections[id].peer == peer
    ensures var s' := AbortAll(s, ids);
            && s'.connections == s.connections - (set id | id in ids)
            && ((forall id :: id in ids ==> s.connections[id].Key() != key) ==>
              Of(s'.outbound, key) == Of(s.outbound, key))
            && (forall id :: id in ids && s.connections[id].Key() == key ==>
              OneReset(Of(s'.outbound, key), s.connections[id]))
            && Elsewhere(s'.outbound, peer) == Elsewhere(s.outbound, peer)
    decreases |ids|
  {
    hide StackOk, AbortOne, Of, Elsewhere, Entry.Key, OneReset;
    if ids == [] {
      assert s.connections - {} == s.connections;
    } else {
      var s1 := AbortOne(s, ids[0]).state;
      assert ids[0] in ids;
      AbortIsolation(s, ids[0], cfg);
      AbortElsewhere(s, ids[0], key, cfg);
      AbortSteps(s, ids[0], cfg);
      StepsOk(s, s1, cfg);
      assert forall id :: id in ids <==> id == ids[0] || id in ids[1..];
      assert ids[0] !in ids[1..];
      AbortAllFacts(s1, ids[1..], peer, key, cfg);
      forall id | id in ids[1..]
        ensures s.connections[id].Key() != s.connections[ids[0]].Key() && s1.connections[id] == s.connections[id]
      {
        StackFacts(s, cfg);
      }
      assert s1.connections - (set id | id in ids[1..]) == s.connections - (set id | id in ids);
    }
  }

  /**
   * Aborting a peer's connections, in any order, removes exactly those, leaves exactly one queued
   * segment for each of their tuples, its reset, and keeps the queued output of all other peers in
   * order.
   */
  lemma AbortPeerIsolation<P>(s: StackState<P>, ids: seq<u64>, peer: P, cfg: Config)
    requires StackOk(s, cfg) && Distinct(ids) && (forall id :: id in ids <==> id in OfPeer(s.connections, peer))
    ensures var s' := AbortAll(s, ids);
            && s'.connections == s.connections - OfPeer(s.connections, peer)
            && (forall id :: id in OfPeer(s.connections, peer) ==>
                  OneReset(Of(s'.outbound, s.connections[id].Key()), s.connections[id]))
            && Elsewhere(s'.outbound, peer) == Elsewhere(s.outbound, peer)
  {
    hide StackOk, AbortAll, Of, Elsewhere, Entry.Key, OneReset;
    assert (set id | id in ids) == OfPeer(s.connections, peer);
    AbortAllFacts(s, ids, peer, ConnectionKey(peer, 0, 0), cfg);
    forall id | id in OfPeer(s.connections, peer)
      ensures OneReset(Of(AbortAll(s, ids).outbound, s.connections[id].Key()), s.connections[id])
    {
      AbortAllFacts(s, ids, peer, s.connections[id].Key(), cfg);
    }
  }
}
