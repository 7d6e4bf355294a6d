/** Polling the table: exactly the connections whose deadline has passed are touched. */
module StackTimers {
  import opened Numbers
  import opened Wire
  import opened Types
  import opened Sender
  import opened Delivery
  import opened ConnectionSpec
  import opened ConnectionInvariant
  import opened StackSpec
  import opened StackSafety
  import opened StackRuns
  import Timers

  /** The connection's predicted deadline has passed. */
  predicate Due(c: Conn, now: u64, cfg: Config) {
    NextPollAt(c, now, cfg).Some? && now >= NextPollAt(c, now, cfg).value
  }

  /** Polled when due: removed, or something of its tuple was queued and its deadline is later. */
  ghost predicate Served<P>(s: StackState<P>, s': StackState<P>, id: u64, now: u64, cfg: Config)
    requires id in s.connections
  {
    id in s'.connections ==>
      && !Due(s'.connections[id].conn, now, cfg)
      && exists i :: |s.outbound| <= i < |s'.outbound| && ForTuple(s'.outbound[i], s.connections[id].Key())
  }

  /** What becomes of a connection: served if it was polled when due, else untouched. */
  ghost predicate Fate<P>(s: StackState<P>, s': StackState<P>, id: u64, polled: bool, now: u64, cfg: Config)
    requires id in s.connections
  {
    if polled && Due(s.connections[id].conn, now, cfg) then Served(s, s', id, now, cfg)
    else id in s'.connections && s'.connections[id] == s.connections[id]
  }

  // ---------------------------------------------------------------- one connection

  lemma NotDue(c: Conn, now: u64, cfg: Config)
    requires Healthy(c, cfg) && !Due(c, now, cfg)
    ensures Poll(c, now, cfg) == Open(c, [])
  {
    hide ConnOk, NextPollAt, Poll;
    var s: Stream :| ConnOk(c, cfg, s);
    Timers.PollBeforeDeadline(c, now, cfg, s);
  }

  lemma WhenDue(c: Conn, now: u64, cfg: Config)
    requires Healthy(c, cfg) && Due(c, now, cfg) && now < U64_MAX
    ensures var r := Poll(c, now, cfg); !r.closed ==> r.segments != [] && !Due(r.conn, now, cfg)
  {
    hide ConnOk, NextPollAt, Poll, Timers.PollsLeft, Timers.Pending;
    var s: Stream :| ConnOk(c, cfg, s);
    Timers.PollAtDeadline(c, now, cfg, s);
  }

  /** Everything a poll emits belongs to the connection's tuple. */
  lemma PollTuple(c: Conn, now: u64, cfg: Config)
    ensures forall g :: g in Poll(c, now, cfg).segments ==> g.srcPort == c.localPort && g.dstPort == c.remotePort
  {
    hide PollRetransmit, PollZeroWindow, ZeroWindowWork, CloseDeadline, Flush, WindowField;
  }

  lemma Unpolled<P>(s: StackState<P>, id: u64, now: u64, cfg: Config)
    requires id in s.connections && Poll(s.connections[id].conn, now, cfg) == Open(s.connections[id].conn, [])
    ensures PollOne(s, id, now, cfg) == s
  {
    hide Poll;
    var e := s.connections[id];
    assert s.connections[id := Entry(e.peer, e.conn)] == s.connections;
    assert s.outbound + Encoded(e.peer, []) == s.outbound;
  }

  /** The queued items of a poll's output are for the tuple. */
  lemma QueuedForTuple<P>(e: Entry<P>, segments: seq<Segment>)
    requires segments != [] && forall g :: g in segments ==> Sendable(g)
    requires forall g :: g in segments ==> g.srcPort == e.conn.localPort && g.dstPort == e.conn.remotePort
    ensures Encoded(e.peer, segments) != [] && ForTuple(Encoded(e.peer, segments)[0], e.Key())
  {
    hide Sendable, Decode, Encode;
    EncodedAll(e.peer, segments);
    assert segments[0] in segments;
  }

  lemma ReplaceShape<P>(s: StackState<P>, id: u64, r: Update)
    requires id in s.connections
    ensures var s', e := Replace(s, id, r), s.connections[id];
            && s'.outbound == s.outbound + Encoded(e.peer, r.segments)
            && s'.connections == if r.closed then s.connections - {id} else s.connections[id := Entry(e.peer, r.conn)]
  {
    hide Encoded, Entry.Key;
  }

  /** Polling one connection leaves the others alone; only a due one changes. */
  lemma PollOneServes<P>(s: StackState<P>, id: u64, now: u64, cfg: Config)
    requires StackOk(s, cfg) && now < U64_MAX
    ensures var s' := PollOne(s, id, now, cfg);
            && s.outbound <= s'.outbound
            && (forall other :: other in s.connections ==> Fate(s, s', other, other == id, now, cfg))
            && (s' == s || (id in s.connections && Due(s.connections[id].conn, now, cfg)))
  {
    hide StackOk, Healthy, Due, Poll, Sound, Sendable, Encoded, ForTuple, Entry.Key;
    if id in s.connections {
      StackFacts(s, cfg);
      var e := s.connections[id];
      if Due(e.conn, now, cfg) {
        WhenDue(e.conn, now, cfg);
        PollTuple(e.conn, now, cfg);
        PollSound(e.conn, now, cfg);
        SoundOutput(e.conn, Poll(e.conn, now, cfg), cfg);
        ReplaceShape(s, id, Poll(e.conn, now, cfg));
        hide Replace;
        if !Poll(e.conn, now, cfg).closed {
          QueuedForTuple(e, Poll(e.conn, now, cfg).segments);
          assert ForTuple(PollOne(s, id, now, cfg).outbound[|s.outbound|], e.Key());
        }
      } else {
        NotDue(e.conn, now, cfg);
        Unpolled(s, id, now, cfg);
      }
    }
  }

  // ---------------------------------------------------------------- the table

  lemma FateThen<P>(
      s: StackState<P>, s1: StackState<P>, s2: StackState<P>, id: u64, first: bool, polled: bool, now: u64, cfg: Config)
    requires id in s.connections && Fate(s, s1, id, first, now, cfg) && !(first && polled)
    requires id in s1.connections ==> Fate(s1, s2, id, polled, now, cfg)
    requires s.outbound <= s1.outbound <= s2.outbound && s2.connections.Keys <= s1.connections.Keys
    ensures Fate(s, s2, id, first || polled, now, cfg)
  {
    hide Due, ForTuple, Entry.Key;
    if id in s2.connections && first && Due(s.connections[id].conn, now, cfg) {
      var i :| |s.outbound| <= i < |s1.outbound| && ForTuple(s1.outbound[i], s.connections[id].Key());
      assert s2.outbound[i] == s1.outbound[i];
    }
  }

  /** A poll never adds a connection. */
  lemma PollOneShrinks<P>(s: StackState<P>, id: u64, now: u64, cfg: Config)
    ensures PollOne(s, id, now, cfg).connections.Keys <= s.connections.Keys
  {
    hide Poll, Encoded, Entry.Key;
  }

  /**
   * Polling connections of a table, each once and in any order, touches exactly the due ones: each of
   * them is removed, or has something queued for its tuple and a later deadline; all others stay as
   * they are, and if none is due nothing at all happens. The clock is short of its maximum.
   */
  lemma {:induction false} PollServesDue<P>(s: StackState<P>, ids: seq<u64>, now: u64, cfg: Config)
    requires StackOk(s, cfg) && Distinct(ids) && now < U64_MAX
    ensures var s' := PollAll(s, ids, now, cfg);
            && s.outbound <= s'.outbound && s'.connections.Keys <= s.connections.Keys
            && (forall id :: id in s.connections ==> Fate(s, s', id, id in ids, now, cfg))
            && ((forall id :: id in s.connections && id in ids ==> !Due(s.connections[id].conn, now, cfg)) ==> s' == s)
    decreases |ids|
  {
    hide StackOk, PollOne, Due, Served;
    if ids != [] {
      hide Fate;
      var s1, s2 := PollOne(s, ids[0], now, cfg), PollAll(s, ids, now, cfg);
      PollOneServes(s, ids[0], now, cfg);
      PollOneShrinks(s, ids[0], now, cfg);
      OneConnectionSteps(s, ids[0], [], 0, now, cfg);
      StepsOk(s, s1, cfg);
      PollServesDue(s1, ids[1..], now, cfg);
      assert ids[0] in ids && ids[0] !in ids[1..];
      assert forall id :: id in ids <==> id == ids[0] || id in ids[1..];
      forall id | id in s.connections
        ensures Fate(s, s2, id, id in ids, now, cfg)
      {
        FateThen(s, s1, s2, id, id == ids[0], id in ids[1..], now, cfg);
      }
    }
  }
}
