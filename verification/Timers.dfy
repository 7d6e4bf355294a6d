/**
 * The predicted deadline of a connection is exact, and a connection with anything outstanding is
 * removed by polling alone, after a number of polls that its counters tell in advance.
 */
module Timers {
  import opened Numbers
  import opened SequenceSpace
  import opened RenoControl
  import opened RttEstimation
  import opened Types
  import opened Sender
  import opened Receiver
  import opened Delivery
  import opened SendInvariant
  import opened SendSteps
  import opened ConnectionSpec
  import opened ConnectionInvariant
  import opened ConnectionSteps

  // ---------------------------------------------------------------- what is outstanding

  /** Unacknowledged or queued data, a SYN or FIN on the way, or a closing state with its own timer. */
  predicate Pending(c: Conn) {
    c.tx.unacked != [] || c.tx.queue != [] || FinAcked(c.state)
  }

  /** After our FIN was acknowledged the sender is empty. */
  lemma FinAckedIsEmpty(c: Conn, cfg: Config, s: Stream)
    requires ConnOk(c, cfg, s) && FinAcked(c.state)
    ensures c.tx.unacked == [] && c.tx.queue == [] && !ZeroWindowWork(c.tx) && CloseDeadline(c).Some?
  {
    TxFacts(c.tx, s, UnaPos(c, s));
    hide TxOk, RxOk, Wrap, Chain, Quiet;
  }

  /** While data may still be sent, everything in the retransmission queue carries payload. */
  lemma FlightHasPayload(c: Conn, cfg: Config, s: Stream)
    requires ConnOk(c, cfg, s) && MaySend(c.state) && c.tx.unacked != []
    ensures HasProbePayload(c.tx)
  {
    TxFacts(c.tx, s, UnaPos(c, s));
    hide TxOk, RxOk, Wrap, Quiet;
    assert PieceOk(c.tx.unacked[0], UnaPos(c, s), s);
  }

  /** With nothing in flight, only a zero window holds the send queue back. */
  lemma QueueWaitsForWindow(c: Conn, cfg: Config, s: Stream)
    requires ConnOk(c, cfg, s) && c.tx.unacked == [] && c.tx.queue != []
    ensures ZeroWindowWork(c.tx)
  {
    TxFacts(c.tx, s, UnaPos(c, s));
    RenoHolds(c.tx, s, UnaPos(c, s));
    if !MaySend(c.state) {
      QueueNeedsSending(c, cfg, s);
    }
    hide TxOk, RxOk, Wrap, Chain;
  }

  lemma QueueNeedsSending(c: Conn, cfg: Config, s: Stream)
    requires ConnOk(c, cfg, s) && c.tx.queue != []
    ensures MaySend(c.state)
  {
    TxFacts(c.tx, s, UnaPos(c, s));
    if !Synchronized(c.state) {
      ConnFacts(c, cfg, s);
      UnaInHandshake(c, cfg, s);
      NoQueue(c.tx, s, UnaPos(c, s));
    }
    hide TxOk, RxOk, Wrap, Chain;
  }

  /** Exactly one timer governs a pending connection. */
  lemma GoverningTimer(c: Conn, now: u64, cfg: Config, s: Stream)
    requires ConnOk(c, cfg, s) && Pending(c)
    ensures NextPollAt(c, now, cfg).Some?
    ensures FinAcked(c.state) ==> NextPollAt(c, now, cfg) == CloseDeadline(c)
    ensures !FinAcked(c.state) && ZeroWindowWork(c.tx) ==>
      HasProbePayload(c.tx) && NextPollAt(c, now, cfg) == c.tx.probeAt
    ensures !FinAcked(c.state) && !ZeroWindowWork(c.tx) ==>
      c.tx.unacked != [] && NextPollAt(c, now, cfg) == Some(RtoDeadline(c.tx))
  {
    if FinAcked(c.state) {
      FinAckedIsEmpty(c, cfg, s);
    } else {
      assert CloseDeadline(c) == None;
      if ZeroWindowWork(c.tx) {
        ConnFacts(c, cfg, s);
        if c.tx.queue == [] {
          ConnFacts(c, cfg, s);
          if MaySend(c.state) { FlightHasPayload(c, cfg, s); }
        }
      } else if c.tx.unacked == [] {
        QueueWaitsForWindow(c, cfg, s);
      }
    }
  }

  // ---------------------------------------------------------------- before the deadline

  lemma QuietConn(c: Conn, now: u64, cfg: Config, s: Stream)
    requires ConnOk(c, cfg, s)
    ensures FlushData(c, now) == Open(c, [])
  {
    if MaySend(c.state) {
      assert Quiet(c.tx) by { hide CoreOk; }
      QuietFlush(c.tx, now);
    }
  }

  lemma ProbeNotDue(tx: Tx, now: u64, cfg: Config)
    requires tx.probeAt.Some?
    requires now < tx.probeAt.value || (!HasProbePayload(tx) && tx.probes < cfg.maxRetransmissions)
    ensures PollZeroWindow(tx, now, cfg) == Polled(tx, [], false)
  {
    hide ProbeDelay;
    assert tx.(probeAt := Some(tx.probeAt.value)) == tx;
  }

  /** Polling before the predicted deadline, or at any time when there is none, does nothing at all. */
  lemma PollBeforeDeadline(c: Conn, now: u64, cfg: Config, s: Stream)
    requires ConnOk(c, cfg, s)
    requires var d := NextPollAt(c, now, cfg); d.None? || now < d.value
    ensures Poll(c, now, cfg) == Open(c, [])
  {
    hide ConnOk, FlushData, CloseDeadline, TransportDeadline, Poll, PollZeroWindow, PollRetransmit, ZeroWindowWork;
    BothLater(CloseDeadline(c), TransportDeadline(c, now, cfg), now);
    QuietConn(c, now, cfg, s);
    assert c.(tx := c.tx) == c;
    if ZeroWindowWork(c.tx) {
      assert c.tx.window == 0 by { hide HasProbePayload; ZeroWindow(c.tx); }
      ConnFacts(c, cfg, s);
      PersistDeadline(c, now, cfg);
      ProbeNotDue(c.tx, now, cfg);
      PollPersists(c, now, cfg);
    } else {
      RetransmitNotDue(c, now, cfg);
      PollRetransmits(c, now, cfg);
    }
  }

  lemma BothLater(a: Option<u64>, b: Option<u64>, now: u64)
    requires var d := Earliest(a, b); d.None? || now < d.value
    ensures (a.None? || now < a.value) && (b.None? || now < b.value)
  {
  }

  lemma ZeroWindow(tx: Tx)
    requires ZeroWindowWork(tx)
    ensures tx.window == 0
  {
  }

  lemma PersistDeadline(c: Conn, now: u64, cfg: Config)
    requires ZeroWindowWork(c.tx) && c.tx.probeAt.Some?
    ensures TransportDeadline(c, now, cfg)
         == if HasProbePayload(c.tx) || c.tx.probes >= cfg.maxRetransmissions then c.tx.probeAt else None
  {
  }

  lemma RetransmitNotDue(c: Conn, now: u64, cfg: Config)
    requires !ZeroWindowWork(c.tx)
    requires var d := TransportDeadline(c, now, cfg); d.None? || now < d.value
    ensures PollRetransmit(c.tx, now, cfg) == Polled(c.tx, [], false)
  {
    hide ZeroWindowWork, RetransmitOldest, InFlight;
  }

  /** The two halves of `poll` that follow the closing timers. */
  lemma PollPersists(c: Conn, now: u64, cfg: Config)
    requires ZeroWindowWork(c.tx) && (CloseDeadline(c).None? || now < CloseDeadline(c).value)
    ensures var r := PollZeroWindow(c.tx, now, cfg);
            Poll(c, now, cfg) == Update(c.(tx := r.tx), SegmentsFor(c, r.out), false, r.closed)
  {
    hide PollZeroWindow, ZeroWindowWork, CloseDeadline;
  }

  lemma PollRetransmits(c: Conn, now: u64, cfg: Config)
    requires !ZeroWindowWork(c.tx) && (CloseDeadline(c).None? || now < CloseDeadline(c).value)
    ensures var r := PollRetransmit(c.tx, now, cfg); var c' := c.(tx := r.tx); var f := FlushData(c', now);
            Poll(c, now, cfg) ==
              if r.closed then Update(c', [], false, true)
              else Open(f.conn, SegmentsFor(c, r.out) + f.segments)
  {
    hide PollRetransmit, ZeroWindowWork, CloseDeadline, FlushData;
  }

  // ---------------------------------------------------------------- at the deadline

  /** How many polls at its deadlines a pending connection survives, and one more. */
  function PollsLeft(c: Conn, cfg: Config): nat {
    if FinAcked(c.state) || (c.tx.unacked == [] && !ZeroWindowWork(c.tx)) then 1
    else if ZeroWindowWork(c.tx) then 1 + SatSub(cfg.maxRetransmissions, c.tx.probes)
    else 1 + SatSub(cfg.maxRetransmissions, c.tx.unacked[0].transmissions)
  }

  /** The poll at a persist deadline: closed when the probes are spent, else one probe and a later deadline. */
  lemma ProbeDue(tx: Tx, now: u64, cfg: Config)
    requires tx.probeAt.Some? && now >= tx.probeAt.value && HasProbePayload(tx)
    ensures var r := PollZeroWindow(tx, now, cfg);
            if tx.probes >= cfg.maxRetransmissions then r == Polled(tx, [], true)
            else
              && !r.closed && |r.out| == 1 && HasProbePayload(r.tx) && r.tx.probes == tx.probes + 1
              && r.tx.window == tx.window && r.tx.closeRequested == tx.closeRequested && r.tx.unacked != []
              && r.tx.probeAt == Some(SatAdd(now, ProbeDelay(tx.probes + 1, cfg)))
  {
    hide ProbeDelay;
    ProbeKeepsPayload(tx.(probeAt := Some(tx.probeAt.value)), now);
  }

  lemma ProbeKeepsPayload(tx: Tx, now: u64)
    requires HasProbePayload(tx)
    ensures var r := Probe(tx, now); |r.out| == 1 && HasProbePayload(r.tx) && r.tx.unacked != []
  {
    var r := Probe(tx, now);
    match FirstPayload(tx.unacked)
    case Some(i) => assert r.tx.unacked[i].payload != [];
    case None => assert r.tx.unacked[|tx.unacked|].payload != [];
  }

  lemma ProbeDelayBounds(probes: u8, cfg: Config)
    ensures 1 <= ProbeDelay(probes, cfg) <= cfg.maxRto
  {
    Pow2Positive(Min(probes, 16));
    hide Pow2;
    SatMulPositive(cfg.initialRto, Pow2(Min(probes, 16)));
  }

  lemma SatMulPositive(a: nat, b: nat)
    requires a >= 1 && b >= 1
    ensures SatMul(a, b) >= 1
  {
    assert a * b >= 1;
  }

  lemma Pow2Positive(k: nat)
    ensures Pow2(k) >= 1
  {
  }

  /** The sender after `k` probes of a closed window, each taken when it is due. */
  function Probings(tx: Tx, k: nat, cfg: Config): Tx {
    if k == 0 then tx
    else
      var p := Probings(tx, k - 1, cfg);
      if p.probeAt == None then p else PollZeroWindow(p, p.probeAt.value, cfg).tx
  }

  /** The time before the next probe: the initial timeout, doubled sixteen times at most, and capped. */
  function Gap(probes: nat, cfg: Config): nat {
    if probes == 0 then cfg.initialRto
    else if probes > 16 then Gap(probes - 1, cfg)
    else Min(2 * Gap(probes - 1, cfg), cfg.maxRto)
  }

  lemma {:induction false} DelayDoubles(probes: u8, cfg: Config)
    ensures ProbeDelay(probes, cfg) == Gap(probes, cfg)
  {
    if 0 < probes <= 16 {
      DelayDoubles(probes - 1, cfg);
      PowerDoubles(cfg.initialRto, probes);
    } else if probes > 16 {
      DelayDoubles(probes - 1, cfg);
    }
  }

  /** While the window stays closed, each probe is due twice as long after the last as that was, up to the limits. */
  lemma {:induction false} ProbesBackOff(tx: Tx, k: nat, cfg: Config)
    requires tx.probes == 0 && tx.probeAt.Some? && HasProbePayload(tx) && k <= cfg.maxRetransmissions
    ensures var p := Probings(tx, k, cfg); HasProbePayload(p) && p.probeAt.Some? && p.probes == k
    ensures k > 0 ==> Probings(tx, k - 1, cfg).probeAt.Some?
    ensures k > 0 ==>
      Probings(tx, k, cfg).probeAt == Some(SatAdd(Probings(tx, k - 1, cfg).probeAt.value, Gap(k, cfg)))
  {
    hide ProbeDelay, PollZeroWindow, Gap, HasProbePayload;
    if k > 0 {
      ProbesBackOff(tx, k - 1, cfg);
      var p := Probings(tx, k - 1, cfg);
      ProbeDue(p, p.probeAt.value, cfg);
      DelayDoubles(k, cfg);
    }
  }

  /** The poll at a retransmission deadline: closed when the budget is spent, else the oldest again. */
  lemma RetransmitDue(tx: Tx, now: u64, cfg: Config)
    requires tx.unacked != [] && now >= RtoDeadline(tx) && RttOk(tx.rtt)
    requires tx.maxTransmissions == cfg.maxRetransmissions
    ensures var r := PollRetransmit(tx, now, cfg); var t := tx.unacked[0];
            if t.transmissions >= cfg.maxRetransmissions then r == Polled(tx, [], true)
            else
              && !r.closed && |r.out| == 1 && |r.tx.unacked| == |tx.unacked|
              && r.tx.unacked[0] == t.(sentAt := now, transmissions := t.transmissions + 1, sends := t.sends + 1)
              && r.out[0] == r.tx.unacked[0] && 1 <= r.tx.rtt.rto <= tx.rtt.maxRto
              && (ZeroWindowWork(r.tx) <==> ZeroWindowWork(tx))
  {
    hide RenoState.OnTimeout;
    var r := PollRetransmit(tx, now, cfg);
    if tx.unacked[0].transmissions < cfg.maxRetransmissions {
      SamePayloads(tx.unacked, r.tx.unacked);
    }
  }

  lemma SamePayloads(ts: seq<Tracked>, ts': seq<Tracked>)
    requires |ts'| == |ts| && forall i :: 0 <= i < |ts| ==> ts'[i].payload == ts[i].payload
    ensures FirstPayload(ts) == FirstPayload(ts')
  {
  }

  /** Flushing after a retransmission keeps its front segment, and the window. */
  lemma FlushKeepsFront(c: Conn, now: u64, cfg: Config, s: Stream)
    requires CoreOk(c, cfg, s) && c.tx.unacked != []
    ensures var f := FlushData(c, now);
            && f.conn.tx.unacked != [] && f.conn.tx.unacked[0] == c.tx.unacked[0] && f.conn.tx.rtt == c.tx.rtt
            && f.conn.tx.window == c.tx.window && (!FinAcked(c.state) ==> !FinAcked(f.conn.state))
            && (c.tx.window == 0 ==> f.conn == c)
  {
    hide TxOk, RxOk, Flush, PacketsOk, SegmentsFor, UnaPos, NxtPos, Stream.Extends, Quiet, HandshakeOk, Configured;
    if MaySend(c.state) {
      FlushKeeps(c.tx, s, UnaPos(c, s), now);
      hide CoreOk;
      if c.tx.window == 0 {
        ZeroRoom(c.tx);
        QuietFlush(c.tx, now);
        assert c.(tx := c.tx, state := c.state) == c;
      }
    }
  }

  lemma ZeroRoom(tx: Tx)
    requires tx.window == 0
    ensures Quiet(tx)
  {
  }

  /** What a poll at or after the predicted deadline does. */
  ghost predicate Progress(c: Conn, r: Update, now: u64, cfg: Config) {
    if r.closed then PollsLeft(c, cfg) == 1
    else
      && r.segments != [] && Pending(r.conn) && NextPollAt(r.conn, now, cfg).Some?
      && NextPollAt(r.conn, now, cfg).value <= now + cfg.maxRto
      && (now < U64_MAX ==> now < NextPollAt(r.conn, now, cfg).value)
      && PollsLeft(c, cfg) == 1 + PollsLeft(r.conn, cfg)
  }

  lemma NoCloseDeadline(c: Conn)
    requires !FinAcked(c.state)
    ensures CloseDeadline(c) == None
  {
  }

  lemma PersistProgress(c: Conn, now: u64, cfg: Config, s: Stream)
    requires ConnOk(c, cfg, s) && !FinAcked(c.state) && ZeroWindowWork(c.tx) && HasProbePayload(c.tx)
    requires c.tx.probeAt.Some? && now >= c.tx.probeAt.value
    ensures Progress(c, Poll(c, now, cfg), now, cfg)
  {
    hide ConnOk, PollZeroWindow, Poll, ProbeDelay, HasProbePayload, ZeroWindowWork, NextPollAt, StepOk, FinAcked;
    hide CloseDeadline;
    hide RtoDeadline, StreamIn, UnaPos, SegmentsFor;
    PollKeeps(c, now, cfg, s);
    ProbeDue(c.tx, now, cfg);
    ProbeDelayBounds(Min(c.tx.probes + 1, 255), cfg);
    NoCloseDeadline(c);
    PollPersists(c, now, cfg);
    var r := Poll(c, now, cfg);
    ZeroWindow(c.tx);
    if !r.closed {
      OpenAfterPoll(c, r, cfg, s);
      StillProbing(c, r.conn);
      GoverningTimer(r.conn, now, cfg, StreamIn(r.conn, s));
    }
  }

  lemma StillProbing(c: Conn, c': Conn)
    requires c'.tx.window == 0 && HasProbePayload(c'.tx)
    ensures ZeroWindowWork(c'.tx)
  {
  }

  lemma OpenAfterPoll(c: Conn, r: Update, cfg: Config, s: Stream)
    requires StepOk(c, r, cfg, s) && !r.closed
    ensures ConnOk(r.conn, cfg, StreamIn(r.conn, s))
  {
    hide ConnOk, OutputOk;
  }

  lemma RetransmitProgress(c: Conn, now: u64, cfg: Config, s: Stream)
    requires ConnOk(c, cfg, s) && !FinAcked(c.state) && !ZeroWindowWork(c.tx) && c.tx.unacked != []
    requires now >= RtoDeadline(c.tx)
    ensures Progress(c, Poll(c, now, cfg), now, cfg)
  {
    hide ConnOk, CoreOk, Poll, PollRetransmit, FlushData, ZeroWindowWork, UnaPos, SndPos, PacketsOk, StepOk, RttOk;
    hide NextPollAt;
    hide FinAcked, CloseDeadline, RtoDeadline, StreamIn, SegmentsFor;
    ConnFacts(c, cfg, s);
    ConnFacts(c, cfg, s);
    PollKeeps(c, now, cfg, s);
    RetransmitDue(c.tx, now, cfg);
    NoCloseDeadline(c);
    PollRetransmits(c, now, cfg);
    var p := PollRetransmit(c.tx, now, cfg);
    var r := Poll(c, now, cfg);
    if !r.closed {
      OpenAfterPoll(c, r, cfg, s);
      RetransmittedCore(c, now, cfg, s);
      FlushKeepsFront(c.(tx := p.tx), now, cfg, s);
      NoZeroWork(p.tx, r.conn.tx);
      GoverningTimer(r.conn, now, cfg, StreamIn(r.conn, s));
      FreshDeadline(r.conn.tx, now);
    }
  }

  lemma FreshDeadline(tx: Tx, now: u64)
    requires tx.unacked != [] && tx.unacked[0].sentAt == now
    ensures RtoDeadline(tx) == SatAdd(now, tx.rtt.rto)
  {
  }

  lemma NoZeroWork(tx: Tx, tx': Tx)
    requires !ZeroWindowWork(tx) && tx'.window == tx.window && (tx.window == 0 ==> tx' == tx)
    ensures !ZeroWindowWork(tx')
  {
  }

  /**
   * Polling at or after the predicted deadline either closes the connection, or emits a segment and
   * leaves a later deadline, at most the maximum timeout away.
   */
  lemma PollAtDeadline(c: Conn, now: u64, cfg: Config, s: Stream)
    requires ConnOk(c, cfg, s)
    requires NextPollAt(c, now, cfg).Some? && now >= NextPollAt(c, now, cfg).value
    ensures Progress(c, Poll(c, now, cfg), now, cfg)
  {
    hide ConnOk, Poll, NextPollAt, ZeroWindowWork, FinAcked, CloseDeadline, HasProbePayload, RtoDeadline, Progress;
    hide PollsLeft;
    if Pending(c) {
      GoverningTimer(c, now, cfg, s);
      if FinAcked(c.state) {
        CloseExpires(c, now, cfg);
      } else if ZeroWindowWork(c.tx) {
        ZeroWindow(c.tx);
        ConnFacts(c, cfg, s);
        PersistProgress(c, now, cfg, s);
      } else {
        RetransmitProgress(c, now, cfg, s);
      }
    } else {
      CloseWaitsForever(c, now, cfg, s);
      ClosedProgress(c, now, cfg);
    }
  }

  lemma CloseExpires(c: Conn, now: u64, cfg: Config)
    requires FinAcked(c.state) && CloseDeadline(c).Some? && now >= CloseDeadline(c).value
    ensures Progress(c, Poll(c, now, cfg), now, cfg)
  {
    hide FlushData, PollZeroWindow, PollRetransmit, NextPollAt;
  }

  lemma ClosedProgress(c: Conn, now: u64, cfg: Config)
    requires Poll(c, now, cfg).closed && PollsLeft(c, cfg) == 1
    ensures Progress(c, Poll(c, now, cfg), now, cfg)
  {
    hide Poll, NextPollAt, PollsLeft;
  }

  /** Without anything pending, only a close held back by a zero window can have a deadline. */
  lemma CloseWaitsForever(c: Conn, now: u64, cfg: Config, s: Stream)
    requires ConnOk(c, cfg, s) && !Pending(c)
    ensures NextPollAt(c, now, cfg).Some? <==>
      c.tx.closeRequested && c.tx.window == 0 && c.tx.probes >= cfg.maxRetransmissions
    ensures NextPollAt(c, now, cfg).Some? && now >= NextPollAt(c, now, cfg).value ==>
      Poll(c, now, cfg).closed && PollsLeft(c, cfg) == 1
  {
    if c.tx.window == 0 {
      ConnFacts(c, cfg, s);
    }
    hide ConnOk, FlushData, ProbeDelay, Probe;
  }

  // ---------------------------------------------------------------- a silent peer

  /** When a poll at the predicted deadline happens: then, or at once if it has passed. */
  function Due(c: Conn, now: u64, cfg: Config): u64
    requires NextPollAt(c, now, cfg).Some?
  {
    Max(now, NextPollAt(c, now, cfg).value)
  }

  /** Polling at each deadline closes the connection with the k-th poll, each gap at most `maxRto`. */
  predicate ClosesAfter(c: Conn, now: u64, cfg: Config, k: nat)
    decreases k
  {
    && k > 0 && NextPollAt(c, now, cfg).Some?
    && var t := Due(c, now, cfg);
       var r := Poll(c, t, cfg);
       if k == 1 then r.closed
       else
         && !r.closed && r.segments != []
         && NextPollAt(r.conn, t, cfg).Some? && NextPollAt(r.conn, t, cfg).value <= t + cfg.maxRto
         && ClosesAfter(r.conn, t, cfg, k - 1)
  }

  /**
   * With no further input, a connection with anything outstanding is removed by exactly
   * `PollsLeft` polls at its deadlines: at most one more than the retransmission limit.
   */
  lemma {:induction false} SilentPeerTerminates(c: Conn, now: u64, cfg: Config, s: Stream)
    requires ConnOk(c, cfg, s) && Pending(c)
    ensures ClosesAfter(c, now, cfg, PollsLeft(c, cfg)) && 1 <= PollsLeft(c, cfg) <= cfg.maxRetransmissions + 1
    decreases PollsLeft(c, cfg)
  {
    hide ConnOk, Poll, NextPollAt, StepOk, PollsLeft, Pending, UnaPos, StreamIn;
    PollsBounded(c, cfg, s);
    DeadlineStays(c, now, now, cfg, s);
    var t := Due(c, now, cfg);
    DeadlineStays(c, now, t, cfg, s);
    PollAtDeadline(c, t, cfg, s);
    PollKeeps(c, t, cfg, s);
    var r := Poll(c, t, cfg);
    if !r.closed {
      OpenAfterPoll(c, r, cfg, s);
      PollsBounded(r.conn, cfg, StreamIn(r.conn, s));
      SilentPeerTerminates(r.conn, t, cfg, StreamIn(r.conn, s));
    }
  }

  lemma PollsBounded(c: Conn, cfg: Config, s: Stream)
    requires ConnOk(c, cfg, s) && Pending(c)
    ensures 1 <= PollsLeft(c, cfg) <= cfg.maxRetransmissions + 1
  {
    hide ConnOk, ZeroWindowWork;
  }

  /** The deadline of a pending connection does not depend on when it is asked for. */
  lemma DeadlineStays(c: Conn, now: u64, t: u64, cfg: Config, s: Stream)
    requires ConnOk(c, cfg, s) && Pending(c)
    ensures NextPollAt(c, now, cfg).Some? && NextPollAt(c, t, cfg) == NextPollAt(c, now, cfg)
  {
    GoverningTimer(c, now, cfg, s);
    GoverningTimer(c, t, cfg, s);
  }
}
