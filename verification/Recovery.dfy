/**
 * What an advancing ACK sets off: which round trip it measures, and when it repairs one more hole of
 * a flight that timed out.
 */
module Recovery {
  import opened Numbers
  import opened SequenceSpace
  import opened Wire
  import opened RenoControl
  import opened RttEstimation
  import opened Types
  import opened Sender
  import opened Delivery
  import opened SendInvariant
  import opened SendSteps
  import opened ConnectionSpec
  import opened ConnectionInvariant
  import opened ConnectionSteps
  import opened Retries
  import opened Windows
  import FastRetransmit

  /** Exactly the first `k` segments end at or before the ACK number. */
  predicate Passes(ts: seq<Tracked>, ack: u32, k: nat) {
    && k <= |ts| && (forall i :: 0 <= i < k ==> BeforeOrEqual(ts[i].End(), ack))
    && (k < |ts| ==> !BeforeOrEqual(ts[k].End(), ack))
  }

  lemma {:induction false} CountPasses(ts: seq<Tracked>, ack: u32)
    ensures var k := AckedCount(ts, ack);
            && (forall i :: 0 <= i < k ==> BeforeOrEqual(ts[i].End(), ack))
            && (k < |ts| ==> !BeforeOrEqual(ts[k].End(), ack))
  {
    hide BeforeOrEqual, Tracked.End;
    if ts != [] && BeforeOrEqual(ts[0].End(), ack) {
      CountPasses(ts[1..], ack);
      assert forall i :: 0 < i < |ts| ==> ts[i] == ts[1..][i - 1];
    }
  }

  // ---------------------------------------------------------------- measuring

  /** The estimator after an ACK that passes `k` segments: the last of them is timed, if it may be. */
  function Measured(tx: Tx, k: nat, now: u64): RttState
    requires k <= |tx.unacked|
  {
    if k > 0 && tx.rtt.CanSample(tx.unacked[k - 1].End())
    then tx.rtt.Sample(SatSub(now, tx.unacked[k - 1].sentAt))
    else tx.rtt
  }

  /** If the last of the segments may not be timed, none of them may. */
  lemma LastDecides(ts: seq<Tracked>, p: int, q: int, s: Stream, k: nat, rtt: RttState, m: int, now: u64)
    requires Chain(ts, p, q, s) && KarnChain(ts, p, m) && 0 < k <= |ts| && q <= p + MAX_SPAN
    requires if rtt.sampleAfter.Some? then rtt.sampleAfter.value == Wrap(m) && q - 0x7000_0000 <= m <= q else m <= p
    ensures LastSample(ts[..k], rtt, now)
         == if rtt.CanSample(ts[k - 1].End()) then Some(SatSub(now, ts[k - 1].sentAt)) else None
  {
    hide Wrap, Add, After, Before, PieceOk, Tracked.End, Tracked.Len, Chain, KarnChain;
    SampleSentOnce(ts, p, q, s, k, rtt, m, now);
    var t := ts[k - 1];
    var r := SpanMember(ts, p, q, s, m, k - 1);
    PieceLen(t, r, s);
    ChainOrder(ts, p, q, s);
    assert ts[..k][..k - 1] == ts[..k - 1];
    SpanSnoc(ts[..k], p);
    if rtt.sampleAfter.Some? {
      WrapOrder(r + t.Len(), m);
    }
  }

  /** An advancing ACK times the last segment it passes exactly if Karn's gate lets it through. */
  lemma AckMeasures(tx: Tx, s: Stream, u: int, a: int, now: u64)
    requires QueuesOk(tx, s, u) && KarnOk(tx, u) && u < a <= NxtPos(tx, u)
    ensures var o, k := Acknowledge(tx, Wrap(a), now), AckedCount(tx.unacked, Wrap(a));
            o.tx.rtt == Measured(tx, k, now)
  {
    hide Wrap, Add, Chain, TrimFront, TrimCount, AckedCount, PayloadIn, HasFin, LastSample, KarnChain, Off;
    hide RenoState.OnAck, Before, PieceOk, RttState.Sample;
    var k := AckedCount(tx.unacked, Wrap(a));
    MarkWraps(tx, u);
    ChainOrder(tx.unacked, u, NxtPos(tx, u), s);
    if k > 0 {
      LastDecides(tx.unacked, u, NxtPos(tx, u), s, k, tx.rtt, KarnMark(tx, u), now);
    } else {
      NoSample(tx, now);
    }
  }

  lemma NoSample(tx: Tx, now: u64)
    ensures LastSample(tx.unacked[..0], tx.rtt, now) == None
  {
  }

  // ---------------------------------------------------------------- repairing

  /**
   * The ACK leaves a timed-out flight unfinished, the window is open, and the first segment it does not
   * pass may be sent again.
   */
  predicate Repairs(tx: Tx, k: nat, ack: u32, window: u16, cfg: Config)
    requires k <= |tx.unacked|
  {
    && tx.rtoRecoveryUntil.Some? && Distance(tx.una, ack) < Distance(tx.una, tx.rtoRecoveryUntil.value)
    && window > 0 && k < |tx.unacked| && tx.unacked[k].transmissions < cfg.maxRetransmissions
  }

  lemma RepairIs(tx: Tx, now: u64, cfg: Config)
    requires tx.maxTransmissions == cfg.maxRetransmissions
    ensures var r := Repair(tx, now, cfg);
            if tx.rtoRecoveryUntil.Some? && tx.window > 0 && tx.unacked != []
               && tx.unacked[0].transmissions < cfg.maxRetransmissions then
              && |r.out| == 1 && r.out[0].seqNo == tx.unacked[0].seqNo && r.out[0].flags == tx.unacked[0].flags
              && r.out[0].payload == tx.unacked[0].payload && r.tx.rtt == tx.rtt.OnRetransmit(tx.nxt)
            else r == Sent(tx, [])
  {
  }

  /** The retransmission queue after an advancing ACK. */
  lemma AckLeaves(tx: Tx, s: Stream, u: int, a: int, now: u64)
    requires QueuesOk(tx, s, u) && u < a <= NxtPos(tx, u)
    ensures var k, o := AckedCount(tx.unacked, Wrap(a)), Acknowledge(tx, Wrap(a), now);
            && (o.tx.unacked != [] <==> k < |tx.unacked|)
            && (k < |tx.unacked| ==>
                  PieceOk(o.tx.unacked[0], a, s) && o.tx.unacked[0].transmissions == tx.unacked[k].transmissions)
  {
    hide Wrap, Add, TrimFront, TrimCount, AckedCount, PayloadIn, HasFin, LastSample, Off, SpanOf, Before;
    hide RenoState.OnAck, PieceOk, RttState.Sample;
    var n := NxtPos(tx, u);
    var rest := tx.unacked[AckedCount(tx.unacked, Wrap(a))..];
    var b := PoppedPrefix(tx.unacked, u, n, s, a);
    ChainOrder(tx.unacked, u, n, s);
    ChainOrder(rest, b, n, s);
    TrimmedFront(rest, b, n, s, a);
  }

  /** The mark is ahead of the ACK exactly if it is farther from `una`. */
  lemma MarkAhead(tx: Tx, u: int, a: int)
    requires tx.una == Wrap(u) && RecoveryOk(tx) && u < a <= NxtPos(tx, u) <= u + MAX_SPAN
    ensures tx.rtoRecoveryUntil.Some? ==>
      var mark := tx.rtoRecoveryUntil.value;
      (Before(Wrap(a), mark) <==> a - u < Distance(tx.una, mark)) && Distance(tx.una, mark) <= InFlight(tx)
  {
    if tx.rtoRecoveryUntil.Some? {
      var mark := tx.rtoRecoveryUntil.value;
      DistancePosition(u, mark);
      MarkDistance(tx);
      hide Wrap, Off, Distance, Before;
      WrapOrder(a, u + Distance(tx.una, mark));
    }
  }

  lemma MarkDistance(tx: Tx)
    requires RecoveryOk(tx) && tx.rtoRecoveryUntil.Some?
    ensures Distance(tx.una, tx.rtoRecoveryUntil.value) == Off(tx.una, tx.rtoRecoveryUntil.value)
  {
  }

  /** The sender between taking an advancing ACK and repairing. */
  lemma AdvanceLeaves(tx: Tx, s: Stream, u: int, ack: u32, g: Segment, now: u64)
    requires TxOk(tx, s, u) && 0 < Distance(tx.una, ack) <= InFlight(tx)
    ensures var k, a, o := AckedCount(tx.unacked, ack), u + Distance(tx.una, ack), AckedTx(tx, ack, g, now);
            && ack == Wrap(a) && u < a <= NxtPos(tx, u)
            && o.resent == [] && o.tx.rtt == Measured(tx, k, now) && o.tx.maxTransmissions == tx.maxTransmissions
            && o.tx.nxt == tx.nxt && SequenceSpace.After(o.tx.una, tx.una) && InClosedInterval(ack, o.tx.una, o.tx.nxt)
            && (o.tx.rtoRecoveryUntil.Some? <==>
                  tx.rtoRecoveryUntil.Some? && Distance(tx.una, ack) < Distance(tx.una, tx.rtoRecoveryUntil.value))
            && (o.tx.rtoRecoveryUntil.Some? ==> a < NxtPos(tx, u))
            && (o.tx.unacked != [] <==> k < |tx.unacked|)
            && (k < |tx.unacked| ==>
                  PieceOk(o.tx.unacked[0], a, s) && o.tx.unacked[0].transmissions == tx.unacked[k].transmissions)
  {
    hide Wrap, TxOk, QueuesOk, Measured, AckedCount, Acknowledge, Acceptable, SequenceSpace.After, Off, PieceOk;
    hide SequenceSpace.Before, AckedTx;
    var a := u + Distance(tx.una, ack);
    UnaWraps(tx, s, u);
    SenderFacts(tx, s, u);
    AckAcceptance(tx, s, u, ack);
    AckWithin(tx, s, u, ack);
    WrapOrder(a, u);
    WrapOrder(a, a);
    NxtWraps(tx, u);
    WrapOrder(a, NxtPos(tx, u));
    AckMeasures(tx, s, u, a, now);
    AckLeaves(tx, s, u, a, now);
    MarkAhead(tx, u, a);
    AckFields(tx, ack, g, now);
  }

  lemma SenderFacts(tx: Tx, s: Stream, u: int)
    requires TxOk(tx, s, u)
    ensures KarnOk(tx, u) && RecoveryOk(tx)
  {
    hide QueuesOk, KarnOk, RecoveryOk, BudgetOk, ControlOk;
  }

  /** An advancing ACK at the sender: what it measures, and what it repairs. */
  lemma AdvanceRepairs(tx: Tx, s: Stream, u: int, ack: u32, g: Segment, now: u64, cfg: Config)
    requires TxOk(tx, s, u) && 0 < Distance(tx.una, ack) <= InFlight(tx)
    requires tx.maxTransmissions == cfg.maxRetransmissions
    ensures var k, a := AckedCount(tx.unacked, ack), u + Distance(tx.una, ack);
            var o, r := AckedTx(tx, ack, g, now), RepairedTx(tx, ack, g, now, cfg);
            var repairs, measured := Repairs(tx, k, ack, g.window, cfg), Measured(tx, k, now);
            && o.resent == [] && ack == Wrap(a) && u < a <= NxtPos(tx, u)
            && r.tx.rtt == (if repairs then measured.OnRetransmit(tx.nxt) else measured)
            && (if repairs then a < NxtPos(tx, u) && |r.out| == 1 && PieceOk(r.out[0], a, s) else r.out == [])
  {
    hide Wrap, Distance, TxOk, Measured, AckedCount, AckedTx, Repair, SequenceSpace.After, InClosedInterval, InFlight;
    hide NxtPos, PieceOk;
    AdvanceLeaves(tx, s, u, ack, g, now);
    var tx1 := UpdateWindow(AckedTx(tx, ack, g, now).tx, g.window, now);
    RepairIs(tx1, now, cfg);
    var r := RepairedTx(tx, ack, g, now, cfg);
    if r.out != [] { SamePiece(tx1.unacked[0], r.out[0], u + Distance(tx.una, ack), s); }
  }

  lemma SamePiece(t: Tracked, t': Tracked, p: int, s: Stream)
    requires PieceOk(t, p, s) && t'.seqNo == t.seqNo && t'.flags == t.flags && t'.payload == t.payload
    ensures PieceOk(t', p, s)
  {
    hide Wrap;
  }

  lemma AckFields(tx: Tx, ack: u32, g: Segment, now: u64)
    requires Acceptable(tx, ack) && ack != tx.una
    ensures var o := AckedTx(tx, ack, g, now);
            && o == Acknowledge(tx, ack, now) && o.resent == [] && o.tx.una == ack && o.tx.nxt == tx.nxt
            && o.tx.maxTransmissions == tx.maxTransmissions
            && o.tx.rtoRecoveryUntil
               == if tx.rtoRecoveryUntil.Some? && !Before(ack, tx.rtoRecoveryUntil.value) then None
                  else tx.rtoRecoveryUntil
  {
    hide AckedCount, PayloadIn, TrimCount, TrimFront, LastSample, HasFin, RenoState.OnAck, RttState.Sample;
  }

  /** A piece from before `nxt` counts as one retransmission. */
  lemma PieceResent(c: Conn, t: Tracked, p: int, n: int, s: Stream)
    requires PieceOk(t, p, s) && p < n <= p + MAX_SPAN
    ensures Retransmissions(SegmentsFor(c, [t]), Wrap(n)) == 1 && SegmentsFor(c, [t])[0].seqNo == Wrap(p)
  {
    PieceLen(t, p, s);
    WrapOrder(p, n);
    hide Off, Wrap, WindowField;
    var g := SegmentFor(c, t);
    assert SegmentsFor(c, [t]) == [g];
    assert [g][1..] == [];
    assert Retransmissions([g], Wrap(n)) == 1 + Retransmissions([], Wrap(n));
  }

  /**
   * An ACK that advances a synchronised connection and leaves it open. It times the last segment it
   * passes exactly if Karn's gate lets that one through. It causes exactly one retransmission, of the
   * first number not acknowledged, if the flight timed out, the recovery mark is still ahead, the
   * window it advertises is open and the segment has budget left; and else none.
   */
  lemma AdvanceIsUsed(c: Conn, g: Segment, now: u64, cfg: Config, s: Stream) returns (k: nat)
    requires ConnOk(c, cfg, s) && Synchronized(c.state) && !g.flags.rst && !g.flags.syn
    requires AcksFlight(c, g) && g.ack.value != c.tx.una
    ensures Passes(c.tx.unacked, g.ack.value, k)
    ensures var r, ack := Input(c, g, now, cfg), g.ack.value;
            var repairs, measured := Repairs(c.tx, k, ack, g.window, cfg), Measured(c.tx, k, now);
            !r.closed ==>
              && r.conn.tx.rtt == (if repairs then measured.OnRetransmit(c.tx.nxt) else measured)
              && Retransmissions(r.segments, c.tx.nxt) == Bit(repairs)
              && (repairs ==> r.segments != [] && r.segments[0].seqNo == ack)
  {
    hide ConnOk, CoreOk, FinishSegment, AckPart, UnaPos, OutputOk, UnaAfter, SndPos, BeforeOrEqual, InFlight;
    hide Repairs, Measured, Retransmissions, Distance, SegmentsFor, Tracked.End, AckedCount;
    var ack := g.ack.value;
    k := AckedCount(c.tx.unacked, ack);
    CountPasses(c.tx.unacked, ack);
    ConnFacts(c, cfg, s);
    AdvancePart(c, g, now, cfg, s);
    var part := AckPart(c, ack, g, now, cfg);
    AckPartKeeps(c, ack, g, now, cfg, s);
    AckPartNxt(c, ack, g, now, cfg, s);
    if !part.closed {
      FinishResends(part.conn, part.segments, g, now, cfg, s);
      FinishWindow(part.conn, part.segments, g, now, cfg, s);
      FastRetransmit.FinishStarts(part.conn, part.segments, g, now, cfg);
    }
  }

  lemma AdvancePart(c: Conn, g: Segment, now: u64, cfg: Config, s: Stream)
    requires ConnOk(c, cfg, s) && Synchronized(c.state) && AcksFlight(c, g) && g.ack.value != c.tx.una
    ensures var part, ack := AckPart(c, g.ack.value, g, now, cfg), g.ack.value;
            var k := AckedCount(c.tx.unacked, ack);
            var repairs, measured := Repairs(c.tx, k, ack, g.window, cfg), Measured(c.tx, k, now);
            !part.closed ==>
              && part.conn.tx.rtt == (if repairs then measured.OnRetransmit(c.tx.nxt) else measured)
              && Retransmissions(part.segments, c.tx.nxt) == Bit(repairs)
              && (repairs ==> part.segments != [] && part.segments[0].seqNo == ack)
  {
    hide ConnOk, CoreOk, TxOk, QueuesOk, AckPart, UnaPos, AckedTx, AckedCount, RepairedTx, Repairs, Measured;
    hide Retransmissions, PieceOk, Acceptable, Distance, Wrap, NxtPos, SegmentsFor;
    var ack, u := g.ack.value, UnaPos(c, s);
    ConnFacts(c, cfg, s);
    CoreFacts(c, cfg, s);
    UnaWraps(c.tx, s, u);
    AckAcceptance(c.tx, s, u, ack);
    AckWithin(c.tx, s, u, ack);
    NxtWraps(c.tx, u);
    AdvanceRepairs(c.tx, s, u, ack, g, now, cfg);
    AckPartShape(c, ack, g, now, cfg);
    NoSegments(c, c.tx.nxt);
    var out, n := RepairedTx(c.tx, ack, g, now, cfg).out, NxtPos(c.tx, u);
    var part := AckPart(c, ack, g, now, cfg);
    if !part.closed { assert part.segments == SegmentsFor(c, out); }
    if Repairs(c.tx, AckedCount(c.tx.unacked, ack), ack, g.window, cfg) {
      PieceResent(c, out[0], u + Distance(c.tx.una, ack), n, s);
      assert out == [out[0]];
    }
  }

  lemma NoSegments(c: Conn, nxt: u32)
    ensures SegmentsFor(c, []) == [] && Retransmissions([], nxt) == 0
  {
  }
}
