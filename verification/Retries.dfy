/**
 * The retry ledger: over a whole life, whoever asks for it, no piece of the stream is put on the
 * wire in full more often than the limit. Probes are apart; they have their own limit.
 */
module Retries {
  import opened Numbers
  import opened SequenceSpace
  import opened Wire
  import opened RenoControl
  import opened RttEstimation
  import opened Types
  import opened Sender
  import opened Receiver
  import opened Delivery
  import opened SendInvariant
  import opened SendSteps
  import opened ConnectionSpec
  import opened ConnectionInvariant
  import opened ConnectionSteps
  import opened ConnectionRuns

  // ---------------------------------------------------------------- counting

  /** The transmissions recorded for the segments of a queue that end at position `e`. */
  function SentFor(ts: seq<Tracked>, p: int, e: int): nat {
    if ts == [] then 0
    else (if e == p + ts[0].Len() then ts[0].transmissions else 0) + SentFor(ts[1..], p + ts[0].Len(), e)
  }

  /** What may have been spent on position `e`: all of the budget once it is acknowledged. */
  function Spent(tx: Tx, u: int, e: int, limit: nat): nat {
    if e <= u then limit else SentFor(tx.unacked, u, e)
  }

  /** The position a segment ends at, read from its sequence number near position `a`. */
  function EndAt(t: Tracked, a: int): int {
    a + Off(Wrap(a), t.seqNo) + t.Len()
  }

  function Ending(ts: seq<Tracked>, a: int, e: int): nat {
    if ts == [] then 0 else Bit(EndAt(ts[0], a) == e) + Ending(ts[1..], a, e)
  }

  /** How many segments on the wire carry sequence space that ends at position `e`. */
  function OnWireEnding(out: seq<Segment>, a: int, e: int): nat {
    if out == [] then 0
    else Bit(!out[0].flags.rst && SequenceLen(out[0]) > 0 && a + Off(Wrap(a), out[0].seqNo) + SequenceLen(out[0]) == e)
         + OnWireEnding(out[1..], a, e)
  }

  lemma EndAtPiece(t: Tracked, p: int, s: Stream, a: int)
    requires PieceOk(t, p, s) && -0x8000_0000 < p - a < 0x8000_0000
    ensures EndAt(t, a) == p + t.Len()
  {
    WrapOrder(p, a);
  }

  lemma {:induction false} SentAppend(ts: seq<Tracked>, p: int, q: int, s: Stream, t: Tracked, e: int)
    requires Chain(ts, p, q, s)
    ensures SentFor(ts + [t], p, e) == SentFor(ts, p, e) + (if e == q + t.Len() then t.transmissions else 0)
  {
    hide PieceOk, Tracked.Len;
    if ts == [] {
      assert (ts + [t])[1..] == [];
    } else {
      SentAppend(ts[1..], p + ts[0].Len(), q, s, t, e);
      assert (ts + [t])[1..] == ts[1..] + [t];
    }
  }

  lemma {:induction false} SentBound(ts: seq<Tracked>, p: int, q: int, s: Stream, e: int, limit: nat)
    requires Chain(ts, p, q, s) && forall t :: t in ts ==> t.transmissions <= limit
    ensures SentFor(ts, p, e) <= limit && (e <= p || e > q ==> SentFor(ts, p, e) == 0)
  {
    hide Wrap;
    ChainOrder(ts, p, q, s);
    if ts != [] {
      PieceLen(ts[0], p, s);
      hide PieceOk, Tracked.Len, Tracked.End;
      ChainOrder(ts[1..], p + ts[0].Len(), q, s);
      SentBound(ts[1..], p + ts[0].Len(), q, s, e, limit);
    }
  }

  lemma {:induction false} SentPopped(ts: seq<Tracked>, p: int, q: int, s: Stream, k: nat, e: int)
    requires Chain(ts, p, q, s) && k <= |ts| && e > SpanOf(ts[..k], p)
    ensures SentFor(ts, p, e) == SentFor(ts[k..], SpanOf(ts[..k], p), e)
  {
    hide Wrap;
    if k > 0 {
      PieceLen(ts[0], p, s);
      assert ts[..k][1..] == ts[1..][..k - 1];
      assert ts[1..][k - 1..] == ts[k..];
      SpanGrows(ts[1..], p + ts[0].Len(), q, s, k - 1);
      hide PieceOk, Tracked.Len, Tracked.End;
      SentPopped(ts[1..], p + ts[0].Len(), q, s, k - 1, e);
    }
  }

  lemma {:induction false} SpanGrows(ts: seq<Tracked>, p: int, q: int, s: Stream, k: nat)
    requires Chain(ts, p, q, s) && k <= |ts|
    ensures p <= SpanOf(ts[..k], p)
  {
    hide Wrap;
    if k > 0 {
      PieceLen(ts[0], p, s);
      assert ts[..k][1..] == ts[1..][..k - 1];
      SpanGrows(ts[1..], p + ts[0].Len(), q, s, k - 1);
    }
  }

  lemma SentTrimmed(rest: seq<Tracked>, trimmed: seq<Tracked>, b: int, a: int, e: int)
    requires if rest == [] then trimmed == []
             else trimmed != [] && trimmed[1..] == rest[1..] && trimmed[0].transmissions == rest[0].transmissions
                  && a + trimmed[0].Len() == b + rest[0].Len()
    ensures SentFor(trimmed, a, e) == SentFor(rest, b, e)
  {
    hide Tracked.Len;
  }

  // ---------------------------------------------------------------- the sender's operations

  /** Each segment put on the wire is paid for by what is recorded for its end. */
  predicate Pays(out: seq<Tracked>, a: int, tx: Tx, u: int, tx': Tx, u': int, e: int, limit: nat) {
    Ending(out, a, e) + Spent(tx, u, e, limit) <= Spent(tx', u', e, limit)
  }

  lemma BudgetOf(tx: Tx, s: Stream, u: int)
    requires TxOk(tx, s, u)
    ensures Chain(tx.unacked, u, NxtPos(tx, u), s) && NxtPos(tx, u) <= u + MAX_SPAN && tx.una == Wrap(u)
    ensures forall t :: t in tx.unacked ==> t.transmissions <= Max(1, tx.maxTransmissions)
  {
    hide Chain, Wrap, KarnOk;
  }

  lemma AcknowledgePays(tx: Tx, s: Stream, u: int, a: int, now: u64, e: int)
    requires TxOk(tx, s, u) && u < a <= NxtPos(tx, u)
    ensures Pays([], u, tx, u, Acknowledge(tx, Wrap(a), now).tx, a, e, Max(1, tx.maxTransmissions))
  {
    BudgetOf(tx, s, u);
    hide TxOk, Wrap, Add, TrimFront, TrimCount, AckedCount, PayloadIn, HasFin, LastSample, SpanOf, Before, SentFor;
    hide Chain;
    var n := NxtPos(tx, u);
    var k := AckedCount(tx.unacked, Wrap(a));
    var b := PoppedPrefix(tx.unacked, u, n, s, a);
    var rest := tx.unacked[k..];
    ChainOrder(tx.unacked, u, n, s);
    ChainOrder(rest, b, n, s);
    TrimmedFront(rest, b, n, s, a);
    SentBound(tx.unacked, u, n, s, e, Max(1, tx.maxTransmissions));
    if e > a {
      SentPopped(tx.unacked, u, n, s, k, e);
      SentTrimmed(rest, TrimFront(rest, Wrap(a)), b, a, e);
    }
  }

  lemma RetransmitPays(tx: Tx, s: Stream, u: int, now: u64, timeout: bool, a: int, e: int)
    requires TxOk(tx, s, u) && tx.maxTransmissions <= 255 && -0x4000_0000 < u - a < 0x4000_0000
    ensures var r := RetransmitOldest(tx, now, timeout); Pays(r.out, a, tx, u, r.tx, u, e, Max(1, tx.maxTransmissions))
  {
    BudgetOf(tx, s, u);
    hide TxOk, Wrap, PieceOk, EndAt, Tracked.Len, Tracked.End, SentFor, Ending, Chain;
    var r := RetransmitOldest(tx, now, timeout);
    NoneEnding(a, e);
    if r.out != [] {
      var t := tx.unacked[0];
      FrontPiece(tx.unacked, u, NxtPos(tx, u), s);
      SameLen(r.out[0], t);
      EndAtPiece(r.out[0], u, s, a) by { hide *; SamePiece(t, r.out[0], u, s); }
      OneEnding(r.out[0], a, e);
      assert r.out == [r.out[0]] && r.tx.unacked[1..] == tx.unacked[1..];
      SentCons(tx.unacked, u, e);
      SentCons(r.tx.unacked, u, e);
    }
  }

  lemma SamePiece(t: Tracked, t': Tracked, p: int, s: Stream)
    requires PieceOk(t, p, s) && t'.seqNo == t.seqNo && t'.flags == t.flags && t'.payload == t.payload
    ensures PieceOk(t', p, s)
  {
    hide Wrap;
  }

  lemma FrontPiece(ts: seq<Tracked>, p: int, q: int, s: Stream)
    requires Chain(ts, p, q, s) && ts != []
    ensures PieceOk(ts[0], p, s) && ts[0].Len() >= 1
  {
    hide Wrap;
    PieceLen(ts[0], p, s);
  }

  lemma SentCons(ts: seq<Tracked>, p: int, e: int)
    requires ts != []
    ensures SentFor(ts, p, e) == (if e == p + ts[0].Len() then ts[0].transmissions else 0)
      + SentFor(ts[1..], p + ts[0].Len(), e)
  {
  }

  lemma OneEnding(t: Tracked, a: int, e: int)
    ensures Ending([t], a, e) == Bit(EndAt(t, a) == e)
  {
    assert [t][1..] == [];
  }

  lemma NoneEnding(a: int, e: int)
    ensures Ending([], a, e) == 0
  {
  }

  lemma SameLen(t: Tracked, t': Tracked)
    requires t.payload == t'.payload && t.flags == t'.flags
    ensures t.Len() == t'.Len()
  {
  }

  /** Without output and with the same queue nothing is spent. */
  lemma IdlePays(tx: Tx, u: int, tx': Tx, a: int, e: int, limit: nat)
    requires tx'.unacked == tx.unacked
    ensures Pays([], a, tx, u, tx', u, e, limit)
  {
  }

  lemma {:induction false} EndingJoin(x: seq<Tracked>, y: seq<Tracked>, a: int, e: int)
    ensures Ending(x + y, a, e) == Ending(x, a, e) + Ending(y, a, e)
  {
    hide EndAt;
    if x == [] {
      assert x + y == y;
    } else {
      EndingJoin(x[1..], y, a, e);
      assert (x + y)[1..] == x[1..] + y;
    }
  }

  lemma PaysTrans(
      x: seq<Tracked>, y: seq<Tracked>, a: int, tx: Tx, u: int, tx1: Tx, u1: int, tx2: Tx, u2: int, e: int, limit: nat)
    requires Pays(x, a, tx, u, tx1, u1, e, limit) && Pays(y, a, tx1, u1, tx2, u2, e, limit)
    ensures Pays(x + y, a, tx, u, tx2, u2, e, limit)
  {
    hide Ending, Spent;
    EndingJoin(x, y, a, e);
  }

  /** A fresh segment at `nxt` is recorded with its first transmission. */
  lemma AppendPays(tx: Tx, s: Stream, u: int, t: Tracked, tx': Tx, s': Stream, a: int, e: int)
    requires TxOk(tx, s, u) && PieceOk(t, NxtPos(tx, u), s') && t.transmissions == 1
    requires tx'.unacked == tx.unacked + [t] && -0x4000_0000 < u - a < 0x4000_0000
    ensures Pays([t], a, tx, u, tx', u, e, Max(1, tx.maxTransmissions))
  {
    BudgetOf(tx, s, u);
    hide TxOk, Wrap, PieceOk, EndAt, Tracked.Len, Tracked.End, SentFor, Ending, Chain;
    var n := NxtPos(tx, u);
    PieceLen(t, n, s') by { hide *; }
    ChainOrder(tx.unacked, u, n, s);
    EndAtPiece(t, n, s', a);
    OneEnding(t, a, e);
    SentAppend(tx.unacked, u, n, s, t, e);
  }

  lemma SendNextPays(tx: Tx, s: Stream, u: int, now: u64, a: int, e: int)
    requires TxOk(tx, s, u) && Room(tx) > 0 && tx.queue != [] && -0x4000_0000 < u - a < 0x4000_0000
    ensures Pays([Fresh(tx, DATA_FLAGS, tx.queue[..NextSize(tx)], now)], a, tx, u, SendNext(tx, now), u, e,
                 Max(1, tx.maxTransmissions))
  {
    SendNextPiece(tx, s, u, now);
    hide TxOk, PieceOk, NxtPos, Pays;
    AppendPays(tx, s, u, Fresh(tx, DATA_FLAGS, tx.queue[..NextSize(tx)], now), SendNext(tx, now), s, a, e);
  }

  lemma SendNextPiece(tx: Tx, s: Stream, u: int, now: u64)
    requires TxOk(tx, s, u) && Room(tx) > 0 && tx.queue != []
    ensures PieceOk(Fresh(tx, DATA_FLAGS, tx.queue[..NextSize(tx)], now), NxtPos(tx, u), s)
  {
    hide KarnOk, Off, Add, Chain, ControlOk, BudgetOk, RecoveryOk;
    NxtWraps(tx, u);
  }

  lemma {:induction false} FlushQueuePays(tx: Tx, s: Stream, u: int, now: u64, a: int, e: int)
    requires TxOk(tx, s, u) && -0x4000_0000 < u - a < 0x4000_0000
    ensures Pays(FlushQueue(tx, now).out, a, tx, u, FlushQueue(tx, now).tx, u, e, Max(1, tx.maxTransmissions))
    decreases |tx.queue|
  {
    hide TxOk, Wrap, NxtPos, PacketOk, SendNext, Pays;
    if Room(tx) == 0 || tx.queue == [] {
      IdlePays(tx, u, tx, a, e, Max(1, tx.maxTransmissions));
    } else {
      var next := SendNext(tx, now);
      SendNextKeeps(tx, s, u, now);
      SendNextPays(tx, s, u, now, a, e);
      FlushQueuePays(next, s, u, now, a, e);
      PaysTrans([Fresh(tx, DATA_FLAGS, tx.queue[..NextSize(tx)], now)], FlushQueue(next, now).out, a, tx, u, next, u,
                FlushQueue(next, now).tx, u, e, Max(1, tx.maxTransmissions));
    }
  }

  lemma FinPays(tx: Tx, s: Stream, u: int, now: u64, a: int, e: int)
    requires TxOk(tx, s, u) && (tx.closeRequested ==> !s.ended) && -0x4000_0000 < u - a < 0x4000_0000
    ensures Pays(FlushFin(tx, now).out, a, tx, u, FlushFin(tx, now).tx, u, e, Max(1, tx.maxTransmissions))
  {
    IdlePays(tx, u, tx, a, e, Max(1, tx.maxTransmissions));
    if tx.closeRequested && tx.queue == [] && Room(tx) > 0 {
      FinPiece(tx, s, u, now);
      hide TxOk, PieceOk, NxtPos, Pays, Room;
      AppendPays(tx, s, u, Fresh(tx, FIN_FLAGS, [], now), FlushFin(tx, now).tx, Ended(s, true), a, e);
    }
  }

  lemma FinPiece(tx: Tx, s: Stream, u: int, now: u64)
    requires TxOk(tx, s, u) && !s.ended && tx.queue == []
    ensures PieceOk(Fresh(tx, FIN_FLAGS, [], now), NxtPos(tx, u), Ended(s, true))
  {
    hide KarnOk, Off, Add, Chain, ControlOk, BudgetOk, RecoveryOk;
    NxtWraps(tx, u);
  }

  lemma FlushPays(tx: Tx, s: Stream, u: int, now: u64, a: int, e: int)
    requires TxOk(tx, s, u) && (tx.closeRequested ==> !s.ended) && -0x4000_0000 < u - a < 0x4000_0000
    ensures Pays(Flush(tx, now).out, a, tx, u, Flush(tx, now).tx, u, e, Max(1, tx.maxTransmissions))
  {
    hide TxOk, Wrap, NxtPos, PacketOk, FlushQueue, FlushFin, Pays;
    var data := FlushQueue(tx, now);
    FlushQueueKeeps(tx, s, u, now);
    FlushQueuePays(tx, s, u, now, a, e);
    FinPays(data.tx, s, u, now, a, e);
    PaysTrans(data.out, FlushFin(data.tx, now).out, a, tx, u, data.tx, u, FlushFin(data.tx, now).tx, u, e,
              Max(1, tx.maxTransmissions));
  }

  /** Any ACK number: only its own fast retransmission is sent, and it is paid for. */
  lemma ApplyAckPays(tx: Tx, s: Stream, u: int, ack: u32, now: u64, candidate: bool, e: int)
    requires TxOk(tx, s, u)
    ensures var o := ApplyAck(tx, ack, now, candidate);
            Pays(o.resent, u, tx, u, o.tx, u + AckStep(tx, ack), e, Max(1, tx.maxTransmissions))
  {
    hide TxOk, Acceptable, QueuesOk, DuplicateAck, Acknowledge, Pays, NxtPos, Distance, Wrap, Stream.Count;
    UnaWraps(tx, s, u);
    IdlePays(tx, u, tx, u, e, Max(1, tx.maxTransmissions));
    if Acceptable(tx, ack) {
      AckWithin(tx, s, u, ack);
      if ack == tx.una {
        DuplicatePays(tx, s, u, now, candidate, e);
      } else {
        AcknowledgePays(tx, s, u, u + Distance(tx.una, ack), now, e);
        NothingResent(tx, ack, now);
      }
    }
  }

  lemma DuplicatePays(tx: Tx, s: Stream, u: int, now: u64, candidate: bool, e: int)
    requires TxOk(tx, s, u)
    ensures var o := DuplicateAck(tx, now, candidate); Pays(o.resent, u, tx, u, o.tx, u, e, Max(1, tx.maxTransmissions))
  {
    hide TxOk, NxtPos, RetransmitOldest, RenoState.OnFastLoss, RenoState.OnDuplicateAck, RenoOk, PacketOk, Pays;
    var limit := Max(1, tx.maxTransmissions);
    var counted := tx.(duplicateAcks := Min(tx.duplicateAcks + 1, 255), reno := tx.reno.OnDuplicateAck());
    var lost := counted.(reno := counted.reno.OnFastLoss(InFlight(counted)));
    RenoHolds(tx, s, u);
    DuplicateReno(tx.reno, InFlight(tx));
    NewReno(tx, s, u, lost.reno, lost.duplicateAcks);
    IdlePays(tx, u, tx.(duplicateAcks := 0), u, e, limit);
    IdlePays(tx, u, counted, u, e, limit);
    IdlePays(tx, u, lost, u, e, limit);
    RetransmitPays(lost, s, u, now, false, u, e);
    var r := RetransmitOldest(lost, now, false);
    PaysTrans([], r.out, u, tx, u, lost, u, r.tx, u, e, limit);
    assert [] + RetransmitOldest(lost, now, false).out == RetransmitOldest(lost, now, false).out;
  }

  lemma RepairPays(tx: Tx, s: Stream, u: int, now: u64, cfg: Config, a: int, e: int)
    requires TxOk(tx, s, u) && -0x4000_0000 < u - a < 0x4000_0000
    ensures var r := Repair(tx, now, cfg); Pays(r.out, a, tx, u, r.tx, u, e, Max(1, tx.maxTransmissions))
  {
    hide TxOk, RetransmitOldest, Pays;
    IdlePays(tx, u, tx, a, e, Max(1, tx.maxTransmissions));
    RetransmitPays(tx, s, u, now, false, a, e);
  }

  lemma TimeoutPays(tx: Tx, s: Stream, u: int, now: u64, cfg: Config, e: int)
    requires TxOk(tx, s, u)
    ensures var r := PollRetransmit(tx, now, cfg); Pays(r.out, u, tx, u, r.tx, u, e, Max(1, tx.maxTransmissions))
  {
    var limit := Max(1, tx.maxTransmissions);
    IdlePays(tx, u, tx, u, e, limit);
    if tx.unacked != [] {
      BackOffKeeps(tx, s, u);
      hide TxOk, NxtPos, RetransmitOldest, Pays;
      IdlePays(tx, u, BackedOff(tx), u, e, limit);
      RetransmitPays(BackedOff(tx), s, u, now, true, u, e);
      var r := RetransmitOldest(BackedOff(tx), now, true);
      PaysTrans([], r.out, u, tx, u, BackedOff(tx), u, r.tx, u, e, limit);
      assert [] + r.out == r.out;
    }
  }

  /** Probes spend nothing of this budget, and a probed fresh byte starts with what it has. */
  lemma ProbePays(tx: Tx, s: Stream, u: int, now: u64, cfg: Config, e: int)
    requires TxOk(tx, s, u)
    ensures Pays([], u, tx, u, PollZeroWindow(tx, now, cfg).tx, u, e, Max(1, tx.maxTransmissions))
  {
    hide TxOk, SentFor, PollZeroWindow, Probe, Ending;
    ProbeQueue(tx, now, cfg);
    ProbedQueue(tx, s, u, now, e);
    NoneEnding(u, e);
  }

  lemma ProbeQueue(tx: Tx, now: u64, cfg: Config)
    ensures var q := PollZeroWindow(tx, now, cfg).tx.unacked; q == tx.unacked || q == Probe(tx, now).tx.unacked
  {
    hide ProbeDelay, FirstPayload;
  }

  lemma ProbedQueue(tx: Tx, s: Stream, u: int, now: u64, e: int)
    requires TxOk(tx, s, u)
    ensures SentFor(tx.unacked, u, e) <= SentFor(Probe(tx, now).tx.unacked, u, e)
  {
    BudgetOf(tx, s, u);
    hide TxOk, Wrap, SentFor, Chain, NxtPos, PieceOk;
    match FirstPayload(tx.unacked)
    case Some(i) => SentUpdated(tx.unacked, u, i, tx.unacked[i].(sends := tx.unacked[i].sends + 1), e);
    case None =>
      if tx.queue != [] {
        SentAppend(tx.unacked, u, NxtPos(tx, u), s, Fresh(tx, DATA_FLAGS, [tx.queue[0]], now), e);
      }
  }

  lemma {:induction false} SentUpdated(ts: seq<Tracked>, p: int, i: nat, t: Tracked, e: int)
    requires i < |ts| && t.Len() == ts[i].Len() && t.transmissions == ts[i].transmissions
    ensures SentFor(ts[i := t], p, e) == SentFor(ts, p, e)
  {
    if i == 0 {
      assert ts[0 := t][1..] == ts[1..];
    } else {
      assert ts[i := t][1..] == ts[1..][i - 1 := t];
      SentUpdated(ts[1..], p + ts[0].Len(), i - 1, t, e);
    }
  }

  // ---------------------------------------------------------------- a connection's operations

  lemma {:induction false} WireJoin(x: seq<Segment>, y: seq<Segment>, a: int, e: int)
    ensures OnWireEnding(x + y, a, e) == OnWireEnding(x, a, e) + OnWireEnding(y, a, e)
  {
    hide Off, Wrap, SequenceLen;
    if x == [] {
      assert x + y == y;
    } else {
      WireJoin(x[1..], y, a, e);
      assert (x + y)[1..] == x[1..] + y;
    }
  }

  lemma {:induction false} WireOfTracked(c: Conn, ts: seq<Tracked>, a: int, e: int)
    ensures OnWireEnding(SegmentsFor(c, ts), a, e) <= Ending(ts, a, e)
  {
    hide Off, Wrap, WindowField;
    if ts != [] {
      WireOfTracked(c, ts[1..], a, e);
      assert SegmentsFor(c, ts)[1..] == SegmentsFor(c, ts[1..]);
      assert SequenceLen(SegmentFor(c, ts[0])) == ts[0].Len();
    }
  }

  /** A segment without sequence space, or a reset, counts nowhere. */
  lemma WireSilent(g: Segment, a: int, e: int)
    requires g.flags.rst || SequenceLen(g) == 0
    ensures OnWireEnding([g], a, e) == 0 && OnWireEnding([], a, e) == 0
  {
    hide Off, Wrap;
    assert [g][1..] == [];
  }

  lemma AckSilent(c: Conn, a: int, e: int)
    ensures OnWireEnding([AckSegment(c)], a, e) == 0 && OnWireEnding([], a, e) == 0
  {
    hide WindowField;
    WireSilent(AckSegment(c), a, e);
  }

  /** Every segment an update puts on the wire, ending at `e`, is paid for. */
  predicate Funds(c: Conn, u: int, r: Update, u': int, a: int, e: int, limit: nat) {
    OnWireEnding(r.segments, a, e) + Spent(c.tx, u, e, limit) <= Spent(r.conn.tx, u', e, limit)
  }

  lemma FlushFunds(c: Conn, now: u64, cfg: Config, s: Stream, a: int, e: int)
    requires CoreOk(c, cfg, s) && Synchronized(c.state) && -0x4000_0000 < UnaPos(c, s) - a < 0x4000_0000
    ensures Funds(c, UnaPos(c, s), FlushData(c, now), UnaPos(c, s), a, e, Max(1, cfg.maxRetransmissions))
  {
    CoreFacts(c, cfg, s);
    AckSilent(c, a, e);
    hide CoreOk, Flush, OnWireEnding, Ending, Spent, SegmentsFor, UnaPos;
    if MaySend(c.state) {
      FlushPays(c.tx, s, UnaPos(c, s), now, a, e);
      WireOfTracked(c, Flush(c.tx, now).out, a, e);
    }
  }

  /** The tail of segment processing adds an ACK and fresh segments. */
  lemma FinishFunds(c: Conn, output: seq<Segment>, g: Segment, now: u64, cfg: Config, s: Stream, a: int, e: int)
    requires CoreOk(c, cfg, s) && Synchronized(c.state) && -0x4000_0000 < UnaPos(c, s) - a < 0x4000_0000
    ensures var r := FinishSegment(c, output, g, now, cfg); var limit := Max(1, cfg.maxRetransmissions);
            OnWireEnding(r.segments, a, e) + Spent(c.tx, UnaPos(c, s), e, limit)
            <= OnWireEnding(output, a, e) + Spent(r.conn.tx, UnaPos(c, s), e, limit)
  {
    hide CoreOk, FlushData, OnWireEnding, Spent, UnaPos, AckSegment, Receive;
    var data := g.payload != [] || g.flags.fin;
    var c' := if data then ReceiveData(c, g, now, cfg) else c;
    if data { ReceiveDataKeeps(c, g, now, cfg, s); }
    hide ReceiveData;
    FlushFunds(c', now, cfg, s, a, e);
    AckSilent(c', a, e);
    var acks := if data then [AckSegment(c')] else [];
    WireJoin(output, acks, a, e);
    WireJoin(output + acks, FlushData(c', now).segments, a, e);
  }

  lemma AckPartFunds(c: Conn, ack: u32, g: Segment, now: u64, cfg: Config, s: Stream, e: int)
    requires CoreOk(c, cfg, s) && Synchronized(c.state)
    ensures var r := AckPart(c, ack, g, now, cfg);
            !r.closed ==>
              Funds(c, UnaPos(c, s), r, UnaAfter(c, ack, s), UnaPos(c, s), e, Max(1, cfg.maxRetransmissions))
  {
    hide CoreOk, Funds, Pays, SegmentsFor, UnaPos, AckedTx, RepairedTx, TxOk, AckStep, AckPart;
    CoreFacts(c, cfg, s);
    CoreFacts(c, cfg, s);
    AckPartShape(c, ack, g, now, cfg);
    AckedPays(c.tx, s, UnaPos(c, s), ack, g, now, cfg, e);
    var r := AckPart(c, ack, g, now, cfg);
    if !r.closed {
      FundsFromPays(c, r, AckedTx(c.tx, ack, g, now).resent, RepairedTx(c.tx, ack, g, now, cfg).out, UnaPos(c, s),
                    UnaAfter(c, ack, s), e, Max(1, cfg.maxRetransmissions));
    }
  }

  lemma FundsFromPays(c: Conn, r: Update, x: seq<Tracked>, y: seq<Tracked>, u: int, u': int, e: int, limit: nat)
    requires r.segments == SegmentsFor(c, x) + SegmentsFor(c, y) && Pays(x + y, u, c.tx, u, r.conn.tx, u', e, limit)
    ensures Funds(c, u, r, u', u, e, limit)
  {
    hide OnWireEnding, Ending, Spent, SegmentsFor;
    WireOfTracked(c, x, u, e);
    WireOfTracked(c, y, u, e);
    EndingJoin(x, y, u, e);
    WireJoin(SegmentsFor(c, x), SegmentsFor(c, y), u, e);
  }

  lemma AckPartShape(c: Conn, ack: u32, g: Segment, now: u64, cfg: Config)
    ensures var r := AckPart(c, ack, g, now, cfg);
            !r.closed ==>
              && r.conn.tx == RepairedTx(c.tx, ack, g, now, cfg).tx
              && r.segments
                 == SegmentsFor(c, AckedTx(c.tx, ack, g, now).resent)
                   + SegmentsFor(c, RepairedTx(c.tx, ack, g, now, cfg).out)
  {
    hide AckedTx, RepairedTx, SegmentsFor;
  }

  lemma AckedPays(tx: Tx, s: Stream, u: int, ack: u32, g: Segment, now: u64, cfg: Config, e: int)
    requires TxOk(tx, s, u) && (tx.window == 0 <==> tx.probeAt.Some?)
    ensures var o := AckedTx(tx, ack, g, now); var r := RepairedTx(tx, ack, g, now, cfg);
            Pays(o.resent + r.out, u, tx, u, r.tx, u + AckStep(tx, ack), e, Max(1, tx.maxTransmissions))
  {
    hide TxOk, NxtPos, ApplyAck, InClosedInterval, SequenceSpace.After, Repair, AckStep, Pays, IsDuplicateAckCandidate;
    var limit := Max(1, tx.maxTransmissions);
    var candidate := IsDuplicateAckCandidate(g, tx.una, tx.window);
    var o := AckedTx(tx, ack, g, now);
    var a := u + AckStep(tx, ack);
    ApplyAckKeeps(tx, s, u, ack, now, candidate);
    ApplyAckFields(tx, ack, now, candidate);
    ApplyAckPays(tx, s, u, ack, now, candidate, e);
    UnaWraps(tx, s, u);
    var tx1 := if InClosedInterval(ack, o.tx.una, o.tx.nxt) then UpdateWindow(o.tx, g.window, now) else o.tx;
    TimersAreIndependent(o.tx, s, a, tx1);
    IdlePays(o.tx, a, tx1, u, e, limit);
    RepairPays(tx1, s, a, now, cfg, u, e);
    IdlePays(tx1, a, tx1, u, e, limit);
    var r := RepairedTx(tx, ack, g, now, cfg);
    PaysTrans([], r.out, u, o.tx, a, tx1, a, r.tx, a, e, limit);
    assert [] + r.out == r.out;
    PaysTrans(o.resent, r.out, u, tx, u, o.tx, a, r.tx, a, e, limit);
  }

  /** An input of any kind pays for what it sends, from the acknowledged position before to that after. */
  lemma InputFunds(c: Conn, g: Segment, now: u64, cfg: Config, s: Stream, e: int)
    requires ConnOk(c, cfg, s) && g.srcPort != 0 && g.dstPort != 0
    ensures var r := Input(c, g, now, cfg); var u := UnaPos(c, s);
            !r.closed ==> Funds(c, u, r, UnaPos(r.conn, StreamIn(r.conn, s)), u, e, Max(1, cfg.maxRetransmissions))
  {
    hide ConnOk, CoreOk, OnWireEnding, UnaPos, AckSegment, OnSynSent, OnSynReceived, OnSynchronized, ResetReply;
    hide StreamIn;
    hide StaleHandshakeAck, UnexpectedSyn, OnReset, Funds;
    ConnFacts(c, cfg, s);
    CoreFacts(c, cfg, s);
    var u, limit := UnaPos(c, s), Max(1, cfg.maxRetransmissions);
    if StaleHandshakeAck(c, g) {
      WireSilent(ResetReply(g), u, e) by { hide *; ResetReplySendable(g); }
      IdleFunds(c, [ResetReply(g)], u, e, limit);
    } else if UnexpectedSyn(c, g) {
      AckSilent(c, u, e);
      IdleFunds(c, [AckSegment(c)], u, e, limit);
    } else if g.flags.rst {
      OnResetShape(c, g);
      AckSilent(c, u, e);
      IdleFunds(c, [AckSegment(c)], u, e, limit);
      IdleFunds(c, [], u, e, limit);
    } else if c.state == SynSent {
      SynSentFunds(c, g, now, cfg, s, e);
    } else if c.state == SynReceived {
      SynReceivedFunds(c, g, now, cfg, s, e);
    } else {
      NotSyn(c, g);
      SynchronizedFunds(c, g, now, cfg, s, e);
    }
  }

  lemma OnResetShape(c: Conn, g: Segment)
    ensures var r := OnReset(c, g); !r.closed ==> r == Open(c, []) || r == Open(c, [AckSegment(c)])
  {
    hide AckSegment, AvailableWindow, Distance, SequenceSpace.After;
  }

  lemma NotSyn(c: Conn, g: Segment)
    requires !UnexpectedSyn(c, g) && Synchronized(c.state) && !g.flags.rst
    ensures !g.flags.syn
  {
  }

  lemma IdleFunds(c: Conn, out: seq<Segment>, u: int, e: int, limit: nat)
    requires OnWireEnding(out, u, e) == 0
    ensures Funds(c, u, Open(c, out), u, u, e, limit)
  {
    hide OnWireEnding, Spent;
  }

  /** The handshake ACK acknowledges the SYN. */
  lemma HandshakePays(tx: Tx, s: Stream, now: u64, e: int)
    requires TxOk(tx, s, s.base - 1) && InFlight(tx) == 1 && s.bytes == [] && !s.ended
    ensures var o := ApplyAck(tx, tx.nxt, now, false);
            Pays([], s.base - 1, tx, s.base - 1, o.tx, s.base, e, Max(1, tx.maxTransmissions))
  {
    TxFacts(tx, s, s.base - 1);
    AckAcceptance(tx, s, s.base - 1, tx.nxt) by { UnaWraps(tx, s, s.base - 1); }
    AcknowledgePays(tx, s, s.base - 1, s.base, now, e);
    AckDistinct(tx, s);
    hide TxOk, Acceptable, Acknowledge, Pays, Wrap, Chain;
    assert ApplyAck(tx, tx.nxt, now, false) == Acknowledge(tx, tx.nxt, now);
  }

  lemma AckDistinct(tx: Tx, s: Stream)
    requires InFlight(tx) == 1
    ensures tx.nxt != tx.una
  {
  }

  lemma SynSentFunds(c: Conn, g: Segment, now: u64, cfg: Config, s: Stream, e: int)
    requires ConnOk(c, cfg, s) && c.state == SynSent && !g.flags.rst
    ensures var r := OnSynSent(c, g, now, cfg); var u := UnaPos(c, s);
            Funds(c, u, r, UnaPos(r.conn, StreamIn(r.conn, s)), u, e, Max(1, cfg.maxRetransmissions))
  {
    ConnFacts(c, cfg, s);
    CoreFacts(c, cfg, s);
    CoreFacts(c, cfg, s);
    UnaInHandshake(c, cfg, s);
    NegotiatedSender(c, g, now, cfg, s);
    var tx := NegotiateMss(UpdateWindow(c.tx, g.window, now), g, cfg);
    HandshakePays(tx, s, now, e);
    HandshakeAck(c, cfg, s, tx, now);
    NegotiatedQueue(c.tx, g, now, cfg);
    AckSilent(c, UnaPos(c, s), e);
    var r := OnSynSent(c, g, now, cfg);
    AckSilent(r.conn, UnaPos(c, s), e);
    hide ConnOk, CoreOk, TxOk, OnWireEnding, AckSegment, ApplyAck, NegotiateMss, UpdateWindow, Ending, SentFor;
    hide SupportsFipsVersion;
    hide Acceptable, Distance, Add;
    NoneEnding(s.base - 1, e);
  }

  lemma NegotiatedQueue(tx: Tx, g: Segment, now: u64, cfg: Config)
    ensures NegotiateMss(UpdateWindow(tx, g.window, now), g, cfg).unacked == tx.unacked
  {
  }

  lemma SynReceivedFunds(c: Conn, g: Segment, now: u64, cfg: Config, s: Stream, e: int)
    requires ConnOk(c, cfg, s) && c.state == SynReceived && !g.flags.rst
    ensures var r := OnSynReceived(c, g, now, cfg); var u := UnaPos(c, s);
            Funds(c, u, r, UnaPos(r.conn, StreamIn(r.conn, s)), u, e, Max(1, cfg.maxRetransmissions))
  {
    ConnFacts(c, cfg, s);
    CoreFacts(c, cfg, s);
    CoreFacts(c, cfg, s);
    AckSilent(c, UnaPos(c, s), e);
    hide ConnOk, CoreOk, TxOk, OnWireEnding, RetransmitOldest, FinishSegment, ApplyAck, UnaPos, Add, Spent, Ending;
    hide StreamIn;
    if g.flags.syn && !g.flags.ack && Add(g.seqNo, 1) == c.rx.nxt {
      var r := RetransmitOldest(c.tx, now, false);
      RetransmitPays(c.tx, s, UnaPos(c, s), now, false, UnaPos(c, s), e);
      WireOfTracked(c, r.out, UnaPos(c, s), e);
      RetransmitUna(c, now, s);
    } else if g.ack == Some(c.tx.nxt) {
      EstablishFunds(c, g, now, cfg, s, e);
    }
  }

  lemma EstablishFunds(c: Conn, g: Segment, now: u64, cfg: Config, s: Stream, e: int)
    requires ConnOk(c, cfg, s) && c.state == SynReceived && !g.flags.rst && g.ack == Some(c.tx.nxt)
    requires !(g.flags.syn && !g.flags.ack && Add(g.seqNo, 1) == c.rx.nxt)
    ensures var r := OnSynReceived(c, g, now, cfg); var u := UnaPos(c, s);
            Funds(c, u, r, UnaPos(r.conn, StreamIn(r.conn, s)), u, e, Max(1, cfg.maxRetransmissions))
  {
    ConnFacts(c, cfg, s);
    CoreFacts(c, cfg, s);
    UnaInHandshake(c, cfg, s);
    HandshakePays(c.tx, s, now, e);
    EstablishedCore(c, g, now, cfg, s);
    AckSilent(c, UnaPos(c, s), e);
    hide ConnOk, CoreOk, TxOk, OnWireEnding, FinishSegment, ApplyAck, UnaPos, Add, Ending, SentFor, StreamIn;
    hide UpdateWindow;
    hide InFlight, Acceptable, Distance;
    var o := ApplyAck(c.tx, c.tx.nxt, now, false);
    var c' := c.(tx := UpdateWindow(o.tx, g.window, now), state := Established);
    WindowQueue(o.tx, g.window, now);
    FinishFunds(c', [], g, now, cfg, s, UnaPos(c, s), e);
    EmptyOutput(c, c', s, UnaPos(c, s), SndPos(c', s));
    EmptyOutput(c', c', s, UnaPos(c', s), SndPos(c', s));
    FinishSegmentKeeps(c', c', [], g, now, cfg, s, UnaPos(c', s));
    NoneEnding(s.base - 1, e);
  }

  lemma WindowQueue(tx: Tx, window: u16, now: u64)
    ensures UpdateWindow(tx, window, now).unacked == tx.unacked
  {
  }

  lemma SynchronizedFunds(c: Conn, g: Segment, now: u64, cfg: Config, s: Stream, e: int)
    requires ConnOk(c, cfg, s) && Synchronized(c.state) && !g.flags.rst && !g.flags.syn
    ensures var r := OnSynchronized(c, g, now, cfg); var u := UnaPos(c, s);
            !r.closed ==> Funds(c, u, r, UnaPos(r.conn, StreamIn(r.conn, s)), u, e, Max(1, cfg.maxRetransmissions))
  {
    ConnFacts(c, cfg, s);
    hide ConnOk, CoreOk, TxOk, OnWireEnding, FinishSegment, UnaPos, Spent, StreamIn, AckPart, AckStep, SndPos;
    var u := UnaPos(c, s);
    AckSilent(c, u, e);
    if g.ack == None {
      EmptyOutput(c, c, s, u, SndPos(c, s));
      FinishSegmentKeeps(c, c, [], g, now, cfg, s, u);
      FinishFunds(c, [], g, now, cfg, s, u, e);
    } else {
      var ack := g.ack.value;
      var part := AckPart(c, ack, g, now, cfg);
      AckPartKeeps(c, ack, g, now, cfg, s);
      AckPartFunds(c, ack, g, now, cfg, s, e);
      if !part.closed {
        UnaMoves(c, ack, cfg, s);
        FinishSegmentKeeps(c, part.conn, part.segments, g, now, cfg, s, u);
        FinishFunds(part.conn, part.segments, g, now, cfg, s, u, e);
      }
    }
  }

  lemma UnaMoves(c: Conn, ack: u32, cfg: Config, s: Stream)
    requires CoreOk(c, cfg, s)
    ensures UnaPos(c, s) <= UnaAfter(c, ack, s) <= UnaPos(c, s) + MAX_SPAN
  {
    CoreFacts(c, cfg, s);
    ApplyAckKeeps(c.tx, s, UnaPos(c, s), ack, 0, false);
    BudgetOf(c.tx, s, UnaPos(c, s));
    hide CoreOk, TxOk, UnaPos, AckStep, ApplyAck;
  }

  // ---------------------------------------------------------------- whole lives

  /** What an operation puts on the wire. */
  function Output(l: Life, op: Op, cfg: Config): seq<Segment> {
    if l.closed then []
    else match op
      case Arrive(bytes, now) => if Decode(bytes).Ok? then Input(l.conn, Decode(bytes).value, now, cfg).segments else []
      case Put(data, now) => if MayWrite(l.conn) then Write(l.conn, data, now, cfg).value.segments else []
      case Get(max) => Read(l.conn, max).segments
      case Shut(now) => Close(l.conn, now).segments
      case Tick(now) => Poll(l.conn, now, cfg).segments
  }

  predicate Probing(l: Life, op: Op) {
    op.Tick? && ZeroWindowWork(l.conn.tx)
  }

  /** The position of `una` in the life's stream. */
  function Acked(l: Life): int {
    UnaPos(l.conn, StreamNow(l))
  }

  /** How often the operations send sequence space that ends at position `e`, probes apart. */
  function FullSends(l: Life, ops: seq<Op>, e: int, cfg: Config): nat
    decreases |ops|
  {
    if ops == [] then 0
    else (if Probing(l, ops[0]) then 0 else OnWireEnding(Output(l, ops[0], cfg), Acked(l), e))
         + FullSends(Perform(l, ops[0], cfg), ops[1..], e, cfg)
  }

  /** An operation pays for what it sends. */
  ghost predicate OpFunds(l: Life, op: Op, e: int, cfg: Config) {
    var l' := Perform(l, op, cfg);
    var limit := Max(1, cfg.maxRetransmissions);
    !l'.closed ==>
      (if Probing(l, op) then 0 else OnWireEnding(Output(l, op, cfg), Acked(l), e))
        + Spent(l.conn.tx, Acked(l), e, limit)
      <= Spent(l'.conn.tx, Acked(l'), e, limit)
  }

  lemma NowIn(l: Life, r: Update, data: seq<byte>)
    ensures var l' := Continue(l, r).(sent := l.sent + data);
            Acked(l') == UnaPos(r.conn, StreamIn(r.conn, StreamNow(l).(bytes := l.sent + data)))
    ensures Acked(Continue(l, r)) == UnaPos(r.conn, StreamIn(r.conn, StreamNow(l)))
  {
  }

  lemma ArriveFunds(l: Life, bytes: seq<byte>, now: u64, e: int, cfg: Config)
    requires LifeOk(l, cfg) && !l.closed
    ensures OpFunds(l, Arrive(bytes, now), e, cfg)
  {
    hide ConnOk, Input, Decode, StreamNow, OnWireEnding, Spent, UnaPos, StreamIn, Acked;
    AckSilent(l.conn, Acked(l), e);
    if Decode(bytes).Ok? {
      var g := Decode(bytes).value;
      DecodedPorts(bytes);
      InputFunds(l.conn, g, now, cfg, StreamNow(l), e);
      NowIn(l, Input(l.conn, g, now, cfg), []);
      AckedIs(l);
    }
  }

  lemma AckedIs(l: Life)
    ensures Acked(l) == UnaPos(l.conn, StreamNow(l))
  {
  }

  /** A flush of the connection as it was, up to fields the queue does not depend on. */
  lemma FlushedFrom(c: Conn, c': Conn, now: u64, cfg: Config, s: Stream, u: int, e: int)
    requires CoreOk(c', cfg, s) && Synchronized(c'.state) && UnaPos(c', s) == u && c'.tx.unacked == c.tx.unacked
    ensures Funds(c, u, FlushData(c', now), u, u, e, Max(1, cfg.maxRetransmissions))
  {
    FlushFunds(c', now, cfg, s, u, e);
    hide CoreOk, OnWireEnding, UnaPos, FlushData, SentFor;
  }

  lemma PutFunds(l: Life, data: seq<byte>, now: u64, e: int, cfg: Config)
    requires LifeOk(l, cfg) && !l.closed
    ensures OpFunds(l, Put(data, now), e, cfg)
  {
    hide ConnOk, CoreOk, StreamNow, OnWireEnding, Spent, UnaPos, StreamIn, Acked, AcceptCount, FlushData;
    AckSilent(l.conn, Acked(l), e);
    if MayWrite(l.conn) {
      var s, accepted := StreamNow(l), data[..AcceptCount(l.conn, data, cfg)];
      ConnFacts(l.conn, cfg, s);
      AcceptedCore(l.conn, accepted, cfg, s);
      var s' := s.(bytes := s.bytes + accepted);
      FlushedFrom(l.conn, Accepting(l.conn, accepted), now, cfg, s', UnaPos(l.conn, s), e);
      FlushDataKeeps(Accepting(l.conn, accepted), now, cfg, s');
      NowShape(l);
      NowIn(l, FlushData(Accepting(l.conn, accepted), now), accepted);
      AckedIs(l);
    }
  }

  lemma GetFunds(l: Life, max: nat, e: int, cfg: Config)
    requires LifeOk(l, cfg) && !l.closed
    ensures OpFunds(l, Get(max), e, cfg)
  {
    hide ConnOk, StreamNow, OnWireEnding, Spent, UnaPos, StreamIn, Acked, ReadCount, AckSegment, AvailableWindow;
    ReadKeeps(l.conn, max, cfg, StreamNow(l));
    var r := Read(l.conn, max);
    AckSilent(r.conn, Acked(l), e);
    AckedIs(l);
    NowIn(l, r, []);
    ReadAcked(l, r);
  }

  lemma ReadAcked(l: Life, r: Update)
    requires r.conn.tx == l.conn.tx && r.conn.state == l.conn.state
    ensures Acked(Continue(l, r)) == Acked(l)
  {
  }

  lemma ShutFunds(l: Life, now: u64, e: int, cfg: Config)
    requires LifeOk(l, cfg) && !l.closed
    ensures OpFunds(l, Shut(now), e, cfg)
  {
    hide ConnOk, CoreOk, StreamNow, OnWireEnding, Spent, UnaPos, StreamIn, Acked, FlushData;
    var c, s := l.conn, StreamNow(l);
    ConnFacts(c, cfg, s);
    AckedIs(l);
    AckSilent(c, Acked(l), e);
    CoreFacts(c, cfg, s);
    NowIn(l, Open(c, []), []);
    if MaySend(c.state) {
      var c' := c.(tx := c.tx.(closeRequested := true));
      ClosingCore(c, cfg, s);
      FlushedFrom(c, c', now, cfg, s, UnaPos(c, s), e);
      FlushDataKeeps(c', now, cfg, s);
      NowIn(l, FlushData(c', now), []);
    }
  }

  lemma ClosingCore(c: Conn, cfg: Config, s: Stream)
    requires CoreOk(c, cfg, s) && MaySend(c.state)
    ensures var c' := c.(tx := c.tx.(closeRequested := true)); CoreOk(c', cfg, s) && UnaPos(c', s) == UnaPos(c, s)
  {
    hide TxOk, RxOk, NxtPos;
    CloseRequestKeeps(c.tx, s, UnaPos(c, s));
  }

  lemma TickFunds(l: Life, now: u64, e: int, cfg: Config)
    requires LifeOk(l, cfg) && !l.closed
    ensures OpFunds(l, Tick(now), e, cfg)
  {
    hide ConnOk, CoreOk, StreamNow, OnWireEnding, UnaPos, StreamIn, Acked, FlushData, PollZeroWindow, PollRetransmit;
    hide ZeroWindowWork, CloseDeadline, SegmentsFor, StepOk, Spent, Ending;
    var c, s := l.conn, StreamNow(l);
    PollKeeps(c, now, cfg, s);
    AckedIs(l);
    NowIn(l, Poll(c, now, cfg), []);
    ConnFacts(c, cfg, s);
    if ZeroWindowWork(c.tx) {
      ProbePays(c.tx, s, UnaPos(c, s), now, cfg, e);
      NoneEnding(UnaPos(c, s), e);
    } else {
      TimeoutFunds(c, now, cfg, s, e);
    }
  }

  lemma TimeoutFunds(c: Conn, now: u64, cfg: Config, s: Stream, e: int)
    requires ConnOk(c, cfg, s)
    ensures var p := PollRetransmit(c.tx, now, cfg); var f := FlushData(c.(tx := p.tx), now); var u := UnaPos(c, s);
            Funds(c, u, Open(f.conn, SegmentsFor(c, p.out) + f.segments), u, u, e, Max(1, cfg.maxRetransmissions))
  {
    hide ConnOk, CoreOk, TxOk, UnaPos, FlushData, PollRetransmit, SegmentsFor, SndPos, PacketsOk, Funds, Pays;
    ConnFacts(c, cfg, s);
    var u, p := UnaPos(c, s), PollRetransmit(c.tx, now, cfg);
    var c' := c.(tx := p.tx);
    TimeoutPays(c.tx, s, u, now, cfg, e);
    RetransmittedCore(c, now, cfg, s);
    if Synchronized(c.state) {
      FlushFunds(c', now, cfg, s, u, e);
    } else {
      NoFlush(c', now);
      AckSilent(c, u, e);
      IdleFunds(c', [], u, e, Max(1, cfg.maxRetransmissions));
    }
    FundsAfterPays(c, p.out, c', FlushData(c', now), u, e, Max(1, cfg.maxRetransmissions));
  }

  lemma FundsAfterPays(c: Conn, out: seq<Tracked>, c': Conn, f: Update, u: int, e: int, limit: nat)
    requires Pays(out, u, c.tx, u, c'.tx, u, e, limit) && Funds(c', u, f, u, u, e, limit)
    ensures Funds(c, u, Open(f.conn, SegmentsFor(c, out) + f.segments), u, u, e, limit)
  {
    hide OnWireEnding, Ending, Spent, SegmentsFor;
    WireOfTracked(c, out, u, e);
    WireJoin(SegmentsFor(c, out), f.segments, u, e);
  }

  lemma SomeOpFunds(l: Life, op: Op, e: int, cfg: Config)
    requires LifeOk(l, cfg) && !l.closed
    ensures OpFunds(l, op, e, cfg)
  {
    hide LifeOk, OpFunds;
    match op
    case Arrive(bytes, now) => ArriveFunds(l, bytes, now, e, cfg);
    case Put(data, now) => PutFunds(l, data, now, e, cfg);
    case Get(max) => GetFunds(l, max, e, cfg);
    case Shut(now) => ShutFunds(l, now, e, cfg);
    case Tick(now) => TickFunds(l, now, e, cfg);
  }

  /** Closing emits nothing, so the last operation costs nothing. */
  lemma ClosingIsSilent(l: Life, op: Op, cfg: Config)
    requires !l.closed && Perform(l, op, cfg).closed
    ensures Output(l, op, cfg) == []
  {
    hide Input, Read, Close, Poll, Decode, FlushData, AcceptCount;
    match op
    case Arrive(bytes, now) => InputStates(l.conn, Decode(bytes).value, now, cfg);
    case Put(data, now) => FlushNeverCloses(Accepting(l.conn, data[..AcceptCount(l.conn, data, cfg)]), now);
    case Get(max) => ReadNeverCloses(l.conn, max);
    case Shut(now) => CloseStates(l.conn, now);
    case Tick(now) => PollStates(l.conn, now, cfg);
  }

  lemma FlushNeverCloses(c: Conn, now: u64)
    ensures !FlushData(c, now).closed
  {
    hide Flush, SegmentsFor;
  }

  lemma ReadNeverCloses(c: Conn, max: nat)
    ensures !Read(c, max).closed
  {
    hide AvailableWindow, AckSegment;
  }

  lemma {:induction false} SilentOnceClosed(l: Life, ops: seq<Op>, e: int, cfg: Config)
    requires l.closed
    ensures FullSends(l, ops, e, cfg) == 0
    decreases |ops|
  {
    if ops != [] {
      AckSilent(l.conn, Acked(l), e);
      SilentOnceClosed(l, ops[1..], e, cfg);
    }
  }

  lemma SpentWithin(l: Life, e: int, cfg: Config)
    requires LifeOk(l, cfg)
    ensures Spent(l.conn.tx, Acked(l), e, Max(1, cfg.maxRetransmissions)) <= Max(1, cfg.maxRetransmissions)
  {
    ConnFacts(l.conn, cfg, StreamNow(l));
    BudgetOf(l.conn.tx, StreamNow(l), Acked(l));
    hide LifeOk, TxOk, CoreOk, Chain, NxtPos, SentFor;
    SentBound(l.conn.tx.unacked, Acked(l), NxtPos(l.conn.tx, Acked(l)), StreamNow(l), e,
      Max(1, cfg.maxRetransmissions));
  }

  lemma {:induction false} LedgerHolds(l: Life, ops: seq<Op>, e: int, cfg: Config)
    requires LifeOk(l, cfg) && !l.closed
    ensures var limit := Max(1, cfg.maxRetransmissions);
            FullSends(l, ops, e, cfg) + Spent(l.conn.tx, Acked(l), e, limit) <= limit
    decreases |ops|
  {
    hide LifeOk, Perform, Output, Spent, OnWireEnding, Acked, Probing, Follows;
    SpentWithin(l, e, cfg);
    if ops != [] {
      var l' := Perform(l, ops[0], cfg);
      if l'.closed {
        ClosingIsSilent(l, ops[0], cfg);
        AckSilent(l.conn, Acked(l), e);
        SilentOnceClosed(l', ops[1..], e, cfg);
      } else {
        OpKeeps(l, ops[0], cfg);
        SomeOpFunds(l, ops[0], e, cfg);
        LedgerHolds(l', ops[1..], e, cfg);
      }
    }
  }

  /** A new connection has sent its SYN once. */
  lemma BornSpent(l: Life, e: int, cfg: Config)
    requires Born(l, cfg)
    ensures Bit(e == l.base) <= Spent(l.conn.tx, Acked(l), e, Max(1, cfg.maxRetransmissions))
  {
    BornQueue(l, cfg);
    hide Born;
    SentCons(l.conn.tx.unacked, Acked(l), e);
  }

  lemma BornQueue(l: Life, cfg: Config)
    requires Born(l, cfg)
    ensures l.conn.tx.unacked != [] && l.conn.tx.unacked[0].transmissions == 1 && l.conn.tx.unacked[0].Len() == 1
    ensures Acked(l) == l.base - 1
  {
    hide RenoControl.Initial, RttEstimation.Initial, SegmentFor;
  }

  /**
   * In every life, whatever the peer and the application do, each piece of the stream, identified by
   * the position it ends at, is sent in full at most max(1, limit) times; the first SYN counts.
   */
  lemma SentAtMost(l: Life, ops: seq<Op>, e: int, cfg: Config)
    requires Born(l, cfg)
    ensures Bit(e == l.base) + FullSends(l, ops, e, cfg) <= Max(1, cfg.maxRetransmissions)
  {
    BornOk(l, cfg);
    BornSpent(l, e, cfg);
    assert !l.closed by { hide Client, Server; }
    hide Born, LifeOk, FullSends, Spent, Acked;
    LedgerHolds(l, ops, e, cfg);
  }

  // ---------------------------------------------------------------- one input, one retransmission

  /** How many segments carry sequence space from before `nxt`. */
  function Retransmissions(out: seq<Segment>, nxt: u32): nat {
    if out == [] then 0
    else
      Bit(!out[0].flags.rst && SequenceLen(out[0]) > 0 && Off(nxt, out[0].seqNo) < 0) + Retransmissions(out[1..], nxt)
  }

  lemma {:induction false} ResentJoin(x: seq<Segment>, y: seq<Segment>, nxt: u32)
    ensures Retransmissions(x + y, nxt) == Retransmissions(x, nxt) + Retransmissions(y, nxt)
    ensures Retransmissions(x, nxt) <= |x|
  {
    hide Off, SequenceLen;
    if x == [] {
      assert x + y == y;
    } else {
      ResentJoin(x[1..], y, nxt);
      assert (x + y)[1..] == x[1..] + y;
    }
  }

  lemma {:induction false} FreshNotResent(c: Conn, ts: seq<Tracked>, s: Stream, n: int, n': int)
    requires PacketsOk(ts, s, n, n') && n' < n + 0x4000_0000
    ensures Retransmissions(SegmentsFor(c, ts), Wrap(n)) == 0
  {
    hide WindowField, Wrap, Off;
    if ts != [] {
      assert PacketOk(ts[0], s, n, n');
      var p :| PieceOk(ts[0], p, s) && n <= p && p + ts[0].Len() <= n';
      WrapOrder(p, n);
      assert SegmentsFor(c, ts)[1..] == SegmentsFor(c, ts[1..]);
      FreshNotResent(c, ts[1..], s, n, n');
    }
  }

  /** The send loop and the FIN put only sequence space from `nxt` on on the wire. */
  lemma {:induction false} FlushQueueFresh(tx: Tx, s: Stream, u: int, now: u64)
    requires TxOk(tx, s, u)
    ensures PacketsOk(FlushQueue(tx, now).out, s, NxtPos(tx, u), NxtPos(FlushQueue(tx, now).tx, u))
    decreases |tx.queue|
  {
    hide TxOk, Wrap, NxtPos, SendNext, PieceOk;
    if Room(tx) != 0 && tx.queue != [] {
      var t, next := Fresh(tx, DATA_FLAGS, tx.queue[..NextSize(tx)], now), SendNext(tx, now);
      SendNextKeeps(tx, s, u, now);
      SendNextPiece(tx, s, u, now);
      FlushQueueFresh(next, s, u, now);
      FlushQueueKeeps(next, s, u, now);
      var n, n1, n2 := NxtPos(tx, u), NxtPos(next, u), NxtPos(FlushQueue(next, now).tx, u);
      assert PacketOk(t, s, n, n2) by { PieceAt(t, n, s, n1, n2) by { SendNextAt(tx, s, u, now); } }
      PacketsExtend(FlushQueue(next, now).out, s, n1, n2, s, n, n2);
    }
  }

  lemma PieceAt(t: Tracked, n: int, s: Stream, n1: int, n2: int)
    requires PieceOk(t, n, s) && n + t.Len() == n1 <= n2
    ensures PacketOk(t, s, n, n2)
  {
    hide PieceOk;
  }

  lemma SendNextAt(tx: Tx, s: Stream, u: int, now: u64)
    requires TxOk(tx, s, u) && Room(tx) > 0 && tx.queue != []
    ensures NxtPos(tx, u) + Fresh(tx, DATA_FLAGS, tx.queue[..NextSize(tx)], now).Len() == NxtPos(SendNext(tx, now), u)
  {
    var t := Fresh(tx, DATA_FLAGS, tx.queue[..NextSize(tx)], now);
    SendNextPiece(tx, s, u, now);
    PieceLen(t, NxtPos(tx, u), s);
    UnaWraps(tx, s, u);
    SendNextKeeps(tx, s, u, now);
    UnaWraps(SendNext(tx, now), s, u);
    NxtWraps(SendNext(tx, now), u);
    hide TxOk, Wrap, Room, QueuesOk, PacketOk, PieceOk, Distance, Stream.Count;
    assert SendNext(tx, now).nxt == t.End();
    WrapOrder(NxtPos(SendNext(tx, now), u), NxtPos(tx, u) + t.Len());
  }

  lemma FlushFresh(tx: Tx, s: Stream, u: int, now: u64)
    requires TxOk(tx, s, u) && (tx.closeRequested ==> !s.ended)
    ensures var f := Flush(tx, now); PacketsOk(f.out, Ended(s, f.fin), NxtPos(tx, u), NxtPos(f.tx, u))
  {
    hide TxOk, Wrap, NxtPos, PacketOk, FlushQueue;
    var data := FlushQueue(tx, now);
    var fin := FlushFin(data.tx, now);
    var s' := Ended(s, fin.fin);
    FlushQueueKeeps(tx, s, u, now);
    FlushQueueFresh(tx, s, u, now);
    FlushFinKeeps(data.tx, s, u, now);
    PacketsExtend(data.out, s, NxtPos(tx, u), NxtPos(data.tx, u), s', NxtPos(tx, u), NxtPos(fin.tx, u));
    if fin.fin {
      FinPiece(data.tx, s, u, now);
      FinAt(data.tx, s, u, now);
      PieceAt(Fresh(data.tx, FIN_FLAGS, [], now), NxtPos(data.tx, u), s', NxtPos(fin.tx, u), NxtPos(fin.tx, u));
      assert forall t :: t in fin.out ==> t == Fresh(data.tx, FIN_FLAGS, [], now);
      PacketsExtend(fin.out, s', NxtPos(data.tx, u), NxtPos(fin.tx, u), s', NxtPos(tx, u), NxtPos(fin.tx, u));
    }
  }

  lemma FinAt(tx: Tx, s: Stream, u: int, now: u64)
    requires TxOk(tx, s, u) && (tx.closeRequested ==> !s.ended) && FlushFin(tx, now).fin
    ensures NxtPos(tx, u) + Fresh(tx, FIN_FLAGS, [], now).Len() == NxtPos(FlushFin(tx, now).tx, u)
    ensures FlushFin(tx, now).out == [Fresh(tx, FIN_FLAGS, [], now)]
  {
    var t, tx' := Fresh(tx, FIN_FLAGS, [], now), FlushFin(tx, now).tx;
    FlushFinKeeps(tx, s, u, now);
    FinPiece(tx, s, u, now);
    PieceLen(t, NxtPos(tx, u), Ended(s, true));
    UnaWraps(tx, s, u);
    UnaWraps(tx', Ended(s, true), u);
    NxtWraps(tx', u);
    assert tx'.nxt == t.End();
    hide TxOk, Wrap, Room, QueuesOk, PacketOk, PieceOk, Distance, Stream.Count, FlushFin;
    WrapOrder(NxtPos(tx', u), NxtPos(tx, u) + t.Len());
  }

  lemma FlushResends(c: Conn, now: u64, cfg: Config, s: Stream)
    requires CoreOk(c, cfg, s)
    ensures Retransmissions(FlushData(c, now).segments, c.tx.nxt) == 0
  {
    if MaySend(c.state) {
      CoreFacts(c, cfg, s);
      var u := UnaPos(c, s);
      TxFacts(c.tx, s, u);
      FlushFresh(c.tx, s, u, now);
      FlushKeeps(c.tx, s, u, now);
      var f := Flush(c.tx, now);
      TxFacts(f.tx, Ended(s, f.fin), u);
      hide CoreOk, TxOk, Flush, PacketsOk, Retransmissions, Chain, Wrap, SegmentsFor, NxtPos;
      FreshNotResent(c, f.out, Ended(s, f.fin), NxtPos(c.tx, u), NxtPos(f.tx, u));
    }
  }

  lemma NotResent(g: Segment, nxt: u32)
    requires g.flags.rst || SequenceLen(g) == 0
    ensures Retransmissions([g], nxt) == 0 && Retransmissions([], nxt) == 0
  {
    hide Off;
    assert [g][1..] == [];
  }

  lemma FinishResends(c: Conn, output: seq<Segment>, g: Segment, now: u64, cfg: Config, s: Stream)
    requires CoreOk(c, cfg, s) && Synchronized(c.state)
    ensures Retransmissions(FinishSegment(c, output, g, now, cfg).segments, c.tx.nxt)
      == Retransmissions(output, c.tx.nxt)
  {
    hide CoreOk, FlushData, Retransmissions, UnaPos, Receive, WindowField;
    var data := g.payload != [] || g.flags.fin;
    var c' := if data then ReceiveData(c, g, now, cfg) else c;
    if data { ReceiveDataKeeps(c, g, now, cfg, s); }
    hide ReceiveData;
    FlushResends(c', now, cfg, s);
    NotResent(AckSegment(c'), c.tx.nxt);
    var acks := if data then [AckSegment(c')] else [];
    ResentJoin(output, acks, c.tx.nxt);
    ResentJoin(output + acks, FlushData(c', now).segments, c.tx.nxt);
  }

  lemma AtMostOne(out: seq<Segment>, nxt: u32)
    requires |out| <= 1
    ensures Retransmissions(out, nxt) <= 1
  {
    ResentJoin(out, [], nxt);
  }

  /** One input, whatever it is, causes at most one retransmission. */
  lemma OneResendPerInput(c: Conn, g: Segment, now: u64, cfg: Config, s: Stream)
    requires ConnOk(c, cfg, s) && g.srcPort != 0 && g.dstPort != 0
    ensures Retransmissions(Input(c, g, now, cfg).segments, c.tx.nxt) <= 1
  {
    hide ConnOk, Retransmissions, AckSegment, OnSynSent, OnSynReceived, OnSynchronized, ResetReply, StaleHandshakeAck;
    hide UnexpectedSyn;
    hide OnReset;
    var r := Input(c, g, now, cfg);
    if StaleHandshakeAck(c, g) || UnexpectedSyn(c, g) {
      AtMostOne(r.segments, c.tx.nxt);
    } else if g.flags.rst {
      OnResetFew(c, g);
      AtMostOne(r.segments, c.tx.nxt);
    } else if c.state == SynSent {
      OnSynSentFew(c, g, now, cfg);
      AtMostOne(r.segments, c.tx.nxt);
    } else if c.state == SynReceived {
      SynReceivedResends(c, g, now, cfg, s);
    } else {
      SynchronizedResends(c, g, now, cfg, s);
    }
  }

  lemma OnResetFew(c: Conn, g: Segment)
    ensures |OnReset(c, g).segments| <= 1
  {
    hide AckSegment, AvailableWindow, Distance, SequenceSpace.After;
  }

  lemma OnSynSentFew(c: Conn, g: Segment, now: u64, cfg: Config)
    ensures |OnSynSent(c, g, now, cfg).segments| <= 1
  {
    hide AckSegment, ApplyAck, NegotiateMss, UpdateWindow, Add, SupportsFipsVersion;
  }

  lemma SynReceivedResends(c: Conn, g: Segment, now: u64, cfg: Config, s: Stream)
    requires ConnOk(c, cfg, s) && c.state == SynReceived
    ensures Retransmissions(OnSynReceived(c, g, now, cfg).segments, c.tx.nxt) <= 1
  {
    hide ConnOk, CoreOk, Retransmissions, RetransmitOldest, FinishSegment, ApplyAck, Add, UpdateWindow, InFlight;
    AtMostOne([], c.tx.nxt);
    if g.flags.syn && !g.flags.ack && Add(g.seqNo, 1) == c.rx.nxt {
      ConnFacts(c, cfg, s);
      RetransmitKeeps(c.tx, s, UnaPos(c, s), now, false);
      AtMostOne(SegmentsFor(c, RetransmitOldest(c.tx, now, false).out), c.tx.nxt);
    } else if g.ack == Some(c.tx.nxt) {
      EstablishedCore(c, g, now, cfg, s);
      var o := ApplyAck(c.tx, c.tx.nxt, now, false);
      ApplyAckFields(c.tx, c.tx.nxt, now, false);
      var c' := c.(tx := UpdateWindow(o.tx, g.window, now), state := Established);
      WindowNxt(o.tx, g.window, now);
      FinishResends(c', [], g, now, cfg, s);
    }
  }

  lemma WindowNxt(tx: Tx, window: u16, now: u64)
    ensures UpdateWindow(tx, window, now).nxt == tx.nxt
  {
  }

  lemma SynchronizedResends(c: Conn, g: Segment, now: u64, cfg: Config, s: Stream)
    requires ConnOk(c, cfg, s) && Synchronized(c.state)
    ensures Retransmissions(OnSynchronized(c, g, now, cfg).segments, c.tx.nxt) <= 1
  {
    ConnFacts(c, cfg, s);
    hide ConnOk, CoreOk, Retransmissions, FinishSegment, AckPart, UnaPos, OutputOk, UnaAfter, SndPos;
    AtMostOne([], c.tx.nxt);
    if g.ack == None {
      FinishResends(c, [], g, now, cfg, s);
    } else {
      var part := AckPart(c, g.ack.value, g, now, cfg);
      AckPartKeeps(c, g.ack.value, g, now, cfg, s);
      AtMostOne(part.segments, c.tx.nxt);
      if !part.closed {
        AckPartNxt(c, g.ack.value, g, now, cfg, s);
        FinishResends(part.conn, part.segments, g, now, cfg, s);
      }
    }
  }

  lemma AckPartNxt(c: Conn, ack: u32, g: Segment, now: u64, cfg: Config, s: Stream)
    requires CoreOk(c, cfg, s)
    ensures !AckPart(c, ack, g, now, cfg).closed ==> AckPart(c, ack, g, now, cfg).conn.tx.nxt == c.tx.nxt
  {
    CoreFacts(c, cfg, s);
    CoreFacts(c, cfg, s);
    AckPartShape(c, ack, g, now, cfg);
    hide CoreOk, TxOk, AckPart, AckedTx, RepairedTx, AckStep, PacketsOk, NxtPos;
    AckedSender(c.tx, s, UnaPos(c, s), ack, g, now, cfg);
  }
}
