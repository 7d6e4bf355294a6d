/** Each operation of the sending half keeps `TxOk` and puts only pieces of the stream on the wire. */
module SendSteps {
  import opened Numbers
  import opened SequenceSpace
  import opened Wire
  import opened RenoControl
  import opened RttEstimation
  import opened Types
  import opened Sender
  import opened Delivery
  import opened SendInvariant

  // ---------------------------------------------------------------- acknowledgements

  /** `nxt` stands for its position. */
  lemma NxtWraps(tx: Tx, u: int)
    requires tx.una == Wrap(u) && NxtPos(tx, u) <= u + MAX_SPAN
    ensures tx.nxt == Wrap(NxtPos(tx, u))
  {
    var k := u / 0x1_0000_0000;
    assert u == Wrap(u) + k * 0x1_0000_0000;
  }

  /** An ACK is taken exactly when it lies in [una, nxt] modulo 2^32, and then has a position there. */
  lemma AckAcceptance(tx: Tx, s: Stream, u: int, ack: u32)
    requires QueuesOk(tx, s, u)
    ensures Acceptable(tx, ack) <==> Distance(tx.una, ack) <= InFlight(tx)
    ensures Acceptable(tx, ack) ==> ack == Wrap(u + Distance(tx.una, ack))
  {
    NxtWraps(tx, u);
    var d := Distance(tx.una, ack);
    DistancePosition(u, ack);
    hide Wrap, Distance, Before;
    if d < 0x8000_0000 {
      WrapOrder(u + d, u);
      WrapOrder(u + d, NxtPos(tx, u));
    } else {
      WrapOrderBehind(u + d, u);
    }
  }

  lemma DistancePosition(u: int, ack: u32)
    ensures ack == Wrap(u + Distance(Wrap(u), ack))
  {
    var k := u / 0x1_0000_0000;
    assert u == Wrap(u) + k * 0x1_0000_0000;
  }

  lemma WrapOrderBehind(p: int, u: int)
    requires 0x8000_0000 <= p - u < 0x1_0000_0000
    ensures Before(Wrap(p), Wrap(u))
  {
    WrapDifference(p, u);
  }

  lemma AckQueues(tx: Tx, s: Stream, u: int, a: int, now: u64)
    requires QueuesOk(tx, s, u) && u < a <= NxtPos(tx, u)
    ensures var o := Acknowledge(tx, Wrap(a), now);
            && QueuesOk(o.tx, s, a) && NxtPos(o.tx, a) == NxtPos(tx, u)
            && (o.finAcked <==> s.ended && a == s.End() + 1)
  {
    hide Wrap, Add, Chain, TrimFront, TrimCount, AckedCount, PayloadIn, HasFin, LastSample;
    hide RenoState.OnAck, RttState.Sample, Before;
    var n := NxtPos(tx, u);
    NxtWraps(tx, u);
    WrapOrder(a, n);
    var b := PoppedPrefix(tx.unacked, u, n, s, a);
    var rest := tx.unacked[AckedCount(tx.unacked, Wrap(a))..];
    ChainOrder(tx.unacked, u, n, s);
    ChainOrder(rest, b, n, s);
    TrimmedFront(rest, b, n, s, a);
  }

  /** The position of the Karn mark, as a sequence number. */
  lemma MarkWraps(tx: Tx, u: int)
    requires tx.una == Wrap(u)
    ensures tx.rtt.sampleAfter.Some? ==> tx.rtt.sampleAfter.value == Wrap(KarnMark(tx, u))
  {
    if tx.rtt.sampleAfter.Some? {
      OffPosition(u, tx.rtt.sampleAfter.value);
    }
  }

  /**
   * Karn's rule: an ACK's RTT sample times a segment that was sent exactly once. Taking it clears
   * the mark and leaves no segment behind that was sent twice; without a sample the mark stays.
   */
  lemma KarnsRule(tx: Tx, s: Stream, u: int, a: int, now: u64)
    requires QueuesOk(tx, s, u) && KarnOk(tx, u) && u < a <= NxtPos(tx, u)
    ensures var o := Acknowledge(tx, Wrap(a), now); var k := AckedCount(tx.unacked, Wrap(a));
            var sample := LastSample(tx.unacked[..k], tx.rtt, now);
            && KarnOk(o.tx, a)
            && (sample.Some? ==>
                  && SampledFrom(tx.unacked, k, sample.value, now)
                  && o.tx.rtt.sampleAfter == None
                  && (forall t :: t in o.tx.unacked ==> t.sends == 1))
            && (sample.None? ==> o.tx.rtt == tx.rtt)
  {
    hide Wrap, Add, Chain, TrimFront, TrimCount, AckedCount, PayloadIn, HasFin, LastSample, KarnChain, Off, SpanOf;
    hide RenoState.OnAck, Before, SampledFrom, PieceOk;
    var n, m, k := NxtPos(tx, u), KarnMark(tx, u), AckedCount(tx.unacked, Wrap(a));
    var rest := tx.unacked[k..];
    var trimmed := TrimFront(rest, Wrap(a));
    var b := PoppedPrefix(tx.unacked, u, n, s, a);
    MarkWraps(tx, u);
    ChainOrder(tx.unacked, u, n, s);
    SampleSentOnce(tx.unacked, u, n, s, k, tx.rtt, m, now);
    ChainOrder(rest, b, n, s);
    TrimmedFront(rest, b, n, s, a);
    AckQueues(tx, s, u, a, now);
    if LastSample(tx.unacked[..k], tx.rtt, now).Some? {
      KarnDrop(tx.unacked, u, m, k);
      KarnFresh(rest, b, n, s, m, m);
      KarnTrimmed(rest, trimmed, b, a, m);
      KarnFresh(trimmed, a, n, s, m, a);
    } else {
      KarnWithoutSample(tx.unacked, u, n, s, m, k, b, trimmed, a);
      if tx.rtt.sampleAfter.Some? {
        WrapOrder(m, a);
      } else {
        KarnFresh(trimmed, a, n, s, u, a);
      }
    }
  }

  lemma AckBookkeeping(tx: Tx, s: Stream, u: int, a: int, now: u64)
    requires TxOk(tx, s, u) && u < a <= NxtPos(tx, u)
    ensures var o := Acknowledge(tx, Wrap(a), now);
            BudgetOk(o.tx.unacked, o.tx.maxTransmissions) && RecoveryOk(o.tx) && ControlOk(o.tx)
  {
    hide Wrap, Add, Chain, TrimFront, TrimCount, AckedCount, PayloadIn, HasFin, LastSample, Off, SpanOf, Before;
    hide RenoState.OnAck, KarnOk, RttState.Sample, RenoOk, RttOk;
    var n := NxtPos(tx, u);
    var o := Acknowledge(tx, Wrap(a), now);
    var b := PoppedPrefix(tx.unacked, u, n, s, a);
    var rest := tx.unacked[AckedCount(tx.unacked, Wrap(a))..];
    ChainOrder(tx.unacked, u, n, s);
    ChainOrder(rest, b, n, s);
    TrimmedFront(rest, b, n, s, a);
    forall t | t in o.tx.unacked
      ensures 1 <= t.transmissions <= Max(1, tx.maxTransmissions)
    {
      assert o.tx.unacked == [o.tx.unacked[0]] + rest[1..];
      assert rest[0] in tx.unacked;
      assert t == o.tx.unacked[0] || t in rest;
    }
    EventKeepsRenoOk(tx.reno, RenoEvent.Acked(o.tx.acked - tx.acked));
    AckKeepsMss(tx.reno, o.tx.acked - tx.acked);
    forall ms: nat
      ensures RttOk(tx.rtt.Sample(ms))
    {
      SampleKeepsBounds(tx.rtt, ms);
    }
    if tx.rtoRecoveryUntil.Some? {
      var e := u + Off(tx.una, tx.rtoRecoveryUntil.value);
      OffPosition(u, tx.rtoRecoveryUntil.value);
      WrapOrder(a, e);
      WrapOrder(e, a);
      AckQueues(tx, s, u, a, now);
    }
  }

  lemma AckKeepsMss(r: RenoState, bytes: nat)
    ensures r.OnAck(bytes).mss == r.mss
  {
  }

  lemma SampleKeepsBounds(r: RttState, ms: nat)
    requires RttOk(r)
    ensures RttOk(r.Sample(ms))
  {
  }

  /** An ACK beyond `una` moves it there, and reports the FIN exactly when it passes the stream's end. */
  lemma AcknowledgeKeeps(tx: Tx, s: Stream, u: int, a: int, now: u64)
    requires TxOk(tx, s, u) && u < a <= NxtPos(tx, u)
    ensures var o := Acknowledge(tx, Wrap(a), now);
            && TxOk(o.tx, s, a) && NxtPos(o.tx, a) == NxtPos(tx, u)
            && (o.finAcked <==> s.ended && a == s.End() + 1)
  {
    hide Wrap, Acknowledge, QueuesOk, KarnOk, BudgetOk, RecoveryOk, ControlOk, LastSample, NxtPos;
    AckQueues(tx, s, u, a, now);
    KarnsRule(tx, s, u, a, now);
    AckBookkeeping(tx, s, u, a, now);
  }

  // ---------------------------------------------------------------- retransmission

  /** Bookkeeping of the first segment changes; everything else about the queues stays. */
  lemma RetransmitKeeps(tx: Tx, s: Stream, u: int, now: u64, timeout: bool)
    requires TxOk(tx, s, u)
    ensures var r := RetransmitOldest(tx, now, timeout);
            && TxOk(r.tx, s, u) && NxtPos(r.tx, u) == NxtPos(tx, u)
            && PacketsOk(r.out, s, u, NxtPos(tx, u)) && |r.out| <= 1
            && (r.out == [] ==> r.tx == tx)
  {
    hide KarnInv, KarnChain, Off, Wrap, Add, PieceOk, Chain, BudgetOk;
    var r := RetransmitOldest(tx, now, timeout);
    var n := NxtPos(tx, u);
    if r.out != [] {
      var t := r.out[0];
      ChainFront(tx.unacked, u, n, s, t);
      RemarkAtNxt(tx, s, u, r.tx.unacked);
      var p := ChainMember(r.tx.unacked, u, n, s, 0);
      assert PieceOk(t, p, s);
      RetransmitBudget(tx, now, timeout);
    }
  }

  lemma RetransmitBudget(tx: Tx, now: u64, timeout: bool)
    requires BudgetOk(tx.unacked, tx.maxTransmissions)
    ensures BudgetOk(RetransmitOldest(tx, now, timeout).tx.unacked, tx.maxTransmissions)
  {
    var r := RetransmitOldest(tx, now, timeout);
    if r.out != [] {
      assert tx.unacked[0] in tx.unacked;
      assert forall x :: x in r.tx.unacked ==> x == r.out[0] || x in tx.unacked[1..];
    }
  }

  /** Marking `nxt` after a segment is sent again covers the whole queue. */
  lemma RemarkAtNxt(tx: Tx, s: Stream, u: int, ts: seq<Tracked>)
    requires tx.una == Wrap(u) && s.base - 1 <= u <= NxtPos(tx, u) <= u + MAX_SPAN
    requires Chain(ts, u, NxtPos(tx, u), s)
    ensures KarnInv(ts, u, NxtPos(tx, u), u + Off(tx.una, tx.nxt))
  {
    var n := NxtPos(tx, u);
    NxtWraps(tx, u);
    WrapOrder(n, u);
    KarnAll(ts, u, n, s);
  }

  lemma DuplicateAckKeeps(tx: Tx, s: Stream, u: int, now: u64, candidate: bool)
    requires TxOk(tx, s, u)
    ensures var o := DuplicateAck(tx, now, candidate);
            && TxOk(o.tx, s, u) && NxtPos(o.tx, u) == NxtPos(tx, u) && !o.finAcked
            && PacketsOk(o.resent, s, u, NxtPos(tx, u)) && |o.resent| <= 1
  {
    hide TxOk, NxtPos, RetransmitOldest, RenoState.OnFastLoss, RenoState.OnDuplicateAck, RenoOk, PacketOk;
    var counted := tx.(duplicateAcks := Min(tx.duplicateAcks + 1, 255), reno := tx.reno.OnDuplicateAck());
    var lost := counted.(reno := counted.reno.OnFastLoss(InFlight(counted)));
    RenoHolds(tx, s, u);
    DuplicateReno(tx.reno, InFlight(tx));
    NewReno(tx, s, u, tx.reno, 0);
    NewReno(tx, s, u, counted.reno, counted.duplicateAcks);
    NewReno(tx, s, u, lost.reno, lost.duplicateAcks);
    RetransmitKeeps(lost, s, u, now, false);
  }

  lemma RenoHolds(tx: Tx, s: Stream, u: int)
    requires TxOk(tx, s, u)
    ensures RenoOk(tx.reno) && tx.reno.mss == tx.mss
  {
  }

  /** Congestion control and the duplicate count are independent of the queues. */
  lemma NewReno(tx: Tx, s: Stream, u: int, reno: RenoState, duplicates: u8)
    requires TxOk(tx, s, u) && RenoOk(reno) && reno.mss == tx.mss
    ensures var tx' := tx.(reno := reno, duplicateAcks := duplicates);
            TxOk(tx', s, u) && NxtPos(tx', u) == NxtPos(tx, u)
  {
    hide KarnInv, Off, Wrap, Chain, RenoOk, RttOk, Distance;
  }

  lemma DuplicateReno(r: RenoState, inFlight: u32)
    requires RenoOk(r)
    ensures RenoOk(r.OnDuplicateAck()) && r.OnDuplicateAck().mss == r.mss
    ensures RenoOk(r.OnDuplicateAck().OnFastLoss(inFlight)) && r.OnDuplicateAck().OnFastLoss(inFlight).mss == r.mss
  {
  }

  lemma UnaWraps(tx: Tx, s: Stream, u: int)
    requires TxOk(tx, s, u)
    ensures tx.una == Wrap(u) && QueuesOk(tx, s, u) && Distance(tx.una, tx.una) == 0
    ensures NxtPos(tx, u) <= s.End() + Bit(s.ended) && u <= NxtPos(tx, u) <= u + MAX_SPAN && s.base - 1 <= u
  {
  }

  /** How far an ACK number moves `una`. */
  function AckStep(tx: Tx, ack: u32): nat {
    if Acceptable(tx, ack) then Distance(tx.una, ack) else 0
  }

  /** Applying any ACK number whatever keeps the invariant; `una` moves to the ACK if it is taken. */
  lemma ApplyAckKeeps(tx: Tx, s: Stream, u: int, ack: u32, now: u64, candidate: bool)
    requires TxOk(tx, s, u)
    ensures var o := ApplyAck(tx, ack, now, candidate);
            var a := u + AckStep(tx, ack);
            && TxOk(o.tx, s, a) && NxtPos(o.tx, a) == NxtPos(tx, u) && a <= NxtPos(tx, u)
            && (o.finAcked <==> s.ended && u < a == s.End() + 1)
            && PacketsOk(o.resent, s, u, NxtPos(tx, u)) && |o.resent| <= 1
  {
    hide TxOk, Acceptable, PacketsOk, DuplicateAck, Acknowledge, QueuesOk, NxtPos, Wrap, Distance, Stream.Count;
    hide PacketOk;
    UnaWraps(tx, s, u);
    NoPackets(s, u, NxtPos(tx, u));
    if Acceptable(tx, ack) {
      AckWithin(tx, s, u, ack);
      if ack == tx.una {
        DuplicateAckKeeps(tx, s, u, now, candidate);
      } else {
        AcknowledgeKeeps(tx, s, u, u + Distance(tx.una, ack), now);
        NothingResent(tx, ack, now);
      }
    }
  }

  /** The position an acceptable ACK stands for. */
  lemma AckWithin(tx: Tx, s: Stream, u: int, ack: u32)
    requires TxOk(tx, s, u) && Acceptable(tx, ack)
    ensures ack == Wrap(u + Distance(tx.una, ack)) && u + Distance(tx.una, ack) <= NxtPos(tx, u)
    ensures ack != tx.una <==> Distance(tx.una, ack) > 0
  {
    UnaWraps(tx, s, u);
    AckAcceptance(tx, s, u, ack);
    hide TxOk, Acceptable, QueuesOk, Stream.Count;
  }

  lemma NothingResent(tx: Tx, ack: u32, now: u64)
    ensures Acknowledge(tx, ack, now).resent == []
  {
    hide AckedCount, PayloadIn, HasFin, LastSample, TrimFront, TrimCount;
  }

  lemma RepairKeeps(tx: Tx, s: Stream, u: int, now: u64, cfg: Config)
    requires TxOk(tx, s, u)
    ensures var r := Repair(tx, now, cfg);
            && TxOk(r.tx, s, u) && NxtPos(r.tx, u) == NxtPos(tx, u)
            && PacketsOk(r.out, s, u, NxtPos(tx, u)) && |r.out| <= 1
  {
    hide TxOk, NxtPos, RetransmitOldest;
    RetransmitKeeps(tx, s, u, now, false);
  }

  // ---------------------------------------------------------------- sending

  lemma PacketsExtend(out: seq<Tracked>, s: Stream, lo: int, n: int, s': Stream, lo': int, n': int)
    requires PacketsOk(out, s, lo, n) && s'.Extends(s) && lo' <= lo && n <= n'
    ensures PacketsOk(out, s', lo', n')
  {
    forall t | t in out
      ensures PacketOk(t, s', lo', n')
    {
      var p :| PieceOk(t, p, s) && lo <= p && p + t.Len() <= n;
      assert PieceOk(t, p, s');
    }
  }

  /** The sender with one more segment behind its queue. */
  function WithPiece(tx: Tx, t: Tracked, queue: seq<byte>, closeRequested: bool): Tx {
    tx.(nxt := t.End(), unacked := tx.unacked + [t], queue := queue, closeRequested := closeRequested)
  }

  /** The queue condition of `QueuesOk` when `nxt` is at `n`. */
  ghost predicate QueueAt(queue: seq<byte>, s: Stream, n: int) {
    if s.ended then n == s.End() + 1 && queue == [] else IsRest(queue, s.bytes, n - s.base)
  }

  /** Appending the next piece of the stream, or its FIN, within the span. */
  lemma AppendPiece(tx: Tx, s: Stream, u: int, t: Tracked, queue: seq<byte>, closeRequested: bool, s': Stream)
    requires TxOk(tx, s, u) && s'.Extends(s) && s'.bytes == s.bytes
    requires PieceOk(t, NxtPos(tx, u), s') && t.sends == 1 && t.transmissions == 1
    requires NxtPos(tx, u) + t.Len() <= u + MAX_SPAN
    requires QueueAt(queue, s', NxtPos(tx, u) + t.Len())
    ensures var tx' := WithPiece(tx, t, queue, closeRequested);
            && TxOk(tx', s', u) && NxtPos(tx', u) == NxtPos(tx, u) + t.Len()
            && PacketOk(t, s', u, NxtPos(tx', u))
  {
    hide KarnInv, Off, Wrap, Add, KarnChain, RenoOk, RttOk, PieceOk, Chain, Tracked.End, Tracked.Len;
    var n := NxtPos(tx, u);
    var tx' := WithPiece(tx, t, queue, closeRequested);
    ChainExtends(tx.unacked, u, n, s, s');
    ChainAppend(tx.unacked, u, n, s', t);
    PieceLen(t, n, s');
    WrapOrder(u, n + t.Len());
    KarnGrows(tx, s, u, t);
  }

  lemma KarnGrows(tx: Tx, s: Stream, u: int, t: Tracked)
    requires Chain(tx.unacked, u, NxtPos(tx, u), s) && KarnOk(tx, u) && t.sends == 1
    ensures KarnInv(tx.unacked + [t], u, NxtPos(tx, u) + t.Len(), KarnMark(tx, u))
  {
    hide Off, Wrap, Add, PieceOk, Chain, KarnChain;
    KarnAppend(tx.unacked, u, NxtPos(tx, u), s, KarnMark(tx, u), t);
  }

  /** What a turn of the send loop sends: at most `mss` bytes, within both windows. */
  lemma SendNextKeeps(tx: Tx, s: Stream, u: int, now: u64)
    requires TxOk(tx, s, u) && Room(tx) > 0 && tx.queue != []
    ensures var t := Fresh(tx, DATA_FLAGS, tx.queue[..NextSize(tx)], now);
            var tx' := SendNext(tx, now);
            && TxOk(tx', s, u) && NxtPos(tx, u) <= NxtPos(tx', u) && PacketOk(t, s, u, NxtPos(tx', u))
            && InFlight(tx') == InFlight(tx) + NextSize(tx) <= Min(tx.window, tx.reno.Window())
            && 1 <= |t.payload| <= tx.mss
            && tx' == WithPiece(tx, t, tx.queue[NextSize(tx)..], tx.closeRequested)
  {
    hide KarnInv, Off, Wrap, Add, Chain, RenoOk, RttOk, BudgetOk, RecoveryOk;
    var n := NextSize(tx);
    var t := Fresh(tx, DATA_FLAGS, tx.queue[..n], now);
    NxtWraps(tx, u);
    assert tx.queue[n..] == s.bytes[NxtPos(tx, u) + n - s.base..];
    AppendPiece(tx, s, u, t, tx.queue[n..], tx.closeRequested, s);
  }

  /**
   * The send loop ends, keeps the invariant, and conforms to the windows: if it sends anything, what
   * is then in flight fits the smaller of the remote and the congestion window, and no payload
   * exceeds `mss`. Afterwards nothing more could be sent.
   */
  lemma {:induction false} FlushQueueKeeps(tx: Tx, s: Stream, u: int, now: u64)
    requires TxOk(tx, s, u)
    ensures var r := FlushQueue(tx, now);
            && TxOk(r.tx, s, u) && NxtPos(tx, u) <= NxtPos(r.tx, u)
            && PacketsOk(r.out, s, u, NxtPos(r.tx, u))
            && (r.out != [] ==> InFlight(r.tx) <= Min(tx.window, tx.reno.Window()))
            && (forall t :: t in r.out ==> 1 <= |t.payload| <= tx.mss)
            && (Room(r.tx) == 0 || r.tx.queue == [])
            && r.tx == tx.(nxt := r.tx.nxt, queue := r.tx.queue, unacked := tx.unacked + r.out)
    decreases |tx.queue|
  {
    hide TxOk, Wrap, NxtPos, PacketOk, SendNext;
    if Room(tx) == 0 || tx.queue == [] {
      assert tx.unacked + [] == tx.unacked;
    } else {
      var t := Fresh(tx, DATA_FLAGS, tx.queue[..NextSize(tx)], now);
      var next := SendNext(tx, now);
      SendNextKeeps(tx, s, u, now);
      FlushQueueKeeps(next, s, u, now);
      var r := FlushQueue(next, now);
      assert (tx.unacked + [t]) + r.out == tx.unacked + ([t] + r.out);
      PacketsExtend([t], s, u, NxtPos(next, u), s, u, NxtPos(r.tx, u));
      assert PacketOk(t, s, u, NxtPos(r.tx, u)) by { assert t in [t]; }
      if r.out == [] {
        assert r.tx == next by { FlushIdle(next, now); }
      }
    }
  }

  /** Every segment of the send loop is full, but for the last if it exhausts the queue or the room. */
  lemma {:induction false} FlushQueueFills(tx: Tx, s: Stream, u: int, now: u64)
    requires TxOk(tx, s, u)
    ensures var r := FlushQueue(tx, now);
            && (forall i :: 0 <= i < |r.out| - 1 ==> |r.out[i].payload| == tx.mss)
            && (r.out != [] && |r.out[|r.out| - 1].payload| < tx.mss ==> r.tx.queue == [] || Room(r.tx) == 0)
    decreases |tx.queue|
  {
    hide TxOk, Wrap, NxtPos, PacketOk, SendNext, RenoState.Window;
    if Room(tx) != 0 && tx.queue != [] {
      var next := SendNext(tx, now);
      SendNextKeeps(tx, s, u, now);
      FlushQueueFills(next, s, u, now);
      var rest := FlushQueue(next, now);
      var t := Fresh(tx, DATA_FLAGS, tx.queue[..NextSize(tx)], now);
      assert FlushQueue(tx, now) == Sent(rest.tx, [t] + rest.out);
      if |t.payload| < tx.mss {
        assert next.queue == [] || Room(next) == 0;
        assert rest == Sent(next, []);
      }
    }
  }

  lemma FlushIdle(tx: Tx, now: u64)
    requires FlushQueue(tx, now).out == []
    ensures FlushQueue(tx, now).tx == tx
  {
  }

  /** Sending the FIN ends the stream. */
  function Ended(s: Stream, fin: bool): Stream {
    if fin then s.(ended := true) else s
  }

  /**
   * The FIN is created only once, when the send queue is empty, and is then last in the
   * retransmission queue.
   */
  lemma FlushFinKeeps(tx: Tx, s: Stream, u: int, now: u64)
    requires TxOk(tx, s, u) && (tx.closeRequested ==> !s.ended)
    ensures var r := FlushFin(tx, now); var s' := Ended(s, r.fin);
            && TxOk(r.tx, s', u) && NxtPos(tx, u) <= NxtPos(r.tx, u)
            && PacketsOk(r.out, s', u, NxtPos(r.tx, u))
            && (r.out != [] ==> InFlight(r.tx) <= Min(tx.window, tx.reno.Window()))
            && (r.fin ==> !s.ended && tx.queue == [] && r.tx.unacked == tx.unacked + r.out && |r.out| == 1)
            && (!r.fin ==> r.tx == tx && r.out == [])
            && r.tx.unacked == tx.unacked + r.out
  {
    hide KarnInv, Off, Wrap, Add, Chain, RenoOk, RttOk, BudgetOk, RecoveryOk;
    if tx.closeRequested && tx.queue == [] && Room(tx) > 0 {
      var t := Fresh(tx, FIN_FLAGS, [], now);
      NxtWraps(tx, u);
      AppendPiece(tx, s, u, t, [], false, Ended(s, true));
    }
  }

  /** Nothing can be flushed. */
  predicate Quiet(tx: Tx) {
    Room(tx) == 0 || (tx.queue == [] && !tx.closeRequested)
  }

  lemma QuietFlush(tx: Tx, now: u64)
    requires Quiet(tx)
    ensures Flush(tx, now) == Flushed(tx, [], false)
  {
  }

  /** Flushing conforms to the windows, ends the stream at most once, and leaves nothing to flush. */
  lemma FlushKeeps(tx: Tx, s: Stream, u: int, now: u64)
    requires TxOk(tx, s, u) && (tx.closeRequested ==> !s.ended)
    ensures var r := Flush(tx, now); var s' := Ended(s, r.fin);
            && TxOk(r.tx, s', u) && NxtPos(tx, u) <= NxtPos(r.tx, u)
            && PacketsOk(r.out, s', u, NxtPos(r.tx, u))
            && (r.out != [] ==> InFlight(r.tx) <= Min(tx.window, tx.reno.Window()))
            && (forall t :: t in r.out ==> |t.payload| <= tx.mss)
            && (r.fin ==> !s.ended && r.tx.queue == [] && !r.tx.closeRequested)
            && Quiet(r.tx)
            && r.tx == tx.(nxt := r.tx.nxt, queue := r.tx.queue, unacked := tx.unacked + r.out,
                           closeRequested := tx.closeRequested && !r.fin)
  {
    var data := FlushQueue(tx, now);
    FlushQueueKeeps(tx, s, u, now);
    FlushFinKeeps(data.tx, s, u, now);
    var fin := FlushFin(data.tx, now);
    hide TxOk, Wrap, PacketOk, FlushQueue;
    PacketsExtend(data.out, s, u, NxtPos(data.tx, u), Ended(s, fin.fin), u, NxtPos(fin.tx, u));
    FlushFinShape(data.tx, now);
  }

  lemma FlushFinShape(tx: Tx, now: u64)
    ensures var r := FlushFin(tx, now);
            && r.tx == tx.(nxt := r.tx.nxt, unacked := r.tx.unacked, closeRequested := tx.closeRequested && !r.fin)
            && (forall t :: t in r.out ==> t.payload == [])
  {
  }

  // ---------------------------------------------------------------- probes and timers

  /** Segments without payload, before the stream has ended, are at most the SYN. */
  lemma NoPayloadSpan(ts: seq<Tracked>, p: int, q: int, s: Stream)
    requires Chain(ts, p, q, s) && !s.ended && FirstPayload(ts) == None
    ensures q <= p + 1
  {
    hide Wrap;
    assert ts != [] ==> FirstPayload(ts[1..]) == None;
  }

  lemma ProbeKeeps(tx: Tx, s: Stream, u: int, now: u64)
    requires TxOk(tx, s, u)
    ensures var r := Probe(tx, now);
            && TxOk(r.tx, s, u) && NxtPos(tx, u) <= NxtPos(r.tx, u)
            && PacketsOk(r.out, s, u, NxtPos(r.tx, u)) && |r.out| <= 1
            && (r.out != [] <==> HasProbePayload(tx)) && (r.out == [] ==> r.tx == tx)
  {
    hide TxOk, PacketsOk, NxtPos;
    NoPackets(s, u, NxtPos(tx, u));
    match FirstPayload(tx.unacked)
    case Some(i) => ReprobeKeeps(tx, s, u, now, i);
    case None =>
      if tx.queue != [] {
        ProbeNextKeeps(tx, s, u, now);
      }
  }

  lemma ProbeNextKeeps(tx: Tx, s: Stream, u: int, now: u64)
    requires TxOk(tx, s, u) && FirstPayload(tx.unacked) == None && tx.queue != []
    ensures var r := Probe(tx, now);
            && TxOk(r.tx, s, u) && NxtPos(tx, u) <= NxtPos(r.tx, u)
            && PacketsOk(r.out, s, u, NxtPos(r.tx, u)) && |r.out| == 1
  {
    var t := Fresh(tx, DATA_FLAGS, [tx.queue[0]], now);
    NextBytePiece(tx, s, u, now);
    hide TxOk, NxtPos, PieceOk, PacketOk, FirstPayload, QueueAt, SendTracked;
    AppendPiece(tx, s, u, t, tx.queue[1..], tx.closeRequested, s);
    ProbeNextShape(tx, now);
  }

  lemma ProbeNextShape(tx: Tx, now: u64)
    requires FirstPayload(tx.unacked) == None && tx.queue != []
    ensures var t := Fresh(tx, DATA_FLAGS, [tx.queue[0]], now);
            Probe(tx, now) == Sent(WithPiece(tx, t, tx.queue[1..], tx.closeRequested), [t]) && t.Len() == 1
  {
  }

  lemma NextBytePiece(tx: Tx, s: Stream, u: int, now: u64)
    requires TxOk(tx, s, u) && FirstPayload(tx.unacked) == None && tx.queue != []
    ensures PieceOk(Fresh(tx, DATA_FLAGS, [tx.queue[0]], now), NxtPos(tx, u), s)
    ensures NxtPos(tx, u) + 1 <= u + MAX_SPAN && QueueAt(tx.queue[1..], s, NxtPos(tx, u) + 1)
  {
    hide KarnOk, Off, Wrap, Add, Chain, ControlOk, BudgetOk, RecoveryOk, FirstPayload, Distance, Stream.Count;
    var n := NxtPos(tx, u);
    NoPayloadSpan(tx.unacked, u, n, s);
    NxtWraps(tx, u);
    assert tx.queue == s.bytes[n - s.base..];
    assert tx.queue[1..] == s.bytes[n + 1 - s.base..];
    assert [tx.queue[0]] == s.bytes[n - s.base..n - s.base + 1];
  }

  lemma ReprobeKeeps(tx: Tx, s: Stream, u: int, now: u64, i: nat)
    requires TxOk(tx, s, u) && FirstPayload(tx.unacked) == Some(i)
    ensures var r := Probe(tx, now);
            && TxOk(r.tx, s, u) && NxtPos(r.tx, u) == NxtPos(tx, u)
            && PacketsOk(r.out, s, u, NxtPos(r.tx, u)) && |r.out| == 1
  {
    hide KarnInv, KarnChain, Off, Wrap, Add, Chain, FirstPayload, Distance;
    var r := Probe(tx, now);
    var t := tx.unacked[i];
    var n := NxtPos(tx, u);
    ChainUpdate(tx.unacked, u, n, s, i, t.(sends := t.sends + 1));
    RemarkAtNxt(tx, s, u, r.tx.unacked);
    var p := ChainMember(tx.unacked, u, n, s, i);
    assert PieceOk(r.out[0], p, s);
    assert forall x :: x in r.tx.unacked ==> x == t.(sends := t.sends + 1) || x in tx.unacked;
    assert t in tx.unacked;
  }

  /** Window, persist timer and duplicate count are independent of the queues. */
  lemma TimersAreIndependent(tx: Tx, s: Stream, u: int, tx': Tx)
    requires TxOk(tx, s, u)
    requires tx' == tx.(window := tx'.window, probeAt := tx'.probeAt, probes := tx'.probes)
    ensures TxOk(tx', s, u) && NxtPos(tx', u) == NxtPos(tx, u)
  {
    hide KarnInv, Off, Wrap, Chain, RenoOk, RttOk, Distance;
  }

  /**
   * When the persist deadline has passed the timer gives up with its probes spent, and else sends
   * one byte of the stream if there is any.
   */
  lemma PollZeroWindowKeeps(tx: Tx, s: Stream, u: int, now: u64, cfg: Config)
    requires TxOk(tx, s, u)
    ensures var r := PollZeroWindow(tx, now, cfg);
            && TxOk(r.tx, s, u) && NxtPos(tx, u) <= NxtPos(r.tx, u)
            && PacketsOk(r.out, s, u, NxtPos(r.tx, u)) && |r.out| <= 1
    ensures var r := PollZeroWindow(tx, now, cfg);
            var due := now >= if tx.probeAt.Some? then tx.probeAt.value else SatAdd(now, cfg.initialRto);
            && (r.closed <==> due && tx.probes >= cfg.maxRetransmissions)
            && (r.out != [] <==> due && tx.probes < cfg.maxRetransmissions && HasProbePayload(tx))
            && (forall t :: t in r.out ==> |t.payload| == 1)
  {
    hide TxOk, PacketsOk, Probe, NxtPos, ProbeDelay;
    var deadline := if tx.probeAt.Some? then tx.probeAt.value else SatAdd(now, cfg.initialRto);
    var armed := tx.(probeAt := Some(deadline));
    TimersAreIndependent(tx, s, u, armed);
    ProbeKeeps(armed, s, u, now);
    ProbeIsOneByte(armed, now);
    var probe := Probe(armed, now);
    NoPackets(s, u, NxtPos(tx, u));
    if probe.out != [] {
      var probes := Min(tx.probes + 1, 255);
      TimersAreIndependent(probe.tx, s, u,
                           probe.tx.(probes := probes, probeAt := Some(SatAdd(now, ProbeDelay(probes, cfg)))));
    }
  }

  /** The oldest payload in flight is the first unacknowledged byte of the stream. */
  lemma {:induction false} FirstPayloadAt(ts: seq<Tracked>, p: int, q: int, s: Stream)
    requires Chain(ts, p, q, s) && s.base - 1 <= p
    ensures match FirstPayload(ts)
            case Some(i) => PieceOk(ts[i], Max(p, s.base), s) && Max(p, s.base) < s.End()
            case None => !s.ended ==> Max(p, s.base) == Max(q, s.base)
  {
    hide Wrap;
    if ts != [] {
      ChainOrder(ts, p, q, s);
      PieceLen(ts[0], p, s);
      FirstPayloadAt(ts[1..], p + ts[0].Len(), q, s);
    }
  }

  /**
   * A probe of a closed window always carries the first byte of the stream that is not acknowledged,
   * whether that was sent before or not.
   */
  lemma ProbesOldestByte(tx: Tx, s: Stream, u: int, now: u64, cfg: Config)
    requires TxOk(tx, s, u) && PollZeroWindow(tx, now, cfg).out != []
    ensures var out := PollZeroWindow(tx, now, cfg).out;
            && tx.acked < |s.bytes| && out[0].payload == [s.bytes[tx.acked]] && out[0].seqNo == Wrap(Max(u, s.base))
  {
    var deadline := if tx.probeAt.Some? then tx.probeAt.value else SatAdd(now, cfg.initialRto);
    ProbeIs(tx.(probeAt := Some(deadline)), now);
    hide TxOk, Probe, FirstPayload, Wrap, ProbeDelay;
    OldestByteAt(tx, s, u);
  }

  /** The oldest payload in flight, or else the front of the queue, is the first unacknowledged byte. */
  lemma OldestByteAt(tx: Tx, s: Stream, u: int)
    requires TxOk(tx, s, u) && HasProbePayload(tx)
    ensures tx.acked < |s.bytes|
    ensures match FirstPayload(tx.unacked)
            case Some(i) => tx.unacked[i].seqNo == Wrap(Max(u, s.base)) && tx.unacked[i].payload[0] == s.bytes[tx.acked]
            case None => tx.queue != [] && tx.nxt == Wrap(Max(u, s.base)) && tx.queue[0] == s.bytes[tx.acked]
  {
    hide Wrap, KarnOk, BudgetOk, RecoveryOk, ControlOk, Chain, FirstPayload, InFlight;
    FirstPayloadAt(tx.unacked, u, NxtPos(tx, u), s);
    NxtWraps(tx, u);
  }

  lemma ProbeIs(tx: Tx, now: u64)
    ensures var out := Probe(tx, now).out;
            match FirstPayload(tx.unacked)
            case Some(i) =>
              |out| == 1 && out[0].seqNo == tx.unacked[i].seqNo && out[0].payload == [tx.unacked[i].payload[0]]
            case None => if tx.queue == [] then out == []
                         else |out| == 1 && out[0].seqNo == tx.nxt && out[0].payload == [tx.queue[0]]
  {
    hide FirstPayload, SendTracked;
  }

  lemma ProbeIsOneByte(tx: Tx, now: u64)
    ensures forall t :: t in Probe(tx, now).out ==> |t.payload| == 1
  {
    hide SendTracked;
  }

  lemma NoPackets(s: Stream, lo: int, n: int)
    ensures PacketsOk([], s, lo, n)
  {
  }

  /**
   * When the retransmission deadline has passed the timer gives up with the oldest segment's budget
   * spent, and else marks the flight for recovery, falls back to one segment of window, doubles the
   * timeout up to its maximum, and sends the oldest segment again.
   */
  lemma PollRetransmitKeeps(tx: Tx, s: Stream, u: int, now: u64, cfg: Config)
    requires TxOk(tx, s, u)
    ensures var r := PollRetransmit(tx, now, cfg);
            && TxOk(r.tx, s, u) && NxtPos(r.tx, u) == NxtPos(tx, u)
            && PacketsOk(r.out, s, u, NxtPos(tx, u)) && |r.out| <= 1
    ensures var r := PollRetransmit(tx, now, cfg);
            var due := tx.unacked != [] && now >= SatAdd(tx.unacked[0].sentAt, tx.rtt.rto);
            && (r.closed <==> due && tx.unacked[0].transmissions >= cfg.maxRetransmissions)
            && (due && !r.closed ==>
                  && (tx.maxTransmissions == cfg.maxRetransmissions ==> |r.out| == 1)
                  && (r.out != [] ==> r.out[0].seqNo == tx.una && r.out[0].payload == tx.unacked[0].payload)
                  && r.tx.rtoRecoveryUntil.Some?
                  && (tx.rtoRecoveryUntil == None ==> r.tx.rtoRecoveryUntil.value == tx.nxt)
                  && r.tx.reno.inRtoRecovery && r.tx.reno.cwnd == tx.mss
                  && r.tx.rtt.rto == Min(2 * tx.rtt.rto, tx.rtt.maxRto))
            && (!due ==> r.tx == tx && r.out == [])
  {
    if tx.unacked != [] {
      if now >= RtoDeadline(tx) && tx.unacked[0].transmissions < cfg.maxRetransmissions {
        TimeoutFires(tx, s, u, now, cfg);
      }
      BackOffKeeps(tx, s, u);
      hide TxOk, PacketsOk, NxtPos, RetransmitOldest;
      RetransmitKeeps(BackedOff(tx), s, u, now, true);
    }
    NoPackets(s, u, NxtPos(tx, u));
  }

  lemma TimeoutFires(tx: Tx, s: Stream, u: int, now: u64, cfg: Config)
    requires TxOk(tx, s, u) && tx.unacked != [] && now >= RtoDeadline(tx)
    requires tx.unacked[0].transmissions < cfg.maxRetransmissions
    ensures var r := PollRetransmit(tx, now, cfg);
            && !r.closed && r.tx.rtoRecoveryUntil.Some?
            && (tx.rtoRecoveryUntil == None ==> r.tx.rtoRecoveryUntil.value == tx.nxt)
            && r.tx.reno.inRtoRecovery && r.tx.reno.cwnd == tx.mss && r.tx.rtt.rto == Min(2 * tx.rtt.rto, tx.rtt.maxRto)
            && (tx.maxTransmissions == cfg.maxRetransmissions ==> |r.out| == 1)
            && (r.out != [] ==> r.out[0].seqNo == tx.una && r.out[0].payload == tx.unacked[0].payload)
  {
    hide KarnOk, Wrap, InFlight, RecoveryOk, BudgetOk, RenoState.LossThreshold;
    assert tx.unacked[0].seqNo == tx.una;
  }

  function BackedOff(tx: Tx): Tx {
    tx.(rtoRecoveryUntil := if tx.rtoRecoveryUntil.Some? then tx.rtoRecoveryUntil else Some(tx.nxt),
        reno := tx.reno.OnTimeout(InFlight(tx)),
        rtt := tx.rtt.OnTimeout())
  }

  lemma BackOffKeeps(tx: Tx, s: Stream, u: int)
    requires TxOk(tx, s, u) && tx.unacked != []
    ensures TxOk(BackedOff(tx), s, u) && NxtPos(BackedOff(tx), u) == NxtPos(tx, u)
  {
    var n := NxtPos(tx, u);
    NxtWraps(tx, u);
    WrapOrder(n, u);
    ChainOrder(tx.unacked, u, n, s);
    hide KarnInv, Off, Wrap, Chain, Distance, RenoState.OnTimeout, RttState.OnTimeout, RenoOk, RttOk;
    TimeoutBounds(tx.reno, tx.rtt, InFlight(tx));
  }

  lemma TimeoutBounds(reno: RenoState, rtt: RttState, inFlight: u32)
    requires RenoOk(reno) && RttOk(rtt)
    ensures RenoOk(reno.OnTimeout(inFlight)) && reno.OnTimeout(inFlight).mss == reno.mss
    ensures RttOk(rtt.OnTimeout()) && rtt.OnTimeout().sampleAfter == rtt.sampleAfter
  {
  }

  // ---------------------------------------------------------------- the application

  /** Accepting bytes extends the stream. */
  lemma AcceptKeeps(tx: Tx, s: Stream, u: int, data: seq<byte>)
    requires TxOk(tx, s, u) && !s.ended
    ensures var tx' := tx.(queue := tx.queue + data, accepted := tx.accepted + |data|);
            TxOk(tx', s.(bytes := s.bytes + data), u) && NxtPos(tx', u) == NxtPos(tx, u)
  {
    hide KarnInv, Off, Wrap, Chain, Distance, RenoOk, RttOk;
    var s' := s.(bytes := s.bytes + data);
    ChainExtends(tx.unacked, u, NxtPos(tx, u), s, s');
  }

  /** Negotiation only lowers the segment size. */
  lemma NegotiateKeeps(tx: Tx, s: Stream, u: int, segment: Segment, cfg: Config)
    requires TxOk(tx, s, u) && tx.mss == cfg.mss
    ensures var tx' := NegotiateMss(tx, segment, cfg);
            TxOk(tx', s, u) && NxtPos(tx', u) == NxtPos(tx, u) && 1 <= tx'.mss <= cfg.mss
  {
    hide KarnInv, Off, Wrap, Chain, Distance, RttOk;
  }
}
