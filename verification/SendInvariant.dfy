/**
 * What the sending half keeps, for every sequence of operations and every ACK a peer may send: the
 * retransmission queue is the unacknowledged part of the byte stream, in order, and the Karn mark,
 * the retry budget and the recovery mark stay inside it. Positions are those of `Delivery.Stream`.
 */
module SendInvariant {
  import opened Numbers
  import opened SequenceSpace
  import opened Wire
  import opened RenoControl
  import opened RttEstimation
  import opened Sender
  import opened Delivery

  const MAX_SPAN: int := 0xFFFF

  /** The SYN, the FIN, or a non-empty piece of the stream, at position `p`. */
  ghost predicate PieceOk(t: Tracked, p: int, s: Stream) {
    && t.seqNo == Wrap(p)
    && (if t.flags.syn then t.flags in {SYN_FLAG, SYN_ACK} && t.payload == [] && p == s.base - 1
        else if t.flags.fin then t.flags == FIN_FLAGS && t.payload == [] && s.ended && p == s.End()
        else t.flags == DATA_FLAGS && t.payload != [] && s.Holds(p, t.payload))
  }

  /** The segments are consecutive pieces from `p` to `q`. */
  ghost predicate Chain(ts: seq<Tracked>, p: int, q: int, s: Stream) {
    if ts == [] then p == q
    else PieceOk(ts[0], p, s) && Chain(ts[1..], p + ts[0].Len(), q, s)
  }

  /** A segment ends at or before the mark `m`, or starts at or after it and was sent once. */
  ghost predicate KarnChain(ts: seq<Tracked>, p: int, m: int) {
    ts == []
    || ((p + ts[0].Len() <= m || (m <= p && ts[0].sends == 1)) && KarnChain(ts[1..], p + ts[0].Len(), m))
  }

  /** The position of `sample_after`; unset, every segment in the queue was sent once. */
  function KarnMark(tx: Tx, u: int): int {
    if tx.rtt.sampleAfter.Some? then u + Off(tx.una, tx.rtt.sampleAfter.value) else u
  }

  /** The position of `nxt`, given that of `una`. */
  function NxtPos(tx: Tx, u: int): int {
    u + InFlight(tx)
  }

  /** The queue is everything after the first `k` bytes. */
  ghost predicate IsRest(queue: seq<byte>, bytes: seq<byte>, k: int) {
    && 0 <= k && k + |queue| == |bytes|
    && forall i :: 0 <= i < |queue| ==> queue[i] == bytes[k + i]
  }

  /** The retransmission queue followed by the send queue is the stream from `una` on. */
  ghost predicate QueuesOk(tx: Tx, s: Stream, u: int) {
    var n := NxtPos(tx, u);
    && tx.una == Wrap(u)
    && s.base - 1 <= u && s.base <= n <= u + MAX_SPAN
    && Chain(tx.unacked, u, n, s)
    && (if s.ended then n == s.End() + 1 && tx.queue == [] else IsRest(tx.queue, s.bytes, n - s.base))
    && tx.accepted == |s.bytes| && tx.acked == s.Count(u)
  }

  /** The mark lies in the queue or less than one segment before it, so it never wraps. */
  ghost predicate KarnInv(ts: seq<Tracked>, u: int, n: int, m: int) {
    && m <= n
    && KarnChain(ts, u, m)
    && (u <= m || (ts != [] && u + ts[0].Len() - m <= MAX_SPAN))
  }

  ghost predicate KarnOk(tx: Tx, u: int) {
    KarnInv(tx.unacked, u, NxtPos(tx, u), KarnMark(tx, u))
  }

  ghost predicate BudgetOk(ts: seq<Tracked>, maxTransmissions: u8) {
    forall t :: t in ts ==> 1 <= t.transmissions <= Max(1, maxTransmissions)
  }

  /** The recovery mark lies in (una, nxt]. */
  ghost predicate RecoveryOk(tx: Tx) {
    tx.rtoRecoveryUntil.Some? ==> 0 < Off(tx.una, tx.rtoRecoveryUntil.value) <= InFlight(tx)
  }

  ghost predicate ControlOk(tx: Tx) {
    RenoOk(tx.reno) && tx.reno.mss == tx.mss && RttOk(tx.rtt)
  }

  ghost predicate TxOk(tx: Tx, s: Stream, u: int) {
    QueuesOk(tx, s, u) && KarnOk(tx, u) && BudgetOk(tx.unacked, tx.maxTransmissions) && RecoveryOk(tx) && ControlOk(tx)
  }

  /** A segment put on the wire is a piece of the stream between two positions. */
  ghost predicate PacketOk(t: Tracked, s: Stream, lo: int, n: int) {
    exists p :: PieceOk(t, p, s) && lo <= p && p + t.Len() <= n
  }

  ghost predicate PacketsOk(out: seq<Tracked>, s: Stream, lo: int, n: int) {
    forall t :: t in out ==> PacketOk(t, s, lo, n)
  }

  // ---------------------------------------------------------------- chains

  lemma PieceLen(t: Tracked, p: int, s: Stream)
    requires PieceOk(t, p, s)
    ensures t.seqNo == Wrap(p) && 1 <= t.Len() && t.End() == Wrap(p + t.Len())
    ensures s.base - 1 <= p && p + t.Len() <= s.End() + Bit(s.ended)
    ensures s.Count(p + t.Len()) - s.Count(p) == |t.payload|
    ensures t.flags.fin <==> s.ended && p == s.End()
  {
    hide Wrap, Add;
    WrapAdd(p, |t.payload|);
    WrapAdd(p + |t.payload|, Bit(t.flags.syn));
    WrapAdd(p + |t.payload| + Bit(t.flags.syn), Bit(t.flags.fin));
  }

  lemma {:induction false} ChainOrder(ts: seq<Tracked>, p: int, q: int, s: Stream)
    requires Chain(ts, p, q, s)
    ensures p <= q && (ts != [] ==> p + ts[0].Len() <= q) && (ts == [] <==> p == q)
    ensures ts != [] ==> s.base - 1 <= p && q <= s.End() + Bit(s.ended)
  {
    hide Wrap, Add;
    if ts != [] {
      PieceLen(ts[0], p, s);
      ChainOrder(ts[1..], p + ts[0].Len(), q, s);
    }
  }

  lemma {:induction false} ChainAppend(ts: seq<Tracked>, p: int, q: int, s: Stream, t: Tracked)
    requires Chain(ts, p, q, s) && PieceOk(t, q, s)
    ensures Chain(ts + [t], p, q + t.Len(), s)
  {
    hide Wrap, Add, PieceOk;
    if ts == [] {
      assert (ts + [t])[1..] == [];
    } else {
      ChainAppend(ts[1..], p + ts[0].Len(), q, s, t);
      assert (ts + [t])[1..] == ts[1..] + [t];
    }
  }

  lemma {:induction false} ChainExtends(ts: seq<Tracked>, p: int, q: int, s: Stream, s': Stream)
    requires Chain(ts, p, q, s) && s'.Extends(s)
    ensures Chain(ts, p, q, s')
  {
    hide Wrap, Add;
    if ts != [] {
      ChainExtends(ts[1..], p + ts[0].Len(), q, s, s');
    }
  }

  /** Replacing the first segment by a copy with other bookkeeping. */
  lemma ChainFront(ts: seq<Tracked>, p: int, q: int, s: Stream, t: Tracked)
    requires Chain(ts, p, q, s) && ts != []
    requires t.seqNo == ts[0].seqNo && t.flags == ts[0].flags && t.payload == ts[0].payload
    ensures Chain([t] + ts[1..], p, q, s)
  {
    assert ([t] + ts[1..])[1..] == ts[1..];
  }

  lemma {:induction false} ChainUpdate(ts: seq<Tracked>, p: int, q: int, s: Stream, i: nat, t: Tracked)
    requires Chain(ts, p, q, s) && i < |ts|
    requires t.seqNo == ts[i].seqNo && t.flags == ts[i].flags && t.payload == ts[i].payload
    ensures Chain(ts[i := t], p, q, s)
  {
    hide Wrap, Add;
    if i == 0 {
      assert ts[0 := t] == [t] + ts[1..];
      ChainFront(ts, p, q, s, t);
    } else {
      ChainUpdate(ts[1..], p + ts[0].Len(), q, s, i - 1, t);
      assert ts[i := t][1..] == ts[1..][i - 1 := t];
    }
  }

  /** Every segment in the queue sits at a position between `p` and `q`. */
  lemma {:induction false} ChainMember(ts: seq<Tracked>, p: int, q: int, s: Stream, i: nat) returns (r: int)
    requires Chain(ts, p, q, s) && i < |ts|
    ensures PieceOk(ts[i], r, s) && p <= r && r + ts[i].Len() <= q
  {
    hide Wrap, Add;
    ChainOrder(ts, p, q, s);
    PieceLen(ts[0], p, s);
    if i == 0 {
      r := p;
    } else {
      r := ChainMember(ts[1..], p + ts[0].Len(), q, s, i - 1);
    }
  }

  /** When everything up to the mark is behind it, the mark of `nxt` covers the whole queue. */
  lemma {:induction false} KarnAll(ts: seq<Tracked>, p: int, q: int, s: Stream)
    requires Chain(ts, p, q, s)
    ensures KarnChain(ts, p, q)
  {
    hide Wrap, Add, PieceOk;
    if ts != [] {
      ChainOrder(ts, p, q, s);
      KarnAll(ts[1..], p + ts[0].Len(), q, s);
    }
  }

  lemma {:induction false} KarnAppend(ts: seq<Tracked>, p: int, q: int, s: Stream, m: int, t: Tracked)
    requires Chain(ts, p, q, s) && KarnChain(ts, p, m) && m <= q && t.sends == 1
    ensures KarnChain(ts + [t], p, m)
  {
    hide Wrap, Add, PieceOk;
    if ts == [] {
      assert (ts + [t])[1..] == [];
    } else {
      KarnAppend(ts[1..], p + ts[0].Len(), q, s, m, t);
      assert (ts + [t])[1..] == ts[1..] + [t];
    }
  }

  /** Segments after the mark were all sent once, so any mark before them will do. */
  lemma {:induction false} KarnFresh(ts: seq<Tracked>, p: int, q: int, s: Stream, m: int, m': int)
    requires Chain(ts, p, q, s) && KarnChain(ts, p, m) && m <= p && m' <= p
    ensures KarnChain(ts, p, m')
    ensures forall t :: t in ts ==> t.sends == 1
  {
    hide Wrap, Add;
    if ts != [] {
      PieceLen(ts[0], p, s);
      KarnFresh(ts[1..], p + ts[0].Len(), q, s, m, m');
    }
  }

  // ---------------------------------------------------------------- acknowledgements

  /** The segments an ACK of position `a` pops: they end at `b`, and the next one passes `a`. */
  lemma {:induction false} PoppedPrefix(ts: seq<Tracked>, p: int, q: int, s: Stream, a: int) returns (b: int)
    requires Chain(ts, p, q, s) && p <= a <= q <= p + MAX_SPAN
    ensures var k := AckedCount(ts, Wrap(a));
            && p <= b <= a && b == SpanOf(ts[..k], p) && Chain(ts[k..], b, q, s)
            && (k == |ts| ==> b == a) && (k < |ts| ==> a < b + ts[k].Len())
            && (k == 0 ==> b == p)
            && PayloadIn(ts[..k]) == s.Count(b) - s.Count(p)
            && (HasFin(ts[..k]) <==> s.ended && p <= s.End() < b)
  {
    hide Wrap, Add, HasFin, BeforeOrEqual, Stream.Count, Chain, PieceOk, AckedCount, PayloadIn;
    b := PoppedSpan(ts, p, q, s, a);
    PrefixTotals(ts, p, q, s, AckedCount(ts, Wrap(a)));
  }

  lemma {:induction false} PoppedSpan(ts: seq<Tracked>, p: int, q: int, s: Stream, a: int) returns (b: int)
    requires Chain(ts, p, q, s) && p <= a <= q <= p + MAX_SPAN
    ensures var k := AckedCount(ts, Wrap(a));
            && p <= b <= a && b == SpanOf(ts[..k], p) && Chain(ts[k..], b, q, s)
            && (k == |ts| ==> b == a) && (k < |ts| ==> a < b + ts[k].Len())
            && (k == 0 ==> b == p)
  {
    hide Wrap, Add, BeforeOrEqual, Stream.Count;
    var k := AckedCount(ts, Wrap(a));
    b := p;
    if ts != [] {
      PieceLen(ts[0], p, s);
      ChainOrder(ts, p, q, s);
      WrapOrder(p + ts[0].Len(), a);
      hide PieceOk, Tracked.Len, Tracked.End;
      if k > 0 {
        b := PoppedSpan(ts[1..], p + ts[0].Len(), q, s, a);
        assert ts[..k][1..] == ts[1..][..k - 1];
        assert ts[1..][k - 1..] == ts[k..];
      }
    }
  }

  /** The payload of leading segments is the stream between their ends; the FIN is past its end. */
  lemma {:induction false} PrefixTotals(ts: seq<Tracked>, p: int, q: int, s: Stream, k: nat)
    requires Chain(ts, p, q, s) && k <= |ts|
    ensures p <= SpanOf(ts[..k], p) && PayloadIn(ts[..k]) == s.Count(SpanOf(ts[..k], p)) - s.Count(p)
    ensures HasFin(ts[..k]) <==> s.ended && p <= s.End() < SpanOf(ts[..k], p)
  {
    hide Wrap, Add, HasFin, Stream.Count;
    NoFin();
    if k > 0 {
      PieceLen(ts[0], p, s);
      hide PieceOk, Tracked.Len, Tracked.End;
      PrefixTotals(ts[1..], p + ts[0].Len(), q, s, k - 1);
      assert ts[..k][1..] == ts[1..][..k - 1];
      FinFirst(ts[..k]);
    }
  }

  lemma NoFin()
    ensures !HasFin([])
  {
  }

  lemma FinFirst(ts: seq<Tracked>)
    requires ts != []
    ensures HasFin(ts) <==> ts[0].flags.fin || HasFin(ts[1..])
  {
    if HasFin(ts) {
      var i :| 0 <= i < |ts| && ts[i].flags.fin;
      assert i > 0 ==> ts[1..][i - 1].flags.fin;
    }
    if HasFin(ts[1..]) {
      var i :| 0 <= i < |ts[1..]| && ts[1..][i].flags.fin;
      assert ts[i + 1].flags.fin;
    }
  }

  /** Trimming the segment that the ACK cuts leaves a chain from the ACK on. */
  lemma TrimmedFront(ts: seq<Tracked>, b: int, q: int, s: Stream, a: int)
    requires Chain(ts, b, q, s) && b <= a <= q <= b + MAX_SPAN
    requires if ts == [] then b == a else a < b + ts[0].Len()
    ensures Chain(TrimFront(ts, Wrap(a)), a, q, s)
    ensures TrimCount(ts, Wrap(a)) == s.Count(a) - s.Count(b)
    ensures var trimmed := TrimFront(ts, Wrap(a));
            if ts == [] then trimmed == []
            else trimmed != [] && trimmed[1..] == ts[1..] && a + trimmed[0].Len() == b + ts[0].Len()
                 && trimmed[0].sends == ts[0].sends && trimmed[0].transmissions == ts[0].transmissions
  {
    hide Wrap, Add, Before, Distance, PieceOk, Stream.Count;
    if ts != [] {
      var t := ts[0];
      PieceLen(t, b, s);
      ChainOrder(ts, b, q, s);
      WrapOrder(a, b);
      WrapOrder(b, a);
      WrapOrder(a, b + t.Len());
      if b < a {
        TrimmedPiece(t, b, s, a);
      }
      if b == a {
        assert TrimFront(ts, Wrap(a)) == ts == [t] + ts[1..];
      } else {
        var t' := t.(payload := t.payload[a - b..], seqNo := Wrap(a));
        assert TrimFront(ts, Wrap(a)) == [t'] + ts[1..];
        assert ([t'] + ts[1..])[1..] == ts[1..];
      }
    }
  }

  lemma TrimmedPiece(t: Tracked, b: int, s: Stream, a: int)
    requires PieceOk(t, b, s) && b < a < b + t.Len()
    ensures !t.flags.syn && !t.flags.fin && |t.payload| == t.Len()
    ensures var t' := t.(payload := t.payload[a - b..], seqNo := Wrap(a));
            PieceOk(t', a, s) && a + t'.Len() == b + t.Len()
    ensures s.Count(a) - s.Count(b) == a - b
  {
  }

  /** The sample times one of the first k segments, which was sent exactly once. */
  ghost predicate SampledFrom(ts: seq<Tracked>, k: nat, ms: nat, now: u64) {
    exists i :: 0 <= i < k <= |ts| && ts[i].sends == 1 && ms == SatSub(now, ts[i].sentAt)
  }

  /** Karn's rule: the sample of an ACK comes from a popped segment that was sent exactly once. */
  lemma {:induction false} SampleSentOnce(
      ts: seq<Tracked>, p: int, q: int, s: Stream, k: nat, rtt: RttState, m: int, now: u64)
    requires Chain(ts, p, q, s) && KarnChain(ts, p, m) && k <= |ts|
    requires if rtt.sampleAfter.Some? then rtt.sampleAfter.value == Wrap(m) && q - 0x7000_0000 <= m <= q else m <= p
    requires q <= p + MAX_SPAN
    ensures var sample := LastSample(ts[..k], rtt, now);
            && (sample.None? && k > 0 ==> SpanOf(ts[..k], p) <= m)
            && (sample.Some? ==> m < SpanOf(ts[..k], p) && SampledFrom(ts, k, sample.value, now))
    decreases k
  {
    hide Wrap, Add, After, Before, PieceOk, Tracked.End, Tracked.Len;
    if k > 0 {
      var t := ts[k - 1];
      assert ts[..k][..k - 1] == ts[..k - 1];
      var r := SpanMember(ts, p, q, s, m, k - 1);
      PieceLen(t, r, s);
      ChainOrder(ts, p, q, s);
      if rtt.sampleAfter.Some? {
        WrapOrder(r + t.Len(), m);
      }
      SampleSentOnce(ts, p, q, s, k - 1, rtt, m, now);
      SpanSnoc(ts[..k], p);
    }
  }

  /** The position after a run of segments that starts at `p`. */
  function SpanOf(ts: seq<Tracked>, p: int): int {
    if ts == [] then p else SpanOf(ts[1..], p + ts[0].Len())
  }

  lemma {:induction false} SpanSnoc(ts: seq<Tracked>, p: int)
    requires ts != []
    ensures SpanOf(ts, p) == SpanOf(ts[..|ts| - 1], p) + ts[|ts| - 1].Len()
  {
    if |ts| > 1 {
      SpanSnoc(ts[1..], p + ts[0].Len());
      assert ts[1..][..|ts| - 2] == ts[..|ts| - 1][1..];
    }
  }

  /** Segment i sits at the span of those before it, and respects the Karn mark. */
  lemma {:induction false} SpanMember(ts: seq<Tracked>, p: int, q: int, s: Stream, m: int, i: nat) returns (r: int)
    requires Chain(ts, p, q, s) && KarnChain(ts, p, m) && i < |ts|
    ensures r == SpanOf(ts[..i], p) && PieceOk(ts[i], r, s) && p <= r && r + ts[i].Len() <= q
    ensures r + ts[i].Len() <= m || (m <= r && ts[i].sends == 1)
  {
    hide Wrap, Add;
    ChainOrder(ts, p, q, s);
    PieceLen(ts[0], p, s);
    if i == 0 {
      r := p;
    } else {
      assert ts[..i][1..] == ts[1..][..i - 1];
      r := SpanMember(ts[1..], p + ts[0].Len(), q, s, m, i - 1);
    }
  }

  lemma {:induction false} KarnDrop(ts: seq<Tracked>, p: int, m: int, k: nat)
    requires KarnChain(ts, p, m) && k <= |ts|
    ensures KarnChain(ts[k..], SpanOf(ts[..k], p), m)
  {
    if k > 0 {
      assert ts[..k][1..] == ts[1..][..k - 1];
      assert ts[1..][k - 1..] == ts[k..];
      KarnDrop(ts[1..], p + ts[0].Len(), m, k - 1);
    }
  }

  lemma KarnTrimmed(rest: seq<Tracked>, trimmed: seq<Tracked>, b: int, a: int, m: int)
    requires KarnChain(rest, b, m) && b <= a
    requires if rest == [] then trimmed == []
             else trimmed != [] && trimmed[1..] == rest[1..] && trimmed[0].sends == rest[0].sends
                  && a + trimmed[0].Len() == b + rest[0].Len()
    ensures KarnChain(trimmed, a, m)
  {
  }

  /** Without a sample everything popped ends at or before the mark, and the mark stays. */
  lemma KarnWithoutSample(
      ts: seq<Tracked>, u: int, n: int, s: Stream, m: int, k: nat, b: int, trimmed: seq<Tracked>, a: int)
    requires Chain(ts, u, n, s) && KarnInv(ts, u, n, m) && n <= u + MAX_SPAN && k <= |ts|
    requires b == SpanOf(ts[..k], u) && (k > 0 ==> b <= m) && u <= b <= a <= n
    requires Chain(ts[k..], b, n, s) && (k < |ts| ==> a < b + ts[k].Len()) && (k == |ts| ==> b == a)
    requires if k == |ts| then trimmed == []
             else trimmed != [] && trimmed[1..] == ts[k..][1..] && trimmed[0].sends == ts[k].sends
                  && a + trimmed[0].Len() == b + ts[k].Len()
    ensures KarnInv(trimmed, a, n, m)
  {
    hide Wrap, Add, PieceOk, KarnChain, Chain;
    KarnDrop(ts, u, m, k);
    KarnTrimmed(ts[k..], trimmed, b, a, m);
    ChainOrder(ts[k..], b, n, s);
    if k < |ts| {
      var r := SpanMember(ts, u, n, s, m, k);
    }
  }
}
