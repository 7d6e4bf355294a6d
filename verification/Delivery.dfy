/**
 * Reassembly against the peer's byte stream. Positions are unbounded: byte i of a stream is at
 * `base + i`, its SYN at `base - 1`, and its FIN just after the last byte.
 */
module Delivery {
  import opened Numbers
  import opened SequenceSpace
  import opened Receiver

  /** The bytes an endpoint has accepted for sending; `ended` once its FIN has been created. */
  datatype Stream = Stream(base: int, bytes: seq<byte>, ended: bool) {
    function End(): int {
      base + |bytes|
    }

    predicate Holds(p: int, payload: seq<byte>) {
      && base <= p && p + |payload| <= End()
      && forall i :: 0 <= i < |payload| ==> payload[i] == bytes[p - base + i]
    }

    /** How many of the bytes lie before a position. */
    function Count(p: int): (n: nat)
      ensures n <= |bytes|
    {
      Clamp(p - base, 0, |bytes|)
    }

    /** The bytes between two positions. */
    function Slice(p: int, q: int): seq<byte>
      requires p <= q
    {
      bytes[Count(p)..Count(q)]
    }

    /** A later version of the same stream. */
    predicate Extends(earlier: Stream) {
      && base == earlier.base && earlier.bytes <= bytes
      && (earlier.ended ==> ended && bytes == earlier.bytes)
    }
  }

  ghost predicate ChunkMatches(c: Chunk, p: int, s: Stream) {
    s.Holds(p, c.payload) && (c.fin ==> s.ended && p + |c.payload| == s.End())
  }

  /** `nxt` stands for position `r`, and everything parked agrees with the peer's stream. */
  ghost predicate RxMatches(rx: Rx, r: int, s: Stream) {
    && rx.nxt == Wrap(r) && s.base <= r
    && (if rx.closed then s.ended && r == s.End() + 1 else r <= s.End())
    && (forall c :: c in rx.chunks ==> ChunkMatches(c, r + Off(rx.nxt, c.seqNo), s))
  }

  lemma MatchesExtends(rx: Rx, r: int, s: Stream, s': Stream)
    requires RxMatches(rx, r, s) && s'.Extends(s)
    ensures RxMatches(rx, r, s')
  {
  }

  /** A segment that agrees with the stream leaves a chunk that does. */
  lemma ChunkForMatches(rx: Rx, r: int, s: Stream, seqNo: u32, payload: seq<byte>, fin: bool, p: int)
    requires RxMatches(rx, r, s) && ChunkMatches(Chunk(seqNo, payload, fin), p, s)
    requires seqNo == Wrap(p) && -0x8000_0000 < p - r < 0x4000_0000 && |payload| < 0x4000_0000
    ensures match ChunkFor(rx, seqNo, payload, fin)
            case None => true
            case Some(c) => ChunkMatches(c, r + Off(rx.nxt, c.seqNo), s)
  {
    WrapOrder(p, r);
    WrapOrder(r, r);
    match ChunkFor(rx, seqNo, payload, fin)
    case None =>
    case Some(c) =>
      if Before(seqNo, rx.nxt) && r - p >= |payload| && c.fin {
        WrapAdd(p, |payload|);
        WrapAdd(r, 0);
        WrapOrder(p + |payload|, r);
      }
  }

  lemma InsertMatches(rx: Rx, r: int, s: Stream, seqNo: u32, payload: seq<byte>, fin: bool, p: int, slots: nat)
    requires RxMatches(rx, r, s) && ChunkMatches(Chunk(seqNo, payload, fin), p, s)
    requires seqNo == Wrap(p) && -0x8000_0000 < p - r < 0x4000_0000 && |payload| < 0x4000_0000
    ensures RxMatches(Insert(rx, seqNo, payload, fin, slots), r, s)
  {
    hide Off, Wrap, ChunkFor, Insert, ChunkMatches;
    ChunkForMatches(rx, r, s, seqNo, payload, fin, p);
    InsertCases(rx, seqNo, payload, fin, slots);
    if Insert(rx, seqNo, payload, fin, slots) != rx {
      var c := ChunkFor(rx, seqNo, payload, fin).value;
      assert forall d :: d in rx.chunks + [c] <==> d in rx.chunks || d == c;
    }
  }

  lemma InsertCases(rx: Rx, seqNo: u32, payload: seq<byte>, fin: bool, slots: nat)
    ensures var rx' := Insert(rx, seqNo, payload, fin, slots); var c := ChunkFor(rx, seqNo, payload, fin);
            rx' == rx || (c.Some? && rx' == rx.(chunks := rx.chunks + [c.value]))
  {
  }

  lemma SliceJoin(s: Stream, p: int, q: int, r: int)
    requires p <= q <= r
    ensures s.Slice(p, q) + s.Slice(q, r) == s.Slice(p, r)
  {
  }

  /** The position after a chunk taken at position `r`. */
  function Past(rx: Rx, r: int, i: nat): int
    requires i < |Pruned(rx).chunks|
  {
    r + Off(rx.nxt, Pruned(rx).chunks[i].seqNo) + Pruned(rx).chunks[i].Len()
  }

  /** The chunk taken is the stream's next piece, or its FIN. */
  lemma TakenChunkMatches(rx: Rx, r: int, s: Stream, i: nat)
    requires Draining(rx) && RxMatches(rx, r, s) && FirstReady(Pruned(rx).chunks, rx.nxt) == Some(i)
    ensures var c := Pruned(rx).chunks[i]; var o := Off(rx.nxt, c.seqNo);
            && !rx.closed && 0 <= -o <= |c.payload|
            && r <= Past(rx, r, i) <= r + 0x1_0000
            && c.payload[-o..] == s.Slice(r, Past(rx, r, i))
            && (if c.fin then s.ended && Past(rx, r, i) == s.End() + 1 else Past(rx, r, i) <= s.End())
  {
    hide Off, Add, Wrap, Fits, BeforeOrEqual, Before, Retain, Align;
    var c := Pruned(rx).chunks[i];
    RetainMembers(rx.chunks, rx.nxt);
    TurnFacts(rx, i);
    PieceTaken(c, Off(rx.nxt, c.seqNo), r, s, rx.closed);
  }

  lemma PieceTaken(c: Chunk, o: int, r: int, s: Stream, closed: bool)
    requires ChunkMatches(c, r + o, s) && s.base <= r
    requires if closed then s.ended && r == s.End() + 1 else r <= s.End()
    requires -0xFFFF <= o <= 0 && 0 < o + c.Len() && -o <= |c.payload| < 0x1_0000
    ensures !closed && r <= r + o + c.Len() <= r + 0x1_0000
    ensures c.payload[-o..] == s.Slice(r, r + o + c.Len())
    ensures if c.fin then s.ended && r + o + c.Len() == s.End() + 1 else r + o + c.Len() <= s.End()
  {
  }

  /** One turn of the drain delivers the bytes between the old and the new position. */
  lemma TurnDelivers(rx: Rx, r: int, s: Stream, i: nat)
    requires Draining(rx) && RxMatches(rx, r, s) && FirstReady(Pruned(rx).chunks, rx.nxt) == Some(i)
    ensures var taken := Take(Pruned(rx), i, rx.capacity);
            && r <= Past(rx, r, i)
            && !taken.stuck && taken.fin == (taken.rx.closed && !rx.closed)
            && RxMatches(taken.rx, Past(rx, r, i), s)
            && taken.rx.queue == rx.queue + s.Slice(r, Past(rx, r, i))
  {
    hide Off, Add, Wrap, Fits, BeforeOrEqual, Before, Retain, Align, Stream.Slice, Stream.Count, ChunkMatches;
    var kept := Pruned(rx).chunks;
    RetainMembers(rx.chunks, rx.nxt);
    WithoutMembers(kept, i);
    TakenChunkMatches(rx, r, s, i);
    TurnTakesChunk(rx, i);
    TurnShiftsOffsets(rx, i);
    WrapAdd(r, Past(rx, r, i) - r);
  }

  /** The drain delivers the stream's bytes up to its new position `r2`, and a FIN only at the end. */
  lemma {:induction false} DrainDelivers(rx: Rx, r: int, s: Stream) returns (r2: int)
    requires Draining(rx) && RxMatches(rx, r, s)
    ensures var d := Drain(rx, rx.capacity);
            && r <= r2 && RxMatches(d.rx, r2, s)
            && d.rx.queue == rx.queue + s.Slice(r, r2)
            && d.fin == (d.rx.closed && !rx.closed)
    decreases |rx.chunks|
  {
    hide Off, Add, Wrap, Fits, Take, Past, Stream.Slice, Retain, Drain, FirstReady;
    var ready := FirstReady(Pruned(rx).chunks, rx.nxt);
    if ready == None {
      r2 := r;
      PrunedMatches(rx, r, s);
      DrainEnds(rx);
    } else {
      var i, next := ready.value, Take(Pruned(rx), ready.value, rx.capacity).rx;
      TurnDelivers(rx, r, s, i);
      TurnKeepsCapacity(rx, i);
      r2 := DrainDelivers(next, Past(rx, r, i), s);
      SliceJoin(s, r, Past(rx, r, i), r2);
      DrainUnfolds(rx, i);
      assert rx.queue + s.Slice(r, Past(rx, r, i)) + s.Slice(Past(rx, r, i), r2) == rx.queue + s.Slice(r, r2);
    }
  }

  lemma DrainEnds(rx: Rx)
    requires FirstReady(Pruned(rx).chunks, rx.nxt) == None
    ensures Drain(rx, rx.capacity) == Drained(Pruned(rx), false)
  {
  }

  lemma DrainUnfolds(rx: Rx, i: nat)
    requires Draining(rx) && FirstReady(Pruned(rx).chunks, rx.nxt) == Some(i)
    requires !Take(Pruned(rx), i, rx.capacity).stuck
    ensures var taken := Take(Pruned(rx), i, rx.capacity);
            Drain(rx, rx.capacity) ==
            Drained(Drain(taken.rx, rx.capacity).rx, taken.fin || Drain(taken.rx, rx.capacity).fin)
  {
  }

  lemma PrunedMatches(rx: Rx, r: int, s: Stream)
    requires RxMatches(rx, r, s)
    ensures RxMatches(Pruned(rx), r, s) && rx.queue == rx.queue + s.Slice(r, r)
  {
    RetainMembers(rx.chunks, rx.nxt);
  }

  /**
   * Receiving a segment that agrees with the peer's stream, less than 2^31 positions stale, keeps
   * the receiver in step with the stream: the queue grows by exactly the bytes passed.
   */
  lemma ReceiveDelivers(rx: Rx, r: int, s: Stream, seqNo: u32, payload: seq<byte>, fin: bool, p: int, slots: nat)
    requires RxOk(rx) && RxMatches(rx, r, s) && ChunkMatches(Chunk(seqNo, payload, fin), p, s)
    requires seqNo == Wrap(p) && -0x8000_0000 < p - r < 0x4000_0000 && |payload| < 0x4000_0000
    ensures var d := Receive(rx, seqNo, payload, fin, rx.capacity, slots); var r2 := r + Off(rx.nxt, d.rx.nxt);
            && r <= r2 <= r + 0x1_0000 && RxMatches(d.rx, r2, s)
            && d.rx.queue == rx.queue + s.Slice(r, r2)
            && d.fin == (d.rx.closed && !rx.closed)
  {
    InsertKeepsCapacity(rx, seqNo, payload, fin, slots);
    InsertMatches(rx, r, s, seqNo, payload, fin, p, slots);
    var r2 := DrainDelivers(Insert(rx, seqNo, payload, fin, slots), r, s);
    ReceiveKeepsCapacity(rx, seqNo, payload, fin, slots);
    assert |s.Slice(r, r2)| <= rx.capacity;
    WrapOrder(r2, r);
  }
}
