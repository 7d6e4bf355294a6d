/**
 * What reassembly must keep: everything of a segment that lies in the window is either delivered or
 * parked, so the order in which segments arrive does not matter.
 */
module Reassembly {
  import opened Numbers
  import opened SequenceSpace
  import opened Receiver
  import opened Delivery

  /** The offset `x` from `nxt` belongs to the sequence space of a segment at offset `o`. */
  predicate Spans(o: int, payload: seq<byte>, fin: bool, x: int) {
    0 <= x && o <= x < o + |payload| + Bit(fin)
  }

  /** A byte below the window's edge; or the FIN, if all bytes before it fit. */
  predicate InWindow(o: int, payload: seq<byte>, fin: bool, window: nat, x: int) {
    && Spans(o, payload, fin, x)
    && if x < o + |payload| then x < window else x <= window && (o <= 0 || o < window)
  }

  /** Less than 2^31 away, so that the offset is unambiguous. */
  predicate Near(o: int, payload: seq<byte>) {
    -0x8000_0000 < o < 0x8000_0000 && |payload| < 0x4000_0000
  }

  // ---------------------------------------------------------------- insertion

  /** The chunk made of a segment covers exactly its part in the window. */
  lemma ChunkCovers(rx: Rx, seqNo: u32, payload: seq<byte>, fin: bool, x: int)
    requires RxOk(rx) && Near(Off(rx.nxt, seqNo), payload)
    ensures var c := ChunkFor(rx, seqNo, payload, fin);
            (InWindow(Off(rx.nxt, seqNo), payload, fin, AvailableWindow(rx), x)
             <==> c.Some? && Covers(c.value, rx.nxt, x))
  {
    WindowCoversParked(rx);
    OffOrder(rx.nxt, seqNo);
    OffOrder(rx.nxt, rx.nxt);
    EndsMeet(rx.nxt, seqNo, |payload|);
    hide AvailableWindow, RxOk, Off, Distance, Before, Add;
  }

  /** The end of a late segment agrees with the end of what is left of it exactly if it reaches `nxt`. */
  lemma EndsMeet(nxt: u32, seqNo: u32, n: nat)
    requires -0x8000_0000 < Off(nxt, seqNo) && n < 0x4000_0000
    ensures Off(nxt, seqNo) + n >= 0 ==> Add(seqNo, n) == Add(nxt, Off(nxt, seqNo) + n)
    ensures Off(nxt, seqNo) + n < 0 ==> Add(seqNo, n) != Add(nxt, 0)
  {
  }

  lemma InsertCovers(rx: Rx, seqNo: u32, payload: seq<byte>, fin: bool, slots: nat, x: int)
    requires RxOk(rx) && Near(Off(rx.nxt, seqNo), payload) && |rx.chunks| < slots
    ensures Covered(Insert(rx, seqNo, payload, fin, slots).chunks, rx.nxt, x)
       <==> Covered(rx.chunks, rx.nxt, x) || InWindow(Off(rx.nxt, seqNo), payload, fin, AvailableWindow(rx), x)
  {
    ChunkCovers(rx, seqNo, payload, fin, x);
    hide AvailableWindow, ChunkFor, InWindow, Off;
    var chunks := Insert(rx, seqNo, payload, fin, slots).chunks;
    if c: Chunk :| ChunkFor(rx, seqNo, payload, fin) == Some(c) {
      if d: Chunk :| d in rx.chunks && SameSpan(d, c) {
        SpanOffsets(rx, seqNo, payload, fin, c, d);
        assert Covers(c, rx.nxt, x) <==> Covers(d, rx.nxt, x);
      } else {
        assert chunks == rx.chunks + [c] && c in chunks;
        assert forall d :: d in chunks <==> d in rx.chunks || d == c;
      }
    }
  }

  /** Chunks with the same span cover the same offsets. */
  lemma SpanOffsets(rx: Rx, seqNo: u32, payload: seq<byte>, fin: bool, c: Chunk, d: Chunk)
    requires RxOk(rx) && |payload| < 0x4000_0000
    requires ChunkFor(rx, seqNo, payload, fin) == Some(c) && d in rx.chunks && SameSpan(d, c)
    ensures d.seqNo == c.seqNo && d.Len() == c.Len()
  {
    hide ChunkFor, Fits, Add;
    ChunkShorter(rx, seqNo, payload, fin);
    var i :| 0 <= i < |rx.chunks| && rx.chunks[i] == d;
    FitsAt(rx.chunks, rx.nxt, |rx.queue|, rx.capacity, 1, i);
    AddAdd(c.seqNo, |c.payload|, Bit(c.fin));
    AddAdd(d.seqNo, |d.payload|, Bit(d.fin));
    SameLength(c.seqNo, c.Len(), d.Len());
  }

  lemma ChunkShorter(rx: Rx, seqNo: u32, payload: seq<byte>, fin: bool)
    ensures var c := ChunkFor(rx, seqNo, payload, fin); c.Some? ==> |c.value.payload| <= |payload|
  {
    hide AvailableWindow, Distance, Before, Add;
  }

  lemma SameLength(s: u32, m: nat, n: nat)
    requires m < 0x8000_0000 && n < 0x8000_0000 && Add(s, m) == Add(s, n)
    ensures m == n
  {
  }

  // ---------------------------------------------------------------- the drain

  lemma {:induction false} DrainMembers(rx: Rx, buffer: nat)
    requires Draining(rx) && buffer == rx.capacity
    ensures forall c :: c in Drain(rx, buffer).rx.chunks ==> c in rx.chunks
    ensures |Drain(rx, buffer).rx.chunks| <= |rx.chunks|
    decreases |rx.chunks|
  {
    RetainMembers(rx.chunks, rx.nxt);
    var kept := Pruned(rx);
    match FirstReady(kept.chunks, kept.nxt)
    case None =>
    case Some(i) =>
      TurnKeepsCapacity(rx, i);
      TurnTakesChunk(rx, i);
      WithoutMembers(kept.chunks, i);
      hide Fits, Take, Without;
      DrainMembers(Take(kept, i, buffer).rx, buffer);
  }

  /** What a chunk covered before the drain is delivered by it or still covered after it. */
  lemma {:induction false} DrainLosesNothing(rx: Rx, x: int)
    requires Draining(rx) && 0 <= x && Covered(rx.chunks, rx.nxt, x)
    ensures x < Advance(rx, rx.capacity) || Covered(Drain(rx, rx.capacity).rx.chunks, rx.nxt, x)
    decreases |rx.chunks|
  {
    PruningKeepsCover(rx);
    var kept := Pruned(rx).chunks;
    match FirstReady(kept, rx.nxt)
    case None =>
    case Some(i) =>
      var next := Take(Pruned(rx), i, rx.capacity).rx;
      TurnKeepsCapacity(rx, i);
      TurnTakesChunk(rx, i);
      TurnShiftsOffsets(rx, i);
      DrainFindsFirstHole(next);
      var a := Off(rx.nxt, kept[i].seqNo) + kept[i].Len();
      hide Draining, Drain, Take;
      DrainUnfolds(rx, i);
      OffCompose(rx.nxt, a, Drain(next, rx.capacity).rx.nxt);
      if a <= x {
        CoveredLater(kept, i, rx.nxt, a, x);
        DrainLosesNothing(next, x - a);
        DrainMembers(next, rx.capacity);
        WithoutMembers(kept, i);
        if Covered(Drain(next, rx.capacity).rx.chunks, next.nxt, x - a) {
          CoveredBack(Drain(next, rx.capacity).rx.chunks, kept, rx.nxt, a, x);
        }
      }
  }

  /** The chunk taken ends at `a`, so what lies beyond is covered by another one. */
  lemma CoveredLater(kept: seq<Chunk>, i: nat, nxt: u32, a: int, x: int)
    requires i < |kept| && a == Off(nxt, kept[i].seqNo) + kept[i].Len() <= x && Covered(kept, nxt, x)
    requires forall d :: d in kept ==> Off(Add(nxt, a), d.seqNo) == Off(nxt, d.seqNo) - a
    ensures Covered(Without(kept, i), Add(nxt, a), x - a)
  {
    hide Off, Add;
    WithoutMembers(kept, i);
    var d :| d in kept && Covers(d, nxt, x);
    assert Covers(d, Add(nxt, a), x - a);
  }

  lemma CoveredBack(chunks: seq<Chunk>, kept: seq<Chunk>, nxt: u32, a: int, x: int)
    requires Covered(chunks, Add(nxt, a), x - a) && forall d :: d in chunks ==> d in kept
    requires forall d :: d in kept ==> Off(Add(nxt, a), d.seqNo) == Off(nxt, d.seqNo) - a
    ensures Covered(chunks, nxt, x)
  {
    hide Off, Add;
    var d :| d in chunks && Covers(d, Add(nxt, a), x - a);
    assert Covers(d, nxt, x);
  }

  // ---------------------------------------------------------------- receiving a segment

  /** The receiver after a segment. */
  function After(rx: Rx, seqNo: u32, payload: seq<byte>, fin: bool, slots: nat): Rx {
    Receive(rx, seqNo, payload, fin, rx.capacity, slots).rx
  }

  /** How far the segment moved `nxt`. */
  function Moved(rx: Rx, seqNo: u32, payload: seq<byte>, fin: bool, slots: nat): int {
    Off(rx.nxt, After(rx, seqNo, payload, fin, slots).nxt)
  }

  /**
   * Whatever arrives, in whatever order, the receiver afterwards has delivered or parked exactly what
   * it had parked before and, if its list has a free slot, the segment's part in the window: the
   * bytes below the window's edge, and the FIN if all of them fit.
   */
  lemma KeptOrDelivered(rx: Rx, seqNo: u32, payload: seq<byte>, fin: bool, slots: nat, x: nat)
    requires RxOk(rx) && Near(Off(rx.nxt, seqNo), payload)
    ensures x < Moved(rx, seqNo, payload, fin, slots)
            || Covered(After(rx, seqNo, payload, fin, slots).chunks, rx.nxt, x)
       <==> Covered(rx.chunks, rx.nxt, x)
            || (|rx.chunks| < slots && InWindow(Off(rx.nxt, seqNo), payload, fin, AvailableWindow(rx), x))
  {
    hide Insert, AvailableWindow, InWindow, Drain, Off, Fits, ChunkFor;
    var inserted := Insert(rx, seqNo, payload, fin, slots);
    InsertKeepsCapacity(rx, seqNo, payload, fin, slots);
    InsertCapacity(rx, seqNo, payload, fin, slots);
    DrainFindsFirstHole(inserted);
    DrainMembers(inserted, rx.capacity);
    if |rx.chunks| < slots {
      InsertCovers(rx, seqNo, payload, fin, slots, x);
    }
    if Covered(inserted.chunks, rx.nxt, x) {
      DrainLosesNothing(inserted, x);
    }
  }

  lemma InsertCapacity(rx: Rx, seqNo: u32, payload: seq<byte>, fin: bool, slots: nat)
    ensures var rx' := Insert(rx, seqNo, payload, fin, slots);
            && rx'.capacity == rx.capacity && rx'.nxt == rx.nxt && |rx'.chunks| <= |rx.chunks| + 1
            && (|rx.chunks| >= slots ==> rx' == rx)
  {
  }

  /** Nothing at the new `nxt` itself is covered. */
  lemma StopsAtHole(rx: Rx, seqNo: u32, payload: seq<byte>, fin: bool, slots: nat)
    requires RxOk(rx)
    ensures var k := Moved(rx, seqNo, payload, fin, slots);
            0 <= k <= 0x1_0000 && !Covered(After(rx, seqNo, payload, fin, slots).chunks, rx.nxt, k)
  {
    hide Insert, Drain, Off, Fits;
    var inserted := Insert(rx, seqNo, payload, fin, slots);
    InsertKeepsCapacity(rx, seqNo, payload, fin, slots);
    InsertCapacity(rx, seqNo, payload, fin, slots);
    DrainFindsFirstHole(inserted);
    DrainMembers(inserted, rx.capacity);
  }

  // ---------------------------------------------------------------- bytes

  lemma {:induction false} BytesJoin(a: seq<Chunk>, b: seq<Chunk>)
    ensures PayloadBytes(a + b) == PayloadBytes(a) + PayloadBytes(b)
  {
    if a == [] {
      assert a + b == b;
    } else {
      BytesJoin(a[1..], b);
      assert (a + b)[1..] == a[1..] + b;
    }
  }

  lemma {:induction false} BytesRetained(chunks: seq<Chunk>, nxt: u32)
    ensures PayloadBytes(Retain(chunks, nxt)) <= PayloadBytes(chunks)
  {
    hide Retained;
    if chunks != [] {
      BytesRetained(chunks[1..], nxt);
      BytesJoin([chunks[0]], Retain(chunks[1..], nxt));
    }
  }

  lemma BytesWithout(chunks: seq<Chunk>, i: nat)
    requires i < |chunks|
    ensures PayloadBytes(chunks) == PayloadBytes(Without(chunks, i)) + |chunks[i].payload|
  {
    assert chunks == chunks[..i] + ([chunks[i]] + chunks[i + 1..]);
    BytesJoin(chunks[..i], [chunks[i]] + chunks[i + 1..]);
    BytesJoin([chunks[i]], chunks[i + 1..]);
    BytesJoin(chunks[..i], chunks[i + 1..]);
  }

  /** The drain moves bytes from the list to the queue, or drops them; it makes none. */
  lemma {:induction false} DrainBytes(rx: Rx)
    requires Draining(rx)
    ensures var d := Drain(rx, rx.capacity).rx;
            |d.queue| + PayloadBytes(d.chunks) <= |rx.queue| + PayloadBytes(rx.chunks)
    decreases |rx.chunks|
  {
    BytesRetained(rx.chunks, rx.nxt);
    var kept := Pruned(rx);
    match FirstReady(kept.chunks, rx.nxt)
    case None =>
    case Some(i) =>
      TurnKeepsCapacity(rx, i);
      TurnTakesChunk(rx, i);
      BytesWithout(kept.chunks, i);
      hide Fits, Take, Without, Off, PayloadBytes;
      DrainBytes(Take(kept, i, rx.capacity).rx);
  }

  /** A segment narrows the window by at most its own length. */
  lemma WindowNarrows(rx: Rx, seqNo: u32, payload: seq<byte>, fin: bool, slots: nat)
    requires RxOk(rx)
    ensures var rx' := After(rx, seqNo, payload, fin, slots);
            RxOk(rx') && rx'.capacity == rx.capacity && AvailableWindow(rx') >= AvailableWindow(rx) - |payload|
  {
    InsertKeepsCapacity(rx, seqNo, payload, fin, slots);
    ReceiveKeepsCapacity(rx, seqNo, payload, fin, slots);
    InsertBytes(rx, seqNo, payload, fin, slots);
    InsertCapacity(rx, seqNo, payload, fin, slots);
    DrainBytes(Insert(rx, seqNo, payload, fin, slots));
    hide Insert, Fits, AvailableWindow, Drain, PayloadBytes;
    WindowCoversParked(rx);
    WindowCoversParked(After(rx, seqNo, payload, fin, slots));
  }

  lemma InsertBytes(rx: Rx, seqNo: u32, payload: seq<byte>, fin: bool, slots: nat)
    ensures var rx' := Insert(rx, seqNo, payload, fin, slots);
            rx'.queue == rx.queue && PayloadBytes(rx'.chunks) <= PayloadBytes(rx.chunks) + |payload|
  {
    hide ChunkFor;
    ChunkShorter(rx, seqNo, payload, fin);
    match ChunkFor(rx, seqNo, payload, fin)
    case None =>
    case Some(c) => BytesJoin(rx.chunks, [c]);
  }

  // ---------------------------------------------------------------- order

  /** A segment that fits the window with room to spare for `other` bytes. */
  predicate FitsWith(rx: Rx, seqNo: u32, payload: seq<byte>, fin: bool, other: nat) {
    var o := Off(rx.nxt, seqNo);
    -0x4000_0000 < o && |payload| < 0x4000_0000 && o + |payload| + Bit(fin) + other <= AvailableWindow(rx)
  }

  /** After one segment and then another, `nxt` stands at the first offset that neither, nor anything parked, covers. */
  lemma SecondHole(rx: Rx, seq1: u32, data1: seq<byte>, fin1: bool, seq2: u32, data2: seq<byte>, fin2: bool, slots: nat)
    requires RxOk(rx) && |rx.chunks| + 1 < slots
    requires FitsWith(rx, seq1, data1, fin1, |data2|) && FitsWith(rx, seq2, data2, fin2, |data1|)
    ensures var a := After(rx, seq1, data1, fin1, slots);
            var b := After(a, seq2, data2, fin2, slots);
            && 0 <= Off(rx.nxt, b.nxt) <= 0x2_0000
            && !Holding(rx, seq1, data1, fin1, seq2, data2, fin2, Off(rx.nxt, b.nxt))
            && forall x :: 0 <= x < Off(rx.nxt, b.nxt) ==> Holding(rx, seq1, data1, fin1, seq2, data2, fin2, x)
  {
    var a := After(rx, seq1, data1, fin1, slots);
    var b := After(a, seq2, data2, fin2, slots);
    var k := Moved(rx, seq1, data1, fin1, slots);
    hide After, AvailableWindow, RxOk, Covered, Off, Holding;
    StopsAtHole(rx, seq1, data1, fin1, slots);
    WindowNarrows(rx, seq1, data1, fin1, slots);
    StopsAtHole(a, seq2, data2, fin2, slots);
    OffShifts(rx.nxt, a.nxt, b.nxt);
    forall x | 0 <= x <= k + Off(a.nxt, b.nxt)
      ensures Holding(rx, seq1, data1, fin1, seq2, data2, fin2, x) <==> x < k + Off(a.nxt, b.nxt)
    {
      TwoKept(rx, seq1, data1, fin1, seq2, data2, fin2, slots, x);
    }
  }

  /** Every offset that either segment or the list had is passed, or parked after both. */
  lemma TwoKept(
      rx: Rx, seq1: u32, data1: seq<byte>, fin1: bool, seq2: u32, data2: seq<byte>, fin2: bool, slots: nat, x: nat)
    requires RxOk(rx) && |rx.chunks| + 1 < slots
    requires FitsWith(rx, seq1, data1, fin1, |data2|) && FitsWith(rx, seq2, data2, fin2, |data1|)
    ensures var a := After(rx, seq1, data1, fin1, slots); var k := Moved(rx, seq1, data1, fin1, slots);
            var kept := x < k || x - k < Moved(a, seq2, data2, fin2, slots)
                        || Covered(After(a, seq2, data2, fin2, slots).chunks, a.nxt, x - k);
            Holding(rx, seq1, data1, fin1, seq2, data2, fin2, x) <==> kept
  {
    var a := After(rx, seq1, data1, fin1, slots);
    var k := Moved(rx, seq1, data1, fin1, slots);
    hide After, AvailableWindow, RxOk, Covered, Off, Spans, InWindow;
    StopsAtHole(rx, seq1, data1, fin1, slots);
    WindowNarrows(rx, seq1, data1, fin1, slots);
    OneMore(rx, seq1, data1, fin1, slots);
    OffOrder(rx.nxt, seq1);
    OffOrder(a.nxt, seq2);
    OffShifts(rx.nxt, a.nxt, seq2);
    WholeInWindow(Off(rx.nxt, seq1), data1, fin1, AvailableWindow(rx), x);
    KeptOrDelivered(rx, seq1, data1, fin1, slots, x);
    if x >= k {
      WholeInWindow(Off(a.nxt, seq2), data2, fin2, AvailableWindow(a), x - k);
      SpansShift(Off(rx.nxt, seq2), k, data2, fin2, x);
      CoverShifts(a, rx.nxt, k, x);
      KeptOrDelivered(a, seq2, data2, fin2, slots, x - k);
    }
  }

  lemma WholeInWindow(o: int, payload: seq<byte>, fin: bool, window: nat, x: int)
    requires o + |payload| + Bit(fin) <= window
    ensures InWindow(o, payload, fin, window, x) <==> Spans(o, payload, fin, x)
  {
  }

  lemma SpansShift(o: int, k: int, payload: seq<byte>, fin: bool, x: int)
    requires 0 <= k <= x
    ensures Spans(o - k, payload, fin, x - k) <==> Spans(o, payload, fin, x)
  {
  }

  /** What is there to deliver after both segments. */
  ghost predicate Holding(
      rx: Rx, seq1: u32, data1: seq<byte>, fin1: bool, seq2: u32, data2: seq<byte>, fin2: bool, x: int)
  {
    || Covered(rx.chunks, rx.nxt, x)
    || Spans(Off(rx.nxt, seq1), data1, fin1, x)
    || Spans(Off(rx.nxt, seq2), data2, fin2, x)
  }

  lemma OneMore(rx: Rx, seqNo: u32, payload: seq<byte>, fin: bool, slots: nat)
    requires RxOk(rx)
    ensures |After(rx, seqNo, payload, fin, slots).chunks| <= |rx.chunks| + 1
  {
    hide Insert, Drain, Fits;
    InsertKeepsCapacity(rx, seqNo, payload, fin, slots);
    InsertCapacity(rx, seqNo, payload, fin, slots);
    DrainMembers(Insert(rx, seqNo, payload, fin, slots), rx.capacity);
  }

  lemma OffShifts(from: u32, from': u32, s: u32)
    requires 0 <= Off(from, from') <= 0x1_0000
    ensures -0x7000_0000 < Off(from, s) ==> Off(from', s) == Off(from, s) - Off(from, from')
    ensures 0 <= Off(from', s) <= 0x1_0000 ==> Off(from, s) == Off(from', s) + Off(from, from')
  {
  }

  /** Coverage seen from the old and from the new `nxt`. */
  lemma CoverShifts(rx: Rx, from: u32, k: int, x: int)
    requires RxOk(rx) && k == Off(from, rx.nxt) && 0 <= k <= x && k <= 0x1_0000
    ensures Covered(rx.chunks, from, x) <==> Covered(rx.chunks, rx.nxt, x - k)
  {
    forall c | c in rx.chunks
      ensures Covers(c, from, x) <==> Covers(c, rx.nxt, x - k)
    {
      var i :| 0 <= i < |rx.chunks| && rx.chunks[i] == c;
      FitsAt(rx.chunks, rx.nxt, |rx.queue|, rx.capacity, 1, i);
      ShiftBack(from, rx.nxt, c.seqNo);
    }
  }

  lemma ShiftBack(from: u32, from': u32, s: u32)
    requires 0 <= Off(from, from') <= 0x1_0000 && 0 <= Off(from', s) < 0x4000_0000
    ensures Off(from, s) == Off(from', s) + Off(from, from')
  {
  }

  /**
   * Two segments of the peer's stream that both fit the window leave the same `nxt` and the same
   * receive queue in either order.
   */
  lemma OrderDoesNotMatter(
      rx: Rx, r: int, s: Stream, p1: int, data1: seq<byte>, fin1: bool,
      p2: int, data2: seq<byte>, fin2: bool, slots: nat)
    requires RxOk(rx) && RxMatches(rx, r, s) && |rx.chunks| + 1 < slots
    requires ChunkMatches(Chunk(Wrap(p1), data1, fin1), p1, s) && ChunkMatches(Chunk(Wrap(p2), data2, fin2), p2, s)
    requires |data1| < 0x4000_0000 && |data2| < 0x4000_0000
    requires -0x4000_0000 < p1 - r && p1 + |data1| + Bit(fin1) + |data2| <= r + AvailableWindow(rx)
    requires -0x4000_0000 < p2 - r && p2 + |data2| + Bit(fin2) + |data1| <= r + AvailableWindow(rx)
    ensures var ab := After(After(rx, Wrap(p1), data1, fin1, slots), Wrap(p2), data2, fin2, slots);
            var ba := After(After(rx, Wrap(p2), data2, fin2, slots), Wrap(p1), data1, fin1, slots);
            ab.nxt == ba.nxt && ab.queue == ba.queue
  {
    hide *;
    MatchedAt(rx, r, s, p1);
    MatchedAt(rx, r, s, p2);
    SameHole(rx, r, p1, data1, fin1, p2, data2, fin2, slots);
    TwoDelivered(rx, r, s, p1, data1, fin1, p2, data2, fin2, slots);
    TwoDelivered(rx, r, s, p2, data2, fin2, p1, data1, fin1, slots);
  }

  lemma MatchedAt(rx: Rx, r: int, s: Stream, p: int)
    requires RxOk(rx) && RxMatches(rx, r, s) && -0x4000_0000 < p - r <= AvailableWindow(rx)
    ensures Off(rx.nxt, Wrap(p)) == p - r && AvailableWindow(rx) < 0x1_0000
  {
    WindowCoversParked(rx);
    hide Wrap, Off, ChunkMatches, AvailableWindow, Fits;
    WrapOrder(p, r);
  }

  lemma SameHole(
      rx: Rx, r: int, p1: int, data1: seq<byte>, fin1: bool, p2: int, data2: seq<byte>, fin2: bool, slots: nat)
    requires RxOk(rx) && |rx.chunks| + 1 < slots && AvailableWindow(rx) < 0x1_0000
    requires Off(rx.nxt, Wrap(p1)) == p1 - r && Off(rx.nxt, Wrap(p2)) == p2 - r
    requires -0x4000_0000 < p1 - r && p1 + |data1| + Bit(fin1) + |data2| <= r + AvailableWindow(rx)
    requires -0x4000_0000 < p2 - r && p2 + |data2| + Bit(fin2) + |data1| <= r + AvailableWindow(rx)
    requires |data1| < 0x4000_0000 && |data2| < 0x4000_0000
    ensures var ab := After(After(rx, Wrap(p1), data1, fin1, slots), Wrap(p2), data2, fin2, slots);
            var ba := After(After(rx, Wrap(p2), data2, fin2, slots), Wrap(p1), data1, fin1, slots);
            Off(rx.nxt, ab.nxt) == Off(rx.nxt, ba.nxt)
  {
    hide AvailableWindow, RxOk, Off, Wrap, After, Covered, Spans;
    var ab := After(After(rx, Wrap(p1), data1, fin1, slots), Wrap(p2), data2, fin2, slots);
    var ba := After(After(rx, Wrap(p2), data2, fin2, slots), Wrap(p1), data1, fin1, slots);
    SecondHole(rx, Wrap(p1), data1, fin1, Wrap(p2), data2, fin2, slots);
    SecondHole(rx, Wrap(p2), data2, fin2, Wrap(p1), data1, fin1, slots);
    var k, k' := Off(rx.nxt, ab.nxt), Off(rx.nxt, ba.nxt);
    forall x
      ensures Holding(rx, Wrap(p1), data1, fin1, Wrap(p2), data2, fin2, x)
         <==> Holding(rx, Wrap(p2), data2, fin2, Wrap(p1), data1, fin1, x)
    {
    }
  }

  lemma TwoDelivered(
      rx: Rx, r: int, s: Stream, p1: int, data1: seq<byte>, fin1: bool,
      p2: int, data2: seq<byte>, fin2: bool, slots: nat)
    requires RxOk(rx) && RxMatches(rx, r, s)
    requires ChunkMatches(Chunk(Wrap(p1), data1, fin1), p1, s) && ChunkMatches(Chunk(Wrap(p2), data2, fin2), p2, s)
    requires -0x4000_0000 < p1 - r < 0x1_0000 && |data1| < 0x4000_0000
    requires -0x4000_0000 < p2 - r < 0x1_0000 && |data2| < 0x4000_0000
    ensures var b := After(After(rx, Wrap(p1), data1, fin1, slots), Wrap(p2), data2, fin2, slots);
            var r2 := r + Off(rx.nxt, b.nxt);
            r <= r2 && b.nxt == Wrap(r2) && b.queue == rx.queue + s.Slice(r, r2)
  {
    hide RxOk, Off, Wrap, Receive, Stream.Slice, ChunkMatches, RxMatches;
    ReceiveDelivers(rx, r, s, Wrap(p1), data1, fin1, p1, slots);
    ReceiveKeepsCapacity(rx, Wrap(p1), data1, fin1, slots);
    var a := After(rx, Wrap(p1), data1, fin1, slots);
    var r1 := r + Off(rx.nxt, a.nxt);
    ReceiveDelivers(a, r1, s, Wrap(p2), data2, fin2, p2, slots);
    var b := After(a, Wrap(p2), data2, fin2, slots);
    var r2 := r1 + Off(a.nxt, b.nxt);
    MatchedNxt(rx, r, s);
    MatchedNxt(b, r2, s);
    WrapOrder(r2, r);
    SliceJoin(s, r, r1, r2);
    assert rx.queue + s.Slice(r, r1) + s.Slice(r1, r2) == rx.queue + s.Slice(r, r2);
  }

  lemma MatchedNxt(rx: Rx, r: int, s: Stream)
    requires RxMatches(rx, r, s)
    ensures rx.nxt == Wrap(r)
  {
    hide ChunkMatches, Off, Wrap;
  }
}
