/**
 * The receiving half of a connection: bounded out-of-order reassembly and the receive window.
 * Offsets are signed distances from `nxt`, so every statement holds across the 2^32 wrap.
 */
module Receiver {
  import opened Numbers
  import opened SequenceSpace

  datatype Chunk = Chunk(seqNo: u32, payload: seq<byte>, fin: bool) {
    function End(): u32 {
      Add(Add(seqNo, |payload|), Bit(fin))
    }

    function Len(): nat {
      |payload| + Bit(fin)
    }
  }

  datatype Rx = Rx(
    nxt: u32,
    queue: seq<byte>,
    chunks: seq<Chunk>,
    capacity: nat,
    closed: bool)

  function PayloadBytes(chunks: seq<Chunk>): nat {
    if chunks == [] then 0 else |chunks[0].payload| + PayloadBytes(chunks[1..])
  }

  function AvailableWindow(rx: Rx): nat {
    SatSub(rx.capacity, |rx.queue| + PayloadBytes(rx.chunks))
  }

  // ---------------------------------------------------------------- insertion

  /** What is kept of an arriving segment: trimmed to `nxt` on the left and the window on the right. */
  function ChunkFor(rx: Rx, seqNo: u32, payload: seq<byte>, fin: bool): Option<Chunk> {
    var late := Before(seqNo, rx.nxt);
    var trim := Distance(seqNo, rx.nxt);
    var data := if !late then payload else if trim >= |payload| then [] else payload[trim..];
    var start := if late then rx.nxt else seqNo;
    var window := AvailableWindow(rx);
    var offset := Distance(rx.nxt, start);
    if After(start, rx.nxt) && offset >= window then None
    else
      var allowed := Min(|data|, SatSub(window, offset));
      var keptFin := fin && allowed == |data| && Add(seqNo, |payload|) == Add(start, |data|);
      if allowed == 0 && !keptFin then None else Some(Chunk(start, data[..allowed], keptFin))
  }

  predicate SameSpan(a: Chunk, b: Chunk) {
    a.seqNo == b.seqNo && a.End() == b.End()
  }

  function Insert(rx: Rx, seqNo: u32, payload: seq<byte>, fin: bool, slots: nat): Rx {
    match ChunkFor(rx, seqNo, payload, fin)
    case None => rx
    case Some(chunk) =>
      if (exists c :: c in rx.chunks && SameSpan(c, chunk)) || |rx.chunks| >= slots then rx
      else rx.(chunks := rx.chunks + [chunk])
  }

  // ---------------------------------------------------------------- draining

  predicate Retained(c: Chunk, nxt: u32) {
    !BeforeOrEqual(c.End(), nxt) || (c.fin && c.End() == Add(nxt, 1))
  }

  function Retain(chunks: seq<Chunk>, nxt: u32): (r: seq<Chunk>)
    ensures |r| <= |chunks|
  {
    if chunks == [] then []
    else if Retained(chunks[0], nxt) then [chunks[0]] + Retain(chunks[1..], nxt)
    else Retain(chunks[1..], nxt)
  }

  predicate Ready(c: Chunk, nxt: u32) {
    BeforeOrEqual(c.seqNo, nxt)
  }

  /** The first chunk, in list order, that starts at or before `nxt`. */
  function FirstReady(chunks: seq<Chunk>, nxt: u32): (r: Option<nat>)
    ensures r.Some? ==> r.value < |chunks| && Ready(chunks[r.value], nxt)
    ensures r.Some? ==> forall i :: 0 <= i < r.value ==> !Ready(chunks[i], nxt)
    ensures r.None? ==> forall i :: 0 <= i < |chunks| ==> !Ready(chunks[i], nxt)
  {
    if chunks == [] then None
    else if Ready(chunks[0], nxt) then Some(0)
    else match FirstReady(chunks[1..], nxt)
      case None => None
      case Some(i) => Some(i + 1)
  }

  function Align(c: Chunk, nxt: u32): Chunk {
    if Before(c.seqNo, nxt) then Chunk(nxt, c.payload[Min(Distance(c.seqNo, nxt), |c.payload|)..], c.fin) else c
  }

  function Without(chunks: seq<Chunk>, i: nat): (r: seq<Chunk>)
    requires i < |chunks|
    ensures |r| == |chunks| - 1
  {
    chunks[..i] + chunks[i + 1..]
  }

  datatype Taken = Taken(rx: Rx, fin: bool, stuck: bool)

  /** One chunk moves into the receive queue; `stuck` if part of it did not fit. */
  function Take(rx: Rx, i: nat, buffer: nat): (r: Taken)
    requires i < |rx.chunks|
    ensures !r.stuck ==> |r.rx.chunks| < |rx.chunks|
  {
    var c := Align(rx.chunks[i], rx.nxt);
    var others := Without(rx.chunks, i);
    var n := Min(SatSub(buffer, |rx.queue|), |c.payload|);
    var moved := rx.(nxt := Add(rx.nxt, n), queue := rx.queue + c.payload[..n], chunks := others);
    if n < |c.payload| then
      Taken(moved.(chunks := others + [Chunk(moved.nxt, c.payload[n..], c.fin)]), false, true)
    else if c.fin then
      Taken(moved.(nxt := Add(moved.nxt, 1), closed := true), true, false)
    else
      Taken(moved, false, false)
  }

  datatype Drained = Drained(rx: Rx, fin: bool)

  function Pruned(rx: Rx): (r: Rx)
    ensures |r.chunks| <= |rx.chunks|
  {
    rx.(chunks := Retain(rx.chunks, rx.nxt))
  }

  /** The drain loop; `fin` tells whether the peer's FIN was consumed. */
  function Drain(rx: Rx, buffer: nat): Drained
    decreases |rx.chunks|
  {
    var kept := Pruned(rx);
    match FirstReady(kept.chunks, kept.nxt)
    case None => Drained(kept, false)
    case Some(i) =>
      var taken := Take(kept, i, buffer);
      if taken.stuck then Drained(taken.rx, false)
      else
        var rest := Drain(taken.rx, buffer);
        Drained(rest.rx, taken.fin || rest.fin)
  }

  function Receive(rx: Rx, seqNo: u32, payload: seq<byte>, fin: bool, buffer: nat, slots: nat): Drained {
    Drain(Insert(rx, seqNo, payload, fin, slots), buffer)
  }

  // ---------------------------------------------------------------- the capacity invariant

  /**
   * In list order, the offset of each chunk plus all bytes buffered up to and including it fit the
   * capacity. `used` counts the bytes before the list; no chunk starts before offset `lo`.
   */
  ghost predicate Fits(chunks: seq<Chunk>, nxt: u32, used: nat, capacity: nat, lo: int) {
    chunks == [] ||
    (var c := chunks[0];
     && lo <= Off(nxt, c.seqNo)
     && Off(nxt, c.seqNo) + used + |c.payload| <= capacity
     && |c.payload| <= capacity
     && Fits(chunks[1..], nxt, used + |c.payload|, capacity, lo))
  }

  /** While the loop runs, a chunk may lie up to one consumed chunk and FIN behind `nxt`. */
  const BEHIND: int := -0x1_FFFF

  /** Between operations every parked chunk starts strictly after `nxt`. */
  ghost predicate RxOk(rx: Rx) {
    && 1 <= rx.capacity < 0x1_0000
    && |rx.queue| <= rx.capacity
    && Fits(rx.chunks, rx.nxt, |rx.queue|, rx.capacity, 1)
  }

  ghost predicate Draining(rx: Rx) {
    && 1 <= rx.capacity < 0x1_0000
    && |rx.queue| <= rx.capacity
    && Fits(rx.chunks, rx.nxt, |rx.queue|, rx.capacity, BEHIND)
  }

  lemma {:induction false} FitsAt(chunks: seq<Chunk>, nxt: u32, used: nat, capacity: nat, lo: int, i: nat)
    requires Fits(chunks, nxt, used, capacity, lo) && i < |chunks|
    ensures lo <= Off(nxt, chunks[i].seqNo) && |chunks[i].payload| <= capacity
    ensures Off(nxt, chunks[i].seqNo) + used + PayloadBytes(chunks[..i + 1]) <= capacity
  {
    assert chunks[..i + 1][1..] == chunks[1..][..i];
    if i == 0 {
      assert chunks[..1][1..] == [];
    } else {
      FitsAt(chunks[1..], nxt, used + |chunks[0].payload|, capacity, lo, i - 1);
    }
  }

  lemma {:induction false} FitsWeaken(
      chunks: seq<Chunk>, nxt: u32, used: nat, less: nat, capacity: nat, lo: int, lo': int)
    requires Fits(chunks, nxt, used, capacity, lo) && less <= used && lo' <= lo
    ensures Fits(chunks, nxt, less, capacity, lo')
  {
    if chunks != [] {
      FitsWeaken(chunks[1..], nxt, used + |chunks[0].payload|, less + |chunks[0].payload|, capacity, lo, lo');
    }
  }

  lemma {:induction false} FitsWithout(chunks: seq<Chunk>, i: nat, nxt: u32, used: nat, capacity: nat, lo: int)
    requires Fits(chunks, nxt, used, capacity, lo) && i < |chunks|
    ensures Fits(Without(chunks, i), nxt, used, capacity, lo)
  {
    if i == 0 {
      assert Without(chunks, 0) == chunks[1..];
      FitsWeaken(chunks[1..], nxt, used + |chunks[0].payload|, used, capacity, lo, lo);
    } else {
      FitsWithout(chunks[1..], i - 1, nxt, used + |chunks[0].payload|, capacity, lo);
      assert Without(chunks, i)[1..] == Without(chunks[1..], i - 1);
    }
  }

  lemma {:induction false} FitsRetain(chunks: seq<Chunk>, nxt: u32, used: nat, capacity: nat, lo: int)
    requires Fits(chunks, nxt, used, capacity, lo)
    ensures Fits(Retain(chunks, nxt), nxt, used, capacity, lo)
  {
    if chunks != [] {
      FitsWeaken(chunks[1..], nxt, used + |chunks[0].payload|, used, capacity, lo, lo);
      FitsRetain(chunks[1..], nxt, used, capacity, lo);
      FitsRetain(chunks[1..], nxt, used + |chunks[0].payload|, capacity, lo);
      if Retained(chunks[0], nxt) {
        assert Retain(chunks, nxt)[1..] == Retain(chunks[1..], nxt);
      }
    }
  }

  lemma {:induction false} FitsAppend(chunks: seq<Chunk>, c: Chunk, nxt: u32, used: nat, capacity: nat, lo: int)
    requires Fits(chunks, nxt, used, capacity, lo)
    requires lo <= Off(nxt, c.seqNo) && |c.payload| <= capacity
    requires Off(nxt, c.seqNo) + used + PayloadBytes(chunks) + |c.payload| <= capacity
    ensures Fits(chunks + [c], nxt, used, capacity, lo)
  {
    if chunks != [] {
      FitsAppend(chunks[1..], c, nxt, used + |chunks[0].payload|, capacity, lo);
      assert (chunks + [c])[1..] == chunks[1..] + [c];
    }
  }

  /** Moving `nxt` forward over `moved` queued bytes and `bit` more moves all chunks back as far. */
  lemma {:induction false} FitsShift(
      chunks: seq<Chunk>, nxt: u32, used: nat, moved: nat, bit: nat, capacity: nat, lo: int)
    requires Fits(chunks, nxt, used, capacity, lo)
    requires -0x8000_0000 <= lo - moved - bit
    ensures Fits(chunks, Add(nxt, moved + bit), used + moved, capacity, lo - moved - bit)
  {
    if chunks != [] {
      OffShift(nxt, chunks[0].seqNo, moved + bit);
      FitsShift(chunks[1..], nxt, used + |chunks[0].payload|, moved, bit, capacity, lo);
    }
  }

  /** Not-ready chunks start after `nxt`. */
  lemma {:induction false} FitsPositive(chunks: seq<Chunk>, nxt: u32, used: nat, capacity: nat, lo: int)
    requires Fits(chunks, nxt, used, capacity, lo)
    requires forall i :: 0 <= i < |chunks| ==> !Ready(chunks[i], nxt)
    ensures Fits(chunks, nxt, used, capacity, 1)
  {
    if chunks != [] {
      OffOrder(nxt, chunks[0].seqNo);
      assert forall i :: 0 <= i < |chunks[1..]| ==> chunks[1..][i] == chunks[i + 1];
      FitsPositive(chunks[1..], nxt, used + |chunks[0].payload|, capacity, lo);
    }
  }

  /** A retained chunk ends after `nxt`, so it starts less than its own length behind it. */
  lemma RetainedOffset(c: Chunk, nxt: u32)
    requires BEHIND <= Off(nxt, c.seqNo) < 0x1_0000 && |c.payload| < 0x1_0000
    ensures Off(nxt, c.End()) == Off(nxt, c.seqNo) + c.Len()
    ensures Retained(c, nxt) <==> Off(nxt, c.seqNo) + c.Len() > 0
  {
    AddAdd(c.seqNo, |c.payload|, Bit(c.fin));
    OffAdd(nxt, c.seqNo, c.Len());
    OffOrder(nxt, c.End());
    OffAdd(nxt, nxt, 1);
    assert Add(nxt, 1) == c.End() ==> Off(nxt, c.End()) == 1;
  }

  lemma {:induction false} RetainMembers(chunks: seq<Chunk>, nxt: u32)
    ensures forall c :: c in Retain(chunks, nxt) <==> c in chunks && Retained(c, nxt)
  {
    if chunks != [] {
      RetainMembers(chunks[1..], nxt);
      assert chunks == [chunks[0]] + chunks[1..];
    }
  }

  /** What one turn of the loop finds: a chunk at or before `nxt` that ends after it and fits the queue. */
  lemma TurnFacts(rx: Rx, i: nat)
    requires Draining(rx) && FirstReady(Pruned(rx).chunks, rx.nxt) == Some(i)
    ensures var c := Pruned(rx).chunks[i]; var o := Off(rx.nxt, c.seqNo);
            && -0xFFFF <= o <= 0 && 0 < o + c.Len() && -o <= |c.payload| < 0x1_0000
            && Align(c, rx.nxt) == Chunk(rx.nxt, c.payload[-o..], c.fin)
            && |c.payload| + o <= rx.capacity - |rx.queue|
    ensures Fits(Pruned(rx).chunks, rx.nxt, |rx.queue|, rx.capacity, -0xFFFF)
  {
    var kept := Pruned(rx).chunks;
    var c := kept[i];
    FitsRetain(rx.chunks, rx.nxt, |rx.queue|, rx.capacity, BEHIND);
    RetainMembers(rx.chunks, rx.nxt);
    RetainedFits(kept, rx.nxt, |rx.queue|, rx.capacity);
    FitsAt(kept, rx.nxt, |rx.queue|, rx.capacity, -0xFFFF, i);
    RetainedOffset(c, rx.nxt);
    OffOrder(rx.nxt, c.seqNo);
    BytesOfMember(kept, i);
  }

  lemma {:induction false} BytesOfMember(chunks: seq<Chunk>, i: nat)
    requires i < |chunks|
    ensures |chunks[i].payload| <= PayloadBytes(chunks[..i + 1])
  {
    assert chunks[..i + 1][1..] == chunks[1..][..i];
    if i > 0 {
      BytesOfMember(chunks[1..], i - 1);
    }
  }

  lemma {:induction false} RetainedFits(chunks: seq<Chunk>, nxt: u32, used: nat, capacity: nat)
    requires Fits(chunks, nxt, used, capacity, BEHIND) && capacity < 0x1_0000
    requires forall c :: c in chunks ==> Retained(c, nxt)
    ensures Fits(chunks, nxt, used, capacity, -0xFFFF)
  {
    if chunks != [] {
      RetainedOffset(chunks[0], nxt);
      assert chunks[0] in chunks;
      RetainedFits(chunks[1..], nxt, used + |chunks[0].payload|, capacity);
    }
  }

  /** One turn never gets stuck: it moves the rest of the chunk and leaves `nxt` at the chunk's end. */
  lemma TurnTakesChunk(rx: Rx, i: nat)
    requires Draining(rx) && FirstReady(Pruned(rx).chunks, rx.nxt) == Some(i)
    ensures 0 <= -Off(rx.nxt, Pruned(rx).chunks[i].seqNo) <= |Pruned(rx).chunks[i].payload|
    ensures var c := Pruned(rx).chunks[i]; var o := Off(rx.nxt, c.seqNo);
            Take(Pruned(rx), i, rx.capacity)
            == Taken(Rx(Add(rx.nxt, o + c.Len()), rx.queue + c.payload[-o..], Without(Pruned(rx).chunks, i),
                        rx.capacity, rx.closed || c.fin), c.fin, false)
  {
    hide Off, Add, Fits, Retain, FirstReady, Align;
    TurnFacts(rx, i);
    var c := Pruned(rx).chunks[i];
    var data := c.payload[-Off(rx.nxt, c.seqNo)..];
    assert data[..|data|] == data;
    AddAdd(rx.nxt, |data|, Bit(c.fin));
  }

  /** One turn keeps the capacity invariant. */
  lemma TurnKeepsCapacity(rx: Rx, i: nat)
    requires Draining(rx) && FirstReady(Pruned(rx).chunks, rx.nxt) == Some(i)
    ensures var taken := Take(Pruned(rx), i, rx.capacity);
            Draining(taken.rx) && taken.rx.capacity == rx.capacity && !taken.stuck && rx.queue <= taken.rx.queue
  {
    TurnFacts(rx, i);
    TurnTakesChunk(rx, i);
    var c := Pruned(rx).chunks[i];
    OthersFit(Pruned(rx).chunks, i, rx.nxt, |rx.queue|, |c.payload| + Off(rx.nxt, c.seqNo), Bit(c.fin), rx.capacity);
  }

  lemma OthersFit(chunks: seq<Chunk>, i: nat, nxt: u32, used: nat, moved: nat, bit: nat, capacity: nat)
    requires Fits(chunks, nxt, used, capacity, -0xFFFF) && i < |chunks|
    requires moved + bit <= 0x1_0000
    ensures Fits(Without(chunks, i), Add(nxt, moved + bit), used + moved, capacity, BEHIND)
  {
    FitsWithout(chunks, i, nxt, used, capacity, -0xFFFF);
    FitsShift(Without(chunks, i), nxt, used, moved, bit, capacity, -0xFFFF);
    FitsWeaken(Without(chunks, i), Add(nxt, moved + bit), used + moved, used + moved, capacity,
               -0xFFFF - moved - bit, BEHIND);
  }

  /** The drain ends with every parked chunk strictly after `nxt` and within the capacity. */
  lemma {:induction false} DrainKeepsCapacity(rx: Rx)
    requires Draining(rx)
    ensures RxOk(Drain(rx, rx.capacity).rx)
    ensures Drain(rx, rx.capacity).rx.capacity == rx.capacity
    ensures rx.queue <= Drain(rx, rx.capacity).rx.queue
    decreases |rx.chunks|
  {
    var kept := Pruned(rx);
    FitsRetain(rx.chunks, rx.nxt, |rx.queue|, rx.capacity, BEHIND);
    match FirstReady(kept.chunks, rx.nxt)
    case None =>
      FitsPositive(kept.chunks, rx.nxt, |rx.queue|, rx.capacity, BEHIND);
    case Some(i) =>
      TurnKeepsCapacity(rx, i);
      DrainKeepsCapacity(Take(kept, i, rx.capacity).rx);
  }

  lemma InsertKeepsCapacity(rx: Rx, seqNo: u32, payload: seq<byte>, fin: bool, slots: nat)
    requires RxOk(rx)
    ensures Draining(Insert(rx, seqNo, payload, fin, slots))
  {
    FitsWeaken(rx.chunks, rx.nxt, |rx.queue|, |rx.queue|, rx.capacity, 1, BEHIND);
    match ChunkFor(rx, seqNo, payload, fin)
    case None =>
    case Some(c) =>
      OffOrder(rx.nxt, c.seqNo);
      OffOrder(rx.nxt, seqNo);
      WindowCoversParked(rx);
      FitsAppend(rx.chunks, c, rx.nxt, |rx.queue|, rx.capacity, BEHIND);
  }

  /** The buffered bytes never exceed the capacity, so the window is exact. */
  lemma {:induction false} ParkedBytesFit(chunks: seq<Chunk>, nxt: u32, used: nat, capacity: nat)
    requires Fits(chunks, nxt, used, capacity, 1) && used <= capacity
    ensures used + PayloadBytes(chunks) <= capacity
    ensures chunks != [] ==> Off(nxt, chunks[|chunks| - 1].seqNo) + used + PayloadBytes(chunks) <= capacity
  {
    if chunks != [] {
      ParkedBytesFit(chunks[1..], nxt, used + |chunks[0].payload|, capacity);
    }
  }

  lemma WindowCoversParked(rx: Rx)
    requires RxOk(rx)
    ensures AvailableWindow(rx) == rx.capacity - |rx.queue| - PayloadBytes(rx.chunks)
  {
    ParkedBytesFit(rx.chunks, rx.nxt, |rx.queue|, rx.capacity);
  }

  /**
   * Receiving any segment whatever, from any peer, keeps the capacity invariant, so out-of-order
   * data never closes the window: see `OpenWindow`.
   */
  lemma ReceiveKeepsCapacity(rx: Rx, seqNo: u32, payload: seq<byte>, fin: bool, slots: nat)
    requires RxOk(rx)
    ensures var r := Receive(rx, seqNo, payload, fin, rx.capacity, slots);
            RxOk(r.rx) && r.rx.capacity == rx.capacity && rx.queue <= r.rx.queue
  {
    InsertKeepsCapacity(rx, seqNo, payload, fin, slots);
    DrainKeepsCapacity(Insert(rx, seqNo, payload, fin, slots));
  }

  /**
   * The window is at least the offset of the last parked chunk, each chunk fits below the capacity
   * with everything before it, and a zero window means a full queue with nothing parked.
   */
  lemma OpenWindow(rx: Rx)
    requires RxOk(rx)
    ensures forall i :: 0 <= i < |rx.chunks| ==>
      0 < Off(rx.nxt, rx.chunks[i].seqNo)
      && Off(rx.nxt, rx.chunks[i].seqNo) + PayloadBytes(rx.chunks[..i + 1]) + |rx.queue| <= rx.capacity
    ensures rx.chunks != [] ==> AvailableWindow(rx) >= Off(rx.nxt, rx.chunks[|rx.chunks| - 1].seqNo) > 0
    ensures AvailableWindow(rx) == 0 <==> |rx.queue| == rx.capacity && rx.chunks == []
  {
    forall i | 0 <= i < |rx.chunks|
      ensures 0 < Off(rx.nxt, rx.chunks[i].seqNo)
      ensures Off(rx.nxt, rx.chunks[i].seqNo) + PayloadBytes(rx.chunks[..i + 1]) + |rx.queue| <= rx.capacity
    {
      FitsAt(rx.chunks, rx.nxt, |rx.queue|, rx.capacity, 1, i);
    }
    ParkedBytesFit(rx.chunks, rx.nxt, |rx.queue|, rx.capacity);
  }

  /** The receive side is closed exactly by consuming a FIN. */
  lemma {:induction false} DrainCloses(rx: Rx, buffer: nat)
    ensures Drain(rx, buffer).rx.closed == (rx.closed || Drain(rx, buffer).fin)
    decreases |rx.chunks|
  {
    var kept := Pruned(rx);
    match FirstReady(kept.chunks, kept.nxt)
    case None =>
    case Some(i) =>
      if !Take(kept, i, buffer).stuck {
        DrainCloses(Take(kept, i, buffer).rx, buffer);
      }
  }

  lemma ReceiveCloses(rx: Rx, seqNo: u32, payload: seq<byte>, fin: bool, buffer: nat, slots: nat)
    ensures var d := Receive(rx, seqNo, payload, fin, buffer, slots); d.rx.closed == (rx.closed || d.fin)
  {
    hide Drain, ChunkFor;
    DrainCloses(Insert(rx, seqNo, payload, fin, slots), buffer);
  }

  /** Reading from the queue keeps the invariant. */
  lemma ReadKeepsCapacity(rx: Rx, count: nat)
    requires RxOk(rx) && count <= |rx.queue|
    ensures RxOk(rx.(queue := rx.queue[count..]))
  {
    FitsWeaken(rx.chunks, rx.nxt, |rx.queue|, |rx.queue| - count, rx.capacity, 1, 1);
  }

  // ---------------------------------------------------------------- the first hole

  /** Some chunk covers the sequence number at offset `x` from `nxt`. */
  ghost predicate Covered(chunks: seq<Chunk>, nxt: u32, x: int) {
    exists c :: c in chunks && Covers(c, nxt, x)
  }

  ghost predicate Covers(c: Chunk, nxt: u32, x: int) {
    Off(nxt, c.seqNo) <= x < Off(nxt, c.seqNo) + c.Len()
  }

  /** How far the drain moves `nxt`. */
  function Advance(rx: Rx, buffer: nat): int {
    Off(rx.nxt, Drain(rx, buffer).rx.nxt)
  }

  /**
   * Whatever the list order, the drain moves `nxt` exactly to the first offset that no chunk
   * covers.
   */
  lemma {:induction false} DrainFindsFirstHole(rx: Rx)
    requires Draining(rx)
    ensures var k := Advance(rx, rx.capacity);
            && 0 <= k <= 0x1_0000
            && !Covered(rx.chunks, rx.nxt, k)
            && (forall x :: 0 <= x < k ==> Covered(rx.chunks, rx.nxt, x))
    decreases |rx.chunks|
  {
    var kept := Pruned(rx).chunks;
    PruningKeepsCover(rx);
    match FirstReady(kept, rx.nxt)
    case None =>
      forall c | c in kept
        ensures !Covers(c, rx.nxt, 0)
      {
        OffOrder(rx.nxt, c.seqNo);
      }
    case Some(i) =>
      TurnKeepsCapacity(rx, i);
      TurnTakesChunk(rx, i);
      DrainFindsFirstHole(Take(Pruned(rx), i, rx.capacity).rx);
      HoleStep(rx, i);
  }

  /** Pruning drops only chunks that end at or before `nxt`. */
  lemma PruningKeepsCover(rx: Rx)
    requires Draining(rx)
    ensures forall x :: 0 <= x ==> (Covered(Pruned(rx).chunks, rx.nxt, x) <==> Covered(rx.chunks, rx.nxt, x))
  {
    RetainMembers(rx.chunks, rx.nxt);
    forall x, c | 0 <= x && c in rx.chunks && Covers(c, rx.nxt, x)
      ensures c in Pruned(rx).chunks
    {
      var i :| 0 <= i < |rx.chunks| && rx.chunks[i] == c;
      FitsAt(rx.chunks, rx.nxt, |rx.queue|, rx.capacity, BEHIND, i);
      RetainedOffset(c, rx.nxt);
    }
  }

  lemma HoleStep(rx: Rx, i: nat)
    requires Draining(rx) && FirstReady(Pruned(rx).chunks, rx.nxt) == Some(i)
    requires !Take(Pruned(rx), i, rx.capacity).stuck
    requires var next := Take(Pruned(rx), i, rx.capacity).rx; var k := Advance(next, rx.capacity);
             && 0 <= k <= 0x1_0000
             && !Covered(next.chunks, next.nxt, k)
             && (forall x :: 0 <= x < k ==> Covered(next.chunks, next.nxt, x))
    ensures var k := Advance(rx, rx.capacity);
            && 0 <= k <= 0x1_0000
            && !Covered(Pruned(rx).chunks, rx.nxt, k)
            && (forall x :: 0 <= x < k ==> Covered(Pruned(rx).chunks, rx.nxt, x))
  {
    var kept := Pruned(rx).chunks;
    TurnTakesChunk(rx, i);
    TurnShiftsOffsets(rx, i);
    WithoutMembers(kept, i);
    var a := Off(rx.nxt, kept[i].seqNo) + kept[i].Len();
    var next := Take(Pruned(rx), i, rx.capacity).rx;
    OffCompose(rx.nxt, a, Drain(next, rx.capacity).rx.nxt);
    HoleAfterTurn(kept, kept[i], Without(kept, i), rx.nxt, a, Advance(next, rx.capacity));
  }

  lemma WithoutMembers(list: seq<Chunk>, i: nat)
    requires i < |list|
    ensures forall d :: d in list <==> d == list[i] || d in Without(list, i)
  {
    assert list == list[..i] + [list[i]] + list[i + 1..];
  }

  /** All offsets drop by the distance `nxt` moves; no chunk reaches beyond 2^16 of the old `nxt`. */
  lemma TurnShiftsOffsets(rx: Rx, i: nat)
    requires Draining(rx) && FirstReady(Pruned(rx).chunks, rx.nxt) == Some(i)
    ensures var kept := Pruned(rx).chunks; var a := Off(rx.nxt, kept[i].seqNo) + kept[i].Len();
            && 0 < a <= 0x1_0000 && Off(rx.nxt, kept[i].seqNo) <= 0
            && (forall d :: d in kept ==>
                  && Off(Add(rx.nxt, a), d.seqNo) == Off(rx.nxt, d.seqNo) - a
                  && Off(rx.nxt, d.seqNo) + d.Len() <= 0x1_0000)
  {
    TurnFacts(rx, i);
    var kept := Pruned(rx).chunks;
    var a := Off(rx.nxt, kept[i].seqNo) + kept[i].Len();
    forall d | d in kept
      ensures Off(Add(rx.nxt, a), d.seqNo) == Off(rx.nxt, d.seqNo) - a
      ensures Off(rx.nxt, d.seqNo) + d.Len() <= 0x1_0000
    {
      var j :| 0 <= j < |kept| && kept[j] == d;
      FitsAt(kept, rx.nxt, |rx.queue|, rx.capacity, -0xFFFF, j);
      BytesOfMember(kept, j);
      OffShift(rx.nxt, d.seqNo, a);
    }
  }

  /** The chunk taken covers [0, a); beyond it the hole is where the other chunks leave it. */
  lemma HoleAfterTurn(kept: seq<Chunk>, c: Chunk, others: seq<Chunk>, nxt: u32, a: int, k: int)
    requires forall d :: d in kept <==> d == c || d in others
    requires 0 < a == Off(nxt, c.seqNo) + c.Len() && Off(nxt, c.seqNo) <= 0
    requires forall d :: d in kept ==>
      Off(Add(nxt, a), d.seqNo) == Off(nxt, d.seqNo) - a && Off(nxt, d.seqNo) + d.Len() <= 0x1_0000
    requires 0 <= k && !Covered(others, Add(nxt, a), k)
    requires forall x :: 0 <= x < k ==> Covered(others, Add(nxt, a), x)
    ensures !Covered(kept, nxt, a + k) && a + k <= 0x1_0000
    ensures forall x :: 0 <= x < a + k ==> Covered(kept, nxt, x)
  {
    forall x | 0 <= x < a + k
      ensures Covered(kept, nxt, x) && x < 0x1_0000
    {
      if x < a {
        assert Covers(c, nxt, x);
      } else {
        assert Covered(others, Add(nxt, a), x - a);
        var d :| d in others && Covers(d, Add(nxt, a), x - a);
        assert Covers(d, nxt, x);
      }
    }
    if Covered(kept, nxt, a + k) {
      var d :| d in kept && Covers(d, nxt, a + k);
      assert Covers(d, Add(nxt, a), k);
    }
    assert Covered(kept, nxt, a + k - 1);
  }

  lemma OffCompose(from: u32, a: int, end: u32)
    requires 0 <= a < 0x4000_0000 && -0x8000_0000 <= Off(Add(from, a), end) < 0x4000_0000
    requires 0 <= Off(Add(from, a), end)
    ensures Off(from, end) == a + Off(Add(from, a), end)
  {
  }

  /** Parked chunks start after `nxt`, so a drain without a new chunk moves nothing. */
  lemma NothingReady(rx: Rx)
    requires RxOk(rx)
    ensures Drain(rx, rx.capacity).rx.nxt == rx.nxt && Drain(rx, rx.capacity).rx.queue == rx.queue
  {
    var kept := Pruned(rx).chunks;
    RetainMembers(rx.chunks, rx.nxt);
    var ready := FirstReady(kept, rx.nxt);
    if ready.Some? {
      var c := kept[ready.value];
      assert c in kept && c in rx.chunks;
      var i :| 0 <= i < |rx.chunks| && rx.chunks[i] == c;
      FitsAt(rx.chunks, rx.nxt, |rx.queue|, rx.capacity, 1, i);
      OffOrder(rx.nxt, c.seqNo);
      assert false;
    }
  }

  /**
   * With an open window, a segment covering `nxt` advances it exactly when the reassembly list has a
   * free slot: a full list drops even the segment that is next in order. A bare FIN at `nxt` needs
   * no window.
   */
  lemma CoveringSegmentAdvances(rx: Rx, seqNo: u32, payload: seq<byte>, fin: bool, slots: nat)
    requires RxOk(rx)
    requires -0x8000_0000 < Off(rx.nxt, seqNo) <= 0 < Off(rx.nxt, seqNo) + |payload| + Bit(fin)
    requires AvailableWindow(rx) > 0 || Off(rx.nxt, seqNo) + |payload| == 0
    ensures Off(rx.nxt, Receive(rx, seqNo, payload, fin, rx.capacity, slots).rx.nxt) >= 1 <==> |rx.chunks| < slots
  {
    OffOrder(rx.nxt, rx.nxt);
    if |rx.chunks| < slots {
      FreeSlotAdvances(rx, seqNo, payload, fin, slots);
    } else {
      assert Insert(rx, seqNo, payload, fin, slots) == rx;
      NothingReady(rx);
    }
  }

  /** What is kept of a segment covering `nxt` starts there and is not empty. */
  lemma CoveringChunk(rx: Rx, seqNo: u32, payload: seq<byte>, fin: bool)
    requires -0x8000_0000 < Off(rx.nxt, seqNo) <= 0 < Off(rx.nxt, seqNo) + |payload| + Bit(fin)
    requires AvailableWindow(rx) > 0 || Off(rx.nxt, seqNo) + |payload| == 0
    ensures var c := ChunkFor(rx, seqNo, payload, fin); c.Some? && c.value.seqNo == rx.nxt && c.value.Len() >= 1
  {
    hide AvailableWindow;
    OffOrder(rx.nxt, seqNo);
    OffOrder(rx.nxt, rx.nxt);
    var o := Off(rx.nxt, seqNo);
    if o + |payload| == 0 {
      OffPosition(rx.nxt, seqNo);
      assert seqNo == Add(rx.nxt, o);
      AddAdd(rx.nxt, o, |payload|);
      AddAdd(rx.nxt, 0, 0);
    }
  }

  lemma FreeSlotAdvances(rx: Rx, seqNo: u32, payload: seq<byte>, fin: bool, slots: nat)
    requires RxOk(rx) && |rx.chunks| < slots
    requires -0x8000_0000 < Off(rx.nxt, seqNo) <= 0 < Off(rx.nxt, seqNo) + |payload| + Bit(fin)
    requires AvailableWindow(rx) > 0 || Off(rx.nxt, seqNo) + |payload| == 0
    ensures Off(rx.nxt, Receive(rx, seqNo, payload, fin, rx.capacity, slots).rx.nxt) >= 1
  {
    CoveringChunk(rx, seqNo, payload, fin);
    InsertKeepsCapacity(rx, seqNo, payload, fin, slots);
    OffOrder(rx.nxt, rx.nxt);
    hide ChunkFor, AvailableWindow, Fits, Drain, Add;
    var c := ChunkFor(rx, seqNo, payload, fin).value;
    forall d | d in rx.chunks
      ensures !SameSpan(d, c)
    {
      var i :| 0 <= i < |rx.chunks| && rx.chunks[i] == d;
      FitsAt(rx.chunks, rx.nxt, |rx.queue|, rx.capacity, 1, i);
    }
    var inserted := Insert(rx, seqNo, payload, fin, slots);
    assert c in inserted.chunks && Covers(c, rx.nxt, 0);
    DrainFindsFirstHole(inserted);
  }
}
