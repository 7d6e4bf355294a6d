/** Reno congestion control: the state value, its transitions, and the object that runs them. */
module RenoControl {
  import opened Numbers

  /** A negotiated maximum segment size. */
  type Mss = n: int | 1 <= n < 0x1_0000 witness 1

  datatype RenoState = RenoState(cwnd: u64, mss: Mss, ssthresh: u64, inFastRecovery: bool, inRtoRecovery: bool) {
    function Window(): u64 {
      Max(cwnd, mss)
    }

    function SetMss(mss: Mss): RenoState {
      this.(mss := mss, cwnd := Max(cwnd, mss))
    }

    function Increment(acked: nat): nat {
      if cwnd < ssthresh then Min(acked, mss)
      else Max(if cwnd == 0 then 0 else SatMul(mss, mss) / cwnd, 1)
    }

    function OnAck(acked: nat): RenoState {
      if acked == 0 then this
      else if inFastRecovery then
        this.(cwnd := ssthresh, inFastRecovery := false, inRtoRecovery := false)
      else
        this.(cwnd := Max(SatAdd(cwnd, Increment(acked)), mss), inRtoRecovery := false)
    }

    function OnDuplicateAck(): RenoState {
      if inFastRecovery then this.(cwnd := SatAdd(cwnd, mss)) else this
    }

    function LossThreshold(inFlight: u32): u64 {
      Max(inFlight / 2, SatMul(mss, 2))
    }

    function OnFastLoss(inFlight: u32): RenoState {
      if inFastRecovery then this
      else
        var threshold := LossThreshold(inFlight);
        this.(ssthresh := threshold, cwnd := SatAdd(threshold, SatMul(mss, 3)), inFastRecovery := true)
    }

    function OnTimeout(inFlight: u32): RenoState {
      this.(ssthresh := if inRtoRecovery then ssthresh else LossThreshold(inFlight),
            inRtoRecovery := true, cwnd := mss, inFastRecovery := false)
    }
  }

  function Initial(mss: Mss): RenoState {
    RenoState(SatMul(mss, 2), mss, U64_MAX, false, false)
  }

  // ---------------------------------------------------------------- properties

  /** The congestion window holds a segment, and a loss never leaves less than two. */
  predicate RenoOk(r: RenoState) {
    r.mss <= r.cwnd && 2 * r.mss <= r.ssthresh
  }

  datatype RenoEvent =
    | Acked(bytes: nat)
    | Duplicate
    | FastLoss(inFlight: u32)
    | Timeout(inFlight: u32)
    | Negotiated(mss: Mss)

  function OnEvent(r: RenoState, event: RenoEvent): RenoState {
    match event
    case Acked(bytes) => r.OnAck(bytes)
    case Duplicate => r.OnDuplicateAck()
    case FastLoss(inFlight) => r.OnFastLoss(inFlight)
    case Timeout(inFlight) => r.OnTimeout(inFlight)
    case Negotiated(mss) => r.SetMss(mss)
  }

  function RenoRun(r: RenoState, events: seq<RenoEvent>): RenoState
    decreases |events|
  {
    if events == [] then r else RenoRun(OnEvent(r, events[0]), events[1..])
  }

  /** The smallest segment size of a run. */
  function Smallest(mss: Mss, events: seq<RenoEvent>): Mss {
    if events == [] then mss
    else Smallest(if events[0].Negotiated? then Min(mss, events[0].mss) else mss, events[1..])
  }

  /** Held between events: bounds by the smallest segment size so far. */
  predicate Bounded(r: RenoState, mss: Mss) {
    mss <= r.mss && mss <= r.cwnd && 2 * mss <= r.ssthresh
  }

  /**
   * In every run whatever, the window holds a segment of the smallest size negotiated and the
   * threshold two of them; so a run whose last size is its smallest, as negotiation by minimum gives,
   * ends with `cwnd >= mss` and `ssthresh >= 2 * mss`.
   */
  lemma {:induction false} RenoRunBounds(r: RenoState, events: seq<RenoEvent>)
    requires RenoOk(r)
    ensures var r', m := RenoRun(r, events), Smallest(r.mss, events);
            && m <= r'.cwnd && 2 * m <= r'.ssthresh
            && (r'.mss == m ==> RenoOk(r'))
  {
    BoundsKept(r, r.mss, events);
  }

  lemma {:induction false} BoundsKept(r: RenoState, mss: Mss, events: seq<RenoEvent>)
    requires Bounded(r, mss)
    ensures Bounded(RenoRun(r, events), Smallest(mss, events))
    decreases |events|
  {
    if events != [] {
      BoundsKept(OnEvent(r, events[0]), if events[0].Negotiated? then Min(mss, events[0].mss) else mss, events[1..]);
    }
  }

  /** A larger size negotiated in fast recovery would leave a window below one segment. */
  lemma RaisedSegmentSize()
    ensures var r := RenoRun(Initial(1), [FastLoss(0), Negotiated(1000), Acked(1)]); r.cwnd == 2 && r.mss == 1000
  {
    var r := Initial(1).OnFastLoss(0).SetMss(1000);
    assert [FastLoss(0), Negotiated(1000), Acked(1)][1..] == [Negotiated(1000), Acked(1)];
    assert [Negotiated(1000), Acked(1)][1..] == [Acked(1)];
    assert RenoRun(r, [Acked(1)]) == r.OnAck(1);
  }

  lemma EventKeepsRenoOk(r: RenoState, event: RenoEvent)
    requires RenoOk(r) && (event.Negotiated? ==> event.mss <= r.mss)
    ensures RenoOk(OnEvent(r, event))
  {
  }

  /** How many timeouts of a run change the threshold. */
  function Lowered(r: RenoState, events: seq<RenoEvent>): nat
    decreases |events|
  {
    if events == [] then 0
    else
      var r' := OnEvent(r, events[0]);
      Bit(events[0].Timeout? && r'.ssthresh != r.ssthresh) + Lowered(r', events[1..])
  }

  /**
   * After a timeout, until payload is acknowledged, recovery lasts and no further timeout changes
   * `ssthresh`; only a fast loss or a new segment size changes anything at all.
   */
  lemma {:induction false} RepeatedTimeouts(r: RenoState, first: u32, rest: seq<RenoEvent>)
    requires forall e :: e in rest ==> !(e.Acked? && e.bytes > 0)
    ensures var r1 := r.OnTimeout(first); var r' := RenoRun(r1, rest);
            && r1.cwnd == r.mss && (!r.inRtoRecovery ==> r1.ssthresh == Max(first / 2, 2 * r.mss))
            && r'.inRtoRecovery && Lowered(r1, rest) == 0
            && ((forall e :: e in rest ==> !e.FastLoss? && !e.Negotiated?) ==> r' == r1)
  {
    StaysTimedOut(r.OnTimeout(first), rest);
  }

  lemma {:induction false} StaysTimedOut(r: RenoState, events: seq<RenoEvent>)
    requires r.inRtoRecovery && forall e :: e in events ==> !(e.Acked? && e.bytes > 0)
    ensures RenoRun(r, events).inRtoRecovery && Lowered(r, events) == 0
    ensures !r.inFastRecovery && r.cwnd == r.mss && (forall e :: e in events ==> !e.FastLoss? && !e.Negotiated?) ==>
      RenoRun(r, events) == r
    decreases |events|
  {
    if events != [] {
      assert events[0] in events;
      StaysTimedOut(OnEvent(r, events[0]), events[1..]);
    }
  }

  // ---------------------------------------------------------------- growth and halving

  predicate AllAcks(events: seq<RenoEvent>) {
    forall e :: e in events ==> e.Acked? && e.bytes > 0
  }

  function Total(events: seq<RenoEvent>): nat
    requires AllAcks(events)
  {
    if events == [] then 0 else events[0].bytes + Total(events[1..])
  }

  /** Slow start: up to the threshold the window grows by every byte acknowledged, so it doubles per round trip. */
  lemma {:induction false} SlowStartDoubles(r: RenoState, events: seq<RenoEvent>)
    requires RenoOk(r) && !r.inFastRecovery && AllAcks(events) && r.cwnd + Total(events) <= r.ssthresh
    requires forall e :: e in events ==> e.bytes <= r.mss
    ensures RenoRun(r, events).cwnd == r.cwnd + Total(events)
    decreases |events|
  {
    if events != [] {
      assert events[0] in events;
      var r1 := OnEvent(r, events[0]);
      assert r1.cwnd == r.cwnd + events[0].bytes;
      SlowStartDoubles(r1, events[1..]);
    }
  }

  /** One step of avoidance: between the rates of the present and of a larger window. */
  lemma AvoidanceStep(r: RenoState, bytes: nat, w: nat, limit: nat)
    requires RenoOk(r) && !r.inFastRecovery && r.ssthresh <= r.cwnd && bytes > 0 && 1 <= w <= r.cwnd <= limit
    requires r.cwnd + Max(r.mss * r.mss / w, 1) <= U64_MAX
    ensures var grown := r.OnAck(bytes).cwnd - r.cwnd;
            Max(r.mss * r.mss / limit, 1) <= grown <= Max(r.mss * r.mss / w, 1)
    ensures r.OnAck(bytes).mss == r.mss && r.OnAck(bytes).ssthresh == r.ssthresh && RenoOk(r.OnAck(bytes))
  {
    var square := r.mss * r.mss;
    assert 0 <= square <= U64_MAX by { Product(r.mss, r.mss, 0xFFFF, 0xFFFF); }
    Quotients(square, w, r.cwnd);
    Quotients(square, r.cwnd, limit);
  }

  lemma Product(a: nat, b: nat, c: nat, d: nat)
    requires a <= c && b <= d
    ensures 0 <= a * b <= c * d
  {
    assert a * b <= c * b;
    assert c * b <= c * d;
  }

  lemma Quotients(n: nat, a: nat, b: nat)
    requires 1 <= a <= b
    ensures n / b <= n / a
  {
    var q := n / b;
    assert q * b <= n;
    Product(a, q, b, q);
    assert a * q <= n;
    Fits(n, a, q);
  }

  lemma Negative(a: nat, x: int)
    requires a >= 1 && a * x < 0
    ensures x < 0
  {
  }

  lemma Fits(n: nat, a: nat, q: nat)
    requires a >= 1 && a * q <= n
    ensures q <= n / a
  {
    var d := n / a;
    assert n < a * d + a;
    assert a * (q - d - 1) == a * q - a * d - a;
    Negative(a, q - d - 1);
  }

  /**
   * Congestion avoidance: over any number of ACKs the window grows with each one by at least the
   * segment size squared over its final size, or one, and at most that over its first size, or one.
   */
  lemma AvoidanceGrowth(r: RenoState, events: seq<RenoEvent>, w: nat, limit: nat)
    requires RenoOk(r) && !r.inFastRecovery && r.ssthresh <= r.cwnd && AllAcks(events) && 1 <= w <= r.cwnd
    requires r.cwnd + |events| * Max(r.mss * r.mss / w, 1) <= limit <= U64_MAX && limit >= 1
    ensures var grown := RenoRun(r, events).cwnd - r.cwnd;
            |events| * Max(r.mss * r.mss / limit, 1) <= grown <= |events| * Max(r.mss * r.mss / w, 1)
    decreases |events|
  {
    Grows(r, events, w, limit, Max(r.mss * r.mss / limit, 1), Max(r.mss * r.mss / w, 1));
  }

  lemma {:induction false} Grows(r: RenoState, events: seq<RenoEvent>, w: nat, limit: nat, least: nat, most: nat)
    requires RenoOk(r) && !r.inFastRecovery && r.ssthresh <= r.cwnd && AllAcks(events) && 1 <= w <= r.cwnd
    requires limit >= 1 && least == Max(r.mss * r.mss / limit, 1) && most == Max(r.mss * r.mss / w, 1)
    requires r.cwnd + |events| * most <= limit <= U64_MAX
    ensures var grown := RenoRun(r, events).cwnd - r.cwnd; |events| * least <= grown <= |events| * most
    decreases |events|
  {
    if events != [] {
      var r1 := OnEvent(r, events[0]);
      assert events[0] in events;
      OneLess(|events|, most);
      OneLess(|events|, least);
      AvoidanceStep(r, events[0].bytes, w, limit);
      Grows(r1, events[1..], w, limit, least, most);
    }
  }

  lemma OneLess(n: nat, rate: nat)
    requires n >= 1
    ensures n * rate == rate + (n - 1) * rate && (n - 1) * rate >= 0
  {
    Product(0, rate, n - 1, rate);
  }

  /** So a window's worth of ACKs grows the window by at most a segment, or one byte each. */
  lemma AvoidancePerRoundTrip(r: RenoState, events: seq<RenoEvent>)
    requires RenoOk(r) && !r.inFastRecovery && r.ssthresh <= r.cwnd && AllAcks(events) && |events| * r.mss <= r.cwnd
    requires r.cwnd + r.mss + |events| <= U64_MAX
    ensures r.cwnd + |events| <= RenoRun(r, events).cwnd <= r.cwnd + Max(r.mss, |events|)
  {
    var square, n := r.mss * r.mss, |events|;
    var rate := square / r.cwnd;
    Product(n, rate, n, rate);
    assert n * rate <= r.mss by { PerWindow(n, r.mss, r.cwnd); }
    assert n * Max(rate, 1) <= Max(r.mss, n);
    AvoidanceGrowth(r, events, r.cwnd, r.cwnd + Max(r.mss, n));
    assert n * Max(square / (r.cwnd + Max(r.mss, n)), 1) >= n by {
      Product(n, 1, n, Max(square / (r.cwnd + Max(r.mss, n)), 1));
    }
  }

  lemma PerWindow(n: nat, mss: nat, w: nat)
    requires n * mss <= w && w >= 1
    ensures n * (mss * mss / w) <= mss
  {
    var q := mss * mss / w;
    assert q * w <= mss * mss;
    Product(n * mss, mss, w, mss);
    Product(n, q * w, n, mss * mss);
    assert w * (n * q) == n * (q * w) && n * (mss * mss) == (n * mss) * mss;
    Fits(w * mss, w, n * q);
    Exact(mss, w);
  }

  lemma Exact(b: nat, w: nat)
    requires w >= 1
    ensures w * b / w == b
  {
    var d := w * b / w;
    assert w * d <= w * b < w * d + w;
    assert w * (d - b - 1) == w * d - w * b - w;
    assert w * (b - d - 1) == w * b - w * d - w;
    Negative(w, b - d - 1);
    Negative(w, d - b - 1);
  }

  /**
   * A fast loss halves: until payload is acknowledged the threshold is half the flight, but two
   * segments, and the window that plus three segments and one for each further duplicate; the ACK of
   * payload then leaves exactly the threshold.
   */
  lemma {:induction false} FastRecoveryCycle(r: RenoState, flight: u32, duplicates: seq<RenoEvent>, bytes: nat)
    requires !r.inFastRecovery && bytes > 0 && forall e :: e in duplicates ==> e.Duplicate?
    requires 0x1_0000_0000 + (3 + |duplicates|) * r.mss <= U64_MAX
    ensures var half := Max(flight / 2, 2 * r.mss); var r1 := RenoRun(r.OnFastLoss(flight), duplicates);
            && r1.ssthresh == half && r1.cwnd == half + (3 + |duplicates|) * r.mss
            && r1.OnAck(bytes).cwnd == half && !r1.OnAck(bytes).inFastRecovery
  {
    assert 3 * r.mss <= (3 + |duplicates|) * r.mss by { Product(3, r.mss, 3 + |duplicates|, r.mss); }
    assert (3 + |duplicates|) * r.mss == 3 * r.mss + |duplicates| * r.mss;
    Inflates(r.OnFastLoss(flight), duplicates);
  }

  lemma {:induction false} Inflates(r: RenoState, duplicates: seq<RenoEvent>)
    requires r.inFastRecovery && (forall e :: e in duplicates ==> e.Duplicate?)
    requires r.cwnd + |duplicates| * r.mss <= U64_MAX
    ensures RenoRun(r, duplicates) == r.(cwnd := r.cwnd + |duplicates| * r.mss)
    decreases |duplicates|
  {
    if duplicates != [] {
      assert duplicates[0] in duplicates;
      assert |duplicates| * r.mss == r.mss + (|duplicates| - 1) * r.mss;
      assert (|duplicates| - 1) * r.mss >= 0 by { Product(0, r.mss, |duplicates| - 1, r.mss); }
      Inflates(r.OnDuplicateAck(), duplicates[1..]);
    }
  }

  // ---------------------------------------------------------------- the object

  class Reno {
    var cwnd: u64
    var mss: Mss
    var ssthresh: u64
    var inFastRecovery: bool
    var inRtoRecovery: bool

    function Value(): RenoState
      reads this
    {
      RenoState(cwnd, mss, ssthresh, inFastRecovery, inRtoRecovery)
    }

    constructor (mss: Mss)
      ensures Value() == Initial(mss)
    {
      this.cwnd, this.mss, this.ssthresh := SatMul(mss, 2), mss, U64_MAX;
      this.inFastRecovery, this.inRtoRecovery := false, false;
    }

    method SetMss(mss: Mss)
      modifies this
      ensures Value() == old(Value()).SetMss(mss)
    {
      this.mss := mss;
      cwnd := Max(cwnd, mss);
    }

    method OnAck(acked: nat)
      modifies this
      ensures Value() == old(Value()).OnAck(acked)
    {
      if acked == 0 { return; }
      inRtoRecovery := false;
      if inFastRecovery {
        inFastRecovery := false;
        cwnd := ssthresh;
        return;
      }
      var increment;
      if cwnd < ssthresh {
        increment := Min(acked, mss);
      } else {
        increment := Max(if cwnd == 0 then 0 else SatMul(mss, mss) / cwnd, 1);
      }
      cwnd := Max(SatAdd(cwnd, increment), mss);
    }

    method OnDuplicateAck()
      modifies this
      ensures Value() == old(Value()).OnDuplicateAck()
    {
      if inFastRecovery {
        cwnd := SatAdd(cwnd, mss);
      }
    }

    method OnFastLoss(inFlight: u32)
      modifies this
      ensures Value() == old(Value()).OnFastLoss(inFlight)
    {
      if inFastRecovery { return; }
      ssthresh := Max(inFlight / 2, SatMul(mss, 2));
      cwnd := SatAdd(ssthresh, SatMul(mss, 3));
      inFastRecovery := true;
    }

    method OnTimeout(inFlight: u32)
      modifies this
      ensures Value() == old(Value()).OnTimeout(inFlight)
    {
      if !inRtoRecovery {
        ssthresh := Max(inFlight / 2, SatMul(mss, 2));
        inRtoRecovery := true;
      }
      cwnd := mss;
      inFastRecovery := false;
    }
  }
}
