/** The round-trip estimator of RFC 6298 with Karn's gate: state value, transitions and object. */
module RttEstimation {
  import opened Numbers
  import opened SequenceSpace

  datatype RttState = RttState(
    haveMeasurement: bool,
    srtt: nat,
    rttvar: nat,
    rto: u64,
    minRto: u64,
    maxRto: u64,
    consecutiveRtos: u8,
    sampleAfter: Option<u32>) {
    /** A segment ending at or before the marked point may have been sent more than once. */
    predicate CanSample(end: u32) {
      sampleAfter.Some? ==> After(end, sampleAfter.value)
    }

    function OnRetransmit(end: u32): RttState {
      this.(sampleAfter := Some(end))
    }

    function Smooth(ms: nat): RttState {
      if haveMeasurement then
        this.(rttvar := DivCeil(rttvar * 3 + AbsDiff(srtt, ms), 4), srtt := DivCeil(srtt * 7 + ms, 8))
      else
        this.(haveMeasurement := true, srtt := ms, rttvar := ms / 2)
    }

    function Sample(ms: nat): RttState {
      var smoothed := Smooth(Max(ms, 1));
      var margin := Max(5, SatMul(smoothed.rttvar, 4));
      smoothed.(rto := Clamp(SatAdd(smoothed.srtt, margin), minRto, maxRto),
                consecutiveRtos := 0, sampleAfter := None)
    }

    function OnTimeout(): RttState {
      var rtos := Min(consecutiveRtos + 1, 255);
      this.(rto := Min(SatMul(rto, 2), maxRto),
            haveMeasurement := haveMeasurement && rtos < 3,
            consecutiveRtos := if rtos >= 3 then 0 else rtos)
    }
  }

  function AbsDiff(a: nat, b: nat): nat {
    if a <= b then b - a else a - b
  }

  function Initial(initialRto: u64, minRto: u64, maxRto: u64): RttState {
    RttState(false, 0, 0, Clamp(initialRto, minRto, maxRto), minRto, maxRto, 0, None)
  }


  // ---------------------------------------------------------------- properties

  predicate RttOk(r: RttState) {
    1 <= r.minRto <= r.rto <= r.maxRto
  }

  datatype RttEvent = Measured(ms: nat) | TimedOut | Resent(end: u32)

  function OnEvent(r: RttState, event: RttEvent): RttState {
    match event
    case Measured(ms) => r.Sample(ms)
    case TimedOut => r.OnTimeout()
    case Resent(end) => r.OnRetransmit(end)
  }

  function RttRun(r: RttState, events: seq<RttEvent>): RttState
    decreases |events|
  {
    if events == [] then r else RttRun(OnEvent(r, events[0]), events[1..])
  }

  /** In every run the RTO stays between its bounds, and `srtt` between the bounds of the samples. */
  lemma {:induction false} RttRunBounds(r: RttState, events: seq<RttEvent>, lo: nat, hi: nat)
    requires RttOk(r) && 1 <= lo <= hi
    requires r.haveMeasurement ==> lo <= r.srtt <= hi
    requires forall e :: e in events && e.Measured? ==> lo <= e.ms <= hi
    ensures var r' := RttRun(r, events);
            RttOk(r') && r'.minRto == r.minRto && r'.maxRto == r.maxRto
            && (r'.haveMeasurement ==> lo <= r'.srtt <= hi)
    decreases |events|
  {
    if events != [] {
      assert events[0] in events;
      RttRunBounds(OnEvent(r, events[0]), events[1..], lo, hi);
    }
  }

  /** The timeout leaves room above the smoothed time, as long as there is a measurement. */
  predicate Covers(r: RttState) {
    r.haveMeasurement ==> r.rto >= Min(r.maxRto, r.srtt + Max(5, 4 * r.rttvar))
  }

  /**
   * In every run the timeout is at least the smoothed time plus four variances, and plus five, up to
   * its maximum; and after a sample it is never below that sample.
   */
  lemma {:induction false} TimeoutCovers(r: RttState, events: seq<RttEvent>, ms: nat)
    requires RttOk(r) && Covers(r)
    ensures Covers(RttRun(r, events))
    ensures RttRun(r, events).Sample(ms).rto >= Min(r.maxRto, ms)
    decreases |events|
  {
    if events == [] {
      SampleCovers(r, ms);
    } else {
      EventCovers(r, events[0]);
      TimeoutCovers(OnEvent(r, events[0]), events[1..], ms);
    }
  }

  lemma EventCovers(r: RttState, event: RttEvent)
    requires RttOk(r) && Covers(r)
    ensures var r' := OnEvent(r, event); RttOk(r') && Covers(r') && r'.maxRto == r.maxRto
  {
    if event.Measured? { SampleCovers(r, event.ms); }
  }

  lemma SampleCovers(r: RttState, ms: nat)
    requires RttOk(r)
    ensures var r' := r.Sample(ms);
            RttOk(r') && Covers(r') && r'.maxRto == r.maxRto && r'.rto >= Min(r.maxRto, ms)
  {
    var smoothed := r.Smooth(Max(ms, 1));
    assert SatMul(smoothed.rttvar, 4) == Min(4 * smoothed.rttvar, U64_MAX);
    SmoothCovers(r, Max(ms, 1));
  }

  lemma SmoothCovers(r: RttState, ms: nat)
    ensures r.Smooth(ms).srtt + 4 * r.Smooth(ms).rttvar >= ms
  {
    if r.haveMeasurement {
      CeilBound(r.rttvar * 3 + AbsDiff(r.srtt, ms), 4);
      CeilBound(r.srtt * 7 + ms, 8);
    }
  }

  lemma CeilBound(a: nat, b: nat)
    requires b > 0
    ensures b * DivCeil(a, b) >= a
  {
  }

  function Pow2(k: nat): nat {
    if k == 0 then 1 else 2 * Pow2(k - 1)
  }

  lemma PowerDoubles(a: nat, k: nat)
    requires k > 0
    ensures a * Pow2(k) == 2 * (a * Pow2(k - 1)) && 0 <= a * Pow2(k - 1)
  {
    assert Pow2(k) == 2 * Pow2(k - 1);
  }

  function Timeouts(r: RttState, k: nat): RttState {
    if k == 0 then r else Timeouts(r, k - 1).OnTimeout()
  }

  /** Back-off: k timeouts without a sample double the RTO k times, up to the maximum. */
  lemma {:induction false} Backoff(r: RttState, k: nat)
    requires RttOk(r)
    ensures Timeouts(r, k).rto == Min(r.rto * Pow2(k), r.maxRto) && Timeouts(r, k).maxRto == r.maxRto
  {
    if k > 0 {
      Backoff(r, k - 1);
      PowerDoubles(r.rto, k);
      hide Pow2;
    }
  }

  /** The third timeout in a row, and every third after it, drops the measurement; none returns without a sample. */
  lemma {:induction false} TimeoutsForget(r: RttState, k: nat)
    requires r.consecutiveRtos == 0
    ensures Timeouts(r, k).haveMeasurement == (r.haveMeasurement && k < 3)
    ensures Timeouts(r, k).consecutiveRtos == k % 3
    ensures Timeouts(r, k).sampleAfter == r.sampleAfter && Timeouts(r, k).srtt == r.srtt
  {
    if k > 0 {
      TimeoutsForget(r, k - 1);
    }
  }

  function Samples(r: RttState, ms: nat, n: nat): RttState {
    if n == 0 then r else Samples(r, ms, n - 1).Sample(ms)
  }

  /** Under equal samples `srtt` is exact and the variance sinks by one a sample until it is at most 3. */
  lemma {:induction false} ConstantSamples(r: RttState, ms: nat, n: nat)
    requires RttOk(r) && !r.haveMeasurement && ms >= 1 && n >= 1
    ensures var r' := Samples(r, ms, n);
            && RttOk(r') && r'.haveMeasurement && r'.srtt == ms
            && r'.rttvar <= Max(3, ms / 2 - (n - 1))
            && r'.minRto == r.minRto && r'.maxRto == r.maxRto
    ensures Samples(r, ms, n).rto >= Clamp(ms + 5, r.minRto, r.maxRto)
    ensures n > ms / 2 ==> Samples(r, ms, n).rto <= Clamp(ms + 12, r.minRto, r.maxRto)
  {
    hide RttState.Sample;
    if n > 1 {
      ConstantSamples(r, ms, n - 1);
      SampleAgain(Samples(r, ms, n - 1), ms);
    } else {
      assert Samples(r, ms, 0) == r;
      FirstSample(r, ms);
    }
  }

  lemma FirstSample(r: RttState, ms: nat)
    requires RttOk(r) && !r.haveMeasurement && ms >= 1
    ensures var r' := r.Sample(ms);
            && r'.haveMeasurement && r'.srtt == ms && r'.rttvar == ms / 2
            && r'.minRto == r.minRto && r'.maxRto == r.maxRto
            && r'.rto == Clamp(SatAdd(ms, Max(5, SatMul(ms / 2, 4))), r.minRto, r.maxRto)
  {
  }

  /** The same sample again leaves the smoothed time and takes one off the variance, until it is at most 3. */
  lemma SampleAgain(r: RttState, ms: nat)
    requires RttOk(r) && r.haveMeasurement && r.srtt == ms && ms >= 1
    ensures var r' := r.Sample(ms);
            && r'.haveMeasurement && r'.srtt == ms && r'.rttvar <= Max(3, r.rttvar - 1)
            && r'.minRto == r.minRto && r'.maxRto == r.maxRto
            && r'.rto == Clamp(SatAdd(ms, Max(5, SatMul(r'.rttvar, 4))), r.minRto, r.maxRto)
  {
    assert DivCeil(ms * 7 + ms, 8) == ms;
    assert DivCeil(r.rttvar * 3 + 0, 4) <= Max(3, r.rttvar - 1);
  }

  // ---------------------------------------------------------------- the object

  class RttEstimator {
    var haveMeasurement: bool
    var srttMs: nat
    var rttvarMs: nat
    var rtoMs: u64
    var minRtoMs: u64
    var maxRtoMs: u64
    var consecutiveRtos: u8
    var sampleAfter: Option<u32>

    function Value(): RttState
      reads this
    {
      RttState(haveMeasurement, srttMs, rttvarMs, rtoMs, minRtoMs, maxRtoMs, consecutiveRtos, sampleAfter)
    }

    constructor (initialRto: u64, minRto: u64, maxRto: u64)
      ensures Value() == Initial(initialRto, minRto, maxRto)
    {
      haveMeasurement, srttMs, rttvarMs := false, 0, 0;
      rtoMs, minRtoMs, maxRtoMs := Clamp(initialRto, minRto, maxRto), minRto, maxRto;
      consecutiveRtos, sampleAfter := 0, None;
    }

    method OnRetransmit(end: u32)
      modifies this
      ensures Value() == old(Value()).OnRetransmit(end)
    {
      sampleAfter := Some(end);
    }

    method Sample(sampleMs: nat)
      modifies this
      ensures Value() == old(Value()).Sample(sampleMs)
    {
      var ms := Max(sampleMs, 1);
      if haveMeasurement {
        var diff := AbsDiff(srttMs, ms);
        rttvarMs := DivCeil(rttvarMs * 3 + diff, 4);
        srttMs := DivCeil(srttMs * 7 + ms, 8);
      } else {
        haveMeasurement := true;
        srttMs := ms;
        rttvarMs := ms / 2;
      }
      var margin := Max(5, SatMul(rttvarMs, 4));
      rtoMs := Clamp(SatAdd(srttMs, margin), minRtoMs, maxRtoMs);
      consecutiveRtos := 0;
      sampleAfter := None;
    }

    method OnTimeout()
      modifies this
      ensures Value() == old(Value()).OnTimeout()
    {
      rtoMs := Min(SatMul(rtoMs, 2), maxRtoMs);
      consecutiveRtos := Min(consecutiveRtos + 1, 255);
      if consecutiveRtos >= 3 {
        haveMeasurement := false;
        consecutiveRtos := 0;
      }
    }
  }
}
