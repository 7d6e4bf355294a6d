/** Markers: boundaries in the accepted stream whose acknowledgement can be asked for later. */
module Markers {
  import opened Numbers

  datatype SendMarker = SendMarker(connectionId: u64, connectionToken: u64, acceptedPayloadBytes: nat)

  datatype MarkerStatus = Pending | Acked | ConnectionGone

  datatype Progress = Progress(token: u64, accepted: nat, acked: nat) {
    function Marker(connectionId: u64): SendMarker {
      SendMarker(connectionId, token, accepted)
    }

    function Status(marker: SendMarker): MarkerStatus {
      if marker.connectionToken != token then ConnectionGone
      else if acked >= marker.acceptedPayloadBytes then Acked
      else Pending
    }
  }

  // ---------------------------------------------------------------- properties

  datatype ProgressEvent = Accept(bytes: nat) | Acknowledge(bytes: nat)

  function OnEvent(p: Progress, event: ProgressEvent): Progress {
    match event
    case Accept(bytes) => p.(accepted := p.accepted + bytes)
    case Acknowledge(bytes) => p.(acked := p.acked + bytes)
  }

  function ProgressRun(p: Progress, events: seq<ProgressEvent>): Progress
    decreases |events|
  {
    if events == [] then p else ProgressRun(OnEvent(p, events[0]), events[1..])
  }

  /** The bytes acknowledged by a run of events. */
  function AckedBytes(events: seq<ProgressEvent>): nat {
    if events == [] then 0
    else (if events[0].Acknowledge? then events[0].bytes else 0) + AckedBytes(events[1..])
  }

  /**
   * A marker is acknowledged by exactly the runs that acknowledge all bytes then outstanding, and is
   * never pending again; later writes do not matter to it, and another connection's marker is gone.
   */
  lemma {:induction false} MarkerLife(p: Progress, id: u64, events: seq<ProgressEvent>, later: seq<ProgressEvent>)
    requires p.acked <= p.accepted
    ensures ProgressRun(p, events).Status(p.Marker(id)) ==
      if AckedBytes(events) >= p.accepted - p.acked then Acked else Pending
    ensures ProgressRun(p, events).Status(p.Marker(id)) == Acked ==>
      ProgressRun(p, events + later).Status(p.Marker(id)) == Acked
    ensures forall other: SendMarker :: other.connectionToken != p.token ==>
      ProgressRun(p, events).Status(other) == ConnectionGone
  {
    RunTotals(p, events);
    RunTotals(p, events + later);
    AckedBytesJoin(events, later);
  }

  lemma {:induction false} RunTotals(p: Progress, events: seq<ProgressEvent>)
    ensures var p' := ProgressRun(p, events); p'.token == p.token && p'.acked == p.acked + AckedBytes(events)
    decreases |events|
  {
    if events != [] {
      RunTotals(OnEvent(p, events[0]), events[1..]);
    }
  }

  lemma {:induction false} AckedBytesJoin(events: seq<ProgressEvent>, later: seq<ProgressEvent>)
    ensures AckedBytes(events + later) == AckedBytes(events) + AckedBytes(later)
  {
    if events == [] {
      assert events + later == later;
    } else {
      AckedBytesJoin(events[1..], later);
      assert (events + later)[1..] == events[1..] + later;
    }
  }

  // ---------------------------------------------------------------- the object

  class SendProgress {
    const connectionToken: u64
    var acceptedPayloadBytes: nat
    var ackedPayloadBytes: nat

    function Value(): Progress
      reads this
    {
      Progress(connectionToken, acceptedPayloadBytes, ackedPayloadBytes)
    }

    constructor (token: u64)
      ensures Value() == Progress(token, 0, 0)
    {
      connectionToken, acceptedPayloadBytes, ackedPayloadBytes := token, 0, 0;
    }

    method Accept(bytes: nat)
      modifies this
      ensures Value() == OnEvent(old(Value()), ProgressEvent.Accept(bytes))
    {
      acceptedPayloadBytes := acceptedPayloadBytes + bytes;
    }

    method Acknowledge(bytes: nat)
      modifies this
      ensures Value() == OnEvent(old(Value()), ProgressEvent.Acknowledge(bytes))
    {
      ackedPayloadBytes := ackedPayloadBytes + bytes;
    }

    method Marker(connectionId: u64) returns (m: SendMarker)
      ensures m == Value().Marker(connectionId)
    {
      m := SendMarker(connectionId, connectionToken, acceptedPayloadBytes);
    }

    method Status(marker: SendMarker) returns (s: MarkerStatus)
      ensures s == Value().Status(marker)
    {
      if marker.connectionToken != connectionToken {
        s := ConnectionGone;
      } else if ackedPayloadBytes >= marker.acceptedPayloadBytes {
        s := Acked;
      } else {
        s := Pending;
      }
    }
  }
}
