/**
 * A connection as the program holds it: an object whose methods update its fields in place. Every
 * method is proved to do what `Sender`, `Receiver` and `ConnectionSpec` say of the value it holds.
 */
module ConnectionObject {
  import opened Numbers
  import opened SequenceSpace
  import opened Wire
  import opened RenoControl
  import opened RttEstimation
  import opened Markers
  import opened Types
  import opened Sender
  import opened Receiver
  import opened ConnectionSpec

  function AsSeq(s: Option<Segment>): seq<Segment> {
    if s.Some? then [s.value] else []
  }

  // ---------------------------------------------------------------- facts the loops rest on

  lemma {:induction false} PayloadInSnoc(ts: seq<Tracked>, t: Tracked)
    ensures PayloadIn(ts + [t]) == PayloadIn(ts) + |t.payload|
  {
    if ts == [] {
      assert (ts + [t])[1..] == [];
    } else {
      PayloadInSnoc(ts[1..], t);
      assert (ts + [t])[1..] == ts[1..] + [t];
    }
  }

  lemma HasFinSnoc(ts: seq<Tracked>, t: Tracked)
    ensures HasFin(ts + [t]) <==> HasFin(ts) || t.flags.fin
  {
    var all := ts + [t];
    assert all[|ts|] == t;
    if HasFin(ts) {
      var i :| 0 <= i < |ts| && ts[i].flags.fin;
      assert all[i].flags.fin;
    }
  }

  lemma SampleSnoc(ts: seq<Tracked>, t: Tracked, rtt: RttState, now: u64)
    ensures LastSample(ts + [t], rtt, now)
         == if rtt.CanSample(t.End()) then Some(SatSub(now, t.sentAt)) else LastSample(ts, rtt, now)
  {
    assert (ts + [t])[..|ts|] == ts;
  }

  lemma NothingPopped(rtt: RttState, now: u64)
    ensures !HasFin([]) && PayloadIn([]) == 0 && LastSample([], rtt, now) == None
  {
  }

  lemma AckedCountStep(ts: seq<Tracked>, ack: u32)
    ensures AckedCount(ts, ack) ==
      if ts != [] && BeforeOrEqual(ts[0].End(), ack) then 1 + AckedCount(ts[1..], ack) else 0
  {
    hide BeforeOrEqual, Tracked.End;
  }

  lemma NotFin(tx: Tx, now: u64, candidate: bool)
    ensures !Sender.DuplicateAck(tx, now, candidate).finAcked
  {
    hide Sender.RetransmitOldest, RenoState.OnDuplicateAck, RenoState.OnFastLoss;
  }

  lemma NoResend(tx: Tx, ack: u32, now: u64)
    ensures Sender.Acknowledge(tx, ack, now).resent == []
  {
    hide AckedCount, PayloadIn, HasFin, LastSample, TrimFront, TrimCount;
  }

  lemma OneSegment(c: Conn, t: Tracked)
    ensures SegmentsFor(c, [t]) == [SegmentFor(c, t)] && SegmentsFor(c, []) == []
  {
  }

  lemma SegmentsJoin(c: Conn, a: seq<Tracked>, b: seq<Tracked>)
    ensures SegmentsFor(c, a + b) == SegmentsFor(c, a) + SegmentsFor(c, b)
  {
    hide SegmentsFor, SegmentFor;
    var left, right := SegmentsFor(c, a + b), SegmentsFor(c, a) + SegmentsFor(c, b);
    forall i | 0 <= i < |left|
      ensures left[i] == right[i]
    {
      assert left[i] == SegmentFor(c, (a + b)[i]);
    }
  }

  /** What a segment says depends on the ports, the receiver and the segment size only. */
  lemma SameHeader(c: Conn, c': Conn, ts: seq<Tracked>)
    requires c'.localPort == c.localPort && c'.remotePort == c.remotePort && c'.rx == c.rx && c'.tx.mss == c.tx.mss
    ensures SegmentsFor(c', ts) == SegmentsFor(c, ts)
  {
    assert forall i :: 0 <= i < |ts| ==> SegmentFor(c', ts[i]) == SegmentFor(c, ts[i]);
  }

  lemma SameHeaderOne(c: Conn, c': Conn, t: Tracked)
    requires c'.localPort == c.localPort && c'.remotePort == c.remotePort && c'.rx == c.rx && c'.tx.mss == c.tx.mss
    ensures SegmentFor(c', t) == SegmentFor(c, t) && SegmentsFor(c, [t]) == [SegmentFor(c', t)]
  {
  }

  lemma NoSegmentsYet(c: Conn)
    ensures SegmentsFor(c, []) == []
  {
  }

  /** One turn of the send loop, on the value. */
  lemma FlushTurn(tx: Tx, now: u64)
    ensures if Room(tx) == 0 || tx.queue == [] then Sender.FlushQueue(tx, now) == Sent(tx, [])
            else var rest := Sender.FlushQueue(SendNext(tx, now), now);
                 Sender.FlushQueue(tx, now)
                   == Sent(rest.tx, [Fresh(tx, DATA_FLAGS, tx.queue[..NextSize(tx)], now)] + rest.out)
  {
    hide SendNext, Fresh, Room;
  }

  lemma FlushedData(c: Conn, tx: Tx, now: u64)
    requires (c.state == Established || c.state == CloseWait) && tx == Sender.FlushQueue(c.tx, now).tx
    requires !(tx.closeRequested && tx.queue == [] && Room(tx) > 0)
    ensures ConnectionSpec.FlushData(c, now) == Open(c.(tx := tx), SegmentsFor(c, Sender.FlushQueue(c.tx, now).out))
  {
    hide Sender.FlushQueue, SegmentsFor, Room;
    var out := Sender.FlushQueue(c.tx, now).out;
    assert out + [] == out;
    assert AfterFlush(c, tx, false) == c.(tx := tx);
  }

  lemma FlushedFin(c: Conn, tx: Tx, now: u64)
    requires (c.state == Established || c.state == CloseWait) && tx == Sender.FlushQueue(c.tx, now).tx
    requires tx.closeRequested && tx.queue == [] && Room(tx) > 0
    ensures var fin := Sender.SendTracked(tx.(closeRequested := false), FIN_FLAGS, [], now);
            ConnectionSpec.FlushData(c, now)
            == Open(AfterFlush(c, fin, true),
                    SegmentsFor(c, Sender.FlushQueue(c.tx, now).out) + [SegmentFor(c, Fresh(tx, FIN_FLAGS, [], now))])
    ensures AfterFlush(c, Sender.SendTracked(tx.(closeRequested := false), FIN_FLAGS, [], now), true)
         == AfterFlush(c.(tx := tx), Sender.SendTracked(tx.(closeRequested := false), FIN_FLAGS, [], now), true)
  {
    hide Sender.FlushQueue, SegmentsFor, SegmentFor, Room, Sender.SendTracked;
    var t := Fresh(tx, FIN_FLAGS, [], now);
    SegmentsJoin(c, Sender.FlushQueue(c.tx, now).out, [t]);
    SameHeaderOne(c, c, t);
  }

  lemma FlushStaysOpen(c: Conn, now: u64)
    ensures !ConnectionSpec.FlushData(c, now).closed && !ConnectionSpec.FlushData(c, now).accepted
  {
    hide Flush, SegmentsFor;
  }

  /** The sender after an ACK was applied: the peer's window, then a repair. */
  function WindowThenRepair(tx: Tx, ack: u32, s: Segment, previousUna: u32, now: u64, cfg: Config): Sent {
    var tx1 := if InClosedInterval(ack, tx.una, tx.nxt) then UpdateWindow(tx, s.window, now) else tx;
    if SequenceSpace.After(tx1.una, previousUna) then Repair(tx1, now, cfg) else Sent(tx1, [])
  }

  lemma RepairedIs(tx: Tx, ack: u32, s: Segment, now: u64, cfg: Config)
    ensures AckedTx(tx, ack, s, now) == Sender.ApplyAck(tx, ack, now, IsDuplicateAckCandidate(s, tx.una, tx.window))
    ensures RepairedTx(tx, ack, s, now, cfg) == WindowThenRepair(AckedTx(tx, ack, s, now).tx, ack, s, tx.una, now, cfg)
  {
    hide Sender.ApplyAck, IsDuplicateAckCandidate, UpdateWindow, Repair, InClosedInterval, SequenceSpace.After;
  }

  lemma ApplyAckMss(tx: Tx, ack: u32, now: u64, candidate: bool)
    ensures Sender.ApplyAck(tx, ack, now, candidate).tx.mss == tx.mss
  {
    hide AckedCount, PayloadIn, HasFin, LastSample, TrimFront, TrimCount, Acceptable;
  }

  lemma WindowMss(tx: Tx, window: u16, now: u64)
    ensures UpdateWindow(tx, window, now).mss == tx.mss
  {
  }

  lemma SendKeepsMss(tx: Tx, flags: Flags, payload: seq<byte>, now: u64)
    ensures Sender.SendTracked(tx, flags, payload, now).mss == tx.mss
  {
  }

  lemma ClosedTimeout(tx: Tx, now: u64, cfg: Config)
    ensures PollRetransmit(tx, now, cfg).closed ==> PollRetransmit(tx, now, cfg).out == []
  {
    hide Sender.RetransmitOldest;
  }

  /** A connection whose receiver became `rx`, with or without the peer's FIN. */
  function Drains(c: Conn, rx: Rx, fin: bool, now: u64, cfg: Config): Conn {
    if fin then OnRemoteFin(c.(rx := rx), now, cfg) else c.(rx := rx)
  }

  lemma DrainsNothing(c: Conn, now: u64, cfg: Config)
    ensures Drains(c, c.rx, false, now, cfg) == c
  {
  }

  /** A second FIN changes nothing more. */
  lemma DrainsAgain(c: Conn, rx: Rx, fin: bool, rx': Rx, now: u64, cfg: Config)
    ensures OnRemoteFin(Drains(c, rx, fin, now, cfg).(rx := rx'), now, cfg) == Drains(c, rx', true, now, cfg)
    ensures Drains(c, rx, fin, now, cfg).(rx := rx') == Drains(c, rx', fin, now, cfg)
    ensures Drains(c, rx, fin, now, cfg).rx == rx && Drains(c, rx', true, now, cfg).rx == rx'
  {
  }

  /** One turn of the drain. */
  lemma DrainTurn(rx: Rx, buffer: nat)
    ensures var kept := Pruned(rx);
            match FirstReady(kept.chunks, kept.nxt)
            case None => Drain(rx, buffer) == Drained(kept, false)
            case Some(i) =>
              var t := Take(kept, i, buffer);
              if t.stuck then Drain(rx, buffer) == Drained(t.rx, false)
              else Drain(rx, buffer) == Drained(Drain(t.rx, buffer).rx, t.fin || Drain(t.rx, buffer).fin)
  {
    hide Take, Retain;
  }

  class Connection {
    const localPort: u16
    const remotePort: u16
    var state: State
    var sendUna: u32
    var sendNxt: u32
    var recvNxt: u32
    var remoteWindow: u16
    var mss: Mss
    const receiveCapacity: nat
    const maxTransmissions: u8
    var sendQueue: seq<byte>
    var recvQueue: seq<byte>
    var reassembly: seq<Chunk>
    var unacked: seq<Tracked>
    const rtt: RttEstimator
    const reno: Reno
    var duplicateAcks: u8
    var rtoRecoveryUntil: Option<u32>
    var closeRequested: bool
    var nextZeroWindowProbe: Option<u64>
    var zeroWindowProbes: u8
    var readClosed: bool
    const sendProgress: SendProgress
    var finWait2Until: Option<u64>
    var timeWaitUntil: Option<u64>

    function Sending(): Tx
      reads this, rtt, reno, sendProgress
    {
      Tx(sendUna, sendNxt, sendQueue, unacked, remoteWindow, mss, maxTransmissions, rtt.Value(), reno.Value(),
         duplicateAcks, rtoRecoveryUntil, closeRequested, nextZeroWindowProbe, zeroWindowProbes,
         sendProgress.acceptedPayloadBytes, sendProgress.ackedPayloadBytes)
    }

    function Receiving(): Rx
      reads this
    {
      Rx(recvNxt, recvQueue, reassembly, receiveCapacity, readClosed)
    }

    /** The value the object holds. */
    function Value(): Conn
      reads this, rtt, reno, sendProgress
    {
      Conn(localPort, remotePort, state, Sending(), Receiving(), finWait2Until, timeWaitUntil)
    }

    constructor New(localPort: u16, remotePort: u16, state: State, sendIsn: u32, recvNxt: u32, token: u64, cfg: Config)
      ensures Value() == Blank(localPort, remotePort, state, sendIsn, recvNxt, cfg)
      ensures sendProgress.connectionToken == token
      ensures fresh(rtt) && fresh(reno) && fresh(sendProgress)
    {
      this.localPort, this.remotePort, this.state := localPort, remotePort, state;
      sendUna, sendNxt, this.recvNxt := sendIsn, sendIsn, recvNxt;
      remoteWindow, mss := 0xFFFF, cfg.mss;
      receiveCapacity, maxTransmissions := cfg.receiveBuffer, cfg.maxRetransmissions;
      sendQueue, recvQueue, reassembly, unacked := [], [], [], [];
      rtt := new RttEstimator(cfg.initialRto, cfg.minRto, cfg.maxRto);
      reno := new Reno(cfg.mss);
      duplicateAcks, rtoRecoveryUntil, closeRequested := 0, None, false;
      nextZeroWindowProbe, zeroWindowProbes, readClosed := None, 0, false;
      sendProgress := new SendProgress(token);
      finWait2Until, timeWaitUntil := None, None;
    }

    // -------------------------------------------------------------- sending

    method SendTracked(flags: Flags, payload: seq<byte>, now: u64) returns (s: Segment)
      modifies `sendNxt, `unacked
      ensures Value() == old(Value()).(tx := Sender.SendTracked(old(Sending()), flags, payload, now))
      ensures s == SegmentFor(old(Value()), Fresh(old(Sending()), flags, payload, now))
    {
      var tracked := Tracked(sendNxt, flags, payload, now, 1, 1);
      sendNxt := tracked.End();
      s := SegmentFor(Value(), tracked);
      unacked := unacked + [tracked];
    }

    /** `RetransmitOldest` of the value; a spent budget changes nothing. */
    method RetransmitOldest(now: u64, timeout: bool) returns (s: Option<Segment>)
      modifies this, rtt
      ensures var r := Sender.RetransmitOldest(old(Sending()), now, timeout);
              Value() == old(Value()).(tx := r.tx) && AsSeq(s) == SegmentsFor(old(Value()), r.out)
    {
      if unacked == [] || unacked[0].transmissions >= maxTransmissions {
        return None;
      }
      rtt.OnRetransmit(sendNxt);
      var oldest := unacked[0];
      var tracked :=
        oldest.(sentAt := now, transmissions := Min(oldest.transmissions + 1, 255), sends := oldest.sends + 1);
      unacked := unacked[0 := tracked];
      assert unacked == [tracked] + old(unacked)[1..];
      if timeout {
        duplicateAcks := 0;
      }
      OneSegment(old(Value()), tracked);
      s := Some(SegmentFor(Value(), tracked));
    }

    method RepairTimedOutFlight(now: u64, cfg: Config) returns (s: Option<Segment>)
      modifies this, rtt
      ensures var r := Repair(old(Sending()), now, cfg);
              Value() == old(Value()).(tx := r.tx) && AsSeq(s) == SegmentsFor(old(Value()), r.out)
    {
      if rtoRecoveryUntil == None || unacked == [] {
        return None;
      }
      if remoteWindow == 0 || unacked[0].transmissions >= cfg.maxRetransmissions {
        return None;
      }
      s := RetransmitOldest(now, false);
    }

    method UpdateRemoteWindow(window: u16, now: u64)
      modifies this
      ensures Value() == old(Value()).(tx := UpdateWindow(old(Sending()), window, now))
    {
      remoteWindow := window;
      if window == 0 {
        if nextZeroWindowProbe == None {
          nextZeroWindowProbe := Some(SatAdd(now, rtt.rtoMs));
        }
      } else {
        nextZeroWindowProbe := None;
        zeroWindowProbes := 0;
      }
    }

    method NegotiateMss(segment: Segment, cfg: Config)
      modifies this, reno
      ensures Value() == old(Value()).(tx := Sender.NegotiateMss(old(Sending()), segment, cfg))
    {
      var offered := FirstMss(segment.options);
      mss := Max(Min(if offered.Some? then offered.value else 1024, cfg.mss), 1);
      reno.SetMss(mss);
    }

    // -------------------------------------------------------------- acknowledgements

    /** One ACK number: `ApplyAck` of the value. */
    method ApplyAck(ack: u32, now: u64, candidate: bool) returns (finAcked: bool, resent: Option<Segment>)
      modifies this, rtt, reno, sendProgress
      ensures var o := Sender.ApplyAck(old(Sending()), ack, now, candidate);
              && Value() == old(Value()).(tx := o.tx) && finAcked == o.finAcked
              && AsSeq(resent) == SegmentsFor(old(Value()), o.resent)
    {
      hide Sender.DuplicateAck, Sender.Acknowledge, Before, RttEstimator.Value, Reno.Value;
      finAcked, resent := false, None;
      if SequenceSpace.After(ack, sendNxt) || Before(ack, sendUna) {
        return;
      }
      if ack == sendUna {
        resent := DuplicateAck(now, candidate);
        NotFin(old(Sending()), now, candidate);
        return;
      }
      finAcked := Acknowledge(ack, now);
      NoResend(old(Sending()), ack, now);
    }

    /** An ACK of `una` itself. */
    method DuplicateAck(now: u64, candidate: bool) returns (resent: Option<Segment>)
      modifies this, rtt, reno
      ensures var o := Sender.DuplicateAck(old(Sending()), now, candidate);
              Value() == old(Value()).(tx := o.tx) && AsSeq(resent) == SegmentsFor(old(Value()), o.resent)
    {
      hide RenoState.OnDuplicateAck, RenoState.OnFastLoss, Sender.RetransmitOldest, RttEstimator.Value, Reno.Value;
      resent := None;
      if !candidate || unacked == [] {
        duplicateAcks := 0;
        return;
      }
      duplicateAcks := Min(duplicateAcks + 1, 255);
      reno.OnDuplicateAck();
      if duplicateAcks == 3 {
        reno.OnFastLoss(Distance(sendUna, sendNxt));
        ghost var lost := Value();
        resent := RetransmitOldest(now, false);
        SameHeader(old(Value()), lost, Sender.RetransmitOldest(lost.tx, now, false).out);
      }
    }

    /** The loop that pops the segments an ACK covers completely. */
    method PopAcked(ack: u32, now: u64) returns (payload: nat, fin: bool, sample: Option<nat>)
      modifies `unacked
      ensures var k := AckedCount(old(unacked), ack); var popped := old(unacked)[..k];
              && unacked == old(unacked)[k..] && payload == PayloadIn(popped) && fin == HasFin(popped)
              && sample == LastSample(popped, rtt.Value(), now)
    {
      hide BeforeOrEqual, Tracked.End, RttState.CanSample, HasFin, AckedCount, PayloadIn, LastSample;
      hide RttEstimator.Value;
      payload, fin, sample := 0, false, None;
      ghost var popped: seq<Tracked> := [];
      NothingPopped(rtt.Value(), now);
      while unacked != [] && BeforeOrEqual(unacked[0].End(), ack)
        invariant popped + unacked == old(unacked)
        invariant AckedCount(old(unacked), ack) == |popped| + AckedCount(unacked, ack)
        invariant payload == PayloadIn(popped) && fin == HasFin(popped)
        invariant sample == LastSample(popped, rtt.Value(), now)
        decreases |unacked|
      {
        var segment := unacked[0];
        AckedCountStep(unacked, ack);
        PayloadInSnoc(popped, segment);
        HasFinSnoc(popped, segment);
        SampleSnoc(popped, segment, rtt.Value(), now);
        assert popped + unacked == popped + [segment] + unacked[1..];
        unacked := unacked[1..];
        payload := payload + |segment.payload|;
        fin := fin || segment.flags.fin;
        if rtt.Value().CanSample(segment.End()) {
          sample := Some(SatSub(now, segment.sentAt));
        }
        popped := popped + [segment];
      }
      AckedCountStep(unacked, ack);
      assert popped == old(unacked)[..|popped|] && unacked == old(unacked)[|popped|..];
    }

    /** The segment that an ACK cuts loses its acknowledged front. */
    method TrimCut(ack: u32) returns (count: nat)
      modifies `unacked
      ensures unacked == TrimFront(old(unacked), ack) && count == TrimCount(old(unacked), ack)
    {
      hide Distance, Before, Tracked.End;
      count := 0;
      if PartlyAcked(unacked, ack) {
        var front := unacked[0];
        count := Min(Distance(front.seqNo, ack), |front.payload|);
        unacked := unacked[0 := front.(payload := front.payload[count..], seqNo := ack)];
        assert unacked == [front.(payload := front.payload[count..], seqNo := ack)] + old(unacked)[1..];
      }
    }

    /** An ACK beyond `una`. */
    method Acknowledge(ack: u32, now: u64) returns (finAcked: bool)
      modifies `unacked, `sendUna, `duplicateAcks, `rtoRecoveryUntil, rtt, reno, sendProgress
      ensures var o := Sender.Acknowledge(old(Sending()), ack, now);
              Sending() == o.tx && finAcked == o.finAcked
    {
      hide AckedCount, PayloadIn, HasFin, LastSample, TrimFront, TrimCount, Before, RenoState.OnAck, RttState.Sample;
      hide RttEstimator.Value, Reno.Value, Connection.Value, Connection.Receiving;
      ghost var tx := Sending();
      ghost var o := Sender.Acknowledge(tx, ack, now);
      AckOutcomeFields(tx, ack, now);
      hide Sender.Acknowledge;
      duplicateAcks := 0;
      var ackedPayload, sample;
      ackedPayload, finAcked, sample := PopAcked(ack, now);
      var count := TrimCut(ack);
      sendUna := ack;
      if rtoRecoveryUntil.Some? && !Before(ack, rtoRecoveryUntil.value) {
        rtoRecoveryUntil := None;
      }
      if sample.Some? {
        rtt.Sample(sample.value);
      }
      reno.OnAck(ackedPayload + count);
      sendProgress.Acknowledge(ackedPayload + count);
    }

    // -------------------------------------------------------------- receiving

    /** What an arriving segment leaves in the reassembly list. */
    method InsertReceived(seqNo: u32, payload: seq<byte>, fin: bool, cfg: Config)
      modifies `reassembly
      ensures Receiving() == Insert(old(Receiving()), seqNo, payload, fin, cfg.maxReassemblySegments)
    {
      var start, data := seqNo, payload;
      if Before(start, recvNxt) {
        var trim := Distance(start, recvNxt);
        data := if trim >= |data| then [] else data[trim..];
        start := recvNxt;
      }
      var window, offset := AvailableWindow(Receiving()), Distance(recvNxt, start);
      if SequenceSpace.After(start, recvNxt) && offset >= window {
        return;
      }
      var allowed := Min(|data|, SatSub(window, offset));
      var keptFin := fin && allowed == |data| && Add(seqNo, |payload|) == Add(start, |data|);
      var chunk := Chunk(start, data[..allowed], keptFin);
      if chunk.payload == [] && !chunk.fin {
        return;
      }
      if exists c :: c in reassembly && SameSpan(c, chunk) {
        return;
      }
      if |reassembly| < cfg.maxReassemblySegments {
        reassembly := reassembly + [chunk];
      }
    }

    /** Moves the chunk at an index into the receive queue, as far as it fits. */
    method TakeReady(index: nat, cfg: Config) returns (fin: bool, stuck: bool)
      requires index < |reassembly|
      modifies `reassembly, `recvQueue, `recvNxt
      ensures var t := Take(old(Receiving()), index, cfg.receiveBuffer);
              && fin == t.fin && stuck == t.stuck && (fin ==> !stuck)
              && t.rx == if fin then Receiving().(closed := true) else Receiving()
    {
      hide Before, Add, Distance;
      var segment := Align(reassembly[index], recvNxt);
      reassembly := Without(reassembly, index);
      var accepted := Min(SatSub(cfg.receiveBuffer, |recvQueue|), |segment.payload|);
      recvQueue := recvQueue + segment.payload[..accepted];
      recvNxt := Add(recvNxt, accepted);
      fin, stuck := false, accepted < |segment.payload|;
      if stuck {
        reassembly := reassembly + [Chunk(recvNxt, segment.payload[accepted..], segment.fin)];
      } else if segment.fin {
        recvNxt := Add(recvNxt, 1);
        fin := true;
      }
    }

    method EnterTimeWait(now: u64, cfg: Config)
      modifies `state, `finWait2Until, `timeWaitUntil
      ensures Value() == ConnectionSpec.EnterTimeWait(old(Value()), now, cfg)
    {
      state := TimeWait;
      finWait2Until := None;
      timeWaitUntil := Some(SatAdd(now, cfg.timeWait));
    }

    method OnRemoteFin(now: u64, cfg: Config)
      modifies `readClosed, `state, `finWait2Until, `timeWaitUntil
      ensures Value() == ConnectionSpec.OnRemoteFin(old(Value()).(rx := old(Receiving()).(closed := true)), now, cfg)
    {
      readClosed := true;
      match state
      case Established => state := CloseWait;
      case FinWait1 => state := Closing;
      case FinWait2 => EnterTimeWait(now, cfg);
      case _ =>
    }

    /** The loop that moves parked chunks into the receive queue until there is a hole. */
    method DrainReassembly(now: u64, cfg: Config)
      modifies `reassembly, `recvQueue, `recvNxt, `readClosed, `state, `finWait2Until, `timeWaitUntil
      ensures var d := Drain(old(Receiving()), cfg.receiveBuffer);
              Value() == Drains(old(Value()), d.rx, d.fin, now, cfg)
    {
      hide Take, Align, Retain, Without, Add, Before, BeforeOrEqual, Ready, Drain, ConnectionSpec.OnRemoteFin;
      ghost var fin := false;
      DrainsNothing(Value(), now, cfg);
      while true
        invariant var d := Drain(Receiving(), cfg.receiveBuffer);
                  Drain(old(Receiving()), cfg.receiveBuffer) == Drained(d.rx, fin || d.fin)
        invariant Value() == Drains(old(Value()), Receiving(), fin, now, cfg)
        decreases |reassembly|
      {
        DrainTurn(Receiving(), cfg.receiveBuffer);
        ghost var before := Value();
        reassembly := Retain(reassembly, recvNxt);
        assert Receiving() == Pruned(before.rx);
        DrainsAgain(old(Value()), before.rx, fin, Receiving(), now, cfg);
        var next := FirstReady(reassembly, recvNxt);
        if next == None {
          break;
        }
        ghost var kept := Receiving();
        var consumedFin, stuck := TakeReady(next.value, cfg);
        DrainsAgain(old(Value()), kept, fin, Receiving(), now, cfg);
        DrainsAgain(old(Value()), kept, fin, Receiving().(closed := true), now, cfg);
        if stuck {
          break;
        }
        if consumedFin {
          OnRemoteFin(now, cfg);
          fin := true;
          assert Receiving() == Value().rx;
        }
      }
    }

    method ReceiveStreamData(segment: Segment, now: u64, cfg: Config) returns (ack: Segment)
      modifies `reassembly, `recvQueue, `recvNxt, `readClosed, `state, `finWait2Until, `timeWaitUntil
      ensures Value() == ReceiveData(old(Value()), segment, now, cfg) && ack == AckSegment(Value())
    {
      hide Insert, Drain, ConnectionSpec.OnRemoteFin;
      InsertReceived(segment.seqNo, segment.payload, segment.flags.fin, cfg);
      DrainReassembly(now, cfg);
      ack := AckSegment(Value());
    }

    // -------------------------------------------------------------- flushing and probing

    /** The send loop. */
    method FlushQueue(now: u64) returns (out: seq<Segment>)
      modifies `sendQueue, `sendNxt, `unacked
      ensures var r := Sender.FlushQueue(old(Sending()), now);
              Value() == old(Value()).(tx := r.tx) && out == SegmentsFor(old(Value()), r.out)
    {
      hide Sender.FlushQueue, SendNext, Fresh, SegmentsFor, SegmentFor, RttEstimator.Value, Reno.Value, Room;
      out := [];
      ghost var sent: seq<Tracked> := [];
      NoSegmentsYet(Value());
      while true
        invariant var r, rest := Sender.FlushQueue(old(Sending()), now), Sender.FlushQueue(Sending(), now);
                  r.tx == rest.tx && r.out == sent + rest.out
        invariant out == SegmentsFor(old(Value()), sent)
        invariant Value() == old(Value()).(tx := Sending()) && mss == old(mss)
        decreases |sendQueue|
      {
        ghost var before := Value();
        FlushTurn(Sending(), now);
        if Room(Sending()) == 0 || sendQueue == [] {
          break;
        }
        ghost var t := Fresh(before.tx, DATA_FLAGS, before.tx.queue[..NextSize(before.tx)], now);
        var segment := SendOne(now);
        SegmentsJoin(old(Value()), sent, [t]);
        SameHeaderOne(old(Value()), before, t);
        sent := sent + [t];
        out := out + [segment];
      }
      assert sent + [] == sent;
    }

    /** One turn of the send loop. */
    method SendOne(now: u64) returns (segment: Segment)
      requires Room(Sending()) != 0 && sendQueue != []
      modifies `sendQueue, `sendNxt, `unacked
      ensures Value() == old(Value()).(tx := SendNext(old(Sending()), now))
      ensures segment
           == SegmentFor(old(Value()),
                         Fresh(old(Sending()), DATA_FLAGS, old(sendQueue)[..NextSize(old(Sending()))], now))
      ensures |sendQueue| < |old(sendQueue)|
    {
      hide Room, SegmentFor, RttEstimator.Value, Reno.Value;
      var count := Min(Min(Room(Sending()), mss), |sendQueue|);
      var payload := sendQueue[..count];
      sendQueue := sendQueue[count..];
      ghost var drained := Value();
      segment := SendTracked(DATA_FLAGS, payload, now);
      SameHeaderOne(old(Value()), drained, Fresh(old(Sending()), DATA_FLAGS, payload, now));
    }

    /** Sends what the windows allow, and a requested FIN behind it. */
    method FlushData(now: u64) returns (out: seq<Segment>)
      modifies `sendQueue, `sendNxt, `unacked, `closeRequested, `state
      ensures var r := ConnectionSpec.FlushData(old(Value()), now); Value() == r.conn && out == r.segments
    {
      hide Sender.FlushQueue, SegmentsFor, SegmentFor, RttEstimator.Value, Reno.Value, Room;
      if state != Established && state != CloseWait {
        return [];
      }
      out := FlushQueue(now);
      ghost var flushed := Value();
      ghost var data := Sender.FlushQueue(old(Sending()), now);
      if closeRequested && sendQueue == [] && Room(Sending()) > 0 {
        FlushedFin(old(Value()), flushed.tx, now);
        SameHeaderOne(old(Value()), flushed, Fresh(flushed.tx, FIN_FLAGS, [], now));
        var fin := SendFin(now);
        out := out + [fin];
      } else {
        FlushedData(old(Value()), flushed.tx, now);
      }
    }

    method SendFin(now: u64) returns (segment: Segment)
      requires state == Established || state == CloseWait
      modifies `sendNxt, `unacked, `closeRequested, `state
      ensures Value()
           == AfterFlush(old(Value()),
                         Sender.SendTracked(old(Sending()).(closeRequested := false), FIN_FLAGS, [], now), true)
      ensures segment == SegmentFor(old(Value()), Fresh(old(Sending()), FIN_FLAGS, [], now))
    {
      hide SegmentFor, RttEstimator.Value, Reno.Value;
      closeRequested := false;
      state := if state == Established then FinWait1 else LastAck;
      ghost var closing := Value();
      segment := SendTracked(FIN_FLAGS, [], now);
      SameHeaderOne(old(Value()), closing, Fresh(old(Sending()), FIN_FLAGS, [], now));
    }

    /** One byte, of the oldest unacknowledged payload or of the queue. */
    method ZeroWindowProbe(now: u64) returns (s: Option<Segment>)
      modifies `sendQueue, `sendNxt, `unacked, rtt
      ensures var r := Probe(old(Sending()), now);
              Value() == old(Value()).(tx := r.tx) && AsSeq(s) == SegmentsFor(old(Value()), r.out)
    {
      hide RttEstimator.Value, Reno.Value;
      var first := FirstPayload(unacked);
      if first.Some? {
        var segment := unacked[first.value];
        rtt.OnRetransmit(sendNxt);
        unacked := unacked[first.value := segment.(sends := segment.sends + 1)];
        s := Some(Build(Value(), segment.seqNo, WindowField(Value()), DATA_FLAGS, [segment.payload[0]]));
        OneSegment(old(Value()), Tracked(segment.seqNo, DATA_FLAGS, [segment.payload[0]], now, 1, 1));
        return;
      }
      NoSegmentsYet(Value());
      if sendQueue == [] {
        return None;
      }
      var b := sendQueue[0];
      sendQueue := sendQueue[1..];
      ghost var popped := Value();
      var segment := SendTracked(DATA_FLAGS, [b], now);
      SameHeaderOne(old(Value()), popped, Fresh(popped.tx, DATA_FLAGS, [b], now));
      s := Some(segment);
    }

    // -------------------------------------------------------------- one segment

    method OnReset(segment: Segment) returns (out: seq<Segment>, closed: bool)
      ensures ConnectionSpec.OnReset(Value(), segment) == Update(Value(), out, false, closed)
    {
      hide SequenceSpace.After, Distance, AckSegment, AvailableWindow;
      out, closed := [], false;
      if state == SynSent {
        closed := segment.ack.Some? && SequenceSpace.After(segment.ack.value, sendUna)
                  && !SequenceSpace.After(segment.ack.value, sendNxt);
      } else if segment.seqNo == recvNxt {
        closed := true;
      } else {
        var window := AvailableWindow(Receiving());
        if window > 0 && Distance(recvNxt, segment.seqNo) < window {
          out := [AckSegment(Value())];
        }
      }
    }

    /** The stream data of a segment, then whatever may now be sent. */
    method FinishSegment(output: seq<Segment>, segment: Segment, now: u64, cfg: Config) returns (out: seq<Segment>)
      modifies this
      ensures var r := ConnectionSpec.FinishSegment(old(Value()), output, segment, now, cfg);
              r == Update(Value(), out, false, false)
    {
      hide ReceiveData, ConnectionSpec.FlushData, AckSegment, RttEstimator.Value, Reno.Value;
      out := output;
      if segment.payload != [] || segment.flags.fin {
        var ack := ReceiveStreamData(segment, now, cfg);
        out := out + [ack];
      }
      FlushStaysOpen(Value(), now);
      var flushed := FlushData(now);
      out := out + flushed;
    }

    method OnSynSent(segment: Segment, now: u64, cfg: Config) returns (out: seq<Segment>)
      modifies this, rtt, reno, sendProgress
      ensures ConnectionSpec.OnSynSent(old(Value()), segment, now, cfg) == Update(Value(), out, false, false)
    {
      hide Sender.ApplyAck, UpdateWindow, Sender.NegotiateMss, AckSegment, SupportsFipsVersion, Add, RttEstimator.Value;
      hide Reno.Value;
      out := [];
      if segment.flags.syn && segment.flags.ack && segment.ack == Some(sendNxt)
        && SupportsFipsVersion(segment, FIPS_VERSION) {
        UpdateRemoteWindow(segment.window, now);
        NegotiateMss(segment, cfg);
        var _, _ := ApplyAck(sendNxt, now, false);
        recvNxt := Add(segment.seqNo, 1);
        state := Established;
        out := [AckSegment(Value())];
      }
    }

    method OnSynReceived(segment: Segment, now: u64, cfg: Config) returns (out: seq<Segment>, accepted: bool)
      modifies this, rtt, reno, sendProgress
      ensures ConnectionSpec.OnSynReceived(old(Value()), segment, now, cfg) == Update(Value(), out, accepted, false)
    {
      hide Sender.ApplyAck, UpdateWindow, Sender.RetransmitOldest, ConnectionSpec.FinishSegment, Add, SegmentsFor;
      hide RttEstimator.Value, Reno.Value;
      out, accepted := [], false;
      if segment.flags.syn && !segment.flags.ack && Add(segment.seqNo, 1) == recvNxt {
        var retransmit := RetransmitOldest(now, false);
        out := AsSeq(retransmit);
      } else if segment.ack == Some(sendNxt) {
        var _, _ := ApplyAck(sendNxt, now, false);
        UpdateRemoteWindow(segment.window, now);
        state := Established;
        out := FinishSegment([], segment, now, cfg);
        accepted := true;
      }
    }

    /** ACK processing in the synchronised states; the ACK of a FIN in LAST-ACK closes. */
    method ProcessAck(ack: u32, segment: Segment, now: u64, cfg: Config) returns (out: seq<Segment>, closed: bool)
      modifies this, rtt, reno, sendProgress
      ensures AckPart(old(Value()), ack, segment, now, cfg) == Update(Value(), out, false, closed)
    {
      hide Sender.ApplyAck, UpdateWindow, Repair, SegmentsFor, SequenceSpace.After, InClosedInterval;
      hide IsDuplicateAckCandidate;
      hide RttEstimator.Value, Reno.Value, WindowThenRepair, Connection.Receiving, AckedTx, RepairedTx;
      var previousUna := sendUna;
      var candidate := IsDuplicateAckCandidate(segment, sendUna, remoteWindow);
      ApplyAckMss(Sending(), ack, now, candidate);
      RepairedIs(Sending(), ack, segment, now, cfg);
      var finAcked, resent := ApplyAck(ack, now, candidate);
      out, closed := AsSeq(resent), false;
      if finAcked {
        if state == LastAck {
          closed := true;
          return;
        }
        FinAcknowledged(now, cfg);
      }
      ghost var acked := Value();
      var repair := UpdateAndRepair(ack, segment, previousUna, now, cfg);
      SameHeader(old(Value()), acked, WindowThenRepair(acked.tx, ack, segment, previousUna, now, cfg).out);
      out := out + AsSeq(repair);
    }

    /** The window of an ACK inside the flight counts, and an advance repairs. */
    method UpdateAndRepair(
        ack: u32, segment: Segment, previousUna: u32, now: u64, cfg: Config) returns (s: Option<Segment>)
      modifies this, rtt
      ensures var r := WindowThenRepair(old(Sending()), ack, segment, previousUna, now, cfg);
              Value() == old(Value()).(tx := r.tx) && AsSeq(s) == SegmentsFor(old(Value()), r.out)
    {
      hide Repair, SegmentsFor, SequenceSpace.After, InClosedInterval, RttEstimator.Value, Reno.Value, UpdateWindow;
      s := None;
      NoSegmentsYet(Value());
      if InClosedInterval(ack, sendUna, sendNxt) {
        WindowMss(Sending(), segment.window, now);
        UpdateRemoteWindow(segment.window, now);
      }
      if SequenceSpace.After(sendUna, previousUna) {
        ghost var before := Value();
        s := RepairTimedOutFlight(now, cfg);
        SameHeader(old(Value()), before, Repair(before.tx, now, cfg).out);
      }
    }

    method FinAcknowledged(now: u64, cfg: Config)
      modifies `state, `finWait2Until, `timeWaitUntil
      ensures Value() == OnFinAcked(old(Value()), now, cfg)
    {
      match state
      case FinWait1 =>
        state := State.FinWait2;
        finWait2Until := Some(SatAdd(now, cfg.finWait2));
      case Closing => EnterTimeWait(now, cfg);
      case _ =>
    }

    /** Everything a segment does to the connection. */
    method OnSegment(segment: Segment, now: u64, cfg: Config) returns (out: seq<Segment>, accepted: bool, closed: bool)
      modifies this, rtt, reno, sendProgress
      ensures ConnectionSpec.OnSegment(old(Value()), segment, now, cfg) == Update(Value(), out, accepted, closed)
    {
      hide ConnectionSpec.OnReset, ConnectionSpec.OnSynSent, ConnectionSpec.OnSynReceived, ConnectionSpec.FinishSegment;
      hide AckPart;
      hide Connection.Sending, Connection.Receiving;
      accepted, closed := false, false;
      if segment.flags.rst {
        out, closed := OnReset(segment);
      } else if state == SynSent {
        out := OnSynSent(segment, now, cfg);
      } else if state == SynReceived {
        out, accepted := OnSynReceived(segment, now, cfg);
      } else {
        out := [];
        if segment.ack.Some? {
          out, closed := ProcessAck(segment.ack.value, segment, now, cfg);
          if closed { return; }
        }
        out := FinishSegment(out, segment, now, cfg);
      }
    }

    // -------------------------------------------------------------- the application

    method Write(bytes: seq<byte>, now: u64, cfg: Config) returns (r: Result<nat, State>, out: seq<Segment>)
      modifies this, sendProgress
      ensures match ConnectionSpec.Write(old(Value()), bytes, now, cfg)
              case Err(state) => r == Err(state) && out == [] && Value() == old(Value())
              case Ok(u) => r == Ok(AcceptCount(old(Value()), bytes, cfg)) && u == Update(Value(), out, false, false)
    {
      hide ConnectionSpec.FlushData, RttEstimator.Value, Reno.Value, PayloadIn;
      if (state != Established && state != CloseWait) || closeRequested {
        return Err(state), [];
      }
      var buffered := |sendQueue| + PayloadIn(unacked);
      var accepted := Min(|bytes|, SatSub(cfg.sendBuffer, buffered));
      sendQueue := sendQueue + bytes[..accepted];
      sendProgress.Accept(accepted);
      FlushStaysOpen(Value(), now);
      out := FlushData(now);
      r := Ok(accepted);
    }

    method Read(max: nat) returns (bytes: seq<byte>, out: seq<Segment>)
      modifies `recvQueue
      ensures ConnectionSpec.Read(old(Value()), max) == Update(Value(), out, false, false)
      ensures bytes == old(recvQueue)[..ReadCount(old(Value()), max)]
    {
      hide AvailableWindow, AckSegment;
      var previousWindow := AvailableWindow(Receiving());
      var count := Min(max, |recvQueue|);
      bytes := recvQueue[..count];
      recvQueue := recvQueue[count..];
      var shouldUpdate := count > 0 && AvailableWindow(Receiving()) > previousWindow
                          && state != SynSent && state != SynReceived && state != TimeWait;
      out := if shouldUpdate then [AckSegment(Value())] else [];
    }

    method Close(now: u64) returns (out: seq<Segment>, closed: bool)
      modifies `sendQueue, `sendNxt, `unacked, `closeRequested, `state
      ensures ConnectionSpec.Close(old(Value()), now) == Update(Value(), out, false, closed)
    {
      hide ConnectionSpec.FlushData, RttEstimator.Value, Reno.Value;
      out, closed := [], false;
      match state
      case Established =>
        closeRequested := true;
        FlushStaysOpen(Value(), now);
        out := FlushData(now);
      case CloseWait =>
        closeRequested := true;
        FlushStaysOpen(Value(), now);
        out := FlushData(now);
      case SynSent => closed := true;
      case SynReceived => closed := true;
      case _ =>
    }

    // -------------------------------------------------------------- timers

    method NextPollAt(now: u64, cfg: Config) returns (at: Option<u64>)
      ensures at == ConnectionSpec.NextPollAt(Value(), now, cfg)
    {
      hide CloseDeadline, HasProbePayload;
      var payload := HasProbePayload(Sending());
      var transport: Option<u64> := None;
      if remoteWindow == 0 && (closeRequested || payload) {
        if payload || zeroWindowProbes >= cfg.maxRetransmissions {
          transport := Some(if nextZeroWindowProbe.Some? then nextZeroWindowProbe.value else now);
        }
      } else if unacked != [] {
        transport := Some(SatAdd(unacked[0].sentAt, rtt.rtoMs));
      }
      at := Earliest(CloseDeadline(Value()), transport);
    }

    /** The persist timer. */
    method PollPersist(now: u64, cfg: Config) returns (out: seq<Segment>, closed: bool)
      modifies `sendQueue, `sendNxt, `unacked, `nextZeroWindowProbe, `zeroWindowProbes, rtt
      ensures var z := PollZeroWindow(old(Sending()), now, cfg);
              Value() == old(Value()).(tx := z.tx) && out == SegmentsFor(old(Value()), z.out) && closed == z.closed
    {
      hide Probe, SegmentsFor, RttEstimator.Value, Reno.Value, Pow2;
      out, closed := [], false;
      NoSegmentsYet(Value());
      if nextZeroWindowProbe == None {
        nextZeroWindowProbe := Some(SatAdd(now, cfg.initialRto));
      }
      if now < nextZeroWindowProbe.value {
        return;
      }
      if zeroWindowProbes >= cfg.maxRetransmissions {
        closed := true;
        return;
      }
      ghost var armed := Value();
      var probe := ZeroWindowProbe(now);
      SameHeader(old(Value()), armed, Probe(armed.tx, now).out);
      if probe.Some? {
        out := [probe.value];
        zeroWindowProbes := Min(zeroWindowProbes + 1, 255);
        var delay := Min(SatMul(cfg.initialRto, Pow2(Min(zeroWindowProbes, 16))), cfg.maxRto);
        nextZeroWindowProbe := Some(SatAdd(now, delay));
      }
    }

    /** The retransmission timer. */
    method PollTimeout(now: u64, cfg: Config) returns (out: seq<Segment>, closed: bool)
      modifies this, rtt, reno
      ensures var p := PollRetransmit(old(Sending()), now, cfg);
              Value() == old(Value()).(tx := p.tx) && out == SegmentsFor(old(Value()), p.out) && closed == p.closed
    {
      hide Sender.RetransmitOldest, SegmentsFor, Reno.Value, RenoState.OnTimeout, RttState.OnTimeout;
      out, closed := [], false;
      NoSegmentsYet(Value());
      if unacked == [] || now < SatAdd(unacked[0].sentAt, rtt.rtoMs) {
        return;
      }
      if unacked[0].transmissions >= cfg.maxRetransmissions {
        closed := true;
        return;
      }
      var inFlight := Distance(sendUna, sendNxt);
      if rtoRecoveryUntil == None {
        rtoRecoveryUntil := Some(sendNxt);
      }
      reno.OnTimeout(inFlight);
      rtt.OnTimeout();
      ghost var backedOff := Value();
      var retransmit := RetransmitOldest(now, true);
      SameHeader(old(Value()), backedOff, Sender.RetransmitOldest(backedOff.tx, now, true).out);
      out := AsSeq(retransmit);
    }

    method Poll(now: u64, cfg: Config) returns (out: seq<Segment>, closed: bool)
      modifies this, rtt, reno
      ensures ConnectionSpec.Poll(old(Value()), now, cfg) == Update(Value(), out, false, closed)
    {
      hide CloseDeadline, HasProbePayload, PollZeroWindow, PollRetransmit, ConnectionSpec.FlushData, SegmentsFor;
      hide RttEstimator.Value, Reno.Value;
      var deadline := CloseDeadline(Value());
      if deadline.Some? && now >= deadline.value {
        return [], true;
      }
      if remoteWindow == 0 && (closeRequested || HasProbePayload(Sending())) {
        out, closed := PollPersist(now, cfg);
        return;
      }
      out, closed := PollTimeout(now, cfg);
      if closed {
        ClosedTimeout(old(Sending()), now, cfg);
        NoSegmentsYet(old(Value()));
        return;
      }
      FlushStaysOpen(Value(), now);
      var flushed := FlushData(now);
      out := out + flushed;
    }

    // -------------------------------------------------------------- creation

    static method Client(localPort: u16, remotePort: u16, isn: u32, now: u64, token: u64, cfg: Config)
      returns (c: Connection, out: seq<Segment>)
      ensures fresh(c) && fresh(c.rtt) && fresh(c.reno) && fresh(c.sendProgress)
      ensures ConnectionSpec.Client(localPort, remotePort, isn, now, cfg) == Update(c.Value(), out, false, false)
    {
      hide RttEstimator.Value, Reno.Value, Sender.SendTracked, SegmentFor;
      c := new Connection.New(localPort, remotePort, SynSent, isn, 0, token, cfg);
      ghost var blank := c.Value();
      var syn := c.SendTracked(SYN_FLAG, [], now);
      SendKeepsMss(blank.tx, SYN_FLAG, [], now);
      SameHeaderOne(blank, c.Value(), Fresh(blank.tx, SYN_FLAG, [], now));
      out := [syn];
    }

    static method Server(
        syn: Segment, isn: u32, now: u64, token: u64, cfg: Config) returns (c: Connection, out: seq<Segment>)
      ensures fresh(c) && fresh(c.rtt) && fresh(c.reno) && fresh(c.sendProgress)
      ensures ConnectionSpec.Server(syn, isn, now, cfg) == Update(c.Value(), out, false, false)
    {
      hide RttEstimator.Value, Reno.Value, Sender.SendTracked, SegmentFor, Sender.NegotiateMss, UpdateWindow, Add;
      c := new Connection.New(syn.dstPort, syn.srcPort, SynReceived, isn, Add(syn.seqNo, 1), token, cfg);
      c.UpdateRemoteWindow(syn.window, now);
      c.NegotiateMss(syn, cfg);
      ghost var negotiated := c.Value();
      var synAck := c.SendTracked(SYN_ACK, [], now);
      SendKeepsMss(negotiated.tx, SYN_ACK, [], now);
      SameHeaderOne(negotiated, c.Value(), Fresh(negotiated.tx, SYN_ACK, [], now));
      out := [synAck];
    }
  }

  lemma AckOutcomeFields(tx: Tx, ack: u32, now: u64)
    ensures var o := Sender.Acknowledge(tx, ack, now); var k := AckedCount(tx.unacked, ack);
            var popped, rest := tx.unacked[..k], tx.unacked[k..]; var sample := LastSample(popped, tx.rtt, now);
            var count := PayloadIn(popped) + TrimCount(rest, ack);
            && o.tx.unacked == TrimFront(rest, ack) && o.finAcked == HasFin(popped)
            && o.tx.rtt == (if sample.Some? then tx.rtt.Sample(sample.value) else tx.rtt)
            && o.tx.reno == tx.reno.OnAck(count) && o.tx.acked == tx.acked + count
            && o.tx.rtoRecoveryUntil ==
               (if tx.rtoRecoveryUntil.Some? && !Before(ack, tx.rtoRecoveryUntil.value) then None
                else tx.rtoRecoveryUntil)
            && o.tx == tx.(unacked := o.tx.unacked, una := ack, duplicateAcks := 0, rtt := o.tx.rtt, reno := o.tx.reno,
                           acked := o.tx.acked, rtoRecoveryUntil := o.tx.rtoRecoveryUntil)
  {
    hide AckedCount, PayloadIn, HasFin, LastSample, TrimFront, TrimCount, Before, RenoState.OnAck, RttState.Sample;
  }
}
