/**
 Timers and blame. A retransmission timer outlasts its exchange, so in a run that handles its events in time order a timer
 acts only after its frame or the ack was lost; and a medium's standing moves only by the exchanges it carried.
 */
module TransportTiming {
  import opened Options
  import opened Mediums
  import opened Sums
  import opened Transport
  import opened TransportFrames

  // ------------------------------------------------------------------ what a medium is, and what is thought of it

  /** The loss estimate, the failure streak and the quarantine are the same, and so is the medium itself. */
  ghost predicate SameLink(m: Medium, n: Medium) {
    && (n.bps, n.latency, n.mtu, n.loss, n.up) == (m.bps, m.latency, m.mtu, m.loss, m.up)
    && (n.lossEwma, n.failStreak, n.quarantineUntil) == (m.lossEwma, m.failStreak, m.quarantineUntil)
  }

  ghost predicate SameLinks(w: World, r: World) {
    |r.mediums| == |w.mediums| && forall j :: 0 <= j < |w.mediums| ==> SameLink(w.mediums[j], r.mediums[j])
  }

  lemma TxLinks(c: Config, w: World, k: nat)
    requires k < |w.sends|
    ensures SameLinks(w, Tx(c, w, k))
  {}

  lemma SendLinks(c: Config, w: World, x: Transfer, p: Payload, r: World)
    requires r == SendPayload(c, w.(xfer := x), p)
    ensures SameLinks(w, r)
  {
    TxLinks(c, w.(xfer := x, sends := w.sends + [Send(p, Pending, 0, 0, None, 0, 0, 0)]), |w.sends|);
  }

  lemma ChunkLinks(c: Config, w: World, n: nat)
    ensures SameLinks(w, SendChunk(c, w, n))
  {
    SendLinks(c, w, w.xfer.(offset := w.xfer.offset + n, outstanding := w.xfer.outstanding + 1), Data(n), SendChunk(c, w, n));
  }

  lemma {:induction false} PumpLinks(c: Config, w: World)
    ensures SameLinks(w, Pump(c, w))
    decreases c.window - w.xfer.outstanding
  {
    if w.xfer.outstanding < c.window && w.xfer.offset < c.total {
      PumpTurns(c, w);
      ChunkLinks(c, w, ChunkSize(c, w));
      PumpLinks(c, SendChunk(c, w, ChunkSize(c, w)));
    }
  }

  lemma ReceiptLinks(c: Config, w: World)
    ensures SameLinks(w, ReceiptIfDue(c, w))
  {
    if w.xfer.acked - w.xfer.lastReceiptAt >= c.receiptEvery || w.xfer.acked >= c.total {
      var x := w.xfer.(lastReceiptAt := w.xfer.acked, receiptsSent := w.xfer.receiptsSent + 1);
      SendLinks(c, w, x, Receipt(w.xfer.acked, w.xfer.acked >= c.total), ReceiptIfDue(c, w));
    }
  }

  lemma ChunkAckedLinks(c: Config, w: World, n: nat)
    ensures SameLinks(w, ChunkAcked(c, w, n))
  {
    ReceiptLinks(c, Counted(w, n));
    PumpLinks(c, ReceiptIfDue(c, Counted(w, n)));
  }

  lemma OnAckLinks(c: Config, w: World, p: Payload)
    ensures SameLinks(w, OnAck(c, w, p))
  {
    if p.Data? {
      ChunkAckedLinks(c, w, p.len);
    }
  }

  lemma ArriveLinks(c: Config, w: World, k: nat, via: nat)
    requires k < |w.sends| && via < |w.mediums|
    ensures SameLinks(w, FrameArrives(c, w, k, via))
  {}

  /** Entry k's exchange ends now, as a success or a failure, and medium j carried its last try. */
  predicate Ends(w: World, ev: Event, success: bool, j: nat) {
    && ev.k < |w.sends| && w.sends[ev.k].fate == Pending && w.sends[ev.k].medium == Some(j)
    && if success then ev.AckArrive? else ev.Timeout?
  }

  /** What an event teaches about medium j. */
  function Taught(w: World, e: Timed, j: nat): Medium
    requires j < |w.mediums|
  {
    if Ends(w, e.event, true, j) then Observe(w.mediums[j], true, e.at)
    else if Ends(w, e.event, false, j) then Observe(w.mediums[j], false, e.at)
    else w.mediums[j]
  }

  ghost predicate Learned(w: World, e: Timed, r: World) {
    |r.mediums| == |w.mediums| && forall j :: 0 <= j < |w.mediums| ==> SameLink(Taught(w, e, j), r.mediums[j])
  }

  lemma TimeoutLearns(c: Config, w: World, k: nat, e: Timed)
    requires k < |w.sends| && e.event.Timeout? && e.event.k == k && e.at == w.now
    ensures Learned(w, e, TimeoutStep(c, w, k))
  {
    TxLinks(c, ObserveOn(w, w.sends[k].medium, false), k);
  }

  lemma ResolveLearns(w: World, k: nat, via: nat, e: Timed)
    requires k < |w.sends| && via < |w.mediums| && e.event == AckArrive(k, via) && e.at == w.now && w.sends[k].fate == Pending
    ensures Learned(w, e, Resolve(Delivered(w, via), k))
  {}

  lemma LearnedOn(w: World, e: Timed, v: World, r: World)
    requires Learned(w, e, v) && SameLinks(v, r)
    ensures Learned(w, e, r)
  {}

  lemma AckLearns(c: Config, w: World, k: nat, via: nat, e: Timed)
    requires k < |w.sends| && via < |w.mediums| && e.event == AckArrive(k, via) && e.at == w.now
    ensures Learned(w, e, AckArrives(c, w, k, via))
  {
    if w.sends[k].fate == Pending {
      var v := Resolve(Delivered(w, via), k);
      ResolveLearns(w, k, via, e);
      OnAckLinks(c, v, w.sends[k].payload);
      LearnedOn(w, e, v, OnAck(c, v, w.sends[k].payload));
    }
  }

  /**
   A medium's loss estimate, streak and quarantine move only when the exchange it carried ends: for the worse when that
   exchange's timer acts, for the better on its first ack. Every other event leaves every medium's standing alone.
   */
  lemma OnlyTheCarrierLearns(c: Config, w: World, i: nat)
    requires i < |w.queue| && EventInRange(w, w.queue[i].event)
    ensures Learned(w, w.queue[i], Fire(c, w, i))
  {
    var v, e := Popped(w, i), w.queue[i];
    assert forall j :: 0 <= j < |w.mediums| ==> Taught(v, e, j) == Taught(w, e, j);
    match e.event {
      case Retry(k) => TxLinks(c, v, k);
      case Timeout(k, _) => TimeoutLearns(c, v, k, e);
      case Arrive(k, via) => ArriveLinks(c, v, k, via);
      case AckArrive(k, via) => AckLearns(c, v, k, via, e);
    }
  }

  // ------------------------------------------------------------------ the timer and its exchange

  /** From a frame's arrival to the arrival of its ack. */
  function Return(m: Medium): real { AirtimeFor(m, OVERHEAD + 4) + m.latency }

  /** The four bytes an ack may be longer than the frame it answers take less air than the timer's slack. */
  predicate Ample(m: Medium) { AirtimeFor(m, 4) < 4.0 * m.latency + 0.05 }

  lemma AirtimeAdds(m: Medium, x: nat, y: nat)
    ensures AirtimeFor(m, x + y) == AirtimeFor(m, x) + AirtimeFor(m, y)
  {
    assert (x + y) as real * 8.0 == x as real * 8.0 + y as real * 8.0;
  }

  /** When an attempt's timer goes off. */
  function Deadline(w: World, k: nat, i: nat): real
    requires k < |w.sends| && i < |w.mediums|
  {
    w.now + ((AirEnd(w, k, i) + w.mediums[i].latency - w.now) * 2.0 + 4.0 * w.mediums[i].latency + 0.05)
  }

  /**
   An undisturbed exchange, the frame out and the ack back, ends before its timer exactly when the time from now until the
   frame has left the air, plus the timer's slack, exceeds the ack's airtime.
   */
  lemma TimerOutlastsIff(c: Config, w: World, k: nat, i: nat)
    requires k < |w.sends| && i < |w.mediums| && c.rng(w.draws) >= w.mediums[i].loss
    ensures var m, q := w.mediums[i], Transmit(c, w, k, i).queue;
            && |q| == |w.queue| + 2 && q[..|w.queue|] == w.queue
            && q[|w.queue|].event == Arrive(k, i) && q[|w.queue| + 1].event == Timeout(k, w.sends[k].tries + 1)
            && q[|w.queue|].at == AirEnd(w, k, i) + m.latency
            && (q[|w.queue|].at + Return(m) < q[|w.queue| + 1].at
                <==> AirtimeFor(m, OVERHEAD + 4) < AirEnd(w, k, i) - w.now + 4.0 * m.latency + 0.05)
  {}

  /** On an ample medium every exchange does. */
  lemma AmpleOutlasts(w: World, k: nat, i: nat)
    requires k < |w.sends| && i < |w.mediums| && Ample(w.mediums[i])
    ensures AirEnd(w, k, i) + w.mediums[i].latency + Return(w.mediums[i]) < Deadline(w, k, i)
  {
    var m, size := w.mediums[i], WireSize(w.sends[k].payload);
    AirtimeAdds(m, OVERHEAD, 4);
    AirtimeAdds(m, OVERHEAD, size - OVERHEAD);
  }

  /**
   Frames handed to one medium go out one after the other, at its rate: a frame takes its bits from when it is handed over,
   or from when the medium is done with the frame before it, if that is later.
   */
  lemma FramesQueueUp(c: Config, w: World, k: nat, i: nat)
    requires k < |w.sends| && i < |w.mediums|
    ensures var m, v := w.mediums[i], Transmit(c, w, k, i);
            && |v.mediums| == |w.mediums|
            && (v.mediums[i].busyUntil - MaxReal(w.now, m.busyUntil)) * m.bps == 8.0 * WireSize(w.sends[k].payload) as real
  {
    var m, v := w.mediums[i], Transmit(c, w, k, i);
    AirtimeBits(m, WireSize(w.sends[k].payload));
    assert v.mediums[i].busyUntil - MaxReal(w.now, m.busyUntil) == AirtimeFor(m, WireSize(w.sends[k].payload));
  }

  lemma AirtimeBits(m: Medium, n: nat)
    ensures AirtimeFor(m, n) * m.bps == 8.0 * n as real
  {}

  // ------------------------------------------------------------------ timers in a run

  /** The timer is later than all that may still come of the attempt it guards, which went over the entry's medium. */
  predicate InTime(w: World, timer: Timed, frame: Timed) {
    && timer.event.Timeout? && Flies(frame.event)
    && frame.event.k < |w.sends| && frame.event.via < |w.mediums| && w.sends[frame.event.k].medium == Some(frame.event.via)
    && frame.at + (if frame.event.Arrive? then Return(w.mediums[frame.event.via]) else 0.0) < timer.at
  }

  predicate Awaited(w: World, e: Timed) { e.event.k < |w.sends| && w.sends[e.event.k].fate == Pending }

  /** Of two events of one pending entry, one is its timer and the other its frame or the ack, in time. */
  ghost predicate Paced(w: World) {
    forall i, j :: 0 <= i < |w.queue| && 0 <= j < |w.queue| && i != j && Together(w, w.queue[i], w.queue[j]) ==>
      InTime(w, w.queue[i], w.queue[j]) || InTime(w, w.queue[j], w.queue[i])
  }

  predicate Together(w: World, x: Timed, y: Timed) { x.event.k == y.event.k && Awaited(w, x) }

  ghost predicate SameWires(w: World, r: World) {
    && |r.mediums| == |w.mediums|
    && forall j :: 0 <= j < |w.mediums| ==> (r.mediums[j].bps, r.mediums[j].latency) == (w.mediums[j].bps, w.mediums[j].latency)
  }

  ghost predicate Steady(w: World) {
    && Paced(w)
    && (forall i :: 0 <= i < |w.queue| ==> w.queue[i].event.k < |w.sends|)
    && (forall i :: 0 <= i < |w.mediums| ==> Ample(w.mediums[i]))
  }

  /** No event of entry k is under way. */
  ghost predicate Clear(w: World, k: nat) { forall i :: 0 <= i < |w.queue| ==> w.queue[i].event.k != k }

  /** Entry k changes, or the mediums in what is thought of them, with nothing of entry k under way. */
  lemma ElsewhereSteady(w: World, k: nat, r: World)
    requires Steady(w) && (Clear(w, k) || !Awaited(r, Timed(0.0, 0, Retry(k)))) && r.queue == w.queue && SameWires(w, r)
    requires |w.sends| <= |r.sends| && forall j :: 0 <= j < |w.sends| && j != k ==> r.sends[j] == w.sends[j]
    ensures Steady(r) && (Clear(w, k) ==> Clear(r, k))
  {}

  lemma TimerAlone(w: World, t: real, ev: Event)
    requires Steady(w) && Clear(w, ev.k) && ev.k < |w.sends|
    ensures Steady(At(w, t, ev))
  {}

  lemma LaunchSteady(w: World, k: nat, i: nat, lost: bool, arrival: real, deadline: real)
    requires Steady(w) && Clear(w, k) && k < |w.sends| && i < |w.mediums| && w.sends[k].medium == Some(i)
    requires arrival + Return(w.mediums[i]) < deadline
    ensures Steady(Launch(w, k, i, lost, arrival, deadline))
  {
    if lost {
      TimerAlone(w, deadline, Timeout(k, w.sends[k].tries));
    } else {
      PairAdded(w, Timed(arrival, w.order, Arrive(k, i)), Timed(deadline, w.order + 1, Timeout(k, w.sends[k].tries)),
                Launch(w, k, i, lost, arrival, deadline));
    }
  }

  lemma PairAdded(w: World, frame: Timed, timer: Timed, r: World)
    requires Steady(w) && Clear(w, frame.event.k) && frame.event.k < |w.sends| && timer.event.k == frame.event.k
    requires r == w.(queue := w.queue + [frame] + [timer], order := r.order) && InTime(w, timer, frame)
    ensures Steady(r)
  {
    assert InTime(r, timer, frame);
  }

  lemma ChargeSteady(c: Config, w: World, k: nat, i: nat, lost: bool)
    requires Steady(w) && Clear(w, k) && k < |w.sends| && i < |w.mediums|
    ensures var v := Charge(w, k, i, lost);
            Steady(v) && Clear(v, k) && v.sends[k].medium == Some(i) && Return(v.mediums[i]) == Return(w.mediums[i])
  {
    ElsewhereSteady(w, k, Charge(w, k, i, lost));
  }

  lemma TransmitSteady(c: Config, w: World, k: nat, i: nat)
    requires Steady(w) && Clear(w, k) && k < |w.sends| && i < |w.mediums|
    ensures Steady(Transmit(c, w, k, i))
  {
    var lost := c.rng(w.draws) < w.mediums[i].loss;
    ChargeSteady(c, w, k, i, lost);
    AmpleOutlasts(w, k, i);
    LaunchSteady(Charge(w, k, i, lost), k, i, lost, AirEnd(w, k, i) + w.mediums[i].latency, Deadline(w, k, i));
  }

  lemma WaitSteady(w: World, k: nat)
    requires Steady(w) && Clear(w, k) && k < |w.sends|
    ensures Steady(Wait(w, k))
  {
    var v := w.(sends := w.sends[k := w.sends[k].(waits := w.sends[k].waits + 1)]);
    ElsewhereSteady(w, k, v);
    if v.sends[k].waits > MAX_MEDIUM_WAITS {
      ElsewhereSteady(w, k, Fail(v, k));
    } else {
      TimerAlone(v, v.now + 0.25, Retry(k));
    }
  }

  lemma TxSteady(c: Config, w: World, k: nat)
    requires Steady(w) && k < |w.sends| && (w.sends[k].fate == Pending ==> Clear(w, k))
    ensures Steady(Tx(c, w, k))
  {
    if w.sends[k].fate == Pending {
      match Best(w.mediums, w.now) {
        case None => WaitSteady(w, k);
        case Some(i) => TransmitSteady(c, w, k, i);
      }
    }
  }

  lemma SendSteady(c: Config, w: World, x: Transfer, p: Payload, r: World)
    requires Steady(w) && r == SendPayload(c, w.(xfer := x), p)
    ensures Steady(r)
  {
    var u := w.(xfer := x, sends := w.sends + [Send(p, Pending, 0, 0, None, 0, 0, 0)]);
    ElsewhereSteady(w, |w.sends|, u);
    TxSteady(c, u, |w.sends|);
  }

  lemma ChunkSteady(c: Config, w: World, n: nat)
    requires Steady(w)
    ensures Steady(SendChunk(c, w, n))
  {
    SendSteady(c, w, w.xfer.(offset := w.xfer.offset + n, outstanding := w.xfer.outstanding + 1), Data(n), SendChunk(c, w, n));
  }

  lemma {:induction false} PumpSteady(c: Config, w: World)
    requires Steady(w)
    ensures Steady(Pump(c, w))
    decreases c.window - w.xfer.outstanding
  {
    if w.xfer.outstanding < c.window && w.xfer.offset < c.total {
      PumpTurns(c, w);
      ChunkSteady(c, w, ChunkSize(c, w));
      PumpSteady(c, SendChunk(c, w, ChunkSize(c, w)));
    }
  }

  lemma ReceiptSteady(c: Config, w: World)
    requires Steady(w)
    ensures Steady(ReceiptIfDue(c, w))
  {
    if w.xfer.acked - w.xfer.lastReceiptAt >= c.receiptEvery || w.xfer.acked >= c.total {
      var x := w.xfer.(lastReceiptAt := w.xfer.acked, receiptsSent := w.xfer.receiptsSent + 1);
      SendSteady(c, w, x, Receipt(w.xfer.acked, w.xfer.acked >= c.total), ReceiptIfDue(c, w));
    }
  }

  lemma SameQueueSteady(w: World, r: World)
    requires Steady(w) && r.queue == w.queue && r.sends == w.sends && SameWires(w, r)
    ensures Steady(r)
  {}

  lemma ChunkAckedSteady(c: Config, w: World, n: nat)
    requires Steady(w)
    ensures Steady(ChunkAcked(c, w, n))
  {
    SameQueueSteady(w, Counted(w, n));
    ReceiptSteady(c, Counted(w, n));
    PumpSteady(c, ReceiptIfDue(c, Counted(w, n)));
  }

  lemma OnAckSteady(c: Config, w: World, p: Payload)
    requires Steady(w)
    ensures Steady(OnAck(c, w, p))
  {
    if p.Data? {
      ChunkAckedSteady(c, w, p.len);
    } else {
      SameQueueSteady(w, OnAck(c, w, p));
    }
  }

  // ------------------------------------------------------------------ events

  lemma PoppedSteady(w: World, i: nat)
    requires Steady(w) && i < |w.queue|
    ensures Steady(Popped(w, i))
  {
    var r := Popped(w, i);
    assert forall j :: 0 <= j < |r.queue| ==> r.queue[j] == w.queue[if j < i then j else j + 1];
  }

  /** When the earliest event is a pending entry's timer or wait, nothing else of that entry is under way. */
  lemma EarliestTimerAlone(w: World, i: nat)
    requires Steady(w) && Earliest(w.queue, i) && Awaited(w, w.queue[i]) && !Flies(w.queue[i].event)
    ensures forall j :: 0 <= j < |w.queue| && j != i ==> w.queue[j].event.k != w.queue[i].event.k
    ensures Clear(Popped(w, i), w.queue[i].event.k)
  {
    forall j | 0 <= j < |w.queue| && j != i
      ensures w.queue[j].event.k != w.queue[i].event.k
    {
      if w.queue[j].event.k == w.queue[i].event.k {
        assert Together(w, w.queue[i], w.queue[j]);
      }
    }
    var r := Popped(w, i);
    assert forall j :: 0 <= j < |r.queue| ==> r.queue[j] == w.queue[if j < i then j else j + 1];
  }

  lemma TimeoutSteady(c: Config, w: World, k: nat)
    requires Steady(w) && k < |w.sends| && (w.sends[k].fate == Pending ==> Clear(w, k))
    ensures Steady(TimeoutStep(c, w, k))
  {
    if w.sends[k].fate == Pending {
      var v := ObserveOn(w, w.sends[k].medium, false);
      SameQueueSteady(w, v);
      if v.sends[k].tries >= MAX_TRIES {
        ElsewhereSteady(v, k, Fail(v, k));
      } else {
        TxSteady(c, v, k);
      }
    }
  }

  /** All that is under way of a pending entry is a timer later than t, and its last try went over medium via. */
  ghost predicate GuardedPast(w: World, k: nat, via: nat, t: real) {
    forall i :: 0 <= i < |w.queue| && w.queue[i].event.k == k && Awaited(w, w.queue[i]) ==>
      w.queue[i].event.Timeout? && t < w.queue[i].at && w.sends[k].medium == Some(via)
  }

  lemma PoppedGuarded(w: World, i: nat)
    requires Steady(w) && i < |w.queue| && w.queue[i].event.Arrive? && EventInRange(w, w.queue[i].event)
    ensures var e := w.queue[i];
            GuardedPast(Popped(w, i), e.event.k, e.event.via, e.at + Return(w.mediums[e.event.via]))
  {
    var r, e := Popped(w, i), w.queue[i];
    forall j | 0 <= j < |r.queue| && r.queue[j].event.k == e.event.k && Awaited(r, r.queue[j])
      ensures r.queue[j].event.Timeout? && e.at + Return(w.mediums[e.event.via]) < r.queue[j].at
              && r.sends[e.event.k].medium == Some(e.event.via)
    {
      var n := if j < i then j else j + 1;
      assert r.queue[j] == w.queue[n];
      assert Together(w, w.queue[i], w.queue[n]);
    }
  }

  lemma AckReturns(w: World, k: nat, via: nat, t: real)
    requires Steady(w) && k < |w.sends| && via < |w.mediums| && GuardedPast(w, k, via, t)
    ensures Steady(At(w, t, AckArrive(k, via)))
  {
    var r := At(w, t, AckArrive(k, via));
    var ack := r.queue[|w.queue|];
    forall j | 0 <= j < |w.queue| && Together(r, r.queue[j], ack)
      ensures InTime(r, r.queue[j], ack)
    {
      assert r.queue[j] == w.queue[j] && Awaited(w, w.queue[j]);
    }
  }

  lemma AckBackSteady(c: Config, w: World, k: nat, via: nat)
    requires Steady(w) && k < |w.sends| && via < |w.mediums| && GuardedPast(w, k, via, w.now + Return(w.mediums[via]))
    ensures Steady(AckBack(c, w, k, via))
  {
    var m := w.mediums[via];
    var lost := c.rng(w.draws) < m.loss;
    AckSteady(w, k, via, m.(txFrames := m.txFrames + 1, lostFrames := m.lostFrames + if lost then 1 else 0), lost,
              w.now + AirtimeFor(m, OVERHEAD + 4) + m.latency, AckBack(c, w, k, via));
  }

  lemma AckSteady(w: World, k: nat, via: nat, m: Medium, lost: bool, t: real, r: World)
    requires Steady(w) && k < |w.sends| && via < |w.mediums| && GuardedPast(w, k, via, t)
    requires (m.bps, m.latency) == (w.mediums[via].bps, w.mediums[via].latency)
    requires var v := w.(mediums := w.mediums[via := m], draws := w.draws + 1);
             r == if lost then v else At(v, t, AckArrive(k, via))
    ensures Steady(r)
  {
    var v := w.(mediums := w.mediums[via := m], draws := w.draws + 1);
    SameQueueSteady(w, v);
    if !lost {
      AckReturns(v, k, via, t);
    }
  }

  /** Dispatching changes nothing a timer looks at. */
  lemma DispatchSteady(w: World, k: nat, r: World)
    requires Steady(w) && k < |w.sends| && r.queue == w.queue && r.mediums == w.mediums
    requires r.sends == w.sends || r.sends == w.sends[k := w.sends[k].(dispatched := w.sends[k].dispatched + 1)]
    ensures Steady(r)
  {}

  lemma ArriveSteady(c: Config, w: World, k: nat, via: nat)
    requires Steady(w) && k < |w.sends| && via < |w.mediums| && GuardedPast(w, k, via, w.now + Return(w.mediums[via]))
    ensures Steady(FrameArrives(c, w, k, via))
  {
    var v := Delivered(w, via);
    SameQueueSteady(w, v);
    AckBackSteady(c, v, k, via);
    DispatchSteady(AckBack(c, v, k, via), k, FrameArrives(c, w, k, via));
  }

  lemma AckArrivesSteady(c: Config, w: World, k: nat, via: nat)
    requires Steady(w) && k < |w.sends| && via < |w.mediums|
    ensures Steady(AckArrives(c, w, k, via))
  {
    var v := Delivered(w, via);
    SameQueueSteady(w, v);
    if v.sends[k].fate == Pending {
      ResolveSteady(v, k);
      OnAckSteady(c, Resolve(v, k), v.sends[k].payload);
    }
  }

  lemma ResolveSteady(w: World, k: nat)
    requires Steady(w) && k < |w.sends|
    ensures Steady(Resolve(w, k))
  {
    ElsewhereSteady(w, k, Resolve(w, k));
  }

  lemma FireSteady(c: Config, w: World, i: nat)
    requires Steady(w) && Earliest(w.queue, i) && EventInRange(w, w.queue[i].event)
    ensures Steady(Fire(c, w, i))
  {
    var v, ev := Popped(w, i), w.queue[i].event;
    PoppedSteady(w, i);
    if !Flies(ev) && Awaited(w, w.queue[i]) {
      EarliestTimerAlone(w, i);
    }
    match ev {
      case Retry(k) => TxSteady(c, v, k);
      case Timeout(k, _) => TimeoutSteady(c, v, k);
      case Arrive(k, via) =>
        PoppedGuarded(w, i);
        ArriveSteady(c, v, k, via);
      case AckArrive(k, via) => AckArrivesSteady(c, v, k, via);
    }
  }

  lemma NextSteady(c: Config, w: World, s: Step)
    requires Steady(w) && Enabled(w, s) && (s.FireEvent? ==> Earliest(w.queue, s.i))
    ensures Steady(Next(c, w, s))
  {
    match s {
      case FireEvent(i) => FireSteady(c, w, i);
      case SetUp(_, _) => SameQueueSteady(w, Next(c, w, s));
      case StartTransfer =>
        var r := w.(xfer := w.xfer.(started := true));
        SameQueueSteady(w, r);
        PumpSteady(c, r);
      case Beat(n) => SendSteady(c, w, w.xfer, Telemetry(n), Next(c, w, s));
    }
  }

  // ------------------------------------------------------------------ whole runs

  /** The run handles its events as the event loop does, earliest first. */
  ghost predicate InOrder(c: Config, mediums: seq<Medium>, steps: seq<Step>) {
    steps == [] ||
    (var n := |steps| - 1;
     && InOrder(c, mediums, steps[..n])
     && (steps[n].FireEvent? && Run(c, mediums, steps[..n]).Some? ==>
           Earliest(Run(c, mediums, steps[..n]).value.queue, steps[n].i)))
  }

  lemma InitialSteady(c: Config, mediums: seq<Medium>)
    requires forall i :: 0 <= i < |mediums| ==> Ample(mediums[i])
    ensures Steady(Initial(c, mediums))
  {
    var w := World(0.0, 0, 0, [], mediums, [], Server(false, {}, 0, 0, 0, 0, 0), Transfer(false, 0, 0, 0, 0, 0, None, false));
    SendSteady(c, w, w.xfer, Join, Initial(c, mediums));
  }

  lemma {:induction false} RunSteady(c: Config, mediums: seq<Medium>, steps: seq<Step>)
    requires (forall i :: 0 <= i < |mediums| ==> Ample(mediums[i])) && Run(c, mediums, steps).Some? && InOrder(c, mediums, steps)
    ensures Steady(Run(c, mediums, steps).value)
    decreases |steps|
  {
    if steps == [] {
      InitialSteady(c, mediums);
    } else {
      var n := |steps| - 1;
      RunSteady(c, mediums, steps[..n]);
      NextSteady(c, Run(c, mediums, steps[..n]).value, steps[n]);
    }
  }

  /**
   No spurious retransmission: when the event loop comes to a pending entry's timer, no frame of that entry and no ack for
   it is in the air, so the attempt it guarded, or its ack, was lost; only then is the medium blamed and the frame sent again.
   An ack in the air for a pending entry comes before its timer, over the medium of its last try, which is the one credited.
   */
  lemma TimersActOnLossOnly(c: Config, mediums: seq<Medium>, steps: seq<Step>, w: World, i: nat, j: nat)
    requires (forall n :: 0 <= n < |mediums| ==> Ample(mediums[n])) && Run(c, mediums, steps) == Some(w) && InOrder(c, mediums, steps)
    requires i < |w.queue| && j < |w.queue| && j != i && Awaited(w, w.queue[i]) && !Flies(w.queue[i].event)
    requires w.queue[j].event.k == w.queue[i].event.k
    ensures !Earliest(w.queue, i)
    ensures w.queue[i].event.Timeout? && Flies(w.queue[j].event) && w.queue[j].at < w.queue[i].at
    ensures w.sends[w.queue[i].event.k].medium == Some(w.queue[j].event.via)
  {
    RunSteady(c, mediums, steps);
    assert Together(w, w.queue[i], w.queue[j]);
  }

  // ------------------------------------------------------------------ no medium at all

  /** The only event under way is entry k's wait, due at t, after n waits; no medium is up. */
  ghost predicate Waiting(w: World, k: nat, n: nat, t: real) {
    && k < |w.sends| && w.sends[k].fate == Pending && w.sends[k].waits == n && Down(w)
    && |w.queue| == 1 && w.queue[0].event == Retry(k) && w.queue[0].at == t
  }

  ghost predicate Down(w: World) { forall i :: 0 <= i < |w.mediums| ==> !w.mediums[i].up }

  ghost predicate GivenUp(w: World, k: nat, t: real) {
    k < |w.sends| && w.sends[k].fate == Failed && w.queue == [] && w.now == t
  }

  /** The event loop with nothing but one event at a time to fire. */
  ghost predicate FiresAlone(c: Config, w: World, n: nat, r: World)
    decreases n
  {
    if n == 0 then r == w
    else |w.queue| == 1 && EventInRange(w, w.queue[0].event) && FiresAlone(c, Fire(c, w, 0), n - 1, r)
  }

  lemma OneWait(c: Config, w: World, k: nat, n: nat, t: real)
    requires Waiting(w, k, n, t)
    ensures if n < MAX_MEDIUM_WAITS then Waiting(Fire(c, w, 0), k, n + 1, t + 0.25) else GivenUp(Fire(c, w, 0), k, t)
  {
    BestIsBest(w.mediums, t);
    assert Without(w.queue, 0) == [];
  }

  /** After `fired` more events: still waiting, or given up at the last of them. */
  ghost predicate WaitedFor(r: World, k: nat, n: nat, t: real, fired: nat) {
    if n + fired <= MAX_MEDIUM_WAITS then Waiting(r, k, n + fired, t + 0.25 * fired as real)
    else n + fired == MAX_MEDIUM_WAITS + 1 && GivenUp(r, k, t + 0.25 * (fired - 1) as real)
  }

  lemma {:induction false} WaitsOn(c: Config, w: World, k: nat, n: nat, t: real, fired: nat, r: World)
    requires n <= MAX_MEDIUM_WAITS && Waiting(w, k, n, t) && FiresAlone(c, w, fired, r)
    ensures WaitedFor(r, k, n, t, fired)
    decreases fired
  {
    if fired > 0 {
      OneWait(c, w, k, n, t);
      if n < MAX_MEDIUM_WAITS {
        WaitsOn(c, Fire(c, w, 0), k, n + 1, t + 0.25, fired - 1, r);
      }
    }
  }

  /** With no medium up, an entry is given up 1000 seconds after it was to be sent, at the 4000th event, and not before. */
  lemma GivenUpAfter1000Seconds(c: Config, w: World, k: nat, fired: nat, r: World)
    requires k < |w.sends| && w.sends[k].fate == Pending && w.sends[k].waits == 0 && w.queue == [] && Down(w)
    requires FiresAlone(c, Tx(c, w, k), fired, r)
    ensures k < |r.sends| && (r.sends[k].fate == Pending <==> fired < 4000) && fired <= 4000
    ensures fired == 4000 ==> GivenUp(r, k, w.now + 1000.0)
  {
    BestIsBest(w.mediums, w.now);
    WaitsOn(c, Tx(c, w, k), k, 1, w.now + 0.25, fired, r);
  }
}
