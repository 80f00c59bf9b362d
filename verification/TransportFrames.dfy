/** Where the frames of a run went: delivered, lost or in the air, medium by medium, and lost by the draws alone. */
module TransportFrames {
  import opened Options
  import opened Mediums
  import opened Sums
  import opened Transport

  function SentOn(m: Medium): nat { m.txFrames }
  function LostOn(m: Medium): nat { m.lostFrames }

  predicate Flies(ev: Event) { ev.Arrive? || ev.AckArrive? }

  /** 1 for the frames and acks in the air on medium i. */
  function FlyingOn(i: nat): Timed -> nat {
    (t: Timed) => if Flies(t.event) && t.event.via == i then 1 else 0
  }

  /** How many of the first n draws are below p. */
  function Below(rng: nat -> real, n: nat, p: real): nat {
    if n == 0 then 0 else Below(rng, n - 1, p) + if rng(n - 1) < p then 1 else 0
  }

  /** Every frame a medium has carried was lost, was delivered, or is in the air; `hole` is a medium with one not placed yet. */
  ghost predicate FramesPlaced(w: World, hole: int) {
    forall i: nat :: i < |w.mediums| ==>
      w.mediums[i].txFrames
      == w.mediums[i].lostFrames + w.mediums[i].deliveredFrames + Sum(w.queue, FlyingOn(i)) + if i == hole then 1 else 0
  }

  /** With every loss probability between lo and hi, what is lost is what the draws below them allow. */
  ghost predicate LossesDrawn(c: Config, lo: real, hi: real, w: World) {
    && w.draws == Sum(w.mediums, SentOn)
    && (forall i :: 0 <= i < |w.mediums| ==> lo <= w.mediums[i].loss <= hi)
    && Below(c.rng, w.draws, lo) <= Sum(w.mediums, LostOn) <= Below(c.rng, w.draws, hi)
  }

  ghost predicate Accounts(c: Config, lo: real, hi: real, w: World, hole: int) {
    FramesPlaced(w, hole) && LossesDrawn(c, lo, hi, w)
  }

  // ------------------------------------------------------------------ single changes

  /** Medium i changes in nothing that is counted. */
  ghost predicate SameCounts(m: Medium, n: Medium) {
    n.txFrames == m.txFrames && n.lostFrames == m.lostFrames && n.deliveredFrames == m.deliveredFrames && n.loss == m.loss
  }

  lemma MediumRests(c: Config, lo: real, hi: real, w: World, i: nat, m: Medium, hole: int)
    requires Accounts(c, lo, hi, w, hole) && i < |w.mediums| && SameCounts(w.mediums[i], m)
    ensures Accounts(c, lo, hi, w.(mediums := w.mediums[i := m]), hole)
  {
    SumUpdate(w.mediums, i, m, SentOn);
    SumUpdate(w.mediums, i, m, LostOn);
  }

  /** Counters do not look at entries, the transfer or the server. */
  lemma ElsewhereRests(c: Config, lo: real, hi: real, w: World, r: World, hole: int)
    requires Accounts(c, lo, hi, w, hole) && r.mediums == w.mediums && r.queue == w.queue && r.draws == w.draws
    ensures Accounts(c, lo, hi, r, hole)
  {}

  lemma TimerSet(c: Config, lo: real, hi: real, w: World, t: real, ev: Event, hole: int)
    requires Accounts(c, lo, hi, w, hole) && !Flies(ev)
    ensures Accounts(c, lo, hi, At(w, t, ev), hole)
  {
    forall i: nat | i < |w.mediums|
      ensures Sum(At(w, t, ev).queue, FlyingOn(i)) == Sum(w.queue, FlyingOn(i))
    {
      SumAppend(w.queue, Timed(t, w.order, ev), FlyingOn(i));
    }
  }

  lemma FrameFlies(c: Config, lo: real, hi: real, w: World, t: real, ev: Event)
    requires Flies(ev) && Accounts(c, lo, hi, w, ev.via)
    ensures Accounts(c, lo, hi, At(w, t, ev), -1)
  {
    forall i: nat | i < |w.mediums|
      ensures Sum(At(w, t, ev).queue, FlyingOn(i)) == Sum(w.queue, FlyingOn(i)) + if i == ev.via then 1 else 0
    {
      SumAppend(w.queue, Timed(t, w.order, ev), FlyingOn(i));
    }
  }

  /** One frame is handed to medium m, which becomes n. */
  ghost predicate Carried(c: Config, draw: nat, m: Medium, n: Medium) {
    && n.txFrames == m.txFrames + 1 && n.deliveredFrames == m.deliveredFrames && n.loss == m.loss
    && n.lostFrames == m.lostFrames + if c.rng(draw) < m.loss then 1 else 0
  }

  lemma FrameCarried(c: Config, lo: real, hi: real, w: World, i: nat, m: Medium, r: World)
    requires Accounts(c, lo, hi, w, -1) && i < |w.mediums| && Carried(c, w.draws, w.mediums[i], m)
    requires r.mediums == w.mediums[i := m] && r.draws == w.draws + 1 && r.queue == w.queue
    ensures Accounts(c, lo, hi, r, if c.rng(w.draws) < w.mediums[i].loss then -1 else i)
  {
    SumUpdate(w.mediums, i, m, SentOn);
    SumUpdate(w.mediums, i, m, LostOn);
    assert Below(c.rng, w.draws + 1, lo) == Below(c.rng, w.draws, lo) + if c.rng(w.draws) < lo then 1 else 0;
    assert Below(c.rng, w.draws + 1, hi) == Below(c.rng, w.draws, hi) + if c.rng(w.draws) < hi then 1 else 0;
  }

  // ------------------------------------------------------------------ sending

  lemma ChargeAccounts(c: Config, lo: real, hi: real, w: World, k: nat, i: nat, lost: bool)
    requires Accounts(c, lo, hi, w, -1) && k < |w.sends| && i < |w.mediums| && lost == (c.rng(w.draws) < w.mediums[i].loss)
    ensures Accounts(c, lo, hi, Charge(w, k, i, lost), if lost then -1 else i)
  {
    var r := Charge(w, k, i, lost);
    FrameCarried(c, lo, hi, w, i, r.mediums[i], r);
  }

  lemma TransmitAccounts(c: Config, lo: real, hi: real, w: World, k: nat, i: nat)
    requires Accounts(c, lo, hi, w, -1) && k < |w.sends| && i < |w.mediums|
    ensures Accounts(c, lo, hi, Transmit(c, w, k, i), -1)
  {
    var arrival := AirEnd(w, k, i) + w.mediums[i].latency;
    var deadline := w.now + ((arrival - w.now) * 2.0 + 4.0 * w.mediums[i].latency + 0.05);
    ChargeAndLaunch(c, lo, hi, w, k, i, c.rng(w.draws) < w.mediums[i].loss, arrival, deadline, Transmit(c, w, k, i));
  }

  lemma ChargeAndLaunch(c: Config, lo: real, hi: real, w: World, k: nat, i: nat, lost: bool, arrival: real, deadline: real, r: World)
    requires Accounts(c, lo, hi, w, -1) && k < |w.sends| && i < |w.mediums| && lost == (c.rng(w.draws) < w.mediums[i].loss)
    requires r == Launch(Charge(w, k, i, lost), k, i, lost, arrival, deadline)
    ensures Accounts(c, lo, hi, r, -1)
  {
    ChargeAccounts(c, lo, hi, w, k, i, lost);
    LaunchAccounts(c, lo, hi, Charge(w, k, i, lost), k, i, lost, arrival, deadline);
  }

  lemma LaunchAccounts(c: Config, lo: real, hi: real, w: World, k: nat, i: nat, lost: bool, arrival: real, deadline: real)
    requires Accounts(c, lo, hi, w, if lost then -1 else i) && k < |w.sends|
    ensures Accounts(c, lo, hi, Launch(w, k, i, lost, arrival, deadline), -1)
  {
    var v := if lost then w else At(w, arrival, Arrive(k, i));
    if !lost {
      FrameFlies(c, lo, hi, w, arrival, Arrive(k, i));
    }
    TimerSet(c, lo, hi, v, deadline, Timeout(k, w.sends[k].tries), -1);
  }

  lemma TxAccounts(c: Config, lo: real, hi: real, w: World, k: nat)
    requires Accounts(c, lo, hi, w, -1) && k < |w.sends|
    ensures Accounts(c, lo, hi, Tx(c, w, k), -1)
  {
    var choice := Best(w.mediums, w.now);
    if w.sends[k].fate != Pending {
    } else if choice.Some? {
      TransmitAccounts(c, lo, hi, w, k, choice.value);
    } else {
      var w1 := w.(sends := w.sends[k := w.sends[k].(waits := w.sends[k].waits + 1)]);
      ElsewhereRests(c, lo, hi, w, w1, -1);
      ElsewhereRests(c, lo, hi, w, Fail(w1, k), -1);
      TimerSet(c, lo, hi, w1, w1.now + 0.25, Retry(k), -1);
    }
  }

  lemma SendAccounts(c: Config, lo: real, hi: real, w: World, x: Transfer, p: Payload, r: World)
    requires Accounts(c, lo, hi, w, -1) && r == SendPayload(c, w.(xfer := x), p)
    ensures Accounts(c, lo, hi, r, -1)
  {
    var u := w.(xfer := x, sends := w.sends + [Send(p, Pending, 0, 0, None, 0, 0, 0)]);
    ElsewhereRests(c, lo, hi, w, u, -1);
    TxAccounts(c, lo, hi, u, |w.sends|);
  }

  lemma ChunkAccounts(c: Config, lo: real, hi: real, w: World, n: nat)
    requires Accounts(c, lo, hi, w, -1)
    ensures Accounts(c, lo, hi, SendChunk(c, w, n), -1)
  {
    SendAccounts(c, lo, hi, w, w.xfer.(offset := w.xfer.offset + n, outstanding := w.xfer.outstanding + 1), Data(n),
                 SendChunk(c, w, n));
  }

  lemma PumpTurns(c: Config, w: World)
    requires w.xfer.outstanding < c.window && w.xfer.offset < c.total
    ensures Pump(c, w) == Pump(c, SendChunk(c, w, ChunkSize(c, w)))
    ensures SendChunk(c, w, ChunkSize(c, w)).xfer.outstanding == w.xfer.outstanding + 1
  {}

  lemma {:induction false} PumpAccounts(c: Config, lo: real, hi: real, w: World)
    requires Accounts(c, lo, hi, w, -1)
    ensures Accounts(c, lo, hi, Pump(c, w), -1)
    decreases c.window - w.xfer.outstanding
  {
    if w.xfer.outstanding < c.window && w.xfer.offset < c.total {
      var r := SendChunk(c, w, ChunkSize(c, w));
      ChunkAccounts(c, lo, hi, w, ChunkSize(c, w));
      PumpTurns(c, w);
      PumpAccounts(c, lo, hi, r);
    }
  }

  lemma ReceiptAccounts(c: Config, lo: real, hi: real, w: World)
    requires Accounts(c, lo, hi, w, -1)
    ensures Accounts(c, lo, hi, ReceiptIfDue(c, w), -1)
  {
    if w.xfer.acked - w.xfer.lastReceiptAt >= c.receiptEvery || w.xfer.acked >= c.total {
      var x := w.xfer.(lastReceiptAt := w.xfer.acked, receiptsSent := w.xfer.receiptsSent + 1);
      SendAccounts(c, lo, hi, w, x, Receipt(w.xfer.acked, w.xfer.acked >= c.total), ReceiptIfDue(c, w));
    }
  }

  lemma ChunkAckedAccounts(c: Config, lo: real, hi: real, w: World, n: nat)
    requires Accounts(c, lo, hi, w, -1)
    ensures Accounts(c, lo, hi, ChunkAcked(c, w, n), -1)
  {
    ElsewhereRests(c, lo, hi, w, Counted(w, n), -1);
    ReceiptAccounts(c, lo, hi, Counted(w, n));
    PumpAccounts(c, lo, hi, ReceiptIfDue(c, Counted(w, n)));
  }

  // ------------------------------------------------------------------ receiving

  lemma DeliveredAccounts(c: Config, lo: real, hi: real, w: World, via: nat)
    requires via < |w.mediums| && Accounts(c, lo, hi, w, via)
    ensures Accounts(c, lo, hi, Delivered(w, via), -1)
  {
    var m: Medium := w.mediums[via].(deliveredFrames := w.mediums[via].deliveredFrames + 1);
    SumUpdate(w.mediums, via, m, SentOn);
    SumUpdate(w.mediums, via, m, LostOn);
  }

  lemma AckBackAccounts(c: Config, lo: real, hi: real, w: World, k: nat, via: nat)
    requires via < |w.mediums| && Accounts(c, lo, hi, w, -1)
    ensures Accounts(c, lo, hi, AckBack(c, w, k, via), -1)
  {
    var m := w.mediums[via];
    var lost := c.rng(w.draws) < m.loss;
    AckCarried(c, lo, hi, w, k, via, m.(txFrames := m.txFrames + 1, lostFrames := m.lostFrames + if lost then 1 else 0), lost,
               w.now + AirtimeFor(m, OVERHEAD + 4) + m.latency, AckBack(c, w, k, via));
  }

  lemma AckCarried(c: Config, lo: real, hi: real, w: World, k: nat, via: nat, m: Medium, lost: bool, t: real, r: World)
    requires via < |w.mediums| && Accounts(c, lo, hi, w, -1) && Carried(c, w.draws, w.mediums[via], m)
    requires lost == (c.rng(w.draws) < w.mediums[via].loss)
    requires var v := w.(mediums := w.mediums[via := m], draws := w.draws + 1);
             r == if lost then v else At(v, t, AckArrive(k, via))
    ensures Accounts(c, lo, hi, r, -1)
  {
    var v := w.(mediums := w.mediums[via := m], draws := w.draws + 1);
    FrameCarried(c, lo, hi, w, via, m, v);
    if !lost {
      FrameFlies(c, lo, hi, v, t, AckArrive(k, via));
    }
  }

  lemma ObserveAccounts(c: Config, lo: real, hi: real, w: World, i: Option<nat>, success: bool)
    requires Accounts(c, lo, hi, w, -1)
    ensures Accounts(c, lo, hi, ObserveOn(w, i, success), -1)
  {
    if i.Some? && i.value < |w.mediums| {
      MediumRests(c, lo, hi, w, i.value, Observe(w.mediums[i.value], success, w.now), -1);
    }
  }

  lemma ArriveAccounts(c: Config, lo: real, hi: real, w: World, k: nat, via: nat)
    requires k < |w.sends| && via < |w.mediums| && Accounts(c, lo, hi, w, via)
    ensures Accounts(c, lo, hi, FrameArrives(c, w, k, via), -1)
  {
    DeliveredAccounts(c, lo, hi, w, via);
    AckBackAccounts(c, lo, hi, Delivered(w, via), k, via);
    ElsewhereRests(c, lo, hi, AckBack(c, Delivered(w, via), k, via), FrameArrives(c, w, k, via), -1);
  }

  lemma ResolveAccounts(c: Config, lo: real, hi: real, w: World, k: nat)
    requires k < |w.sends| && Accounts(c, lo, hi, w, -1)
    ensures Accounts(c, lo, hi, Resolve(w, k), -1)
  {
    var s := w.sends[k];
    var u := w.(sends := w.sends[k := s.(fate := Acked, acks := s.acks + 1)]);
    ElsewhereRests(c, lo, hi, w, u, -1);
    ObserveAccounts(c, lo, hi, u, s.medium, true);
  }

  lemma OnAckAccounts(c: Config, lo: real, hi: real, w: World, p: Payload)
    requires Accounts(c, lo, hi, w, -1)
    ensures Accounts(c, lo, hi, OnAck(c, w, p), -1)
  {
    if p.Data? {
      ChunkAckedAccounts(c, lo, hi, w, p.len);
    } else {
      ElsewhereRests(c, lo, hi, w, OnAck(c, w, p), -1);
    }
  }

  lemma AckArrivesAccounts(c: Config, lo: real, hi: real, w: World, k: nat, via: nat)
    requires k < |w.sends| && via < |w.mediums| && Accounts(c, lo, hi, w, via)
    ensures Accounts(c, lo, hi, AckArrives(c, w, k, via), -1)
  {
    var v := Delivered(w, via);
    DeliveredAccounts(c, lo, hi, w, via);
    if v.sends[k].fate == Pending {
      ResolveAccounts(c, lo, hi, v, k);
      OnAckAccounts(c, lo, hi, Resolve(v, k), v.sends[k].payload);
    }
  }

  lemma TimeoutAccounts(c: Config, lo: real, hi: real, w: World, k: nat)
    requires k < |w.sends| && Accounts(c, lo, hi, w, -1)
    ensures Accounts(c, lo, hi, TimeoutStep(c, w, k), -1)
  {
    var w1 := ObserveOn(w, w.sends[k].medium, false);
    ObserveAccounts(c, lo, hi, w, w.sends[k].medium, false);
    TxAccounts(c, lo, hi, w1, k);
    ElsewhereRests(c, lo, hi, w1, Fail(w1, k), -1);
  }

  lemma PoppedAccounts(c: Config, lo: real, hi: real, w: World, i: nat)
    requires i < |w.queue| && Accounts(c, lo, hi, w, -1)
    ensures Accounts(c, lo, hi, Popped(w, i), if Flies(w.queue[i].event) then w.queue[i].event.via else -1)
  {
    forall j: nat | j < |w.mediums|
      ensures Sum(Without(w.queue, i), FlyingOn(j)) + FlyingOn(j)(w.queue[i]) == Sum(w.queue, FlyingOn(j))
    {
      SumWithout(w.queue, i, FlyingOn(j));
    }
  }

  lemma FireAccounts(c: Config, lo: real, hi: real, w: World, i: nat)
    requires i < |w.queue| && EventInRange(w, w.queue[i].event) && Accounts(c, lo, hi, w, -1)
    ensures Accounts(c, lo, hi, Fire(c, w, i), -1)
  {
    PoppedAccounts(c, lo, hi, w, i);
    match w.queue[i].event {
      case Retry(k) => TxAccounts(c, lo, hi, Popped(w, i), k);
      case Timeout(k, _) => TimeoutAccounts(c, lo, hi, Popped(w, i), k);
      case Arrive(k, via) => ArriveAccounts(c, lo, hi, Popped(w, i), k, via);
      case AckArrive(k, via) => AckArrivesAccounts(c, lo, hi, Popped(w, i), k, via);
    }
  }

  lemma NextAccounts(c: Config, lo: real, hi: real, w: World, s: Step)
    requires Enabled(w, s) && Accounts(c, lo, hi, w, -1)
    ensures Accounts(c, lo, hi, Next(c, w, s), -1)
  {
    match s {
      case FireEvent(i) => FireAccounts(c, lo, hi, w, i);
      case SetUp(m, up) => MediumRests(c, lo, hi, w, m, w.mediums[m].(up := up), -1);
      case StartTransfer =>
        var r := w.(xfer := w.xfer.(started := true));
        ElsewhereRests(c, lo, hi, w, r, -1);
        PumpAccounts(c, lo, hi, r);
      case Beat(n) => SendAccounts(c, lo, hi, w, w.xfer, Telemetry(n), Next(c, w, s));
    }
  }

  // ------------------------------------------------------------------ whole runs

  ghost predicate Unused(lo: real, hi: real, mediums: seq<Medium>) {
    forall i :: 0 <= i < |mediums| ==>
      lo <= mediums[i].loss <= hi && mediums[i].txFrames == mediums[i].lostFrames == mediums[i].deliveredFrames == 0
  }

  lemma InitialAccounts(c: Config, lo: real, hi: real, mediums: seq<Medium>)
    requires Unused(lo, hi, mediums)
    ensures Accounts(c, lo, hi, Initial(c, mediums), -1)
  {
    var w := World(0.0, 0, 0, [], mediums, [], Server(false, {}, 0, 0, 0, 0, 0), Transfer(false, 0, 0, 0, 0, 0, None, false));
    SumZero(mediums, SentOn);
    SumZero(mediums, LostOn);
    assert Accounts(c, lo, hi, w, -1);
    SendAccounts(c, lo, hi, w, w.xfer, Join, Initial(c, mediums));
  }

  /**
   In every run each medium's frames are its lost ones, its delivered ones and those in the air; every frame, acks too, used
   one draw; and as many are lost as there are draws below the loss probability, exactly so if the mediums share one.
   */
  lemma {:induction false} RunAccounts(c: Config, lo: real, hi: real, mediums: seq<Medium>, steps: seq<Step>)
    requires Unused(lo, hi, mediums) && Run(c, mediums, steps).Some?
    ensures Accounts(c, lo, hi, Run(c, mediums, steps).value, -1)
    decreases |steps|
  {
    if steps == [] {
      InitialAccounts(c, lo, hi, mediums);
    } else {
      var n := |steps| - 1;
      RunAccounts(c, lo, hi, mediums, steps[..n]);
      NextAccounts(c, lo, hi, Run(c, mediums, steps[..n]).value, steps[n]);
    }
  }

  /** Once the bag is empty, nothing is in the air: every frame was delivered or lost. */
  lemma DrainedFramesLanded(c: Config, lo: real, hi: real, mediums: seq<Medium>, steps: seq<Step>)
    requires Unused(lo, hi, mediums) && Run(c, mediums, steps).Some? && Run(c, mediums, steps).value.queue == []
    ensures var w := Run(c, mediums, steps).value;
            forall i :: 0 <= i < |w.mediums| ==> w.mediums[i].txFrames == w.mediums[i].lostFrames + w.mediums[i].deliveredFrames
  {
    RunAccounts(c, lo, hi, mediums, steps);
    var w := Run(c, mediums, steps).value;
    forall i: nat | i < |w.mediums|
      ensures Sum(w.queue, FlyingOn(i)) == 0
    {}
  }
}
