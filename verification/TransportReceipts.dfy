/** Which receipts exist, which one the node has proven, and what that leaves unproven, in every run of the transport. */
module TransportReceipts {
  import opened Options
  import opened Mediums
  import opened Transport
  import opened TransportInvariant
  import opened TransportTheorems

  predicate IsReceipt(w: World, i: nat, cumulative: nat) {
    i < |w.sends| && w.sends[i].payload.Receipt? && w.sends[i].payload.cumulative == cumulative
  }

  /** Every receipt signs for more than the one before it. */
  ghost predicate Rising(w: World) {
    forall i, j :: 0 <= i < j < |w.sends| && w.sends[i].payload.Receipt? && w.sends[j].payload.Receipt? ==>
      w.sends[i].payload.cumulative < w.sends[j].payload.cumulative
  }

  /** Receipts sign for something, and for no more than was signed last. */
  ghost predicate Signatures(w: World) {
    && (forall i :: 0 <= i < |w.sends| && w.sends[i].payload.Receipt? ==> 0 < w.sends[i].payload.cumulative <= w.xfer.lastReceiptAt)
    && (w.xfer.lastReceiptAt > 0 ==> exists i :: 0 <= i < |w.sends| && IsReceipt(w, i, w.xfer.lastReceiptAt))
  }

  /** What is proven was proven by a receipt the node has. */
  ghost predicate Attested(w: World) {
    w.server.proven > 0 ==> exists i :: 0 <= i < |w.sends| && i in w.server.seen && IsReceipt(w, i, w.server.proven)
  }

  /** The transfer is marked failed if a chunk was given up on. */
  ghost predicate Flagged(w: World) {
    forall i :: 0 <= i < |w.sends| && w.sends[i].payload.Data? && w.sends[i].fate == Failed ==> w.xfer.failed
  }

  ghost predicate Receipts(w: World) {
    Rising(w) && Signatures(w) && Attested(w) && Flagged(w) && w.server.delivered - w.server.proven <= w.server.maxUnproven
  }

  // ------------------------------------------------------------------ steps that sign, prove and deliver nothing

  ghost predicate SamePayloads(w: World, r: World) {
    |r.sends| == |w.sends| && forall j :: 0 <= j < |w.sends| ==> r.sends[j].payload == w.sends[j].payload
  }

  /** A chunk that fails between w and r marks the transfer failed. */
  ghost predicate FailuresFlagged(w: World, r: World)
    requires |r.sends| == |w.sends|
  {
    && (w.xfer.failed ==> r.xfer.failed)
    && forall j :: 0 <= j < |w.sends| && r.sends[j].fate == Failed && r.sends[j].payload.Data? ==>
         w.sends[j].fate == Failed || r.xfer.failed
  }

  ghost predicate Steady(w: World, r: World) {
    SamePayloads(w, r) && FailuresFlagged(w, r) && r.server == w.server && r.xfer.lastReceiptAt == w.xfer.lastReceiptAt
  }

  lemma SteadyKeeps(w: World, r: World)
    requires Receipts(w) && Steady(w, r)
    ensures Receipts(r)
  {
    if w.xfer.lastReceiptAt > 0 {
      var i :| 0 <= i < |w.sends| && IsReceipt(w, i, w.xfer.lastReceiptAt);
      assert IsReceipt(r, i, r.xfer.lastReceiptAt);
    }
    if w.server.proven > 0 {
      var i :| 0 <= i < |w.sends| && i in w.server.seen && IsReceipt(w, i, w.server.proven);
      assert IsReceipt(r, i, r.server.proven);
    }
  }

  lemma SteadyTrans(u: World, v: World, w: World)
    requires Steady(u, v) && Steady(v, w)
    ensures Steady(u, w)
  {}

  lemma FailSteady(w: World, k: nat)
    requires k < |w.sends|
    ensures Steady(w, Fail(w, k))
  {}

  lemma WaitSteady(w: World, k: nat)
    requires k < |w.sends|
    ensures Steady(w, Wait(w, k))
  {
    var w1 := w.(sends := w.sends[k := w.sends[k].(waits := w.sends[k].waits + 1)]);
    if w1.sends[k].waits > MAX_MEDIUM_WAITS {
      FailSteady(w1, k);
    }
  }

  lemma TransmitSteady(c: Config, w: World, k: nat, i: nat)
    requires k < |w.sends| && i < |w.mediums|
    ensures Steady(w, Transmit(c, w, k, i))
  {
    var lost := c.rng(w.draws) < w.mediums[i].loss;
    assert Steady(w, Charge(w, k, i, lost));
  }

  lemma TxSteady(c: Config, w: World, k: nat)
    requires k < |w.sends|
    ensures Steady(w, Tx(c, w, k))
  {
    if w.sends[k].fate == Pending {
      match Best(w.mediums, w.now)
      case None => WaitSteady(w, k);
      case Some(i) => TransmitSteady(c, w, k, i);
    }
  }

  lemma ObserveSteady(w: World, i: Option<nat>, success: bool)
    ensures Steady(w, ObserveOn(w, i, success))
  {}

  lemma TimeoutSteady(c: Config, w: World, k: nat)
    requires k < |w.sends|
    ensures Steady(w, TimeoutStep(c, w, k))
  {
    if w.sends[k].fate == Pending {
      var w1 := ObserveOn(w, w.sends[k].medium, false);
      ObserveSteady(w, w.sends[k].medium, false);
      if w1.sends[k].tries >= MAX_TRIES {
        FailSteady(w1, k);
        SteadyTrans(w, w1, Fail(w1, k));
      } else {
        TxSteady(c, w1, k);
        SteadyTrans(w, w1, Tx(c, w1, k));
      }
    }
  }

  lemma AckBackSteady(c: Config, w: World, k: nat, via: nat)
    requires via < |w.mediums|
    ensures Steady(w, AckBack(c, w, k, via))
  {}

  lemma ResolveSteady(w: World, k: nat)
    requires k < |w.sends|
    ensures Steady(w, Resolve(w, k)) && Resolve(w, k).xfer == w.xfer
  {}

  // ------------------------------------------------------------------ sending

  /** The world with a payload appended and the transfer's books moved, before the node transmits it. */
  function Queued(w: World, p: Payload, x: Transfer): World { w.(sends := w.sends + [NEW.(payload := p)], xfer := x) }

  lemma SendIsTx(c: Config, w: World, p: Payload, x: Transfer)
    ensures SendPayload(c, w.(xfer := x), p) == Tx(c, Queued(w, p, x), |w.sends|)
  {}

  /** A receipt signs for more than the last one; anything else leaves the last signature alone. */
  ghost predicate Signs(w: World, p: Payload, x: Transfer) {
    && (w.xfer.failed ==> x.failed)
    && match p
       case Receipt(cumulative, _) => x.lastReceiptAt == cumulative > w.xfer.lastReceiptAt
       case _ => x.lastReceiptAt == w.xfer.lastReceiptAt
  }

  lemma QueuedSignatures(w: World, p: Payload, x: Transfer)
    requires Receipts(w) && Signs(w, p, x)
    ensures Rising(Queued(w, p, x)) && Signatures(Queued(w, p, x)) && Flagged(Queued(w, p, x))
  {
    var r := Queued(w, p, x);
    assert forall i :: 0 <= i < |w.sends| ==> r.sends[i] == w.sends[i];
    if p.Receipt? {
      assert IsReceipt(r, |w.sends|, r.xfer.lastReceiptAt);
    } else if w.xfer.lastReceiptAt > 0 {
      var i :| 0 <= i < |w.sends| && IsReceipt(w, i, w.xfer.lastReceiptAt);
      assert IsReceipt(r, i, r.xfer.lastReceiptAt);
    }
  }

  lemma QueuedAttested(w: World, p: Payload, x: Transfer)
    requires Attested(w)
    ensures Attested(Queued(w, p, x))
  {
    if w.server.proven > 0 {
      var i :| 0 <= i < |w.sends| && i in w.server.seen && IsReceipt(w, i, w.server.proven);
      assert IsReceipt(Queued(w, p, x), i, w.server.proven);
    }
  }

  lemma SendReceipts(c: Config, w: World, p: Payload, x: Transfer, r: World)
    requires Receipts(w) && Signs(w, p, x) && r == SendPayload(c, w.(xfer := x), p)
    ensures Receipts(r) && r.server == w.server
  {
    QueuedSignatures(w, p, x);
    QueuedAttested(w, p, x);
    SendIsTx(c, w, p, x);
    TxSteady(c, Queued(w, p, x), |w.sends|);
    SteadyKeeps(Queued(w, p, x), r);
  }

  lemma {:induction false} PumpReceipts(c: Config, w: World)
    requires Receipts(w)
    ensures Receipts(Pump(c, w)) && Pump(c, w).server == w.server
    decreases c.window - w.xfer.outstanding
  {
    if w.xfer.outstanding < c.window && w.xfer.offset < c.total {
      var n := ChunkSize(c, w);
      var x := w.xfer.(offset := w.xfer.offset + n, outstanding := w.xfer.outstanding + 1);
      SendReceipts(c, w, Data(n), x, SendChunk(c, w, n));
      PumpReceipts(c, SendChunk(c, w, n));
    }
  }

  lemma DueReceipts(c: Config, w: World)
    requires Receipts(w) && w.xfer.acked > w.xfer.lastReceiptAt
    ensures Receipts(ReceiptIfDue(c, w)) && ReceiptIfDue(c, w).server == w.server
  {
    var final := w.xfer.acked >= c.total;
    var x := w.xfer.(lastReceiptAt := w.xfer.acked, receiptsSent := w.xfer.receiptsSent + 1);
    if w.xfer.acked - w.xfer.lastReceiptAt >= c.receiptEvery || final {
      SendReceipts(c, w, Receipt(w.xfer.acked, final), x, ReceiptIfDue(c, w));
    }
  }

  // ------------------------------------------------------------------ receiving

  lemma TakenAttested(w: World, k: nat)
    requires Receipts(w) && k < |w.sends|
    ensures Attested(Taken(w, k))
  {
    var r := Taken(w, k);
    if r.server.proven > w.server.proven {
      assert IsReceipt(r, k, r.server.proven) && k in r.server.seen;
    } else if w.server.proven > 0 {
      var i :| 0 <= i < |w.sends| && i in w.server.seen && IsReceipt(w, i, w.server.proven);
      assert IsReceipt(r, i, r.server.proven) && i in r.server.seen;
    }
  }

  lemma TakenReceipts(w: World, k: nat)
    requires Receipts(w) && k < |w.sends|
    ensures Receipts(Taken(w, k))
  {
    var r := Taken(w, k);
    TakenAttested(w, k);
    if w.xfer.lastReceiptAt > 0 {
      var i :| 0 <= i < |w.sends| && IsReceipt(w, i, w.xfer.lastReceiptAt);
      assert IsReceipt(r, i, r.xfer.lastReceiptAt);
    }
  }

  lemma ArrivalReceipts(c: Config, w: World, k: nat, via: nat)
    requires Receipts(w) && k < |w.sends| && via < |w.mediums|
    ensures Receipts(FrameArrives(c, w, k, via))
  {
    var v := Delivered(w, via);
    assert Steady(w, v);
    SteadyKeeps(w, v);
    if k in w.server.seen {
      AckBackSteady(c, v, k, via);
      SteadyKeeps(v, AckBack(c, v, k, via));
    } else {
      AckThenDispatch(c, w, k, via);
      TakenReceipts(v, k);
      AckBackSteady(c, Taken(v, k), k, via);
      SteadyKeeps(Taken(v, k), AckBack(c, Taken(v, k), k, via));
    }
  }

  lemma ChunkAckedReceipts(c: Config, w: World, n: nat)
    requires Receipts(w) && n >= 1 && w.xfer.lastReceiptAt <= w.xfer.acked
    ensures Receipts(ChunkAcked(c, w, n)) && ChunkAcked(c, w, n).server == w.server
  {
    assert Steady(w, Counted(w, n));
    SteadyKeeps(w, Counted(w, n));
    DueReceipts(c, Counted(w, n));
    PumpReceipts(c, ReceiptIfDue(c, Counted(w, n)));
  }

  lemma CallbackReceipts(c: Config, w: World, p: Payload)
    requires Receipts(w) && (p.Data? ==> p.len >= 1) && w.xfer.lastReceiptAt <= w.xfer.acked
    ensures Receipts(OnAck(c, w, p)) && OnAck(c, w, p).server == w.server
  {
    if p.Data? {
      ChunkAckedReceipts(c, w, p.len);
    } else {
      assert Steady(w, OnAck(c, w, p));
      SteadyKeeps(w, OnAck(c, w, p));
    }
  }

  lemma AckReceipts(c: Config, b: nat, w: World, k: nat, via: nat)
    requires Receipts(w) && Inv(c, b, w) && k < |w.sends| && via < |w.mediums|
    ensures Receipts(AckArrives(c, w, k, via)) && AckArrives(c, w, k, via).server == w.server
  {
    var v := Delivered(w, via);
    assert Steady(w, v);
    SteadyKeeps(w, v);
    if w.sends[k].fate == Pending {
      assert ItemOk(b, w, k, w.sends[k]);
      ResolveSteady(v, k);
      SteadyKeeps(v, Resolve(v, k));
      CallbackReceipts(c, Resolve(v, k), v.sends[k].payload);
    }
  }

  // ------------------------------------------------------------------ one step

  lemma PoppedReceipts(w: World, i: nat)
    requires Receipts(w) && i < |w.queue|
    ensures Receipts(Popped(w, i)) && Popped(w, i).server == w.server
  {
    assert Steady(w, Popped(w, i));
    SteadyKeeps(w, Popped(w, i));
  }

  lemma FireReceipts(c: Config, b: nat, w: World, i: nat)
    requires Inv(c, b, w) && Receipts(w) && i < |w.queue| && EventInRange(w, w.queue[i].event)
    ensures Receipts(Fire(c, w, i))
    ensures !w.queue[i].event.Arrive? ==> Fire(c, w, i).server == w.server
  {
    var v := Popped(w, i);
    PoppedReceipts(w, i);
    match w.queue[i].event {
      case Retry(k) =>
        TxSteady(c, v, k);
        SteadyKeeps(v, Tx(c, v, k));
      case Timeout(k, _) =>
        TimeoutSteady(c, v, k);
        SteadyKeeps(v, TimeoutStep(c, v, k));
      case Arrive(k, via) => ArrivalReceipts(c, v, k, via);
      case AckArrive(k, via) =>
        PoppedInv(c, b, w, i);
        AckReceipts(c, b, v, k, via);
    }
  }

  lemma PoppedInv(c: Config, b: nat, w: World, i: nat)
    requires Inv(c, b, w) && i < |w.queue| && w.queue[i].event.AckArrive?
    ensures Inv(c, b, Popped(w, i))
  {
    PopKeeps(c, b, w, i);
  }

  lemma NextReceipts(c: Config, b: nat, w: World, s: Step)
    requires Inv(c, b, w) && Receipts(w) && Enabled(w, s)
    ensures Receipts(Next(c, w, s))
  {
    match s {
      case FireEvent(i) => FireReceipts(c, b, w, i);
      case SetUp(m, up) =>
        assert Steady(w, Next(c, w, s));
        SteadyKeeps(w, Next(c, w, s));
      case StartTransfer =>
        var started := w.(xfer := w.xfer.(started := true));
        assert Steady(w, started);
        SteadyKeeps(w, started);
        PumpReceipts(c, started);
      case Beat(n) =>
        assert w.(xfer := w.xfer) == w;
        SendReceipts(c, w, Telemetry(n), w.xfer, Next(c, w, s));
    }
  }

  lemma InitialReceipts(c: Config, mediums: seq<Medium>)
    ensures Receipts(Initial(c, mediums))
  {
    var w := World(0.0, 0, 0, [], mediums, [], Server(false, {}, 0, 0, 0, 0, 0), IDLE);
    assert Receipts(w) && w.(xfer := w.xfer) == w;
    SendReceipts(c, w, Join, w.xfer, Initial(c, mediums));
  }

  lemma {:induction false} RunReceipts(c: Config, b: nat, mediums: seq<Medium>, steps: seq<Step>)
    requires MtusWithin(b, mediums) && Run(c, mediums, steps).Some?
    ensures Receipts(Run(c, mediums, steps).value)
    decreases |steps|
  {
    if steps == [] {
      InitialReceipts(c, mediums);
    } else {
      var front, last := steps[..|steps| - 1], steps[|steps| - 1];
      assert steps == front + [last];
      RunUnfolds(c, mediums, front, last);
      RunReceipts(c, b, mediums, front);
      RunKeeps(c, b, mediums, front);
      NextReceipts(c, b, Run(c, mediums, front).value, last);
    }
  }

  // ------------------------------------------------------------------ what is proven

  /** The receipt sent last. */
  ghost predicate Newest(w: World, i: nat) {
    && i < |w.sends| && w.sends[i].payload.Receipt?
    && forall j :: i < j < |w.sends| ==> !w.sends[j].payload.Receipt?
  }

  /** Nothing is signed yet, or the receipt sent last has reached the node. */
  ghost predicate NewestSeen(w: World) { forall i :: Newest(w, i) ==> i in w.server.seen }

  lemma NewestSignsLast(w: World, i: nat)
    requires Receipts(w) && Newest(w, i)
    ensures IsReceipt(w, i, w.xfer.lastReceiptAt) && w.xfer.lastReceiptAt > 0
  {
    var j :| 0 <= j < |w.sends| && IsReceipt(w, j, w.xfer.lastReceiptAt);
  }

  lemma {:induction false} NewestExists(w: World, i: nat, n: nat) returns (j: nat)
    requires i < n <= |w.sends| && w.sends[i].payload.Receipt?
    requires forall k :: n <= k < |w.sends| ==> !w.sends[k].payload.Receipt?
    ensures Newest(w, j)
  {
    if w.sends[n - 1].payload.Receipt? {
      j := n - 1;
    } else {
      j := NewestExists(w, i, n - 1);
    }
  }

  lemma ProvenIsLastSigned(b: nat, w: World)
    requires Receipts(w) && Items(b, w) && w.server.proven <= w.xfer.lastReceiptAt
    ensures w.server.proven == w.xfer.lastReceiptAt <==> NewestSeen(w)
  {
    if NewestSeen(w) && w.xfer.lastReceiptAt > 0 {
      var i :| 0 <= i < |w.sends| && IsReceipt(w, i, w.xfer.lastReceiptAt);
      var j := NewestExists(w, i, |w.sends|);
      NewestSignsLast(w, j);
      assert ItemOk(b, w, j, w.sends[j]);
    }
    if w.server.proven == w.xfer.lastReceiptAt {
      forall j | Newest(w, j)
        ensures j in w.server.seen
      {
        NewestSignsLast(w, j);
        var i :| 0 <= i < |w.sends| && i in w.server.seen && IsReceipt(w, i, w.server.proven);
        assert i == j;
      }
    }
  }

  function Unproven(w: World): int { w.server.delivered - w.server.proven }

  /**
   In every reachable world everything signed is proven if and only if nothing is signed yet or the receipt sent last has
   reached the node; and then less than one interval and a window of chunks is delivered and unproven. Otherwise a
   lost receipt leaves more: see LostReceiptOutrunsWindow.
   */
  lemma ProvenIffNewestSeen(c: Config, b: nat, mediums: seq<Medium>, steps: seq<Step>)
    requires MtusWithin(b, mediums) && Run(c, mediums, steps).Some?
    ensures var w := Run(c, mediums, steps).value;
            && (w.server.proven == w.xfer.lastReceiptAt <==> NewestSeen(w))
            && (NewestSeen(w) && c.receiptEvery > 0 ==> Unproven(w) < c.receiptEvery + c.window * b)
  {
    RunKeeps(c, b, mediums, steps);
    RunReceipts(c, b, mediums, steps);
    ProvenIsLastSigned(b, Run(c, mediums, steps).value);
    ReceiptWindow(c, b, mediums, steps);
  }

  /** Two intervals are enough for what is delivered beyond the last signature when the window holds at most one. */
  lemma UnsignedWithinTwoIntervals(c: Config, b: nat, mediums: seq<Medium>, steps: seq<Step>)
    requires MtusWithin(b, mediums) && Run(c, mediums, steps).Some? && 0 < c.window * b <= c.receiptEvery
    ensures var w := Run(c, mediums, steps).value;
            && w.server.delivered - w.xfer.lastReceiptAt < 2 * c.receiptEvery
            && (NewestSeen(w) ==> Unproven(w) < 2 * c.receiptEvery)
  {
    ReceiptWindow(c, b, mediums, steps);
    ProvenIffNewestSeen(c, b, mediums, steps);
  }

  // ------------------------------------------------------------------ the peak

  /** max_unproven before and after one step. */
  ghost predicate PeakMoves(v: Server, r: Server) {
    && r.delivered >= v.delivered
    && (r.delivered == v.delivered ==> r.maxUnproven == v.maxUnproven)
    && (r.delivered > v.delivered ==>
          r.maxUnproven == if r.delivered - r.proven > v.maxUnproven then r.delivered - r.proven else v.maxUnproven)
  }

  lemma DispatchPeak(v: Server, p: Payload)
    ensures PeakMoves(v, Dispatch(v, p)) || p == Data(0)
  {}

  lemma ArrivalPeak(c: Config, b: nat, w: World, k: nat, via: nat)
    requires Items(b, w) && k < |w.sends| && via < |w.mediums|
    ensures PeakMoves(w.server, FrameArrives(c, w, k, via).server)
  {
    assert ItemOk(b, w, k, w.sends[k]);
    var v := Delivered(w, via);
    if k in w.server.seen {
      AckBackSteady(c, v, k, via);
    } else {
      AckThenDispatch(c, w, k, via);
      AckBackSteady(c, Taken(v, k), k, via);
      DispatchPeak(v.server.(seen := v.server.seen + {k}), v.sends[k].payload);
    }
  }

  lemma NextPeak(c: Config, b: nat, w: World, s: Step)
    requires Inv(c, b, w) && Receipts(w) && Enabled(w, s)
    ensures PeakMoves(w.server, Next(c, w, s).server)
  {
    match s {
      case FireEvent(i) =>
        FireReceipts(c, b, w, i);
        if w.queue[i].event.Arrive? {
          ArrivalPeak(c, b, Popped(w, i), w.queue[i].event.k, w.queue[i].event.via);
        }
      case SetUp(m, up) =>
      case StartTransfer =>
        SteadyKeeps(w, w.(xfer := w.xfer.(started := true)));
        PumpReceipts(c, w.(xfer := w.xfer.(started := true)));
      case Beat(n) =>
        assert w.(xfer := w.xfer) == w;
        SendReceipts(c, w, Telemetry(n), w.xfer, Next(c, w, s));
    }
  }

  lemma RunFront(c: Config, mediums: seq<Medium>, steps: seq<Step>, n: nat)
    requires Run(c, mediums, steps).Some? && n <= |steps|
    ensures Run(c, mediums, steps[..n]).Some?
    decreases |steps|
  {
    if n == |steps| {
      assert steps[..n] == steps;
    } else {
      var front := steps[..|steps| - 1];
      assert steps == front + [steps[|steps| - 1]];
      RunUnfolds(c, mediums, front, steps[|steps| - 1]);
      RunFront(c, mediums, front, n);
      assert front[..n] == steps[..n];
    }
  }

  function UnprovenAt(c: Config, mediums: seq<Medium>, steps: seq<Step>, n: nat): int
    requires n <= |steps|
  {
    match Run(c, mediums, steps[..n]) case None => 0 case Some(w) => Unproven(w)
  }

  /** max is the largest value of delivered less proven at any moment of the run so far. */
  ghost predicate IsPeak(c: Config, mediums: seq<Medium>, steps: seq<Step>, max: int) {
    && (forall n :: 0 <= n <= |steps| ==> UnprovenAt(c, mediums, steps, n) <= max)
    && (exists n :: 0 <= n <= |steps| && UnprovenAt(c, mediums, steps, n) == max)
  }

  lemma UnprovenKept(c: Config, mediums: seq<Medium>, front: seq<Step>, s: Step, m: nat)
    requires m <= |front|
    ensures UnprovenAt(c, mediums, front + [s], m) == UnprovenAt(c, mediums, front, m)
  {
    assert (front + [s])[..m] == front[..m];
  }

  lemma UnprovenNow(c: Config, mediums: seq<Medium>, steps: seq<Step>)
    requires Run(c, mediums, steps).Some?
    ensures UnprovenAt(c, mediums, steps, |steps|) == Unproven(Run(c, mediums, steps).value)
  {
    assert steps[..|steps|] == steps;
  }

  lemma PeakNext(c: Config, mediums: seq<Medium>, front: seq<Step>, s: Step, v: Server, r: Server)
    requires IsPeak(c, mediums, front, v.maxUnproven) && PeakMoves(v, r)
    requires UnprovenAt(c, mediums, front + [s], |front| + 1) == r.delivered - r.proven <= r.maxUnproven
    ensures IsPeak(c, mediums, front + [s], r.maxUnproven)
  {
    forall m | 0 <= m <= |front| + 1
      ensures UnprovenAt(c, mediums, front + [s], m) <= r.maxUnproven
    {
      if m <= |front| {
        UnprovenKept(c, mediums, front, s, m);
      }
    }
    if r.maxUnproven == v.maxUnproven {
      var m :| 0 <= m <= |front| && UnprovenAt(c, mediums, front, m) == v.maxUnproven;
      UnprovenKept(c, mediums, front, s, m);
    }
  }

  lemma InitialPeak(c: Config, mediums: seq<Medium>)
    ensures IsPeak(c, mediums, [], Initial(c, mediums).server.maxUnproven)
  {
    var w := World(0.0, 0, 0, [], mediums, [], Server(false, {}, 0, 0, 0, 0, 0), IDLE);
    assert Receipts(w) && w.(xfer := w.xfer) == w;
    SendReceipts(c, w, Join, w.xfer, Initial(c, mediums));
    var none: seq<Step> := [];
    assert none[..0] == [] && UnprovenAt(c, mediums, none, 0) == 0;
  }

  /** The node's max_unproven is exactly the largest delivered less proven of any moment of the run. */
  lemma {:induction false} MaxUnprovenIsPeak(c: Config, b: nat, mediums: seq<Medium>, steps: seq<Step>)
    requires MtusWithin(b, mediums) && Run(c, mediums, steps).Some?
    ensures IsPeak(c, mediums, steps, Run(c, mediums, steps).value.server.maxUnproven)
    decreases |steps|
  {
    if steps == [] {
      InitialPeak(c, mediums);
    } else {
      var front, last := steps[..|steps| - 1], steps[|steps| - 1];
      assert steps == front + [last];
      RunUnfolds(c, mediums, front, last);
      MaxUnprovenIsPeak(c, b, mediums, front);
      RunKeeps(c, b, mediums, front);
      RunReceipts(c, b, mediums, front);
      RunReceipts(c, b, mediums, steps);
      NextPeak(c, b, Run(c, mediums, front).value, last);
      UnprovenNow(c, mediums, steps);
      PeakNext(c, mediums, front, last, Run(c, mediums, front).value.server, Run(c, mediums, steps).value.server);
    }
  }

  ghost predicate NewestSeenAt(c: Config, mediums: seq<Medium>, steps: seq<Step>, n: nat)
    requires n <= |steps|
  {
    match Run(c, mediums, steps[..n]) case None => false case Some(w) => NewestSeen(w)
  }

  ghost predicate DeliversAt(c: Config, mediums: seq<Medium>, steps: seq<Step>, n: nat)
    requires 0 < n <= |steps|
  {
    match (Run(c, mediums, steps[..n - 1]), Run(c, mediums, steps[..n]))
    case (Some(v), Some(w)) => w.server.delivered > v.server.delivered
    case _ => false
  }

  /** Whenever the node takes a chunk, it has the receipt sent last. */
  ghost predicate Prompt(c: Config, mediums: seq<Medium>, steps: seq<Step>) {
    forall n :: 0 < n <= |steps| && DeliversAt(c, mediums, steps, n) ==> NewestSeenAt(c, mediums, steps, n)
  }

  lemma PromptFront(c: Config, mediums: seq<Medium>, front: seq<Step>, s: Step)
    requires Prompt(c, mediums, front + [s])
    ensures Prompt(c, mediums, front)
  {
    forall n | 0 < n <= |front| && DeliversAt(c, mediums, front, n)
      ensures NewestSeenAt(c, mediums, front, n)
    {
      assert (front + [s])[..n] == front[..n] && (front + [s])[..n - 1] == front[..n - 1];
      assert DeliversAt(c, mediums, front + [s], n);
    }
  }

  lemma PromptLast(c: Config, mediums: seq<Medium>, front: seq<Step>, s: Step, v: World, r: World)
    requires Prompt(c, mediums, front + [s]) && Run(c, mediums, front) == Some(v) && Run(c, mediums, front + [s]) == Some(r)
    ensures r.server.delivered > v.server.delivered ==> NewestSeen(r)
  {
    var steps := front + [s];
    assert steps[..|steps|] == steps && steps[..|steps| - 1] == front;
    if r.server.delivered > v.server.delivered {
      assert DeliversAt(c, mediums, steps, |steps|);
    }
  }

  lemma MaxUnprovenInRange(c: Config, b: nat, mediums: seq<Medium>, steps: seq<Step>)
    requires MtusWithin(b, mediums) && Run(c, mediums, steps).Some?
    ensures 0 <= Unproven(Run(c, mediums, steps).value) <= Run(c, mediums, steps).value.server.maxUnproven <= c.total
  {
    RunReceipts(c, b, mediums, steps);
    CountersOrdered(c, b, mediums, steps);
    MaxUnprovenIsPeak(c, b, mediums, steps);
    var n :| 0 <= n <= |steps| && UnprovenAt(c, mediums, steps, n) == Run(c, mediums, steps).value.server.maxUnproven;
    RunFront(c, mediums, steps, n);
    CountersOrdered(c, b, mediums, steps[..n]);
  }

  lemma PeakBelow(c: Config, b: nat, mediums: seq<Medium>, front: seq<Step>, s: Step, v: World, r: World, bound: int)
    requires MtusWithin(b, mediums) && Run(c, mediums, front) == Some(v) && Run(c, mediums, front + [s]) == Some(r)
    requires v.server.maxUnproven < bound && (r.server.delivered > v.server.delivered ==> Unproven(r) < bound)
    ensures r.server.maxUnproven < bound
  {
    RunUnfolds(c, mediums, front, s);
    RunKeeps(c, b, mediums, front);
    RunReceipts(c, b, mediums, front);
    NextPeak(c, b, v, s);
  }

  /**
   If the receipt sent last has reached the node whenever it takes a chunk, its max_unproven stays below one interval and
   a window of chunks.
   */
  lemma {:induction false} MaxUnprovenBounded(c: Config, b: nat, mediums: seq<Medium>, steps: seq<Step>)
    requires MtusWithin(b, mediums) && Run(c, mediums, steps).Some? && c.receiptEvery > 0 && Prompt(c, mediums, steps)
    ensures Run(c, mediums, steps).value.server.maxUnproven < c.receiptEvery + c.window * b
    decreases |steps|
  {
    if steps == [] {
      InitialPeak(c, mediums);
      Scaled(0, c.window, b);
    } else {
      var front, last := steps[..|steps| - 1], steps[|steps| - 1];
      assert steps == front + [last];
      RunUnfolds(c, mediums, front, last);
      PromptFront(c, mediums, front, last);
      MaxUnprovenBounded(c, b, mediums, front);
      ProvenIffNewestSeen(c, b, mediums, steps);
      PromptLast(c, mediums, front, last, Run(c, mediums, front).value, Run(c, mediums, steps).value);
      PeakBelow(c, b, mediums, front, last, Run(c, mediums, front).value, Run(c, mediums, steps).value,
                c.receiptEvery + c.window * b);
    }
  }

  // ------------------------------------------------------------------ how a transfer ends

  /** The final receipt was sent and given up on. */
  ghost predicate FinalReceiptFailed(c: Config, w: World) {
    exists k :: 0 <= k < |w.sends| && w.sends[k].payload == Receipt(c.total, true) && w.sends[k].fate == Failed
  }

  predicate IsFinal(p: Payload) { p.Receipt? && p.final }

  ghost predicate OneFinalReceipt(w: World) {
    forall i, j :: 0 <= i < |w.sends| && 0 <= j < |w.sends| && IsFinal(w.sends[i].payload) && IsFinal(w.sends[j].payload) ==>
      i == j
  }

  lemma FailedIff(c: Config, w: World)
    requires Receipts(w) && Progress(c, w)
    ensures w.xfer.failed <==> DataFailed(w)
    ensures OneFinalReceipt(w)
  {}

  /** With a final receipt on its way nothing was lost. */
  lemma FinalMeansAllAcked(c: Config, b: nat, w: World)
    requires Inv(c, b, w) && Receipts(w) && FinalReceiptSent(c, w)
    ensures !w.xfer.failed
  {
    FailedIff(c, w);
    AckedWithinTotal(c, w);
    var k :| 0 <= k < |w.sends| && w.sends[k].payload == Receipt(c.total, true);
    assert ItemOk(b, w, k, w.sends[k]);
    if DataFailed(w) {
      var j :| 0 <= j < |w.sends| && w.sends[j].payload.Data? && w.sends[j].fate == Failed;
      assert ItemOk(b, w, j, w.sends[j]);
      GapIsOpen(w, j);
    }
  }

  lemma LosslessEnds(c: Config, w: World)
    requires Books(w) && Progress(c, w) && Signed(c, w) && w.xfer.started && c.total > 0 && c.window > 0 && !DataFailed(w)
    requires forall k :: 0 <= k < |w.sends| ==> w.sends[k].fate != Pending
    ensures FinalReceiptSent(c, w)
  {
    AllAcked(w);
  }

  /**
   How a started transfer ends, once no event is left: it is marked failed if and only if a chunk was given up on; there is
   at most one final receipt; and it is neither done nor marked failed if and only if that receipt was given up on, because
   it is sent without a failure callback.
   */
  lemma DrainedTransferOutcome(c: Config, b: nat, mediums: seq<Medium>, steps: seq<Step>)
    requires MtusWithin(b, mediums) && Run(c, mediums, steps).Some?
    requires Run(c, mediums, steps).value.queue == [] && Run(c, mediums, steps).value.xfer.started
    requires c.total > 0 && c.window > 0
    ensures var w := Run(c, mediums, steps).value;
            && (w.xfer.failed <==> DataFailed(w)) && OneFinalReceipt(w)
            && !(w.xfer.doneAt.Some? && w.xfer.failed)
            && (w.xfer.doneAt.Some? || w.xfer.failed <==> !FinalReceiptFailed(c, w))
  {
    RunKeeps(c, b, mediums, steps);
    RunReceipts(c, b, mediums, steps);
    DrainedMeansResolved(c, b, mediums, steps);
    DrainedEnds(c, b, Run(c, mediums, steps).value);
  }

  lemma DrainedEnds(c: Config, b: nat, w: World)
    requires Inv(c, b, w) && Receipts(w) && w.xfer.started && c.total > 0 && c.window > 0
    requires forall k :: 0 <= k < |w.sends| ==> w.sends[k].fate != Pending
    ensures (w.xfer.failed <==> DataFailed(w)) && OneFinalReceipt(w)
    ensures !(w.xfer.doneAt.Some? && w.xfer.failed)
    ensures w.xfer.doneAt.Some? || w.xfer.failed <==> !FinalReceiptFailed(c, w)
  {
    FailedIff(c, w);
    if !DataFailed(w) {
      LosslessEnds(c, w);
    }
    if FinalReceiptSent(c, w) {
      FinalMeansAllAcked(c, b, w);
    }
  }
}
