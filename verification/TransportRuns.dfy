/** Two short runs of the transport, events in the order of their times: a lost receipt, and a final receipt given up on. */
module TransportRuns {
  import opened Options
  import opened Mediums
  import opened Sums
  import opened Transport
  import opened TransportTheorems
  import opened TransportReceipts

  /** Every event of the run was the earliest when it fired. */
  ghost predicate InTime(c: Config, mediums: seq<Medium>, steps: seq<Step>) {
    steps == [] ||
    var front, s := steps[..|steps| - 1], steps[|steps| - 1];
    && InTime(c, mediums, front)
    && match Run(c, mediums, front)
       case None => false
       case Some(w) => s.FireEvent? ==> Earliest(w.queue, s.i)
  }

  /** The steps lead to w, in time. */
  ghost predicate Reaches(c: Config, mediums: seq<Medium>, steps: seq<Step>, w: World) {
    Run(c, mediums, steps) == Some(w) && InTime(c, mediums, steps)
  }

  lemma Goes(c: Config, mediums: seq<Medium>, front: seq<Step>, s: Step, v: World)
    requires Reaches(c, mediums, front, v) && Enabled(v, s) && (s.FireEvent? ==> Earliest(v.queue, s.i))
    ensures Reaches(c, mediums, front + [s], Next(c, v, s))
  {
    assert (front + [s])[..|front|] == front;
  }

  // ------------------------------------------------------------------ one medium at 1000 bytes a second

  predicate Radio(m: Medium, busy: real) {
    && m.bps == 8000.0 && m.loss == 0.5 && m.latency == 0.01 && m.mtu == 128
    && m.up && m.quarantineUntil <= 0.0 && m.failStreak == 0 && m.busyUntil == busy
  }

  lemma AirOf(m: Medium, n: nat)
    requires m.bps == 8000.0
    ensures AirtimeFor(m, n) == n as real / 1000.0
  {}

  /** A world with one such medium. */
  predicate OneRadio(w: World, busy: real) { |w.mediums| == 1 && Radio(w.mediums[0], busy) && w.now >= 0.0 }

  lemma OnlyChoice(ms: seq<Medium>, now: real)
    requires |ms| == 1
    ensures Best(ms, now) == if Live(ms[0], now) then Some(0) else None
  {
    assert Best(ms[..0], now) == None;
  }

  predicate Is(t: Timed, at: real, ev: Event) { t.at == at && t.event == ev }

  function TimerAt(now: real, end: real): real { now + ((end + 0.01 - now) * 2.0 + 0.09) }

  /** From w to r, send k went on the air until `end`, and its arrival (unless lost) and its timer into the bag. */
  ghost predicate OnAir(w: World, r: World, k: nat, tries: nat, lost: bool, end: real) {
    && OneRadio(r, end) && r.now == w.now && r.draws == w.draws + 1 && r.server == w.server && r.xfer == w.xfer
    && |r.queue| == |w.queue| + (if lost then 1 else 2) && r.queue[..|w.queue|] == w.queue
    && (!lost ==> Is(r.queue[|w.queue|], end + 0.01, Arrive(k, 0)))
    && Is(r.queue[|r.queue| - 1], TimerAt(w.now, end), Timeout(k, tries))
  }

  /** One transmission of send k: the airtime starts when the medium is free. */
  lemma Transmits(c: Config, w: World, k: nat, busy: real, n: nat, end: real)
    requires OneRadio(w, busy) && k < |w.sends| && w.sends[k].fate == Pending && WireSize(w.sends[k].payload) == n
    requires end == MaxReal(w.now, busy) + n as real / 1000.0
    ensures OnAir(w, Tx(c, w, k), k, w.sends[k].tries + 1, c.rng(w.draws) < 0.5, end)
    ensures Tx(c, w, k).sends == w.sends[k := w.sends[k].(tries := w.sends[k].tries + 1, medium := Some(0))]
  {
    OnlyChoice(w.mediums, w.now);
    AirOf(w.mediums[0], n);
    assert AirEnd(w, k, 0) == end;
  }

  /** A new payload handed to the node. */
  function Entry(p: Payload): Send { Send(p, Pending, 1, 0, Some(0), 0, 0, 0) }

  lemma SendsNow(c: Config, w: World, p: Payload, busy: real, n: nat, end: real)
    requires OneRadio(w, busy) && WireSize(p) == n && end == MaxReal(w.now, busy) + n as real / 1000.0
    ensures OnAir(w, SendPayload(c, w, p), |w.sends|, 1, c.rng(w.draws) < 0.5, end)
    ensures SendPayload(c, w, p).sends == w.sends + [Entry(p)]
  {
    Transmits(c, w.(sends := w.sends + [Send(p, Pending, 0, 0, None, 0, 0, 0)]), |w.sends|, busy, n, end);
  }

  /** The first arrival of frame k over the radio, its acknowledgement not lost. */
  lemma Arrives(c: Config, w: World, i: nat, k: nat, busy: real)
    requires OneRadio(w, busy) && i < |w.queue| && w.queue[i].event == Arrive(k, 0) && k < |w.sends| && k !in w.server.seen
    requires w.queue[i].at >= 0.0 && c.rng(w.draws) >= 0.5
    ensures var r, q := Fire(c, w, i), Without(w.queue, i);
            && OneRadio(r, busy) && r.now == w.queue[i].at && r.draws == w.draws + 1
            && r.server == Dispatch(w.server.(seen := w.server.seen + {k}), w.sends[k].payload) && r.xfer == w.xfer
            && r.sends == w.sends[k := w.sends[k].(dispatched := w.sends[k].dispatched + 1)]
            && |r.queue| == |w.queue| && r.queue[..|q|] == q && Is(r.queue[|q|], r.now + 0.043, AckArrive(k, 0))
  {
    AirOf(Delivered(Popped(w, i), 0).mediums[0], OVERHEAD + 4);
  }

  /** The timer of a send that is no longer pending does nothing. */
  lemma StaleTimer(c: Config, w: World, i: nat)
    requires i < |w.queue| && w.queue[i].event.Timeout? && w.queue[i].event.k < |w.sends|
    requires w.sends[w.queue[i].event.k].fate != Pending
    ensures Fire(c, w, i) == Popped(w, i)
  {}

  /** A first acknowledgement, up to the callback. */
  lemma Acknowledged(c: Config, w: World, i: nat, k: nat, v: World)
    requires |w.mediums| == 1 && i < |w.queue| && w.queue[i].event == AckArrive(k, 0) && k < |w.sends|
    requires w.sends[k].fate == Pending && w.sends[k].medium == Some(0)
    requires v == Resolve(Delivered(Popped(w, i), 0), k)
    ensures Fire(c, w, i) == OnAck(c, v, w.sends[k].payload)
    ensures v.queue == Without(w.queue, i) && v.now == w.queue[i].at && v.order == w.order && v.draws == w.draws
    ensures v.server == w.server && v.xfer == w.xfer && |v.mediums| == 1
    ensures v.sends == w.sends[k := w.sends[k].(fate := Acked, acks := w.sends[k].acks + 1)]
    ensures var m, n := w.mediums[0], v.mediums[0];
            n == m.(deliveredFrames := n.deliveredFrames, lossEwma := n.lossEwma, failStreak := 0)
  {}

  // ------------------------------------------------------------------ one chunk, as far as the serving node

  /** A window of one chunk and a receipt for every byte. */
  ghost predicate OneByOne(c: Config, mediums: seq<Medium>, n: nat) {
    && c.window == 1 && c.receiptEvery == 1 && 1 <= n <= 128 && n <= c.total && (n < 128 ==> n == c.total)
    && |mediums| == 1 && Radio(mediums[0], 0.0) && forall i :: 0 <= i < 4 ==> c.rng(i) >= 0.5
  }

  /** The join request is on the air. */
  ghost predicate Joining(w: World) {
    && OneRadio(w, 0.125) && w.now == 0.0 && w.draws == 1 && |w.sends| == 1 && w.sends[0] == Entry(Join)
    && |w.queue| == 2 && Is(w.queue[0], 0.135, Arrive(0, 0)) && Is(w.queue[1], 0.36, Timeout(0, 1))
    && w.server == Server(false, {}, 0, 0, 0, 0, 0) && w.xfer == IDLE
  }

  /** It has arrived, and its acknowledgement is on the air. */
  ghost predicate Admitted(w: World) {
    && OneRadio(w, 0.125) && w.now == 0.135 && w.draws == 2 && |w.sends| == 1 && w.sends[0] == Entry(Join).(dispatched := 1)
    && |w.queue| == 2 && Is(w.queue[0], 0.36, Timeout(0, 1)) && Is(w.queue[1], 0.178, AckArrive(0, 0))
    && w.server == Server(true, {0}, 0, 0, 0, 0, 0) && w.xfer == IDLE
  }

  ghost predicate Joined(w: World) {
    && OneRadio(w, 0.125) && w.now == 0.178 && w.draws == 2 && |w.sends| == 1 && w.sends[0].fate == Acked
    && |w.queue| == 1 && Is(w.queue[0], 0.36, Timeout(0, 1))
    && w.server == Server(true, {0}, 0, 0, 0, 0, 0) && w.xfer == IDLE
  }

  /** When the first chunk, of n bytes, has left the air. */
  function FirstEnd(n: nat): real { 0.178 + (OVERHEAD + n) as real / 1000.0 }

  /** The first chunk is on the air. */
  ghost predicate Started(w: World, n: nat) {
    && OneRadio(w, FirstEnd(n)) && w.now == 0.178 && w.draws == 3
    && |w.sends| == 2 && w.sends[0].fate == Acked && w.sends[1] == Entry(Data(n))
    && |w.queue| == 3 && Is(w.queue[0], 0.36, Timeout(0, 1)) && Is(w.queue[1], FirstEnd(n) + 0.01, Arrive(1, 0))
    && Is(w.queue[2], TimerAt(0.178, FirstEnd(n)), Timeout(1, 1))
    && w.server == Server(true, {0}, 0, 0, 0, 0, 0) && w.xfer == Transfer(true, n, 0, 1, 0, 0, None, false)
  }

  /** The node has it, and its acknowledgement is on the air. */
  ghost predicate Served(w: World, n: nat) {
    && OneRadio(w, FirstEnd(n)) && w.now == FirstEnd(n) + 0.01 && w.draws == 4
    && |w.sends| == 2 && w.sends[0].fate == Acked && w.sends[1] == Entry(Data(n)).(dispatched := 1)
    && |w.queue| == 3 && Is(w.queue[0], 0.36, Timeout(0, 1)) && Is(w.queue[1], TimerAt(0.178, FirstEnd(n)), Timeout(1, 1))
    && Is(w.queue[2], w.now + 0.043, AckArrive(1, 0))
    && w.server == Server(true, {0, 1}, n, 0, n, 0, 0) && w.xfer == Transfer(true, n, 0, 1, 0, 0, None, false)
  }

  lemma JoinGoesOut(c: Config, mediums: seq<Medium>, n: nat)
    requires OneByOne(c, mediums, n)
    ensures Joining(Initial(c, mediums)) && Reaches(c, mediums, [], Initial(c, mediums))
  {
    var w := World(0.0, 0, 0, [], mediums, [], Server(false, {}, 0, 0, 0, 0, 0), IDLE);
    assert OneRadio(w, 0.0) && c.rng(0) >= 0.5;
    SendsNow(c, w, Join, 0.0, 125, 0.125);
  }

  lemma JoinArrives(c: Config, mediums: seq<Medium>, n: nat, w: World)
    requires OneByOne(c, mediums, n) && Joining(w)
    ensures Earliest(w.queue, 0) && Admitted(Fire(c, w, 0))
  {
    assert c.rng(1) >= 0.5;
    Arrives(c, w, 0, 0, 0.125);
    assert Without(w.queue, 0) == [w.queue[1]];
  }

  lemma JoinAcknowledged(c: Config, w: World)
    requires Admitted(w)
    ensures Earliest(w.queue, 1) && Joined(Fire(c, w, 1))
  {
    Acknowledged(c, w, 1, 0, Resolve(Delivered(Popped(w, 1), 0), 0));
    assert Without(w.queue, 1) == [w.queue[0]];
  }

  lemma ChunkGoesOut(c: Config, mediums: seq<Medium>, n: nat, w: World)
    requires OneByOne(c, mediums, n) && Joined(w)
    ensures Enabled(w, StartTransfer) && Started(Next(c, w, StartTransfer), n)
  {
    var v := w.(xfer := w.xfer.(started := true));
    var x := v.(xfer := v.xfer.(offset := n, outstanding := 1));
    OnlyChoice(v.mediums, v.now);
    assert ChunkSize(c, v) == n && c.rng(2) >= 0.5;
    SendsNow(c, x, Data(n), 0.125, OVERHEAD + n, FirstEnd(n));
    assert SendChunk(c, v, n) == SendPayload(c, x, Data(n));
    assert Pump(c, v) == Pump(c, SendChunk(c, v, n)) == SendChunk(c, v, n);
  }

  lemma ChunkArrives(c: Config, mediums: seq<Medium>, n: nat, w: World)
    requires OneByOne(c, mediums, n) && Started(w, n)
    ensures Earliest(w.queue, 1) && Served(Fire(c, w, 1), n)
  {
    assert c.rng(3) >= 0.5;
    Arrives(c, w, 1, 1, FirstEnd(n));
    assert Without(w.queue, 1) == [w.queue[0], w.queue[2]];
  }

  const FIRST_CHUNK: seq<Step> := [FireEvent(0)] + [FireEvent(1)] + [StartTransfer] + [FireEvent(1)]

  lemma ChunkServed(c: Config, mediums: seq<Medium>, n: nat) returns (w: World)
    requires OneByOne(c, mediums, n)
    ensures Reaches(c, mediums, FIRST_CHUNK, w) && Served(w, n)
  {
    w := Initial(c, mediums);
    JoinGoesOut(c, mediums, n);
    JoinArrives(c, mediums, n, w);
    Goes(c, mediums, [], FireEvent(0), w);
    assert [] + [FireEvent(0)] == [FireEvent(0)];
    w := Fire(c, w, 0);
    JoinAcknowledged(c, w);
    Goes(c, mediums, [FireEvent(0)], FireEvent(1), w);
    w := Fire(c, w, 1);
    ChunkGoesOut(c, mediums, n, w);
    Goes(c, mediums, [FireEvent(0)] + [FireEvent(1)], StartTransfer, w);
    w := Next(c, w, StartTransfer);
    ChunkArrives(c, mediums, n, w);
    Goes(c, mediums, [FireEvent(0)] + [FireEvent(1)] + [StartTransfer], FireEvent(1), w);
    w := Fire(c, w, 1);
  }

  // ------------------------------------------------------------------ a lost receipt

  /** The first acknowledgement is in: the receipt for it is lost, and the second chunk is on the air. */
  ghost predicate Outrun(w: World) {
    && OneRadio(w, 0.682) && w.draws == 6 && w.now == 0.388
    && |w.sends| == 4 && w.sends[1].fate == Acked && w.sends[2] == Entry(Receipt(128, false)) && w.sends[3] == Entry(Data(128))
    && |w.queue| == 4 && Is(w.queue[0], 0.602, Timeout(1, 1)) && Is(w.queue[1], 0.772, Timeout(2, 1))
    && Is(w.queue[2], 0.692, Arrive(3, 0)) && Is(w.queue[3], 1.086, Timeout(3, 1))
    && w.server == Server(true, {0, 1}, 128, 0, 128, 0, 0) && w.xfer == Transfer(true, 256, 128, 1, 128, 1, None, false)
  }

  /** The fourth draw after the first chunk's is the receipt's: it is lost, and the next chunk is not. */
  ghost predicate LosesReceipt(c: Config) { c.total == 384 && c.rng(4) < 0.5 && c.rng(5) >= 0.5 && c.rng(6) >= 0.5 }

  lemma TimerPasses(c: Config, w: World)
    requires Served(w, 128)
    ensures Earliest(w.queue, 0) && Fire(c, w, 0) == Popped(w, 0)
  {
    StaleTimer(c, w, 0);
  }

  lemma ReceiptLost(c: Config, mediums: seq<Medium>, w: World, v: World)
    requires OneByOne(c, mediums, 128) && LosesReceipt(c) && Served(w, 128) && v == Popped(w, 0)
    ensures Earliest(v.queue, 1) && Outrun(Fire(c, v, 1))
  {
    assert Without(w.queue, 0) == [w.queue[1], w.queue[2]];
    var acked := Resolve(Delivered(Popped(v, 1), 0), 1);
    Acknowledged(c, v, 1, 1, acked);
    assert Without(v.queue, 1) == [w.queue[1]];
    var due := Counted(acked, 128);
    assert OnAck(c, acked, Data(128)) == Pump(c, ReceiptIfDue(c, due));
    var signed := due.(xfer := due.xfer.(lastReceiptAt := 128, receiptsSent := 1));
    SendsNow(c, signed, Receipt(128, false), 0.335, 137, 0.525);
    assert ReceiptIfDue(c, due) == SendPayload(c, signed, Receipt(128, false));
    NextChunk(c, ReceiptIfDue(c, due));
  }

  /** The pump sends the second chunk while the receipt's timer runs. */
  lemma NextChunk(c: Config, w: World)
    requires c.window == 1 && c.total == 384 && c.rng(5) >= 0.5 && OneRadio(w, 0.525) && w.now == 0.388 && w.draws == 5
    requires w.xfer == Transfer(true, 128, 128, 0, 128, 1, None, false) && |w.sends| == 3
    ensures var r := Pump(c, w);
            && OneRadio(r, 0.682) && r.now == w.now && r.draws == 6 && r.server == w.server
            && r.xfer == Transfer(true, 256, 128, 1, 128, 1, None, false) && r.sends == w.sends + [Entry(Data(128))]
            && |r.queue| == |w.queue| + 2 && r.queue[..|w.queue|] == w.queue
            && Is(r.queue[|w.queue|], 0.692, Arrive(3, 0)) && Is(r.queue[|w.queue| + 1], 1.086, Timeout(3, 1))
  {
    var x := w.(xfer := w.xfer.(offset := 256, outstanding := 1));
    OnlyChoice(w.mediums, w.now);
    assert ChunkSize(c, w) == 128;
    SendsNow(c, x, Data(128), 0.525, 157, 0.682);
    assert SendChunk(c, w, 128) == SendPayload(c, x, Data(128));
    assert Pump(c, w) == Pump(c, SendChunk(c, w, 128)) == SendChunk(c, w, 128);
  }

  lemma SecondChunkServed(c: Config, w: World, v: World)
    requires LosesReceipt(c) && Outrun(w) && v == Popped(w, 0)
    ensures Earliest(w.queue, 0) && Fire(c, w, 0) == v
    ensures Earliest(v.queue, 1) && Enabled(v, FireEvent(1))
    ensures var r := Fire(c, v, 1);
            Unproven(r) == 256 && r.server.maxUnproven == 256 && r.xfer.lastReceiptAt == 128
  {
    StaleTimer(c, w, 0);
    assert Without(w.queue, 0) == [w.queue[1], w.queue[2], w.queue[3]];
    Arrives(c, v, 1, 3, 0.682);
  }

  const OUTRUN: seq<Step> := FIRST_CHUNK + [FireEvent(0)] + [FireEvent(1)] + [FireEvent(0)] + [FireEvent(1)]

  /**
   A lost receipt does not stop the pump. With one medium of 128-byte frames, a window of one and a receipt for every
   chunk, losing only the first receipt leaves 256 bytes delivered and unproven: more than one interval and the window
   (129), and more than two intervals (2).
   */
  lemma LostReceiptOutrunsWindow(c: Config, mediums: seq<Medium>)
    requires OneByOne(c, mediums, 128) && LosesReceipt(c)
    ensures InTime(c, mediums, OUTRUN) && Run(c, mediums, OUTRUN).Some?
    ensures var w := Run(c, mediums, OUTRUN).value;
            Unproven(w) == w.server.maxUnproven == 256 > c.receiptEvery + c.window * 128 && 256 > 2 * c.receiptEvery
  {
    var w := ChunkServed(c, mediums, 128);
    TimerPasses(c, w);
    Goes(c, mediums, FIRST_CHUNK, FireEvent(0), w);
    ReceiptLost(c, mediums, w, Popped(w, 0));
    w := Popped(w, 0);
    Goes(c, mediums, FIRST_CHUNK + [FireEvent(0)], FireEvent(1), w);
    w := Fire(c, w, 1);
    SecondChunkServed(c, w, Popped(w, 0));
    Goes(c, mediums, FIRST_CHUNK + [FireEvent(0)] + [FireEvent(1)], FireEvent(0), w);
    w := Popped(w, 0);
    Goes(c, mediums, FIRST_CHUNK + [FireEvent(0)] + [FireEvent(1)] + [FireEvent(0)], FireEvent(1), w);
  }

  // ------------------------------------------------------------------ a final receipt given up on

  /** The only medium is down, and the final receipt of a one-byte transfer has waited so often for it. */
  ghost predicate Waiting(w: World, waits: nat) {
    && |w.mediums| == 1 && !w.mediums[0].up && |w.sends| == 3 && w.sends[0].fate == Acked && w.sends[1].fate == Acked
    && w.sends[2] == Send(Receipt(1, true), Pending, 0, waits, None, 0, 0, 0)
    && w.xfer == Transfer(true, 1, 1, 0, 1, 1, None, false)
  }

  ghost predicate OnlyWait(w: World) { |w.queue| == 1 && w.queue[0].event == Retry(2) }

  lemma AckWhileDown(c: Config, mediums: seq<Medium>, w: World, v: World)
    requires OneByOne(c, mediums, 1) && c.total == 1 && Served(w, 1) && v == Next(c, w, SetUp(0, false))
    ensures Earliest(v.queue, 2) && Enabled(v, FireEvent(2))
    ensures var r := Fire(c, v, 2);
            && Waiting(r, 1) && |r.queue| == 3 && Is(r.queue[0], 0.36, Timeout(0, 1)) && Is(r.queue[1], 0.348, Timeout(1, 1))
            && Is(r.queue[2], 0.511, Retry(2))
  {
    var acked := Resolve(Delivered(Popped(v, 2), 0), 1);
    Acknowledged(c, v, 2, 1, acked);
    assert Without(v.queue, 2) == [v.queue[0], v.queue[1]];
    var due := Counted(acked, 1);
    assert OnAck(c, acked, Data(1)) == Pump(c, ReceiptIfDue(c, due));
    var signed := due.(xfer := due.xfer.(lastReceiptAt := 1, receiptsSent := 1));
    assert ReceiptIfDue(c, due) == SendPayload(c, signed, Receipt(1, true));
    OnlyChoice(signed.mediums, signed.now);
    assert Pump(c, ReceiptIfDue(c, due)) == ReceiptIfDue(c, due);
  }

  lemma TimersPass(c: Config, w: World)
    requires Waiting(w, 1) && |w.queue| == 3 && Is(w.queue[0], 0.36, Timeout(0, 1)) && Is(w.queue[1], 0.348, Timeout(1, 1))
    requires Is(w.queue[2], 0.511, Retry(2))
    ensures Earliest(w.queue, 1) && Enabled(w, FireEvent(1)) && Earliest(Fire(c, w, 1).queue, 0)
    ensures Enabled(Fire(c, w, 1), FireEvent(0))
    ensures Waiting(Fire(c, Fire(c, w, 1), 0), 1) && OnlyWait(Fire(c, Fire(c, w, 1), 0))
  {
    StaleTimer(c, w, 1);
    var v := Popped(w, 1);
    assert v.queue == [w.queue[0], w.queue[2]];
    StaleTimer(c, v, 0);
    assert Popped(v, 0).queue == [w.queue[2]];
  }

  lemma WaitsOnce(c: Config, w: World, n: nat)
    requires Waiting(w, n) && OnlyWait(w) && n <= MAX_MEDIUM_WAITS
    ensures Earliest(w.queue, 0) && Enabled(w, FireEvent(0))
    ensures n < MAX_MEDIUM_WAITS ==> Waiting(Fire(c, w, 0), n + 1) && OnlyWait(Fire(c, w, 0))
    ensures n == MAX_MEDIUM_WAITS ==>
              Fire(c, w, 0).queue == [] && Fire(c, w, 0).xfer == w.xfer && Fire(c, w, 0).sends[2].fate == Failed
  {
    OnlyChoice(w.mediums, w.queue[0].at);
    assert Without(w.queue, 0) == [];
  }

  function Waits(n: nat): seq<Step> { if n == 0 then [] else Waits(n - 1) + [FireEvent(0)] }

  /** After n more turns of the loop the receipt has waited n + 1 times. */
  ghost predicate Parked(c: Config, mediums: seq<Medium>, front: seq<Step>, n: nat, w: World) {
    Reaches(c, mediums, front + Waits(n), w) && Waiting(w, n + 1) && OnlyWait(w)
  }

  lemma WaitReaches(c: Config, mediums: seq<Medium>, front: seq<Step>, n: nat, w: World)
    requires Parked(c, mediums, front, n, w) && n < MAX_MEDIUM_WAITS
    ensures Enabled(w, FireEvent(0)) && Reaches(c, mediums, front + Waits(n + 1), Fire(c, w, 0))
  {
    WaitsOnce(c, w, n + 1);
    Goes(c, mediums, front + Waits(n), FireEvent(0), w);
    OneWaitMore(front, n);
  }

  lemma WaitsNext(c: Config, mediums: seq<Medium>, front: seq<Step>, n: nat, w: World) returns (r: World)
    requires Parked(c, mediums, front, n, w) && n + 1 < MAX_MEDIUM_WAITS
    ensures Parked(c, mediums, front, n + 1, r)
  {
    WaitsOnce(c, w, n + 1);
    WaitReaches(c, mediums, front, n, w);
    r := Fire(c, w, 0);
  }

  lemma OneWaitMore(front: seq<Step>, n: nat)
    ensures front + Waits(n + 1) == front + Waits(n) + [FireEvent(0)]
  {
    assert Waits(n + 1) == Waits(n) + [FireEvent(0)];
  }

  ghost predicate Parks(c: Config, mediums: seq<Medium>, front: seq<Step>, n: nat) {
    exists w :: Parked(c, mediums, front, n, w)
  }

  lemma ParksNext(c: Config, mediums: seq<Medium>, front: seq<Step>, n: nat)
    requires Parks(c, mediums, front, n) && n + 1 < MAX_MEDIUM_WAITS
    ensures Parks(c, mediums, front, n + 1)
  {
    var w :| Parked(c, mediums, front, n, w);
    var r := WaitsNext(c, mediums, front, n, w);
  }

  lemma {:induction false} StepByStep(holds: nat -> bool, n: nat)
    requires holds(0) && forall i: nat :: i < n && holds(i) ==> holds(i + 1)
    ensures holds(n)
  {
    if n > 0 {
      StepByStep(holds, n - 1);
    }
  }

  lemma WaitsOn(c: Config, mediums: seq<Medium>, front: seq<Step>, n: nat)
    requires Parks(c, mediums, front, 0) && n < MAX_MEDIUM_WAITS
    ensures Parks(c, mediums, front, n)
  {
    forall i: nat | i < n && Parks(c, mediums, front, i)
      ensures Parks(c, mediums, front, i + 1)
    {
      ParksNext(c, mediums, front, i);
    }
    StepByStep((i: nat) => Parks(c, mediums, front, i), n);
  }

  const DOWN: seq<Step> := FIRST_CHUNK + [SetUp(0, false)] + [FireEvent(2)] + [FireEvent(1)] + [FireEvent(0)]

  lemma ReceiptWaits(c: Config, mediums: seq<Medium>) returns (w: World)
    requires OneByOne(c, mediums, 1) && c.total == 1
    ensures Reaches(c, mediums, DOWN, w) && Waiting(w, 1) && OnlyWait(w)
  {
    w := ChunkServed(c, mediums, 1);
    Goes(c, mediums, FIRST_CHUNK, SetUp(0, false), w);
    AckWhileDown(c, mediums, w, Next(c, w, SetUp(0, false)));
    w := Next(c, w, SetUp(0, false));
    Goes(c, mediums, FIRST_CHUNK + [SetUp(0, false)], FireEvent(2), w);
    w := Fire(c, w, 2);
    TimersPass(c, w);
    Goes(c, mediums, FIRST_CHUNK + [SetUp(0, false)] + [FireEvent(2)], FireEvent(1), w);
    w := Fire(c, w, 1);
    Goes(c, mediums, FIRST_CHUNK + [SetUp(0, false)] + [FireEvent(2)] + [FireEvent(1)], FireEvent(0), w);
    w := Fire(c, w, 0);
  }

  /**
   The only medium goes down while the last chunk's acknowledgement is in the air. The final receipt waits 4000 times for a
   medium and is given up on: every byte was delivered and acked, no event is left, and the transfer is neither done nor
   marked failed.
   */
  lemma FinalReceiptGivenUp(c: Config, mediums: seq<Medium>, waits: seq<Step>)
    requires OneByOne(c, mediums, 1) && c.total == 1 && waits == Waits(MAX_MEDIUM_WAITS)
    ensures InTime(c, mediums, DOWN + waits) && Run(c, mediums, DOWN + waits).Some?
    ensures var w := Run(c, mediums, DOWN + waits).value;
            && w.queue == [] && w.xfer.started && w.xfer.acked == c.total && FinalReceiptFailed(c, w)
            && w.xfer.doneAt == None && !w.xfer.failed
  {
    var n: nat := MAX_MEDIUM_WAITS - 1;
    var w := ReceiptWaits(c, mediums);
    assert DOWN + Waits(0) == DOWN;
    assert Parked(c, mediums, DOWN, 0, w);
    WaitsOn(c, mediums, DOWN, n);
    w :| Parked(c, mediums, DOWN, n, w);
    WaitReaches(c, mediums, DOWN, n, w);
    var r := Fire(c, w, 0);
    GivenUp(c, w, r);
  }

  lemma GivenUp(c: Config, w: World, r: World)
    requires c.total == 1 && Waiting(w, MAX_MEDIUM_WAITS) && OnlyWait(w) && Enabled(w, FireEvent(0)) && r == Fire(c, w, 0)
    ensures r.queue == [] && r.xfer == w.xfer && FinalReceiptFailed(c, r)
  {
    WaitsOnce(c, w, MAX_MEDIUM_WAITS);
    assert r.sends[2].payload == Receipt(c.total, true);
  }
}
