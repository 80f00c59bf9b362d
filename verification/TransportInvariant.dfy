/** What every step of the transport keeps, and the measure that every event lowers. */
module TransportInvariant {
  import opened Options
  import opened Mediums
  import opened Sums
  import opened Transport

  function DataBytes(s: Send): nat { if s.payload.Data? then s.payload.len else 0 }
  function AckedBytes(s: Send): nat { if s.fate == Acked then DataBytes(s) else 0 }
  function SeenBytes(s: Send): nat { if s.dispatched > 0 then DataBytes(s) else 0 }
  function OpenChunk(s: Send): nat { if s.payload.Data? && s.fate != Acked then 1 else 0 }

  /** 1 for the events that can still act on entry k: its timer and its wait. */
  function LiveFor(k: nat): Timed -> nat {
    (t: Timed) => if (t.event.Timeout? || t.event.Retry?) && t.event.k == k then 1 else 0
  }

  /** `b` bounds the chunk size: every MTU, and the 128 used when no medium is live. */
  ghost predicate MediumsOk(b: nat, w: World) {
    128 <= b && forall i :: 0 <= i < |w.mediums| ==> w.mediums[i].mtu <= b
  }

  ghost predicate ItemOk(b: nat, w: World, k: nat, s: Send) {
    && s.dispatched == (if k in w.server.seen then 1 else 0)
    && s.acks == (if s.fate == Acked then 1 else 0)
    && s.fails == (if s.fate == Failed then 1 else 0)
    && (s.fate == Acked ==> k in w.server.seen)
    && s.tries <= MAX_TRIES && s.waits <= MAX_MEDIUM_WAITS + 1
    && (s.fate == Pending ==> s.waits <= MAX_MEDIUM_WAITS)
    && (s.payload.Data? ==> 1 <= s.payload.len <= b && w.xfer.started)
    && (s.payload.Receipt? ==>
          && w.xfer.started
          && s.payload.cumulative <= w.xfer.lastReceiptAt
          && (k in w.server.seen ==> s.payload.cumulative <= w.server.proven))
    && (s.medium.Some? ==> s.medium.value < |w.mediums|)
  }

  ghost predicate Items(b: nat, w: World) {
    && (forall k :: 0 <= k < |w.sends| ==> ItemOk(b, w, k, w.sends[k]))
    && (forall k :: k in w.server.seen ==> k < |w.sends|)
  }

  ghost predicate EventOk(w: World, ev: Event) {
    && EventInRange(w, ev)
    && (ev.AckArrive? ==> ev.k in w.server.seen)
    && (w.sends[ev.k].fate == Pending ==>
          && (ev.Timeout? ==> ev.armed == w.sends[ev.k].tries && w.sends[ev.k].medium.Some?)
          && (ev.Retry? ==> w.sends[ev.k].tries < MAX_TRIES))
  }

  ghost predicate Bag(w: World) {
    forall i :: 0 <= i < |w.queue| ==> EventOk(w, w.queue[i].event)
  }

  /** Every pending entry has exactly one live timer or wait event, the entry `hole` (if any) has none. */
  ghost predicate Timers(w: World, hole: int) {
    forall k: nat :: k < |w.sends| && w.sends[k].fate == Pending ==>
      Sum(w.queue, LiveFor(k)) == if k == hole then 0 else 1
  }

  ghost predicate Books(w: World) {
    && w.xfer.offset == Sum(w.sends, DataBytes)
    && w.xfer.acked == Sum(w.sends, AckedBytes)
    && w.server.delivered == Sum(w.sends, SeenBytes)
    && w.xfer.outstanding == Sum(w.sends, OpenChunk)
  }

  ghost predicate FinalReceiptAcked(c: Config, w: World) {
    exists k :: 0 <= k < |w.sends| && w.sends[k].payload == Receipt(c.total, true) && w.sends[k].fate == Acked
  }

  ghost predicate FinalReceiptSent(c: Config, w: World) {
    exists k :: 0 <= k < |w.sends| && w.sends[k].payload == Receipt(c.total, true)
  }

  ghost predicate DataFailed(w: World) {
    exists k :: 0 <= k < |w.sends| && w.sends[k].payload.Data? && w.sends[k].fate == Failed
  }

  ghost predicate Progress(c: Config, w: World) {
    && (w.xfer.started ==> w.server.admitted)
    && (!w.xfer.started ==> w.xfer.offset == 0 && w.xfer.lastReceiptAt == 0)
    && w.server.proven <= w.xfer.lastReceiptAt <= w.xfer.acked
    && w.xfer.offset <= c.total
    && w.xfer.outstanding <= c.window
    && w.server.rejected == 0
    && (forall k :: 0 <= k < |w.sends| && w.sends[k].payload.Receipt? && w.sends[k].payload.final ==>
          w.sends[k].payload.cumulative == c.total)
    && (w.xfer.doneAt.Some? <==> FinalReceiptAcked(c, w))
    && (w.xfer.started && 0 < c.total == w.xfer.lastReceiptAt ==> FinalReceiptSent(c, w))
    && (w.xfer.failed ==> DataFailed(w))
  }

  /**
   Between events: less than one receipt interval is acked and unsigned, everything acked is signed once it is all,
   and the pump has stopped only because the window is full or every byte is cut.
   */
  ghost predicate Signed(c: Config, w: World) {
    && w.xfer.acked - w.xfer.lastReceiptAt < (if c.receiptEvery == 0 then 1 else c.receiptEvery)
    && (w.xfer.acked >= c.total ==> w.xfer.lastReceiptAt == w.xfer.acked)
    && (w.xfer.started ==> w.xfer.outstanding >= c.window || w.xfer.offset >= c.total)
  }

  ghost predicate Core(c: Config, b: nat, w: World, hole: int) {
    MediumsOk(b, w) && Items(b, w) && Bag(w) && Timers(w, hole) && Books(w) && Progress(c, w)
  }

  ghost predicate Inv(c: Config, b: nat, w: World) {
    Core(c, b, w, -1) && Signed(c, w)
  }

  // ------------------------------------------------------------------ the measure

  /** Tries and waits a fresh entry may still use. */
  const FRESH := 4 * 30 + 2 * 4001

  function Weight(t: Timed): nat { if t.event.Arrive? then 2 else 1 }

  function Budget(s: Send): nat {
    if s.fate != Pending then 0
    else 4 * Left(MAX_TRIES, s.tries) + 2 * Left(MAX_MEDIUM_WAITS + 1, s.waits) + if s.payload.Data? then FRESH else 0
  }

  function Left(limit: nat, used: nat): nat { if used <= limit then limit - used else 0 }

  /** Bytes still to be cut into chunks, what each entry may still do, and what is in the bag. */
  function Measure(c: Config, w: World): nat {
    Left(c.total, w.xfer.offset) * (2 * FRESH) + Sum(w.sends, Budget) + Sum(w.queue, Weight)
  }

  // ------------------------------------------------------------------ one entry changes

  /** An entry is rewritten without touching its payload, its dispatch or an ack. */
  ghost predicate Quiet(s: Send, t: Send) {
    t.payload == s.payload && t.dispatched == s.dispatched && t.acks == s.acks && s.fate == Pending && t.fate != Acked
  }

  lemma QuietBooks(w: World, k: nat, t: Send)
    requires k < |w.sends| && Quiet(w.sends[k], t) && Books(w)
    ensures Books(w.(sends := w.sends[k := t]))
    ensures Sum(w.sends[k := t], Budget) + Budget(w.sends[k]) == Sum(w.sends, Budget) + Budget(t)
  {
    SumUpdate(w.sends, k, t, DataBytes);
    SumUpdate(w.sends, k, t, AckedBytes);
    SumUpdate(w.sends, k, t, SeenBytes);
    SumUpdate(w.sends, k, t, OpenChunk);
    SumUpdate(w.sends, k, t, Budget);
  }

  /** Scheduling the timer or the wait of the entry that had none. */
  lemma AtRearms(w: World, t: real, ev: Event)
    requires Bag(w) && EventOk(w, ev) && (ev.Timeout? || ev.Retry?) && Timers(w, ev.k)
    ensures Bag(At(w, t, ev)) && Timers(At(w, t, ev), -1)
    ensures Sum(At(w, t, ev).queue, Weight) == Sum(w.queue, Weight) + 1
  {
    var e := Timed(t, w.order, ev);
    forall k: nat | k < |w.sends|
      ensures Sum(w.queue + [e], LiveFor(k)) == Sum(w.queue, LiveFor(k)) + if k == ev.k then 1 else 0
    {
      SumAppend(w.queue, e, LiveFor(k));
    }
    SumAppend(w.queue, e, Weight);
  }

  /** Scheduling a frame or an ack leaves the timers alone. */
  lemma AtFlies(w: World, t: real, ev: Event, hole: int)
    requires Bag(w) && EventOk(w, ev) && !ev.Timeout? && !ev.Retry? && Timers(w, hole)
    ensures Bag(At(w, t, ev)) && Timers(At(w, t, ev), hole)
    ensures Sum(At(w, t, ev).queue, Weight) == Sum(w.queue, Weight) + if ev.Arrive? then 2 else 1
  {
    var e := Timed(t, w.order, ev);
    forall k: nat | k < |w.sends|
      ensures Sum(w.queue + [e], LiveFor(k)) == Sum(w.queue, LiveFor(k))
    {
      SumAppend(w.queue, e, LiveFor(k));
    }
    SumAppend(w.queue, e, Weight);
  }

  /** Taking event i out of the bag opens a hole for its entry if it was that entry's live event. */
  function HoleOf(w: World, ev: Event): int
    requires ev.k < |w.sends|
  {
    if (ev.Timeout? || ev.Retry?) && w.sends[ev.k].fate == Pending then ev.k else -1
  }

  lemma PopKeeps(c: Config, b: nat, w: World, i: nat)
    requires Inv(c, b, w) && i < |w.queue|
    ensures Core(c, b, Popped(w, i), HoleOf(w, w.queue[i].event)) && Signed(c, Popped(w, i))
    ensures EventOk(Popped(w, i), w.queue[i].event)
    ensures Measure(c, Popped(w, i)) + Weight(w.queue[i]) == Measure(c, w)
  {
    var r, ev := Popped(w, i), w.queue[i].event;
    forall k: nat | k < |w.sends|
      ensures Sum(r.queue, LiveFor(k)) + LiveFor(k)(w.queue[i]) == Sum(w.queue, LiveFor(k))
    {
      SumWithout(w.queue, i, LiveFor(k));
    }
    SumWithout(w.queue, i, Weight);
    forall j | 0 <= j < |r.queue|
      ensures EventOk(r, r.queue[j].event)
    {
      assert r.queue[j] == if j < i then w.queue[j] else w.queue[j + 1];
    }
  }

  // ------------------------------------------------------------------ sending

  /** What a transmission attempt may change outside the entry, the bag and the mediums: only `failed`. */
  ghost predicate SameOutside(w: World, r: World) {
    && r.now == w.now && r.server == w.server
    && r.xfer.(failed := w.xfer.failed) == w.xfer
    && |r.mediums| == |w.mediums| && |r.sends| == |w.sends|
  }

  /** Giving up on entry k, having counted n waits. */
  lemma AbandonKeeps(c: Config, b: nat, w: World, k: nat, n: nat)
    requires Core(c, b, w, k) && k < |w.sends| && w.sends[k].fate == Pending && n <= MAX_MEDIUM_WAITS + 1
    ensures var r := Fail(w.(sends := w.sends[k := w.sends[k].(waits := n)]), k);
            Core(c, b, r, -1) && SameOutside(w, r) && Measure(c, r) + Budget(w.sends[k]) == Measure(c, w)
  {
    var s := w.sends[k];
    var t := s.(waits := n, fate := Failed, fails := s.fails + 1);
    var r := Fail(w.(sends := w.sends[k := s.(waits := n)]), k);
    assert r.sends == w.sends[k := t];
    AbandonedParts(c, b, w, k, t, r);
  }

  lemma AbandonedParts(c: Config, b: nat, w: World, k: nat, t: Send, r: World)
    requires Core(c, b, w, k) && k < |w.sends| && w.sends[k].fate == Pending
    requires t == w.sends[k].(waits := t.waits, fate := Failed, fails := w.sends[k].fails + 1) && t.waits <= MAX_MEDIUM_WAITS + 1
    requires r == w.(sends := w.sends[k := t], xfer := if t.payload.Data? then w.xfer.(failed := true) else w.xfer)
    ensures Core(c, b, r, -1) && SameOutside(w, r) && Measure(c, r) + Budget(w.sends[k]) == Measure(c, w)
  {
    AbandonedItems(c, b, w, k, t, r);
    QuietBooks(w, k, t);
    FinalStays(c, w, r, k);
    assert t.payload.Data? ==> r.sends[k].payload.Data? && r.sends[k].fate == Failed;
  }

  lemma AbandonedItems(c: Config, b: nat, w: World, k: nat, t: Send, r: World)
    requires Core(c, b, w, k) && k < |w.sends| && w.sends[k].fate == Pending
    requires t == w.sends[k].(waits := t.waits, fate := Failed, fails := w.sends[k].fails + 1) && t.waits <= MAX_MEDIUM_WAITS + 1
    requires r == w.(sends := w.sends[k := t], xfer := if t.payload.Data? then w.xfer.(failed := true) else w.xfer)
    ensures Items(b, r) && Bag(r) && Timers(r, -1)
  {
    forall j | 0 <= j < |r.queue|
      ensures EventOk(r, r.queue[j].event)
    {
      assert EventOk(w, w.queue[j].event);
    }
  }

  lemma FailKeeps(c: Config, b: nat, w: World, k: nat)
    requires Core(c, b, w, k) && k < |w.sends| && w.sends[k].fate == Pending
    ensures Core(c, b, Fail(w, k), -1) && SameOutside(w, Fail(w, k))
    ensures Measure(c, Fail(w, k)) + Budget(w.sends[k]) == Measure(c, w)
  {
    AbandonKeeps(c, b, w, k, w.sends[k].waits);
    assert w.sends[k := w.sends[k].(waits := w.sends[k].waits)] == w.sends;
  }

  /** One entry changes without being acked: the facts about the final receipt stay, a failed chunk stays failed. */
  lemma FinalStays(c: Config, w: World, r: World, k: nat)
    requires k < |w.sends| == |r.sends| && r.sends == w.sends[k := r.sends[k]]
    requires r.sends[k].payload == w.sends[k].payload
    requires (r.sends[k].fate == Acked) == (w.sends[k].fate == Acked)
    requires w.sends[k].fate == Failed ==> r.sends[k].fate == Failed
    ensures FinalReceiptAcked(c, w) <==> FinalReceiptAcked(c, r)
    ensures FinalReceiptSent(c, w) <==> FinalReceiptSent(c, r)
    ensures DataFailed(w) ==> DataFailed(r)
  {
    assert forall j :: 0 <= j < |w.sends| ==> r.sends[j].payload == w.sends[j].payload;
    assert forall j :: 0 <= j < |w.sends| ==> ((r.sends[j].fate == Acked) == (w.sends[j].fate == Acked));
    assert forall j :: 0 <= j < |w.sends| && w.sends[j].fate == Failed ==> r.sends[j].fate == Failed;
  }

  lemma SameEntries(c: Config, w: World, r: World)
    requires r.sends == w.sends
    ensures FinalReceiptAcked(c, w) <==> FinalReceiptAcked(c, r)
    ensures FinalReceiptSent(c, w) <==> FinalReceiptSent(c, r)
    ensures DataFailed(w) <==> DataFailed(r)
  {}

  /** Entry k, without a live event, counts one more attempt. */
  lemma AttemptKeeps(c: Config, b: nat, w: World, k: nat, t: Send)
    requires Core(c, b, w, k) && k < |w.sends| && w.sends[k].fate == Pending
    requires t == w.sends[k].(tries := t.tries, waits := t.waits, medium := t.medium)
    requires t.tries <= MAX_TRIES && t.waits <= MAX_MEDIUM_WAITS && (t.medium.Some? ==> t.medium.value < |w.mediums|)
    ensures var r := w.(sends := w.sends[k := t]);
            Core(c, b, r, k) && Measure(c, r) + Budget(w.sends[k]) == Measure(c, w) + Budget(t)
  {
    var r := w.(sends := w.sends[k := t]);
    QuietBooks(w, k, t);
    FinalStays(c, w, r, k);
    forall j | 0 <= j < |r.queue|
      ensures EventOk(r, r.queue[j].event)
    {
      SumAtLeast(w.queue, j, LiveFor(k));
      assert EventOk(w, w.queue[j].event);
    }
  }

  /** Facts about entries do not look at the bag. */
  lemma AtStays(c: Config, b: nat, w: World, r: World, hole: int, hole': int)
    requires Core(c, b, w, hole) && r == w.(queue := r.queue, order := r.order) && Bag(r) && Timers(r, hole')
    ensures Core(c, b, r, hole') && SameOutside(w, r)
    ensures Measure(c, r) + Sum(w.queue, Weight) == Measure(c, w) + Sum(r.queue, Weight)
  {
    SameEntries(c, w, r);
  }

  lemma RearmKeeps(c: Config, b: nat, w: World, t: real, ev: Event)
    requires Core(c, b, w, ev.k) && EventOk(w, ev) && (ev.Timeout? || ev.Retry?)
    ensures Core(c, b, At(w, t, ev), -1) && SameOutside(w, At(w, t, ev))
    ensures Measure(c, At(w, t, ev)) == Measure(c, w) + 1
  {
    AtRearms(w, t, ev);
    AtStays(c, b, w, At(w, t, ev), ev.k, -1);
  }

  lemma FlyKeeps(c: Config, b: nat, w: World, t: real, ev: Event, hole: int)
    requires Core(c, b, w, hole) && EventOk(w, ev) && !ev.Timeout? && !ev.Retry?
    ensures Core(c, b, At(w, t, ev), hole) && SameOutside(w, At(w, t, ev))
    ensures Measure(c, At(w, t, ev)) == Measure(c, w) + if ev.Arrive? then 2 else 1
  {
    AtFlies(w, t, ev, hole);
    AtStays(c, b, w, At(w, t, ev), hole, hole);
  }

  ghost predicate Waited(c: Config, b: nat, w: World, r: World) {
    Core(c, b, r, -1) && SameOutside(w, r) && Measure(c, r) < Measure(c, w)
  }

  lemma WaitGivesUp(c: Config, b: nat, w: World, k: nat)
    requires Core(c, b, w, k) && k < |w.sends| && w.sends[k].fate == Pending && w.sends[k].tries < MAX_TRIES
    requires w.sends[k].waits + 1 > MAX_MEDIUM_WAITS
    ensures Waited(c, b, w, Wait(w, k))
  {
    AbandonKeeps(c, b, w, k, w.sends[k].waits + 1);
  }

  lemma WaitGoesOn(c: Config, b: nat, w: World, k: nat)
    requires Core(c, b, w, k) && k < |w.sends| && w.sends[k].fate == Pending && w.sends[k].tries < MAX_TRIES
    requires w.sends[k].waits + 1 <= MAX_MEDIUM_WAITS
    ensures Waited(c, b, w, Wait(w, k))
  {
    WaitRearms(c, b, w, k, w.sends[k].(waits := w.sends[k].waits + 1), Wait(w, k));
  }

  lemma WaitKeeps(c: Config, b: nat, w: World, k: nat)
    requires Core(c, b, w, k) && k < |w.sends| && w.sends[k].fate == Pending && w.sends[k].tries < MAX_TRIES
    ensures Waited(c, b, w, Wait(w, k))
  {
    if w.sends[k].waits + 1 > MAX_MEDIUM_WAITS {
      WaitGivesUp(c, b, w, k);
    } else {
      WaitGoesOn(c, b, w, k);
    }
  }

  lemma WaitRearms(c: Config, b: nat, w: World, k: nat, t: Send, r: World)
    requires Core(c, b, w, k) && k < |w.sends| && w.sends[k].fate == Pending && w.sends[k].tries < MAX_TRIES
    requires t == w.sends[k].(waits := w.sends[k].waits + 1) && t.waits <= MAX_MEDIUM_WAITS
    requires r == At(w.(sends := w.sends[k := t]), w.now + 0.25, Retry(k))
    ensures Core(c, b, r, -1) && SameOutside(w, r) && Measure(c, r) < Measure(c, w)
  {
    AttemptKeeps(c, b, w, k, t);
    RearmKeeps(c, b, w.(sends := w.sends[k := t]), w.now + 0.25, Retry(k));
  }

  lemma MediumChanged(c: Config, b: nat, w: World, i: nat, m: Medium, draws: nat, hole: int)
    requires Core(c, b, w, hole) && i < |w.mediums| && m.mtu == w.mediums[i].mtu
    ensures Core(c, b, w.(mediums := w.mediums[i := m], draws := draws), hole)
    ensures Measure(c, w.(mediums := w.mediums[i := m], draws := draws)) == Measure(c, w)
  {
    var r := w.(mediums := w.mediums[i := m], draws := draws);
    SameEntries(c, w, r);
    forall j | 0 <= j < |r.queue|
      ensures EventOk(r, r.queue[j].event)
    {
      assert EventOk(w, w.queue[j].event);
    }
  }

  lemma ChargeKeeps(c: Config, b: nat, w: World, k: nat, i: nat, lost: bool)
    requires Core(c, b, w, k) && k < |w.sends| && i < |w.mediums|
    requires w.sends[k].fate == Pending && w.sends[k].tries < MAX_TRIES
    ensures var r := Charge(w, k, i, lost);
            && Core(c, b, r, k) && SameOutside(w, r) && Measure(c, r) + 4 == Measure(c, w)
            && r.sends[k].fate == Pending && r.sends[k].medium.Some?
  {
    var m := w.mediums[i];
    ChargedParts(c, b, w, k, i, w.sends[k].(tries := w.sends[k].tries + 1, medium := Some(i)),
                 m.(busyUntil := AirEnd(w, k, i), txFrames := m.txFrames + 1,
                    lostFrames := m.lostFrames + if lost then 1 else 0), Charge(w, k, i, lost));
  }

  lemma ChargedParts(c: Config, b: nat, w: World, k: nat, i: nat, t: Send, m: Medium, r: World)
    requires Core(c, b, w, k) && k < |w.sends| && i < |w.mediums| && m.mtu == w.mediums[i].mtu
    requires w.sends[k].fate == Pending && w.sends[k].tries < MAX_TRIES
    requires t == w.sends[k].(tries := w.sends[k].tries + 1, medium := Some(i))
    requires r == w.(sends := w.sends[k := t], mediums := w.mediums[i := m], draws := w.draws + 1)
    ensures Core(c, b, r, k) && SameOutside(w, r) && Measure(c, r) + 4 == Measure(c, w)
  {
    AttemptKeeps(c, b, w, k, t);
    MediumChanged(c, b, w.(sends := w.sends[k := t]), i, m, w.draws + 1, k);
  }

  lemma LaunchKeeps(c: Config, b: nat, w: World, k: nat, i: nat, lost: bool, arrival: real, deadline: real)
    requires Core(c, b, w, k) && k < |w.sends| && i < |w.mediums|
    requires w.sends[k].fate == Pending && w.sends[k].medium.Some?
    ensures var r := Launch(w, k, i, lost, arrival, deadline);
            Core(c, b, r, -1) && SameOutside(w, r) && Measure(c, r) <= Measure(c, w) + 3
  {
    var v := if lost then w else At(w, arrival, Arrive(k, i));
    if !lost {
      FlyKeeps(c, b, w, arrival, Arrive(k, i), k);
    }
    RearmKeeps(c, b, v, deadline, Timeout(k, w.sends[k].tries));
  }

  lemma TransmitKeeps(c: Config, b: nat, w: World, k: nat, i: nat)
    requires Core(c, b, w, k) && k < |w.sends| && i < |w.mediums|
    requires w.sends[k].fate == Pending && w.sends[k].tries < MAX_TRIES
    ensures var r := Transmit(c, w, k, i);
            Core(c, b, r, -1) && SameOutside(w, r) && Measure(c, r) < Measure(c, w)
  {
    var arrival := AirEnd(w, k, i) + w.mediums[i].latency;
    var deadline := w.now + ((arrival - w.now) * 2.0 + 4.0 * w.mediums[i].latency + 0.05);
    AttemptAndLaunch(c, b, w, k, i, c.rng(w.draws) < w.mediums[i].loss, arrival, deadline, Transmit(c, w, k, i));
  }

  lemma AttemptAndLaunch(c: Config, b: nat, w: World, k: nat, i: nat, lost: bool, arrival: real, deadline: real, r: World)
    requires Core(c, b, w, k) && k < |w.sends| && i < |w.mediums|
    requires w.sends[k].fate == Pending && w.sends[k].tries < MAX_TRIES
    requires r == Launch(Charge(w, k, i, lost), k, i, lost, arrival, deadline)
    ensures Core(c, b, r, -1) && SameOutside(w, r) && Measure(c, r) < Measure(c, w)
  {
    ChargeKeeps(c, b, w, k, i, lost);
    LaunchKeeps(c, b, Charge(w, k, i, lost), k, i, lost, arrival, deadline);
  }

  lemma TxKeeps(c: Config, b: nat, w: World, k: nat)
    requires Core(c, b, w, k) && k < |w.sends| && w.sends[k].fate == Pending && w.sends[k].tries < MAX_TRIES
    ensures Core(c, b, Tx(c, w, k), -1) && SameOutside(w, Tx(c, w, k)) && Measure(c, Tx(c, w, k)) < Measure(c, w)
  {
    match Best(w.mediums, w.now)
    case None => WaitKeeps(c, b, w, k);
    case Some(i) => TransmitKeeps(c, b, w, k, i);
  }

  const NEW := Send(Join, Pending, 0, 0, None, 0, 0, 0)

  /** The transfer's own bookkeeping just before it hands payload p to the node. */
  ghost predicate CanSend(c: Config, b: nat, w: World, p: Payload, x: Transfer) {
    match p
    case Data(n) =>
      && 1 <= n <= b && w.xfer.started && w.xfer.offset + n <= c.total && w.xfer.outstanding < c.window
      && x == w.xfer.(offset := w.xfer.offset + n, outstanding := w.xfer.outstanding + 1)
    case Receipt(cumulative, final) =>
      && w.xfer.started && cumulative == w.xfer.acked && (final <==> cumulative == c.total)
      && x == w.xfer.(lastReceiptAt := cumulative, receiptsSent := x.receiptsSent)
    case _ => x == w.xfer
  }

  lemma AppendBooks(w: World, p: Payload)
    ensures var e := NEW.(payload := p);
            && Sum(w.sends + [e], DataBytes) == Sum(w.sends, DataBytes) + (if p.Data? then p.len else 0)
            && Sum(w.sends + [e], AckedBytes) == Sum(w.sends, AckedBytes)
            && Sum(w.sends + [e], SeenBytes) == Sum(w.sends, SeenBytes)
            && Sum(w.sends + [e], OpenChunk) == Sum(w.sends, OpenChunk) + (if p.Data? then 1 else 0)
            && Sum(w.sends + [e], Budget) == Sum(w.sends, Budget) + FRESH + (if p.Data? then FRESH else 0)
  {
    var e := NEW.(payload := p);
    SumAppend(w.sends, e, DataBytes);
    SumAppend(w.sends, e, AckedBytes);
    SumAppend(w.sends, e, SeenBytes);
    SumAppend(w.sends, e, OpenChunk);
    SumAppend(w.sends, e, Budget);
  }

  lemma AppendTimers(w: World, r: World)
    requires Bag(w) && Timers(w, -1) && r.queue == w.queue && |r.sends| == |w.sends| + 1
    requires r.sends[..|w.sends|] == w.sends && r.server == w.server && |r.mediums| == |w.mediums|
    ensures Bag(r) && Timers(r, |w.sends|)
  {
    forall k: nat | k < |w.sends|
      ensures r.sends[k] == w.sends[k]
    {
      assert r.sends[..|w.sends|][k] == w.sends[k];
    }
    forall j | 0 <= j < |r.queue|
      ensures EventOk(r, r.queue[j].event) && LiveFor(|w.sends|)(r.queue[j]) == 0
    {
      assert EventOk(w, w.queue[j].event);
    }
    SumZero(w.queue, LiveFor(|w.sends|));
  }

  lemma AppendItems(c: Config, b: nat, w: World, p: Payload, x: Transfer)
    requires Items(b, w) && CanSend(c, b, w, p, x) && w.xfer.lastReceiptAt <= w.xfer.acked
    ensures Items(b, w.(sends := w.sends + [NEW.(payload := p)], xfer := x))
  {
    var r := w.(sends := w.sends + [NEW.(payload := p)], xfer := x);
    forall k | 0 <= k < |r.sends|
      ensures ItemOk(b, r, k, r.sends[k])
    {
      if k < |w.sends| {
        assert ItemOk(b, w, k, w.sends[k]);
      }
    }
  }

  lemma AppendFacts(c: Config, w: World, r: World, e: Send)
    requires r.sends == w.sends + [e] && e.fate == Pending
    ensures FinalReceiptAcked(c, w) <==> FinalReceiptAcked(c, r)
    ensures FinalReceiptSent(c, r) <==> FinalReceiptSent(c, w) || e.payload == Receipt(c.total, true)
    ensures DataFailed(w) ==> DataFailed(r)
  {
    assert forall j :: 0 <= j < |w.sends| ==> r.sends[j] == w.sends[j];
    assert r.sends[|w.sends|] == e;
  }

  lemma AppendKeeps(c: Config, b: nat, w: World, p: Payload, x: Transfer)
    requires Core(c, b, w, -1) && CanSend(c, b, w, p, x)
    ensures var r := w.(sends := w.sends + [NEW.(payload := p)], xfer := x);
            && Core(c, b, r, |w.sends|)
            && Measure(c, r) <= Measure(c, w) + if p.Data? then 0 else FRESH
  {
    AppendAll(c, b, w, p, x, w.(sends := w.sends + [NEW.(payload := p)], xfer := x));
  }

  lemma AppendAll(c: Config, b: nat, w: World, p: Payload, x: Transfer, r: World)
    requires Core(c, b, w, -1) && CanSend(c, b, w, p, x)
    requires r == w.(sends := w.sends + [NEW.(payload := p)], xfer := x)
    ensures Core(c, b, r, |w.sends|)
    ensures Measure(c, r) <= Measure(c, w) + if p.Data? then 0 else FRESH
  {
    AppendSums(c, b, w, p, x, r);
    assert r.sends[..|w.sends|] == w.sends;
    AppendTimers(w, r);
    AppendItems(c, b, w, p, x);
    AppendFacts(c, w, r, NEW.(payload := p));
    AppendProgress(c, b, w, r, p, x);
  }

  lemma AppendSums(c: Config, b: nat, w: World, p: Payload, x: Transfer, r: World)
    requires Books(w) && CanSend(c, b, w, p, x)
    requires r == w.(sends := w.sends + [NEW.(payload := p)], xfer := x)
    ensures Books(r) && Measure(c, r) <= Measure(c, w) + if p.Data? then 0 else FRESH
  {
    AppendBooks(w, p);
  }

  lemma AppendProgress(c: Config, b: nat, w: World, r: World, p: Payload, x: Transfer)
    requires Progress(c, w) && CanSend(c, b, w, p, x)
    requires r == w.(sends := w.sends + [NEW.(payload := p)], xfer := x)
    requires FinalReceiptAcked(c, w) <==> FinalReceiptAcked(c, r)
    requires FinalReceiptSent(c, r) <==> FinalReceiptSent(c, w) || p == Receipt(c.total, true)
    requires DataFailed(w) ==> DataFailed(r)
    ensures Progress(c, r)
  {}

  /** Node.send after the caller's own bookkeeping: the invariant, and a measure paid for in advance by DATA. */
  lemma SendKeeps(c: Config, b: nat, w: World, p: Payload, x: Transfer)
    requires Core(c, b, w, -1) && CanSend(c, b, w, p, x)
    ensures var r := SendPayload(c, w.(xfer := x), p);
            && Core(c, b, r, -1) && r.xfer.(failed := x.failed) == x && r.server == w.server && r.now == w.now
            && Measure(c, r) < Measure(c, w) + if p.Data? then 0 else FRESH
  {
    AppendKeeps(c, b, w, p, x);
    TxKeeps(c, b, w.(sends := w.sends + [NEW.(payload := p)], xfer := x), |w.sends|);
  }

  /** What the pump, or one turn of it, leaves alone. */
  ghost predicate PumpFrame(w: World, r: World) {
    && r.server == w.server && r.now == w.now
    && r.xfer.acked == w.xfer.acked && r.xfer.lastReceiptAt == w.xfer.lastReceiptAt
    && r.xfer.doneAt == w.xfer.doneAt && r.xfer.started == w.xfer.started
  }

  lemma ChunkSizeInRange(c: Config, b: nat, w: World)
    requires MediumsOk(b, w) && w.xfer.offset < c.total
    ensures 1 <= ChunkSize(c, w) <= b && w.xfer.offset + ChunkSize(c, w) <= c.total
  {}

  lemma SendChunkKeeps(c: Config, b: nat, w: World, n: nat)
    requires Core(c, b, w, -1) && w.xfer.started && w.xfer.outstanding < c.window
    requires 1 <= n <= b && w.xfer.offset + n <= c.total
    ensures var r := SendChunk(c, w, n);
            Core(c, b, r, -1) && PumpFrame(w, r) && Measure(c, r) < Measure(c, w)
  {
    var x := w.xfer.(offset := w.xfer.offset + n, outstanding := w.xfer.outstanding + 1);
    BookedChunkKeeps(c, b, w, n, x, SendChunk(c, w, n));
  }

  lemma BookedChunkKeeps(c: Config, b: nat, w: World, n: nat, x: Transfer, r: World)
    requires Core(c, b, w, -1) && CanSend(c, b, w, Data(n), x)
    requires r == SendPayload(c, w.(xfer := x), Data(n))
    ensures Core(c, b, r, -1) && PumpFrame(w, r) && Measure(c, r) < Measure(c, w)
  {
    SendKeeps(c, b, w, Data(n), x);
  }

  lemma {:induction false} PumpKeeps(c: Config, b: nat, w: World)
    requires Core(c, b, w, -1) && w.xfer.started
    ensures Core(c, b, Pump(c, w), -1) && PumpFrame(w, Pump(c, w)) && Measure(c, Pump(c, w)) <= Measure(c, w)
    ensures Pump(c, w).xfer.outstanding >= c.window || Pump(c, w).xfer.offset >= c.total
    decreases c.window - w.xfer.outstanding
  {
    if w.xfer.outstanding < c.window && w.xfer.offset < c.total {
      ChunkSizeInRange(c, b, w);
      SendChunkKeeps(c, b, w, ChunkSize(c, w));
      PumpKeeps(c, b, SendChunk(c, w, ChunkSize(c, w)));
    }
  }

  // ------------------------------------------------------------------ receiving

  /** The entry a first ack resolves. */
  function AckedEntry(s: Send): Send { s.(fate := Acked, acks := s.acks + 1) }

  /** The transfer once a first ack is counted: its bytes, or the finish. */
  function AckedTransfer(x: Transfer, p: Payload, now: real): Transfer {
    match p
    case Data(n) => x.(outstanding := x.outstanding - 1, acked := x.acked + n)
    case Receipt(_, final) => if final && x.doneAt == None then x.(doneAt := Some(now)) else x
    case _ => x
  }

  lemma ResolvedBooks(w: World, k: nat)
    requires k < |w.sends| && w.sends[k].fate == Pending && Books(w)
    ensures Books(w.(sends := w.sends[k := AckedEntry(w.sends[k])], xfer := AckedTransfer(w.xfer, w.sends[k].payload, w.now)))
    ensures Sum(w.sends[k := AckedEntry(w.sends[k])], Budget) + Budget(w.sends[k]) == Sum(w.sends, Budget)
  {
    var t := AckedEntry(w.sends[k]);
    SumUpdate(w.sends, k, t, DataBytes);
    SumUpdate(w.sends, k, t, AckedBytes);
    SumUpdate(w.sends, k, t, SeenBytes);
    SumUpdate(w.sends, k, t, OpenChunk);
    SumUpdate(w.sends, k, t, Budget);
  }

  lemma ResolvedFacts(c: Config, w: World, k: nat, r: World)
    requires k < |w.sends| && w.sends[k].fate == Pending && r.sends == w.sends[k := AckedEntry(w.sends[k])]
    ensures FinalReceiptAcked(c, r) <==> FinalReceiptAcked(c, w) || w.sends[k].payload == Receipt(c.total, true)
    ensures FinalReceiptSent(c, w) <==> FinalReceiptSent(c, r)
    ensures DataFailed(w) ==> DataFailed(r)
  {
    assert forall j :: 0 <= j < |w.sends| ==> r.sends[j].payload == w.sends[j].payload;
    assert forall j :: 0 <= j < |w.sends| && j != k ==> r.sends[j] == w.sends[j];
    assert r.sends[k].fate == Acked;
  }

  lemma ResolvedKeeps(c: Config, b: nat, w: World, k: nat, r: World)
    requires Core(c, b, w, -1) && k < |w.sends| && w.sends[k].fate == Pending && k in w.server.seen
    requires r == w.(sends := w.sends[k := AckedEntry(w.sends[k])], xfer := AckedTransfer(w.xfer, w.sends[k].payload, w.now))
    ensures Core(c, b, r, -1) && Measure(c, r) + Budget(w.sends[k]) == Measure(c, w)
  {
    ResolvedBooks(w, k);
    ResolvedFacts(c, w, k, r);
    ResolvedItems(c, b, w, k, r);
  }

  lemma ResolvedItems(c: Config, b: nat, w: World, k: nat, r: World)
    requires Core(c, b, w, -1) && k < |w.sends| && w.sends[k].fate == Pending && k in w.server.seen
    requires r == w.(sends := w.sends[k := AckedEntry(w.sends[k])], xfer := AckedTransfer(w.xfer, w.sends[k].payload, w.now))
    ensures Items(b, r) && Bag(r) && Timers(r, -1)
  {
    forall j | 0 <= j < |r.sends|
      ensures ItemOk(b, r, j, r.sends[j])
    {
      assert ItemOk(b, w, j, w.sends[j]);
    }
    forall j | 0 <= j < |r.queue|
      ensures EventOk(r, r.queue[j].event)
    {
      assert EventOk(w, w.queue[j].event);
    }
  }

  lemma AckedWithinTotal(c: Config, w: World)
    requires Books(w) && w.xfer.offset <= c.total
    ensures w.xfer.acked <= w.xfer.offset
  {
    SumBound(w.sends, AckedBytes, DataBytes);
  }

  /** Signed, except that the pump may still have room. */
  ghost predicate Caught(c: Config, w: World) {
    && w.xfer.acked - w.xfer.lastReceiptAt < (if c.receiptEvery == 0 then 1 else c.receiptEvery)
    && (w.xfer.acked >= c.total ==> w.xfer.lastReceiptAt == w.xfer.acked)
  }

  /** A receipt goes out exactly when one is due, and after it less than one interval is unsigned. */
  lemma ReceiptKeeps(c: Config, b: nat, w: World)
    requires Core(c, b, w, -1) && w.xfer.started
    ensures var r := ReceiptIfDue(c, w);
            Core(c, b, r, -1) && Caught(c, r) && r.xfer.started && Measure(c, r) < Measure(c, w) + FRESH
  {
    AckedWithinTotal(c, w);
    if w.xfer.acked - w.xfer.lastReceiptAt >= c.receiptEvery || w.xfer.acked >= c.total {
      var x := w.xfer.(lastReceiptAt := w.xfer.acked, receiptsSent := w.xfer.receiptsSent + 1);
      ReceiptSent(c, b, w, w.xfer.acked >= c.total, x, ReceiptIfDue(c, w));
    }
  }

  lemma ReceiptSent(c: Config, b: nat, w: World, final: bool, x: Transfer, r: World)
    requires Core(c, b, w, -1) && CanSend(c, b, w, Receipt(w.xfer.acked, final), x)
    requires r == SendPayload(c, w.(xfer := x), Receipt(w.xfer.acked, final))
    ensures Core(c, b, r, -1) && Caught(c, r) && r.xfer.started && Measure(c, r) < Measure(c, w) + FRESH
  {
    SendKeeps(c, b, w, Receipt(w.xfer.acked, final), x);
  }

  lemma DispatchBooks(w: World, k: nat, t: Send)
    requires k < |w.sends| && t == w.sends[k].(dispatched := 1) && w.sends[k].dispatched == 0
    ensures Sum(w.sends[k := t], DataBytes) == Sum(w.sends, DataBytes)
    ensures Sum(w.sends[k := t], AckedBytes) == Sum(w.sends, AckedBytes)
    ensures Sum(w.sends[k := t], SeenBytes) == Sum(w.sends, SeenBytes) + DataBytes(t)
    ensures Sum(w.sends[k := t], OpenChunk) == Sum(w.sends, OpenChunk)
    ensures Sum(w.sends[k := t], Budget) == Sum(w.sends, Budget)
  {
    SumUpdate(w.sends, k, t, DataBytes);
    SumUpdate(w.sends, k, t, AckedBytes);
    SumUpdate(w.sends, k, t, SeenBytes);
    SumUpdate(w.sends, k, t, OpenChunk);
    SumUpdate(w.sends, k, t, Budget);
  }

  /** The world after the serving node took frame k for the first time. */
  function Taken(w: World, k: nat): World
    requires k < |w.sends|
  {
    w.(server := Dispatch(w.server.(seen := w.server.seen + {k}), w.sends[k].payload),
       sends := w.sends[k := w.sends[k].(dispatched := w.sends[k].dispatched + 1)])
  }

  lemma TakenItems(c: Config, b: nat, w: World, k: nat, r: World)
    requires Items(b, w) && Bag(w) && Progress(c, w) && k < |w.sends| && k !in w.server.seen && r == Taken(w, k)
    ensures Items(b, r) && Bag(r) && r.server.seen == w.server.seen + {k}
  {
    forall j | 0 <= j < |r.sends|
      ensures ItemOk(b, r, j, r.sends[j])
    {
      assert ItemOk(b, w, j, w.sends[j]);
    }
    forall j | 0 <= j < |r.queue|
      ensures EventOk(r, r.queue[j].event)
    {
      assert EventOk(w, w.queue[j].event);
    }
  }

  lemma TakenBooks(c: Config, b: nat, w: World, k: nat, r: World)
    requires Items(b, w) && Books(w) && Progress(c, w) && k < |w.sends| && k !in w.server.seen && r == Taken(w, k)
    ensures Books(r) && Measure(c, r) == Measure(c, w)
  {
    assert ItemOk(b, w, k, w.sends[k]);
    DispatchBooks(w, k, w.sends[k].(dispatched := 1));
  }

  lemma TakenProgress(c: Config, b: nat, w: World, k: nat, r: World)
    requires Items(b, w) && Progress(c, w) && k < |w.sends| && k !in w.server.seen && r == Taken(w, k)
    ensures Progress(c, r)
  {
    assert ItemOk(b, w, k, w.sends[k]);
    FinalStays(c, w, r, k);
  }

  /** The serving node takes a frame it has not seen. */
  lemma DispatchKeeps(c: Config, b: nat, w: World, k: nat, r: World)
    requires Core(c, b, w, -1) && k < |w.sends| && k !in w.server.seen && r == Taken(w, k)
    ensures Core(c, b, r, -1) && r.server.seen == w.server.seen + {k} && Measure(c, r) == Measure(c, w)
  {
    TakenItems(c, b, w, k, r);
    TakenBooks(c, b, w, k, r);
    TakenProgress(c, b, w, k, r);
  }

  lemma AckBackKeeps(c: Config, b: nat, w: World, k: nat, via: nat)
    requires Core(c, b, w, -1) && k < |w.sends| && via < |w.mediums| && k in w.server.seen
    ensures Core(c, b, AckBack(c, w, k, via), -1) && Measure(c, AckBack(c, w, k, via)) <= Measure(c, w) + 1
  {
    var m := w.mediums[via];
    var lost := c.rng(w.draws) < m.loss;
    AckCharged(c, b, w, k, via, m.(txFrames := m.txFrames + 1, lostFrames := m.lostFrames + if lost then 1 else 0), lost,
               w.now + AirtimeFor(m, OVERHEAD + 4) + m.latency, AckBack(c, w, k, via));
  }

  lemma AckCharged(c: Config, b: nat, w: World, k: nat, via: nat, m: Medium, lost: bool, t: real, r: World)
    requires Core(c, b, w, -1) && k < |w.sends| && via < |w.mediums| && k in w.server.seen && m.mtu == w.mediums[via].mtu
    requires var v := w.(mediums := w.mediums[via := m], draws := w.draws + 1);
             r == if lost then v else At(v, t, AckArrive(k, via))
    ensures Core(c, b, r, -1) && Measure(c, r) <= Measure(c, w) + 1
  {
    MediumChanged(c, b, w, via, m, w.draws + 1, -1);
    AckFlies(c, b, w.(mediums := w.mediums[via := m], draws := w.draws + 1), k, via, lost, t);
  }

  lemma AckFlies(c: Config, b: nat, w: World, k: nat, via: nat, lost: bool, t: real)
    requires Core(c, b, w, -1) && k < |w.sends| && via < |w.mediums| && k in w.server.seen
    ensures var r := if lost then w else At(w, t, AckArrive(k, via));
            Core(c, b, r, -1) && Measure(c, r) <= Measure(c, w) + 1
  {
    if !lost {
      FlyKeeps(c, b, w, t, AckArrive(k, via), -1);
    }
  }

  lemma DeliveredKeeps(c: Config, b: nat, w: World, via: nat)
    requires Core(c, b, w, -1) && via < |w.mediums|
    ensures Core(c, b, Delivered(w, via), -1) && Measure(c, Delivered(w, via)) == Measure(c, w)
  {
    var m := w.mediums[via];
    MediumChanged(c, b, w, via, m.(deliveredFrames := m.deliveredFrames + 1), w.draws, -1);
  }

  lemma ObserveKeeps(c: Config, b: nat, w: World, i: Option<nat>, success: bool, hole: int)
    requires Core(c, b, w, hole)
    ensures Core(c, b, ObserveOn(w, i, success), hole) && Measure(c, ObserveOn(w, i, success)) == Measure(c, w)
  {
    if i.Some? && i.value < |w.mediums| {
      MediumChanged(c, b, w, i.value, Observe(w.mediums[i.value], success, w.now), w.draws, hole);
    }
  }

  /** Acking first and dispatching second, as the source does, is dispatching first and acking second. */
  lemma AckThenDispatch(c: Config, w: World, k: nat, via: nat)
    requires k < |w.sends| && via < |w.mediums| && k !in w.server.seen
    ensures FrameArrives(c, w, k, via) == AckBack(c, Taken(Delivered(w, via), k), k, via)
  {}

  lemma FrameArrivesKeeps(c: Config, b: nat, w: World, k: nat, via: nat)
    requires Core(c, b, w, -1) && k < |w.sends| && via < |w.mediums|
    ensures Core(c, b, FrameArrives(c, w, k, via), -1)
    ensures Measure(c, FrameArrives(c, w, k, via)) <= Measure(c, w) + 1
  {
    DeliveredKeeps(c, b, w, via);
    var v := Delivered(w, via);
    if k in w.server.seen {
      AckBackKeeps(c, b, v, k, via);
    } else {
      AckThenDispatch(c, w, k, via);
      FirstArrivalKeeps(c, b, v, k, via, FrameArrives(c, w, k, via));
    }
  }

  lemma FirstArrivalKeeps(c: Config, b: nat, v: World, k: nat, via: nat, r: World)
    requires Core(c, b, v, -1) && k < |v.sends| && via < |v.mediums| && k !in v.server.seen
    requires r == AckBack(c, Taken(v, k), k, via)
    ensures Core(c, b, r, -1) && Measure(c, r) <= Measure(c, v) + 1
  {
    DispatchKeeps(c, b, v, k, Taken(v, k));
    AckBackKeeps(c, b, Taken(v, k), k, via);
  }

  /** The callback of a DATA ack, once its bytes are counted: a receipt if due, then the pump. */
  lemma ChunkCallbackKeeps(c: Config, b: nat, w: World, r: World)
    requires Core(c, b, r, -1) && r.xfer.started && Measure(c, r) + FRESH <= Measure(c, w)
    ensures var t := Pump(c, ReceiptIfDue(c, r));
            Inv(c, b, t) && Measure(c, t) <= Measure(c, w)
  {
    ReceiptKeeps(c, b, r);
    PumpKeeps(c, b, ReceiptIfDue(c, r));
  }

  lemma DataCallback(c: Config, v: World, p: Payload, booked: World)
    requires p.Data? && booked == v.(xfer := AckedTransfer(v.xfer, p, v.now))
    ensures OnAck(c, v, p) == Pump(c, ReceiptIfDue(c, booked))
  {}

  lemma StartedForData(b: nat, w: World, k: nat)
    requires Items(b, w) && k < |w.sends| && w.sends[k].payload.Data? && w.sends[k].fate == Pending
    ensures w.xfer.started && Budget(w.sends[k]) >= FRESH
  {
    assert ItemOk(b, w, k, w.sends[k]);
  }

  /** The callback of a first ack, from the moment the entry is resolved. */
  lemma CallbackKeeps(c: Config, b: nat, w: World, k: nat, v: World, r: World)
    requires Core(c, b, w, -1) && Signed(c, w) && k < |w.sends| && w.sends[k].fate == Pending && k in w.server.seen
    requires v == w.(sends := w.sends[k := AckedEntry(w.sends[k])])
    requires r == OnAck(c, v, w.sends[k].payload)
    ensures Inv(c, b, r) && Measure(c, r) <= Measure(c, w)
  {
    var p := w.sends[k].payload;
    var booked := v.(xfer := AckedTransfer(w.xfer, p, w.now));
    ResolvedKeeps(c, b, w, k, booked);
    if p.Data? {
      StartedForData(b, w, k);
      DataCallback(c, v, p, booked);
      ChunkCallbackKeeps(c, b, w, booked);
    } else {
      OtherCallback(c, v, p, booked);
    }
  }

  lemma OtherCallback(c: Config, v: World, p: Payload, booked: World)
    requires !p.Data? && booked == v.(xfer := AckedTransfer(v.xfer, p, v.now))
    ensures OnAck(c, v, p) == booked
  {}

  /** Popping the entry and observing the medium happen in either order. */
  lemma ResolveSplits(w: World, k: nat, o: World)
    requires k < |w.sends| && o == ObserveOn(w, w.sends[k].medium, true)
    ensures o.sends == w.sends && o.server == w.server && o.xfer == w.xfer
    ensures Resolve(w, k) == o.(sends := o.sends[k := AckedEntry(o.sends[k])])
  {}

  lemma FirstAckKeeps(c: Config, b: nat, v: World, k: nat, r: World)
    requires Inv(c, b, v) && k < |v.sends| && v.sends[k].fate == Pending && k in v.server.seen
    requires r == OnAck(c, Resolve(v, k), v.sends[k].payload)
    ensures Inv(c, b, r) && Measure(c, r) <= Measure(c, v)
  {
    var o := ObserveOn(v, v.sends[k].medium, true);
    ObserveKeeps(c, b, v, v.sends[k].medium, true, -1);
    ResolveSplits(v, k, o);
    CallbackKeeps(c, b, o, k, Resolve(v, k), r);
  }

  lemma AckArrivesKeeps(c: Config, b: nat, w: World, k: nat, via: nat)
    requires Inv(c, b, w) && k < |w.sends| && via < |w.mediums| && k in w.server.seen
    ensures Inv(c, b, AckArrives(c, w, k, via)) && Measure(c, AckArrives(c, w, k, via)) <= Measure(c, w)
  {
    DeliveredKeeps(c, b, w, via);
    if w.sends[k].fate == Pending {
      FirstAckKeeps(c, b, Delivered(w, via), k, AckArrives(c, w, k, via));
    }
  }

  lemma TimeoutKeeps(c: Config, b: nat, w: World, k: nat)
    requires k < |w.sends| && Core(c, b, w, if w.sends[k].fate == Pending then k else -1) && Signed(c, w)
    ensures Inv(c, b, TimeoutStep(c, w, k)) && Measure(c, TimeoutStep(c, w, k)) <= Measure(c, w)
  {
    if w.sends[k].fate == Pending {
      ObserveKeeps(c, b, w, w.sends[k].medium, false, k);
      var o := ObserveOn(w, w.sends[k].medium, false);
      assert ItemOk(b, w, k, w.sends[k]);
      if w.sends[k].tries >= MAX_TRIES {
        FailKeeps(c, b, o, k);
      } else {
        TxKeeps(c, b, o, k);
      }
    }
  }

  /** Every event, whichever is taken from the bag, keeps the invariant and lowers the measure. */
  lemma FireKeeps(c: Config, b: nat, w: World, i: nat)
    requires Inv(c, b, w) && i < |w.queue|
    ensures EventInRange(w, w.queue[i].event)
    ensures Inv(c, b, Fire(c, w, i)) && Measure(c, Fire(c, w, i)) < Measure(c, w)
  {
    assert EventOk(w, w.queue[i].event);
    PopKeeps(c, b, w, i);
    HandleKeeps(c, b, Popped(w, i), w.queue[i].event);
  }

  /** Handling an event once it is out of the bag; a timer or a wait leaves its entry without one. */
  lemma HandleKeeps(c: Config, b: nat, v: World, ev: Event)
    requires EventOk(v, ev) && Core(c, b, v, HoleOf(v, ev)) && Signed(c, v)
    ensures Inv(c, b, Handle(c, v, ev)) && Measure(c, Handle(c, v, ev)) < Measure(c, v) + if ev.Arrive? then 2 else 1
  {
    match ev {
      case Retry(k) => RetryKeeps(c, b, v, k);
      case Timeout(k, _) => TimeoutKeeps(c, b, v, k);
      case Arrive(k, via) => ArriveKeeps(c, b, v, k, via);
      case AckArrive(k, via) => AckArrivesKeeps(c, b, v, k, via);
    }
  }

  lemma RetryKeeps(c: Config, b: nat, v: World, k: nat)
    requires EventOk(v, Retry(k)) && Core(c, b, v, HoleOf(v, Retry(k))) && Signed(c, v)
    ensures Inv(c, b, Tx(c, v, k)) && Measure(c, Tx(c, v, k)) <= Measure(c, v)
  {
    if v.sends[k].fate == Pending {
      TxKeeps(c, b, v, k);
    }
  }

  lemma ArriveKeeps(c: Config, b: nat, v: World, k: nat, via: nat)
    requires k < |v.sends| && via < |v.mediums| && Core(c, b, v, -1) && Signed(c, v)
    ensures Inv(c, b, FrameArrives(c, v, k, via)) && Measure(c, FrameArrives(c, v, k, via)) <= Measure(c, v) + 1
  {
    FrameArrivesKeeps(c, b, v, k, via);
  }
}
