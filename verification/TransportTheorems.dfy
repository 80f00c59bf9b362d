/** What holds in every run of the transport: any losses, orders, duplicates, outages and heartbeats. */
module TransportTheorems {
  import opened Options
  import opened Mediums
  import opened Sums
  import opened Transport
  import opened TransportInvariant

  ghost predicate MtusWithin(b: nat, mediums: seq<Medium>) {
    128 <= b && forall i :: 0 <= i < |mediums| ==> mediums[i].mtu <= b
  }

  const IDLE := Transfer(false, 0, 0, 0, 0, 0, None, false)

  lemma EmptyWorldCore(c: Config, b: nat, w: World)
    requires MtusWithin(b, w.mediums) && w.queue == [] && w.sends == [] && w.xfer == IDLE
    requires w.server == Server(false, {}, 0, 0, 0, 0, 0)
    ensures Core(c, b, w, -1) && Measure(c, w) <= 2 * c.total * FRESH
  {}

  lemma JoinSent(c: Config, b: nat, w: World, r: World)
    requires Core(c, b, w, -1) && w.xfer == IDLE && r == SendPayload(c, w, Join)
    ensures Inv(c, b, r) && Measure(c, r) <= Measure(c, w) + FRESH
  {
    assert w.(xfer := w.xfer) == w;
    SendKeeps(c, b, w, Join, w.xfer);
  }

  lemma InitialInv(c: Config, b: nat, mediums: seq<Medium>)
    requires MtusWithin(b, mediums)
    ensures Inv(c, b, Initial(c, mediums))
    ensures Measure(c, Initial(c, mediums)) <= (2 * c.total + 1) * FRESH
  {
    var w := World(0.0, 0, 0, [], mediums, [], Server(false, {}, 0, 0, 0, 0, 0), IDLE);
    EmptyWorldCore(c, b, w);
    JoinSent(c, b, w, Initial(c, mediums));
  }

  lemma StartKeeps(c: Config, b: nat, w: World)
    requires Inv(c, b, w) && w.server.admitted && !w.xfer.started
    ensures var r := w.(xfer := w.xfer.(started := true));
            Core(c, b, r, -1) && Caught(c, r) && Measure(c, r) == Measure(c, w)
  {
    var r := w.(xfer := w.xfer.(started := true));
    forall k | 0 <= k < |r.sends|
      ensures ItemOk(b, r, k, r.sends[k])
    {
      assert ItemOk(b, w, k, w.sends[k]);
    }
    SameEntries(c, w, r);
  }

  function IsFire(s: Step): nat { if s.FireEvent? then 1 else 0 }
  function IsBeat(s: Step): nat { if s.Beat? then 1 else 0 }

  /** The step from w to r kept the invariant; a fired event lowered the measure, only a heartbeat raised it. */
  ghost predicate Kept(c: Config, b: nat, w: World, s: Step, r: World) {
    Inv(c, b, r) && Measure(c, r) + IsFire(s) <= Measure(c, w) + IsBeat(s) * FRESH
  }

  lemma FireStep(c: Config, b: nat, w: World, i: nat)
    requires Inv(c, b, w) && i < |w.queue| && Enabled(w, FireEvent(i))
    ensures Kept(c, b, w, FireEvent(i), Next(c, w, FireEvent(i)))
  {
    FireKeeps(c, b, w, i);
    FiredKept(c, b, w, i, Fire(c, w, i));
  }

  lemma FiredKept(c: Config, b: nat, w: World, i: nat, r: World)
    requires Inv(c, b, r) && Measure(c, r) < Measure(c, w)
    ensures Kept(c, b, w, FireEvent(i), r)
  {}

  lemma OutageStep(c: Config, b: nat, w: World, m: nat, up: bool)
    requires Inv(c, b, w) && m < |w.mediums|
    ensures Kept(c, b, w, SetUp(m, up), Next(c, w, SetUp(m, up)))
  {
    MediumChanged(c, b, w, m, w.mediums[m].(up := up), w.draws, -1);
  }

  lemma StartStep(c: Config, b: nat, w: World)
    requires Inv(c, b, w) && w.server.admitted && !w.xfer.started
    ensures Kept(c, b, w, StartTransfer, Next(c, w, StartTransfer))
  {
    StartKeeps(c, b, w);
    PumpKeeps(c, b, w.(xfer := w.xfer.(started := true)));
  }

  lemma BeatStep(c: Config, b: nat, w: World, n: nat)
    requires Inv(c, b, w)
    ensures Kept(c, b, w, Beat(n), Next(c, w, Beat(n)))
  {
    SendKeeps(c, b, w, Telemetry(n), w.xfer);
  }

  /** One step of any kind. */
  lemma NextKeeps(c: Config, b: nat, w: World, s: Step)
    requires Inv(c, b, w) && Enabled(w, s)
    ensures Kept(c, b, w, s, Next(c, w, s))
  {
    match s {
      case FireEvent(i) => FireStep(c, b, w, i);
      case SetUp(m, up) => OutageStep(c, b, w, m, up);
      case StartTransfer => StartStep(c, b, w);
      case Beat(n) => BeatStep(c, b, w, n);
    }
  }

  function Fires(steps: seq<Step>): nat { Sum(steps, IsFire) }
  function Beats(steps: seq<Step>): nat { Sum(steps, IsBeat) }

  ghost predicate WithinWork(c: Config, b: nat, w: World, fires: nat, beats: nat) {
    Inv(c, b, w) && Measure(c, w) + fires <= (2 * c.total + 1 + beats) * FRESH
  }

  lemma StepOfRun(c: Config, b: nat, v: World, s: Step, r: World, fires: nat, beats: nat, fires': nat, beats': nat)
    requires WithinWork(c, b, v, fires, beats) && Kept(c, b, v, s, r)
    requires fires' == fires + IsFire(s) && beats' == beats + IsBeat(s)
    ensures WithinWork(c, b, r, fires', beats')
  {}

  lemma OneMoreStep(steps: seq<Step>, s: Step)
    ensures Fires(steps + [s]) == Fires(steps) + IsFire(s) && Beats(steps + [s]) == Beats(steps) + IsBeat(s)
  {
    SumAppend(steps, s, IsFire);
    SumAppend(steps, s, IsBeat);
  }

  lemma RunUnfolds(c: Config, mediums: seq<Medium>, steps: seq<Step>, s: Step)
    requires Run(c, mediums, steps + [s]).Some?
    ensures Run(c, mediums, steps).Some? && Enabled(Run(c, mediums, steps).value, s)
    ensures Run(c, mediums, steps + [s]).value == Next(c, Run(c, mediums, steps).value, s)
  {
    assert (steps + [s])[..|steps|] == steps;
  }

  /** Every run keeps the invariant, and can only fire as many events as its workload pays for. */
  lemma {:induction false} RunKeeps(c: Config, b: nat, mediums: seq<Medium>, steps: seq<Step>)
    requires MtusWithin(b, mediums) && Run(c, mediums, steps).Some?
    ensures WithinWork(c, b, Run(c, mediums, steps).value, Fires(steps), Beats(steps))
    decreases |steps|
  {
    if steps == [] {
      InitialInv(c, b, mediums);
    } else {
      var front, last := steps[..|steps| - 1], steps[|steps| - 1];
      assert steps == front + [last];
      RunUnfolds(c, mediums, front, last);
      RunKeeps(c, b, mediums, front);
      RunKeepsOnce(c, b, mediums, front, last);
    }
  }

  lemma RunKeepsOnce(c: Config, b: nat, mediums: seq<Medium>, front: seq<Step>, last: Step)
    requires Run(c, mediums, front + [last]).Some? && Run(c, mediums, front).Some?
    requires WithinWork(c, b, Run(c, mediums, front).value, Fires(front), Beats(front))
    ensures WithinWork(c, b, Run(c, mediums, front + [last]).value, Fires(front + [last]), Beats(front + [last]))
  {
    RunUnfolds(c, mediums, front, last);
    OneMoreStep(front, last);
    NextKeeps(c, b, Run(c, mediums, front).value, last);
    StepOfRun(c, b, Run(c, mediums, front).value, last, Next(c, Run(c, mediums, front).value, last),
              Fires(front), Beats(front), Fires(front + [last]), Beats(front + [last]));
  }

  // ------------------------------------------------------------------ reliable sends resolve

  /** In every reachable world a pending send has exactly one timer or wait in the bag, and its counters are bounded. */
  lemma OneLiveTimer(c: Config, b: nat, mediums: seq<Medium>, steps: seq<Step>, k: nat)
    requires MtusWithin(b, mediums) && Run(c, mediums, steps).Some?
    requires k < |Run(c, mediums, steps).value.sends|
    ensures var w := Run(c, mediums, steps).value;
            && (w.sends[k].fate == Pending ==> Sum(w.queue, LiveFor(k)) == 1)
            && w.sends[k].tries <= 30 && w.sends[k].waits <= 4001
            && w.sends[k].dispatched <= 1
            && w.sends[k].acks + w.sends[k].fails == if w.sends[k].fate == Pending then 0 else 1
  {
    RunKeeps(c, b, mediums, steps);
    var w := Run(c, mediums, steps).value;
    assert ItemOk(b, w, k, w.sends[k]);
  }

  /** When the bag is empty every send has taken exactly one of its ack and fail exits, exactly once. */
  lemma DrainedMeansResolved(c: Config, b: nat, mediums: seq<Medium>, steps: seq<Step>)
    requires MtusWithin(b, mediums) && Run(c, mediums, steps).Some?
    requires Run(c, mediums, steps).value.queue == []
    ensures var w := Run(c, mediums, steps).value;
            forall k :: 0 <= k < |w.sends| ==>
              && w.sends[k].fate != Pending
              && w.sends[k].acks + w.sends[k].fails == 1
              && (w.sends[k].acks == 1 ==> w.sends[k].dispatched == 1)
  {
    var w := Run(c, mediums, steps).value;
    forall k | 0 <= k < |w.sends|
      ensures && w.sends[k].fate != Pending && w.sends[k].acks + w.sends[k].fails == 1
              && (w.sends[k].acks == 1 ==> w.sends[k].dispatched == 1)
    {
      RunKeeps(c, b, mediums, steps);
      assert ItemOk(b, w, k, w.sends[k]);
      assert Sum(w.queue, LiveFor(k)) == 0;
    }
  }

  /** A run is never longer than its work: total bytes and heartbeats bound the events it can fire. */
  lemma EventLoopDrains(c: Config, b: nat, mediums: seq<Medium>, steps: seq<Step>)
    requires MtusWithin(b, mediums) && Run(c, mediums, steps).Some?
    ensures Fires(steps) <= (2 * c.total + 1 + Beats(steps)) * FRESH
  {
    RunKeeps(c, b, mediums, steps);
  }

  /**
   The timeout handler compares the try counter with itself, because its closure reads the counter late. Comparing
   with the try the timer was armed for would do exactly the same in every reachable world.
   */
  lemma LateReadIsHarmless(c: Config, b: nat, mediums: seq<Medium>, steps: seq<Step>, i: nat)
    requires MtusWithin(b, mediums) && Run(c, mediums, steps).Some?
    requires i < |Run(c, mediums, steps).value.queue| && Run(c, mediums, steps).value.queue[i].event.Timeout?
    ensures var w := Run(c, mediums, steps).value;
            var ev := w.queue[i].event;
            ev.k < |w.sends| && Fire(c, w, i) == TimeoutWith(c, Popped(w, i), ev.k, ev.armed)
  {
    RunKeeps(c, b, mediums, steps);
    var w := Run(c, mediums, steps).value;
    assert EventOk(w, w.queue[i].event);
  }

  // ------------------------------------------------------------------ the transfer

  lemma SeenWithinSent(b: nat, w: World)
    requires Items(b, w) && Books(w)
    ensures w.xfer.acked <= w.server.delivered <= w.xfer.offset
  {
    forall k | 0 <= k < |w.sends|
      ensures AckedBytes(w.sends[k]) <= SeenBytes(w.sends[k])
    {
      assert ItemOk(b, w, k, w.sends[k]);
    }
    SumBound(w.sends, AckedBytes, SeenBytes);
    SumBound(w.sends, SeenBytes, DataBytes);
  }

  /** The chain of counters, in every reachable world. */
  lemma CountersOrdered(c: Config, b: nat, mediums: seq<Medium>, steps: seq<Step>)
    requires MtusWithin(b, mediums) && Run(c, mediums, steps).Some?
    ensures var w := Run(c, mediums, steps).value;
            w.server.proven <= w.xfer.lastReceiptAt <= w.xfer.acked
            && w.xfer.acked <= w.server.delivered <= w.xfer.offset <= c.total
  {
    RunKeeps(c, b, mediums, steps);
    SeenWithinSent(b, Run(c, mediums, steps).value);
  }

  /**
   A new chunk fits the medium that carries it first, and is all that medium takes unless it is the last one; with no live
   medium it is at most 128 bytes and waits.
   */
  lemma ChunkFitsItsMedium(c: Config, w: World, choice: Option<nat>)
    requires w.xfer.offset < c.total && IsBest(w.mediums, w.now, choice)
    ensures var r := SendChunk(c, w, ChunkSize(c, w));
            var s := r.sends[|w.sends|];
            var limit := if choice.Some? then w.mediums[choice.value].mtu else 128;
            && s.payload.Data? && 1 <= s.payload.len <= limit && r.xfer.offset == w.xfer.offset + s.payload.len
            && (s.payload.len == limit || r.xfer.offset == c.total)
            && s.medium == choice && s.tries == (if choice.Some? then 1 else 0)
  {
    BestIsBest(w.mediums, w.now);
    BestUnique(w.mediums, w.now, choice, Best(w.mediums, w.now));
  }

  /** A chunk is never cut again: a failover to a medium of a smaller MTU carries it whole. */
  lemma FailoverKeepsChunk(c: Config, w: World, k: nat, i: nat)
    requires k < |w.sends| && w.sends[k].fate == Pending && IsBest(w.mediums, w.now, Some(i))
    ensures var s := Tx(c, w, k).sends[k];
            s.payload == w.sends[k].payload && s.medium == Some(i) && s.tries == w.sends[k].tries + 1
  {
    BestIsBest(w.mediums, w.now);
    BestUnique(w.mediums, w.now, Some(i), Best(w.mediums, w.now));
  }

  /** A finished transfer was delivered and proven in full, and lost nothing. */
  lemma DoneMeansProven(c: Config, b: nat, mediums: seq<Medium>, steps: seq<Step>)
    requires MtusWithin(b, mediums) && Run(c, mediums, steps).Some?
    requires Run(c, mediums, steps).value.xfer.doneAt.Some?
    ensures var w := Run(c, mediums, steps).value;
            && w.server.proven == w.server.delivered == w.xfer.acked == w.xfer.offset == c.total
            && !w.xfer.failed
  {
    RunKeeps(c, b, mediums, steps);
    var w := Run(c, mediums, steps).value;
    SeenWithinSent(b, w);
    var k :| 0 <= k < |w.sends| && w.sends[k].payload == Receipt(c.total, true) && w.sends[k].fate == Acked;
    assert ItemOk(b, w, k, w.sends[k]);
    if w.xfer.failed {
      var j :| 0 <= j < |w.sends| && w.sends[j].payload.Data? && w.sends[j].fate == Failed;
      assert ItemOk(b, w, j, w.sends[j]);
      GapIsOpen(w, j);
    }
  }

  /** A failed chunk is missing from the acked bytes for good. */
  lemma GapIsOpen(w: World, j: nat)
    requires Books(w) && j < |w.sends| && w.sends[j].payload.Data? && w.sends[j].fate == Failed && w.sends[j].payload.len > 0
    ensures w.xfer.acked < w.xfer.offset
  {
    SumWithout(w.sends, j, AckedBytes);
    SumWithout(w.sends, j, DataBytes);
    SumBound(Without(w.sends, j), AckedBytes, DataBytes);
  }

  function InFlightBytes(s: Send): nat { if s.fate == Pending then DataBytes(s) else 0 }
  function FailedBytes(s: Send): nat { if s.fate == Failed then DataBytes(s) else 0 }

  lemma {:induction false} BytesSplit(s: seq<Send>)
    ensures Sum(s, DataBytes) == Sum(s, AckedBytes) + Sum(s, InFlightBytes) + Sum(s, FailedBytes)
  {
    if s != [] {
      BytesSplit(s[..|s| - 1]);
    }
  }

  lemma {:induction false} OpenBytesBound(b: nat, s: seq<Send>)
    requires forall k :: 0 <= k < |s| && s[k].payload.Data? ==> s[k].payload.len <= b
    ensures Sum(s, DataBytes) <= Sum(s, AckedBytes) + Sum(s, OpenChunk) * b
  {
    if s != [] {
      OpenBytesBound(b, s[..|s| - 1]);
      var last := s[|s| - 1];
      assert (Sum(s[..|s| - 1], OpenChunk) + OpenChunk(last)) * b == Sum(s[..|s| - 1], OpenChunk) * b + OpenChunk(last) * b;
    }
  }

  /** Nothing sent is lost track of, and the window bounds what the node serves beyond the last signature. */
  lemma ReceiptWindow(c: Config, b: nat, mediums: seq<Medium>, steps: seq<Step>)
    requires MtusWithin(b, mediums) && Run(c, mediums, steps).Some?
    ensures var w := Run(c, mediums, steps).value;
            && w.xfer.offset == w.xfer.acked + Sum(w.sends, InFlightBytes) + Sum(w.sends, FailedBytes)
            && 0 <= w.xfer.outstanding <= c.window
            && (c.receiptEvery > 0 ==> w.xfer.acked - w.xfer.lastReceiptAt < c.receiptEvery)
            && (c.receiptEvery > 0 ==> w.server.delivered - w.xfer.lastReceiptAt < c.receiptEvery + c.window * b)
  {
    RunKeeps(c, b, mediums, steps);
    var w := Run(c, mediums, steps).value;
    BytesSplit(w.sends);
    SeenWithinSent(b, w);
    forall k | 0 <= k < |w.sends| && w.sends[k].payload.Data?
      ensures w.sends[k].payload.len <= b
    {
      assert ItemOk(b, w, k, w.sends[k]);
    }
    OpenBytesBound(b, w.sends);
    Scaled(Sum(w.sends, OpenChunk), c.window, b);
  }

  lemma Scaled(x: nat, y: nat, b: nat)
    requires x <= y
    ensures x * b <= y * b
  {}

  lemma AllAcked(w: World)
    requires Books(w)
    requires forall k :: 0 <= k < |w.sends| && w.sends[k].payload.Data? ==> w.sends[k].fate == Acked
    ensures w.xfer.outstanding == 0 && w.xfer.acked == w.xfer.offset
  {
    SumZero(w.sends, OpenChunk);
    SumBound(w.sends, DataBytes, AckedBytes);
    SumBound(w.sends, AckedBytes, DataBytes);
  }
}
