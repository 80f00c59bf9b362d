/**
 The XKP reliable transport of protocol/xkp/sim.py as a state machine: one client, one serving node, the
 mediums between them, an event bag, and one windowed transfer with cumulative receipts.

 Sequence number k + 1 of the client is index k of `sends`. An entry still pending is what the source keeps in
 `_pending`; the counters acks, fails and dispatched of an entry only record history. Callbacks are the payload
 itself. Randomness is a stream of draws, so a run is determined by its configuration, as it is per seed in the source.
 */
module Transport {
  import opened Options
  import opened Mediums
  import opened Sums

  const MAX_TRIES := 30
  const MAX_MEDIUM_WAITS := 4000
  const OVERHEAD := 29

  datatype Payload =
    | Join
    | Data(len: nat)
    | Receipt(cumulative: nat, final: bool)
    | Telemetry(len: nat)

  datatype Fate = Pending | Acked | Failed

  datatype Send = Send(payload: Payload, fate: Fate, tries: nat, waits: nat, medium: Option<nat>,
                       acks: nat, fails: nat, dispatched: nat)

  /** `armed` records the try a timer was set for; the handler does not read it, see TimeoutStep. */
  datatype Event =
    | Retry(k: nat)
    | Timeout(k: nat, armed: nat)
    | Arrive(k: nat, via: nat)
    | AckArrive(k: nat, via: nat)

  datatype Timed = Timed(at: real, order: nat, event: Event)

  datatype Server = Server(admitted: bool, seen: set<nat>, delivered: nat, proven: nat, maxUnproven: int,
                           verified: nat, rejected: nat)

  datatype Transfer = Transfer(started: bool, offset: nat, acked: nat, outstanding: int, lastReceiptAt: nat,
                               receiptsSent: nat, doneAt: Option<real>, failed: bool)

  datatype World = World(now: real, order: nat, draws: nat, queue: seq<Timed>, mediums: seq<Medium>,
                         sends: seq<Send>, server: Server, xfer: Transfer)

  datatype Config = Config(total: nat, receiptEvery: nat, window: nat, rng: nat -> real)

  function WireSize(p: Payload): nat {
    OVERHEAD + match p
               case Join => 96
               case Data(n) => n
               case Receipt(_, _) => 108
               case Telemetry(n) => n
  }

  /** Sim.at. */
  function At(w: World, t: real, ev: Event): World {
    w.(queue := w.queue + [Timed(t, w.order, ev)], order := w.order + 1)
  }

  /** The failing exit of _tx and _timeout: forget the entry, run on_fail. Only DATA carries one. */
  function Fail(w: World, k: nat): World
    requires k < |w.sends|
  {
    var s := w.sends[k];
    w.(sends := w.sends[k := s.(fate := Failed, fails := s.fails + 1)],
       xfer := if s.payload.Data? then w.xfer.(failed := true) else w.xfer)
  }

  /** _tx with no live medium. */
  function Wait(w: World, k: nat): World
    requires k < |w.sends|
  {
    var w1 := w.(sends := w.sends[k := w.sends[k].(waits := w.sends[k].waits + 1)]);
    if w1.sends[k].waits > MAX_MEDIUM_WAITS then Fail(w1, k) else At(w1, w1.now + 0.25, Retry(k))
  }

  /** When a frame of entry k handed to medium i now has left the air. */
  function AirEnd(w: World, k: nat, i: nat): real
    requires k < |w.sends| && i < |w.mediums|
  {
    MaxReal(w.now, w.mediums[i].busyUntil) + AirtimeFor(w.mediums[i], WireSize(w.sends[k].payload))
  }

  /** _tx on medium i: the attempt is counted and the medium is occupied. */
  function Charge(w: World, k: nat, i: nat, lost: bool): World
    requires k < |w.sends| && i < |w.mediums|
  {
    var s, m := w.sends[k], w.mediums[i];
    w.(sends := w.sends[k := s.(tries := s.tries + 1, medium := Some(i))],
       mediums := w.mediums[i := m.(busyUntil := AirEnd(w, k, i), txFrames := m.txFrames + 1,
                                    lostFrames := m.lostFrames + if lost then 1 else 0)],
       draws := w.draws + 1)
  }

  /** The two events of an attempt: the arrival unless the frame is lost, and the timer. */
  function Launch(w: World, k: nat, i: nat, lost: bool, arrival: real, deadline: real): World
    requires k < |w.sends|
  {
    var v := if lost then w else At(w, arrival, Arrive(k, i));
    At(v, deadline, Timeout(k, w.sends[k].tries))
  }

  function Transmit(c: Config, w: World, k: nat, i: nat): World
    requires k < |w.sends| && i < |w.mediums|
  {
    var latency := w.mediums[i].latency;
    var arrival := AirEnd(w, k, i) + latency;
    var lost := c.rng(w.draws) < w.mediums[i].loss;
    Launch(Charge(w, k, i, lost), k, i, lost, arrival,
           w.now + ((arrival - w.now) * 2.0 + 4.0 * latency + 0.05))
  }

  function Tx(c: Config, w: World, k: nat): World
    requires k < |w.sends|
  {
    if w.sends[k].fate != Pending then w
    else match Best(w.mediums, w.now)
      case None => Wait(w, k)
      case Some(i) => Transmit(c, w, k, i)
  }

  /** Node.send. */
  function SendPayload(c: Config, w: World, p: Payload): (r: World)
    ensures r.xfer.(failed := false) == w.xfer.(failed := false)
  {
    Tx(c, w.(sends := w.sends + [Send(p, Pending, 0, 0, None, 0, 0, 0)]), |w.sends|)
  }

  function ObserveOn(w: World, i: Option<nat>, success: bool): World {
    if i.Some? && i.value < |w.mediums|
    then w.(mediums := w.mediums[i.value := Observe(w.mediums[i.value], success, w.now)])
    else w
  }

  /**
   _timeout. The source's lambda reads the try counter when it fires, so the number it compares with is the
   current one: `atTry` below is that value, and the guard can only stop an entry that is no longer pending.
   */
  function TimeoutWith(c: Config, w: World, k: nat, atTry: nat): World
    requires k < |w.sends|
  {
    if w.sends[k].fate != Pending || w.sends[k].tries != atTry then w
    else
      var w1 := ObserveOn(w, w.sends[k].medium, false);
      if w1.sends[k].tries >= MAX_TRIES then Fail(w1, k) else Tx(c, w1, k)
  }

  function TimeoutStep(c: Config, w: World, k: nat): World
    requires k < |w.sends|
  {
    TimeoutWith(c, w, k, w.sends[k].tries)
  }

  /** The serving node's _ack: not queued behind data, lost with the medium's probability. */
  function AckBack(c: Config, w: World, k: nat, via: nat): World
    requires via < |w.mediums|
  {
    var m := w.mediums[via];
    var lost := c.rng(w.draws) < m.loss;
    var w1 := w.(mediums := w.mediums[via := m.(txFrames := m.txFrames + 1,
                                                lostFrames := m.lostFrames + if lost then 1 else 0)],
                 draws := w.draws + 1);
    if lost then w1 else At(w1, w.now + AirtimeFor(m, OVERHEAD + 4) + m.latency, AckArrive(k, via))
  }

  /** _dispatch at the serving node, for a frame seen the first time. */
  function Dispatch(v: Server, p: Payload): Server {
    match p
    case Join => v.(admitted := true)
    case Data(n) =>
      if !v.admitted then v
      else
        var unproven := v.delivered + n - v.proven;
        v.(delivered := v.delivered + n, maxUnproven := if unproven > v.maxUnproven then unproven else v.maxUnproven)
    case Receipt(cumulative, _) =>
      if !v.admitted then v.(rejected := v.rejected + 1)
      else v.(proven := if cumulative > v.proven then cumulative else v.proven, verified := v.verified + 1)
    case Telemetry(_) => v
  }

  function Delivered(w: World, via: nat): World
    requires via < |w.mediums|
  {
    w.(mediums := w.mediums[via := w.mediums[via].(deliveredFrames := w.mediums[via].deliveredFrames + 1)])
  }

  /** _rx of a frame that asks for an ack. */
  function FrameArrives(c: Config, w: World, k: nat, via: nat): World
    requires k < |w.sends| && via < |w.mediums|
  {
    var w1 := AckBack(c, Delivered(w, via), k, via);
    if k in w1.server.seen then w1
    else
      var s := w1.sends[k];
      w1.(server := Dispatch(w1.server.(seen := w1.server.seen + {k}), s.payload),
          sends := w1.sends[k := s.(dispatched := s.dispatched + 1)])
  }

  /** The next chunk: the best medium's MTU, or 128 with no live medium, or what is left. */
  function ChunkSize(c: Config, w: World): nat
    requires w.xfer.offset < c.total
  {
    var best := Best(w.mediums, w.now);
    var mtu := if best.Some? then w.mediums[best.value].mtu else 128;
    if mtu < c.total - w.xfer.offset then mtu else c.total - w.xfer.offset
  }

  function SendChunk(c: Config, w: World, n: nat): World {
    SendPayload(c, w.(xfer := w.xfer.(offset := w.xfer.offset + n, outstanding := w.xfer.outstanding + 1)), Data(n))
  }

  /** _pump: chunks while the window has room and bytes are left. */
  function Pump(c: Config, w: World): World
    decreases c.window - w.xfer.outstanding
  {
    if w.xfer.outstanding < c.window && w.xfer.offset < c.total
    then Pump(c, SendChunk(c, w, ChunkSize(c, w))) else w
  }

  function SendReceipt(c: Config, w: World, final: bool): World {
    var w1 := w.(xfer := w.xfer.(lastReceiptAt := w.xfer.acked, receiptsSent := w.xfer.receiptsSent + 1));
    SendPayload(c, w1, Receipt(w.xfer.acked, final))
  }

  /** _on_chunk_ack, up to the pump. */
  function ReceiptIfDue(c: Config, w: World): World {
    if w.xfer.acked - w.xfer.lastReceiptAt >= c.receiptEvery || w.xfer.acked >= c.total
    then SendReceipt(c, w, w.xfer.acked >= c.total) else w
  }

  function Counted(w: World, n: nat): World {
    w.(xfer := w.xfer.(outstanding := w.xfer.outstanding - 1, acked := w.xfer.acked + n))
  }

  function ChunkAcked(c: Config, w: World, n: nat): World {
    Pump(c, ReceiptIfDue(c, Counted(w, n)))
  }

  function OnAck(c: Config, w: World, p: Payload): World {
    match p
    case Data(n) => ChunkAcked(c, w, n)
    case Receipt(_, final) =>
      if final && w.xfer.doneAt == None then w.(xfer := w.xfer.(doneAt := Some(w.now))) else w
    case _ => w
  }

  /** Popping the pending entry on its first ack. */
  function Resolve(w: World, k: nat): World
    requires k < |w.sends|
  {
    var s := w.sends[k];
    ObserveOn(w.(sends := w.sends[k := s.(fate := Acked, acks := s.acks + 1)]), s.medium, true)
  }

  /** _rx of an ack. */
  function AckArrives(c: Config, w: World, k: nat, via: nat): World
    requires k < |w.sends| && via < |w.mediums|
  {
    var w1 := Delivered(w, via);
    if w1.sends[k].fate != Pending then w1 else OnAck(c, Resolve(w1, k), w1.sends[k].payload)
  }

  predicate EventInRange(w: World, ev: Event) {
    ev.k < |w.sends| && match ev
                        case Arrive(_, via) => via < |w.mediums|
                        case AckArrive(_, via) => via < |w.mediums|
                        case _ => true
  }

  function Handle(c: Config, w: World, ev: Event): World
    requires EventInRange(w, ev)
  {
    match ev
    case Retry(k) => Tx(c, w, k)
    case Timeout(k, _) => TimeoutStep(c, w, k)
    case Arrive(k, via) => FrameArrives(c, w, k, via)
    case AckArrive(k, via) => AckArrives(c, w, k, via)
  }

  function Popped(w: World, i: nat): World
    requires i < |w.queue|
  {
    w.(queue := Without(w.queue, i), now := w.queue[i].at)
  }

  /** One iteration of Sim.run, for an arbitrary choice of event. */
  function Fire(c: Config, w: World, i: nat): World
    requires i < |w.queue| && EventInRange(w, w.queue[i].event)
  {
    Handle(c, Popped(w, i), w.queue[i].event)
  }

  /** What the event loop pops: the earliest event, and of two at one time the one scheduled first. */
  ghost predicate Earliest(q: seq<Timed>, i: nat) {
    && i < |q|
    && forall j :: 0 <= j < |q| ==> q[i].at < q[j].at || (q[i].at == q[j].at && q[i].order <= q[j].order)
  }

  /** What a scenario does between events. */
  datatype Step =
    | FireEvent(i: nat)
    | SetUp(m: nat, up: bool)
    | StartTransfer
    | Beat(len: nat)

  predicate Enabled(w: World, s: Step) {
    match s
    case FireEvent(i) => i < |w.queue| && EventInRange(w, w.queue[i].event)
    case SetUp(m, _) => m < |w.mediums|
    case StartTransfer => w.server.admitted && !w.xfer.started
    case Beat(_) => true
  }

  function Next(c: Config, w: World, s: Step): World
    requires Enabled(w, s)
  {
    match s
    case FireEvent(i) => Fire(c, w, i)
    case SetUp(m, up) => w.(mediums := w.mediums[m := w.mediums[m].(up := up)])
    case StartTransfer => Pump(c, w.(xfer := w.xfer.(started := true)))
    case Beat(n) => SendPayload(c, w, Telemetry(n))
  }

  /** admit() on a fresh pair of nodes. */
  function Initial(c: Config, mediums: seq<Medium>): World {
    SendPayload(c, World(0.0, 0, 0, [], mediums, [], Server(false, {}, 0, 0, 0, 0, 0),
                         Transfer(false, 0, 0, 0, 0, 0, None, false)), Join)
  }

  /** The world a scenario leads to, None if it asks for a step that is not possible where it stands. */
  function Run(c: Config, mediums: seq<Medium>, steps: seq<Step>): Option<World> {
    if steps == [] then Some(Initial(c, mediums))
    else
      var n := |steps| - 1;
      match Run(c, mediums, steps[..n])
      case None => None
      case Some(v) => if Enabled(v, steps[n]) then Some(Next(c, v, steps[n])) else None
  }
}
