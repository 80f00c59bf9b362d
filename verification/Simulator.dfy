/** The simulator objects of protocol/xkp/sim.py with their fields updated in place, proved against Transport. */
module Simulator {
  import opened Options
  import opened Mediums
  import opened Sums
  import opened Transport
  import opened TransportInvariant

  class Simulation {
    const c: Config
    var now: real
    var order: nat
    var draws: nat
    var queue: seq<Timed>
    var mediums: seq<Medium>
    var sends: seq<Send>
    var server: Server
    var xfer: Transfer

    ghost function State(): World
      reads this
    {
      World(now, order, draws, queue, mediums, sends, server, xfer)
    }

    /** Two fresh nodes and the client's JOIN_REQ. */
    constructor (c: Config, mediums: seq<Medium>)
      ensures this.c == c && State() == Initial(c, mediums)
    {
      this.c := c;
      this.now, this.order, this.draws := 0.0, 0, 0;
      this.queue, this.mediums, this.sends := [], mediums, [];
      this.server := Server(false, {}, 0, 0, 0, 0, 0);
      this.xfer := Transfer(false, 0, 0, 0, 0, 0, None, false);
      new;
      SendFrame(Join);
    }

    /** Sim.at. */
    method Schedule(t: real, ev: Event)
      modifies this
      ensures State() == At(old(State()), t, ev)
    {
      queue := queue + [Timed(t, order, ev)];
      order := order + 1;
    }

    /** The loss draw of one transmission. */
    method Draw(loss: real) returns (lost: bool)
      modifies this
      ensures lost == (c.rng(old(draws)) < loss) && State() == old(State()).(draws := old(draws) + 1)
    {
      lost := c.rng(draws) < loss;
      draws := draws + 1;
    }

    method GiveUp(k: nat)
      requires k < |sends|
      modifies this
      ensures State() == Fail(old(State()), k)
    {
      var s := sends[k];
      sends := sends[k := s.(fate := Failed, fails := s.fails + 1)];
      if s.payload.Data? {
        xfer := xfer.(failed := true);
      }
    }

    /** Node._tx. */
    method Transmission(k: nat)
      requires k < |sends|
      modifies this
      ensures State() == Tx(c, old(State()), k)
    {
      if sends[k].fate != Pending {
        return;
      }
      var best := SelectBest(mediums, now);
      if best == None {
        sends := sends[k := sends[k].(waits := sends[k].waits + 1)];
        if sends[k].waits > MAX_MEDIUM_WAITS {
          GiveUp(k);
        } else {
          Schedule(now + 0.25, Retry(k));
        }
      } else {
        TransmitOn(k, best.value);
      }
    }

    method TransmitOn(k: nat, i: nat)
      requires k < |sends| && i < |mediums|
      modifies this
      ensures State() == Transmit(c, old(State()), k, i)
    {
      var latency := mediums[i].latency;
      var airEnd := MaxReal(now, mediums[i].busyUntil) + AirtimeFor(mediums[i], WireSize(sends[k].payload));
      sends := sends[k := sends[k].(tries := sends[k].tries + 1, medium := Some(i))];
      mediums := mediums[i := mediums[i].(busyUntil := airEnd, txFrames := mediums[i].txFrames + 1)];
      var lost := Draw(mediums[i].loss);
      if lost {
        mediums := mediums[i := mediums[i].(lostFrames := mediums[i].lostFrames + 1)];
      }
      LaunchEvents(k, i, lost, airEnd + latency, now + ((airEnd + latency - now) * 2.0 + 4.0 * latency + 0.05));
    }

    method LaunchEvents(k: nat, i: nat, lost: bool, arrival: real, deadline: real)
      requires k < |sends|
      modifies this
      ensures State() == Launch(old(State()), k, i, lost, arrival, deadline)
    {
      if !lost {
        Schedule(arrival, Arrive(k, i));
      }
      Schedule(deadline, Timeout(k, sends[k].tries));
    }

    /** Node.send. */
    method SendFrame(p: Payload)
      modifies this
      ensures State() == SendPayload(c, old(State()), p)
    {
      sends := sends + [Send(p, Pending, 0, 0, None, 0, 0, 0)];
      Transmission(|sends| - 1);
    }

    /** Medium.observe, on the medium an entry last used. */
    method ObserveMedium(i: Option<nat>, success: bool)
      modifies this
      ensures State() == ObserveOn(old(State()), i, success)
    {
      if i.Some? && i.value < |mediums| {
        mediums := mediums[i.value := Observe(mediums[i.value], success, now)];
      }
    }

    /** Node._timeout: the counter is read when the timer fires. */
    method TimerFires(k: nat)
      requires k < |sends|
      modifies this
      ensures State() == TimeoutStep(c, old(State()), k)
    {
      var atTry := sends[k].tries;
      if sends[k].fate != Pending || sends[k].tries != atTry {
        return;
      }
      ObserveMedium(sends[k].medium, false);
      if sends[k].tries >= MAX_TRIES {
        GiveUp(k);
      } else {
        Transmission(k);
      }
    }

    /** Node._ack. */
    method SendAck(k: nat, via: nat)
      requires via < |mediums|
      modifies this
      ensures State() == AckBack(c, old(State()), k, via)
    {
      var m := mediums[via];
      mediums := mediums[via := m.(txFrames := m.txFrames + 1)];
      var lost := Draw(m.loss);
      if lost {
        mediums := mediums[via := mediums[via].(lostFrames := mediums[via].lostFrames + 1)];
      } else {
        Schedule(now + AirtimeFor(m, OVERHEAD + 4) + m.latency, AckArrive(k, via));
      }
    }

    method CountDelivery(via: nat)
      requires via < |mediums|
      modifies this
      ensures State() == Delivered(old(State()), via)
    {
      mediums := mediums[via := mediums[via].(deliveredFrames := mediums[via].deliveredFrames + 1)];
    }

    /** Node._rx at the serving node: ack, suppress duplicates, dispatch. */
    method ReceiveFrame(k: nat, via: nat)
      requires k < |sends| && via < |mediums|
      modifies this
      ensures State() == FrameArrives(c, old(State()), k, via)
    {
      CountDelivery(via);
      SendAck(k, via);
      if k in server.seen {
        return;
      }
      server := server.(seen := server.seen + {k});
      server := Dispatch(server, sends[k].payload);
      sends := sends[k := sends[k].(dispatched := sends[k].dispatched + 1)];
    }

    /** ClientTransfer._pump. */
    method PumpWindow()
      modifies this
      ensures State() == Pump(c, old(State()))
    {
      while xfer.outstanding < c.window && xfer.offset < c.total
        invariant Pump(c, State()) == Pump(c, old(State()))
        decreases c.window - xfer.outstanding
      {
        ghost var w := State();
        var best := SelectBest(mediums, now);
        var mtu := if best.Some? then mediums[best.value].mtu else 128;
        var chunk := if mtu < c.total - xfer.offset then mtu else c.total - xfer.offset;
        assert chunk == ChunkSize(c, w);
        CutChunk(chunk);
      }
    }

    method CutChunk(n: nat)
      modifies this
      ensures State() == SendChunk(c, old(State()), n)
    {
      xfer := xfer.(offset := xfer.offset + n, outstanding := xfer.outstanding + 1);
      SendFrame(Data(n));
    }

    /** ClientTransfer._on_chunk_ack. */
    method CountChunk(n: nat)
      modifies this
      ensures State() == ChunkAcked(c, old(State()), n)
    {
      CountBytes(n);
      SignIfDue();
      PumpWindow();
    }

    method CountBytes(n: nat)
      modifies this
      ensures State() == Counted(old(State()), n)
    {
      xfer := xfer.(outstanding := xfer.outstanding - 1, acked := xfer.acked + n);
    }

    method SignIfDue()
      modifies this
      ensures State() == ReceiptIfDue(c, old(State()))
    {
      if xfer.acked - xfer.lastReceiptAt >= c.receiptEvery || xfer.acked >= c.total {
        var cumulative, final := xfer.acked, xfer.acked >= c.total;
        xfer := xfer.(lastReceiptAt := cumulative, receiptsSent := xfer.receiptsSent + 1);
        SendFrame(Receipt(cumulative, final));
      }
    }

    /** Node._rx of an ack at the client. */
    method ReceiveAck(k: nat, via: nat)
      requires k < |sends| && via < |mediums|
      modifies this
      ensures State() == AckArrives(c, old(State()), k, via)
    {
      CountDelivery(via);
      if sends[k].fate != Pending {
        return;
      }
      var s := sends[k];
      sends := sends[k := s.(fate := Acked, acks := s.acks + 1)];
      ObserveMedium(s.medium, true);
      RunCallback(s.payload);
    }

    method RunCallback(p: Payload)
      modifies this
      ensures State() == OnAck(c, old(State()), p)
    {
      match p {
        case Data(n) => CountChunk(n);
        case Receipt(_, final) =>
          if final && xfer.doneAt == None {
            xfer := xfer.(doneAt := Some(now));
          }
        case _ =>
      }
    }

    /** The heap's minimum by time, then by insertion number. */
    method FindEarliest() returns (i: nat)
      requires queue != []
      ensures Earliest(queue, i)
    {
      i := 0;
      for n := 1 to |queue|
        invariant Earliest(queue[..n], i)
      {
        if queue[n].at < queue[i].at || (queue[n].at == queue[i].at && queue[n].order < queue[i].order) {
          i := n;
        }
      }
    }

    method PopAndFire(i: nat)
      requires i < |queue| && EventInRange(State(), queue[i].event)
      modifies this
      ensures State() == Fire(c, old(State()), i)
    {
      var e := queue[i];
      queue, now := Without(queue, i), e.at;
      match e.event {
        case Retry(k) => Transmission(k);
        case Timeout(k, _) => TimerFires(k);
        case Arrive(k, via) => ReceiveFrame(k, via);
        case AckArrive(k, via) => ReceiveAck(k, via);
      }
    }

    /** Sim.run. It stops: the measure of TransportInvariant goes down with every event. */
    method RunUntil(until: real, ghost b: nat)
      requires Inv(c, b, State())
      modifies this
      ensures Inv(c, b, State())
      ensures forall j :: 0 <= j < |queue| ==> queue[j].at > until
    {
      while queue != []
        invariant Inv(c, b, State())
        decreases Measure(c, State())
      {
        var i := FindEarliest();
        if queue[i].at > until {
          return;
        }
        FireKeeps(c, b, State(), i);
        PopAndFire(i);
      }
    }
  }
}
