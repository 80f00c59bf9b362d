/** What a session's credit limit covers while the world goes on: chunks, settlements of its own channel, falling prices. */
module SessionCredit {
  import opened Options
  import opened EngineTypes
  import opened Settlement
  import opened SettlementTheorems
  import opened Quote
  import opened EngineRules
  import opened Session

  // ------------------------------------------------------------------ what may happen between chunks

  /** Someone settled the channel, up to the newest ticket held or to an earlier one, at the price of e. */
  ghost predicate SettledUpTo(e: Escrow, f: Escrow, key: ChannelId, held: Option<Ticket>) {
    && held.Some? && f.pricePerUnit == e.pricePerUnit && ChannelOf(e, key).settledUnits < ChannelOf(f, key).settledUnits
    && var ch := ChannelOf(f, key);
       || ch == Channel(held.value.sequenceNumber, held.value.cumulativeUnits)
       || (ch.settledUnits < held.value.cumulativeUnits && ch.lastSequence < held.value.sequenceNumber)
  }

  ghost predicate OnlySettled(e: Escrow, f: Escrow, key: ChannelId, held: Option<Ticket>) {
    ChannelOf(f, key) == ChannelOf(e, key) || SettledUpTo(e, f, key, held)
  }

  /** Between chunks anything may happen but a higher price or another ticket on the channel; anyone may settle it. */
  ghost predicate Undisturbed(x: State, y: State, key: ChannelId) {
    && 1 <= y.escrow.pricePerUnit <= x.escrow.pricePerUnit && OnlySettled(x.escrow, y.escrow, key, Held(x.book, key))
    && Filed(y.book) && Held(y.book, key) == Held(x.book, key)
  }

  /** Settling the newest ticket held is such a thing, and takes its worth from the deposit if the deposit covers it. */
  lemma SettlingIsUndisturbed(x: State, key: ChannelId, feeBps: nat, now: nat, t: Ticket)
    requires Filed(x.book) && x.escrow.pricePerUnit >= 1 && Held(x.book, key) == Some(t) && IdOf(t) == key
    requires Batch(x.escrow, feeBps, now, [t]).Ok?
    ensures var y := x.(escrow := Batch(x.escrow, feeBps, now, [t]).value.escrow);
            && Undisturbed(x, y, key) && ChannelOf(y.escrow, key) == Channel(t.sequenceNumber, t.cumulativeUnits)
            && (0 <= Owed(x.escrow, t) <= x.escrow.deposits.At(key.client) ==>
                  y.escrow.deposits.At(key.client) == x.escrow.deposits.At(key.client) - Owed(x.escrow, t))
  {
    SingleTicket(x.escrow, feeBps, now, t);
  }

  lemma CheaperCharge(units: nat, price: nat, above: nat)
    requires price <= above
    ensures Charge(units, price) <= Charge(units, above)
  {}

  /** What has been set aside for the start stays enough: fewer units unsettled, or a lower price. */
  lemma StillSetAside(aside: int, before: int, after: int, price: nat, lower: nat)
    requires aside >= 0 && aside >= Charge(before, price) && after <= before && lower <= price
    ensures aside >= Charge(after, lower)
  {
    ChargeMonotone(after, before, lower);
    if before >= 0 {
      CheaperCharge(before, lower, price);
    } else {
      ChargeMonotone(before, 0, lower);
    }
  }

  lemma MeanwhileMeters(x: State, p: Plan, s: Metered, price: nat, y: State)
    requires Sensible(p) && Metering(x, p, s, price) && Undisturbed(x, y, s.key)
    ensures Metering(y, p, s, y.escrow.pricePerUnit) && y.escrow.pricePerUnit <= price
  {
    StillSetAside(s.unsettledAtStart, s.baseUnits - ChannelOf(x.escrow, s.key).settledUnits,
                  s.baseUnits - ChannelOf(y.escrow, s.key).settledUnits, price, y.escrow.pricePerUnit);
    CheaperCharge(Ceil(s.bytes, p.unitBytes), y.escrow.pricePerUnit, price);
  }

  // ------------------------------------------------------------------ runs of a session

  datatype Event = Chunk(bytes: nat) | Meanwhile(world: State)

  /** A session from where it was opened: chunks served, and other things happening in between. */
  function After(x: State, q: Params, p: Plan, s: Metered, es: seq<Event>): (State, Metered)
    requires Sensible(p)
    decreases |es|
  {
    if es == [] then (x, s)
    else
      var (y, v) := After(x, q, p, s, es[..|es| - 1]);
      match es[|es| - 1]
      case Meanwhile(world) => (world, v)
      case Chunk(bytes) => if y.escrow.pricePerUnit >= 1 then Serve(y, q, p, v, bytes) else (y, v)
  }

  ghost predicate Quiet(x: State, q: Params, p: Plan, s: Metered, es: seq<Event>)
    requires Sensible(p)
  {
    forall i :: 0 <= i < |es| && es[i].Meanwhile? ==> Undisturbed(After(x, q, p, s, es[..i]).0, es[i].world, s.key)
  }

  lemma QuietFront(x: State, q: Params, p: Plan, s: Metered, es: seq<Event>)
    requires Sensible(p) && Quiet(x, q, p, s, es) && es != []
    ensures Quiet(x, q, p, s, es[..|es| - 1])
  {
    var front := es[..|es| - 1];
    forall i | 0 <= i < |front| && front[i].Meanwhile?
      ensures Undisturbed(After(x, q, p, s, front[..i]).0, front[i].world, s.key)
    {
      assert front[..i] == es[..i];
    }
  }

  /** The terms a session was opened on stay with it. */
  ghost predicate SameSession(s: Metered, v: Metered) {
    && v.key == s.key && v.limit == s.limit && v.target == s.target
    && v.baseUnits == s.baseUnits && v.unsettledAtStart == s.unsettledAtStart
  }

  lemma ServeKeepsTerms(x: State, q: Params, p: Plan, s: Metered, chunk: nat, price: nat)
    requires Sensible(p) && Metering(x, p, s, price) && !s.done
    ensures SameSession(s, Serve(x, q, p, s, chunk).1) && Serve(x, q, p, s, chunk).0.escrow == x.escrow
  {
    var next := NextBytes(s, p, price, chunk);
    var finished := next >= s.target || next < Wish(s, chunk);
    var points := ReceiptPoints(s.lastReceipt, next, p.receiptBytes, finished);
    NextNotBack(s, p, price, chunk);
    PointsRise(s.lastReceipt, next, p.receiptBytes, finished);
    SignAllKeeps(x.(t := x.t + Elapsed(s.bytes, next)), q, p, s.(bytes := next), points);
    SignAllReceipts(x.(t := x.t + Elapsed(s.bytes, next)), q, p, s.(bytes := next), points, next);
  }

  lemma {:induction false} RunMeters(x: State, q: Params, p: Plan, s: Metered, es: seq<Event>, price: nat)
    requires Sensible(p) && Metering(x, p, s, price) && Quiet(x, q, p, s, es)
    ensures var y := After(x, q, p, s, es).0;
            Metering(y, p, After(x, q, p, s, es).1, y.escrow.pricePerUnit) && y.escrow.pricePerUnit <= price
    ensures SameSession(s, After(x, q, p, s, es).1)
    decreases |es|
  {
    if es != [] {
      QuietFront(x, q, p, s, es);
      RunMeters(x, q, p, s, es[..|es| - 1], price);
      var (y, v) := After(x, q, p, s, es[..|es| - 1]);
      match es[|es| - 1] {
        case Meanwhile(world) => MeanwhileMeters(y, p, v, y.escrow.pricePerUnit, world);
        case Chunk(bytes) =>
          if !v.done {
            ServeMeters(y, q, p, v, bytes, y.escrow.pricePerUnit);
            ServeKeepsTerms(y, q, p, v, bytes, y.escrow.pricePerUnit);
          }
      }
    }
  }

  // ------------------------------------------------------------------ the node's risk

  /** What the node is owed for a ticket at an escrow's price. */
  function Owed(e: Escrow, t: Ticket): int { Charge(t.cumulativeUnits - ChannelOf(e, IdOf(t)).settledUnits, e.pricePerUnit) }

  lemma OwedWithinLimit(x: State, p: Plan, s: Metered, price: nat, e: Escrow)
    requires Sensible(p) && Metering(x, p, s, price) && s.receipts > 0
    requires e.pricePerUnit <= price && OnlySettled(x.escrow, e, s.key, Held(x.book, s.key))
    ensures 0 <= Owed(e, Held(x.book, s.key).value) <= s.limit
  {
    var left, used := s.baseUnits - ChannelOf(e, s.key).settledUnits, Ceil(s.lastReceipt, p.unitBytes);
    StillSetAside(s.unsettledAtStart, s.baseUnits - ChannelOf(x.escrow, s.key).settledUnits, left, price, e.pricePerUnit);
    CeilMonotone(s.lastReceipt, s.bytes, p.unitBytes);
    ChargeAdds(left, used, e.pricePerUnit);
    ChargeMonotone(used, Ceil(s.bytes, p.unitBytes), e.pricePerUnit);
    CheaperCharge(Ceil(s.bytes, p.unitBytes), e.pricePerUnit, price);
    ChargeMonotone(0, left + used, e.pricePerUnit);
  }

  /** The newest ticket leaves at most the limit unpaid, and all bytes served are worth at most the limit. */
  ghost predicate RiskBounded(x: State, p: Plan, s: Metered, e: Escrow, limit: int)
    requires Sensible(p)
  {
    && (s.receipts > 0 ==> Held(x.book, s.key).Some?
                           && Owed(e, Held(x.book, s.key).value) - Paid(e, Held(x.book, s.key).value) <= limit)
    && (s.bytes > 0 ==> s.unsettledAtStart + Charge(Ceil(s.bytes, p.unitBytes), e.pricePerUnit) <= limit)
  }

  lemma MeteringBoundsRisk(x: State, p: Plan, s: Metered, price: nat, e: Escrow)
    requires Sensible(p) && Metering(x, p, s, price)
    requires e.pricePerUnit <= price && OnlySettled(x.escrow, e, s.key, Held(x.book, s.key)) && e.deposits.At(s.key.client) >= 0
    ensures RiskBounded(x, p, s, e, s.limit)
  {
    CheaperCharge(Ceil(s.bytes, p.unitBytes), e.pricePerUnit, price);
    if s.receipts > 0 {
      OwedWithinLimit(x, p, s, price, e);
    }
  }

  /**
   The node's risk, online or offline. As long as the price never rises between opening and settlement and nobody else
   signs on the channel, whoever settles it meanwhile, whatever became of the deposit, and whether or not the phone could
   still sign, the session never exposes the node to more than its limit: than the voucher (online: the deposit it was
   opened on), and than the cap.
   */
  lemma GapWithinLimit(x: State, q: Params, p: Plan, key: ChannelId, target: nat, voucher: Option<nat>, es: seq<Event>, e: Escrow)
    requires Sensible(p) && x.escrow.pricePerUnit >= 1 && Filed(x.book)
    requires Quiet(x, q, p, Open(x, p, key, target, voucher), es)
    requires var y := After(x, q, p, Open(x, p, key, target, voucher), es).0;
             && e.pricePerUnit <= y.escrow.pricePerUnit && OnlySettled(y.escrow, e, key, Held(y.book, key))
             && e.deposits.At(key.client) >= 0
    ensures var s := Open(x, p, key, target, voucher);
            var (y, v) := After(x, q, p, s, es);
            && RiskBounded(y, p, v, e, s.limit)
            && RiskBounded(y, p, v, e, Backing(x, key, voucher)) && RiskBounded(y, p, v, e, CapOf(p, voucher))
  {
    var s := Open(x, p, key, target, voucher);
    OpenMeters(x, p, key, target, voucher);
    RunMeters(x, q, p, s, es, x.escrow.pricePerUnit);
    var (y, v) := After(x, q, p, s, es);
    MeteringBoundsRisk(y, p, v, y.escrow.pricePerUnit, e);
  }

  // ------------------------------------------------------------------ settlement in full

  /** What the settlements of the channel took while the session ran, each at the price of its moment. */
  function PaidMeanwhile(x: State, q: Params, p: Plan, s: Metered, es: seq<Event>): int
    requires Sensible(p)
    decreases |es|
  {
    if es == [] then 0
    else
      PaidMeanwhile(x, q, p, s, es[..|es| - 1])
      + match es[|es| - 1]
        case Chunk(_) => 0
        case Meanwhile(world) => Growth(After(x, q, p, s, es[..|es| - 1]).0.escrow, world.escrow, s.key)
  }

  /** The worth of the units settled between e and f, at the price of e. */
  function Growth(e: Escrow, f: Escrow, key: ChannelId): int {
    Charge(ChannelOf(f, key).settledUnits - ChannelOf(e, key).settledUnits, e.pricePerUnit)
  }

  /** The price falls only while nothing this session served has been settled. */
  ghost predicate FallsFirst(x: State, q: Params, p: Plan, s: Metered, es: seq<Event>)
    requires Sensible(p)
  {
    forall i :: 0 <= i < |es| && es[i].Meanwhile? ==> FallsEarly(After(x, q, p, s, es[..i]).0.escrow, es[i].world.escrow, s)
  }

  ghost predicate FallsEarly(e: Escrow, f: Escrow, s: Metered) {
    f.pricePerUnit < e.pricePerUnit ==> ChannelOf(e, s.key).settledUnits <= s.baseUnits
  }

  lemma FallsFirstFront(x: State, q: Params, p: Plan, s: Metered, es: seq<Event>)
    requires Sensible(p) && FallsFirst(x, q, p, s, es) && es != []
    ensures FallsFirst(x, q, p, s, es[..|es| - 1])
  {
    var front := es[..|es| - 1];
    forall i | 0 <= i < |front| && front[i].Meanwhile?
      ensures FallsEarly(After(x, q, p, s, front[..i]).0.escrow, front[i].world.escrow, s)
    {
      assert front[..i] == es[..i];
    }
  }

  /** The funds left cover what the limit still allows, and every unit from the start that is still unsettled. */
  ghost predicate Backed(funds: int, e: Escrow, s: Metered) {
    funds >= s.limit - s.unsettledAtStart + Charge(s.baseUnits - ChannelOf(e, s.key).settledUnits, e.pricePerUnit)
  }

  lemma BackedMeanwhile(funds: int, e: Escrow, f: Escrow, s: Metered, held: Option<Ticket>)
    requires Backed(funds, e, s) && f.pricePerUnit <= e.pricePerUnit && OnlySettled(e, f, s.key, held) && FallsEarly(e, f, s)
    ensures Backed(funds - Growth(e, f, s.key), f, s)
  {
    var before, after := ChannelOf(e, s.key).settledUnits, ChannelOf(f, s.key).settledUnits;
    if after == before {
      if f.pricePerUnit < e.pricePerUnit {
        CheaperCharge(s.baseUnits - before, f.pricePerUnit, e.pricePerUnit);
      }
    } else {
      ChargeAdds(s.baseUnits - after, after - before, e.pricePerUnit);
    }
  }

  lemma OpenIsBacked(x: State, p: Plan, key: ChannelId, target: nat)
    ensures Backed(x.escrow.deposits.At(key.client), x.escrow, Open(x, p, key, target, None))
  {}

  /** The last thing that happened, if it was not a chunk. */
  lemma LastMeanwhile(x: State, q: Params, p: Plan, s: Metered, es: seq<Event>)
    requires Sensible(p) && Quiet(x, q, p, s, es) && FallsFirst(x, q, p, s, es) && es != [] && es[|es| - 1].Meanwhile?
    ensures var y, world := After(x, q, p, s, es[..|es| - 1]).0, es[|es| - 1].world;
            Undisturbed(y, world, s.key) && FallsEarly(y.escrow, world.escrow, s)
  {}

  lemma MeanwhileBacked(x: State, q: Params, p: Plan, s: Metered, es: seq<Event>, funds: int)
    requires Sensible(p) && Quiet(x, q, p, s, es) && FallsFirst(x, q, p, s, es) && es != [] && es[|es| - 1].Meanwhile?
    requires var front := es[..|es| - 1];
             Backed(funds - PaidMeanwhile(x, q, p, s, front), After(x, q, p, s, front).0.escrow, s)
    ensures Backed(funds - PaidMeanwhile(x, q, p, s, es), After(x, q, p, s, es).0.escrow, s)
  {
    LastMeanwhile(x, q, p, s, es);
    var front := es[..|es| - 1];
    var y := After(x, q, p, s, front).0;
    BackedMeanwhile(funds - PaidMeanwhile(x, q, p, s, front), y.escrow, es[|es| - 1].world.escrow, s, Held(y.book, s.key));
  }

  /** Serving leaves the escrow alone. */
  lemma ChunkKeepsEscrow(x: State, q: Params, p: Plan, s: Metered, es: seq<Event>, price: nat)
    requires Sensible(p) && Metering(x, p, s, price) && Quiet(x, q, p, s, es) && es != [] && es[|es| - 1].Chunk?
    ensures After(x, q, p, s, es).0.escrow == After(x, q, p, s, es[..|es| - 1]).0.escrow
  {
    QuietFront(x, q, p, s, es);
    RunMeters(x, q, p, s, es[..|es| - 1], price);
    var (y, v) := After(x, q, p, s, es[..|es| - 1]);
    if !v.done {
      ServeKeepsTerms(y, q, p, v, es[|es| - 1].bytes, y.escrow.pricePerUnit);
    }
  }

  lemma {:induction false} RunBacked(x: State, q: Params, p: Plan, s: Metered, es: seq<Event>, price: nat, funds: int)
    requires Sensible(p) && Metering(x, p, s, price) && Quiet(x, q, p, s, es) && FallsFirst(x, q, p, s, es)
    requires Backed(funds, x.escrow, s)
    ensures Backed(funds - PaidMeanwhile(x, q, p, s, es), After(x, q, p, s, es).0.escrow, s)
    decreases |es|
  {
    if es != [] {
      QuietFront(x, q, p, s, es);
      FallsFirstFront(x, q, p, s, es);
      RunBacked(x, q, p, s, es[..|es| - 1], price, funds);
      if es[|es| - 1].Meanwhile? {
        MeanwhileBacked(x, q, p, s, es, funds);
      } else {
        ChunkKeepsEscrow(x, q, p, s, es, price);
      }
    }
  }

  /** The ticket settles for all it is worth, or there is nothing left to settle. */
  ghost predicate SettlesInFull(e: Escrow, feeBps: nat, now: nat, t: Ticket) {
    && Owed(e, t) >= 0
    && (Owed(e, t) > 0 ==> Batch(e, feeBps, now, [t]).Ok? && Batch(e, feeBps, now, [t]).value.gross == Owed(e, t))
  }

  /**
   Session credit covers settlement. An online session served something and ended with its signatures accepted; meanwhile
   anyone settled its channel, the price never rose, it fell only while nothing the session served had been settled, and
   nobody else signed on the channel. Then, while its ticket has not expired and the deposit lost no more than those
   settlements took, the ticket settles in full; and something is left to settle unless units of this session were settled.
   */
  lemma CreditCoversSettlement(x: State, q: Params, p: Plan, key: ChannelId, target: nat, es: seq<Event>, feeBps: nat, now: nat)
    requires Sensible(p) && x.escrow.pricePerUnit >= 1 && Filed(x.book)
    requires Quiet(x, q, p, Open(x, p, key, target, None), es) && FallsFirst(x, q, p, Open(x, p, key, target, None), es)
    requires var s := Open(x, p, key, target, None);
             var (y, v) := After(x, q, p, s, es);
             && v.done && v.stop != CannotSign && v.bytes > 0
             && y.escrow.deposits.At(key.client) >= x.escrow.deposits.At(key.client) - PaidMeanwhile(x, q, p, s, es)
             && Held(y.book, key).Some? && now <= Held(y.book, key).value.epochExpiry
    ensures var s := Open(x, p, key, target, None);
            var y := After(x, q, p, s, es).0;
            var t := Held(y.book, key).value;
            && SettlesInFull(y.escrow, feeBps, now, t)
            && (ChannelOf(y.escrow, key).settledUnits <= s.baseUnits ==> Owed(y.escrow, t) > 0)
  {
    OpenMeters(x, p, key, target, None);
    OpenIsBacked(x, p, key, target);
    SessionCovered(x, q, p, Open(x, p, key, target, None), es, feeBps, now);
  }

  lemma SessionCovered(x: State, q: Params, p: Plan, s: Metered, es: seq<Event>, feeBps: nat, now: nat)
    requires Sensible(p) && Metering(x, p, s, x.escrow.pricePerUnit) && Quiet(x, q, p, s, es) && FallsFirst(x, q, p, s, es)
    requires Backed(x.escrow.deposits.At(s.key.client), x.escrow, s)
    requires var (y, v) := After(x, q, p, s, es);
             && v.done && v.stop != CannotSign && v.bytes > 0
             && y.escrow.deposits.At(s.key.client) >= x.escrow.deposits.At(s.key.client) - PaidMeanwhile(x, q, p, s, es)
             && Held(y.book, s.key).Some? && now <= Held(y.book, s.key).value.epochExpiry
    ensures var y := After(x, q, p, s, es).0;
            var t := Held(y.book, s.key).value;
            && SettlesInFull(y.escrow, feeBps, now, t)
            && (ChannelOf(y.escrow, s.key).settledUnits <= s.baseUnits ==> Owed(y.escrow, t) > 0)
  {
    RunMeters(x, q, p, s, es, x.escrow.pricePerUnit);
    RunBacked(x, q, p, s, es, x.escrow.pricePerUnit, x.escrow.deposits.At(s.key.client));
    var (y, v) := After(x, q, p, s, es);
    BackedBy(x.escrow.deposits.At(s.key.client) - PaidMeanwhile(x, q, p, s, es), y.escrow.deposits.At(s.key.client), y.escrow, s, v);
    PaidInFull(y, p, v, feeBps, now);
  }

  lemma BackedBy(funds: int, more: int, e: Escrow, s: Metered, v: Metered)
    requires Backed(funds, e, s) && more >= funds && SameSession(s, v)
    ensures Backed(more, e, v)
  {}

  lemma PaidInFull(x: State, p: Plan, s: Metered, feeBps: nat, now: nat)
    requires Sensible(p) && Metering(x, p, s, x.escrow.pricePerUnit) && s.done && s.stop != CannotSign && s.bytes > 0
    requires Backed(x.escrow.deposits.At(s.key.client), x.escrow, s)
    requires Held(x.book, s.key).Some? && now <= Held(x.book, s.key).value.epochExpiry
    ensures var t := Held(x.book, s.key).value;
            && SettlesInFull(x.escrow, feeBps, now, t)
            && (ChannelOf(x.escrow, s.key).settledUnits <= s.baseUnits ==> Owed(x.escrow, t) > 0)
  {
    var t, price := Held(x.book, s.key).value, x.escrow.pricePerUnit;
    var left, used := s.baseUnits - ChannelOf(x.escrow, s.key).settledUnits, Ceil(s.bytes, p.unitBytes);
    OwedWithinLimit(x, p, s, price, x.escrow);
    SingleTicket(x.escrow, feeBps, now, t);
    ChargeAdds(left, used, price);
    if left + used > 0 {
      ChargeMonotone(1, left + used, price);
    }
  }
}
