/** What a committed batch does to clients, nodes and channels, independently of how its tickets were cut. */
module SettlementTheorems {
  import opened Totals
  import opened EngineTypes
  import opened Settlement

  type Channels = map<ChannelId, Channel>

  function UnitsMap(channels: Channels, a: Actor): map<ChannelId, int> {
    map id | id in channels && id.client == a :: channels[id].settledUnits
  }

  /** Units client a has been settled for, over all its channels. */
  ghost function Units(e: Escrow, a: Actor): int { Total(UnitsMap(e.channels, a)) }

  function SettledUnits(channels: Channels, id: ChannelId): nat {
    if id in channels then channels[id].settledUnits else 0
  }

  lemma UnitsMapOther(channels: Channels, id: ChannelId, ch: Channel, a: Actor)
    requires id.client != a
    ensures UnitsMap(channels[id := ch], a) == UnitsMap(channels, a)
  {}

  lemma UnitsMapOwn(channels: Channels, id: ChannelId, ch: Channel)
    ensures UnitsMap(channels[id := ch], id.client) == UnitsMap(channels, id.client)[id := ch.settledUnits]
  {}

  lemma UnitsAfter(channels: Channels, id: ChannelId, ch: Channel, a: Actor)
    ensures Total(UnitsMap(channels[id := ch], a))
            == Total(UnitsMap(channels, a)) + if id.client == a then ch.settledUnits - SettledUnits(channels, id) else 0
  {
    if id.client != a {
      UnitsMapOther(channels, id, ch, a);
    } else {
      UnitsMapOwn(channels, id, ch);
      if id in channels {
        TotalUpdate(UnitsMap(channels, a), id, ch.settledUnits);
      } else {
        TotalInsert(UnitsMap(channels, a), id, ch.settledUnits);
      }
    }
  }

  /** Client a's purse in y, seen against the escrow e a batch started from. */
  ghost predicate DebtPaid(e: Escrow, y: Escrow, a: Actor) {
    && y.deposits.At(a) >= 0
    && Units(y, a) >= Units(e, a)
    && y.deposits.At(a) == e.deposits.At(a) - Min(e.deposits.At(a), (Units(y, a) - Units(e, a)) * e.pricePerUnit)
  }

  ghost predicate PaysDebts(e: Escrow, y: Escrow) {
    y.pricePerUnit == e.pricePerUnit && forall a: Actor :: DebtPaid(e, y, a)
  }

  lemma Distribute(u: int, v: int, p: int)
    ensures (u + v) * p == u * p + v * p
  {}

  lemma Product(u: nat, p: nat)
    ensures u * p >= 0
  {}

  /** Paying a debt in two instalments from one purse, each capped by what is left, is paying it at once. */
  lemma CappedTwice(d: int, before: nat, delta: nat, p: nat)
    requires d >= 0
    ensures var left := d - Min(d, before * p);
            && left >= 0
            && left - Min(delta * p, left) == d - Min(d, (before + delta) * p) >= 0
  {
    Product(before, p);
    Product(delta, p);
    Distribute(before, delta, p);
  }

  // ------------------------------------------------------------------ one ticket

  /** The debt so far is u units, the ticket adds v. */
  lemma {:induction false} DebtStep(deposit: int, left: int, price: nat, u: int, v: int, paid: int)
    requires deposit >= 0 && u >= 0 && v >= 0
    requires left == deposit - Min(deposit, u * price) && paid == Min(v * price, left)
    ensures 0 <= left - paid == deposit - Min(deposit, (u + v) * price)
  {
    CappedTwice(deposit, u, v, price);
  }

  /** What one ticket does to a client's deposit and settled units. */
  lemma BookMoves(x: Tally, feeBps: nat, t: Ticket, a: Actor)
    requires Paid(x.escrow, t) >= 0
    ensures var y := Book(x, feeBps, t).escrow;
            && y.pricePerUnit == x.escrow.pricePerUnit
            && y.deposits.At(a) == x.escrow.deposits.At(a) - (if a == t.client then Paid(x.escrow, t) else 0)
            && y.channels == x.escrow.channels[Between(t.client, t.nodeAdmin) := Channel(t.sequenceNumber, t.cumulativeUnits)]
  {
    PlusAt(x.escrow.deposits, t.client, -Paid(x.escrow, t), a);
  }

  lemma BookPaysDebt(e: Escrow, x: Tally, feeBps: nat, now: nat, t: Ticket, a: Actor)
    requires e.deposits.At(a) >= 0 && DebtPaid(e, x.escrow, a) && x.escrow.pricePerUnit == e.pricePerUnit
    requires Admissible(x.escrow, now, t).Pass? && Paid(x.escrow, t) >= 0
    ensures DebtPaid(e, Book(x, feeBps, t).escrow, a)
  {
    var id := Between(t.client, t.nodeAdmin);
    UnitsAfter(x.escrow.channels, id, Channel(t.sequenceNumber, t.cumulativeUnits), a);
    BookMoves(x, feeBps, t, a);
    if a == t.client {
      DebtStep(e.deposits.At(a), x.escrow.deposits.At(a), e.pricePerUnit, Units(x.escrow, a) - Units(e, a),
               t.cumulativeUnits - SettledUnits(x.escrow.channels, id), Paid(x.escrow, t));
    }
  }

  lemma PaidNonNegative(e: Escrow, now: nat, t: Ticket)
    requires e.deposits.At(t.client) >= 0 && Admissible(e, now, t).Pass?
    ensures 0 <= Paid(e, t) <= e.deposits.At(t.client)
  {
    Product(t.cumulativeUnits - ChannelOf(e, Between(t.client, t.nodeAdmin)).settledUnits, e.pricePerUnit);
  }

  /**
   A committed batch takes from every client exactly what its settled units grew by, at the current price, capped by
   its deposit. The sum over the batch's tickets has telescoped away: only the channels' end points are left.
   */
  lemma {:induction false} BatchTakesDebtCappedByDeposit(e: Escrow, feeBps: nat, now: nat, ts: seq<Ticket>)
    requires NonNegative(e.deposits) && Batch(e, feeBps, now, ts).Ok?
    ensures PaysDebts(e, Batch(e, feeBps, now, ts).value.escrow)
    decreases |ts|
  {
    if ts == [] {
      NothingOwed(e);
    } else {
      var front, last := ts[..|ts| - 1], ts[|ts| - 1];
      BatchTakesDebtCappedByDeposit(e, feeBps, now, front);
      BookPaysDebts(e, Batch(e, feeBps, now, front).value, feeBps, now, last);
    }
  }

  lemma BookPaysDebts(e: Escrow, x: Tally, feeBps: nat, now: nat, t: Ticket)
    requires NonNegative(e.deposits) && PaysDebts(e, x.escrow) && Admissible(x.escrow, now, t).Pass?
    ensures PaysDebts(e, Book(x, feeBps, t).escrow)
  {
    assert DebtPaid(e, x.escrow, t.client);
    PaidNonNegative(x.escrow, now, t);
    forall a: Actor
      ensures DebtPaid(e, Book(x, feeBps, t).escrow, a)
    {
      assert DebtPaid(e, x.escrow, a);
      BookPaysDebt(e, x, feeBps, now, t, a);
    }
  }

  lemma NothingOwed(e: Escrow)
    requires NonNegative(e.deposits)
    ensures PaysDebts(e, e)
  {
    forall a: Actor
      ensures DebtPaid(e, e, a)
    {
      assert (Units(e, a) - Units(e, a)) * e.pricePerUnit == 0;
    }
  }

  // ------------------------------------------------------------------ conservation inside the escrow

  lemma FeeBounds(paid: int, bps: nat)
    requires paid >= 0 && bps <= 10_000
    ensures 0 <= FeeOf(paid, bps) <= paid
  {
    assert 0 <= paid * bps <= paid * 10_000;
  }

  ghost predicate Shrinks(m: Purse<Actor>, n: Purse<Actor>) { forall a: Actor :: 0 <= n.At(a) <= m.At(a) }
  ghost predicate Grows(m: Purse<Actor>, n: Purse<Actor>) { forall a: Actor :: m.At(a) <= n.At(a) }

  /** What left the deposits is the gross, what reached the earnings is the gross less the fees. */
  ghost predicate Conserves(e: Escrow, x: Tally) {
    && TotalOf(x.escrow.deposits) == TotalOf(e.deposits) - x.gross
    && TotalOf(x.escrow.earnings) == TotalOf(e.earnings) + x.gross - x.fee
    && 0 <= x.fee <= x.gross
    && Shrinks(e.deposits, x.escrow.deposits)
    && Grows(e.earnings, x.escrow.earnings)
  }

  lemma TakenShrinks(m: Purse<Actor>, d: Purse<Actor>, a: Actor, n: int)
    requires Shrinks(m, d) && n <= 0 <= d.At(a) + n
    ensures Shrinks(m, d.Plus(a, n))
  {
    forall b: Actor
      ensures 0 <= d.Plus(a, n).At(b) <= m.At(b)
    {
      PlusAt(d, a, n, b);
      assert 0 <= d.At(b) <= m.At(b);
    }
  }

  lemma GivenGrows(m: Purse<Actor>, d: Purse<Actor>, a: Actor, n: int)
    requires Grows(m, d) && 0 <= n
    ensures Grows(m, d.Plus(a, n))
  {
    forall b: Actor
      ensures m.At(b) <= d.Plus(a, n).At(b)
    {
      PlusAt(d, a, n, b);
      assert m.At(b) <= d.At(b);
    }
  }

  /** One booked ticket moves `paid` out of the client's deposit, and all of it but the fee into the node's earnings. */
  lemma EnterConserves(e: Escrow, x: Tally, t: Ticket, paid: int, fee: int)
    requires Conserves(e, x) && 0 <= fee <= paid <= x.escrow.deposits.At(t.client)
    ensures Conserves(e, Tally(Enter(x.escrow, t, paid, fee), x.gross + paid, x.fee + fee, x.shape + [ShapeOf(x.escrow, t)]))
  {
    PlusSum(x.escrow.deposits, t.client, -paid);
    PlusSum(x.escrow.earnings, t.nodeAdmin, paid - fee);
    TakenShrinks(e.deposits, x.escrow.deposits, t.client, -paid);
    GivenGrows(e.earnings, x.escrow.earnings, t.nodeAdmin, paid - fee);
  }

  lemma BookConserves(e: Escrow, x: Tally, feeBps: nat, now: nat, t: Ticket)
    requires Conserves(e, x) && feeBps <= 10_000 && Admissible(x.escrow, now, t).Pass?
    ensures Conserves(e, Book(x, feeBps, t))
  {
    PaidNonNegative(x.escrow, now, t);
    FeeBounds(Paid(x.escrow, t), feeBps);
    EnterConserves(e, x, t, Paid(x.escrow, t), Fee(Paid(x.escrow, t), feeBps));
  }

  lemma {:induction false} BatchConserves(e: Escrow, feeBps: nat, now: nat, ts: seq<Ticket>)
    requires NonNegative(e.deposits) && feeBps <= 10_000 && Batch(e, feeBps, now, ts).Ok?
    ensures Conserves(e, Batch(e, feeBps, now, ts).value)
    decreases |ts|
  {
    if ts != [] {
      var front, last := ts[..|ts| - 1], ts[|ts| - 1];
      BatchConserves(e, feeBps, now, front);
      BookConserves(e, Batch(e, feeBps, now, front).value, feeBps, now, last);
    }
  }

  // ------------------------------------------------------------------ path independence

  /** Two batches from one escrow that leave the channels alike took the same from every client and paid the same gross. */
  lemma PathIndependence(e: Escrow, feeBps: nat, now: nat, ts: seq<Ticket>, us: seq<Ticket>, y: Tally, z: Tally)
    requires NonNegative(e.deposits) && feeBps <= 10_000
    requires Batch(e, feeBps, now, ts) == Ok(y) && Batch(e, feeBps, now, us) == Ok(z)
    requires y.escrow.channels == z.escrow.channels
    ensures SameAmounts(y.escrow.deposits, z.escrow.deposits) && y.gross == z.gross
  {
    BatchTakesDebtCappedByDeposit(e, feeBps, now, ts);
    BatchTakesDebtCappedByDeposit(e, feeBps, now, us);
    SameChannelsSameDeposits(e, y.escrow, z.escrow);
    BatchConserves(e, feeBps, now, ts);
    BatchConserves(e, feeBps, now, us);
    SameAmountsSameSum(y.escrow.deposits, z.escrow.deposits);
  }

  lemma SameChannelsSameDeposits(e: Escrow, y: Escrow, z: Escrow)
    requires PaysDebts(e, y) && PaysDebts(e, z) && y.channels == z.channels
    ensures SameAmounts(y.deposits, z.deposits)
  {
    forall a: Actor
      ensures y.deposits.At(a) == z.deposits.At(a)
    {
      assert DebtPaid(e, y, a) && DebtPaid(e, z, a);
    }
  }

  ghost predicate OneChannel(ts: seq<Ticket>, id: ChannelId) {
    forall i :: 0 <= i < |ts| ==> Between(ts[i].client, ts[i].nodeAdmin) == id
  }

  lemma SingleTicket(e: Escrow, feeBps: nat, now: nat, t: Ticket)
    ensures Batch(e, feeBps, now, [t]) == SettleTicket(Start(e), feeBps, now, t)
  {
    assert [t][..0] == [];
    assert Batch(e, feeBps, now, []) == Ok(Start(e));
  }

  /** The channel records after tickets of one channel: the last ticket's record, newer than what was there. */
  ghost predicate Recorded(e: Escrow, channels: Channels, id: ChannelId, last: Ticket) {
    && channels == e.channels[id := Channel(last.sequenceNumber, last.cumulativeUnits)]
    && last.sequenceNumber > ChannelOf(e, id).lastSequence
    && last.cumulativeUnits > ChannelOf(e, id).settledUnits
  }

  /** Tickets of one channel settle in strictly growing order and leave the record of the last one. */
  lemma {:induction false} OneChannelBatch(e: Escrow, feeBps: nat, now: nat, ts: seq<Ticket>, id: ChannelId, y: Tally)
    requires Batch(e, feeBps, now, ts) == Ok(y) && ts != [] && OneChannel(ts, id)
    ensures Recorded(e, y.escrow.channels, id, ts[|ts| - 1])
    ensures Admissible(e, now, ts[|ts| - 1]).Pass?
    decreases |ts|
  {
    var front, last := ts[..|ts| - 1], ts[|ts| - 1];
    var x := Batch(e, feeBps, now, front).value;
    if front == [] {
      assert Batch(e, feeBps, now, front) == Ok(Start(e));
    } else {
      OneChannelBatch(e, feeBps, now, front, id, x);
    }
  }

  /** What submitting only the last ticket gives up: nothing but rounding. */
  ghost predicate SameButRounding(all: Tally, alone: Tally, n: nat) {
    && alone.gross == all.gross
    && SameAmounts(alone.escrow.deposits, all.escrow.deposits)
    && alone.escrow.channels == all.escrow.channels
    && all.fee <= alone.fee <= all.fee + n - 1
  }

  /**
   Losing all tickets but the last loses nothing: submitted alone it is accepted, pays the same gross, takes the same
   deposits and leaves the same channel record.
   */
  lemma OnlyTheLastTicketMatters(e: Escrow, feeBps: nat, now: nat, ts: seq<Ticket>, id: ChannelId)
    requires NonNegative(e.deposits) && feeBps <= 10_000
    requires Batch(e, feeBps, now, ts).Ok? && ts != [] && OneChannel(ts, id)
    ensures Batch(e, feeBps, now, [ts[|ts| - 1]]).Ok?
    ensures SameButRounding(Batch(e, feeBps, now, ts).value, Batch(e, feeBps, now, [ts[|ts| - 1]]).value, |ts|)
  {
    var last, all := ts[|ts| - 1], Batch(e, feeBps, now, ts).value;
    OneChannelBatch(e, feeBps, now, ts, id, all);
    SingleTicket(e, feeBps, now, last);
    var alone := Book(Start(e), feeBps, last);
    PathIndependence(e, feeBps, now, ts, [last], all, alone);
    FeeFloors(e, feeBps, now, ts);
    FeeFloors(e, feeBps, now, [last]);
  }

  lemma FloorsAdd(x: nat, y: nat, bps: nat)
    ensures FeeOf(x, bps) + FeeOf(y, bps) <= FeeOf(x + y, bps) <= FeeOf(x, bps) + FeeOf(y, bps) + 1
  {
    Distribute(x, y, bps);
  }

  ghost predicate FeeFloored(y: Tally, feeBps: nat, n: nat) {
    y.fee <= FeeOf(y.gross, feeBps) <= y.fee + (if n == 0 then 0 else n - 1)
  }

  /** Rounding each ticket's fee down loses less than one base unit per ticket against the fee on the whole gross. */
  lemma {:induction false} FeeFloors(e: Escrow, feeBps: nat, now: nat, ts: seq<Ticket>)
    requires NonNegative(e.deposits) && feeBps <= 10_000 && Batch(e, feeBps, now, ts).Ok?
    ensures FeeFloored(Batch(e, feeBps, now, ts).value, feeBps, |ts|)
    decreases |ts|
  {
    if ts != [] {
      var front, last := ts[..|ts| - 1], ts[|ts| - 1];
      FeeFloors(e, feeBps, now, front);
      BatchConserves(e, feeBps, now, front);
      var x := Batch(e, feeBps, now, front).value;
      assert front == [] ==> Batch(e, feeBps, now, front) == Ok(Start(e));
      PaidNonNegative(x.escrow, now, last);
      FloorsAdd(x.gross, Paid(x.escrow, last), feeBps);
    }
  }
}
