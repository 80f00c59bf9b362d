/** Where a session's credit stops covering it: a price that rises, and a price that falls after a settlement. */
module SessionPrice {
  import opened Options
  import opened EngineTypes
  import opened Settlement
  import opened SettlementTheorems
  import opened Quote
  import opened EngineRules
  import opened Session
  import opened SessionCredit

  // ------------------------------------------------------------------ a price that rises

  /** A client with a working phone whose deposit buys exactly one unit, and whose channel has never been used. */
  ghost predicate BuysOneUnit(x: State, p: Plan, key: ChannelId) {
    && Sensible(p) && x.escrow.pricePerUnit >= 1 && Filed(x.book) && key.client !in x.lost
    && Held(x.book, key) == None && ChannelOf(x.escrow, key) == Channel(0, 0)
    && x.escrow.deposits.At(key.client) == x.escrow.pricePerUnit <= p.onlineCap
  }

  /** The session serves the unit, signs for it, and is over with its credit used up. */
  lemma OneUnitServed(x: State, q: Params, p: Plan, key: ChannelId)
    requires BuysOneUnit(x, p, key)
    ensures var s := Open(x, p, key, p.unitBytes, None);
            var (y, v) := Serve(x, q, p, s, p.unitBytes);
            && s.limit == x.escrow.pricePerUnit && y.escrow == x.escrow && Receipted(y, p, v)
            && v.done && v.stop == Running && v.bytes == v.lastReceipt == p.unitBytes && v.key == key && v.baseUnits == 0
  {
    var s, price := Open(x, p, key, p.unitBytes, None), x.escrow.pricePerUnit;
    var points := ReceiptPoints(0, p.unitBytes, p.receiptBytes, true);
    var x1, s1 := x.(t := x.t + Elapsed(0, p.unitBytes)), s.(bytes := p.unitBytes);
    assert s.unsettledAtStart == 0 && s.limit == price;
    assert price / price == 1;
    assert NextBytes(s, p, price, p.unitBytes) == p.unitBytes;
    PointsRise(0, p.unitBytes, p.receiptBytes, true);
    SignAllKeeps(x1, q, p, s1, points);
    SignAllReceipts(x1, q, p, s1, points, p.unitBytes);
  }

  /** The owner's new price takes effect in the escrow; nothing else changes but the clock. */
  function Repriced(x: State, owner: Actor, t: nat, price: nat): State {
    var e := SetPriceRule(x.escrow, t, owner, price);
    if e.Ok? then x.(escrow := e.value, t := t) else x
  }

  /** Open a session, serve its one unit, and let the owner change the price. */
  function RepricedSession(x: State, q: Params, p: Plan, key: ChannelId, owner: Actor, t: nat, price: nat): (State, Metered)
    requires Sensible(p) && x.escrow.pricePerUnit >= 1
  {
    var (y, v) := Serve(x, q, p, Open(x, p, key, p.unitBytes, None), p.unitBytes);
    (Repriced(y, owner, t, price), v)
  }

  lemma RepricedTerms(x: State, q: Params, p: Plan, key: ChannelId, owner: Actor, t: nat, price: nat)
    requires BuysOneUnit(x, p, key) && SetPriceRule(x.escrow, t, owner, price).Ok?
    ensures var (y, v) := RepricedSession(x, q, p, key, owner, t, price);
            && Receipted(y, p, v) && v.receipts > 0 && v.done && v.stop == Running
            && v.lastReceipt == p.unitBytes && v.key == key && v.baseUnits == 0
            && y.escrow.pricePerUnit == price && ChannelOf(y.escrow, key) == Channel(0, 0)
            && y.escrow.deposits.At(key.client) == x.escrow.pricePerUnit
            && Open(x, p, key, p.unitBytes, None).limit == x.escrow.pricePerUnit
  {
    OneUnitServed(x, q, p, key);
  }

  /**
   The price must not rise: after any rise the owner is entitled to, however small, a session that served and signed for
   one unit on a deposit of one unit is owed more than its limit. Its ticket still settles, but for the old price only,
   and once the deposit is withdrawn the node is exposed for more than the limit.
   */
  lemma PriceRiseOutrunsCredit(x: State, q: Params, p: Plan, key: ChannelId, owner: Actor, t: nat, price: nat, feeBps: nat, now: nat)
    requires BuysOneUnit(x, p, key) && price > x.escrow.pricePerUnit && SetPriceRule(x.escrow, t, owner, price).Ok?
    requires var y := RepricedSession(x, q, p, key, owner, t, price).0;
             Held(y.book, key).Some? && now <= Held(y.book, key).value.epochExpiry
    ensures var limit := Open(x, p, key, p.unitBytes, None).limit;
            var (y, v) := RepricedSession(x, q, p, key, owner, t, price);
            var ticket := Held(y.book, key).value;
            && v.done && v.stop != CannotSign && v.receipts > 0
            && Owed(y.escrow, ticket) == price > limit
            && Batch(y.escrow, feeBps, now, [ticket]).Ok? && Batch(y.escrow, feeBps, now, [ticket]).value.gross == limit
            && !RiskBounded(y, p, v, y.escrow.(deposits := y.escrow.deposits.Minus(key.client, limit)), limit)
  {
    RepricedTerms(x, q, p, key, owner, t, price);
    var (y, v) := RepricedSession(x, q, p, key, owner, t, price);
    OneUnitOwed(y, p, v, key, x.escrow.pricePerUnit, feeBps, now);
  }

  lemma OneUnitOwed(x: State, p: Plan, s: Metered, key: ChannelId, limit: nat, feeBps: nat, now: nat)
    requires Sensible(p) && Receipted(x, p, s) && s.receipts > 0 && s.lastReceipt == p.unitBytes && s.key == key && s.baseUnits == 0
    requires ChannelOf(x.escrow, key) == Channel(0, 0) && x.escrow.deposits.At(key.client) == limit < x.escrow.pricePerUnit
    requires Held(x.book, key).Some? && now <= Held(x.book, key).value.epochExpiry
    ensures var t := Held(x.book, key).value;
            && Owed(x.escrow, t) == x.escrow.pricePerUnit
            && Batch(x.escrow, feeBps, now, [t]).Ok? && Batch(x.escrow, feeBps, now, [t]).value.gross == limit
            && !RiskBounded(x, p, s, x.escrow.(deposits := x.escrow.deposits.Minus(key.client, limit)), limit)
  {
    var t := Held(x.book, key).value;
    assert Ceil(p.unitBytes, p.unitBytes) == 1;
    SingleTicket(x.escrow, feeBps, now, t);
  }

  // ------------------------------------------------------------------ a price that falls after a settlement

  lemma Product(a: nat, b: nat)
    requires a >= 1
    ensures (a * b) / a == b
  {
    var n := a * b;
    assert n < (b + 1) * a;
    DivBelow(n, b + 1, a);
    assert n < (n / a + 1) * a;
    if n / a < b {
      TimesMonotone(n / a + 1, b, a);
    }
  }

  /** The bytes of so many units. */
  function Span(p: Plan, units: nat): nat { units * p.unitBytes }

  /** A client with a working phone, an unused channel, and a deposit worth `low` units at the price of now. */
  ghost predicate BuysUnits(x: State, p: Plan, key: ChannelId, low: nat) {
    && Sensible(p) && Filed(x.book) && key.client !in x.lost
    && Held(x.book, key) == None && ChannelOf(x.escrow, key) == Channel(0, 0)
    && x.escrow.deposits.At(key.client) == x.escrow.pricePerUnit * low <= p.onlineCap
    && 1 <= low < x.escrow.pricePerUnit && p.receiptBytes == Span(p, low)
  }

  /** A session of this target that has served and signed for n units, its limit worth `high` times `low`. */
  ghost predicate HasServed(x: State, p: Plan, s: Metered, key: ChannelId, high: nat, low: nat, n: nat)
    requires Sensible(p)
  {
    && Receipted(x, p, s) && s.key == key && s.baseUnits == 0 && s.unsettledAtStart == 0 && s.limit == high * low
    && s.target == Span(p, high) && s.bytes == s.lastReceipt == Span(p, n) && n >= 1 && s.receipts > 0
  }

  lemma FirstUnits(x: State, q: Params, p: Plan, key: ChannelId, high: nat, low: nat)
    requires BuysUnits(x, p, key, low) && high == x.escrow.pricePerUnit
    ensures var (y, v) := Serve(x, q, p, Open(x, p, key, Span(p, high), None), Span(p, low));
            && HasServed(y, p, v, key, high, low, low) && !v.done && v.stop == Running
            && y.escrow == x.escrow && y.lost == x.lost
  {
    var n := Span(p, low);
    var s := Open(x, p, key, Span(p, high), None);
    Product(high, low);
    TimesMonotone(low + 1, high, p.unitBytes);
    assert s.limit == high * low && MaxBytes(s, p, high) == n;
    assert NextBytes(s, p, high, n) == n;
    TimesMonotone(1, low, p.unitBytes);
    assert Boundaries(n, n, n) == [];
    assert Boundaries(0, n, n) == [n];
    ServeSigns(x, q, p, s, n, n);
  }

  /** Serving with a working phone up to a receipt boundary or the end signs for everything served. */
  lemma ServeSigns(x: State, q: Params, p: Plan, s: Metered, chunk: nat, next: nat)
    requires Sensible(p) && x.escrow.pricePerUnit >= 1 && Receipted(x, p, s) && !s.done && s.stop == Running
    requires s.key.client !in x.lost && next == NextBytes(s, p, x.escrow.pricePerUnit, chunk) == Wish(s, chunk) > s.lastReceipt
    requires LastPoint(s.lastReceipt, ReceiptPoints(s.lastReceipt, next, p.receiptBytes, next >= s.target)) == next
    ensures var (y, v) := Serve(x, q, p, s, chunk);
            && Receipted(y, p, v) && v.bytes == v.lastReceipt == next && v.receipts > 0 && SameSession(s, v)
            && v.stop == Running && (v.done <==> next >= s.target) && y.escrow == x.escrow && y.lost == x.lost
  {
    var points := ReceiptPoints(s.lastReceipt, next, p.receiptBytes, next >= s.target);
    var x1, s1 := x.(t := x.t + Elapsed(s.bytes, next)), s.(bytes := next);
    PointsRise(s.lastReceipt, next, p.receiptBytes, next >= s.target);
    SignAllKeeps(x1, q, p, s1, points);
    SignAllReceipts(x1, q, p, s1, points, next);
    SignAllKeepsLost(x1, q, p, s1, points);
  }

  lemma {:induction false} SignAllKeepsLost(x: State, q: Params, p: Plan, s: Metered, points: seq<nat>)
    requires Sensible(p)
    ensures SignAll(x, q, p, s, points).0.lost == x.lost
    decreases |points|
  {
    if points != [] && s.key.client !in x.lost {
      var signed := SignTicketRule(x, q, s.key.client, s.key.client, s.key.nodeAdmin, SessionUnits(s, p, points[0]));
      SignAllKeepsLost(signed.value, q, p, s.(lastReceipt := points[0], receipts := s.receipts + 1), points[1..]);
    }
  }

  /** Someone settles the newest ticket held on the channel. */
  function SettledNow(x: State, key: ChannelId, feeBps: nat, now: nat): State {
    var held := Held(x.book, key);
    if held.None? then x
    else
      var b := Batch(x.escrow, feeBps, now, [held.value]);
      if b.Ok? then x.(escrow := b.value.escrow) else x
  }

  lemma FirstUnitsSettled(x: State, p: Plan, s: Metered, key: ChannelId, high: nat, low: nat, feeBps: nat, now: nat)
    requires Sensible(p) && HasServed(x, p, s, key, high, low, low) && ChannelOf(x.escrow, key) == Channel(0, 0)
    requires x.escrow.pricePerUnit == high >= 1 && x.escrow.deposits.At(key.client) == high * low
    requires Held(x.book, key).Some? && now <= Held(x.book, key).value.epochExpiry
    ensures var y := SettledNow(x, key, feeBps, now);
            && Undisturbed(x, y, key) && HasServed(y, p, s, key, high, low, low) && y.lost == x.lost
            && ChannelOf(y.escrow, key).settledUnits == low && y.escrow.deposits.At(key.client) == 0
            && y.escrow.owner == x.escrow.owner && y.escrow.lastPriceChange == x.escrow.lastPriceChange
  {
    var t := Held(x.book, key).value;
    UnitsOwed(x, p, s, key, high, low, low);
    Settles(x, key, feeBps, now, t, high * low);
    ServedStill(x, SettledNow(x, key, feeBps, now), p, s, key, high, low);
  }

  /** The ticket held settles for all it is worth on an untouched channel whose deposit covers it. */
  lemma Settles(x: State, key: ChannelId, feeBps: nat, now: nat, t: Ticket, worth: nat)
    requires Filed(x.book) && x.escrow.pricePerUnit >= 1 && Held(x.book, key) == Some(t) && IdOf(t) == key
    requires ChannelOf(x.escrow, key) == Channel(0, 0) && now <= t.epochExpiry && t.sequenceNumber > 0 && t.cumulativeUnits > 0
    requires t.signature == SignedBy(t.client, TicketDigestOf(t)) && Owed(x.escrow, t) == worth == x.escrow.deposits.At(key.client)
    ensures var y := SettledNow(x, key, feeBps, now);
            && Undisturbed(x, y, key) && y.lost == x.lost && y.book == x.book && y.escrow.pricePerUnit == x.escrow.pricePerUnit
            && ChannelOf(y.escrow, key).settledUnits == t.cumulativeUnits && y.escrow.deposits.At(key.client) == 0
            && y.escrow.owner == x.escrow.owner && y.escrow.lastPriceChange == x.escrow.lastPriceChange
  {
    SingleTicket(x.escrow, feeBps, now, t);
    SettlingIsUndisturbed(x, key, feeBps, now, t);
  }

  lemma UnitsOwed(x: State, p: Plan, s: Metered, key: ChannelId, high: nat, low: nat, n: nat)
    requires Sensible(p) && HasServed(x, p, s, key, high, low, n)
    ensures Held(x.book, key).Some?
    ensures var t := Held(x.book, key).value;
            && IdOf(t) == key && t.cumulativeUnits == n
            && Owed(x.escrow, t) == (n - ChannelOf(x.escrow, key).settledUnits) * x.escrow.pricePerUnit
  {
    WholeUnits(n, p.unitBytes);
  }

  /** Settling up to the ticket held leaves the session's receipts as they are. */
  lemma ServedStill(x: State, y: State, p: Plan, s: Metered, key: ChannelId, high: nat, low: nat)
    requires Sensible(p) && HasServed(x, p, s, key, high, low, low) && Undisturbed(x, y, key)
    ensures HasServed(y, p, s, key, high, low, low)
  {}

  lemma RestServed(x: State, q: Params, p: Plan, s: Metered, key: ChannelId, high: nat, low: nat)
    requires Sensible(p) && HasServed(x, p, s, key, high, low, low) && !s.done && s.stop == Running && key.client !in x.lost
    requires x.escrow.pricePerUnit == low && 1 <= low < high
    ensures var (y, v) := Serve(x, q, p, s, Span(p, high - low));
            && HasServed(y, p, v, key, high, low, high) && v.done && v.stop == Running && y.escrow == x.escrow
  {
    Product(low, high);
    assert high * low == low * high;
    assert MaxBytes(s, p, low) == Span(p, high);
    assert Span(p, low) + Span(p, high - low) == Span(p, high);
    TimesMonotone(low + 1, high, p.unitBytes);
    PointsRise(s.lastReceipt, Span(p, high), p.receiptBytes, true);
    ServeSigns(x, q, p, s, Span(p, high - low), Span(p, high));
  }

  /** First the units a deposit of high * low buys at the high price, then a settlement, a lower price, and the rest. */
  function CheaperSession(x: State, q: Params, p: Plan, key: ChannelId, low: nat, owner: Actor, feeBps: nat, now: nat, t: nat)
    : (State, Metered)
    requires Sensible(p) && 1 <= low <= x.escrow.pricePerUnit
  {
    var high := x.escrow.pricePerUnit;
    var (y, v) := Serve(x, q, p, Open(x, p, key, Span(p, high), None), Span(p, low));
    var cheaper := Repriced(SettledNow(y, key, feeBps, now), owner, t, low);
    if cheaper.escrow.pricePerUnit >= 1 then Serve(cheaper, q, p, v, Span(p, high - low)) else (cheaper, v)
  }

  lemma CheaperReached(x: State, q: Params, p: Plan, key: ChannelId, low: nat, owner: Actor, feeBps: nat, now: nat, t: nat)
    requires BuysUnits(x, p, key, low) && SetPriceRule(x.escrow, t, owner, low).Ok?
    requires var y := Serve(x, q, p, Open(x, p, key, Span(p, x.escrow.pricePerUnit), None), Span(p, low)).0;
             Held(y.book, key).Some? ==> now <= Held(y.book, key).value.epochExpiry
    ensures var (y, v) := CheaperSession(x, q, p, key, low, owner, feeBps, now, t);
            && HasServed(y, p, v, key, x.escrow.pricePerUnit, low, x.escrow.pricePerUnit) && v.done && v.stop == Running
            && y.escrow.pricePerUnit == low && y.escrow.deposits.At(key.client) == 0
            && ChannelOf(y.escrow, key).settledUnits == low
  {
    var high := x.escrow.pricePerUnit;
    FirstUnits(x, q, p, key, high, low);
    var (y, v) := Serve(x, q, p, Open(x, p, key, Span(p, high), None), Span(p, low));
    SettledAndCheaper(y, p, v, key, high, low, owner, feeBps, now, t);
    RestServed(Repriced(SettledNow(y, key, feeBps, now), owner, t, low), q, p, v, key, high, low);
  }

  lemma SettledAndCheaper(x: State, p: Plan, s: Metered, key: ChannelId, high: nat, low: nat, owner: Actor, feeBps: nat, now: nat,
                          t: nat)
    requires Sensible(p) && HasServed(x, p, s, key, high, low, low) && ChannelOf(x.escrow, key) == Channel(0, 0)
    requires x.escrow.pricePerUnit == high >= low >= 1 && x.escrow.deposits.At(key.client) == high * low
    requires SetPriceRule(x.escrow, t, owner, low).Ok? && Held(x.book, key).Some? && now <= Held(x.book, key).value.epochExpiry
    ensures var settled := SettledNow(x, key, feeBps, now);
            var y := Repriced(settled, owner, t, low);
            && Undisturbed(x, settled, key) && Undisturbed(settled, y, key) && HasServed(y, p, s, key, high, low, low)
            && y.lost == x.lost && y.escrow.pricePerUnit == low && y.escrow.deposits.At(key.client) == 0
            && ChannelOf(y.escrow, key).settledUnits == low
  {
    FirstUnitsSettled(x, p, s, key, high, low, feeBps, now);
    RepricedKeeps(SettledNow(x, key, feeBps, now), p, s, key, high, low, owner, t);
  }

  lemma RepricedKeeps(x: State, p: Plan, s: Metered, key: ChannelId, high: nat, low: nat, owner: Actor, t: nat)
    requires Sensible(p) && HasServed(x, p, s, key, high, low, low) && SetPriceRule(x.escrow, t, owner, low).Ok?
    requires 1 <= low <= x.escrow.pricePerUnit
    ensures var y := Repriced(x, owner, t, low);
            && HasServed(y, p, s, key, high, low, low) && Undisturbed(x, y, key) && y.lost == x.lost
            && y.escrow.pricePerUnit == low && y.escrow.deposits == x.escrow.deposits
            && ChannelOf(y.escrow, key) == ChannelOf(x.escrow, key)
  {}

  /**
   The price may not even fall once units of the session are settled. For every fall from high to low: on a deposit of
   high * low the session serves low units, someone settles them for all of the deposit, the price falls, and the limit,
   which knows of no settlement, lets the rest up to high units through. The node holds a good ticket worth
   (high - low) * low and nobody's money behind it.
   */
  lemma PriceFallAfterSettlement(x: State, q: Params, p: Plan, key: ChannelId, low: nat, owner: Actor, feeBps: nat, now: nat,
                                 t: nat, later: nat)
    requires BuysUnits(x, p, key, low) && SetPriceRule(x.escrow, t, owner, low).Ok?
    requires var y := Serve(x, q, p, Open(x, p, key, Span(p, x.escrow.pricePerUnit), None), Span(p, low)).0;
             Held(y.book, key).Some? ==> now <= Held(y.book, key).value.epochExpiry
    ensures var (y, v) := CheaperSession(x, q, p, key, low, owner, feeBps, now, t);
            && v.done && v.stop != CannotSign && Held(y.book, key).Some?
            && var ticket := Held(y.book, key).value;
               && Owed(y.escrow, ticket) == (x.escrow.pricePerUnit - low) * low > 0
               && (later <= ticket.epochExpiry ==>
                     Batch(y.escrow, feeBps, later, [ticket]).Ok? && Batch(y.escrow, feeBps, later, [ticket]).value.gross == 0
                     && !SettlesInFull(y.escrow, feeBps, later, ticket))
  {
    CheaperReached(x, q, p, key, low, owner, feeBps, now, t);
    var (y, v) := CheaperSession(x, q, p, key, low, owner, feeBps, now, t);
    NothingBehind(y, p, v, key, x.escrow.pricePerUnit, low, feeBps, later);
  }

  lemma NothingBehind(x: State, p: Plan, s: Metered, key: ChannelId, high: nat, low: nat, feeBps: nat, later: nat)
    requires Sensible(p) && HasServed(x, p, s, key, high, low, high) && 1 <= low < high && x.escrow.pricePerUnit == low
    requires x.escrow.deposits.At(key.client) == 0 && ChannelOf(x.escrow, key).settledUnits == low
    ensures Held(x.book, key).Some?
    ensures var ticket := Held(x.book, key).value;
            && Owed(x.escrow, ticket) == (high - low) * low > 0
            && (later <= ticket.epochExpiry ==>
                  Batch(x.escrow, feeBps, later, [ticket]).Ok? && Batch(x.escrow, feeBps, later, [ticket]).value.gross == 0
                  && !SettlesInFull(x.escrow, feeBps, later, ticket))
  {
    var ticket := Held(x.book, key).value;
    UnitsOwed(x, p, s, key, high, low, high);
    ChargeMonotone(1, high - low, low);
    SingleTicket(x.escrow, feeBps, later, ticket);
  }
}
