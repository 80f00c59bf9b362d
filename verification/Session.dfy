/** The metered session of web/src/demo/flows.js: bytes served, tickets signed on the way, and the credit that covers them. */
module Session {
  import opened Options
  import opened EngineTypes
  import opened Settlement
  import opened Quote
  import opened EngineRules

  /** receiptBytes, unitBytes and the two caps in base units. */
  datatype Plan = Plan(unitBytes: nat, receiptBytes: nat, onlineCap: nat, offlineCap: nat)

  ghost predicate Sensible(p: Plan) { p.unitBytes >= 1 && p.receiptBytes >= 1 }

  datatype Stop = Running | CreditLimit | CannotSign

  datatype Metered = Metered(key: ChannelId, target: nat, bytes: nat, baseUnits: nat, unsettledAtStart: int, limit: int,
                             lastReceipt: nat, receipts: nat, stop: Stop, done: bool)

  function Ceil(bytes: nat, unit: nat): nat
    requires unit >= 1
  {
    (bytes + unit - 1) / unit
  }

  /** openSession: the limit is the deposit online and the voucher's amount offline, each under its cap. */
  function Open(x: State, p: Plan, key: ChannelId, target: nat, voucher: Option<nat>): Metered {
    var held := Held(x.book, key);
    var signed := if held.Some? then held.value.cumulativeUnits else 0;
    var settled := ChannelOf(x.escrow, key).settledUnits;
    var baseUnits := if signed >= settled then signed else settled;
    var limit := match voucher
      case None => Min(x.escrow.deposits.At(key.client), p.onlineCap)
      case Some(amount) => Min(amount, p.offlineCap);
    Metered(key, target, 0, baseUnits, (baseUnits - settled) * x.escrow.pricePerUnit, limit, 0, 0, Running, false)
  }

  function SessionUnits(s: Metered, p: Plan, bytes: nat): nat
    requires Sensible(p)
  {
    s.baseUnits + Ceil(bytes, p.unitBytes)
  }

  /** sessionCredit: what the node may still serve for. */
  function SessionCredit(s: Metered, p: Plan, price: nat): int
    requires Sensible(p)
  {
    s.limit - (s.unsettledAtStart + Ceil(s.bytes, p.unitBytes) * price)
  }

  // ------------------------------------------------------------------ serve

  /** Bytes the credit allows in all, in whole units. */
  function MaxBytes(s: Metered, p: Plan, price: nat): nat
    requires price >= 1
  {
    var units := (s.limit - s.unsettledAtStart) / price;
    if units > 0 then units * p.unitBytes else 0
  }

  function Wish(s: Metered, chunk: nat): nat { if s.bytes + chunk <= s.target then s.bytes + chunk else s.target }

  function NextBytes(s: Metered, p: Plan, price: nat, chunk: nat): nat
    requires price >= 1
  {
    if Wish(s, chunk) <= MaxBytes(s, p, price) then Wish(s, chunk) else MaxBytes(s, p, price)
  }

  /** Receipt boundaries in (from, next]. */
  function Boundaries(from: nat, next: nat, step: nat): seq<nat>
    requires step >= 1
    decreases next - from
  {
    if from + step <= next then [from + step] + Boundaries(from + step, next, step) else []
  }

  /** The boundaries, and the end of the session or the throttle point if it is not one of them. */
  function ReceiptPoints(from: nat, next: nat, step: nat, finished: bool): seq<nat>
    requires step >= 1
  {
    var bs := Boundaries(from, next, step);
    var last := if bs == [] then from else bs[|bs| - 1];
    if finished && last < next then bs + [next] else bs
  }

  /** Sign at every point, stopping at the first signature the wallet cannot give. */
  function SignAll(x: State, q: Params, p: Plan, s: Metered, points: seq<nat>): (State, Metered)
    requires Sensible(p)
    decreases |points|
  {
    if points == [] then (x, s)
    else
      var signed := SignTicketRule(x, q, s.key.client, s.key.client, s.key.nodeAdmin, SessionUnits(s, p, points[0]));
      if signed.Err? then (x, s.(stop := CannotSign, done := true))
      else SignAll(signed.value, q, p, s.(lastReceipt := points[0], receipts := s.receipts + 1), points[1..])
  }

  /** About 2 Mbit/s, and at least a second. */
  function Elapsed(before: nat, after: nat): nat {
    var secs := (after - before + 125_000) / 250_000;
    if secs >= 1 then secs else 1
  }

  function Serve(x: State, q: Params, p: Plan, s: Metered, chunk: nat): (State, Metered)
    requires Sensible(p) && x.escrow.pricePerUnit >= 1
  {
    if s.done then (x, s)
    else
      var next := NextBytes(s, p, x.escrow.pricePerUnit, chunk);
      var throttled := next < Wish(s, chunk);
      var finished := next >= s.target || throttled;
      var (y, v) := SignAll(x.(t := x.t + Elapsed(s.bytes, next)), q, p, s.(bytes := next),
                            ReceiptPoints(s.lastReceipt, next, p.receiptBytes, finished));
      if v.done then (y, v)
      else (y, v.(stop := if throttled then CreditLimit else v.stop, done := finished))
  }

  /** serve as the loops it is made of. */
  method ServeChunk(x: State, q: Params, p: Plan, s: Metered, chunk: nat) returns (y: State, v: Metered)
    requires Sensible(p) && x.escrow.pricePerUnit >= 1
    ensures (y, v) == Serve(x, q, p, s, chunk)
  {
    y, v := x, s;
    if s.done {
      return;
    }
    var next := NextBytes(s, p, x.escrow.pricePerUnit, chunk);
    var throttled := next < Wish(s, chunk);
    y := y.(t := y.t + Elapsed(s.bytes, next));
    v := v.(bytes := next);
    var finished := next >= s.target || throttled;
    var points := ListPoints(s.lastReceipt, next, p.receiptBytes, finished);
    ghost var start, begun := y, v;
    var i := 0;
    while i < |points|
      invariant 0 <= i <= |points| && !v.done
      invariant SignAll(y, q, p, v, points[i..]) == SignAll(start, q, p, begun, points)
    {
      var units := SessionUnits(v, p, points[i]);
      var signed := SignTicketRule(y, q, v.key.client, v.key.client, v.key.nodeAdmin, units);
      assert points[i..][1..] == points[i + 1..];
      if signed.Err? {
        v := v.(stop := CannotSign, done := true);
        return;
      }
      y := signed.value;
      v := v.(lastReceipt := points[i], receipts := v.receipts + 1);
      i := i + 1;
    }
    assert points[i..] == [];
    if throttled {
      v := v.(stop := CreditLimit);
      v := v.(done := true);
    } else if next >= s.target {
      v := v.(done := true);
    }
  }

  method ListPoints(from: nat, next: nat, step: nat, finished: bool) returns (points: seq<nat>)
    requires step >= 1
    ensures points == ReceiptPoints(from, next, step, finished)
  {
    points := ListBoundaries(from, next, step);
    var last := if points == [] then from else points[|points| - 1];
    if finished && last < next {
      points := points + [next];
    }
  }

  method ListBoundaries(from: nat, next: nat, step: nat) returns (points: seq<nat>)
    requires step >= 1
    ensures points == Boundaries(from, next, step)
  {
    points := [];
    var b := from + step;
    while b <= next
      invariant b >= step && points + Boundaries(b - step, next, step) == Boundaries(from, next, step)
      decreases next + step - b
    {
      points := points + [b];
      b := b + step;
    }
  }

  // ------------------------------------------------------------------ receipt points

  ghost predicate Rising(from: nat, points: seq<nat>, next: nat) {
    && (forall i :: 0 <= i < |points| ==> from < points[i] <= next)
    && (forall i, j :: 0 <= i < j < |points| ==> points[i] < points[j])
  }

  function LastPoint(from: nat, points: seq<nat>): nat { if points == [] then from else points[|points| - 1] }

  lemma {:induction false} BoundariesRise(from: nat, next: nat, step: nat)
    requires step >= 1 && from <= next
    ensures Rising(from, Boundaries(from, next, step), next)
    ensures next - LastPoint(from, Boundaries(from, next, step)) < step
    decreases next - from
  {
    if from + step <= next {
      BoundariesRise(from + step, next, step);
    }
  }

  lemma PointsRise(from: nat, next: nat, step: nat, finished: bool)
    requires step >= 1 && from <= next
    ensures Rising(from, ReceiptPoints(from, next, step, finished), next)
    ensures next - LastPoint(from, ReceiptPoints(from, next, step, finished)) < step
    ensures finished ==> LastPoint(from, ReceiptPoints(from, next, step, finished)) == next
    ensures next - from >= step ==> ReceiptPoints(from, next, step, finished) != []
  {
    BoundariesRise(from, next, step);
  }

  // ------------------------------------------------------------------ credit

  function Charge(units: int, price: nat): int { units * price }

  lemma ChargeMonotone(u: int, v: int, price: nat)
    requires u <= v
    ensures Charge(u, price) <= Charge(v, price)
  {}

  lemma ChargeAdds(u: int, v: int, price: nat)
    ensures Charge(u + v, price) == Charge(u, price) + Charge(v, price)
  {}

  lemma TimesMonotone(a: nat, b: nat, unit: nat)
    requires a <= b
    ensures a * unit <= b * unit
  {}

  lemma DivBelow(n: nat, k: nat, unit: nat)
    requires unit >= 1 && n < k * unit
    ensures n / unit < k
  {
    var quotient := n / unit;
    assert quotient * unit <= n;
    if k <= quotient {
      TimesMonotone(k, quotient, unit);
    }
  }

  lemma CeilWithin(bytes: nat, units: nat, unit: nat)
    requires unit >= 1 && bytes <= units * unit
    ensures Ceil(bytes, unit) <= units
  {
    DivBelow(bytes + unit - 1, units + 1, unit);
  }

  lemma CeilMonotone(a: nat, b: nat, unit: nat)
    requires unit >= 1 && a <= b
    ensures Ceil(a, unit) <= Ceil(b, unit)
  {
    var n := b + unit - 1;
    assert n < (n / unit + 1) * unit;
    DivBelow(a + unit - 1, n / unit + 1, unit);
  }

  lemma Quotient(n: int, price: nat)
    requires price >= 1
    ensures Charge(n / price, price) <= n
  {}

  /** Bytes within the allowance cost no more than the credit. */
  lemma AllowanceCovers(s: Metered, p: Plan, price: nat, bytes: nat)
    requires Sensible(p) && price >= 1 && 0 < bytes <= MaxBytes(s, p, price)
    ensures s.unsettledAtStart + Charge(Ceil(bytes, p.unitBytes), price) <= s.limit
  {
    var units := (s.limit - s.unsettledAtStart) / price;
    CeilWithin(bytes, units, p.unitBytes);
    ChargeMonotone(Ceil(bytes, p.unitBytes), units, price);
    Quotient(s.limit - s.unsettledAtStart, price);
  }

  /** Whatever the price did before, right after serving the session is within its limit at the price of now. */
  lemma CreditNotOverdrawn(x: State, q: Params, p: Plan, s: Metered, chunk: nat)
    requires Sensible(p) && x.escrow.pricePerUnit >= 1 && !s.done
    ensures var v := Serve(x, q, p, s, chunk).1;
            v.bytes > 0 ==> SessionCredit(v, p, x.escrow.pricePerUnit) >= 0
  {
    var next := NextBytes(s, p, x.escrow.pricePerUnit, chunk);
    var finished := next >= s.target || next < Wish(s, chunk);
    SignAllKeeps(x.(t := x.t + Elapsed(s.bytes, next)), q, p, s.(bytes := next),
                 ReceiptPoints(s.lastReceipt, next, p.receiptBytes, finished));
    if next > 0 {
      AllowanceCovers(s, p, x.escrow.pricePerUnit, next);
    }
  }

  /** Signing changes no amounts, only receipts. */
  ghost predicate SameTerms(s: Metered, v: Metered) {
    && v.key == s.key && v.target == s.target && v.bytes == s.bytes && v.baseUnits == s.baseUnits
    && v.unsettledAtStart == s.unsettledAtStart && v.limit == s.limit
  }

  lemma {:induction false} SignAllKeeps(x: State, q: Params, p: Plan, s: Metered, points: seq<nat>)
    requires Sensible(p)
    ensures SameTerms(s, SignAll(x, q, p, s, points).1)
    decreases |points|
  {
    if points != [] && s.key.client !in x.lost {
      var signed := SignTicketRule(x, q, s.key.client, s.key.client, s.key.nodeAdmin, SessionUnits(s, p, points[0]));
      SignAllKeeps(signed.value, q, p, s.(lastReceipt := points[0], receipts := s.receipts + 1), points[1..]);
    }
  }

  // ------------------------------------------------------------------ what holds between chunks

  /**
   The ticket a session with receipts holds: signed by its client, for exactly the bytes of its last receipt, and ahead of
   its channel unless the channel has already settled that much.
   */
  ghost predicate Signed(x: State, p: Plan, s: Metered)
    requires Sensible(p)
  {
    && Held(x.book, s.key).Some?
    && var t := Held(x.book, s.key).value;
       && IdOf(t) == s.key && t.signature == SignedBy(t.client, TicketDigestOf(t))
       && (t.sequenceNumber > ChannelOf(x.escrow, s.key).lastSequence
           || t.cumulativeUnits == ChannelOf(x.escrow, s.key).settledUnits)
       && t.cumulativeUnits == SessionUnits(s, p, s.lastReceipt)
  }

  /** Neither the chain nor the newest ticket is ahead of the session. */
  ghost predicate NothingAhead(x: State, p: Plan, s: Metered)
    requires Sensible(p)
  {
    && ChannelOf(x.escrow, s.key).settledUnits <= SessionUnits(s, p, s.lastReceipt)
    && (Held(x.book, s.key).Some? ==> Held(x.book, s.key).value.cumulativeUnits <= SessionUnits(s, p, s.lastReceipt))
  }

  /** Receipts on file match the session. */
  ghost predicate Receipted(x: State, p: Plan, s: Metered)
    requires Sensible(p)
  {
    && Filed(x.book) && NothingAhead(x, p, s)
    && (s.receipts == 0 ==> s.lastReceipt == 0) && (s.receipts > 0 ==> s.lastReceipt > 0 && Signed(x, p, s))
  }

  /** The price now, and what the session set aside for units unsettled at its start: enough at that price. */
  ghost predicate OnTerms(x: State, p: Plan, s: Metered, price: nat)
    requires Sensible(p)
  {
    && x.escrow.pricePerUnit == price >= 1 && s.unsettledAtStart >= 0
    && s.unsettledAtStart >= Charge(s.baseUnits - ChannelOf(x.escrow, s.key).settledUnits, price)
  }

  ghost predicate Metering(x: State, p: Plan, s: Metered, price: nat)
    requires Sensible(p)
  {
    && OnTerms(x, p, s, price) && Receipted(x, p, s)
    && s.lastReceipt <= s.bytes <= s.target
    && (s.bytes > 0 ==> s.unsettledAtStart + Charge(Ceil(s.bytes, p.unitBytes), price) <= s.limit)
    && (!s.done ==> s.bytes - s.lastReceipt < p.receiptBytes && s.stop == Running)
    && (s.done && s.stop != CannotSign ==> s.bytes == s.lastReceipt)
  }

  lemma OpenMeters(x: State, p: Plan, key: ChannelId, target: nat, voucher: Option<nat>)
    requires Sensible(p) && x.escrow.pricePerUnit >= 1 && Filed(x.book)
    ensures Metering(x, p, Open(x, p, key, target, voucher), x.escrow.pricePerUnit)
    ensures GrantedFrom(Open(x, p, key, target, voucher).limit, Backing(x, key, voucher), CapOf(p, voucher))
  {}

  /** What stands behind a session: the voucher offline, the deposit online. */
  function Backing(x: State, key: ChannelId, voucher: Option<nat>): int {
    if voucher.Some? then voucher.value else x.escrow.deposits.At(key.client)
  }

  function CapOf(p: Plan, voucher: Option<nat>): nat { if voucher.Some? then p.offlineCap else p.onlineCap }

  /** A limit is within both of its bounds and leaves nothing of the tighter one. */
  ghost predicate GrantedFrom(limit: int, backing: int, cap: nat) {
    limit <= backing && limit <= cap && (limit == backing || limit == cap)
  }

  /** A session starts from the units already signed or settled, whichever is more, and sets aside the unsettled ones. */
  lemma OpenStarts(x: State, p: Plan, key: ChannelId, target: nat, voucher: Option<nat>)
    ensures var s, settled := Open(x, p, key, target, voucher), ChannelOf(x.escrow, key).settledUnits;
            && s.key == key && s.target == target && s.bytes == s.lastReceipt == s.receipts == 0 && !s.done && s.stop == Running
            && s.baseUnits >= settled && (Held(x.book, key).Some? ==> s.baseUnits >= Held(x.book, key).value.cumulativeUnits)
            && (s.baseUnits == settled || (Held(x.book, key).Some? && s.baseUnits == Held(x.book, key).value.cumulativeUnits))
            && s.unsettledAtStart == Charge(s.baseUnits - settled, x.escrow.pricePerUnit)
  {}

  // ------------------------------------------------------------------ signing

  lemma SignOnce(x: State, q: Params, p: Plan, s: Metered, point: nat)
    requires Sensible(p) && Receipted(x, p, s) && point > s.lastReceipt && s.key.client !in x.lost
    ensures var y := SignTicketRule(x, q, s.key.client, s.key.client, s.key.nodeAdmin, SessionUnits(s, p, point)).value;
            Receipted(y, p, s.(lastReceipt := point, receipts := s.receipts + 1)) && y.escrow == x.escrow && y.lost == x.lost
  {
    CeilMonotone(s.lastReceipt, point, p.unitBytes);
    FiledOnTop(x.book, TicketFor(x, q, s.key.client, s.key.client, s.key.nodeAdmin, SessionUnits(s, p, point)));
  }

  /** With a working phone every point is signed and the last receipt is the last point; without, none is. */
  lemma {:induction false} SignAllReceipts(x: State, q: Params, p: Plan, s: Metered, points: seq<nat>, next: nat)
    requires Sensible(p) && Receipted(x, p, s) && Rising(s.lastReceipt, points, next) && !s.done && s.stop == Running
    ensures var (y, v) := SignAll(x, q, p, s, points);
            && Receipted(y, p, v) && y.escrow == x.escrow
            && (s.key.client !in x.lost || points == [] ==> v.lastReceipt == LastPoint(s.lastReceipt, points) && !v.done && v.stop == Running)
            && (s.key.client in x.lost && points != [] ==> v.lastReceipt == s.lastReceipt && v.done && v.stop == CannotSign)
    decreases |points|
  {
    if points != [] && s.key.client !in x.lost {
      var y := SignTicketRule(x, q, s.key.client, s.key.client, s.key.nodeAdmin, SessionUnits(s, p, points[0])).value;
      var v := s.(lastReceipt := points[0], receipts := s.receipts + 1);
      SignOnce(x, q, p, s, points[0]);
      assert Rising(points[0], points[1..], next);
      SignAllReceipts(y, q, p, v, points[1..], next);
    }
  }

  // ------------------------------------------------------------------ one chunk

  lemma NextNotBack(s: Metered, p: Plan, price: nat, chunk: nat)
    requires Sensible(p) && price >= 1 && s.bytes <= s.target
    requires s.bytes > 0 ==> s.unsettledAtStart + Charge(Ceil(s.bytes, p.unitBytes), price) <= s.limit
    ensures s.bytes <= NextBytes(s, p, price, chunk) <= s.target
  {
    if s.bytes > 0 {
      var credit := s.limit - s.unsettledAtStart;
      WithinAllowance(Ceil(s.bytes, p.unitBytes), credit, price);
      CoveredByUnits(s.bytes, credit / price, p.unitBytes);
    }
  }

  lemma WithinAllowance(units: nat, credit: int, price: nat)
    requires price >= 1 && Charge(units, price) <= credit
    ensures units <= credit / price
  {
    var room := credit / price;
    assert credit < (room + 1) * price;
    if room + 1 <= units {
      ChargeMonotone(room + 1, units, price);
    }
  }

  lemma CoveredByUnits(bytes: nat, units: nat, unit: nat)
    requires unit >= 1 && Ceil(bytes, unit) <= units
    ensures bytes <= units * unit
  {
    assert bytes <= Ceil(bytes, unit) * unit;
    TimesMonotone(Ceil(bytes, unit), units, unit);
  }

  /** What signing left, once the session knows whether it is over. */
  lemma Concluded(x: State, p: Plan, v: Metered, price: nat, finished: bool, stop: Stop)
    requires Sensible(p) && OnTerms(x, p, v, price) && Receipted(x, p, v) && v.lastReceipt <= v.bytes <= v.target
    requires v.bytes > 0 ==> v.unsettledAtStart + Charge(Ceil(v.bytes, p.unitBytes), price) <= v.limit
    requires if v.done then v.stop == CannotSign
             else v.bytes - v.lastReceipt < p.receiptBytes && (finished ==> v.lastReceipt == v.bytes)
    requires !v.done && !finished ==> stop == Running
    ensures Metering(x, p, if v.done then v else v.(stop := stop, done := finished), price)
  {}

  lemma SignedAll(x: State, q: Params, p: Plan, s: Metered, next: nat, finished: bool, price: nat, points: seq<nat>)
    requires Sensible(p) && OnTerms(x, p, s, price) && Receipted(x, p, s) && s.lastReceipt <= next && !s.done && s.stop == Running
    requires points == ReceiptPoints(s.lastReceipt, next, p.receiptBytes, finished) && s.bytes == next
    ensures var (y, v) := SignAll(x, q, p, s, points);
            && OnTerms(y, p, v, price) && Receipted(y, p, v) && v.lastReceipt <= next
            && if v.done then v.stop == CannotSign
               else v.stop == Running && next - v.lastReceipt < p.receiptBytes && (finished ==> v.lastReceipt == next)
  {
    PointsRise(s.lastReceipt, next, p.receiptBytes, finished);
    SignAllKeeps(x, q, p, s, points);
    SignAllReceipts(x, q, p, s, points, next);
  }

  lemma SignedMeters(x: State, q: Params, p: Plan, s: Metered, finished: bool, throttled: bool, price: nat, points: seq<nat>)
    requires Sensible(p) && OnTerms(x, p, s, price) && Receipted(x, p, s) && s.lastReceipt <= s.bytes <= s.target
    requires !s.done && s.stop == Running && (throttled ==> finished)
    requires s.bytes > 0 ==> s.unsettledAtStart + Charge(Ceil(s.bytes, p.unitBytes), price) <= s.limit
    requires points == ReceiptPoints(s.lastReceipt, s.bytes, p.receiptBytes, finished)
    ensures var (y, v) := SignAll(x, q, p, s, points);
            Metering(y, p, if v.done then v else v.(stop := if throttled then CreditLimit else v.stop, done := finished), price)
  {
    SignAllKeeps(x, q, p, s, points);
    SignedAll(x, q, p, s, s.bytes, finished, price, points);
    var (y, v) := SignAll(x, q, p, s, points);
    Concluded(y, p, v, price, finished, if throttled then CreditLimit else v.stop);
  }

  /** At the price of now a session never loses bytes, and serving keeps everything the credit argument rests on. */
  lemma ServeMeters(x: State, q: Params, p: Plan, s: Metered, chunk: nat, price: nat)
    requires Sensible(p) && Metering(x, p, s, price) && !s.done
    ensures Metering(Serve(x, q, p, s, chunk).0, p, Serve(x, q, p, s, chunk).1, price)
  {
    var next := NextBytes(s, p, price, chunk);
    var throttled := next < Wish(s, chunk);
    var finished := next >= s.target || throttled;
    NextNotBack(s, p, price, chunk);
    if next > 0 {
      AllowanceCovers(s, p, price, next);
    }
    SignedMeters(x.(t := x.t + Elapsed(s.bytes, next)), q, p, s.(bytes := next), finished, throttled, price,
                 ReceiptPoints(s.lastReceipt, next, p.receiptBytes, finished));
  }

  // ------------------------------------------------------------------ how much is served

  lemma RoomTaken(s: Metered, p: Plan, price: nat)
    requires Sensible(p) && price >= 1
    ensures s.limit - (s.unsettledAtStart + Charge(Ceil(MaxBytes(s, p, price), p.unitBytes), price)) < price
    ensures MaxBytes(s, p, price) > 0 ==> s.limit - (s.unsettledAtStart + Charge(Ceil(MaxBytes(s, p, price), p.unitBytes), price)) >= 0
  {
    var credit := s.limit - s.unsettledAtStart;
    var units := credit / price;
    assert credit < Charge(units + 1, price) by {
      Remainder(credit, price);
    }
    ChargeAdds(units, 1, price);
    if MaxBytes(s, p, price) > 0 {
      WholeUnits(units, p.unitBytes);
      Quotient(credit, price);
    } else {
      ChargeMonotone(units, 0, price);
      NoUnits(units, p.unitBytes);
    }
  }

  lemma Remainder(n: int, price: nat)
    requires price >= 1
    ensures n < Charge(n / price + 1, price)
  {}

  lemma NoUnits(units: int, unit: nat)
    requires unit >= 1
    ensures units > 0 ==> units * unit > 0
    ensures Ceil(0, unit) == 0
  {}

  /** So many whole units of bytes are so many units. */
  lemma WholeUnits(n: nat, unit: nat)
    requires unit >= 1
    ensures Ceil(n * unit, unit) == n
  {
    CeilWithin(n * unit, n, unit);
    if Ceil(n * unit, unit) < n {
      CoveredByUnits(n * unit, n - 1, unit);
      TimesBelow(n, unit);
    }
  }

  lemma TimesBelow(n: nat, unit: nat)
    requires n >= 1 && unit >= 1
    ensures n * unit > (n - 1) * unit
  {}

  /**
   A chunk is served whole unless the target or the credit ends it, and the credit ends it only when it does not buy
   another unit: what sessionCredit then shows is less than the price of one.
   */
  lemma ServesAllItCan(x: State, q: Params, p: Plan, s: Metered, chunk: nat, price: nat)
    requires Sensible(p) && Metering(x, p, s, price) && !s.done
    ensures var v := Serve(x, q, p, s, chunk).1;
            && s.bytes <= v.bytes <= Wish(s, chunk) <= s.target && Wish(s, chunk) <= s.bytes + chunk
            && (Wish(s, chunk) == s.target || Wish(s, chunk) == s.bytes + chunk)
            && (v.bytes < Wish(s, chunk) ==> SessionCredit(v, p, price) < price)
            && (v.bytes > 0 ==> SessionCredit(v, p, price) >= 0)
            && (v.stop == CreditLimit ==> v.bytes < Wish(s, chunk))
            && (v.bytes < Wish(s, chunk) && v.stop != CannotSign ==> v.stop == CreditLimit && v.done)
            && (v.bytes == s.target ==> v.done)
  {
    NextNotBack(s, p, price, chunk);
    ServedBytes(x, q, p, s, chunk, price);
    RoomTaken(s, p, price);
    CreditNotOverdrawn(x, q, p, s, chunk);
  }

  /** How far a chunk goes, and whether the session is over after it. */
  lemma ServedBytes(x: State, q: Params, p: Plan, s: Metered, chunk: nat, price: nat)
    requires Sensible(p) && Metering(x, p, s, price) && !s.done
    ensures var v, next := Serve(x, q, p, s, chunk).1, NextBytes(s, p, price, chunk);
            && v.bytes == next && v.limit == s.limit && v.unsettledAtStart == s.unsettledAtStart
            && (v.stop == CreditLimit ==> next < Wish(s, chunk))
            && (next < Wish(s, chunk) && v.stop != CannotSign ==> v.stop == CreditLimit && v.done)
            && (next == s.target ==> v.done)
  {
    var next := NextBytes(s, p, price, chunk);
    var finished := next >= s.target || next < Wish(s, chunk);
    var points := ReceiptPoints(s.lastReceipt, next, p.receiptBytes, finished);
    var x1, s1 := x.(t := x.t + Elapsed(s.bytes, next)), s.(bytes := next);
    NextNotBack(s, p, price, chunk);
    PointsRise(s.lastReceipt, next, p.receiptBytes, finished);
    SignAllKeeps(x1, q, p, s1, points);
    SignAllReceipts(x1, q, p, s1, points, next);
  }

  /** A chunk takes its bytes at a quarter megabyte a second, to the nearest second, but a second at least. */
  lemma ElapsedNearest(before: nat, after: nat)
    requires before <= after
    ensures Elapsed(before, after) >= 1
    ensures Elapsed(before, after) > 1 || after - before >= 125_000 ==>
              after - before - 125_000 <= Elapsed(before, after) * 250_000 <= after - before + 125_000
    ensures after - before < 375_000 ==> Elapsed(before, after) == 1
  {}

  // ------------------------------------------------------------------ where the promise stops

  /**
   "The node stops within one receipt interval" holds after a chunk exactly when the phone can sign or no receipt boundary
   fell into the chunk: the bytes are counted before the wallet is asked to sign for them.
   */
  lemma UnsignedWithinInterval(x: State, q: Params, p: Plan, s: Metered, chunk: nat, price: nat)
    requires Sensible(p) && Metering(x, p, s, price) && !s.done
    ensures var v := Serve(x, q, p, s, chunk).1;
            v.bytes - v.lastReceipt < p.receiptBytes
            <==> (s.key.client !in x.lost || NextBytes(s, p, price, chunk) - s.lastReceipt < p.receiptBytes)
  {
    var next := NextBytes(s, p, price, chunk);
    var finished := next >= s.target || next < Wish(s, chunk);
    var points := ReceiptPoints(s.lastReceipt, next, p.receiptBytes, finished);
    var x1, s1 := x.(t := x.t + Elapsed(s.bytes, next)), s.(bytes := next);
    NextNotBack(s, p, price, chunk);
    PointsRise(s.lastReceipt, next, p.receiptBytes, finished);
    SignAllKeeps(x1, q, p, s1, points);
    SignAllReceipts(x1, q, p, s1, points, next);
  }

  /** A whole chunk can go unsigned: three receipt intervals served to a phone that is gone. */
  lemma WholeChunkUnsigned(x: State, q: Params)
    requires x.escrow.pricePerUnit == 1 && Amina in x.lost
    ensures var p := Plan(1, 10, 1000, 1000);
            var s := Metered(Between(Amina, Node), 100, 0, 0, 0, 1000, 0, 0, Running, false);
            var v := Serve(x, q, p, s, 30).1;
            v.bytes - v.lastReceipt == 3 * p.receiptBytes && v.receipts == 0
  {
    var p := Plan(1, 10, 1000, 1000);
    var s := Metered(Between(Amina, Node), 100, 0, 0, 0, 1000, 0, 0, Running, false);
    assert NextBytes(s, p, 1, 30) == 30;
    BoundariesRise(0, 30, 10);
    assert ReceiptPoints(0, 30, 10, false) != [];
  }
}
