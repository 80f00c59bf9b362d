/** pendingTickets and batchQuote: what a relayer is told before it settles, and how far the settlement can differ. */
module Quote {
  import opened Options
  import opened EngineTypes
  import opened Settlement
  import opened SettlementTheorems
  import opened Earnings

  /** One entry of the world's `tickets`: all tickets signed on a channel, newest last. */
  datatype Shelf = Shelf(key: ChannelId, list: seq<Ticket>)

  function IdOf(t: Ticket): ChannelId { Between(t.client, t.nodeAdmin) }

  /** Channels have one shelf each, and a shelf holds tickets of its own channel. signTicket keeps this. */
  ghost predicate Filed(book: seq<Shelf>) {
    && (forall i :: 0 <= i < |book| ==> ShelfOk(book[i]))
    && (forall i, j :: 0 <= i < j < |book| ==> book[i].key != book[j].key)
  }

  ghost predicate ShelfOk(s: Shelf) { s.list != [] && forall i :: 0 <= i < |s.list| ==> IdOf(s.list[i]) == s.key }

  function Latest(s: Shelf): Ticket
    requires s.list != []
  {
    s.list[|s.list| - 1]
  }

  datatype Pending = Pending(ticket: Ticket, settledUnits: nat, deltaUnits: nat, heldCount: nat)

  predicate Unsettled(e: Escrow, t: Ticket) {
    t.sequenceNumber > ChannelOf(e, IdOf(t)).lastSequence && t.cumulativeUnits > ChannelOf(e, IdOf(t)).settledUnits
  }

  predicate Wanted(e: Escrow, nodeAdmin: Option<Actor>, s: Shelf) {
    && s.list != [] && (nodeAdmin.Some? ==> Latest(s).nodeAdmin == nodeAdmin.value)
    && Unsettled(e, Latest(s))
  }

  function PendingOn(e: Escrow, s: Shelf): Pending
    requires s.list != [] && Unsettled(e, Latest(s))
  {
    var settled := ChannelOf(e, IdOf(Latest(s))).settledUnits;
    Pending(Latest(s), settled, Latest(s).cumulativeUnits - settled, |s.list|)
  }

  function PendingTickets(e: Escrow, book: seq<Shelf>, nodeAdmin: Option<Actor>): seq<Pending> {
    if book == [] then []
    else
      var n := |book| - 1;
      var rest := PendingTickets(e, book[..n], nodeAdmin);
      if Wanted(e, nodeAdmin, book[n]) then rest + [PendingOn(e, book[n])] else rest
  }

  method ListPending(e: Escrow, book: seq<Shelf>, nodeAdmin: Option<Actor>) returns (out: seq<Pending>)
    ensures out == PendingTickets(e, book, nodeAdmin)
  {
    out := [];
    for i := 0 to |book|
      invariant out == PendingTickets(e, book[..i], nodeAdmin)
    {
      assert book[..i + 1][..i] == book[..i];
      if Wanted(e, nodeAdmin, book[i]) {
        out := out + [PendingOn(e, book[i])];
      }
    }
    assert book[..|book|] == book;
  }

  function Tickets(pending: seq<Pending>): (ts: seq<Ticket>)
    ensures |ts| == |pending|
    ensures forall i :: 0 <= i < |pending| ==> ts[i] == pending[i].ticket
  {
    seq(|pending|, i requires 0 <= i < |pending| => pending[i].ticket)
  }

  datatype Quoted = Quoted(gross: int, fee: int, shape: seq<Shape>)

  function QuotedPay(e: Escrow, p: Pending): int { Min(p.deltaUnits * e.pricePerUnit, e.deposits.At(p.ticket.client)) }

  function QuoteAll(e: Escrow, feeBps: nat, pending: seq<Pending>): Quoted {
    if pending == [] then Quoted(0, 0, [])
    else
      var n := |pending| - 1;
      var q, paid := QuoteAll(e, feeBps, pending[..n]), QuotedPay(e, pending[n]);
      Quoted(q.gross + paid, q.fee + FeeOf(paid, feeBps), q.shape + [ShapeOf(e, pending[n].ticket)])
  }

  /** batchQuote: every ticket is priced against the same untouched world. */
  method BatchQuote(e: Escrow, feeBps: nat, treasuryWarm: bool, pending: seq<Pending>)
    returns (gross: int, fee: int, gas: int)
    ensures var q := QuoteAll(e, feeBps, pending);
            gross == q.gross && fee == q.fee && gas == if pending == [] then 0 else SettleGas(q.shape, treasuryWarm)
  {
    gross, fee := 0, 0;
    var shape := [];
    for i := 0 to |pending|
      invariant QuoteAll(e, feeBps, pending[..i]) == Quoted(gross, fee, shape)
    {
      assert pending[..i + 1][..i] == pending[..i];
      var owed := pending[i].deltaUnits * e.pricePerUnit;
      var paid := if owed <= e.deposits.At(pending[i].ticket.client) then owed else e.deposits.At(pending[i].ticket.client);
      gross := gross + paid;
      fee := fee + paid * feeBps / 10_000;
      shape := shape + [ShapeOf(e, pending[i].ticket)];
    }
    assert pending[..|pending|] == pending;
    gas := 0;
    if pending != [] {
      gas := ComputeSettleGas(shape, treasuryWarm);
    }
  }

  // ------------------------------------------------------------------ what pendingTickets returns

  ghost predicate DistinctChannels(ts: seq<Ticket>) {
    forall i, j :: 0 <= i < j < |ts| ==> IdOf(ts[i]) != IdOf(ts[j])
  }

  ghost predicate DistinctClients(ts: seq<Ticket>) {
    forall i, j :: 0 <= i < j < |ts| ==> ts[i].client != ts[j].client
  }

  ghost predicate Priced(e: Escrow, p: Pending) {
    Unsettled(e, p.ticket) && p.deltaUnits == p.ticket.cumulativeUnits - ChannelOf(e, IdOf(p.ticket)).settledUnits
  }

  ghost predicate OnShelf(book: seq<Shelf>, t: Ticket) {
    exists i :: 0 <= i < |book| && book[i].list != [] && t == Latest(book[i])
  }

  /** Pending tickets are unsettled latest tickets, one per channel. */
  lemma {:induction false} PendingOnePerChannel(e: Escrow, book: seq<Shelf>, nodeAdmin: Option<Actor>)
    requires Filed(book)
    ensures var p := PendingTickets(e, book, nodeAdmin);
            DistinctChannels(Tickets(p)) && forall i :: 0 <= i < |p| ==> Priced(e, p[i]) && OnShelf(book, p[i].ticket)
    decreases |book|
  {
    if book != [] {
      var n := |book| - 1;
      var front := book[..n];
      PendingOnePerChannel(e, front, nodeAdmin);
      var p, q := PendingTickets(e, front, nodeAdmin), PendingTickets(e, book, nodeAdmin);
      forall i | 0 <= i < |p|
        ensures OnShelf(book, p[i].ticket) && IdOf(p[i].ticket) != book[n].key
      {
        var k :| 0 <= k < |front| && front[k].list != [] && p[i].ticket == Latest(front[k]);
        assert book[k] == front[k] && ShelfOk(book[k]);
      }
      assert ShelfOk(book[n]);
      forall i | 0 <= i < |q|
        ensures Priced(e, q[i]) && OnShelf(book, q[i].ticket)
      {
        if i < |p| {
          assert q[i] == p[i];
        }
      }
      forall i, j | 0 <= i < j < |q|
        ensures IdOf(Tickets(q)[i]) != IdOf(Tickets(q)[j])
      {
        assert Tickets(p)[i] == Tickets(q)[i];
        if j < |p| {
          assert Tickets(p)[j] == Tickets(q)[j];
        }
      }
    }
  }

  /** Shelf s has t on top, for the node asked for, and ahead of its channel in number and in units. */
  ghost predicate Offers(e: Escrow, nodeAdmin: Option<Actor>, s: Shelf, p: Pending) {
    && s.list != [] && p.ticket == s.list[|s.list| - 1] && p.heldCount == |s.list|
    && (nodeAdmin == None || nodeAdmin == Some(p.ticket.nodeAdmin))
    && var ch := ChannelOf(e, Between(p.ticket.client, p.ticket.nodeAdmin));
       && p.ticket.sequenceNumber > ch.lastSequence && p.ticket.cumulativeUnits > ch.settledUnits
       && p.settledUnits == ch.settledUnits && p.deltaUnits == p.ticket.cumulativeUnits - ch.settledUnits
  }

  ghost predicate SomeShelfOffers(e: Escrow, book: seq<Shelf>, nodeAdmin: Option<Actor>, p: Pending) {
    exists k :: 0 <= k < |book| && Offers(e, nodeAdmin, book[k], p)
  }

  lemma OneMoreShelf(e: Escrow, book: seq<Shelf>, nodeAdmin: Option<Actor>, p: Pending, n: nat)
    requires book != [] && n == |book| - 1
    ensures SomeShelfOffers(e, book, nodeAdmin, p) <==> SomeShelfOffers(e, book[..n], nodeAdmin, p) || Offers(e, nodeAdmin, book[n], p)
  {
    assert forall k :: 0 <= k < n ==> book[..n][k] == book[k];
  }

  /** What is pending is exactly what the shelves offer: nothing is left out, and nothing else is listed. */
  lemma {:induction false} PendingIff(e: Escrow, book: seq<Shelf>, nodeAdmin: Option<Actor>, p: Pending)
    ensures p in PendingTickets(e, book, nodeAdmin) <==> SomeShelfOffers(e, book, nodeAdmin, p)
    decreases |book|
  {
    if book != [] {
      var n := |book| - 1;
      PendingIff(e, book[..n], nodeAdmin, p);
      OneMoreShelf(e, book, nodeAdmin, p, n);
    }
  }

  // ------------------------------------------------------------------ channels after a batch

  /** The newest ticket of a channel in a batch. */
  function Newest(ts: seq<Ticket>, id: ChannelId): Option<Ticket>
    decreases |ts|
  {
    if ts == [] then None
    else if IdOf(ts[|ts| - 1]) == id then Some(ts[|ts| - 1])
    else Newest(ts[..|ts| - 1], id)
  }

  /** A committed batch leaves every channel with the record of its newest ticket, or untouched if it had none. */
  lemma {:induction false} ChannelAfterBatch(e: Escrow, feeBps: nat, now: nat, ts: seq<Ticket>, id: ChannelId)
    requires Batch(e, feeBps, now, ts).Ok?
    ensures ChannelOf(Batch(e, feeBps, now, ts).value.escrow, id)
            == match Newest(ts, id)
               case None => ChannelOf(e, id)
               case Some(t) => Channel(t.sequenceNumber, t.cumulativeUnits)
    decreases |ts|
  {
    if ts != [] {
      ChannelAfterBatch(e, feeBps, now, ts[..|ts| - 1], id);
    }
  }

  lemma {:induction false} NewestAbsent(ts: seq<Ticket>, id: ChannelId)
    requires forall i :: 0 <= i < |ts| ==> IdOf(ts[i]) != id
    ensures Newest(ts, id) == None
    decreases |ts|
  {
    if ts != [] {
      NewestAbsent(ts[..|ts| - 1], id);
    }
  }

  lemma {:induction false} NewestOfDistinct(ts: seq<Ticket>, i: nat)
    requires DistinctChannels(ts) && i < |ts|
    ensures Newest(ts, IdOf(ts[i])) == Some(ts[i])
    decreases |ts|
  {
    if i < |ts| - 1 {
      NewestOfDistinct(ts[..|ts| - 1], i);
    }
  }

  // ------------------------------------------------------------------ the quote bounds the settlement

  ghost predicate Warmer(a: Shape, b: Shape) {
    (a.channelWarm ==> b.channelWarm) && (a.earningsWarm ==> b.earningsWarm)
  }

  ghost predicate Within(x: Tally, q: Quoted) {
    && x.gross <= q.gross && x.fee <= q.fee && |x.shape| == |q.shape|
    && forall i :: 0 <= i < |x.shape| ==> Warmer(q.shape[i], x.shape[i])
  }

  lemma FeeMonotone(a: int, b: int, feeBps: nat)
    requires 0 <= a <= b
    ensures 0 <= FeeOf(a, feeBps) <= FeeOf(b, feeBps)
  {
    assert 0 <= a * feeBps <= b * feeBps;
  }

  /** A pending ticket whose channel the batch has not touched yet pays at most what it was quoted. */
  lemma PaysAtMostQuoted(e: Escrow, x: Escrow, now: nat, p: Pending)
    requires Priced(e, p) && x.pricePerUnit == e.pricePerUnit && ChannelOf(x, IdOf(p.ticket)) == ChannelOf(e, IdOf(p.ticket))
    requires 0 <= x.deposits.At(p.ticket.client) <= e.deposits.At(p.ticket.client)
    ensures 0 <= Paid(x, p.ticket) <= QuotedPay(e, p)
    ensures x.deposits.At(p.ticket.client) == e.deposits.At(p.ticket.client) ==> Paid(x, p.ticket) == QuotedPay(e, p)
  {
    Product(p.deltaUnits, e.pricePerUnit);
  }

  lemma BookWithin(x: Tally, q: Quoted, e: Escrow, feeBps: nat, p: Pending, y: Tally)
    requires Within(x, q) && y == Book(x, feeBps, p.ticket)
    requires 0 <= Paid(x.escrow, p.ticket) <= QuotedPay(e, p)
    requires Warmer(ShapeOf(e, p.ticket), ShapeOf(x.escrow, p.ticket))
    ensures Within(y, Quoted(q.gross + QuotedPay(e, p), q.fee + FeeOf(QuotedPay(e, p), feeBps), q.shape + [ShapeOf(e, p.ticket)]))
  {
    FeeMonotone(Paid(x.escrow, p.ticket), QuotedPay(e, p), feeBps);
  }

  /** The facts about the tickets before the last one that the last one's payment depends on. */
  lemma BeforeLast(e: Escrow, feeBps: nat, now: nat, ts: seq<Ticket>)
    requires NonNegative(e.deposits) && feeBps <= 10_000 && ts != [] && DistinctChannels(ts)
    requires Batch(e, feeBps, now, ts[..|ts| - 1]).Ok?
    ensures var x, t := Batch(e, feeBps, now, ts[..|ts| - 1]).value.escrow, ts[|ts| - 1];
            && x.pricePerUnit == e.pricePerUnit && ChannelOf(x, IdOf(t)) == ChannelOf(e, IdOf(t))
            && 0 <= x.deposits.At(t.client) <= e.deposits.At(t.client)
            && Warmer(ShapeOf(e, t), ShapeOf(x, t))
  {
    var front, t := ts[..|ts| - 1], ts[|ts| - 1];
    NewestAbsent(front, IdOf(t));
    ChannelAfterBatch(e, feeBps, now, front, IdOf(t));
    BatchTakesDebtCappedByDeposit(e, feeBps, now, front);
    BatchConserves(e, feeBps, now, front);
    var x := Batch(e, feeBps, now, front).value;
    assert e.earnings.At(t.nodeAdmin) <= x.escrow.earnings.At(t.nodeAdmin);
  }

  /** Committed gross and fee never exceed the quote, and no storage slot is colder than quoted. */
  lemma {:induction false} SettlesWithinQuote(e: Escrow, feeBps: nat, now: nat, pending: seq<Pending>)
    requires NonNegative(e.deposits) && feeBps <= 10_000 && DistinctChannels(Tickets(pending))
    requires forall i :: 0 <= i < |pending| ==> Priced(e, pending[i])
    requires Batch(e, feeBps, now, Tickets(pending)).Ok?
    ensures Within(Batch(e, feeBps, now, Tickets(pending)).value, QuoteAll(e, feeBps, pending))
    decreases |pending|
  {
    if pending != [] {
      var n, ts := |pending| - 1, Tickets(pending);
      var front := pending[..n];
      assert Tickets(front) == ts[..n];
      SettlesWithinQuote(e, feeBps, now, front);
      BeforeLast(e, feeBps, now, ts);
      var x := Batch(e, feeBps, now, ts[..n]).value;
      PaysAtMostQuoted(e, x.escrow, now, pending[n]);
      BookWithin(x, QuoteAll(e, feeBps, front), e, feeBps, pending[n], Batch(e, feeBps, now, ts).value);
    }
  }

  /** A client whose tickets are not in the batch keeps its deposit. */
  lemma {:induction false} OthersUntouched(e: Escrow, feeBps: nat, now: nat, ts: seq<Ticket>, a: Actor)
    requires Batch(e, feeBps, now, ts).Ok? && forall i :: 0 <= i < |ts| ==> ts[i].client != a
    ensures Batch(e, feeBps, now, ts).value.escrow.deposits.At(a) == e.deposits.At(a)
    decreases |ts|
  {
    if ts != [] {
      OthersUntouched(e, feeBps, now, ts[..|ts| - 1], a);
    }
  }

  ghost predicate Exact(x: Tally, q: Quoted) { x.gross == q.gross && x.fee == q.fee }

  /** The last ticket pays what it was quoted when nothing before it touched its client. */
  lemma LastPaysQuoted(e: Escrow, feeBps: nat, now: nat, ts: seq<Ticket>, p: Pending)
    requires NonNegative(e.deposits) && feeBps <= 10_000 && ts != [] && DistinctClients(ts) && DistinctChannels(ts)
    requires Priced(e, p) && p.ticket == ts[|ts| - 1] && Batch(e, feeBps, now, ts[..|ts| - 1]).Ok?
    ensures Paid(Batch(e, feeBps, now, ts[..|ts| - 1]).value.escrow, p.ticket) == QuotedPay(e, p) >= 0
  {
    BeforeLast(e, feeBps, now, ts);
    OthersUntouched(e, feeBps, now, ts[..|ts| - 1], p.ticket.client);
    PaysAtMostQuoted(e, Batch(e, feeBps, now, ts[..|ts| - 1]).value.escrow, now, p);
  }

  /** With one ticket per client the quote is exact. */
  lemma {:induction false} DistinctClientsExact(e: Escrow, feeBps: nat, now: nat, pending: seq<Pending>)
    requires NonNegative(e.deposits) && feeBps <= 10_000 && DistinctClients(Tickets(pending))
    requires DistinctChannels(Tickets(pending))
    requires forall i :: 0 <= i < |pending| ==> Priced(e, pending[i])
    requires Batch(e, feeBps, now, Tickets(pending)).Ok?
    ensures Exact(Batch(e, feeBps, now, Tickets(pending)).value, QuoteAll(e, feeBps, pending))
    decreases |pending|
  {
    if pending != [] {
      var n, ts := |pending| - 1, Tickets(pending);
      assert Tickets(pending[..n]) == ts[..n];
      DistinctClientsExact(e, feeBps, now, pending[..n]);
      LastPaysQuoted(e, feeBps, now, ts, pending[n]);
    }
  }

  ghost predicate DistinctNodes(ts: seq<Ticket>) {
    forall i, j :: 0 <= i < j < |ts| ==> ts[i].nodeAdmin != ts[j].nodeAdmin
  }

  /** The slots the last ticket finds are those it was quoted with, if no ticket before it is for its node. */
  lemma LastSlotsQuoted(e: Escrow, feeBps: nat, now: nat, ts: seq<Ticket>)
    requires NonNegative(e.deposits) && feeBps <= 10_000 && ts != [] && DistinctNodes(ts)
    requires Batch(e, feeBps, now, ts[..|ts| - 1]).Ok?
    ensures ShapeOf(Batch(e, feeBps, now, ts[..|ts| - 1]).value.escrow, ts[|ts| - 1]) == ShapeOf(e, ts[|ts| - 1])
  {
    var front, t := ts[..|ts| - 1], ts[|ts| - 1];
    NewestAbsent(front, IdOf(t));
    ChannelAfterBatch(e, feeBps, now, front, IdOf(t));
    BatchEarns(e, feeBps, now, front, t.nodeAdmin);
    NobodyElseEarns(e, feeBps, now, front, t.nodeAdmin);
  }

  /** With one ticket per node the quoted slots, and so the quoted gas, are exact. */
  lemma {:induction false} DistinctNodesExact(e: Escrow, feeBps: nat, now: nat, pending: seq<Pending>)
    requires NonNegative(e.deposits) && feeBps <= 10_000 && DistinctNodes(Tickets(pending))
    requires Batch(e, feeBps, now, Tickets(pending)).Ok?
    ensures Batch(e, feeBps, now, Tickets(pending)).value.shape == QuoteAll(e, feeBps, pending).shape
    decreases |pending|
  {
    if pending != [] {
      var n, ts := |pending| - 1, Tickets(pending);
      assert Tickets(pending[..n]) == ts[..n];
      DistinctNodesExact(e, feeBps, now, pending[..n]);
      LastSlotsQuoted(e, feeBps, now, ts);
    }
  }

  lemma GasWithin(a: seq<Shape>, b: seq<Shape>, treasuryWarm: bool)
    requires |a| == |b| && forall i :: 0 <= i < |a| ==> Warmer(a[i], b[i])
    ensures SettleGas(b, treasuryWarm) <= SettleGas(a, treasuryWarm)
    decreases |a|
  {
    if a != [] {
      var n := |a| - 1;
      GasWithin(a[..n], b[..n], treasuryWarm);
    }
  }

  /** After its channel settled up to a ticket, that ticket is no longer unsettled; other nodes' shelves are not asked. */
  lemma {:induction false} NothingPendingAfter(e: Escrow, y: Escrow, book: seq<Shelf>, nodeAdmin: Option<Actor>)
    requires forall i :: 0 <= i < |book| && Wanted(e, nodeAdmin, book[i]) ==> !Unsettled(y, Latest(book[i]))
    requires forall i :: 0 <= i < |book| && book[i].list != [] && !Unsettled(e, Latest(book[i])) ==> !Unsettled(y, Latest(book[i]))
    ensures PendingTickets(y, book, nodeAdmin) == []
    decreases |book|
  {
    if book != [] {
      var n := |book| - 1;
      assert book[n].list != [] && Unsettled(y, Latest(book[n])) ==> Unsettled(e, Latest(book[n]));
      NothingPendingAfter(e, y, book[..n], nodeAdmin);
    }
  }

  lemma {:induction false} WantedIsListed(e: Escrow, book: seq<Shelf>, nodeAdmin: Option<Actor>, i: nat) returns (k: nat)
    requires i < |book| && Wanted(e, nodeAdmin, book[i])
    ensures k < |PendingTickets(e, book, nodeAdmin)|
    ensures PendingTickets(e, book, nodeAdmin)[k].ticket == Latest(book[i])
    decreases |book|
  {
    var n := |book| - 1;
    if i == n {
      k := |PendingTickets(e, book[..n], nodeAdmin)|;
    } else {
      k := WantedIsListed(e, book[..n], nodeAdmin, i);
    }
  }

  lemma {:induction false} NewestIsListed(ts: seq<Ticket>, id: ChannelId) returns (k: nat)
    requires Newest(ts, id).Some?
    ensures k < |ts| && Newest(ts, id) == Some(ts[k]) && IdOf(ts[k]) == id
    decreases |ts|
  {
    k := |ts| - 1;
    if IdOf(ts[k]) != id {
      k := NewestIsListed(ts[..k], id);
    }
  }

  /** A batch of unsettled tickets only moves channel records forward. */
  lemma SettledStaysSettled(e: Escrow, feeBps: nat, now: nat, ts: seq<Ticket>, t: Ticket)
    requires Batch(e, feeBps, now, ts).Ok? && !Unsettled(e, t)
    requires forall i :: 0 <= i < |ts| ==> Unsettled(e, ts[i])
    ensures !Unsettled(Batch(e, feeBps, now, ts).value.escrow, t)
  {
    ChannelAfterBatch(e, feeBps, now, ts, IdOf(t));
    if Newest(ts, IdOf(t)).Some? {
      var k := NewestIsListed(ts, IdOf(t));
      assert Unsettled(e, ts[k]);
    }
  }

  lemma SettledNow(e: Escrow, feeBps: nat, now: nat, ts: seq<Ticket>, k: nat)
    requires Batch(e, feeBps, now, ts).Ok? && DistinctChannels(ts) && k < |ts|
    ensures !Unsettled(Batch(e, feeBps, now, ts).value.escrow, ts[k])
  {
    ChannelAfterBatch(e, feeBps, now, ts, IdOf(ts[k]));
    NewestOfDistinct(ts, k);
  }

  lemma NothingLeft(e: Escrow, feeBps: nat, now: nat, book: seq<Shelf>, nodeAdmin: Option<Actor>)
    requires Filed(book) && Batch(e, feeBps, now, Tickets(PendingTickets(e, book, nodeAdmin))).Ok?
    ensures PendingTickets(Batch(e, feeBps, now, Tickets(PendingTickets(e, book, nodeAdmin))).value.escrow, book, nodeAdmin) == []
  {
    var p := PendingTickets(e, book, nodeAdmin);
    var ts := Tickets(p);
    var y := Batch(e, feeBps, now, ts).value.escrow;
    PendingOnePerChannel(e, book, nodeAdmin);
    forall i | 0 <= i < |book| && Wanted(e, nodeAdmin, book[i])
      ensures !Unsettled(y, Latest(book[i]))
    {
      var k := WantedIsListed(e, book, nodeAdmin, i);
      SettledNow(e, feeBps, now, ts, k);
    }
    forall i | 0 <= i < |book| && book[i].list != [] && !Unsettled(e, Latest(book[i]))
      ensures !Unsettled(y, Latest(book[i]))
    {
      forall j | 0 <= j < |ts|
        ensures Unsettled(e, ts[j])
      {
        assert Priced(e, p[j]);
      }
      SettledStaysSettled(e, feeBps, now, ts, Latest(book[i]));
    }
    NothingPendingAfter(e, y, book, nodeAdmin);
  }

  /** What a relayer may rely on once it has seen a quote for everything pending. */
  ghost predicate QuoteHolds(y: Tally, q: Quoted, treasuryWarm: bool) {
    y.gross <= q.gross && y.fee <= q.fee && SettleGas(y.shape, treasuryWarm) <= SettleGas(q.shape, treasuryWarm)
  }

  /**
   Settling exactly the pending tickets never moves more, charges more fee or burns more gas than quoted; with one
   ticket per client the amounts are exact, with one per node the gas is; afterwards nothing is pending.
   */
  lemma QuoteBoundsSettlement(e: Escrow, feeBps: nat, now: nat, book: seq<Shelf>, nodeAdmin: Option<Actor>, treasuryWarm: bool)
    requires NonNegative(e.deposits) && feeBps <= 10_000 && Filed(book)
    requires Batch(e, feeBps, now, Tickets(PendingTickets(e, book, nodeAdmin))).Ok?
    ensures var pending := PendingTickets(e, book, nodeAdmin);
            var y, q := Batch(e, feeBps, now, Tickets(pending)).value, QuoteAll(e, feeBps, pending);
            && QuoteHolds(y, q, treasuryWarm)
            && (DistinctClients(Tickets(pending)) ==> y.gross == q.gross && y.fee == q.fee)
            && (DistinctNodes(Tickets(pending)) ==> SettleGas(y.shape, treasuryWarm) == SettleGas(q.shape, treasuryWarm))
            && PendingTickets(y.escrow, book, nodeAdmin) == []
  {
    var pending := PendingTickets(e, book, nodeAdmin);
    PendingOnePerChannel(e, book, nodeAdmin);
    SettlesWithinQuote(e, feeBps, now, pending);
    if DistinctClients(Tickets(pending)) {
      DistinctClientsExact(e, feeBps, now, pending);
    }
    if DistinctNodes(Tickets(pending)) {
      DistinctNodesExact(e, feeBps, now, pending);
    }
    GasWithin(QuoteAll(e, feeBps, pending).shape, Batch(e, feeBps, now, Tickets(pending)).value.shape, treasuryWarm);
    NothingLeft(e, feeBps, now, book, nodeAdmin);
  }
}
