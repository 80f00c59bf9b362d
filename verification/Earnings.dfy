/** Who earns what from a batch: every ticket's payment, less its fee, goes to the node the ticket names. */
module Earnings {
  import opened EngineTypes
  import opened Settlement
  import opened SettlementTheorems

  /** A batch that commits has committed prefixes. */
  lemma FrontCommits(e: Escrow, feeBps: nat, now: nat, ts: seq<Ticket>)
    requires Batch(e, feeBps, now, ts).Ok? && ts != []
    ensures Batch(e, feeBps, now, ts[..|ts| - 1]).Ok?
  {}

  /** What the last ticket of a batch took from its client's deposit. */
  function TookLast(e: Escrow, feeBps: nat, now: nat, ts: seq<Ticket>): int
    requires Batch(e, feeBps, now, ts).Ok? && ts != []
  {
    FrontCommits(e, feeBps, now, ts);
    var client := ts[|ts| - 1].client;
    Batch(e, feeBps, now, ts[..|ts| - 1]).value.escrow.deposits.At(client) - Batch(e, feeBps, now, ts).value.escrow.deposits.At(client)
  }

  /** What the tickets naming node a took from their clients, and the fees on it, ticket by ticket. */
  function TakenFor(e: Escrow, feeBps: nat, now: nat, ts: seq<Ticket>, a: Actor): int
    requires Batch(e, feeBps, now, ts).Ok?
    decreases |ts|
  {
    if ts == [] then 0
    else
      FrontCommits(e, feeBps, now, ts);
      TakenFor(e, feeBps, now, ts[..|ts| - 1], a)
      + if ts[|ts| - 1].nodeAdmin == a then TookLast(e, feeBps, now, ts) else 0
  }

  function FeesFor(e: Escrow, feeBps: nat, now: nat, ts: seq<Ticket>, a: Actor): int
    requires Batch(e, feeBps, now, ts).Ok?
    decreases |ts|
  {
    if ts == [] then 0
    else
      FrontCommits(e, feeBps, now, ts);
      FeesFor(e, feeBps, now, ts[..|ts| - 1], a)
      + if ts[|ts| - 1].nodeAdmin == a then FeeOf(TookLast(e, feeBps, now, ts), feeBps) else 0
  }

  /** One ticket: what its client lost, its node gained but for the fee, and nobody else's earnings moved. */
  lemma BookEarns(x: Tally, feeBps: nat, now: nat, t: Ticket, a: Actor)
    requires x.escrow.deposits.At(t.client) >= 0 && Admissible(x.escrow, now, t).Pass?
    ensures var y := Book(x, feeBps, t);
            var took := x.escrow.deposits.At(t.client) - y.escrow.deposits.At(t.client);
            && took >= 0 && y.gross == x.gross + took && y.fee == x.fee + FeeOf(took, feeBps)
            && y.escrow.earnings.At(a) == x.escrow.earnings.At(a) + if t.nodeAdmin == a then took - FeeOf(took, feeBps) else 0
  {
    PaidNonNegative(x.escrow, now, t);
    BookMoves(x, feeBps, t, t.client);
    PlusAt(x.escrow.earnings, t.nodeAdmin, Paid(x.escrow, t) - Fee(Paid(x.escrow, t), feeBps), a);
  }

  /**
   After a committed batch every actor's earnings have grown by exactly what the tickets naming it as node took from their
   clients, less the fees on those payments.
   */
  lemma {:induction false} BatchEarns(e: Escrow, feeBps: nat, now: nat, ts: seq<Ticket>, a: Actor)
    requires NonNegative(e.deposits) && feeBps <= 10_000 && Batch(e, feeBps, now, ts).Ok?
    ensures Batch(e, feeBps, now, ts).value.escrow.earnings.At(a)
            == e.earnings.At(a) + TakenFor(e, feeBps, now, ts, a) - FeesFor(e, feeBps, now, ts, a)
    decreases |ts|
  {
    if ts != [] {
      var front := ts[..|ts| - 1];
      BatchEarns(e, feeBps, now, front, a);
      BatchConserves(e, feeBps, now, front);
      BookEarns(Batch(e, feeBps, now, front).value, feeBps, now, ts[|ts| - 1], a);
    }
  }

  /** An actor that no ticket names as node keeps its earnings. */
  lemma {:induction false} NobodyElseEarns(e: Escrow, feeBps: nat, now: nat, ts: seq<Ticket>, a: Actor)
    requires Batch(e, feeBps, now, ts).Ok? && forall i :: 0 <= i < |ts| ==> ts[i].nodeAdmin != a
    ensures TakenFor(e, feeBps, now, ts, a) == 0 == FeesFor(e, feeBps, now, ts, a)
    decreases |ts|
  {
    if ts != [] {
      NobodyElseEarns(e, feeBps, now, ts[..|ts| - 1], a);
    }
  }

  /** If all tickets name one node, they took the gross, and their fees are the batch's fee. */
  lemma {:induction false} OneNodeEarnsAll(e: Escrow, feeBps: nat, now: nat, ts: seq<Ticket>, a: Actor)
    requires NonNegative(e.deposits) && feeBps <= 10_000 && Batch(e, feeBps, now, ts).Ok?
    requires forall i :: 0 <= i < |ts| ==> ts[i].nodeAdmin == a
    ensures var y := Batch(e, feeBps, now, ts).value;
            TakenFor(e, feeBps, now, ts, a) == y.gross && FeesFor(e, feeBps, now, ts, a) == y.fee
    decreases |ts|
  {
    if ts != [] {
      var front := ts[..|ts| - 1];
      OneNodeEarnsAll(e, feeBps, now, front, a);
      BatchConserves(e, feeBps, now, front);
      BookEarns(Batch(e, feeBps, now, front).value, feeBps, now, ts[|ts| - 1], a);
    }
  }

  /** Earnings of a batch, for a node of its own and for an actor it does not name. */
  lemma EarningsOfBatch(e: Escrow, feeBps: nat, now: nat, ts: seq<Ticket>, a: Actor)
    requires NonNegative(e.deposits) && feeBps <= 10_000 && Batch(e, feeBps, now, ts).Ok?
    ensures var y := Batch(e, feeBps, now, ts).value;
            && ((forall i :: 0 <= i < |ts| ==> ts[i].nodeAdmin != a) ==> y.escrow.earnings.At(a) == e.earnings.At(a))
            && ((forall i :: 0 <= i < |ts| ==> ts[i].nodeAdmin == a) ==>
                  y.escrow.earnings.At(a) == e.earnings.At(a) + y.gross - y.fee)
  {
    BatchEarns(e, feeBps, now, ts, a);
    if forall i :: 0 <= i < |ts| ==> ts[i].nodeAdmin != a {
      NobodyElseEarns(e, feeBps, now, ts, a);
    }
    if forall i :: 0 <= i < |ts| ==> ts[i].nodeAdmin == a {
      OneNodeEarnsAll(e, feeBps, now, ts, a);
    }
  }

  /** The rate: 10,000 basis points take all of a payment, and a fee is rounded down to a whole base unit. */
  lemma FeeIsRateRoundedDown(paid: nat, feeBps: nat)
    ensures FeeOf(paid, feeBps) * 10_000 <= paid * feeBps < (FeeOf(paid, feeBps) + 1) * 10_000
    ensures FeeOf(paid, 10_000) == paid && FeeOf(paid, 0) == 0
  {}
}
