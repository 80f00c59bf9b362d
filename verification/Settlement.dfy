/** settleTicketBatch: the per-ticket rule, the batch, and what a batch amounts to whatever path it took. */
module Settlement {
  import opened Options
  import opened Sums
  import opened EngineTypes

  const FRESH_SLOT_DELTA := 17_100

  datatype Shape = Shape(channelWarm: bool, earningsWarm: bool)

  function TicketGas(s: Shape): nat {
    59_924 - (if s.channelWarm then FRESH_SLOT_DELTA else 0) - (if s.earningsWarm then FRESH_SLOT_DELTA else 0)
  }

  function SettleGas(shape: seq<Shape>, treasuryWarm: bool): nat {
    71_467 - (if treasuryWarm then FRESH_SLOT_DELTA else 0) + Sum(shape, TicketGas)
  }

  /** The loop of gas.js. */
  method ComputeSettleGas(shape: seq<Shape>, treasuryWarm: bool) returns (gas: int)
    ensures gas == SettleGas(shape, treasuryWarm)
  {
    gas := 71_467 - if treasuryWarm then FRESH_SLOT_DELTA else 0;
    for i := 0 to |shape|
      invariant gas == SettleGas(shape[..i], treasuryWarm)
    {
      gas := gas + 59_924;
      if shape[i].channelWarm { gas := gas - FRESH_SLOT_DELTA; }
      if shape[i].earningsWarm { gas := gas - FRESH_SLOT_DELTA; }
      assert shape[..i + 1] == shape[..i] + [shape[i]];
      SumAppend(shape[..i], shape[i], TicketGas);
    }
    assert shape[..|shape|] == shape;
  }

  function WarmSlots(s: Shape): nat { (if s.channelWarm then 1 else 0) + if s.earningsWarm then 1 else 0 }

  /** The fitted gas: a batch overhead, a price per ticket, and the same saving for every slot that is already non-zero. */
  lemma {:induction false} GasPerSlot(shape: seq<Shape>, treasuryWarm: bool)
    ensures SettleGas(shape, treasuryWarm) + 17_100 * (Sum(shape, WarmSlots) + if treasuryWarm then 1 else 0)
            == 71_467 + 59_924 * |shape|
    decreases |shape|
  {
    if shape != [] {
      GasPerSlot(shape[..|shape| - 1], treasuryWarm);
    }
  }

  function TicketDigestOf(t: Ticket): Digest {
    TicketDigest(t.client, t.nodeAdmin, t.sequenceNumber, t.cumulativeUnits, t.epochExpiry)
  }

  function FeeOf(paid: int, feeBps: nat): int { paid * feeBps / 10_000 }

  /** The variables of the settle loop. */
  datatype Tally = Tally(escrow: Escrow, gross: int, fee: int, shape: seq<Shape>)

  function Admissible(e: Escrow, now: nat, t: Ticket): Outcome {
    var ch := ChannelOf(e, Between(t.client, t.nodeAdmin));
    if !(t.epochExpiry >= now) then Fail(ExpiredTicket)
    else if !(t.sequenceNumber > ch.lastSequence) then Fail(StaleSequence)
    else if !(t.cumulativeUnits > ch.settledUnits) then Fail(NoNewUnits)
    else Need(Recover(TicketDigestOf(t), t.signature) == Some(t.client), BadSignature)
  }

  /** What one ticket takes from its client right now. */
  function Paid(e: Escrow, t: Ticket): int {
    Min((t.cumulativeUnits - ChannelOf(e, Between(t.client, t.nodeAdmin)).settledUnits) * e.pricePerUnit, e.deposits.At(t.client))
  }

  function Noted(channels: map<ChannelId, Channel>, t: Ticket): map<ChannelId, Channel> {
    channels[Between(t.client, t.nodeAdmin) := Channel(t.sequenceNumber, t.cumulativeUnits)]
  }

  /** The record and the purses after a ticket that pays `paid`, `fee` of it to the treasury. */
  function Enter(e: Escrow, t: Ticket, paid: int, fee: int): Escrow {
    e.(channels := Noted(e.channels, t),
       deposits := if paid > 0 then e.deposits.Minus(t.client, paid) else e.deposits,
       earnings := if paid > 0 then e.earnings.Plus(t.nodeAdmin, paid - fee) else e.earnings)
  }

  function ShapeOf(e: Escrow, t: Ticket): Shape {
    Shape(ChannelOf(e, Between(t.client, t.nodeAdmin)).lastSequence > 0, e.earnings.At(t.nodeAdmin) > 0)
  }

  function Fee(paid: int, feeBps: nat): int { if paid > 0 then FeeOf(paid, feeBps) else 0 }

  /** The loop body once the ticket passed its checks. */
  function Book(x: Tally, feeBps: nat, t: Ticket): Tally {
    var paid := Paid(x.escrow, t);
    var fee := Fee(paid, feeBps);
    Tally(Enter(x.escrow, t, paid, fee), x.gross + paid, x.fee + fee, x.shape + [ShapeOf(x.escrow, t)])
  }

  function SettleTicket(x: Tally, feeBps: nat, now: nat, t: Ticket): Result<Tally> {
    var ok := Admissible(x.escrow, now, t);
    if ok.Fail? then Err(ok.error) else Ok(Book(x, feeBps, t))
  }

  function SettleAll(x: Tally, feeBps: nat, now: nat, ts: seq<Ticket>): Result<Tally>
    decreases |ts|
  {
    if ts == [] then Ok(x)
    else
      var n := |ts| - 1;
      var y := SettleAll(x, feeBps, now, ts[..n]);
      if y.Err? then y else SettleTicket(y.value, feeBps, now, ts[n])
  }

  function Start(e: Escrow): Tally { Tally(e, 0, 0, []) }

  function Batch(e: Escrow, feeBps: nat, now: nat, ts: seq<Ticket>): Result<Tally> { SettleAll(Start(e), feeBps, now, ts) }

  /** A failing prefix fails the batch with the same error. */
  lemma {:induction false} BatchPrefix(e: Escrow, feeBps: nat, now: nat, ts: seq<Ticket>, k: nat)
    requires k <= |ts|
    ensures Batch(e, feeBps, now, ts[..k]).Err? ==> Batch(e, feeBps, now, ts) == Batch(e, feeBps, now, ts[..k])
    decreases |ts|
  {
    if k < |ts| {
      var front := ts[..|ts| - 1];
      BatchPrefix(e, feeBps, now, front, k);
      assert front[..k] == ts[..k];
    } else {
      assert ts[..k] == ts;
    }
  }
}
