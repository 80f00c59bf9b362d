/** When each call commits: its conditions on the world, and nothing else. */
module Commits {
  import opened Options
  import opened EngineTypes
  import opened Settlement
  import opened SettlementTheorems
  import opened Quote
  import opened EngineRules
  import opened EngineMoney
  import opened EngineRuns
  import opened Movements

  // ------------------------------------------------------------------ batches

  /** Where channel id stands after the tickets ts: at the newest of them on it, or where the escrow has it. */
  function Standing(e: Escrow, ts: seq<Ticket>, id: ChannelId): Channel {
    match Newest(ts, id)
    case None => ChannelOf(e, id)
    case Some(t) => Channel(t.sequenceNumber, t.cumulativeUnits)
  }

  /** Ticket i of a batch: signed by its client, not expired, and ahead of its channel as the tickets before it leave that. */
  predicate Ahead(e: Escrow, now: nat, ts: seq<Ticket>, i: nat)
    requires i < |ts|
  {
    var t := ts[i];
    var ch := Standing(e, ts[..i], IdOf(t));
    && now <= t.epochExpiry && t.sequenceNumber > ch.lastSequence && t.cumulativeUnits > ch.settledUnits
    && t.signature == SignedBy(t.client, TicketDigestOf(t))
  }

  ghost predicate AllAhead(e: Escrow, now: nat, ts: seq<Ticket>) { forall i :: 0 <= i < |ts| ==> Ahead(e, now, ts, i) }

  lemma LastAhead(e: Escrow, feeBps: nat, now: nat, ts: seq<Ticket>)
    requires ts != [] && Batch(e, feeBps, now, ts[..|ts| - 1]).Ok?
    ensures Batch(e, feeBps, now, ts).Ok? <==> Ahead(e, now, ts, |ts| - 1)
  {
    ChannelAfterBatch(e, feeBps, now, ts[..|ts| - 1], IdOf(ts[|ts| - 1]));
  }

  lemma FrontAhead(e: Escrow, now: nat, ts: seq<Ticket>, n: nat)
    requires ts != [] && n == |ts| - 1
    ensures AllAhead(e, now, ts) <==> AllAhead(e, now, ts[..n]) && Ahead(e, now, ts, n)
  {
    forall i | 0 <= i < n
      ensures Ahead(e, now, ts[..n], i) <==> Ahead(e, now, ts, i)
    {
      assert ts[..n][..i] == ts[..i];
    }
  }

  /** A batch goes through, apart from its amount, if and only if every ticket is ahead when it comes up. */
  lemma {:induction false} BatchGoesThroughIff(e: Escrow, feeBps: nat, now: nat, ts: seq<Ticket>)
    ensures Batch(e, feeBps, now, ts).Ok? <==> AllAhead(e, now, ts)
    decreases |ts|
  {
    if ts != [] {
      var n := |ts| - 1;
      BatchGoesThroughIff(e, feeBps, now, ts[..n]);
      FrontAhead(e, now, ts, n);
      if Batch(e, feeBps, now, ts[..n]).Ok? {
        LastAhead(e, feeBps, now, ts);
      }
    }
  }

  ghost predicate SomeoneCanPay(e: Escrow, ts: seq<Ticket>) {
    e.pricePerUnit > 0 && exists i :: 0 <= i < |ts| && e.deposits.At(ts[i].client) > 0
  }

  lemma LastCanPay(e: Escrow, ts: seq<Ticket>, n: nat)
    requires ts != [] && n == |ts| - 1
    ensures SomeoneCanPay(e, ts) <==> SomeoneCanPay(e, ts[..n]) || (e.pricePerUnit > 0 && e.deposits.At(ts[n].client) > 0)
  {
    assert forall i :: 0 <= i < n ==> ts[..n][i] == ts[i];
  }

  /** What one ticket takes is something if and only if its client has something and units cost something. */
  lemma PaidPositiveIff(e: Escrow, now: nat, t: Ticket)
    requires Admissible(e, now, t).Pass? && e.deposits.At(t.client) >= 0
    ensures Paid(e, t) >= 0
    ensures Paid(e, t) > 0 <==> e.pricePerUnit > 0 && e.deposits.At(t.client) > 0
  {
    var units := t.cumulativeUnits - ChannelOf(e, Between(t.client, t.nodeAdmin)).settledUnits;
    Product(units, e.pricePerUnit);
    if e.pricePerUnit > 0 {
      assert units * e.pricePerUnit >= 1 * e.pricePerUnit;
    }
  }

  /** A batch moves something if and only if one of its clients has a deposit and units cost something. */
  lemma {:induction false} GrossPositiveIff(e: Escrow, feeBps: nat, now: nat, ts: seq<Ticket>)
    requires NonNegative(e.deposits) && feeBps <= 10_000 && Batch(e, feeBps, now, ts).Ok?
    ensures Batch(e, feeBps, now, ts).value.gross >= 0
    ensures Batch(e, feeBps, now, ts).value.gross > 0 <==> SomeoneCanPay(e, ts)
    decreases |ts|
  {
    if ts != [] {
      var n, a := |ts| - 1, ts[|ts| - 1].client;
      var x := Batch(e, feeBps, now, ts[..n]).value;
      GrossPositiveIff(e, feeBps, now, ts[..n]);
      LastCanPay(e, ts, n);
      BatchTakesDebtCappedByDeposit(e, feeBps, now, ts[..n]);
      BatchConserves(e, feeBps, now, ts[..n]);
      PaidPositiveIff(x.escrow, now, ts[n]);
      if x.escrow.deposits.At(a) != e.deposits.At(a) {
        if forall i :: 0 <= i < n ==> ts[..n][i].client != a {
          OthersUntouched(e, feeBps, now, ts[..n], a);
        }
      }
    }
  }

  // ------------------------------------------------------------------ calls on the token

  predicate TokenAllows(x: State, from: Actor, c: Call)
    requires PartOf(c) == OnToken
  {
    match c
    case SetBridge(_, _, _) => x.token.owner == Some(from)
    case BridgeMint(_, amount) =>
      var b := BridgeOf(x.token, from);
      b.allowed && (if x.t < b.windowStart + DAY then b.minted + amount else amount) <= b.cap
    case BridgeBurn(amount) => BridgeOf(x.token, from).allowed && amount <= x.token.bal.At(Wallet(from))
    case Transfer(_, amount) => amount <= x.token.bal.At(Wallet(from))
    case TransferFrom(owner, _, amount) => amount <= Allowance(x.token, owner, Wallet(from)) && amount <= x.token.bal.At(owner)
    case UsePermit(permit) => PermitGood(x, permit)
    case Claim => x.token.bal.At(TreasuryContract) > 0 && x.treasury.beneficiary.Some?
    case _ => true
  }

  lemma TokenCommitsIff(x: State, from: Actor, c: Call)
    requires PartOf(c) == OnToken
    ensures ApplyToken(x.token, x.treasury, x.t, from, c).Ok? <==> TokenAllows(x, from, c)
  {
    if c.UsePermit? {
      PermitGoodIff(x, c.permit);
    }
  }

  // ------------------------------------------------------------------ calls on the escrow's funds

  predicate Authorised(x: State, a: Auth, d: Digest) { x.t <= a.deadline && a.signature == SignedBy(a.from, d) }

  /** What the escrow may take from the client once the permit, if good, is in force. */
  function PermittedAllowance(x: State, client: Actor, p: Permit): nat {
    if PermitGood(x, p) && p.owner == client && p.spender == EscrowContract then p.value
    else Allowance(x.token, Wallet(client), EscrowContract)
  }

  ghost predicate FundsAllow(x: State, from: Actor, c: Call)
    requires PartOf(c) == OnFunds
  {
    match c
    case Deposit(amount) =>
      0 < amount <= Allowance(x.token, Wallet(from), EscrowContract) && amount <= x.token.bal.At(Wallet(from))
    case DepositWithPermit(client, amount, permit) =>
      0 < amount <= PermittedAllowance(x, client, permit) && amount <= x.token.bal.At(Wallet(client))
    case WithdrawDeposit(amount) => 0 < amount <= x.escrow.deposits.At(from)
    case WithdrawWithSig(a, dest) =>
      && 0 < a.amount <= x.escrow.deposits.At(a.from) && dest.Some?
      && Authorised(x, a, WithdrawDigest(a.from, dest.value, a.amount, x.escrow.authNonces.At(a.from), a.deadline))
    case TransferDeposit(a, to) =>
      && 0 < a.amount <= x.escrow.deposits.At(a.from) && to.Some?
      && Authorised(x, a, TransferDigest(a.from, to.value, a.amount, x.escrow.authNonces.At(a.from), a.deadline))
    case SettleTicketBatch(ts) => AllAhead(x.escrow, x.t, ts) && SomeoneCanPay(x.escrow, ts)
    case ClaimEarnings(_, amount) => 0 < amount <= x.escrow.earnings.At(from)
    case SetPricePerUnit(price) =>
      x.escrow.owner == Some(from) && MIN_PRICE <= price <= MAX_PRICE && x.escrow.lastPriceChange + DAY <= x.t
  }

  lemma DepositsCommitIff(x: State, from: Actor, c: Call)
    requires c.Deposit? || c.DepositWithPermit?
    ensures ApplyFunds(FundsOf(x), x.treasury.feeBps, x.t, from, c).Ok? <==> FundsAllow(x, from, c)
  {
    if c.DepositWithPermit? {
      PermitGoodIff(x, c.permit);
    }
  }

  lemma SignedCommitIff(x: State, from: Actor, c: Call)
    requires c.WithdrawWithSig? || c.TransferDeposit?
    ensures ApplyFunds(FundsOf(x), x.treasury.feeBps, x.t, from, c).Ok? <==> FundsAllow(x, from, c)
  {}

  lemma OtherFundsCommitIff(x: State, from: Actor, c: Call)
    requires c.WithdrawDeposit? || c.ClaimEarnings? || c.SetPricePerUnit?
    ensures ApplyFunds(FundsOf(x), x.treasury.feeBps, x.t, from, c).Ok? <==> FundsAllow(x, from, c)
  {}

  /** A settlement commits if and only if every ticket is ahead and somebody can pay. */
  lemma SettlementCommitsIff(x: State, from: Actor, c: Call)
    requires Sound(x) && c.SettleTicketBatch?
    ensures ApplyFunds(FundsOf(x), x.treasury.feeBps, x.t, from, c).Ok? <==> FundsAllow(x, from, c)
  {
    BatchGoesThroughIff(x.escrow, x.treasury.feeBps, x.t, c.tickets);
    if Batch(x.escrow, x.treasury.feeBps, x.t, c.tickets).Ok? {
      GrossPositiveIff(x.escrow, x.treasury.feeBps, x.t, c.tickets);
    }
  }

  lemma FundsCommitIff(x: State, from: Actor, c: Call)
    requires Sound(x) && PartOf(c) == OnFunds
    ensures ApplyFunds(FundsOf(x), x.treasury.feeBps, x.t, from, c).Ok? <==> FundsAllow(x, from, c)
  {
    if c.Deposit? || c.DepositWithPermit? {
      DepositsCommitIff(x, from, c);
    } else if c.WithdrawWithSig? || c.TransferDeposit? {
      SignedCommitIff(x, from, c);
    } else if c.SettleTicketBatch? {
      SettlementCommitsIff(x, from, c);
    } else {
      OtherFundsCommitIff(x, from, c);
    }
  }

  // ------------------------------------------------------------------ all other calls

  predicate OthersAllow(x: State, p: Params, from: Actor, c: Call)
    requires PartOf(c) != OnToken && PartOf(c) != OnFunds
  {
    match c
    case SetFeeBps(feeBps) => x.treasury.owner == Some(from) && feeBps <= MAX_FEE_BPS
    case QueueBeneficiary(_) => x.treasury.owner == Some(from)
    case ActivateBeneficiary => x.treasury.pending.Some? && x.treasury.activation <= x.t
    case CancelBeneficiaryChange =>
      (x.treasury.owner == Some(from) || x.treasury.beneficiary == Some(Wallet(from))) && x.treasury.pending.Some?
    case CreateEscrow => MIN_PRICE <= p.pricePerUnit <= MAX_PRICE
    case TransferOwnership(contract, _) => OwnerOf(x, contract) == Some(from)
    case AcceptOwnership(contract) => PendingOwnerOf(x, contract) == Some(from)
    case FundGas(_, gwei) => gwei as real <= x.eth.At(Kiosk)
    case SignTicket(_, _, _) => from !in x.lost
    case StkPush(amount, fail) => !fail && amount <= x.mpesa.At(from)
    case B2cPayout(_, amount, fail) => !fail && amount <= x.float
    case _ => true
  }

  lemma OthersCommitIff(x: State, p: Params, from: Actor, c: Call)
    requires PartOf(c) != OnToken && PartOf(c) != OnFunds
    ensures Apply(x, p, from, c).Ok? <==> OthersAllow(x, p, from, c)
  {}

  /** What the world must be like for a call's body to go through. */
  ghost predicate Allowed(x: State, p: Params, from: Actor, c: Call) {
    if PartOf(c) == OnToken then TokenAllows(x, from, c)
    else if PartOf(c) == OnFunds then FundsAllow(x, from, c)
    else OthersAllow(x, p, from, c)
  }

  /** Every call's body goes through if and only if the world allows it. */
  lemma GoesThroughIff(x: State, p: Params, from: Actor, c: Call)
    requires Sound(x)
    ensures Apply(x, p, from, c).Ok? <==> Allowed(x, p, from, c)
  {
    if PartOf(c) == OnToken {
      TokenCommitsIff(x, from, c);
    } else if PartOf(c) == OnFunds {
      FundsCommitIff(x, from, c);
    } else {
      OthersCommitIff(x, p, from, c);
    }
  }

  /** A request commits if and only if the world two seconds on allows it and its caller can then pay the gas. */
  lemma CommitsIff(w: World, r: Request)
    requires Sound(w.state)
    ensures StatusOf(w, r) == Committed <==>
            Allowed(Ticked(w.state, r.call), w.params, r.from, r.call) && (OnChain(r.call) ==> Out(w, r).eth.At(r.from) >= CostOf(w, r))
  {
    GoesThroughIff(Ticked(w.state, r.call), w.params, r.from, r.call);
  }
}
