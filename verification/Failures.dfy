/** What an error says: every failing call's error names something that is wrong with exactly that call. */
module Failures {
  import opened Options
  import opened EngineTypes
  import opened Settlement
  import opened Quote
  import opened EngineRules
  import opened EngineMoney
  import opened Movements
  import opened Commits

  // ------------------------------------------------------------------ batches

  /** What is wrong with ticket i of a batch, checked in this order. */
  predicate TicketWrong(e: Escrow, now: nat, ts: seq<Ticket>, i: nat, err: Error)
    requires i < |ts|
  {
    var t := ts[i];
    var ch := Standing(e, ts[..i], IdOf(t));
    if now > t.epochExpiry then err == ExpiredTicket
    else if t.sequenceNumber <= ch.lastSequence then err == StaleSequence
    else if t.cumulativeUnits <= ch.settledUnits then err == NoNewUnits
    else t.signature != SignedBy(t.client, TicketDigestOf(t)) && err == BadSignature
  }

  /** Ticket i is the first that is not ahead. */
  ghost predicate FirstBehind(e: Escrow, now: nat, ts: seq<Ticket>, i: nat) {
    i < |ts| && AllAhead(e, now, ts[..i]) && !Ahead(e, now, ts, i)
  }

  /** A batch that does not go through fails with what is wrong with its first ticket that is not ahead. */
  lemma {:induction false} BatchBlamesFirst(e: Escrow, feeBps: nat, now: nat, ts: seq<Ticket>) returns (i: nat)
    requires Batch(e, feeBps, now, ts).Err?
    ensures FirstBehind(e, now, ts, i) && TicketWrong(e, now, ts, i, Batch(e, feeBps, now, ts).error)
    decreases |ts|
  {
    var n := |ts| - 1;
    if Batch(e, feeBps, now, ts[..n]).Err? {
      i := BatchBlamesFirst(e, feeBps, now, ts[..n]);
      assert ts[..n][..i] == ts[..i];
    } else {
      i := n;
      BatchGoesThroughIff(e, feeBps, now, ts[..n]);
      LastAhead(e, feeBps, now, ts);
      ChannelAfterBatch(e, feeBps, now, ts[..n], IdOf(ts[n]));
    }
  }

  // ------------------------------------------------------------------ one call

  predicate CallerIsNotOwner(x: State, from: Actor, c: Call) {
    match c
    case SetBridge(_, _, _) => x.token.owner != Some(from)
    case SetPricePerUnit(_) => x.escrow.owner != Some(from)
    case SetFeeBps(_) => x.treasury.owner != Some(from)
    case QueueBeneficiary(_) => x.treasury.owner != Some(from)
    case TransferOwnership(contract, _) => OwnerOf(x, contract) != Some(from)
    case AcceptOwnership(contract) => PendingOwnerOf(x, contract) != Some(from)
    case _ => false
  }

  predicate PayerIsShort(x: State, from: Actor, c: Call) {
    var f := TokenFlow(x, from, c);
    f.payer.Some? && x.token.bal.At(f.payer.value) < f.amount
  }

  predicate AllowanceIsShort(x: State, from: Actor, c: Call) {
    match c
    case TransferFrom(owner, _, amount) => Allowance(x.token, owner, Wallet(from)) < amount
    case Deposit(amount) => Allowance(x.token, Wallet(from), EscrowContract) < amount
    case DepositWithPermit(client, amount, permit) => PermittedAllowance(x, client, permit) < amount
    case _ => false
  }

  /** What a call that names an amount asks for. */
  function Asked(c: Call): nat {
    match c
    case Deposit(amount) => amount
    case DepositWithPermit(_, amount, _) => amount
    case WithdrawDeposit(amount) => amount
    case WithdrawWithSig(auth, _) => auth.amount
    case TransferDeposit(auth, _) => auth.amount
    case ClaimEarnings(_, amount) => amount
    case StkPush(amount, _) => amount
    case B2cPayout(_, amount, _) => amount
    case _ => 0
  }

  /** The client whose deposit a withdrawal or transfer takes. */
  function Taken(from: Actor, c: Call): Actor {
    match c
    case WithdrawWithSig(auth, _) => auth.from
    case TransferDeposit(auth, _) => auth.from
    case _ => from
  }

  predicate TakesDeposit(c: Call) { c.WithdrawDeposit? || c.WithdrawWithSig? || c.TransferDeposit? }

  predicate Unauthorised(x: State, c: Call) {
    match c
    case WithdrawWithSig(a, dest) =>
      dest.Some? && a.signature != SignedBy(a.from, WithdrawDigest(a.from, dest.value, a.amount, x.escrow.authNonces.At(a.from), a.deadline))
    case TransferDeposit(a, to) =>
      to.Some? && a.signature != SignedBy(a.from, TransferDigest(a.from, to.value, a.amount, x.escrow.authNonces.At(a.from), a.deadline))
    case _ => false
  }

  /** The error is true of the call in the world it was tried in. */
  ghost predicate True(x: State, p: Params, from: Actor, c: Call, err: Error) {
    match err
    case OwnableUnauthorizedAccount => CallerIsNotOwner(x, from, c)
    case NotBridge => (c.BridgeMint? || c.BridgeBurn?) && !BridgeOf(x.token, from).allowed
    case MintCapExceeded =>
      c.BridgeMint?
      && var b := BridgeOf(x.token, from); (if x.t < b.windowStart + DAY then b.minted + c.amount else c.amount) > b.cap
    case ERC20InsufficientBalance => PayerIsShort(x, from, c)
    case ERC20InsufficientAllowance => AllowanceIsShort(x, from, c)
    case ERC2612ExpiredSignature => c.UsePermit? && x.t > c.permit.deadline
    case ERC2612InvalidSigner => c.UsePermit? && x.t <= c.permit.deadline && !PermitGood(x, c.permit)
    case ZeroAmount =>
      if c.SettleTicketBatch? then AllAhead(x.escrow, x.t, c.tickets) && !SomeoneCanPay(x.escrow, c.tickets)
      else (TakesDeposit(c) || c.Deposit? || c.DepositWithPermit? || c.ClaimEarnings?) && Asked(c) == 0
    case ZeroAddress => (c.WithdrawWithSig? && c.dest == None) || (c.TransferDeposit? && c.receiver == None)
    case InsufficientDeposit => TakesDeposit(c) && x.escrow.deposits.At(Taken(from, c)) < Asked(c)
    case InsufficientEarnings => c.ClaimEarnings? && x.escrow.earnings.At(from) < c.amount
    case EmptyBatch => c == SettleTicketBatch([])
    case PriceOutOfBand =>
      (c.SetPricePerUnit? && !(MIN_PRICE <= c.price <= MAX_PRICE)) || (c.CreateEscrow? && !(MIN_PRICE <= p.pricePerUnit <= MAX_PRICE))
    case PriceCooldownActive => c.SetPricePerUnit? && x.t < x.escrow.lastPriceChange + DAY
    case AuthorizationExpired =>
      (c.WithdrawWithSig? && x.t > c.auth.deadline) || (c.TransferDeposit? && x.t > c.auth.deadline)
    case BadAuthorization => Unauthorised(x, c)
    case NothingToClaim => c.Claim? && (x.token.bal.At(TreasuryContract) <= 0 || x.treasury.beneficiary == None)
    case FeeTooHigh => c.SetFeeBps? && c.feeBps > MAX_FEE_BPS
    case NoPendingChange => (c.ActivateBeneficiary? || c.CancelBeneficiaryChange?) && x.treasury.pending == None
    case TimelockActive => c.ActivateBeneficiary? && x.t < x.treasury.activation
    case NotAuthorized =>
      c.CancelBeneficiaryChange? && x.treasury.owner != Some(from) && x.treasury.beneficiary != Some(Wallet(from))
    case DeviceUnavailable => c.SignTicket? && from in x.lost
    case STKCancelled => c.StkPush? && c.fail
    case MpesaInsufficientFunds => c.StkPush? && x.mpesa.At(from) < c.amount
    case B2CFailed => c.B2cPayout? && c.fail
    case FloatShort => c.B2cPayout? && x.float < c.amount
    case InsufficientEth => c.FundGas? && x.eth.At(Kiosk) < c.gwei as real
    case _ => c.SettleTicketBatch? && exists i :: 0 <= i < |c.tickets| && FirstWrong(x, c.tickets, i, err)
  }

  ghost predicate FirstWrong(x: State, ts: seq<Ticket>, i: nat, err: Error)
    requires i < |ts|
  {
    FirstBehind(x.escrow, x.t, ts, i) && TicketWrong(x.escrow, x.t, ts, i, err)
  }

  lemma TokenErrorsTrue(x: State, p: Params, from: Actor, c: Call)
    requires PartOf(c) == OnToken && ApplyToken(x.token, x.treasury, x.t, from, c).Err?
    ensures True(x, p, from, c, ApplyToken(x.token, x.treasury, x.t, from, c).error)
  {
    if c.UsePermit? {
      PermitGoodIff(x, c.permit);
    }
  }

  lemma DepositErrorsTrue(x: State, p: Params, from: Actor, c: Call)
    requires (c.Deposit? || c.DepositWithPermit?) && ApplyFunds(FundsOf(x), x.treasury.feeBps, x.t, from, c).Err?
    ensures True(x, p, from, c, ApplyFunds(FundsOf(x), x.treasury.feeBps, x.t, from, c).error)
  {
    if c.DepositWithPermit? {
      PermitGoodIff(x, c.permit);
    }
  }

  lemma SignedErrorsTrue(x: State, p: Params, from: Actor, c: Call)
    requires (c.WithdrawWithSig? || c.TransferDeposit?) && ApplyFunds(FundsOf(x), x.treasury.feeBps, x.t, from, c).Err?
    ensures True(x, p, from, c, ApplyFunds(FundsOf(x), x.treasury.feeBps, x.t, from, c).error)
  {}

  lemma OwnFundsErrorsTrue(x: State, p: Params, from: Actor, c: Call)
    requires c.WithdrawDeposit? || c.ClaimEarnings? || c.SetPricePerUnit?
    requires ApplyFunds(FundsOf(x), x.treasury.feeBps, x.t, from, c).Err?
    ensures True(x, p, from, c, ApplyFunds(FundsOf(x), x.treasury.feeBps, x.t, from, c).error)
  {}

  lemma SettlementErrorsTrue(x: State, p: Params, from: Actor, c: Call)
    requires Sound(x) && c.SettleTicketBatch? && SettleRule(FundsOf(x), x.treasury.feeBps, x.t, c.tickets).Err?
    ensures True(x, p, from, c, SettleRule(FundsOf(x), x.treasury.feeBps, x.t, c.tickets).error)
  {
    if Batch(x.escrow, x.treasury.feeBps, x.t, c.tickets).Err? {
      var i := BatchBlamesFirst(x.escrow, x.treasury.feeBps, x.t, c.tickets);
      assert FirstWrong(x, c.tickets, i, Batch(x.escrow, x.treasury.feeBps, x.t, c.tickets).error);
    } else {
      BatchGoesThroughIff(x.escrow, x.treasury.feeBps, x.t, c.tickets);
      GrossPositiveIff(x.escrow, x.treasury.feeBps, x.t, c.tickets);
    }
  }

  lemma TreasuryErrorsTrue(x: State, p: Params, from: Actor, c: Call)
    requires PartOf(c) == OnTreasury && ApplyTreasury(x.treasury, p, x.t, from, c).Err?
    ensures True(x, p, from, c, ApplyTreasury(x.treasury, p, x.t, from, c).error)
  {}

  lemma OwnerErrorsTrue(x: State, p: Params, from: Actor, c: Call)
    requires PartOf(c) == OnOwners && ApplyOwners(x, p, from, c).Err?
    ensures True(x, p, from, c, ApplyOwners(x, p, from, c).error)
  {}

  lemma OffErrorsTrue(x: State, p: Params, from: Actor, c: Call)
    requires PartOf(c) == OffContracts && ApplyOff(x, p, from, c).Err?
    ensures True(x, p, from, c, ApplyOff(x, p, from, c).error)
  {}

  lemma FundsErrorsTrue(x: State, p: Params, from: Actor, c: Call, err: Error)
    requires Sound(x) && PartOf(c) == OnFunds && ApplyFunds(FundsOf(x), x.treasury.feeBps, x.t, from, c) == Err(err)
    ensures True(x, p, from, c, err)
  {
    if c.Deposit? || c.DepositWithPermit? {
      DepositErrorsTrue(x, p, from, c);
    } else if c.WithdrawWithSig? || c.TransferDeposit? {
      SignedErrorsTrue(x, p, from, c);
    } else if c.SettleTicketBatch? {
      SettlementErrorsTrue(x, p, from, c);
    } else {
      OwnFundsErrorsTrue(x, p, from, c);
    }
  }

  /** No error lies: whatever a call fails with is true of it. */
  lemma ErrorsAreTrue(x: State, p: Params, from: Actor, c: Call, err: Error)
    requires Sound(x) && Apply(x, p, from, c) == Err(err)
    ensures True(x, p, from, c, err)
  {
    match PartOf(c) {
      case OnToken => TokenErrorsTrue(x, p, from, c);
      case OnFunds => FundsErrorsTrue(x, p, from, c, err);
      case OnTreasury => TreasuryErrorsTrue(x, p, from, c);
      case OnOwners => OwnerErrorsTrue(x, p, from, c);
      case OffContracts => OffErrorsTrue(x, p, from, c);
    }
  }
}
