/** Whose key moves what: wallets, allowances and earnings shrink or grow only by their owner's right. */
module Custody {
  import opened EngineTypes
  import opened Settlement
  import opened SettlementTheorems
  import opened EngineRules
  import opened EngineMoney
  import opened EngineRuns

  // ------------------------------------------------------------------ wallets

  /** Why a wallet may pay `fall`: by its own call, or out of an allowance it has given the caller or the escrow. */
  ghost predicate MaySpend(x: State, from: Actor, c: Call, a: Actor, fall: int) {
    match c
    case Transfer(_, amount) => from == a && fall == amount
    case BridgeBurn(amount) => from == a && fall == amount
    case TransferFrom(owner, _, amount) =>
      owner == Wallet(a) && fall == amount <= Allowance(x.token, Wallet(a), Wallet(from))
    case Deposit(amount) => from == a && fall == amount <= Allowance(x.token, Wallet(a), EscrowContract)
    case DepositWithPermit(client, amount, permit) =>
      client == a && fall == amount <= Allowance(AfterPermit(x.token, x.t, permit), Wallet(a), EscrowContract)
    case _ => false
  }

  lemma TokenSpends(x: State, from: Actor, c: Call, a: Actor)
    requires PartOf(c) == OnToken && ApplyToken(x.token, x.treasury, x.t, from, c).Ok?
    requires ApplyToken(x.token, x.treasury, x.t, from, c).value.bal.At(Wallet(a)) < x.token.bal.At(Wallet(a))
    ensures MaySpend(x, from, c, a, x.token.bal.At(Wallet(a)) - ApplyToken(x.token, x.treasury, x.t, from, c).value.bal.At(Wallet(a)))
  {
    var bal := x.token.bal;
    match c {
      case Transfer(to, amount) => ShiftAt(bal, Wallet(from), to, amount, Wallet(a));
      case TransferFrom(owner, to, amount) => ShiftAt(bal, owner, to, amount, Wallet(a));
      case BridgeBurn(amount) => PlusAt(bal, Wallet(from), 0 - amount, Wallet(a));
      case BridgeMint(to, amount) => PlusAt(bal, to, amount, Wallet(a));
      case Claim => ShiftAt(bal, TreasuryContract, x.treasury.beneficiary.value, bal.At(TreasuryContract), Wallet(a));
      case _ =>
    }
  }

  /** What the escrow pays out never comes from a wallet. */
  lemma EscrowPays(tk: Token, to: Holder, amount: int, a: Actor)
    requires amount >= 0
    ensures Moved(tk, EscrowContract, to, amount).bal.At(Wallet(a)) >= tk.bal.At(Wallet(a))
  {
    ShiftAt(tk.bal, EscrowContract, to, amount, Wallet(a));
  }

  lemma DepositSpends(f: Funds, client: Actor, amount: nat, a: Actor)
    requires DepositRule(f, client, amount).Ok?
    ensures var y := DepositRule(f, client, amount).value;
            && f.token.bal.At(Wallet(a)) - y.token.bal.At(Wallet(a)) == (if client == a then amount else 0)
            && amount <= Allowance(f.token, Wallet(client), EscrowContract)
  {
    ShiftAt(f.token.bal, Wallet(client), EscrowContract, amount, Wallet(a));
  }

  lemma SettlePays(f: Funds, feeBps: nat, t: nat, tickets: seq<Ticket>, a: Actor)
    requires SettleRule(f, feeBps, t, tickets).Ok?
    ensures SettleRule(f, feeBps, t, tickets).value.token.bal.At(Wallet(a)) == f.token.bal.At(Wallet(a))
  {
    var fee := Batch(f.escrow, feeBps, t, tickets).value.fee;
    ShiftAt(f.token.bal, EscrowContract, TreasuryContract, fee, Wallet(a));
  }

  lemma FundsSpend(x: State, from: Actor, c: Call, a: Actor)
    requires PartOf(c) == OnFunds && ApplyFunds(FundsOf(x), x.treasury.feeBps, x.t, from, c).Ok?
    requires ApplyFunds(FundsOf(x), x.treasury.feeBps, x.t, from, c).value.token.bal.At(Wallet(a)) < x.token.bal.At(Wallet(a))
    ensures MaySpend(x, from, c, a, x.token.bal.At(Wallet(a))
                                    - ApplyFunds(FundsOf(x), x.treasury.feeBps, x.t, from, c).value.token.bal.At(Wallet(a)))
  {
    var f := FundsOf(x);
    match c {
      case Deposit(amount) => DepositSpends(f, from, amount, a);
      case DepositWithPermit(client, amount, permit) =>
        DepositSpends(f.(token := AfterPermit(f.token, x.t, permit)), client, amount, a);
      case WithdrawDeposit(amount) => EscrowPays(f.token, Wallet(from), amount, a);
      case WithdrawWithSig(auth, dest) => EscrowPays(f.token, dest.value, auth.amount, a);
      case ClaimEarnings(to, amount) => EscrowPays(f.token, to, amount, a);
      case SettleTicketBatch(tickets) => SettlePays(f, x.treasury.feeBps, x.t, tickets, a);
      case _ =>
    }
  }

  /**
   No key but its own, and no contract, takes from a wallet: it shrinks only by its owner's transfer or burn, or by a
   spender within the allowance it was given. In particular no bridge can burn a user's balance.
   */
  lemma WalletFallsOnlyByRight(x: State, p: Params, from: Actor, c: Call, a: Actor)
    requires Apply(x, p, from, c).Ok?
    requires Apply(x, p, from, c).value.token.bal.At(Wallet(a)) < x.token.bal.At(Wallet(a))
    ensures MaySpend(x, from, c, a, x.token.bal.At(Wallet(a)) - Apply(x, p, from, c).value.token.bal.At(Wallet(a)))
  {
    match PartOf(c) {
      case OnToken => TokenSpends(x, from, c, a);
      case OnFunds => FundsSpend(x, from, c, a);
      case OnTreasury => assert false;
      case OnOwners => OwnersFrame(x, p, from, c); assert false;
      case OffContracts => OffFrame(x, p, from, c); assert false;
    }
  }

  // ------------------------------------------------------------------ allowances

  /** A permit its owner signed for exactly this spender and value, at the current nonce, in time. */
  ghost predicate SignedPermit(x: State, p: Permit, a: Actor, s: Holder) {
    && p.owner == a && p.spender == s && x.t <= p.deadline
    && p.signature == SignedBy(a, PermitDigest(a, s, p.value, x.token.nonces.At(a), p.deadline))
  }

  ghost predicate MayGrant(x: State, from: Actor, c: Call, a: Actor, s: Holder) {
    match c
    case Approve(spender, _) => from == a && spender == s
    case UsePermit(permit) => SignedPermit(x, permit, a, s)
    case DepositWithPermit(_, _, permit) => SignedPermit(x, permit, a, s)
    case _ => false
  }

  lemma PermitGrants(x: State, p: Permit, a: Actor, s: Holder)
    requires Allowance(AfterPermit(x.token, x.t, p), Wallet(a), s) > Allowance(x.token, Wallet(a), s)
    ensures SignedPermit(x, p, a, s)
  {}

  lemma SpendGrantsNothing(tk: Token, owner: Holder, spender: Holder, to: Holder, amount: nat, a: Actor, s: Holder)
    requires SpendAndMove(tk, owner, spender, to, amount).Ok?
    ensures Allowance(SpendAndMove(tk, owner, spender, to, amount).value, Wallet(a), s) <= Allowance(tk, Wallet(a), s)
  {}

  lemma TokenGrants(x: State, from: Actor, c: Call, a: Actor, s: Holder)
    requires PartOf(c) == OnToken && ApplyToken(x.token, x.treasury, x.t, from, c).Ok?
    requires Allowance(ApplyToken(x.token, x.treasury, x.t, from, c).value, Wallet(a), s) > Allowance(x.token, Wallet(a), s)
    ensures MayGrant(x, from, c, a, s)
  {
    match c {
      case TransferFrom(owner, to, amount) => SpendGrantsNothing(x.token, owner, Wallet(from), to, amount, a, s);
      case UsePermit(permit) => PermitGrants(x, permit, a, s);
      case _ =>
    }
  }

  lemma FundsGrant(x: State, from: Actor, c: Call, a: Actor, s: Holder)
    requires PartOf(c) == OnFunds && ApplyFunds(FundsOf(x), x.treasury.feeBps, x.t, from, c).Ok?
    requires Allowance(ApplyFunds(FundsOf(x), x.treasury.feeBps, x.t, from, c).value.token, Wallet(a), s)
             > Allowance(x.token, Wallet(a), s)
    ensures MayGrant(x, from, c, a, s)
  {
    match c {
      case Deposit(amount) => SpendGrantsNothing(x.token, Wallet(from), EscrowContract, EscrowContract, amount, a, s);
      case DepositWithPermit(client, amount, permit) =>
        SpendGrantsNothing(AfterPermit(x.token, x.t, permit), Wallet(client), EscrowContract, EscrowContract, amount, a, s);
        PermitGrants(x, permit, a, s);
      case _ =>
    }
  }

  /** An allowance grows only by its owner's approve, or by a permit the owner signed for exactly that grant. */
  lemma AllowanceGrowsOnlyByRight(x: State, p: Params, from: Actor, c: Call, a: Actor, s: Holder)
    requires Apply(x, p, from, c).Ok?
    requires Allowance(Apply(x, p, from, c).value.token, Wallet(a), s) > Allowance(x.token, Wallet(a), s)
    ensures MayGrant(x, from, c, a, s)
  {
    match PartOf(c) {
      case OnToken => TokenGrants(x, from, c, a, s);
      case OnFunds => FundsGrant(x, from, c, a, s);
      case OnTreasury => assert false;
      case OnOwners => OwnersFrame(x, p, from, c); assert false;
      case OffContracts => OffFrame(x, p, from, c); assert false;
    }
  }

  // ------------------------------------------------------------------ earnings

  lemma SettleEarns(f: Funds, feeBps: nat, t: nat, tickets: seq<Ticket>, a: Actor)
    requires NonNegative(f.escrow.deposits) && feeBps <= 10_000 && SettleRule(f, feeBps, t, tickets).Ok?
    ensures SettleRule(f, feeBps, t, tickets).value.escrow.earnings.At(a) >= f.escrow.earnings.At(a)
  {
    BatchConserves(f.escrow, feeBps, t, tickets);
  }

  lemma ClaimTakes(f: Funds, from: Actor, to: Holder, amount: nat, a: Actor)
    requires ClaimEarningsRule(f, from, to, amount).Ok?
    ensures ClaimEarningsRule(f, from, to, amount).value.escrow.earnings.At(a)
            == f.escrow.earnings.At(a) - if from == a then amount else 0
  {
    PlusAt(f.escrow.earnings, from, 0 - amount, a);
  }

  lemma FundsEarnings(f: Funds, feeBps: nat, t: nat, from: Actor, c: Call, a: Actor)
    requires NonNegative(f.escrow.deposits) && feeBps <= 10_000
    requires PartOf(c) == OnFunds && ApplyFunds(f, feeBps, t, from, c).Ok?
    ensures ApplyFunds(f, feeBps, t, from, c).value.escrow.earnings.At(a)
            >= f.escrow.earnings.At(a) - if c.ClaimEarnings? && from == a then c.amount else 0
  {
    match c {
      case SettleTicketBatch(tickets) => SettleEarns(f, feeBps, t, tickets, a);
      case ClaimEarnings(to, amount) => ClaimTakes(f, from, to, amount, a);
      case _ =>
    }
  }

  /** A node's earnings fall only when the node claims them, by what it claims. */
  lemma EarningsFallOnlyByClaim(x: State, p: Params, from: Actor, c: Call, a: Actor)
    requires Sound(x) && Apply(x, p, from, c).Ok?
    ensures Apply(x, p, from, c).value.escrow.earnings.At(a)
            >= x.escrow.earnings.At(a) - if c.ClaimEarnings? && from == a then c.amount else 0
  {
    match PartOf(c) {
      case OnFunds => FundsEarnings(FundsOf(x), x.treasury.feeBps, x.t, from, c, a);
      case OnOwners => OwnersFrame(x, p, from, c);
      case OffContracts => OffFrame(x, p, from, c);
      case _ =>
    }
  }

  // ------------------------------------------------------------------ every step of a run

  /** In a run a wallet is only ever debited by a committed call with the right to it. */
  lemma StepSpendsByRight(w: World, env: Env, r: Request, a: Actor)
    requires Step(w, env, r).state.token.bal.At(Wallet(a)) < w.state.token.bal.At(Wallet(a))
    ensures StatusOf(w, r) == Committed
    ensures MaySpend(Ticked(w.state, r.call), r.from, r.call, a,
                     w.state.token.bal.At(Wallet(a)) - Step(w, env, r).state.token.bal.At(Wallet(a)))
  {
    if StatusOf(w, r) == Committed {
      CommitAppliesBody(w, env, r);
      WalletFallsOnlyByRight(Ticked(w.state, r.call), w.params, r.from, r.call, a);
    } else {
      FailureChangesNothing(w, env, r);
    }
  }
}
