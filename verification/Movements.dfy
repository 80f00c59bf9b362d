/** Double entry: what every committed call moves, from whom and to whom, in tokens, deposits, earnings, grants, fiat and ether. */
module Movements {
  import opened Options
  import opened EngineTypes
  import opened Settlement
  import opened SettlementTheorems
  import opened EngineRules
  import opened EngineMoney
  import opened EngineRuns
  import opened Custody
  import opened Earnings

  // ------------------------------------------------------------------ tokens

  /** One movement of tokens: nobody pays what is minted, nobody gets what is burned. */
  datatype Flow = Flow(payer: Option<Holder>, payee: Option<Holder>, amount: int)

  const NOTHING := Flow(None, None, 0)

  /** A batch that commits, as seen from its world. */
  function BatchOf(x: State, ts: seq<Ticket>): Result<Tally> { Batch(x.escrow, x.treasury.feeBps, x.t, ts) }

  function TokenFlow(x: State, from: Actor, c: Call): Flow {
    match c
    case BridgeMint(to, amount) => Flow(None, Some(to), amount)
    case BridgeBurn(amount) => Flow(Some(Wallet(from)), None, amount)
    case Transfer(to, amount) => Flow(Some(Wallet(from)), Some(to), amount)
    case TransferFrom(owner, to, amount) => Flow(Some(owner), Some(to), amount)
    case Deposit(amount) => Flow(Some(Wallet(from)), Some(EscrowContract), amount)
    case DepositWithPermit(client, amount, _) => Flow(Some(Wallet(client)), Some(EscrowContract), amount)
    case WithdrawDeposit(amount) => Flow(Some(EscrowContract), Some(Wallet(from)), amount)
    case WithdrawWithSig(auth, dest) => Flow(Some(EscrowContract), dest, auth.amount)
    case SettleTicketBatch(ts) =>
      Flow(Some(EscrowContract), Some(TreasuryContract), if BatchOf(x, ts).Ok? then BatchOf(x, ts).value.fee else 0)
    case ClaimEarnings(to, amount) => Flow(Some(EscrowContract), Some(to), amount)
    case Claim => Flow(Some(TreasuryContract), x.treasury.beneficiary, x.token.bal.At(TreasuryContract))
    case _ => NOTHING
  }

  function Paying(f: Flow, h: Holder): int { if f.payer == Some(h) then f.amount else 0 }
  function Getting(f: Flow, h: Holder): int { if f.payee == Some(h) then f.amount else 0 }
  function Created(f: Flow): int { if f.payer == None then f.amount else 0 }
  function Destroyed(f: Flow): int { if f.payee == None then f.amount else 0 }

  /** Balances and supply after a movement; what is paid was there. */
  ghost predicate Moves(x: Token, y: Token, f: Flow, h: Holder) {
    && y.bal.At(h) == x.bal.At(h) - Paying(f, h) + Getting(f, h)
    && y.supply == x.supply + Created(f) - Destroyed(f)
  }

  lemma MovedMoves(tk: Token, from: Holder, to: Holder, amount: int, h: Holder)
    ensures Moves(tk, Moved(tk, from, to, amount), Flow(Some(from), Some(to), amount), h)
  {
    ShiftAt(tk.bal, from, to, amount, h);
  }

  predicate MovesSupply(c: Call) { c.BridgeMint? || c.BridgeBurn? }
  predicate Transfers(c: Call) { c.Transfer? || c.TransferFrom? || c.Claim? }

  lemma SupplyMoves(x: State, from: Actor, c: Call, h: Holder)
    requires MovesSupply(c) && ApplyToken(x.token, x.treasury, x.t, from, c).Ok?
    ensures Moves(x.token, ApplyToken(x.token, x.treasury, x.t, from, c).value, TokenFlow(x, from, c), h)
  {
    if c.BridgeMint? {
      PlusAt(x.token.bal, c.to, c.amount, h);
    } else {
      PlusAt(x.token.bal, Wallet(from), 0 - c.amount, h);
    }
  }

  lemma TransferMoves(x: State, from: Actor, c: Call, h: Holder)
    requires Transfers(c) && ApplyToken(x.token, x.treasury, x.t, from, c).Ok?
    ensures Moves(x.token, ApplyToken(x.token, x.treasury, x.t, from, c).value, TokenFlow(x, from, c), h)
  {
    match c {
      case Transfer(to, amount) => MovedMoves(x.token, Wallet(from), to, amount, h);
      case TransferFrom(owner, to, amount) => MovedMoves(SpendRule(x.token, owner, Wallet(from), amount).value, owner, to, amount, h);
      case Claim => MovedMoves(x.token, TreasuryContract, x.treasury.beneficiary.value, x.token.bal.At(TreasuryContract), h);
    }
  }

  lemma OtherTokenCallsKeep(x: State, from: Actor, c: Call, h: Holder)
    requires PartOf(c) == OnToken && !MovesSupply(c) && !Transfers(c) && ApplyToken(x.token, x.treasury, x.t, from, c).Ok?
    ensures Moves(x.token, ApplyToken(x.token, x.treasury, x.t, from, c).value, TokenFlow(x, from, c), h)
  {}

  lemma TokenMoves(x: State, from: Actor, c: Call, h: Holder)
    requires PartOf(c) == OnToken && ApplyToken(x.token, x.treasury, x.t, from, c).Ok?
    ensures Moves(x.token, ApplyToken(x.token, x.treasury, x.t, from, c).value, TokenFlow(x, from, c), h)
  {
    if MovesSupply(c) {
      SupplyMoves(x, from, c, h);
    } else if Transfers(c) {
      TransferMoves(x, from, c, h);
    } else {
      OtherTokenCallsKeep(x, from, c, h);
    }
  }

  lemma CreditMoves(f: Funds, client: Actor, amount: nat, h: Holder)
    requires DepositRule(f, client, amount).Ok?
    ensures Moves(f.token, DepositRule(f, client, amount).value.token, Flow(Some(Wallet(client)), Some(EscrowContract), amount), h)
  {
    MovedMoves(SpendRule(f.token, Wallet(client), EscrowContract, amount).value, Wallet(client), EscrowContract, amount, h);
  }

  lemma FeesMove(x: State, ts: seq<Ticket>, h: Holder)
    requires Sound(x) && SettleRule(FundsOf(x), x.treasury.feeBps, x.t, ts).Ok?
    ensures Moves(x.token, SettleRule(FundsOf(x), x.treasury.feeBps, x.t, ts).value.token,
                  Flow(Some(EscrowContract), Some(TreasuryContract), BatchOf(x, ts).value.fee), h)
  {
    BatchConserves(x.escrow, x.treasury.feeBps, x.t, ts);
    MovedMoves(x.token, EscrowContract, TreasuryContract, BatchOf(x, ts).value.fee, h);
  }

  /** Calls that pay the escrow, and calls that have it pay somebody. */
  predicate PaysIn(c: Call) { c.Deposit? || c.DepositWithPermit? }
  predicate PaysOut(c: Call) { c.WithdrawDeposit? || c.WithdrawWithSig? || c.ClaimEarnings? }

  lemma PayInMoves(x: State, from: Actor, c: Call, h: Holder)
    requires PaysIn(c) && ApplyFunds(FundsOf(x), x.treasury.feeBps, x.t, from, c).Ok?
    ensures Moves(x.token, ApplyFunds(FundsOf(x), x.treasury.feeBps, x.t, from, c).value.token, TokenFlow(x, from, c), h)
  {
    if c.Deposit? {
      CreditMoves(FundsOf(x), from, c.amount, h);
    } else {
      CreditMoves(FundsOf(x).(token := AfterPermit(x.token, x.t, c.permit)), c.client, c.amount, h);
    }
  }

  lemma PayOutMoves(x: State, from: Actor, c: Call, h: Holder)
    requires PaysOut(c) && ApplyFunds(FundsOf(x), x.treasury.feeBps, x.t, from, c).Ok?
    ensures Moves(x.token, ApplyFunds(FundsOf(x), x.treasury.feeBps, x.t, from, c).value.token, TokenFlow(x, from, c), h)
  {
    match c {
      case WithdrawDeposit(amount) => MovedMoves(x.token, EscrowContract, Wallet(from), amount, h);
      case WithdrawWithSig(auth, dest) => MovedMoves(x.token, EscrowContract, dest.value, auth.amount, h);
      case ClaimEarnings(to, amount) => MovedMoves(x.token, EscrowContract, to, amount, h);
    }
  }

  lemma BooksOnly(x: State, from: Actor, c: Call, h: Holder)
    requires (c.TransferDeposit? || c.SetPricePerUnit?) && ApplyFunds(FundsOf(x), x.treasury.feeBps, x.t, from, c).Ok?
    ensures Moves(x.token, ApplyFunds(FundsOf(x), x.treasury.feeBps, x.t, from, c).value.token, TokenFlow(x, from, c), h)
  {}

  lemma FundsMove(x: State, from: Actor, c: Call, h: Holder)
    requires Sound(x) && PartOf(c) == OnFunds && ApplyFunds(FundsOf(x), x.treasury.feeBps, x.t, from, c).Ok?
    ensures Moves(x.token, ApplyFunds(FundsOf(x), x.treasury.feeBps, x.t, from, c).value.token, TokenFlow(x, from, c), h)
  {
    if PaysIn(c) {
      PayInMoves(x, from, c, h);
    } else if PaysOut(c) {
      PayOutMoves(x, from, c, h);
    } else if c.SettleTicketBatch? {
      FeesMove(x, c.tickets, h);
    } else {
      BooksOnly(x, from, c, h);
    }
  }

  /** Calls on the treasury, on owners and outside the contracts leave tokens, grants and permit nonces alone. */
  lemma TokenUntouched(x: State, p: Params, from: Actor, c: Call)
    requires PartOf(c) != OnToken && PartOf(c) != OnFunds && Apply(x, p, from, c).Ok?
    ensures var y := Apply(x, p, from, c).value.token;
            y.bal == x.token.bal && y.supply == x.token.supply && y.allow == x.token.allow && y.nonces == x.token.nonces
  {
    match PartOf(c) {
      case OnTreasury =>
      case OnOwners => OwnersFrame(x, p, from, c);
      case OffContracts => OffFrame(x, p, from, c);
    }
  }

  lemma OthersMoveNoTokens(x: State, p: Params, from: Actor, c: Call, h: Holder)
    requires PartOf(c) != OnToken && PartOf(c) != OnFunds && Apply(x, p, from, c).Ok?
    ensures Moves(x.token, Apply(x, p, from, c).value.token, TokenFlow(x, from, c), h)
  {
    TokenUntouched(x, p, from, c);
    assert TokenFlow(x, from, c).amount == 0;
  }

  /** Every committed call pays tokens from one holder to one holder, and moves nobody else's. */
  lemma CallMovesTokens(x: State, p: Params, from: Actor, c: Call, h: Holder)
    requires Sound(x) && Apply(x, p, from, c).Ok?
    ensures Moves(x.token, Apply(x, p, from, c).value.token, TokenFlow(x, from, c), h)
  {
    if PartOf(c) == OnToken {
      TokenMoves(x, from, c, h);
    } else if PartOf(c) == OnFunds {
      FundsMove(x, from, c, h);
    } else {
      OthersMoveNoTokens(x, p, from, c, h);
    }
  }

  // ------------------------------------------------------------------ deposits

  /** What a call adds to or takes from the deposit of a. */
  function DepositChange(x: State, from: Actor, c: Call, a: Actor): int {
    match c
    case Deposit(amount) => if a == from then amount else 0
    case DepositWithPermit(client, amount, _) => if a == client then amount else 0
    case WithdrawDeposit(amount) => if a == from then 0 - amount else 0
    case WithdrawWithSig(auth, _) => if a == auth.from then 0 - auth.amount else 0
    case TransferDeposit(auth, receiver) =>
      (if a == auth.from then 0 - auth.amount else 0) + if receiver == Some(a) then auth.amount else 0
    case SettleTicketBatch(ts) =>
      if BatchOf(x, ts).Ok? then BatchOf(x, ts).value.escrow.deposits.At(a) - x.escrow.deposits.At(a) else 0
    case _ => 0
  }

  lemma PayInMovesDeposits(x: State, from: Actor, c: Call, a: Actor)
    requires PaysIn(c) && ApplyFunds(FundsOf(x), x.treasury.feeBps, x.t, from, c).Ok?
    ensures ApplyFunds(FundsOf(x), x.treasury.feeBps, x.t, from, c).value.escrow.deposits.At(a)
            == x.escrow.deposits.At(a) + DepositChange(x, from, c, a)
  {
    PlusAt(x.escrow.deposits, if c.Deposit? then from else c.client, c.amount, a);
  }

  lemma WithdrawalMovesDeposits(x: State, from: Actor, c: Call, a: Actor)
    requires (c.WithdrawDeposit? || c.WithdrawWithSig?) && ApplyFunds(FundsOf(x), x.treasury.feeBps, x.t, from, c).Ok?
    ensures ApplyFunds(FundsOf(x), x.treasury.feeBps, x.t, from, c).value.escrow.deposits.At(a)
            == x.escrow.deposits.At(a) + DepositChange(x, from, c, a)
  {
    if c.WithdrawDeposit? {
      PlusAt(x.escrow.deposits, from, 0 - c.amount, a);
    } else {
      PlusAt(x.escrow.deposits, c.auth.from, 0 - c.auth.amount, a);
    }
  }

  lemma TransferMovesDeposits(x: State, from: Actor, c: Call, a: Actor)
    requires c.TransferDeposit? && ApplyFunds(FundsOf(x), x.treasury.feeBps, x.t, from, c).Ok?
    ensures ApplyFunds(FundsOf(x), x.treasury.feeBps, x.t, from, c).value.escrow.deposits.At(a)
            == x.escrow.deposits.At(a) + DepositChange(x, from, c, a)
  {
    ShiftAt(x.escrow.deposits, c.auth.from, c.receiver.value, c.auth.amount, a);
  }

  lemma SettlementMovesDeposits(x: State, from: Actor, c: Call, a: Actor)
    requires c.SettleTicketBatch? && ApplyFunds(FundsOf(x), x.treasury.feeBps, x.t, from, c).Ok?
    ensures ApplyFunds(FundsOf(x), x.treasury.feeBps, x.t, from, c).value.escrow.deposits.At(a)
            == x.escrow.deposits.At(a) + DepositChange(x, from, c, a)
  {}

  lemma OthersKeepDeposits(x: State, from: Actor, c: Call, a: Actor)
    requires (c.ClaimEarnings? || c.SetPricePerUnit?) && ApplyFunds(FundsOf(x), x.treasury.feeBps, x.t, from, c).Ok?
    ensures ApplyFunds(FundsOf(x), x.treasury.feeBps, x.t, from, c).value.escrow.deposits.At(a)
            == x.escrow.deposits.At(a) + DepositChange(x, from, c, a)
  {}

  lemma FundsMoveDeposits(x: State, from: Actor, c: Call, a: Actor)
    requires PartOf(c) == OnFunds && ApplyFunds(FundsOf(x), x.treasury.feeBps, x.t, from, c).Ok?
    ensures ApplyFunds(FundsOf(x), x.treasury.feeBps, x.t, from, c).value.escrow.deposits.At(a)
            == x.escrow.deposits.At(a) + DepositChange(x, from, c, a)
  {
    if PaysIn(c) {
      PayInMovesDeposits(x, from, c, a);
    } else if c.WithdrawDeposit? || c.WithdrawWithSig? {
      WithdrawalMovesDeposits(x, from, c, a);
    } else if c.TransferDeposit? {
      TransferMovesDeposits(x, from, c, a);
    } else if c.SettleTicketBatch? {
      SettlementMovesDeposits(x, from, c, a);
    } else {
      OthersKeepDeposits(x, from, c, a);
    }
  }

  /** Only calls on the escrow's funds touch deposits, earnings and authorisation nonces. */
  lemma EscrowBooksUntouched(x: State, p: Params, from: Actor, c: Call)
    requires PartOf(c) != OnFunds && Apply(x, p, from, c).Ok?
    ensures var y := Apply(x, p, from, c).value.escrow;
            y.deposits == x.escrow.deposits && y.earnings == x.escrow.earnings && y.authNonces == x.escrow.authNonces
  {
    match PartOf(c) {
      case OnOwners => OwnersFrame(x, p, from, c);
      case OffContracts => OffFrame(x, p, from, c);
      case _ =>
    }
  }

  lemma OthersDepositNothing(x: State, from: Actor, c: Call, a: Actor)
    requires PartOf(c) != OnFunds
    ensures DepositChange(x, from, c, a) == 0
  {}

  /** Whose deposit a committed call credits and whose it debits: exactly these. */
  lemma CallMovesDeposits(x: State, p: Params, from: Actor, c: Call, a: Actor)
    requires Apply(x, p, from, c).Ok?
    ensures Apply(x, p, from, c).value.escrow.deposits.At(a) == x.escrow.deposits.At(a) + DepositChange(x, from, c, a)
  {
    if PartOf(c) == OnFunds {
      FundsMoveDeposits(x, from, c, a);
    } else {
      EscrowBooksUntouched(x, p, from, c);
      OthersDepositNothing(x, from, c, a);
    }
  }

  // ------------------------------------------------------------------ earnings

  /** What a call adds to or takes from the earnings of a: settled tickets naming it, and its own claims. */
  function EarningsChange(x: State, from: Actor, c: Call, a: Actor): int {
    match c
    case SettleTicketBatch(ts) =>
      if BatchOf(x, ts).Ok?
      then TakenFor(x.escrow, x.treasury.feeBps, x.t, ts, a) - FeesFor(x.escrow, x.treasury.feeBps, x.t, ts, a) else 0
    case ClaimEarnings(_, amount) => if a == from then 0 - amount else 0
    case _ => 0
  }

  lemma OthersKeepEarnings(f: Funds, feeBps: nat, t: nat, from: Actor, c: Call)
    requires PartOf(c) == OnFunds && !c.SettleTicketBatch? && !c.ClaimEarnings? && ApplyFunds(f, feeBps, t, from, c).Ok?
    ensures ApplyFunds(f, feeBps, t, from, c).value.escrow.earnings == f.escrow.earnings
  {}

  lemma SettlementMovesEarnings(x: State, from: Actor, c: Call, a: Actor)
    requires Sound(x) && c.SettleTicketBatch? && ApplyFunds(FundsOf(x), x.treasury.feeBps, x.t, from, c).Ok?
    ensures ApplyFunds(FundsOf(x), x.treasury.feeBps, x.t, from, c).value.escrow.earnings.At(a)
            == x.escrow.earnings.At(a) + EarningsChange(x, from, c, a)
  {
    BatchEarns(x.escrow, x.treasury.feeBps, x.t, c.tickets, a);
  }

  lemma FundsMoveEarnings(x: State, from: Actor, c: Call, a: Actor)
    requires Sound(x) && PartOf(c) == OnFunds && ApplyFunds(FundsOf(x), x.treasury.feeBps, x.t, from, c).Ok?
    ensures ApplyFunds(FundsOf(x), x.treasury.feeBps, x.t, from, c).value.escrow.earnings.At(a)
            == x.escrow.earnings.At(a) + EarningsChange(x, from, c, a)
  {
    if c.SettleTicketBatch? {
      SettlementMovesEarnings(x, from, c, a);
    } else if c.ClaimEarnings? {
      ClaimTakes(FundsOf(x), from, c.to, c.amount, a);
    } else {
      OthersKeepEarnings(FundsOf(x), x.treasury.feeBps, x.t, from, c);
    }
  }

  lemma OthersEarnNothing(x: State, from: Actor, c: Call, a: Actor)
    requires PartOf(c) != OnFunds
    ensures EarningsChange(x, from, c, a) == 0
  {}

  lemma CallMovesEarnings(x: State, p: Params, from: Actor, c: Call, a: Actor)
    requires Sound(x) && Apply(x, p, from, c).Ok?
    ensures Apply(x, p, from, c).value.escrow.earnings.At(a) == x.escrow.earnings.At(a) + EarningsChange(x, from, c, a)
  {
    if PartOf(c) == OnFunds {
      FundsMoveEarnings(x, from, c, a);
    } else {
      EscrowBooksUntouched(x, p, from, c);
      OthersEarnNothing(x, from, c, a);
    }
  }

  /** Earnings rise only by a settled ticket that names that node. */
  lemma EarningsRiseOnlyByTicket(x: State, p: Params, from: Actor, c: Call, a: Actor) returns (i: nat)
    requires Sound(x) && Apply(x, p, from, c).Ok?
    requires Apply(x, p, from, c).value.escrow.earnings.At(a) > x.escrow.earnings.At(a)
    ensures c.SettleTicketBatch? && i < |c.tickets| && c.tickets[i].nodeAdmin == a
  {
    CallMovesEarnings(x, p, from, c, a);
    if c.SettleTicketBatch? {
      if forall j :: 0 <= j < |c.tickets| ==> c.tickets[j].nodeAdmin != a {
        if BatchOf(x, c.tickets).Ok? {
          NobodyElseEarns(x.escrow, x.treasury.feeBps, x.t, c.tickets, a);
        }
        assert false;
      }
      i :| 0 <= i < |c.tickets| && c.tickets[i].nodeAdmin == a;
    } else {
      assert false;
    }
  }

  // ------------------------------------------------------------------ grants and nonces

  /** The allowance of s over o's tokens after a committed call. */
  function AllowanceAfter(x: State, from: Actor, c: Call, o: Holder, s: Holder): int {
    var now := Allowance(x.token, o, s);
    match c
    case Approve(spender, amount) => if o == Wallet(from) && s == spender then amount else now
    case TransferFrom(owner, _, amount) => if o == owner && s == Wallet(from) then now - amount else now
    case UsePermit(permit) => if o == Wallet(permit.owner) && s == permit.spender then permit.value else now
    case Deposit(amount) => if o == Wallet(from) && s == EscrowContract then now - amount else now
    case DepositWithPermit(client, amount, permit) =>
      (if PermitGood(x, permit) && o == Wallet(permit.owner) && s == permit.spender then permit.value else now)
      - if o == Wallet(client) && s == EscrowContract then amount else 0
    case _ => now
  }

  /** Signed by its owner for exactly this, at the owner's current nonce, and not too late. */
  predicate PermitGood(x: State, p: Permit) {
    x.t <= p.deadline
    && p.signature == SignedBy(p.owner, PermitDigest(p.owner, p.spender, p.value, x.token.nonces.At(p.owner), p.deadline))
  }

  lemma PermitGoodIff(x: State, p: Permit)
    ensures PermitRule(x.token, x.t, p).Ok? <==> PermitGood(x, p)
  {}

  /** How far a call moves the permit nonce of a, and its authorisation nonce. */
  function PermitNonceChange(x: State, c: Call, a: Actor): nat {
    match c
    case UsePermit(permit) => if permit.owner == a then 1 else 0
    case DepositWithPermit(_, _, permit) => if PermitGood(x, permit) && permit.owner == a then 1 else 0
    case _ => 0
  }

  function AuthNonceChange(c: Call, a: Actor): nat {
    match c
    case WithdrawWithSig(auth, _) => if auth.from == a then 1 else 0
    case TransferDeposit(auth, _) => if auth.from == a then 1 else 0
    case _ => 0
  }

  lemma TokenMovesAllowances(x: State, from: Actor, c: Call, o: Holder, s: Holder)
    requires PartOf(c) == OnToken && ApplyToken(x.token, x.treasury, x.t, from, c).Ok?
    ensures Allowance(ApplyToken(x.token, x.treasury, x.t, from, c).value, o, s) == AllowanceAfter(x, from, c, o, s)
  {}

  lemma CreditSpends(f: Funds, client: Actor, amount: nat, o: Holder, s: Holder)
    requires DepositRule(f, client, amount).Ok?
    ensures Allowance(DepositRule(f, client, amount).value.token, o, s)
            == Allowance(f.token, o, s) - if o == Wallet(client) && s == EscrowContract then amount else 0
    ensures DepositRule(f, client, amount).value.token.nonces == f.token.nonces
  {}

  lemma PermitGrantsOrNot(x: State, p: Permit, o: Holder, s: Holder, a: Actor)
    ensures Allowance(AfterPermit(x.token, x.t, p), o, s)
            == if PermitGood(x, p) && o == Wallet(p.owner) && s == p.spender then p.value else Allowance(x.token, o, s)
    ensures AfterPermit(x.token, x.t, p).nonces.At(a) == x.token.nonces.At(a) + if PermitGood(x, p) && p.owner == a then 1 else 0
  {
    PermitGoodIff(x, p);
  }

  /** Withdrawals, settlements, claims and prices touch no grant. */
  lemma OtherFundsKeepGrants(f: Funds, feeBps: nat, t: nat, from: Actor, c: Call)
    requires PartOf(c) == OnFunds && !PaysIn(c) && ApplyFunds(f, feeBps, t, from, c).Ok?
    ensures ApplyFunds(f, feeBps, t, from, c).value.token.allow == f.token.allow
    ensures ApplyFunds(f, feeBps, t, from, c).value.token.nonces == f.token.nonces
  {}

  lemma DepositMovesGrants(x: State, from: Actor, c: Call, o: Holder, s: Holder, a: Actor)
    requires c.Deposit? && DepositRule(FundsOf(x), from, c.amount).Ok?
    ensures GrantsMoved(x, from, c, DepositRule(FundsOf(x), from, c.amount).value.token, o, s, a)
  {
    CreditSpends(FundsOf(x), from, c.amount, o, s);
  }

  lemma PermittedDepositMovesGrants(x: State, from: Actor, c: Call, f: Funds, o: Holder, s: Holder, a: Actor)
    requires c.DepositWithPermit? && f.token == AfterPermit(x.token, x.t, c.permit)
    requires DepositRule(f, c.client, c.amount).Ok?
    ensures GrantsMoved(x, from, c, DepositRule(f, c.client, c.amount).value.token, o, s, a)
  {
    CreditSpends(f, c.client, c.amount, o, s);
    PermitThenSpent(x, from, c, f.token, DepositRule(f, c.client, c.amount).value.token, o, s, a);
  }

  lemma PermitThenSpent(x: State, from: Actor, c: Call, permitted: Token, y: Token, o: Holder, s: Holder, a: Actor)
    requires c.DepositWithPermit? && permitted == AfterPermit(x.token, x.t, c.permit) && y.nonces == permitted.nonces
    requires Allowance(y, o, s)
             == Allowance(permitted, o, s) - if o == Wallet(c.client) && s == EscrowContract then c.amount else 0
    ensures GrantsMoved(x, from, c, y, o, s, a)
  {
    PermitGrantsOrNot(x, c.permit, o, s, a);
    PermittedGrant(x, from, c, o, s);
    PermittedNonce(x, c, a);
  }

  lemma PermittedGrant(x: State, from: Actor, c: Call, o: Holder, s: Holder)
    requires c.DepositWithPermit?
    ensures AllowanceAfter(x, from, c, o, s)
            == (if PermitGood(x, c.permit) && o == Wallet(c.permit.owner) && s == c.permit.spender then c.permit.value
                else Allowance(x.token, o, s))
               - if o == Wallet(c.client) && s == EscrowContract then c.amount else 0
  {}

  lemma PermittedNonce(x: State, c: Call, a: Actor)
    requires c.DepositWithPermit?
    ensures PermitNonceChange(x, c, a) == if PermitGood(x, c.permit) && c.permit.owner == a then 1 else 0
  {}

  lemma PayInMovesGrants(x: State, from: Actor, c: Call, o: Holder, s: Holder, a: Actor)
    requires PaysIn(c) && ApplyFunds(FundsOf(x), x.treasury.feeBps, x.t, from, c).Ok?
    ensures GrantsMoved(x, from, c, ApplyFunds(FundsOf(x), x.treasury.feeBps, x.t, from, c).value.token, o, s, a)
  {
    if c.Deposit? {
      DepositMovesGrants(x, from, c, o, s, a);
    } else {
      PermittedDepositMovesGrants(x, from, c, FundsOf(x).(token := AfterPermit(x.token, x.t, c.permit)), o, s, a);
    }
  }

  lemma FundsGrantNothing(x: State, from: Actor, c: Call, o: Holder, s: Holder, a: Actor)
    requires PartOf(c) == OnFunds && !PaysIn(c)
    ensures AllowanceAfter(x, from, c, o, s) == Allowance(x.token, o, s) && PermitNonceChange(x, c, a) == 0
  {}

  lemma FundsMoveGrants(x: State, from: Actor, c: Call, o: Holder, s: Holder, a: Actor)
    requires PartOf(c) == OnFunds && ApplyFunds(FundsOf(x), x.treasury.feeBps, x.t, from, c).Ok?
    ensures GrantsMoved(x, from, c, ApplyFunds(FundsOf(x), x.treasury.feeBps, x.t, from, c).value.token, o, s, a)
  {
    if PaysIn(c) {
      PayInMovesGrants(x, from, c, o, s, a);
    } else {
      OtherFundsKeepGrants(FundsOf(x), x.treasury.feeBps, x.t, from, c);
      FundsGrantNothing(x, from, c, o, s, a);
    }
  }

  lemma TokenMovesNonces(x: State, from: Actor, c: Call, a: Actor)
    requires PartOf(c) == OnToken && ApplyToken(x.token, x.treasury, x.t, from, c).Ok?
    ensures ApplyToken(x.token, x.treasury, x.t, from, c).value.nonces.At(a) == x.token.nonces.At(a) + PermitNonceChange(x, c, a)
  {}

  lemma TokenCallMovesGrants(x: State, p: Params, from: Actor, c: Call, o: Holder, s: Holder, a: Actor)
    requires PartOf(c) == OnToken && Apply(x, p, from, c).Ok?
    ensures GrantsMoved(x, from, c, Apply(x, p, from, c).value.token, o, s, a)
  {
    TokenMovesAllowances(x, from, c, o, s);
    TokenMovesNonces(x, from, c, a);
  }

  lemma FundsCallMovesGrants(x: State, p: Params, from: Actor, c: Call, o: Holder, s: Holder, a: Actor)
    requires PartOf(c) == OnFunds && Apply(x, p, from, c).Ok?
    ensures GrantsMoved(x, from, c, Apply(x, p, from, c).value.token, o, s, a)
  {
    FundsMoveGrants(x, from, c, o, s, a);
  }

  /** The allowance of s over o's tokens and the permit nonce of a are what the call makes them. */
  ghost predicate GrantsMoved(x: State, from: Actor, c: Call, y: Token, o: Holder, s: Holder, a: Actor) {
    && Allowance(y, o, s) == AllowanceAfter(x, from, c, o, s)
    && y.nonces.At(a) == x.token.nonces.At(a) + PermitNonceChange(x, c, a)
  }

  lemma GrantsNothing(x: State, from: Actor, c: Call, o: Holder, s: Holder, a: Actor)
    requires PartOf(c) != OnToken && PartOf(c) != OnFunds
    ensures AllowanceAfter(x, from, c, o, s) == Allowance(x.token, o, s) && PermitNonceChange(x, c, a) == 0
  {}

  lemma OtherCallKeepsGrants(x: State, p: Params, from: Actor, c: Call, o: Holder, s: Holder, a: Actor)
    requires PartOf(c) != OnToken && PartOf(c) != OnFunds && Apply(x, p, from, c).Ok?
    ensures GrantsMoved(x, from, c, Apply(x, p, from, c).value.token, o, s, a)
  {
    GrantsNothing(x, from, c, o, s, a);
    TokenUntouched(x, p, from, c);
  }

  /** Allowances and permit nonces after a committed call: what was granted, what was spent of it, and nothing else. */
  lemma CallMovesGrants(x: State, p: Params, from: Actor, c: Call, o: Holder, s: Holder, a: Actor)
    requires Apply(x, p, from, c).Ok?
    ensures GrantsMoved(x, from, c, Apply(x, p, from, c).value.token, o, s, a)
  {
    match PartOf(c) {
      case OnToken => TokenCallMovesGrants(x, p, from, c, o, s, a);
      case OnFunds => FundsCallMovesGrants(x, p, from, c, o, s, a);
      case _ => OtherCallKeepsGrants(x, p, from, c, o, s, a);
    }
  }

  // ------------------------------------------------------------------ authorisations

  lemma {:induction false} BatchKeepsAuthNonces(e: Escrow, feeBps: nat, now: nat, ts: seq<Ticket>)
    requires Batch(e, feeBps, now, ts).Ok?
    ensures Batch(e, feeBps, now, ts).value.escrow.authNonces == e.authNonces
    decreases |ts|
  {
    if ts != [] {
      BatchKeepsAuthNonces(e, feeBps, now, ts[..|ts| - 1]);
    }
  }

  lemma OthersKeepAuthNonces(f: Funds, feeBps: nat, t: nat, from: Actor, c: Call)
    requires PartOf(c) == OnFunds && !c.SettleTicketBatch? && !c.WithdrawWithSig? && !c.TransferDeposit?
    requires ApplyFunds(f, feeBps, t, from, c).Ok?
    ensures ApplyFunds(f, feeBps, t, from, c).value.escrow.authNonces == f.escrow.authNonces
  {}

  lemma SignedCallSpendsNonce(x: State, from: Actor, c: Call, a: Actor)
    requires (c.WithdrawWithSig? || c.TransferDeposit?) && ApplyFunds(FundsOf(x), x.treasury.feeBps, x.t, from, c).Ok?
    ensures ApplyFunds(FundsOf(x), x.treasury.feeBps, x.t, from, c).value.escrow.authNonces.At(a)
            == x.escrow.authNonces.At(a) + AuthNonceChange(c, a)
  {}

  lemma FundsMoveAuthNonces(x: State, from: Actor, c: Call, a: Actor)
    requires PartOf(c) == OnFunds && ApplyFunds(FundsOf(x), x.treasury.feeBps, x.t, from, c).Ok?
    ensures ApplyFunds(FundsOf(x), x.treasury.feeBps, x.t, from, c).value.escrow.authNonces.At(a)
            == x.escrow.authNonces.At(a) + AuthNonceChange(c, a)
  {
    if c.SettleTicketBatch? {
      BatchKeepsAuthNonces(x.escrow, x.treasury.feeBps, x.t, c.tickets);
    } else if c.WithdrawWithSig? || c.TransferDeposit? {
      SignedCallSpendsNonce(x, from, c, a);
    } else {
      OthersKeepAuthNonces(FundsOf(x), x.treasury.feeBps, x.t, from, c);
    }
  }

  /** An authorisation spends its signer's nonce, exactly one; nothing else does. */
  lemma CallMovesAuthNonces(x: State, p: Params, from: Actor, c: Call, a: Actor)
    requires Apply(x, p, from, c).Ok?
    ensures Apply(x, p, from, c).value.escrow.authNonces.At(a) == x.escrow.authNonces.At(a) + AuthNonceChange(c, a)
  {
    if PartOf(c) == OnFunds {
      FundsMoveAuthNonces(x, from, c, a);
    } else {
      EscrowBooksUntouched(x, p, from, c);
    }
  }

  // ------------------------------------------------------------------ off chain

  /** What a call outside the contracts does to M-Pesa balances, the kiosk's float, the clock and the phones. */
  function MpesaChange(from: Actor, c: Call, a: Actor): int {
    match c
    case StkPush(amount, _) => if a == from then 0 - amount else 0
    case B2cPayout(payee, amount, _) => if a == payee then amount else 0
    case _ => 0
  }

  function FloatChange(c: Call): int {
    match c
    case StkPush(amount, _) => amount
    case B2cPayout(_, amount, _) => 0 - amount
    case _ => 0
  }

  /** The phone of a after the call: lost by its owner's own call, found by its owner's own restore. */
  predicate LostAfter(x: State, from: Actor, c: Call, a: Actor) {
    match c
    case LoseDevice => a == from || a in x.lost
    case RestoreFromSeed => a != from && a in x.lost
    case _ => a in x.lost
  }

  ghost predicate OffMoves(x: State, from: Actor, c: Call, y: State, a: Actor) {
    && y.mpesa.At(a) == x.mpesa.At(a) + MpesaChange(from, c, a) && y.float == x.float + FloatChange(c)
    && (a in y.lost <==> LostAfter(x, from, c, a))
  }

  predicate MovesFiat(c: Call) { c.StkPush? || c.B2cPayout? }
  predicate MovesPhones(c: Call) { c.LoseDevice? || c.RestoreFromSeed? }

  lemma NoFiatChange(from: Actor, c: Call, a: Actor)
    requires !MovesFiat(c)
    ensures MpesaChange(from, c, a) == 0 == FloatChange(c)
  {}

  lemma NoPhoneChange(x: State, from: Actor, c: Call, a: Actor)
    requires !MovesPhones(c)
    ensures LostAfter(x, from, c, a) <==> a in x.lost
  {}

  lemma FiatMoves(x: State, from: Actor, c: Call, a: Actor)
    requires c.StkPush? && StkPushRule(x, from, c.amount, c.fail).Ok?
    ensures OffMoves(x, from, c, StkPushRule(x, from, c.amount, c.fail).value, a)
  {
    PlusAt(x.mpesa, from, 0 - c.amount, a);
    NoPhoneChange(x, from, c, a);
  }

  lemma PayoutMoves(x: State, from: Actor, c: Call, a: Actor)
    requires c.B2cPayout? && PayoutRule(x, c.payee, c.amount, c.fail).Ok?
    ensures OffMoves(x, from, c, PayoutRule(x, c.payee, c.amount, c.fail).value, a)
  {
    PlusAt(x.mpesa, c.payee, c.amount, a);
    NoPhoneChange(x, from, c, a);
  }

  lemma PhoneLost(x: State, from: Actor, c: Call, a: Actor)
    requires c.LoseDevice?
    ensures OffMoves(x, from, c, x.(lost := x.lost + {from}), a)
  {
    NoFiatChange(from, c, a);
  }

  lemma PhoneRestored(x: State, from: Actor, c: Call, a: Actor)
    requires c.RestoreFromSeed?
    ensures OffMoves(x, from, c, x.(lost := x.lost - {from}), a)
  {
    NoFiatChange(from, c, a);
  }

  lemma PhonesMove(x: State, p: Params, from: Actor, c: Call, a: Actor)
    requires MovesPhones(c) && ApplyOff(x, p, from, c).Ok?
    ensures OffMoves(x, from, c, ApplyOff(x, p, from, c).value, a)
  {
    if c.LoseDevice? {
      PhoneLost(x, from, c, a);
    } else {
      PhoneRestored(x, from, c, a);
    }
  }

  lemma NeitherMoves(x: State, from: Actor, c: Call, y: State, a: Actor)
    requires !MovesFiat(c) && !MovesPhones(c) && y.mpesa == x.mpesa && y.float == x.float && y.lost == x.lost
    ensures OffMoves(x, from, c, y, a)
  {
    NoFiatChange(from, c, a);
    NoPhoneChange(x, from, c, a);
  }

  lemma OtherOffKeeps(x: State, p: Params, from: Actor, c: Call)
    requires PartOf(c) == OffContracts && !MovesFiat(c) && !MovesPhones(c) && ApplyOff(x, p, from, c).Ok?
    ensures var y := ApplyOff(x, p, from, c).value;
            y.mpesa == x.mpesa && y.float == x.float && y.lost == x.lost
  {}

  lemma OffCallMoves(x: State, p: Params, from: Actor, c: Call, a: Actor)
    requires PartOf(c) == OffContracts && ApplyOff(x, p, from, c).Ok?
    ensures OffMoves(x, from, c, ApplyOff(x, p, from, c).value, a)
  {
    if c.StkPush? {
      FiatMoves(x, from, c, a);
    } else if c.B2cPayout? {
      PayoutMoves(x, from, c, a);
    } else if MovesPhones(c) {
      PhonesMove(x, p, from, c, a);
    } else {
      OtherOffKeeps(x, p, from, c);
      NeitherMoves(x, from, c, ApplyOff(x, p, from, c).value, a);
    }
  }

  lemma OnChainKeepsFiat(x: State, p: Params, from: Actor, c: Call)
    requires PartOf(c) != OffContracts && Apply(x, p, from, c).Ok?
    ensures var y := Apply(x, p, from, c).value;
            y.mpesa == x.mpesa && y.float == x.float && y.lost == x.lost
  {
    if PartOf(c) == OnOwners {
      OwnersFrame(x, p, from, c);
    }
  }

  lemma OnChainMovesNeither(c: Call)
    requires PartOf(c) != OffContracts
    ensures !MovesFiat(c) && !MovesPhones(c)
  {}

  /** Fiat and phones after any committed call. */
  lemma CallMovesOffChain(x: State, p: Params, from: Actor, c: Call, a: Actor)
    requires Apply(x, p, from, c).Ok?
    ensures OffMoves(x, from, c, Apply(x, p, from, c).value, a)
  {
    if PartOf(c) == OffContracts {
      OffCallMoves(x, p, from, c, a);
    } else {
      OnChainKeepsFiat(x, p, from, c);
      OnChainMovesNeither(c);
      NeitherMoves(x, from, c, Apply(x, p, from, c).value, a);
    }
  }

  // ------------------------------------------------------------------ ether

  /** What a request does to the ether of a: gas from its payer, and what fundGas sends on. */
  function EtherChange(w: World, r: Request, a: Actor): real {
    if StatusOf(w, r) == Rejected then 0.0
    else
      (if OnChain(r.call) && a == r.from then 0.0 - CostOf(w, r) else 0.0)
      + if StatusOf(w, r) == Committed then FundedChange(r.call, a) else 0.0
  }

  function FundedChange(c: Call, a: Actor): real {
    match c
    case FundGas(payee, gwei) => (if a == Kiosk then 0.0 - gwei as real else 0.0) + if a == payee then gwei as real else 0.0
    case _ => 0.0
  }

  lemma FundMoves(x: State, payee: Actor, gwei: nat, a: Actor)
    requires FundGasRule(x, payee, gwei).Ok?
    ensures FundGasRule(x, payee, gwei).value.eth.At(a) == x.eth.At(a) + FundedChange(FundGas(payee, gwei), a)
  {
    EtherAt(x.eth, Kiosk, 0.0 - gwei as real, a);
    EtherAt(x.eth.Plus(Kiosk, 0.0 - gwei as real), payee, gwei as real, a);
  }

  lemma OutMoves(w: World, r: Request, a: Actor)
    ensures Out(w, r).eth.At(a)
            == w.state.eth.At(a)
               + if Apply(Ticked(w.state, r.call), w.params, r.from, r.call).Ok? then FundedChange(r.call, a) else 0.0
  {
    var x := Ticked(w.state, r.call);
    if Apply(x, w.params, r.from, r.call).Ok? {
      if r.call.FundGas? {
        FundMoves(x, r.call.payee, r.call.gwei, a);
      } else {
        BodyKeepsEther(x, w.params, r.from, r.call);
      }
    }
  }

  /** Whose ether a request moves: exactly these. */
  lemma StepMovesEther(w: World, env: Env, r: Request, a: Actor)
    ensures Step(w, env, r).state.eth.At(a) == w.state.eth.At(a) + EtherChange(w, r, a)
  {
    OutMoves(w, r, a);
    EtherAt(Out(w, r).eth, r.from, 0.0 - CostOf(w, r), a);
  }
}
