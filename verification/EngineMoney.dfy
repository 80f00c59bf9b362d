/** Where the money is: every committed call keeps supply equal to the balances and the escrow able to pay what it owes. */
module EngineMoney {
  import opened Options
  import opened EngineTypes
  import opened Settlement
  import opened SettlementTheorems
  import opened EngineRules

  ghost predicate Balanced(tk: Token) { TotalOf(tk.bal) == tk.supply && NonNegative(tk.bal) }

  /** Contracts hold no key, so they never approve anyone. */
  ghost predicate OnlyWalletsGrant(tk: Token) {
    forall s: Holder :: Allowance(tk, EscrowContract, s) == 0 && Allowance(tk, TreasuryContract, s) == 0
  }

  /** What the escrow holds beyond what it owes to clients and nodes. */
  ghost function Surplus(f: Funds): int {
    f.token.bal.At(EscrowContract) - TotalOf(f.escrow.deposits) - TotalOf(f.escrow.earnings)
  }

  ghost predicate Funded(f: Funds) {
    && Balanced(f.token) && OnlyWalletsGrant(f.token)
    && NonNegative(f.escrow.deposits) && NonNegative(f.escrow.earnings) && Surplus(f) >= 0
  }

  ghost predicate Sound(x: State) {
    Funded(FundsOf(x)) && x.treasury.feeBps <= 10_000 && NonNegative(x.mpesa) && x.float >= 0
  }

  /** Tokens a call sends to the escrow's own address without crediting anyone. */
  function Donation(x: State, c: Call): int {
    match c
    case BridgeMint(to, amount) => Gift(to, amount)
    case Transfer(to, amount) => Gift(to, amount)
    case TransferFrom(_, to, amount) => Gift(to, amount)
    case WithdrawWithSig(auth, dest) => if dest.Some? then Gift(dest.value, auth.amount) else 0
    case ClaimEarnings(to, amount) => Gift(to, amount)
    case Claim => if x.treasury.beneficiary.Some?
                  then Gift(x.treasury.beneficiary.value, x.token.bal.At(TreasuryContract)) else 0
    case _ => 0
  }

  function Gift(to: Holder, amount: int): int { if to == EscrowContract then amount else 0 }

  // ------------------------------------------------------------------ balances

  lemma PlusKeeps<K(!new)>(p: Purse<K>, k: K, n: int)
    requires NonNegative(p) && p.At(k) + n >= 0
    ensures NonNegative(p.Plus(k, n))
  {
    forall j: K
      ensures p.Plus(k, n).At(j) >= 0
    {
      PlusAt(p, k, n, j);
      assert p.At(j) >= 0;
    }
  }

  /** Taking from one key and giving to another, possibly the same one. */
  lemma ShiftKeeps<K(!new)>(p: Purse<K>, from: K, to: K, n: int)
    requires NonNegative(p) && 0 <= n <= p.At(from)
    ensures NonNegative(p.Minus(from, n).Plus(to, n))
    ensures TotalOf(p.Minus(from, n).Plus(to, n)) == TotalOf(p)
  {
    PlusKeeps(p, from, -n);
    PlusSum(p, from, -n);
    assert p.Minus(from, n).At(to) >= 0;
    PlusKeeps(p.Minus(from, n), to, n);
    PlusSum(p.Minus(from, n), to, n);
  }

  lemma ShiftAt<K>(p: Purse<K>, from: K, to: K, n: int, k: K)
    ensures p.Minus(from, n).Plus(to, n).At(k)
            == p.At(k) - (if k == from then n else 0) + if k == to then n else 0
  {
    PlusAt(p, from, -n, k);
    PlusAt(p.Minus(from, n), to, n, k);
  }

  lemma MovedKeeps(tk: Token, from: Holder, to: Holder, n: int)
    requires Balanced(tk) && 0 <= n <= tk.bal.At(from)
    ensures Balanced(Moved(tk, from, to, n))
    ensures Moved(tk, from, to, n).bal.At(EscrowContract) == tk.bal.At(EscrowContract) - Gift(from, n) + Gift(to, n)
  {
    ShiftKeeps(tk.bal, from, to, n);
    ShiftAt(tk.bal, from, to, n, EscrowContract);
  }

  lemma GrantKept(tk: Token, owner: Holder, spender: Holder, n: nat)
    requires OnlyWalletsGrant(tk) && (owner.Wallet? || n == 0)
    ensures OnlyWalletsGrant(tk.(allow := tk.allow[Grant(owner, spender) := n]))
  {
    var y := tk.(allow := tk.allow[Grant(owner, spender) := n]);
    forall s: Holder
      ensures Allowance(y, EscrowContract, s) == 0 && Allowance(y, TreasuryContract, s) == 0
    {
      assert Allowance(tk, EscrowContract, s) == 0 && Allowance(tk, TreasuryContract, s) == 0;
    }
  }

  lemma SameAllow(tk: Token, y: Token)
    requires OnlyWalletsGrant(tk) && y.allow == tk.allow
    ensures OnlyWalletsGrant(y)
  {
    forall s: Holder
      ensures Allowance(y, EscrowContract, s) == 0 && Allowance(y, TreasuryContract, s) == 0
    {
      assert Allowance(tk, EscrowContract, s) == 0 && Allowance(tk, TreasuryContract, s) == 0;
    }
  }

  // ------------------------------------------------------------------ token calls

  lemma MintMoney(tk: Token, t: nat, from: Actor, to: Holder, amount: nat)
    requires Balanced(tk) && OnlyWalletsGrant(tk) && MintRule(tk, t, from, to, amount).Ok?
    ensures var y := MintRule(tk, t, from, to, amount).value;
            && Balanced(y) && OnlyWalletsGrant(y)
            && y.bal.At(EscrowContract) == tk.bal.At(EscrowContract) + Gift(to, amount)
  {
    assert tk.bal.At(to) >= 0;
    PlusKeeps(tk.bal, to, amount);
    PlusSum(tk.bal, to, amount);
    PlusAt(tk.bal, to, amount, EscrowContract);
    SameAllow(tk, MintRule(tk, t, from, to, amount).value);
  }

  lemma BurnMoney(tk: Token, from: Actor, amount: nat)
    requires Balanced(tk) && OnlyWalletsGrant(tk) && BurnRule(tk, from, amount).Ok?
    ensures var y := BurnRule(tk, from, amount).value;
            Balanced(y) && OnlyWalletsGrant(y) && y.bal.At(EscrowContract) == tk.bal.At(EscrowContract)
  {
    PlusKeeps(tk.bal, Wallet(from), 0 - amount);
    PlusSum(tk.bal, Wallet(from), 0 - amount);
    PlusAt(tk.bal, Wallet(from), 0 - amount, EscrowContract);
    SameAllow(tk, BurnRule(tk, from, amount).value);
  }

  lemma MoveMoney(tk: Token, from: Holder, to: Holder, amount: nat)
    requires Balanced(tk) && OnlyWalletsGrant(tk) && MoveRule(tk, from, to, amount).Ok?
    ensures var y := MoveRule(tk, from, to, amount).value;
            && Balanced(y) && OnlyWalletsGrant(y)
            && y.bal.At(EscrowContract) == tk.bal.At(EscrowContract) - Gift(from, amount) + Gift(to, amount)
  {
    MovedKeeps(tk, from, to, amount);
    SameAllow(tk, Moved(tk, from, to, amount));
  }

  /** An allowance spent is an allowance granted, so only a wallet's tokens move. */
  lemma SpendAndMoveMoney(tk: Token, owner: Holder, spender: Holder, to: Holder, amount: nat)
    requires Balanced(tk) && OnlyWalletsGrant(tk) && SpendAndMove(tk, owner, spender, to, amount).Ok?
    ensures var y := SpendAndMove(tk, owner, spender, to, amount).value;
            && Balanced(y) && OnlyWalletsGrant(y)
            && y.bal.At(EscrowContract) == tk.bal.At(EscrowContract) + Gift(to, amount)
  {
    assert Allowance(tk, EscrowContract, spender) == 0 && Allowance(tk, TreasuryContract, spender) == 0;
    GrantKept(tk, owner, spender, Allowance(tk, owner, spender) - amount);
    MoveMoney(SpendRule(tk, owner, spender, amount).value, owner, to, amount);
  }

  lemma PermitMoney(tk: Token, t: nat, p: Permit)
    requires Balanced(tk) && OnlyWalletsGrant(tk)
    ensures var y := AfterPermit(tk, t, p);
            Balanced(y) && OnlyWalletsGrant(y) && y.bal == tk.bal
  {
    GrantKept(tk, Wallet(p.owner), p.spender, p.value);
    if PermitRule(tk, t, p).Ok? {
      SameAllow(tk.(allow := tk.allow[Grant(Wallet(p.owner), p.spender) := p.value]), PermitRule(tk, t, p).value);
    }
  }

  lemma TokenMoney(x: State, from: Actor, c: Call)
    requires Balanced(x.token) && OnlyWalletsGrant(x.token) && PartOf(c) == OnToken
    requires ApplyToken(x.token, x.treasury, x.t, from, c).Ok?
    ensures var y := ApplyToken(x.token, x.treasury, x.t, from, c).value;
            && Balanced(y) && OnlyWalletsGrant(y)
            && y.bal.At(EscrowContract) == x.token.bal.At(EscrowContract) + Donation(x, c)
  {
    var tk := x.token;
    match c {
      case CreateToken => SameAllow(tk, tk.(owner := Some(Owner)));
      case SetBridge(bridge, allowed, cap) => SameAllow(tk, SetBridgeRule(tk, from, bridge, allowed, cap).value);
      case BridgeMint(to, amount) => MintMoney(tk, x.t, from, to, amount);
      case BridgeBurn(amount) => BurnMoney(tk, from, amount);
      case Approve(spender, amount) => GrantKept(tk, Wallet(from), spender, amount);
      case Transfer(to, amount) => MoveMoney(tk, Wallet(from), to, amount);
      case TransferFrom(owner, to, amount) => SpendAndMoveMoney(tk, owner, Wallet(from), to, amount);
      case UsePermit(permit) => PermitMoney(tk, x.t, permit);
      case Claim => ClaimMoney(tk, x.treasury);
    }
  }

  lemma ClaimMoney(tk: Token, tr: Treasury)
    requires Balanced(tk) && OnlyWalletsGrant(tk) && ClaimRule(tk, tr).Ok?
    ensures var y := ClaimRule(tk, tr).value;
            && Balanced(y) && OnlyWalletsGrant(y)
            && y.bal.At(EscrowContract)
               == tk.bal.At(EscrowContract) + Gift(tr.beneficiary.value, tk.bal.At(TreasuryContract))
  {
    var amount := tk.bal.At(TreasuryContract);
    MovedKeeps(tk, TreasuryContract, tr.beneficiary.value, amount);
    SameAllow(tk, Moved(tk, TreasuryContract, tr.beneficiary.value, amount));
  }

  // ------------------------------------------------------------------ escrow calls

  lemma DepositMoney(f: Funds, client: Actor, amount: nat)
    requires Funded(f) && DepositRule(f, client, amount).Ok?
    ensures Funded(DepositRule(f, client, amount).value) && Surplus(DepositRule(f, client, amount).value) == Surplus(f)
  {
    SpendAndMoveMoney(f.token, Wallet(client), EscrowContract, EscrowContract, amount);
    assert f.escrow.deposits.At(client) >= 0;
    PlusKeeps(f.escrow.deposits, client, amount);
    PlusSum(f.escrow.deposits, client, amount);
  }

  lemma PermitFunds(f: Funds, t: nat, p: Permit)
    requires Funded(f)
    ensures Funded(f.(token := AfterPermit(f.token, t, p))) && Surplus(f.(token := AfterPermit(f.token, t, p))) == Surplus(f)
  {
    PermitMoney(f.token, t, p);
  }

  /** A deposit is part of what the escrow holds, so paying it out never overdraws the escrow. */
  lemma ReleaseMoney(f: Funds, client: Actor, to: Holder, amount: nat)
    requires Funded(f) && amount <= f.escrow.deposits.At(client)
    ensures Funded(Released(f, client, to, amount))
    ensures Surplus(Released(f, client, to, amount)) == Surplus(f) + Gift(to, amount)
  {
    NonNegativeSum(f.escrow.deposits, client);
    NonNegativeSum(f.escrow.earnings, client);
    MovedKeeps(f.token, EscrowContract, to, amount);
    SameAllow(f.token, Moved(f.token, EscrowContract, to, amount));
    PlusKeeps(f.escrow.deposits, client, 0 - amount);
    PlusSum(f.escrow.deposits, client, 0 - amount);
  }

  lemma WithSigMoney(f: Funds, t: nat, a: Auth, dest: Option<Holder>)
    requires Funded(f) && WithdrawWithSigRule(f, t, a, dest).Ok?
    ensures Funded(WithdrawWithSigRule(f, t, a, dest).value)
    ensures Surplus(WithdrawWithSigRule(f, t, a, dest).value) == Surplus(f) + Gift(dest.value, a.amount)
  {
    var e := f.escrow.(authNonces := f.escrow.authNonces.Next(a.from));
    ReleaseMoney(f.(escrow := e), a.from, dest.value, a.amount);
  }

  lemma TransferDepositMoney(f: Funds, t: nat, a: Auth, to: Option<Actor>)
    requires Funded(f) && TransferDepositRule(f, t, a, to).Ok?
    ensures Funded(TransferDepositRule(f, t, a, to).value)
    ensures Surplus(TransferDepositRule(f, t, a, to).value) == Surplus(f)
  {
    ShiftKeeps(f.escrow.deposits, a.from, to.value, a.amount);
  }

  lemma ClaimEarningsMoney(f: Funds, from: Actor, to: Holder, amount: nat)
    requires Funded(f) && ClaimEarningsRule(f, from, to, amount).Ok?
    ensures Funded(ClaimEarningsRule(f, from, to, amount).value)
    ensures Surplus(ClaimEarningsRule(f, from, to, amount).value) == Surplus(f) + Gift(to, amount)
  {
    NonNegativeSum(f.escrow.deposits, from);
    NonNegativeSum(f.escrow.earnings, from);
    MovedKeeps(f.token, EscrowContract, to, amount);
    SameAllow(f.token, Moved(f.token, EscrowContract, to, amount));
    PlusKeeps(f.escrow.earnings, from, 0 - amount);
    PlusSum(f.escrow.earnings, from, 0 - amount);
  }

  lemma GrowsNonNegative(m: Purse<Actor>, n: Purse<Actor>)
    requires NonNegative(m) && Grows(m, n)
    ensures NonNegative(n)
  {
    forall a: Actor
      ensures n.At(a) >= 0
    {
      assert 0 <= m.At(a) <= n.At(a);
    }
  }

  /** The fee transfer at the end of a batch: what the escrow holds covers it, because the fee left the deposits. */
  lemma SettleMoney(f: Funds, feeBps: nat, t: nat, tickets: seq<Ticket>)
    requires Funded(f) && feeBps <= 10_000 && SettleRule(f, feeBps, t, tickets).Ok?
    ensures Funded(SettleRule(f, feeBps, t, tickets).value)
    ensures Surplus(SettleRule(f, feeBps, t, tickets).value) == Surplus(f)
  {
    var y := Batch(f.escrow, feeBps, t, tickets).value;
    BatchConserves(f.escrow, feeBps, t, tickets);
    assert NonNegative(y.escrow.deposits);
    GrowsNonNegative(f.escrow.earnings, y.escrow.earnings);
    NonNegativeSum(y.escrow.deposits, Owner);
    NonNegativeSum(y.escrow.earnings, Owner);
    MovedKeeps(f.token, EscrowContract, TreasuryContract, y.fee);
    SameAllow(f.token, Moved(f.token, EscrowContract, TreasuryContract, y.fee));
  }

  lemma FundsMoney(x: State, from: Actor, c: Call)
    requires Sound(x) && PartOf(c) == OnFunds && ApplyFunds(FundsOf(x), x.treasury.feeBps, x.t, from, c).Ok?
    ensures var y := ApplyFunds(FundsOf(x), x.treasury.feeBps, x.t, from, c).value;
            Funded(y) && Surplus(y) == Surplus(FundsOf(x)) + Donation(x, c)
  {
    var f := FundsOf(x);
    match c {
      case Deposit(amount) => DepositMoney(f, from, amount);
      case DepositWithPermit(client, amount, permit) =>
        PermitFunds(f, x.t, permit);
        DepositMoney(f.(token := AfterPermit(f.token, x.t, permit)), client, amount);
      case WithdrawDeposit(amount) => ReleaseMoney(f, from, Wallet(from), amount);
      case WithdrawWithSig(auth, dest) => WithSigMoney(f, x.t, auth, dest);
      case TransferDeposit(auth, receiver) => TransferDepositMoney(f, x.t, auth, receiver);
      case SettleTicketBatch(tickets) => SettleMoney(f, x.treasury.feeBps, x.t, tickets);
      case ClaimEarnings(to, amount) => ClaimEarningsMoney(f, from, to, amount);
      case SetPricePerUnit(_) =>
    }
  }

  // ------------------------------------------------------------------ all calls

  /** The facts a call must establish: the money is still sound, and the surplus grew by exactly the donation. */
  ghost predicate Keeps(x: State, c: Call, y: State) { Sound(y) && Surplus(FundsOf(y)) == Surplus(FundsOf(x)) + Donation(x, c) }

  lemma TokenCallMoney(x: State, p: Params, from: Actor, c: Call)
    requires Sound(x) && PartOf(c) == OnToken && Apply(x, p, from, c).Ok?
    ensures Keeps(x, c, Apply(x, p, from, c).value)
  {
    TokenMoney(x, from, c);
  }

  lemma FundsCallMoney(x: State, p: Params, from: Actor, c: Call)
    requires Sound(x) && PartOf(c) == OnFunds && Apply(x, p, from, c).Ok?
    ensures Keeps(x, c, Apply(x, p, from, c).value)
  {
    FundsMoney(x, from, c);
  }

  lemma OwnersMoney(x: State, c: Call, y: State)
    requires Sound(x) && PartOf(c) == OnOwners && OnlyOwners(x, y)
    ensures Keeps(x, c, y)
  {
    SameAllow(x.token, y.token);
  }

  lemma TreasuryMoney(x: State, p: Params, from: Actor, c: Call)
    requires Sound(x) && p.feeBps <= 10_000 && PartOf(c) == OnTreasury
    requires ApplyTreasury(x.treasury, p, x.t, from, c).Ok?
    ensures Keeps(x, c, x.(treasury := ApplyTreasury(x.treasury, p, x.t, from, c).value))
  {}

  lemma OffMoney(x: State, p: Params, from: Actor, c: Call)
    requires Sound(x) && PartOf(c) == OffContracts && ApplyOff(x, p, from, c).Ok?
    ensures Keeps(x, c, ApplyOff(x, p, from, c).value)
  {
    OffFrame(x, p, from, c);
    if c.StkPush? {
      PlusKeeps(x.mpesa, from, 0 - c.amount);
    } else if c.B2cPayout? {
      assert x.mpesa.At(c.payee) >= 0;
      PlusKeeps(x.mpesa, c.payee, c.amount);
    }
  }

  /**
   Conservation and solvency, one call at a time: the balances add up to the supply, none is negative, and the escrow
   exceeds what it owes by exactly what was sent to its address without credit.
   */
  lemma ApplyMoney(x: State, p: Params, from: Actor, c: Call)
    requires Sound(x) && p.feeBps <= 10_000 && Apply(x, p, from, c).Ok?
    ensures Keeps(x, c, Apply(x, p, from, c).value)
  {
    match PartOf(c) {
      case OnToken => TokenCallMoney(x, p, from, c);
      case OnFunds => FundsCallMoney(x, p, from, c);
      case OnTreasury => TreasuryMoney(x, p, from, c);
      case OnOwners =>
        OwnersFrame(x, p, from, c);
        OwnersMoney(x, c, Apply(x, p, from, c).value);
      case OffContracts => OffMoney(x, p, from, c);
    }
  }
}
