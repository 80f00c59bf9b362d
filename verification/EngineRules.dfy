/** The rules of web/src/demo/engine.js, one function per call body. The class in module Engine runs the same rules in place. */
module EngineRules {
  import opened Options
  import opened EngineTypes
  import opened Settlement
  import opened Quote

  const DAY := 86_400
  const MIN_PRICE := 1
  const MAX_PRICE := 50_000
  const MAX_FEE_BPS := 1000
  const TIMELOCK := 7 * 86_400

  datatype Params = Params(pricePerUnit: nat, feeBps: nat, epochSeconds: nat, gasPrice: real)

  /** What a call body may touch. */
  datatype State = State(t: nat, deployed: bool, token: Token, escrow: Escrow, treasury: Treasury,
                         mpesa: Purse<Actor>, float: int, eth: Ether, book: seq<Shelf>, lost: set<Actor>)

  datatype Contract = TheToken | TheEscrow | TheTreasury

  datatype Call =
    | CreateToken | CreateTreasury | CreateEscrow
    | SetBridge(bridge: Actor, allowed: bool, cap: nat)
    | BridgeMint(to: Holder, amount: nat)
    | BridgeBurn(amount: nat)
    | Approve(spender: Holder, amount: nat)
    | Transfer(to: Holder, amount: nat)
    | TransferFrom(owner: Holder, to: Holder, amount: nat)
    | UsePermit(permit: Permit)
    | Deposit(amount: nat)
    | DepositWithPermit(client: Actor, amount: nat, permit: Permit)
    | WithdrawDeposit(amount: nat)
    | WithdrawWithSig(auth: Auth, dest: Option<Holder>)
    | TransferDeposit(auth: Auth, receiver: Option<Actor>)
    | SettleTicketBatch(tickets: seq<Ticket>)
    | ClaimEarnings(to: Holder, amount: nat)
    | SetPricePerUnit(price: nat)
    | Claim
    | SetFeeBps(feeBps: nat)
    | QueueBeneficiary(next: Holder)
    | ActivateBeneficiary
    | CancelBeneficiaryChange
    | TransferOwnership(contract: Contract, newOwner: Actor)
    | AcceptOwnership(contract: Contract)
    | FundGas(payee: Actor, gwei: nat)
    | SignTicket(client: Actor, nodeAdmin: Actor, cumulativeUnits: nat)
    | StkPush(amount: nat, fail: bool)
    | B2cPayout(payee: Actor, amount: nat, fail: bool)
    | Warp(seconds: nat)
    | LoseDevice
    | RestoreFromSeed

  predicate OnChain(c: Call) {
    !(c.SignTicket? || c.StkPush? || c.B2cPayout? || c.Warp? || c.LoseDevice? || c.RestoreFromSeed?)
  }

  // ------------------------------------------------------------------ token

  function BridgeOf(tk: Token, b: Actor): Bridge {
    if b in tk.bridges then tk.bridges[b] else Bridge(false, 0, 0, 0)
  }

  function Allowance(tk: Token, owner: Holder, spender: Holder): nat {
    if Grant(owner, spender) in tk.allow then tk.allow[Grant(owner, spender)] else 0
  }

  function SetBridgeRule(tk: Token, from: Actor, bridge: Actor, allowed: bool, cap: nat): Result<Token> {
    if tk.owner != Some(from) then Err(OwnableUnauthorizedAccount)
    else Ok(tk.(bridges := tk.bridges[bridge := BridgeOf(tk, bridge).(allowed := allowed, cap := cap)]))
  }

  /** The mint window at time t: a day after it opened, the next mint opens a new one. */
  function Window(b: Bridge, t: nat): Bridge { if t >= b.windowStart + DAY then b.(windowStart := t, minted := 0) else b }

  function MintFrom(b: Bridge, t: nat, amount: nat): Result<Bridge> {
    if !b.allowed then Err(NotBridge)
    else
      var w := Window(b, t);
      if w.minted + amount > w.cap then Err(MintCapExceeded)
      else Ok(w.(minted := w.minted + amount))
  }

  function MintRule(tk: Token, t: nat, from: Actor, to: Holder, amount: nat): Result<Token> {
    var b :- MintFrom(BridgeOf(tk, from), t, amount);
    Ok(tk.(bridges := tk.bridges[from := b], supply := tk.supply + amount, bal := tk.bal.Plus(to, amount)))
  }

  function BurnRule(tk: Token, from: Actor, amount: nat): Result<Token> {
    if !BridgeOf(tk, from).allowed then Err(NotBridge)
    else if tk.bal.At(Wallet(from)) < amount then Err(ERC20InsufficientBalance)
    else Ok(tk.(bal := tk.bal.Minus(Wallet(from), amount), supply := tk.supply - amount))
  }

  function ApproveRule(tk: Token, owner: Actor, spender: Holder, amount: nat): Token {
    tk.(allow := tk.allow[Grant(Wallet(owner), spender) := amount])
  }

  function Moved(tk: Token, from: Holder, to: Holder, amount: int): Token {
    tk.(bal := tk.bal.Minus(from, amount).Plus(to, amount))
  }

  function MoveRule(tk: Token, from: Holder, to: Holder, amount: nat): Result<Token> {
    if tk.bal.At(from) < amount then Err(ERC20InsufficientBalance)
    else Ok(Moved(tk, from, to, amount))
  }

  function SpendRule(tk: Token, owner: Holder, spender: Holder, amount: nat): Result<Token> {
    if Allowance(tk, owner, spender) < amount then Err(ERC20InsufficientAllowance)
    else Ok(tk.(allow := tk.allow[Grant(owner, spender) := Allowance(tk, owner, spender) - amount]))
  }

  function SpendAndMove(tk: Token, owner: Holder, spender: Holder, to: Holder, amount: nat): Result<Token> {
    var spent :- SpendRule(tk, owner, spender, amount);
    MoveRule(spent, owner, to, amount)
  }

  function PermitRule(tk: Token, t: nat, p: Permit): Result<Token> {
    if t > p.deadline then Err(ERC2612ExpiredSignature)
    else
      var d := PermitDigest(p.owner, p.spender, p.value, tk.nonces.At(p.owner), p.deadline);
      if Recover(d, p.signature) != Some(p.owner) then Err(ERC2612InvalidSigner)
      else Ok(tk.(nonces := tk.nonces.Next(p.owner), allow := tk.allow[Grant(Wallet(p.owner), p.spender) := p.value]))
  }

  // ------------------------------------------------------------------ escrow

  /** The two contracts an escrow call may change. */
  datatype Funds = Funds(token: Token, escrow: Escrow)

  function DepositRule(f: Funds, client: Actor, amount: nat): Result<Funds> {
    if amount <= 0 then Err(ZeroAmount)
    else
      var tk :- SpendAndMove(f.token, Wallet(client), EscrowContract, EscrowContract, amount);
      Ok(Funds(tk, f.escrow.(deposits := f.escrow.deposits.Plus(client, amount))))
  }

  /** The permit may fail: the deposit then goes on with the allowance there is. */
  function AfterPermit(tk: Token, t: nat, p: Permit): Token {
    var r := PermitRule(tk, t, p);
    if r.Ok? then r.value else tk
  }

  function Released(f: Funds, client: Actor, to: Holder, amount: int): Funds {
    Funds(Moved(f.token, EscrowContract, to, amount), f.escrow.(deposits := f.escrow.deposits.Minus(client, amount)))
  }

  function WithdrawRule(f: Funds, from: Actor, amount: nat): Result<Funds> {
    if amount <= 0 then Err(ZeroAmount)
    else if f.escrow.deposits.At(from) < amount then Err(InsufficientDeposit)
    else Ok(Released(f, from, Wallet(from), amount))
  }

  /** _useAuthorization: deadline, signer at the current nonce, then the nonce is spent. */
  function UseAuth(e: Escrow, t: nat, from: Actor, deadline: nat, d: Digest, sig: Signature): Result<Escrow> {
    if t > deadline then Err(AuthorizationExpired)
    else if Recover(d, sig) != Some(from) then Err(BadAuthorization)
    else Ok(e.(authNonces := e.authNonces.Next(from)))
  }

  function WithdrawWithSigRule(f: Funds, t: nat, a: Auth, dest: Option<Holder>): Result<Funds> {
    if a.amount <= 0 then Err(ZeroAmount)
    else if dest.None? then Err(ZeroAddress)
    else
      var d := WithdrawDigest(a.from, dest.value, a.amount, f.escrow.authNonces.At(a.from), a.deadline);
      var e :- UseAuth(f.escrow, t, a.from, a.deadline, d, a.signature);
      if e.deposits.At(a.from) < a.amount then Err(InsufficientDeposit)
      else Ok(Released(f.(escrow := e), a.from, dest.value, a.amount))
  }

  function TransferDepositRule(f: Funds, t: nat, a: Auth, to: Option<Actor>): Result<Funds> {
    if a.amount <= 0 then Err(ZeroAmount)
    else if to.None? then Err(ZeroAddress)
    else
      var d := TransferDigest(a.from, to.value, a.amount, f.escrow.authNonces.At(a.from), a.deadline);
      var e :- UseAuth(f.escrow, t, a.from, a.deadline, d, a.signature);
      if e.deposits.At(a.from) < a.amount then Err(InsufficientDeposit)
      else Ok(f.(escrow := e.(deposits := e.deposits.Minus(a.from, a.amount).Plus(to.value, a.amount))))
  }

  function SettleRule(f: Funds, feeBps: nat, t: nat, tickets: seq<Ticket>): Result<Funds> {
    if |tickets| <= 0 then Err(EmptyBatch)
    else
      var y :- Batch(f.escrow, feeBps, t, tickets);
      if y.gross <= 0 then Err(ZeroAmount)
      else Ok(Funds(if y.fee > 0 then Moved(f.token, EscrowContract, TreasuryContract, y.fee) else f.token, y.escrow))
  }

  function ClaimEarningsRule(f: Funds, from: Actor, to: Holder, amount: nat): Result<Funds> {
    if amount <= 0 then Err(ZeroAmount)
    else if f.escrow.earnings.At(from) < amount then Err(InsufficientEarnings)
    else Ok(Funds(Moved(f.token, EscrowContract, to, amount), f.escrow.(earnings := f.escrow.earnings.Minus(from, amount))))
  }

  function SetPriceRule(e: Escrow, t: nat, from: Actor, price: nat): Result<Escrow> {
    if e.owner != Some(from) then Err(OwnableUnauthorizedAccount)
    else if !(MIN_PRICE <= price <= MAX_PRICE) then Err(PriceOutOfBand)
    else if t < e.lastPriceChange + DAY then Err(PriceCooldownActive)
    else Ok(e.(pricePerUnit := price, lastPriceChange := t))
  }

  // ------------------------------------------------------------------ treasury

  /** Before the treasury exists there is no beneficiary to pay; the source would write an undefined key there. */
  function ClaimRule(tk: Token, tr: Treasury): Result<Token> {
    if !(tk.bal.At(TreasuryContract) > 0 && tr.beneficiary.Some?) then Err(NothingToClaim)
    else Ok(Moved(tk, TreasuryContract, tr.beneficiary.value, tk.bal.At(TreasuryContract)))
  }

  function SetFeeRule(tr: Treasury, from: Actor, feeBps: nat): Result<Treasury> {
    if tr.owner != Some(from) then Err(OwnableUnauthorizedAccount)
    else if feeBps > MAX_FEE_BPS then Err(FeeTooHigh)
    else Ok(tr.(feeBps := feeBps))
  }

  function QueueRule(tr: Treasury, t: nat, from: Actor, next: Holder): Result<Treasury> {
    if tr.owner != Some(from) then Err(OwnableUnauthorizedAccount)
    else Ok(tr.(pending := Some(next), activation := t + TIMELOCK))
  }

  function ActivateRule(tr: Treasury, t: nat): Result<Treasury> {
    if tr.pending.None? then Err(NoPendingChange)
    else if t < tr.activation then Err(TimelockActive)
    else Ok(tr.(beneficiary := tr.pending, pending := None, activation := 0))
  }

  function CancelRule(tr: Treasury, from: Actor): Result<Treasury> {
    if !(tr.owner == Some(from) || tr.beneficiary == Some(Wallet(from))) then Err(NotAuthorized)
    else if tr.pending.None? then Err(NoPendingChange)
    else Ok(tr.(pending := None, activation := 0))
  }

  // ------------------------------------------------------------------ ownership

  function OwnerOf(x: State, c: Contract): Option<Actor> {
    match c case TheToken => x.token.owner case TheEscrow => x.escrow.owner case TheTreasury => x.treasury.owner
  }

  function PendingOwnerOf(x: State, c: Contract): Option<Actor> {
    match c
    case TheToken => x.token.pendingOwner
    case TheEscrow => x.escrow.pendingOwner
    case TheTreasury => x.treasury.pendingOwner
  }

  function WithOwners(x: State, c: Contract, owner: Option<Actor>, pendingOwner: Option<Actor>): State {
    match c
    case TheToken => x.(token := x.token.(owner := owner, pendingOwner := pendingOwner))
    case TheEscrow => x.(escrow := x.escrow.(owner := owner, pendingOwner := pendingOwner))
    case TheTreasury => x.(treasury := x.treasury.(owner := owner, pendingOwner := pendingOwner))
  }

  function TransferOwnershipRule(x: State, from: Actor, c: Contract, next: Actor): Result<State> {
    if OwnerOf(x, c) != Some(from) then Err(OwnableUnauthorizedAccount)
    else Ok(WithOwners(x, c, OwnerOf(x, c), Some(next)))
  }

  function AcceptOwnershipRule(x: State, from: Actor, c: Contract): Result<State> {
    if PendingOwnerOf(x, c) != Some(from) then Err(OwnableUnauthorizedAccount)
    else Ok(WithOwners(x, c, Some(from), None))
  }

  function CreateEscrowRule(x: State, p: Params): Result<State> {
    if !(MIN_PRICE <= p.pricePerUnit <= MAX_PRICE) then Err(PriceOutOfBand)
    else Ok(x.(deployed := true,
          escrow := x.escrow.(owner := Some(Owner), pricePerUnit := p.pricePerUnit, lastPriceChange := x.t)))
  }

  // ------------------------------------------------------------------ off chain

  function ShelfOf(book: seq<Shelf>, key: ChannelId): (k: nat)
    ensures k <= |book|
    ensures k < |book| ==> book[k].key == key
    ensures forall j :: 0 <= j < k ==> book[j].key != key
  {
    if book == [] then 0
    else
        var k := ShelfOf(book[..|book| - 1], key);
        if k < |book| - 1 || book[|book| - 1].key == key then k else |book|
  }

  /** The sequence number after both the chain's last and the newest ticket held. */
  function NextSequence(e: Escrow, book: seq<Shelf>, key: ChannelId): nat {
    var k := ShelfOf(book, key);
    var chain := ChannelOf(e, key).lastSequence;
    var held := if k < |book| && book[k].list != [] then Latest(book[k]).sequenceNumber else 0;
    (if chain >= held then chain else held) + 1
  }

  function TicketFor(x: State, p: Params, signer: Actor, client: Actor, nodeAdmin: Actor, units: nat): Ticket {
    var seqNo, expiry := NextSequence(x.escrow, x.book, Between(client, nodeAdmin)), x.t + p.epochSeconds;
    Ticket(client, nodeAdmin, seqNo, units, expiry,
           SignedBy(signer, TicketDigest(client, nodeAdmin, seqNo, units, expiry)))
  }

  function Filing(book: seq<Shelf>, t: Ticket): seq<Shelf> {
    var k := ShelfOf(book, IdOf(t));
    if k < |book| then book[k := book[k].(list := book[k].list + [t])] else book + [Shelf(IdOf(t), [t])]
  }

  /** The newest ticket held for a channel. */
  function Held(book: seq<Shelf>, key: ChannelId): Option<Ticket> {
    var k := ShelfOf(book, key);
    if k < |book| && book[k].list != [] then Some(Latest(book[k])) else None
  }

  /** Filing keeps one shelf per channel and puts the new ticket on top. */
  lemma FiledOnTop(book: seq<Shelf>, t: Ticket)
    requires Filed(book)
    ensures Filed(Filing(book, t)) && Held(Filing(book, t), IdOf(t)) == Some(t)
  {
    FilingKeepsFiled(book, t);
    FilingPutsOnTop(book, t);
  }

  lemma FilingKeepsFiled(book: seq<Shelf>, t: Ticket)
    requires Filed(book)
    ensures Filed(Filing(book, t))
  {
    var k, y := ShelfOf(book, IdOf(t)), Filing(book, t);
    forall i | 0 <= i < |y|
      ensures ShelfOk(y[i])
    {
      assert i < |book| ==> ShelfOk(book[i]);
    }
  }

  lemma FilingPutsOnTop(book: seq<Shelf>, t: Ticket)
    ensures Held(Filing(book, t), IdOf(t)) == Some(t)
  {
    var k, y := ShelfOf(book, IdOf(t)), Filing(book, t);
    var j := ShelfOf(y, IdOf(t));
    assert y[k].key == IdOf(t);
    forall i | 0 <= i < k
      ensures y[i].key != IdOf(t)
    {}
    assert j == k;
  }

  function SignTicketRule(x: State, p: Params, signer: Actor, client: Actor, nodeAdmin: Actor, units: nat): Result<State> {
    if signer in x.lost then Err(DeviceUnavailable)
    else Ok(x.(book := Filing(x.book, TicketFor(x, p, signer, client, nodeAdmin, units))))
  }

  function StkPushRule(x: State, client: Actor, amount: nat, fail: bool): Result<State> {
    if fail then Err(STKCancelled)
    else if x.mpesa.At(client) < amount then Err(MpesaInsufficientFunds)
    else Ok(x.(mpesa := x.mpesa.Minus(client, amount), float := x.float + amount))
  }

  function PayoutRule(x: State, to: Actor, amount: nat, fail: bool): Result<State> {
    if fail then Err(B2CFailed)
    else if x.float < amount then Err(FloatShort)
    else Ok(x.(float := x.float - amount, mpesa := x.mpesa.Plus(to, amount)))
  }

  function FundGasRule(x: State, to: Actor, gwei: nat): Result<State> {
    if x.eth.At(Kiosk) < gwei as real then Err(InsufficientEth)
    else Ok(x.(eth := x.eth.Plus(Kiosk, 0.0 - gwei as real).Plus(to, gwei as real)))
  }

  // ------------------------------------------------------------------ the dispatcher

  /** Which part of the world a call's body works on. */
  datatype Part = OnToken | OnFunds | OnTreasury | OnOwners | OffContracts

  function PartOf(c: Call): Part {
    match c
    case CreateToken => OnToken
    case SetBridge(_, _, _) => OnToken
    case BridgeMint(_, _) => OnToken
    case BridgeBurn(_) => OnToken
    case Approve(_, _) => OnToken
    case Transfer(_, _) => OnToken
    case TransferFrom(_, _, _) => OnToken
    case UsePermit(_) => OnToken
    case Claim => OnToken
    case Deposit(_) => OnFunds
    case DepositWithPermit(_, _, _) => OnFunds
    case WithdrawDeposit(_) => OnFunds
    case WithdrawWithSig(_, _) => OnFunds
    case TransferDeposit(_, _) => OnFunds
    case SettleTicketBatch(_) => OnFunds
    case ClaimEarnings(_, _) => OnFunds
    case SetPricePerUnit(_) => OnFunds
    case CreateTreasury => OnTreasury
    case SetFeeBps(_) => OnTreasury
    case QueueBeneficiary(_) => OnTreasury
    case ActivateBeneficiary => OnTreasury
    case CancelBeneficiaryChange => OnTreasury
    case CreateEscrow => OnOwners
    case TransferOwnership(_, _) => OnOwners
    case AcceptOwnership(_) => OnOwners
    case _ => OffContracts
  }

  function ApplyToken(tk: Token, tr: Treasury, t: nat, from: Actor, c: Call): Result<Token>
    requires PartOf(c) == OnToken
  {
    match c
    case CreateToken => Ok(tk.(owner := Some(Owner)))
    case SetBridge(bridge, allowed, cap) => SetBridgeRule(tk, from, bridge, allowed, cap)
    case BridgeMint(to, amount) => MintRule(tk, t, from, to, amount)
    case BridgeBurn(amount) => BurnRule(tk, from, amount)
    case Approve(spender, amount) => Ok(ApproveRule(tk, from, spender, amount))
    case Transfer(to, amount) => MoveRule(tk, Wallet(from), to, amount)
    case TransferFrom(owner, to, amount) => SpendAndMove(tk, owner, Wallet(from), to, amount)
    case UsePermit(permit) => PermitRule(tk, t, permit)
    case Claim => ClaimRule(tk, tr)
  }

  function ApplyFunds(f: Funds, feeBps: nat, t: nat, from: Actor, c: Call): Result<Funds>
    requires PartOf(c) == OnFunds
  {
    match c
    case Deposit(amount) => DepositRule(f, from, amount)
    case DepositWithPermit(client, amount, permit) =>
      DepositRule(f.(token := AfterPermit(f.token, t, permit)), client, amount)
    case WithdrawDeposit(amount) => WithdrawRule(f, from, amount)
    case WithdrawWithSig(auth, dest) => WithdrawWithSigRule(f, t, auth, dest)
    case TransferDeposit(auth, receiver) => TransferDepositRule(f, t, auth, receiver)
    case SettleTicketBatch(tickets) => SettleRule(f, feeBps, t, tickets)
    case ClaimEarnings(to, amount) => ClaimEarningsRule(f, from, to, amount)
    case SetPricePerUnit(price) =>
      var e :- SetPriceRule(f.escrow, t, from, price);
      Ok(f.(escrow := e))
  }

  function ApplyTreasury(tr: Treasury, p: Params, t: nat, from: Actor, c: Call): Result<Treasury>
    requires PartOf(c) == OnTreasury
  {
    match c
    case CreateTreasury => Ok(tr.(owner := Some(Owner), feeBps := p.feeBps, beneficiary := Some(Wallet(Founder))))
    case SetFeeBps(feeBps) => SetFeeRule(tr, from, feeBps)
    case QueueBeneficiary(next) => QueueRule(tr, t, from, next)
    case ActivateBeneficiary => ActivateRule(tr, t)
    case CancelBeneficiaryChange => CancelRule(tr, from)
  }

  function ApplyOwners(x: State, p: Params, from: Actor, c: Call): Result<State>
    requires PartOf(c) == OnOwners
  {
    match c
    case CreateEscrow => CreateEscrowRule(x, p)
    case TransferOwnership(contract, newOwner) => TransferOwnershipRule(x, from, contract, newOwner)
    case AcceptOwnership(contract) => AcceptOwnershipRule(x, from, contract)
  }

  function ApplyOff(x: State, p: Params, from: Actor, c: Call): Result<State>
    requires PartOf(c) == OffContracts
  {
    match c
    case FundGas(payee, gwei) => FundGasRule(x, payee, gwei)
    case SignTicket(client, nodeAdmin, units) => SignTicketRule(x, p, from, client, nodeAdmin, units)
    case StkPush(amount, fail) => StkPushRule(x, from, amount, fail)
    case B2cPayout(payee, amount, fail) => PayoutRule(x, payee, amount, fail)
    case Warp(seconds) => Ok(x.(t := x.t + seconds))
    case LoseDevice => Ok(x.(lost := x.lost + {from}))
    case RestoreFromSeed => Ok(x.(lost := x.lost - {from}))
  }

  function FundsOf(x: State): Funds { Funds(x.token, x.escrow) }

  /** What the body of one call makes of the copied world, or the error it reverts with. */
  function Apply(x: State, p: Params, from: Actor, c: Call): Result<State> {
    match PartOf(c)
    case OnToken =>
      var tk :- ApplyToken(x.token, x.treasury, x.t, from, c);
      Ok(x.(token := tk))
    case OnFunds =>
      var f :- ApplyFunds(FundsOf(x), x.treasury.feeBps, x.t, from, c);
      Ok(x.(token := f.token, escrow := f.escrow))
    case OnTreasury =>
      var tr :- ApplyTreasury(x.treasury, p, x.t, from, c);
      Ok(x.(treasury := tr))
    case OnOwners => ApplyOwners(x, p, from, c)
    case OffContracts => ApplyOff(x, p, from, c)
  }

  /** What a call outside the contracts leaves alone. */
  lemma OffFrame(x: State, p: Params, from: Actor, c: Call)
    requires PartOf(c) == OffContracts && ApplyOff(x, p, from, c).Ok?
    ensures var y := ApplyOff(x, p, from, c).value;
            && y.token == x.token && y.escrow == x.escrow && y.treasury == x.treasury
            && (!c.SignTicket? ==> y.book == x.book)
  {}

  /** Changes of owner and the escrow's deployment touch owners, the price and nothing else. */
  ghost predicate OnlyOwners(x: State, y: State) {
    && y.token == x.token.(owner := y.token.owner, pendingOwner := y.token.pendingOwner)
    && y.escrow == x.escrow.(owner := y.escrow.owner, pendingOwner := y.escrow.pendingOwner,
                             pricePerUnit := y.escrow.pricePerUnit, lastPriceChange := y.escrow.lastPriceChange)
    && y.treasury == x.treasury.(owner := y.treasury.owner, pendingOwner := y.treasury.pendingOwner)
    && y == x.(token := y.token, escrow := y.escrow, treasury := y.treasury, deployed := y.deployed)
  }

  lemma OwnersFrame(x: State, p: Params, from: Actor, c: Call)
    requires PartOf(c) == OnOwners && ApplyOwners(x, p, from, c).Ok?
    ensures OnlyOwners(x, ApplyOwners(x, p, from, c).value)
  {
    match c {
      case CreateEscrow =>
      case TransferOwnership(k, next) => WithOwnersFrame(x, k, OwnerOf(x, k), Some(next));
      case AcceptOwnership(k) => WithOwnersFrame(x, k, Some(from), None);
    }
  }

  lemma WithOwnersFrame(x: State, k: Contract, owner: Option<Actor>, pending: Option<Actor>)
    ensures OnlyOwners(x, WithOwners(x, k, owner, pending))
  {}

  // ------------------------------------------------------------------ gas

  function Slots(n: nat): int { n * FRESH_SLOT_DELTA }

  function Warm(b: bool): nat { if b then 1 else 0 }

  /** Gas of a call that commits, read off the world before it. */
  function CommitGas(x: State, from: Actor, c: Call): int {
    match c
    case CreateToken => 1_512_737
    case CreateTreasury => 746_884
    case CreateEscrow => 2_210_501
    case SetBridge(_, _, _) => 48_407
    case BridgeMint(_, _) => 95_816
    case BridgeBurn(_) => 33_503
    case Approve(_, _) => 46_365
    case Transfer(_, _) => 51_567
    case TransferFrom(_, _, _) => 57_594
    case UsePermit(_) => 74_707
    case Deposit(_) => if x.escrow.deposits.At(from) > 0 then 43_966 else 81_557
    case DepositWithPermit(client, _, _) => 110_693 - Slots(Warm(x.escrow.deposits.At(client) > 0))
    case WithdrawDeposit(_) => 63_584
    case WithdrawWithSig(auth, dest) =>
      93_358 - Slots(Warm(dest.Some? && x.token.bal.At(dest.value) > 0) + Warm(x.escrow.authNonces.At(auth.from) > 0))
    case TransferDeposit(auth, receiver) =>
      83_050 - Slots(Warm(receiver.Some? && x.escrow.deposits.At(receiver.value) > 0)
                     + Warm(x.escrow.authNonces.At(auth.from) > 0))
    case SettleTicketBatch(tickets) =>
      var y := Batch(x.escrow, x.treasury.feeBps, x.t, tickets);
      if y.Ok? then SettleGas(y.value.shape, x.token.bal.At(TreasuryContract) > 0) else 0
    case ClaimEarnings(_, _) => 59_631
    case SetPricePerUnit(_) => 34_861
    case Claim => 54_990
    case SetFeeBps(_) => 29_788
    case QueueBeneficiary(_) => 69_752
    case ActivateBeneficiary => 30_110
    case CancelBeneficiaryChange => 29_501
    case TransferOwnership(_, _) => 47_000
    case AcceptOwnership(_) => 30_000
    case FundGas(_, _) => 21_000
    case _ => 0
  }

  /** Gas of a call that reverts. */
  function RevertGas(c: Call): nat {
    match c
    case SettleTicketBatch(_) => 27_400
    case BridgeMint(_, _) => 24_353
    case SetBridge(_, _, _) => 24_428
    case ClaimEarnings(_, _) => 29_267
    case SetPricePerUnit(_) => 23_697
    case SetFeeBps(_) => 23_723
    case Claim => 27_298
    case ActivateBeneficiary => 25_546
    case CancelBeneficiaryChange => 25_605
    case _ => 25_000
  }

  /** A call that reverts burns less gas than one that commits, but for an ether transfer: 25,000 instead of 21,000. */
  lemma RevertIsCheaperIff(x: State, p: Params, from: Actor, c: Call)
    requires OnChain(c) && Apply(x, p, from, c).Ok?
    ensures RevertGas(c) < CommitGas(x, from, c) <==> !c.FundGas?
  {
    if c.SettleTicketBatch? {
      SettleGasPositive(Batch(x.escrow, x.treasury.feeBps, x.t, c.tickets).value.shape, x.token.bal.At(TreasuryContract) > 0);
    }
  }

  /** The storage slots a deposit, withdrawal or transfer writes that are already non-zero. */
  function SlotsInUse(x: State, from: Actor, c: Call): nat {
    match c
    case Deposit(_) => Warm(x.escrow.deposits.At(from) > 0)
    case DepositWithPermit(client, _, _) => Warm(x.escrow.deposits.At(client) > 0)
    case WithdrawWithSig(a, to) => Warm(to.Some? && x.token.bal.At(to.value) > 0) + Warm(x.escrow.authNonces.At(a.from) > 0)
    case TransferDeposit(a, to) => Warm(to.Some? && x.escrow.deposits.At(to.value) > 0) + Warm(x.escrow.authNonces.At(a.from) > 0)
    case _ => 0
  }

  /** Of two worlds such a call is cheaper in the one with more of its slots in use. */
  lemma UsedSlotsSave(x: State, y: State, from: Actor, c: Call)
    requires c.Deposit? || c.DepositWithPermit? || c.WithdrawWithSig? || c.TransferDeposit?
    ensures SlotsInUse(x, from, c) < SlotsInUse(y, from, c) <==> CommitGas(y, from, c) < CommitGas(x, from, c)
  {}

  /** A settlement of any shape costs gas: no slot discount exceeds what the slot was charged. */
  lemma {:induction false} SettleGasPositive(shape: seq<Shape>, treasuryWarm: bool)
    ensures SettleGas(shape, treasuryWarm) >= 54_367 + 25_724 * |shape|
    decreases |shape|
  {
    if shape != [] {
      SettleGasPositive(shape[..|shape| - 1], treasuryWarm);
    }
  }

  lemma CommitGasNonNegative(x: State, from: Actor, c: Call)
    ensures CommitGas(x, from, c) >= 0
  {
    if c.SettleTicketBatch? {
      var y := Batch(x.escrow, x.treasury.feeBps, x.t, c.tickets);
      if y.Ok? {
        SettleGasPositive(y.value.shape, x.token.bal.At(TreasuryContract) > 0);
      }
    }
  }
}
