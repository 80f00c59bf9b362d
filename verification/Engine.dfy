/**
 The world of web/src/demo/engine.js as it is updated in place: call bodies mutate a copy and may stop half way, the
 wrapper keeps the copy or throws it away. Every method is proved to do what the rules of EngineRules say.
 */
module Engine {
  import opened HashChain
  import opened Options
  import opened EngineTypes
  import opened Settlement
  import opened Quote
  import opened EngineRules
  import opened EngineRuns

  /** A world once finish wrote its entry and, for a mined transaction, seal its block. */
  function Finished(w: World, env: Env, q: Request, status: Status, gas: int, fee: real): World {
    var mined := OnChain(q.call) && status != Rejected;
    w.(seqNo := w.seqNo + 1,
       ledger := w.ledger + [Entry(w.seqNo + 1, w.state.t, if mined then Some(w.block) else None, q.from, q.call, status, gas, fee)],
       txNonces := if mined then w.txNonces.Next(q.from) else w.txNonces,
       blocks := w.blocks + if mined then [MinedBlock(w.blocks, w.block, w.state.t, w.txNonces.At(q.from), env, q)] else [])
  }

  function MinedBlock(blocks: seq<Block>, number: nat, t: nat, nonce: nat, env: Env, q: Request): Block {
    Sealed(env.keccak, blocks, number, t, Tx([], env.wallet(q.from), Target(env, q.call), nonce, q.input), q.root)
  }

  /** What the wrapper makes of an attempt that left state x. */
  function Concluded(w: World, env: Env, q: Request, x: State, status: Status, gas: int, fee: real): World {
    if !OnChain(q.call) then Finished(w.(state := x), env, q, status, 0, 0.0)
    else if x.eth.At(q.from) < fee then Finished(w, env, q, Rejected, 0, 0.0)
    else Finished(w.(state := x.(eth := x.eth.Plus(q.from, 0.0 - fee)), block := w.block + 1), env, q, status, gas, fee)
  }

  function AttemptStatus(w: World, q: Request): Status {
    var body := Apply(Ticked(w.state, q.call), w.params, q.from, q.call);
    if body.Ok? then Committed else Reverted(body.error)
  }

  /** What an attempt leaves, its status and its gas, when the body succeeds and when it reverts. */
  lemma AttemptCommits(w: World, q: Request, x: State)
    requires Apply(Ticked(w.state, q.call), w.params, q.from, q.call) == Ok(x)
    ensures Out(w, q) == x && AttemptStatus(w, q) == Committed
    ensures GasOf(w, q) == if OnChain(q.call) then CommitGas(Ticked(w.state, q.call), q.from, q.call) else 0
  {}

  lemma AttemptReverts(w: World, q: Request, error: Error)
    requires Apply(Ticked(w.state, q.call), w.params, q.from, q.call) == Err(error)
    ensures Out(w, q) == w.state.(t := Ticked(w.state, q.call).t) && AttemptStatus(w, q) == Reverted(error)
    ensures GasOf(w, q) == if OnChain(q.call) then RevertGas(q.call) else 0
  {}

  /** An escrow call does to the world what it does to the two contracts. */
  lemma FundsApplied(x: State, p: Params, from: Actor, c: Call)
    requires PartOf(c) == OnFunds
    ensures Apply(x, p, from, c)
            == match ApplyFunds(FundsOf(x), x.treasury.feeBps, x.t, from, c)
               case Err(error) => Err(error)
               case Ok(f) => Ok(x.(token := f.token, escrow := f.escrow))
  {}

  lemma StepIsConcluded(w: World, env: Env, q: Request)
    ensures Step(w, env, q) == Concluded(w, env, q, Out(w, q), AttemptStatus(w, q), GasOf(w, q), CostOf(w, q))
  {}

  class LiveWorld {
    var params: Params
    var t: nat
    var block: nat
    var deployed: bool
    var token: Token
    var escrow: Escrow
    var treasury: Treasury
    var mpesa: Purse<Actor>
    var float: int
    var eth: Ether
    var book: seq<Shelf>
    var lost: set<Actor>
    var txNonces: Counters
    var seqNo: nat
    var ledger: seq<Entry>
    var blocks: seq<Block>

    /** The part a call body works on. */
    function Now(): State
      reads this
    {
      State(t, deployed, token, escrow, treasury, mpesa, float, eth, book, lost)
    }

    /** The two contracts an escrow call works on. */
    function Both(): Funds
      reads this
    {
      Funds(token, escrow)
    }

    function Snapshot(): World
      reads this
    {
      World(params, block, Now(), txNonces, seqNo, ledger, blocks)
    }

    /** createWorld. */
    constructor Create(p: Params, o: Opening)
      requires Honest(o)
      ensures Snapshot() == CreateWorld(p, o)
    {
      params, t, block, deployed := p, o.t, 0, false;
      token := Token(None, None, 0, Purse(map[]), map[], Counters(map[]), map[]);
      escrow := Escrow(None, None, Purse(map[]), Purse(map[]), map[], Counters(map[]), 0, 0);
      treasury := Treasury(None, None, 0, None, None, 0);
      mpesa, float, eth, book, lost := o.mpesa, 0, o.eth, [], {};
      txNonces, seqNo, ledger, blocks := Counters(map[]), 0, [], [];
    }

    /** copyState: a world of its own, sharing no mutable part. */
    constructor CopyOf(w: LiveWorld)
      ensures Snapshot() == w.Snapshot()
    {
      params, t, block, deployed := w.params, w.t, w.block, w.deployed;
      token, escrow, treasury := w.token, w.escrow, w.treasury;
      mpesa, float, eth, book, lost := w.mpesa, w.float, w.eth, w.book, w.lost;
      txNonces, seqNo, ledger, blocks := w.txNonces, w.seqNo, w.ledger, w.blocks;
    }

    // ---------------------------------------------------------------- token

    method SetBridge(from: Actor, bridge: Actor, allowed: bool, cap: nat) returns (r: Outcome)
      modifies this`token
      ensures r.Pass? ==> SetBridgeRule(old(token), from, bridge, allowed, cap) == Ok(token)
      ensures r.Fail? ==> SetBridgeRule(old(token), from, bridge, allowed, cap) == Err(r.error)
    {
      if token.owner != Some(from) { return Fail(OwnableUnauthorizedAccount); }
      var info := BridgeOf(token, bridge);
      token := token.(bridges := token.bridges[bridge := info.(allowed := allowed, cap := cap)]);
      return Pass;
    }

    method BridgeMint(from: Actor, to: Holder, amount: nat) returns (r: Outcome)
      modifies this`token
      ensures r.Pass? ==> MintRule(old(token), t, from, to, amount) == Ok(token)
      ensures r.Fail? ==> MintRule(old(token), t, from, to, amount) == Err(r.error)
    {
      var info := BridgeOf(token, from);
      if !info.allowed { return Fail(NotBridge); }
      if t >= info.windowStart + DAY {
        info := info.(windowStart := t);
        info := info.(minted := 0);
      }
      if info.minted + amount > info.cap {
        token := token.(bridges := token.bridges[from := info]);
        return Fail(MintCapExceeded);
      }
      info := info.(minted := info.minted + amount);
      token := token.(bridges := token.bridges[from := info]);
      token := token.(supply := token.supply + amount);
      token := token.(bal := token.bal.Plus(to, amount));
      return Pass;
    }

    method BridgeBurn(from: Actor, amount: nat) returns (r: Outcome)
      modifies this`token
      ensures r.Pass? ==> BurnRule(old(token), from, amount) == Ok(token)
      ensures r.Fail? ==> BurnRule(old(token), from, amount) == Err(r.error)
    {
      if !BridgeOf(token, from).allowed { return Fail(NotBridge); }
      if token.bal.At(Wallet(from)) < amount { return Fail(ERC20InsufficientBalance); }
      token := token.(bal := token.bal.Minus(Wallet(from), amount));
      token := token.(supply := token.supply - amount);
      return Pass;
    }

    method Move(from: Holder, to: Holder, amount: nat) returns (r: Outcome)
      modifies this`token
      ensures r.Pass? ==> MoveRule(old(token), from, to, amount) == Ok(token)
      ensures r.Fail? ==> MoveRule(old(token), from, to, amount) == Err(r.error)
    {
      if token.bal.At(from) < amount { return Fail(ERC20InsufficientBalance); }
      token := token.(bal := token.bal.Minus(from, amount));
      token := token.(bal := token.bal.Plus(to, amount));
      return Pass;
    }

    method SpendAllowance(owner: Holder, spender: Holder, amount: nat) returns (r: Outcome)
      modifies this`token
      ensures r.Pass? ==> SpendRule(old(token), owner, spender, amount) == Ok(token)
      ensures r.Fail? ==> SpendRule(old(token), owner, spender, amount) == Err(r.error)
    {
      var current := Allowance(token, owner, spender);
      if current < amount { return Fail(ERC20InsufficientAllowance); }
      token := token.(allow := token.allow[Grant(owner, spender) := current - amount]);
      return Pass;
    }

    /** The allowance may be spent and the move still fail; the wrapper then drops both. */
    method TransferFrom(from: Actor, owner: Holder, to: Holder, amount: nat) returns (r: Outcome)
      modifies this`token
      ensures r.Pass? ==> SpendAndMove(old(token), owner, Wallet(from), to, amount) == Ok(token)
      ensures r.Fail? ==> SpendAndMove(old(token), owner, Wallet(from), to, amount) == Err(r.error)
    {
      r := SpendAllowance(owner, Wallet(from), amount);
      if r.Pass? {
        r := Move(owner, to, amount);
      }
    }

    method ApplyPermit(p: Permit) returns (r: Outcome)
      modifies this`token
      ensures r.Pass? ==> PermitRule(old(token), t, p) == Ok(token)
      ensures r.Fail? ==> PermitRule(old(token), t, p) == Err(r.error) && token == old(token)
    {
      if t > p.deadline { return Fail(ERC2612ExpiredSignature); }
      var d := PermitDigest(p.owner, p.spender, p.value, token.nonces.At(p.owner), p.deadline);
      if Recover(d, p.signature) != Some(p.owner) { return Fail(ERC2612InvalidSigner); }
      token := token.(nonces := token.nonces.Next(p.owner));
      token := token.(allow := token.allow[Grant(Wallet(p.owner), p.spender) := p.value]);
      return Pass;
    }

    // ---------------------------------------------------------------- escrow

    method Credit(client: Actor, amount: nat) returns (r: Outcome)
      modifies this`token, this`escrow
      ensures r.Pass? ==> DepositRule(old(Both()), client, amount) == Ok(Both())
      ensures r.Fail? ==> DepositRule(old(Both()), client, amount) == Err(r.error)
    {
      if amount == 0 { return Fail(ZeroAmount); }
      r := SpendAllowance(Wallet(client), EscrowContract, amount);
      if r.Pass? {
        r := Move(Wallet(client), EscrowContract, amount);
      }
      if r.Pass? {
        escrow := escrow.(deposits := escrow.deposits.Plus(client, amount));
      }
    }

    /** A permit that fails is caught: the deposit proceeds on the allowance already set. */
    method DepositWithPermit(client: Actor, amount: nat, permit: Permit) returns (r: Outcome)
      modifies this`token, this`escrow
      ensures var credited := DepositRule(Funds(AfterPermit(old(token), t, permit), old(escrow)), client, amount);
              (r.Pass? ==> credited == Ok(Both())) && (r.Fail? ==> credited == Err(r.error))
    {
      var caught := ApplyPermit(permit);
      r := Credit(client, amount);
    }

    method WithdrawDeposit(from: Actor, amount: nat) returns (r: Outcome)
      modifies this`token, this`escrow
      ensures r.Pass? ==> WithdrawRule(old(Both()), from, amount) == Ok(Both())
      ensures r.Fail? ==> WithdrawRule(old(Both()), from, amount) == Err(r.error)
    {
      if amount == 0 { return Fail(ZeroAmount); }
      if escrow.deposits.At(from) < amount { return Fail(InsufficientDeposit); }
      escrow := escrow.(deposits := escrow.deposits.Minus(from, amount));
      token := token.(bal := token.bal.Minus(EscrowContract, amount));
      token := token.(bal := token.bal.Plus(Wallet(from), amount));
      return Pass;
    }

    method SpendAuth(from: Actor, deadline: nat, d: Digest, sig: Signature) returns (r: Outcome)
      modifies this`escrow
      ensures r.Pass? ==> UseAuth(old(escrow), t, from, deadline, d, sig) == Ok(escrow)
      ensures r.Fail? ==> UseAuth(old(escrow), t, from, deadline, d, sig) == Err(r.error)
    {
      if t > deadline { return Fail(AuthorizationExpired); }
      if Recover(d, sig) != Some(from) { return Fail(BadAuthorization); }
      escrow := escrow.(authNonces := escrow.authNonces.Next(from));
      return Pass;
    }

    method WithdrawWithSig(a: Auth, dest: Option<Holder>) returns (r: Outcome)
      modifies this`token, this`escrow
      ensures r.Pass? ==> WithdrawWithSigRule(old(Both()), t, a, dest) == Ok(Both())
      ensures r.Fail? ==> WithdrawWithSigRule(old(Both()), t, a, dest) == Err(r.error)
    {
      if a.amount == 0 { return Fail(ZeroAmount); }
      if dest.None? { return Fail(ZeroAddress); }
      var d := WithdrawDigest(a.from, dest.value, a.amount, escrow.authNonces.At(a.from), a.deadline);
      r := SpendAuth(a.from, a.deadline, d, a.signature);
      if r.Fail? { return; }
      if escrow.deposits.At(a.from) < a.amount { return Fail(InsufficientDeposit); }
      escrow := escrow.(deposits := escrow.deposits.Minus(a.from, a.amount));
      token := token.(bal := token.bal.Minus(EscrowContract, a.amount));
      token := token.(bal := token.bal.Plus(dest.value, a.amount));
    }

    method TransferDeposit(a: Auth, to: Option<Actor>) returns (r: Outcome)
      modifies this`escrow
      ensures r.Pass? ==> TransferDepositRule(old(Both()), t, a, to) == Ok(Both())
      ensures r.Fail? ==> TransferDepositRule(old(Both()), t, a, to) == Err(r.error)
    {
      if a.amount == 0 { return Fail(ZeroAmount); }
      if to.None? { return Fail(ZeroAddress); }
      var d := TransferDigest(a.from, to.value, a.amount, escrow.authNonces.At(a.from), a.deadline);
      r := SpendAuth(a.from, a.deadline, d, a.signature);
      if r.Fail? { return; }
      if escrow.deposits.At(a.from) < a.amount { return Fail(InsufficientDeposit); }
      escrow := escrow.(deposits := escrow.deposits.Minus(a.from, a.amount));
      escrow := escrow.(deposits := escrow.deposits.Plus(to.value, a.amount));
    }

    /** The body of the settle loop for one ticket. */
    method SettleOne(ticket: Ticket) returns (r: Outcome, paid: int, fee: int, shape: Shape)
      modifies this`escrow
      ensures r == Admissible(old(escrow), t, ticket)
      ensures r.Fail? ==> escrow == old(escrow)
      ensures r.Pass? ==> forall gross, fees, shapes ::
                Tally(escrow, gross + paid, fees + fee, shapes + [shape])
                == Book(Tally(old(escrow), gross, fees, shapes), treasury.feeBps, ticket)
    {
      r := Admissible(escrow, t, ticket);
      paid, fee, shape := 0, 0, ShapeOf(escrow, ticket);
      if r.Fail? { return; }
      var ch := ChannelOf(escrow, Between(ticket.client, ticket.nodeAdmin));
      var owed := (ticket.cumulativeUnits - ch.settledUnits) * escrow.pricePerUnit;
      var available := escrow.deposits.At(ticket.client);
      paid := if owed <= available then owed else available;
      escrow := escrow.(channels := Noted(escrow.channels, ticket));
      if paid > 0 {
        escrow := escrow.(deposits := escrow.deposits.Minus(ticket.client, paid));
        fee := paid * treasury.feeBps / 10_000;
        escrow := escrow.(earnings := escrow.earnings.Plus(ticket.nodeAdmin, paid - fee));
      }
    }

    method SettleTicketBatch(tickets: seq<Ticket>) returns (r: Outcome)
      modifies this`token, this`escrow
      ensures r.Pass? ==> SettleRule(old(Both()), treasury.feeBps, t, tickets) == Ok(Both())
      ensures r.Fail? ==> SettleRule(old(Both()), treasury.feeBps, t, tickets) == Err(r.error)
    {
      if |tickets| == 0 { return Fail(EmptyBatch); }
      ghost var e := escrow;
      var gross, totalFee, shape := 0, 0, [];
      for i := 0 to |tickets|
        modifies this`escrow
        invariant Batch(e, treasury.feeBps, t, tickets[..i]) == Ok(Tally(escrow, gross, totalFee, shape))
      {
        assert tickets[..i + 1][..i] == tickets[..i];
        var paid, fee, slots;
        r, paid, fee, slots := SettleOne(tickets[i]);
        if r.Fail? {
          BatchPrefix(e, treasury.feeBps, t, tickets, i + 1);
          return;
        }
        gross, totalFee, shape := gross + paid, totalFee + fee, shape + [slots];
      }
      assert tickets[..|tickets|] == tickets;
      if gross <= 0 { return Fail(ZeroAmount); }
      if totalFee > 0 {
        token := token.(bal := token.bal.Minus(EscrowContract, totalFee));
        token := token.(bal := token.bal.Plus(TreasuryContract, totalFee));
      }
      return Pass;
    }

    method ClaimEarnings(from: Actor, to: Holder, amount: nat) returns (r: Outcome)
      modifies this`token, this`escrow
      ensures r.Pass? ==> ClaimEarningsRule(old(Both()), from, to, amount) == Ok(Both())
      ensures r.Fail? ==> ClaimEarningsRule(old(Both()), from, to, amount) == Err(r.error)
    {
      if amount == 0 { return Fail(ZeroAmount); }
      if escrow.earnings.At(from) < amount { return Fail(InsufficientEarnings); }
      escrow := escrow.(earnings := escrow.earnings.Minus(from, amount));
      token := token.(bal := token.bal.Minus(EscrowContract, amount));
      token := token.(bal := token.bal.Plus(to, amount));
      return Pass;
    }

    method SetPricePerUnit(from: Actor, price: nat) returns (r: Outcome)
      modifies this`escrow
      ensures r.Pass? ==> SetPriceRule(old(escrow), t, from, price) == Ok(escrow)
      ensures r.Fail? ==> SetPriceRule(old(escrow), t, from, price) == Err(r.error)
    {
      if escrow.owner != Some(from) { return Fail(OwnableUnauthorizedAccount); }
      if price < MIN_PRICE || price > MAX_PRICE { return Fail(PriceOutOfBand); }
      if t < escrow.lastPriceChange + DAY { return Fail(PriceCooldownActive); }
      escrow := escrow.(pricePerUnit := price);
      escrow := escrow.(lastPriceChange := t);
      return Pass;
    }

    // ---------------------------------------------------------------- treasury

    method Claim() returns (r: Outcome)
      modifies this`token
      ensures r.Pass? ==> ClaimRule(old(token), treasury) == Ok(token)
      ensures r.Fail? ==> ClaimRule(old(token), treasury) == Err(r.error)
    {
      var amount := token.bal.At(TreasuryContract);
      if amount <= 0 || treasury.beneficiary.None? { return Fail(NothingToClaim); }
      token := token.(bal := token.bal.Minus(TreasuryContract, amount));
      token := token.(bal := token.bal.Plus(treasury.beneficiary.value, amount));
      return Pass;
    }

    method SetFeeBps(from: Actor, feeBps: nat) returns (r: Outcome)
      modifies this`treasury
      ensures r.Pass? ==> SetFeeRule(old(treasury), from, feeBps) == Ok(treasury)
      ensures r.Fail? ==> SetFeeRule(old(treasury), from, feeBps) == Err(r.error)
    {
      if treasury.owner != Some(from) { return Fail(OwnableUnauthorizedAccount); }
      if feeBps > MAX_FEE_BPS { return Fail(FeeTooHigh); }
      treasury := treasury.(feeBps := feeBps);
      return Pass;
    }

    method QueueBeneficiary(from: Actor, next: Holder) returns (r: Outcome)
      modifies this`treasury
      ensures r.Pass? ==> QueueRule(old(treasury), t, from, next) == Ok(treasury)
      ensures r.Fail? ==> QueueRule(old(treasury), t, from, next) == Err(r.error)
    {
      if treasury.owner != Some(from) { return Fail(OwnableUnauthorizedAccount); }
      treasury := treasury.(pending := Some(next));
      treasury := treasury.(activation := t + TIMELOCK);
      return Pass;
    }

    method ActivateBeneficiary() returns (r: Outcome)
      modifies this`treasury
      ensures r.Pass? ==> ActivateRule(old(treasury), t) == Ok(treasury)
      ensures r.Fail? ==> ActivateRule(old(treasury), t) == Err(r.error)
    {
      if treasury.pending.None? { return Fail(NoPendingChange); }
      if t < treasury.activation { return Fail(TimelockActive); }
      treasury := treasury.(beneficiary := treasury.pending);
      treasury := treasury.(pending := None);
      treasury := treasury.(activation := 0);
      return Pass;
    }

    method CancelBeneficiaryChange(from: Actor) returns (r: Outcome)
      modifies this`treasury
      ensures r.Pass? ==> CancelRule(old(treasury), from) == Ok(treasury)
      ensures r.Fail? ==> CancelRule(old(treasury), from) == Err(r.error)
    {
      if treasury.owner != Some(from) && treasury.beneficiary != Some(Wallet(from)) { return Fail(NotAuthorized); }
      if treasury.pending.None? { return Fail(NoPendingChange); }
      treasury := treasury.(pending := None);
      treasury := treasury.(activation := 0);
      return Pass;
    }

    // ---------------------------------------------------------------- off chain

    method FileTicket(signed: Ticket)
      modifies this`book
      ensures book == Filing(old(book), signed)
    {
      var k := ShelfOf(book, IdOf(signed));
      if k < |book| {
        book := book[k := book[k].(list := book[k].list + [signed])];
      } else {
        book := book + [Shelf(IdOf(signed), [signed])];
      }
    }

    method SignTicket(signer: Actor, client: Actor, nodeAdmin: Actor, units: nat) returns (r: Outcome)
      modifies this`book
      ensures r == Need(signer !in lost, DeviceUnavailable)
      ensures r.Pass? ==> book == Filing(old(book), TicketFor(old(Now()), params, signer, client, nodeAdmin, units))
    {
      if signer in lost { return Fail(DeviceUnavailable); }
      var key := Between(client, nodeAdmin);
      var k := ShelfOf(book, key);
      var onChain := ChannelOf(escrow, key).lastSequence;
      var held := if k < |book| && book[k].list != [] then Latest(book[k]).sequenceNumber else 0;
      var seqNumber, expiry := (if onChain >= held then onChain else held) + 1, t + params.epochSeconds;
      var d := TicketDigest(client, nodeAdmin, seqNumber, units, expiry);
      FileTicket(Ticket(client, nodeAdmin, seqNumber, units, expiry, SignedBy(signer, d)));
      return Pass;
    }

    method StkPush(client: Actor, amount: nat, fail: bool) returns (r: Outcome)
      modifies this`mpesa, this`float
      ensures r.Pass? ==> StkPushRule(old(Now()), client, amount, fail) == Ok(Now())
      ensures r.Fail? ==> StkPushRule(old(Now()), client, amount, fail) == Err(r.error)
    {
      if fail { return Fail(STKCancelled); }
      if mpesa.At(client) < amount { return Fail(MpesaInsufficientFunds); }
      mpesa := mpesa.Minus(client, amount);
      float := float + amount;
      return Pass;
    }

    method B2cPayout(to: Actor, amount: nat, fail: bool) returns (r: Outcome)
      modifies this`mpesa, this`float
      ensures r.Pass? ==> PayoutRule(old(Now()), to, amount, fail) == Ok(Now())
      ensures r.Fail? ==> PayoutRule(old(Now()), to, amount, fail) == Err(r.error)
    {
      if fail { return Fail(B2CFailed); }
      if float < amount { return Fail(FloatShort); }
      float := float - amount;
      mpesa := mpesa.Plus(to, amount);
      return Pass;
    }

    method FundGas(to: Actor, gwei: nat) returns (r: Outcome)
      modifies this`eth
      ensures r.Pass? ==> FundGasRule(old(Now()), to, gwei) == Ok(Now())
      ensures r.Fail? ==> FundGasRule(old(Now()), to, gwei) == Err(r.error)
    {
      if eth.At(Kiosk) < gwei as real { return Fail(InsufficientEth); }
      eth := eth.Plus(Kiosk, 0.0 - gwei as real);
      eth := eth.Plus(to, gwei as real);
      return Pass;
    }

    // ---------------------------------------------------------------- bodies by the part they work on

    method SupplyBody(from: Actor, c: Call) returns (r: Outcome)
      requires c.CreateToken? || c.SetBridge? || c.BridgeMint? || c.BridgeBurn? || c.Claim?
      modifies this`token
      ensures r.Pass? ==> Apply(old(Now()), params, from, c) == Ok(Now())
      ensures r.Fail? ==> Apply(old(Now()), params, from, c) == Err(r.error)
    {
      match c {
        case CreateToken => token := token.(owner := Some(Owner)); r := Pass;
        case SetBridge(bridge, allowed, cap) => r := SetBridge(from, bridge, allowed, cap);
        case BridgeMint(to, amount) => r := BridgeMint(from, to, amount);
        case BridgeBurn(amount) => r := BridgeBurn(from, amount);
        case Claim => r := Claim();
      }
    }

    method TransferBody(from: Actor, c: Call) returns (r: Outcome)
      requires c.Approve? || c.Transfer? || c.TransferFrom? || c.UsePermit?
      modifies this`token
      ensures r.Pass? ==> Apply(old(Now()), params, from, c) == Ok(Now())
      ensures r.Fail? ==> Apply(old(Now()), params, from, c) == Err(r.error)
    {
      match c {
        case Approve(spender, amount) =>
          token := token.(allow := token.allow[Grant(Wallet(from), spender) := amount]);
          r := Pass;
        case Transfer(to, amount) => r := Move(Wallet(from), to, amount);
        case TransferFrom(owner, to, amount) => r := TransferFrom(from, owner, to, amount);
        case UsePermit(permit) => r := ApplyPermit(permit);
      }
    }

    method DepositBody(from: Actor, c: Call) returns (r: Outcome)
      requires c.Deposit? || c.DepositWithPermit? || c.WithdrawDeposit? || c.WithdrawWithSig?
      modifies this`token, this`escrow
      ensures r.Pass? ==> Apply(old(Now()), params, from, c) == Ok(Now())
      ensures r.Fail? ==> Apply(old(Now()), params, from, c) == Err(r.error)
    {
      FundsApplied(Now(), params, from, c);
      match c {
        case Deposit(amount) => r := Credit(from, amount);
        case DepositWithPermit(client, amount, permit) => r := DepositWithPermit(client, amount, permit);
        case WithdrawDeposit(amount) => r := WithdrawDeposit(from, amount);
        case WithdrawWithSig(auth, dest) => r := WithdrawWithSig(auth, dest);
      }
    }

    method EarningsBody(from: Actor, c: Call) returns (r: Outcome)
      requires c.TransferDeposit? || c.SettleTicketBatch? || c.ClaimEarnings? || c.SetPricePerUnit?
      modifies this`token, this`escrow
      ensures r.Pass? ==> Apply(old(Now()), params, from, c) == Ok(Now())
      ensures r.Fail? ==> Apply(old(Now()), params, from, c) == Err(r.error)
    {
      FundsApplied(Now(), params, from, c);
      match c {
        case TransferDeposit(auth, receiver) => r := TransferDeposit(auth, receiver);
        case SettleTicketBatch(tickets) => r := SettleTicketBatch(tickets);
        case ClaimEarnings(to, amount) => r := ClaimEarnings(from, to, amount);
        case SetPricePerUnit(price) => r := SetPricePerUnit(from, price);
      }
    }

    method TreasuryBody(from: Actor, c: Call) returns (r: Outcome)
      requires PartOf(c) == OnTreasury
      modifies this`treasury
      ensures r.Pass? ==> Apply(old(Now()), params, from, c) == Ok(Now())
      ensures r.Fail? ==> Apply(old(Now()), params, from, c) == Err(r.error)
    {
      match c {
        case SetFeeBps(feeBps) => r := SetFeeBps(from, feeBps);
        case QueueBeneficiary(next) => r := QueueBeneficiary(from, next);
        case ActivateBeneficiary => r := ActivateBeneficiary();
        case CancelBeneficiaryChange => r := CancelBeneficiaryChange(from);
        case CreateTreasury =>
          treasury := treasury.(owner := Some(Owner), feeBps := params.feeBps, beneficiary := Some(Wallet(Founder)));
          r := Pass;
      }
    }

    method OwnersBody(from: Actor, c: Call) returns (r: Outcome)
      requires PartOf(c) == OnOwners
      modifies this`token, this`escrow, this`treasury, this`deployed
      ensures r.Pass? ==> Apply(old(Now()), params, from, c) == Ok(Now())
      ensures r.Fail? ==> Apply(old(Now()), params, from, c) == Err(r.error)
    {
      match c {
        case CreateEscrow =>
          if params.pricePerUnit < MIN_PRICE || params.pricePerUnit > MAX_PRICE { return Fail(PriceOutOfBand); }
          escrow := escrow.(owner := Some(Owner), pricePerUnit := params.pricePerUnit, lastPriceChange := t);
          deployed := true;
        case TransferOwnership(contract, next) =>
          if OwnerOf(Now(), contract) != Some(from) { return Fail(OwnableUnauthorizedAccount); }
          match contract {
            case TheToken => token := token.(pendingOwner := Some(next));
            case TheEscrow => escrow := escrow.(pendingOwner := Some(next));
            case TheTreasury => treasury := treasury.(pendingOwner := Some(next));
          }
        case AcceptOwnership(contract) =>
          if PendingOwnerOf(Now(), contract) != Some(from) { return Fail(OwnableUnauthorizedAccount); }
          match contract {
            case TheToken => token := token.(owner := Some(from), pendingOwner := None);
            case TheEscrow => escrow := escrow.(owner := Some(from), pendingOwner := None);
            case TheTreasury => treasury := treasury.(owner := Some(from), pendingOwner := None);
          }
      }
      return Pass;
    }

    method OffBody(from: Actor, c: Call) returns (r: Outcome)
      requires PartOf(c) == OffContracts
      modifies this`t, this`mpesa, this`float, this`eth, this`book, this`lost
      ensures r.Pass? ==> Apply(old(Now()), params, from, c) == Ok(Now())
      ensures r.Fail? ==> Apply(old(Now()), params, from, c) == Err(r.error)
    {
      match c {
        case FundGas(payee, gwei) => r := FundGas(payee, gwei);
        case SignTicket(client, nodeAdmin, units) => r := SignTicket(from, client, nodeAdmin, units);
        case StkPush(amount, fail) => r := StkPush(from, amount, fail);
        case B2cPayout(payee, amount, fail) => r := B2cPayout(payee, amount, fail);
        case Warp(seconds) => t := t + seconds; r := Pass;
        case LoseDevice => lost := lost + {from}; r := Pass;
        case RestoreFromSeed => lost := lost - {from}; r := Pass;
      }
    }

    method Body(from: Actor, c: Call) returns (r: Outcome)
      modifies this`t, this`deployed, this`token, this`escrow, this`treasury, this`mpesa, this`float, this`eth, this`book,
               this`lost
      ensures r.Pass? ==> Apply(old(Now()), params, from, c) == Ok(Now())
      ensures r.Fail? ==> Apply(old(Now()), params, from, c) == Err(r.error)
    {
      match PartOf(c) {
        case OnToken =>
          if c.Approve? || c.Transfer? || c.TransferFrom? || c.UsePermit? {
            r := TransferBody(from, c);
          } else {
            r := SupplyBody(from, c);
          }
        case OnFunds =>
          if c.Deposit? || c.DepositWithPermit? || c.WithdrawDeposit? || c.WithdrawWithSig? {
            r := DepositBody(from, c);
          } else {
            r := EarningsBody(from, c);
          }
        case OnTreasury => r := TreasuryBody(from, c);
        case OnOwners => r := OwnersBody(from, c);
        case OffContracts => r := OffBody(from, c);
      }
    }

    // ---------------------------------------------------------------- the wrapper

    /** seal: the transaction goes into a block of its own. */
    method Seal(env: Env, q: Request)
      modifies this`txNonces, this`blocks
      ensures txNonces == old(txNonces).Next(q.from)
      ensures blocks == old(blocks) + [MinedBlock(old(blocks), block, t, old(txNonces).At(q.from), env, q)]
    {
      var nonce := txNonces.At(q.from);
      txNonces := txNonces.Next(q.from);
      var tx := Tx([], env.wallet(q.from), Target(env, q.call), nonce, q.input);
      blocks := blocks + [Sealed(env.keccak, blocks, block, t, tx, q.root)];
    }

    /** finish: the entry, and for a mined transaction its block. */
    method Finish(env: Env, q: Request, status: Status, gas: int, fee: real)
      modifies this`seqNo, this`ledger, this`txNonces, this`blocks
      ensures Snapshot() == Finished(old(Snapshot()), env, q, status, gas, fee)
    {
      ghost var was := Snapshot();
      seqNo := seqNo + 1;
      var number := None;
      if OnChain(q.call) && status != Rejected {
        Seal(env, q);
        number := Some(block);
      }
      ledger := ledger + [Entry(seqNo, t, number, q.from, q.call, status, gas, fee)];
      ghost var now := Finished(was, env, q, status, gas, fee);
      assert now.blocks == blocks;
      assert now.ledger == ledger;
    }

    /** A copy to work on, with the clock and the block already moved if the call is a transaction. */
    method TickedCopy(q: Request) returns (w: LiveWorld)
      ensures fresh(w)
      ensures w.Snapshot() == Snapshot().(state := Ticked(Now(), q.call), block := block + if OnChain(q.call) then 1 else 0)
    {
      w := new LiveWorld.CopyOf(this);
      if OnChain(q.call) {
        w.t := w.t + 2;
        w.block := w.block + 1;
      }
    }

    /** A fresh copy with only the clock and the block moved. */
    method RolledBack(moved: nat, number: nat) returns (out: LiveWorld)
      ensures fresh(out)
      ensures out.Snapshot() == Snapshot().(state := Now().(t := moved), block := number)
    {
      out := new LiveWorld.CopyOf(this);
      out.t, out.block := moved, number;
    }

    /** Run the body on a copy; on a revert start again from a fresh copy with only the clock moved. */
    method Attempt(q: Request) returns (out: LiveWorld, status: Status, gas: int)
      ensures fresh(out)
      ensures out.Snapshot() == Snapshot().(state := Out(Snapshot(), q), block := block + if OnChain(q.call) then 1 else 0)
      ensures status == AttemptStatus(Snapshot(), q) && gas == GasOf(Snapshot(), q)
    {
      out := TickedCopy(q);
      gas := if OnChain(q.call) then CommitGas(out.Now(), q.from, q.call) else 0;
      var moved := out.t;
      var body := out.Body(q.from, q.call);
      if body.Pass? {
        AttemptCommits(Snapshot(), q, out.Now());
        return out, Committed, gas;
      }
      AttemptReverts(Snapshot(), q, body.error);
      out := RolledBack(moved, out.block);
      return out, Reverted(body.error), if OnChain(q.call) then RevertGas(q.call) else 0;
    }

    /** The rest of call: charge the gas to what the attempt left, or turn the transaction away. */
    method Conclude(env: Env, q: Request, left: LiveWorld, ghost x: State, status: Status, gas: int) returns (out: LiveWorld)
      requires left != this
      requires left.Snapshot() == Snapshot().(state := x, block := block + if OnChain(q.call) then 1 else 0)
      modifies left
      ensures out == left || fresh(out)
      ensures out.Snapshot() == Concluded(old(Snapshot()), env, q, x, status, gas, GasToGwei(gas, params.gasPrice))
    {
      out := left;
      if !OnChain(q.call) {
        out.Finish(env, q, status, 0, 0.0);
        return;
      }
      var fee := GasToGwei(gas, params.gasPrice);
      if out.eth.At(q.from) < fee {
        out := new LiveWorld.CopyOf(this);
        out.Finish(env, q, Rejected, 0, 0.0);
        return;
      }
      out.eth := out.eth.Plus(q.from, 0.0 - fee);
      out.Finish(env, q, status, gas, fee);
    }

    /** call: the world it is called on does not change; the world returned is one step on. */
    method Execute(env: Env, q: Request) returns (out: LiveWorld)
      ensures fresh(out) && out.Snapshot() == Step(Snapshot(), env, q)
    {
      var left, status, gas := Attempt(q);
      StepIsConcluded(Snapshot(), env, q);
      out := Conclude(env, q, left, Out(Snapshot(), q), status, gas);
    }
  }
}
