/** The fiat peg of web/src/demo/engine.js: not an invariant of its calls, but fully accounted for. */
module Peg {
  import opened EngineTypes
  import opened EngineRules
  import opened EngineRuns
  import opened Setup

  /** Supply above the kiosk's float. */
  function Gap(x: State): int { x.token.supply - x.float }

  /** What a committed call adds to the gap: minting and paying out widen it, burning and being paid narrow it. */
  function Shift(c: Call): int {
    match c
    case BridgeMint(_, amount) => amount
    case BridgeBurn(amount) => 0 - amount
    case StkPush(amount, _) => 0 - amount
    case B2cPayout(_, amount, _) => amount
    case _ => 0
  }

  lemma TokenShifts(tk: Token, tr: Treasury, t: nat, from: Actor, c: Call)
    requires PartOf(c) == OnToken && ApplyToken(tk, tr, t, from, c).Ok?
    ensures ApplyToken(tk, tr, t, from, c).value.supply == tk.supply + Shift(c)
  {}

  lemma FundsKeepSupply(f: Funds, feeBps: nat, t: nat, from: Actor, c: Call)
    requires PartOf(c) == OnFunds && ApplyFunds(f, feeBps, t, from, c).Ok?
    ensures ApplyFunds(f, feeBps, t, from, c).value.token.supply == f.token.supply
  {}

  lemma OffShifts(x: State, p: Params, from: Actor, c: Call)
    requires PartOf(c) == OffContracts && ApplyOff(x, p, from, c).Ok?
    ensures Gap(ApplyOff(x, p, from, c).value) == Gap(x) + Shift(c)
  {
    OffFrame(x, p, from, c);
  }

  lemma OwnersKeepGap(x: State, p: Params, from: Actor, c: Call)
    requires PartOf(c) == OnOwners && ApplyOwners(x, p, from, c).Ok?
    ensures Gap(ApplyOwners(x, p, from, c).value) == Gap(x)
  {
    OwnersFrame(x, p, from, c);
  }

  lemma TreasuryKeepsGap(x: State, p: Params, from: Actor, c: Call)
    requires PartOf(c) == OnTreasury && Apply(x, p, from, c).Ok?
    ensures Gap(Apply(x, p, from, c).value) == Gap(x) && Shift(c) == 0
  {}

  lemma CallShifts(x: State, p: Params, from: Actor, c: Call)
    requires Apply(x, p, from, c).Ok?
    ensures Gap(Apply(x, p, from, c).value) == Gap(x) + Shift(c)
  {
    match PartOf(c) {
      case OnToken => TokenShifts(x.token, x.treasury, x.t, from, c);
      case OnFunds => FundsKeepSupply(FundsOf(x), x.treasury.feeBps, x.t, from, c);
      case OnTreasury => TreasuryKeepsGap(x, p, from, c);
      case OnOwners => OwnersKeepGap(x, p, from, c);
      case OffContracts => OffShifts(x, p, from, c);
    }
  }

  /** The shifts of the committed calls of a run. */
  function Shifts(w: World, env: Env, rs: seq<Request>): int
    decreases |rs|
  {
    if rs == [] then 0
    else
      var v, r := Run(w, env, rs[..|rs| - 1]), rs[|rs| - 1];
      Shifts(w, env, rs[..|rs| - 1]) + if StatusOf(v, r) == Committed then Shift(r.call) else 0
  }

  lemma StepShifts(w: World, env: Env, r: Request)
    ensures Gap(Step(w, env, r).state) == Gap(w.state) + if StatusOf(w, r) == Committed then Shift(r.call) else 0
  {
    if StatusOf(w, r) == Committed {
      CommitAppliesBody(w, env, r);
      CallShifts(Ticked(w.state, r.call), w.params, r.from, r.call);
    } else {
      FailureChangesNothing(w, env, r);
    }
  }

  /** Over a run the gap is what was minted and paid out less what was burned and paid in, and nothing else. */
  lemma {:induction false} RunShifts(w: World, env: Env, rs: seq<Request>)
    ensures Gap(Run(w, env, rs).state) == Gap(w.state) + Shifts(w, env, rs)
    decreases |rs|
  {
    if rs != [] {
      RunShifts(w, env, rs[..|rs| - 1]);
      StepShifts(Run(w, env, rs[..|rs| - 1]), env, rs[|rs| - 1]);
    }
  }

  // ------------------------------------------------------------------ buy

  /** The two requests of buy that move money: the M-Pesa payment, and the mint the kiosk answers it with. */
  predicate IsBuy(pay: Request, mint: Request, client: Actor, amount: nat, fail: bool) {
    Asks(pay, client, StkPush(amount, fail)) && Asks(mint, Kiosk, BridgeMint(Wallet(client), amount))
  }

  /** runSteps: the mint is only asked for once the payment committed. */
  function Buy(w: World, env: Env, pay: Request, mint: Request): World {
    if StatusOf(w, pay) == Committed then Step(Step(w, env, pay), env, mint) else Step(w, env, pay)
  }

  /** The payment goes through: not cancelled, and covered. */
  predicate CanPay(w: World, client: Actor, amount: nat, fail: bool) { !fail && w.state.mpesa.At(client) >= amount }

  /** The kiosk may mint so much two seconds from now, and can pay for the gas. */
  predicate CanMint(w: World, amount: nat) {
    var b := BridgeOf(w.state.token, Kiosk);
    && b.allowed && Window(b, w.state.t + 2).minted + amount <= b.cap
    && w.state.eth.At(Kiosk) >= GasToGwei(95_816, w.params.gasPrice)
  }

  lemma MintCommitsIff(w: World, mint: Request, to: Holder, amount: nat)
    requires Asks(mint, Kiosk, BridgeMint(to, amount))
    ensures StatusOf(w, mint) == Committed <==> CanMint(w, amount)
  {
    var x := Ticked(w.state, mint.call);
    assert MintFrom(BridgeOf(x.token, Kiosk), w.state.t + 2, amount).Ok? <==> Apply(x, w.params, Kiosk, mint.call).Ok?;
    if Apply(x, w.params, Kiosk, mint.call).Ok? {
      BodyKeepsEther(x, w.params, Kiosk, mint.call);
    }
  }

  lemma PaymentKeepsMint(w: World, env: Env, pay: Request, client: Actor, amount: nat, fail: bool)
    requires Asks(pay, client, StkPush(amount, fail))
    ensures StatusOf(w, pay) == Committed <==> CanPay(w, client, amount, fail)
    ensures CanMint(Step(w, env, pay), amount) == CanMint(w, amount)
  {
    PaymentKeepsWindow(w, env, pay, client, amount, fail);
    PaymentCommitsIff(w, pay, client, amount, fail);
  }

  lemma PaymentCommitsIff(w: World, pay: Request, client: Actor, amount: nat, fail: bool)
    requires Asks(pay, client, StkPush(amount, fail))
    ensures StatusOf(w, pay) == Committed <==> CanPay(w, client, amount, fail)
  {}

  /**
   buy does not keep the fiat peg in every world: it takes the M-Pesa payment and only then mints. The peg is back where
   it was if and only if nothing was bought, the payment did not go through, or the kiosk can mint: its bridge listed,
   room in the window of two seconds from now, and gas for the call. Otherwise the float exceeds the supply by the amount.
   */
  lemma BuyKeepsPegIff(w: World, env: Env, pay: Request, mint: Request, client: Actor, amount: nat, fail: bool)
    requires IsBuy(pay, mint, client, amount, fail)
    ensures var gap := Gap(Buy(w, env, pay, mint).state);
            && (gap == Gap(w.state) <==> amount == 0 || !CanPay(w, client, amount, fail) || CanMint(w, amount))
            && (gap == Gap(w.state) || gap == Gap(w.state) - amount)
  {
    PaymentKeepsMint(w, env, pay, client, amount, fail);
    PaymentShifts(w, env, pay, client, amount, fail);
    MintShifts(Step(w, env, pay), env, mint, client, amount);
  }

  lemma PaymentShifts(w: World, env: Env, pay: Request, client: Actor, amount: nat, fail: bool)
    requires Asks(pay, client, StkPush(amount, fail))
    ensures Gap(Step(w, env, pay).state) == Gap(w.state) - if CanPay(w, client, amount, fail) then amount else 0
  {
    PaymentCommitsIff(w, pay, client, amount, fail);
    StepShifts(w, env, pay);
  }

  lemma MintShifts(w: World, env: Env, mint: Request, client: Actor, amount: nat)
    requires Asks(mint, Kiosk, BridgeMint(Wallet(client), amount))
    ensures Gap(Step(w, env, mint).state) == Gap(w.state) + if CanMint(w, amount) then amount else 0
  {
    MintCommitsIff(w, mint, Wallet(client), amount);
    StepShifts(w, env, mint);
  }

  lemma TokenCallKeepsFiat(w: World, env: Env, r: Request)
    requires PartOf(r.call) == OnToken
    ensures Step(w, env, r).state.mpesa == w.state.mpesa
  {}

  lemma ListingKeepsFiat(w: World, env: Env, rs: seq<Request>, cap: nat)
    requires ListsKiosk(rs, cap)
    ensures Run(w, env, rs[..2]).state.mpesa == w.state.mpesa && Gap(Run(w, env, rs[..2]).state) == Gap(w.state)
  {
    assert rs[..0] == [];
    RunNext(w, env, rs, 0);
    RunNext(w, env, rs, 1);
    TokenCallKeepsFiat(w, env, rs[0]);
    TokenCallKeepsFiat(Run(w, env, rs[..1]), env, rs[1]);
    ListingShifts(w, env, rs[0]);
    ListingShifts(Run(w, env, rs[..1]), env, rs[1]);
  }

  lemma ListingShifts(w: World, env: Env, r: Request)
    requires r.call.CreateToken? || r.call.SetBridge?
    ensures Gap(Step(w, env, r).state) == Gap(w.state)
  {
    StepShifts(w, env, r);
  }

  /** Deploy, list the kiosk with a cap, and buy one base unit more than the cap: paid for, and never minted. */
  lemma BuyOverCapBreaksPeg(w: World, env: Env, rs: seq<Request>, pay: Request, mint: Request, client: Actor, cap: nat)
    requires Fresh(w) && Pays(w, 10_000_000) && ListsKiosk(rs, cap) && w.state.mpesa.At(client) > cap
    requires IsBuy(pay, mint, client, cap + 1, false)
    ensures Gap(Buy(Run(w, env, rs[..2]), env, pay, mint).state) == 0 - (cap + 1)
  {
    KioskListed(w, env, rs, cap);
    ListingKeepsFiat(w, env, rs, cap);
    BuyKeepsPegIff(Run(w, env, rs[..2]), env, pay, mint, client, cap + 1, false);
  }

  /** A kiosk that may mint but has no ether: its mint never reaches the chain, and every payment breaks the peg. */
  lemma BuyWithoutGasBreaksPeg(w: World, env: Env, pay: Request, mint: Request, client: Actor, amount: nat)
    requires IsBuy(pay, mint, client, amount, false) && amount > 0 && w.state.mpesa.At(client) >= amount
    requires MintFrom(BridgeOf(w.state.token, Kiosk), w.state.t + 2, amount).Ok?
    requires w.state.eth.At(Kiosk) == 0.0 && w.params.gasPrice > 0.0
    ensures StatusOf(Step(w, env, pay), mint) == Rejected && Gap(Buy(w, env, pay, mint).state) == Gap(w.state) - amount
  {
    SomeGas(95_816, w.params.gasPrice);
    BuyKeepsPegIff(w, env, pay, mint, client, amount, false);
    PaymentKeepsWindow(w, env, pay, client, amount, false);
    NoGasNoMint(Step(w, env, pay), mint, Wallet(client), amount);
  }

  lemma SomeGas(gas: nat, price: real)
    requires gas > 0 && price > 0.0
    ensures GasToGwei(gas, price) > 0.0
  {}

  lemma PaymentKeepsWindow(w: World, env: Env, pay: Request, client: Actor, amount: nat, fail: bool)
    requires Asks(pay, client, StkPush(amount, fail))
    ensures var y := Step(w, env, pay);
            y.state.token == w.state.token && y.state.t == w.state.t && y.state.eth == w.state.eth && y.params == w.params
  {}

  lemma NoGasNoMint(w: World, mint: Request, to: Holder, amount: nat)
    requires Asks(mint, Kiosk, BridgeMint(to, amount)) && MintFrom(BridgeOf(w.state.token, Kiosk), w.state.t + 2, amount).Ok?
    requires w.state.eth.At(Kiosk) < GasToGwei(95_816, w.params.gasPrice)
    ensures StatusOf(w, mint) == Rejected
  {
    BodyKeepsEther(Ticked(w.state, mint.call), w.params, Kiosk, mint.call);
  }
}
