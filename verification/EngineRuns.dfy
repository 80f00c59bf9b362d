/** The call wrapper of web/src/demo/engine.js and what every run of calls keeps: ledger, chain, nonces, ETH and money. */
module EngineRuns {
  import opened Bytes
  import opened HashChain
  import opened Options
  import opened EngineTypes
  import opened EngineRules
  import opened EngineMoney

  /** One call as it is submitted. The calldata and the state root are computed outside the rules. */
  datatype Request = Request(from: Actor, call: Call, input: bytes, root: bytes)

  /** Hash function and addresses. */
  datatype Env = Env(keccak: Keccak, wallet: Actor -> bytes, contract: Contract -> bytes)

  datatype Status = Committed | Reverted(error: Error) | Rejected

  datatype Entry = Entry(id: nat, t: nat, block: Option<nat>, from: Actor, call: Call, status: Status, gas: int, fee: real)

  datatype World = World(params: Params, block: nat, state: State, txNonces: Counters, seqNo: nat,
                         ledger: seq<Entry>, blocks: seq<Block>)

  /** What a world is created with besides its parameters: the clock and the balances outside the contracts. */
  datatype Opening = Opening(t: nat, mpesa: Purse<Actor>, eth: Ether)

  ghost predicate Honest(o: Opening) { NonNegative(o.mpesa) && NobodyOwes(o.eth) }

  ghost predicate NobodyOwes(e: Ether) { forall a: Actor :: e.At(a) >= 0.0 }

  /** Nothing deployed, minted, queued, signed or sealed yet. */
  ghost predicate Fresh(w: World) {
    && w.block == 0 && w.seqNo == 0 && w.ledger == [] && w.blocks == [] && (forall a: Actor :: w.txNonces.At(a) == 0)
    && w.state.token.supply == 0 && |w.state.token.bal.m| == 0 && |w.state.token.allow| == 0 && |w.state.token.bridges| == 0
    && |w.state.escrow.deposits.m| == 0 && |w.state.escrow.earnings.m| == 0 && |w.state.escrow.channels| == 0
    && w.state.treasury.feeBps == 0 && w.state.treasury.pending == None && w.state.treasury.beneficiary == None
    && w.state.float == 0 && w.state.book == [] && NonNegative(w.state.mpesa) && NobodyOwes(w.state.eth)
  }

  function CreateWorld(p: Params, o: Opening): (w: World)
    requires Honest(o)
    ensures Fresh(w) && w.params == p && w.state.t == o.t
  {
    var tk := Token(None, None, 0, Purse(map[]), map[], Counters(map[]), map[]);
    var e := Escrow(None, None, Purse(map[]), Purse(map[]), map[], Counters(map[]), 0, 0);
    var x := State(o.t, false, tk, e, Treasury(None, None, 0, None, None, 0), o.mpesa, 0, o.eth, [], {});
    World(p, 0, x, Counters(map[]), 0, [], [])
  }

  function Ticked(x: State, c: Call): State { if OnChain(c) then x.(t := x.t + 2) else x }

  function Target(env: Env, c: Call): Recipient {
    match c
    case CreateToken => Creation
    case CreateTreasury => Creation
    case CreateEscrow => Creation
    case SetBridge(_, _, _) => Address(env.contract(TheToken))
    case BridgeMint(_, _) => Address(env.contract(TheToken))
    case BridgeBurn(_) => Address(env.contract(TheToken))
    case Approve(_, _) => Address(env.contract(TheToken))
    case Transfer(_, _) => Address(env.contract(TheToken))
    case TransferFrom(_, _, _) => Address(env.contract(TheToken))
    case UsePermit(_) => Address(env.contract(TheToken))
    case Claim => Address(env.contract(TheTreasury))
    case SetFeeBps(_) => Address(env.contract(TheTreasury))
    case QueueBeneficiary(_) => Address(env.contract(TheTreasury))
    case ActivateBeneficiary => Address(env.contract(TheTreasury))
    case CancelBeneficiaryChange => Address(env.contract(TheTreasury))
    case TransferOwnership(contract, _) => Address(env.contract(contract))
    case AcceptOwnership(contract) => Address(env.contract(contract))
    case FundGas(payee, _) => Address(env.wallet(payee))
    case _ => Address(env.contract(TheEscrow))
  }

  /** The world a call leaves before its entry is written: committed, or rolled back but for the clock. */
  function Out(w: World, r: Request): State {
    var body := Apply(Ticked(w.state, r.call), w.params, r.from, r.call);
    if body.Ok? then body.value else w.state.(t := Ticked(w.state, r.call).t)
  }

  function StatusOf(w: World, r: Request): Status {
    var body := Apply(Ticked(w.state, r.call), w.params, r.from, r.call);
    if OnChain(r.call) && Out(w, r).eth.At(r.from) < CostOf(w, r) then Rejected
    else if body.Ok? then Committed else Reverted(body.error)
  }

  function GasOf(w: World, r: Request): int {
    if !OnChain(r.call) then 0
    else if Apply(Ticked(w.state, r.call), w.params, r.from, r.call).Ok? then CommitGas(Ticked(w.state, r.call), r.from, r.call)
    else RevertGas(r.call)
  }

  /** gasToGwei, the L1 share being part of the price. */
  function GasToGwei(gas: int, price: real): real { gas as real * price }

  function CostOf(w: World, r: Request): real { GasToGwei(GasOf(w, r), w.params.gasPrice) }

  function Logged(w: World, r: Request, t: nat, block: Option<nat>, status: Status, gas: int, fee: real): seq<Entry> {
    w.ledger + [Entry(w.seqNo + 1, t, block, r.from, r.call, status, gas, fee)]
  }

  /** seal: the transaction goes into a block of its own. */
  function SealedBlock(w: World, env: Env, r: Request, t: nat): Block {
    Sealed(env.keccak, w.blocks, w.block + 1, t,
           Tx([], env.wallet(r.from), Target(env, r.call), w.txNonces.At(r.from), r.input), r.root)
  }

  function Charged(w: World, r: Request): State {
    Out(w, r).(eth := Out(w, r).eth.Plus(r.from, 0.0 - CostOf(w, r)))
  }

  /** The node turns the transaction away: only the ledger hears of it. */
  function RejectStep(w: World, r: Request): World {
    w.(seqNo := w.seqNo + 1, ledger := Logged(w, r, w.state.t, None, Rejected, 0, 0.0))
  }

  function OffChainStep(w: World, r: Request): World {
    w.(state := Out(w, r), seqNo := w.seqNo + 1, ledger := Logged(w, r, Out(w, r).t, None, StatusOf(w, r), 0, 0.0))
  }

  /** Everything a sealed call changes but the chain of blocks. */
  function Account(w: World, r: Request, x: State, t: nat, status: Status, gas: int, fee: real): World {
    w.(state := x, block := w.block + 1, txNonces := w.txNonces.Next(r.from), seqNo := w.seqNo + 1,
       ledger := Logged(w, r, t, Some(w.block + 1), status, gas, fee))
  }

  function AccountFor(w: World, r: Request): World {
    Account(w, r, Charged(w, r), Out(w, r).t, StatusOf(w, r), GasOf(w, r), CostOf(w, r))
  }

  function SealStep(w: World, env: Env, r: Request): World {
    AccountFor(w, r).(blocks := w.blocks + [SealedBlock(w, env, r, Out(w, r).t)])
  }

  /** call, finish and seal: one step of the demo. */
  function Step(w: World, env: Env, r: Request): World {
    if StatusOf(w, r) == Rejected then RejectStep(w, r)
    else if OnChain(r.call) then SealStep(w, env, r)
    else OffChainStep(w, r)
  }

  function Run(w: World, env: Env, rs: seq<Request>): World
    decreases |rs|
  {
    if rs == [] then w else Step(Run(w, env, rs[..|rs| - 1]), env, rs[|rs| - 1])
  }

  /** The i-th call of a run took effect. */
  predicate Commits(w: World, env: Env, rs: seq<Request>, i: nat)
    requires i < |rs|
  {
    StatusOf(Run(w, env, rs[..i]), rs[i]) == Committed
  }

  lemma RunNext(w: World, env: Env, rs: seq<Request>, i: nat)
    requires i < |rs|
    ensures Run(w, env, rs[..i + 1]) == Step(Run(w, env, rs[..i]), env, rs[i])
  {
    assert rs[..i + 1][..i] == rs[..i];
  }

  // ------------------------------------------------------------------ one step

  /** A reverted or rejected call changes no contract, no fiat and no wallet: at most the clock and the payer's gas. */
  lemma FailureChangesNothing(w: World, env: Env, r: Request)
    requires StatusOf(w, r) != Committed
    ensures var y := Step(w, env, r).state;
            y == w.state.(t := y.t, eth := y.eth)
  {}

  /** A committed call does to the contracts exactly what its body does. */
  lemma CommitAppliesBody(w: World, env: Env, r: Request)
    requires StatusOf(w, r) == Committed
    ensures Apply(Ticked(w.state, r.call), w.params, r.from, r.call).Ok?
    ensures var y, body := Step(w, env, r).state, Apply(Ticked(w.state, r.call), w.params, r.from, r.call).value;
            && y.token == body.token && y.escrow == body.escrow && y.treasury == body.treasury
            && y.mpesa == body.mpesa && y.float == body.float && y.book == body.book && y.t == body.t
  {}

  lemma ClockOfBody(x: State, p: Params, from: Actor, c: Call)
    requires Apply(x, p, from, c).Ok?
    ensures Apply(x, p, from, c).value.t == x.t + if c.Warp? then c.seconds else 0
  {}

  /** The clock never runs backwards, and every sealed transaction takes two seconds. */
  lemma ClockAdvances(w: World, env: Env, r: Request)
    ensures var y := Step(w, env, r);
            && y.state.t >= w.state.t
            && (y.block != w.block ==> y.state.t >= w.state.t + 2)
            && Out(w, r).t >= w.state.t
            && y.params == w.params
  {
    var x := Ticked(w.state, r.call);
    if Apply(x, w.params, r.from, r.call).Ok? {
      ClockOfBody(x, w.params, r.from, r.call);
    }
  }

  // ------------------------------------------------------------------ ledger, chain and nonces

  /** Entries of one payer that were sealed into blocks. */
  function SealedBy(ledger: seq<Entry>, a: Actor): nat {
    if ledger == [] then 0
    else
      var last := ledger[|ledger| - 1];
      SealedBy(ledger[..|ledger| - 1], a) + if last.block.Some? && last.from == a then 1 else 0
  }

  /** All gas, and all ETH paid for gas, that the ledger shows. */
  function GasCharged(ledger: seq<Entry>): int {
    if ledger == [] then 0 else GasCharged(ledger[..|ledger| - 1]) + ledger[|ledger| - 1].gas
  }

  function FeesCharged(ledger: seq<Entry>): real {
    if ledger == [] then 0.0 else FeesCharged(ledger[..|ledger| - 1]) + ledger[|ledger| - 1].fee
  }

  ghost predicate Numbered(w: World) {
    && w.seqNo == |w.ledger| && (forall i :: 0 <= i < |w.ledger| ==> w.ledger[i].id == i + 1)
    && w.block == |w.blocks| && (forall i :: 0 <= i < |w.blocks| ==> w.blocks[i].number == i + 1)
  }

  ghost predicate InOrder(w: World) {
    && (forall i :: 0 <= i < |w.blocks| ==> w.blocks[i].timestamp <= w.state.t)
    && (forall i, j :: 0 <= i < j < |w.blocks| ==> w.blocks[i].timestamp + 2 <= w.blocks[j].timestamp)
    && (forall i :: 0 <= i < |w.ledger| ==> w.ledger[i].t <= w.state.t)
    && (forall i, j :: 0 <= i < j < |w.ledger| ==> w.ledger[i].t <= w.ledger[j].t)
  }

  ghost predicate NoncesCount(w: World) { forall a: Actor :: w.txNonces.At(a) == SealedBy(w.ledger, a) }

  ghost predicate WellFormed(w: World, env: Env) {
    Numbered(w) && InOrder(w) && NoncesCount(w) && Verified(env.keccak, w.blocks)
  }

  lemma StepNumbered(w: World, env: Env, r: Request)
    requires Numbered(w)
    ensures Numbered(Step(w, env, r))
  {}

  lemma StepInOrder(w: World, env: Env, r: Request)
    requires InOrder(w)
    ensures InOrder(Step(w, env, r))
  {
    ClockAdvances(w, env, r);
  }

  lemma StepNonces(w: World, env: Env, r: Request)
    requires NoncesCount(w)
    ensures NoncesCount(Step(w, env, r))
  {
    var y := Step(w, env, r);
    var n := |w.ledger|;
    assert y.ledger[..n] == w.ledger && |y.ledger| == n + 1;
    forall a: Actor
      ensures y.txNonces.At(a) == SealedBy(y.ledger, a)
    {
      assert w.txNonces.At(a) == SealedBy(w.ledger, a);
    }
  }

  lemma StepVerified(w: World, env: Env, r: Request)
    requires Verified(env.keccak, w.blocks)
    ensures Verified(env.keccak, Step(w, env, r).blocks)
  {
    if StatusOf(w, r) != Rejected && OnChain(r.call) {
      SealVerifies(env.keccak, w.blocks, w.block + 1, Out(w, r).t,
                   Tx([], env.wallet(r.from), Target(env, r.call), w.txNonces.At(r.from), r.input), r.root);
    }
  }

  lemma {:induction false} RunWellFormed(w: World, env: Env, rs: seq<Request>)
    requires WellFormed(w, env)
    ensures WellFormed(Run(w, env, rs), env)
    decreases |rs|
  {
    if rs != [] {
      var front, r := rs[..|rs| - 1], rs[|rs| - 1];
      RunWellFormed(w, env, front);
      var v := Run(w, env, front);
      StepNumbered(v, env, r);
      StepInOrder(v, env, r);
      StepNonces(v, env, r);
      StepVerified(v, env, r);
    }
  }

  /** Whatever is called, in whatever order, from a fresh world. */
  lemma EveryRunIsWellFormed(w: World, env: Env, rs: seq<Request>)
    requires Fresh(w)
    ensures WellFormed(Run(w, env, rs), env)
  {
    RunWellFormed(w, env, rs);
  }

  // ------------------------------------------------------------------ ETH

  ghost predicate EtherSound(w: World, start: real) {
    && NobodyOwes(w.state.eth)
    && TotalEther(w.state.eth) == start - FeesCharged(w.ledger)
  }

  lemma BodyKeepsEther(x: State, p: Params, from: Actor, c: Call)
    requires Apply(x, p, from, c).Ok? && !c.FundGas?
    ensures Apply(x, p, from, c).value.eth == x.eth
  {
    match PartOf(c) {
      case OnOwners => OwnersFrame(x, p, from, c);
      case OffContracts => OffKeepsEther(x, p, from, c);
      case _ =>
    }
  }

  lemma OffKeepsEther(x: State, p: Params, from: Actor, c: Call)
    requires PartOf(c) == OffContracts && ApplyOff(x, p, from, c).Ok? && !c.FundGas?
    ensures ApplyOff(x, p, from, c).value.eth == x.eth
  {}

  lemma EtherAt(e: Ether, a: Actor, n: real, b: Actor)
    ensures e.Plus(a, n).At(b) == e.At(b) + if b == a then n else 0.0
  {}

  lemma FundKeepsEther(x: State, to: Actor, gwei: nat)
    requires FundGasRule(x, to, gwei).Ok? && NobodyOwes(x.eth)
    ensures TotalEther(FundGasRule(x, to, gwei).value.eth) == TotalEther(x.eth)
    ensures NobodyOwes(FundGasRule(x, to, gwei).value.eth)
  {
    var paid := x.eth.Plus(Kiosk, 0.0 - gwei as real);
    EtherPlus(x.eth, Kiosk, 0.0 - gwei as real);
    EtherPlus(paid, to, gwei as real);
    forall a: Actor
      ensures FundGasRule(x, to, gwei).value.eth.At(a) >= 0.0
    {
      assert x.eth.At(a) >= 0.0;
      EtherAt(x.eth, Kiosk, 0.0 - gwei as real, a);
      EtherAt(paid, to, gwei as real, a);
    }
  }

  /** Before gas, a call only moves ETH between actors. */
  lemma OutEther(w: World, r: Request)
    requires NobodyOwes(w.state.eth)
    ensures TotalEther(Out(w, r).eth) == TotalEther(w.state.eth)
    ensures NobodyOwes(Out(w, r).eth)
  {
    var x := Ticked(w.state, r.call);
    if Apply(x, w.params, r.from, r.call).Ok? {
      if r.call.FundGas? {
        FundKeepsEther(x, r.call.payee, r.call.gwei);
      } else {
        BodyKeepsEther(x, w.params, r.from, r.call);
      }
    }
  }

  lemma GasNonNegative(w: World, r: Request)
    ensures GasOf(w, r) >= 0
  {
    CommitGasNonNegative(Ticked(w.state, r.call), r.from, r.call);
  }

  lemma CostNonNegative(gas: int, p: real)
    requires gas >= 0 && p >= 0.0
    ensures GasToGwei(gas, p) >= 0.0
  {}

  lemma ChargeEther(e: Ether, a: Actor, cost: real, y: Ether)
    requires NobodyOwes(e) && 0.0 <= cost <= e.At(a) && y == e.Plus(a, 0.0 - cost)
    ensures NobodyOwes(y)
    ensures TotalEther(y) == TotalEther(e) - cost
  {
    EtherPlus(e, a, 0.0 - cost);
    forall b: Actor
      ensures y.At(b) >= 0.0
    {
      EtherAt(e, a, 0.0 - cost, b);
      assert e.At(b) >= 0.0;
    }
  }

  lemma SealedStepEther(w: World, r: Request)
    requires NobodyOwes(w.state.eth) && w.params.gasPrice >= 0.0 && OnChain(r.call) && StatusOf(w, r) != Rejected
    ensures NobodyOwes(Charged(w, r).eth)
    ensures TotalEther(Charged(w, r).eth) == TotalEther(w.state.eth) - CostOf(w, r)
  {
    OutEther(w, r);
    GasNonNegative(w, r);
    CostNonNegative(GasOf(w, r), w.params.gasPrice);
    ChargeEther(Out(w, r).eth, r.from, CostOf(w, r), Charged(w, r).eth);
  }

  lemma AccountEther(w: World, r: Request, x: State, t: nat, status: Status, gas: int, fee: real, start: real)
    requires EtherSound(w, start) && NobodyOwes(x.eth)
    requires TotalEther(x.eth) == TotalEther(w.state.eth) - fee
    ensures EtherSound(Account(w, r, x, t, status, gas, fee), start)
  {
    var y := Account(w, r, x, t, status, gas, fee);
    assert y.ledger[..|w.ledger|] == w.ledger;
  }

  lemma ChainHoldsNoEther(w: World, blocks: seq<Block>, start: real)
    requires EtherSound(w, start)
    ensures EtherSound(w.(blocks := blocks), start)
  {}

  lemma SealStepEther(w: World, env: Env, r: Request, start: real)
    requires EtherSound(w, start) && w.params.gasPrice >= 0.0 && OnChain(r.call) && StatusOf(w, r) != Rejected
    ensures EtherSound(SealStep(w, env, r), start)
  {
    SealedStepEther(w, r);
    AccountEther(w, r, Charged(w, r), Out(w, r).t, StatusOf(w, r), GasOf(w, r), CostOf(w, r), start);
    ChainHoldsNoEther(AccountFor(w, r), w.blocks + [SealedBlock(w, env, r, Out(w, r).t)], start);
  }

  lemma RejectStepEther(w: World, r: Request, start: real)
    requires EtherSound(w, start)
    ensures EtherSound(RejectStep(w, r), start)
  {
    assert RejectStep(w, r).ledger[..|w.ledger|] == w.ledger;
  }

  lemma OffChainStepEther(w: World, r: Request, start: real)
    requires EtherSound(w, start)
    ensures EtherSound(OffChainStep(w, r), start)
  {
    assert OffChainStep(w, r).ledger[..|w.ledger|] == w.ledger;
    OutEther(w, r);
  }

  lemma StepEther(w: World, env: Env, r: Request, start: real)
    requires EtherSound(w, start) && w.params.gasPrice >= 0.0
    ensures EtherSound(Step(w, env, r), start)
  {
    if StatusOf(w, r) == Rejected {
      RejectStepEther(w, r, start);
    } else if OnChain(r.call) {
      SealStepEther(w, env, r, start);
    } else {
      OffChainStepEther(w, r, start);
    }
  }

  lemma {:induction false} RunKeepsParams(w: World, env: Env, rs: seq<Request>)
    ensures Run(w, env, rs).params == w.params
    decreases |rs|
  {
    if rs != [] {
      RunKeepsParams(w, env, rs[..|rs| - 1]);
    }
  }

  lemma {:induction false} RunEtherFrom(w: World, env: Env, rs: seq<Request>, start: real)
    requires EtherSound(w, start) && w.params.gasPrice >= 0.0
    ensures EtherSound(Run(w, env, rs), start)
    decreases |rs|
  {
    if rs != [] {
      var front := rs[..|rs| - 1];
      RunEtherFrom(w, env, front, start);
      RunKeepsParams(w, env, front);
      StepEther(Run(w, env, front), env, rs[|rs| - 1], start);
    }
  }

  /** Every fee in the ledger is its gas at the world's gas price. */
  ghost predicate FeesPriced(w: World) { forall i :: 0 <= i < |w.ledger| ==> Priced(w.ledger[i], w.params.gasPrice) }

  predicate Priced(e: Entry, price: real) { e.fee == GasToGwei(e.gas, price) }

  lemma AccountPriced(w: World, r: Request, x: State, t: nat, status: Status, gas: int, fee: real)
    requires FeesPriced(w) && fee == GasToGwei(gas, w.params.gasPrice)
    ensures FeesPriced(Account(w, r, x, t, status, gas, fee))
  {
    var y := Account(w, r, x, t, status, gas, fee);
    forall i | 0 <= i < |y.ledger|
      ensures Priced(y.ledger[i], y.params.gasPrice)
    {
      if i < |w.ledger| {
        assert y.ledger[i] == w.ledger[i] && Priced(w.ledger[i], w.params.gasPrice);
      }
    }
  }

  lemma StepPriced(w: World, env: Env, r: Request)
    requires FeesPriced(w)
    ensures FeesPriced(Step(w, env, r))
  {
    if StatusOf(w, r) == Rejected {
      UnchargedPriced(w, RejectStep(w, r));
    } else if OnChain(r.call) {
      AccountPriced(w, r, Charged(w, r), Out(w, r).t, StatusOf(w, r), GasOf(w, r), CostOf(w, r));
    } else {
      UnchargedPriced(w, OffChainStep(w, r));
    }
  }

  lemma UnchargedPriced(w: World, y: World)
    requires FeesPriced(w) && y.params.gasPrice == w.params.gasPrice && |y.ledger| == |w.ledger| + 1
    requires y.ledger[..|w.ledger|] == w.ledger && y.ledger[|w.ledger|].gas == 0 && y.ledger[|w.ledger|].fee == 0.0
    ensures FeesPriced(y)
  {
    forall i | 0 <= i < |y.ledger|
      ensures Priced(y.ledger[i], y.params.gasPrice)
    {
      if i < |w.ledger| {
        assert y.ledger[i] == y.ledger[..|w.ledger|][i] && Priced(w.ledger[i], w.params.gasPrice);
      }
    }
  }

  lemma {:induction false} RunPriced(w: World, env: Env, rs: seq<Request>)
    requires FeesPriced(w)
    ensures FeesPriced(Run(w, env, rs))
    decreases |rs|
  {
    if rs != [] {
      RunPriced(w, env, rs[..|rs| - 1]);
      StepPriced(Run(w, env, rs[..|rs| - 1]), env, rs[|rs| - 1]);
    }
  }

  lemma {:induction false} PricedTotal(ledger: seq<Entry>, price: real)
    requires forall i :: 0 <= i < |ledger| ==> Priced(ledger[i], price)
    ensures FeesCharged(ledger) == GasToGwei(GasCharged(ledger), price)
  {
    if ledger != [] {
      var front, last := ledger[..|ledger| - 1], ledger[|ledger| - 1];
      PricedTotal(front, price);
      assert Priced(last, price);
      RealDistribute(GasCharged(front), last.gas, price);
    }
  }

  lemma RealDistribute(a: int, b: int, p: real)
    ensures (a + b) as real * p == a as real * p + b as real * p
  {}

  /** ETH only leaves as gas, exactly as much as the ledger says, and nobody's balance goes negative. */
  ghost predicate OnlyGasLeft(w: World, start: real) {
    NobodyOwes(w.state.eth) && TotalEther(w.state.eth) == start - GasToGwei(GasCharged(w.ledger), w.params.gasPrice)
  }

  lemma FeesAreGas(w: World, start: real)
    requires EtherSound(w, start) && FeesPriced(w)
    ensures OnlyGasLeft(w, start)
  {
    PricedTotal(w.ledger, w.params.gasPrice);
  }

  lemma RunEther(w: World, env: Env, rs: seq<Request>)
    requires Fresh(w) && w.params.gasPrice >= 0.0
    ensures OnlyGasLeft(Run(w, env, rs), TotalEther(w.state.eth))
  {
    RunEtherFrom(w, env, rs, TotalEther(w.state.eth));
    RunPriced(w, env, rs);
    FeesAreGas(Run(w, env, rs), TotalEther(w.state.eth));
  }

  // ------------------------------------------------------------------ money

  /** What a step gave to the escrow's address: nothing unless it committed. */
  function Donated(w: World, r: Request): int {
    if StatusOf(w, r) == Committed then Donation(Ticked(w.state, r.call), r.call) else 0
  }

  function Donations(w: World, env: Env, rs: seq<Request>): int
    decreases |rs|
  {
    if rs == [] then 0
    else Donations(w, env, rs[..|rs| - 1]) + Donated(Run(w, env, rs[..|rs| - 1]), rs[|rs| - 1])
  }

  lemma StepMoney(w: World, env: Env, r: Request)
    requires Sound(w.state) && w.params.feeBps <= 10_000
    ensures Sound(Step(w, env, r).state)
    ensures Surplus(FundsOf(Step(w, env, r).state))
            == Surplus(FundsOf(w.state)) + Donated(w, r)
  {
    var x := Ticked(w.state, r.call);
    if Apply(x, w.params, r.from, r.call).Ok? {
      ApplyMoney(x, w.params, r.from, r.call);
    }
  }

  /** The money is sound and the escrow's surplus is the one it started with plus every donation since. */
  ghost predicate Solvent(w: World, surplus: int) {
    Sound(w.state) && Surplus(FundsOf(w.state)) == surplus
  }

  lemma FreshIsSolvent(w: World)
    requires Fresh(w)
    ensures Solvent(w, 0)
  {}

  lemma {:induction false} RunMoneyFrom(w: World, env: Env, rs: seq<Request>, surplus: int)
    requires Solvent(w, surplus) && w.params.feeBps <= 10_000
    ensures Solvent(Run(w, env, rs), surplus + Donations(w, env, rs))
    decreases |rs|
  {
    if rs != [] {
      var front := rs[..|rs| - 1];
      RunMoneyFrom(w, env, front, surplus);
      RunKeepsParams(w, env, front);
      StepMoney(Run(w, env, front), env, rs[|rs| - 1]);
    }
  }

  /**
   Solvency and conservation of every run: the escrow holds exactly what it owes plus what was sent to its address
   without credit, so it can always pay; the balances add up to the supply and none is negative.
   */
  lemma RunMoney(w: World, env: Env, rs: seq<Request>)
    requires Fresh(w) && w.params.feeBps <= 10_000
    ensures Solvent(Run(w, env, rs), Donations(w, env, rs))
  {
    FreshIsSolvent(w);
    RunMoneyFrom(w, env, rs, 0);
  }

  /** A call that names the escrow as a token destination or finds it named as beneficiary. */
  predicate NamesEscrow(x: State, c: Call) {
    match c
    case BridgeMint(to, _) => to == EscrowContract
    case Transfer(to, _) => to == EscrowContract
    case TransferFrom(_, to, _) => to == EscrowContract
    case WithdrawWithSig(_, dest) => dest == Some(EscrowContract)
    case ClaimEarnings(to, _) => to == EscrowContract
    case Claim => x.treasury.beneficiary == Some(EscrowContract)
    case _ => false
  }

  lemma NotNamedNotDonated(w: World, r: Request)
    requires !NamesEscrow(w.state, r.call)
    ensures Donated(w, r) == 0
  {}

  ghost predicate NeverNamed(w: World, env: Env, rs: seq<Request>) {
    forall i :: 0 <= i < |rs| ==> !NamesEscrow(Run(w, env, rs[..i]).state, rs[i].call)
  }

  lemma NeverNamedBefore(w: World, env: Env, rs: seq<Request>, n: nat)
    requires NeverNamed(w, env, rs) && n <= |rs|
    ensures NeverNamed(w, env, rs[..n])
  {
    var front := rs[..n];
    forall i | 0 <= i < n
      ensures !NamesEscrow(Run(w, env, front[..i]).state, front[i].call)
    {
      assert front[..i] == rs[..i] && front[i] == rs[i];
    }
  }

  lemma {:induction false} NoDonationUnlessNamed(w: World, env: Env, rs: seq<Request>)
    requires NeverNamed(w, env, rs)
    ensures Donations(w, env, rs) == 0
    decreases |rs|
  {
    if rs != [] {
      var n := |rs| - 1;
      NeverNamedBefore(w, env, rs, n);
      NoDonationUnlessNamed(w, env, rs[..n]);
      NotNamedNotDonated(Run(w, env, rs[..n]), rs[n]);
    }
  }

  /** The demo's "escrow solvency" invariant, with equality: it holds in every run that never names the escrow. */
  lemma EscrowExact(w: World, env: Env, rs: seq<Request>)
    requires Fresh(w) && w.params.feeBps <= 10_000 && NeverNamed(w, env, rs)
    ensures var x := Run(w, env, rs).state;
            x.token.bal.At(EscrowContract) == TotalOf(x.escrow.deposits) + TotalOf(x.escrow.earnings)
  {
    RunMoney(w, env, rs);
    NoDonationUnlessNamed(w, env, rs);
  }
}
