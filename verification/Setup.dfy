/** Concrete runs of the engine: from a fresh world to a token with a listed bridge, as setupNetwork deploys it. */
module Setup {
  import opened Options
  import opened EngineTypes
  import opened EngineRules
  import opened EngineRuns

  predicate Asks(r: Request, from: Actor, c: Call) { r.from == from && r.call == c }

  /** Gas costs at most one gwei, and owner and kiosk hold at least so much. */
  predicate Pays(w: World, gwei: nat) {
    0.0 <= w.params.gasPrice <= 1.0 && w.state.eth.At(Owner) >= gwei as real && w.state.eth.At(Kiosk) >= gwei as real
  }

  lemma CheapGas(gas: nat, price: real)
    requires 0.0 <= price <= 1.0
    ensures 0.0 <= GasToGwei(gas, price) <= gas as real
  {
    PartOfWhole(gas as real, price);
  }

  lemma PartOfWhole(x: real, p: real)
    requires x >= 0.0 && 0.0 <= p <= 1.0
    ensures 0.0 <= x * p <= x
  {
    assert x * (1.0 - p) >= 0.0;
  }

  /** The token's owner and the kiosk's bridge record are these, and it is t o'clock. */
  predicate At(w: World, owner: Option<Actor>, b: Bridge, t: nat) {
    w.state.token.owner == owner && BridgeOf(w.state.token, Kiosk) == b && w.state.t == t
  }

  lemma PayerKeeps(w: World, r: Request, x: State, spent: nat, gwei: nat)
    requires Pays(w, gwei) && spent <= gwei && x.eth == w.state.eth && CostOf(w, r) <= spent as real
    ensures forall a: Actor :: x.eth.Plus(r.from, 0.0 - CostOf(w, r)).At(a)
                               >= w.state.eth.At(a) - if a == r.from then spent as real else 0.0
  {
    forall a: Actor
      ensures x.eth.Plus(r.from, 0.0 - CostOf(w, r)).At(a) >= w.state.eth.At(a) - if a == r.from then spent as real else 0.0
    {
      EtherAt(x.eth, r.from, 0.0 - CostOf(w, r), a);
    }
  }

  /** A call of the owner or the kiosk whose body succeeds commits, if they can pay for its gas. */
  lemma PaidCallCommits(w: World, env: Env, r: Request, gwei: nat)
    requires OnChain(r.call) && !r.call.FundGas? && (r.from == Owner || r.from == Kiosk)
    requires var x := Ticked(w.state, r.call);
             Apply(x, w.params, r.from, r.call).Ok? && 0 <= CommitGas(x, r.from, r.call) <= gwei && Pays(w, gwei)
    ensures StatusOf(w, r) == Committed
    ensures Pays(Step(w, env, r), gwei - CommitGas(Ticked(w.state, r.call), r.from, r.call))
    ensures forall a: Actor :: a != r.from ==> Step(w, env, r).state.eth.At(a) == w.state.eth.At(a)
  {
    var x := Ticked(w.state, r.call);
    CheapGas(CommitGas(x, r.from, r.call), w.params.gasPrice);
    BodyKeepsEther(x, w.params, r.from, r.call);
    PayerKeeps(w, r, Out(w, r), CommitGas(x, r.from, r.call), gwei);
    forall a: Actor | a != r.from
      ensures Step(w, env, r).state.eth.At(a) == w.state.eth.At(a)
    {
      EtherAt(x.eth, r.from, 0.0 - CostOf(w, r), a);
    }
  }

  /** A token call that commits leaves its token behind, two seconds later. */
  lemma TokenCallCommits(w: World, env: Env, r: Request, tk: Token, gwei: nat)
    requires PartOf(r.call) == OnToken && (r.from == Owner || r.from == Kiosk)
    requires ApplyToken(w.state.token, w.state.treasury, w.state.t + 2, r.from, r.call) == Ok(tk)
    requires 0 <= CommitGas(Ticked(w.state, r.call), r.from, r.call) <= gwei && Pays(w, gwei)
    ensures StatusOf(w, r) == Committed
    ensures var y := Step(w, env, r);
            && y.state.token == tk && y.state.t == w.state.t + 2 && y.state.escrow == w.state.escrow && y.params == w.params
            && Pays(y, gwei - CommitGas(Ticked(w.state, r.call), r.from, r.call))
  {
    var x := Ticked(w.state, r.call);
    assert Apply(x, w.params, r.from, r.call) == Ok(x.(token := tk));
    PaidCallCommits(w, env, r, gwei);
    CommitAppliesBody(w, env, r);
  }

  lemma CreateTokenStep(w: World, env: Env, r: Request, owner: Option<Actor>, b: Bridge, t: nat, gwei: nat)
    requires Asks(r, Owner, CreateToken) && At(w, owner, b, t) && Pays(w, gwei) && gwei >= 1_512_737
    ensures StatusOf(w, r) == Committed && At(Step(w, env, r), Some(Owner), b, t + 2) && Pays(Step(w, env, r), gwei - 1_512_737)
  {
    TokenCallCommits(w, env, r, w.state.token.(owner := Some(Owner)), gwei);
  }

  lemma SetBridgeStep(w: World, env: Env, r: Request, b: Bridge, t: nat, allowed: bool, cap: nat, gwei: nat)
    requires Asks(r, Owner, SetBridge(Kiosk, allowed, cap)) && At(w, Some(Owner), b, t) && Pays(w, gwei) && gwei >= 48_407
    ensures StatusOf(w, r) == Committed && Pays(Step(w, env, r), gwei - 48_407)
    ensures At(Step(w, env, r), Some(Owner), b.(allowed := allowed, cap := cap), t + 2)
  {
    TokenCallCommits(w, env, r, SetBridgeRule(w.state.token, Owner, Kiosk, allowed, cap).value, gwei);
  }

  lemma MintStep(w: World, env: Env, r: Request, b: Bridge, t: nat, to: Holder, amount: nat, gwei: nat)
    requires Asks(r, Kiosk, BridgeMint(to, amount)) && At(w, Some(Owner), b, t) && Pays(w, gwei) && gwei >= 95_816
    requires MintFrom(b, t + 2, amount).Ok?
    ensures StatusOf(w, r) == Committed && Pays(Step(w, env, r), gwei - 95_816)
    ensures At(Step(w, env, r), Some(Owner), MintFrom(b, t + 2, amount).value, t + 2)
    ensures Step(w, env, r).state.token.supply == w.state.token.supply + amount
  {
    TokenCallCommits(w, env, r, MintRule(w.state.token, t + 2, Kiosk, to, amount).value, gwei);
  }

  lemma WarpStep(w: World, env: Env, r: Request, b: Bridge, t: nat, seconds: nat, gwei: nat)
    requires Asks(r, r.from, Warp(seconds)) && At(w, Some(Owner), b, t) && Pays(w, gwei)
    ensures At(Step(w, env, r), Some(Owner), b, t + seconds) && Pays(Step(w, env, r), gwei)
  {
    var x := w.state.(t := t + seconds);
    assert Apply(w.state, w.params, r.from, r.call) == Ok(x);
    assert Step(w, env, r) == OffChainStep(w, r) && Out(w, r) == x;
  }

  predicate ListsKiosk(rs: seq<Request>, cap: nat) {
    |rs| >= 2 && Asks(rs[0], Owner, CreateToken) && Asks(rs[1], Owner, SetBridge(Kiosk, true, cap))
  }

  /** Two calls from a fresh world: the token exists and the kiosk may mint up to cap. */
  lemma KioskListed(w: World, env: Env, rs: seq<Request>, cap: nat)
    requires Fresh(w) && Pays(w, 10_000_000) && ListsKiosk(rs, cap)
    ensures At(Run(w, env, rs[..2]), Some(Owner), Bridge(true, cap, 0, 0), w.state.t + 4)
    ensures Pays(Run(w, env, rs[..2]), 8_000_000)
  {
    assert rs[..0] == [];
    CreateTokenStep(w, env, rs[0], w.state.token.owner, Bridge(false, 0, 0, 0), w.state.t, 10_000_000);
    RunNext(w, env, rs, 0);
    SetBridgeStep(Run(w, env, rs[..1]), env, rs[1], Bridge(false, 0, 0, 0), w.state.t + 2, true, cap, 8_400_000);
    RunNext(w, env, rs, 1);
  }
}
