/** What a run leaves on record: one ledger entry a request, the fiat there was, and each permit used once at most. */
module EngineLedger {
  import opened Options
  import opened EngineTypes
  import opened EngineRules
  import opened EngineRuns
  import opened Movements

  // ------------------------------------------------------------------ entries

  /** The entry tells who asked for what in world w, what came of it, and what it cost. */
  ghost predicate Tells(w: World, env: Env, r: Request, e: Entry) {
    && e.from == r.from && e.call == r.call && e.status == StatusOf(w, r) && e.t == Step(w, env, r).state.t
    && (e.block.Some? <==> OnChain(r.call) && e.status != Rejected)
    && (e.block.Some? ==> e.block.value == w.block + 1 && e.gas == GasOf(w, r) && e.fee == CostOf(w, r))
    && (e.block.None? ==> e.gas == 0 && e.fee == 0.0)
  }

  lemma StepTells(w: World, env: Env, r: Request)
    ensures var y := Step(w, env, r);
            && |y.ledger| == |w.ledger| + 1 && y.ledger[..|w.ledger|] == w.ledger
            && Tells(w, env, r, y.ledger[|w.ledger|])
  {}

  /** Every request adds one entry, and entries are never changed. */
  lemma {:induction false} LedgerGrows(w: World, env: Env, rs: seq<Request>, m: nat)
    requires w.ledger == [] && m <= |rs|
    ensures |Run(w, env, rs).ledger| == |rs| && Run(w, env, rs).ledger[..m] == Run(w, env, rs[..m]).ledger
    decreases |rs|
  {
    if m == |rs| {
      assert rs[..m] == rs;
    }
    if rs != [] {
      var front := rs[..|rs| - 1];
      StepTells(Run(w, env, front), env, rs[|rs| - 1]);
      if m < |rs| {
        LedgerGrows(w, env, front, m);
        assert front[..m] == rs[..m];
      } else {
        LedgerGrows(w, env, front, m - 1);
      }
    }
  }

  /** In every run the i-th entry tells the i-th request. */
  lemma EntryTells(w: World, env: Env, rs: seq<Request>, i: nat)
    requires w.ledger == [] && i < |rs|
    ensures |Run(w, env, rs).ledger| == |rs| && Tells(Run(w, env, rs[..i]), env, rs[i], Run(w, env, rs).ledger[i])
  {
    LedgerGrows(w, env, rs, i + 1);
    LedgerGrows(w, env, rs[..i], i);
    RunNext(w, env, rs, i);
    StepTells(Run(w, env, rs[..i]), env, rs[i]);
    assert Run(w, env, rs).ledger[i] == Run(w, env, rs).ledger[..i + 1][i];
  }

  // ------------------------------------------------------------------ fiat

  ghost function FiatOf(x: State): int { TotalOf(x.mpesa) + x.float }

  lemma CallKeepsFiat(x: State, p: Params, from: Actor, c: Call)
    requires Apply(x, p, from, c).Ok?
    ensures FiatOf(Apply(x, p, from, c).value) == FiatOf(x)
  {
    if c.StkPush? {
      PlusSum(x.mpesa, from, 0 - c.amount);
    } else if c.B2cPayout? {
      PlusSum(x.mpesa, c.payee, c.amount);
    } else {
      OtherCallKeepsFiat(x, p, from, c);
    }
  }

  lemma OtherCallKeepsFiat(x: State, p: Params, from: Actor, c: Call)
    requires Apply(x, p, from, c).Ok? && !MovesFiat(c)
    ensures Apply(x, p, from, c).value.mpesa == x.mpesa && Apply(x, p, from, c).value.float == x.float
  {
    if PartOf(c) == OffContracts {
      OtherOffKeepsFiat(x, p, from, c);
    } else {
      OnChainKeepsFiat(x, p, from, c);
    }
  }

  lemma OtherOffKeepsFiat(x: State, p: Params, from: Actor, c: Call)
    requires PartOf(c) == OffContracts && !MovesFiat(c) && ApplyOff(x, p, from, c).Ok?
    ensures ApplyOff(x, p, from, c).value.mpesa == x.mpesa && ApplyOff(x, p, from, c).value.float == x.float
  {}

  lemma StepKeepsFiat(w: World, env: Env, r: Request)
    ensures FiatOf(Step(w, env, r).state) == FiatOf(w.state)
  {
    if StatusOf(w, r) == Committed {
      CommitAppliesBody(w, env, r);
      CallKeepsFiat(Ticked(w.state, r.call), w.params, r.from, r.call);
    } else {
      FailureChangesNothing(w, env, r);
    }
  }

  /** M-Pesa balances and the kiosk's float always add up to what there was at the start. */
  lemma {:induction false} RunKeepsFiat(w: World, env: Env, rs: seq<Request>)
    ensures FiatOf(Run(w, env, rs).state) == FiatOf(w.state)
    decreases |rs|
  {
    if rs != [] {
      RunKeepsFiat(w, env, rs[..|rs| - 1]);
      StepKeepsFiat(Run(w, env, rs[..|rs| - 1]), env, rs[|rs| - 1]);
    }
  }

  // ------------------------------------------------------------------ permits

  function PermitNonceAt(w: World, env: Env, rs: seq<Request>, n: nat, a: Actor): nat
    requires n <= |rs|
  {
    Run(w, env, rs[..n]).state.token.nonces.At(a)
  }

  /** The committed call executed this permit: on its own, or with a deposit and not refused there. */
  ghost predicate Executes(w: World, r: Request, p: Permit) {
    StatusOf(w, r) == Committed
    && (r.call == UsePermit(p)
        || (r.call.DepositWithPermit? && r.call.permit == p && PermitGood(Ticked(w.state, r.call), p)))
  }

  ghost predicate ExecutesAt(w: World, env: Env, rs: seq<Request>, i: nat, p: Permit)
    requires i < |rs|
  {
    Executes(Run(w, env, rs[..i]), rs[i], p)
  }

  lemma StepMovesPermitNonce(w: World, env: Env, r: Request, a: Actor)
    ensures Step(w, env, r).state.token.nonces.At(a)
            == w.state.token.nonces.At(a)
               + if StatusOf(w, r) == Committed then PermitNonceChange(Ticked(w.state, r.call), r.call, a) else 0
  {
    if StatusOf(w, r) == Committed {
      CommitAppliesBody(w, env, r);
      CallMovesGrants(Ticked(w.state, r.call), w.params, r.from, r.call, EscrowContract, EscrowContract, a);
    } else {
      FailureChangesNothing(w, env, r);
    }
  }

  lemma {:induction false} PermitNonceGrows(w: World, env: Env, rs: seq<Request>, m: nat, n: nat, a: Actor)
    requires m <= n <= |rs|
    ensures PermitNonceAt(w, env, rs, m, a) <= PermitNonceAt(w, env, rs, n, a)
    decreases n
  {
    if m < n {
      var i := n - 1;
      PermitNonceGrows(w, env, rs, m, i, a);
      PermitNonceNext(w, env, rs, i, n, a);
    }
  }

  lemma PermitNonceNext(w: World, env: Env, rs: seq<Request>, i: nat, j: nat, a: Actor)
    requires j == i + 1 <= |rs|
    ensures PermitNonceAt(w, env, rs, i, a) <= PermitNonceAt(w, env, rs, j, a)
  {
    RunNext(w, env, rs, i);
    StepMovesPermitNonce(Run(w, env, rs[..i]), env, rs[i], a);
  }

  lemma ExecutedPermit(w: World, env: Env, r: Request, p: Permit)
    requires Executes(w, r, p)
    ensures p.signature.SignedBy? && p.signature.digest.PermitDigest? && p.signature.digest.owner == p.owner
    ensures p.signature.digest.nonce == w.state.token.nonces.At(p.owner)
    ensures Step(w, env, r).state.token.nonces.At(p.owner) == w.state.token.nonces.At(p.owner) + 1
  {
    StepMovesPermitNonce(w, env, r, p.owner);
    PermitGoodIff(Ticked(w.state, r.call), p);
    if r.call == UsePermit(p) {
      CommitAppliesBody(w, env, r);
    }
  }

  lemma ExecutedPermitAt(w: World, env: Env, rs: seq<Request>, i: nat, p: Permit)
    requires i < |rs| && ExecutesAt(w, env, rs, i, p)
    ensures p.signature.SignedBy? && p.signature.digest.PermitDigest? && p.signature.digest.owner == p.owner
    ensures p.signature.digest.nonce == PermitNonceAt(w, env, rs, i, p.owner) < PermitNonceAt(w, env, rs, i + 1, p.owner)
  {
    RunNext(w, env, rs, i);
    ExecutedPermit(Run(w, env, rs[..i]), env, rs[i], p);
  }

  /** One permit signature executes at most once in a run, on its own or with a deposit. */
  lemma PermitExecutesOnce(w: World, env: Env, rs: seq<Request>, i: nat, p: Permit, j: nat, q: Permit)
    requires i < j < |rs| && ExecutesAt(w, env, rs, i, p) && ExecutesAt(w, env, rs, j, q)
    ensures p.signature != q.signature
  {
    ExecutedPermitAt(w, env, rs, i, p);
    ExecutedPermitAt(w, env, rs, j, q);
    PermitNonceGrows(w, env, rs, i + 1, j, p.owner);
  }

  // ------------------------------------------------------------------ settings

  /** What the owners' calls set when they commit, and when they do. */
  lemma SettingsTakeEffect(x: State, p: Params, from: Actor, c: Call)
    ensures c.SetPricePerUnit? ==>
              && (Apply(x, p, from, c).Ok? <==>
                    x.escrow.owner == Some(from) && MIN_PRICE <= c.price <= MAX_PRICE && x.t >= x.escrow.lastPriceChange + DAY)
              && (Apply(x, p, from, c).Ok? ==>
                    Apply(x, p, from, c).value.escrow.pricePerUnit == c.price
                    && Apply(x, p, from, c).value.escrow.lastPriceChange == x.t)
    ensures c.SetBridge? ==>
              && (Apply(x, p, from, c).Ok? <==> x.token.owner == Some(from))
              && (Apply(x, p, from, c).Ok? ==>
                    BridgeOf(Apply(x, p, from, c).value.token, c.bridge)
                    == BridgeOf(x.token, c.bridge).(allowed := c.allowed, cap := c.cap))
    ensures c.SetFeeBps? ==>
              && (Apply(x, p, from, c).Ok? <==> x.treasury.owner == Some(from) && c.feeBps <= MAX_FEE_BPS)
              && (Apply(x, p, from, c).Ok? ==> Apply(x, p, from, c).value.treasury.feeBps == c.feeBps)
  {}

  lemma FundsKeepTreasury(x: State, p: Params, from: Actor, c: Call)
    requires PartOf(c) == OnToken || PartOf(c) == OnFunds
    ensures Apply(x, p, from, c).Ok? ==> Apply(x, p, from, c).value.treasury == x.treasury
  {}

  lemma TreasuryKeepsFee(tr: Treasury, p: Params, t: nat, from: Actor, c: Call)
    requires PartOf(c) == OnTreasury && !c.SetFeeBps? && !c.CreateTreasury? && ApplyTreasury(tr, p, t, from, c).Ok?
    ensures ApplyTreasury(tr, p, t, from, c).value.feeBps == tr.feeBps
  {}

  /** The fee rate moves only when the treasury is created or its owner sets it. */
  lemma OthersKeepFee(x: State, p: Params, from: Actor, c: Call)
    requires Apply(x, p, from, c).Ok? && !c.SetFeeBps? && !c.CreateTreasury?
    ensures Apply(x, p, from, c).value.treasury.feeBps == x.treasury.feeBps
  {
    match PartOf(c) {
      case OnToken => FundsKeepTreasury(x, p, from, c);
      case OnFunds => FundsKeepTreasury(x, p, from, c);
      case OnTreasury => TreasuryKeepsFee(x.treasury, p, x.t, from, c);
      case OnOwners => OwnersFrame(x, p, from, c);
      case OffContracts => OffFrame(x, p, from, c);
    }
  }
}
