/** The owners' powers over runs: the price moves within its band and once a day, ownership moves in two steps. */
module Governance {
  import opened Options
  import opened EngineTypes
  import opened EngineRules
  import opened EngineRuns
  import opened Timelock

  // ------------------------------------------------------------------ price

  /** Deployment sets the price once, before the runs considered here. */
  ghost predicate NoDeployment(rs: seq<Request>) { forall i :: 0 <= i < |rs| ==> !rs[i].call.CreateEscrow? }

  /** The price and its clock move together, by a setPricePerUnit at least a day after the last change. */
  ghost predicate PriceStep(x: Escrow, c: Call, t: nat, y: Escrow) {
    y.pricePerUnit != x.pricePerUnit || y.lastPriceChange != x.lastPriceChange ==>
      && c.SetPricePerUnit? && y.pricePerUnit == c.price && MIN_PRICE <= c.price <= MAX_PRICE
      && y.lastPriceChange == t >= x.lastPriceChange + DAY
  }

  lemma {:induction false} BatchKeepsPrice(e: Escrow, feeBps: nat, now: nat, ts: seq<Ticket>)
    requires Settlement.Batch(e, feeBps, now, ts).Ok?
    ensures Settlement.Batch(e, feeBps, now, ts).value.escrow.pricePerUnit == e.pricePerUnit
    ensures Settlement.Batch(e, feeBps, now, ts).value.escrow.lastPriceChange == e.lastPriceChange
    decreases |ts|
  {
    if ts != [] {
      BatchKeepsPrice(e, feeBps, now, ts[..|ts| - 1]);
    }
  }

  lemma FundsMovePrice(f: Funds, feeBps: nat, t: nat, from: Actor, c: Call)
    requires PartOf(c) == OnFunds && ApplyFunds(f, feeBps, t, from, c).Ok?
    ensures PriceStep(f.escrow, c, t, ApplyFunds(f, feeBps, t, from, c).value.escrow)
  {
    if c.SettleTicketBatch? {
      BatchKeepsPrice(f.escrow, feeBps, t, c.tickets);
    }
  }

  lemma WithOwnersKeepsPrice(x: State, k: Contract, owner: Option<Actor>, pending: Option<Actor>)
    ensures WithOwners(x, k, owner, pending).escrow.pricePerUnit == x.escrow.pricePerUnit
    ensures WithOwners(x, k, owner, pending).escrow.lastPriceChange == x.escrow.lastPriceChange
  {}

  lemma BodyMovesPrice(x: State, p: Params, from: Actor, c: Call)
    requires Apply(x, p, from, c).Ok? && !c.CreateEscrow?
    ensures PriceStep(x.escrow, c, x.t, Apply(x, p, from, c).value.escrow)
  {
    match PartOf(c) {
      case OnFunds => FundsMovePrice(FundsOf(x), x.treasury.feeBps, x.t, from, c);
      case OnOwners =>
        if c.TransferOwnership? {
          WithOwnersKeepsPrice(x, c.contract, OwnerOf(x, c.contract), Some(c.newOwner));
        } else {
          WithOwnersKeepsPrice(x, c.contract, Some(from), None);
        }
      case OffContracts => OffFrame(x, p, from, c);
      case _ =>
    }
  }

  lemma StepMovesPrice(w: World, env: Env, r: Request)
    requires !r.call.CreateEscrow?
    ensures PriceStep(w.state.escrow, r.call, Ticked(w.state, r.call).t, Step(w, env, r).state.escrow)
    ensures Ticked(w.state, r.call).t <= Step(w, env, r).state.t || Step(w, env, r).state.escrow.lastPriceChange == w.state.escrow.lastPriceChange
  {
    if StatusOf(w, r) == Committed {
      CommitAppliesBody(w, env, r);
      ClockOfBody(Ticked(w.state, r.call), w.params, r.from, r.call);
      BodyMovesPrice(Ticked(w.state, r.call), w.params, r.from, r.call);
    } else {
      FailureChangesNothing(w, env, r);
    }
  }

  function PriceAt(w: World, env: Env, rs: seq<Request>, n: nat): (nat, nat)
    requires n <= |rs|
  {
    (Run(w, env, rs[..n]).state.escrow.pricePerUnit, Run(w, env, rs[..n]).state.escrow.lastPriceChange)
  }

  lemma PriceStepAt(w: World, env: Env, rs: seq<Request>, i: nat)
    requires i < |rs| && NoDeployment(rs)
    ensures PriceAt(w, env, rs, i + 1) != PriceAt(w, env, rs, i) ==>
              && rs[i].call.SetPricePerUnit?
              && PriceAt(w, env, rs, i + 1).1 >= PriceAt(w, env, rs, i).1 + DAY
              && PriceAt(w, env, rs, i + 1).1 <= TimeAt(w, env, rs, i + 1)
              && MIN_PRICE <= PriceAt(w, env, rs, i + 1).0 <= MAX_PRICE
  {
    RunNext(w, env, rs, i);
    StepMovesPrice(Run(w, env, rs[..i]), env, rs[i]);
  }

  lemma LastChangeNext(w: World, env: Env, rs: seq<Request>, i: nat)
    requires i < |rs| && NoDeployment(rs)
    ensures PriceAt(w, env, rs, i).1 <= PriceAt(w, env, rs, i + 1).1
  {
    PriceStepAt(w, env, rs, i);
  }

  lemma {:induction false} LastChangeGrows(w: World, env: Env, rs: seq<Request>, m: nat, n: nat)
    requires m <= n <= |rs| && NoDeployment(rs)
    ensures PriceAt(w, env, rs, m).1 <= PriceAt(w, env, rs, n).1
    decreases n
  {
    if m < n {
      var i := n - 1;
      LastChangeGrows(w, env, rs, m, i);
      LastChangeNext(w, env, rs, i);
    }
  }

  /** Between two changes of the price lies at least a day, and each stays in the band. */
  lemma PriceChangesADayApart(w: World, env: Env, rs: seq<Request>, i: nat, j: nat)
    requires NoDeployment(rs) && i < j < |rs|
    requires PriceAt(w, env, rs, i + 1) != PriceAt(w, env, rs, i) && PriceAt(w, env, rs, j + 1) != PriceAt(w, env, rs, j)
    ensures PriceAt(w, env, rs, j + 1).1 >= PriceAt(w, env, rs, i + 1).1 + DAY
    ensures MIN_PRICE <= PriceAt(w, env, rs, i + 1).0 <= MAX_PRICE && MIN_PRICE <= PriceAt(w, env, rs, j + 1).0 <= MAX_PRICE
  {
    PriceStepAt(w, env, rs, i);
    PriceStepAt(w, env, rs, j);
    LastChangeGrows(w, env, rs, i + 1, j);
  }

  // ------------------------------------------------------------------ ownership

  ghost predicate SameOwners(x: State, y: State, k: Contract) {
    OwnerOf(y, k) == OwnerOf(x, k) && PendingOwnerOf(y, k) == PendingOwnerOf(x, k)
  }

  lemma {:induction false} BatchKeepsOwners(e: Escrow, feeBps: nat, now: nat, ts: seq<Ticket>)
    requires Settlement.Batch(e, feeBps, now, ts).Ok?
    ensures Settlement.Batch(e, feeBps, now, ts).value.escrow.owner == e.owner
    ensures Settlement.Batch(e, feeBps, now, ts).value.escrow.pendingOwner == e.pendingOwner
    decreases |ts|
  {
    if ts != [] {
      BatchKeepsOwners(e, feeBps, now, ts[..|ts| - 1]);
    }
  }

  lemma FundsKeepOwners(f: Funds, feeBps: nat, t: nat, from: Actor, c: Call)
    requires PartOf(c) == OnFunds && ApplyFunds(f, feeBps, t, from, c).Ok?
    ensures var y := ApplyFunds(f, feeBps, t, from, c).value;
            && y.token.owner == f.token.owner && y.token.pendingOwner == f.token.pendingOwner
            && y.escrow.owner == f.escrow.owner && y.escrow.pendingOwner == f.escrow.pendingOwner
  {
    if c.SettleTicketBatch? {
      BatchKeepsOwners(f.escrow, feeBps, t, c.tickets);
    }
  }

  lemma TokenKeepsOwners(tk: Token, tr: Treasury, t: nat, from: Actor, c: Call)
    requires PartOf(c) == OnToken && !c.CreateToken? && ApplyToken(tk, tr, t, from, c).Ok?
    ensures ApplyToken(tk, tr, t, from, c).value.owner == tk.owner
    ensures ApplyToken(tk, tr, t, from, c).value.pendingOwner == tk.pendingOwner
  {}

  lemma TreasuryKeepsOwners(tr: Treasury, p: Params, t: nat, from: Actor, c: Call)
    requires PartOf(c) == OnTreasury && !c.CreateTreasury? && ApplyTreasury(tr, p, t, from, c).Ok?
    ensures ApplyTreasury(tr, p, t, from, c).value.owner == tr.owner
    ensures ApplyTreasury(tr, p, t, from, c).value.pendingOwner == tr.pendingOwner
  {}

  lemma TokenCallKeepsOwners(x: State, p: Params, from: Actor, c: Call, k: Contract)
    requires PartOf(c) == OnToken && !c.CreateToken? && Apply(x, p, from, c).Ok?
    ensures SameOwners(x, Apply(x, p, from, c).value, k)
  {
    TokenKeepsOwners(x.token, x.treasury, x.t, from, c);
  }

  lemma FundsCallKeepsOwners(x: State, p: Params, from: Actor, c: Call, k: Contract)
    requires PartOf(c) == OnFunds && Apply(x, p, from, c).Ok?
    ensures SameOwners(x, Apply(x, p, from, c).value, k)
  {
    FundsKeepOwners(FundsOf(x), x.treasury.feeBps, x.t, from, c);
  }

  lemma TreasuryCallKeepsOwners(x: State, p: Params, from: Actor, c: Call, k: Contract)
    requires PartOf(c) == OnTreasury && !c.CreateTreasury? && Apply(x, p, from, c).Ok?
    ensures SameOwners(x, Apply(x, p, from, c).value, k)
  {
    TreasuryKeepsOwners(x.treasury, p, x.t, from, c);
  }

  /** Calls that are not about ownership leave every contract with its owner and nominee. */
  lemma OthersKeepOwners(x: State, p: Params, from: Actor, c: Call, k: Contract)
    requires Apply(x, p, from, c).Ok? && PartOf(c) != OnOwners && !c.CreateToken? && !c.CreateTreasury?
    ensures SameOwners(x, Apply(x, p, from, c).value, k)
  {
    match PartOf(c) {
      case OnToken => TokenCallKeepsOwners(x, p, from, c, k);
      case OnFunds => FundsCallKeepsOwners(x, p, from, c, k);
      case OnTreasury => TreasuryCallKeepsOwners(x, p, from, c, k);
      case OffContracts => OffFrame(x, p, from, c);
    }
  }

  // ------------------------------------------------------------------ ownership over runs

  predicate Deploys(c: Call) { c.CreateToken? || c.CreateTreasury? || c.CreateEscrow? }

  ghost predicate AllDeployed(rs: seq<Request>) { forall i :: 0 <= i < |rs| ==> !Deploys(rs[i].call) }

  /** The call is about who owns k. */
  predicate Handover(c: Call, k: Contract) {
    (c.TransferOwnership? && c.contract == k) || (c.AcceptOwnership? && c.contract == k)
  }

  /** What a step may do to the owner and the nominee of k. */
  ghost predicate OwnerStep(x: State, from: Actor, c: Call, committed: bool, y: State, k: Contract) {
    if !committed || !Handover(c, k) then SameOwners(x, y, k)
    else if c.TransferOwnership? then
      OwnerOf(x, k) == Some(from) && OwnerOf(y, k) == OwnerOf(x, k) && PendingOwnerOf(y, k) == Some(c.newOwner)
    else PendingOwnerOf(x, k) == Some(from) && OwnerOf(y, k) == Some(from) && PendingOwnerOf(y, k) == None
  }

  lemma OwnersMove(x: State, p: Params, from: Actor, c: Call, k: Contract)
    requires (c.TransferOwnership? || c.AcceptOwnership?) && ApplyOwners(x, p, from, c).Ok?
    ensures OwnerStep(x, from, c, true, ApplyOwners(x, p, from, c).value, k)
  {}

  lemma OthersMoveNoOwner(x: State, p: Params, from: Actor, c: Call, k: Contract)
    requires Apply(x, p, from, c).Ok? && !Deploys(c) && PartOf(c) != OnOwners
    ensures OwnerStep(x, from, c, true, Apply(x, p, from, c).value, k)
  {
    OthersKeepOwners(x, p, from, c, k);
    NoHandover(c, k);
  }

  lemma NoHandover(c: Call, k: Contract)
    requires PartOf(c) != OnOwners
    ensures !Handover(c, k)
  {}

  lemma OwnersCall(x: State, p: Params, from: Actor, c: Call)
    requires PartOf(c) == OnOwners
    ensures Apply(x, p, from, c) == ApplyOwners(x, p, from, c)
    ensures !Deploys(c) ==> c.TransferOwnership? || c.AcceptOwnership?
  {}

  lemma BodyMovesOwners(x: State, p: Params, from: Actor, c: Call, k: Contract)
    requires Apply(x, p, from, c).Ok? && !Deploys(c)
    ensures OwnerStep(x, from, c, true, Apply(x, p, from, c).value, k)
  {
    if PartOf(c) == OnOwners {
      OwnersCall(x, p, from, c);
      OwnersMove(x, p, from, c, k);
    } else {
      OthersMoveNoOwner(x, p, from, c, k);
    }
  }

  lemma StepMovesOwners(w: World, env: Env, r: Request, k: Contract)
    requires !Deploys(r.call)
    ensures OwnerStep(w.state, r.from, r.call, StatusOf(w, r) == Committed, Step(w, env, r).state, k)
  {
    if StatusOf(w, r) == Committed {
      CommitAppliesBody(w, env, r);
      BodyMovesOwners(Ticked(w.state, r.call), w.params, r.from, r.call, k);
    } else {
      FailureChangesNothing(w, env, r);
    }
  }

  function StateAt(w: World, env: Env, rs: seq<Request>, n: nat): State
    requires n <= |rs|
  {
    Run(w, env, rs[..n]).state
  }

  lemma OwnerStepAt(w: World, env: Env, rs: seq<Request>, i: nat, k: Contract)
    requires AllDeployed(rs) && i < |rs|
    ensures OwnerStep(StateAt(w, env, rs, i), rs[i].from, rs[i].call, Commits(w, env, rs, i), StateAt(w, env, rs, i + 1), k)
  {
    RunNext(w, env, rs, i);
    StepMovesOwners(Run(w, env, rs[..i]), env, rs[i], k);
  }

  /** Call m left owner and nominee of k alone. */
  ghost predicate LeavesOwners(w: World, env: Env, rs: seq<Request>, m: nat, k: Contract)
    requires m < |rs|
  {
    Handover(rs[m].call, k) ==> !Commits(w, env, rs, m)
  }

  /** The nomination committed as call j still stands before call n, and its maker still owns k. */
  ghost predicate Nominated(w: World, env: Env, rs: seq<Request>, j: nat, n: nat, k: Contract, next: Actor) {
    && j < n <= |rs| && Commits(w, env, rs, j) && rs[j].call == TransferOwnership(k, next)
    && OwnerOf(StateAt(w, env, rs, n), k) == Some(rs[j].from)
    && forall m :: j < m < n ==> LeavesOwners(w, env, rs, m, k)
  }

  lemma NominatedNext(w: World, env: Env, rs: seq<Request>, j: nat, i: nat, k: Contract, next: Actor)
    requires i < |rs| && Nominated(w, env, rs, j, i, k, next) && LeavesOwners(w, env, rs, i, k)
    requires OwnerOf(StateAt(w, env, rs, i + 1), k) == OwnerOf(StateAt(w, env, rs, i), k)
    ensures Nominated(w, env, rs, j, i + 1, k, next)
  {
    forall m | j < m < i + 1
      ensures LeavesOwners(w, env, rs, m, k)
    {
      assert m == i || m < i;
    }
  }

  lemma NobodyYet(w: World, env: Env, rs: seq<Request>)
    ensures StateAt(w, env, rs, 0) == w.state
  {
    assert rs[..0] == [];
  }

  /** Whoever may accept a contract was nominated by its present owner, and nothing has touched that since. */
  lemma {:induction false} NomineeWasNominated(w: World, env: Env, rs: seq<Request>, n: nat, k: Contract) returns (j: nat)
    requires PendingOwnerOf(w.state, k) == None && AllDeployed(rs) && n <= |rs|
    requires PendingOwnerOf(StateAt(w, env, rs, n), k).Some?
    ensures Nominated(w, env, rs, j, n, k, PendingOwnerOf(StateAt(w, env, rs, n), k).value)
    decreases n
  {
    NobodyYet(w, env, rs);
    var i := n - 1;
    OwnerStepAt(w, env, rs, i, k);
    if Commits(w, env, rs, i) && Handover(rs[i].call, k) {
      j := i;
    } else {
      j := NomineeWasNominated(w, env, rs, i, k);
      NominatedNext(w, env, rs, j, i, k, PendingOwnerOf(StateAt(w, env, rs, i), k).value);
    }
  }

  /**
   Ownable2Step over runs: whenever a contract changes owner, the new owner accepts it, having been nominated at an earlier
   call by the very owner it replaces, with no other nomination or acceptance of that contract in between.
   */
  lemma OwnerChangeWasNominated(w: World, env: Env, rs: seq<Request>, i: nat, k: Contract) returns (j: nat)
    requires PendingOwnerOf(w.state, k) == None && AllDeployed(rs) && i < |rs|
    requires OwnerOf(StateAt(w, env, rs, i + 1), k) != OwnerOf(StateAt(w, env, rs, i), k)
    ensures rs[i].call == AcceptOwnership(k) && OwnerOf(StateAt(w, env, rs, i + 1), k) == Some(rs[i].from)
    ensures Nominated(w, env, rs, j, i, k, rs[i].from)
  {
    OwnerStepAt(w, env, rs, i, k);
    j := NomineeWasNominated(w, env, rs, i, k);
  }

  // ------------------------------------------------------------------ other powers

  /** setBridge, setPricePerUnit, setFeeBps and queueBeneficiary commit for the contract's owner only, fees within their cap. */
  lemma OwnersOnly(x: State, p: Params, from: Actor, c: Call)
    requires Apply(x, p, from, c).Ok?
    ensures c.SetBridge? ==> x.token.owner == Some(from)
    ensures c.SetPricePerUnit? ==> x.escrow.owner == Some(from)
    ensures c.SetFeeBps? ==> x.treasury.owner == Some(from) && Apply(x, p, from, c).value.treasury.feeBps == c.feeBps <= MAX_FEE_BPS
    ensures c.QueueBeneficiary? ==> x.treasury.owner == Some(from)
  {}
}
