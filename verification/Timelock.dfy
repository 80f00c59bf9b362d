/** The treasury's seven-day timelock over runs: no beneficiary without a standing queue, and the veto that follows. */
module Timelock {
  import opened Options
  import opened EngineTypes
  import opened EngineRules
  import opened EngineRuns

  predicate TouchesPending(c: Call) { c.QueueBeneficiary? || c.ActivateBeneficiary? || c.CancelBeneficiaryChange? }

  /** The three fields the timelock is about. */
  ghost predicate SameLock(x: Treasury, y: Treasury) {
    x.beneficiary == y.beneficiary && x.pending == y.pending && x.activation == y.activation
  }

  lemma CallKeepsLock(x: State, p: Params, from: Actor, c: Call)
    requires Apply(x, p, from, c).Ok? && !TouchesPending(c) && !c.CreateTreasury?
    ensures SameLock(x.treasury, Apply(x, p, from, c).value.treasury)
  {
    match PartOf(c) {
      case OnOwners => OwnersFrame(x, p, from, c);
      case OffContracts => OffFrame(x, p, from, c);
      case _ =>
    }
  }

  /** What a step may do to the lock. The treasury is created once, before the runs considered here. */
  ghost predicate LockStep(x: Treasury, t: nat, c: Call, committed: bool, y: Treasury) {
    if !committed || !TouchesPending(c) then SameLock(x, y)
    else match c
      case QueueBeneficiary(next) => y.pending == Some(next) && y.activation == t + TIMELOCK && y.beneficiary == x.beneficiary
      case ActivateBeneficiary => x.pending.Some? && t >= x.activation && y.beneficiary == x.pending && y.pending == None
      case _ => y.pending == None && y.beneficiary == x.beneficiary
  }

  lemma BodyMovesLock(x: State, p: Params, from: Actor, c: Call)
    requires Apply(x, p, from, c).Ok? && TouchesPending(c)
    ensures LockStep(x.treasury, x.t, c, true, Apply(x, p, from, c).value.treasury)
  {}

  lemma StepMovesLock(w: World, env: Env, r: Request)
    requires !r.call.CreateTreasury?
    ensures LockStep(w.state.treasury, Step(w, env, r).state.t, r.call, StatusOf(w, r) == Committed, Step(w, env, r).state.treasury)
  {
    var x := Ticked(w.state, r.call);
    if StatusOf(w, r) == Committed {
      CommitAppliesBody(w, env, r);
      ClockOfBody(x, w.params, r.from, r.call);
      if TouchesPending(r.call) {
        BodyMovesLock(x, w.params, r.from, r.call);
      } else {
        CallKeepsLock(x, w.params, r.from, r.call);
      }
    } else {
      FailureChangesNothing(w, env, r);
    }
  }

  // ------------------------------------------------------------------ runs

  function TreasuryAt(w: World, env: Env, rs: seq<Request>, n: nat): Treasury
    requires n <= |rs|
  {
    Run(w, env, rs[..n]).state.treasury
  }

  function TimeAt(w: World, env: Env, rs: seq<Request>, n: nat): nat
    requires n <= |rs|
  {
    Run(w, env, rs[..n]).state.t
  }

  ghost predicate NoCreation(rs: seq<Request>) { forall i :: 0 <= i < |rs| ==> !rs[i].call.CreateTreasury? }

  lemma LockStepAt(w: World, env: Env, rs: seq<Request>, i: nat)
    requires NoCreation(rs) && i < |rs|
    ensures LockStep(TreasuryAt(w, env, rs, i), TimeAt(w, env, rs, i + 1), rs[i].call, Commits(w, env, rs, i),
                     TreasuryAt(w, env, rs, i + 1))
  {
    RunNext(w, env, rs, i);
    StepMovesLock(Run(w, env, rs[..i]), env, rs[i]);
  }

  /** Call k left the pending change alone. */
  ghost predicate LeavesPending(w: World, env: Env, rs: seq<Request>, k: nat)
    requires k < |rs|
  {
    TouchesPending(rs[k].call) ==> !Commits(w, env, rs, k)
  }

  /** The queue committed as call j still stands before call n: nothing re-queued, activated or cancelled it. */
  ghost predicate Standing(w: World, env: Env, rs: seq<Request>, j: nat, n: nat, next: Holder) {
    && j < n <= |rs| && Commits(w, env, rs, j) && rs[j].call == QueueBeneficiary(next)
    && forall k :: j < k < n ==> LeavesPending(w, env, rs, k)
  }

  lemma NothingRunYet(w: World, env: Env, rs: seq<Request>)
    ensures TreasuryAt(w, env, rs, 0) == w.state.treasury
  {
    assert rs[..0] == [];
  }

  /** What is pending before call n was queued by call j, which still stands. */
  ghost predicate Explained(w: World, env: Env, rs: seq<Request>, j: nat, n: nat)
    requires n <= |rs|
  {
    && TreasuryAt(w, env, rs, n).pending.Some?
    && Standing(w, env, rs, j, n, TreasuryAt(w, env, rs, n).pending.value)
    && TreasuryAt(w, env, rs, n).activation == TimeAt(w, env, rs, j + 1) + TIMELOCK
  }

  lemma StandingNext(w: World, env: Env, rs: seq<Request>, j: nat, i: nat, next: Holder)
    requires i < |rs| && Standing(w, env, rs, j, i, next) && LeavesPending(w, env, rs, i)
    ensures Standing(w, env, rs, j, i + 1, next)
  {
    forall k | j < k < i + 1
      ensures LeavesPending(w, env, rs, k)
    {
      assert k == i || k < i;
    }
  }

  lemma ExplainedNext(w: World, env: Env, rs: seq<Request>, j: nat, i: nat)
    requires i < |rs| && Explained(w, env, rs, j, i) && LeavesPending(w, env, rs, i)
    requires SameLock(TreasuryAt(w, env, rs, i), TreasuryAt(w, env, rs, i + 1))
    ensures Explained(w, env, rs, j, i + 1)
  {
    StandingNext(w, env, rs, j, i, TreasuryAt(w, env, rs, i).pending.value);
  }

  /** Whatever is pending was queued, still stands, and activates seven days after it was queued. */
  lemma {:induction false} PendingWasQueued(w: World, env: Env, rs: seq<Request>, n: nat) returns (j: nat)
    requires w.state.treasury.pending == None && NoCreation(rs) && n <= |rs| && TreasuryAt(w, env, rs, n).pending.Some?
    ensures Explained(w, env, rs, j, n)
    decreases n
  {
    NothingRunYet(w, env, rs);
    var i := n - 1;
    LockStepAt(w, env, rs, i);
    if Commits(w, env, rs, i) && TouchesPending(rs[i].call) {
      j := i;
    } else {
      j := PendingWasQueued(w, env, rs, i);
      ExplainedNext(w, env, rs, j, i);
    }
  }

  /**
   Timelock safety: a change of beneficiary at call i installs an address that was queued at an earlier call, at least
   seven days before, with no committed cancel, re-queue or activation in between.
   */
  lemma ChangeWasQueuedSevenDaysBefore(w: World, env: Env, rs: seq<Request>, i: nat) returns (j: nat)
    requires w.state.treasury.pending == None && NoCreation(rs) && i < |rs|
    requires TreasuryAt(w, env, rs, i + 1).beneficiary != TreasuryAt(w, env, rs, i).beneficiary
    ensures TreasuryAt(w, env, rs, i + 1).beneficiary.Some?
    ensures Standing(w, env, rs, j, i, TreasuryAt(w, env, rs, i + 1).beneficiary.value)
    ensures TimeAt(w, env, rs, i + 1) >= TimeAt(w, env, rs, j + 1) + TIMELOCK
  {
    LockStepAt(w, env, rs, i);
    j := PendingWasQueued(w, env, rs, i);
  }

  lemma TimeNext(w: World, env: Env, rs: seq<Request>, i: nat)
    requires i < |rs|
    ensures TimeAt(w, env, rs, i) <= TimeAt(w, env, rs, i + 1)
  {
    RunNext(w, env, rs, i);
    ClockAdvances(Run(w, env, rs[..i]), env, rs[i]);
  }

  lemma {:induction false} TimeGrows(w: World, env: Env, rs: seq<Request>, m: nat, n: nat)
    requires m <= n <= |rs|
    ensures TimeAt(w, env, rs, m) <= TimeAt(w, env, rs, n)
    decreases n
  {
    if m < n {
      var i := n - 1;
      TimeGrows(w, env, rs, m, i);
      TimeNext(w, env, rs, i);
    }
  }

  /** Call k cancels the queue of call j in time. */
  ghost predicate Vetoes(w: World, env: Env, rs: seq<Request>, j: nat, k: nat) {
    && j < k < |rs| && Commits(w, env, rs, k) && rs[k].call == CancelBeneficiaryChange
    && TimeAt(w, env, rs, k + 1) < TimeAt(w, env, rs, j + 1) + TIMELOCK
  }

  lemma EarlierTimeEarlierCall(w: World, env: Env, rs: seq<Request>, k: nat, i: nat, deadline: nat)
    requires k < |rs| && i < |rs| && TimeAt(w, env, rs, k + 1) < deadline <= TimeAt(w, env, rs, i + 1)
    ensures k < i
  {
    if i <= k {
      TimeGrows(w, env, rs, i + 1, k + 1);
    }
  }

  lemma VetoComesFirst(w: World, env: Env, rs: seq<Request>, j: nat, k: nat, i: nat)
    requires Vetoes(w, env, rs, j, k) && i < |rs| && TimeAt(w, env, rs, i + 1) >= TimeAt(w, env, rs, j + 1) + TIMELOCK
    ensures k < i
  {
    EarlierTimeEarlierCall(w, env, rs, k, i, TimeAt(w, env, rs, j + 1) + TIMELOCK);
  }

  /** A queue cancelled before call i no longer stands there. */
  lemma VetoedDoesNotStand(w: World, env: Env, rs: seq<Request>, j: nat, k: nat, i: nat, next: Holder)
    requires Vetoes(w, env, rs, j, k) && k < i
    ensures !Standing(w, env, rs, j, i, next)
  {
    assert !LeavesPending(w, env, rs, k);
  }

  lemma OnlyActivationChanges(w: World, env: Env, rs: seq<Request>, i: nat)
    requires NoCreation(rs) && i < |rs|
    requires TreasuryAt(w, env, rs, i + 1).beneficiary != TreasuryAt(w, env, rs, i).beneficiary
    ensures rs[i].call == ActivateBeneficiary
  {
    LockStepAt(w, env, rs, i);
  }

  ghost predicate AllVetoed(w: World, env: Env, rs: seq<Request>) {
    forall j :: 0 <= j < |rs| && rs[j].call.QueueBeneficiary? && Commits(w, env, rs, j) ==> exists k :: Vetoes(w, env, rs, j, k)
  }

  lemma VetoedKeepsBeneficiary(w: World, env: Env, rs: seq<Request>, i: nat)
    requires w.state.treasury.pending == None && NoCreation(rs) && i < |rs| && AllVetoed(w, env, rs)
    ensures TreasuryAt(w, env, rs, i + 1).beneficiary == TreasuryAt(w, env, rs, i).beneficiary
  {
    if TreasuryAt(w, env, rs, i + 1).beneficiary != TreasuryAt(w, env, rs, i).beneficiary {
      OnlyActivationChanges(w, env, rs, i);
      var j := ChangeWasQueuedSevenDaysBefore(w, env, rs, i);
      var k :| Vetoes(w, env, rs, j, k);
      VetoComesFirst(w, env, rs, j, k, i);
      VetoedDoesNotStand(w, env, rs, j, k, i, TreasuryAt(w, env, rs, i + 1).beneficiary.value);
    }
  }

  /** A beneficiary that gets every queue cancelled within seven days is never replaced. */
  lemma {:induction false} VetoHolds(w: World, env: Env, rs: seq<Request>, n: nat)
    requires w.state.treasury.pending == None && NoCreation(rs) && n <= |rs| && AllVetoed(w, env, rs)
    ensures TreasuryAt(w, env, rs, n).beneficiary == w.state.treasury.beneficiary
    decreases n
  {
    if n == 0 {
      NothingRunYet(w, env, rs);
    } else {
      VetoHolds(w, env, rs, n - 1);
      VetoedKeepsBeneficiary(w, env, rs, n - 1);
    }
  }
}
