/** When the escrow holds exactly what it owes: the equality of the demo's solvency check, call by call and over runs. */
module EscrowSurplus {
  import opened EngineTypes
  import opened EngineRules
  import opened EngineMoney
  import opened EngineRuns
  import opened Setup

  /** The check's equation: balance of the escrow == deposits + earnings. */
  ghost predicate Exact(x: State) {
    x.token.bal.At(EscrowContract) == TotalOf(x.escrow.deposits) + TotalOf(x.escrow.earnings)
  }

  /** A committed call keeps the equation if and only if it sends the escrow's address nothing without credit. */
  lemma CallKeepsExactIff(x: State, p: Params, from: Actor, c: Call)
    requires Sound(x) && Exact(x) && p.feeBps <= 10_000 && Apply(x, p, from, c).Ok?
    ensures Exact(Apply(x, p, from, c).value) <==> Donation(x, c) == 0
  {
    ApplyMoney(x, p, from, c);
  }

  lemma DonatedNonNegative(w: World, r: Request)
    requires Sound(w.state)
    ensures Donated(w, r) >= 0
  {
    assert w.state.token.bal.At(TreasuryContract) >= 0;
  }

  ghost predicate DonatesNothing(w: World, env: Env, rs: seq<Request>, i: nat)
    requires i < |rs|
  {
    Donated(Run(w, env, rs[..i]), rs[i]) == 0
  }

  ghost predicate NoneDonates(w: World, env: Env, rs: seq<Request>) { forall i :: 0 <= i < |rs| ==> DonatesNothing(w, env, rs, i) }

  lemma NoneDonatesNext(w: World, env: Env, front: seq<Request>, r: Request)
    ensures NoneDonates(w, env, front + [r]) <==> NoneDonates(w, env, front) && Donated(Run(w, env, front), r) == 0
  {
    var rs := front + [r];
    forall i | 0 <= i < |front|
      ensures DonatesNothing(w, env, front, i) == DonatesNothing(w, env, rs, i)
    {
      assert rs[..i] == front[..i];
    }
    assert rs[..|front|] == front;
    assert DonatesNothing(w, env, rs, |front|) <==> Donated(Run(w, env, front), r) == 0;
  }

  lemma DonatedInRun(w: World, env: Env, front: seq<Request>, r: Request)
    requires Fresh(w) && w.params.feeBps <= 10_000
    ensures Donated(Run(w, env, front), r) >= 0
  {
    RunMoney(w, env, front);
    DonatedNonNegative(Run(w, env, front), r);
  }

  lemma {:induction false} NoDonationsIff(w: World, env: Env, rs: seq<Request>)
    requires Fresh(w) && w.params.feeBps <= 10_000
    ensures Donations(w, env, rs) >= 0 && (Donations(w, env, rs) == 0 <==> NoneDonates(w, env, rs))
    decreases |rs|
  {
    if rs != [] {
      var front, r := rs[..|rs| - 1], rs[|rs| - 1];
      NoDonationsIff(w, env, front);
      DonatedInRun(w, env, front, r);
      NoneDonatesNext(w, env, front, r);
      assert front + [r] == rs;
    }
  }

  /** Over a run the equation holds at the end if and only if no committed call of it gave the escrow anything. */
  lemma RunExactIff(w: World, env: Env, rs: seq<Request>)
    requires Fresh(w) && w.params.feeBps <= 10_000
    ensures Exact(Run(w, env, rs).state) <==> NoneDonates(w, env, rs)
  {
    RunMoney(w, env, rs);
    NoDonationsIff(w, env, rs);
  }

  /** Deploy, list the kiosk, and mint to the escrow's own address: it then holds the amount and owes nothing. */
  lemma MintToEscrowBreaksExact(w: World, env: Env, rs: seq<Request>, mint: Request, amount: nat)
    requires Fresh(w) && w.params.feeBps <= 10_000 && Pays(w, 10_000_000) && ListsKiosk(rs, amount)
    requires |rs| == 2 && Asks(mint, Kiosk, BridgeMint(EscrowContract, amount)) && amount > 0
    ensures Surplus(FundsOf(Step(Run(w, env, rs), env, mint).state)) == amount && !Exact(Step(Run(w, env, rs), env, mint).state)
  {
    ListedMintCommits(w, env, rs, mint, amount);
    ListedSurplus(w, env, rs, amount);
    RunKeepsParams(w, env, rs);
    StepMoney(Run(w, env, rs), env, mint);
  }

  lemma ListedMintCommits(w: World, env: Env, rs: seq<Request>, mint: Request, amount: nat)
    requires Fresh(w) && Pays(w, 10_000_000) && ListsKiosk(rs, amount)
    requires |rs| == 2 && Asks(mint, Kiosk, BridgeMint(EscrowContract, amount))
    ensures StatusOf(Run(w, env, rs), mint) == Committed
  {
    assert rs[..2] == rs;
    KioskListed(w, env, rs, amount);
    MintStep(Run(w, env, rs), env, mint, Bridge(true, amount, 0, 0), w.state.t + 4, EscrowContract, amount, 8_000_000);
  }

  lemma ListedSurplus(w: World, env: Env, rs: seq<Request>, amount: nat)
    requires Fresh(w) && w.params.feeBps <= 10_000 && ListsKiosk(rs, amount) && |rs| == 2
    ensures Sound(Run(w, env, rs).state) && Surplus(FundsOf(Run(w, env, rs).state)) == 0
  {
    RunMoney(w, env, rs);
    ListingDonatesNothing(w, env, rs, amount);
  }

  lemma ListingDonatesNothing(w: World, env: Env, rs: seq<Request>, cap: nat)
    requires ListsKiosk(rs, cap) && |rs| == 2
    ensures Donations(w, env, rs) == 0
  {
    assert rs[..1][..0] == [];
    assert Donations(w, env, rs[..1]) == 0;
  }
}
