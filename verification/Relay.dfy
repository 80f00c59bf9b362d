/** relayBatch in a run: what the relayer was quoted, what settling then does, and what is left to settle. */
module Relay {
  import opened Options
  import opened EngineTypes
  import opened Settlement
  import opened SettlementTheorems
  import opened Quote
  import opened EngineRules
  import opened EngineMoney
  import opened EngineRuns
  import opened Authorisation

  /** The batch relayBatch submits: the newest unsettled ticket of every channel. */
  function RelayCall(x: State, nodeAdmin: Option<Actor>): Call {
    SettleTicketBatch(Tickets(PendingTickets(x.escrow, x.book, nodeAdmin)))
  }

  function QuoteNow(x: State, nodeAdmin: Option<Actor>): Quoted {
    QuoteAll(x.escrow, x.treasury.feeBps, PendingTickets(x.escrow, x.book, nodeAdmin))
  }

  /** What a committed settlement moved out of the deposits, and what of it went to the treasury. */
  ghost function GrossOf(f: Funds, y: Funds): int { TotalOf(f.escrow.deposits) - TotalOf(y.escrow.deposits) }
  ghost function FeeTaken(f: Funds, y: Funds): int { y.token.bal.At(TreasuryContract) - f.token.bal.At(TreasuryContract) }

  function Settled(x: State, nodeAdmin: Option<Actor>): Result<Funds> {
    SettleRule(FundsOf(x), x.treasury.feeBps, x.t, RelayCall(x, nodeAdmin).tickets)
  }

  lemma SettleMoves(f: Funds, feeBps: nat, t: nat, tickets: seq<Ticket>)
    requires NonNegative(f.escrow.deposits) && feeBps <= 10_000 && SettleRule(f, feeBps, t, tickets).Ok?
    ensures var b, y := Batch(f.escrow, feeBps, t, tickets).value, SettleRule(f, feeBps, t, tickets).value;
            GrossOf(f, y) == b.gross && FeeTaken(f, y) == b.fee
  {
    var b := Batch(f.escrow, feeBps, t, tickets).value;
    BatchConserves(f.escrow, feeBps, t, tickets);
    ShiftAt(f.token.bal, EscrowContract, TreasuryContract, b.fee, TreasuryContract);
  }

  /** What a relayer may rely on: amounts within the quote, exact with one ticket per client, nothing left pending. */
  ghost predicate WithinQuote(x: State, y: Funds, nodeAdmin: Option<Actor>, gas: int) {
    && GrossOf(FundsOf(x), y) <= QuoteNow(x, nodeAdmin).gross
    && FeeTaken(FundsOf(x), y) <= QuoteNow(x, nodeAdmin).fee
    && gas <= SettleGas(QuoteNow(x, nodeAdmin).shape, x.token.bal.At(TreasuryContract) > 0)
    && (DistinctClients(RelayCall(x, nodeAdmin).tickets) ==>
          GrossOf(FundsOf(x), y) == QuoteNow(x, nodeAdmin).gross && FeeTaken(FundsOf(x), y) == QuoteNow(x, nodeAdmin).fee)
    && PendingTickets(y.escrow, x.book, nodeAdmin) == []
  }

  lemma SettledWithinQuote(x: State, from: Actor, nodeAdmin: Option<Actor>)
    requires Sound(x) && Filed(x.book) && Settled(x, nodeAdmin).Ok?
    ensures WithinQuote(x, Settled(x, nodeAdmin).value, nodeAdmin, CommitGas(x, from, RelayCall(x, nodeAdmin)))
  {
    AmountsWithinQuote(x, nodeAdmin);
    GasWithinQuote(x, from, nodeAdmin);
    NothingStaysPending(x, nodeAdmin);
  }

  /** The batch behind the settlement, and what was quoted for it. */
  lemma QuotedBatch(x: State, nodeAdmin: Option<Actor>)
    requires Sound(x) && Filed(x.book) && Settled(x, nodeAdmin).Ok?
    ensures var pending := PendingTickets(x.escrow, x.book, nodeAdmin);
            var warm := x.token.bal.At(TreasuryContract) > 0;
            && Batch(x.escrow, x.treasury.feeBps, x.t, Tickets(pending)).Ok?
            && var b := Batch(x.escrow, x.treasury.feeBps, x.t, Tickets(pending)).value;
               && QuoteHolds(b, QuoteNow(x, nodeAdmin), warm)
               && (DistinctClients(Tickets(pending)) ==> b.gross == QuoteNow(x, nodeAdmin).gross && b.fee == QuoteNow(x, nodeAdmin).fee)
               && PendingTickets(b.escrow, x.book, nodeAdmin) == []
  {
    QuoteBoundsSettlement(x.escrow, x.treasury.feeBps, x.t, x.book, nodeAdmin, x.token.bal.At(TreasuryContract) > 0);
  }

  lemma AmountsWithinQuote(x: State, nodeAdmin: Option<Actor>)
    requires Sound(x) && Filed(x.book) && Settled(x, nodeAdmin).Ok?
    ensures var y, q := Settled(x, nodeAdmin).value, QuoteNow(x, nodeAdmin);
            && GrossOf(FundsOf(x), y) <= q.gross && FeeTaken(FundsOf(x), y) <= q.fee
            && (DistinctClients(RelayCall(x, nodeAdmin).tickets) ==>
                  GrossOf(FundsOf(x), y) == q.gross && FeeTaken(FundsOf(x), y) == q.fee)
  {
    QuotedBatch(x, nodeAdmin);
    SettleMoves(FundsOf(x), x.treasury.feeBps, x.t, RelayCall(x, nodeAdmin).tickets);
  }

  lemma GasWithinQuote(x: State, from: Actor, nodeAdmin: Option<Actor>)
    requires Sound(x) && Filed(x.book) && Settled(x, nodeAdmin).Ok?
    ensures CommitGas(x, from, RelayCall(x, nodeAdmin))
            <= SettleGas(QuoteNow(x, nodeAdmin).shape, x.token.bal.At(TreasuryContract) > 0)
  {
    QuotedBatch(x, nodeAdmin);
  }

  lemma NothingStaysPending(x: State, nodeAdmin: Option<Actor>)
    requires Sound(x) && Filed(x.book) && Settled(x, nodeAdmin).Ok?
    ensures PendingTickets(Settled(x, nodeAdmin).value.escrow, x.book, nodeAdmin) == []
  {
    QuotedBatch(x, nodeAdmin);
  }

  /** The clock is the only thing a call changes before its body, and neither the batch nor the quote reads it. */
  lemma TickedRelay(x: State, nodeAdmin: Option<Actor>, c: Call)
    ensures RelayCall(Ticked(x, c), nodeAdmin) == RelayCall(x, nodeAdmin)
    ensures QuoteNow(Ticked(x, c), nodeAdmin) == QuoteNow(x, nodeAdmin)
    ensures Sound(x) ==> Sound(Ticked(x, c))
  {}

  /**
   In any run, when the relayer settles everything pending and the call commits: gross, fee and gas are at most what
   batchQuote said before, gross and fee are exact with one ticket per client, and nothing is pending afterwards.
   */
  lemma RelayWithinQuote(w: World, env: Env, rs: seq<Request>, nodeAdmin: Option<Actor>, r: Request)
    requires Fresh(w) && w.params.feeBps <= 10_000
    requires r.call == RelayCall(Run(w, env, rs).state, nodeAdmin) && StatusOf(Run(w, env, rs), r) == Committed
    ensures var v := Run(w, env, rs);
            WithinQuote(v.state, FundsOf(Step(v, env, r).state), nodeAdmin, GasOf(v, r)) && Step(v, env, r).state.book == v.state.book
  {
    RunMoney(w, env, rs);
    RunFiled(w, env, rs);
    CommittedRelay(Run(w, env, rs), env, nodeAdmin, r);
  }

  lemma CommittedRelay(v: World, env: Env, nodeAdmin: Option<Actor>, r: Request)
    requires Sound(v.state) && Filed(v.state.book) && r.call == RelayCall(v.state, nodeAdmin) && StatusOf(v, r) == Committed
    ensures WithinQuote(v.state, FundsOf(Step(v, env, r).state), nodeAdmin, GasOf(v, r))
    ensures Step(v, env, r).state.book == v.state.book
  {
    CommitAppliesBody(v, env, r);
    TickedRelay(v.state, nodeAdmin, r.call);
    SettledWithinQuote(Ticked(v.state, r.call), r.from, nodeAdmin);
  }
}
