/** Who can take from a deposit, and how often: authorisations and tickets over runs. */
module Authorisation {
  import opened Options
  import opened EngineTypes
  import opened Settlement
  import opened Quote
  import opened EngineRules
  import opened EngineRuns

  // ------------------------------------------------------------------ tickets of one batch

  ghost predicate Newer(x: Channel, y: Channel) { x.lastSequence <= y.lastSequence && x.settledUnits <= y.settledUnits }

  lemma {:induction false} BatchMovesForward(e: Escrow, feeBps: nat, now: nat, ts: seq<Ticket>, id: ChannelId)
    requires Batch(e, feeBps, now, ts).Ok?
    ensures Newer(ChannelOf(e, id), ChannelOf(Batch(e, feeBps, now, ts).value.escrow, id))
    decreases |ts|
  {
    if ts != [] {
      BatchMovesForward(e, feeBps, now, ts[..|ts| - 1], id);
    }
  }

  /** A ticket that a batch accepts against escrow e: signed by its client, unexpired, ahead of its channel. */
  ghost predicate Acceptable(e: Escrow, now: nat, t: Ticket) {
    && t.signature == SignedBy(t.client, TicketDigestOf(t)) && t.epochExpiry >= now && Unsettled(e, t)
  }

  lemma LastTicketAcceptable(e: Escrow, feeBps: nat, now: nat, ts: seq<Ticket>)
    requires ts != [] && Batch(e, feeBps, now, ts).Ok?
    ensures Acceptable(e, now, ts[|ts| - 1])
    ensures ChannelOf(Batch(e, feeBps, now, ts).value.escrow, IdOf(ts[|ts| - 1])).lastSequence == ts[|ts| - 1].sequenceNumber
  {
    BatchMovesForward(e, feeBps, now, ts[..|ts| - 1], IdOf(ts[|ts| - 1]));
  }

  lemma {:induction false} EveryTicketAcceptable(e: Escrow, feeBps: nat, now: nat, ts: seq<Ticket>, k: nat)
    requires k < |ts| && Batch(e, feeBps, now, ts).Ok?
    ensures Acceptable(e, now, ts[k])
    ensures ChannelOf(Batch(e, feeBps, now, ts).value.escrow, IdOf(ts[k])).lastSequence >= ts[k].sequenceNumber
    decreases |ts|
  {
    if k == |ts| - 1 {
      LastTicketAcceptable(e, feeBps, now, ts);
    } else {
      EveryTicketAcceptable(e, feeBps, now, ts[..|ts| - 1], k);
    }
  }

  /** No ticket appears twice in a committed batch. */
  lemma {:induction false} NoRepeatInBatch(e: Escrow, feeBps: nat, now: nat, ts: seq<Ticket>, k: nat, l: nat)
    requires k < l < |ts| && Batch(e, feeBps, now, ts).Ok?
    ensures ts[k] != ts[l]
    decreases |ts|
  {
    if l < |ts| - 1 {
      NoRepeatInBatch(e, feeBps, now, ts[..|ts| - 1], k, l);
    } else {
      EveryTicketAcceptable(e, feeBps, now, ts[..l], k);
    }
  }

  // ------------------------------------------------------------------ one call

  predicate MovesAccounts(c: Call) {
    c.Deposit? || c.DepositWithPermit? || c.WithdrawDeposit? || c.WithdrawWithSig? || c.TransferDeposit? || c.SettleTicketBatch?
  }

  /** One client's deposit and nonce, and one channel's record. */
  ghost predicate SameAccount(x: Escrow, y: Escrow, a: Actor, id: ChannelId) {
    x.deposits.At(a) == y.deposits.At(a) && x.authNonces.At(a) == y.authNonces.At(a) && ChannelOf(x, id) == ChannelOf(y, id)
  }

  lemma OwnersKeepAccount(x: State, p: Params, from: Actor, c: Call, a: Actor, id: ChannelId)
    requires PartOf(c) == OnOwners && ApplyOwners(x, p, from, c).Ok?
    ensures SameAccount(x.escrow, ApplyOwners(x, p, from, c).value.escrow, a, id)
  {
    OwnersFrame(x, p, from, c);
  }

  lemma QuietFundsKeepAccount(f: Funds, feeBps: nat, t: nat, from: Actor, c: Call, a: Actor, id: ChannelId)
    requires (c.ClaimEarnings? || c.SetPricePerUnit?) && ApplyFunds(f, feeBps, t, from, c).Ok?
    ensures SameAccount(f.escrow, ApplyFunds(f, feeBps, t, from, c).value.escrow, a, id)
  {}

  lemma OffKeepsAccount(x: State, p: Params, from: Actor, c: Call, a: Actor, id: ChannelId)
    requires PartOf(c) == OffContracts && ApplyOff(x, p, from, c).Ok?
    ensures SameAccount(x.escrow, ApplyOff(x, p, from, c).value.escrow, a, id)
  {
    OffFrame(x, p, from, c);
  }

  lemma OtherCallsKeepAccount(x: State, p: Params, from: Actor, c: Call, a: Actor, id: ChannelId)
    requires Apply(x, p, from, c).Ok? && !MovesAccounts(c)
    ensures SameAccount(x.escrow, Apply(x, p, from, c).value.escrow, a, id)
  {
    match PartOf(c) {
      case OnFunds => QuietFundsKeepAccount(FundsOf(x), x.treasury.feeBps, x.t, from, c, a, id);
      case OnOwners => OwnersKeepAccount(x, p, from, c, a, id);
      case OffContracts => OffKeepsAccount(x, p, from, c, a, id);
      case _ =>
    }
  }

  /** An executed authorisation: whose, and signed for exactly this destination, amount, nonce and deadline. */
  ghost predicate Executes(x: State, c: Call, a: Actor) {
    || (c.WithdrawWithSig? && c.auth.from == a && c.dest.Some? && x.t <= c.auth.deadline
        && c.auth.signature == SignedBy(a, WithdrawDigest(a, c.dest.value, c.auth.amount, x.escrow.authNonces.At(a), c.auth.deadline)))
    || (c.TransferDeposit? && c.auth.from == a && c.receiver.Some? && x.t <= c.auth.deadline
        && c.auth.signature == SignedBy(a, TransferDigest(a, c.receiver.value, c.auth.amount, x.escrow.authNonces.At(a), c.auth.deadline)))
  }

  ghost predicate SettlesFor(x: State, c: Call, a: Actor) {
    && c.SettleTicketBatch?
    && exists k :: 0 <= k < |c.tickets| && c.tickets[k].client == a && Acceptable(x.escrow, x.t, c.tickets[k])
  }

  /** Why a's deposit may shrink by `fall`. */
  ghost predicate Entitled(x: State, from: Actor, c: Call, a: Actor, fall: int) {
    || (c.WithdrawDeposit? && from == a && fall == c.amount)
    || (Executes(x, c, a) && fall == c.auth.amount)
    || SettlesFor(x, c, a)
  }

  lemma WithdrawEntitled(f: Funds, from: Actor, amount: nat, a: Actor)
    requires WithdrawRule(f, from, amount).Ok?
    requires WithdrawRule(f, from, amount).value.escrow.deposits.At(a) < f.escrow.deposits.At(a)
    ensures from == a && f.escrow.deposits.At(a) - WithdrawRule(f, from, amount).value.escrow.deposits.At(a) == amount
  {
    PlusAt(f.escrow.deposits, from, 0 - amount, a);
  }

  lemma WithSigEntitled(x: State, auth: Auth, dest: Option<Holder>, a: Actor)
    requires WithdrawWithSigRule(FundsOf(x), x.t, auth, dest).Ok?
    requires WithdrawWithSigRule(FundsOf(x), x.t, auth, dest).value.escrow.deposits.At(a) < x.escrow.deposits.At(a)
    ensures Executes(x, WithdrawWithSig(auth, dest), a)
    ensures x.escrow.deposits.At(a) - WithdrawWithSigRule(FundsOf(x), x.t, auth, dest).value.escrow.deposits.At(a) == auth.amount
  {
    PlusAt(x.escrow.deposits, auth.from, 0 - auth.amount, a);
  }

  lemma TransferEntitled(x: State, auth: Auth, to: Option<Actor>, a: Actor)
    requires TransferDepositRule(FundsOf(x), x.t, auth, to).Ok?
    requires TransferDepositRule(FundsOf(x), x.t, auth, to).value.escrow.deposits.At(a) < x.escrow.deposits.At(a)
    ensures Executes(x, TransferDeposit(auth, to), a)
    ensures x.escrow.deposits.At(a) - TransferDepositRule(FundsOf(x), x.t, auth, to).value.escrow.deposits.At(a) == auth.amount
  {
    var paid := x.escrow.deposits.Minus(auth.from, auth.amount);
    PlusAt(x.escrow.deposits, auth.from, 0 - auth.amount, a);
    PlusAt(paid, to.value, auth.amount, a);
  }

  lemma SettleEntitled(x: State, tickets: seq<Ticket>, a: Actor)
    requires SettleRule(FundsOf(x), x.treasury.feeBps, x.t, tickets).Ok?
    requires SettleRule(FundsOf(x), x.treasury.feeBps, x.t, tickets).value.escrow.deposits.At(a) < x.escrow.deposits.At(a)
    ensures SettlesFor(x, SettleTicketBatch(tickets), a)
  {
    if forall k :: 0 <= k < |tickets| ==> tickets[k].client != a {
      OthersUntouched(x.escrow, x.treasury.feeBps, x.t, tickets, a);
    }
    var k :| 0 <= k < |tickets| && tickets[k].client == a;
    EveryTicketAcceptable(x.escrow, x.treasury.feeBps, x.t, tickets, k);
  }

  lemma DepositOnlyAdds(f: Funds, client: Actor, amount: nat, a: Actor)
    requires DepositRule(f, client, amount).Ok?
    ensures DepositRule(f, client, amount).value.escrow.deposits.At(a) >= f.escrow.deposits.At(a)
  {
    PlusAt(f.escrow.deposits, client, amount, a);
  }

  /**
   A client's deposit falls only by the client's own withdrawal, by an authorisation the client signed for exactly that
   destination and amount at the current nonce, or by a ticket the client signed that is ahead of its channel.
   */
  lemma DepositFallsOnlyByRight(x: State, p: Params, from: Actor, c: Call, a: Actor)
    requires Apply(x, p, from, c).Ok?
    requires Apply(x, p, from, c).value.escrow.deposits.At(a) < x.escrow.deposits.At(a)
    ensures Entitled(x, from, c, a, x.escrow.deposits.At(a) - Apply(x, p, from, c).value.escrow.deposits.At(a))
  {
    if c.WithdrawDeposit? {
      WithdrawEntitled(FundsOf(x), from, c.amount, a);
    } else if c.WithdrawWithSig? {
      WithSigEntitled(x, c.auth, c.dest, a);
    } else if c.TransferDeposit? {
      TransferEntitled(x, c.auth, c.receiver, a);
    } else if c.SettleTicketBatch? {
      SettleEntitled(x, c.tickets, a);
    } else if c.Deposit? {
      DepositOnlyAdds(FundsOf(x), from, c.amount, a);
    } else if c.DepositWithPermit? {
      DepositOnlyAdds(FundsOf(x).(token := AfterPermit(x.token, x.t, c.permit)), c.client, c.amount, a);
    } else {
      OtherCallsKeepAccount(x, p, from, c, a, Between(a, a));
    }
  }

  /** The same of every step of a run: no other call, and no failed one, ever lowers a deposit. */
  lemma StepLowersDepositsByRight(w: World, env: Env, r: Request, a: Actor)
    requires Step(w, env, r).state.escrow.deposits.At(a) < w.state.escrow.deposits.At(a)
    ensures StatusOf(w, r) == Committed
    ensures Entitled(Ticked(w.state, r.call), r.from, r.call, a,
                     w.state.escrow.deposits.At(a) - Step(w, env, r).state.escrow.deposits.At(a))
  {
    if StatusOf(w, r) == Committed {
      CommitAppliesBody(w, env, r);
      DepositFallsOnlyByRight(Ticked(w.state, r.call), w.params, r.from, r.call, a);
    } else {
      FailureChangesNothing(w, env, r);
    }
  }

  // ------------------------------------------------------------------ runs

  function EscrowAt(w: World, env: Env, rs: seq<Request>, n: nat): Escrow
    requires n <= |rs|
  {
    Run(w, env, rs[..n]).state.escrow
  }

  predicate UsesAuth(c: Call) { c.WithdrawWithSig? || c.TransferDeposit? }

  ghost predicate NotBack(x: Escrow, y: Escrow, a: Actor, id: ChannelId) {
    x.authNonces.At(a) <= y.authNonces.At(a) && Newer(ChannelOf(x, id), ChannelOf(y, id))
  }

  /** Nonces never fall, channels never move back, and an executed authorisation spends its client's nonce. */
  ghost predicate Advances(x: Escrow, c: Call, committed: bool, y: Escrow, a: Actor, id: ChannelId) {
    && NotBack(x, y, a, id)
    && (committed && UsesAuth(c) && c.auth.from == a ==> y.authNonces.At(a) == x.authNonces.At(a) + 1)
  }

  lemma {:induction false} BatchKeepsNonces(e: Escrow, feeBps: nat, now: nat, ts: seq<Ticket>, a: Actor)
    requires Batch(e, feeBps, now, ts).Ok?
    ensures Batch(e, feeBps, now, ts).value.escrow.authNonces.At(a) == e.authNonces.At(a)
    decreases |ts|
  {
    if ts != [] {
      BatchKeepsNonces(e, feeBps, now, ts[..|ts| - 1], a);
    }
  }

  lemma SettleAdvances(f: Funds, feeBps: nat, t: nat, tickets: seq<Ticket>, a: Actor, id: ChannelId)
    requires SettleRule(f, feeBps, t, tickets).Ok?
    ensures NotBack(f.escrow, SettleRule(f, feeBps, t, tickets).value.escrow, a, id)
  {
    BatchKeepsNonces(f.escrow, feeBps, t, tickets, a);
    BatchMovesForward(f.escrow, feeBps, t, tickets, id);
  }

  lemma WithSigAdvances(f: Funds, t: nat, auth: Auth, dest: Option<Holder>, a: Actor, id: ChannelId)
    requires WithdrawWithSigRule(f, t, auth, dest).Ok?
    ensures Advances(f.escrow, WithdrawWithSig(auth, dest), true, WithdrawWithSigRule(f, t, auth, dest).value.escrow, a, id)
  {}

  lemma TransferAdvances(f: Funds, t: nat, auth: Auth, to: Option<Actor>, a: Actor, id: ChannelId)
    requires TransferDepositRule(f, t, auth, to).Ok?
    ensures Advances(f.escrow, TransferDeposit(auth, to), true, TransferDepositRule(f, t, auth, to).value.escrow, a, id)
  {}

  lemma DepositNotBack(f: Funds, client: Actor, amount: nat, a: Actor, id: ChannelId)
    requires DepositRule(f, client, amount).Ok?
    ensures NotBack(f.escrow, DepositRule(f, client, amount).value.escrow, a, id)
  {}

  lemma PayOutNotBack(f: Funds, feeBps: nat, t: nat, from: Actor, c: Call, a: Actor, id: ChannelId)
    requires (c.WithdrawDeposit? || c.ClaimEarnings? || c.SetPricePerUnit?) && ApplyFunds(f, feeBps, t, from, c).Ok?
    ensures NotBack(f.escrow, ApplyFunds(f, feeBps, t, from, c).value.escrow, a, id)
  {}

  lemma OtherFundsNotBack(f: Funds, feeBps: nat, t: nat, from: Actor, c: Call, a: Actor, id: ChannelId)
    requires PartOf(c) == OnFunds && !UsesAuth(c) && ApplyFunds(f, feeBps, t, from, c).Ok?
    ensures NotBack(f.escrow, ApplyFunds(f, feeBps, t, from, c).value.escrow, a, id)
  {
    match c {
      case SettleTicketBatch(tickets) => SettleAdvances(f, feeBps, t, tickets, a, id);
      case Deposit(amount) => DepositNotBack(f, from, amount, a, id);
      case DepositWithPermit(client, amount, permit) =>
        DepositNotBack(f.(token := AfterPermit(f.token, t, permit)), client, amount, a, id);
      case _ => PayOutNotBack(f, feeBps, t, from, c, a, id);
    }
  }

  lemma FundsAdvance(f: Funds, feeBps: nat, t: nat, from: Actor, c: Call, a: Actor, id: ChannelId)
    requires PartOf(c) == OnFunds && ApplyFunds(f, feeBps, t, from, c).Ok?
    ensures Advances(f.escrow, c, true, ApplyFunds(f, feeBps, t, from, c).value.escrow, a, id)
  {
    match c {
      case WithdrawWithSig(auth, dest) => WithSigAdvances(f, t, auth, dest, a, id);
      case TransferDeposit(auth, receiver) => TransferAdvances(f, t, auth, receiver, a, id);
      case _ => OtherFundsNotBack(f, feeBps, t, from, c, a, id);
    }
  }

  lemma CommitAdvances(x: State, p: Params, from: Actor, c: Call, a: Actor, id: ChannelId)
    requires Apply(x, p, from, c).Ok?
    ensures Advances(x.escrow, c, true, Apply(x, p, from, c).value.escrow, a, id)
  {
    if MovesAccounts(c) {
      FundsAdvance(FundsOf(x), x.treasury.feeBps, x.t, from, c, a, id);
    } else {
      OtherCallsKeepAccount(x, p, from, c, a, id);
    }
  }

  lemma StepAdvances(w: World, env: Env, r: Request, a: Actor, id: ChannelId)
    ensures Advances(w.state.escrow, r.call, StatusOf(w, r) == Committed, Step(w, env, r).state.escrow, a, id)
  {
    if StatusOf(w, r) == Committed {
      CommitAppliesBody(w, env, r);
      CommitAdvances(Ticked(w.state, r.call), w.params, r.from, r.call, a, id);
    } else {
      FailureChangesNothing(w, env, r);
    }
  }

  lemma AdvancesAt(w: World, env: Env, rs: seq<Request>, i: nat, a: Actor, id: ChannelId)
    requires i < |rs|
    ensures Advances(EscrowAt(w, env, rs, i), rs[i].call, Commits(w, env, rs, i), EscrowAt(w, env, rs, i + 1), a, id)
  {
    RunNext(w, env, rs, i);
    StepAdvances(Run(w, env, rs[..i]), env, rs[i], a, id);
  }

  lemma NotBackTransitive(x: Escrow, y: Escrow, z: Escrow, a: Actor, id: ChannelId)
    requires NotBack(x, y, a, id) && NotBack(y, z, a, id)
    ensures NotBack(x, z, a, id)
  {}

  lemma {:induction false} NeverBack(w: World, env: Env, rs: seq<Request>, m: nat, n: nat, a: Actor, id: ChannelId)
    requires m <= n <= |rs|
    ensures NotBack(EscrowAt(w, env, rs, m), EscrowAt(w, env, rs, n), a, id)
    decreases n
  {
    if m < n {
      var i := n - 1;
      NeverBack(w, env, rs, m, i, a, id);
      AdvancesAt(w, env, rs, i, a, id);
      NotBackTransitive(EscrowAt(w, env, rs, m), EscrowAt(w, env, rs, i), EscrowAt(w, env, rs, i + 1), a, id);
    }
  }

  /** The nonce in a signed authorisation. */
  function NonceOf(s: Signature): nat {
    if s.SignedBy? && s.digest.WithdrawDigest? then s.digest.nonce
    else if s.SignedBy? && s.digest.TransferDigest? then s.digest.nonce
    else 0
  }

  lemma CommittedAuthAtNonce(w: World, env: Env, rs: seq<Request>, i: nat)
    requires i < |rs| && Commits(w, env, rs, i) && UsesAuth(rs[i].call)
    ensures var a, e := rs[i].call.auth, EscrowAt(w, env, rs, i);
            && a.signature.SignedBy? && a.signature.signer == a.from && NonceOf(a.signature) == e.authNonces.At(a.from)
  {
    CommittedAuth(Run(w, env, rs[..i]), env, rs[i]);
  }

  lemma CommittedAuth(w: World, env: Env, r: Request)
    requires StatusOf(w, r) == Committed && UsesAuth(r.call)
    ensures var a := r.call.auth;
            && a.signature.SignedBy? && a.signature.signer == a.from
            && NonceOf(a.signature) == w.state.escrow.authNonces.At(a.from)
  {
    CommitAppliesBody(w, env, r);
  }

  /**
   One signature executes at most once, whichever of the two entry points takes it: the nonce counter they share has
   moved on.
   */
  lemma AuthorisationExecutesOnce(w: World, env: Env, rs: seq<Request>, i: nat, j: nat)
    requires i < j < |rs| && UsesAuth(rs[i].call) && UsesAuth(rs[j].call)
    requires Commits(w, env, rs, i) && Commits(w, env, rs, j)
    ensures rs[i].call.auth.signature != rs[j].call.auth.signature
  {
    CommittedAuthAtNonce(w, env, rs, i);
    CommittedAuthAtNonce(w, env, rs, j);
    var a := rs[i].call.auth.from;
    AdvancesAt(w, env, rs, i, a, Between(a, a));
    NeverBack(w, env, rs, i + 1, j, a, Between(a, a));
  }

  lemma StepTicket(w: World, env: Env, r: Request, k: nat)
    requires StatusOf(w, r) == Committed && r.call.SettleTicketBatch? && k < |r.call.tickets|
    ensures var t := r.call.tickets[k];
            ChannelOf(w.state.escrow, IdOf(t)).lastSequence < t.sequenceNumber
            <= ChannelOf(Step(w, env, r).state.escrow, IdOf(t)).lastSequence
  {
    CommitAppliesBody(w, env, r);
    var x := Ticked(w.state, r.call);
    EveryTicketAcceptable(x.escrow, x.treasury.feeBps, x.t, r.call.tickets, k);
  }

  lemma CommittedTicket(w: World, env: Env, rs: seq<Request>, i: nat, k: nat)
    requires i < |rs| && Commits(w, env, rs, i) && rs[i].call.SettleTicketBatch? && k < |rs[i].call.tickets|
    ensures var t := rs[i].call.tickets[k];
            ChannelOf(EscrowAt(w, env, rs, i), IdOf(t)).lastSequence < t.sequenceNumber
            <= ChannelOf(EscrowAt(w, env, rs, i + 1), IdOf(t)).lastSequence
  {
    RunNext(w, env, rs, i);
    StepTicket(Run(w, env, rs[..i]), env, rs[i], k);
  }

  /** A ticket settles at most once in a run. */
  lemma TicketSettlesOnce(w: World, env: Env, rs: seq<Request>, i: nat, k: nat, j: nat, l: nat)
    requires i < j < |rs| && rs[i].call.SettleTicketBatch? && rs[j].call.SettleTicketBatch?
    requires k < |rs[i].call.tickets| && l < |rs[j].call.tickets| && Commits(w, env, rs, i) && Commits(w, env, rs, j)
    ensures rs[i].call.tickets[k] != rs[j].call.tickets[l]
  {
    CommittedTicket(w, env, rs, i, k);
    CommittedTicket(w, env, rs, j, l);
    var t := rs[i].call.tickets[k];
    NeverBack(w, env, rs, i + 1, j, t.client, IdOf(t));
  }

  // ------------------------------------------------------------------ the wallets' ticket shelves

  /** signTicket numbers its ticket past both the chain and every ticket held for the channel. */
  lemma SignedTicketIsNext(x: State, p: Params, signer: Actor, client: Actor, nodeAdmin: Actor, units: nat)
    requires Filed(x.book)
    ensures var t := TicketFor(x, p, signer, client, nodeAdmin, units);
            && t.sequenceNumber > ChannelOf(x.escrow, IdOf(t)).lastSequence
            && (forall i :: 0 <= i < |x.book| && x.book[i].key == IdOf(t) ==> t.sequenceNumber > Latest(x.book[i]).sequenceNumber)
            && (Acceptable(x.escrow, x.t, t) <==> signer == client && units > ChannelOf(x.escrow, IdOf(t)).settledUnits)
            && (forall now: nat :: Acceptable(x.escrow, now, t) <==> Acceptable(x.escrow, x.t, t) && now <= x.t + p.epochSeconds)
  {
    var id := Between(client, nodeAdmin);
    var k := ShelfOf(x.book, id);
    forall i | 0 <= i < |x.book| && x.book[i].key == id
      ensures i == k
    {}
  }

  lemma CommitKeepsFiled(x: State, p: Params, from: Actor, c: Call)
    requires Filed(x.book) && Apply(x, p, from, c).Ok?
    ensures Filed(Apply(x, p, from, c).value.book)
  {
    match PartOf(c) {
      case OnOwners => OwnersFrame(x, p, from, c);
      case OffContracts =>
        if c.SignTicket? {
          FiledOnTop(x.book, TicketFor(x, p, from, c.client, c.nodeAdmin, c.cumulativeUnits));
        } else {
          OffFrame(x, p, from, c);
        }
      case _ =>
    }
  }

  /** In every run the held tickets are filed by channel, one shelf each. */
  lemma {:induction false} RunFiled(w: World, env: Env, rs: seq<Request>)
    requires Fresh(w)
    ensures Filed(Run(w, env, rs).state.book)
    decreases |rs|
  {
    if rs != [] {
      var v, r := Run(w, env, rs[..|rs| - 1]), rs[|rs| - 1];
      RunFiled(w, env, rs[..|rs| - 1]);
      if StatusOf(v, r) == Committed {
        CommitAppliesBody(v, env, r);
        CommitKeepsFiled(Ticked(v.state, r.call), v.params, r.from, r.call);
      } else {
        FailureChangesNothing(v, env, r);
      }
    }
  }

  // ------------------------------------------------------------------ relayed permits

  lemma PermitSpendsNonce(tk: Token, t: nat, p: Permit, later: nat)
    requires t <= later
    ensures AfterPermit(AfterPermit(tk, t, p), later, p) == AfterPermit(tk, t, p)
  {}

  /**
   Front-running a permit cannot block the deposit it was signed for: whoever relays it first, depositWithPermit then
   catches its own failing permit and deposits from the allowance that the front-runner set.
   */
  lemma FrontRunPermitIsHarmless(f: Funds, t: nat, p: Permit, later: nat, client: Actor, amount: nat)
    requires t <= later <= p.deadline
    ensures DepositRule(Funds(AfterPermit(AfterPermit(f.token, t, p), later, p), f.escrow), client, amount)
            == DepositRule(Funds(AfterPermit(f.token, later, p), f.escrow), client, amount)
  {
    PermitSpendsNonce(f.token, t, p, later);
  }
}
