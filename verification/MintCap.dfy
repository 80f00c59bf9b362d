/** The bridge's mint cap over runs: a fixed window, so twice the cap can be minted within a day but never more. */
module MintCap {
  import opened EngineTypes
  import opened EngineRules
  import opened EngineRuns

  /** Days that have to pass for d seconds to go by, rounded up. */
  function Days(d: nat): nat { (d + DAY - 1) / DAY }

  /** When a step executes its body. */
  function TimeOf(w: World, r: Request): nat { Ticked(w.state, r.call).t }

  function MintedBy(w: World, r: Request, b: Actor): nat {
    if StatusOf(w, r) == Committed && r.from == b && r.call.BridgeMint? then r.call.amount else 0
  }

  datatype Minting = Minting(t: nat, amount: nat)

  /** What bridge b minted, call by call. */
  function Mintings(w: World, env: Env, rs: seq<Request>, b: Actor): (ms: seq<Minting>)
    ensures |ms| == |rs|
    decreases |rs|
  {
    if rs == [] then []
    else
      var v, r := Run(w, env, rs[..|rs| - 1]), rs[|rs| - 1];
      Mintings(w, env, rs[..|rs| - 1], b) + [Minting(TimeOf(v, r), MintedBy(v, r, b))]
  }

  /** What was minted at lo or later, and in [lo, hi). */
  function Since(ms: seq<Minting>, lo: nat): nat {
    if ms == [] then 0 else Since(ms[..|ms| - 1], lo) + if ms[|ms| - 1].t >= lo then ms[|ms| - 1].amount else 0
  }

  function Within(ms: seq<Minting>, lo: nat, hi: nat): nat {
    if ms == [] then 0 else Within(ms[..|ms| - 1], lo, hi) + if lo <= ms[|ms| - 1].t < hi then ms[|ms| - 1].amount else 0
  }

  function MintedSince(w: World, env: Env, rs: seq<Request>, b: Actor, lo: nat): nat { Since(Mintings(w, env, rs, b), lo) }

  function MintedWithin(w: World, env: Env, rs: seq<Request>, b: Actor, lo: nat, hi: nat): nat {
    Within(Mintings(w, env, rs, b), lo, hi)
  }

  /** One more call. */
  lemma NextMinting(ms: seq<Minting>, m: Minting, lo: nat, hi: nat)
    ensures Since(ms + [m], lo) == Since(ms, lo) + if m.t >= lo then m.amount else 0
    ensures Within(ms + [m], lo, hi) == Within(ms, lo, hi) + if lo <= m.t < hi then m.amount else 0
  {
    assert (ms + [m])[..|ms|] == ms;
  }

  ghost predicate CapsAtMost(rs: seq<Request>, b: Actor, cap: nat) {
    forall i :: 0 <= i < |rs| && rs[i].call.SetBridge? && rs[i].call.bridge == b ==> rs[i].call.cap <= cap
  }

  // ------------------------------------------------------------------ one window

  /**
   The window (its start and what was minted in it) accounts for everything minted since lo: all of it when lo falls in
   the window, and one cap more for every day begun between lo and the window's start.
   */
  ghost predicate Accounts(start: nat, minted: nat, cap: nat, lo: nat, since: nat) {
    && minted <= cap
    && (lo > start ==> since <= minted)
    && (lo >= start + DAY ==> since == 0)
    && (lo <= start ==> since <= minted + Caps(cap, Days(start - lo)))
  }

  /** One cap for each of so many days. */
  function Caps(cap: nat, days: nat): nat { if days == 0 then 0 else Caps(cap, days - 1) + cap }

  /** The bound for an interval: its whole days, and two caps more. */
  function MostIn(cap: nat, interval: nat): nat { Caps(cap, interval / DAY + 2) }

  lemma {:induction false} CapsMonotone(cap: nat, m: nat, n: nat)
    requires m <= n
    ensures Caps(cap, m) <= Caps(cap, n)
    decreases n
  {
    if m < n {
      CapsMonotone(cap, m, n - 1);
    }
  }

  lemma SameWindow(start: nat, minted: nat, cap: nat, lo: nat, since: nat, t: nat, amount: nat)
    requires Accounts(start, minted, cap, lo, since) && start <= t < start + DAY && minted + amount <= cap
    ensures Accounts(start, minted + amount, cap, lo, since + if t >= lo then amount else 0)
  {}

  lemma NewWindow(start: nat, minted: nat, cap: nat, lo: nat, since: nat, t: nat, amount: nat)
    requires Accounts(start, minted, cap, lo, since) && start + DAY <= t && amount <= cap
    ensures Accounts(t, amount, cap, lo, since + if t >= lo then amount else 0)
  {
    if lo <= start {
        CapsMonotone(cap, Days(start - lo) + 1, Days(t - lo));
    } else if lo < t {
      CapsMonotone(cap, 1, Days(t - lo));
    }
  }

  ghost predicate BridgeAccounts(b: Bridge, now: nat, cap: nat, lo: nat, since: nat) {
    b.cap <= cap && b.windowStart <= now && Accounts(b.windowStart, b.minted, cap, lo, since)
  }

  lemma MintAccounts(b: Bridge, now: nat, t: nat, amount: nat, cap: nat, lo: nat, since: nat)
    requires BridgeAccounts(b, now, cap, lo, since) && now <= t && MintFrom(b, t, amount).Ok?
    ensures BridgeAccounts(MintFrom(b, t, amount).value, t, cap, lo, since + if t >= lo then amount else 0)
  {
    if t >= b.windowStart + DAY {
      NewWindow(b.windowStart, b.minted, cap, lo, since, t, amount);
    } else {
      SameWindow(b.windowStart, b.minted, cap, lo, since, t, amount);
    }
  }

  // ------------------------------------------------------------------ runs

  lemma FundsKeepBridges(f: Funds, feeBps: nat, t: nat, from: Actor, c: Call)
    requires PartOf(c) == OnFunds && ApplyFunds(f, feeBps, t, from, c).Ok?
    ensures ApplyFunds(f, feeBps, t, from, c).value.token.bridges == f.token.bridges
  {}

  lemma TokenKeepsBridge(tk: Token, tr: Treasury, t: nat, from: Actor, c: Call, b: Actor)
    requires PartOf(c) == OnToken && ApplyToken(tk, tr, t, from, c).Ok?
    requires !(c.SetBridge? && c.bridge == b) && !(c.BridgeMint? && from == b)
    ensures BridgeOf(ApplyToken(tk, tr, t, from, c).value, b) == BridgeOf(tk, b)
  {}

  lemma TokenCallKeepsBridge(x: State, p: Params, from: Actor, c: Call, b: Actor)
    requires PartOf(c) == OnToken && Apply(x, p, from, c).Ok?
    requires !(c.SetBridge? && c.bridge == b) && !(c.BridgeMint? && from == b)
    ensures BridgeOf(Apply(x, p, from, c).value.token, b) == BridgeOf(x.token, b)
  {
    TokenKeepsBridge(x.token, x.treasury, x.t, from, c, b);
  }

  lemma FundsCallKeepsBridge(x: State, p: Params, from: Actor, c: Call, b: Actor)
    requires PartOf(c) == OnFunds && Apply(x, p, from, c).Ok?
    ensures BridgeOf(Apply(x, p, from, c).value.token, b) == BridgeOf(x.token, b)
  {
    FundsKeepBridges(FundsOf(x), x.treasury.feeBps, x.t, from, c);
  }

  /** Only setBridge and the bridge's own mints touch its record. */
  lemma BridgeKept(x: State, p: Params, from: Actor, c: Call, b: Actor)
    requires Apply(x, p, from, c).Ok? && !(c.SetBridge? && c.bridge == b) && !(c.BridgeMint? && from == b)
    ensures BridgeOf(Apply(x, p, from, c).value.token, b) == BridgeOf(x.token, b)
  {
    match PartOf(c) {
      case OnToken => TokenCallKeepsBridge(x, p, from, c, b);
      case OnFunds => FundsCallKeepsBridge(x, p, from, c, b);
      case OnTreasury =>
      case OnOwners => OwnersFrame(x, p, from, c);
      case OffContracts => OffFrame(x, p, from, c);
    }
  }

  lemma CommitAccounts(x: State, p: Params, from: Actor, c: Call, b: Actor, before: nat, cap: nat, lo: nat, since: nat)
    requires BridgeAccounts(BridgeOf(x.token, b), before, cap, lo, since) && before <= x.t
    requires c.SetBridge? && c.bridge == b ==> c.cap <= cap
    requires Apply(x, p, from, c).Ok?
    ensures BridgeAccounts(BridgeOf(Apply(x, p, from, c).value.token, b), x.t, cap, lo,
                           since + if x.t >= lo && from == b && c.BridgeMint? then c.amount else 0)
  {
    if c.BridgeMint? && from == b {
      MintAccounts(BridgeOf(x.token, b), before, x.t, c.amount, cap, lo, since);
    } else if !(c.SetBridge? && c.bridge == b) {
      BridgeKept(x, p, from, c, b);
    }
  }

  lemma LaterAccounts(b: Bridge, now: nat, later: nat, cap: nat, lo: nat, since: nat)
    requires BridgeAccounts(b, now, cap, lo, since) && now <= later
    ensures BridgeAccounts(b, later, cap, lo, since)
  {}

  lemma StepAccounts(w: World, env: Env, r: Request, b: Actor, cap: nat, lo: nat, since: nat)
    requires BridgeAccounts(BridgeOf(w.state.token, b), w.state.t, cap, lo, since)
    requires r.call.SetBridge? && r.call.bridge == b ==> r.call.cap <= cap
    ensures BridgeAccounts(BridgeOf(Step(w, env, r).state.token, b), Step(w, env, r).state.t, cap, lo,
                           since + if TimeOf(w, r) >= lo then MintedBy(w, r, b) else 0)
  {
    ClockAdvances(w, env, r);
    var x, y := Ticked(w.state, r.call), Step(w, env, r).state;
    if StatusOf(w, r) == Committed {
      CommitAppliesBody(w, env, r);
      ClockOfBody(x, w.params, r.from, r.call);
      CommitAccounts(x, w.params, r.from, r.call, b, w.state.t, cap, lo, since);
      LaterAccounts(BridgeOf(y.token, b), x.t, y.t, cap, lo, since + if TimeOf(w, r) >= lo then MintedBy(w, r, b) else 0);
    } else {
      FailureChangesNothing(w, env, r);
      LaterAccounts(BridgeOf(y.token, b), w.state.t, y.t, cap, lo, since);
    }
  }

  lemma NextAccounts(w: World, env: Env, r: Request, b: Actor, cap: nat, lo: nat, ms: seq<Minting>)
    requires BridgeAccounts(BridgeOf(w.state.token, b), w.state.t, cap, lo, Since(ms, lo))
    requires r.call.SetBridge? && r.call.bridge == b ==> r.call.cap <= cap
    ensures var y := Step(w, env, r).state;
            BridgeAccounts(BridgeOf(y.token, b), y.t, cap, lo, Since(ms + [Minting(TimeOf(w, r), MintedBy(w, r, b))], lo))
  {
    NextMinting(ms, Minting(TimeOf(w, r), MintedBy(w, r, b)), lo, lo);
    StepAccounts(w, env, r, b, cap, lo, Since(ms, lo));
  }

  lemma {:induction false} RunAccounts(w: World, env: Env, rs: seq<Request>, b: Actor, cap: nat, lo: nat)
    requires BridgeAccounts(BridgeOf(w.state.token, b), w.state.t, cap, lo, 0) && CapsAtMost(rs, b, cap)
    ensures var x := Run(w, env, rs).state;
            BridgeAccounts(BridgeOf(x.token, b), x.t, cap, lo, Since(Mintings(w, env, rs, b), lo))
    decreases |rs|
  {
    if rs != [] {
      var front := rs[..|rs| - 1];
      RunAccounts(w, env, front, b, cap, lo);
      NextAccounts(Run(w, env, front), env, rs[|rs| - 1], b, cap, lo, Mintings(w, env, front, b));
    }
  }

  lemma {:induction false} WithinSince(ms: seq<Minting>, lo: nat, hi: nat)
    ensures Within(ms, lo, hi) <= Since(ms, lo)
  {
    if ms != [] {
      WithinSince(ms[..|ms| - 1], lo, hi);
    }
  }

  lemma BoundAt(b: Bridge, now: nat, cap: nat, lo: nat, since: nat, hi: nat)
    requires BridgeAccounts(b, now, cap, lo, since) && lo <= now < hi
    ensures since <= MostIn(cap, hi - lo)
  {
    CapsMonotone(cap, 1, (hi - lo) / DAY + 2);
    if lo <= b.windowStart {
      CapsMonotone(cap, Days(b.windowStart - lo) + 1, (hi - lo) / DAY + 2);
    }
  }

  /** The bridge's record starts out accounting for nothing. */
  lemma FreshAccounts(w: World, b: Actor, cap: nat, lo: nat)
    requires Fresh(w)
    ensures BridgeAccounts(BridgeOf(w.state.token, b), w.state.t, cap, lo, 0)
  {}

  /**
   In any run, as long as no larger cap is ever set for it, a bridge mints at most (floor(T / 86400) + 2) caps in any
   interval of length T, whatever window resets fall in it.
   */
  lemma {:induction false} MintBound(w: World, env: Env, rs: seq<Request>, b: Actor, cap: nat, lo: nat, hi: nat)
    requires Fresh(w) && CapsAtMost(rs, b, cap) && lo <= hi
    ensures MintedWithin(w, env, rs, b, lo, hi) <= MostIn(cap, hi - lo)
    decreases |rs|
  {
    if rs != [] {
      var front, r := rs[..|rs| - 1], rs[|rs| - 1];
      MintBound(w, env, front, b, cap, lo, hi);
      var v := Run(w, env, front);
      NextMinting(Mintings(w, env, front, b), Minting(TimeOf(v, r), MintedBy(v, r, b)), lo, hi);
      if lo <= TimeOf(v, r) < hi && MintedBy(v, r, b) > 0 {
        LastMintBound(w, env, rs, b, cap, lo, hi);
      }
    }
  }

  lemma LastMintBound(w: World, env: Env, rs: seq<Request>, b: Actor, cap: nat, lo: nat, hi: nat)
    requires Fresh(w) && CapsAtMost(rs, b, cap) && rs != []
    requires var v, r := Run(w, env, rs[..|rs| - 1]), rs[|rs| - 1];
             lo <= TimeOf(v, r) < hi && MintedBy(v, r, b) > 0
    ensures MintedWithin(w, env, rs, b, lo, hi) <= MostIn(cap, hi - lo)
  {
    var v, r := Run(w, env, rs[..|rs| - 1]), rs[|rs| - 1];
    FreshAccounts(w, b, cap, lo);
    RunAccounts(w, env, rs, b, cap, lo);
    CommitAppliesBody(v, env, r);
    WithinSince(Mintings(w, env, rs, b), lo, hi);
    BoundAt(BridgeOf(Run(w, env, rs).state.token, b), Run(w, env, rs).state.t, cap, lo, MintedSince(w, env, rs, b, lo), hi);
  }

  /** In less than a day that is twice the cap. */
  lemma TwoCapsWithinADay(cap: nat, interval: nat)
    requires interval < DAY
    ensures MostIn(cap, interval) == 2 * cap
  {
    assert Caps(cap, 1) == cap;
  }
}
