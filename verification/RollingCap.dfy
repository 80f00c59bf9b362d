/** The bridge's daily cap against a rolling day: what a window forgets, exactly when that matters, and a run where it does. */
module RollingCap {
  import opened Options
  import opened EngineTypes
  import opened EngineRules
  import opened EngineRuns
  import opened MintCap
  import opened Setup

  // ------------------------------------------------------------------ mintings and a window

  /** Nothing was minted later than now. */
  ghost predicate Past(ms: seq<Minting>, now: nat) { forall i :: 0 <= i < |ms| && ms[i].amount > 0 ==> ms[i].t <= now }

  lemma {:induction false} NothingLater(ms: seq<Minting>, now: nat, lo: nat, hi: nat)
    requires Past(ms, now) && lo > now
    ensures Since(ms, lo) == 0 == Within(ms, lo, hi)
  {
    if ms != [] {
      NothingLater(ms[..|ms| - 1], now, lo, hi);
    }
  }

  /** What was minted since lo is what was minted before mid, and since. */
  lemma {:induction false} SplitAt(ms: seq<Minting>, lo: nat, mid: nat)
    requires lo <= mid
    ensures Since(ms, lo) == Within(ms, lo, mid) + Since(ms, mid)
  {
    if ms != [] {
      SplitAt(ms[..|ms| - 1], lo, mid);
    }
  }

  /** The record's counter is what its bridge minted since its window opened. */
  ghost predicate Exact(b: Bridge, now: nat, ms: seq<Minting>) {
    Since(ms, b.windowStart) == b.minted && b.windowStart <= now && Past(ms, now)
  }

  /** How one call moves the window of a bridge. */
  ghost predicate WindowMoves(x: Bridge, y: Bridge, m: Minting) {
    || (y.windowStart == x.windowStart && y.minted == x.minted + m.amount && (m.amount > 0 ==> m.t >= x.windowStart))
    || (y.windowStart == m.t && y.minted == m.amount && m.t >= x.windowStart + DAY)
  }

  lemma MintExact(x: Bridge, y: Bridge, now: nat, later: nat, ms: seq<Minting>, m: Minting)
    requires Exact(x, now, ms) && WindowMoves(x, y, m) && now <= later && (m.amount > 0 ==> now < m.t <= later)
    requires y.windowStart != x.windowStart ==> now < m.t <= later
    ensures Exact(y, later, ms + [m])
  {
    NextMinting(ms, m, y.windowStart, 0);
    if y.windowStart != x.windowStart {
      NothingLater(ms, now, y.windowStart, 0);
    }
  }

  lemma MintMoves(w: World, env: Env, r: Request, b: Actor)
    requires StatusOf(w, r) == Committed && r.from == b && r.call.BridgeMint? && BridgeOf(w.state.token, b).windowStart <= w.state.t
    ensures WindowMoves(BridgeOf(w.state.token, b), BridgeOf(Step(w, env, r).state.token, b), Minting(w.state.t + 2, r.call.amount))
    ensures Step(w, env, r).state.t == w.state.t + 2 == TimeOf(w, r)
  {
    CommitAppliesBody(w, env, r);
    ClockOfBody(Ticked(w.state, r.call), w.params, r.from, r.call);
    assert BridgeOf(Step(w, env, r).state.token, b)
           == MintFrom(BridgeOf(w.state.token, b), w.state.t + 2, r.call.amount).value;
  }

  lemma OthersKeepWindow(w: World, env: Env, r: Request, b: Actor)
    requires !(StatusOf(w, r) == Committed && r.from == b && r.call.BridgeMint?)
    ensures var x, y := BridgeOf(w.state.token, b), BridgeOf(Step(w, env, r).state.token, b);
            y.windowStart == x.windowStart && y.minted == x.minted
  {
    if StatusOf(w, r) == Committed {
      CommitAppliesBody(w, env, r);
      if !(r.call.SetBridge? && r.call.bridge == b) {
        BridgeKept(Ticked(w.state, r.call), w.params, r.from, r.call, b);
      }
    } else {
      FailureChangesNothing(w, env, r);
    }
  }

  lemma StepExact(w: World, env: Env, r: Request, b: Actor, ms: seq<Minting>)
    requires Exact(BridgeOf(w.state.token, b), w.state.t, ms)
    ensures var y := Step(w, env, r).state;
            Exact(BridgeOf(y.token, b), y.t, ms + [Minting(TimeOf(w, r), MintedBy(w, r, b))])
  {
    var x, y := BridgeOf(w.state.token, b), BridgeOf(Step(w, env, r).state.token, b);
    ClockAdvances(w, env, r);
    if StatusOf(w, r) == Committed && r.from == b && r.call.BridgeMint? {
      MintMoves(w, env, r, b);
    } else {
      OthersKeepWindow(w, env, r, b);
    }
    MintExact(x, y, w.state.t, Step(w, env, r).state.t, ms, Minting(TimeOf(w, r), MintedBy(w, r, b)));
  }

  /** In every run a bridge's counter is exactly what it has minted since its window opened. */
  lemma {:induction false} RunCounts(w: World, env: Env, rs: seq<Request>, b: Actor)
    requires Fresh(w)
    ensures var x := Run(w, env, rs).state;
            Exact(BridgeOf(x.token, b), x.t, Mintings(w, env, rs, b))
    decreases |rs|
  {
    if rs != [] {
      var front := rs[..|rs| - 1];
      RunCounts(w, env, front, b);
      StepExact(Run(w, env, front), env, rs[|rs| - 1], b, Mintings(w, env, front, b));
    }
  }

  // ------------------------------------------------------------------ the rolling day

  /** The first second of the day that ends with second t. */
  function DayBefore(t: nat): nat { if t >= DAY then t - DAY + 1 else 0 }

  /** What was minted in the day up to t, but before the window that counts at t: nobody remembers it. */
  function Forgotten(b: Bridge, ms: seq<Minting>, t: nat): nat { Within(ms, DayBefore(t), Window(b, t).windowStart) }

  /** What was minted in the whole day up to and including t. */
  function InRollingDay(ms: seq<Minting>, t: nat): nat { Within(ms, DayBefore(t), t + 1) }

  /** The day up to t is what the window counts plus what it forgets. */
  lemma RollingDayExact(b: Bridge, now: nat, ms: seq<Minting>, t: nat)
    requires Exact(b, now, ms) && now < t
    ensures InRollingDay(ms, t) == Forgotten(b, ms, t) + Window(b, t).minted
  {
    NothingLater(ms, now, t + 1, 0);
    SplitAt(ms, DayBefore(t), t + 1);
    if t >= b.windowStart + DAY {
      NothingLater(ms, now, t, 0);
      SplitAt(ms, DayBefore(t), t);
    } else {
      SplitAt(ms, DayBefore(t), b.windowStart);
    }
  }

  /** Every amount the contract would let through at t keeps the rolling day within the cap of that moment. */
  ghost predicate KeepsRollingCap(b: Bridge, ms: seq<Minting>, t: nat) {
    forall amount: nat :: MintFrom(b, t, amount).Ok? ==> InRollingDay(ms, t) + amount <= b.cap
  }

  lemma KeepsIff(b: Bridge, now: nat, ms: seq<Minting>, t: nat)
    requires Exact(b, now, ms) && now < t && MintFrom(b, t, 0).Ok?
    ensures KeepsRollingCap(b, ms, t) <==> Forgotten(b, ms, t) == 0
  {
    RollingDayExact(b, now, ms, t);
    var most := b.cap - Window(b, t).minted;
    assert MintFrom(b, t, most).Ok?;
  }

  /**
   After any run, every amount a bridge can mint next keeps its rolling day within its cap if and only if it minted
   nothing in that day before its window (a lapsed window counts as opening now). A bridge that cannot even mint nothing
   is not listed, or is over a lowered cap already.
   */
  lemma RollingCapIff(w: World, env: Env, rs: seq<Request>, b: Actor, t: nat)
    requires Fresh(w) && t > Run(w, env, rs).state.t && MintFrom(BridgeOf(Run(w, env, rs).state.token, b), t, 0).Ok?
    ensures var record, ms := BridgeOf(Run(w, env, rs).state.token, b), Mintings(w, env, rs, b);
            && (KeepsRollingCap(record, ms, t) <==> Forgotten(record, ms, t) == 0)
            && InRollingDay(ms, t) == Forgotten(record, ms, t) + Window(record, t).minted
  {
    RunCounts(w, env, rs, b);
    RollingDayExact(BridgeOf(Run(w, env, rs).state.token, b), Run(w, env, rs).state.t, Mintings(w, env, rs, b), t);
    KeepsIff(BridgeOf(Run(w, env, rs).state.token, b), Run(w, env, rs).state.t, Mintings(w, env, rs, b), t);
  }

  lemma MintingNext(w: World, env: Env, front: seq<Request>, r: Request, b: Actor)
    ensures Mintings(w, env, front + [r], b)
            == Mintings(w, env, front, b) + [Minting(TimeOf(Run(w, env, front), r), MintedBy(Run(w, env, front), r, b))]
  {
    assert (front + [r])[..|front|] == front;
  }

  lemma MintedNow(w: World, r: Request, b: Actor)
    requires StatusOf(w, r) == Committed && r.from == b && r.call.BridgeMint?
    ensures TimeOf(w, r) == w.state.t + 2 && MintedBy(w, r, b) == r.call.amount
  {}

  /** A mint that commits at t adds its amount to the rolling day up to t, which was what the window counts and forgets. */
  lemma MintAddsToDay(w: World, env: Env, rs: seq<Request>, r: Request, b: Actor, t: nat)
    requires StatusOf(Run(w, env, rs), r) == Committed && r.from == b && r.call.BridgeMint? && t == Run(w, env, rs).state.t + 2
    ensures InRollingDay(Mintings(w, env, rs + [r], b), t) == InRollingDay(Mintings(w, env, rs, b), t) + r.call.amount
  {
    MintingNext(w, env, rs, r, b);
    MintedNow(Run(w, env, rs), r, b);
    NextMinting(Mintings(w, env, rs, b), Minting(t, r.call.amount), DayBefore(t), t + 1);
  }

  // ------------------------------------------------------------------ a run that mints two caps

  predicate Mints(r: Request, amount: nat) { r.from == Kiosk && r.call.BridgeMint? && r.call.amount == amount }

  /** The kiosk is listed, an empty mint opens its window, and the window has four seconds left. */
  predicate OpensWindow(rs: seq<Request>, cap: nat) {
    ListsKiosk(rs, cap) && |rs| == 4 && Mints(rs[2], 0) && Asks(rs[3], rs[3].from, Warp(DAY - 4))
  }

  lemma EmptyMint(w: World, env: Env, rs: seq<Request>, cap: nat)
    requires Fresh(w) && w.state.t >= DAY && Pays(w, 10_000_000) && OpensWindow(rs, cap)
    ensures At(Run(w, env, rs[..3]), Some(Owner), Bridge(true, cap, 0, w.state.t + 6), w.state.t + 6)
    ensures Pays(Run(w, env, rs[..3]), 7_900_000)
  {
    KioskListed(w, env, rs, cap);
    MintStep(Run(w, env, rs[..2]), env, rs[2], Bridge(true, cap, 0, 0), w.state.t + 4, rs[2].call.to, 0, 8_000_000);
    RunNext(w, env, rs, 2);
  }

  lemma WindowOpens(w: World, env: Env, rs: seq<Request>, cap: nat)
    requires Fresh(w) && w.state.t >= DAY && Pays(w, 10_000_000) && OpensWindow(rs, cap)
    ensures At(Run(w, env, rs), Some(Owner), Bridge(true, cap, 0, w.state.t + 6), w.state.t + 2 + DAY)
    ensures Pays(Run(w, env, rs), 7_000_000)
  {
    EmptyMint(w, env, rs, cap);
    WarpStep(Run(w, env, rs[..3]), env, rs[3], Bridge(true, cap, 0, w.state.t + 6), w.state.t + 6, DAY - 4, 7_900_000);
  }

  /** The kiosk's bridge record, time and purse after a run, and all it minted. */
  ghost predicate Stands(w: World, env: Env, rs: seq<Request>, b: Bridge, t: nat, gwei: nat, ms: seq<Minting>) {
    At(Run(w, env, rs), Some(Owner), b, t) && Pays(Run(w, env, rs), gwei) && Mintings(w, env, rs, Kiosk) == ms
  }

  lemma MintWorld(v: World, env: Env, r: Request, b: Bridge, t: nat, amount: nat, gwei: nat)
    requires Mints(r, amount) && At(v, Some(Owner), b, t) && Pays(v, gwei) && gwei >= 95_816 && MintFrom(b, t + 2, amount).Ok?
    ensures At(Step(v, env, r), Some(Owner), MintFrom(b, t + 2, amount).value, t + 2) && Pays(Step(v, env, r), gwei - 95_816)
    ensures Minting(TimeOf(v, r), MintedBy(v, r, Kiosk)) == Minting(t + 2, amount)
  {
    MintStep(v, env, r, b, t, r.call.to, amount, gwei);
    MintedNow(v, r, Kiosk);
  }

  /** One mint of a run: the record moves, and one more minting is on the books. */
  lemma MintAt(w: World, env: Env, front: seq<Request>, r: Request, b: Bridge, t: nat, amount: nat, gwei: nat, ms: seq<Minting>)
    requires Stands(w, env, front, b, t, gwei, ms) && Mints(r, amount) && gwei >= 95_816 && MintFrom(b, t + 2, amount).Ok?
    ensures Stands(w, env, front + [r], MintFrom(b, t + 2, amount).value, t + 2, gwei - 95_816, ms + [Minting(t + 2, amount)])
  {
    MintWorld(Run(w, env, front), env, r, b, t, amount, gwei);
    MintingNext(w, env, front, r, Kiosk);
    assert (front + [r])[..|front|] == front;
  }

  lemma TwoMints(w: World, env: Env, front: seq<Request>, r: Request, q: Request, cap: nat, start: nat, ms: seq<Minting>)
    requires Stands(w, env, front, Bridge(true, cap, 0, start), start + DAY - 4, 7_000_000, ms) && Mints(r, cap) && Mints(q, cap)
    ensures var t := start + DAY - 2;
            Mintings(w, env, front + [r] + [q], Kiosk) == ms + [Minting(t, cap)] + [Minting(t + 2, cap)]
  {
    var t := start + DAY - 2;
    MintAt(w, env, front, r, Bridge(true, cap, 0, start), t - 2, cap, 7_000_000, ms);
    MintAt(w, env, front + [r], q, Bridge(true, cap, cap, start), t, cap, 6_904_184, ms + [Minting(t, cap)]);
  }

  lemma PastAt(w: World, env: Env, rs: seq<Request>, now: nat)
    requires Fresh(w) && Run(w, env, rs).state.t == now
    ensures Past(Mintings(w, env, rs, Kiosk), now)
  {
    RunCounts(w, env, rs, Kiosk);
  }

  lemma TwoCapsAfter(w: World, env: Env, front: seq<Request>, r: Request, q: Request, cap: nat, start: nat, ms: seq<Minting>)
    requires Stands(w, env, front, Bridge(true, cap, 0, start), start + DAY - 4, 7_000_000, ms) && Mints(r, cap) && Mints(q, cap)
    requires Past(ms, start + DAY - 4)
    ensures Within(Mintings(w, env, front + [r] + [q], Kiosk), start + DAY - 2, start + DAY + 1) == 2 * cap
  {
    TwoMints(w, env, front, r, q, cap, start, ms);
    LastTwo(ms, cap, start + DAY - 2);
  }

  lemma OpensStands(w: World, env: Env, rs: seq<Request>, cap: nat, start: nat, ms: seq<Minting>)
    requires Fresh(w) && w.state.t >= DAY && Pays(w, 10_000_000) && OpensWindow(rs, cap) && start == w.state.t + 6
    requires ms == Mintings(w, env, rs, Kiosk)
    ensures Stands(w, env, rs, Bridge(true, cap, 0, start), start + DAY - 4, 7_000_000, ms) && Past(ms, start + DAY - 4)
  {
    WindowOpens(w, env, rs, cap);
    PastAt(w, env, rs, start + DAY - 4);
  }

  /**
   From any fresh world a day past the epoch: after the window is opened, two more calls two seconds apart mint the cap
   twice, the first just before the window ends and the second just after.
   */
  lemma TwoCapsInTwoSeconds(w: World, env: Env, rs: seq<Request>, r: Request, q: Request, cap: nat, start: nat)
    requires Fresh(w) && w.state.t >= DAY && Pays(w, 10_000_000) && OpensWindow(rs, cap) && start == w.state.t + 6
    requires Mints(r, cap) && Mints(q, cap)
    ensures Within(Mintings(w, env, rs + [r] + [q], Kiosk), start + DAY - 2, start + DAY + 1) == 2 * cap
  {
    OpensStands(w, env, rs, cap, start, Mintings(w, env, rs, Kiosk));
    TwoCapsAfter(w, env, rs, r, q, cap, start, Mintings(w, env, rs, Kiosk));
  }

  lemma LastTwo(ms: seq<Minting>, cap: nat, t: nat)
    requires t >= 2 && Past(ms, t - 2)
    ensures Within(ms + [Minting(t, cap)] + [Minting(t + 2, cap)], t, t + 3) == 2 * cap
  {
    NothingLater(ms, t - 2, t, t + 3);
    NextMinting(ms, Minting(t, cap), t, t + 3);
    NextMinting(ms + [Minting(t, cap)], Minting(t + 2, cap), t, t + 3);
  }
}
