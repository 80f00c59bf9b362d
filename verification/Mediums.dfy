/** Mediums and link selection: protocol/xkp/sim.py, Medium and Link. Times, rates and scores are reals. */
module Mediums {
  import opened Options

  datatype RawMedium = Medium(
    bps: real, loss: real, latency: real, mtu: nat,
    up: bool, quarantineUntil: real, failStreak: nat, busyUntil: real, lossEwma: real,
    txFrames: nat, lostFrames: nat, deliveredFrames: nat)

  /** Physical parameters are positive and a frame payload fits the 16-bit length field. */
  type Medium = m: RawMedium | m.bps > 0.0 && m.latency >= 0.0 && 1 <= m.mtu <= 0xFFFF
    witness Medium(1.0, 0.0, 0.0, 1, true, 0.0, 0, 0.0, 0.0, 0, 0, 0)

  function MaxReal(a: real, b: real): real { if a >= b then a else b }

  predicate Live(m: Medium, now: real) { m.up && now >= m.quarantineUntil }

  function AirtimeFor(m: Medium, nbytes: nat): (t: real)
    ensures t >= 0.0
  {
    assert nbytes as real * 8.0 >= 0.0;
    (nbytes as real) * 8.0 / m.bps
  }

  function Score(m: Medium): real {
    m.bps * (1.0 - if m.lossEwma < 0.99 then m.lossEwma else 0.99)
  }

  /** Medium.observe: the running loss estimate, and quarantine on the third failure in a row. */
  function Observe(m: Medium, success: bool, now: real): Medium {
    var ewma := 0.85 * m.lossEwma + 0.15 * (if success then 0.0 else 1.0);
    if success then m.(lossEwma := ewma, failStreak := 0)
    else if m.failStreak + 1 >= 3 then m.(lossEwma := ewma, quarantineUntil := now + 2.0, failStreak := 0)
    else m.(lossEwma := ewma, failStreak := m.failStreak + 1)
  }

  /** What max(live, key=score) means: a live medium, none better, the first of its equals. */
  ghost predicate IsBest(ms: seq<Medium>, now: real, choice: Option<nat>) {
    match choice
    case None => forall j :: 0 <= j < |ms| ==> !Live(ms[j], now)
    case Some(i) =>
      && i < |ms| && Live(ms[i], now)
      && forall j :: 0 <= j < |ms| && Live(ms[j], now) ==>
           Score(ms[j]) <= Score(ms[i]) && (j < i ==> Score(ms[j]) < Score(ms[i]))
  }

  function Best(ms: seq<Medium>, now: real): (choice: Option<nat>)
    ensures choice.Some? ==> choice.value < |ms|
  {
    if ms == [] then None
    else
      var n := |ms| - 1;
      var earlier := Best(ms[..n], now);
      if !Live(ms[n], now) then earlier
      else match earlier
        case None => Some(n)
        case Some(i) => if Score(ms[n]) > Score(ms[i]) then Some(n) else earlier
  }

  lemma {:induction false} BestIsBest(ms: seq<Medium>, now: real)
    ensures IsBest(ms, now, Best(ms, now))
  {
    if ms != [] {
      BestIsBest(ms[..|ms| - 1], now);
    }
  }

  lemma BestUnique(ms: seq<Medium>, now: real, a: Option<nat>, b: Option<nat>)
    requires IsBest(ms, now, a) && IsBest(ms, now, b)
    ensures a == b
  {}

  /** Link.best as the loop it is. */
  method SelectBest(ms: seq<Medium>, now: real) returns (choice: Option<nat>)
    ensures choice == Best(ms, now)
    ensures IsBest(ms, now, choice)
  {
    choice := None;
    for n := 0 to |ms|
      invariant IsBest(ms[..n], now, choice)
    {
      if Live(ms[n], now) {
        if choice == None || Score(ms[n]) > Score(ms[choice.value]) {
          choice := Some(n);
        }
      }
      assert ms[..n + 1][..n] == ms[..n];
    }
    assert ms[..|ms|] == ms;
    BestIsBest(ms, now);
    BestUnique(ms, now, choice, Best(ms, now));
  }

  /** One observation and when it was made. */
  datatype Seen = Seen(success: bool, at: real)

  function ObserveEach(m: Medium, seen: seq<Seen>): Medium {
    if seen == [] then m
    else
      var last := seen[|seen| - 1];
      Observe(ObserveEach(m, seen[..|seen| - 1]), last.success, last.at)
  }

  // ------------------------------------------------------------------ the loss estimate

  /** A success lowers the estimate and a failure raises it, each unless it cannot go further; nothing physical changes. */
  lemma ObservationMoves(m: Medium, success: bool, now: real)
    requires 0.0 <= m.lossEwma <= 1.0
    ensures var y := Observe(m, success, now);
            && 0.0 <= y.lossEwma <= 1.0
            && (success ==> y.lossEwma <= m.lossEwma && (y.lossEwma == m.lossEwma <==> m.lossEwma == 0.0))
            && (!success ==> y.lossEwma >= m.lossEwma && (y.lossEwma == m.lossEwma <==> m.lossEwma == 1.0))
            && y.bps == m.bps && y.loss == m.loss && y.latency == m.latency && y.mtu == m.mtu && y.up == m.up
            && y.busyUntil == m.busyUntil
  {}

  /** The estimate stays a probability, so a score stays positive and no live medium is ever ignored for good. */
  lemma {:induction false} EstimateStaysProbability(m: Medium, seen: seq<Seen>)
    requires 0.0 <= m.lossEwma <= 1.0
    ensures 0.0 <= ObserveEach(m, seen).lossEwma <= 1.0 && ObserveEach(m, seen).bps == m.bps
    ensures Score(ObserveEach(m, seen)) >= 0.01 * m.bps
  {
    if seen != [] {
      EstimateStaysProbability(m, seen[..|seen| - 1]);
    }
    ScorePositive(ObserveEach(m, seen));
  }

  lemma ScorePositive(m: Medium)
    requires 0.0 <= m.lossEwma <= 1.0
    ensures Score(m) >= 0.01 * m.bps
  {
    var keep := 1.0 - if m.lossEwma < 0.99 then m.lossEwma else 0.99;
    assert keep >= 0.01;
    assert m.bps * (keep - 0.01) >= 0.0;
  }

  /** What n steps of the running average leave of the distance to where they go. */
  function Remaining(n: nat): real { if n == 0 then 1.0 else 0.85 * Remaining(n - 1) }

  /** n failures in a row leave 0.85^n of the trust in a medium, and n successes 0.85^n of the distrust. */
  lemma {:induction false} StreaksDecay(m: Medium, seen: seq<Seen>)
    ensures (forall i :: 0 <= i < |seen| ==> !seen[i].success) ==>
              1.0 - ObserveEach(m, seen).lossEwma == Remaining(|seen|) * (1.0 - m.lossEwma)
    ensures (forall i :: 0 <= i < |seen| ==> seen[i].success) ==> ObserveEach(m, seen).lossEwma == Remaining(|seen|) * m.lossEwma
  {
    if seen != [] {
      StreaksDecay(m, seen[..|seen| - 1]);
      DecayOnce(Remaining(|seen| - 1), m.lossEwma);
      DecayOnce(Remaining(|seen| - 1), 1.0 - m.lossEwma);
    }
  }

  lemma DecayOnce(r: real, x: real)
    ensures (0.85 * r) * x == 0.85 * (r * x)
  {}

  /** Wherever b failed, a failed too. */
  ghost predicate FailsWherever(a: seq<Seen>, b: seq<Seen>) {
    |a| == |b| && forall i :: 0 <= i < |a| && !b[i].success ==> !a[i].success
  }

  /** Of two mediums of one bandwidth and one estimate, the one that failed wherever the other did never scores better. */
  lemma {:induction false} FailuresCostScore(m: Medium, n: Medium, a: seq<Seen>, b: seq<Seen>)
    requires m.bps == n.bps && m.lossEwma == n.lossEwma && FailsWherever(a, b)
    ensures ObserveEach(m, a).lossEwma >= ObserveEach(n, b).lossEwma
    ensures ObserveEach(m, a).bps == m.bps && ObserveEach(n, b).bps == n.bps
    ensures Score(ObserveEach(m, a)) <= Score(ObserveEach(n, b))
  {
    if a != [] {
      FailuresCostScore(m, n, a[..|a| - 1], b[..|b| - 1]);
    }
    ScoreFalls(ObserveEach(m, a), ObserveEach(n, b));
  }

  /** At one bandwidth a higher loss estimate never scores better, and scores worse below 0.99. */
  lemma ScoreFalls(m: Medium, n: Medium)
    requires m.bps == n.bps && m.lossEwma >= n.lossEwma
    ensures Score(m) <= Score(n)
    ensures n.lossEwma < m.lossEwma && n.lossEwma < 0.99 ==> Score(m) < Score(n)
  {
    var x := 1.0 - if m.lossEwma < 0.99 then m.lossEwma else 0.99;
    var y := 1.0 - if n.lossEwma < 0.99 then n.lossEwma else 0.99;
    assert m.bps * (y - x) >= 0.0;
    if x < y {
      assert m.bps * (y - x) > 0.0;
    }
  }

  // ------------------------------------------------------------------ quarantine

  /** Failures in a row at the end, counting on from those the medium came with. */
  function Trailing(m: Medium, seen: seq<Seen>): nat {
    if seen == [] then m.failStreak
    else if seen[|seen| - 1].success then 0
    else Trailing(m, seen[..|seen| - 1]) + 1
  }

  /** The streak a medium remembers is its failures in a row, forgotten at every third. */
  lemma {:induction false} StreakIsTrailing(m: Medium, seen: seq<Seen>)
    requires m.failStreak < 3
    ensures ObserveEach(m, seen).failStreak == Trailing(m, seen) % 3
  {
    if seen != [] {
      StreakIsTrailing(m, seen[..|seen| - 1]);
    }
  }

  /**
   Over any observations: one quarantines the medium, for two seconds from its time, if it is the third failure in a row,
   or the sixth, and so on; every other observation leaves the quarantine as it was.
   */
  lemma QuarantineAtEveryThird(m: Medium, seen: seq<Seen>)
    requires m.failStreak < 3 && seen != []
    ensures var before, after := ObserveEach(m, seen[..|seen| - 1]), ObserveEach(m, seen);
            var failures := Trailing(m, seen);
            after.quarantineUntil
            == if failures > 0 && failures % 3 == 0 then seen[|seen| - 1].at + 2.0 else before.quarantineUntil
  {
    var before := seen[..|seen| - 1];
    StreakIsTrailing(m, before);
    NextThird(Trailing(m, before));
  }

  lemma NextThird(n: nat)
    ensures (n + 1) % 3 == 0 <==> n % 3 + 1 >= 3
  {}
}
