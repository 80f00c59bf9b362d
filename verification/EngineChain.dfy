/** The engine's chain as evidence: what the last hash of a run proves about everything that was called in it. */
module EngineChain {
  import opened Bytes
  import opened HashChain
  import opened EngineTypes
  import opened EngineRules
  import opened EngineRuns

  ghost predicate Addresses(env: Env) {
    Hashes32(env.keccak) && (forall a: Actor :: |env.wallet(a)| == 20) && forall c: Contract :: |env.contract(c)| == 20
  }

  ghost predicate Roots(rs: seq<Request>) { forall i :: 0 <= i < |rs| ==> |rs[i].root| == 32 }

  /** Field widths of a block of a world with `entries` ledger entries at time t. */
  ghost predicate Fits(b: Block, entries: nat, t: nat) {
    && |b.tx.from| == 20 && |ToBytes(b.tx.to)| == 20 && |b.parentHash| == 32 && |b.txHash| == 32 && |b.stateRoot| == 32
    && |b.hash| == 32 && b.tx.nonce <= entries && b.number <= entries && b.timestamp <= t
  }

  ghost predicate AllFit(w: World) {
    && |w.blocks| <= |w.ledger| && (forall i :: 0 <= i < |w.blocks| ==> Fits(w.blocks[i], |w.ledger|, w.state.t))
    && (forall a: Actor :: w.txNonces.At(a) <= |w.ledger|)
  }

  lemma SealedFits(w: World, env: Env, r: Request)
    requires AllFit(w) && Addresses(env) && |r.root| == 32 && w.block == |w.blocks|
    ensures Fits(SealedBlock(w, env, r, Out(w, r).t), |w.ledger| + 1, Out(w, r).t)
  {
    assert |w.blocks| > 0 ==> Fits(w.blocks[|w.blocks| - 1], |w.ledger|, w.state.t);
    TargetIsAddress(env, r.call);
  }

  lemma TargetIsAddress(env: Env, c: Call)
    requires Addresses(env)
    ensures |ToBytes(Target(env, c))| == 20
  {}

  lemma StillFit(w: World, y: World)
    requires AllFit(w) && y.blocks == w.blocks && |y.ledger| >= |w.ledger| && y.state.t >= w.state.t
    requires forall a: Actor :: y.txNonces.At(a) == w.txNonces.At(a)
    ensures AllFit(y)
  {
    forall i | 0 <= i < |y.blocks|
      ensures Fits(y.blocks[i], |y.ledger|, y.state.t)
    {
      assert Fits(w.blocks[i], |w.ledger|, w.state.t);
    }
  }

  lemma OneMoreFits(w: World, r: Request, y: World, b: Block)
    requires AllFit(w) && y.blocks == w.blocks + [b] && |y.ledger| == |w.ledger| + 1 && y.state.t >= w.state.t
    requires Fits(b, |y.ledger|, y.state.t) && y.txNonces == w.txNonces.Next(r.from)
    ensures AllFit(y)
  {
    forall i | 0 <= i < |y.blocks|
      ensures Fits(y.blocks[i], |y.ledger|, y.state.t)
    {
      assert i < |w.blocks| ==> Fits(w.blocks[i], |w.ledger|, w.state.t);
    }
    forall a: Actor
      ensures y.txNonces.At(a) <= |y.ledger|
    {
      assert w.txNonces.At(a) <= |w.ledger| && w.txNonces.At(r.from) <= |w.ledger|;
    }
  }

  lemma StepFits(w: World, env: Env, r: Request)
    requires AllFit(w) && Addresses(env) && |r.root| == 32 && w.block == |w.blocks|
    ensures AllFit(Step(w, env, r))
  {
    ClockAdvances(w, env, r);
    if StatusOf(w, r) != Rejected && OnChain(r.call) {
      SealedFits(w, env, r);
      OneMoreFits(w, r, SealStep(w, env, r), SealedBlock(w, env, r, Out(w, r).t));
    } else {
      StillFit(w, Step(w, env, r));
    }
  }

  lemma {:induction false} RunFits(w: World, env: Env, rs: seq<Request>)
    requires Fresh(w) && Addresses(env) && Roots(rs)
    ensures AllFit(Run(w, env, rs))
    decreases |rs|
  {
    if rs != [] {
      var front := rs[..|rs| - 1];
      RunFits(w, env, front);
      EveryRunIsWellFormed(w, env, front);
      StepFits(Run(w, env, front), env, rs[|rs| - 1]);
    }
  }

  /** Small enough for the 32-byte words the preimages are made of. */
  ghost predicate InWords(w: World) { |w.ledger| < Pow256(32) && w.state.t < Pow256(32) }

  lemma FitIsSized(w: World, i: nat)
    requires AllFit(w) && InWords(w) && i < |w.blocks|
    ensures Sized(w.blocks[i])
  {
    assert Fits(w.blocks[i], |w.ledger|, w.state.t);
  }

  /** Block by block the same transactions, or a collision to show for it. */
  ghost predicate SameHistory(keccak: Keccak, a: seq<Block>, b: seq<Block>)
    requires |a| == |b|
  {
    || (forall i :: 0 <= i < |a| ==> SameCommitted(a[i], b[i]))
    || (exists i :: 0 <= i < |a| && CollisionAt(keccak, a[i], b[i]))
  }

  ghost predicate SameEnd(a: seq<Block>, b: seq<Block>) { |a| == |b| > 0 && a[|a| - 1].hash == b[|b| - 1].hash }

  /**
   Two runs of the demo, from worlds of any parameters, that sealed as many blocks and ended in one hash made the same
   transactions: same payer, target, nonce and calldata, same times and state roots, block by block, or keccak collides.
   */
  lemma SameHashSameHistory(w: World, rs: seq<Request>, v: World, qs: seq<Request>, env: Env)
    requires Fresh(w) && Fresh(v) && Addresses(env) && Roots(rs) && Roots(qs)
    requires InWords(Run(w, env, rs)) && InWords(Run(v, env, qs)) && SameEnd(Run(w, env, rs).blocks, Run(v, env, qs).blocks)
    ensures SameHistory(env.keccak, Run(w, env, rs).blocks, Run(v, env, qs).blocks)
  {
    EveryRunIsWellFormed(w, env, rs);
    EveryRunIsWellFormed(v, env, qs);
    RunFits(w, env, rs);
    RunFits(v, env, qs);
    SoundChainsCommit(Run(w, env, rs), Run(v, env, qs), env.keccak);
  }

  lemma SoundChainsCommit(a: World, b: World, keccak: Keccak)
    requires AllFit(a) && AllFit(b) && InWords(a) && InWords(b) && Verified(keccak, a.blocks) && Verified(keccak, b.blocks)
    requires SameEnd(a.blocks, b.blocks)
    ensures SameHistory(keccak, a.blocks, b.blocks)
  {
    forall i | 0 <= i < |a.blocks|
      ensures Sized(a.blocks[i]) && Sized(b.blocks[i])
    {
      FitIsSized(a, i);
      FitIsSized(b, i);
    }
    LastHashCommits(keccak, a.blocks, b.blocks);
  }
}
