/** What the operations of a run say about each row: when it burns twice, how often it is sent, and how it is forgotten. */
module PayoutHistory {
  import opened Options
  import opened PayoutRules
  import opened PayoutTheorems
  import opened PayoutResults

  // ------------------------------------------------------------------ settlements that are overwritten

  /** The loop is about to overwrite row k: by the answer to its send, or by marking it exhausted. */
  predicate LoopWrites(d: Desk, c: Config, op: Op, k: Key) {
    || (op.FinishSend? && d.flight.Some? && d.flight.value.key == k)
    || (op.RetryNext? && d.flight == None && d.queue != [] && d.queue[0].key == k && d.queue[0].attempts >= c.maxAttempts)
  }

  /** The loop's next write would hit a settled row. */
  predicate Overturns(d: Desk, c: Config, op: Op, k: Key) { LoopWrites(d, c, op, k) && SettledTimes(d, k) == 1 }

  /** How many operations of a run overturned a settlement of k. */
  function Overturned(c: Config, logs: Logs, ops: seq<Op>, k: Key): nat
    decreases |ops|
  {
    if ops == [] then 0
    else
      var front := ops[..|ops| - 1];
      Overturned(c, logs, front, k) + if Overturns(Run(NEW, c, logs, front), c, ops[|ops| - 1], k) then 1 else 0
  }

  predicate OverturnsAt(c: Config, logs: Logs, ops: seq<Op>, i: nat, k: Key)
    requires i < |ops|
  {
    Overturns(Run(NEW, c, logs, ops[..i]), c, ops[i], k)
  }

  lemma CallbackReopensNothing(d: Desk, conversation: Option<string>, originator: Option<string>, success: bool, burned: bool)
    ensures Settle(d, conversation, originator, success, burned).reopened == d.reopened
    ensures Expire(d, conversation, originator).reopened == d.reopened
  {}

  lemma FinishReopens(d: Desk, c: Config, ack: Ack, k: Key)
    ensures Times(Finish(d, ack).reopened, k) == Times(d.reopened, k) + if Overturns(d, c, FinishSend(ack), k) then 1 else 0
  {
    if d.flight.Some? {
      AppendTimes(d.reopened, d.flight.value.key, k);
    }
  }

  lemma RetryReopens(d: Desk, c: Config, k: Key)
    requires d.flight == None
    ensures Times(Retry(d, c).reopened, k) == Times(d.reopened, k) + if Overturns(d, c, RetryNext, k) then 1 else 0
  {
    if d.queue != [] {
      AppendTimes(d.reopened, d.queue[0].key, k);
    }
  }

  /** A step adds k to the overwritten settlements exactly when the loop writes to k while it is settled. */
  lemma StepReopens(d: Desk, c: Config, logs: Logs, op: Op, k: Key)
    ensures Times(Step(d, c, logs, op).reopened, k) == Times(d.reopened, k) + if Overturns(d, c, op, k) then 1 else 0
  {
    match op {
      case FinishSend(ack) => FinishReopens(d, c, ack, k);
      case RetryNext => if d.flight == None { RetryReopens(d, c, k); }
      case Result(conversation, originator, success, burned) => CallbackReopensNothing(d, conversation, originator, success, burned);
      case Timeout(conversation, originator) => CallbackReopensNothing(d, conversation, originator, false, false);
      case _ =>
    }
  }

  lemma {:induction false} ReopenedIsOverturned(c: Config, logs: Logs, ops: seq<Op>, k: Key)
    ensures Times(Run(NEW, c, logs, ops).reopened, k) == Overturned(c, logs, ops, k)
    decreases |ops|
  {
    if ops != [] {
      var front := ops[..|ops| - 1];
      ReopenedIsOverturned(c, logs, front, k);
      StepReopens(Run(NEW, c, logs, front), c, logs, ops[|ops| - 1], k);
    }
  }

  lemma {:induction false} NoneOverturned(c: Config, logs: Logs, ops: seq<Op>, k: Key)
    ensures Overturned(c, logs, ops, k) == 0 <==> forall i :: 0 <= i < |ops| ==> !OverturnsAt(c, logs, ops, i, k)
    decreases |ops|
  {
    if ops != [] {
      var n := |ops| - 1;
      var front := ops[..n];
      NoneOverturned(c, logs, front, k);
      assert forall i :: 0 <= i < n ==> front[..i] == ops[..i];
      assert forall i :: 0 <= i < n ==> (OverturnsAt(c, logs, front, i, k) <==> OverturnsAt(c, logs, ops, i, k));
      assert OverturnsAt(c, logs, ops, n, k) <==> Overturns(Run(NEW, c, logs, front), c, ops[n], k);
    }
  }

  /**
   A row's burns are one if it is settled now, plus one for every operation that overturned it. So it burns exactly when it
   is settled if and only if the loop never writes to it while it is settled; and it burns at most once if and only if it is
   settled and was never overturned, or is not settled and was overturned at most once.
   */
  lemma BurnsOnceIffNeverOverturned(c: Config, logs: Logs, ops: seq<Op>, k: Key)
    requires c.maxAttempts >= 1
    ensures var d := Run(NEW, c, logs, ops);
            && Times(BurnKeys(d.burns), k) == SettledTimes(d, k) + Overturned(c, logs, ops, k)
            && (Times(BurnKeys(d.burns), k) <= 1 <==> SettledTimes(d, k) + Overturned(c, logs, ops, k) <= 1)
            && (Times(BurnKeys(d.burns), k) == SettledTimes(d, k)
                <==> forall i :: 0 <= i < |ops| ==> !OverturnsAt(c, logs, ops, i, k))
  {
    EveryRunAccounts(c, logs, ops, k);
    ReopenedIsOverturned(c, logs, ops, k);
    NoneOverturned(c, logs, ops, k);
  }

  // ------------------------------------------------------------------ how often a row is sent

  /** This operation puts a request for k in the air. */
  predicate Sends(d: Desk, c: Config, logs: Logs, op: Op, k: Key) {
    d.flight == None && Flying(Step(d, c, logs, op), k)
  }

  predicate Flying(d: Desk, k: Key) { d.flight.Some? && d.flight.value.key == k }

  function SendsOf(c: Config, logs: Logs, ops: seq<Op>, k: Key): nat
    decreases |ops|
  {
    if ops == [] then 0
    else
      var front := ops[..|ops| - 1];
      SendsOf(c, logs, front, k) + if Sends(Run(NEW, c, logs, front), c, logs, ops[|ops| - 1], k) then 1 else 0
  }

  /** Sends whose answer the loop never got to write down. */
  function AbortedSends(c: Config, logs: Logs, ops: seq<Op>, k: Key): nat
    decreases |ops|
  {
    if ops == [] then 0
    else
      var front := ops[..|ops| - 1];
      AbortedSends(c, logs, front, k) + if ops[|ops| - 1].Abort? && Flying(Run(NEW, c, logs, front), k) then 1 else 0
  }

  function AttemptsOf(d: Desk, k: Key): nat { if k in d.rows then d.rows[k].attempts else 0 }

  /** Attempts written down, plus the one in the air. */
  function Spent(d: Desk, k: Key): nat { AttemptsOf(d, k) + if Flying(d, k) then 1 else 0 }

  lemma CallbackSpends(d: Desk, conversation: Option<string>, originator: Option<string>, success: bool, burned: bool, k: Key)
    ensures Spent(Settle(d, conversation, originator, success, burned), k) == Spent(d, k)
    ensures Settle(d, conversation, originator, success, burned).flight == d.flight
    ensures Spent(Expire(d, conversation, originator), k) == Spent(d, k)
    ensures Expire(d, conversation, originator).flight == d.flight
  {}

  lemma StepSpends(d: Desk, c: Config, logs: Logs, op: Op, k: Key)
    requires Inv(d, c) && c.maxAttempts >= 1
    ensures Spent(Step(d, c, logs, op), k) + (if op.Abort? && Flying(d, k) then 1 else 0)
            == Spent(d, k) + if Sends(d, c, logs, op, k) then 1 else 0
  {
    match op {
      case Result(conversation, originator, success, burned) => CallbackSpends(d, conversation, originator, success, burned, k);
      case Timeout(conversation, originator) => CallbackSpends(d, conversation, originator, false, false, k);
      case RetryNext => if d.queue != [] { assert WaitOk(d.queue[0], d.rows); }
      case _ =>
    }
  }

  /**
   Every request sent for a row is an attempt in its ledger row, the one in the air, or one whose answer an abort lost:
   so a row is sent at most maxAttempts times, and once more for each abort that caught its send.
   */
  lemma {:induction false} SendsBounded(c: Config, logs: Logs, ops: seq<Op>, k: Key)
    requires c.maxAttempts >= 1
    ensures var d := Run(NEW, c, logs, ops);
            && SendsOf(c, logs, ops, k) == Spent(d, k) + AbortedSends(c, logs, ops, k)
            && SendsOf(c, logs, ops, k) <= c.maxAttempts + AbortedSends(c, logs, ops, k)
    decreases |ops|
  {
    RunKeeps(c, logs, ops);
    if ops != [] {
      var front := ops[..|ops| - 1];
      SendsBounded(c, logs, front, k);
      RunKeeps(c, logs, front);
      StepSpends(Run(NEW, c, logs, front), c, logs, ops[|ops| - 1], k);
    }
    SpentBounded(Run(NEW, c, logs, ops), c, k);
  }

  lemma SpentBounded(d: Desk, c: Config, k: Key)
    requires Inv(d, c)
    ensures Spent(d, k) <= c.maxAttempts
  {
    if k in d.rows {
      assert RowOk(d.rows[k], c);
    }
  }

  // ------------------------------------------------------------------ how a row comes to stay pending

  /** A pending row has never been answered, and no retry waits for it. */
  ghost predicate Fresh(d: Desk, k: Key) {
    k in d.rows && d.rows[k].status == Pending ==>
      d.rows[k].conversation == None && d.rows[k].originator == None && forall i :: 0 <= i < |d.queue| ==> d.queue[i].key != k
  }

  lemma FreshCallback(d: Desk, c: Config, conversation: Option<string>, originator: Option<string>, success: bool, burned: bool,
                      k: Key)
    requires Fresh(d, k)
    ensures Fresh(Settle(d, conversation, originator, success, burned), k)
    ensures Fresh(Expire(d, conversation, originator), k)
  {}

  lemma FreshStep(d: Desk, c: Config, logs: Logs, op: Op, k: Key)
    requires Fresh(d, k) && Inv(d, c)
    ensures Fresh(Step(d, c, logs, op), k)
  {
    match op {
      case Result(conversation, originator, success, burned) =>
        FreshCallback(d, c, conversation, originator, success, burned, k);
      case Timeout(conversation, originator) => FreshCallback(d, c, conversation, originator, false, false, k);
      case PollDone => FreshQueue(d, c, k);
      case Transfer(ev) => FreshHandle(d, c, ev, d.todo, k);
      case NextTransfer => if d.todo != [] { FreshHandle(d, c, d.todo[0], d.todo[1..], k); }
      case FinishSend(ack) => FreshSend(d, c, ack, k);
      case RetryNext => FreshSend(d, c, SendFailed, k);
      case _ =>
    }
  }

  lemma FreshSend(d: Desk, c: Config, ack: Ack, k: Key)
    requires Fresh(d, k)
    ensures Fresh(Finish(d, ack), k) && Fresh(Retry(d, c), k)
  {}

  lemma FreshQueue(d: Desk, c: Config, k: Key)
    requires Fresh(d, k) && RowsOk(d, c)
    ensures d.scanning.Some? ==> Fresh(EndScan(d), k)
  {
    RetriesDistinct(d, c, |d.order|);
  }

  lemma FreshHandle(d: Desk, c: Config, ev: Event, todo: seq<Event>, k: Key)
    requires Fresh(d, k) && LoopOk(d, c)
    ensures Fresh(Handle(d, c, ev).(todo := todo), k) && Fresh(Handle(d, c, ev), k)
  {
    if k == ev.key && k !in d.rows {
      forall i | 0 <= i < |d.queue|
        ensures d.queue[i].key != k
      {
        assert WaitOk(d.queue[i], d.rows);
      }
    }
  }

  lemma {:induction false} RunFresh(c: Config, logs: Logs, ops: seq<Op>, k: Key)
    requires c.maxAttempts >= 1
    ensures Fresh(Run(NEW, c, logs, ops), k)
    decreases |ops|
  {
    if ops != [] {
      var front := ops[..|ops| - 1];
      RunFresh(c, logs, front, k);
      RunKeeps(c, logs, front);
      FreshStep(Run(NEW, c, logs, front), c, logs, ops[|ops| - 1], k);
    }
  }

  /** In every run, a pending row is either in the air or forgotten by the loop. */
  lemma PendingFliesOrIsOrphan(c: Config, logs: Logs, ops: seq<Op>, k: Key)
    requires c.maxAttempts >= 1
    ensures var d := Run(NEW, c, logs, ops);
            k in d.rows && d.rows[k].status == Pending ==> (Flying(d, k) <==> !Orphan(d, k))
  {
    RunFresh(c, logs, ops, k);
  }

  /** An abort catches the first send of row k, before its answer. */
  predicate Forgets(d: Desk, op: Op, k: Key) {
    op.Abort? && Flying(d, k) && k in d.rows && d.rows[k].status == Pending
  }

  lemma OnlyAbortForgets(d: Desk, c: Config, logs: Logs, op: Op, k: Key)
    requires Fresh(d, k) && Inv(d, c) && c.maxAttempts >= 1
    ensures !Orphan(d, k) && Orphan(Step(d, c, logs, op), k) <==> Forgets(d, op, k)
  {
    if !op.Abort? && !Orphan(d, k) {
      match op {
        case Result(conversation, originator, success, burned) =>
        case Timeout(conversation, originator) =>
        case PollDone => RetriesDistinct(d, c, |d.order|);
        case Transfer(ev) =>
        case NextTransfer =>
        case _ =>
      }
    }
  }

  ghost predicate ForgetsAt(c: Config, logs: Logs, ops: seq<Op>, i: nat, k: Key)
    requires i < |ops|
  {
    Forgets(Run(NEW, c, logs, ops[..i]), ops[i], k)
  }

  /**
   After any run, a row is pending with nothing in the air for it if and only if some abort of the run caught its first
   send; nothing the worker does afterwards changes that.
   */
  lemma {:induction false} OrphanIffAborted(c: Config, logs: Logs, ops: seq<Op>, k: Key)
    requires c.maxAttempts >= 1
    ensures Orphan(Run(NEW, c, logs, ops), k) <==> exists i :: 0 <= i < |ops| && ForgetsAt(c, logs, ops, i, k)
    decreases |ops|
  {
    if ops != [] {
      var n := |ops| - 1;
      var front, d := ops[..n], Run(NEW, c, logs, ops[..n]);
      OrphanIffAborted(c, logs, front, k);
      assert forall i :: 0 <= i < n ==> front[..i] == ops[..i];
      assert forall i :: 0 <= i < n ==> (ForgetsAt(c, logs, front, i, k) <==> ForgetsAt(c, logs, ops, i, k));
      assert ForgetsAt(c, logs, ops, n, k) <==> Forgets(d, ops[n], k);
      RunFresh(c, logs, front, k);
      RunKeeps(c, logs, front);
      OnlyAbortForgets(d, c, logs, ops[n], k);
      if Orphan(d, k) {
        OrphanStaysPending(c, logs, ops, n, k);
      }
    }
  }

  /** The shortest such run: a payable transfer, and an abort before Daraja answers. */
  lemma AbortForgetsPayout(c: Config, logs: Logs, ev: Event)
    requires ev.to == c.bridge && ev.from == c.beneficiary && ev.value / UKES_PER_KES >= c.minKes
    ensures Orphan(Run(NEW, c, logs, [Transfer(ev), Abort]), ev.key)
  {
    var ops := [Transfer(ev), Abort];
    var sent := Handle(NEW, c, ev);
    assert ops[..0] == [] && ops[..2] == ops;
    RunAt(NEW, c, logs, ops, 0, NEW, sent);
    RunAt(NEW, c, logs, ops, 1, sent, Step(sent, c, logs, Abort));
  }
}
