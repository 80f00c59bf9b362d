/** The payout worker's promises over whole runs: what is burned, what never changes, what a poll covers. */
module PayoutResults {
  import opened Options
  import opened PayoutRules
  import opened PayoutTheorems
  import opened Totals

  // ------------------------------------------------------------------ burns

  /**
   Over any run: a row's burns are exactly its overwritten settlements plus one if it is settled now, every burn is the
   row's whole-KES amount, every row splits its value into amount and dust, and no row exceeds its attempts.
   */
  lemma EveryRunAccounts(c: Config, logs: Logs, ops: seq<Op>, k: Key)
    requires c.maxAttempts >= 1
    ensures var d := Run(NEW, c, logs, ops);
            && Accounted(d, k)
            && (forall i :: 0 <= i < |d.burns| ==> BurnOk(d.burns[i], d.rows))
            && (k in d.rows ==> RowOk(d.rows[k], c))
  {
    RunKeeps(c, logs, ops);
  }

  function Burned(burns: seq<Burn>): nat {
    if burns == [] then 0 else Burned(burns[..|burns| - 1]) + burns[|burns| - 1].amount
  }

  function SettledAmounts(rows: map<Key, Row>): map<Key, int> {
    map k | k in rows && rows[k].status == Settled :: rows[k].amount
  }

  function AmountOf(d: Desk, k: Key): nat { if k in d.rows then d.rows[k].amount else 0 }

  /** Whole KES of the rows whose settlement was overwritten, once per overwriting. */
  function ReopenedKes(d: Desk, keys: seq<Key>): nat {
    if keys == [] then 0 else ReopenedKes(d, keys[..|keys| - 1]) + AmountOf(d, keys[|keys| - 1])
  }

  ghost predicate Conserved(d: Desk) {
    Burned(d.burns) == UKES_PER_KES * (Total(SettledAmounts(d.rows)) + ReopenedKes(d, d.reopened))
  }

  lemma {:induction false} AmountsKept(d: Desk, y: Desk, keys: seq<Key>)
    requires forall i :: 0 <= i < |keys| ==> AmountOf(y, keys[i]) == AmountOf(d, keys[i])
    ensures ReopenedKes(y, keys) == ReopenedKes(d, keys)
  {
    if keys != [] {
      AmountsKept(d, y, keys[..|keys| - 1]);
    }
  }

  lemma SettledAmountsAfter(rows: map<Key, Row>, k: Key, row: Row)
    requires k in rows ==> row.amount == rows[k].amount
    ensures Total(SettledAmounts(rows[k := row]))
            == Total(SettledAmounts(rows)) + (if row.status == Settled then row.amount else 0)
               - (if k in rows && rows[k].status == Settled then rows[k].amount else 0)
  {
    var x, y := SettledAmounts(rows), SettledAmounts(rows[k := row]);
    if row.status == Settled {
      if k in x {
        assert y == x;
      } else {
        assert y == x[k := row.amount as int];
        TotalInsert(x, k, row.amount);
      }
    } else if k in x {
      assert y == x - {k};
      TotalRemove(x, k);
    } else {
      assert y == x;
    }
  }

  lemma OverwriteConserves(d: Desk, k: Key, row: Row)
    requires Conserved(d) && k in d.rows && row.amount == d.rows[k].amount && row.status != Settled
    requires forall i :: 0 <= i < |d.reopened| ==> d.reopened[i] in d.rows
    ensures Conserved(Overwrite(d, k, row))
  {
    var y := Overwrite(d, k, row);
    SettledAmountsAfter(d.rows, k, row);
    AmountsKept(d, y, d.reopened);
    if d.rows[k].status == Settled {
      assert y.reopened[..|d.reopened|] == d.reopened;
    }
  }

  lemma SettleConserves(d: Desk, k: Key)
    requires Conserved(d) && k in d.rows && d.rows[k].status != Settled
    ensures Conserved(Overwrite(d, k, d.rows[k].(status := Settled))
                      .(burns := d.burns + [Burn(k, d.rows[k].amount * UKES_PER_KES)]))
  {
    var y := Overwrite(d, k, d.rows[k].(status := Settled)).(burns := d.burns + [Burn(k, d.rows[k].amount * UKES_PER_KES)]);
    SettledAmountsAfter(d.rows, k, d.rows[k].(status := Settled));
    AmountsKept(d, y, d.reopened);
    assert y.burns[..|d.burns|] == d.burns;
  }

  lemma HandleConserves(d: Desk, c: Config, ev: Event)
    requires Conserved(d) && forall i :: 0 <= i < |d.reopened| ==> d.reopened[i] in d.rows
    ensures Conserved(Handle(d, c, ev))
  {
    if ev.key !in d.rows {
      SettledAmountsAfter(d.rows, ev.key, NewRow(c, ev));
      AmountsKept(d, Handle(d, c, ev), d.reopened);
    }
  }

  ghost predicate ReopenedKnown(d: Desk) { forall i :: 0 <= i < |d.reopened| ==> d.reopened[i] in d.rows }

  lemma SameBooks(d: Desk, y: Desk)
    requires Conserved(d) && y.rows == d.rows && y.burns == d.burns && y.reopened == d.reopened
    ensures Conserved(y)
  {
    AmountsKept(d, y, d.reopened);
  }

  lemma CallbackConserves(d: Desk, conversation: Option<string>, originator: Option<string>, success: bool, burned: bool)
    requires Conserved(d) && ReopenedKnown(d)
    ensures Conserved(Settle(d, conversation, originator, success, burned))
    ensures Conserved(Expire(d, conversation, originator))
  {
    var k := Find(d, conversation, originator);
    if k.Some? && k.value in d.rows && d.rows[k.value].status != Settled {
      OverwriteConserves(d, k.value, d.rows[k.value].(status := Failed));
      OverwriteConserves(d, k.value, d.rows[k.value].(status := TimedOut));
      SettleConserves(d, k.value);
    }
  }

  lemma StepConserves(d: Desk, c: Config, logs: Logs, op: Op)
    requires Conserved(d) && ReopenedKnown(d)
    ensures Conserved(Step(d, c, logs, op))
  {
    var y := Step(d, c, logs, op);
    match op {
      case Transfer(ev) => HandleConserves(d, c, ev);
      case NextTransfer =>
        if d.flight == None && d.todo != [] {
          HandleConserves(d, c, d.todo[0]);
          SameBooks(Handle(d, c, d.todo[0]), y);
        }
      case FinishSend(ack) =>
        if d.flight.Some? && d.flight.value.key in d.rows {
          var f := d.flight.value;
          OverwriteConserves(d, f.key, Answer(d.rows[f.key], f.attempts, ack));
          SameBooks(Overwrite(d, f.key, Answer(d.rows[f.key], f.attempts, ack)), y);
        }
      case Result(conversation, originator, success, burned) => CallbackConserves(d, conversation, originator, success, burned);
      case Timeout(conversation, originator) => CallbackConserves(d, conversation, originator, false, false);
      case RetryNext => RetryConserves(d, c);
      case _ => SameBooks(d, y);
    }
  }

  lemma RetryConserves(d: Desk, c: Config)
    requires Conserved(d) && ReopenedKnown(d)
    ensures Conserved(Retry(d, c))
  {
    if d.queue != [] && d.queue[0].key in d.rows && d.queue[0].attempts >= c.maxAttempts {
      var k := d.queue[0].key;
      OverwriteConserves(d, k, d.rows[k].(status := Exhausted));
      SameBooks(Overwrite(d, k, d.rows[k].(status := Exhausted)), Retry(d, c));
    } else {
      SameBooks(d, Retry(d, c));
    }
  }

  lemma ReopenedKnownNext(d: Desk, c: Config, logs: Logs, op: Op)
    requires ReopenedKnown(d)
    ensures ReopenedKnown(Step(d, c, logs, op))
  {}

  /** Total burned is 10^6 times the KES of the settled rows and of every overwritten settlement. */
  lemma {:induction false} RunConserves(c: Config, logs: Logs, ops: seq<Op>)
    ensures Conserved(Run(NEW, c, logs, ops)) && ReopenedKnown(Run(NEW, c, logs, ops))
    decreases |ops|
  {
    if ops == [] {
      assert SettledAmounts(NEW.rows) == map[];
    } else {
      RunConserves(c, logs, ops[..|ops| - 1]);
      StepConserves(Run(NEW, c, logs, ops[..|ops| - 1]), c, logs, ops[|ops| - 1]);
      ReopenedKnownNext(Run(NEW, c, logs, ops[..|ops| - 1]), c, logs, ops[|ops| - 1]);
    }
  }

  // ------------------------------------------------------------------ when settlements are never overwritten

  /** Callbacks come between polls, not while the loop waits for a send. */
  ghost predicate CallbacksBetweenPolls(c: Config, logs: Logs, ops: seq<Op>) {
    forall i :: 0 <= i < |ops| && (ops[i].Result? || ops[i].Timeout?) ==> Idle(Run(NEW, c, logs, ops[..i]))
  }

  /** Nothing in the air or waiting is settled. */
  ghost predicate LoopUnsettled(d: Desk) {
    && (d.flight.Some? ==> d.flight.value.key in d.rows && d.rows[d.flight.value.key].status != Settled)
    && (forall i :: 0 <= i < |d.queue| ==> d.queue[i].key in d.rows && d.rows[d.queue[i].key].status != Settled)
    && d.reopened == []
  }

  lemma SequentialSend(d: Desk, c: Config, ack: Ack)
    requires LoopUnsettled(d)
    ensures LoopUnsettled(Finish(d, ack)) && (d.flight == None ==> LoopUnsettled(Retry(d, c)))
  {}

  lemma SequentialHandle(d: Desk, c: Config, ev: Event, todo: seq<Event>)
    requires LoopUnsettled(d) && d.flight == None
    ensures LoopUnsettled(Handle(d, c, ev).(todo := todo))
  {}

  lemma SequentialCallback(d: Desk, c: Config, logs: Logs, op: Op)
    requires LoopUnsettled(d) && Inv(d, c) && (op.Result? || op.Timeout?) && Idle(d)
    ensures LoopUnsettled(Step(d, c, logs, op))
  {}

  lemma SequentialStep(d: Desk, c: Config, logs: Logs, op: Op)
    requires LoopUnsettled(d) && Inv(d, c) && (op.Result? || op.Timeout? ==> Idle(d))
    ensures LoopUnsettled(Step(d, c, logs, op))
  {
    match op {
      case FinishSend(ack) => SequentialSend(d, c, ack);
      case RetryNext => SequentialSend(d, c, SendFailed);
      case Transfer(ev) => if Idle(d) { SequentialHandle(d, c, ev, d.todo); }
      case NextTransfer => if d.flight == None && d.todo != [] { SequentialHandle(d, c, d.todo[0], d.todo[1..]); }
      case PollDone => RetriesDistinct(d, c, |d.order|);
      case Poll(_, _) =>
      case Abort =>
      case _ => SequentialCallback(d, c, logs, op);
    }
  }

  /** A worker whose callbacks come between its polls settles each row for good and burns it at most once. */
  lemma {:induction false} SequentialBurnsOnce(c: Config, logs: Logs, ops: seq<Op>, k: Key)
    requires c.maxAttempts >= 1 && CallbacksBetweenPolls(c, logs, ops)
    ensures LoopUnsettled(Run(NEW, c, logs, ops))
    ensures Times(BurnKeys(Run(NEW, c, logs, ops).burns), k) == SettledTimes(Run(NEW, c, logs, ops), k) <= 1
    decreases |ops|
  {
    if ops != [] {
      var n := |ops| - 1;
      var front := ops[..n];
      assert CallbacksBetweenPolls(c, logs, front) by {
        forall i | 0 <= i < n && (front[i].Result? || front[i].Timeout?)
          ensures Idle(Run(NEW, c, logs, front[..i]))
        {
          assert front[..i] == ops[..i];
        }
      }
      SequentialBurnsOnce(c, logs, front, k);
      RunKeeps(c, logs, front);
      SequentialStep(Run(NEW, c, logs, front), c, logs, ops[n]);
    }
    EveryRunAccounts(c, logs, ops, k);
  }

  // A scenario with one row of 3 KES, two allowed attempts and an empty chain.

  const FIRST: Option<string> := Some("1")
  const SECOND: Option<string> := Some("2")

  function ThreeKes(status: Status, attempts: nat, conversation: Option<string>): Row {
    Row("b", 3 * UKES_PER_KES, 3, 0, status, attempts, conversation, None)
  }

  /** Sent, timed out, and sent again by the retry of the next poll. */
  function RetryInTheAir(k: Key): seq<Op> {
    [Transfer(Event(k, "b", "x", 3 * UKES_PER_KES)), FinishSend(Acknowledged(FIRST, None)), Timeout(FIRST, None), Poll(0, 0),
     PollDone, RetryNext]
  }

  function RetryingDesk(k: Key): Desk {
    Desk(map[k := ThreeKes(TimedOut, 1, FIRST)], [k], Some(Flight(k, 2)), [], None, [], Some(0), [], [])
  }

  lemma RetryReached(c: Config, logs: Logs, k: Key)
    requires c == Config("b", "x", 0, 2) && logs(0) == []
    ensures Run(NEW, c, logs, RetryInTheAir(k)) == RetryingDesk(k)
  {
    var ops := RetryInTheAir(k);
    var d2 := Desk(map[k := ThreeKes(Sent, 1, FIRST)], [k], None, [], None, [], None, [], []);
    var d3 := d2.(rows := map[k := ThreeKes(TimedOut, 1, FIRST)]);
    FirstSend(c, logs, k, ops, d2);
    OneRow(d2, k, FIRST);
    RunAt(NEW, c, logs, ops, 2, d2, d3);
    RetryPoll(c, logs, k, ops, d3);
    assert ops[..6] == ops;
  }

  lemma FirstSend(c: Config, logs: Logs, k: Key, ops: seq<Op>, d: Desk)
    requires c == Config("b", "x", 0, 2) && ops == RetryInTheAir(k)
    requires d == Desk(map[k := ThreeKes(Sent, 1, FIRST)], [k], None, [], None, [], None, [], [])
    ensures Run(NEW, c, logs, ops[..2]) == d
  {
    var d1 := Desk(map[k := ThreeKes(Pending, 0, None)], [k], Some(Flight(k, 1)), [], None, [], None, [], []);
    assert ops[..0] == [];
    RunAt(NEW, c, logs, ops, 0, NEW, d1);
    RunAt(NEW, c, logs, ops, 1, d1, d);
  }

  lemma RetryPoll(c: Config, logs: Logs, k: Key, ops: seq<Op>, d: Desk)
    requires c == Config("b", "x", 0, 2) && logs(0) == [] && ops == RetryInTheAir(k) && Run(NEW, c, logs, ops[..3]) == d
    requires d == Desk(map[k := ThreeKes(TimedOut, 1, FIRST)], [k], None, [], None, [], None, [], [])
    ensures Run(NEW, c, logs, ops[..6]) == RetryingDesk(k)
  {
    var d4 := d.(scanning := Some(Window(0, 0)));
    var d5 := d.(cursor := Some(0), queue := [Snapshot(k, 1)]);
    assert Scan(logs, 0, 0) == [];
    RunAt(NEW, c, logs, ops, 3, d, d4);
    OneRetry(d4, k);
    RunAt(NEW, c, logs, ops, 4, d4, d5);
    RunAt(NEW, c, logs, ops, 5, d5, RetryingDesk(k));
  }

  lemma RunAt(d: Desk, c: Config, logs: Logs, ops: seq<Op>, i: nat, x: Desk, y: Desk)
    requires i < |ops| && Run(d, c, logs, ops[..i]) == x && Step(x, c, logs, ops[i]) == y
    ensures Run(d, c, logs, ops[..i + 1]) == y
  {
    assert ops[..i + 1][..i] == ops[..i];
  }

  function SettledLate(k: Key): Desk {
    RetryingDesk(k).(rows := map[k := ThreeKes(Settled, 1, FIRST)], burns := [Burn(k, 3 * UKES_PER_KES)])
  }

  function OverwrittenDesk(k: Key): Desk {
    SettledLate(k).(rows := map[k := ThreeKes(Sent, 2, SECOND)], flight := None, reopened := [k])
  }

  lemma LateSuccess(c: Config, logs: Logs, k: Key)
    ensures Step(RetryingDesk(k), c, logs, Result(FIRST, None, true, true)) == SettledLate(k)
    ensures Step(SettledLate(k), c, logs, FinishSend(Acknowledged(SECOND, None))) == OverwrittenDesk(k)
  {
    OneRow(RetryingDesk(k), k, FIRST);
  }

  lemma SecondSuccess(c: Config, logs: Logs, k: Key)
    ensures Step(OverwrittenDesk(k), c, logs, Result(SECOND, None, true, true)).burns
            == [Burn(k, 3 * UKES_PER_KES), Burn(k, 3 * UKES_PER_KES)]
  {
    OneRow(OverwrittenDesk(k), k, SECOND);
  }

  /**
   A callback during the loop's await can make a row burn twice: while the retry is in the air the first send's success
   arrives after all, the answer to the retry overwrites the settled row, and the second success burns again.
   */
  lemma SecondBurnExists(c: Config, logs: Logs, k: Key)
    requires c == Config("b", "x", 0, 2) && logs(0) == []
    ensures var late := [Result(FIRST, None, true, true), FinishSend(Acknowledged(SECOND, None)), Result(SECOND, None, true, true)];
            Run(NEW, c, logs, RetryInTheAir(k) + late).burns == [Burn(k, 3 * UKES_PER_KES), Burn(k, 3 * UKES_PER_KES)]
  {
    var late := [Result(FIRST, None, true, true), FinishSend(Acknowledged(SECOND, None)), Result(SECOND, None, true, true)];
    var ops := RetryInTheAir(k) + late;
    RetryReached(c, logs, k);
    assert ops[..6] == RetryInTheAir(k);
    LateSuccess(c, logs, k);
    SecondSuccess(c, logs, k);
    RunAt(NEW, c, logs, ops, 6, RetryingDesk(k), SettledLate(k));
    RunAt(NEW, c, logs, ops, 7, SettledLate(k), OverwrittenDesk(k));
    RunAt(NEW, c, logs, ops, 8, OverwrittenDesk(k), Step(OverwrittenDesk(k), c, logs, late[2]));
    assert ops[..9] == ops;
  }

  lemma OneRow(d: Desk, k: Key, id: Option<string>)
    requires d.order == [k] && k in d.rows && d.rows[k].conversation == id && Present(id)
    ensures Find(d, id, None) == Some(k)
  {
    assert ByConversation(d, id, 0) == None;
    assert ByConversation(d, id, 1) == Some(k);
  }

  lemma OneRetry(d: Desk, k: Key)
    requires d.order == [k] && k in d.rows && Retryable(d.rows[k].status)
    ensures Retries(d, |d.order|) == [Snapshot(k, d.rows[k].attempts)]
  {
    assert Retries(d, 0) == [];
    assert Retries(d, 1) == Retries(d, 0) + [Snapshot(k, d.rows[k].attempts)];
  }

  // ------------------------------------------------------------------ what never changes

  /** Rows are never deleted, their transfer never changes, and rows not to be paid never change at all. */
  ghost predicate Preserved(d: Desk, y: Desk, k: Key)
    requires k in d.rows
  {
    && k in y.rows
    && (!Payable(d.rows[k]) ==> y.rows[k] == d.rows[k])
    && (Payable(d.rows[k]) ==> SameTransfer(d.rows[k], y.rows[k]))
  }

  lemma OverwritePreserves(d: Desk, j: Key, row: Row, k: Key)
    requires k in d.rows && j in d.rows && Payable(d.rows[j]) && SameTransfer(d.rows[j], row)
    ensures Preserved(d, Overwrite(d, j, row), k)
  {}

  lemma CallbackPreserves(d: Desk, c: Config, conversation: Option<string>, originator: Option<string>, success: bool,
                          burned: bool, k: Key)
    requires Inv(d, c) && k in d.rows
    ensures Preserved(d, Settle(d, conversation, originator, success, burned), k)
    ensures Preserved(d, Expire(d, conversation, originator), k)
  {
    var j := Find(d, conversation, originator);
    if j.Some? {
      FoundIsPayable(d, c, conversation, originator);
      OverwritePreserves(d, j.value, d.rows[j.value].(status := Failed), k);
      OverwritePreserves(d, j.value, d.rows[j.value].(status := Settled), k);
      OverwritePreserves(d, j.value, d.rows[j.value].(status := TimedOut), k);
    }
  }

  lemma SendPreserves(d: Desk, c: Config, ack: Ack, k: Key)
    requires Inv(d, c) && k in d.rows
    ensures Preserved(d, Finish(d, ack), k)
    ensures Preserved(d, Retry(d, c), k)
  {
    if d.queue != [] {
      assert WaitOk(d.queue[0], d.rows);
    }
  }

  lemma StepPreserves(d: Desk, c: Config, logs: Logs, op: Op, k: Key)
    requires Inv(d, c) && k in d.rows
    ensures Preserved(d, Step(d, c, logs, op), k)
  {
    match op {
      case Result(conversation, originator, success, burned) => CallbackPreserves(d, c, conversation, originator, success, burned, k);
      case Timeout(conversation, originator) => CallbackPreserves(d, c, conversation, originator, false, false, k);
      case RetryNext => SendPreserves(d, c, SendFailed, k);
      case FinishSend(ack) => SendPreserves(d, c, ack, k);
      case _ =>
    }
  }

  lemma {:induction false} RunPreserves(c: Config, logs: Logs, ops: seq<Op>, n: nat, k: Key)
    requires c.maxAttempts >= 1 && n <= |ops| && k in Run(NEW, c, logs, ops[..n]).rows
    ensures Preserved(Run(NEW, c, logs, ops[..n]), Run(NEW, c, logs, ops), k)
    decreases |ops|
  {
    if n == |ops| {
      assert ops[..n] == ops;
    } else {
      var front := ops[..|ops| - 1];
      assert front[..n] == ops[..n];
      RunPreserves(c, logs, front, n, k);
      RunKeeps(c, logs, front);
      StepPreserves(Run(NEW, c, logs, front), c, logs, ops[|ops| - 1], k);
    }
  }

  // ------------------------------------------------------------------ a row the loop forgets

  /** Recorded as pending, but its send is neither in the air nor waiting: the loop was aborted before the answer. */
  ghost predicate Orphan(d: Desk, k: Key) {
    && k in d.rows && d.rows[k].status == Pending && d.rows[k].conversation == None && d.rows[k].originator == None
    && (d.flight.Some? ==> d.flight.value.key != k) && forall i :: 0 <= i < |d.queue| ==> d.queue[i].key != k
  }

  lemma {:induction false} NotFoundByConversation(d: Desk, id: Option<string>, n: nat, k: Key)
    requires n <= |d.order| && k in d.rows && d.rows[k].conversation == None && d.rows[k].originator == None
    ensures ByConversation(d, id, n) != Some(k) && ByOriginator(d, id, n) != Some(k)
  {
    if n > 0 {
      NotFoundByConversation(d, id, n - 1, k);
    }
  }

  lemma OrphanNotFound(d: Desk, conversation: Option<string>, originator: Option<string>, k: Key)
    requires Orphan(d, k)
    ensures Find(d, conversation, originator) != Some(k)
  {
    NotFoundByConversation(d, conversation, |d.order|, k);
    NotFoundByConversation(d, originator, |d.order|, k);
  }

  lemma OrphanCallback(d: Desk, conversation: Option<string>, originator: Option<string>, success: bool, burned: bool, k: Key)
    requires Orphan(d, k)
    ensures Orphan(Settle(d, conversation, originator, success, burned), k)
    ensures Orphan(Expire(d, conversation, originator), k)
  {
    OrphanNotFound(d, conversation, originator, k);
  }

  lemma OrphanSend(d: Desk, c: Config, ack: Ack, k: Key)
    requires Orphan(d, k)
    ensures Orphan(Finish(d, ack), k) && Orphan(Retry(d, c), k)
  {}

  lemma OrphanPolls(d: Desk, c: Config, logs: Logs, op: Op, k: Key)
    requires Orphan(d, k) && Inv(d, c) && (op.Transfer? || op.NextTransfer? || op.Poll? || op.PollDone? || op.Abort?)
    ensures Orphan(Step(d, c, logs, op), k)
  {
    RetriesDistinct(d, c, |d.order|);
  }

  /**
   Such a row is never paid, retried or burned again, whatever follows: the same event is taken for a duplicate, retries
   skip pending rows, and no callback carries an id it has.
   */
  lemma {:induction false} OrphanStaysPending(c: Config, logs: Logs, ops: seq<Op>, n: nat, k: Key)
    requires c.maxAttempts >= 1 && n <= |ops| && Orphan(Run(NEW, c, logs, ops[..n]), k)
    ensures Orphan(Run(NEW, c, logs, ops), k)
    decreases |ops|
  {
    if n == |ops| {
      assert ops[..n] == ops;
    } else {
      var front, op := ops[..|ops| - 1], ops[|ops| - 1];
      assert front[..n] == ops[..n];
      OrphanStaysPending(c, logs, front, n, k);
      RunKeeps(c, logs, front);
      var d := Run(NEW, c, logs, front);
      match op {
        case Result(conversation, originator, success, burned) => OrphanCallback(d, conversation, originator, success, burned, k);
        case Timeout(conversation, originator) => OrphanCallback(d, conversation, originator, false, false, k);
        case FinishSend(ack) => OrphanSend(d, c, ack, k);
        case RetryNext => OrphanSend(d, c, SendFailed, k);
        case _ => OrphanPolls(d, c, logs, op, k);
      }
    }
  }
}
