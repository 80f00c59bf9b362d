/** What the payout ledger keeps over any order of transfers, answers, callbacks, retries and aborts. */
module PayoutTheorems {
  import opened Options
  import opened PayoutRules

  // ------------------------------------------------------------------ rows

  /** A row splits its transfer into whole KES and dust; one that is not to be paid was never touched. */
  ghost predicate RowOk(r: Row, c: Config) {
    && r.amount * UKES_PER_KES + r.dust == r.value && r.dust < UKES_PER_KES
    && (r.status == Ignored || r.status == Held ==> r.attempts == 0 && r.conversation == None && r.originator == None)
    && (r.status != Ignored ==> r.sender == c.beneficiary)
    && (r.status != Ignored && r.status != Held ==> r.amount >= c.minKes)
    && r.attempts <= c.maxAttempts
  }

  predicate Payable(r: Row) { r.status != Ignored && r.status != Held }

  /** A transfer from the beneficiary to the bridge. */
  predicate Meant(c: Config, ev: Event) { ev.to == c.bridge && ev.from == c.beneficiary }

  /** What a transfer's row says of it: its figures, and whether it is ignored, held back for being too small, or to be paid. */
  ghost predicate Records(c: Config, ev: Event, row: Row) {
    && row.sender == ev.from && row.value == ev.value
    && row.amount * UKES_PER_KES <= ev.value < (row.amount + 1) * UKES_PER_KES && row.dust == ev.value - row.amount * UKES_PER_KES
    && (row.status == Ignored <==> !Meant(c, ev))
    && (row.status == Held <==> Meant(c, ev) && ev.value < c.minKes * UKES_PER_KES)
  }

  /**
   A transfer seen before changes nothing. A new one gets one row, the last, which records it with no attempt made and no
   ids; a request for it goes out at once exactly when it is meant and large enough. No other row is touched.
   */
  lemma TransferIsRecorded(d: Desk, c: Config, ev: Event)
    ensures var y := Handle(d, c, ev);
            if ev.key in d.rows then y == d
            else
              && y.rows.Keys == d.rows.Keys + {ev.key} && (forall k :: k in d.rows ==> y.rows[k] == d.rows[k])
              && Records(c, ev, y.rows[ev.key]) && y.order == d.order + [ev.key]
              && (y.rows[ev.key].attempts, y.rows[ev.key].conversation, y.rows[ev.key].originator) == (0, None, None)
              && y.flight == (if Meant(c, ev) && ev.value >= c.minKes * UKES_PER_KES then Some(Flight(ev.key, 1)) else None)
              && (y.burns, y.reopened, y.queue, y.todo, y.cursor) == (d.burns, d.reopened, d.queue, d.todo, d.cursor)
  {}

  ghost predicate RowsOk(d: Desk, c: Config) {
    && (forall k :: k in d.rows ==> RowOk(d.rows[k], c))
    && (forall i :: 0 <= i < |d.order| ==> d.order[i] in d.rows)
    && (forall k :: k in d.rows ==> exists i :: 0 <= i < |d.order| && d.order[i] == k)
    && (forall i, j :: 0 <= i < j < |d.order| ==> d.order[i] != d.order[j])
  }

  /** What is in the air and what waits for a retry: distinct payable rows, each one attempt behind. */
  ghost predicate LoopOk(d: Desk, c: Config) {
    && (d.flight.Some? ==> FlightOk(d.flight.value, d.rows, c))
    && (forall i :: 0 <= i < |d.queue| ==> WaitOk(d.queue[i], d.rows))
    && (forall i, j :: 0 <= i < j < |d.queue| ==> d.queue[i].key != d.queue[j].key)
    && (d.flight.Some? ==> forall i :: 0 <= i < |d.queue| ==> d.queue[i].key != d.flight.value.key)
  }

  ghost predicate FlightOk(f: Flight, rows: map<Key, Row>, c: Config) {
    f.key in rows && Payable(rows[f.key]) && f.attempts == rows[f.key].attempts + 1 <= c.maxAttempts
  }

  ghost predicate WaitOk(s: Snapshot, rows: map<Key, Row>) {
    s.key in rows && Payable(rows[s.key]) && s.attempts == rows[s.key].attempts
  }

  // ------------------------------------------------------------------ accounting

  function Times(keys: seq<Key>, k: Key): nat { multiset(keys)[k] }

  function BurnKeys(burns: seq<Burn>): (ks: seq<Key>)
    ensures |ks| == |burns|
  {
    if burns == [] then [] else BurnKeys(burns[..|burns| - 1]) + [burns[|burns| - 1].key]
  }

  function SettledTimes(d: Desk, k: Key): nat { if k in d.rows && d.rows[k].status == Settled then 1 else 0 }

  /** The burns of a row: one if it is settled, and one for every time it was settled and overwritten. */
  ghost predicate Accounted(d: Desk, k: Key) { Times(BurnKeys(d.burns), k) == Times(d.reopened, k) + SettledTimes(d, k) }

  ghost predicate BurnOk(b: Burn, rows: map<Key, Row>) { b.key in rows && b.amount == rows[b.key].amount * UKES_PER_KES }

  ghost predicate BurnsOk(d: Desk) {
    && (forall k: Key :: Accounted(d, k))
    && (forall i :: 0 <= i < |d.burns| ==> BurnOk(d.burns[i], d.rows))
  }

  // ------------------------------------------------------------------ overwriting a row

  /** The same transfer, still payable. */
  ghost predicate SameTransfer(x: Row, y: Row) {
    y.sender == x.sender && y.value == x.value && y.amount == x.amount && y.dust == x.dust && Payable(y)
  }

  lemma OverwriteRows(d: Desk, c: Config, k: Key, row: Row)
    requires RowsOk(d, c) && k in d.rows && Payable(d.rows[k]) && SameTransfer(d.rows[k], row) && row.attempts <= c.maxAttempts
    ensures RowsOk(Overwrite(d, k, row), c)
  {
    assert RowOk(d.rows[k], c);
  }

  lemma AppendTimes(ks: seq<Key>, x: Key, k: Key)
    ensures Times(ks + [x], k) == Times(ks, k) + if x == k then 1 else 0
  {}

  lemma BurnKeysAppend(burns: seq<Burn>, b: Burn)
    ensures BurnKeys(burns + [b]) == BurnKeys(burns) + [b.key]
  {
    assert (burns + [b])[..|burns|] == burns;
  }

  /** Overwriting without settling: the burns stand, and losing a settled row is noted. */
  lemma OverwriteBurns(d: Desk, k: Key, row: Row)
    requires BurnsOk(d) && k in d.rows && SameTransfer(d.rows[k], row) && row.status != Settled
    ensures BurnsOk(Overwrite(d, k, row))
  {
    var y := Overwrite(d, k, row);
    forall j: Key
      ensures Accounted(y, j)
    {
      assert Accounted(d, j);
      AppendTimes(d.reopened, k, j);
    }
    forall i | 0 <= i < |y.burns|
      ensures BurnOk(y.burns[i], y.rows)
    {
      assert BurnOk(d.burns[i], d.rows);
    }
  }

  /** Settling: one more burn, of the row's amount. */
  lemma SettleBurns(d: Desk, k: Key)
    requires BurnsOk(d) && k in d.rows && d.rows[k].status != Settled && Payable(d.rows[k])
    ensures BurnsOk(Overwrite(d, k, d.rows[k].(status := Settled))
                    .(burns := d.burns + [Burn(k, d.rows[k].amount * UKES_PER_KES)]))
  {
    var b := Burn(k, d.rows[k].amount * UKES_PER_KES);
    var y := Overwrite(d, k, d.rows[k].(status := Settled)).(burns := d.burns + [b]);
    BurnKeysAppend(d.burns, b);
    forall j: Key
      ensures Accounted(y, j)
    {
      assert Accounted(d, j);
      AppendTimes(BurnKeys(d.burns), k, j);
    }
    forall i | 0 <= i < |y.burns|
      ensures BurnOk(y.burns[i], y.rows)
    {
      assert i < |d.burns| ==> BurnOk(d.burns[i], d.rows);
    }
  }

  // ------------------------------------------------------------------ the invariant

  ghost predicate Inv(d: Desk, c: Config) { RowsOk(d, c) && LoopOk(d, c) && BurnsOk(d) }

  lemma HandleRows(d: Desk, c: Config, ev: Event)
    requires RowsOk(d, c)
    ensures RowsOk(Handle(d, c, ev), c)
  {
    if ev.key !in d.rows {
      var y := Handle(d, c, ev);
      assert y.order[|d.order|] == ev.key;
      forall k | k in y.rows
        ensures exists i :: 0 <= i < |y.order| && y.order[i] == k
      {
        if k != ev.key {
          var i :| 0 <= i < |d.order| && d.order[i] == k;
          assert y.order[i] == k;
        }
      }
    }
  }

  lemma HandleAccounts(d: Desk, c: Config, ev: Event, k: Key)
    requires Accounted(d, k)
    ensures Accounted(Handle(d, c, ev), k)
  {}

  lemma HandleBurns(d: Desk, c: Config, ev: Event)
    requires BurnsOk(d)
    ensures BurnsOk(Handle(d, c, ev))
  {
    var y := Handle(d, c, ev);
    forall k: Key
      ensures Accounted(y, k)
    {
      assert Accounted(d, k);
      HandleAccounts(d, c, ev, k);
    }
    forall i | 0 <= i < |y.burns|
      ensures BurnOk(y.burns[i], y.rows)
    {
      assert BurnOk(d.burns[i], d.rows);
    }
  }

  lemma HandleLoop(d: Desk, c: Config, ev: Event)
    requires LoopOk(d, c) && d.flight == None && c.maxAttempts >= 1
    ensures LoopOk(Handle(d, c, ev), c)
  {
    var y := Handle(d, c, ev);
    forall i | 0 <= i < |y.queue|
      ensures WaitOk(y.queue[i], y.rows) && (ev.key !in d.rows ==> y.queue[i].key != ev.key)
    {
      assert WaitOk(d.queue[i], d.rows);
    }
  }

  /** Callbacks change status only, so the loop's knowledge of attempts stays right. */
  lemma CallbackLoop(d: Desk, c: Config, k: Key, row: Row, y: Desk)
    requires LoopOk(d, c) && k in d.rows && row.attempts == d.rows[k].attempts && Payable(row)
    requires y.rows == d.rows[k := row] && y.flight == d.flight && y.queue == d.queue
    ensures LoopOk(y, c)
  {
    forall i | 0 <= i < |y.queue|
      ensures WaitOk(y.queue[i], y.rows)
    {
      assert WaitOk(d.queue[i], d.rows);
    }
  }

  lemma {:induction false} FoundByConversation(d: Desk, c: Config, id: Option<string>, k: nat)
    requires RowsOk(d, c) && k <= |d.order| && ByConversation(d, id, k).Some?
    ensures ByConversation(d, id, k).value in d.rows && Payable(d.rows[ByConversation(d, id, k).value])
  {
    if ByConversation(d, id, k - 1).Some? {
      FoundByConversation(d, c, id, k - 1);
    } else {
      assert RowOk(d.rows[d.order[k - 1]], c);
    }
  }

  lemma {:induction false} FoundByOriginator(d: Desk, c: Config, id: Option<string>, k: nat)
    requires RowsOk(d, c) && k <= |d.order| && ByOriginator(d, id, k).Some?
    ensures ByOriginator(d, id, k).value in d.rows && Payable(d.rows[ByOriginator(d, id, k).value])
  {
    if ByOriginator(d, id, k - 1).Some? {
      FoundByOriginator(d, c, id, k - 1);
    } else {
      assert RowOk(d.rows[d.order[k - 1]], c);
    }
  }

  /** Callbacks never reach a row that was never sent. */
  lemma FoundIsPayable(d: Desk, c: Config, conversation: Option<string>, originator: Option<string>)
    requires RowsOk(d, c) && Find(d, conversation, originator).Some?
    ensures Find(d, conversation, originator).value in d.rows && Payable(d.rows[Find(d, conversation, originator).value])
  {
    if ByConversation(d, conversation, |d.order|).Some? {
      FoundByConversation(d, c, conversation, |d.order|);
    } else {
      FoundByOriginator(d, c, originator, |d.order|);
    }
  }

  lemma StatusKeeps(d: Desk, c: Config, k: Key, status: Status)
    requires Inv(d, c) && k in d.rows && Payable(d.rows[k]) && status != Settled && status != Ignored && status != Held
    ensures Inv(Overwrite(d, k, d.rows[k].(status := status)), c)
  {
    assert RowOk(d.rows[k], c);
    var row := d.rows[k].(status := status);
    OverwriteRows(d, c, k, row);
    OverwriteBurns(d, k, row);
    CallbackLoop(d, c, k, row, Overwrite(d, k, row));
  }

  lemma SettleKeeps(d: Desk, c: Config, k: Key)
    requires Inv(d, c) && k in d.rows && Payable(d.rows[k]) && d.rows[k].status != Settled
    ensures Inv(Overwrite(d, k, d.rows[k].(status := Settled))
                .(burns := d.burns + [Burn(k, d.rows[k].amount * UKES_PER_KES)]), c)
  {
    assert RowOk(d.rows[k], c);
    var row := d.rows[k].(status := Settled);
    OverwriteRows(d, c, k, row);
    SettleBurns(d, k);
    CallbackLoop(d, c, k, row, Overwrite(d, k, row));
  }

  lemma ResultKeeps(d: Desk, c: Config, conversation: Option<string>, originator: Option<string>, success: bool, burned: bool)
    requires Inv(d, c)
    ensures Inv(Settle(d, conversation, originator, success, burned), c)
  {
    var k := Find(d, conversation, originator);
    if k.Some? {
      FoundIsPayable(d, c, conversation, originator);
      if d.rows[k.value].status != Settled && !success {
        StatusKeeps(d, c, k.value, Failed);
      } else if d.rows[k.value].status != Settled && burned {
        SettleKeeps(d, c, k.value);
      }
    }
  }

  lemma TimeoutKeeps(d: Desk, c: Config, conversation: Option<string>, originator: Option<string>)
    requires Inv(d, c)
    ensures Inv(Expire(d, conversation, originator), c)
  {
    var k := Find(d, conversation, originator);
    if k.Some? {
      FoundIsPayable(d, c, conversation, originator);
      if d.rows[k.value].status != Settled {
        StatusKeeps(d, c, k.value, TimedOut);
      }
    }
  }

  lemma FinishLoop(d: Desk, c: Config, row: Row, y: Desk)
    requires LoopOk(d, c) && d.flight.Some? && y.rows == d.rows[d.flight.value.key := row] && y.queue == d.queue
    requires y.flight == None
    ensures LoopOk(y, c)
  {
    forall i | 0 <= i < |y.queue|
      ensures WaitOk(y.queue[i], y.rows)
    {
      assert WaitOk(d.queue[i], d.rows);
    }
  }

  lemma FinishBooks(d: Desk, c: Config, row: Row, y: Desk)
    requires RowsOk(d, c) && BurnsOk(d) && d.flight.Some? && FlightOk(d.flight.value, d.rows, c)
    requires SameTransfer(d.rows[d.flight.value.key], row) && row.attempts <= c.maxAttempts && row.status != Settled
    requires y == Overwrite(d, d.flight.value.key, row).(flight := None)
    ensures RowsOk(y, c) && BurnsOk(y)
  {
    var k := d.flight.value.key;
    OverwriteRows(d, c, k, row);
    OverwriteBurns(d, k, row);
    BurnsRest(Overwrite(d, k, row), y);
    RowsRest(Overwrite(d, k, row), y, c);
  }

  lemma FinishKeeps(d: Desk, c: Config, ack: Ack)
    requires Inv(d, c)
    ensures Inv(Finish(d, ack), c)
  {
    if d.flight.Some? {
      var f := d.flight.value;
      var row := Answer(d.rows[f.key], f.attempts, ack);
      FinishBooks(d, c, row, Finish(d, ack));
      FinishLoop(d, c, row, Finish(d, ack));
    }
  }

  /** The burn accounts only look at rows, burns and reopened. */
  lemma BurnsRest(x: Desk, y: Desk)
    requires BurnsOk(x) && y.rows == x.rows && y.burns == x.burns && y.reopened == x.reopened
    ensures BurnsOk(y)
  {
    forall j: Key
      ensures Accounted(y, j)
    {
      assert Accounted(x, j);
    }
  }

  lemma NextWaits(d: Desk, c: Config, row: Row)
    requires LoopOk(d, c) && d.queue != []
    ensures forall i :: 0 <= i < |d.queue| - 1 ==> WaitOk(d.queue[1..][i], d.rows[d.queue[0].key := row])
  {
    forall i | 0 <= i < |d.queue| - 1
      ensures WaitOk(d.queue[1..][i], d.rows[d.queue[0].key := row])
    {
      assert WaitOk(d.queue[i + 1], d.rows) && d.queue[i + 1].key != d.queue[0].key;
    }
  }

  lemma ExhaustLoop(d: Desk, c: Config, y: Desk, row: Row)
    requires LoopOk(d, c) && d.flight == None && d.queue != []
    requires y.rows == d.rows[d.queue[0].key := row] && y.queue == d.queue[1..] && y.flight == None
    ensures LoopOk(y, c)
  {
    NextWaits(d, c, row);
  }

  lemma ExhaustBooks(d: Desk, c: Config, y: Desk, row: Row)
    requires RowsOk(d, c) && BurnsOk(d) && d.queue != [] && WaitOk(d.queue[0], d.rows)
    requires row == d.rows[d.queue[0].key].(status := Exhausted)
    requires y == Overwrite(d, d.queue[0].key, row).(queue := d.queue[1..])
    ensures RowsOk(y, c) && BurnsOk(y)
  {
    var k := d.queue[0].key;
    assert RowOk(d.rows[k], c);
    OverwriteRows(d, c, k, row);
    OverwriteBurns(d, k, row);
    BurnsRest(Overwrite(d, k, row), y);
    RowsRest(Overwrite(d, k, row), y, c);
  }

  lemma ExhaustKeeps(d: Desk, c: Config)
    requires Inv(d, c) && d.flight == None && d.queue != [] && d.queue[0].attempts >= c.maxAttempts
    ensures Inv(Retry(d, c), c)
  {
    assert WaitOk(d.queue[0], d.rows);
    var row := d.rows[d.queue[0].key].(status := Exhausted);
    ExhaustBooks(d, c, Retry(d, c), row);
    ExhaustLoop(d, c, Retry(d, c), row);
  }

  lemma RowsRest(x: Desk, y: Desk, c: Config)
    requires RowsOk(x, c) && y.rows == x.rows && y.order == x.order
    ensures RowsOk(y, c)
  {}

  lemma RefireKeeps(d: Desk, c: Config)
    requires Inv(d, c) && d.flight == None && d.queue != [] && d.queue[0].attempts < c.maxAttempts
    ensures Inv(Retry(d, c), c)
  {
    var s, y := d.queue[0], Retry(d, c);
    assert WaitOk(s, d.rows);
    forall i | 0 <= i < |y.queue|
      ensures WaitOk(y.queue[i], y.rows) && y.queue[i].key != s.key
    {
      assert WaitOk(d.queue[i + 1], d.rows);
    }
    BurnsRest(d, y);
  }

  ghost predicate RetriesOk(d: Desk, k: nat)
    requires k <= |d.order|
  {
    var q := Retries(d, k);
    && (forall i :: 0 <= i < |q| ==> WaitOk(q[i], d.rows) && Retryable(d.rows[q[i].key].status))
    && (forall i :: 0 <= i < |q| ==> exists j :: 0 <= j < k && d.order[j] == q[i].key)
    && (forall i, j :: 0 <= i < j < |q| ==> q[i].key != q[j].key)
  }

  /** What is listed for a retry failed or timed out, and is listed once, with the attempts made for it. */
  lemma {:induction false} RetriesDistinct(d: Desk, c: Config, k: nat)
    requires RowsOk(d, c) && k <= |d.order|
    ensures RetriesOk(d, k)
  {
    if k > 0 {
      RetriesDistinct(d, c, k - 1);
      var p, q, key := Retries(d, k - 1), Retries(d, k), d.order[k - 1];
      forall i | 0 <= i < |q|
        ensures exists j :: 0 <= j < k && d.order[j] == q[i].key
      {
        if i < |p| {
          assert q[i] == p[i];
          var j :| 0 <= j < k - 1 && d.order[j] == p[i].key;
          assert d.order[j] == q[i].key;
        } else {
          assert d.order[k - 1] == q[i].key;
        }
      }
    }
  }

  lemma LoopKeeps(d: Desk, c: Config, logs: Logs, op: Op)
    requires Inv(d, c) && (op.Poll? || op.PollDone? || op.Abort?)
    ensures Inv(Step(d, c, logs, op), c)
  {
    RetriesDistinct(d, c, |d.order|);
    BurnsRest(d, Step(d, c, logs, op));
  }

  lemma TransferKeeps(d: Desk, c: Config, ev: Event, todo: seq<Event>)
    requires Inv(d, c) && d.flight == None && c.maxAttempts >= 1
    ensures Inv(Handle(d, c, ev), c) && Inv(Handle(d, c, ev).(todo := todo), c)
  {
    HandleRows(d, c, ev);
    HandleBurns(d, c, ev);
    HandleLoop(d, c, ev);
    BurnsRest(Handle(d, c, ev), Handle(d, c, ev).(todo := todo));
  }

  lemma StepKeeps(d: Desk, c: Config, logs: Logs, op: Op)
    requires Inv(d, c) && c.maxAttempts >= 1
    ensures Inv(Step(d, c, logs, op), c)
  {
    match op {
      case Transfer(ev) => if Idle(d) { TransferKeeps(d, c, ev, d.todo); }
      case NextTransfer =>
        if d.flight == None && d.todo != [] {
          TransferKeeps(d, c, d.todo[0], d.todo[1..]);
        }
      case FinishSend(ack) => FinishKeeps(d, c, ack);
      case Result(conversation, originator, success, burned) => ResultKeeps(d, c, conversation, originator, success, burned);
      case Timeout(conversation, originator) => TimeoutKeeps(d, c, conversation, originator);
      case RetryNext =>
        if d.flight == None && d.queue != [] {
          if d.queue[0].attempts >= c.maxAttempts { ExhaustKeeps(d, c); } else { RefireKeeps(d, c); }
        }
      case _ => LoopKeeps(d, c, logs, op);
    }
  }

  lemma {:induction false} RunKeeps(c: Config, logs: Logs, ops: seq<Op>)
    requires c.maxAttempts >= 1
    ensures Inv(Run(NEW, c, logs, ops), c)
    decreases |ops|
  {
    if ops != [] {
      RunKeeps(c, logs, ops[..|ops| - 1]);
      StepKeeps(Run(NEW, c, logs, ops[..|ops| - 1]), c, logs, ops[|ops| - 1]);
    }
  }
}
