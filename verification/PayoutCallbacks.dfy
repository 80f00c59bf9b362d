/** Which row a callback reaches: the ids of Daraja's answers, from the send that records them to the burn they release. */
module PayoutCallbacks {
  import opened Options
  import opened PayoutRules
  import opened PayoutTheorems
  import opened PayoutHistory

  // ------------------------------------------------------------------ the search

  predicate HasConversation(d: Desk, i: nat, id: Option<string>)
    requires i < |d.order|
  {
    Present(id) && d.order[i] in d.rows && d.rows[d.order[i]].conversation == id
  }

  predicate HasOriginator(d: Desk, i: nat, id: Option<string>)
    requires i < |d.order|
  {
    Present(id) && d.order[i] in d.rows && d.rows[d.order[i]].originator == id
  }

  ghost predicate FirstConversation(d: Desk, i: nat, id: Option<string>)
    requires i < |d.order|
  {
    HasConversation(d, i, id) && forall j :: 0 <= j < i ==> !HasConversation(d, j, id)
  }

  ghost predicate FirstOriginator(d: Desk, i: nat, id: Option<string>)
    requires i < |d.order|
  {
    HasOriginator(d, i, id) && forall j :: 0 <= j < i ==> !HasOriginator(d, j, id)
  }

  /** The first row in ledger order with the conversation id; only if there is none, the first with the originator id. */
  ghost predicate Reaches(d: Desk, conversation: Option<string>, originator: Option<string>, k: Option<Key>) {
    if exists i :: 0 <= i < |d.order| && HasConversation(d, i, conversation) then
      exists i :: 0 <= i < |d.order| && FirstConversation(d, i, conversation) && k == Some(d.order[i])
    else if exists i :: 0 <= i < |d.order| && HasOriginator(d, i, originator) then
      exists i :: 0 <= i < |d.order| && FirstOriginator(d, i, originator) && k == Some(d.order[i])
    else
      k == None
  }

  lemma {:induction false} ConversationSearch(d: Desk, id: Option<string>, n: nat)
    requires n <= |d.order|
    ensures var k := ByConversation(d, id, n);
            if exists i :: 0 <= i < n && HasConversation(d, i, id)
            then exists i :: 0 <= i < n && FirstConversation(d, i, id) && k == Some(d.order[i])
            else k == None
  {
    if n > 0 {
      ConversationSearch(d, id, n - 1);
      if ByConversation(d, id, n - 1) == None {
        assert HasConversation(d, n - 1, id) ==> FirstConversation(d, n - 1, id);
      }
    }
  }

  lemma {:induction false} OriginatorSearch(d: Desk, id: Option<string>, n: nat)
    requires n <= |d.order|
    ensures var k := ByOriginator(d, id, n);
            if exists i :: 0 <= i < n && HasOriginator(d, i, id)
            then exists i :: 0 <= i < n && FirstOriginator(d, i, id) && k == Some(d.order[i])
            else k == None
  {
    if n > 0 {
      OriginatorSearch(d, id, n - 1);
      if ByOriginator(d, id, n - 1) == None {
        assert HasOriginator(d, n - 1, id) ==> FirstOriginator(d, n - 1, id);
      }
    }
  }

  /** The search returns the row a callback is meant for, and nothing else satisfies that description. */
  lemma FindReaches(d: Desk, conversation: Option<string>, originator: Option<string>, k: Option<Key>)
    ensures Reaches(d, conversation, originator, k) <==> k == Find(d, conversation, originator)
  {
    ConversationSearch(d, conversation, |d.order|);
    OriginatorSearch(d, originator, |d.order|);
    if exists i :: 0 <= i < |d.order| && HasConversation(d, i, conversation) {
      var i :| 0 <= i < |d.order| && FirstConversation(d, i, conversation) && Find(d, conversation, originator) == Some(d.order[i]);
      assert forall j :: 0 <= j < |d.order| && FirstConversation(d, j, conversation) ==> !(j < i) && !(i < j);
    } else if exists i :: 0 <= i < |d.order| && HasOriginator(d, i, originator) {
      var i :| 0 <= i < |d.order| && FirstOriginator(d, i, originator) && Find(d, conversation, originator) == Some(d.order[i]);
      assert forall j :: 0 <= j < |d.order| && FirstOriginator(d, j, originator) ==> !(j < i) && !(i < j);
    }
  }

  /** The row bears one of the callback's ids. */
  predicate Bears(row: Row, conversation: Option<string>, originator: Option<string>) {
    (Present(conversation) && row.conversation == conversation) || (Present(originator) && row.originator == originator)
  }

  lemma ReachedBears(d: Desk, conversation: Option<string>, originator: Option<string>, k: Key)
    requires Reaches(d, conversation, originator, Some(k))
    ensures k in d.rows && Bears(d.rows[k], conversation, originator)
  {}

  lemma NoneReached(d: Desk, conversation: Option<string>, originator: Option<string>, k: Key)
    requires Reaches(d, conversation, originator, None) && k in d.order && k in d.rows
    ensures !Bears(d.rows[k], conversation, originator)
  {
    var i :| 0 <= i < |d.order| && d.order[i] == k;
    assert !HasConversation(d, i, conversation) && !HasOriginator(d, i, originator);
  }

  // ------------------------------------------------------------------ what a step does to one row

  ghost predicate Hits(d: Desk, op: Op, k: Key) {
    (op.Result? || op.Timeout?) && Reaches(d, op.conversation, op.originator, Some(k))
  }

  /**
   What an operation makes of a row. An answer reaches the row in the air, exhaustion the row at the head of the retries, a
   callback the row that bears its ids, unless that is settled.
   */
  ghost function RowAfter(d: Desk, c: Config, op: Op, k: Key): Row
    requires k in d.rows
  {
    var row := d.rows[k];
    if op.FinishSend? && Flying(d, k) then
      if op.ack.SendFailed? then row.(status := Failed, attempts := row.attempts + 1)
      else row.(status := Sent, attempts := row.attempts + 1, conversation := op.ack.conversation, originator := op.ack.originator)
    else if op.RetryNext? && d.flight == None && d.queue != [] && d.queue[0].key == k && row.attempts >= c.maxAttempts then
      row.(status := Exhausted)
    else if Hits(d, op, k) && row.status != Settled then
      if op.Timeout? then row.(status := TimedOut)
      else if !op.success then row.(status := Failed)
      else if op.burned then row.(status := Settled)
      else row
    else row
  }

  lemma CallbackWrites(d: Desk, c: Config, logs: Logs, op: Op, k: Key)
    requires k in d.rows && (op.Result? || op.Timeout?)
    ensures k in Step(d, c, logs, op).rows && Step(d, c, logs, op).rows[k] == RowAfter(d, c, op, k)
  {
    FindReaches(d, op.conversation, op.originator, Some(k));
  }

  lemma LoopWritesRow(d: Desk, c: Config, logs: Logs, op: Op, k: Key)
    requires k in d.rows && (op.FinishSend? || op.RetryNext?) && LoopOk(d, c)
    ensures k in Step(d, c, logs, op).rows && Step(d, c, logs, op).rows[k] == RowAfter(d, c, op, k)
  {
    assert d.queue != [] ==> WaitOk(d.queue[0], d.rows);
  }

  /** An operation changes the rows it is for as it should, and no other. */
  lemma StepWritesItsRow(d: Desk, c: Config, logs: Logs, op: Op, k: Key)
    requires Inv(d, c) && k in d.rows
    ensures k in Step(d, c, logs, op).rows && Step(d, c, logs, op).rows[k] == RowAfter(d, c, op, k)
  {
    if op.Result? || op.Timeout? {
      CallbackWrites(d, c, logs, op, k);
    } else if op.FinishSend? || op.RetryNext? {
      LoopWritesRow(d, c, logs, op, k);
    }
  }

  /** A callback changes no row that bears neither of its ids. */
  lemma CallbackSparesOthers(d: Desk, c: Config, logs: Logs, op: Op, k: Key)
    requires Inv(d, c) && k in d.rows && (op.Result? || op.Timeout?) && !Bears(d.rows[k], op.conversation, op.originator)
    ensures Step(d, c, logs, op).rows[k] == d.rows[k]
  {
    StepWritesItsRow(d, c, logs, op, k);
    if Reaches(d, op.conversation, op.originator, Some(k)) {
      ReachedBears(d, op.conversation, op.originator, k);
    }
  }

  // ------------------------------------------------------------------ burns

  /** A success result that reaches row k while it is not settled, and whose burn goes through. */
  ghost predicate Releases(d: Desk, op: Op, k: Key) {
    op.Result? && op.success && op.burned && Hits(d, op, k) && k in d.rows && d.rows[k].status != Settled
  }

  lemma BurnsGrow(d: Desk, key: Key, amount: nat, k: Key)
    ensures Times(BurnKeys(d.burns + [Burn(key, amount)]), k) == Times(BurnKeys(d.burns), k) + if key == k then 1 else 0
  {
    BurnKeysAppend(d.burns, Burn(key, amount));
    AppendTimes(BurnKeys(d.burns), key, k);
  }

  /** The burn list grows by one entry, the reached row's whole KES, or stays. */
  lemma ResultBurns(d: Desk, conversation: Option<string>, originator: Option<string>, success: bool, burned: bool, k: Option<Key>)
    requires k == Find(d, conversation, originator)
    ensures Settle(d, conversation, originator, success, burned).burns
            == if k.Some? && k.value in d.rows && d.rows[k.value].status != Settled && success && burned
               then d.burns + [Burn(k.value, d.rows[k.value].amount * UKES_PER_KES)] else d.burns
  {}

  lemma OthersBurnNothing(d: Desk, c: Config, logs: Logs, op: Op)
    requires !op.Result?
    ensures Step(d, c, logs, op).burns == d.burns
  {}

  lemma StepBurns(d: Desk, c: Config, logs: Logs, op: Op, k: Key)
    ensures Times(BurnKeys(Step(d, c, logs, op).burns), k) == Times(BurnKeys(d.burns), k) + if Releases(d, op, k) then 1 else 0
  {
    if op.Result? {
      var found := Find(d, op.conversation, op.originator);
      FindReaches(d, op.conversation, op.originator, Some(k));
      ResultBurns(d, op.conversation, op.originator, op.success, op.burned, found);
      if found.Some? && found.value in d.rows {
        BurnsGrow(d, found.value, d.rows[found.value].amount * UKES_PER_KES, k);
      }
    } else {
      OthersBurnNothing(d, c, logs, op);
    }
  }

  ghost function ReleasesOf(c: Config, logs: Logs, ops: seq<Op>, k: Key): nat
    decreases |ops|
  {
    if ops == [] then 0
    else
      var front := ops[..|ops| - 1];
      ReleasesOf(c, logs, front, k) + if Releases(Run(NEW, c, logs, front), ops[|ops| - 1], k) then 1 else 0
  }

  /** Over any run a row burns once for every success result that reached it by its own ids while it was not settled. */
  lemma {:induction false} BurnsAreReleased(c: Config, logs: Logs, ops: seq<Op>, k: Key)
    ensures Times(BurnKeys(Run(NEW, c, logs, ops).burns), k) == ReleasesOf(c, logs, ops, k)
    decreases |ops|
  {
    if ops != [] {
      var front := ops[..|ops| - 1];
      BurnsAreReleased(c, logs, front, k);
      StepBurns(Run(NEW, c, logs, front), c, logs, ops[|ops| - 1], k);
    }
  }

  /** A success result that bears one of row k's ids. */
  ghost predicate Pays(d: Desk, op: Op, k: Key) {
    op.Result? && op.success && k in d.rows && Bears(d.rows[k], op.conversation, op.originator)
  }

  ghost predicate PaysAt(c: Config, logs: Logs, ops: seq<Op>, i: nat, k: Key)
    requires i < |ops|
  {
    Pays(Run(NEW, c, logs, ops[..i]), ops[i], k)
  }

  lemma NewBurnPays(d: Desk, c: Config, logs: Logs, op: Op, k: Key)
    ensures Times(BurnKeys(Step(d, c, logs, op).burns), k) > 0 ==> Times(BurnKeys(d.burns), k) > 0 || Pays(d, op, k)
  {
    StepBurns(d, c, logs, op, k);
    if Releases(d, op, k) {
      ReachedBears(d, op.conversation, op.originator, k);
    }
  }

  lemma EarlierPays(c: Config, logs: Logs, ops: seq<Op>, n: nat, i: nat, k: Key)
    requires i < n <= |ops| && PaysAt(c, logs, ops[..n], i, k)
    ensures PaysAt(c, logs, ops, i, k)
  {
    assert ops[..n][..i] == ops[..i];
  }

  /** A row that has burned did so on a success result that bore one of the row's own ids. */
  lemma {:induction false} BurnNamedItsRow(c: Config, logs: Logs, ops: seq<Op>, k: Key) returns (i: nat)
    requires Times(BurnKeys(Run(NEW, c, logs, ops).burns), k) > 0
    ensures i < |ops| && PaysAt(c, logs, ops, i, k)
    decreases |ops|
  {
    var n := |ops| - 1;
    var d := Run(NEW, c, logs, ops[..n]);
    NewBurnPays(d, c, logs, ops[n], k);
    if Pays(d, ops[n], k) {
      return n;
    }
    i := BurnNamedItsRow(c, logs, ops[..n], k);
    EarlierPays(c, logs, ops, n, i, k);
  }

  // ------------------------------------------------------------------ from a send to its burn

  predicate Unused(d: Desk, id: Option<string>) {
    forall k :: k in d.rows ==> d.rows[k].conversation != id
  }

  /** Whatever else is in the ledger, a new conversation id finds the row whose send it answered. */
  lemma AnswerIsFound(d: Desk, c: Config, conversation: Option<string>, originator: Option<string>, other: Option<string>)
    requires RowsOk(d, c) && d.flight.Some? && FlightOk(d.flight.value, d.rows, c) && Present(conversation) && Unused(d, conversation)
    ensures Find(Finish(d, Acknowledged(conversation, originator)), conversation, other) == Some(d.flight.value.key)
  {
    var y, k := Finish(d, Acknowledged(conversation, originator)), d.flight.value.key;
    SentRow(d, conversation, originator);
    OnlyHolder(d, c, k, y, conversation, other);
  }

  lemma OnlyHolder(d: Desk, c: Config, k: Key, y: Desk, conversation: Option<string>, other: Option<string>)
    requires RowsOk(d, c) && k in d.rows && Present(conversation) && Unused(d, conversation)
    requires y.order == d.order && k in y.rows && y.rows == d.rows[k := y.rows[k]] && y.rows[k].conversation == conversation
    ensures Find(y, conversation, other) == Some(k)
  {
    var i :| 0 <= i < |d.order| && d.order[i] == k;
    assert HasConversation(y, i, conversation);
    assert forall j :: 0 <= j < i ==> d.order[j] != k && !HasConversation(y, j, conversation);
    assert FirstConversation(y, i, conversation);
    FindReaches(y, conversation, other, Some(k));
  }

  lemma SentRow(d: Desk, conversation: Option<string>, originator: Option<string>)
    requires d.flight.Some? && d.flight.value.key in d.rows && d.flight.value.attempts == d.rows[d.flight.value.key].attempts + 1
    ensures var k, y := d.flight.value.key, Finish(d, Acknowledged(conversation, originator));
            && y.order == d.order && y.rows == d.rows[k := d.rows[k].(status := Sent, attempts := d.rows[k].attempts + 1,
                                                conversation := conversation, originator := originator)]
            && y.burns == d.burns
  {}

  lemma ReachedSettles(d: Desk, k: Key, conversation: Option<string>, originator: Option<string>)
    requires Find(d, conversation, originator) == Some(k) && k in d.rows && d.rows[k].status != Settled
    ensures var y := Settle(d, conversation, originator, true, true);
            && y.rows == d.rows[k := d.rows[k].(status := Settled)]
            && y.burns == d.burns + [Burn(k, d.rows[k].amount * UKES_PER_KES)]
  {}

  /** Sent, acknowledged under a new id, and reported paid under it: that row is settled and its whole KES are burned. */
  lemma PaidIsBurned(d: Desk, c: Config, logs: Logs, conversation: Option<string>, originator: Option<string>, other: Option<string>)
    requires Inv(d, c) && d.flight.Some? && Present(conversation) && Unused(d, conversation)
    ensures var k := d.flight.value.key;
            var y := Step(Step(d, c, logs, FinishSend(Acknowledged(conversation, originator))), c, logs,
                          Result(conversation, other, true, true));
            && y.rows == d.rows[k := d.rows[k].(status := Settled, attempts := d.rows[k].attempts + 1,
                                                conversation := conversation, originator := originator)]
            && y.burns == d.burns + [Burn(k, d.rows[k].amount * UKES_PER_KES)]
  {
    var k, sent := d.flight.value.key, Finish(d, Acknowledged(conversation, originator));
    AnswerIsFound(d, c, conversation, originator, other);
    SentRow(d, conversation, originator);
    ReachedSettles(sent, k, conversation, other);
  }

  // ------------------------------------------------------------------ the retry list and the scanned blocks

  ghost predicate Lists(q: seq<Snapshot>, k: Key) { exists i :: 0 <= i < |q| && q[i].key == k }

  /** Every failed or timed-out row of the first n is listed. */
  lemma {:induction false} RetriesComplete(d: Desk, n: nat, j: nat)
    requires j < n <= |d.order| && d.order[j] in d.rows && Retryable(d.rows[d.order[j]].status)
    ensures Lists(Retries(d, n), d.order[j])
  {
    var q, p := Retries(d, n), Retries(d, n - 1);
    if j == n - 1 {
      assert q[|p|].key == d.order[j];
    } else {
      RetriesComplete(d, n - 1, j);
      var i :| 0 <= i < |p| && p[i].key == d.order[j];
      assert q[i] == p[i];
    }
  }

  lemma {:induction false} RetriesFrom(d: Desk, n: nat, i: nat) returns (a: nat)
    requires n <= |d.order| && i < |Retries(d, n)|
    ensures a < n && d.order[a] == Retries(d, n)[i].key
  {
    var p := Retries(d, n - 1);
    if i < |p| {
      a := RetriesFrom(d, n - 1, i);
    } else {
      a := n - 1;
    }
  }

  /** The list is in ledger order. */
  lemma {:induction false} RetriesInOrder(d: Desk, n: nat, i: nat, j: nat) returns (a: nat, b: nat)
    requires n <= |d.order| && i < j < |Retries(d, n)|
    ensures a < b < n && d.order[a] == Retries(d, n)[i].key && d.order[b] == Retries(d, n)[j].key
  {
    var p := Retries(d, n - 1);
    if j < |p| {
      a, b := RetriesInOrder(d, n - 1, i, j);
    } else {
      assert Retries(d, n)[i] == p[i];
      a := RetriesFrom(d, n - 1, i);
      b := n - 1;
    }
  }

  /** A completed poll queues exactly the failed and timed-out rows. */
  lemma QueueIsComplete(d: Desk, c: Config, k: Key)
    requires Inv(d, c) && d.scanning.Some?
    ensures Lists(EndScan(d).queue, k) <==> k in d.rows && Retryable(d.rows[k].status)
  {
    RetriesDistinct(d, c, |d.order|);
    if k in d.rows && Retryable(d.rows[k].status) {
      var j :| 0 <= j < |d.order| && d.order[j] == k;
      RetriesComplete(d, |d.order|, j);
    }
  }

  /**
   A poll scans if the head is past the cursor: on from the cursor, or the last span blocks when there is none, as far as
   the head or span blocks on, whichever comes first.
   */
  lemma PollWindow(d: Desk, logs: Logs, head: int, span: nat)
    requires d.scanning == None
    ensures var y := BeginPoll(d, logs, head, span);
            && (y.scanning.Some? <==> head >= 0 && (d.cursor.Some? ==> d.cursor.value < head))
            && (y.scanning == None ==> y == d)
            && (y.scanning.Some? ==>
                  var w := y.scanning.value;
                  && w.start <= w.end <= head && w.end - w.start <= span && (w.end == head || w.end - w.start == span)
                  && (d.cursor.Some? ==> w.start == d.cursor.value + 1)
                  && (d.cursor == None ==> w.end == head && (w.start == 0 || head - w.start == span)))
  {}
}
