/** The worker as it runs: handlers that update the ledger in place, each proved to be one step of PayoutRules. */
module PayoutWorkers {
  import opened Options
  import opened PayoutRules
  import opened PayoutCallbacks

  class PayoutWorker {
    const config: Config
    var rows: map<Key, Row>
    var order: seq<Key>
    var flight: Option<Flight>
    var todo: seq<Event>
    var scanning: Option<Window>
    var queue: seq<Snapshot>
    var cursor: Option<nat>
    var burns: seq<Burn>
    ghost var reopened: seq<Key>

    ghost function Now(): Desk
      reads this
    {
      Desk(rows, order, flight, todo, scanning, queue, cursor, burns, reopened)
    }

    constructor (c: Config)
      ensures config == c && Now() == NEW
    {
      config := c;
      rows, order, flight, todo, scanning, queue, cursor, burns := map[], [], None, [], None, [], None, [];
      reopened := [];
    }

    /** ledger.update: the row is replaced whatever its status is by now. */
    method Update(k: Key, row: Row)
      requires k in rows
      modifies this`rows, this`reopened
      ensures Now() == Overwrite(old(Now()), k, row)
    {
      if rows[k].status == Settled && row.status != Settled {
        reopened := reopened + [k];
      }
      rows := rows[k := row];
    }

    /** handle_transfer, and _fire_b2c up to its await. */
    method HandleTransfer(ev: Event)
      modifies this`rows, this`order, this`flight
      ensures Now() == Handle(old(Now()), config, ev)
    {
      if ev.key in rows {
        return;
      }
      var amount, dust := ev.value / UKES_PER_KES, ev.value % UKES_PER_KES;
      var row := Row(ev.from, ev.value, amount, dust, Ignored, 0, None, None);
      order := order + [ev.key];
      flight := None;
      if ev.to != config.bridge || ev.from != config.beneficiary {
        rows := rows[ev.key := row];
        return;
      }
      if amount < config.minKes {
        row := row.(status := Held);
        rows := rows[ev.key := row];
        return;
      }
      row := row.(status := Pending);
      rows := rows[ev.key := row];
      flight := Some(Flight(ev.key, row.attempts + 1));
    }

    /** _fire_b2c after its await. */
    method FinishSend(ack: Ack)
      requires flight.Some? ==> flight.value.key in rows
      modifies this`rows, this`flight, this`reopened
      ensures Now() == Finish(old(Now()), ack)
    {
      if flight.None? {
        return;
      }
      var key, attempts := flight.value.key, flight.value.attempts;
      var row := rows[key];
      match ack {
        case SendFailed =>
          row := row.(status := Failed);
          row := row.(attempts := attempts);
        case Acknowledged(conversation, originator) =>
          row := row.(status := Sent);
          row := row.(attempts := attempts);
          row := row.(conversation := conversation);
          row := row.(originator := originator);
      }
      Update(key, row);
      flight := None;
    }

    /** by_conversation: the first row with the conversation id, or else the first with the originator id. */
    method Lookup(conversation: Option<string>, originator: Option<string>) returns (k: Option<Key>)
      ensures k == Find(Now(), conversation, originator) && Reaches(Now(), conversation, originator, k)
    {
      FindReaches(Now(), conversation, originator, Find(Now(), conversation, originator));
      k := None;
      for i := 0 to |order|
        invariant k == ByConversation(Now(), conversation, i)
      {
        if k.None? && order[i] in rows && Present(conversation) && rows[order[i]].conversation == conversation {
          k := Some(order[i]);
        }
      }
      if k.Some? {
        return;
      }
      for i := 0 to |order|
        invariant k == ByOriginator(Now(), originator, i)
      {
        if k.None? && order[i] in rows && Present(originator) && rows[order[i]].originator == originator {
          k := Some(order[i]);
        }
      }
    }

    /** handle_b2c_result: burn only on a success code, and only if the row is not settled yet. */
    method HandleResult(conversation: Option<string>, originator: Option<string>, success: bool, burned: bool)
      modifies this`rows, this`burns, this`reopened
      ensures Now() == Settle(old(Now()), conversation, originator, success, burned)
    {
      var found := Lookup(conversation, originator);
      if found.None? || found.value !in rows {
        return;
      }
      var key := found.value;
      if rows[key].status == Settled {
        return;
      }
      if !success {
        Update(key, rows[key].(status := Failed));
        return;
      }
      if !burned {
        return;
      }
      burns := burns + [Burn(key, rows[key].amount * UKES_PER_KES)];
      Update(key, rows[key].(status := Settled));
    }

    method HandleTimeout(conversation: Option<string>, originator: Option<string>)
      modifies this`rows, this`reopened
      ensures Now() == Expire(old(Now()), conversation, originator)
    {
      var found := Lookup(conversation, originator);
      if found.None? || found.value !in rows || rows[found.value].status == Settled {
        return;
      }
      Update(found.value, rows[found.value].(status := TimedOut));
    }

    /** The list retry_failed works through, read once. */
    method ListRetries() returns (out: seq<Snapshot>)
      ensures out == Retries(Now(), |order|)
    {
      out := [];
      for i := 0 to |order|
        invariant out == Retries(Now(), i)
      {
        if order[i] in rows && Retryable(rows[order[i]].status) {
          out := out + [Snapshot(order[i], rows[order[i]].attempts)];
        }
      }
    }

    /** One turn of retry_failed: give up, or send again up to the await. */
    method RetryNext()
      requires queue != [] ==> queue[0].key in rows
      modifies this`rows, this`flight, this`queue, this`reopened
      ensures Now() == Retry(old(Now()), config)
    {
      if queue == [] {
        return;
      }
      var s := queue[0];
      queue := queue[1..];
      if s.attempts >= config.maxAttempts {
        Update(s.key, rows[s.key].(status := Exhausted));
        return;
      }
      flight := Some(Flight(s.key, rows[s.key].attempts + 1));
    }

    /** poll_once up to its first await: choose the window and fetch its logs. */
    method StartPoll(logs: Logs, head: int, span: nat)
      modifies this`todo, this`scanning
      ensures Now() == BeginPoll(old(Now()), logs, head, span)
    {
      var start := if cursor.Some? then cursor.value + 1 else if head >= span then head - span else 0;
      if head < start {
        return;
      }
      var end := if head <= start + span then head else start + span;
      var events := [];
      for b := start to end + 1
        invariant events + Scan(logs, b, end) == Scan(logs, start, end)
      {
        events := events + logs(b);
      }
      assert Scan(logs, end + 1, end) == [];
      todo := events;
      scanning := Some(Window(start, end));
    }

    /** The rest of poll_once once its transfers are handled: move the cursor, then start the retries. */
    method EndPoll()
      requires scanning.Some? && flight == None && todo == []
      modifies this`cursor, this`scanning, this`queue
      ensures Now() == EndScan(old(Now()))
    {
      ghost var d := Now();
      cursor := Some(scanning.value.end);
      scanning := None;
      var retries := ListRetries();
      SameOrderSameRetries(d, Now(), |order|);
      queue := retries;
    }
  }

  lemma {:induction false} SameOrderSameRetries(d: Desk, y: Desk, k: nat)
    requires y.rows == d.rows && y.order == d.order && k <= |d.order|
    ensures Retries(y, k) == Retries(d, k)
  {
    if k > 0 {
      SameOrderSameRetries(d, y, k - 1);
    }
  }
}
