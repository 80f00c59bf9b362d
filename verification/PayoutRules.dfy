/**
 The payout worker of gateway-api/app/payout/worker.py between its await points: one polling loop with at most one B2C
 request in the air, Daraja callbacks at any moment, and aborts. Sends, burns and results are inputs.
 */
module PayoutRules {
  import opened Options

  const UKES_PER_KES := 1_000_000

  datatype Key = Key(tx: string, index: nat)

  datatype Event = Event(key: Key, from: string, to: string, value: nat)

  datatype Status = Ignored | Held | Pending | Sent | Failed | TimedOut | Settled | Exhausted

  datatype Row = Row(sender: string, value: nat, amount: nat, dust: nat, status: Status, attempts: nat,
                     conversation: Option<string>, originator: Option<string>)

  datatype Config = Config(beneficiary: string, bridge: string, minKes: nat, maxAttempts: nat)

  /** A B2C request that has been sent and not answered; attempts is what _fire_b2c will write. */
  datatype Flight = Flight(key: Key, attempts: nat)

  /** A row as retry_failed read it. */
  datatype Snapshot = Snapshot(key: Key, attempts: nat)

  /** Blocks start to end, the local variables of poll_once. */
  datatype Window = Window(start: nat, end: nat)

  datatype Burn = Burn(key: Key, amount: nat)

  /**
   The ledger (rows in insertion order), the loop's position (events still to handle, the blocks being scanned,
   rows still to retry), the burns sent to the chain, and the settled rows that were overwritten since.
   */
  datatype Desk = Desk(rows: map<Key, Row>, order: seq<Key>, flight: Option<Flight>, todo: seq<Event>, scanning: Option<Window>,
                       queue: seq<Snapshot>, cursor: Option<nat>, burns: seq<Burn>, reopened: seq<Key>)

  datatype Ack = Acknowledged(conversation: Option<string>, originator: Option<string>) | SendFailed

  datatype Op =
    | Transfer(ev: Event)
    | Poll(head: int, span: nat)
    | NextTransfer
    | PollDone
    | RetryNext
    | FinishSend(ack: Ack)
    | Result(conversation: Option<string>, originator: Option<string>, success: bool, burned: bool)
    | Timeout(conversation: Option<string>, originator: Option<string>)
    | Abort

  /** What the chain's Transfer logs into the bridge are, block by block. */
  type Logs = nat -> seq<Event>

  predicate Idle(d: Desk) { d.flight == None && d.todo == [] && d.scanning == None && d.queue == [] }

  // ------------------------------------------------------------------ rows

  function NewRow(c: Config, ev: Event): Row {
    var amount := ev.value / UKES_PER_KES;
    Row(ev.from, ev.value, amount, ev.value % UKES_PER_KES,
        if ev.to != c.bridge || ev.from != c.beneficiary then Ignored else if amount < c.minKes then Held else Pending,
        0, None, None)
  }

  /** handle_transfer up to its await. */
  function Handle(d: Desk, c: Config, ev: Event): Desk {
    if ev.key in d.rows then d
    else
      var row := NewRow(c, ev);
      d.(rows := d.rows[ev.key := row], order := d.order + [ev.key],
         flight := if row.status == Pending then Some(Flight(ev.key, 1)) else None)
  }

  /** Overwrite a row; a settled one that does not stay settled is noted. */
  function Overwrite(d: Desk, k: Key, row: Row): Desk
    requires k in d.rows
  {
    d.(rows := d.rows[k := row],
       reopened := if d.rows[k].status == Settled && row.status != Settled then d.reopened + [k] else d.reopened)
  }

  /** _fire_b2c after its await: whatever the row has become meanwhile, it is overwritten. */
  function Answer(row: Row, attempts: nat, ack: Ack): Row {
    match ack
    case SendFailed => row.(status := Failed, attempts := attempts)
    case Acknowledged(conversation, originator) =>
      row.(status := Sent, attempts := attempts, conversation := conversation, originator := originator)
  }

  function Finish(d: Desk, ack: Ack): Desk {
    if d.flight.None? || d.flight.value.key !in d.rows then d
    else
      var f := d.flight.value;
      Overwrite(d, f.key, Answer(d.rows[f.key], f.attempts, ack)).(flight := None)
  }

  // ------------------------------------------------------------------ callbacks

  predicate Present(id: Option<string>) { id.Some? && id.value != "" }

  /** First row, in insertion order, with the given conversation (or originator) id. */
  function ByConversation(d: Desk, id: Option<string>, k: nat): Option<Key>
    requires k <= |d.order|
  {
    if k == 0 then None
    else
      var earlier := ByConversation(d, id, k - 1);
      if earlier.Some? then earlier
      else if d.order[k - 1] in d.rows && Present(id) && d.rows[d.order[k - 1]].conversation == id then Some(d.order[k - 1])
      else None
  }

  function ByOriginator(d: Desk, id: Option<string>, k: nat): Option<Key>
    requires k <= |d.order|
  {
    if k == 0 then None
    else
      var earlier := ByOriginator(d, id, k - 1);
      if earlier.Some? then earlier
      else if d.order[k - 1] in d.rows && Present(id) && d.rows[d.order[k - 1]].originator == id then Some(d.order[k - 1])
      else None
  }

  function Find(d: Desk, conversation: Option<string>, originator: Option<string>): Option<Key> {
    var byConversation := ByConversation(d, conversation, |d.order|);
    if byConversation.Some? then byConversation else ByOriginator(d, originator, |d.order|)
  }

  /** handle_b2c_result. `burned` is false when the burn transaction raises: the row then stays as it is. */
  function Settle(d: Desk, conversation: Option<string>, originator: Option<string>, success: bool, burned: bool): Desk {
    var k := Find(d, conversation, originator);
    if k.None? || k.value !in d.rows || d.rows[k.value].status == Settled then d
    else if !success then Overwrite(d, k.value, d.rows[k.value].(status := Failed))
    else if !burned then d
    else Overwrite(d, k.value, d.rows[k.value].(status := Settled))
         .(burns := d.burns + [Burn(k.value, d.rows[k.value].amount * UKES_PER_KES)])
  }

  function Expire(d: Desk, conversation: Option<string>, originator: Option<string>): Desk {
    var k := Find(d, conversation, originator);
    if k.None? || k.value !in d.rows || d.rows[k.value].status == Settled then d
    else Overwrite(d, k.value, d.rows[k.value].(status := TimedOut))
  }

  // ------------------------------------------------------------------ retry and poll

  predicate Retryable(s: Status) { s == Failed || s == TimedOut }

  /** ledger.where(RETRYABLE). */
  function Retries(d: Desk, k: nat): seq<Snapshot>
    requires k <= |d.order|
  {
    if k == 0 then []
    else
      var key := d.order[k - 1];
      Retries(d, k - 1)
      + if key in d.rows && Retryable(d.rows[key].status) then [Snapshot(key, d.rows[key].attempts)] else []
  }

  /** One turn of retry_failed, by what the snapshot said of the row. */
  function Retry(d: Desk, c: Config): Desk {
    if d.queue == [] || d.queue[0].key !in d.rows then d
    else
      var s, rest := d.queue[0], d.queue[1..];
      if s.attempts >= c.maxAttempts then Overwrite(d, s.key, d.rows[s.key].(status := Exhausted)).(queue := rest)
      else d.(flight := Some(Flight(s.key, d.rows[s.key].attempts + 1)), queue := rest)
  }

  function Scan(logs: Logs, from: nat, end: nat): seq<Event>
    decreases end - from
  {
    if end < from then [] else logs(from) + if from < end then Scan(logs, from + 1, end) else []
  }

  function StartBlock(d: Desk, head: int, span: nat): nat {
    if d.cursor.Some? then d.cursor.value + 1 else if head >= span then head - span else 0
  }

  function BeginPoll(d: Desk, logs: Logs, head: int, span: nat): Desk {
    var start := StartBlock(d, head, span);
    if head < start then d
    else
      var end := if head <= start + span then head else start + span;
      d.(todo := Scan(logs, start, end), scanning := Some(Window(start, end)))
  }

  /** The cursor moves only when every transfer of the window is handled; then the retry list is read. */
  function EndScan(d: Desk): Desk
    requires d.scanning.Some?
  {
    d.(cursor := Some(d.scanning.value.end), scanning := None, queue := Retries(d, |d.order|))
  }

  // ------------------------------------------------------------------ steps

  /** An operation that its place in the loop does not allow changes nothing. */
  function Step(d: Desk, c: Config, logs: Logs, op: Op): Desk {
    match op
    case Transfer(ev) => if Idle(d) then Handle(d, c, ev) else d
    case Poll(head, span) => if Idle(d) then BeginPoll(d, logs, head, span) else d
    case NextTransfer => if d.flight == None && d.todo != [] then Handle(d, c, d.todo[0]).(todo := d.todo[1..]) else d
    case PollDone =>
      if d.flight == None && d.todo == [] && d.scanning.Some?
      then EndScan(d) else d
    case RetryNext => if d.flight == None then Retry(d, c) else d
    case FinishSend(ack) => Finish(d, ack)
    case Result(conversation, originator, success, burned) => Settle(d, conversation, originator, success, burned)
    case Timeout(conversation, originator) => Expire(d, conversation, originator)
    case Abort => d.(flight := None, todo := [], scanning := None, queue := [])
  }

  const NEW := Desk(map[], [], None, [], None, [], None, [], [])

  function Run(d: Desk, c: Config, logs: Logs, ops: seq<Op>): Desk
    decreases |ops|
  {
    if ops == [] then d else Step(Run(d, c, logs, ops[..|ops| - 1]), c, logs, ops[|ops| - 1])
  }
}
