/** What successful polls cover: every block once, every Transfer log one row, however many polls abort on the way. */
module PollCoverage {
  import opened Options
  import opened PayoutRules
  import opened PayoutTheorems
  import opened PayoutResults

  /** Windows of the polls that ran to the end, in order. */
  function Completed(c: Config, logs: Logs, ops: seq<Op>): seq<Window>
    decreases |ops|
  {
    if ops == [] then []
    else
      var d, op := Run(NEW, c, logs, ops[..|ops| - 1]), ops[|ops| - 1];
      Completed(c, logs, ops[..|ops| - 1])
      + if Completes(d, op) then [d.scanning.value] else []
  }

  /** The windows follow each other without gap or overlap, up to the cursor. */
  ghost predicate Tiles(ws: seq<Window>, cursor: Option<nat>) {
    && (forall i :: 0 <= i < |ws| ==> ws[i].start <= ws[i].end)
    && (forall i :: 0 < i < |ws| ==> ws[i].start == ws[i - 1].end + 1)
    && (if ws == [] then cursor == None else cursor == Some(ws[|ws| - 1].end))
  }

  ghost predicate BlockDone(logs: Logs, rows: map<Key, Row>, b: nat) {
    forall i :: 0 <= i < |logs(b)| ==> logs(b)[i].key in rows
  }

  ghost predicate WindowDone(logs: Logs, rows: map<Key, Row>, w: Window) {
    forall b :: w.start <= b <= w.end ==> BlockDone(logs, rows, b)
  }

  // ------------------------------------------------------------------ scans

  /** Every log of a window is in its scan. */
  lemma {:induction false} ScanHasAll(logs: Logs, from: nat, end: nat, b: nat, i: nat) returns (j: nat)
    requires from <= b <= end && i < |logs(b)|
    ensures j < |Scan(logs, from, end)| && Scan(logs, from, end)[j] == logs(b)[i]
    decreases end - from
  {
    if b == from {
      j := i;
    } else {
      var k := ScanHasAll(logs, from + 1, end, b, i);
      j := |logs(from)| + k;
    }
  }

  /** The current poll has put a row for every event it took off its list. */
  ghost predicate Progress(d: Desk, logs: Logs) {
    d.scanning.Some? ==>
      var scan := Scan(logs, d.scanning.value.start, d.scanning.value.end);
      && d.scanning.value.start <= d.scanning.value.end
      && (d.cursor.Some? ==> d.scanning.value.start == d.cursor.value + 1)
      && |d.todo| <= |scan| && d.todo == scan[|scan| - |d.todo|..]
      && forall j :: 0 <= j < |scan| - |d.todo| ==> scan[j].key in d.rows
  }

  ghost predicate Coverage(d: Desk, logs: Logs, ws: seq<Window>) {
    && Tiles(ws, d.cursor) && Progress(d, logs) && (d.scanning == None ==> d.todo == [])
    && forall i :: 0 <= i < |ws| ==> WindowDone(logs, d.rows, ws[i])
  }

  /** Rows are never deleted. */
  lemma RowsStay(d: Desk, c: Config, logs: Logs, op: Op)
    ensures d.rows.Keys <= Step(d, c, logs, op).rows.Keys
  {}

  lemma DoneStays(logs: Logs, d: Desk, y: Desk, ws: seq<Window>)
    requires d.rows.Keys <= y.rows.Keys && forall i :: 0 <= i < |ws| ==> WindowDone(logs, d.rows, ws[i])
    ensures forall i :: 0 <= i < |ws| ==> WindowDone(logs, y.rows, ws[i])
  {
    forall i | 0 <= i < |ws|
      ensures WindowDone(logs, y.rows, ws[i])
    {
      forall b | ws[i].start <= b <= ws[i].end
        ensures BlockDone(logs, y.rows, b)
      {
        assert WindowDone(logs, d.rows, ws[i]) && BlockDone(logs, d.rows, b);
        forall j | 0 <= j < |logs(b)|
          ensures logs(b)[j].key in y.rows
        {
          assert logs(b)[j].key in d.rows.Keys;
        }
      }
    }
  }

  lemma ScannedIsDone(d: Desk, logs: Logs)
    requires Progress(d, logs) && d.scanning.Some? && d.todo == []
    ensures WindowDone(logs, d.rows, d.scanning.value)
  {
    var w := d.scanning.value;
    forall b | w.start <= b <= w.end
      ensures BlockDone(logs, d.rows, b)
    {
      forall i | 0 <= i < |logs(b)|
        ensures logs(b)[i].key in d.rows
      {
        var j := ScanHasAll(logs, w.start, w.end, b, i);
      }
    }
  }

  lemma NextProgress(d: Desk, c: Config, logs: Logs)
    requires Progress(d, logs) && d.flight == None && d.todo != []
    ensures Progress(Step(d, c, logs, NextTransfer), logs)
  {
    if d.scanning.Some? {
      var scan := Scan(logs, d.scanning.value.start, d.scanning.value.end);
      assert d.todo[0] == scan[|scan| - |d.todo|];
      assert scan[|scan| - |d.todo|..][1..] == scan[|scan| - |d.todo| + 1..];
    }
  }

  lemma BeginProgress(d: Desk, logs: Logs, head: int, span: nat)
    requires d.scanning == None && Progress(d, logs)
    ensures Progress(BeginPoll(d, logs, head, span), logs)
  {}

  /** Callbacks and sends leave the poll where it is. */
  lemma ElsewhereProgress(d: Desk, y: Desk, logs: Logs)
    requires Progress(d, logs) && d.rows.Keys <= y.rows.Keys
    requires y.scanning == d.scanning && y.cursor == d.cursor && y.todo == d.todo
    ensures Progress(y, logs)
  {
    if d.scanning.Some? {
      var scan := Scan(logs, d.scanning.value.start, d.scanning.value.end);
      forall j | 0 <= j < |scan| - |d.todo|
        ensures scan[j].key in y.rows
      {
        assert scan[j].key in d.rows.Keys;
      }
    }
  }

  lemma StepProgress(d: Desk, c: Config, logs: Logs, op: Op)
    requires Progress(d, logs) && (d.scanning == None ==> d.todo == [])
    ensures Progress(Step(d, c, logs, op), logs)
    ensures Step(d, c, logs, op).scanning == None ==> Step(d, c, logs, op).todo == []
  {
    RowsStay(d, c, logs, op);
    match op {
      case Poll(head, span) => if Idle(d) { BeginProgress(d, logs, head, span); }
      case NextTransfer => if d.flight == None && d.todo != [] { NextProgress(d, c, logs); }
      case PollDone =>
      case Abort =>
      case _ => ElsewhereProgress(d, Step(d, c, logs, op), logs);
    }
  }

  predicate Completes(d: Desk, op: Op) { op.PollDone? && d.flight == None && d.todo == [] && d.scanning.Some? }

  lemma OnlyCompletionMovesCursor(d: Desk, c: Config, logs: Logs, op: Op)
    requires !Completes(d, op)
    ensures Step(d, c, logs, op).cursor == d.cursor
  {}

  lemma CompletedTiles(d: Desk, logs: Logs, ws: seq<Window>)
    requires Tiles(ws, d.cursor) && Progress(d, logs) && d.scanning.Some?
    ensures Tiles(ws + [d.scanning.value], Some(d.scanning.value.end))
  {}

  lemma StepCoverage(d: Desk, c: Config, logs: Logs, op: Op, ws: seq<Window>)
    requires Coverage(d, logs, ws)
    ensures Coverage(Step(d, c, logs, op), logs, ws + if Completes(d, op) then [d.scanning.value] else [])
  {
    var y := Step(d, c, logs, op);
    StepProgress(d, c, logs, op);
    RowsStay(d, c, logs, op);
    DoneStays(logs, d, y, ws);
    if Completes(d, op) {
      ScannedIsDone(d, logs);
      CompletedTiles(d, logs, ws);
    } else {
      OnlyCompletionMovesCursor(d, c, logs, op);
      assert ws + [] == ws;
    }
  }

  /**
   Over any run, with any number of aborted polls: the completed polls tile the blocks from the first one's start to the
   cursor, and every Transfer log in them has its ledger row.
   */
  lemma {:induction false} PollsCover(c: Config, logs: Logs, ops: seq<Op>)
    ensures Coverage(Run(NEW, c, logs, ops), logs, Completed(c, logs, ops))
    decreases |ops|
  {
    if ops != [] {
      PollsCover(c, logs, ops[..|ops| - 1]);
      StepCoverage(Run(NEW, c, logs, ops[..|ops| - 1]), c, logs, ops[|ops| - 1], Completed(c, logs, ops[..|ops| - 1]));
    }
  }

  /** Without gaps: a block between the first covered one and the cursor lies in exactly one window. */
  lemma {:induction false} TilesCoverBlock(ws: seq<Window>, cursor: Option<nat>, b: nat) returns (i: nat)
    requires Tiles(ws, cursor) && ws != [] && ws[0].start <= b <= cursor.value
    ensures i < |ws| && ws[i].start <= b <= ws[i].end
    ensures forall j :: 0 <= j < |ws| && ws[j].start <= b <= ws[j].end ==> j == i
    decreases |ws|
  {
    i := |ws| - 1;
    TilesRise(ws, cursor);
    if b < ws[i].start {
      i := TilesCoverBlock(ws[..i], Some(ws[i - 1].end), b);
    }
  }

  lemma {:induction false} TilesRise(ws: seq<Window>, cursor: Option<nat>)
    requires Tiles(ws, cursor)
    ensures forall i, j :: 0 <= i < j < |ws| ==> ws[i].end < ws[j].start
    decreases |ws|
  {
    if |ws| >= 2 {
      TilesRise(ws[..|ws| - 1], Some(ws[|ws| - 2].end));
    }
  }

  // ------------------------------------------------------------------ one row per log, with the log's own figures

  ghost predicate SomeLog(logs: Logs, ev: Event) { exists b: nat, i: nat :: i < |logs(b)| && logs(b)[i] == ev }

  /** A log is identified by its transaction hash and index. */
  ghost predicate KeysIdentify(logs: Logs) {
    forall x: Event, y: Event :: SomeLog(logs, x) && SomeLog(logs, y) && x.key == y.key ==> x == y
  }

  ghost predicate FromLog(c: Config, logs: Logs, k: Key, row: Row) {
    exists ev: Event :: SomeLog(logs, ev) && ev.key == k && Records(c, ev, row)
  }

  ghost predicate AllFromLogs(d: Desk, c: Config, logs: Logs) {
    && (forall k :: k in d.rows ==> FromLog(c, logs, k, d.rows[k]))
    && (forall i :: 0 <= i < |d.todo| ==> SomeLog(logs, d.todo[i]))
  }

  lemma {:induction false} ScanFromLogs(logs: Logs, from: nat, end: nat)
    ensures forall j :: 0 <= j < |Scan(logs, from, end)| ==> SomeLog(logs, Scan(logs, from, end)[j])
    decreases end - from
  {
    if from < end {
      ScanFromLogs(logs, from + 1, end);
    }
    if from <= end {
      forall j | 0 <= j < |logs(from)|
        ensures SomeLog(logs, logs(from)[j])
      {}
    }
  }

  lemma StepFromLogs(d: Desk, c: Config, logs: Logs, op: Op)
    requires Inv(d, c) && AllFromLogs(d, c, logs) && !op.Transfer?
    ensures AllFromLogs(Step(d, c, logs, op), c, logs)
  {
    var y := Step(d, c, logs, op);
    match op {
      case Poll(head, span) =>
        ScanFromLogs(logs, StartBlock(d, head, span), if head <= StartBlock(d, head, span) + span then (if head >= 0 then head else 0) else StartBlock(d, head, span) + span);
      case NextTransfer =>
        if d.flight == None && d.todo != [] {
          assert SomeLog(logs, d.todo[0]);
          forall k | k in y.rows
            ensures FromLog(c, logs, k, y.rows[k])
          {
            assert k in d.rows ==> FromLog(c, logs, k, d.rows[k]);
          }
        }
      case PollDone =>
      case Abort =>
      case _ => SameFigures(d, y, logs, c, op);
    }
  }

  lemma SameFigures(d: Desk, y: Desk, logs: Logs, c: Config, op: Op)
    requires Inv(d, c) && AllFromLogs(d, c, logs) && y == Step(d, c, logs, op)
    requires op.FinishSend? || op.Result? || op.Timeout? || op.RetryNext?
    ensures AllFromLogs(y, c, logs)
  {
    forall k | k in y.rows
      ensures FromLog(c, logs, k, y.rows[k])
    {
      assert FromLog(c, logs, k, d.rows[k]);
      StepPreserves(d, c, logs, op, k);
    }
  }

  lemma {:induction false} RunFromLogs(c: Config, logs: Logs, ops: seq<Op>)
    requires c.maxAttempts >= 1 && forall i :: 0 <= i < |ops| ==> !ops[i].Transfer?
    ensures AllFromLogs(Run(NEW, c, logs, ops), c, logs)
    decreases |ops|
  {
    if ops != [] {
      RunFromLogs(c, logs, ops[..|ops| - 1]);
      RunKeeps(c, logs, ops[..|ops| - 1]);
      StepFromLogs(Run(NEW, c, logs, ops[..|ops| - 1]), c, logs, ops[|ops| - 1]);
    }
  }

  /** With nothing but polls feeding it, a covered log has one row, and it records that log. */
  lemma CoveredLogHasItsRow(c: Config, logs: Logs, ops: seq<Op>, b: nat, i: nat)
    requires c.maxAttempts >= 1 && (forall j :: 0 <= j < |ops| ==> !ops[j].Transfer?) && KeysIdentify(logs)
    requires var ws := Completed(c, logs, ops);
             ws != [] && ws[0].start <= b && Run(NEW, c, logs, ops).cursor.Some? && b <= Run(NEW, c, logs, ops).cursor.value
    requires i < |logs(b)|
    ensures var d, ev := Run(NEW, c, logs, ops), logs(b)[i];
            && ev.key in d.rows && Records(c, ev, d.rows[ev.key])
            && multiset(d.order)[ev.key] == 1
  {
    var d, ws, ev := Run(NEW, c, logs, ops), Completed(c, logs, ops), logs(b)[i];
    PollsCover(c, logs, ops);
    var w := TilesCoverBlock(ws, d.cursor, b);
    assert WindowDone(logs, d.rows, ws[w]) && BlockDone(logs, d.rows, b);
    RunFromLogs(c, logs, ops);
    RunKeeps(c, logs, ops);
    assert FromLog(c, logs, ev.key, d.rows[ev.key]) && SomeLog(logs, ev);
    OneEntry(d.order, ev.key);
  }

  lemma {:induction false} OneEntry(order: seq<Key>, k: Key)
    requires (exists i :: 0 <= i < |order| && order[i] == k) && forall i, j :: 0 <= i < j < |order| ==> order[i] != order[j]
    ensures multiset(order)[k] == 1
  {
    var i :| 0 <= i < |order| && order[i] == k;
    assert order == order[..i] + [order[i]] + order[i + 1..];
    assert k !in order[..i] && k !in order[i + 1..];
  }
}
