/**
 The journal that reads completed rows ahead, in windows of at most 64 rows, refines the journal
 that asks the store for every call: the same answers and the same mismatches.
 */
module ReadAhead {
  import opened DurableStore
  import opened DurableProtocol
  import opened DurableInvariant
  import opened DurableRuns
  import opened DurableTheorems
  import opened DurableStatus

  /** `Live` is an answer of the store that leads on to a tool, a look-up or a wait. */
  datatype Replay =
    | Answered(outcome: Bytes)
    | Mismatched(kind: Mismatch)
    | Live(result: Result<(CallRow, bool)>)

  /** The journal without read-ahead: every call goes to the store. */
  ghost function AskStore(rows: Rows, call: LoggedCall): Replay {
    match BeginCall(rows, call).0
    case Err(HistoryMismatch(kind)) => Mismatched(kind)
    case Err(e) => Live(Err(e))
    case Ok(found) => if found.0.state == CallCompleted then Answered(found.0.outcome) else Live(Ok(found))
  }

  /** The journal with read-ahead; it numbers the call itself. */
  ghost function AskJournal(rows: Rows, j: Journal, tool: string, arguments: Bytes): (Replay, Journal) {
    var call := Logged(j.sequence, tool, arguments);
    var (read, next) := ReadWindow(rows, j.(sequence := j.sequence + 1), call);
    match read
    case NotRead => (AskStore(rows, call), next)
    case ReadOtherwise(kind) => (Mismatched(kind), next)
    case ReadAs(outcome) => (Answered(outcome), next)
  }

  /** What the store makes sure of: rows carry the identity and the key of their number. */
  ghost predicate KeysOk(rows: Rows) {
    forall i :: i in rows.calls ==>
      rows.calls[i].callId == CallId(i) && rows.calls[i].operationKey == OperationKey(rows.definition.id, i)
  }

  ghost predicate JournalOk(rows: Rows, j: Journal) {
    WindowOk(rows.calls, j.history, j.sequence) && (j.live ==> j.history == [])
  }

  lemma CompareIsBeginCall(rows: Rows, record: Record, call: LoggedCall)
    requires KeysOk(rows) && IsRead(rows.calls, record, call.sequence)
    requires call == Logged(call.sequence, call.capability, call.arguments)
    ensures AskStore(rows, call) ==
      if Compare(rows.definition.id, record, call).Some? then Mismatched(Compare(rows.definition.id, record, call).value)
      else Answered(record.row.outcome)
  {
  }

  /** One call, with any tool and any arguments: the window gives what the store would. */
  lemma OneCall(rows: Rows, j: Journal, tool: string, arguments: Bytes)
    requires KeysOk(rows) && JournalOk(rows, j)
    ensures AskJournal(rows, j, tool, arguments).0 == AskStore(rows, Logged(j.sequence, tool, arguments))
    ensures JournalOk(rows, AskJournal(rows, j, tool, arguments).1)
    ensures AskJournal(rows, j, tool, arguments).1.sequence == j.sequence + 1
  {
    if !j.live {
      WindowIsCompleted(rows.calls, j.sequence, j.sequence, 0);
      var window := if j.history == [] then ReadCompleted(rows, j.sequence) else j.history;
      if window != [] {
        WindowTail(rows.calls, window, window[1..], j.sequence);
        CompareIsBeginCall(rows, window[0], Logged(j.sequence, tool, arguments));
      }
    }
  }

  // ------------------------------------------------------------------------- whole sessions

  /** A call, and the rows at the time it is made. */
  datatype Moment = Moment(rows: Rows, tool: string, arguments: Bytes)

  ghost function StoreSession(moments: seq<Moment>, k: nat): seq<Replay> {
    if moments == [] then []
    else
      var m := moments[0];
      [AskStore(m.rows, Logged(k, m.tool, m.arguments))] + StoreSession(moments[1..], k + 1)
  }

  ghost function JournalSession(moments: seq<Moment>, j: Journal): seq<Replay> {
    if moments == [] then []
    else
      var m := moments[0];
      var (replay, next) := AskJournal(m.rows, j, m.tool, m.arguments);
      [replay] + JournalSession(moments[1..], next)
  }

  ghost predicate OrderedAt(moments: seq<Moment>, i: nat) {
    i < |moments| ==>
      KeysOk(moments[i].rows) && (i + 1 < |moments| ==> Later(moments[i].rows, moments[i + 1].rows))
  }

  ghost predicate InOrder(moments: seq<Moment>) {
    forall i: nat {:trigger OrderedAt(moments, i)} :: OrderedAt(moments, i)
  }

  lemma JournalOkLater(a: Rows, b: Rows, j: Journal)
    requires JournalOk(a, j) && Later(a, b)
    ensures JournalOk(b, j)
  {
    forall i | i in a.calls && a.calls[i].state == CallCompleted ensures i in b.calls && b.calls[i] == a.calls[i] {
      assert CallStays(a.calls[i], b.calls[i]);
    }
    WindowKept(a.calls, b.calls, j.history, j.sequence);
  }

  lemma {:induction false} SessionRefines(moments: seq<Moment>, j: Journal)
    requires InOrder(moments) && (moments != [] ==> JournalOk(moments[0].rows, j))
    ensures JournalSession(moments, j) == StoreSession(moments, j.sequence)
  {
    if moments != [] {
      var m, rest := moments[0], moments[1..];
      assert OrderedAt(moments, 0);
      OneCall(m.rows, j, m.tool, m.arguments);
      forall i: nat ensures OrderedAt(rest, i) { assert OrderedAt(moments, i + 1); }
      var next := AskJournal(m.rows, j, m.tool, m.arguments).1;
      if rest != [] { JournalOkLater(m.rows, rest[0].rows, next); }
      SessionRefines(rest, next);
    }
  }

  /**
   A fresh journal refines the store: for every session of calls, with any tools and arguments,
   made at growing points of any history of the run.
   */
  lemma {:induction false} ReadAheadRefines(cfg: Config, d: Definition, histories: seq<seq<Action>>, calls: seq<(string, Bytes)>, moments: seq<Moment>)
    requires DefinitionSize(d) <= MAX_RUN_PAYLOAD
    requires |histories| == |calls| == |moments|
    requires forall i {:trigger histories[i]} :: 0 <= i && i + 1 < |histories| ==> histories[i] <= histories[i + 1]
    requires forall i {:trigger moments[i]} :: 0 <= i < |moments| ==>
      moments[i] == Moment(After(cfg, d, histories[i]).rows, calls[i].0, calls[i].1)
    ensures JournalSession(moments, Journal(0, [], false)) == StoreSession(moments, 0)
  {
    forall i: nat ensures OrderedAt(moments, i) {
      if i < |moments| {
        var _ := moments[i];
        ReachableKeys(cfg, d, histories[i]);
        if i + 1 < |moments| {
          var _ := moments[i + 1];
          GrowingHistory(cfg, d, histories[i], histories[i + 1]);
        }
      }
    }
    SessionRefines(moments, Journal(0, [], false));
  }

  lemma ReachableKeys(cfg: Config, d: Definition, actions: seq<Action>)
    requires DefinitionSize(d) <= MAX_RUN_PAYLOAD
    ensures KeysOk(After(cfg, d, actions).rows)
  {
    HistoryKeeps(cfg, d, actions);
    var rows := After(cfg, d, actions).rows;
    forall i: nat | i in rows.calls
      ensures rows.calls[i].callId == CallId(i) && rows.calls[i].operationKey == OperationKey(rows.definition.id, i)
    {
      assert PathAt(cfg, rows.definition.id, rows.calls, Count(rows), i);
    }
  }

  lemma GrowingHistory(cfg: Config, d: Definition, early: seq<Action>, late: seq<Action>)
    requires DefinitionSize(d) <= MAX_RUN_PAYLOAD && early <= late
    ensures Later(After(cfg, d, early).rows, After(cfg, d, late).rows)
  {
    var more := late[|early|..];
    assert late == early + more;
    HistoryKeeps(cfg, d, early);
    ExecuteAppend(cfg, Start(d), early, more);
    ExecuteLater(cfg, After(cfg, d, early), more);
  }
}
