/**
 The store and the journal as the objects they are: a table of runs that transactions update,
 and a journal that numbers the calls of one attempt and reads completed rows ahead.
 */
module DurableObjects {
  import opened Options
  import opened DurableStore
  import opened DurableProtocol
  import opened DurablePayload
  import opened ReadAhead

  // --------------------------------------------------------------------- the two queries

  lemma NextOfIs(keys: set<nat>, n: nat)
    requires forall k :: k in keys ==> k < n
    requires n > 0 ==> n - 1 in keys
    ensures NextOf(keys) == n
  {
    var m := NextOf(keys);
    if m > 0 { assert m - 1 in keys; }
  }

  /** `COALESCE(MAX(sequence)+1, 0)`. */
  method NextSequence(keys: set<nat>) returns (n: nat)
    ensures n == NextOf(keys)
  {
    n := 0;
    var rest := keys;
    while rest != {}
      invariant rest <= keys
      invariant forall k :: k in keys && k !in rest ==> k < n
      invariant n > 0 ==> n - 1 in keys
      decreases rest
    {
      var k :| k in rest;
      rest := rest - {k};
      if n < k + 1 { n := k + 1; }
    }
    NextOfIs(keys, n);
  }

  /** The size query: the run's row, its calls and its waits, summed up. */
  method SumPayload(rows: Rows) returns (total: nat)
    ensures total == PayloadSize(rows)
  {
    total := DefinitionSize(rows.definition) + |rows.outcome| + |rows.reason|;
    var calls := NextSequence(rows.calls.Keys);
    for i := 0 to calls
      invariant total == DefinitionSize(rows.definition) + |rows.outcome| + |rows.reason| + CallsSize(rows.calls, i)
    {
      if i in rows.calls { total := total + CallSize(rows.calls[i]); }
    }
    var waits := NextSequence(rows.waits.Keys);
    for i := 0 to waits
      invariant total == DefinitionSize(rows.definition) + |rows.outcome| + |rows.reason|
        + CallsSize(rows.calls, calls) + WaitsSize(rows.definition.id, rows.waits, i)
    {
      if i in rows.waits { total := total + WaitSize(rows.definition.id, i, rows.waits[i]); }
    }
  }

  /** The rows still to be read, unless the limit on their bytes has been reached. */
  ghost function StillToRead(calls: map<nat, CallRow>, start: nat, k: nat, size: nat, full: bool): (rest: seq<Record>)
    requires start <= k <= start + WINDOW
    ensures full || k == start + WINDOW || k !in calls || calls[k].state != CallCompleted ==> rest == []
  {
    if full then [] else ReadFrom(calls, start, k, size)
  }

  /** One more row moves it from what is to be read to what was read. */
  lemma ReadMore(calls: map<nat, CallRow>, start: nat, k: nat, size: nat, size': nat, read: seq<Record>, read': seq<Record>)
    requires start <= k < start + WINDOW && k in calls && calls[k].state == CallCompleted
    requires size' == size + |calls[k].arguments| + |calls[k].outcome| && read' == read + [Record(k, calls[k])]
    ensures read + StillToRead(calls, start, k, size, false) ==
            read' + StillToRead(calls, start, k + 1, size', size' >= WINDOW_BYTES)
  {
    var next := StillToRead(calls, start, k + 1, size', size' >= WINDOW_BYTES);
    assert ReadFrom(calls, start, k, size) == [Record(k, calls[k])] + next;
  }

  /** Rows in order from `from` on, up to the first gap, open row, 64 rows or 1 MiB. */
  method ReadRows(rows: Rows, from: nat) returns (records: seq<Record>)
    ensures records == ReadCompleted(rows, from)
  {
    var calls := rows.calls;
    var size: nat, k, full := 0, from, false;
    records := [];
    while k < from + WINDOW && !full && k in calls && calls[k].state == CallCompleted
      invariant from <= k <= from + WINDOW
      invariant records + StillToRead(calls, from, k, size, full) == ReadCompleted(rows, from)
      decreases from + WINDOW - k
    {
      var row := calls[k];
      ghost var was, read := size, records;
      size := size + |row.arguments| + |row.outcome|;
      full := size >= WINDOW_BYTES;
      records := records + [Record(k, row)];
      ReadMore(calls, from, k, was, size, read, records);
      k := k + 1;
    }
  }

  // --------------------------------------------------------------------------- the store

  /** A transaction on one run; there is none on a run that does not exist. */
  ghost function Transact<T>(runs: map<string, Rows>, runId: string, tx: Rows -> (Result<T>, Rows)): (Result<T>, map<string, Rows>) {
    if runId !in runs then (Err(NotFound), runs)
    else
      var (r, rows) := tx(runs[runId]);
      (r, runs[runId := rows])
  }

  ghost predicate RunsOk(runs: map<string, Rows>) {
    forall id :: id in runs ==> RunOk(id, runs[id])
  }

  ghost predicate RunOk(id: string, rows: Rows) {
    rows.definition.id == id && 0 < |id| <= MAX_RUN_ID && WithinLimit(rows)
  }

  class Store {
    var runs: map<string, Rows>

    constructor ()
      ensures runs == map[] && RunsOk(runs)
    {
      runs := map[];
    }

    /** A new run; `json` says whether its inputs and tools are valid documents. */
    method Create(d: Definition, json: bool) returns (r: Result<()>)
      requires RunsOk(runs)
      modifies this
      ensures RunsOk(runs)
      ensures r.Ok? <==>
        0 < |d.id| <= MAX_RUN_ID && DefinitionSize(d) <= MAX_RUN_PAYLOAD && json && d.id !in old(runs)
      ensures r.Ok? ==> runs == old(runs)[d.id := NewRun(d)]
      ensures r.Err? ==> runs == old(runs)
      ensures r.Err? ==>
        r.error == (if d.id == "" || |d.id| > MAX_RUN_ID then InvalidDefinition
                    else if DefinitionSize(d) > MAX_RUN_PAYLOAD then Limit
                    else if !json then InvalidDefinition else Conflict)
    {
      if d.id == "" || |d.id| > MAX_RUN_ID { return Err(InvalidDefinition); }
      if DefinitionSize(d) > MAX_RUN_PAYLOAD { return Err(Limit); }
      if !json { return Err(InvalidDefinition); }
      if d.id in runs { return Err(Conflict); }
      NewRunBounded(d);
      runs := runs[d.id := NewRun(d)];
      return Ok(());
    }

    method BeginCall(runId: string, call: LoggedCall) returns (r: Result<(CallRow, bool)>)
      requires RunsOk(runs)
      modifies this
      ensures RunsOk(runs)
      ensures (r, runs) == Transact(old(runs), runId, rows => DurableStore.BeginCall(rows, call))
    {
      if |runId| > MAX_RUN_ID || runId !in runs { return Err(NotFound); }
      assert RunOk(runId, runs[runId]);
      var rows := runs[runId];
      BeginCallBounded(rows, call);
      assert runs == runs[runId := rows];
      var key := OperationKey(runId, call.sequence);
      if call.sequence in rows.calls {
        var record := rows.calls[call.sequence];
        if record.callId != call.callId { return Err(HistoryMismatch(WrongCallId)); }
        if record.tool != call.capability { return Err(HistoryMismatch(WrongCapability)); }
        if record.operationKey != key { return Err(HistoryMismatch(WrongOperationKey)); }
        if record.arguments != call.arguments { return Err(HistoryMismatch(WrongArguments)); }
        if record.state != CallCompleted && (Terminal(rows.status) || rows.status == Blocked) { return Err(Conflict); }
        return Ok((record, false));
      }
      if Terminal(rows.status) || rows.status == Blocked || rows.status == Waiting { return Err(Conflict); }
      var count := NextSequence(rows.calls.Keys);
      if count != call.sequence { return Err(HistoryMismatch(WrongSequence)); }
      var current := SumPayload(rows);
      if Exceeds(current, LoggedSize(call, key)) { return Err(Limit); }
      var record := CallRow(call.callId, call.capability, key, CallPending, call.arguments, "");
      runs := runs[runId := rows.(calls := rows.calls[call.sequence := record])];
      return Ok((record, true));
    }

    method CompleteCall(runId: string, sequence: nat, outcome: Bytes) returns (r: Result<Bytes>)
      requires RunsOk(runs)
      modifies this
      ensures RunsOk(runs)
      ensures (r, runs) == Transact(old(runs), runId, rows => DurableStore.CompleteCall(rows, sequence, outcome))
    {
      if runId !in runs { return Err(NotFound); }
      assert RunOk(runId, runs[runId]);
      var rows := runs[runId];
      CompleteCallBounded(rows, sequence, outcome);
      assert runs == runs[runId := rows];
      if sequence !in rows.calls { return Err(NotFound); }
      var record := rows.calls[sequence];
      if record.state == CallCompleted { return Ok(record.outcome); }
      var current := SumPayload(rows);
      if Exceeds(current, ReplacementIncrease(record.outcome, outcome, "", "")) { return Err(Limit); }
      runs := runs[runId := rows.(calls := rows.calls[sequence := record.(state := CallCompleted, outcome := outcome)])];
      return Ok(outcome);
    }

    method EnsureWait(runId: string, sequence: nat, spec: WaitSpec) returns (r: Result<WaitRow>)
      requires RunsOk(runs)
      modifies this
      ensures RunsOk(runs)
      ensures (r, runs) == Transact(old(runs), runId, rows => DurableStore.EnsureWait(rows, sequence, spec))
    {
      if runId !in runs { return Err(NotFound); }
      assert RunOk(runId, runs[runId]);
      var rows := runs[runId];
      EnsureWaitBounded(rows, sequence, spec);
      assert runs == runs[runId := rows];
      if sequence in rows.waits { return Ok(rows.waits[sequence]); }
      if sequence !in rows.calls { return Err(NotFound); }
      if rows.calls[sequence].state == CallCompleted { return Err(Conflict); }
      if Terminal(rows.status) || rows.status == Blocked { return Err(Conflict); }
      var current := SumPayload(rows);
      if Exceeds(current, NewWaitSize(runId, sequence, spec)) { return Err(Limit); }
      var wait := WaitRow(spec, None);
      rows := rows.(waits := rows.waits[sequence := wait],
                    calls := rows.calls[sequence := rows.calls[sequence].(state := CallWaiting)]);
      if rows.status == Active { rows := rows.(status := Waiting); }
      runs := runs[runId := rows];
      return Ok(wait);
    }

    method ResolveWait(runId: string, sequence: nat, decision: Decision) returns (r: Result<()>)
      requires RunsOk(runs)
      modifies this
      ensures RunsOk(runs)
      ensures (r, runs) == Transact(old(runs), runId, rows => DurableStore.ResolveWait(rows, sequence, decision))
    {
      if runId !in runs { return Err(NotFound); }
      assert RunOk(runId, runs[runId]);
      var rows := runs[runId];
      ResolveWaitBounded(rows, sequence, decision);
      assert runs == runs[runId := rows];
      if sequence !in rows.waits { return Err(NotFound); }
      var wait := rows.waits[sequence];
      if wait.decision.Some? {
        return if wait.decision.value == decision then Ok(()) else Err(Conflict);
      }
      var current := SumPayload(rows);
      if Exceeds(current, |decision.result| + |decision.error|) { return Err(Limit); }
      rows := rows.(waits := rows.waits[sequence := wait.(decision := Some(decision))]);
      if rows.status == Waiting { rows := rows.(status := Active); }
      runs := runs[runId := rows];
      return Ok(());
    }

    method SetState(runId: string, status: Status, outcome: Bytes, reason: string) returns (r: Result<()>)
      requires RunsOk(runs)
      modifies this
      ensures RunsOk(runs)
      ensures (r, runs) == Transact(old(runs), runId, rows => DurableStore.SetState(rows, status, outcome, reason))
    {
      if runId !in runs { return Err(NotFound); }
      assert RunOk(runId, runs[runId]);
      var rows := runs[runId];
      SetStateBounded(rows, status, outcome, reason);
      assert runs == runs[runId := rows];
      if Terminal(rows.status) {
        return if rows.status == status && rows.outcome == outcome && rows.reason == reason then Ok(()) else Err(Conflict);
      }
      var current := SumPayload(rows);
      if Exceeds(current, ReplacementIncrease(rows.outcome, outcome, rows.reason, reason)) { return Err(Limit); }
      runs := runs[runId := rows.(status := status, outcome := outcome, reason := reason)];
      return Ok(());
    }
  }

  // -------------------------------------------------------------------------- the journal

  class AttemptJournal {
    const store: Store
    const runId: string
    var sequence: nat
    var history: seq<Record>
    var live: bool

    constructor (store: Store, runId: string)
      ensures this.store == store && this.runId == runId && Snapshot() == Journal(0, [], false)
    {
      this.store, this.runId := store, runId;
      sequence, history, live := 0, [], false;
    }

    function Snapshot(): Journal
      reads this
    {
      Journal(sequence, history, live)
    }

    /** Answer a call from the window. */
    method FromWindow(call: LoggedCall) returns (r: ReadBack)
      requires history != []
      modifies this`history
      ensures history == old(history)[1..]
      ensures var kind := Compare(runId, old(history)[0], call);
        r == if kind.Some? then ReadOtherwise(kind.value) else ReadAs(old(history)[0].row.outcome)
    {
      var record := history[0];
      history := history[1..];
      if record.sequence != call.sequence { return ReadOtherwise(WrongSequence); }
      if record.row.callId != call.callId { return ReadOtherwise(WrongCallId); }
      if record.row.tool != call.capability { return ReadOtherwise(WrongCapability); }
      if record.row.arguments != call.arguments { return ReadOtherwise(WrongArguments); }
      if record.row.operationKey != OperationKey(runId, call.sequence) { return ReadOtherwise(WrongOperationKey); }
      return ReadAs(record.row.outcome);
    }

    /** Read a window ahead if there is none, and go live when there is nothing to read. */
    method Replayed(call: LoggedCall) returns (r: ReadBack)
      requires RunsOk(store.runs) && runId in store.runs
      modifies this
      ensures (r, Snapshot()) == ReadWindow(store.runs[runId], old(Snapshot()), call)
    {
      assert RunOk(runId, store.runs[runId]);
      if live { return NotRead; }
      if history == [] { history := ReadRows(store.runs[runId], call.sequence); }
      if history != [] {
        r := FromWindow(call);
        return;
      }
      live := true;
      return NotRead;
    }

    /** Reserve a call at the store, or find it there. */
    method Ask(call: LoggedCall) returns (r: Replay)
      requires RunsOk(store.runs) && runId in store.runs
      modifies store
      ensures RunsOk(store.runs)
      ensures r == AskStore(old(store.runs)[runId], call)
      ensures store.runs == old(store.runs)[runId := DurableStore.BeginCall(old(store.runs)[runId], call).1]
    {
      var found := store.BeginCall(runId, call);
      match found
      case Err(HistoryMismatch(kind)) => return Mismatched(kind);
      case Err(e) => return Live(Err(e));
      case Ok(record) => return if record.0.state == CallCompleted then Answered(record.0.outcome) else Live(Ok(record));
    }

    /** One call, up to the point where a tool, a look-up or a wait takes over. */
    method Call(tool: string, arguments: Bytes) returns (r: Replay)
      requires RunsOk(store.runs) && runId in store.runs
      modifies this, store
      ensures RunsOk(store.runs)
      ensures (r, Snapshot()) == AskJournal(old(store.runs)[runId], old(Snapshot()), tool, arguments)
      ensures store.runs == old(store.runs)
        || store.runs == old(store.runs)[runId := DurableStore.BeginCall(old(store.runs)[runId], Logged(old(sequence), tool, arguments)).1]
    {
      var call := Logged(sequence, tool, arguments);
      sequence := sequence + 1;
      var read := Replayed(call);
      match read {
        case ReadAs(outcome) => return Answered(outcome);
        case ReadOtherwise(kind) => return Mismatched(kind);
        case NotRead =>
      }
      r := Ask(call);
    }
  }
}
