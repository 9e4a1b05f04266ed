/**
 The rows that the durable store keeps for one run, and its transactions (durable/store.go).
 Each transaction is one atomic step: it returns an error and leaves the rows alone, or commits.
 Absent blobs and empty ones are the same here, as they are for the store's comparisons.
 */
module DurableStore {
  import opened Options

  type Bytes = string

  // -------------------------------------------------------------------------- rows

  datatype Definition = Definition(id: string, code: string, seed: string, artifact: string,
                                   environment: string, inputs: Bytes, tools: Bytes)

  datatype Status = Active | Waiting | Completed | Failed | Cancelled | Blocked

  datatype CallState = CallPending | CallWaiting | CallCompleted

  datatype CallRow = CallRow(callId: string, tool: string, operationKey: string, state: CallState,
                             arguments: Bytes, outcome: Bytes)

  datatype WaitSpec = WaitSpec(kind: string, request: Bytes, deadline: string)

  datatype Decision = Decision(result: Bytes, error: string)

  datatype WaitRow = WaitRow(spec: WaitSpec, decision: Option<Decision>)

  /** `calls` and `waits` are keyed by the sequence number of the call. */
  datatype Rows = Rows(definition: Definition, status: Status, outcome: Bytes, reason: string,
                       calls: map<nat, CallRow>, waits: map<nat, WaitRow>)

  datatype LoggedCall = LoggedCall(sequence: nat, callId: string, capability: string, arguments: Bytes)

  datatype Mismatch = WrongSequence | WrongCallId | WrongCapability | WrongArguments | WrongOperationKey

  datatype Error = NotFound | Conflict | Limit | InvalidDefinition | HistoryMismatch(kind: Mismatch)

  datatype Result<+T> = Ok(value: T) | Err(error: Error)

  predicate Terminal(status: Status) {
    status == Completed || status == Failed || status == Cancelled
  }

  // -------------------------------------------------------------------------- keys

  const DIGITS: string := "0123456789"

  function Decimal(n: nat): string {
    if n < 10 then [DIGITS[n]] else Decimal(n / 10) + [DIGITS[n % 10]]
  }

  function OperationKey(runId: string, sequence: nat): string {
    runId + "/" + Decimal(sequence)
  }

  function WaitKey(runId: string, sequence: nat): string {
    runId + "/wait/" + Decimal(sequence)
  }

  function CallId(sequence: nat): string {
    "call-" + Decimal(sequence)
  }

  // ----------------------------------------------------------------------- payloads

  const MAX_RUN_PAYLOAD: nat := 64 * 1024 * 1024
  const MAX_RUN_ID: nat := 128

  function DefinitionSize(d: Definition): nat {
    |d.id| + |d.code| + |d.seed| + |d.artifact| + |d.environment| + |d.inputs| + |d.tools|
  }

  function CallSize(c: CallRow): nat {
    |c.callId| + |c.tool| + |c.operationKey| + |c.arguments| + |c.outcome|
  }

  function WaitSize(runId: string, sequence: nat, w: WaitRow): nat {
    |WaitKey(runId, sequence)| + |w.spec.kind| + |w.spec.request| + |w.spec.deadline|
    + match w.decision case None => 0 case Some(d) => |d.result| + |d.error|
  }

  /** One more than the largest sequence number, as `COALESCE(MAX(sequence)+1, 0)`. */
  ghost function NextOf(keys: set<nat>): (n: nat)
    ensures forall k :: k in keys ==> k < n
    ensures n > 0 ==> n - 1 in keys
  {
    if keys == {} then 0
    else
      var k :| k in keys;
      var rest := NextOf(keys - {k});
      assert forall j :: j in keys ==> j == k || j in keys - {k};
      if rest < k + 1 then k + 1 else rest
  }

  ghost function Count(rows: Rows): nat {
    NextOf(rows.calls.Keys)
  }

  ghost function CallsSize(calls: map<nat, CallRow>, n: nat): nat {
    if n == 0 then 0
    else CallsSize(calls, n - 1) + if n - 1 in calls then CallSize(calls[n - 1]) else 0
  }

  ghost function WaitsSize(runId: string, waits: map<nat, WaitRow>, n: nat): nat {
    if n == 0 then 0
    else WaitsSize(runId, waits, n - 1) + if n - 1 in waits then WaitSize(runId, n - 1, waits[n - 1]) else 0
  }

  /** What the size query sums up: the run's row, its calls and its waits. */
  ghost function PayloadSize(rows: Rows): nat {
    DefinitionSize(rows.definition) + |rows.outcome| + |rows.reason|
    + CallsSize(rows.calls, Count(rows))
    + WaitsSize(rows.definition.id, rows.waits, NextOf(rows.waits.Keys))
  }

  predicate Exceeds(current: nat, additional: nat) {
    current > MAX_RUN_PAYLOAD || additional > MAX_RUN_PAYLOAD - current
  }

  function LoggedSize(call: LoggedCall, key: string): nat {
    |call.callId| + |call.capability| + |key| + |call.arguments|
  }

  function NewWaitSize(runId: string, sequence: nat, spec: WaitSpec): nat {
    |WaitKey(runId, sequence)| + |spec.kind| + |spec.request| + |spec.deadline|
  }

  function ReplacementIncrease(oldOutcome: Bytes, newOutcome: Bytes, oldReason: string, newReason: string): nat {
    var before, after := |oldOutcome| + |oldReason|, |newOutcome| + |newReason|;
    if after <= before then 0 else after - before
  }

  // ------------------------------------------------------------------- transactions

  function NewRun(d: Definition): Rows {
    Rows(d, Active, "", "", map[], map[])
  }

  /** Reserve a call, or find the row that an earlier attempt reserved. */
  ghost function BeginCall(rows: Rows, call: LoggedCall): (Result<(CallRow, bool)>, Rows) {
    var key := OperationKey(rows.definition.id, call.sequence);
    if call.sequence in rows.calls then
      var record := rows.calls[call.sequence];
      if record.callId != call.callId then (Err(HistoryMismatch(WrongCallId)), rows)
      else if record.tool != call.capability then (Err(HistoryMismatch(WrongCapability)), rows)
      else if record.operationKey != key then (Err(HistoryMismatch(WrongOperationKey)), rows)
      else if record.arguments != call.arguments then (Err(HistoryMismatch(WrongArguments)), rows)
      else if record.state != CallCompleted && (Terminal(rows.status) || rows.status == Blocked) then (Err(Conflict), rows)
      else (Ok((record, false)), rows)
    else if Terminal(rows.status) || rows.status == Blocked || rows.status == Waiting then (Err(Conflict), rows)
    else if Count(rows) != call.sequence then (Err(HistoryMismatch(WrongSequence)), rows)
    else if Exceeds(PayloadSize(rows), LoggedSize(call, key)) then (Err(Limit), rows)
    else
      var record := CallRow(call.callId, call.capability, key, CallPending, call.arguments, "");
      (Ok((record, true)), rows.(calls := rows.calls[call.sequence := record]))
  }

  /** The first outcome wins; a call that is complete keeps the outcome it has. */
  ghost function CompleteCall(rows: Rows, sequence: nat, outcome: Bytes): (Result<Bytes>, Rows) {
    if sequence !in rows.calls then (Err(NotFound), rows)
    else
      var record := rows.calls[sequence];
      if record.state == CallCompleted then (Ok(record.outcome), rows)
      else if Exceeds(PayloadSize(rows), ReplacementIncrease(record.outcome, outcome, "", "")) then (Err(Limit), rows)
      else (Ok(outcome), rows.(calls := rows.calls[sequence := record.(state := CallCompleted, outcome := outcome)]))
  }

  ghost function EnsureWait(rows: Rows, sequence: nat, spec: WaitSpec): (Result<WaitRow>, Rows) {
    if sequence in rows.waits then (Ok(rows.waits[sequence]), rows)
    else if sequence !in rows.calls then (Err(NotFound), rows)
    else if rows.calls[sequence].state == CallCompleted then (Err(Conflict), rows)
    else if Terminal(rows.status) || rows.status == Blocked then (Err(Conflict), rows)
    else if Exceeds(PayloadSize(rows), NewWaitSize(rows.definition.id, sequence, spec)) then (Err(Limit), rows)
    else
      var wait := WaitRow(spec, None);
      (Ok(wait), rows.(
         waits := rows.waits[sequence := wait],
         calls := rows.calls[sequence := rows.calls[sequence].(state := CallWaiting)],
         status := if rows.status == Active then Waiting else rows.status))
  }

  function GetWait(rows: Rows, sequence: nat): Result<WaitRow> {
    if sequence in rows.waits then Ok(rows.waits[sequence]) else Err(NotFound)
  }

  /** A decision is recorded once; the same decision again is accepted without effect. */
  ghost function ResolveWait(rows: Rows, sequence: nat, decision: Decision): (Result<()>, Rows) {
    if sequence !in rows.waits then (Err(NotFound), rows)
    else
      var wait := rows.waits[sequence];
      if wait.decision.Some? then
        (if wait.decision.value == decision then Ok(()) else Err(Conflict), rows)
      else if Exceeds(PayloadSize(rows), |decision.result| + |decision.error|) then (Err(Limit), rows)
      else (Ok(()), rows.(
              waits := rows.waits[sequence := wait.(decision := Some(decision))],
              status := if rows.status == Waiting then Active else rows.status))
  }

  ghost function SetState(rows: Rows, status: Status, outcome: Bytes, reason: string): (Result<()>, Rows) {
    if Terminal(rows.status) then
      (if rows.status == status && rows.outcome == outcome && rows.reason == reason then Ok(()) else Err(Conflict), rows)
    else if Exceeds(PayloadSize(rows), ReplacementIncrease(rows.outcome, outcome, rows.reason, reason)) then (Err(Limit), rows)
    else (Ok(()), rows.(status := status, outcome := outcome, reason := reason))
  }

  predicate HasCall(rows: Rows, sequence: nat) {
    sequence in rows.calls
  }

  // --------------------------------------------------------------------- read-ahead

  datatype Record = Record(sequence: nat, row: CallRow)

  const WINDOW: nat := 64
  const WINDOW_BYTES: nat := 1024 * 1024

  /** The completed rows from `k` on, as many as a window that began at `start` still holds. */
  function ReadFrom(calls: map<nat, CallRow>, start: nat, k: nat, size: nat): seq<Record>
    requires start <= k <= start + WINDOW
    decreases start + WINDOW - k
  {
    if k == start + WINDOW || k !in calls || calls[k].state != CallCompleted then []
    else
      var row := calls[k];
      var size' := size + |row.arguments| + |row.outcome|;
      [Record(k, row)] + if size' >= WINDOW_BYTES then [] else ReadFrom(calls, start, k + 1, size')
  }

  function ReadCompleted(rows: Rows, from: nat): seq<Record> {
    ReadFrom(rows.calls, from, from, 0)
  }
}
