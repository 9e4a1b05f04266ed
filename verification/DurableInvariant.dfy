/**
 What holds in every state a durable run can reach, whatever crashes, replies, decisions and
 cancellations there were on the way.
 */
module DurableInvariant {
  import opened Options
  import opened DurableStore
  import opened DurableProtocol
  import opened DurablePayload

  // ------------------------------------------------------------------- the table of calls

  /** The outcomes of the first `k` calls: what a Guest has been told after replaying them. */
  ghost function Outcomes(calls: map<nat, CallRow>, k: nat): (r: seq<Bytes>)
    ensures |r| == k
  {
    if k == 0 then [] else Outcomes(calls, k - 1) + [if k - 1 in calls then calls[k - 1].outcome else ""]
  }

  predicate IsWait(cfg: Config, tool: string) {
    tool in cfg.tools && cfg.tools[tool] == WaitMode
  }

  predicate IsComplete(calls: map<nat, CallRow>, i: nat) {
    i in calls && calls[i].state == CallCompleted
  }

  ghost predicate AllComplete(calls: map<nat, CallRow>, k: nat) {
    forall i: nat {:trigger IsComplete(calls, i)} :: i < k ==> IsComplete(calls, i)
  }

  /** Row `i` is the call that the Guest makes when it has been told the outcomes before it. */
  ghost predicate OnPath(cfg: Config, runId: string, calls: map<nat, CallRow>, i: nat)
    requires i in calls
  {
    && calls[i].callId == CallId(i)
    && calls[i].operationKey == OperationKey(runId, i)
    && cfg.guest(Outcomes(calls, i)) == Calls(calls[i].tool, calls[i].arguments)
  }

  ghost predicate PathAt(cfg: Config, runId: string, calls: map<nat, CallRow>, n: nat, i: nat) {
    && (i in calls <==> i < n)
    && (i + 1 < n ==> IsComplete(calls, i))
    && (i < n ==> OnPath(cfg, runId, calls, i))
  }

  /** The stored calls are the Guest's path on the stored outcomes; only the last may be open. */
  ghost predicate Path(cfg: Config, runId: string, calls: map<nat, CallRow>, n: nat) {
    forall i: nat {:trigger PathAt(cfg, runId, calls, n, i)} :: PathAt(cfg, runId, calls, n, i)
  }

  ghost predicate WaitOf(cfg: Config, call: CallRow, wait: WaitRow) {
    && IsWait(cfg, call.tool)
    && call.state != CallPending
    && (call.state == CallCompleted ==> wait.decision.Some? && call.outcome == cfg.wire(wait.decision.value))
  }

  ghost predicate WaitAt(cfg: Config, calls: map<nat, CallRow>, waits: map<nat, WaitRow>, i: nat) {
    && (i in waits ==> i in calls && WaitOf(cfg, calls[i], waits[i]))
    && (i in calls && i !in waits ==>
          calls[i].state != CallWaiting && (calls[i].state == CallCompleted ==> !IsWait(cfg, calls[i].tool)))
  }

  /** A wait belongs to a call of a wait tool, and such a call is completed by its decision. */
  ghost predicate Waits(cfg: Config, calls: map<nat, CallRow>, waits: map<nat, WaitRow>) {
    forall i: nat {:trigger WaitAt(cfg, calls, waits, i)} :: WaitAt(cfg, calls, waits, i)
  }

  ghost predicate Undecided(waits: map<nat, WaitRow>, n: nat) {
    n > 0 && n - 1 in waits && waits[n - 1].decision.None?
  }

  predicate MayBlock(r: BlockReason) {
    r == ManualRecovery || r == LookupInvalid || r == LookupUnknown || r == BadDefinition
  }

  ghost predicate StatusOk(cfg: Config, rows: Rows, n: nat) {
    match rows.status
    case Active => !Undecided(rows.waits, n)
    case Waiting => Undecided(rows.waits, n)
    case Completed => AllComplete(rows.calls, n) && cfg.guest(Outcomes(rows.calls, n)) == Returns(rows.outcome)
    case Failed => AllComplete(rows.calls, n) && cfg.guest(Outcomes(rows.calls, n)) == Raises(rows.outcome, rows.reason)
    case Cancelled => true
    case Blocked => exists r :: MayBlock(r) && rows.reason == ReasonText(r)
  }

  ghost predicate RowsOk(cfg: Config, rows: Rows) {
    && Path(cfg, rows.definition.id, rows.calls, Count(rows))
    && Waits(cfg, rows.calls, rows.waits)
    && StatusOk(cfg, rows, Count(rows))
    && WithinLimit(rows)
  }

  lemma CountIs(rows: Rows, n: nat)
    requires forall i: nat :: i in rows.calls <==> i < n
    ensures Count(rows) == n
  {
    if n > 0 { assert n - 1 in rows.calls.Keys; }
    if Count(rows) > 0 { assert Count(rows) - 1 in rows.calls; }
  }

  /** The table has the rows below its count. */
  lemma Numbered(cfg: Config, rows: Rows)
    requires Path(cfg, rows.definition.id, rows.calls, Count(rows))
    ensures forall i: nat :: i in rows.calls <==> i < Count(rows)
  {
    forall i: nat ensures i in rows.calls <==> i < Count(rows) {
      assert PathAt(cfg, rows.definition.id, rows.calls, Count(rows), i);
    }
  }

  // ----------------------------------------------------------------- changes to the table

  /** A table with other rows from `n` on, and the same outcomes and calls before. */
  ghost predicate Extends(a: map<nat, CallRow>, b: map<nat, CallRow>, n: nat) {
    forall i: nat {:trigger SameRow(a, b, i)} :: i < n ==> SameRow(a, b, i)
  }

  predicate SameRow(a: map<nat, CallRow>, b: map<nat, CallRow>, i: nat) {
    i in a && i in b && a[i] == b[i]
  }

  lemma {:induction false} OutcomesExtend(a: map<nat, CallRow>, b: map<nat, CallRow>, n: nat, k: nat)
    requires Extends(a, b, n) && k <= n
    ensures Outcomes(a, k) == Outcomes(b, k)
    decreases k
  {
    if k > 0 {
      assert SameRow(a, b, k - 1);
      OutcomesExtend(a, b, n, k - 1);
    }
  }

  lemma PathExtends(cfg: Config, runId: string, calls: map<nat, CallRow>, n: nat, row: CallRow)
    requires Path(cfg, runId, calls, n) && AllComplete(calls, n)
    requires row.callId == CallId(n) && row.operationKey == OperationKey(runId, n)
    requires cfg.guest(Outcomes(calls, n)) == Calls(row.tool, row.arguments)
    ensures Path(cfg, runId, calls[n := row], n + 1)
    ensures Outcomes(calls[n := row], n) == Outcomes(calls, n)
  {
    var calls' := calls[n := row];
    forall i: nat | i < n ensures SameRow(calls, calls', i) { assert PathAt(cfg, runId, calls, n, i); }
    OutcomesExtend(calls, calls', n, n);
    var m := n + 1;
    forall i: nat ensures PathAt(cfg, runId, calls', m, i) {
      assert PathAt(cfg, runId, calls, n, i) && (i < n ==> IsComplete(calls, i));
      if i <= n { OutcomesExtend(calls, calls', n, i); }
    }
  }

  /** The last row may change its state and its outcome. */
  lemma PathKeepsLast(cfg: Config, runId: string, calls: map<nat, CallRow>, k: nat, row: CallRow)
    requires Path(cfg, runId, calls, k + 1)
    requires k in calls && row == calls[k].(state := row.state, outcome := row.outcome)
    ensures Path(cfg, runId, calls[k := row], k + 1)
    ensures Outcomes(calls[k := row], k) == Outcomes(calls, k)
  {
    var calls' := calls[k := row];
    forall i: nat | i < k ensures SameRow(calls, calls', i) { assert PathAt(cfg, runId, calls, k + 1, i); }
    var m := k + 1;
    forall i: nat ensures PathAt(cfg, runId, calls', m, i) {
      assert PathAt(cfg, runId, calls, m, i);
      if i <= k { OutcomesExtend(calls, calls', k, i); }
    }
    OutcomesExtend(calls, calls', k, k);
  }

  /** A completed call goes from the open one to all complete. */
  lemma CompleteTo(calls: map<nat, CallRow>, k: nat)
    requires AllComplete(calls, k) && IsComplete(calls, k)
    ensures AllComplete(calls, k + 1)
    ensures Outcomes(calls, k + 1) == Outcomes(calls, k) + [calls[k].outcome]
  {
  }

  lemma WaitsPut(cfg: Config, calls: map<nat, CallRow>, waits: map<nat, WaitRow>, k: nat, row: CallRow, waits': map<nat, WaitRow>)
    requires Waits(cfg, calls, waits)
    requires forall i: nat :: i != k ==> (i in waits' <==> i in waits) && (i in waits ==> waits'[i] == waits[i])
    requires WaitAt(cfg, calls[k := row], waits', k)
    ensures Waits(cfg, calls[k := row], waits')
  {
    var calls' := calls[k := row];
    forall i: nat ensures WaitAt(cfg, calls', waits', i) { assert WaitAt(cfg, calls, waits, i); }
  }

  // --------------------------------------------------------------------- transactions

  /** A call that the Guest makes now, and that is not in the table, extends the path. */
  lemma BeginExtends(cfg: Config, rows: Rows, call: LoggedCall)
    requires RowsOk(cfg, rows)
    requires call.sequence == Count(rows) && AllComplete(rows.calls, call.sequence)
    requires call == Logged(call.sequence, call.capability, call.arguments)
    requires cfg.guest(Outcomes(rows.calls, call.sequence)) == Calls(call.capability, call.arguments)
    ensures var (r, rows') := BeginCall(rows, call);
      && RowsOk(cfg, rows')
      && (r.Err? ==> !r.error.HistoryMismatch? && rows' == rows)
      && (r.Ok? ==>
            && r.value.1 && r.value.0.state == CallPending && rows.status == Active
            && rows' == rows.(calls := rows.calls[call.sequence := r.value.0])
            && call.sequence !in rows.calls && Count(rows') == call.sequence + 1
            && Outcomes(rows'.calls, call.sequence) == Outcomes(rows.calls, call.sequence))
  {
    Numbered(cfg, rows);
    var (r, rows') := BeginCall(rows, call);
    BeginCallBounded(rows, call);
    if r.Ok? {
      var n := call.sequence;
      PathExtends(cfg, rows.definition.id, rows.calls, n, r.value.0);
      assert WaitAt(cfg, rows.calls, rows.waits, n);
      WaitsPut(cfg, rows.calls, rows.waits, n, r.value.0, rows.waits);
      CountIs(rows', n + 1);
    }
  }

  /** A call that the Guest makes now, and that is in the table, is the one in the table. */
  lemma BeginFinds(cfg: Config, rows: Rows, call: LoggedCall)
    requires RowsOk(cfg, rows)
    requires call.sequence < Count(rows)
    requires call == Logged(call.sequence, call.capability, call.arguments)
    requires cfg.guest(Outcomes(rows.calls, call.sequence)) == Calls(call.capability, call.arguments)
    ensures call.sequence in rows.calls
    ensures var (r, rows') := BeginCall(rows, call);
      && rows' == rows
      && (r.Err? ==> r.error == Conflict)
      && (r.Ok? ==> r.value == (rows.calls[call.sequence], false))
      && rows.calls[call.sequence].tool == call.capability
      && rows.calls[call.sequence].arguments == call.arguments
  {
    assert PathAt(cfg, rows.definition.id, rows.calls, Count(rows), call.sequence);
  }

  /** The rows before the last are complete. */
  lemma BeforeLast(cfg: Config, rows: Rows, k: nat)
    requires RowsOk(cfg, rows) && k + 1 == Count(rows)
    ensures AllComplete(rows.calls, k) && k in rows.calls
    ensures forall i: nat :: i in rows.calls <==> i <= k
  {
    Numbered(cfg, rows);
    forall i: nat | i < k ensures IsComplete(rows.calls, i) {
      assert PathAt(cfg, rows.definition.id, rows.calls, Count(rows), i);
    }
  }

  /** Completing the open call keeps the path: nothing after it depends on its outcome yet. */
  lemma CompleteKeeps(cfg: Config, rows: Rows, k: nat, outcome: Bytes)
    requires RowsOk(cfg, rows) && k + 1 == Count(rows) && k in rows.calls && rows.calls[k].state != CallCompleted
    requires IsWait(cfg, rows.calls[k].tool) ==>
      k in rows.waits && rows.waits[k].decision.Some? && outcome == cfg.wire(rows.waits[k].decision.value)
    requires rows.status != Completed && rows.status != Failed
    ensures var (r, rows') := CompleteCall(rows, k, outcome);
      && RowsOk(cfg, rows')
      && (r.Err? ==> rows' == rows)
      && (r.Ok? ==>
            && r.value == outcome && Count(rows') == k + 1 && AllComplete(rows'.calls, k + 1)
            && Outcomes(rows'.calls, k + 1) == Outcomes(rows.calls, k) + [outcome]
            && rows' == rows.(calls := rows.calls[k := rows.calls[k].(state := CallCompleted, outcome := outcome)]))
  {
    var (r, rows') := CompleteCall(rows, k, outcome);
    CompleteCallBounded(rows, k, outcome);
    if r.Ok? {
      var row := rows.calls[k].(state := CallCompleted, outcome := outcome);
      BeforeLast(cfg, rows, k);
      PathKeepsLast(cfg, rows.definition.id, rows.calls, k, row);
      assert WaitAt(cfg, rows.calls, rows.waits, k);
      WaitsPut(cfg, rows.calls, rows.waits, k, row, rows.waits);
      CountIs(rows', k + 1);
      KeepsComplete(rows.calls, k, row);
      CompleteTo(rows'.calls, k);
    }
  }

  lemma KeepsComplete(calls: map<nat, CallRow>, k: nat, row: CallRow)
    requires AllComplete(calls, k)
    ensures AllComplete(calls[k := row], k)
  {
    var calls' := calls[k := row];
    forall i: nat | i < k ensures IsComplete(calls', i) { assert IsComplete(calls, i); }
  }

  lemma EnsureKeeps(cfg: Config, rows: Rows, k: nat, spec: WaitSpec)
    requires RowsOk(cfg, rows) && k + 1 == Count(rows) && k in rows.calls && rows.calls[k].state != CallCompleted
    requires IsWait(cfg, rows.calls[k].tool)
    ensures var (r, rows') := EnsureWait(rows, k, spec);
      && RowsOk(cfg, rows')
      && (r.Err? ==> rows' == rows)
      && (r.Ok? ==>
            && k in rows'.waits && rows'.waits[k] == r.value && Count(rows') == k + 1
            && rows'.definition == rows.definition && rows'.status in {rows.status, Waiting}
            && (exists state :: state != CallCompleted && rows' == rows.(
                  status := rows'.status, waits := rows'.waits,
                  calls := rows.calls[k := rows.calls[k].(state := state)])))
  {
    var (r, rows') := EnsureWait(rows, k, spec);
    EnsureWaitBounded(rows, k, spec);
    assert rows.calls == rows.calls[k := rows.calls[k].(state := rows.calls[k].state)];
    if r.Ok? && k !in rows.waits {
      var row := rows.calls[k].(state := CallWaiting);
      BeforeLast(cfg, rows, k);
      PathKeepsLast(cfg, rows.definition.id, rows.calls, k, row);
      WaitsPut(cfg, rows.calls, rows.waits, k, row, rows'.waits);
      CountIs(rows', k + 1);
    }
  }

  /** An undecided wait belongs to the last call. */
  lemma UndecidedIsLast(cfg: Config, rows: Rows, k: nat)
    requires RowsOk(cfg, rows) && k in rows.waits && rows.waits[k].decision.None?
    ensures k + 1 == Count(rows) && k in rows.calls && rows.calls[k].state != CallCompleted && IsWait(cfg, rows.calls[k].tool)
  {
    assert WaitAt(cfg, rows.calls, rows.waits, k);
    assert PathAt(cfg, rows.definition.id, rows.calls, Count(rows), k);
  }

  /** A decision is about the last call, or repeats one that was made; nothing else changes. */
  lemma ResolveKeeps(cfg: Config, rows: Rows, k: nat, decision: Decision)
    requires RowsOk(cfg, rows)
    ensures var (r, rows') := ResolveWait(rows, k, decision);
      && RowsOk(cfg, rows')
      && rows'.calls == rows.calls && rows'.definition == rows.definition
      && rows'.waits.Keys == rows.waits.Keys
      && (forall i :: i in rows.waits ==>
            rows'.waits[i].spec == rows.waits[i].spec
            && (rows.waits[i].decision.Some? ==> rows'.waits[i] == rows.waits[i]))
      && (r.Ok? ==> k in rows'.waits && rows'.waits[k].decision == Some(decision))
      && rows'.status in {rows.status, Active} && (rows'.status != rows.status ==> rows.status == Waiting)
      && rows'.outcome == rows.outcome && rows'.reason == rows.reason
  {
    ResolveWaitBounded(rows, k, decision);
    var (r, rows') := ResolveWait(rows, k, decision);
    if r.Ok? && rows.waits[k].decision.None? {
      UndecidedIsLast(cfg, rows, k);
      assert WaitAt(cfg, rows.calls, rows.waits, k);
      assert rows.calls[k := rows.calls[k]] == rows.calls;
      WaitsPut(cfg, rows.calls, rows.waits, k, rows.calls[k], rows'.waits);
    }
  }

  /** What a status change must bring with it. */
  lemma SetStateKeeps(cfg: Config, rows: Rows, status: Status, outcome: Bytes, reason: string)
    requires RowsOk(cfg, rows)
    requires status == Cancelled
      || (status == Blocked && exists r :: MayBlock(r) && reason == ReasonText(r))
      || (status == Completed && AllComplete(rows.calls, Count(rows))
          && cfg.guest(Outcomes(rows.calls, Count(rows))) == Returns(outcome))
      || (status == Failed && AllComplete(rows.calls, Count(rows))
          && cfg.guest(Outcomes(rows.calls, Count(rows))) == Raises(outcome, reason))
    ensures var (r, rows') := SetState(rows, status, outcome, reason);
      && RowsOk(cfg, rows')
      && rows'.calls == rows.calls && rows'.waits == rows.waits && rows'.definition == rows.definition
  {
    SetStateBounded(rows, status, outcome, reason);
  }
}
