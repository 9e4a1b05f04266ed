/**
 The payload limit of the durable store: the increments that admit a transaction bound the true
 growth of the recomputed sum, so no committed transaction takes a run above 64 MiB; and the
 keys that the store derives from a run and a sequence number are unique over all runs.
 */
module DurablePayload {
  import opened Options
  import opened DurableStore

  // ------------------------------------------------------------------- sums of sizes

  lemma NextOfInsert(keys: set<nat>, k: nat)
    ensures k in keys ==> NextOf(keys + {k}) == NextOf(keys)
    ensures k >= NextOf(keys) ==> NextOf(keys + {k}) == k + 1
    ensures NextOf(keys) <= NextOf(keys + {k})
  {
    if k in keys { assert keys + {k} == keys; }
    var n, n' := NextOf(keys), NextOf(keys + {k});
    if n > 0 { assert n - 1 in keys + {k}; }
    assert k in keys + {k};
  }

  lemma {:induction false} CallsSizePad(calls: map<nat, CallRow>, n: nat)
    requires NextOf(calls.Keys) <= n
    ensures CallsSize(calls, n) == CallsSize(calls, NextOf(calls.Keys))
  {
    if NextOf(calls.Keys) < n { CallsSizePad(calls, n - 1); }
  }

  lemma {:induction false} CallsSizeUpdate(calls: map<nat, CallRow>, n: nat, k: nat, row: CallRow)
    ensures k >= n ==> CallsSize(calls[k := row], n) == CallsSize(calls, n)
    ensures k < n ==>
      CallsSize(calls[k := row], n) + (if k in calls then CallSize(calls[k]) else 0)
      == CallsSize(calls, n) + CallSize(row)
  {
    if n > 0 { CallsSizeUpdate(calls, n - 1, k, row); }
  }

  lemma CallsSizeSet(calls: map<nat, CallRow>, k: nat, row: CallRow)
    ensures var calls' := calls[k := row];
      CallsSize(calls', NextOf(calls'.Keys)) + (if k in calls then CallSize(calls[k]) else 0)
      == CallsSize(calls, NextOf(calls.Keys)) + CallSize(row)
  {
    var calls' := calls[k := row];
    assert calls'.Keys == calls.Keys + {k};
    NextOfInsert(calls.Keys, k);
    var n := NextOf(calls'.Keys);
    CallsSizePad(calls, n);
    CallsSizeUpdate(calls, n, k, row);
  }

  lemma {:induction false} WaitsSizePad(runId: string, waits: map<nat, WaitRow>, n: nat)
    requires NextOf(waits.Keys) <= n
    ensures WaitsSize(runId, waits, n) == WaitsSize(runId, waits, NextOf(waits.Keys))
  {
    if NextOf(waits.Keys) < n { WaitsSizePad(runId, waits, n - 1); }
  }

  lemma {:induction false} WaitsSizeUpdate(runId: string, waits: map<nat, WaitRow>, n: nat, k: nat, row: WaitRow)
    ensures k >= n ==> WaitsSize(runId, waits[k := row], n) == WaitsSize(runId, waits, n)
    ensures k < n ==>
      WaitsSize(runId, waits[k := row], n) + (if k in waits then WaitSize(runId, k, waits[k]) else 0)
      == WaitsSize(runId, waits, n) + WaitSize(runId, k, row)
  {
    if n > 0 { WaitsSizeUpdate(runId, waits, n - 1, k, row); }
  }

  lemma WaitsSizeSet(runId: string, waits: map<nat, WaitRow>, k: nat, row: WaitRow)
    ensures var waits' := waits[k := row];
      WaitsSize(runId, waits', NextOf(waits'.Keys)) + (if k in waits then WaitSize(runId, k, waits[k]) else 0)
      == WaitsSize(runId, waits, NextOf(waits.Keys)) + WaitSize(runId, k, row)
  {
    var waits' := waits[k := row];
    assert waits'.Keys == waits.Keys + {k};
    NextOfInsert(waits.Keys, k);
    var n := NextOf(waits'.Keys);
    WaitsSizePad(runId, waits, n);
    WaitsSizeUpdate(runId, waits, n, k, row);
  }

  // -------------------------------------------------------------- every transaction

  ghost predicate WithinLimit(rows: Rows) {
    PayloadSize(rows) <= MAX_RUN_PAYLOAD
  }

  /** A new call grows the sum by exactly the size that was admitted. */
  lemma BeginCallBounded(rows: Rows, call: LoggedCall)
    requires WithinLimit(rows)
    ensures var (r, rows') := BeginCall(rows, call);
      && WithinLimit(rows')
      && (r.Ok? && r.value.1 ==>
            PayloadSize(rows') == PayloadSize(rows) + LoggedSize(call, OperationKey(rows.definition.id, call.sequence)))
      && (r.Err? || !r.value.1 ==> rows' == rows)
  {
    var record := CallRow(call.callId, call.capability, OperationKey(rows.definition.id, call.sequence), CallPending, call.arguments, "");
    CallsSizeSet(rows.calls, call.sequence, record);
  }

  /** An outcome grows the sum by at most the replacement increase. */
  lemma CompleteCallBounded(rows: Rows, sequence: nat, outcome: Bytes)
    requires WithinLimit(rows)
    ensures var (r, rows') := CompleteCall(rows, sequence, outcome);
      && WithinLimit(rows')
      && (sequence in rows.calls ==>
            PayloadSize(rows') <= PayloadSize(rows) + ReplacementIncrease(rows.calls[sequence].outcome, outcome, "", ""))
      && (r.Err? ==> rows' == rows)
  {
    if sequence in rows.calls {
      CallsSizeSet(rows.calls, sequence, rows.calls[sequence].(state := CallCompleted, outcome := outcome));
    }
  }

  lemma EnsureWaitBounded(rows: Rows, sequence: nat, spec: WaitSpec)
    requires WithinLimit(rows)
    ensures var (r, rows') := EnsureWait(rows, sequence, spec);
      && WithinLimit(rows')
      && (r.Ok? && sequence !in rows.waits ==>
            PayloadSize(rows') == PayloadSize(rows) + NewWaitSize(rows.definition.id, sequence, spec))
      && (r.Err? || sequence in rows.waits ==> rows' == rows)
  {
    if sequence in rows.calls {
      CallsSizeSet(rows.calls, sequence, rows.calls[sequence].(state := CallWaiting));
      WaitsSizeSet(rows.definition.id, rows.waits, sequence, WaitRow(spec, None));
    }
  }

  lemma ResolveWaitBounded(rows: Rows, sequence: nat, decision: Decision)
    requires WithinLimit(rows)
    ensures var (r, rows') := ResolveWait(rows, sequence, decision);
      && WithinLimit(rows')
      && (r.Ok? && sequence in rows.waits && rows.waits[sequence].decision.None? ==>
            PayloadSize(rows') == PayloadSize(rows) + |decision.result| + |decision.error|)
      && (r.Err? ==> rows' == rows)
  {
    if sequence in rows.waits {
      WaitsSizeSet(rows.definition.id, rows.waits, sequence, rows.waits[sequence].(decision := Some(decision)));
    }
  }

  lemma SetStateBounded(rows: Rows, status: Status, outcome: Bytes, reason: string)
    requires WithinLimit(rows)
    ensures var (r, rows') := SetState(rows, status, outcome, reason);
      && WithinLimit(rows')
      && PayloadSize(rows') <= PayloadSize(rows) + ReplacementIncrease(rows.outcome, outcome, rows.reason, reason)
      && (r.Err? ==> rows' == rows)
  {
  }

  lemma NewRunBounded(d: Definition)
    ensures PayloadSize(NewRun(d)) == DefinitionSize(d)
  {
  }

  // ---------------------------------------------------------------------- unique keys

  lemma {:induction false} DecimalDigits(n: nat)
    ensures |Decimal(n)| > 0
    ensures forall i :: 0 <= i < |Decimal(n)| ==> '0' <= Decimal(n)[i] <= '9'
  {
    if n >= 10 { DecimalDigits(n / 10); }
  }

  lemma DigitsDiffer(a: nat, b: nat)
    requires a < 10 && b < 10 && DIGITS[a] == DIGITS[b]
    ensures a == b
  {
  }

  lemma {:induction false} DecimalInjective(a: nat, b: nat)
    requires Decimal(a) == Decimal(b)
    ensures a == b
  {
    DecimalDigits(a / 10);
    DecimalDigits(b / 10);
    var da, db := Decimal(a), Decimal(b);
    assert da[|da| - 1] == DIGITS[a % 10] && db[|db| - 1] == DIGITS[b % 10];
    DigitsDiffer(a % 10, b % 10);
    if a >= 10 && b >= 10 {
      assert da[..|da| - 1] == Decimal(a / 10) && db[..|db| - 1] == Decimal(b / 10);
      DecimalInjective(a / 10, b / 10);
    }
  }

  /** The part after the last slash is decimal, so it starts right after that slash. */
  lemma AfterLastSlash(x: string, a: nat, y: string, b: nat)
    requires x + "/" + Decimal(a) == y + "/" + Decimal(b)
    ensures x == y && Decimal(a) == Decimal(b)
  {
    DecimalDigits(a);
    DecimalDigits(b);
    var s := x + "/" + Decimal(a);
    assert s[|x|] == '/' && s[|y|] == '/';
    assert s[|x| + 1..] == Decimal(a) && s[|y| + 1..] == Decimal(b);
    assert s[..|x|] == x && s[..|y|] == y;
  }

  /**
   Two calls of any two runs share an operation key only if they are the same call, and
   likewise for waits: the unique columns of the tables never refuse a row of another run.
   */
  lemma KeysAreUnique(r1: string, s1: nat, r2: string, s2: nat)
    ensures OperationKey(r1, s1) == OperationKey(r2, s2) ==> r1 == r2 && s1 == s2
    ensures WaitKey(r1, s1) == WaitKey(r2, s2) ==> r1 == r2 && s1 == s2
  {
    if OperationKey(r1, s1) == OperationKey(r2, s2) {
      AfterLastSlash(r1, s1, r2, s2);
      DecimalInjective(s1, s2);
    }
    if WaitKey(r1, s1) == WaitKey(r2, s2) {
      assert WaitKey(r1, s1) == (r1 + "/wait") + "/" + Decimal(s1);
      assert WaitKey(r2, s2) == (r2 + "/wait") + "/" + Decimal(s2);
      AfterLastSlash(r1 + "/wait", s1, r2 + "/wait", s2);
      assert (r1 + "/wait")[..|r1|] == r1 && (r2 + "/wait")[..|r2|] == r2;
      DecimalInjective(s1, s2);
    }
  }
}
