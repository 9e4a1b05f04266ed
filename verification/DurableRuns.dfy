/**
 The invariant of a durable run, including what an attempt in progress knows and what has
 reached the tools, is kept by every action; so it holds after every history.
 */
module DurableRuns {
  import opened DurableStore
  import opened DurableProtocol
  import opened DurableInvariant

  // ------------------------------------------------------------------ what reached the tools

  ghost function Dispatches(events: seq<Event>, k: nat): nat {
    if events == [] then 0
    else
      var e := events[|events| - 1];
      Dispatches(events[..|events| - 1], k) + if e.Dispatched? && e.sequence == k then 1 else 0
  }

  ghost function SafeReports(events: seq<Event>, k: nat): nat {
    if events == [] then 0
    else
      var e := events[|events| - 1];
      SafeReports(events[..|events| - 1], k) + if e.ReportedSafe? && e.sequence == k then 1 else 0
  }

  lemma OneMoreEvent(events: seq<Event>, e: Event, k: nat)
    ensures Dispatches(events + [e], k) == Dispatches(events, k) + if e.Dispatched? && e.sequence == k then 1 else 0
    ensures SafeReports(events + [e], k) == SafeReports(events, k) + if e.ReportedSafe? && e.sequence == k then 1 else 0
  {
    assert (events + [e])[..|events|] == events;
  }

  lemma {:induction false} NoEventsYet(events: seq<Event>, k: nat)
    requires forall e :: e in events ==> e.sequence < k
    ensures Dispatches(events, k) == 0 && SafeReports(events, k) == 0
  {
    if events != [] { NoEventsYet(events[..|events| - 1], k); }
  }

  predicate HasMode(cfg: Config, tool: string, mode: Mode) {
    tool in cfg.tools && cfg.tools[tool] == mode
  }

  /** A dispatch carries the tool, the arguments and the operation key of its row. */
  ghost predicate EventOk(cfg: Config, rows: Rows, e: Event) {
    && e.sequence in rows.calls
    && (e.Dispatched? ==>
          && !IsWait(cfg, e.tool)
          && e.tool == rows.calls[e.sequence].tool
          && e.arguments == rows.calls[e.sequence].arguments
          && e.key == OperationKey(rows.definition.id, e.sequence))
  }

  /** A manual call is sent once; a lookup call again only after each report that it is safe. */
  ghost predicate SentOk(cfg: Config, tool: string, dispatches: nat, safe: nat) {
    && (HasMode(cfg, tool, Manual) ==> dispatches <= 1)
    && (HasMode(cfg, tool, Lookup) ==> dispatches <= 1 + safe)
  }

  ghost predicate SentAt(cfg: Config, rows: Rows, events: seq<Event>, k: nat) {
    k in rows.calls ==> SentOk(cfg, rows.calls[k].tool, Dispatches(events, k), SafeReports(events, k))
  }

  ghost predicate EventsOk(cfg: Config, rows: Rows, events: seq<Event>) {
    && (forall e {:trigger EventOk(cfg, rows, e)} :: e in events ==> EventOk(cfg, rows, e))
    && (forall k: nat {:trigger SentAt(cfg, rows, events, k)} :: SentAt(cfg, rows, events, k))
  }

  /** One more dispatch of call `k` is allowed. */
  ghost predicate MaySend(cfg: Config, events: seq<Event>, tool: string, k: nat) {
    SentOk(cfg, tool, Dispatches(events, k) + 1, SafeReports(events, k))
  }

  // ------------------------------------------------------------ what an attempt knows

  predicate IsRead(calls: map<nat, CallRow>, r: Record, k: nat) {
    k in calls && calls[k].state == CallCompleted && r == Record(k, calls[k])
  }

  predicate ReadAt(calls: map<nat, CallRow>, window: seq<Record>, k: nat, i: nat) {
    i < |window| ==> IsRead(calls, window[i], k + i)
  }

  /** The window holds completed rows of the table, from `k` on without a gap. */
  ghost predicate WindowOk(calls: map<nat, CallRow>, window: seq<Record>, k: nat) {
    forall i: nat {:trigger ReadAt(calls, window, k, i)} :: ReadAt(calls, window, k, i)
  }

  ghost predicate Current(cfg: Config, a: Attempt, call: LoggedCall) {
    && call == Logged(|a.responses|, call.capability, call.arguments)
    && cfg.guest(a.responses) == Calls(call.capability, call.arguments)
    && a.journal.sequence == |a.responses| + 1
  }

  /** The call of the attempt is reserved, and its row is the open one at the end of the table. */
  ghost predicate Reserved(cfg: Config, rows: Rows, a: Attempt, call: LoggedCall) {
    && Current(cfg, a, call) && a.journal.history == []
    && Count(rows) == call.sequence + 1
    && call.sequence in rows.calls && rows.calls[call.sequence].state != CallCompleted
    && rows.calls[call.sequence].tool == call.capability
    && rows.calls[call.sequence].arguments == call.arguments
  }

  ghost predicate KnowsWait(rows: Rows, call: LoggedCall, wait: WaitRow) {
    && call.sequence in rows.waits
    && rows.waits[call.sequence].spec == wait.spec
    && (wait.decision.Some? ==> rows.waits[call.sequence].decision == wait.decision)
  }

  /** The attempt is between two calls, or about to make one. */
  ghost predicate Reads(rows: Rows, a: Attempt) {
    && WindowOk(rows.calls, a.journal.history, |a.responses|)
    && (a.journal.live ==> a.journal.history == [])
  }

  /** A call of the attempt is reserved and not complete. */
  predicate HoldsCall(phase: Phase) {
    || phase.Dispatching? || phase.AwaitingReply? || phase.LookingUp? || OnWait(phase) || phase.Completing?
  }

  predicate OnWait(phase: Phase) {
    || phase.GettingWait? || phase.DeclaringWait? || phase.EnsuringWait?
    || phase.CheckingWait? || phase.ExpiringWait? || phase.RecheckingWait?
  }

  ghost predicate PhaseOk(cfg: Config, rows: Rows, events: seq<Event>, a: Attempt) {
    && (HoldsCall(a.phase) ==> Reserved(cfg, rows, a, a.phase.call))
    && (OnWait(a.phase) ==> IsWait(cfg, a.phase.call.capability))
    && (a.phase.Registered? || a.phase.Running? || a.phase.Asking? ==> Reads(rows, a))
    && (a.phase.Asking? || a.phase.Beginning? ==> Current(cfg, a, a.phase.call))
    && StageOk(cfg, rows, events, a)
  }

  ghost predicate StageOk(cfg: Config, rows: Rows, events: seq<Event>, a: Attempt) {
    match a.phase
    case Opening(_) => a.responses == [] && a.journal == Journal(0, [], false)
    case Registered => a.journal.sequence == |a.responses|
    case Running => a.journal.sequence == |a.responses|
    case Beginning(_) => a.journal.history == []
    case Dispatching(call) => !IsWait(cfg, call.capability) && MaySend(cfg, events, call.capability, call.sequence)
    case AwaitingReply(call) => !IsWait(cfg, call.capability)
    case LookingUp(call) => HasMode(cfg, call.capability, Lookup)
    case CheckingWait(call, wait) => KnowsWait(rows, call, wait)
    case ExpiringWait(call) => call.sequence in rows.waits
    case RecheckingWait(call) => call.sequence in rows.waits
    case Completing(call, response) =>
      IsWait(cfg, call.capability) ==>
        call.sequence in rows.waits && rows.waits[call.sequence].decision.Some?
        && response == cfg.wire(rows.waits[call.sequence].decision.value)
    case Leaving(cause) => CauseOk(cfg, a, cause)
    case Closing(step) => CauseOk(cfg, a, GuestEnded(step))
    case Storing(step) => CauseOk(cfg, a, GuestEnded(step)) && Count(rows) == |a.responses|
    case Blocking(reason) => MayBlock(reason)
    case _ => true
  }

  ghost predicate CauseOk(cfg: Config, a: Attempt, cause: Cause) {
    && (cause.GuestEnded? ==>
          !cause.step.Calls? && cfg.guest(a.responses) == cause.step && a.journal.sequence == |a.responses|)
    && (cause.Refused? ==> MayBlock(cause.reason))
  }

  /** Past the opening, only a cancellation can have ended the run. */
  ghost predicate AttemptOk(cfg: Config, rows: Rows, events: seq<Event>, a: Attempt) {
    && a.responses == Outcomes(rows.calls, |a.responses|)
    && AllComplete(rows.calls, |a.responses|)
    && (!a.phase.Opening? && !a.phase.Rejecting? ==> rows.status in {Active, Waiting, Cancelled})
    && PhaseOk(cfg, rows, events, a)
  }

  ghost predicate AnswerOk(cfg: Config, rows: Rows, answer: Answer) {
    match answer
    case Finished(output) => rows.status == Completed && rows.outcome == output
    case PythonFailed(output, message) => rows.status == Failed && rows.outcome == output && rows.reason == message
    case WasCancelled => rows.status == Cancelled
    case _ => true
  }

  ghost predicate Inv(cfg: Config, sys: System) {
    && RowsOk(cfg, sys.rows)
    && EventsOk(cfg, sys.rows, sys.events)
    && (sys.attempt.Some? ==> AttemptOk(cfg, sys.rows, sys.events, sys.attempt.value))
    && (sys.answer.Some? ==> AnswerOk(cfg, sys.rows, sys.answer.value))
  }

  // --------------------------------------------------------------------- the read-ahead

  lemma {:induction false} WindowIsCompleted(calls: map<nat, CallRow>, start: nat, k: nat, size: nat)
    requires start <= k <= start + WINDOW
    ensures WindowOk(calls, ReadFrom(calls, start, k, size), k)
    ensures k < start + WINDOW ==>
      (ReadFrom(calls, start, k, size) != [] <==> k in calls && calls[k].state == CallCompleted)
    ensures |ReadFrom(calls, start, k, size)| <= start + WINDOW - k
    decreases start + WINDOW - k
  {
    if k < start + WINDOW && k in calls && calls[k].state == CallCompleted {
      var size' := size + |calls[k].arguments| + |calls[k].outcome|;
      WindowIsCompleted(calls, start, k + 1, size');
      var rest := if size' >= WINDOW_BYTES then [] else ReadFrom(calls, start, k + 1, size');
      assert ReadFrom(calls, start, k, size) == [Record(k, calls[k])] + rest;
      WindowGrows(calls, rest, [Record(k, calls[k])] + rest, k);
    }
  }

  lemma WindowGrows(calls: map<nat, CallRow>, rest: seq<Record>, window: seq<Record>, k: nat)
    requires WindowOk(calls, rest, k + 1) && k in calls && calls[k].state == CallCompleted
    requires window == [Record(k, calls[k])] + rest
    ensures WindowOk(calls, window, k)
  {
    forall i: nat ensures ReadAt(calls, window, k, i) {
      if i > 0 { assert ReadAt(calls, rest, k + 1, i - 1); }
    }
  }

  lemma WindowTail(calls: map<nat, CallRow>, window: seq<Record>, rest: seq<Record>, k: nat)
    requires WindowOk(calls, window, k) && window != [] && rest == window[1..]
    ensures IsRead(calls, window[0], k) && WindowOk(calls, rest, k + 1)
  {
    assert ReadAt(calls, window, k, 0);
    var next := k + 1;
    forall i: nat ensures ReadAt(calls, rest, next, i) { assert ReadAt(calls, window, k, i + 1); }
  }

  lemma WindowKept(calls: map<nat, CallRow>, calls': map<nat, CallRow>, window: seq<Record>, k: nat)
    requires WindowOk(calls, window, k)
    requires forall i :: i in calls && calls[i].state == CallCompleted ==> i in calls' && calls'[i] == calls[i]
    ensures WindowOk(calls', window, k)
  {
    forall i: nat ensures ReadAt(calls', window, k, i) { assert ReadAt(calls, window, k, i); }
  }
}
