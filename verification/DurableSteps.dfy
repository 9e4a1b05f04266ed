/**
 Every step of an attempt, and everything that can happen to it from outside, keeps the
 invariant of the run.
 */
module DurableSteps {
  import opened Options
  import opened DurableStore
  import opened DurableProtocol
  import opened DurableInvariant
  import opened DurableRuns

  // ------------------------------------------------------------- nothing stored changes

  /** The next attempt state, when the step leaves rows and events alone. */
  lemma Moves(cfg: Config, sys: System, a: Attempt, phase: Phase, sys': System)
    requires Inv(cfg, sys) && AttemptOk(cfg, sys.rows, sys.events, a.(phase := phase))
    requires sys' == At(sys, a, phase)
    ensures Inv(cfg, sys')
  {
  }

  /** The Guest stops for a reason that is not its own end. */
  lemma Stops(cfg: Config, sys: System, a: Attempt, cause: Cause, sys': System)
    requires Inv(cfg, sys) && sys.attempt == Some(a) && !a.phase.Opening? && !a.phase.Rejecting?
    requires !cause.GuestEnded? && (cause.Refused? ==> MayBlock(cause.reason))
    requires sys' == At(sys, a, Leaving(cause))
    ensures Inv(cfg, sys')
  {
  }

  /** The next state, when a transaction commits other rows. */
  lemma Commits(cfg: Config, sys: System, rows: Rows, a: Attempt, phase: Phase, sys': System)
    requires RowsOk(cfg, rows) && EventsOk(cfg, rows, sys.events)
    requires AttemptOk(cfg, rows, sys.events, a.(phase := phase))
    requires sys.answer.Some? ==> AnswerOk(cfg, sys.rows, sys.answer.value)
    requires StatusMoves(sys.rows, rows)
    requires sys' == At(sys.(rows := rows), a, phase)
    ensures Inv(cfg, sys')
  {
  }

  lemma Responds(cfg: Config, sys: System, a: Attempt, sys': System)
    requires Inv(cfg, sys) && AllComplete(sys.rows.calls, |a.responses|)
    requires a.responses == Outcomes(sys.rows.calls, |a.responses|)
    requires sys.rows.status in {Active, Waiting, Cancelled}
    requires |a.responses| in sys.rows.calls && sys.rows.calls[|a.responses|].state == CallCompleted
    requires a.journal.sequence == |a.responses| + 1
    requires WindowOk(sys.rows.calls, a.journal.history, |a.responses| + 1)
    requires a.journal.live ==> a.journal.history == []
    requires sys' == Respond(sys, a, sys.rows.calls[|a.responses|].outcome)
    ensures Inv(cfg, sys')
  {
    assert IsComplete(sys.rows.calls, |a.responses|);
    CompleteTo(sys.rows.calls, |a.responses|);
  }

  lemma OpenKeeps(cfg: Config, sys: System, a: Attempt, sys': System)
    requires Inv(cfg, sys) && sys.attempt == Some(a) && a.phase.Opening?
    requires sys' == Open(sys, a, a.phase.compatible)
    ensures Inv(cfg, sys')
  {
    if sys.rows.status == Blocked { Ends(cfg, sys, WasBlocked, sys'); }
    else if !a.phase.compatible { Moves(cfg, sys, a, Rejecting, sys'); }
    else if sys.rows.status in {Active, Waiting} { Moves(cfg, sys, a, Registered, sys'); }
    else { OpenEnds(cfg, sys, a, sys'); }
  }

  lemma OpenEnds(cfg: Config, sys: System, a: Attempt, sys': System)
    requires Inv(cfg, sys) && sys.attempt == Some(a) && a.phase.Opening? && a.phase.compatible
    requires sys.rows.status in {Cancelled, Completed, Failed}
    requires sys' == Open(sys, a, true)
    ensures Inv(cfg, sys')
  {
    Ends(cfg, sys, sys'.answer.value, sys');
  }

  lemma RunKeeps(cfg: Config, sys: System, a: Attempt, sys': System)
    requires Inv(cfg, sys) && sys.attempt == Some(a) && a.phase.Running?
    requires sys' == Run(cfg, sys, a)
    ensures Inv(cfg, sys')
  {
    var a' := sys'.attempt.value;
    assert AttemptOk(cfg, sys.rows, sys.events, a');
  }

  /** Replay never sees a mismatch: the window holds what the Guest is about to ask for. */
  lemma ReplayAgrees(cfg: Config, rows: Rows, a: Attempt, call: LoggedCall, record: Record)
    requires Path(cfg, rows.definition.id, rows.calls, Count(rows))
    requires Current(cfg, a, call) && a.responses == Outcomes(rows.calls, |a.responses|)
    requires IsRead(rows.calls, record, call.sequence)
    ensures Compare(rows.definition.id, record, call) == None
  {
    assert PathAt(cfg, rows.definition.id, rows.calls, Count(rows), call.sequence);
  }

  lemma AskKeeps(cfg: Config, sys: System, a: Attempt, sys': System)
    requires Inv(cfg, sys) && sys.attempt == Some(a) && a.phase.Asking?
    requires sys' == Ask(sys, a, a.phase.call)
    ensures Inv(cfg, sys')
  {
    var call := a.phase.call;
    var k := |a.responses|;
    if a.journal.live {
      Moves(cfg, sys, a, Beginning(call), sys');
    } else {
      var window := if a.journal.history == [] then ReadCompleted(sys.rows, k) else a.journal.history;
      assert WindowOk(sys.rows.calls, window, k) by { WindowIsCompleted(sys.rows.calls, k, k, 0); }
      AskWindow(cfg, sys, a, call, window, sys');
    }
  }

  lemma AskWindow(cfg: Config, sys: System, a: Attempt, call: LoggedCall, window: seq<Record>, sys': System)
    requires Inv(cfg, sys) && sys.attempt == Some(a) && a.phase == Asking(call) && !a.journal.live
    requires window == if a.journal.history == [] then ReadCompleted(sys.rows, call.sequence) else a.journal.history
    requires WindowOk(sys.rows.calls, window, call.sequence)
    requires sys' == Ask(sys, a, call)
    ensures Inv(cfg, sys')
  {
    if window == [] {
      Moves(cfg, sys, a.(journal := a.journal.(live := true)), Beginning(call), sys');
    } else {
      var rest := window[1..];
      WindowTail(sys.rows.calls, window, rest, call.sequence);
      ReplayAgrees(cfg, sys.rows, a, call, window[0]);
      Responds(cfg, sys, a.(journal := a.journal.(history := rest)), sys');
    }
  }

  // ------------------------------------------------------------------- reserving a call

  /** A prefix of completed rows is a prefix of the table, and what follows it is the open row. */
  lemma CompletePrefix(cfg: Config, rows: Rows, k: nat)
    requires RowsOk(cfg, rows) && AllComplete(rows.calls, k)
    ensures k <= Count(rows)
    ensures k in rows.calls <==> k < Count(rows)
    ensures k in rows.calls && rows.calls[k].state != CallCompleted ==> Count(rows) == k + 1
  {
    Numbered(cfg, rows);
    if k > 0 { assert IsComplete(rows.calls, k - 1); }
    assert PathAt(cfg, rows.definition.id, rows.calls, Count(rows), k);
  }

  lemma BeginKeeps(cfg: Config, sys: System, a: Attempt, sys': System)
    requires Inv(cfg, sys) && sys.attempt == Some(a) && a.phase.Beginning?
    requires sys' == Begin(cfg, sys, a, a.phase.call)
    ensures Inv(cfg, sys')
  {
    var call := a.phase.call;
    CompletePrefix(cfg, sys.rows, call.sequence);
    if call.sequence < Count(sys.rows) {
      BeginFound(cfg, sys, a, call, sys');
    } else {
      BeginNew(cfg, sys, a, call, sys');
    }
  }

  lemma BeginFound(cfg: Config, sys: System, a: Attempt, call: LoggedCall, sys': System)
    requires Inv(cfg, sys) && sys.attempt == Some(a) && a.phase == Beginning(call)
    requires call.sequence < Count(sys.rows)
    requires sys' == Begin(cfg, sys, a, call)
    ensures Inv(cfg, sys')
  {
    BeginFinds(cfg, sys.rows, call);
    var r := BeginCall(sys.rows, call).0;
    if r.Err? {
      Stops(cfg, sys, a, StoreFailed(r.error), sys');
    } else if r.value.0.state == CallCompleted {
      Responds(cfg, sys, a, sys');
    } else {
      CompletePrefix(cfg, sys.rows, call.sequence);
      ReservedAgain(cfg, sys.rows, sys.events, a, call);
      Moves(cfg, sys, a, Recover(cfg, false, call), sys');
    }
  }

  lemma ReservedAgain(cfg: Config, rows: Rows, events: seq<Event>, a: Attempt, call: LoggedCall)
    requires AttemptOk(cfg, rows, events, a) && a.phase == Beginning(call)
    requires call.sequence in rows.calls && rows.calls[call.sequence].state != CallCompleted
    requires rows.calls[call.sequence].tool == call.capability && rows.calls[call.sequence].arguments == call.arguments
    requires Count(rows) == call.sequence + 1
    ensures AttemptOk(cfg, rows, events, a.(phase := Recover(cfg, false, call)))
  {
    assert Reserved(cfg, rows, a.(phase := Recover(cfg, false, call)), call);
  }

  lemma BeginNew(cfg: Config, sys: System, a: Attempt, call: LoggedCall, sys': System)
    requires Inv(cfg, sys) && sys.attempt == Some(a) && a.phase == Beginning(call)
    requires call.sequence == Count(sys.rows)
    requires sys' == Begin(cfg, sys, a, call)
    ensures Inv(cfg, sys')
  {
    BeginExtends(cfg, sys.rows, call);
    Numbered(cfg, sys.rows);
    var (r, rows) := BeginCall(sys.rows, call);
    if r.Err? {
      Stops(cfg, sys, a, StoreFailed(r.error), sys');
    } else {
      EventsOnExtended(cfg, sys.rows, rows, sys.events, call.sequence, r.value.0);
      var phase := Recover(cfg, true, call);
      ReservedNew(cfg, sys.rows, rows, sys.events, a, call, r.value.0);
      Commits(cfg, sys, rows, a, phase, sys');
    }
  }

  lemma ReservedNew(cfg: Config, rows: Rows, rows': Rows, events: seq<Event>, a: Attempt, call: LoggedCall, row: CallRow)
    requires AttemptOk(cfg, rows, events, a) && a.phase == Beginning(call) && call.sequence !in rows.calls
    requires Outcomes(rows'.calls, call.sequence) == Outcomes(rows.calls, call.sequence)
    requires rows' == rows.(calls := rows.calls[call.sequence := row]) && Count(rows') == call.sequence + 1
    requires row.tool == call.capability && row.arguments == call.arguments && row.state == CallPending
    requires MaySend(cfg, events, row.tool, call.sequence)
    ensures AttemptOk(cfg, rows', events, a.(phase := Recover(cfg, true, call)))
  {
    KeepsComplete(rows.calls, call.sequence, row);
    assert Reserved(cfg, rows', a.(phase := Recover(cfg, true, call)), call);
  }

  /** Nothing was ever sent for a call that was not reserved. */
  lemma EventsOnExtended(cfg: Config, rows: Rows, rows': Rows, events: seq<Event>, k: nat, row: CallRow)
    requires EventsOk(cfg, rows, events) && k !in rows.calls
    requires forall i: nat :: i in rows.calls ==> i < k
    requires rows' == rows.(calls := rows.calls[k := row])
    ensures EventsOk(cfg, rows', events)
    ensures MaySend(cfg, events, row.tool, k)
  {
    forall e | e in events ensures e.sequence < k { assert EventOk(cfg, rows, e); }
    NoEventsYet(events, k);
    forall e | e in events ensures EventOk(cfg, rows', e) { assert EventOk(cfg, rows, e); }
    forall i: nat ensures SentAt(cfg, rows', events, i) { assert SentAt(cfg, rows, events, i); }
  }

  // ---------------------------------------------------------------- dispatch and look-up

  lemma EventsGrow(cfg: Config, rows: Rows, events: seq<Event>, events': seq<Event>, e: Event)
    requires EventsOk(cfg, rows, events) && EventOk(cfg, rows, e) && events' == events + [e]
    requires SentAt(cfg, rows, events', e.sequence)
    ensures EventsOk(cfg, rows, events')
  {
    forall f | f in events' ensures EventOk(cfg, rows, f) { assert f == e || EventOk(cfg, rows, f); }
    forall k: nat ensures SentAt(cfg, rows, events', k) {
      assert SentAt(cfg, rows, events, k);
      OneMoreEvent(events, e, k);
    }
  }

  lemma DispatchKeeps(cfg: Config, sys: System, a: Attempt, sys': System)
    requires Inv(cfg, sys) && sys.attempt == Some(a) && a.phase.Dispatching?
    requires sys' == Step(cfg, sys, a)
    ensures Inv(cfg, sys')
  {
    var call := a.phase.call;
    var e := Dispatched(call.sequence, call.capability, call.arguments, OperationKey(sys.rows.definition.id, call.sequence));
    OneMoreEvent(sys.events, e, call.sequence);
    assert SentAt(cfg, sys.rows, sys.events, call.sequence);
    EventsGrow(cfg, sys.rows, sys.events, sys.events + [e], e);
  }

  lemma LookUpKeeps(cfg: Config, sys: System, a: Attempt, call: LoggedCall, reply: LookupReply, sys': System)
    requires Inv(cfg, sys) && sys.attempt == Some(a) && a.phase == LookingUp(call)
    requires sys' == LookedUp(sys, a, call, reply)
    ensures Inv(cfg, sys')
  {
    match reply
    case SafeToDispatch => SafeKeeps(cfg, sys, a, call, sys');
    case StillPending => Stops(cfg, sys, a, Parked(call.sequence), sys');
    case Found(response) => Moves(cfg, sys, a, Completing(call, response), sys');
    case Invalid => Stops(cfg, sys, a, Refused(LookupInvalid), sys');
    case Unknown => Stops(cfg, sys, a, Refused(LookupUnknown), sys');
  }

  /** A report that a lookup call is safe to send pays for one more dispatch of it. */
  lemma SafeKeeps(cfg: Config, sys: System, a: Attempt, call: LoggedCall, sys': System)
    requires Inv(cfg, sys) && sys.attempt == Some(a) && a.phase == LookingUp(call)
    requires sys' == LookedUp(sys, a, call, SafeToDispatch)
    ensures Inv(cfg, sys')
  {
    var e := ReportedSafe(call.sequence);
    OneMoreEvent(sys.events, e, call.sequence);
    assert SentAt(cfg, sys.rows, sys.events, call.sequence);
    EventsGrow(cfg, sys.rows, sys.events, sys.events + [e], e);
    assert MaySend(cfg, sys.events + [e], call.capability, call.sequence);
    Moves(cfg, sys.(events := sys.events + [e], attempt := None), a, Dispatching(call), sys');
  }

  // ---------------------------------------------------------------------------- waits

  /** The calls of a table, its definition and its terminal state are the same; waits only move on. */
  ghost predicate OnlyWaits(rows: Rows, rows': Rows) {
    && rows'.calls == rows.calls && rows'.definition == rows.definition
    && (forall i :: i in rows.waits ==>
          i in rows'.waits && rows'.waits[i].spec == rows.waits[i].spec
          && (rows.waits[i].decision.Some? ==> rows'.waits[i] == rows.waits[i]))
  }

  ghost predicate StatusMoves(rows: Rows, rows': Rows) {
    && (Terminal(rows.status) ==>
          rows'.status == rows.status && rows'.outcome == rows.outcome && rows'.reason == rows.reason)
    && (rows.status in {Active, Waiting, Cancelled} ==> rows'.status in {Active, Waiting, Cancelled})
  }

  /** What an attempt knows stays true when others decide waits or cancel the run. */
  lemma AttemptSurvives(cfg: Config, rows: Rows, rows': Rows, events: seq<Event>, a: Attempt)
    requires AttemptOk(cfg, rows, events, a) && OnlyWaits(rows, rows') && StatusMoves(rows, rows')
    ensures AttemptOk(cfg, rows', events, a)
  {
  }

  lemma RowsMove(cfg: Config, sys: System, rows: Rows, sys': System)
    requires Inv(cfg, sys) && RowsOk(cfg, rows) && OnlyWaits(sys.rows, rows) && StatusMoves(sys.rows, rows)
    requires sys' == sys.(rows := rows)
    ensures Inv(cfg, sys')
  {
    if sys.attempt.Some? { AttemptSurvives(cfg, sys.rows, rows, sys.events, sys.attempt.value); }
    EventsSame(cfg, sys.rows, rows, sys.events);
  }

  lemma DecideKeeps(cfg: Config, sys: System, sequence: nat, decision: Decision, sys': System)
    requires Inv(cfg, sys)
    requires sys' == sys.(rows := ResolveWait(sys.rows, sequence, decision).1)
    ensures Inv(cfg, sys')
  {
    ResolveKeeps(cfg, sys.rows, sequence, decision);
    RowsMove(cfg, sys, sys'.rows, sys');
  }

  lemma CancelKeeps(cfg: Config, sys: System, sys': System)
    requires Inv(cfg, sys)
    requires sys' == sys.(rows := SetState(sys.rows, Cancelled, "", "cancelled").1)
    ensures Inv(cfg, sys')
  {
    SetStateKeeps(cfg, sys.rows, Cancelled, "", "cancelled");
    RowsMove(cfg, sys, sys'.rows, sys');
  }

  lemma GetWaitKeeps(cfg: Config, sys: System, a: Attempt, call: LoggedCall, sys': System)
    requires Inv(cfg, sys) && sys.attempt == Some(a) && a.phase == GettingWait(call)
    requires sys' == Step(cfg, sys, a)
    ensures Inv(cfg, sys')
  {
    match GetWait(sys.rows, call.sequence)
    case Ok(wait) => Moves(cfg, sys, a, CheckingWait(call, wait), sys');
    case Err(_) => Moves(cfg, sys, a, DeclaringWait(call), sys');
  }

  lemma RecheckKeeps(cfg: Config, sys: System, a: Attempt, call: LoggedCall, sys': System)
    requires Inv(cfg, sys) && sys.attempt == Some(a) && a.phase == RecheckingWait(call)
    requires sys' == Step(cfg, sys, a)
    ensures Inv(cfg, sys')
  {
    Moves(cfg, sys, a, CheckingWait(call, sys.rows.waits[call.sequence]), sys');
  }

  lemma CheckWaitKeeps(cfg: Config, sys: System, a: Attempt, call: LoggedCall, wait: WaitRow, sys': System)
    requires Inv(cfg, sys) && sys.attempt == Some(a) && a.phase == CheckingWait(call, wait)
    requires sys' == Step(cfg, sys, a)
    ensures Inv(cfg, sys')
  {
    match wait.decision
    case None => Moves(cfg, sys, a, Leaving(Parked(call.sequence)), sys');
    case Some(d) => Moves(cfg, sys, a, Completing(call, cfg.wire(d)), sys');
  }

  lemma DeclareKeeps(cfg: Config, sys: System, a: Attempt, call: LoggedCall, spec: WaitSpec, sys': System)
    requires Inv(cfg, sys) && sys.attempt == Some(a) && a.phase == EnsuringWait(call, spec)
    requires sys' == DeclareWait(sys, a, call, spec)
    ensures Inv(cfg, sys')
  {
    var r := EnsureWait(sys.rows, call.sequence, spec).0;
    if r.Err? {
      Stops(cfg, sys, a, StoreFailed(r.error), sys');
    } else {
      DeclareSucceeds(cfg, sys, a, call, spec, sys');
    }
  }

  lemma DeclareSucceeds(cfg: Config, sys: System, a: Attempt, call: LoggedCall, spec: WaitSpec, sys': System)
    requires Inv(cfg, sys) && sys.attempt == Some(a) && a.phase == EnsuringWait(call, spec)
    requires EnsureWait(sys.rows, call.sequence, spec).0.Ok?
    requires sys' == DeclareWait(sys, a, call, spec)
    ensures Inv(cfg, sys')
  {
    EnsureKeeps(cfg, sys.rows, call.sequence, spec);
    var (r, rows) := EnsureWait(sys.rows, call.sequence, spec);
    EventsSame(cfg, sys.rows, rows, sys.events);
    WaitDeclaredFor(cfg, sys.rows, rows, sys.events, a, call, r.value, rows.calls[call.sequence]);
    Commits(cfg, sys, rows, a, CheckingWait(call, r.value), sys');
  }

  lemma WaitDeclaredFor(cfg: Config, rows: Rows, rows': Rows, events: seq<Event>, a: Attempt, call: LoggedCall, wait: WaitRow,
                        row: CallRow)
    requires AttemptOk(cfg, rows, events, a) && a.phase.EnsuringWait? && a.phase.call == call
    requires call.sequence in rows.calls && row == rows.calls[call.sequence].(state := row.state) && row.state != CallCompleted
    requires rows'.calls == rows.calls[call.sequence := row] && Count(rows') == call.sequence + 1
    requires call.sequence in rows'.waits && rows'.waits[call.sequence] == wait
    requires rows'.status in {rows.status, Waiting}
    ensures AttemptOk(cfg, rows', events, a.(phase := CheckingWait(call, wait)))
  {
    KeepsComplete(rows.calls, call.sequence, row);
    forall i: nat | i < call.sequence ensures SameRow(rows.calls, rows'.calls, i) { assert IsComplete(rows.calls, i); }
    OutcomesExtend(rows.calls, rows'.calls, call.sequence, call.sequence);
  }

  lemma EventsSame(cfg: Config, rows: Rows, rows': Rows, events: seq<Event>)
    requires EventsOk(cfg, rows, events) && rows'.definition == rows.definition && rows'.calls.Keys == rows.calls.Keys
    requires forall i :: i in rows.calls ==>
      rows'.calls[i].tool == rows.calls[i].tool && rows'.calls[i].arguments == rows.calls[i].arguments
    ensures EventsOk(cfg, rows', events)
  {
    forall e | e in events ensures EventOk(cfg, rows', e) { assert EventOk(cfg, rows, e); }
    forall k: nat ensures SentAt(cfg, rows', events, k) {
      assert SentAt(cfg, rows, events, k);
      assert k in rows'.calls.Keys <==> k in rows.calls.Keys;
    }
  }

  lemma ExpireKeeps(cfg: Config, sys: System, a: Attempt, call: LoggedCall, sys': System)
    requires Inv(cfg, sys) && sys.attempt == Some(a) && a.phase == ExpiringWait(call)
    requires sys' == ExpireWait(sys, a, call)
    ensures Inv(cfg, sys')
  {
    var (r, rows) := ResolveWait(sys.rows, call.sequence, EXPIRED);
    if r.Err? {
      Stops(cfg, sys, a, StoreFailed(r.error), sys');
    } else {
      DecideKeeps(cfg, sys, call.sequence, EXPIRED, sys.(rows := rows));
      Expired(cfg, sys.rows, rows, sys.events, a, call);
      Moves(cfg, sys.(rows := rows), a, RecheckingWait(call), sys');
    }
  }

  lemma Expired(cfg: Config, rows: Rows, rows': Rows, events: seq<Event>, a: Attempt, call: LoggedCall)
    requires AttemptOk(cfg, rows, events, a) && a.phase == ExpiringWait(call)
    requires rows' == ResolveWait(rows, call.sequence, EXPIRED).1
    ensures AttemptOk(cfg, rows', events, a.(phase := RecheckingWait(call)))
  {
  }

  // ------------------------------------------------------------------- completing a call

  lemma CompletingKeeps(cfg: Config, sys: System, a: Attempt, call: LoggedCall, response: Bytes, sys': System)
    requires Inv(cfg, sys) && sys.attempt == Some(a) && a.phase == Completing(call, response)
    requires sys' == Complete(sys, a, call, response)
    ensures Inv(cfg, sys')
  {
    CompleteKeeps(cfg, sys.rows, call.sequence, response);
    var (r, rows) := CompleteCall(sys.rows, call.sequence, response);
    if r.Err? {
      Stops(cfg, sys, a, StoreFailed(r.error), sys');
    } else {
      EventsSame(cfg, sys.rows, rows, sys.events);
      OutcomeKept(cfg, sys.rows, rows, sys.events, a, call, response);
      Commits(cfg, sys, rows, a.(responses := a.responses + [response]), Running, sys');
    }
  }

  /** The attempt goes on with the outcome that was stored. */
  lemma OutcomeKept(cfg: Config, rows: Rows, rows': Rows, events: seq<Event>, a: Attempt, call: LoggedCall, response: Bytes)
    requires AttemptOk(cfg, rows, events, a) && a.phase == Completing(call, response)
    requires rows'.status == rows.status && AllComplete(rows'.calls, call.sequence + 1)
    requires Outcomes(rows'.calls, call.sequence + 1) == Outcomes(rows.calls, call.sequence) + [response]
    ensures AttemptOk(cfg, rows', events, a.(phase := Running, responses := a.responses + [response]))
  {
  }

  // ---------------------------------------------------------------------- ending an attempt

  /** A Guest that ends has consumed every stored call. */
  lemma NothingRemains(cfg: Config, rows: Rows, k: nat)
    requires RowsOk(cfg, rows) && AllComplete(rows.calls, k)
    requires !cfg.guest(Outcomes(rows.calls, k)).Calls?
    ensures Count(rows) == k && !HasCall(rows, k)
  {
    CompletePrefix(cfg, rows, k);
    assert PathAt(cfg, rows.definition.id, rows.calls, Count(rows), k);
  }

  lemma Ends(cfg: Config, sys: System, answer: Answer, sys': System)
    requires Inv(cfg, sys) && AnswerOk(cfg, sys.rows, answer)
    requires sys' == End(sys, answer)
    ensures Inv(cfg, sys')
  {
  }

  lemma RegisteredKeeps(cfg: Config, sys: System, a: Attempt, sys': System)
    requires Inv(cfg, sys) && sys.attempt == Some(a) && a.phase.Registered?
    requires sys' == Step(cfg, sys, a)
    ensures Inv(cfg, sys')
  {
    if sys.rows.status == Cancelled {
      Ends(cfg, sys, WasCancelled, sys');
    } else {
      Moves(cfg, sys, a, Running, sys');
    }
  }

  lemma FailingKeeps(cfg: Config, sys: System, a: Attempt, sys': System)
    requires Inv(cfg, sys) && a.phase.Failing?
    requires sys' == Step(cfg, sys, a)
    ensures Inv(cfg, sys')
  {
    Ends(cfg, sys, if sys.rows.status == Cancelled then WasCancelled else Errored(a.phase.error), sys');
  }

  lemma LeaveKeeps(cfg: Config, sys: System, a: Attempt, cause: Cause, sys': System)
    requires Inv(cfg, sys) && sys.attempt == Some(a) && a.phase == Leaving(cause)
    requires sys' == Leave(sys, a, cause)
    ensures Inv(cfg, sys')
  {
    if sys.rows.status == Cancelled {
      Ends(cfg, sys, WasCancelled, sys');
    } else if cause.GuestEnded? || cause.Refused? {
      Moves(cfg, sys, a, if cause.GuestEnded? then Closing(cause.step) else Blocking(cause.reason), sys');
    } else {
      Ends(cfg, sys, if cause.StoreFailed? then Errored(cause.error) else WasParked(cause.sequence), sys');
    }
  }

  lemma CloseKeeps(cfg: Config, sys: System, a: Attempt, step: GuestStep, sys': System)
    requires Inv(cfg, sys) && sys.attempt == Some(a) && a.phase == Closing(step)
    requires sys' == Step(cfg, sys, a)
    ensures Inv(cfg, sys')
  {
    NothingRemains(cfg, sys.rows, |a.responses|);
    Moves(cfg, sys, a, Storing(step), sys');
  }

  lemma BlockKeeps(cfg: Config, sys: System, reason: BlockReason, sys': System)
    requires Inv(cfg, sys) && MayBlock(reason)
    requires sys' == End(sys.(rows := SetState(sys.rows, Blocked, "", ReasonText(reason)).1), WasBlocked)
    ensures Inv(cfg, sys')
  {
    SetStateKeeps(cfg, sys.rows, Blocked, "", ReasonText(reason));
    EventsSame(cfg, sys.rows, sys'.rows, sys.events);
  }

  lemma StoreKeeps(cfg: Config, sys: System, a: Attempt, step: GuestStep, sys': System)
    requires Inv(cfg, sys) && sys.attempt == Some(a) && a.phase == Storing(step)
    requires sys' == Store(sys, a, step)
    ensures Inv(cfg, sys')
  {
    var (status, outcome, reason) := Ending(step);
    var r := SetState(sys.rows, status, outcome, reason).0;
    if r.Err? {
      Moves(cfg, sys, a, Failing(r.error), sys');
    } else {
      StoreSucceeds(cfg, sys, a, step, sys');
    }
  }

  lemma StoreSucceeds(cfg: Config, sys: System, a: Attempt, step: GuestStep, sys': System)
    requires Inv(cfg, sys) && sys.attempt == Some(a) && a.phase == Storing(step)
    requires var (status, outcome, reason) := Ending(step); SetState(sys.rows, status, outcome, reason).0.Ok?
    requires sys' == Store(sys, a, step)
    ensures Inv(cfg, sys')
  {
    ResultMatches(cfg, sys, a, step, Stored(sys, step).(attempt := None));
    var answer := StoredAnswer(sys, a, step);
    Ends(cfg, Stored(sys, step).(attempt := None), answer, sys');
  }

  lemma StoredAnswer(sys: System, a: Attempt, step: GuestStep) returns (answer: Answer)
    requires !step.Calls?
    requires var (status, outcome, reason) := Ending(step); SetState(sys.rows, status, outcome, reason).0.Ok?
    ensures forall cfg :: AnswerOk(cfg, Stored(sys, step).rows, answer)
    ensures Store(sys, a, step) == End(Stored(sys, step), answer)
  {
    answer := if step.Returns? then Finished(step.output) else PythonFailed(step.output, step.message);
  }

  /** What is stored as the result is what the Guest gives on the stored outcomes. */
  lemma ResultMatches(cfg: Config, sys: System, a: Attempt, step: GuestStep, sys': System)
    requires Inv(cfg, sys) && sys.attempt == Some(a) && a.phase == Storing(step)
    requires sys' == Stored(sys, step).(attempt := None)
    ensures Inv(cfg, sys')
  {
    var (status, outcome, reason) := Ending(step);
    SetStateKeeps(cfg, sys.rows, status, outcome, reason);
    EventsSame(cfg, sys.rows, sys'.rows, sys.events);
  }

  ghost function Stored(sys: System, step: GuestStep): System
    requires !step.Calls?
  {
    var (status, outcome, reason) := Ending(step);
    sys.(rows := SetState(sys.rows, status, outcome, reason).1)
  }

  /** The terminal state that a result of the Guest is stored as. */
  function Ending(step: GuestStep): (Status, Bytes, string)
    requires !step.Calls?
  {
    match step
    case Returns(output) => (Completed, output, "")
    case Raises(output, message) => (Failed, output, message)
  }
}
