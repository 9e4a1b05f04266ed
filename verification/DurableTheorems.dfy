/**
 What holds after every history of a run: any number of attempts that claim it, crash, replay,
 park and finish, with tool replies, look-ups, wait declarations, expiries, decisions and
 cancellations in any order.
 */
module DurableTheorems {
  import opened Options
  import opened DurableStore
  import opened DurableProtocol
  import opened DurablePayload
  import opened DurableInvariant
  import opened DurableRuns
  import opened DurableSteps

  // ------------------------------------------------------------------------- every step

  predicate IsEnding(phase: Phase) {
    phase.Leaving? || phase.Closing? || phase.Storing? || phase.Failing? || phase.Blocking? || phase.Rejecting?
  }

  lemma EndingKeeps(cfg: Config, sys: System, a: Attempt, sys': System)
    requires Inv(cfg, sys) && sys.attempt == Some(a) && IsEnding(a.phase)
    requires sys' == Step(cfg, sys, a)
    ensures Inv(cfg, sys')
  {
    match a.phase
    case Rejecting => BlockKeeps(cfg, sys, BadDefinition, sys');
    case Leaving(cause) => LeaveKeeps(cfg, sys, a, cause, sys');
    case Closing(step) => CloseKeeps(cfg, sys, a, step, sys');
    case Storing(step) => StoreKeeps(cfg, sys, a, step, sys');
    case Failing(_) => FailingKeeps(cfg, sys, a, sys');
    case Blocking(reason) => BlockKeeps(cfg, sys, reason, sys');
  }

  predicate IsOnWait(phase: Phase) {
    phase.GettingWait? || phase.EnsuringWait? || phase.CheckingWait? || phase.ExpiringWait? || phase.RecheckingWait?
  }

  lemma WaitingKeeps(cfg: Config, sys: System, a: Attempt, sys': System)
    requires Inv(cfg, sys) && sys.attempt == Some(a) && IsOnWait(a.phase)
    requires sys' == Step(cfg, sys, a)
    ensures Inv(cfg, sys')
  {
    match a.phase
    case GettingWait(call) => GetWaitKeeps(cfg, sys, a, call, sys');
    case EnsuringWait(call, spec) => DeclareKeeps(cfg, sys, a, call, spec, sys');
    case CheckingWait(call, wait) => CheckWaitKeeps(cfg, sys, a, call, wait, sys');
    case ExpiringWait(call) => ExpireKeeps(cfg, sys, a, call, sys');
    case RecheckingWait(call) => RecheckKeeps(cfg, sys, a, call, sys');
  }

  lemma AdvanceKeeps(cfg: Config, sys: System, a: Attempt, sys': System)
    requires Inv(cfg, sys) && sys.attempt == Some(a)
    requires sys' == Step(cfg, sys, a)
    ensures Inv(cfg, sys')
  {
    if IsEnding(a.phase) {
      EndingKeeps(cfg, sys, a, sys');
    } else if IsOnWait(a.phase) {
      WaitingKeeps(cfg, sys, a, sys');
    } else {
      match a.phase
      case Opening(_) => OpenKeeps(cfg, sys, a, sys');
      case Registered => RegisteredKeeps(cfg, sys, a, sys');
      case Running => RunKeeps(cfg, sys, a, sys');
      case Asking(_) => AskKeeps(cfg, sys, a, sys');
      case Beginning(_) => BeginKeeps(cfg, sys, a, sys');
      case Dispatching(_) => DispatchKeeps(cfg, sys, a, sys');
      case Completing(call, response) => CompletingKeeps(cfg, sys, a, call, response, sys');
      case _ =>
    }
  }

  lemma LookupAnswersKeeps(cfg: Config, sys: System, a: Attempt, reply: LookupReply, sys': System)
    requires Inv(cfg, sys) && sys.attempt == Some(a)
    requires sys' == Apply(cfg, sys, LookupAnswers(reply))
    ensures Inv(cfg, sys')
  {
    if a.phase.LookingUp? { LookUpKeeps(cfg, sys, a, a.phase.call, reply, sys'); }
  }

  lemma ToolReplyKeeps(cfg: Config, sys: System, a: Attempt, response: Bytes, sys': System)
    requires Inv(cfg, sys) && sys.attempt == Some(a)
    requires sys' == Apply(cfg, sys, ToolReply(response))
    ensures Inv(cfg, sys')
  {
    if a.phase.AwaitingReply? { Moves(cfg, sys, a, Completing(a.phase.call, response), sys'); }
  }

  lemma WaitDeclaredKeeps(cfg: Config, sys: System, a: Attempt, spec: WaitSpec, sys': System)
    requires Inv(cfg, sys) && sys.attempt == Some(a)
    requires sys' == Apply(cfg, sys, WaitDeclared(spec))
    ensures Inv(cfg, sys')
  {
    if a.phase.DeclaringWait? { Moves(cfg, sys, a, EnsuringWait(a.phase.call, spec), sys'); }
  }

  lemma ExpireActionKeeps(cfg: Config, sys: System, a: Attempt, sys': System)
    requires Inv(cfg, sys) && sys.attempt == Some(a)
    requires sys' == Apply(cfg, sys, Expire)
    ensures Inv(cfg, sys')
  {
    if a.phase.CheckingWait? && a.phase.wait.decision.None? && a.phase.wait.spec.deadline != "" {
      Moves(cfg, sys, a, ExpiringWait(a.phase.call), sys');
    }
  }

  lemma AttemptKeeps(cfg: Config, sys: System, a: Attempt, action: Action, sys': System)
    requires Inv(cfg, sys) && sys.attempt == Some(a)
    requires !action.Claim? && !action.Crash? && !action.Cancel? && !action.Decide?
    requires sys' == Apply(cfg, sys, action)
    ensures Inv(cfg, sys')
  {
    match action
    case Advance => AdvanceKeeps(cfg, sys, a, sys');
    case ToolReply(response) => ToolReplyKeeps(cfg, sys, a, response, sys');
    case LookupAnswers(reply) => LookupAnswersKeeps(cfg, sys, a, reply, sys');
    case WaitDeclared(spec) => WaitDeclaredKeeps(cfg, sys, a, spec, sys');
    case Expire => ExpireActionKeeps(cfg, sys, a, sys');
  }

  lemma ClaimKeeps(cfg: Config, sys: System, compatible: bool, sys': System)
    requires Inv(cfg, sys)
    requires sys' == Apply(cfg, sys, Claim(compatible))
    ensures Inv(cfg, sys')
  {
  }

  lemma ApplyKeeps(cfg: Config, sys: System, action: Action, sys': System)
    requires Inv(cfg, sys)
    requires sys' == Apply(cfg, sys, action)
    ensures Inv(cfg, sys')
  {
    match action
    case Claim(compatible) => ClaimKeeps(cfg, sys, compatible, sys');
    case Crash =>
    case Cancel => CancelKeeps(cfg, sys, sys');
    case Decide(sequence, decision) => DecideKeeps(cfg, sys, sequence, decision, sys');
    case _ => if sys.attempt.Some? { AttemptKeeps(cfg, sys, sys.attempt.value, action, sys'); }
  }

  lemma StartIsOk(cfg: Config, d: Definition)
    requires DefinitionSize(d) <= MAX_RUN_PAYLOAD
    ensures Inv(cfg, Start(d))
  {
    CountIs(NewRun(d), 0);
    NewRunBounded(d);
  }

  lemma {:induction false} ExecuteKeeps(cfg: Config, sys: System, actions: seq<Action>)
    requires Inv(cfg, sys)
    ensures Inv(cfg, Execute(cfg, sys, actions))
    decreases |actions|
  {
    if actions != [] {
      var next := Apply(cfg, sys, actions[0]);
      ApplyKeeps(cfg, sys, actions[0], next);
      ExecuteKeeps(cfg, next, actions[1..]);
    }
  }

  // ---------------------------------------------------------------------- whole histories

  /** The state after a history that began when the run was created. */
  ghost function After(cfg: Config, d: Definition, actions: seq<Action>): System {
    Execute(cfg, Start(d), actions)
  }

  lemma HistoryKeeps(cfg: Config, d: Definition, actions: seq<Action>)
    requires DefinitionSize(d) <= MAX_RUN_PAYLOAD
    ensures Inv(cfg, After(cfg, d, actions))
  {
    StartIsOk(cfg, d);
    ExecuteKeeps(cfg, Start(d), actions);
  }

  /** The stored calls are exactly the Guest's path on the stored outcomes. */
  lemma StoredCallsAreThePath(cfg: Config, d: Definition, actions: seq<Action>)
    requires DefinitionSize(d) <= MAX_RUN_PAYLOAD
    ensures var rows := After(cfg, d, actions).rows;
      && (forall i: nat :: i in rows.calls <==> i < Count(rows))
      && (forall i: nat :: i + 1 < Count(rows) ==> rows.calls[i].state == CallCompleted)
      && (forall i: nat :: i < Count(rows) ==>
            cfg.guest(Outcomes(rows.calls, i)) == Calls(rows.calls[i].tool, rows.calls[i].arguments))
  {
    HistoryKeeps(cfg, d, actions);
    var rows := After(cfg, d, actions).rows;
    Numbered(cfg, rows);
    forall i: nat | i < Count(rows)
      ensures i + 1 < Count(rows) ==> rows.calls[i].state == CallCompleted
      ensures cfg.guest(Outcomes(rows.calls, i)) == Calls(rows.calls[i].tool, rows.calls[i].arguments)
    {
      assert PathAt(cfg, rows.definition.id, rows.calls, Count(rows), i);
    }
  }

  lemma NobodyDiverged(cfg: Config, sys: System, kind: Mismatch)
    requires Inv(cfg, sys)
    ensures sys.attempt.Some? ==>
      && sys.attempt.value.phase != Leaving(Refused(Diverged(kind)))
      && sys.attempt.value.phase != Blocking(Diverged(kind))
      && sys.attempt.value.phase != Blocking(NotConsumed)
  {
  }

  /** No attempt is ever told that the history does not match, or that some of it is left over. */
  lemma NoMismatch(cfg: Config, d: Definition, actions: seq<Action>, kind: Mismatch)
    requires DefinitionSize(d) <= MAX_RUN_PAYLOAD
    ensures var sys := After(cfg, d, actions);
      sys.attempt.Some? ==>
        && sys.attempt.value.phase != Leaving(Refused(Diverged(kind)))
        && sys.attempt.value.phase != Blocking(Diverged(kind))
        && sys.attempt.value.phase != Blocking(NotConsumed)
  {
    HistoryKeeps(cfg, d, actions);
    NobodyDiverged(cfg, After(cfg, d, actions), kind);
  }

  /** A run that completed or failed holds what the Guest gives on all the stored outcomes. */
  lemma ResultIsTheGuests(cfg: Config, d: Definition, actions: seq<Action>)
    requires DefinitionSize(d) <= MAX_RUN_PAYLOAD
    ensures var sys := After(cfg, d, actions);
      var said := cfg.guest(Outcomes(sys.rows.calls, Count(sys.rows)));
      && (sys.rows.status == Completed ==>
            AllComplete(sys.rows.calls, Count(sys.rows)) && said == Returns(sys.rows.outcome))
      && (sys.rows.status == Failed ==>
            AllComplete(sys.rows.calls, Count(sys.rows)) && said == Raises(sys.rows.outcome, sys.rows.reason))
      && (forall output :: sys.answer == Some(Finished(output)) ==> said == Returns(output))
      && (forall output, message :: sys.answer == Some(PythonFailed(output, message)) ==> said == Raises(output, message))
  {
    HistoryKeeps(cfg, d, actions);
  }

  /** While a run is open, it is waiting exactly when its last call has an undecided wait. */
  lemma WaitingMeansUndecided(cfg: Config, d: Definition, actions: seq<Action>)
    requires DefinitionSize(d) <= MAX_RUN_PAYLOAD
    ensures var rows := After(cfg, d, actions).rows;
      && (rows.status in {Active, Waiting} ==> (rows.status == Waiting <==> Undecided(rows.waits, Count(rows))))
      && (forall i :: i in rows.waits && i + 1 != Count(rows) ==> rows.waits[i].decision.Some?)
  {
    HistoryKeeps(cfg, d, actions);
    var rows := After(cfg, d, actions).rows;
    forall i | i in rows.waits && i + 1 != Count(rows) ensures rows.waits[i].decision.Some? {
      if rows.waits[i].decision.None? { UndecidedIsLast(cfg, rows, i); }
    }
  }

  lemma PayloadStaysBounded(cfg: Config, d: Definition, actions: seq<Action>)
    requires DefinitionSize(d) <= MAX_RUN_PAYLOAD
    ensures PayloadSize(After(cfg, d, actions).rows) <= MAX_RUN_PAYLOAD
  {
    HistoryKeeps(cfg, d, actions);
  }

  // ---------------------------------------------------------------------- what is dispatched

  /** Wait tools are never called; manual ones once; look-up ones again only when that is safe. */
  lemma DispatchesAreRationed(cfg: Config, d: Definition, actions: seq<Action>, e: Event)
    requires DefinitionSize(d) <= MAX_RUN_PAYLOAD
    requires e.Dispatched? && e in After(cfg, d, actions).events
    ensures var events := After(cfg, d, actions).events;
      && !HasMode(cfg, e.tool, WaitMode)
      && (HasMode(cfg, e.tool, Manual) ==> Dispatches(events, e.sequence) == 1)
      && (HasMode(cfg, e.tool, Lookup) ==> Dispatches(events, e.sequence) <= 1 + SafeReports(events, e.sequence))
  {
    HistoryKeeps(cfg, d, actions);
    var sys := After(cfg, d, actions);
    assert EventOk(cfg, sys.rows, e) && SentAt(cfg, sys.rows, sys.events, e.sequence);
    SentAtLeastOnce(sys.events, e);
  }

  lemma {:induction false} SentAtLeastOnce(events: seq<Event>, e: Event)
    requires e in events && e.Dispatched?
    ensures Dispatches(events, e.sequence) >= 1
  {
    if e != events[|events| - 1] {
      SentAtLeastOnce(events[..|events| - 1], e);
    }
  }

  /** A call that is sent again is the same call, with the same operation key. */
  lemma RepeatsAreEqual(cfg: Config, d: Definition, actions: seq<Action>, e: Event, f: Event)
    requires DefinitionSize(d) <= MAX_RUN_PAYLOAD
    requires e in After(cfg, d, actions).events && f in After(cfg, d, actions).events
    requires e.Dispatched? && f.Dispatched?
    ensures e.sequence == f.sequence <==> e == f
    ensures e.key == f.key <==> e == f
  {
    HistoryKeeps(cfg, d, actions);
    var sys := After(cfg, d, actions);
    assert EventOk(cfg, sys.rows, e) && EventOk(cfg, sys.rows, f);
    KeysAreUnique(sys.rows.definition.id, e.sequence, sys.rows.definition.id, f.sequence);
  }

  lemma SendsWhileDispatching(cfg: Config, sys: System, action: Action, e: Event)
    requires e.Dispatched? && Apply(cfg, sys, action).events == sys.events + [e]
    ensures sys.attempt.Some? && sys.attempt.value.phase.Dispatching?
    ensures var call := sys.attempt.value.phase.call;
      e == Dispatched(call.sequence, call.capability, call.arguments, OperationKey(sys.rows.definition.id, call.sequence))
  {
    assert (sys.events + [e])[|sys.events|] == e;
  }

  /** Only the open call at the end of the table is ever sent; it carries what its row says. */
  lemma OnlyTheOpenCallIsSent(cfg: Config, d: Definition, actions: seq<Action>, action: Action, e: Event)
    requires DefinitionSize(d) <= MAX_RUN_PAYLOAD
    requires e.Dispatched? && Apply(cfg, After(cfg, d, actions), action).events == After(cfg, d, actions).events + [e]
    ensures var rows := After(cfg, d, actions).rows;
      && e.sequence in rows.calls && e.sequence + 1 == Count(rows)
      && rows.calls[e.sequence].state != CallCompleted
      && e == Dispatched(e.sequence, rows.calls[e.sequence].tool, rows.calls[e.sequence].arguments,
                         rows.calls[e.sequence].operationKey)
  {
    HistoryKeeps(cfg, d, actions);
    var sys := After(cfg, d, actions);
    SendsWhileDispatching(cfg, sys, action, e);
    assert PathAt(cfg, sys.rows.definition.id, sys.rows.calls, Count(sys.rows), e.sequence);
  }
}
