/**
 What a run never takes back: a terminal state, a completed call, a decision. After a terminal
 or blocked state no call is reserved, and a blocked run can only be cancelled.
 */
module DurableStatus {
  import opened DurableStore
  import opened DurableProtocol
  import opened DurableRuns
  import opened DurableTheorems

  predicate Over(status: Status) {
    Terminal(status) || status == Blocked
  }

  ghost predicate CallStays(a: CallRow, b: CallRow) {
    && b.callId == a.callId && b.tool == a.tool && b.operationKey == a.operationKey && b.arguments == a.arguments
    && (a.state == CallCompleted ==> b == a)
  }

  ghost predicate WaitStays(a: WaitRow, b: WaitRow) {
    b.spec == a.spec && (a.decision.Some? ==> b == a)
  }

  ghost predicate StatusStays(a: Rows, b: Rows) {
    && (Terminal(a.status) ==> b.status == a.status && b.outcome == a.outcome && b.reason == a.reason)
    && (a.status == Blocked ==> b.status in {Blocked, Cancelled})
  }

  /** `b` can come after `a` in the life of a run. */
  ghost predicate Later(a: Rows, b: Rows) {
    && b.definition == a.definition
    && StatusStays(a, b)
    && (forall i :: i in a.calls ==> i in b.calls && CallStays(a.calls[i], b.calls[i]))
    && (forall i :: i in a.waits ==> i in b.waits && WaitStays(a.waits[i], b.waits[i]))
    && (Over(a.status) ==> b.calls.Keys == a.calls.Keys && b.waits.Keys == a.waits.Keys)
  }

  lemma LaterTrans(a: Rows, b: Rows, c: Rows)
    requires Later(a, b) && Later(b, c)
    ensures Later(a, c)
  {
    forall i | i in a.calls ensures i in c.calls && CallStays(a.calls[i], c.calls[i]) {
      assert CallStays(a.calls[i], b.calls[i]) && CallStays(b.calls[i], c.calls[i]);
    }
    forall i | i in a.waits ensures i in c.waits && WaitStays(a.waits[i], c.waits[i]) {
      assert WaitStays(a.waits[i], b.waits[i]) && WaitStays(b.waits[i], c.waits[i]);
    }
  }

  lemma LaterAtOnce(a: Rows)
    ensures Later(a, a)
  {
  }

  lemma BeginLater(rows: Rows, call: LoggedCall)
    ensures Later(rows, BeginCall(rows, call).1)
  {
  }

  lemma CompleteLater(rows: Rows, sequence: nat, outcome: Bytes)
    ensures Later(rows, CompleteCall(rows, sequence, outcome).1)
  {
    var b := CompleteCall(rows, sequence, outcome).1;
    assert b.calls.Keys == rows.calls.Keys;
  }

  lemma EnsureLater(rows: Rows, sequence: nat, spec: WaitSpec)
    ensures Later(rows, EnsureWait(rows, sequence, spec).1)
  {
  }

  lemma ResolveLater(rows: Rows, sequence: nat, decision: Decision)
    ensures Later(rows, ResolveWait(rows, sequence, decision).1)
  {
    var b := ResolveWait(rows, sequence, decision).1;
    assert b.waits.Keys == rows.waits.Keys;
  }

  lemma SetStateLater(rows: Rows, status: Status, outcome: Bytes, reason: string)
    requires rows.status == Blocked ==> status in {Blocked, Cancelled}
    ensures Later(rows, SetState(rows, status, outcome, reason).1)
  {
  }

  lemma StepLater(cfg: Config, sys: System, a: Attempt)
    requires !a.phase.Opening? && !a.phase.Rejecting? ==> sys.rows.status != Blocked
    ensures Later(sys.rows, Step(cfg, sys, a).rows)
  {
    LaterAtOnce(sys.rows);
    match a.phase
    case Beginning(call) => BeginLater(sys.rows, call);
    case Completing(call, response) => CompleteLater(sys.rows, call.sequence, response);
    case EnsuringWait(call, spec) => EnsureLater(sys.rows, call.sequence, spec);
    case ExpiringWait(call) => ResolveLater(sys.rows, call.sequence, EXPIRED);
    case Rejecting => SetStateLater(sys.rows, Blocked, "", ReasonText(BadDefinition));
    case Blocking(reason) => SetStateLater(sys.rows, Blocked, "", ReasonText(reason));
    case Storing(step) => StoreLater(sys, a, step);
    case _ =>
  }

  lemma StoreLater(sys: System, a: Attempt, step: GuestStep)
    requires sys.rows.status != Blocked
    ensures Later(sys.rows, Store(sys, a, step).rows)
  {
    LaterAtOnce(sys.rows);
    match step
    case Returns(output) => SetStateLater(sys.rows, Completed, output, "");
    case Raises(output, message) => SetStateLater(sys.rows, Failed, output, message);
    case _ =>
  }

  lemma AdvanceLater(cfg: Config, sys: System, sys': System)
    requires Inv(cfg, sys) && sys.attempt.Some? && sys' == Step(cfg, sys, sys.attempt.value)
    ensures Later(sys.rows, sys'.rows)
  {
    StepLater(cfg, sys, sys.attempt.value);
  }

  lemma ApplyLater(cfg: Config, sys: System, action: Action)
    requires Inv(cfg, sys)
    ensures Later(sys.rows, Apply(cfg, sys, action).rows)
  {
    LaterAtOnce(sys.rows);
    match action
    case Cancel => SetStateLater(sys.rows, Cancelled, "", "cancelled");
    case Decide(sequence, decision) => ResolveLater(sys.rows, sequence, decision);
    case Advance => if sys.attempt.Some? { AdvanceLater(cfg, sys, Apply(cfg, sys, action)); }
    case _ =>
  }

  lemma {:induction false} ExecuteLater(cfg: Config, sys: System, actions: seq<Action>)
    requires Inv(cfg, sys)
    ensures Later(sys.rows, Execute(cfg, sys, actions).rows)
    decreases |actions|
  {
    LaterAtOnce(sys.rows);
    if actions != [] {
      var sys' := Apply(cfg, sys, actions[0]);
      ApplyLater(cfg, sys, actions[0]);
      ApplyKeeps(cfg, sys, actions[0], sys');
      ExecuteLater(cfg, sys', actions[1..]);
      LaterTrans(sys.rows, sys'.rows, Execute(cfg, sys, actions).rows);
    }
  }

  lemma {:induction false} ExecuteAppend(cfg: Config, sys: System, actions: seq<Action>, more: seq<Action>)
    ensures Execute(cfg, sys, actions + more) == Execute(cfg, Execute(cfg, sys, actions), more)
    decreases |actions|
  {
    if actions == [] {
      assert actions + more == more;
    } else {
      assert (actions + more)[1..] == actions[1..] + more;
      ExecuteAppend(cfg, Apply(cfg, sys, actions[0]), actions[1..], more);
    }
  }

  /**
   However a history goes on: a terminal run keeps its status, outcome and reason; a blocked one
   stays blocked or is cancelled; completed calls and decisions never change; and once the run is
   over, no call is reserved and no wait declared.
   */
  lemma NothingIsTakenBack(cfg: Config, d: Definition, actions: seq<Action>, more: seq<Action>)
    requires DefinitionSize(d) <= MAX_RUN_PAYLOAD
    ensures var rows, rows' := After(cfg, d, actions).rows, After(cfg, d, actions + more).rows;
      && (Terminal(rows.status) ==>
            rows'.status == rows.status && rows'.outcome == rows.outcome && rows'.reason == rows.reason)
      && (rows.status == Blocked ==> rows'.status in {Blocked, Cancelled})
      && (forall i :: i in rows.calls && rows.calls[i].state == CallCompleted ==> i in rows'.calls && rows'.calls[i] == rows.calls[i])
      && (forall i :: i in rows.waits && rows.waits[i].decision.Some? ==> i in rows'.waits && rows'.waits[i] == rows.waits[i])
      && (Over(rows.status) ==> rows'.calls.Keys == rows.calls.Keys && rows'.waits.Keys == rows.waits.Keys)
  {
    HistoryKeeps(cfg, d, actions);
    ExecuteAppend(cfg, Start(d), actions, more);
    ExecuteLater(cfg, After(cfg, d, actions), more);
  }
}
