/**
 What holds after every history of the executor: admissions, cancellations, ends of contexts,
 tool waits and results in any order and at any time.
 */
module ExecutorRuns {
  import opened ExecutorModel
  import opened ExecutorInvariant
  import opened ExecutorSteps

  lemma StepKeeps(s: Exec, action: Action)
    requires Inv(s)
    ensures WellFormed(s) && Inv(Step(s, action))
  {
    CoreIsWellFormed(s);
    if Enabled(s, action) {
      match action
      case DoAdmit(runId) => AdmitKeeps(s, runId);
      case DoCancel(runId) => CancelKeeps(s, runId);
      case DoClose => DrainKeeps(s.(closed := true));
      case ContextEnds(a) => assert RowOk(s.table[a]); PutKeeps(s, a, s.table[a].(parentDone := true));
      case DoAbort(a) => StopKeeps(s, a, ContextEnded);
      case DoFinish(a, result) => FinishKeeps(s, a, result);
      case DoYield(a) => YieldKeeps(s, a);
      case DoTakeToken(a) => TakeTokenKeeps(s, a);
      case TokenGivenUp(a) => LeaveKeeps(s, a);
      case DoReturnToken(a) => ReturnTokenKeeps(s, a);
      case DoReacquire(a) => ReacquireKeeps(s, a);
      case PermitTaken(a) => LeaveKeeps(s, a);
      case PermitGivenUp(a) => GiveUpKeeps(s, a);
    }
  }

  /** The limits that `NewExecutor` accepts. */
  predicate Accepted(limits: Limits) {
    0 < limits.running <= limits.resident && 0 < limits.tools
  }

  lemma NewIsOk(limits: Limits)
    requires Accepted(limits)
    ensures Inv(New(limits))
  {
    forall a: nat, b: nat ensures Before([], a, b) && Precedes([], [], a, b) { }
  }

  // ------------------------------------------------------------------ what no step changes

  ghost predicate Stays(a: Row, b: Row) {
    a.state == Done ==> b.state == Done && b.results == a.results
  }

  ghost predicate Frame(s: Exec, s': Exec) {
    && s'.limits == s.limits
    && |s.table| <= |s'.table|
    && (s.closed ==> s'.closed && |s'.table| == |s.table|)
    && (s.drained ==> s'.drained)
    && (forall a {:trigger Stays(s.table[a], s'.table[a])} :: 0 <= a < |s.table| ==> Stays(s.table[a], s'.table[a]))
  }

  lemma FrameTrans(s: Exec, s': Exec, s'': Exec)
    requires Frame(s, s') && Frame(s', s'')
    ensures Frame(s, s'')
  {
    forall a | 0 <= a < |s.table| ensures Stays(s.table[a], s''.table[a]) {
      assert Stays(s.table[a], s'.table[a]) && Stays(s'.table[a], s''.table[a]);
    }
  }

  lemma FramePut(s: Exec, s': Exec, a: nat, r: Row)
    requires a < |s.table| && s'.table == s.table[a := r] && Stays(s.table[a], r)
    requires s'.limits == s.limits && (s.closed ==> s'.closed) && (s.drained ==> s'.drained)
    ensures Frame(s, s')
  {
  }

  lemma {:induction false} ScheduleFrame(s: Exec)
    requires Core(s) && Known(s)
    ensures Frame(s, Schedule(s))
    decreases |s.ready| + |s.queue|
  {
    if s.running < s.limits.running {
      if TakesReady(s) {
        var s', a := ServeReady(s), s.ready[0];
        Listed(s.table, s.ready, Ready, a);
        ServeReadyKeeps(s);
        FramePut(s, s', a, s'.table[a]);
        ScheduleFrame(s');
        FrameTrans(s, s', Schedule(s'));
      } else if CanAdmit(s) {
        var s', a := ServeQueue(s), s.queue[0];
        Listed(s.table, s.queue, Queued, a);
        ServeQueueKeeps(s);
        FramePut(s, s', a, s'.table[a]);
        ScheduleFrame(s');
        FrameTrans(s, s', Schedule(s'));
      }
    }
  }

  lemma FinishFrame(s: Exec, a: nat, result: string)
    requires Inv(s) && Known(s) && a < |s.table| && s.table[a].worker == Advancing
    ensures Frame(s, Finish(s, a, result))
  {
    assert RowOk(s.table[a]);
    var out := Vacated(s, a, result);
    VacateKeeps(s, a, result, out);
    CoreIsWellFormed(out);
    FramePut(s, out, a, out.table[a]);
    ScheduleFrame(out);
    FrameTrans(s, out, Schedule(out));
  }

  lemma YieldFrame(s: Exec, a: nat)
    requires Inv(s) && Known(s) && a < |s.table| && s.table[a].gate == Idle
    ensures Frame(s, Yield(s, a).0)
  {
    if s.table[a].state == Running {
      var r := s.table[a].(state := WaitingLive, gate := WantsToken);
      var out := Put(s, a, r).(running := s.running - 1);
      YieldMoves(s, a, r);
      FramePut(s, out, a, r);
      ScheduleFrame(out);
      FrameTrans(s, out, Schedule(out));
    }
  }

  lemma StopFrame(s: Exec, a: nat, outcome: Outcome)
    requires Inv(s) && a < |s.table|
    ensures Frame(s, Stop(s, a, outcome))
  {
    FramePut(s, Stop(s, a, outcome), a, Stop(s, a, outcome).table[a]);
  }

  lemma GateFrame(s: Exec, a: nat, s': Exec)
    requires Inv(s) && a < |s.table|
    requires s' in {LeaveGate(s, a), TakeToken(s, a), ReturnToken(s, a), Reacquire(s, a), GiveUp(s, a)}
    ensures Frame(s, s')
  {
    FramePut(s, s', a, s'.table[a]);
  }

  lemma ComesOrCloses(s: Exec, runId: string)
    requires Inv(s)
    ensures Frame(s, Admit(s, runId).0) && Frame(s, Close(s))
  {
  }

  lemma StepFrame(s: Exec, action: Action)
    requires Inv(s) && WellFormed(s)
    ensures Frame(s, Step(s, action))
  {
    if Enabled(s, action) {
      match action
      case DoAdmit(runId) => ComesOrCloses(s, runId);
      case DoClose => ComesOrCloses(s, "");
      case DoCancel(runId) => if runId in s.attempts { StopFrame(s, s.attempts[runId], CancelledInQueue); }
      case ContextEnds(a) => FramePut(s, Step(s, action), a, s.table[a].(parentDone := true));
      case DoAbort(a) => StopFrame(s, a, ContextEnded);
      case DoFinish(a, result) => FinishFrame(s, a, result);
      case DoYield(a) => YieldFrame(s, a);
      case DoTakeToken(a) => GateFrame(s, a, Step(s, action));
      case TokenGivenUp(a) => GateFrame(s, a, Step(s, action));
      case DoReturnToken(a) => GateFrame(s, a, Step(s, action));
      case DoReacquire(a) => GateFrame(s, a, Step(s, action));
      case PermitTaken(a) => GateFrame(s, a, Step(s, action));
      case PermitGivenUp(a) => GateFrame(s, a, Step(s, action));
    }
  }

  /** The executor after a history. */
  ghost function After(s: Exec, actions: seq<Action>): (r: Exec)
    requires Inv(s)
    ensures Inv(r) && WellFormed(r)
    decreases |actions|
  {
    CoreIsWellFormed(s);
    if actions == [] then s
    else
      StepKeeps(s, actions[0]);
      After(Step(s, actions[0]), actions[1..])
  }

  ghost function History(limits: Limits, actions: seq<Action>): (r: Exec)
    requires Accepted(limits)
    ensures Inv(r) && WellFormed(r)
  {
    NewIsOk(limits);
    After(New(limits), actions)
  }

  lemma {:induction false} AfterFrame(s: Exec, actions: seq<Action>)
    requires Inv(s)
    ensures Frame(s, After(s, actions))
    decreases |actions|
  {
    if actions != [] {
      StepKeeps(s, actions[0]);
      StepFrame(s, actions[0]);
      AfterFrame(Step(s, actions[0]), actions[1..]);
      FrameTrans(s, Step(s, actions[0]), After(s, actions));
    }
  }

  lemma LimitsStay(limits: Limits, actions: seq<Action>)
    requires Accepted(limits)
    ensures History(limits, actions).limits == limits
  {
    NewIsOk(limits);
    AfterFrame(New(limits), actions);
  }

  // ------------------------------------------------------------------------- accounting

  /**
   Counters count, limits hold, the lists and the map are exactly the attempts they are about, and
   no channel was closed twice: no permit, no result.
   */
  lemma Accounting(limits: Limits, actions: seq<Action>)
    requires Accepted(limits)
    ensures var s := History(limits, actions);
      && !s.panicked
      && s.running == Count(s.table, IsRunning) <= limits.running
      && s.resident == Count(s.table, IsLive) <= limits.resident
      && s.tokens == Count(s.table, HasToken) <= limits.tools
      && |s.queue| <= limits.queued
      && Distinct(s.queue) && (forall a :: a in s.queue <==> 0 <= a < |s.table| && s.table[a].state == Queued)
      && Distinct(s.ready) && (forall a :: a in s.ready <==> 0 <= a < |s.table| && s.table[a].state == Ready)
      && (forall a, runId :: runId in s.attempts && s.attempts[runId] == a <==>
            0 <= a < |s.table| && s.table[a].runId == runId && s.table[a].state != Done)
  {
    var s := History(limits, actions);
    LimitsStay(limits, actions);
    IncreasingIsDistinct(s.queue);
    forall a: nat ensures a in s.queue <==> a < |s.table| && s.table[a].state == Queued { Listed(s.table, s.queue, Queued, a); }
    forall a: nat ensures a in s.ready <==> a < |s.table| && s.table[a].state == Ready { Listed(s.table, s.ready, Ready, a); }
    forall a: nat, runId
      ensures runId in s.attempts && s.attempts[runId] == a <==>
              a < |s.table| && s.table[a].runId == runId && s.table[a].state != Done
    {
      RunOf(s.table, s.attempts, a, runId);
    }
  }

  // ------------------------------------------------------------------ conservation and order

  /** A ready attempt waits only while all slots run; a queued one, while running or resident is full. */
  lemma WorkConservation(limits: Limits, actions: seq<Action>)
    requires Accepted(limits)
    ensures var s := History(limits, actions);
      && (s.ready != [] ==> s.running == limits.running)
      && (s.queue != [] ==> s.running == limits.running || s.resident == limits.resident)
  {
    LimitsStay(limits, actions);
  }

  /** A slot that is taken without waiting is taken from nobody who could have had it. */
  lemma NoOvertaking(limits: Limits, actions: seq<Action>, action: Action)
    requires Accepted(limits)
    ensures var s := History(limits, actions);
      var s' := Step(s, action);
      (action.DoAdmit? && |s'.log| > |s.log|) || (action.DoReacquire? && s'.running > s.running) ==>
        s.ready == [] && !CanAdmit(s) && (action.DoAdmit? ==> s.queue == [])
  {
    StepKeeps(History(limits, actions), action);
  }

  /** Attempts start in the order of acceptance; none starts twice, and none that is queued was started. */
  lemma StartsInOrder(limits: Limits, actions: seq<Action>)
    requires Accepted(limits)
    ensures var s := History(limits, actions);
      var starts := Starts(s.log);
      && (forall i, j :: 0 <= i < j < |starts| ==> starts[i] < starts[j])
      && (forall a :: a in starts <==> 0 <= a < |s.table| && s.table[a].worker != Unstarted)
      && (forall i, b :: 0 <= i < |starts| && b in s.queue ==> starts[i] < b)
  {
    var s := History(limits, actions);
    var starts := Starts(s.log);
    forall i: nat, j: nat | i < j < |starts| ensures starts[i] < starts[j] { assert Before(starts, i, j); }
    forall a: nat ensures a in starts <==> a < |s.table| && s.table[a].worker != Unstarted {
      assert a in starts <==> IsStarted(s.table, a);
    }
    forall i, b | 0 <= i < |starts| && b in s.queue ensures starts[i] < b {
      assert starts[i] in starts;
      assert Precedes(starts, s.queue, starts[i], b);
    }
  }

  /** The grants among these events that passed over an admission that was possible. */
  function Bypassing(events: seq<Event>): nat {
    if events == [] then 0
    else
      var e := events[|events| - 1];
      Bypassing(events[..|events| - 1]) + One(e.Granted? && e.bypassed)
  }

  lemma {:induction false} BypassesAtLeast(log: seq<Event>, i: nat)
    requires i <= |log| && forall k :: i <= k < |log| ==> log[k].Granted?
    ensures Bypasses(log) >= Bypassing(log[i..])
  {
    if i < |log| {
      var before := log[..|log| - 1];
      BypassesAtLeast(before, i);
      assert log[i..][..|log[i..]| - 1] == before[i..];
    }
  }

  /** Between two starts, at most 8 grants pass over an admission that is possible. */
  lemma BoundedBypass(limits: Limits, actions: seq<Action>, i: nat, j: nat)
    requires Accepted(limits)
    requires var log := History(limits, actions).log; i <= j <= |log| && forall k :: i <= k < j ==> log[k].Granted?
    ensures Bypassing(History(limits, actions).log[i..j]) <= MAX_READY_BURST
  {
    var log := History(limits, actions).log;
    assert FairUpTo(log, j) && log[..j][i..] == log[i..j];
    BypassesAtLeast(log[..j], i);
  }

  // ------------------------------------------------------------------- results and the end

  /**
   An attempt has one result when it is over and none before; then, however the history goes on,
   it stays over with that result.
   */
  lemma CompletesOnce(s: Exec, more: seq<Action>, a: nat)
    requires Inv(s) && a < |s.table|
    ensures |s.table[a].results| == if s.table[a].state == Done then 1 else 0
    ensures |s.table| <= |After(s, more).table|
    ensures s.table[a].results != [] ==> After(s, more).table[a].results == s.table[a].results
    ensures s.table[a].state == Done ==> After(s, more).table[a].state == Done
  {
    assert RowOk(s.table[a]);
    AfterFrame(s, more);
    assert Stays(s.table[a], After(s, more).table[a]);
  }

  /** The drain closes exactly when the executor is closed and all is over; nothing is accepted after the close. */
  lemma DrainsAtTheEnd(s: Exec, more: seq<Action>)
    requires Inv(s)
    ensures s.drained <==> s.closed && forall a :: 0 <= a < |s.table| ==> s.table[a].state == Done
    ensures s.closed ==> |After(s, more).table| == |s.table|
    ensures s.drained ==> After(s, more).drained
  {
    AfterFrame(s, more);
    forall a: nat | a < |s.table| && s.table[a].state != Done ensures s.attempts != map[] {
      RunOf(s.table, s.attempts, a, s.table[a].runId);
    }
    if s.attempts != map[] {
      var runId :| runId in s.attempts;
      RunOf(s.table, s.attempts, s.attempts[runId], runId);
    }
  }

  /** Python runs outside a host call with a running slot, or after its context has ended. */
  lemma PythonHasASlot(limits: Limits, actions: seq<Action>, a: nat)
    requires Accepted(limits)
    requires var t := History(limits, actions).table; a < |t| && t[a].worker == Advancing && t[a].gate == Idle
    ensures var r := History(limits, actions).table[a]; r.state == Running || (r.state == WaitingLive && ContextDone(r))
  {
    assert RowOk(History(limits, actions).table[a]);
  }

  lemma AfterCons(s: Exec, action: Action, more: seq<Action>)
    requires Inv(s)
    ensures WellFormed(s) && Inv(Step(s, action)) && After(s, [action] + more) == After(Step(s, action), more)
  {
    StepKeeps(s, action);
    assert ([action] + more)[1..] == more;
  }

  /** The row of an attempt that was admitted, yielded, and gave up waiting for a token. */
  function Slotless(runId: string): Row {
    Row(runId, WaitingLive, false, true, false, Idle, Advancing, [])
  }

  lemma YieldsAndGivesUp(limits: Limits, runId: string, s1: Exec, s2: Exec, s3: Exec)
    requires Accepted(limits) && s1 == Step(New(limits), DoAdmit(runId))
    requires WellFormed(s1) && s2 == Step(s1, DoYield(0))
    requires WellFormed(s2) && s3 == Step(s2, ContextEnds(0))
    requires WellFormed(s3)
    ensures Step(s3, TokenGivenUp(0)).table == [Slotless(runId)]
  {
    var r := Row(runId, Running, false, false, false, Idle, Advancing, []);
    assert s1.table == [r] && s1.ready == [] && s1.queue == [];
    assert s2.table == [r.(state := WaitingLive, gate := WantsToken)];
    assert s3.table == [r.(state := WaitingLive, gate := WantsToken, parentDone := true)];
  }

  /** And the second case happens: a context that ends while a token is awaited leaves Python without a slot. */
  lemma PythonWithoutASlot(limits: Limits, runId: string)
    requires Accepted(limits)
    ensures History(limits, [DoAdmit(runId)] + ([DoYield(0)] + ([ContextEnds(0)] + ([TokenGivenUp(0)] + [])))).table
      == [Slotless(runId)]
  {
    NewIsOk(limits);
    var s0 := New(limits);
    AfterCons(s0, DoAdmit(runId), [DoYield(0)] + ([ContextEnds(0)] + ([TokenGivenUp(0)] + [])));
    var s1 := Step(s0, DoAdmit(runId));
    AfterCons(s1, DoYield(0), [ContextEnds(0)] + ([TokenGivenUp(0)] + []));
    var s2 := Step(s1, DoYield(0));
    AfterCons(s2, ContextEnds(0), [TokenGivenUp(0)] + []);
    var s3 := Step(s2, ContextEnds(0));
    AfterCons(s3, TokenGivenUp(0), []);
    YieldsAndGivesUp(limits, runId, s1, s2, s3);
  }
}
