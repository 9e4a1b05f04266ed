/** Every step of the executor keeps its invariant. */
module ExecutorSteps {
  import opened Options
  import opened Queues
  import opened ExecutorModel
  import opened ExecutorInvariant

  // ------------------------------------------------------------------- changing one attempt

  /** What any change of one attempt does to the counters, and what a kept state does to the lists. */
  lemma RowMoves(s: Exec, a: nat, r: Row)
    requires Core(s) && a < |s.table| && RowOk(r)
    requires r.runId == s.table[a].runId && HasToken(r) == HasToken(s.table[a])
    ensures RowsOk(s.table[a := r])
    ensures CountsOk(s.table[a := r], s.running - One(IsRunning(s.table[a])) + One(IsRunning(r)),
                     s.resident - One(IsLive(s.table[a])) + One(IsLive(r)), s.tokens)
    ensures (r.state == Queued <==> s.table[a].state == Queued) ==> Lists(s.table[a := r], s.queue, Queued)
    ensures (r.state == Ready <==> s.table[a].state == Ready) ==> Lists(s.table[a := r], s.ready, Ready)
    ensures (r.state == Done <==> s.table[a].state == Done) ==> RunsOk(s.table[a := r], s.attempts)
    ensures (r.worker == Unstarted <==> s.table[a].worker == Unstarted) ==> OrderOk(s.table[a := r], s.queue, Starts(s.log))
  {
    CountsPut(s.table, s.running, s.resident, s.tokens, a, r);
    if r.state == Queued <==> s.table[a].state == Queued { ListsPut(s.table, s.queue, Queued, a, r); }
    if r.state == Ready <==> s.table[a].state == Ready { ListsPut(s.table, s.ready, Ready, a, r); }
    if r.state == Done <==> s.table[a].state == Done { RunsPut(s.table, s.attempts, a, r); }
    if r.worker == Unstarted <==> s.table[a].worker == Unstarted {
      OrderPut(s.table, s.queue, s.queue, Starts(s.log), a, r);
    }
  }

  /** Changes of an attempt that leave its state and its slots alone. */
  lemma PutKeeps(s: Exec, a: nat, r: Row)
    requires Core(s) && a < |s.table| && RowOk(r)
    requires r.state == s.table[a].state && r.runId == s.table[a].runId
    requires HasToken(r) == HasToken(s.table[a]) && (r.worker == Unstarted <==> s.table[a].worker == Unstarted)
    ensures Core(Put(s, a, r)) && (Conserved(s) ==> Conserved(Put(s, a, r)))
  {
    RowMoves(s, a, r);
  }

  // ------------------------------------------------------------------------- scheduling

  /** What a grant leaves of the counters and of the rows. */
  lemma GrantCounts(s: Exec, a: nat, s': Exec)
    requires Core(s) && Known(s) && s.running < s.limits.running && s.ready != [] && a == s.ready[0] && InState(s.table, a, Ready)
    requires s' == ServeReady(s)
    ensures LimitsOk(s') && !s'.panicked && RowsOk(s'.table) && CountsOk(s'.table, s'.running, s'.resident, s'.tokens)
    ensures s'.queue == s.queue && s'.attempts == s.attempts && s'.closed == s.closed && s'.drained == s.drained
  {
    var row := s.table[a];
    assert RowOk(row);
    RowMoves(s, a, row.(state := Running, permit := false, gate := AwaitsPermit(true)));
  }

  lemma GrantLists(s: Exec, a: nat, s': Exec)
    requires Core(s) && Known(s) && s.ready != [] && a == s.ready[0] && InState(s.table, a, Ready)
    requires s' == ServeReady(s)
    ensures Lists(s'.table, s.queue, Queued) && RunsOk(s'.table, s.attempts)
    ensures Lists(s'.table, s'.ready, Ready) && Distinct(s'.ready)
  {
    var row := s.table[a];
    assert RowOk(row);
    var r := row.(state := Running, permit := false, gate := AwaitsPermit(true));
    ListsPut(s.table, s.queue, Queued, a, r);
    RunsPut(s.table, s.attempts, a, r);
    TailKeeps(s.ready);
    ListsRemove(s.table, s.ready, s.ready[1..], Ready, a, r);
  }

  lemma GrantLog(s: Exec, a: nat, s': Exec)
    requires Core(s) && Known(s) && TakesReady(s) && a == s.ready[0] && InState(s.table, a, Ready)
    requires s' == ServeReady(s)
    ensures LogOk(s')
  {
    var row := s.table[a];
    assert RowOk(row);
    OrderPut(s.table, s.queue, s.queue, Starts(s.log), a, row.(state := Running, permit := false, gate := AwaitsPermit(true)));
    LogGranted(s.log, a, CanAdmit(s));
  }

  lemma ServeReadyKeeps(s: Exec)
    requires Core(s) && Known(s) && s.running < s.limits.running && TakesReady(s)
    ensures Core(ServeReady(s)) && ServeReady(s).closed == s.closed && ServeReady(s).drained == s.drained
  {
    var a, s' := s.ready[0], ServeReady(s);
    Listed(s.table, s.ready, Ready, a);
    GrantCounts(s, a, s');
    GrantLists(s, a, s');
    GrantLog(s, a, s');
  }

  lemma BeginKeeps(s: Exec, a: nat)
    requires Core(s) && Known(s) && s.running < s.limits.running && CanAdmit(s)
    requires a == s.queue[0] && !ContextDone(s.table[a])
    ensures Core(ServeQueue(s)) && ServeQueue(s).closed == s.closed
  {
    Listed(s.table, s.queue, Queued, a);
    var row := s.table[a];
    assert RowOk(row);
    var r := row.(state := Running, worker := Advancing);
    RowMoves(s, a, r);
    IncreasingIsDistinct(s.queue);
    TailKeeps(s.queue);
    ListsRemove(s.table, s.queue, s.queue[1..], Queued, a, r);
    LogStarted(s.log, a);
    OrderStart(s.table, s.queue, s.queue[1..], Starts(s.log), a, r);
  }

  lemma {:induction false} NotListed(q: seq<nat>, a: nat)
    requires a !in q
    ensures Without(q, a) == q
  {
    if q != [] { NotListed(q[1..], a); }
  }

  /** Complete an attempt that was queued and is taken out of the queue. */
  lemma DropKeeps(s: Exec, a: nat, rest: seq<nat>, outcome: Outcome)
    requires Core(s) && a < |s.table| && s.table[a].state == Queued
    requires |rest| <= |s.queue| && Increasing(rest) && (forall b :: b in rest <==> b in s.queue && b != a)
    ensures Core(Complete(s.(queue := rest), a, outcome))
  {
    var row := s.table[a];
    assert RowOk(row);
    var r := row.(state := Done, cancelled := true, results := row.results + [outcome]);
    RowMoves(s, a, r);
    ListsRemove(s.table, s.queue, rest, Queued, a, r);
    RunsRemove(s.table, s.attempts, a, r);
    OrderPut(s.table, s.queue, rest, Starts(s.log), a, r);
  }

  lemma DropHeadKeeps(s: Exec, a: nat)
    requires Core(s) && Known(s) && s.queue != [] && a == s.queue[0] && ContextDone(s.table[a])
    ensures Core(ServeQueue(s)) && ServeQueue(s).closed == s.closed
  {
    Listed(s.table, s.queue, Queued, a);
    IncreasingIsDistinct(s.queue);
    TailKeeps(s.queue);
    NotListed(s.queue[1..], a);
    DropKeeps(s, a, s.queue[1..], ContextEnded);
  }

  lemma ServeQueueLeaves(s: Exec, s': Exec)
    requires Known(s) && s.queue != [] && InState(s.table, s.queue[0], Queued) && s' == ServeQueue(s)
    ensures s'.drained == s.drained
    ensures forall a :: 0 <= a < |s.table| && s.table[a].state != Queued ==> |s'.table| == |s.table| && s'.table[a] == s.table[a]
  {
  }

  /** One turn of the loop. */
  lemma ServeQueueKeeps(s: Exec)
    requires Core(s) && Known(s) && s.running < s.limits.running && CanAdmit(s)
    ensures Core(ServeQueue(s)) && ServeQueue(s).closed == s.closed && ServeQueue(s).drained == s.drained
    ensures forall a :: 0 <= a < |s.table| && s.table[a].state != Queued ==>
      |ServeQueue(s).table| == |s.table| && ServeQueue(s).table[a] == s.table[a]
  {
    var a := s.queue[0];
    Listed(s.table, s.queue, Queued, a);
    ServeQueueLeaves(s, ServeQueue(s));
    if ContextDone(s.table[a]) { DropHeadKeeps(s, a); } else { BeginKeeps(s, a); }
  }

  lemma {:induction false} ScheduleKeeps(s: Exec)
    requires Core(s) && Known(s)
    ensures Core(Schedule(s)) && Conserved(Schedule(s))
    ensures Schedule(s).closed == s.closed && Schedule(s).drained == s.drained
    decreases |s.ready| + |s.queue|
  {
    if s.running < s.limits.running {
      if TakesReady(s) {
        ServeReadyKeeps(s);
        ScheduleKeeps(ServeReady(s));
      } else if CanAdmit(s) {
        ServeQueueKeeps(s);
        ScheduleKeeps(ServeQueue(s));
      }
    }
  }

  predicate SameAttempt(s: Exec, s': Exec, a: nat) {
    |s'.table| == |s.table| && (a < |s.table| ==> s'.table[a] == s.table[a])
  }

  lemma ServeReadyLeaves(s: Exec, a: nat, s': Exec)
    requires Core(s) && Known(s) && s.ready != [] && s' == ServeReady(s)
    requires a < |s.table| && s.table[a].state != Ready
    ensures SameAttempt(s, s', a)
  {
    Listed(s.table, s.ready, Ready, s.ready[0]);
  }

  /** Scheduling touches no attempt but the ready and the queued ones. */
  lemma {:induction false} ScheduleLeaves(s: Exec, a: nat)
    requires Core(s) && Known(s) && a < |s.table| && s.table[a].state != Ready && s.table[a].state != Queued
    ensures SameAttempt(s, Schedule(s), a)
    decreases |s.ready| + |s.queue|
  {
    if s.running < s.limits.running {
      if TakesReady(s) {
        ServeReadyKeeps(s);
        ServeReadyLeaves(s, a, ServeReady(s));
        ScheduleLeaves(ServeReady(s), a);
      } else if CanAdmit(s) {
        ServeQueueKeeps(s);
        ScheduleLeaves(ServeQueue(s), a);
      }
    }
  }

  // --------------------------------------------------------------------------- admission

  lemma AdmitKeeps(s: Exec, runId: string)
    requires Inv(s)
    ensures Inv(Admit(s, runId).0)
  {
    if Admit(s, runId).1 == None {
      if s.running < s.limits.running && s.resident < s.limits.resident {
        AdmitStarts(s, runId);
      } else {
        AdmitQueues(s, runId);
      }
    }
  }

  /** A free slot is taken at once: nobody is waiting for it. */
  lemma AdmitStarts(s: Exec, runId: string)
    requires Inv(s) && !s.closed && runId !in s.attempts
    requires s.running < s.limits.running && s.resident < s.limits.resident
    ensures s.queue == [] && s.ready == []
    ensures Inv(Admit(s, runId).0)
  {
    var r := Row(runId, Running, false, false, false, Idle, Advancing, []);
    assert Admit(s, runId).0.table == s.table + [r];
    CountsAppend(s.table, s.running, s.resident, s.tokens, r);
    ListsAppend(s.table, s.queue, Queued, r);
    ListsAppend(s.table, s.ready, Ready, r);
    RunsAppend(s.table, s.attempts, r);
    LogStarted(s.log, |s.table|);
    OrderAppendStart(s.table, Starts(s.log), r);
  }

  lemma AdmitQueues(s: Exec, runId: string)
    requires Inv(s) && !s.closed && runId !in s.attempts && |s.queue| < s.limits.queued
    requires s.running >= s.limits.running || s.resident >= s.limits.resident
    ensures Inv(Admit(s, runId).0)
  {
    var r := Row(runId, Queued, false, false, false, Idle, Unstarted, []);
    CountsAppend(s.table, s.running, s.resident, s.tokens, r);
    ListsAppendNew(s.table, s.queue, Queued, r);
    ListsAppend(s.table, s.ready, Ready, r);
    RunsAppend(s.table, s.attempts, r);
    OrderAppend(s.table, s.queue, Starts(s.log), r);
  }

  // ---------------------------------------------------------------- cancellation and close

  lemma DrainKeeps(s: Exec)
    requires Core(s) && Conserved(s)
    ensures Inv(MaybeDrain(s))
  {
  }

  lemma StopKeeps(s: Exec, a: nat, outcome: Outcome)
    requires Inv(s) && a < |s.table|
    ensures Inv(Stop(s, a, outcome))
  {
    assert RowOk(s.table[a]);
    if s.table[a].state == Queued {
      StopQueued(s, a, outcome);
    } else if Live(s.table[a].state) {
      PutKeeps(s, a, s.table[a].(cancelled := true));
    }
  }

  lemma StopQueued(s: Exec, a: nat, outcome: Outcome)
    requires Inv(s) && a < |s.table| && s.table[a].state == Queued
    ensures Inv(Stop(s, a, outcome))
  {
    WithoutIsShorter(s.queue, a);
    IncreasingIsDistinct(s.queue);
    WithoutContents(s.queue, a);
    DropKeeps(s, a, Without(s.queue, a), outcome);
    DrainKeeps(DropQueued(s, a, outcome));
  }

  lemma CancelKeeps(s: Exec, runId: string)
    requires Inv(s)
    ensures runId in s.attempts ==> s.attempts[runId] < |s.table|
    ensures Inv(Cancel(s, runId))
  {
    if runId in s.attempts {
      RunOf(s.table, s.attempts, s.attempts[runId], runId);
      StopKeeps(s, s.attempts[runId], CancelledInQueue);
    }
  }

  // ------------------------------------------------------------------------------- finish

  lemma FinishKeeps(s: Exec, a: nat, result: string)
    requires Inv(s) && Known(s) && a < |s.table| && s.table[a].worker == Advancing
    ensures Live(s.table[a].state)
    ensures Inv(Finish(s, a, result))
  {
    assert RowOk(s.table[a]);
    var out := Vacated(s, a, result);
    VacateKeeps(s, a, result, out);
    CoreIsWellFormed(out);
    ScheduleKeeps(out);
    DrainKeeps(Schedule(out));
  }

  /** Attempt `a` has returned, is completed and gives back what it held. */
  function Vacated(s: Exec, a: nat, result: string): Exec
    requires a < |s.table|
  {
    Complete(Vacate(Put(s, a, s.table[a].(worker := Returned)), a), a, Advanced(result))
  }

  lemma VacateKeeps(s: Exec, a: nat, result: string, s': Exec)
    requires Core(s) && a < |s.table| && Live(s.table[a].state) && s' == Vacated(s, a, result)
    ensures Core(s')
  {
    if s.table[a].state == Running { RunningVacates(s, a, result, s'); }
    else if s.table[a].state == WaitingLive { WaitingVacates(s, a, result, s'); }
    else { ReadyVacates(s, a, result, s'); }
  }

  function Over(row: Row, result: string): Row {
    row.(worker := Returned, state := Done, cancelled := true, results := row.results + [Advanced(result)])
  }

  /** What every kind of attempt keeps when it is over. */
  lemma OverKeeps(s: Exec, a: nat, out: Row, result: string)
    requires Core(s) && a < |s.table| && Live(s.table[a].state) && out == Over(s.table[a], result)
    ensures s.table[a].results == []
    ensures RowsOk(s.table[a := out]) && Lists(s.table[a := out], s.queue, Queued)
    ensures CountsOk(s.table[a := out], s.running - One(IsRunning(s.table[a])), s.resident - 1, s.tokens)
    ensures s.table[a].state != Ready ==> Lists(s.table[a := out], s.ready, Ready)
    ensures RunsOk(s.table[a := out], s.attempts - {out.runId}) && out.runId in s.attempts
    ensures OrderOk(s.table[a := out], s.queue, Starts(s.log))
    ensures s.resident > 0 && (s.table[a].state == Running ==> s.running > 0)
  {
    assert RowOk(s.table[a]);
    RowMoves(s, a, out);
    RunsRemove(s.table, s.attempts, a, out);
    CountIsPositive(s.table, a, IsLive);
    if s.table[a].state == Running { CountIsPositive(s.table, a, IsRunning); }
  }

  lemma RunningVacates(s: Exec, a: nat, result: string, s': Exec)
    requires Core(s) && a < |s.table| && s.table[a].state == Running && s' == Vacated(s, a, result)
    ensures Core(s')
  {
    var out := Over(s.table[a], result);
    OverKeeps(s, a, out, result);
    assert s'.table == s.table[a := out];
  }

  lemma WaitingVacates(s: Exec, a: nat, result: string, s': Exec)
    requires Core(s) && a < |s.table| && s.table[a].state == WaitingLive && s' == Vacated(s, a, result)
    ensures Core(s')
  {
    var out := Over(s.table[a], result);
    OverKeeps(s, a, out, result);
    assert s'.table == s.table[a := out];
  }

  lemma ReadyVacates(s: Exec, a: nat, result: string, s': Exec)
    requires Core(s) && a < |s.table| && s.table[a].state == Ready && s' == Vacated(s, a, result)
    ensures Core(s')
  {
    var out := Over(s.table[a], result);
    OverKeeps(s, a, out, result);
    assert s'.table == s.table[a := out];
    WithoutContents(s.ready, a);
    ListsRemove(s.table, s.ready, Without(s.ready, a), Ready, a, out);
  }

  lemma {:induction false} CountIsPositive(t: seq<Row>, a: nat, p: Row -> bool)
    requires a < |t| && p(t[a])
    ensures Count(t, p) > 0
  {
    if a < |t| - 1 { CountIsPositive(t[..|t| - 1], a, p); }
  }

  // --------------------------------------------------------------------------------- gate

  lemma YieldKeeps(s: Exec, a: nat)
    requires Inv(s) && Known(s) && a < |s.table| && s.table[a].gate == Idle
    ensures Inv(Yield(s, a).0)
  {
    if s.table[a].state == Running {
      var r := s.table[a].(state := WaitingLive, gate := WantsToken);
      YieldMoves(s, a, r);
      YieldSchedules(Put(s, a, r).(running := s.running - 1), a);
    }
  }

  lemma YieldMoves(s: Exec, a: nat, r: Row)
    requires Core(s) && a < |s.table| && s.table[a].state == Running && s.table[a].gate == Idle
    requires r == s.table[a].(state := WaitingLive, gate := WantsToken)
    ensures Core(Put(s, a, r).(running := s.running - 1))
  {
    assert RowOk(s.table[a]);
    RowMoves(s, a, r);
    CountIsPositive(s.table, a, IsRunning);
  }

  /** The attempt that has just given its slot away is still there, so nothing is drained. */
  lemma YieldSchedules(s: Exec, a: nat)
    requires Core(s) && Known(s) && a < |s.table| && s.table[a].state == WaitingLive
    ensures Inv(Schedule(s))
  {
    ScheduleKeeps(s);
    ScheduleLeaves(s, a);
    var s' := Schedule(s);
    RunOf(s'.table, s'.attempts, a, s.table[a].runId);
  }

  lemma TakeTokenKeeps(s: Exec, a: nat)
    requires Inv(s) && a < |s.table| && s.table[a].gate == WantsToken && s.tokens < s.limits.tools
    ensures Inv(TakeToken(s, a))
  {
    assert RowOk(s.table[a]);
    TokenMoves(s, a, s.table[a].(gate := HoldsToken));
  }

  lemma ReturnTokenKeeps(s: Exec, a: nat)
    requires Inv(s) && a < |s.table| && s.table[a].gate == HoldsToken
    ensures Inv(ReturnToken(s, a))
  {
    assert RowOk(s.table[a]);
    CountIsPositive(s.table, a, HasToken);
    TokenMoves(s, a, s.table[a].(gate := Released));
  }

  lemma TokenMoves(s: Exec, a: nat, r: Row)
    requires Core(s) && a < |s.table| && r == s.table[a].(gate := r.gate) && RowOk(r)
    requires 0 <= s.tokens - One(HasToken(s.table[a])) + One(HasToken(r)) <= s.limits.tools
    ensures Core(Put(s, a, r).(tokens := s.tokens - One(HasToken(s.table[a])) + One(HasToken(r))))
  {
    CountsPut(s.table, s.running, s.resident, s.tokens, a, r);
    ListsPut(s.table, s.queue, Queued, a, r);
    ListsPut(s.table, s.ready, Ready, a, r);
    RunsPut(s.table, s.attempts, a, r);
    OrderPut(s.table, s.queue, s.queue, Starts(s.log), a, r);
  }

  lemma ReacquireKeeps(s: Exec, a: nat)
    requires Inv(s) && a < |s.table| && s.table[a].gate == Released
    ensures Inv(Reacquire(s, a))
  {
    var row := s.table[a];
    assert RowOk(row);
    if row.state != WaitingLive || ContextDone(row) {
      PutKeeps(s, a, row.(gate := Idle));
    } else if s.running < s.limits.running {
      RowMoves(s, a, row.(state := Running, gate := Idle));
    } else {
      ReacquireQueues(s, a, Reacquire(s, a));
    }
  }

  lemma ReacquireQueues(s: Exec, a: nat, s': Exec)
    requires Inv(s) && a < |s.table| && s.table[a].gate == Released
    requires s.table[a].state == WaitingLive && !ContextDone(s.table[a]) && s.running >= s.limits.running
    requires s' == Reacquire(s, a)
    ensures Inv(s')
  {
    var row := s.table[a];
    assert RowOk(row);
    var r := row.(state := Ready, permit := true, gate := AwaitsPermit(false));
    RowMoves(s, a, r);
    ListsPush(s.table, s.ready, Ready, a, r);
  }

  lemma GiveUpKeeps(s: Exec, a: nat)
    requires Inv(s) && a < |s.table| && s.table[a].gate.AwaitsPermit? && ContextDone(s.table[a])
    ensures Inv(GiveUp(s, a))
  {
    var row := s.table[a];
    assert RowOk(row);
    if row.state == Ready {
      var r := row.(state := WaitingLive, permit := false, gate := Idle);
      RowMoves(s, a, r);
      WithoutContents(s.ready, a);
      ListsRemove(s.table, s.ready, Without(s.ready, a), Ready, a, r);
      Listed(s.table, s.ready, Ready, a);
    } else {
      PutKeeps(s, a, row.(gate := Idle));
    }
  }

  lemma LeaveKeeps(s: Exec, a: nat)
    requires Inv(s) && a < |s.table|
    requires s.table[a].gate == AwaitsPermit(true) || (s.table[a].gate == WantsToken && ContextDone(s.table[a]))
    ensures Inv(LeaveGate(s, a))
  {
    assert RowOk(s.table[a]);
    PutKeeps(s, a, s.table[a].(gate := Idle));
  }
}
