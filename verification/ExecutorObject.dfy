/**
 The executor as the object that its mutex protects: every method is one section under the
 mutex, and does what the step of the state machine says. Attempts are kept in a table.
 */
module ExecutorObject {
  import opened Options
  import opened Queues
  import opened ExecutorModel
  import opened ExecutorInvariant
  import opened ExecutorSteps
  import opened ExecutorRuns

  /** What a caller asks for; zero means the default, and `active` is the old name of `running`. */
  datatype Requested = Requested(active: int, running: int, resident: int, tools: int, queued: int)

  method Resolve(r: Requested) returns (limits: Option<Limits>)
    ensures limits.Some? ==> Accepted(limits.value) && limits.value.queued == r.queued
    ensures limits.Some? ==>
      && limits.value.running == (if r.running == 0 then r.active else r.running)
      && (r.resident == 0 ==> limits.value.resident == limits.value.running)
      && (r.resident != 0 ==> limits.value.resident == r.resident)
      && (r.tools == 0 ==> limits.value.tools == limits.value.resident)
      && (r.tools != 0 ==> limits.value.tools == r.tools)
    ensures limits.None? <==>
      || (r.running != 0 && r.active != 0 && r.active != r.running)
      || (r.running == 0 && r.active <= 0) || r.running < 0
      || (r.resident != 0 && r.resident < if r.running == 0 then r.active else r.running)
      || r.tools < 0 || r.queued < 0
  {
    var running, resident, tools := r.running, r.resident, r.tools;
    if running == 0 { running := r.active; } else if r.active != 0 && r.active != running { return None; }
    if resident == 0 { resident := running; }
    if tools == 0 { tools := resident; }
    if running <= 0 || resident < running || tools <= 0 || r.queued < 0 { return None; }
    return Some(Limits(running, resident, r.queued, tools));
  }

  method RemoveFirst(q: seq<nat>, target: nat) returns (r: seq<nat>)
    ensures r == Without(q, target)
  {
    for i := 0 to |q|
      invariant target !in q[..i]
    {
      if q[i] == target {
        WithoutAt(q, target, i);
        return q[..i] + q[i + 1..];
      }
    }
    assert q[..|q|] == q;
    NotListed(q, target);
    return q;
  }

  class Executor {
    const limits: Limits
    var closed: bool
    var drained: bool
    var queue: seq<nat>
    var ready: seq<nat>
    var burst: nat
    var running: int
    var resident: int
    var tokens: int
    var attempts: map<string, nat>
    var table: seq<Row>
    ghost var log: seq<Event>
    ghost var panicked: bool

    ghost function Abs(): Exec
      reads this
    {
      Exec(limits, closed, drained, queue, ready, burst, running, resident, tokens, attempts, table, log, panicked)
    }

    ghost predicate Valid()
      reads this
    {
      Inv(Abs()) && WellFormed(Abs())
    }

    constructor (limits: Limits)
      requires Accepted(limits)
      ensures Abs() == New(limits) && Valid()
    {
      this.limits, closed, drained, queue, ready, burst := limits, false, false, [], [], 0;
      running, resident, tokens, attempts, table := 0, 0, 0, map[], [];
      log, panicked := [], false;
      new;
      NewIsOk(limits);
    }

    method Complete(a: nat, outcome: Outcome)
      requires a < |table|
      modifies this
      ensures Abs() == ExecutorModel.Complete(old(Abs()), a, outcome)
    {
      var r := table[a];
      panicked := panicked || r.results != [];
      table := table[a := r.(state := Done, cancelled := true, results := r.results + [outcome])];
      attempts := attempts - {r.runId};
    }

    method DropQueued(a: nat, outcome: Outcome)
      requires a < |table|
      modifies this
      ensures Abs() == ExecutorModel.DropQueued(old(Abs()), a, outcome)
    {
      queue := RemoveFirst(queue, a);
      Complete(a, outcome);
    }

    method MaybeDrain()
      modifies this
      ensures Abs() == ExecutorModel.MaybeDrain(old(Abs()))
    {
      if closed && !drained && attempts == map[] { drained := true; }
    }

    /** Hand a running slot to an attempt that waits for its permit. */
    method Grant(a: nat, ghost bypassed: bool)
      requires a < |table|
      modifies this
      ensures Abs() == ExecutorModel.Grant(old(Abs()), a, bypassed)
    {
      var r := table[a];
      var open := r.permit && r.gate == AwaitsPermit(false);
      table := table[a := r.(state := Running, permit := false, gate := if open then AwaitsPermit(true) else r.gate)];
      running, burst := running + 1, burst + 1;
      log, panicked := log + [Granted(a, bypassed)], panicked || !open;
    }

    /** Start the worker of an attempt. */
    method Begin(a: nat)
      requires a < |table|
      modifies this
      ensures Abs() == ExecutorModel.Begin(old(Abs()), a)
    {
      table := table[a := table[a].(state := Running, worker := Advancing)];
      running, resident, burst := running + 1, resident + 1, 0;
      log := log + [Started(a)];
    }

    /** Fill the free running slots. */
    method Schedule()
      requires Known(Abs())
      modifies this
      ensures Abs() == ExecutorModel.Schedule(old(Abs()))
    {
      while running < limits.running
        invariant Known(Abs())
        invariant ExecutorModel.Schedule(Abs()) == ExecutorModel.Schedule(old(Abs()))
        decreases |ready| + |queue|
      {
        ghost var s := Abs();
        var canAdmit := resident < limits.resident && |queue| > 0;
        if |ready| > 0 && (!canAdmit || burst < MAX_READY_BURST) {
          var next := ready[0];
          ready := ready[1..];
          if table[next].state == Ready { Grant(next, canAdmit); }
          assert Abs() == ServeReady(s);
          continue;
        }
        if resident >= limits.resident || |queue| == 0 { return; }
        var next := queue[0];
        queue := queue[1..];
        if table[next].state == Queued {
          if ContextDone(table[next]) { DropQueued(next, ContextEnded); } else { Begin(next); }
        }
        assert Abs() == ServeQueue(s);
      }
    }

    /** Give back the slots of an attempt. */
    method Vacate(a: nat)
      requires a < |table|
      modifies this
      ensures Abs() == ExecutorModel.Vacate(old(Abs()), a)
    {
      match table[a].state {
        case Running => running, resident := running - 1, resident - 1;
        case WaitingLive => resident := resident - 1;
        case Ready =>
          ready := RemoveFirst(ready, a);
          resident := resident - 1;
        case _ =>
      }
    }

    method Admit(runId: string) returns (id: nat, err: Option<AdmitError>)
      requires Valid()
      modifies this
      ensures Valid()
      ensures (Abs(), err) == ExecutorModel.Admit(old(Abs()), runId)
      ensures err.None? ==> id == |old(table)|
    {
      StepKeeps(Abs(), DoAdmit(runId));
      CoreIsWellFormed(Step(Abs(), DoAdmit(runId)));
      id, err := |table|, None;
      if closed { return id, Some(ErrClosed); }
      if runId in attempts { return id, Some(ErrBusy); }
      if running < limits.running && resident < limits.resident {
        attempts := attempts[runId := id];
        table := table + [Row(runId, Queued, false, false, false, Idle, Unstarted, [])];
        Begin(id);
        return;
      }
      if |queue| >= limits.queued { return id, Some(ErrQueueFull); }
      attempts := attempts[runId := id];
      table := table + [Row(runId, Queued, false, false, false, Idle, Unstarted, [])];
      queue := queue + [id];
    }

    method Cancel(runId: string)
      requires Valid()
      modifies this
      ensures Valid()
      ensures Abs() == Step(old(Abs()), DoCancel(runId))
    {
      StepKeeps(Abs(), DoCancel(runId));
      CoreIsWellFormed(Step(Abs(), DoCancel(runId)));
      if runId !in attempts { return; }
      var a := attempts[runId];
      var state := table[a].state;
      if state == Queued {
        DropQueued(a, CancelledInQueue);
        MaybeDrain();
      } else if Live(state) {
        table := table[a := table[a].(cancelled := true)];
      }
    }

    /** The context of an accepted attempt has ended. */
    method Abort(a: nat)
      requires Valid() && a < |table| && table[a].parentDone
      modifies this
      ensures Valid()
      ensures Abs() == Step(old(Abs()), DoAbort(a))
    {
      StepKeeps(Abs(), DoAbort(a));
      CoreIsWellFormed(Step(Abs(), DoAbort(a)));
      var state := table[a].state;
      if state == Queued {
        DropQueued(a, ContextEnded);
        MaybeDrain();
      } else if Live(state) {
        table := table[a := table[a].(cancelled := true)];
      }
    }

    method Finish(a: nat, result: string)
      requires Valid() && a < |table| && table[a].worker == Advancing
      modifies this
      ensures Valid()
      ensures Abs() == Step(old(Abs()), DoFinish(a, result))
    {
      StepKeeps(Abs(), DoFinish(a, result));
      CoreIsWellFormed(Step(Abs(), DoFinish(a, result)));
      WorkerReturns(a, result);
    }

    /** The worker of the attempt is back with its result. */
    method WorkerReturns(a: nat, result: string)
      requires Known(Abs()) && a < |table|
      modifies this
      ensures Abs() == ExecutorModel.Finish(old(Abs()), a, result)
    {
      WithoutIsShorter(ready, a);
      table := table[a := table[a].(worker := Returned)];
      if table[a].state == Done || table[a].state == Queued { return; }
      Retire(a, result);
    }

    /** Give the slots back, publish the result and let others in. */
    method Retire(a: nat, result: string)
      requires a < |table| && Known(Abs()) && Known(ExecutorModel.Vacate(Abs(), a))
      modifies this
      ensures Abs() == ExecutorModel.MaybeDrain(ExecutorModel.Schedule(
        ExecutorModel.Complete(ExecutorModel.Vacate(old(Abs()), a), a, Advanced(result))))
    {
      Vacate(a);
      Complete(a, Advanced(result));
      Schedule();
      MaybeDrain();
    }

    /** Give the running slot away for a host call that waits; false is an error. */
    method Yield(a: nat) returns (ok: bool)
      requires Valid() && a < |table| && table[a].worker == Advancing && table[a].gate == Idle
      modifies this
      ensures Valid()
      ensures Abs() == Step(old(Abs()), DoYield(a)) && ok == (old(table)[a].state == Running)
    {
      StepKeeps(Abs(), DoYield(a));
      CoreIsWellFormed(Step(Abs(), DoYield(a)));
      if table[a].state != Running { return false; }
      GiveSlotAway(a);
      return true;
    }

    /** The running slot goes to others; the call wants a token now. */
    method GiveSlotAway(a: nat)
      requires Known(Abs()) && a < |table| && table[a].state == Running
      modifies this
      ensures Abs() == ExecutorModel.Yield(old(Abs()), a).0
    {
      table := table[a := table[a].(state := WaitingLive, gate := WantsToken)];
      running := running - 1;
      Schedule();
    }

    /** Ask for a running slot again; false when the attempt must wait for its permit or has ended. */
    method Reacquire(a: nat) returns (gotSlot: bool)
      requires Valid() && a < |table| && table[a].gate == Released
      modifies this
      ensures Valid()
      ensures Abs() == Step(old(Abs()), DoReacquire(a))
      ensures gotSlot == (table[a].state == Running)
    {
      StepKeeps(Abs(), DoReacquire(a));
      CoreIsWellFormed(Step(Abs(), DoReacquire(a)));
      assert RowOk(table[a]);
      gotSlot := AskForSlot(a);
    }

    /** Take a free slot, or join the ready list, unless the attempt has ended. */
    method AskForSlot(a: nat) returns (gotSlot: bool)
      requires a < |table|
      modifies this
      ensures Abs() == ExecutorModel.Reacquire(old(Abs()), a)
      ensures gotSlot == (old(table)[a].state == WaitingLive && !ContextDone(old(table)[a]) && old(running) < limits.running)
    {
      var r := table[a];
      if r.state != WaitingLive || ContextDone(r) {
        table := table[a := r.(gate := Idle)];
        return false;
      }
      if running < limits.running {
        table := table[a := r.(state := Running, gate := Idle)];
        running := running + 1;
        return true;
      }
      table := table[a := r.(state := Ready, permit := true, gate := AwaitsPermit(false))];
      ready := ready + [a];
      return false;
    }

    /** The context has ended before the permit came. */
    method GiveUp(a: nat)
      requires Valid() && a < |table| && table[a].gate.AwaitsPermit? && ContextDone(table[a])
      modifies this
      ensures Valid()
      ensures Abs() == Step(old(Abs()), PermitGivenUp(a))
    {
      StepKeeps(Abs(), PermitGivenUp(a));
      CoreIsWellFormed(Step(Abs(), PermitGivenUp(a)));
      if table[a].state == Ready {
        ready := RemoveFirst(ready, a);
        table := table[a := table[a].(state := WaitingLive, permit := false, gate := Idle)];
      } else {
        table := table[a := table[a].(gate := Idle)];
      }
    }

    method Close()
      requires Valid()
      modifies this
      ensures Valid()
      ensures Abs() == Step(old(Abs()), DoClose)
    {
      StepKeeps(Abs(), DoClose);
      CoreIsWellFormed(Step(Abs(), DoClose));
      closed := true;
      MaybeDrain();
    }
  }
}
