/**
 The simulator as it runs: fields that are updated in place, lists that grow and shrink, and the
 loops over events, candidates and the queue.
 */
module SimObject {
  import opened Options
  import opened Queues
  import opened SimModel
  import opened SimInvariant
  import opened SimSteps
  import opened SimRuns
  import opened SimTime
  import opened SimStart
  import opened SimTheorems

  // ------------------------------------------------------------------------- validation

  method ValidateTask(task: Task) returns (ok: bool)
    ensures ok == TaskValid(task)
  {
    if task.id == "" || task.arrival < 0 || task.residentBytes < 0 || |task.phases| == 0 || task.phases[0].kind != CPU {
      return false;
    }
    for i := 0 to |task.phases|
      invariant forall j: nat :: j < i ==> PhaseOk(task.phases, j)
    {
      var phase := task.phases[i];
      ghost var good := PhaseOk(task.phases, i);
      if phase.duration <= 0 { return false; }
      if phase.kind == OtherKind { return false; }
      if phase.kind == DurableWait && i + 1 < |task.phases| && task.phases[i + 1].kind != CPU { return false; }
    }
    return true;
  }

  method ValidateSimulation(tasks: seq<Task>, config: Config) returns (ok: bool)
    ensures ok == Accepted(tasks, config)
  {
    if |tasks| == 0 || config.maxRunning < 1 || config.maxResident < config.maxRunning || config.maxTools < 1 || config.maxQueued < 0 {
      return false;
    }
    if config.policy == OtherPolicy { return false; }
    var seen: set<string> := {};
    for t := 0 to |tasks|
      invariant forall u: nat :: u < t ==> TaskValid(tasks[u]) && tasks[u].id in seen
      invariant forall u: nat, v: nat {:trigger IdsDiffer(tasks, u, v)} :: u < v < t ==> IdsDiffer(tasks, u, v)
      invariant forall id :: id in seen ==> exists u: nat :: u < t && tasks[u].id == id
    {
      ghost var good := TaskValid(tasks[t]);
      var valid := ValidateTask(tasks[t]);
      if !valid { return false; }
      if tasks[t].id in seen {
        var u: nat :| u < t && tasks[u].id == tasks[t].id;
        assert !IdsDiffer(tasks, u, t);
        return false;
      }
      seen := seen + {tasks[t].id};
    }
    return true;
  }

  // --------------------------------------------------------------------------- the object

  class Simulator {
    const config: Config
    const tasks: seq<Task>
    var now: int
    var number: nat
    var events: seq<Event>
    var states: seq<TaskState>
    var ready: seq<nat>
    var admission: seq<nat>
    var toolQueue: seq<nat>
    var running: int
    var resident: int
    var tools: int
    var completed: int
    var rejected: int
    var makespan: int
    var runningTime: int
    var toolTime: int
    var peakRunning: int
    var peakResident: int
    var peakTools: int
    var results: map<string, TaskResult>

    ghost function Snapshot(): Sim
      reads this
    {
      Sim(config, tasks, now, number, events, states, ready, admission, toolQueue, running, resident, tools,
        completed, rejected, makespan, runningTime, toolTime, peakRunning, peakResident, peakTools, results)
    }

    ghost predicate Sized(t: nat)
      reads this
    {
      t < |states| && t < |tasks|
    }

    constructor (tasks: seq<Task>, config: Config)
      ensures this.tasks == tasks && this.config == config && Snapshot() == Announced(tasks, config, 0)
    {
      this.config, this.tasks := config, tasks;
      now, number, events, states, ready, admission, toolQueue := 0, 0, [], [], [], [], [];
      running, resident, tools, completed, rejected, makespan, runningTime, toolTime := 0, 0, 0, 0, 0, 0, 0, 0;
      peakRunning, peakResident, peakTools, results := 0, 0, 0, map[];
    }

    // --------------------------------------------------------------------------- queues

    method PushEvent(at: int, kind: EventKind, t: nat)
      requires Sized(t)
      modifies this`number, this`events
      ensures Snapshot() == Push(old(Snapshot()), at, kind, t)
    {
      number := number + 1;
      events := events + [Event(at, number, kind, t, states[t].phase)];
    }

    method JoinAdmission(t: nat, continuation: bool)
      requires Sized(t)
      modifies this`number, this`states, this`admission
      ensures Snapshot() == EnqueueAdmission(old(Snapshot()), t, continuation)
    {
      number := number + 1;
      states := states[t := states[t].(continuation := continuation, readySeq := number)];
      admission := admission + [t];
    }

    method JoinReady(t: nat, continuation: bool)
      requires Sized(t)
      modifies this`number, this`states, this`ready
      ensures Snapshot() == EnqueueReady(old(Snapshot()), t, continuation)
    {
      number := number + 1;
      states := states[t := states[t].(continuation := continuation, readySeq := number)];
      ready := ready + [t];
    }

    method JoinTools(t: nat)
      requires Sized(t)
      modifies this`states, this`toolQueue
      ensures Snapshot() == EnqueueTool(old(Snapshot()), t)
    {
      states := states[t := states[t].(inToolQueue := true)];
      toolQueue := toolQueue + [t];
    }

    method Release(t: nat)
      requires Sized(t)
      modifies this`states, this`resident
      ensures Snapshot() == ReleaseResident(old(Snapshot()), t)
    {
      if !states[t].admitted { return; }
      states := states[t := states[t].(admitted := false)];
      resident := resident - 1;
    }

    method CompleteTask(t: nat)
      requires Sized(t)
      modifies this`states, this`resident, this`completed, this`results, this`makespan
      ensures Snapshot() == Complete(old(Snapshot()), t)
    {
      states := states[t := states[t].(completed := true)];
      Release(t);
      RecordResult(t);
    }

    method RecordResult(t: nat)
      requires Sized(t)
      modifies this`completed, this`results, this`makespan
      ensures Snapshot() == old(Snapshot()).(completed := old(completed) + 1,
        results := old(results)[tasks[t].id := Done(now, now - tasks[t].arrival)],
        makespan := if now > old(makespan) then now else old(makespan))
    {
      completed := completed + 1;
      results := results[tasks[t].id := Done(now, now - tasks[t].arrival)];
      if now > makespan { makespan := now; }
    }

    method Peaks()
      modifies this`peakRunning, this`peakResident, this`peakTools
      ensures Snapshot() == UpdatePeaks(old(Snapshot()))
    {
      if running > peakRunning { peakRunning := running; }
      if resident > peakResident { peakResident := resident; }
      if tools > peakTools { peakTools := tools; }
    }

    // --------------------------------------------------------------------------- events

    method AdvanceTask(t: nat)
      requires Sized(t)
      modifies this
      ensures Snapshot() == Advance(old(Snapshot()), t)
    {
      if states[t].phase >= |tasks[t].phases| {
        CompleteTask(t);
        return;
      }
      var phase := tasks[t].phases[states[t].phase];
      if !states[t].admitted {
        JoinAdmission(t, states[t].phase > 0);
        return;
      }
      match phase.kind
      case CPU => JoinReady(t, states[t].phase > 0);
      case ExternalIO =>
        states := states[t := states[t].(continuation := true)];
        if config.liveIO { JoinTools(t); } else { JoinReady(t, true); }
      case DurableWait =>
        Release(t);
        PushEvent(now + phase.duration, WaitDone, t);
      case OtherKind =>
    }

    method LeaveSlot(t: nat)
      requires Sized(t)
      modifies this`running, this`states
      ensures Snapshot() == DropSlot(old(Snapshot()), t)
    {
      running := running - 1;
      states := states[t := states[t].(holdsRunning := false)];
    }

    method CPUIsDone(t: nat)
      requires Sized(t)
      modifies this
      ensures Snapshot() == AfterCPU(NextPhase(old(Snapshot()), t), t)
    {
      states := states[t := states[t].(phase := states[t].phase + 1)];
      if states[t].phase < |tasks[t].phases| && tasks[t].phases[states[t].phase].kind == ExternalIO && !config.liveIO {
        JoinTools(t);
        return;
      }
      LeaveSlot(t);
      AdvanceTask(t);
    }

    method IOIsDone(t: nat)
      requires Sized(t)
      modifies this
      ensures Snapshot() == AfterIO(NextPhase(LeaveTool(old(Snapshot()), t), t), t)
    {
      tools := tools - 1;
      states := states[t := states[t].(inToolQueue := false)];
      states := states[t := states[t].(phase := states[t].phase + 1)];
      GoOn(t);
    }

    /** With its running slot, if it kept that, a task goes on to CPU; otherwise without one. */
    method GoOn(t: nat)
      requires Sized(t)
      modifies this
      ensures Snapshot() == AfterIO(old(Snapshot()), t)
    {
      if states[t].holdsRunning {
        if states[t].phase < |tasks[t].phases| && tasks[t].phases[states[t].phase].kind == CPU {
          PushEvent(now + tasks[t].phases[states[t].phase].duration, CPUDone, t);
          return;
        }
        LeaveSlot(t);
      }
      AdvanceTask(t);
    }

    method HandleEvent(e: Event) returns (ok: bool)
      requires Sized(e.task)
      modifies this
      ensures ok <==> Handle(old(Snapshot()), e).Some?
      ensures ok ==> Snapshot() == Handle(old(Snapshot()), e).value
    {
      var t, x := e.task, states[e.task];
      if x.completed || x.rejected { return true; }
      match e.kind {
        case Arrival => JoinAdmission(t, false);
        case CPUDone =>
          if e.phase != x.phase || !x.holdsRunning { return false; }
          CPUIsDone(t);
        case IODone =>
          if e.phase != x.phase || !x.inToolQueue { return false; }
          IOIsDone(t);
        case WaitDone =>
          if e.phase != x.phase || x.admitted { return false; }
          states := states[t := states[t].(phase := states[t].phase + 1)];
          AdvanceTask(t);
      }
      return true;
    }

    method PopEvent() returns (e: Event)
      requires events != []
      modifies this`events
      ensures e == Top(old(events)) && Snapshot() == old(Snapshot()).(events := Popped(old(events)))
    {
      var least := 0;
      for i := 1 to |events|
        invariant least == Earliest(events, i)
      {
        if Before(events[i], events[least]) { least := i; }
      }
      e := events[least];
      events := events[..least] + events[least + 1..];
    }

    method PeekTime() returns (at: int)
      requires events != []
      ensures at == Top(events).at
    {
      var least := 0;
      for i := 1 to |events|
        invariant least == Earliest(events, i)
      {
        if Before(events[i], events[least]) { least := i; }
      }
      return events[least].at;
    }

    method CollectBatch(at: int) returns (batch: seq<Event>)
      modifies this`events
      ensures (batch, events) == TakeBatch(old(events), at)
      ensures Snapshot() == old(Snapshot()).(events := events)
    {
      batch := [];
      ghost var (all, rest) := TakeBatch(events, at);
      while events != []
        invariant batch + TakeBatch(events, at).0 == all && TakeBatch(events, at).1 == rest
        invariant Snapshot() == old(Snapshot()).(events := events)
        decreases |events|
      {
        var next := PeekTime();
        assert batch + [] == batch;
        if next != at { return; }
        var e := PopEvent();
        batch := batch + [e];
      }
      assert batch + [] == batch;
    }

    // -------------------------------------------------------------------------- draining

    method StartTools()
      requires Settled(Snapshot(), events)
      modifies this
      ensures Snapshot() == DrainTools(old(Snapshot()))
    {
      while tools < config.maxTools && |toolQueue| > 0
        invariant Settled(Snapshot(), events) && DrainTools(Snapshot()) == DrainTools(old(Snapshot()))
        decreases |toolQueue|
      {
        StartOneTool();
      }
    }

    method StartOneTool()
      requires Settled(Snapshot(), events) && toolQueue != [] && tools < config.maxTools
      modifies this
      ensures Snapshot() == StartTool(old(Snapshot())) && Settled(Snapshot(), events)
      ensures |toolQueue| == old(|toolQueue|) - 1
    {
      ghost var e := StartToolKeeps(Snapshot(), events);
      Located(Snapshot(), events, toolQueue[0]);
      GiveToolSlot();
    }

    method GiveToolSlot()
      requires toolQueue != [] && Sized(toolQueue[0]) && PhaseOf(Snapshot(), toolQueue[0]).Some?
      modifies this
      ensures Snapshot() == StartTool(old(Snapshot()))
    {
      var t := toolQueue[0];
      toolQueue := toolQueue[1..];
      tools := tools + 1;
      Peaks();
      PushEvent(now + tasks[t].phases[states[t].phase].duration, IODone, t);
    }

    method IsPreferred(left: nat, right: nat) returns (yes: bool)
      requires Sized(left) && Sized(right)
      ensures yes == Prefer(Snapshot(), left, right)
    {
      match config.policy {
        case ReadyFirst =>
          if states[left].continuation != states[right].continuation { return states[left].continuation; }
        case FinishSoon =>
          var l := TimeRemaining(left);
          var r := TimeRemaining(right);
          if l != r { return l < r; }
          if tasks[left].priority != tasks[right].priority { return tasks[left].priority > tasks[right].priority; }
        case _ =>
      }
      return states[left].readySeq < states[right].readySeq;
    }

    method TimeRemaining(t: nat) returns (total: int)
      requires Sized(t)
      ensures total == TimeLeft(Snapshot(), t)
    {
      total := 0;
      var phases := tasks[t].phases;
      var i := states[t].phase;
      while i < |phases|
        invariant total + Remaining(phases, i) == Remaining(phases, states[t].phase)
        decreases |phases| - i
      {
        total := total + phases[i].duration;
        i := i + 1;
      }
    }

    /** The candidates in their order, and the place of the best. */
    method ChooseRunnable() returns (candidates: seq<nat>, best: nat)
      requires forall t :: t in ready || t in admission ==> Sized(t)
      ensures candidates == Candidates(Snapshot())
      ensures candidates != [] ==> best == Best(Snapshot(), candidates, |candidates|)
    {
      candidates := ready;
      if resident < config.maxResident { candidates := candidates + admission; }
      best := 0;
      if candidates == [] { return; }
      for i := 1 to |candidates|
        invariant best == Best(Snapshot(), candidates, i)
      {
        assert candidates[i] in candidates && candidates[best] in candidates;
        var better := IsPreferred(candidates[i], candidates[best]);
        if better { best := i; }
      }
    }

    /** The loop that takes a task out of a list. */
    method RemoveFrom(list: seq<nat>, t: nat) returns (r: seq<nat>)
      ensures r == Without(list, t)
    {
      for i := 0 to |list|
        invariant t !in list[..i]
      {
        if list[i] == t {
          WithoutAt(list, t, i);
          return list[..i] + list[i + 1..];
        }
      }
      assert list[..|list|] == list;
      NothingToTake(list, t);
      return list;
    }

    method TakeCandidate(candidates: seq<nat>, best: nat) returns (t: nat)
      requires candidates == Candidates(Snapshot()) && candidates != [] && best == Best(Snapshot(), candidates, |candidates|)
      requires Sized(candidates[best])
      modifies this
      ensures (Snapshot(), t) == TakeBest(old(Snapshot()))
    {
      t := candidates[best];
      if best < |ready| {
        ready := RemoveFrom(ready, t);
      } else {
        admission := RemoveFrom(admission, t);
        AdmitTask(t);
      }
    }

    method AdmitTask(t: nat)
      requires Sized(t)
      modifies this
      ensures Snapshot() == Admit(old(Snapshot()), t)
    {
      states := states[t := states[t].(admitted := true)];
      resident := resident + 1;
      Peaks();
    }

    method RunTask(t: nat)
      requires Sized(t)
      modifies this
      ensures Snapshot() == StartRunning(old(Snapshot()), t)
    {
      var isCPU := states[t].phase < |tasks[t].phases| && tasks[t].phases[states[t].phase].kind == CPU;
      states := states[t := states[t].(holdsRunning := true)];
      running := running + 1;
      Peaks();
      if isCPU { PushEvent(now + tasks[t].phases[states[t].phase].duration, CPUDone, t); } else { JoinTools(t); }
    }

    method StartOneTask() returns (started: bool)
      requires Settled(Snapshot(), events) && running < config.maxRunning
      modifies this
      ensures started <==> old(CanStart(Snapshot()))
      ensures Snapshot() == if started then StartBest(old(Snapshot())) else old(Snapshot())
    {
      var candidates, best := ChooseRunnable();
      if candidates == [] { return false; }
      assert candidates[best] in candidates;
      var t := TakeCandidate(candidates, best);
      RunTask(t);
      return true;
    }

    /** Tools first, then one task; did anything start? */
    method DrainRound() returns (progress: bool)
      requires Settled(Snapshot(), events)
      modifies this
      ensures Settled(Snapshot(), events)
      ensures var s1 := DrainTools(old(Snapshot())); Snapshot() == if CanStart(s1) then StartBest(s1) else s1
      ensures progress ==>
        (Waiting(Snapshot()) < old(Waiting(Snapshot()))
         || (Waiting(Snapshot()) == old(Waiting(Snapshot())) && |toolQueue| < old(|toolQueue|)))
      ensures !progress ==> Snapshot() == old(Snapshot()) == DrainTools(old(Snapshot())) && !CanStart(Snapshot())
    {
      ghost var was := Snapshot();
      DrainToolsKeeps(was);
      DrainToolsWaits(was);
      DrainToolsShrinks(was);
      var waiting := |toolQueue|;
      StartTools();
      progress := |toolQueue| < waiting;
      if running < config.maxRunning {
        ghost var s1 := Snapshot();
        if CanStart(s1) {
          StartBestShrinks(s1);
          ghost var more := StartBestKeeps(s1, events);
        }
        var started := StartOneTask();
        if started { progress := true; }
      }
    }

    method DrainAll()
      requires Settled(Snapshot(), events)
      modifies this
      ensures Snapshot() == Drain(old(Snapshot()))
    {
      var progress := true;
      ghost var goal := Drain(Snapshot());
      while progress
        invariant Settled(Snapshot(), events) && Drain(Snapshot()) == goal
        invariant !progress ==> Snapshot() == goal
        decreases Waiting(Snapshot()), |toolQueue|, progress
      {
        RoundDrains(Snapshot());
        progress := DrainRound();
      }
    }

    // -------------------------------------------------------------------------- the queue

    method RejectNewest()
      requires Settled(Snapshot(), events) && admission != []
      modifies this
      ensures Snapshot() == RejectAt(old(Snapshot()), Newest(old(Snapshot()), |old(admission)|))
      ensures Settled(Snapshot(), events) && |admission| < |old(admission)|
    {
      RejectKeeps(Snapshot(), events, Newest(Snapshot(), |admission|));
      forall k | 0 <= k < |admission| ensures Sized(admission[k]) { assert admission[k] in admission; }
      var newest := FindNewest();
      TurnAway(newest);
    }

    method FindNewest() returns (newest: nat)
      requires admission != [] && forall k :: 0 <= k < |admission| ==> Sized(admission[k])
      ensures newest == Newest(Snapshot(), |admission|)
    {
      newest := 0;
      for i := 1 to |admission|
        invariant newest == Newest(Snapshot(), i)
      {
        if states[admission[i]].readySeq > states[admission[newest]].readySeq { newest := i; }
      }
    }

    method TurnAway(newest: nat)
      requires newest < |admission| && Sized(admission[newest])
      modifies this
      ensures Snapshot() == RejectAt(old(Snapshot()), newest)
    {
      var t := admission[newest];
      admission := admission[..newest] + admission[newest + 1..];
      states := states[t := states[t].(rejected := true)];
      rejected := rejected + 1;
      results := results[tasks[t].id := TurnedAway];
    }

    method EnforceQueueLimit()
      requires Settled(Snapshot(), events)
      modifies this
      ensures Snapshot() == EnforceLimit(old(Snapshot()))
    {
      if config.maxQueued == 0 { return; }
      while |admission| > config.maxQueued && |admission| > 0
        invariant Settled(Snapshot(), events) && EnforceLimit(Snapshot()) == EnforceLimit(old(Snapshot()))
        decreases |admission|
      {
        RejectNewest();
      }
    }

    // --------------------------------------------------------------------------- the loop

    method MoveTime(at: int)
      modifies this`now, this`runningTime, this`toolTime
      ensures Snapshot() == Integrate(old(Snapshot()), at - old(now)).(now := at)
    {
      var delta := at - now;
      if delta > 0 {
        runningTime := runningTime + running * delta;
        toolTime := toolTime + tools * delta;
      }
      now := at;
    }

    method HandleBatch(batch: seq<Event>) returns (ok: bool)
      requires Settled(Snapshot(), batch + events) && forall e :: e in batch ==> e.at == now
      modifies this
      ensures ok && HandleAll(old(Snapshot()), batch) == Some(Snapshot())
    {
      ghost var was := Snapshot();
      HandleAllKeeps(was, batch);
      for i := 0 to |batch|
        invariant Settled(Snapshot(), batch[i..] + events) && now == was.now
        invariant HandleAll(Snapshot(), batch[i..]) == HandleAll(was, batch)
      {
        ghost var s1 := HandleFirst(Snapshot(), batch[i..]);
        assert batch[i..][0] == batch[i] && batch[i..][1..] == batch[i + 1..];
        BatchInRange(Snapshot(), batch[i..], events);
        ok := HandleEvent(batch[i]);
        if !ok { return false; }
      }
      assert batch[|batch|..] == [];
      return true;
    }

    /** One turn: time moves on, the events of the moment are handled, and what can start starts. */
    method RunTurn() returns (ok: bool)
      requires Settled(Snapshot(), events) && events != []
      modifies this
      ensures ok && Turn(old(Snapshot())) == Some(Snapshot())
    {
      ok := HandleMoment();
      if !ok { return false; }
      DrainKeeps(Snapshot());
      DrainAll();
      EnforceQueueLimit();
    }

    method HandleMoment() returns (ok: bool)
      requires Settled(Snapshot(), events) && events != []
      modifies this
      ensures ok && Settled(Snapshot(), events)
      ensures HandleAll(MoveOn(old(Snapshot())), TakeBatch(old(events), Top(old(events)).at).0) == Some(Snapshot())
    {
      ghost var was := Snapshot();
      MoveOnKeeps(was);
      var at := PeekTime();
      var batch := NextBatch(at);
      HandleAllKeeps(MoveOn(was), batch);
      ok := HandleBatch(batch);
    }

    method NextBatch(at: int) returns (batch: seq<Event>)
      requires events != [] && at == Top(events).at
      modifies this
      ensures Snapshot() == MoveOn(old(Snapshot())) && batch == TakeBatch(old(events), at).0
    {
      MoveTime(at);
      batch := CollectBatch(at);
    }

    method Announce()
      requires Snapshot() == Announced(tasks, config, 0)
      modifies this
      ensures Snapshot() == Start(tasks, config)
    {
      for n := 0 to |tasks|
        invariant Snapshot() == Announced(tasks, config, n) && |states| == n
      {
        states := states + [NEW];
        PushEvent(tasks[n].arrival, Arrival, n);
      }
    }
  }

  /** The whole simulation: its end, if its input is accepted. */
  method Simulate(tasks: seq<Task>, config: Config) returns (r: Option<Sim>)
    ensures r.Some? <==> Accepted(tasks, config)
    ensures r.Some? ==> exists k :: Turns(Start(tasks, config), k) == r
    ensures r.Some? ==> Ended(r.value) && AsPromised(r.value, tasks, config)
  {
    var valid := ValidateSimulation(tasks, config);
    if !valid { return None; }
    var sim := new Simulator(tasks, config);
    sim.Announce();
    StartIsSettled(tasks, config);
    r := RunToEnd(sim);
  }

  method RunToEnd(sim: Simulator) returns (r: Option<Sim>)
    requires Accepted(sim.tasks, sim.config) && sim.Snapshot() == Start(sim.tasks, sim.config)
    modifies sim
    ensures r.Some? && exists k :: Turns(Start(sim.tasks, sim.config), k) == r
    ensures Ended(r.value) && AsPromised(r.value, sim.tasks, sim.config)
  {
    ghost var start, k: nat := sim.Snapshot(), 0;
    StartIsSettled(sim.tasks, sim.config);
    while |sim.events| > 0
      invariant Turns(start, k) == Some(sim.Snapshot()) && Settled(sim.Snapshot(), sim.events)
      invariant k > 0 || sim.events != []
      invariant k > 0 ==> Good(sim.Snapshot())
      decreases Left(sim.Snapshot(), |sim.tasks|)
    {
      ghost var s := sim.Snapshot();
      TurnKeeps(s);
      var ok := sim.RunTurn();
      if !ok { return None; }
      OneMoreTurn(start, k, k + 1);
      k := k + 1;
    }
    EveryEndIsAsPromised(sim.tasks, sim.config, k, sim.Snapshot());
    if sim.completed + sim.rejected != |sim.tasks| { return None; }
    r := Some(Sim(sim.config, sim.tasks, sim.now, sim.number, sim.events, sim.states, sim.ready, sim.admission, sim.toolQueue,
      sim.running, sim.resident, sim.tools, sim.completed, sim.rejected, sim.makespan, sim.runningTime, sim.toolTime,
      sim.peakRunning, sim.peakResident, sim.peakTools, sim.results));
  }

  lemma BatchInRange(s: Sim, batch: seq<Event>, events: seq<Event>)
    requires Settled(s, batch + events) && batch != []
    ensures batch[0].task < |s.tasks|
  {
    assert (batch + events)[0] == batch[0];
    assert EventOk(s, batch[0]);
  }

  lemma {:induction false} DrainToolsShrinks(s: Sim)
    ensures |DrainTools(s).toolQueue| <= |s.toolQueue|
    ensures |DrainTools(s).toolQueue| == |s.toolQueue| ==> DrainTools(s) == s
    decreases |s.toolQueue|
  {
    if s.tools < s.config.maxTools && s.toolQueue != [] { DrainToolsShrinks(StartTool(s)); }
  }

  lemma {:induction false} DrainToolsStops(s: Sim)
    ensures DrainTools(DrainTools(s)) == DrainTools(s)
    decreases |s.toolQueue|
  {
    if s.tools < s.config.maxTools && s.toolQueue != [] { DrainToolsStops(StartTool(s)); }
  }

  /** A round brings the state nearer to where draining ends. */
  lemma RoundDrains(s: Sim)
    ensures var s1 := DrainTools(s);
      Drain(if CanStart(s1) then StartBest(s1) else s1) == Drain(s) && (!CanStart(s1) ==> Drain(s) == s1)
  {
    DrainToolsStops(s);
  }

  lemma {:induction false} NothingToTake(list: seq<nat>, t: nat)
    requires t !in list
    ensures Without(list, t) == list
  {
    if list != [] {
      NothingToTake(list[1..], t);
      assert list == [list[0]] + list[1..];
    }
  }
}
