/**
 The scheduling simulator (scheduling/sim.go): tasks of CPU, tool and waiting phases compete for
 running slots, resident places and tool slots. Time is unbounded here; the byte-time statistics,
 which use floating point, are not part of this model.

 The heap of events is a list from which the earliest event is taken; how the heap arranges its
 array makes no difference, since no two events have the same number.
 */
module SimModel {
  import opened Options
  import opened Queues

  datatype Kind = CPU | ExternalIO | DurableWait | OtherKind

  datatype Phase = Phase(kind: Kind, duration: int)

  datatype Task = Task(id: string, arrival: int, priority: int, residentBytes: int, phases: seq<Phase>)

  datatype Policy = FIFO | ReadyFirst | FinishSoon | OtherPolicy

  /** No limit of the queue is a limit of 0. */
  datatype Config = Config(maxRunning: int, maxResident: int, maxTools: int, maxQueued: int, liveIO: bool, policy: Policy)

  datatype TaskState = TaskState(
    phase: nat, admitted: bool, continuation: bool, readySeq: nat,
    holdsRunning: bool, inToolQueue: bool, completed: bool, rejected: bool)

  datatype EventKind = Arrival | CPUDone | IODone | WaitDone

  datatype Event = Event(at: int, number: nat, kind: EventKind, task: nat, phase: nat)

  datatype TaskResult = Done(completedAt: int, latency: int) | TurnedAway

  datatype Sim = Sim(
    config: Config,
    tasks: seq<Task>,
    now: int,
    number: nat,
    events: seq<Event>,
    states: seq<TaskState>,
    ready: seq<nat>,
    admission: seq<nat>,
    toolQueue: seq<nat>,
    running: int,
    resident: int,
    tools: int,
    completed: int,
    rejected: int,
    makespan: int,
    runningTime: int,
    toolTime: int,
    peakRunning: int,
    peakResident: int,
    peakTools: int,
    results: map<string, TaskResult>)

  // --------------------------------------------------------------------- what is accepted

  predicate PhaseOk(phases: seq<Phase>, i: nat)
    requires i < |phases|
  {
    && phases[i].duration > 0
    && phases[i].kind != OtherKind
    && (phases[i].kind == DurableWait && i + 1 < |phases| ==> phases[i + 1].kind == CPU)
  }

  predicate TaskValid(task: Task) {
    && task.id != "" && task.arrival >= 0 && task.residentBytes >= 0
    && task.phases != [] && task.phases[0].kind == CPU
    && forall i: nat {:trigger PhaseOk(task.phases, i)} :: i < |task.phases| ==> PhaseOk(task.phases, i)
  }

  predicate ConfigValid(config: Config) {
    && config.maxRunning >= 1 && config.maxResident >= config.maxRunning && config.maxTools >= 1
    && config.maxQueued >= 0 && config.policy != OtherPolicy
  }

  predicate Accepted(tasks: seq<Task>, config: Config) {
    && tasks != [] && ConfigValid(config)
    && (forall t: nat {:trigger TaskValid(tasks[t])} :: t < |tasks| ==> TaskValid(tasks[t]))
    && (forall t: nat, u: nat {:trigger IdsDiffer(tasks, t, u)} :: t < u < |tasks| ==> IdsDiffer(tasks, t, u))
  }

  predicate IdsDiffer(tasks: seq<Task>, t: nat, u: nat)
    requires t < |tasks| && u < |tasks|
  {
    tasks[t].id != tasks[u].id
  }

  // ------------------------------------------------------------------------- single tasks

  const NEW: TaskState := TaskState(0, false, false, 0, false, false, false, false)

  function StateOf(s: Sim, t: nat): TaskState {
    if t < |s.states| then s.states[t] else NEW
  }

  function PutState(s: Sim, t: nat, x: TaskState): Sim {
    if t < |s.states| then s.(states := s.states[t := x]) else s
  }

  /** The phase that a task is in, if it has not gone through all of them. */
  function PhaseOf(s: Sim, t: nat): Option<Phase> {
    if t < |s.tasks| && StateOf(s, t).phase < |s.tasks[t].phases| then Some(s.tasks[t].phases[StateOf(s, t).phase]) else None
  }

  function KindOf(s: Sim, t: nat): Kind {
    match PhaseOf(s, t) case None => OtherKind case Some(p) => p.kind
  }

  function DurationOf(s: Sim, t: nat): int {
    match PhaseOf(s, t) case None => 0 case Some(p) => p.duration
  }

  function IdOf(s: Sim, t: nat): string {
    if t < |s.tasks| then s.tasks[t].id else ""
  }

  function ArrivalOf(s: Sim, t: nat): int {
    if t < |s.tasks| then s.tasks[t].arrival else 0
  }

  function Remaining(phases: seq<Phase>, i: nat): int
    decreases |phases| - i
  {
    if i >= |phases| then 0 else phases[i].duration + Remaining(phases, i + 1)
  }

  function Push(s: Sim, at: int, kind: EventKind, t: nat): Sim {
    s.(number := s.number + 1, events := s.events + [Event(at, s.number + 1, kind, t, StateOf(s, t).phase)])
  }

  function EnqueueAdmission(s: Sim, t: nat, continuation: bool): Sim {
    PutState(s, t, StateOf(s, t).(continuation := continuation, readySeq := s.number + 1)).(
      number := s.number + 1, admission := s.admission + [t])
  }

  function EnqueueReady(s: Sim, t: nat, continuation: bool): Sim {
    PutState(s, t, StateOf(s, t).(continuation := continuation, readySeq := s.number + 1)).(
      number := s.number + 1, ready := s.ready + [t])
  }

  function EnqueueTool(s: Sim, t: nat): Sim {
    PutState(s, t, StateOf(s, t).(inToolQueue := true)).(toolQueue := s.toolQueue + [t])
  }

  function ReleaseResident(s: Sim, t: nat): Sim {
    if !StateOf(s, t).admitted then s
    else PutState(s, t, StateOf(s, t).(admitted := false)).(resident := s.resident - 1)
  }

  function Complete(s: Sim, t: nat): Sim {
    ReleaseResident(PutState(s, t, StateOf(s, t).(completed := true)), t).(
      completed := s.completed + 1,
      results := s.results[IdOf(s, t) := Done(s.now, s.now - ArrivalOf(s, t))],
      makespan := if s.now > s.makespan then s.now else s.makespan)
  }

  /** The slot is given back. */
  function DropSlot(s: Sim, t: nat): Sim {
    PutState(s, t, StateOf(s, t).(holdsRunning := false)).(running := s.running - 1)
  }

  function NextPhase(s: Sim, t: nat): Sim {
    PutState(s, t, StateOf(s, t).(phase := StateOf(s, t).phase + 1))
  }

  function LeaveTool(s: Sim, t: nat): Sim {
    PutState(s, t, StateOf(s, t).(inToolQueue := false)).(tools := s.tools - 1)
  }

  function Continue(s: Sim, t: nat): Sim {
    PutState(s, t, StateOf(s, t).(continuation := true))
  }

  /** Where a task goes that holds no running slot. */
  function Advance(s: Sim, t: nat): Sim {
    match PhaseOf(s, t)
    case None => Complete(s, t)
    case Some(p) =>
      if !StateOf(s, t).admitted then EnqueueAdmission(s, t, StateOf(s, t).phase > 0)
      else match p.kind
        case CPU => EnqueueReady(s, t, StateOf(s, t).phase > 0)
        case ExternalIO =>
          if s.config.liveIO then EnqueueTool(Continue(s, t), t) else EnqueueReady(Continue(s, t), t, true)
        case DurableWait => Push(ReleaseResident(s, t), s.now + p.duration, WaitDone, t)
        case OtherKind => s
  }

  /** `None` stands for the simulator's own errors. */
  function Handle(s: Sim, e: Event): Option<Sim> {
    var t, x := e.task, StateOf(s, e.task);
    if x.completed || x.rejected then Some(s)
    else match e.kind
      case Arrival => Some(EnqueueAdmission(s, t, false))
      case CPUDone =>
        if e.phase != x.phase || !x.holdsRunning then None else Some(AfterCPU(NextPhase(s, t), t))
      case IODone =>
        if e.phase != x.phase || !x.inToolQueue then None else Some(AfterIO(NextPhase(LeaveTool(s, t), t), t))
      case WaitDone =>
        if e.phase != x.phase || x.admitted then None else Some(Advance(NextPhase(s, t), t))
  }

  /** Without live I/O, a tool call that follows keeps the running slot. */
  function AfterCPU(s: Sim, t: nat): Sim {
    if KindOf(s, t) == ExternalIO && !s.config.liveIO then EnqueueTool(s, t) else Advance(DropSlot(s, t), t)
  }

  function AfterIO(s: Sim, t: nat): Sim {
    if !StateOf(s, t).holdsRunning then Advance(s, t)
    else if KindOf(s, t) == CPU then Push(s, s.now + DurationOf(s, t), CPUDone, t)
    else Advance(DropSlot(s, t), t)
  }

  // ------------------------------------------------------------------------ the resources

  function Larger(a: int, b: int): int {
    if a > b then a else b
  }

  function UpdatePeaks(s: Sim): Sim {
    s.(peakRunning := Larger(s.running, s.peakRunning), peakResident := Larger(s.resident, s.peakResident),
       peakTools := Larger(s.tools, s.peakTools))
  }

  function StartTool(s: Sim): Sim
    requires s.toolQueue != []
  {
    var t := s.toolQueue[0];
    Push(UpdatePeaks(s.(toolQueue := s.toolQueue[1..], tools := s.tools + 1)), s.now + DurationOf(s, t), IODone, t)
  }

  function DrainTools(s: Sim): Sim
    decreases |s.toolQueue|
  {
    if s.tools < s.config.maxTools && s.toolQueue != [] then DrainTools(StartTool(s)) else s
  }

  predicate Prefer(s: Sim, left: nat, right: nat) {
    var l, r := StateOf(s, left), StateOf(s, right);
    if s.config.policy == ReadyFirst && l.continuation != r.continuation then l.continuation
    else if s.config.policy == FinishSoon && TimeLeft(s, left) != TimeLeft(s, right) then TimeLeft(s, left) < TimeLeft(s, right)
    else if s.config.policy == FinishSoon && PriorityOf(s, left) != PriorityOf(s, right) then PriorityOf(s, left) > PriorityOf(s, right)
    else l.readySeq < r.readySeq
  }

  function TimeLeft(s: Sim, t: nat): int {
    if t < |s.tasks| then Remaining(s.tasks[t].phases, StateOf(s, t).phase) else 0
  }

  function PriorityOf(s: Sim, t: nat): int {
    if t < |s.tasks| then s.tasks[t].priority else 0
  }

  function Candidates(s: Sim): seq<nat> {
    s.ready + if s.resident < s.config.maxResident then s.admission else []
  }

  /** The place of the best of the first `n` candidates. */
  function Best(s: Sim, candidates: seq<nat>, n: nat): (b: nat)
    requires 0 < n <= |candidates|
    ensures b < n
  {
    if n == 1 then 0
    else
      var b := Best(s, candidates, n - 1);
      if Prefer(s, candidates[n - 1], candidates[b]) then n - 1 else b
  }

  predicate CanStart(s: Sim) {
    s.running < s.config.maxRunning && Candidates(s) != []
  }

  /** The chosen task leaves its list; one that waited for admission becomes resident. */
  function TakeBest(s: Sim): (Sim, nat)
    requires Candidates(s) != []
  {
    var c := Candidates(s);
    var b := Best(s, c, |c|);
    var t := c[b];
    if b < |s.ready| then (s.(ready := Without(s.ready, t)), t)
    else (Admit(s.(admission := Without(s.admission, t)), t), t)
  }

  function Admit(s: Sim, t: nat): Sim {
    UpdatePeaks(PutState(s, t, StateOf(s, t).(admitted := true)).(resident := s.resident + 1))
  }

  /** A running slot is taken, for CPU or for a tool call without live I/O. */
  function TakeSlot(s: Sim, t: nat): Sim {
    UpdatePeaks(PutState(s, t, StateOf(s, t).(holdsRunning := true)).(running := s.running + 1))
  }

  function StartRunning(s: Sim, t: nat): Sim {
    var held := TakeSlot(s, t);
    if KindOf(s, t) == CPU then Push(held, s.now + DurationOf(s, t), CPUDone, t) else EnqueueTool(held, t)
  }

  function StartBest(s: Sim): Sim
    requires Candidates(s) != []
  {
    StartRunning(TakeBest(s).0, TakeBest(s).1)
  }

  function Waiting(s: Sim): nat {
    |s.ready| + |s.admission|
  }

  lemma {:induction false} WithoutDropsOne(q: seq<nat>, a: nat)
    requires a in q
    ensures |Without(q, a)| == |q| - 1
  {
    if q[0] != a { WithoutDropsOne(q[1..], a); }
  }

  lemma StartBestShrinks(s: Sim)
    requires Candidates(s) != []
    ensures Waiting(StartBest(s)) == Waiting(s) - 1
  {
    var c := Candidates(s);
    var b := Best(s, c, |c|);
    if b < |s.ready| { assert c[b] == s.ready[b]; WithoutDropsOne(s.ready, c[b]); }
    else { assert c[b] == s.admission[b - |s.ready|]; WithoutDropsOne(s.admission, c[b]); }
  }

  /** Until nothing more can start: first tools, then one task, and again. */
  function Drain(s: Sim): Sim
    decreases Waiting(s)
  {
    var s1 := DrainTools(s);
    DrainToolsWaits(s);
    if CanStart(s1) then
      StartBestShrinks(s1);
      Drain(StartBest(s1))
    else s1
  }

  lemma {:induction false} DrainToolsWaits(s: Sim)
    ensures DrainTools(s).ready == s.ready && DrainTools(s).admission == s.admission
    decreases |s.toolQueue|
  {
    if s.tools < s.config.maxTools && s.toolQueue != [] { DrainToolsWaits(StartTool(s)); }
  }

  /** The place of the last of the first `n` to have joined the queue. */
  function Newest(s: Sim, n: nat): (b: nat)
    requires 0 < n <= |s.admission|
    ensures b < n
  {
    if n == 1 then 0
    else
      var b := Newest(s, n - 1);
      if StateOf(s, s.admission[n - 1]).readySeq > StateOf(s, s.admission[b]).readySeq then n - 1 else b
  }

  function RejectAt(s: Sim, k: nat): Sim
    requires k < |s.admission|
  {
    var t := s.admission[k];
    PutState(s, t, StateOf(s, t).(rejected := true)).(
      admission := s.admission[..k] + s.admission[k + 1..],
      rejected := s.rejected + 1,
      results := s.results[IdOf(s, t) := TurnedAway])
  }

  function EnforceLimit(s: Sim): Sim
    decreases |s.admission|
  {
    if s.config.maxQueued != 0 && |s.admission| > s.config.maxQueued && |s.admission| > 0 then
      EnforceLimit(RejectAt(s, Newest(s, |s.admission|)))
    else s
  }

  // ------------------------------------------------------------------------------- events

  predicate Before(e: Event, f: Event) {
    if e.at != f.at then e.at < f.at else e.number < f.number
  }

  /** The place of the earliest of the first `n` events. */
  function Earliest(events: seq<Event>, n: nat): (b: nat)
    requires 0 < n <= |events|
    ensures b < n
  {
    if n == 1 then 0
    else
      var b := Earliest(events, n - 1);
      if Before(events[n - 1], events[b]) then n - 1 else b
  }

  function Top(events: seq<Event>): Event
    requires events != []
  {
    events[Earliest(events, |events|)]
  }

  function Popped(events: seq<Event>): (r: seq<Event>)
    requires events != []
    ensures |r| == |events| - 1
  {
    var k := Earliest(events, |events|);
    events[..k] + events[k + 1..]
  }

  /** All events of one time, in order, and the others. */
  function TakeBatch(events: seq<Event>, at: int): (seq<Event>, seq<Event>)
    decreases |events|
  {
    if events == [] || Top(events).at != at then ([], events)
    else
      var r := TakeBatch(Popped(events), at);
      ([Top(events)] + r.0, r.1)
  }

  function HandleAll(s: Sim, batch: seq<Event>): Option<Sim>
    decreases |batch|
  {
    if batch == [] then Some(s)
    else match Handle(s, batch[0])
      case None => None
      case Some(s') => HandleAll(s', batch[1..])
  }

  function Integrate(s: Sim, delta: int): Sim {
    if delta <= 0 then s
    else s.(runningTime := s.runningTime + s.running * delta, toolTime := s.toolTime + s.tools * delta)
  }

  /** Time goes on to the next event. */
  function MoveOn(s: Sim): Sim
    requires s.events != []
  {
    var at := Top(s.events).at;
    Integrate(s, at - s.now).(now := at, events := TakeBatch(s.events, at).1)
  }

  /** One turn of the main loop. */
  function Turn(s: Sim): Option<Sim>
    requires s.events != []
  {
    match HandleAll(MoveOn(s), TakeBatch(s.events, Top(s.events).at).0)
    case None => None
    case Some(s') => Some(EnforceLimit(Drain(s')))
  }

  /** The first `n` tasks have been announced. */
  function Announced(tasks: seq<Task>, config: Config, n: nat): Sim
    requires n <= |tasks|
  {
    if n == 0 then Sim(config, tasks, 0, 0, [], [], [], [], [], 0, 0, 0, 0, 0, 0, 0, 0, 0, 0, 0, map[])
    else
      var s := Announced(tasks, config, n - 1);
      Push(s.(states := s.states + [NEW]), tasks[n - 1].arrival, Arrival, n - 1)
  }

  function Start(tasks: seq<Task>, config: Config): Sim {
    Announced(tasks, config, |tasks|)
  }

  /** After `k` turns, if there are that many. */
  function Turns(s: Sim, k: nat): Option<Sim> {
    if k == 0 then Some(s)
    else NextTurn(Turns(s, k - 1))
  }

  function NextTurn(at: Option<Sim>): Option<Sim> {
    match at
    case None => None
    case Some(s) => if s.events == [] then None else Turn(s)
  }
}
