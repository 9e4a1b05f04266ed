/**
 What holds between the steps of the simulator: every task is at exactly one place, the counters
 are the numbers of tasks at the places, and the slot times are the phases that have run.
 */
module SimInvariant {
  import opened SimModel

  // -------------------------------------------------------------------------------- sums

  /** The time of the first `n` phases of a kind. */
  function Spent(kind: Kind, phases: seq<Phase>, n: nat): int {
    if n == 0 then 0
    else Spent(kind, phases, n - 1) + if n <= |phases| && phases[n - 1].kind == kind then phases[n - 1].duration else 0
  }

  /** The time of the first `n` phases. */
  function SpentAll(phases: seq<Phase>, n: nat): int {
    if n == 0 then 0 else SpentAll(phases, n - 1) + if n <= |phases| then phases[n - 1].duration else 0
  }

  /** The time of the phases of a kind that the first `n` tasks have gone through. */
  function TotalSpent(kind: Kind, tasks: seq<Task>, states: seq<TaskState>, n: nat): int
    requires n <= |tasks| == |states|
  {
    if n == 0 then 0 else TotalSpent(kind, tasks, states, n - 1) + Spent(kind, tasks[n - 1].phases, states[n - 1].phase)
  }

  /** How many of the first `n` tasks have been turned away. */
  function Rejections(states: seq<TaskState>, n: nat): nat
    requires n <= |states|
  {
    if n == 0 then 0 else Rejections(states, n - 1) + if states[n - 1].rejected then 1 else 0
  }

  lemma {:induction false} RejectionsPut(states: seq<TaskState>, n: nat, t: nat, x: TaskState)
    requires n <= |states| && t < |states|
    ensures Rejections(states[t := x], n) == Rejections(states, n) +
      if t < n then (if x.rejected then 1 else 0) - (if states[t].rejected then 1 else 0) else 0
  {
    if n > 0 { RejectionsPut(states, n - 1, t, x); }
  }

  lemma {:induction false} RejectionCounts(states: seq<TaskState>, n: nat, t: nat)
    requires t < n <= |states| && states[t].rejected
    ensures Rejections(states, n) > 0
  {
    if t < n - 1 { RejectionCounts(states, n - 1, t); }
  }

  function TasksOf(evs: seq<Event>): seq<nat> {
    if evs == [] then [] else [evs[0].task] + TasksOf(evs[1..])
  }

  function NumbersOf(evs: seq<Event>): seq<nat> {
    if evs == [] then [] else [evs[0].number] + NumbersOf(evs[1..])
  }

  function Count(kind: EventKind, evs: seq<Event>): nat {
    if evs == [] then 0 else (if evs[0].kind == kind then 1 else 0) + Count(kind, evs[1..])
  }

  /** How long the phase lasts that ends with the event. */
  function LengthOf(tasks: seq<Task>, e: Event): int {
    if e.task < |tasks| && e.phase < |tasks[e.task].phases| then tasks[e.task].phases[e.phase].duration else 0
  }

  /** How long the phases have run that end with the events of a kind. */
  function Elapsed(kind: EventKind, tasks: seq<Task>, now: int, evs: seq<Event>): int {
    if evs == [] then 0
    else (if evs[0].kind == kind then LengthOf(tasks, evs[0]) - (evs[0].at - now) else 0) + Elapsed(kind, tasks, now, evs[1..])
  }

  function Occ(q: seq<nat>, t: nat): nat {
    multiset(q)[t]
  }

  lemma {:induction false} ListsJoin(a: seq<Event>, b: seq<Event>)
    ensures TasksOf(a + b) == TasksOf(a) + TasksOf(b) && NumbersOf(a + b) == NumbersOf(a) + NumbersOf(b)
  {
    if a == [] {
      assert a + b == b;
    } else {
      assert (a + b)[0] == a[0] && (a + b)[1..] == a[1..] + b;
      ListsJoin(a[1..], b);
    }
  }

  lemma {:induction false} SumsJoin(kind: EventKind, tasks: seq<Task>, now: int, a: seq<Event>, b: seq<Event>)
    ensures Count(kind, a + b) == Count(kind, a) + Count(kind, b)
    ensures Elapsed(kind, tasks, now, a + b) == Elapsed(kind, tasks, now, a) + Elapsed(kind, tasks, now, b)
  {
    if a == [] {
      assert a + b == b;
    } else {
      assert (a + b)[0] == a[0] && (a + b)[1..] == a[1..] + b;
      SumsJoin(kind, tasks, now, a[1..], b);
    }
  }

  lemma OneEvent(e: Event)
    ensures TasksOf([e]) == [e.task] && NumbersOf([e]) == [e.number]
    ensures forall kind :: Count(kind, [e]) == if e.kind == kind then 1 else 0
    ensures forall kind, tasks, now :: Elapsed(kind, tasks, now, [e]) == if e.kind == kind then LengthOf(tasks, e) - (e.at - now) else 0
  {
    assert [e][1..] == [];
  }

  lemma {:induction false} TimeShifts(kind: EventKind, tasks: seq<Task>, now: int, delta: int, evs: seq<Event>)
    ensures Elapsed(kind, tasks, now + delta, evs) == Elapsed(kind, tasks, now, evs) + Count(kind, evs) * delta
  {
    if evs != [] {
      TimeShifts(kind, tasks, now, delta, evs[1..]);
      var c := Count(kind, evs[1..]);
      assert (1 + c) * delta == delta + c * delta;
    }
  }

  lemma {:induction false} SpentPut(kind: Kind, tasks: seq<Task>, states: seq<TaskState>, n: nat, t: nat, x: TaskState)
    requires n <= |tasks| == |states| && t < |states|
    ensures TotalSpent(kind, tasks, states[t := x], n) == TotalSpent(kind, tasks, states, n) +
      if t < n then Spent(kind, tasks[t].phases, x.phase) - Spent(kind, tasks[t].phases, states[t].phase) else 0
  {
    if n > 0 { SpentPut(kind, tasks, states, n - 1, t, x); }
  }

  // ---------------------------------------------------------------------------- the places

  predicate Over(x: TaskState) {
    x.completed || x.rejected
  }

  function One(b: bool): nat {
    if b then 1 else 0
  }

  function Phases(s: Sim, t: nat): seq<Phase> {
    if t < |s.tasks| then s.tasks[t].phases else []
  }

  /** In how many places the task is. */
  function PlacesOf(s: Sim, evs: seq<Event>, t: nat): nat {
    Occ(s.admission, t) + Occ(s.ready, t) + Occ(s.toolQueue, t) + Occ(TasksOf(evs), t)
  }

  /** A task that is over has one result, which fits. */
  ghost predicate OverOk(s: Sim, t: nat) {
    var x := StateOf(s, t);
    && !x.admitted && !x.holdsRunning && !x.inToolQueue && IdOf(s, t) in s.results
    && (x.completed != x.rejected)
    && (x.rejected ==> s.results[IdOf(s, t)] == TurnedAway)
    && (x.completed ==> CompletedOk(s, t, s.results[IdOf(s, t)]))
  }

  /** No task is completed before its phases can have run. */
  predicate CompletedOk(s: Sim, t: nat, r: TaskResult) {
    && StateOf(s, t).phase == |Phases(s, t)|
    && r.Done? && r.completedAt <= s.makespan && r.latency == r.completedAt - ArrivalOf(s, t)
    && SpentAll(Phases(s, t), |Phases(s, t)|) <= r.latency
  }

  /** With live I/O, a tool call does not wait for a running slot. */
  predicate CanWaitReady(s: Sim, kind: Kind) {
    kind == CPU || (kind == ExternalIO && !s.config.liveIO)
  }

  ghost predicate QueuedOk(s: Sim, t: nat) {
    var x, kind := StateOf(s, t), KindOf(s, t);
    && (t in s.admission ==> !x.admitted && !x.holdsRunning && !x.inToolQueue && kind == CPU && x.readySeq > 0)
    && (t in s.ready ==> x.admitted && !x.holdsRunning && !x.inToolQueue && CanWaitReady(s, kind) && x.readySeq > 0)
    && (t in s.toolQueue ==> x.admitted && x.inToolQueue && x.holdsRunning == !s.config.liveIO && kind == ExternalIO)
  }

  ghost predicate TaskOk(s: Sim, evs: seq<Event>, t: nat) {
    var x := StateOf(s, t);
    && PlacesOf(s, evs, t) == One(!Over(x))
    && (if Over(x) then OverOk(s, t) else UnderWay(s, t))
  }

  ghost predicate UnderWay(s: Sim, t: nat) {
    var x := StateOf(s, t);
    && IdOf(s, t) !in s.results && x.phase < |Phases(s, t)| && QueuedOk(s, t)
    && (Queued(s, t) ==> ArrivalOf(s, t) + SpentAll(Phases(s, t), x.phase) <= s.now)
  }

  predicate Queued(s: Sim, t: nat) {
    t in s.admission || t in s.ready || t in s.toolQueue
  }

  ghost predicate EventOk(s: Sim, e: Event) {
    var x, kind := StateOf(s, e.task), KindOf(s, e.task);
    && e.task < |s.tasks| && e.phase == x.phase && s.now <= e.at && e.number <= s.number && !Over(x)
    && (e.kind != Arrival ==> ArrivalOf(s, e.task) + SpentAll(Phases(s, e.task), x.phase) + DurationOf(s, e.task) <= e.at)
    && match e.kind
       case Arrival => x == NEW && e.at == ArrivalOf(s, e.task)
       case CPUDone => x.admitted && x.holdsRunning && !x.inToolQueue && kind == CPU
       case IODone => x.admitted && x.holdsRunning == !s.config.liveIO && x.inToolQueue && kind == ExternalIO
       case WaitDone => !x.admitted && !x.holdsRunning && !x.inToolQueue && kind == DurableWait
  }

  // ------------------------------------------------------------------------- the invariant

  /** A task that is between two places is at none; there is none if `t` is out of range. */
  ghost predicate LooseOk(s: Sim, evs: seq<Event>, t: nat) {
    t < |s.tasks| ==>
      var x := StateOf(s, t);
      && PlacesOf(s, evs, t) == 0 && !Over(x) && IdOf(s, t) !in s.results && x.phase <= |Phases(s, t)|
      && ArrivalOf(s, t) + SpentAll(Phases(s, t), x.phase) <= s.now
  }

  ghost predicate Shape(s: Sim) {
    && Accepted(s.tasks, s.config) && |s.states| == |s.tasks|
    && (forall t :: t in s.admission ==> t < |s.tasks|)
    && (forall t :: t in s.ready ==> t < |s.tasks|)
    && (forall t :: t in s.toolQueue ==> t < |s.tasks|)
  }

  ghost predicate Others(s: Sim, evs: seq<Event>, t: nat) {
    forall u: nat {:trigger TaskOk(s, evs, u)} :: u < |s.tasks| && u != t ==> TaskOk(s, evs, u)
  }

  ghost predicate EventsOk(s: Sim, evs: seq<Event>) {
    forall e {:trigger EventOk(s, e)} :: e in evs ==> EventOk(s, e)
  }

  predicate NumberOk(s: Sim, t: nat)
    requires t < |s.states|
  {
    s.states[t].readySeq <= s.number
  }

  predicate NumbersDiffer(s: Sim, t: nat, u: nat)
    requires t < |s.states| && u < |s.states|
  {
    s.states[t].readySeq > 0 ==> s.states[t].readySeq != s.states[u].readySeq
  }

  /** Nobody has joined a list at the same moment as another, and events have their own numbers. */
  ghost predicate NumbersOk(s: Sim, evs: seq<Event>) {
    && (forall t: nat {:trigger NumberOk(s, t)} :: t < |s.states| ==> NumberOk(s, t))
    && (forall t: nat, u: nat {:trigger NumbersDiffer(s, t, u)} :: t < |s.states| && u < |s.states| && t != u ==> NumbersDiffer(s, t, u))
    && (forall n: nat {:trigger Occ(NumbersOf(evs), n)} :: Occ(NumbersOf(evs), n) <= 1)
  }

  predicate CountsOk(s: Sim, evs: seq<Event>, t: nat) {
    var x := StateOf(s, t);
    && s.tools == Count(IODone, evs) + One(x.inToolQueue)
    && s.running == Count(CPUDone, evs) + One(x.holdsRunning) + (if s.config.liveIO then 0 else Count(IODone, evs) + |s.toolQueue|)
    && s.resident == |s.ready| + |s.toolQueue| + Count(CPUDone, evs) + Count(IODone, evs) + One(x.admitted)
    && s.completed + s.rejected + |s.admission| + |s.ready| + |s.toolQueue| + |evs| + One(t < |s.tasks|) == |s.tasks|
    && s.completed >= 0 && s.rejected >= 0 && |s.results| == s.completed + s.rejected
  }

  predicate LimitsOk(s: Sim) {
    && s.running <= s.peakRunning <= s.config.maxRunning
    && s.resident <= s.peakResident <= s.config.maxResident
    && s.tools <= s.peakTools <= s.config.maxTools
    && 0 <= s.makespan <= s.now
  }

  predicate AccountsOk(s: Sim, evs: seq<Event>)
    requires |s.states| == |s.tasks|
  {
    var n := |s.tasks|;
    var cpu, io := TotalSpent(CPU, s.tasks, s.states, n), TotalSpent(ExternalIO, s.tasks, s.states, n);
    var onCpu, inTool := Elapsed(CPUDone, s.tasks, s.now, evs), Elapsed(IODone, s.tasks, s.now, evs);
    && s.toolTime == io + inTool
    && (if s.config.liveIO then s.runningTime == cpu + onCpu else s.runningTime >= cpu + onCpu + io + inTool)
    && s.runningTime <= s.config.maxRunning * s.now
    && s.rejected == Rejections(s.states, n)
  }

  /** `evs` are the events that are still to come, taken out of the heap or not. */
  ghost predicate Core(s: Sim, evs: seq<Event>, t: nat) {
    && Shape(s) && Others(s, evs, t) && LooseOk(s, evs, t) && EventsOk(s, evs) && NumbersOk(s, evs)
    && CountsOk(s, evs, t) && LimitsOk(s) && AccountsOk(s, evs)
  }

  /** Every task is at its place. */
  ghost predicate Settled(s: Sim, evs: seq<Event>) {
    Core(s, evs, |s.tasks|)
  }

  // ------------------------------------------------------------------------------- frames

  /** Nothing that matters for task `u` is different. */
  ghost predicate SameFor(s: Sim, evs: seq<Event>, s': Sim, evs': seq<Event>, u: nat) {
    && StateOf(s', u) == StateOf(s, u)
    && Occ(s'.admission, u) == Occ(s.admission, u) && Occ(s'.ready, u) == Occ(s.ready, u)
    && Occ(s'.toolQueue, u) == Occ(s.toolQueue, u) && Occ(TasksOf(evs'), u) == Occ(TasksOf(evs), u)
    && (IdOf(s, u) in s'.results <==> IdOf(s, u) in s.results)
    && (IdOf(s, u) in s.results ==> s'.results[IdOf(s, u)] == s.results[IdOf(s, u)])
  }

  ghost predicate SameSetting(s: Sim, s': Sim) {
    s'.tasks == s.tasks && s'.config == s.config && |s'.states| == |s.states| && s'.now >= s.now && s'.makespan >= s.makespan
  }

  lemma TaskFrame(s: Sim, evs: seq<Event>, s': Sim, evs': seq<Event>, u: nat)
    requires SameSetting(s, s') && SameFor(s, evs, s', evs', u) && TaskOk(s, evs, u)
    ensures TaskOk(s', evs', u)
  {
    assert u in s'.admission <==> u in s.admission;
    assert u in s'.ready <==> u in s.ready;
    assert u in s'.toolQueue <==> u in s.toolQueue;
  }

  lemma OthersFrame(s: Sim, evs: seq<Event>, t: nat, s': Sim, evs': seq<Event>, t': nat)
    requires SameSetting(s, s') && Others(s, evs, t)
    requires forall u: nat {:trigger SameFor(s, evs, s', evs', u)} :: u < |s.tasks| && u != t && u != t' ==> SameFor(s, evs, s', evs', u)
    requires t < |s.tasks| && t' != t ==> TaskOk(s', evs', t)
    ensures Others(s', evs', t')
  {
    forall u: nat | u < |s'.tasks| && u != t' ensures TaskOk(s', evs', u) {
      if u != t { assert TaskOk(s, evs, u); TaskFrame(s, evs, s', evs', u); }
    }
  }

  /** The event of another task is as it was. */
  lemma EventFrame(s: Sim, s': Sim, e: Event)
    requires SameSetting(s, s') && EventOk(s, e) && StateOf(s', e.task) == StateOf(s, e.task)
    requires s'.now <= e.at && s'.number >= s.number
    ensures EventOk(s', e)
  {
  }

  /** A task that is not among the tasks of the events has no event. */
  lemma {:induction false} TaskOfEvent(evs: seq<Event>, e: Event)
    requires e in evs
    ensures e.task in TasksOf(evs) && Occ(TasksOf(evs), e.task) > 0
  {
    if e != evs[0] { TaskOfEvent(evs[1..], e); }
  }

  lemma EventsFrame(s: Sim, evs: seq<Event>, t: nat, s': Sim, evs': seq<Event>)
    requires SameSetting(s, s') && EventsOk(s, evs) && s'.now == s.now && s'.number >= s.number
    requires forall e :: e in evs' ==> e in evs && e.task != t
    requires forall u: nat :: u != t ==> StateOf(s', u) == StateOf(s, u)
    ensures EventsOk(s', evs')
  {
    forall e | e in evs' ensures EventOk(s', e) { assert EventOk(s, e); EventFrame(s, s', e); }
  }
}
