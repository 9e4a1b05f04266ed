/**
 The durable executor as a state machine (durable/executor.go). Every section under the
 executor's mutex is one step; so is each use of a tool token. Contexts end at any time.
 Attempts are numbered in the order in which they were accepted.
 */
module ExecutorModel {
  import opened Options
  import opened Queues

  datatype Limits = Limits(running: nat, resident: nat, queued: nat, tools: nat)

  datatype AttemptState = Queued | Running | WaitingLive | Ready | Done

  /**
   Where the host call of an attempt is. `AwaitsPermit(closed)` carries the channel that the
   call waits on. One Guest makes its host calls one after the other.
   */
  datatype Gate = Idle | WantsToken | HoldsToken | Released | AwaitsPermit(closed: bool)

  /** The goroutine that advances the attempt. */
  datatype Worker = Unstarted | Advancing | Returned

  datatype Outcome = CancelledInQueue | ContextEnded | Advanced(result: string)

  /** `results` are the completions of the attempt, `permit` whether it has a channel to close. */
  datatype Row = Row(runId: string, state: AttemptState, permit: bool, parentDone: bool, cancelled: bool,
                     gate: Gate, worker: Worker, results: seq<Outcome>)

  datatype Event = Started(id: nat) | Granted(id: nat, bypassed: bool)

  /** `panicked`: a channel was closed that was nil or closed. `log` is the order of the starts and grants. */
  datatype Exec = Exec(limits: Limits, closed: bool, drained: bool, queue: seq<nat>, ready: seq<nat>, burst: nat,
                       running: int, resident: int, tokens: int, attempts: map<string, nat>, table: seq<Row>,
                       log: seq<Event>, panicked: bool)

  const MAX_READY_BURST: nat := 8

  datatype AdmitError = ErrClosed | ErrBusy | ErrQueueFull

  predicate ContextDone(r: Row) {
    r.parentDone || r.cancelled
  }

  function New(limits: Limits): Exec {
    Exec(limits, false, false, [], [], 0, 0, 0, 0, map[], [], [], false)
  }

  // --------------------------------------------------------------------- small pieces

  predicate Known(s: Exec) {
    && (forall i :: 0 <= i < |s.queue| ==> s.queue[i] < |s.table|)
    && (forall i :: 0 <= i < |s.ready| ==> s.ready[i] < |s.table|)
  }

  function Put(s: Exec, a: nat, r: Row): Exec
    requires a < |s.table|
  {
    s.(table := s.table[a := r])
  }

  /** The attempt is over: its result is published, its context cancelled, its run is free. */
  function Complete(s: Exec, a: nat, outcome: Outcome): Exec
    requires a < |s.table|
  {
    var r := s.table[a];
    Put(s, a, r.(state := Done, cancelled := true, results := r.results + [outcome])).(
      attempts := s.attempts - {r.runId},
      panicked := s.panicked || r.results != [])
  }

  function DropQueued(s: Exec, a: nat, outcome: Outcome): Exec
    requires a < |s.table|
  {
    Complete(s.(queue := Without(s.queue, a)), a, outcome)
  }

  function MaybeDrain(s: Exec): Exec {
    if s.closed && !s.drained && s.attempts == map[] then s.(drained := true) else s
  }

  /** Give a running slot to a resident attempt that waits for one, and close its permit. */
  function Grant(s: Exec, a: nat, bypassed: bool): Exec
    requires a < |s.table|
  {
    var r := s.table[a];
    var open := r.permit && r.gate == AwaitsPermit(false);
    Put(s, a, r.(state := Running, permit := false, gate := if open then AwaitsPermit(true) else r.gate)).(
      running := s.running + 1, burst := s.burst + 1,
      log := s.log + [Granted(a, bypassed)], panicked := s.panicked || !open)
  }

  /** Start an attempt: it takes a running and a resident slot. */
  function Begin(s: Exec, a: nat): Exec
    requires a < |s.table|
  {
    Put(s, a, s.table[a].(state := Running, worker := Advancing)).(
      running := s.running + 1, resident := s.resident + 1, burst := 0, log := s.log + [Started(a)])
  }

  predicate CanAdmit(s: Exec) {
    s.resident < s.limits.resident && s.queue != []
  }

  predicate TakesReady(s: Exec) {
    s.ready != [] && (!CanAdmit(s) || s.burst < MAX_READY_BURST)
  }

  /** One turn of the scheduling loop on the ready list. */
  function ServeReady(s: Exec): Exec
    requires Known(s) && s.ready != []
    ensures Known(ServeReady(s)) && ServeReady(s).queue == s.queue && ServeReady(s).ready == s.ready[1..]
  {
    var a := s.ready[0];
    var rest := s.(ready := s.ready[1..]);
    if s.table[a].state != Ready then rest else Grant(rest, a, CanAdmit(s))
  }

  /** One turn of the scheduling loop on the admission queue. */
  function ServeQueue(s: Exec): Exec
    requires Known(s) && s.queue != []
    ensures Known(ServeQueue(s)) && ServeQueue(s).ready == s.ready && |ServeQueue(s).queue| < |s.queue|
  {
    var a := s.queue[0];
    var rest := s.(queue := s.queue[1..]);
    WithoutIsShorter(rest.queue, a);
    if s.table[a].state != Queued then rest
    else if ContextDone(s.table[a]) then DropQueued(rest, a, ContextEnded)
    else Begin(rest, a)
  }

  /**
   Fill the running slots: first the attempts that are resident and ready, then the queue; but
   after 8 grants in a row an admission that is possible comes first.
   */
  function Schedule(s: Exec): Exec
    requires Known(s)
    decreases |s.ready| + |s.queue|
  {
    if s.running >= s.limits.running then s
    else if TakesReady(s) then Schedule(ServeReady(s))
    else if !CanAdmit(s) then s
    else Schedule(ServeQueue(s))
  }

  // ------------------------------------------------------------------------ the steps

  function Admit(s: Exec, runId: string): (Exec, Option<AdmitError>) {
    var a := |s.table|;
    var row := Row(runId, Queued, false, false, false, Idle, Unstarted, []);
    var entered := s.(attempts := s.attempts[runId := a], table := s.table + [row]);
    if s.closed then (s, Some(ErrClosed))
    else if runId in s.attempts then (s, Some(ErrBusy))
    else if s.running < s.limits.running && s.resident < s.limits.resident then (Begin(entered, a), None)
    else if |s.queue| >= s.limits.queued then (s, Some(ErrQueueFull))
    else (entered.(queue := s.queue + [a]), None)
  }

  predicate Live(state: AttemptState) {
    state == Running || state == WaitingLive || state == Ready
  }

  function CancelContext(s: Exec, a: nat): Exec
    requires a < |s.table|
  {
    Put(s, a, s.table[a].(cancelled := true))
  }

  /** Drop a queued attempt, or cancel the context of one that has started. */
  function Stop(s: Exec, a: nat, outcome: Outcome): Exec
    requires a < |s.table|
  {
    var state := s.table[a].state;
    if state == Queued then MaybeDrain(DropQueued(s, a, outcome))
    else if Live(state) then CancelContext(s, a)
    else s
  }

  function Cancel(s: Exec, runId: string): Exec
    requires runId in s.attempts ==> s.attempts[runId] < |s.table|
  {
    if runId in s.attempts then Stop(s, s.attempts[runId], CancelledInQueue) else s
  }

  /** Give back the slots of an attempt whose worker has returned. */
  function Vacate(s: Exec, a: nat): Exec
    requires a < |s.table|
  {
    match s.table[a].state
    case Running => s.(running := s.running - 1, resident := s.resident - 1)
    case WaitingLive => s.(resident := s.resident - 1)
    case Ready => s.(ready := Without(s.ready, a), resident := s.resident - 1)
    case _ => s
  }

  function Finish(s: Exec, a: nat, result: string): Exec
    requires Known(s) && a < |s.table|
  {
    var r := s.table[a];
    var back := Put(s, a, r.(worker := Returned));
    if r.state == Done || r.state == Queued then back
    else
      WithoutIsShorter(s.ready, a);
      var out := Complete(Vacate(back, a), a, Advanced(result));
      assert |out.table| == |s.table| && out.queue == s.queue;
      assert out.ready == s.ready || out.ready == Without(s.ready, a);
      MaybeDrain(Schedule(out))
  }

  /** A tool that waits outside gives the running slot away; the error is that there is none. */
  function Yield(s: Exec, a: nat): (Exec, bool)
    requires Known(s) && a < |s.table|
  {
    var r := s.table[a];
    if r.state != Running then (s, false)
    else (Schedule(Put(s, a, r.(state := WaitingLive, gate := WantsToken)).(running := s.running - 1)), true)
  }

  function TakeToken(s: Exec, a: nat): Exec
    requires a < |s.table|
  {
    Put(s, a, s.table[a].(gate := HoldsToken)).(tokens := s.tokens + 1)
  }

  function ReturnToken(s: Exec, a: nat): Exec
    requires a < |s.table|
  {
    Put(s, a, s.table[a].(gate := Released)).(tokens := s.tokens - 1)
  }

  function LeaveGate(s: Exec, a: nat): Exec
    requires a < |s.table|
  {
    Put(s, a, s.table[a].(gate := Idle))
  }

  /** Ask for a running slot again: take a free one, or wait in the ready list. */
  function Reacquire(s: Exec, a: nat): Exec
    requires a < |s.table|
  {
    var r := s.table[a];
    if r.state != WaitingLive || ContextDone(r) then LeaveGate(s, a)
    else if s.running < s.limits.running then Put(s, a, r.(state := Running, gate := Idle)).(running := s.running + 1)
    else Put(s, a, r.(state := Ready, permit := true, gate := AwaitsPermit(false))).(ready := s.ready + [a])
  }

  /** The context ends while the call waits for its permit. */
  function GiveUp(s: Exec, a: nat): Exec
    requires a < |s.table|
  {
    var r := s.table[a];
    if r.state == Ready then
      Put(s, a, r.(state := WaitingLive, permit := false, gate := Idle)).(ready := Without(s.ready, a))
    else LeaveGate(s, a)
  }

  function Close(s: Exec): Exec {
    MaybeDrain(s.(closed := true))
  }

  datatype Action =
    | DoAdmit(runId: string)
    | DoCancel(runId: string)
    | ContextEnds(id: nat)
    | DoAbort(id: nat)
    | DoFinish(id: nat, result: string)
    | DoYield(id: nat)
    | DoTakeToken(id: nat)
    | TokenGivenUp(id: nat)
    | DoReturnToken(id: nat)
    | DoReacquire(id: nat)
    | PermitTaken(id: nat)
    | PermitGivenUp(id: nat)
    | DoClose

  /** A step of an attempt happens only where its goroutines can be. */
  predicate Enabled(s: Exec, action: Action) {
    match action
    case DoAdmit(_) => true
    case DoCancel(_) => true
    case DoClose => true
    case ContextEnds(a) => a < |s.table|
    case DoAbort(a) => a < |s.table| && s.table[a].parentDone
    case DoFinish(a, _) => a < |s.table| && s.table[a].worker == Advancing
    case DoYield(a) => a < |s.table| && s.table[a].worker == Advancing && s.table[a].gate == Idle
    case DoTakeToken(a) => a < |s.table| && s.table[a].gate == WantsToken && s.tokens < s.limits.tools
    case TokenGivenUp(a) => a < |s.table| && s.table[a].gate == WantsToken && ContextDone(s.table[a])
    case DoReturnToken(a) => a < |s.table| && s.table[a].gate == HoldsToken
    case DoReacquire(a) => a < |s.table| && s.table[a].gate == Released
    case PermitTaken(a) => a < |s.table| && s.table[a].gate == AwaitsPermit(true)
    case PermitGivenUp(a) => a < |s.table| && s.table[a].gate.AwaitsPermit? && ContextDone(s.table[a])
  }

  predicate WellFormed(s: Exec) {
    Known(s) && forall runId :: runId in s.attempts ==> s.attempts[runId] < |s.table|
  }

  function Step(s: Exec, action: Action): Exec
    requires WellFormed(s)
  {
    if !Enabled(s, action) then s
    else match action
      case DoAdmit(runId) => Admit(s, runId).0
      case DoCancel(runId) => Cancel(s, runId)
      case DoClose => Close(s)
      case ContextEnds(a) => Put(s, a, s.table[a].(parentDone := true))
      case DoAbort(a) => Stop(s, a, ContextEnded)
      case DoFinish(a, result) => Finish(s, a, result)
      case DoYield(a) => Yield(s, a).0
      case DoTakeToken(a) => TakeToken(s, a)
      case TokenGivenUp(a) => LeaveGate(s, a)
      case DoReturnToken(a) => ReturnToken(s, a)
      case DoReacquire(a) => Reacquire(s, a)
      case PermitTaken(a) => LeaveGate(s, a)
      case PermitGivenUp(a) => GiveUp(s, a)
  }
}
