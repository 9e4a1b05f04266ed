/**
 One run under the durable runner, step by step (durable/runner.go). Every transaction of the
 store is one step; so is every answer from outside: a tool's reply, a lookup, a wait
 declaration, an expiry, a decision, a cancellation. The claim admits one attempt at a time. A
 crash can strike between any two steps; it takes the attempt, its journal and its claim with
 it and leaves the rows.
 */
module DurableProtocol {
  import opened Options
  import opened DurableStore

  datatype Mode = RetrySafe | Idempotent | Lookup | Manual | WaitMode

  /** What a Guest does next. */
  datatype GuestStep =
    | Calls(tool: string, arguments: Bytes)
    | Returns(output: Bytes)
    | Raises(output: Bytes, message: string)

  /**
   A recorded Guest is deterministic: what it does next depends on the responses it got so
   far. `tools` are the declarations pinned with the run, `wire` encodes a decision.
   */
  datatype Config = Config(guest: seq<Bytes> -> GuestStep, tools: map<string, Mode>, wire: Decision -> Bytes)

  // ------------------------------------------------------------------------ attempts

  datatype BlockReason =
    | Diverged(kind: Mismatch)
    | NotConsumed
    | ManualRecovery
    | LookupInvalid
    | LookupUnknown
    | BadDefinition

  function ReasonText(r: BlockReason): string {
    match r
    case Diverged(_) => "durable history mismatch"
    case NotConsumed => "recorded call history was not fully consumed"
    case ManualRecovery => "manual recovery required"
    case LookupInvalid => "lookup response is invalid"
    case LookupUnknown => "lookup result is unknown"
    case BadDefinition => "pinned definition does not match runner"
  }

  /** Why the Guest stopped. */
  datatype Cause =
    | GuestEnded(step: GuestStep)
    | Refused(reason: BlockReason)
    | StoreFailed(error: Error)
    | Parked(sequence: nat)

  datatype Phase =
    | Opening(compatible: bool)
    | Rejecting
    | Registered
    | Running
    | Asking(call: LoggedCall)
    | Beginning(call: LoggedCall)
    | Dispatching(call: LoggedCall)
    | AwaitingReply(call: LoggedCall)
    | LookingUp(call: LoggedCall)
    | GettingWait(call: LoggedCall)
    | DeclaringWait(call: LoggedCall)
    | EnsuringWait(call: LoggedCall, spec: WaitSpec)
    | CheckingWait(call: LoggedCall, wait: WaitRow)
    | ExpiringWait(call: LoggedCall)
    | RecheckingWait(call: LoggedCall)
    | Completing(call: LoggedCall, response: Bytes)
    | Leaving(cause: Cause)
    | Closing(step: GuestStep)
    | Storing(step: GuestStep)
    | Failing(error: Error)
    | Blocking(reason: BlockReason)

  /** The journal of one attempt: the next sequence number and the rows read ahead. */
  datatype Journal = Journal(sequence: nat, history: seq<Record>, live: bool)

  datatype Attempt = Attempt(phase: Phase, responses: seq<Bytes>, journal: Journal)

  /** What `Resume` returns. */
  datatype Answer =
    | Finished(output: Bytes)
    | PythonFailed(output: Bytes, message: string)
    | WasBlocked
    | WasCancelled
    | WasParked(sequence: nat)
    | Errored(error: Error)

  datatype Event =
    | Dispatched(sequence: nat, tool: string, arguments: Bytes, key: string)
    | ReportedSafe(sequence: nat)

  /** `events` is the history of what reached the tools, over all attempts. */
  datatype System = System(rows: Rows, attempt: Option<Attempt>, events: seq<Event>, answer: Option<Answer>)

  datatype LookupReply = SafeToDispatch | StillPending | Found(response: Bytes) | Invalid | Unknown

  datatype Action =
    | Claim(compatible: bool)
    | Advance
    | ToolReply(response: Bytes)
    | LookupAnswers(reply: LookupReply)
    | WaitDeclared(spec: WaitSpec)
    | Expire
    | Crash
    | Cancel
    | Decide(sequence: nat, decision: Decision)

  // ------------------------------------------------------------------- single steps

  function Start(d: Definition): System {
    System(NewRun(d), None, [], None)
  }

  function At(sys: System, a: Attempt, phase: Phase): System {
    sys.(attempt := Some(a.(phase := phase)))
  }

  function End(sys: System, answer: Answer): System {
    sys.(attempt := None, answer := Some(answer))
  }

  function Respond(sys: System, a: Attempt, response: Bytes): System {
    sys.(attempt := Some(a.(phase := Running, responses := a.responses + [response])))
  }

  function Logged(sequence: nat, tool: string, arguments: Bytes): LoggedCall {
    LoggedCall(sequence, CallId(sequence), tool, arguments)
  }

  function Open(sys: System, a: Attempt, compatible: bool): System {
    if sys.rows.status == Blocked then End(sys, WasBlocked)
    else if !compatible then At(sys, a, Rejecting)
    else match sys.rows.status
      case Cancelled => End(sys, WasCancelled)
      case Completed => End(sys, Finished(sys.rows.outcome))
      case Failed => End(sys, PythonFailed(sys.rows.outcome, sys.rows.reason))
      case _ => At(sys, a, Registered)
  }

  function Run(cfg: Config, sys: System, a: Attempt): System {
    match cfg.guest(a.responses)
    case Calls(tool, arguments) =>
      var call := Logged(a.journal.sequence, tool, arguments);
      At(sys, a.(journal := a.journal.(sequence := a.journal.sequence + 1)), Asking(call))
    case step => At(sys, a, Leaving(GuestEnded(step)))
  }

  /** How the journal compares a record that it read ahead with the call that is made. */
  function Compare(runId: string, record: Record, call: LoggedCall): Option<Mismatch> {
    if record.sequence != call.sequence then Some(WrongSequence)
    else if record.row.callId != call.callId then Some(WrongCallId)
    else if record.row.tool != call.capability then Some(WrongCapability)
    else if record.row.arguments != call.arguments then Some(WrongArguments)
    else if record.row.operationKey != OperationKey(runId, call.sequence) then Some(WrongOperationKey)
    else None
  }

  /** What the journal knows of a call without reserving it. */
  datatype ReadBack =
    | NotRead
    | ReadAs(outcome: Bytes)
    | ReadOtherwise(kind: Mismatch)

  /** Replay from the window of completed rows, until a window is empty; from then on, live. */
  function ReadWindow(rows: Rows, j: Journal, call: LoggedCall): (ReadBack, Journal) {
    if j.live then (NotRead, j)
    else
      var window := if j.history == [] then ReadCompleted(rows, call.sequence) else j.history;
      if window == [] then (NotRead, j.(live := true))
      else
        match Compare(rows.definition.id, window[0], call)
        case Some(kind) => (ReadOtherwise(kind), j.(history := window[1..]))
        case None => (ReadAs(window[0].row.outcome), j.(history := window[1..]))
  }

  function Ask(sys: System, a: Attempt, call: LoggedCall): System {
    var (read, j) := ReadWindow(sys.rows, a.journal, call);
    match read
    case NotRead => At(sys, a.(journal := j), Beginning(call))
    case ReadOtherwise(kind) => At(sys, a.(journal := j), Leaving(Refused(Diverged(kind))))
    case ReadAs(outcome) => Respond(sys, a.(journal := j), outcome)
  }

  /** What to do with a call that is reserved and not complete. */
  function Recover(cfg: Config, created: bool, call: LoggedCall): Phase {
    if call.capability !in cfg.tools then Dispatching(call)
    else
      var mode := cfg.tools[call.capability];
      if mode == WaitMode then GettingWait(call)
      else if created then Dispatching(call)
      else match mode
        case Lookup => LookingUp(call)
        case Manual => Leaving(Refused(ManualRecovery))
        case _ => Dispatching(call)
  }

  ghost function Begin(cfg: Config, sys: System, a: Attempt, call: LoggedCall): System {
    var (r, rows) := BeginCall(sys.rows, call);
    match r
    case Err(HistoryMismatch(kind)) => At(sys, a, Leaving(Refused(Diverged(kind))))
    case Err(e) => At(sys, a, Leaving(StoreFailed(e)))
    case Ok(found) =>
      if found.0.state == CallCompleted then Respond(sys, a, found.0.outcome)
      else At(sys.(rows := rows), a, Recover(cfg, found.1, call))
  }

  ghost function Complete(sys: System, a: Attempt, call: LoggedCall, response: Bytes): System {
    var (r, rows) := CompleteCall(sys.rows, call.sequence, response);
    match r
    case Err(e) => At(sys, a, Leaving(StoreFailed(e)))
    case Ok(persisted) => Respond(sys.(rows := rows), a, persisted)
  }

  ghost function DeclareWait(sys: System, a: Attempt, call: LoggedCall, spec: WaitSpec): System {
    var (r, rows) := EnsureWait(sys.rows, call.sequence, spec);
    match r
    case Err(e) => At(sys, a, Leaving(StoreFailed(e)))
    case Ok(wait) => At(sys.(rows := rows), a, CheckingWait(call, wait))
  }

  const EXPIRED: Decision := Decision("", "wait expired")

  ghost function ExpireWait(sys: System, a: Attempt, call: LoggedCall): System {
    var (r, rows) := ResolveWait(sys.rows, call.sequence, EXPIRED);
    match r
    case Err(e) => At(sys, a, Leaving(StoreFailed(e)))
    case Ok(_) => At(sys.(rows := rows), a, RecheckingWait(call))
  }

  /** After the Guest has stopped: a cancellation that was committed meanwhile comes first. */
  function Leave(sys: System, a: Attempt, cause: Cause): System {
    if sys.rows.status == Cancelled then End(sys, WasCancelled)
    else match cause
      case GuestEnded(step) => At(sys, a, Closing(step))
      case Refused(reason) => At(sys, a, Blocking(reason))
      case StoreFailed(e) => End(sys, Errored(e))
      case Parked(sequence) => End(sys, WasParked(sequence))
  }

  ghost function Store(sys: System, a: Attempt, step: GuestStep): System {
    match step
    case Calls(_, _) => sys
    case Returns(output) =>
      var (r, rows) := SetState(sys.rows, Completed, output, "");
      (match r
       case Ok(_) => End(sys.(rows := rows), Finished(output))
       case Err(e) => At(sys, a, Failing(e)))
    case Raises(output, message) =>
      var (r, rows) := SetState(sys.rows, Failed, output, message);
      match r
      case Ok(_) => End(sys.(rows := rows), PythonFailed(output, message))
      case Err(e) => At(sys, a, Failing(e))
  }

  ghost function Step(cfg: Config, sys: System, a: Attempt): System {
    match a.phase
    case Opening(compatible) => Open(sys, a, compatible)
    case Rejecting =>
      End(sys.(rows := SetState(sys.rows, Blocked, "", ReasonText(BadDefinition)).1), WasBlocked)
    case Registered =>
      if sys.rows.status == Cancelled then End(sys, WasCancelled) else At(sys, a, Running)
    case Running => Run(cfg, sys, a)
    case Asking(call) => Ask(sys, a, call)
    case Beginning(call) => Begin(cfg, sys, a, call)
    case Dispatching(call) =>
      At(sys.(events := sys.events + [Dispatched(call.sequence, call.capability, call.arguments,
                                                 OperationKey(sys.rows.definition.id, call.sequence))]),
         a, AwaitingReply(call))
    case GettingWait(call) =>
      (match GetWait(sys.rows, call.sequence)
       case Ok(wait) => At(sys, a, CheckingWait(call, wait))
       case Err(_) => At(sys, a, DeclaringWait(call)))
    case EnsuringWait(call, spec) => DeclareWait(sys, a, call, spec)
    case CheckingWait(call, wait) =>
      (match wait.decision
       case None => At(sys, a, Leaving(Parked(call.sequence)))
       case Some(d) => At(sys, a, Completing(call, cfg.wire(d))))
    case ExpiringWait(call) => ExpireWait(sys, a, call)
    case RecheckingWait(call) =>
      (match GetWait(sys.rows, call.sequence)
       case Ok(wait) => At(sys, a, CheckingWait(call, wait))
       case Err(e) => At(sys, a, Leaving(StoreFailed(e))))
    case Completing(call, response) => Complete(sys, a, call, response)
    case Leaving(cause) => Leave(sys, a, cause)
    case Closing(step) =>
      if HasCall(sys.rows, a.journal.sequence) then At(sys, a, Blocking(NotConsumed)) else At(sys, a, Storing(step))
    case Storing(step) => Store(sys, a, step)
    case Failing(e) => End(sys, if sys.rows.status == Cancelled then WasCancelled else Errored(e))
    case Blocking(reason) =>
      End(sys.(rows := SetState(sys.rows, Blocked, "", ReasonText(reason)).1), WasBlocked)
    case AwaitingReply(_) => sys
    case LookingUp(_) => sys
    case DeclaringWait(_) => sys
  }

  function LookedUp(sys: System, a: Attempt, call: LoggedCall, reply: LookupReply): System {
    match reply
    case SafeToDispatch => At(sys.(events := sys.events + [ReportedSafe(call.sequence)]), a, Dispatching(call))
    case StillPending => At(sys, a, Leaving(Parked(call.sequence)))
    case Found(response) => At(sys, a, Completing(call, response))
    case Invalid => At(sys, a, Leaving(Refused(LookupInvalid)))
    case Unknown => At(sys, a, Leaving(Refused(LookupUnknown)))
  }

  /** One action; one that is not possible now changes nothing. */
  ghost function Apply(cfg: Config, sys: System, action: Action): System {
    match action
    case Claim(compatible) =>
      if sys.attempt.Some? then sys
      else sys.(attempt := Some(Attempt(Opening(compatible), [], Journal(0, [], false))))
    case Crash => sys.(attempt := None)
    case Cancel => sys.(rows := SetState(sys.rows, Cancelled, "", "cancelled").1)
    case Decide(sequence, decision) => sys.(rows := ResolveWait(sys.rows, sequence, decision).1)
    case _ =>
      if sys.attempt.None? then sys
      else
        var a := sys.attempt.value;
        match (action, a.phase)
        case (Advance, _) => Step(cfg, sys, a)
        case (ToolReply(response), AwaitingReply(call)) => At(sys, a, Completing(call, response))
        case (LookupAnswers(reply), LookingUp(call)) => LookedUp(sys, a, call, reply)
        case (WaitDeclared(spec), DeclaringWait(call)) => At(sys, a, EnsuringWait(call, spec))
        case (Expire, CheckingWait(call, wait)) =>
          if wait.decision.None? && wait.spec.deadline != "" then At(sys, a, ExpiringWait(call)) else sys
        case _ => sys
  }

  /** A whole history of the run. */
  ghost function Execute(cfg: Config, sys: System, actions: seq<Action>): System
    decreases |actions|
  {
    if actions == [] then sys else Execute(cfg, Apply(cfg, sys, actions[0]), actions[1..])
  }
}
