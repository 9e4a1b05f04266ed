/**
 The Host side of one run: the call budget, the single-use futures of early reads and the
 dispatch of tool calls (future.go, bridge.go).

 The part of the Host world that tools read and change is represented by the history of the
 state-changing requests dispatched so far: a tool's response is a function of that history and
 of its request. An early-read tool leaves the history as it is.
 */
module RunFutures {
  import opened PythonAst

  const MAX_TOOL_CALLS: nat := 1024
  const MAX_PENDING: nat := 64

  datatype Request = Request(tool: string, args: string)

  datatype Response = Success(value: Datum) | Failure(error: string)

  /** A started read: what was asked, and the world when it was asked. */
  datatype Future = Future(request: Request, seen: seq<Request>)

  /** `enabled` says whether the run may start early reads at all. */
  datatype Run = Run(
    enabled: bool,
    calls: nat,
    next: nat,
    futures: map<nat, Future>,
    effects: seq<Request>,      // state-changing requests, in the order of dispatch
    dispatched: seq<Request>)   // every request that reached a tool, in that order

  function NewRun(enabled: bool): Run {
    Run(enabled, 0, 0, map[], [], [])
  }

  /**
   The Host's behaviour. `respond` is what a tool answers in a given world. `late(id)` says
   whether the worker of future `id` reads the world only when its result is asked for, or
   already when it is started; both happen, depending on goroutine scheduling.
   */
  datatype Host = Host(
    manifest: Manifest,
    respond: (seq<Request>, Request) -> Response,
    late: nat -> bool)

  function Dispatch(h: Host, run: Run, request: Request): (Response, Run) {
    if !IsKnown(h.manifest, request.tool) then
      (Failure("unknown tool: " + request.tool), run)
    else
      (h.respond(run.effects, request),
       run.(dispatched := run.dispatched + [request],
            effects := if IsEarly(h.manifest, request.tool) then run.effects
                       else run.effects + [request]))
  }

  function Invoke(h: Host, run: Run, request: Request): (Response, Run) {
    if run.calls >= MAX_TOOL_CALLS then
      (Failure("tool call budget exhausted"), run)
    else
      Dispatch(h, run.(calls := run.calls + 1), request)
  }

  predicate MayPrepare(h: Host, run: Run, request: Request) {
    && run.enabled
    && IsKnown(h.manifest, request.tool)
    && IsEarly(h.manifest, request.tool)
    && |run.futures| < MAX_PENDING
    && run.calls < MAX_TOOL_CALLS
  }

  /** Handle 0 means "not prepared". */
  function Prepare(h: Host, run: Run, request: Request): (nat, Run) {
    if !MayPrepare(h, run, request) then (0, run)
    else
      var id := run.next + 1;
      (id, run.(calls := run.calls + 1, next := id,
                futures := run.futures[id := Future(request, run.effects)],
                dispatched := run.dispatched + [request]))
  }

  function FutureResponse(h: Host, run: Run, id: nat): Response
    requires id in run.futures
  {
    var f := run.futures[id];
    h.respond(if h.late(id) then run.effects else f.seen, f.request)
  }

  function Resolve(h: Host, run: Run, id: nat, request: Request): (Response, Run) {
    if id == 0 then Invoke(h, run, request)
    else if id !in run.futures then (Failure("unknown or consumed future"), run)
    else
      var consumed := run.(futures := run.futures - {id});
      if run.futures[id].request != request then Invoke(h, consumed, request)
      else (FutureResponse(h, run, id), consumed)
  }

  const CONTEXT_ENDED: Response := Failure("context canceled")

  /** The future that a resolve waits for, if it is one for this very request. */
  predicate WaitsFor(run: Run, id: nat, request: Request) {
    id != 0 && id in run.futures && run.futures[id].request == request
  }

  /** A resolve in a run whose context may have ended: it stops waiting for its future then. */
  function ResolveUnless(h: Host, run: Run, id: nat, request: Request, ended: bool): (Response, Run) {
    if ended && WaitsFor(run, id, request) then (CONTEXT_ENDED, run.(futures := run.futures - {id}))
    else Resolve(h, run, id, request)
  }

  /**
   Identifiers are handed out in increasing order, 0 is never one of them, and each one has
   used a call of the budget: the uint32 counters of the source never wrap.
   */
  ghost predicate WellFormed(run: Run) {
    && run.next <= run.calls <= MAX_TOOL_CALLS
    && 0 !in run.futures
    && forall id :: id in run.futures ==> id <= run.next
  }

  /**
   The run's state as the Host keeps it. `Snapshot` is its value in the model; each method is
   the step of the same name.
   */
  class RunState {
    const host: Host
    const enabled: bool
    var calls: nat
    var next: nat
    var futures: map<nat, Future>
    var effects: seq<Request>
    var dispatched: seq<Request>

    ghost predicate Valid()
      reads this
    {
      WellFormed(Snapshot())
    }

    ghost function Snapshot(): Run
      reads this
    {
      Run(enabled, calls, next, futures, effects, dispatched)
    }

    constructor (host: Host, enabled: bool)
      ensures Valid() && Snapshot() == NewRun(enabled) && this.host == host
    {
      this.host, this.enabled := host, enabled;
      calls, next, futures := 0, 0, map[];
      effects, dispatched := [], [];
    }

    method CallTool(request: Request) returns (response: Response)
      requires Valid()
      modifies this
      ensures Valid() && (response, Snapshot()) == Dispatch(host, old(Snapshot()), request)
    {
      if !IsKnown(host.manifest, request.tool) {
        return Failure("unknown tool: " + request.tool);
      }
      response := host.respond(effects, request);
      dispatched := dispatched + [request];
      if !IsEarly(host.manifest, request.tool) {
        effects := effects + [request];
      }
    }

    method InvokeTool(request: Request) returns (response: Response)
      requires Valid()
      modifies this
      ensures Valid() && (response, Snapshot()) == Invoke(host, old(Snapshot()), request)
    {
      if calls >= MAX_TOOL_CALLS {
        return Failure("tool call budget exhausted");
      }
      calls := calls + 1;
      response := CallTool(request);
    }

    method PrepareRead(request: Request) returns (id: nat)
      requires Valid()
      modifies this
      ensures Valid() && (id, Snapshot()) == Prepare(host, old(Snapshot()), request)
      ensures id != 0 ==> id !in old(futures)
    {
      if !enabled || !IsKnown(host.manifest, request.tool) || !IsEarly(host.manifest, request.tool)
         || |futures| >= MAX_PENDING || calls >= MAX_TOOL_CALLS {
        return 0;
      }
      calls := calls + 1;
      next := next + 1;
      id := next;
      futures := futures[id := Future(request, effects)];
      dispatched := dispatched + [request];
    }

    /** `ended` says that the run's context ends before the future is done. */
    method ResolveRead(id: nat, request: Request, ended: bool) returns (response: Response)
      requires Valid()
      modifies this
      ensures Valid() && (response, Snapshot()) == ResolveUnless(host, old(Snapshot()), id, request, ended)
      ensures id !in futures
    {
      if id == 0 {
        response := InvokeTool(request);
        return;
      }
      if id !in futures {
        return Failure("unknown or consumed future");
      }
      var f := futures[id];
      futures := futures - {id};
      if f.request != request {
        response := InvokeTool(request);
        return;
      }
      if ended { return CONTEXT_ENDED; }
      response := host.respond(if host.late(id) then effects else f.seen, f.request);
    }
  }
}
