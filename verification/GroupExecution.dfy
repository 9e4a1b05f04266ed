/**
 From syntax to protocol: executing the statements of a group, or of the rewritten group, takes
 the steps of GroupProtocol; so the rewritten group has the outcome of the group.
 */
module GroupExecution {
  import opened PythonAst
  import opened RunFutures
  import opened EarlyReadPass
  import opened GuestSemantics
  import opened EvalFrame
  import opened CallBudget
  import opened GroupProtocol

  ghost function Ask(p: Python, tool: string, kws: seq<Keyword>, env: Env): Asked {
    match EvalKeywords(p, kws, env)
    case Raise(x) => AskRaises(x)
    case Ok(v) =>
      match p.encode(tool, v)
      case DumpsRaises(x) => AskRaises(x)
      case HostRejects(error) => AskRaises(RuntimeError(error))
      case Encoded(text) => Asks(Request(tool, text))
  }

  /**
   The keyword names that `resolve_call(handle, name, **args)` or
   `_Tool.__call__(self, **args)` bind to something else.
   */
  predicate FreeOfReserved(kws: seq<Keyword>) {
    !HasKeyword(kws, "self") && !HasKeyword(kws, "handle") && !HasKeyword(kws, "name")
  }

  ghost predicate EarlyStmt(p: Python, c: Context, s: Stmt) {
    && c.manifest == p.host.manifest
    && EarlyAssign(c, s) && |s.targets| == 1 && s.targets[0].Name?
  }

  ghost function ItemFor(p: Python, c: Context, s: Stmt, slot: string, place: nat): Read
    requires EarlyStmt(p, c, s)
  {
    var tool, kws := ToolName(c, s.value).value, s.value.keywords;
    Read(env => Ask(p, tool, kws, env), Loaded(s), Target(s), slot, place)
  }

  // ------------------------------------------------------------- single statements

  lemma {:induction false} PathValue(p: Python, e: Expr, env: Env, i: nat)
    requires RootsBound(p.host.manifest, env) && i < |p.host.manifest|
    requires FunctionPath(e).Some? && IsPrefix(FunctionPath(e).value, p.host.manifest[i].path)
    ensures EvalFunc(p, e, env) == Ok(Exported(FunctionPath(e).value))
    ensures FunctionPath(e).value != []
  {
    match e
    case Name(id) =>
      assert p.host.manifest[i].path[..1][0] == p.host.manifest[i].path[0];
    case Attribute(owner, attr) =>
      var prefix := FunctionPath(owner).value;
      assert (prefix + [attr])[..|prefix|] == prefix;
      assert p.host.manifest[i].path[..|prefix| + 1][..|prefix|] == p.host.manifest[i].path[..|prefix|];
      PathValue(p, owner, env, i);
  }

  /** The function of a tool call evaluates to the tool it names. */
  lemma ToolValue(p: Python, c: Context, e: Expr, env: Env)
    requires c.manifest == p.host.manifest && RootsBound(p.host.manifest, env)
    requires ToolCall(c, e)
    ensures FunctionPath(e.func).Some?
    ensures EvalFunc(p, e.func, env) == Ok(Exported(FunctionPath(e.func).value))
    ensures ToolAt(p.host.manifest, FunctionPath(e.func).value) == ToolName(c, e)
  {
    var path := FunctionPath(e.func).value;
    var i :| 0 <= i < |c.manifest| && c.manifest[i].path == path;
    assert path[..|path|] == path;
    PathValue(p, e.func, env, i);
  }

  lemma KnownAndEarly(c: Context, e: Expr)
    requires EarlyCall(c, e)
    ensures IsKnown(c.manifest, ToolName(c, e).value)
  {
    var i :| 0 <= i < |c.manifest| && c.manifest[i].name == ToolName(c, e).value && c.manifest[i].allowEarlyRead;
  }

  lemma OriginalExec(p: Python, c: Context, s: Stmt, slot: string, place: nat, so: State)
    requires EarlyStmt(p, c, s) && RootsBound(p.host.manifest, so.env)
    requires !HasKeyword(s.value.keywords, "self")
    ensures ExecStmt(p, s, so) == ReadOutcome(p.host, ItemFor(p, c, s, slot, place), so)
  {
    ToolValue(p, c, s.value, so.env);
  }

  lemma ResolveExec(p: Python, c: Context, h: Helpers, s: Stmt, slot: string, place: nat, st: State)
    requires EarlyStmt(p, c, s) && HelpersBound(h, st.env) && HasHandle(st, slot)
    requires !HasKeyword(s.value.keywords, "handle") && !HasKeyword(s.value.keywords, "name")
    ensures ExecStmt(p, ResolveStmt(c, h, s, slot), st)
         == ResolveOutcome(p.host, ItemFor(p, c, s, slot, place), st.env[slot].n, st)
  {
    EvalPair(p, Name(slot), Constant(Str(ToolName(c, s.value).value)), st.env);
  }

  lemma ThunkNamesTool(p: Python, kws: seq<Keyword>, tool: string, env: Env)
    requires forall k :: k in kws ==> k.arg.Some?
    ensures var r := Eval(p, Display(true, [Constant(Str(tool)), DictDisplay(ItemsOf(kws))]), env);
      r.Ok? ==> r.value.Items? && |r.value.elts| == 2 && r.value.elts[0] == Str(tool)
  {
    var e0, e1 := Constant(Str(tool)), DictDisplay(ItemsOf(kws));
    if Eval(p, e1, env).Ok? {
      EvalPair(p, e0, e1, env);
    } else {
      assert [e0, e1][1..] == [e1];
      assert EvalAll(p, [e1], env).Raise?;
    }
  }

  /** A prepare never raises; it stores a handle for what its call asks for, or 0. */
  lemma PrepareExec(p: Python, c: Context, h: Helpers, s: Stmt, slot: string, place: nat, st: State)
    returns (st': State, id: nat, request: Request)
    requires EarlyStmt(p, c, s) && HelpersBound(h, st.env)
    ensures ExecStmt(p, PrepareStmt(c, h, s, slot), st) == Normal(st')
    ensures PrepareOutcome(p.host, ItemFor(p, c, s, slot, place), st, st', id, request)
  {
    var tool := ToolName(c, s.value).value;
    var kws := s.value.keywords;
    if EvalKeywords(p, kws, st.env).Ok? {
      ThunkIsArguments(p, kws, tool, st.env);
    }
    var thunk := PrepareStmt(c, h, s, slot).value.args[0];
    var pair := Eval(p, thunk.body, st.env);
    var prepared := PrepareCall(p, thunk.body, st.env, st.run);
    id := prepared.0;
    st' := State(st.env[slot := Int(id)], prepared.1);
    request := Request(tool, "");
    if pair.Ok? {
      ThunkNamesTool(p, kws, tool, st.env);
      match p.encode(tool, pair.value.elts[1])
      case Encoded(text) => request := Request(tool, text);
      case _ =>
    }
  }

  // ------------------------------------------------------------------ whole groups

  /** A group of calls free of the reserved keywords, and the slots chosen for it. */
  ghost predicate GroupWithSlots(p: Python, c: Context, h: Helpers, hidden: set<string>, g: seq<Stmt>, slots: seq<string>) {
    && Group(c, g) && |slots| == |g|
    && (forall k :: 0 <= k < |g| ==> EarlyStmt(p, c, g[k]) && FreeOfReserved(g[k].value.keywords))
    && (forall k :: 0 <= k < |g| ==> Target(g[k]) !in hidden && Loaded(g[k]) !! hidden)
    && (forall k :: 0 <= k < |g| ==> !IsToolRoot(c.manifest, Target(g[k])))
    && (forall k :: 0 <= k < |g| ==> slots[k] in hidden && slots[k] != h.prepare && slots[k] != h.resolve)
    && (forall k, l :: 0 <= k < l < |g| ==> slots[k] != slots[l])
  }

  ghost function Plan(p: Python, c: Context, h: Helpers, hidden: set<string>, g: seq<Stmt>, slots: seq<string>): (plan: seq<Read>)
    requires GroupWithSlots(p, c, h, hidden, g, slots)
    ensures |plan| == |g|
    ensures forall k :: 0 <= k < |g| ==> plan[k] == ItemFor(p, c, g[k], slots[k], PlaceOf(c, g, k))
  {
    seq(|g|, k requires 0 <= k < |g| => ItemFor(p, c, g[k], slots[k], PlaceOf(c, g, k)))
  }

  lemma ItemIsOk(p: Python, c: Context, h: Helpers, hidden: set<string>, g: seq<Stmt>, slots: seq<string>, k: nat)
    requires GroupWithSlots(p, c, h, hidden, g, slots) && k < |g|
    ensures ItemOk(p.host, h, hidden, ItemFor(p, c, g[k], slots[k], PlaceOf(c, g, k)))
  {
    var x := ItemFor(p, c, g[k], slots[k], PlaceOf(c, g, k));
    forall a, b | AgreeOn(a, b, x.uses) ensures x.ask(a) == x.ask(b) {
      EvalKeywordsSame(p, g[k].value.keywords, a, b);
    }
    KnownAndEarly(c, g[k].value);
  }

  lemma PlanIsPlanned(p: Python, c: Context, h: Helpers, hidden: set<string>, g: seq<Stmt>, slots: seq<string>)
    requires GroupWithSlots(p, c, h, hidden, g, slots)
    ensures Planned(p.host, h, hidden, Plan(p, c, h, hidden, g, slots))
  {
    var plan := Plan(p, c, h, hidden, g, slots);
    forall k | 0 <= k < |plan| ensures ItemOk(p.host, h, hidden, plan[k]) {
      ItemIsOk(p, c, h, hidden, g, slots, k);
    }
  }

  lemma {:induction false} ExecAppend(p: Python, a: seq<Stmt>, b: seq<Stmt>, st: State)
    ensures var r := ExecBlock(p, a, st);
      ExecBlock(p, a + b, st) == if r.Normal? then ExecBlock(p, b, r.state) else r
  {
    if a == [] {
      assert a + b == b;
    } else {
      assert (a + b)[1..] == a[1..] + b;
      var r := ExecStmt(p, a[0], st);
      if r.Normal? { ExecAppend(p, a[1..], b, r.state); }
    }
  }

  /** Running the prepare of call `i`, if it goes before position `j`, keeps `inv`. */
  ghost predicate KeepsAt(p: Python, prepares: seq<Stmt>, places: seq<nat>, inv: (nat, nat, State, State) -> bool,
                          j: nat, i: nat, so: State, st: State)
    requires |places| == |prepares| && i < |prepares|
  {
    if places[i] == j then
      var r := ExecStmt(p, prepares[i], st);
      r.Normal? && inv(j, i + 1, so, r.state)
    else inv(j, i + 1, so, st)
  }

  /** `inv` survives every prepare. */
  ghost predicate AllKept(p: Python, prepares: seq<Stmt>, places: seq<nat>, inv: (nat, nat, State, State) -> bool)
    requires |places| == |prepares|
  {
    forall j: nat, i: nat, so, st {:trigger KeepsAt(p, prepares, places, inv, j, i, so, st)} ::
      j < |prepares| && i < |prepares| && inv(j, i, so, st) ==> KeepsAt(p, prepares, places, inv, j, i, so, st)
  }

  lemma {:induction false} RunBefore(p: Python, prepares: seq<Stmt>, places: seq<nat>, inv: (nat, nat, State, State) -> bool,
                                     j: nat, i: nat, so: State, st: State)
    requires |places| == |prepares| && i <= |prepares| && j < |prepares|
    requires inv(j, i, so, st)
    requires AllKept(p, prepares, places, inv)
    ensures var r := ExecBlock(p, Before(prepares, places, j, i), st);
      r.Normal? && inv(j, |prepares|, so, r.state)
    decreases |prepares| - i
  {
    if i < |prepares| {
      assert KeepsAt(p, prepares, places, inv, j, i, so, st);
      BeforeFirst(p, prepares, places, j, i, st);
      RunBefore(p, prepares, places, inv, j, i + 1, so,
        if places[i] == j then ExecStmt(p, prepares[i], st).state else st);
    }
  }

  lemma BeforeFirst(p: Python, prepares: seq<Stmt>, places: seq<nat>, j: nat, i: nat, st: State)
    requires |places| == |prepares| && i < |prepares|
    requires places[i] == j ==> ExecStmt(p, prepares[i], st).Normal?
    ensures ExecBlock(p, Before(prepares, places, j, i), st) == ExecBlock(p, Before(prepares, places, j, i + 1),
      if places[i] == j then ExecStmt(p, prepares[i], st).state else st)
  {
    var rest := Before(prepares, places, j, i + 1);
    if places[i] == j {
      assert Before(prepares, places, j, i) == [prepares[i]] + rest;
      ExecCons(p, prepares[i], rest, st);
    } else {
      assert Before(prepares, places, j, i) == rest;
    }
  }

  lemma ExecCons(p: Python, s: Stmt, rest: seq<Stmt>, st: State)
    ensures var r := ExecStmt(p, s, st);
      ExecBlock(p, [s] + rest, st) == if r.Normal? then ExecBlock(p, rest, r.state) else r
  {
    assert ([s] + rest)[0] == s && ([s] + rest)[1..] == rest;
  }

  /**
   What `inv` must give for a whole rewritten group to do what the group does; or, if `short`,
   to do that unless it exhausts the budget.
   */
  ghost predicate StepsAt(p: Python, g: seq<Stmt>, prepares: seq<Stmt>, places: seq<nat>, resolves: seq<Stmt>,
                          inv: (nat, nat, State, State) -> bool, done: (Outcome, Outcome) -> bool, short: bool,
                          j: nat, so: State, st: State)
    requires |places| == |prepares| == |resolves| == |g| && j < |g|
  {
    var o, t := ExecStmt(p, g[j], so), ExecStmt(p, resolves[j], st);
    if short && t.state.run.calls >= MAX_TOOL_CALLS then true
    else if o.Normal? then t.Normal? && inv(j + 1, 0, o.state, t.state) else done(o, t) && t.Raised?
  }

  lemma {:induction false} RunEmitted(p: Python, g: seq<Stmt>, prepares: seq<Stmt>, places: seq<nat>, resolves: seq<Stmt>,
                     inv: (nat, nat, State, State) -> bool, done: (Outcome, Outcome) -> bool, short: bool, j: nat, so: State, st: State)
    requires |places| == |prepares| == |resolves| == |g| && j <= |g|
    requires inv(j, 0, so, st)
    requires AllKept(p, prepares, places, inv)
    requires forall l: nat, s, s' {:trigger StepsAt(p, g, prepares, places, resolves, inv, done, short, l, s, s')} ::
      l < |g| && inv(l, |g|, s, s') ==> StepsAt(p, g, prepares, places, resolves, inv, done, short, l, s, s')
    requires forall s, s' :: inv(|g|, 0, s, s') ==> done(Normal(s), Normal(s'))
    ensures var t := ExecBlock(p, Emit(prepares, places, resolves, j), st);
      done(ExecBlock(p, g[j..], so), t) || (short && t.state.run.calls >= MAX_TOOL_CALLS)
    decreases |g| - j
  {
    if j < |g| {
      RunBefore(p, prepares, places, inv, j, 0, so, st);
      var before := Before(prepares, places, j, 0);
      var st1 := ExecBlock(p, before, st).state;
      assert StepsAt(p, g, prepares, places, resolves, inv, done, short, j, so, st1);
      var o, t := ExecStmt(p, g[j], so), ExecStmt(p, resolves[j], st1);
      var tail := Emit(prepares, places, resolves, j + 1);
      assert g[j..][0] == g[j] && g[j..][1..] == g[j + 1..];
      assert ([resolves[j]] + tail)[1..] == tail;
      ExecAppend(p, before, [resolves[j]] + tail, st);
      if short && t.state.run.calls >= MAX_TOOL_CALLS {
        if t.Normal? { BlockUses(p, tail, t.state); }
      } else if o.Normal? {
        RunEmitted(p, g, prepares, places, resolves, inv, done, short, j + 1, o.state, t.state);
      }
    }
  }

  lemma PrepareKeepsGroupInv(p: Python, c: Context, h: Helpers, hidden: set<string>, g: seq<Stmt>, slots: seq<string>,
                             j: nat, i: nat, so: State, st: State, ledger: Ledger)
    requires GroupWithSlots(p, c, h, hidden, g, slots) && j <= i < |g| && PlaceOf(c, g, i) == j
    requires GroupInv(p.host, h, hidden, Plan(p, c, h, hidden, g, slots), j, i, so, st, ledger)
    ensures var r := ExecStmt(p, PrepareStmt(c, h, g[i], slots[i]), st);
      r.Normal? && GroupInv(p.host, h, hidden, Plan(p, c, h, hidden, g, slots), j, i + 1, so, r.state, ledger)
  {
    var plan := Plan(p, c, h, hidden, g, slots);
    PlanIsPlanned(p, c, h, hidden, g, slots);
    var st', id, request := PrepareExec(p, c, h, g[i], slots[i], plan[i].place, st);
    PrepareStep(p.host, h, hidden, plan, j, i, so, st, st', id, request, ledger);
  }

  lemma ResolveKeepsGroupInv(p: Python, c: Context, h: Helpers, hidden: set<string>, g: seq<Stmt>, slots: seq<string>,
                             j: nat, so: State, st: State, ledger: Ledger)
    requires GroupWithSlots(p, c, h, hidden, g, slots) && j < |g|
    requires h.prepare in hidden && h.resolve in hidden
    requires GroupInv(p.host, h, hidden, Plan(p, c, h, hidden, g, slots), j, |g|, so, st, ledger)
    requires Room(ledger.limit, ExecStmt(p, g[j], so).state.run, ExecStmt(p, ResolveStmt(c, h, g[j], slots[j]), st).state.run)
    ensures var o, t := ExecStmt(p, g[j], so), ExecStmt(p, ResolveStmt(c, h, g[j], slots[j]), st);
      && SameOutcome(p.host.manifest, h, hidden, o, t)
      && t.state.run.calls <= ledger.limit
      && (o.Normal? ==>
            GroupInv(p.host, h, hidden, Plan(p, c, h, hidden, g, slots), j + 1, 0, o.state, t.state, ledger))
  {
    var plan := Plan(p, c, h, hidden, g, slots);
    PlanIsPlanned(p, c, h, hidden, g, slots);
    OriginalExec(p, c, g[j], slots[j], plan[j].place, so);
    HandleReady(p.host, h, hidden, plan, j, so, st, ledger);
    ResolveExec(p, c, h, g[j], slots[j], plan[j].place, st);
    ResolveStep(p.host, h, hidden, plan, j, so, st, ledger);
  }

  /**
   Nothing of the group is left behind when it ends normally: no read in flight, no future, and
   no request that the group itself does not send.
   */
  ghost predicate GroupDone(m: Manifest, h: Helpers, hidden: set<string>, ledger: Ledger, o: Outcome, t: Outcome) {
    && SameOutcome(m, h, hidden, o, t)
    && t.state.run.calls <= ledger.limit
    && (o.Normal? ==>
          && multiset(t.state.run.dispatched) == ledger.extra + multiset(o.state.run.dispatched)
          && t.state.run.futures == ledger.base)
  }

  /** The original group, from position `j` on, stays within a bound that `ledger` does not give. */
  ghost predicate StaysSafe(p: Python, g: seq<Stmt>, ledger: Ledger, j: nat, so: State)
    requires j <= |g|
  {
    ledger.short || ledger.limit <= MAX_TOOL_CALLS || ExecBlock(p, g[j..], so).state.run.calls <= SAFE_CALLS
  }

  lemma SafeStep(p: Python, g: seq<Stmt>, ledger: Ledger, j: nat, so: State)
    requires j < |g| && StaysSafe(p, g, ledger, j, so)
    ensures var o := ExecStmt(p, g[j], so);
      && (ledger.short || ledger.limit <= MAX_TOOL_CALLS || o.state.run.calls <= SAFE_CALLS)
      && (o.Normal? ==> StaysSafe(p, g, ledger, j + 1, o.state))
  {
    assert g[j..][0] == g[j] && g[j..][1..] == g[j + 1..];
    var o := ExecStmt(p, g[j], so);
    if o.Normal? { BlockUses(p, g[j + 1..], o.state); }
  }

  /** `inv` is the invariant of the group, and `done` what it gives in the end. */
  ghost predicate Describes(p: Python, h: Helpers, hidden: set<string>, g: seq<Stmt>, plan: seq<Read>, ledger: Ledger,
                            inv: (nat, nat, State, State) -> bool, done: (Outcome, Outcome) -> bool) {
    && (forall j: nat, i: nat, s, s' :: inv(j, i, s, s') <==>
          (j <= |plan| && |plan| == |g| && StaysSafe(p, g, ledger, j, s)
           && GroupInv(p.host, h, hidden, plan, j, i, s, s', ledger)))
    && (forall o, t :: done(o, t) <==> GroupDone(p.host.manifest, h, hidden, ledger, o, t))
  }

  lemma GroupKeepsAt(p: Python, c: Context, h: Helpers, hidden: set<string>, g: seq<Stmt>, slots: seq<string>,
                     plan: seq<Read>, ledger: Ledger,
                     inv: (nat, nat, State, State) -> bool, done: (Outcome, Outcome) -> bool,
                     l: nat, i: nat, s: State, s': State)
    requires GroupWithSlots(p, c, h, hidden, g, slots) && plan == Plan(p, c, h, hidden, g, slots)
    requires Describes(p, h, hidden, g, plan, ledger, inv, done)
    requires l < |g| && i < |g| && inv(l, i, s, s')
    ensures KeepsAt(p, Prepares(c, h, g, slots), Places(c, g), inv, l, i, s, s')
  {
    if Places(c, g)[i] == l {
      PrepareKeepsGroupInv(p, c, h, hidden, g, slots, l, i, s, s', ledger);
    } else {
      SkipStep(p.host, h, hidden, plan, l, i, s, s', ledger);
    }
  }

  lemma GroupStepsAt(p: Python, c: Context, h: Helpers, hidden: set<string>, g: seq<Stmt>, slots: seq<string>,
                     plan: seq<Read>, ledger: Ledger,
                     inv: (nat, nat, State, State) -> bool, done: (Outcome, Outcome) -> bool,
                     l: nat, s: State, s': State)
    requires GroupWithSlots(p, c, h, hidden, g, slots) && plan == Plan(p, c, h, hidden, g, slots)
    requires Describes(p, h, hidden, g, plan, ledger, inv, done)
    requires h.prepare in hidden && h.resolve in hidden
    requires l < |g| && inv(l, |g|, s, s')
    ensures StepsAt(p, g, Prepares(c, h, g, slots), Places(c, g), Resolves(c, h, g, slots), inv, done, ledger.short, l, s, s')
  {
    SafeStep(p, g, ledger, l, s);
    var t := ExecStmt(p, ResolveStmt(c, h, g[l], slots[l]), s');
    if ledger.short && t.state.run.calls >= MAX_TOOL_CALLS { return; }
    ResolveKeepsGroupInv(p, c, h, hidden, g, slots, l, s, s', ledger);
  }

  lemma GroupEnds(p: Python, h: Helpers, hidden: set<string>, plan: seq<Read>, ledger: Ledger, s: State, s': State)
    requires GroupInv(p.host, h, hidden, plan, |plan|, 0, s, s', ledger)
    ensures GroupDone(p.host.manifest, h, hidden, ledger, Normal(s), Normal(s'))
  {
    assert Total(Flights(plan, |plan|, 0, s')[|plan|..]) == multiset{};
    assert Unheld(plan, |plan|, 0, s') == s'.run.futures;
  }

  lemma GroupRuns(p: Python, c: Context, h: Helpers, hidden: set<string>, g: seq<Stmt>, slots: seq<string>,
                  plan: seq<Read>, so: State, st: State, ledger: Ledger,
                  inv: (nat, nat, State, State) -> bool, done: (Outcome, Outcome) -> bool)
    requires GroupWithSlots(p, c, h, hidden, g, slots) && plan == Plan(p, c, h, hidden, g, slots)
    requires Describes(p, h, hidden, g, plan, ledger, inv, done)
    requires h.prepare in hidden && h.resolve in hidden
    requires inv(0, 0, so, st)
    ensures var t := ExecBlock(p, RewriteGroup(c, h, g, slots), st);
      done(ExecBlock(p, g, so), t) || (ledger.short && t.state.run.calls >= MAX_TOOL_CALLS)
  {
    var prepares, places, resolves := Prepares(c, h, g, slots), Places(c, g), Resolves(c, h, g, slots);
    forall l: nat, i: nat, s, s' | l < |g| && i < |g| && inv(l, i, s, s')
      ensures KeepsAt(p, prepares, places, inv, l, i, s, s')
    {
      GroupKeepsAt(p, c, h, hidden, g, slots, plan, ledger, inv, done, l, i, s, s');
    }
    forall l: nat, s, s' | 0 <= l < |g| && inv(l, |g|, s, s')
      ensures StepsAt(p, g, prepares, places, resolves, inv, done, ledger.short, l, s, s')
    {
      GroupStepsAt(p, c, h, hidden, g, slots, plan, ledger, inv, done, l, s, s');
    }
    forall s, s' | inv(|g|, 0, s, s') ensures done(Normal(s), Normal(s')) {
      GroupEnds(p, h, hidden, plan, ledger, s, s');
    }
    RunEmitted(p, g, prepares, places, resolves, inv, done, ledger.short, 0, so, st);
    assert g[0..] == g;
  }

  ghost function LedgerFor(n: nat, so: Run, st: Run, short: bool): Ledger {
    Ledger(st.calls + n, multiset(st.dispatched) - multiset(so.dispatched), st.futures, short)
  }

  lemma GroupStarts(host: Host, h: Helpers, hidden: set<string>, plan: seq<Read>, so: State, st: State, short: bool)
    requires Related(host.manifest, h, hidden, so, st)
    ensures GroupInv(host, h, hidden, plan, 0, 0, so, st, LedgerFor(|plan|, so.run, st.run, short))
  {
    forall k | 0 <= k < |plan| ensures Flights(plan, 0, 0, st)[k] == multiset{} {
      assert !Ready(plan, 0, 0, k);
    }
    NothingInFlight(Flights(plan, 0, 0, st));
    assert Flights(plan, 0, 0, st)[0..] == Flights(plan, 0, 0, st);
    assert Unheld(plan, 0, 0, st) == st.run.futures;
  }

  /**
   A group of early reads. The rewritten group ends the way the group ends, with the same
   exception if any, leaves the variables and the world of the Host as the group leaves them,
   and uses at most one call of the budget for each of its calls. If the group does not raise,
   both send the same requests to the Host, each exactly once, and no future is left behind.
   */
  lemma GroupPreserved(p: Python, c: Context, h: Helpers, hidden: set<string>, g: seq<Stmt>, slots: seq<string>, so: State, st: State)
    requires GroupWithSlots(p, c, h, hidden, g, slots)
    requires h.prepare in hidden && h.resolve in hidden
    requires Related(p.host.manifest, h, hidden, so, st)
    requires Room(st.run.calls + |g|, ExecBlock(p, g, so).state.run, ExecBlock(p, RewriteGroup(c, h, g, slots), st).state.run)
    ensures GroupDone(p.host.manifest, h, hidden, LedgerFor(|g|, so.run, st.run, false),
              ExecBlock(p, g, so), ExecBlock(p, RewriteGroup(c, h, g, slots), st))
  {
    var plan := Plan(p, c, h, hidden, g, slots);
    var short := ExecBlock(p, RewriteGroup(c, h, g, slots), st).state.run.calls < MAX_TOOL_CALLS;
    var ledger := LedgerFor(|g|, so.run, st.run, short);
    GroupStarts(p.host, h, hidden, plan, so, st, short);
    assert g[0..] == g;
    GroupRuns(p, c, h, hidden, g, slots, plan, so, st, ledger,
      (j: nat, i: nat, s: State, s': State) =>
        j <= |plan| && |plan| == |g| && StaysSafe(p, g, ledger, j, s)
        && GroupInv(p.host, h, hidden, plan, j, i, s, s', ledger),
      (o: Outcome, t: Outcome) => GroupDone(p.host.manifest, h, hidden, ledger, o, t));
  }

  lemma {:induction false} NothingInFlight(flights: seq<multiset<Request>>)
    requires forall k :: 0 <= k < |flights| ==> flights[k] == multiset{}
    ensures Total(flights) == multiset{}
  {
    if flights != [] { NothingInFlight(flights[1..]); }
  }
}
