/**
 Programs for which the bound on the calls of a path is exact. Each attempt reads twice and
 fails on the first read, so the second read is started for nothing; the writes that follow
 find the budget used up if there are too many of them.
 */
module EarlyReadBudget {
  import opened Options
  import opened PythonAst
  import opened RunFutures
  import opened EarlyReadPass
  import opened GuestSemantics
  import opened CallBudget
  import opened GroupProtocol
  import opened GroupExecution
  import opened EarlyReadCorrect
  import opened EarlyReadTheorem

  /** A read that fails, a read that is never collected, and a write. */
  datatype Family = Family(p: Python, fails: Stmt, extra: Stmt, writes: Stmt)

  /** `target = tool()` */
  ghost predicate PlainCall(m: Manifest, s: Stmt, early: bool) {
    && s.Assign? && |s.targets| == 1 && s.targets[0].Name? && s.value.Call?
    && s.value.args == [] && s.value.keywords == []
    && FunctionPath(s.value.func).Some?
    && ToolAt(m, FunctionPath(s.value.func).value).Some?
    && IsKnown(m, CalledTool(m, s))
    && IsEarly(m, CalledTool(m, s)) == early
    && !IsToolRoot(m, s.targets[0].id) && s.targets[0].id != "inputs"
  }

  ghost function CalledTool(m: Manifest, s: Stmt): string
    requires s.Assign? && s.value.Call? && FunctionPath(s.value.func).Some?
    requires ToolAt(m, FunctionPath(s.value.func).value).Some?
  {
    ToolAt(m, FunctionPath(s.value.func).value).value
  }

  /** The arguments, of which there are none, are encoded and fit into a request. */
  ghost predicate Sends(p: Python, s: Stmt)
    requires PlainCall(p.host.manifest, s, true) || PlainCall(p.host.manifest, s, false)
  {
    p.encode(CalledTool(p.host.manifest, s), Mapping([], [])).Encoded?
  }

  ghost predicate Answers(p: Python, s: Stmt, success: bool)
    requires PlainCall(p.host.manifest, s, true) || PlainCall(p.host.manifest, s, false)
    requires Sends(p, s)
  {
    forall world :: p.host.respond(world, RequestOf(p, s)).Success? == success
  }

  ghost function RequestOf(p: Python, s: Stmt): Request
    requires PlainCall(p.host.manifest, s, true) || PlainCall(p.host.manifest, s, false)
    requires Sends(p, s)
  {
    var tool := CalledTool(p.host.manifest, s);
    Request(tool, p.encode(tool, Mapping([], [])).args)
  }

  ghost predicate ValidFamily(x: Family) {
    && PlainCall(x.p.host.manifest, x.fails, true)
    && PlainCall(x.p.host.manifest, x.extra, true)
    && PlainCall(x.p.host.manifest, x.writes, false)
    && Sends(x.p, x.fails) && Sends(x.p, x.extra) && Sends(x.p, x.writes)
    && Answers(x.p, x.fails, false) && Answers(x.p, x.writes, true)
  }

  /** `try: a = fails(); b = extra()` / `except: pass` */
  function Attempt(x: Family): Stmt {
    Try([x.fails, x.extra], [Handler(None, None, [Pass])], [], [])
  }

  function Copies(s: Stmt, n: nat): (r: seq<Stmt>)
    ensures |r| == n
  {
    if n == 0 then [] else [s] + Copies(s, n - 1)
  }

  function Program(x: Family, n: nat, m: nat): seq<Stmt> {
    Copies(Attempt(x), n) + Copies(x.writes, m)
  }

  // ------------------------------------------------------------ what the pass makes of it

  lemma PlainCallsOk(x: Family, c: Context)
    requires ValidFamily(x) && c.manifest == x.p.host.manifest
    ensures EarlyStmt(x.p, c, x.fails) && EarlyStmt(x.p, c, x.extra)
    ensures StmtOk(c, x.fails) && StmtFree(c, x.fails)
    ensures StmtOk(c, x.extra) && StmtFree(c, x.extra)
    ensures ToolCall(c, x.writes.value) && !EarlyAssign(c, x.writes)
    ensures StmtOk(c, x.writes) && StmtFree(c, x.writes)
  {
  }

  lemma TwoOk(c: Context, a: Stmt, b: Stmt)
    requires StmtOk(c, a) && StmtOk(c, b) && StmtFree(c, a) && StmtFree(c, b)
    ensures BlockOk(c, [a, b]) && BlockFree(c, [a, b])
    ensures BlockCalls([a, b]) == StmtCalls(a) + StmtCalls(b)
  {
    assert [a, b][1..] == [b] && [b][1..] == [];
    var one := [b];
    assert one[0] == b && one[1..] == [];
    assert BlockCalls(one) == StmtCalls(one[0]) + BlockCalls(one[1..]);
    assert BlockOk(c, [b]) && BlockFree(c, [b]) && BlockCalls([b]) == StmtCalls(b);
  }

  lemma IgnoreOk(c: Context, h: Helpers, names: set<string>)
    ensures var hs := [Handler(None, None, [Pass])];
      HandlersOk(c, hs) && HandlersFree(c, hs) && HandlerCalls(hs) == 0
      && RewriteHandlers(c, h, hs, names) == Rewritten(hs, names, false)
  {
    var pass, hs := [Pass], [Handler(None, None, [Pass])];
    assert pass[1..] == [];
    assert BlockOk(c, pass) && BlockFree(c, pass) && BlockCalls(pass) == 0;
    assert pass[0] == Pass && RewriteStmt(c, h, Pass, names) == Rewritten(Pass, names, false);
    assert Rewrite(c, h, pass[1..], names) == Rewritten([], names, false);
    assert [Pass] + [] == pass;
    assert Rewrite(c, h, pass, names) == Rewritten(pass, names, false);
    assert hs[1..] == [];
    assert RewriteHandlers(c, h, hs[1..], names) == Rewritten([], names, false);
    assert [hs[0].(body := pass)] + [] == hs;
  }

  lemma AttemptOk(x: Family, c: Context)
    requires ValidFamily(x) && c.manifest == x.p.host.manifest
    ensures StmtOk(c, Attempt(x)) && StmtFree(c, Attempt(x)) && StmtCalls(Attempt(x)) == 2
  {
    PlainCallsOk(x, c);
    TwoOk(c, x.fails, x.extra);
    IgnoreOk(c, HelpersFor([]), {});
  }

  lemma {:induction false} CopiesOk(c: Context, s: Stmt, n: nat, k: nat)
    requires StmtOk(c, s) && StmtFree(c, s) && StmtCalls(s) == k
    ensures BlockOk(c, Copies(s, n)) && BlockFree(c, Copies(s, n))
    ensures BlockCalls(Copies(s, n)) == n * k
  {
    if n > 0 {
      CopiesOk(c, s, n - 1, k);
      ConsOk(c, s, Copies(s, n - 1));
      assert n * k == (n - 1) * k + k;
    }
  }

  lemma ConsOk(c: Context, s: Stmt, rest: seq<Stmt>)
    requires StmtOk(c, s) && StmtFree(c, s) && BlockOk(c, rest) && BlockFree(c, rest)
    ensures BlockOk(c, [s] + rest) && BlockFree(c, [s] + rest)
    ensures BlockCalls([s] + rest) == StmtCalls(s) + BlockCalls(rest)
  {
    var all := [s] + rest;
    assert all[0] == s && all[1..] == rest;
  }

  lemma {:induction false} JoinedOk(c: Context, a: seq<Stmt>, b: seq<Stmt>)
    requires BlockOk(c, a) && BlockFree(c, a) && BlockOk(c, b) && BlockFree(c, b)
    ensures BlockOk(c, a + b) && BlockFree(c, a + b)
    ensures BlockCalls(a + b) == BlockCalls(a) + BlockCalls(b)
  {
    if a == [] {
      assert a + b == b;
    } else {
      JoinedOk(c, a[1..], b);
      assert (a + b)[0] == a[0] && (a + b)[1..] == a[1..] + b;
    }
  }

  lemma ProgramOk(x: Family, c: Context, n: nat, m: nat)
    requires ValidFamily(x) && c.manifest == x.p.host.manifest
    ensures BlockOk(c, Program(x, n, m)) && BlockFree(c, Program(x, n, m))
    ensures BlockCalls(Program(x, n, m)) == 2 * n + m
  {
    AttemptOk(x, c);
    PlainCallsOk(x, c);
    CopiesOk(c, Attempt(x), n, 2);
    CopiesOk(c, x.writes, m, 1);
    JoinedOk(c, Copies(Attempt(x), n), Copies(x.writes, m));
  }

  /** Both prepares of an attempt come before both resolves. */
  lemma PairRewritten(c: Context, h: Helpers, a: Stmt, b: Stmt, slots: seq<string>)
    requires EarlyAssign(c, a) && EarlyAssign(c, b) && Group(c, [a, b]) && |slots| == 2
    requires Loaded(a) == {} && Loaded(b) == {}
    ensures RewriteGroup(c, h, [a, b], slots) ==
      [PrepareStmt(c, h, a, slots[0]), PrepareStmt(c, h, b, slots[1]), ResolveStmt(c, h, a, slots[0]), ResolveStmt(c, h, b, slots[1])]
  {
    var g := [a, b];
    var ps, pl, rs := Prepares(c, h, g, slots), Places(c, g), Resolves(c, h, g, slots);
    assert pl[0] == 0 && pl[1] == 0;
    PairEmitted(ps, pl, rs);
  }

  lemma PairEmitted(ps: seq<Stmt>, pl: seq<nat>, rs: seq<Stmt>)
    requires |ps| == |pl| == |rs| == 2 && pl[0] == 0 && pl[1] == 0
    ensures Emit(ps, pl, rs, 0) == [ps[0], ps[1], rs[0], rs[1]]
  {
    assert Before(ps, pl, 0, 2) == [] && Before(ps, pl, 1, 2) == [];
    assert Before(ps, pl, 0, 1) == [ps[1]] && Before(ps, pl, 1, 1) == [];
    assert Before(ps, pl, 0, 0) == [ps[0], ps[1]] && Before(ps, pl, 1, 0) == [];
    assert Emit(ps, pl, rs, 2) == [];
    assert Emit(ps, pl, rs, 1) == [rs[1]];
  }

  lemma BodyRewritten(c: Context, h: Helpers, a: Stmt, b: Stmt, names: set<string>) returns (slots: seq<string>)
    requires BlockOk(c, [a, b]) && EarlyAssign(c, a) && EarlyAssign(c, b)
    requires Loaded(a) == {} && Loaded(b) == {}
    ensures |slots| == 2 && slots[0] !in names && slots[1] !in names && slots[0] != slots[1]
    ensures Rewrite(c, h, [a, b], names) == Rewritten(
      [PrepareStmt(c, h, a, slots[0]), PrepareStmt(c, h, b, slots[1]), ResolveStmt(c, h, a, slots[0]), ResolveStmt(c, h, b, slots[1])],
      names + SlotSet(slots), true)
  {
    slots := Slots(2, names);
    SlotsAreFresh(2, names);
    var g := [a, b];
    assert g[1..] == [b] && [b][1..] == [];
    assert GroupLength(c, []) == 0 && GroupLength(c, [b]) == 1 && GroupLength(c, g) == 2;
    assert g[..2] == g && g[2..] == [];
    OkPrefixIsGroup(c, g, 2);
    PairRewritten(c, h, a, b, slots);
    var code := RewriteGroup(c, h, g, slots);
    assert code + [] == code;
  }

  ghost predicate AttemptBody(x: Family, c: Context, h: Helpers, slots: seq<string>, body: seq<Stmt>) {
    && EarlyAssign(c, x.fails) && EarlyAssign(c, x.extra) && |slots| == 2
    && body == [PrepareStmt(c, h, x.fails, slots[0]), PrepareStmt(c, h, x.extra, slots[1]),
                ResolveStmt(c, h, x.fails, slots[0])] + [ResolveStmt(c, h, x.extra, slots[1])]
  }

  lemma AttemptRewritten(x: Family, c: Context, h: Helpers, names: set<string>) returns (slots: seq<string>, body: seq<Stmt>)
    requires ValidFamily(x) && c.manifest == x.p.host.manifest
    ensures |slots| == 2 && slots[0] !in names && slots[1] !in names && slots[0] != slots[1]
    ensures AttemptBody(x, c, h, slots, body)
    ensures StmtOk(c, Attempt(x))
    ensures RewriteStmt(c, h, Attempt(x), names) ==
      Rewritten(Try(body, [Handler(None, None, [Pass])], [], []), names + SlotSet(slots), true)
  {
    PlainCallsOk(x, c);
    AttemptOk(x, c);
    TwoOk(c, x.fails, x.extra);
    slots := BodyRewritten(c, h, x.fails, x.extra, names);
    body := Rewrite(c, h, [x.fails, x.extra], names).code;
    IgnoreOk(c, h, names + SlotSet(slots));
  }

  // ------------------------------------------------------------------- running it

  ghost predicate CanWrite(x: Family, env: Env)
    requires ValidFamily(x)
  {
    EvalFunc(x.p, x.writes.value.func, env) == Ok(Exported(FunctionPath(x.writes.value.func).value))
  }

  lemma PlainAsk(x: Family, s: Stmt, env: Env)
    requires ValidFamily(x) && (PlainCall(x.p.host.manifest, s, true) || PlainCall(x.p.host.manifest, s, false))
    requires Sends(x.p, s)
    ensures Ask(x.p, CalledTool(x.p.host.manifest, s), s.value.keywords, env) == Asks(RequestOf(x.p, s))
  {
    assert EvalValues(x.p, [], env) == Ok([]);
    assert ArgNames([]) == [];
  }

  /** A write succeeds as long as the budget lasts, and raises from then on. */
  lemma WriteRuns(x: Family, st: State)
    requires ValidFamily(x) && CanWrite(x, st.env) && st.run.calls <= MAX_TOOL_CALLS
    ensures var r := ExecStmt(x.p, x.writes, st);
      if st.run.calls == MAX_TOOL_CALLS then r.Raised?
      else r.Normal? && r.state.run.calls == st.run.calls + 1 && CanWrite(x, r.state.env)
  {
    var kws := x.writes.value.keywords;
    assert !HasKeyword(kws, "self");
    PlainAsk(x, x.writes, st.env);
    var r := ExecStmt(x.p, x.writes, st);
    if r.Normal? { StillWrites(x, x.writes.targets[0].id, st.env, r.state.env); }
  }

  lemma {:induction false} RootOfPath(e: Expr)
    requires FunctionPath(e).Some?
    ensures FunctionPath(e).value != [] && Names(e) == {FunctionPath(e).value[0]}
  {
    match e
    case Name(_) =>
    case Attribute(owner, _) => RootOfPath(owner);
    case _ =>
  }

  /** Assigning a name that is no tool root leaves the tools where they were. */
  lemma StillWrites(x: Family, id: string, env: Env, env': Env)
    requires ValidFamily(x) && CanWrite(x, env)
    requires forall n :: n != id ==> SameAt(env, env', n)
    requires !IsToolRoot(x.p.host.manifest, id) || id !in Names(x.writes.value.func)
    ensures CanWrite(x, env')
  {
    var func, m := x.writes.value.func, x.p.host.manifest;
    RootOfPath(func);
    var path := FunctionPath(func).value;
    var i :| 0 <= i < |m| && m[i].path == path;
    assert IsToolRoot(m, path[0]);
    EvalFuncSame(x, func, env, env', id);
  }

  lemma EvalFuncSame(x: Family, func: Expr, env: Env, env': Env, id: string)
    requires forall n :: n != id ==> SameAt(env, env', n)
    requires id !in Names(func)
    ensures EvalFunc(x.p, func, env) == EvalFunc(x.p, func, env')
  {
    EvalFrame.EvalFuncSame(x.p, func, env, env');
  }

  lemma {:induction false} WritesRun(x: Family, m: nat, st: State)
    requires ValidFamily(x) && CanWrite(x, st.env) && st.run.calls <= MAX_TOOL_CALLS
    ensures ExecBlock(x.p, Copies(x.writes, m), st).Normal? <==> st.run.calls + m <= MAX_TOOL_CALLS
  {
    if m > 0 {
      WriteRuns(x, st);
      assert Copies(x.writes, m)[1..] == Copies(x.writes, m - 1);
      var r := ExecStmt(x.p, x.writes, st);
      if r.Normal? { WritesRun(x, m - 1, r.state); }
    }
  }

  lemma IgnoreRuns(p: Python, exc: Exc, st: State)
    ensures ExecHandlers(p, [Handler(None, None, [Pass])], exc, st) == Normal(st)
  {
    assert [Pass][1..] == [];
    assert ExecBlock(p, [], st) == Normal(st);
    assert ExecBlock(p, [Pass], st) == Normal(st);
  }

  lemma TryRuns(p: Python, body: seq<Stmt>, st: State)
    requires ExecBlock(p, body, st).Raised?
    ensures ExecStmt(p, Try(body, [Handler(None, None, [Pass])], [], []), st) == Normal(ExecBlock(p, body, st).state)
  {
    var r := ExecBlock(p, body, st);
    IgnoreRuns(p, r.exc, r.state);
    assert ExecBlock(p, [], r.state) == Normal(r.state);
  }

  /** An attempt of the original program uses one call: its first read fails. */
  lemma AttemptRuns(x: Family, c: Context, st: State)
    requires ValidFamily(x) && c.manifest == x.p.host.manifest
    requires RootsBound(x.p.host.manifest, st.env) && st.run.calls < MAX_TOOL_CALLS
    ensures var r := ExecStmt(x.p, Attempt(x), st);
      r.Normal? && r.state.env == st.env && r.state.run.calls == st.run.calls + 1
  {
    PlainCallsOk(x, c);
    PlainAsk(x, x.fails, st.env);
    OriginalExec(x.p, c, x.fails, "", 0, st);
    var body := [x.fails, x.extra];
    assert body[0] == x.fails;
    TryRuns(x.p, body, st);
  }

  lemma ProgramStarts(x: Family, n: nat, m: nat)
    requires n > 0
    ensures Program(x, n, m) != [] && Program(x, n, m)[0] == Attempt(x)
    ensures Program(x, n, m)[1..] == Program(x, n - 1, m)
  {
  }

  lemma {:induction false} OriginalRuns(x: Family, c: Context, n: nat, m: nat, st: State)
    requires ValidFamily(x) && c.manifest == x.p.host.manifest
    requires RootsBound(x.p.host.manifest, st.env)
    requires st.run.calls + n + m <= MAX_TOOL_CALLS
    ensures ExecBlock(x.p, Program(x, n, m), st).Normal?
  {
    if n == 0 {
      PlainCallsOk(x, c);
      ToolValue(x.p, c, x.writes.value, st.env);
      WritesRun(x, m, st);
      assert Program(x, 0, m) == Copies(x.writes, m);
    } else {
      AttemptRuns(x, c, st);
      ProgramStarts(x, n, m);
      OriginalRuns(x, c, n - 1, m, ExecStmt(x.p, Attempt(x), st).state);
    }
  }

  // -------------------------------------------------------- running what the pass made

  /** The transformed run between two attempts, each of which left a read behind. */
  ghost predicate Wasted(x: Family, h: Helpers, st: State)
    requires ValidFamily(x)
  {
    HelpersBound(h, st.env) && WellFormed(st.run) && st.run.enabled && CanWrite(x, st.env)
  }

  ghost predicate SlotClear(x: Family, h: Helpers, slot: string)
    requires ValidFamily(x)
  {
    slot !in Names(x.writes.value.func) && slot != h.prepare && slot != h.resolve
  }

  lemma SlotIsHarmless(x: Family, h: Helpers, slot: string, v: Value, env: Env)
    requires ValidFamily(x) && CanWrite(x, env) && HelpersBound(h, env)
    requires slot !in Names(x.writes.value.func) && slot != h.prepare && slot != h.resolve
    ensures CanWrite(x, env[slot := v]) && HelpersBound(h, env[slot := v])
  {
    StillWrites(x, slot, env, env[slot := v]);
  }

  /** A prepare with room in the table and in the budget starts a read. */
  lemma PrepareRuns(x: Family, c: Context, h: Helpers, s: Stmt, slot: string, st: State) returns (st': State, id: nat)
    requires ValidFamily(x) && c.manifest == x.p.host.manifest && (s == x.fails || s == x.extra)
    requires EarlyStmt(x.p, c, s)
    requires Wasted(x, h, st) && st.run.calls < MAX_TOOL_CALLS && |st.run.futures| < MAX_PENDING
    requires SlotClear(x, h, slot)
    ensures ExecStmt(x.p, PrepareStmt(c, h, s, slot), st) == Normal(st')
    ensures Wasted(x, h, st') && st'.run.calls == st.run.calls + 1 && |st'.run.futures| == |st.run.futures| + 1
    ensures id != 0 && id !in st.run.futures && st'.env == st.env[slot := Int(id)]
    ensures st'.run.futures == st.run.futures[id := Future(RequestOf(x.p, s), st.run.effects)]
  {
    PlainCallsOk(x, c);
    PlainAsk(x, s, st.env);
    var request;
    st', id, request := PrepareExec(x.p, c, h, s, slot, 0, st);
    SlotIsHarmless(x, h, slot, Int(id), st.env);
    assert id !in st.run.futures;
  }

  /** Collecting the failed read raises and leaves the other one where it is. */
  lemma FailedResolveRuns(x: Family, c: Context, h: Helpers, slot: string, id: nat, st: State)
    requires ValidFamily(x) && c.manifest == x.p.host.manifest && EarlyStmt(x.p, c, x.fails)
    requires Wasted(x, h, st) && id != 0 && slot in st.env && st.env[slot] == Int(id)
    requires id in st.run.futures && st.run.futures[id].request == RequestOf(x.p, x.fails)
    ensures var r := ExecStmt(x.p, ResolveStmt(c, h, x.fails, slot), st);
      && r.Raised? && Wasted(x, h, r.state)
      && r.state.run.calls == st.run.calls && |r.state.run.futures| == |st.run.futures| - 1
  {
    PlainAsk(x, x.fails, st.env);
    ResolveExec(x.p, c, h, x.fails, slot, 0, st);
    WithoutOne(st.run.futures, id);
  }

  lemma FirstRaises(p: Python, a: Stmt, b: Stmt, r: Stmt, rest: seq<Stmt>, st: State, st1: State, st2: State)
    requires ExecStmt(p, a, st) == Normal(st1) && ExecStmt(p, b, st1) == Normal(st2)
    requires ExecStmt(p, r, st2).Raised?
    ensures ExecBlock(p, [a, b, r] + rest, st) == ExecStmt(p, r, st2)
  {
    var block := [a, b, r] + rest;
    assert block[0] == a && block[1..] == [b, r] + rest;
    assert ([b, r] + rest)[1..] == [r] + rest;
    assert ExecBlock(p, [r] + rest, st2) == ExecStmt(p, r, st2);
    assert ExecBlock(p, [b, r] + rest, st1) == ExecStmt(p, r, st2);
  }

  lemma TransformedBody(x: Family, c: Context, h: Helpers, slots: seq<string>, body: seq<Stmt>, st: State)
    requires ValidFamily(x) && c.manifest == x.p.host.manifest
    requires AttemptBody(x, c, h, slots, body) && slots[0] != slots[1]
    requires SlotClear(x, h, slots[0]) && SlotClear(x, h, slots[1])
    requires Wasted(x, h, st) && st.run.calls + 2 <= MAX_TOOL_CALLS && |st.run.futures| + 2 <= MAX_PENDING
    ensures var r := ExecBlock(x.p, body, st);
      && r.Raised? && Wasted(x, h, r.state)
      && r.state.run.calls == st.run.calls + 2 && |r.state.run.futures| == |st.run.futures| + 1
  {
    PlainCallsOk(x, c);
    var st1, id := PrepareRuns(x, c, h, x.fails, slots[0], st);
    var st2, other := PrepareRuns(x, c, h, x.extra, slots[1], st1);
    FailedResolveRuns(x, c, h, slots[0], id, st2);
    FirstRaises(x.p, PrepareStmt(c, h, x.fails, slots[0]), PrepareStmt(c, h, x.extra, slots[1]),
      ResolveStmt(c, h, x.fails, slots[0]), [ResolveStmt(c, h, x.extra, slots[1])], st, st1, st2);
  }

  lemma RewrittenBody(x: Family, c: Context, h: Helpers, names: set<string>, st: State) returns (body: seq<Stmt>)
    requires ValidFamily(x) && c.manifest == x.p.host.manifest
    requires h.prepare in names && h.resolve in names && Names(x.writes.value.func) <= names
    requires Wasted(x, h, st) && st.run.calls + 2 <= MAX_TOOL_CALLS && |st.run.futures| + 2 <= MAX_PENDING
    requires StmtOk(c, Attempt(x))
    ensures RewriteStmt(c, h, Attempt(x), names).code == Try(body, [Handler(None, None, [Pass])], [], [])
    ensures var r := ExecBlock(x.p, body, st);
      && r.Raised? && Wasted(x, h, r.state)
      && r.state.run.calls == st.run.calls + 2 && |r.state.run.futures| == |st.run.futures| + 1
  {
    var slots;
    slots, body := AttemptRewritten(x, c, h, names);
    assert SlotClear(x, h, slots[0]) && SlotClear(x, h, slots[1]);
    TransformedBody(x, c, h, slots, body, st);
  }

  /** An attempt of the transformed program uses two calls and leaves one read behind. */
  lemma TransformedAttempt(x: Family, c: Context, h: Helpers, names: set<string>, st: State)
    requires ValidFamily(x) && c.manifest == x.p.host.manifest
    requires h.prepare in names && h.resolve in names && Names(x.writes.value.func) <= names
    requires Wasted(x, h, st) && st.run.calls + 2 <= MAX_TOOL_CALLS && |st.run.futures| + 2 <= MAX_PENDING
    requires StmtOk(c, Attempt(x))
    ensures var r := ExecStmt(x.p, RewriteStmt(c, h, Attempt(x), names).code, st);
      && r.Normal? && Wasted(x, h, r.state)
      && r.state.run.calls == st.run.calls + 2 && |r.state.run.futures| == |st.run.futures| + 1
  {
    var body := RewrittenBody(x, c, h, names, st);
    TryRuns(x.p, body, st);
  }

  lemma {:induction false} WritesUnchanged(x: Family, c: Context, h: Helpers, m: nat, names: set<string>)
    requires ValidFamily(x) && c.manifest == x.p.host.manifest
    requires BlockOk(c, Copies(x.writes, m))
    ensures Rewrite(c, h, Copies(x.writes, m), names).code == Copies(x.writes, m)
  {
    if m > 0 {
      PlainCallsOk(x, c);
      var copies := Copies(x.writes, m);
      assert copies[0] == x.writes && copies[1..] == Copies(x.writes, m - 1);
      WritesUnchanged(x, c, h, m - 1, names);
    }
  }

  lemma {:induction false} TransformedRuns(x: Family, c: Context, h: Helpers, n: nat, m: nat, names: set<string>, st: State)
    requires ValidFamily(x) && c.manifest == x.p.host.manifest
    requires h.prepare in names && h.resolve in names && Names(x.writes.value.func) <= names
    requires Wasted(x, h, st)
    requires st.run.calls + 2 * n <= MAX_TOOL_CALLS && |st.run.futures| + n < MAX_PENDING
    requires BlockOk(c, Program(x, n, m))
    ensures ExecBlock(x.p, Rewrite(c, h, Program(x, n, m), names).code, st).Normal?
      <==> st.run.calls + 2 * n + m <= MAX_TOOL_CALLS
  {
    var program := Program(x, n, m);
    if n == 0 {
      assert program == Copies(x.writes, m);
      WritesUnchanged(x, c, h, m, names);
      WritesRun(x, m, st);
    } else {
      ProgramStarts(x, n, m);
      var first := RewriteStmt(c, h, Attempt(x), names);
      var rest := Rewrite(c, h, program[1..], first.names);
      RewriteStmtAddsNames(c, h, Attempt(x), names);
      TransformedAttempt(x, c, h, names, st);
      assert ([first.code] + rest.code)[1..] == rest.code;
      TransformedRuns(x, c, h, n - 1, m, first.names, ExecStmt(x.p, first.code, st).state);
    }
  }

  lemma ProgramChanged(x: Family, c: Context, h: Helpers, n: nat, m: nat, names: set<string>)
    requires ValidFamily(x) && c.manifest == x.p.host.manifest && n > 0
    requires BlockOk(c, Program(x, n, m))
    ensures Rewrite(c, h, Program(x, n, m), names).changed
  {
    assert Program(x, n, m)[0] == Attempt(x);
    var slots, body := AttemptRewritten(x, c, h, names);
  }

  lemma {:induction false} FuncNamesInCopies(s: Stmt, m: nat)
    requires m > 0
    ensures StmtNames(s) <= BlockNames(Copies(s, m))
  {
  }

  lemma {:induction false} NamesJoin(a: seq<Stmt>, b: seq<Stmt>)
    ensures BlockNames(b) <= BlockNames(a + b)
  {
    if a == [] { assert a + b == b; } else { NamesJoin(a[1..], b); assert (a + b)[1..] == a[1..] + b; }
  }

  lemma WritesFromRoots(x: Family, env: Env)
    requires ValidFamily(x) && RootsBound(x.p.host.manifest, env)
    ensures CanWrite(x, env)
  {
    var c := Context(x.p.host.manifest, {});
    PlainCallsOk(x, c);
    ToolValue(x.p, c, x.writes.value, env);
  }

  lemma StartsWasted(x: Family, h: Helpers, program: seq<Stmt>, env: Env)
    requires ValidFamily(x) && RootsBound(x.p.host.manifest, env) && h == HelpersFor(program)
    requires Names(x.writes.value.func) <= BlockNames(program)
    ensures Wasted(x, h, State(env[h.prepare := PrepareHelper][h.resolve := ResolveHelper], NewRun(true)))
  {
    var env' := env[h.prepare := PrepareHelper][h.resolve := ResolveHelper];
    WritesFromRoots(x, env);
    EvalFrame.EvalFuncSame(x.p, x.writes.value.func, env, env');
  }

  lemma WriteNames(x: Family, n: nat, m: nat)
    requires ValidFamily(x) && m > 0
    ensures Names(x.writes.value.func) <= BlockNames(Program(x, n, m))
  {
    NamesJoin(Copies(Attempt(x), n), Copies(x.writes, m));
    FuncNamesInCopies(x.writes, m);
  }

  lemma TransformedProgram(x: Family, n: nat, m: nat, inputs: Datum)
    requires ValidFamily(x) && 0 < n < MAX_PENDING && m > 0
    ensures Execute(x.p, Program(x, n, m), inputs, true).Normal? <==> 2 * n + m <= MAX_TOOL_CALLS
  {
    var program := Program(x, n, m);
    var c := ContextOf(x.p.host.manifest, program);
    var h := HelpersFor(program);
    var names := BlockNames(program) + {h.prepare, h.resolve};
    ProgramOk(x, c, n, m);
    ProgramChanged(x, c, h, n, m, names);
    WriteNames(x, n, m);
    ScopeBindsRoots(x.p, inputs);
    StartsWasted(x, h, program, Scope(x.p, inputs));
    TransformedRuns(x, c, h, n, m, names,
      State(Scope(x.p, inputs)[h.prepare := PrepareHelper][h.resolve := ResolveHelper], NewRun(true)));
  }

  /**
   `n` attempts followed by `m` writes, which the original program can afford: early reads keep
   the program's meaning if and only if its path makes at most 1024 calls.
   */
  lemma BudgetExactly(x: Family, n: nat, m: nat, inputs: Datum)
    requires ValidFamily(x) && 0 < n < MAX_PENDING && m > 0
    requires n + m <= MAX_TOOL_CALLS
    ensures var program := Program(x, n, m);
      SameMeaning(Invented(x.p.host.manifest, program), Execute(x.p, program, inputs, false), Execute(x.p, program, inputs, true))
      <==> BlockCalls(program) <= MAX_TOOL_CALLS
  {
    var program := Program(x, n, m);
    var c := ContextOf(x.p.host.manifest, program);
    ProgramOk(x, c, n, m);
    if BlockCalls(program) <= MAX_TOOL_CALLS {
      EarlyReadsPreserveMeaning(x.p, program, inputs);
    } else {
      ScopeBindsRoots(x.p, inputs);
      OriginalRuns(x, c, n, m, State(Scope(x.p, inputs), NewRun(false)));
      TransformedProgram(x, n, m, inputs);
    }
  }

  // -------------------------------------------------------------- a concrete program

  const FAIL := Spec("fail", ["fail"], true)
  const READ := Spec("read", ["read"], true)
  const WRITE := Spec("write", ["write"], false)

  function PlainStmt(target: string, tool: string): Stmt {
    Assign([Name(target)], Call(Name(tool), [], []))
  }

  ghost function Example(): Family {
    var host := Host([FAIL, READ, WRITE],
      (world: seq<Request>, request: Request) => if request.tool == "fail" then Failure("no") else Success(NoneV),
      id => false);
    var p := Python(host, map[], (op, vs) => Raise(Unsupported), v => true, (x, v) => Ok(true), (tool, v) => Encoded("{}"));
    Family(p, PlainStmt("a", "fail"), PlainStmt("b", "read"), PlainStmt("w", "write"))
  }

  lemma LastFound(m: Manifest, spec: Spec)
    requires m != [] && m[|m| - 1] == spec
    ensures ToolAt(m, spec.path) == Some(spec.name)
  {
  }

  lemma NotLast(m: Manifest, path: Path)
    requires m != [] && m[|m| - 1].path != path
    ensures ToolAt(m, path) == ToolAt(m[..|m| - 1], path)
  {
  }

  lemma FirstsDiffer()
    ensures ["fail"] != ["read"] && ["fail"] != ["write"] && ["read"] != ["write"]
    ensures "fail" != "read" && "fail" != "write" && "read" != "write"
  {
    assert "fail"[0] == 'f' && "read"[0] == 'r' && "write"[0] == 'w';
    assert ["fail"][0] == "fail" && ["read"][0] == "read" && ["write"][0] == "write";
  }

  /** The family is not empty, so the bound is exact for programs that exist. */
  lemma ExampleIsValid()
    ensures ValidFamily(Example())
  {
    var x := Example();
    var m := [FAIL, READ, WRITE];
    FirstsDiffer();
    assert m[..2] == [FAIL, READ] && [FAIL, READ][..1] == [FAIL];
    LastFound(m, WRITE);
    NotLast(m, READ.path);
    LastFound([FAIL, READ], READ);
    NotLast(m, FAIL.path);
    NotLast([FAIL, READ], FAIL.path);
    LastFound([FAIL], FAIL);
    PlainStmtIsPlain(m, "a", "fail", 0);
    PlainStmtIsPlain(m, "b", "read", 1);
    PlainStmtIsPlain(m, "w", "write", 2);
  }

  lemma PlainStmtIsPlain(m: Manifest, target: string, tool: string, i: nat)
    requires i < |m| && m[i].name == tool
    requires forall j :: 0 <= j < |m| && j != i ==> m[j].name != tool
    requires forall j :: 0 <= j < |m| ==> m[j].path == [m[j].name]
    requires ToolAt(m, [tool]) == Some(tool)
    requires |target| == 1 && forall j :: 0 <= j < |m| ==> |m[j].name| > 1
    ensures PlainCall(m, PlainStmt(target, tool), m[i].allowEarlyRead)
    ensures CalledTool(m, PlainStmt(target, tool)) == tool
  {
    assert target != "inputs";
  }
}
