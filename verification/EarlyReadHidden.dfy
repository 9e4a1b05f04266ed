/**
 A reserved keyword in a program that hides the difference: the call is tried, what it raises is
 ignored, and its variable is overwritten. So for programs at large the condition on keywords is
 enough and not needed; whether a difference shows depends on the rest of the program.
 */
module EarlyReadHidden {
  import opened Options
  import opened PythonAst
  import opened RunFutures
  import opened EarlyReadPass
  import opened GuestSemantics
  import opened GroupProtocol
  import opened GroupExecution
  import opened EarlyReadTheorem
  import opened EarlyReadLimits

  /** Nothing but the variables in `names` is different, and no tool has changed the world. */
  ghost predicate LeavesAllBut(st: State, st': State, names: set<string>) {
    st'.run.effects == st.run.effects && forall id :: id !in names ==> SameAt(st.env, st'.env, id)
  }

  lemma EarlyInvokeLeaves(p: Python, tool: string, args: Value, run: Run)
    requires IsKnown(p.host.manifest, tool) && IsEarly(p.host.manifest, tool)
    ensures InvokeTool(p, tool, args, run).1.effects == run.effects
  {
  }

  lemma EarlyResolveLeaves(p: Python, handle: nat, tool: string, args: Value, run: Run)
    requires IsKnown(p.host.manifest, tool) && IsEarly(p.host.manifest, tool)
    ensures ResolveCall(p, handle, tool, args, run).1.effects == run.effects
  {
  }

  /** An early call, whatever its keywords. */
  lemma OriginalLeaves(p: Python, c: Context, s: Stmt, st: State)
    requires EarlyStmt(p, c, s) && RootsBound(p.host.manifest, st.env)
    ensures LeavesAllBut(st, ExecBlock(p, [s], st).state, {Target(s)})
  {
    var tool, kws := ToolName(c, s.value).value, s.value.keywords;
    assert [s][1..] == [];
    ToolValue(p, c, s.value, st.env);
    KnownAndEarly(c, s.value);
    if EvalKeywords(p, kws, st.env).Ok? {
      EarlyInvokeLeaves(p, tool, EvalKeywords(p, kws, st.env).value, st.run);
    }
  }

  lemma ResolveLeaves(p: Python, c: Context, h: Helpers, s: Stmt, slot: string, st: State)
    requires EarlyStmt(p, c, s) && HelpersBound(h, st.env) && HasHandle(st, slot)
    ensures LeavesAllBut(st, ExecStmt(p, ResolveStmt(c, h, s, slot), st).state, {Target(s)})
  {
    var tool, kws := ToolName(c, s.value).value, s.value.keywords;
    KnownAndEarly(c, s.value);
    EvalFrame.EvalPair(p, Name(slot), Constant(Str(tool)), st.env);
    if EvalKeywords(p, kws, st.env).Ok? {
      EarlyResolveLeaves(p, st.env[slot].n, tool, EvalKeywords(p, kws, st.env).value, st.run);
    }
  }

  lemma PrepareLeaves(p: Python, c: Context, h: Helpers, s: Stmt, slot: string, st: State) returns (st': State)
    requires EarlyStmt(p, c, s) && HelpersBound(h, st.env) && slot != h.prepare && slot != h.resolve
    ensures ExecStmt(p, PrepareStmt(c, h, s, slot), st) == Normal(st')
    ensures HelpersBound(h, st'.env) && HasHandle(st', slot) && LeavesAllBut(st, st', {slot})
  {
    var id, request;
    st', id, request := PrepareExec(p, c, h, s, slot, 0, st);
  }

  lemma LeavesTrans(st: State, st1: State, st2: State, a: string, b: string)
    requires LeavesAllBut(st, st1, {a}) && LeavesAllBut(st1, st2, {b})
    ensures LeavesAllBut(st, st2, {a, b})
  {
    forall id | id != a && id != b ensures SameAt(st.env, st2.env, id) {
      assert SameAt(st.env, st1.env, id) && SameAt(st1.env, st2.env, id);
    }
  }

  lemma TransformedLeaves(p: Python, c: Context, h: Helpers, s: Stmt, slot: string, st: State)
    requires EarlyStmt(p, c, s) && HelpersBound(h, st.env) && slot != h.prepare && slot != h.resolve
    ensures LeavesAllBut(st, ExecBlock(p, [PrepareStmt(c, h, s, slot), ResolveStmt(c, h, s, slot)], st).state, {slot, Target(s)})
  {
    var st' := PrepareLeaves(p, c, h, s, slot, st);
    TwoStatements(p, PrepareStmt(c, h, s, slot), ResolveStmt(c, h, s, slot), st, st');
    ResolveLeaves(p, c, h, s, slot, st');
    LeavesTrans(st, st', ExecStmt(p, ResolveStmt(c, h, s, slot), st').state, slot, Target(s));
  }

  // ------------------------------------------------------------------ the hiding program

  /** `try: body  except: pass` and `target = None` */
  function Swallow(body: seq<Stmt>): Stmt {
    Try(body, NOTHING, [], [])
  }

  function Forget(target: string): Stmt {
    Assign([Name(target)], Constant(NoneV))
  }

  lemma SwallowedAndForgotten(p: Python, body: seq<Stmt>, target: string, st: State)
    ensures var after := ExecBlock(p, body, st).state;
      ExecBlock(p, [Swallow(body), Forget(target)], st) == Normal(State(after.env[target := NoneV], after.run))
  {
    var after := ExecBlock(p, body, st).state;
    assert [Pass][1..] == [];
    assert ExecBlock(p, [Pass], after) == Normal(after);
    assert ExecStmt(p, Swallow(body), st) == Normal(after);
    TwoStatements(p, Swallow(body), Forget(target), st, after);
  }

  /** A program that tries the call `s` and hides what comes of it. */
  function Hiding(s: Stmt): seq<Stmt>
    requires s.Assign? && |s.targets| == 1 && s.targets[0].Name?
  {
    [Swallow([s]), Forget(Target(s))]
  }

  const NOTHING: seq<Handler> := [Handler(None, None, [Pass])]

  lemma TwoRewritten(c: Context, h: Helpers, s: Stmt, rest: seq<Stmt>, names: set<string>)
    requires StmtOk(c, s) && BlockOk(c, rest) && !EarlyAssign(c, s)
    ensures BlockOk(c, [s] + rest)
    ensures var first := RewriteStmt(c, h, s, names);
      var r := Rewrite(c, h, rest, first.names);
      Rewrite(c, h, [s] + rest, names) == Rewritten([first.code] + r.code, r.names, first.changed || r.changed)
  {
    assert ([s] + rest)[0] == s && ([s] + rest)[1..] == rest;
  }

  lemma OneRewritten(c: Context, h: Helpers, s: Stmt, names: set<string>)
    requires StmtOk(c, s) && !EarlyAssign(c, s)
    ensures BlockOk(c, [s])
    ensures var first := RewriteStmt(c, h, s, names);
      Rewrite(c, h, [s], names) == Rewritten([first.code], first.names, first.changed)
  {
    var code := RewriteStmt(c, h, s, names).code;
    assert [s] + [] == [s] && [code] + [] == [code];
    TwoRewritten(c, h, s, [], names);
  }

  lemma NothingIsRewritten(c: Context, h: Helpers, names: set<string>)
    ensures HandlersOk(c, NOTHING) && RewriteHandlers(c, h, NOTHING, names) == Rewritten(NOTHING, names, false)
  {
    OneRewritten(c, h, Pass, names);
    assert NOTHING[1..] == [] && [NOTHING[0]] + [] == NOTHING;
    assert RewriteHandlers(c, h, [], names) == Rewritten([], names, false);
  }

  lemma HidingRewritten(c: Context, h: Helpers, s: Stmt, names: set<string>)
    requires BlockOk(c, [s]) && EarlyAssign(c, s) && |s.targets| == 1 && s.targets[0].Name? && !Reserved(c, Target(s))
    ensures BlockOk(c, Hiding(s))
    ensures var slot := Fresh(names, FUTURE);
      Rewrite(c, h, Hiding(s), names) == Rewritten(
        [Swallow([PrepareStmt(c, h, s, slot), ResolveStmt(c, h, s, slot)]), Forget(Target(s))], names + {slot}, true)
  {
    var b := Rewrite(c, h, [s], names);
    OneCallRewritten(c, h, s, names);
    NothingIsRewritten(c, h, b.names);
    OneRewritten(c, h, Forget(Target(s)), b.names);
    assert RewriteStmt(c, h, Swallow([s]), names) == Rewritten(Swallow(b.code), b.names, true);
    assert Hiding(s) == [Swallow([s])] + [Forget(Target(s))];
    TwoRewritten(c, h, Swallow([s]), [Forget(Target(s))], names);
    assert [Swallow(b.code)] + [Forget(Target(s))] == [Swallow(b.code), Forget(Target(s))];
  }

  // ------------------------------------------------------------------------ the result

  /** Any two ends of the tried call leave the same, once its variable is overwritten. */
  lemma OverwrittenIsSame(env: Env, env': Env, st: State, st': State, target: string, slot: string, invented: set<string>)
    requires LeavesAllBut(State(env, NewRun(false)), st, {target})
    requires LeavesAllBut(State(env', NewRun(true)), st', {slot, target})
    requires slot in invented && forall id :: id !in invented ==> SameAt(env, env', id)
    requires forall n :: n in invented ==> "_pysolate_" <= n
    ensures SameMeaning(invented, Normal(State(st.env[target := NoneV], st.run)), Normal(State(st'.env[target := NoneV], st'.run)))
  {
    var a, b := st.env[target := NoneV], st'.env[target := NoneV];
    forall id | id !in invented ensures SameAt(a, b, id) {
      if id != target {
        assert SameAt(env, env', id);
        assert SameAt(env, st.env, id);
        assert SameAt(env', st'.env, id);
      }
    }
    assert "result" !in invented by { assert "result"[0] != "_pysolate_"[0]; }
    assert SameAt(a, b, "result");
  }

  /** The two runs of the hiding program, from environments that differ in what is invented. */
  ghost predicate BothRuns(p: Python, c: Context, h: Helpers, s: Stmt, slot: string, env: Env, env': Env, invented: set<string>,
                           o: Outcome, t: Outcome) {
    && EarlyStmt(p, c, s) && RootsBound(p.host.manifest, env) && HelpersBound(h, env') && slot != h.prepare && slot != h.resolve
    && slot in invented && (forall id :: id !in invented ==> SameAt(env, env', id))
    && o == ExecBlock(p, Hiding(s), State(env, NewRun(false)))
    && t == ExecBlock(p, [Swallow([PrepareStmt(c, h, s, slot), ResolveStmt(c, h, s, slot)]), Forget(Target(s))], State(env', NewRun(true)))
  }

  /** What `Execute` runs for the hiding program. */
  lemma HidingExecuted(p: Python, s: Stmt, inputs: Datum) returns (h: Helpers, slot: string, env': Env)
    requires s.Assign? && |s.targets| == 1 && s.targets[0].Name?
    requires var c := ContextOf(p.host.manifest, Hiding(s)); BlockOk(c, [s]) && EarlyAssign(c, s) && !Reserved(c, Target(s))
    ensures slot != h.prepare && slot != h.resolve && h.prepare != h.resolve
    ensures {slot, h.prepare, h.resolve} <= Invented(p.host.manifest, Hiding(s))
    ensures env' == Scope(p, inputs)[h.prepare := PrepareHelper][h.resolve := ResolveHelper]
    ensures var c := ContextOf(p.host.manifest, Hiding(s));
      Execute(p, Hiding(s), inputs, true) ==
        ExecBlock(p, [Swallow([PrepareStmt(c, h, s, slot), ResolveStmt(c, h, s, slot)]), Forget(Target(s))], State(env', NewRun(true)))
  {
    var c := ContextOf(p.host.manifest, Hiding(s));
    h := HelpersFor(Hiding(s));
    var names := BlockNames(Hiding(s)) + {h.prepare, h.resolve};
    slot := Fresh(names, FUTURE);
    env' := Scope(p, inputs)[h.prepare := PrepareHelper][h.resolve := ResolveHelper];
    HidingRewritten(c, h, s, names);
  }

  lemma HelpersAreInvisible(h: Helpers, env: Env, env': Env, invented: set<string>)
    requires h.prepare != h.resolve && {h.prepare, h.resolve} <= invented
    requires env' == env[h.prepare := PrepareHelper][h.resolve := ResolveHelper]
    ensures HelpersBound(h, env') && forall id :: id !in invented ==> SameAt(env, env', id)
  {
  }

  lemma HidingRuns(p: Python, s: Stmt, inputs: Datum) returns (h: Helpers, slot: string, env': Env)
    requires s.Assign? && |s.targets| == 1 && s.targets[0].Name?
    requires var c := ContextOf(p.host.manifest, Hiding(s)); BlockOk(c, [s]) && EarlyAssign(c, s) && !Reserved(c, Target(s))
    ensures BothRuns(p, ContextOf(p.host.manifest, Hiding(s)), h, s, slot, Scope(p, inputs), env', Invented(p.host.manifest, Hiding(s)),
      Execute(p, Hiding(s), inputs, false), Execute(p, Hiding(s), inputs, true))
  {
    ScopeBindsRoots(p, inputs);
    h, slot, env' := HidingExecuted(p, s, inputs);
    HelpersAreInvisible(h, Scope(p, inputs), env', Invented(p.host.manifest, Hiding(s)));
  }

  lemma HidingHides(p: Python, c: Context, h: Helpers, s: Stmt, slot: string, env: Env, env': Env, invented: set<string>,
                    o: Outcome, t: Outcome)
    requires BothRuns(p, c, h, s, slot, env, env', invented, o, t)
    requires forall n :: n in invented ==> "_pysolate_" <= n
    ensures SameMeaning(invented, o, t)
  {
    var st, st' := State(env, NewRun(false)), State(env', NewRun(true));
    var code := [PrepareStmt(c, h, s, slot), ResolveStmt(c, h, s, slot)];
    OriginalLeaves(p, c, s, st);
    TransformedLeaves(p, c, h, s, slot, st');
    SwallowedAndForgotten(p, [s], Target(s), st);
    SwallowedAndForgotten(p, code, Target(s), st');
    OverwrittenIsSame(env, env', ExecBlock(p, [s], st).state, ExecBlock(p, code, st').state, Target(s), slot, invented);
  }

  /**
   Whatever its keywords are, an early call that is tried, ignored if it fails, and whose variable
   is overwritten, means the same with early reads: for every Host and all of Python's operators.
   */
  lemma ReservedKeywordHidden(p: Python, s: Stmt, inputs: Datum)
    requires s.Assign? && |s.targets| == 1 && s.targets[0].Name?
    requires var c := ContextOf(p.host.manifest, Hiding(s)); BlockOk(c, [s]) && EarlyAssign(c, s)
    ensures SameMeaning(Invented(p.host.manifest, Hiding(s)), Execute(p, Hiding(s), inputs, false), Execute(p, Hiding(s), inputs, true))
  {
    OkAt(ContextOf(p.host.manifest, Hiding(s)), [s], 0);
    InventedAreNew(p.host.manifest, Hiding(s));
    var h, slot, env' := HidingRuns(p, s, inputs);
    HidingHides(p, ContextOf(p.host.manifest, Hiding(s)), h, s, slot, Scope(p, inputs), env', Invented(p.host.manifest, Hiding(s)),
      Execute(p, Hiding(s), inputs, false), Execute(p, Hiding(s), inputs, true));
  }
}
