/**
 Executing a program with early reads and executing it without them (bootstrap.execute): the
 same result, the same exception, the same variables and the same state-changing tool calls.
 */
module EarlyReadTheorem {
  import opened PythonAst
  import opened RunFutures
  import opened EarlyReadPass
  import opened GuestSemantics
  import opened CallBudget
  import opened GroupProtocol
  import opened EarlyReadCorrect
  import opened EarlyReadSwitch
  import ToolPaths

  ghost function ToolRoots(m: Manifest): set<string> {
    set i | 0 <= i < |m| && m[i].path != [] :: m[i].path[0]
  }

  /** The module scope before the first statement. */
  ghost function Scope(p: Python, inputs: Datum): Env {
    map["__name__" := Str("__main__"), "inputs" := inputs]
    + map id | id in ToolRoots(p.host.manifest) :: Exported([id])
  }

  /** `exec` of the program, or of what the pass makes of it with its helpers in scope. */
  ghost function Execute(p: Python, program: seq<Stmt>, inputs: Datum, early: bool): Outcome {
    if !early then ExecBlock(p, program, State(Scope(p, inputs), NewRun(false)))
    else
      var t := Transform(p.host.manifest, program);
      var env := match t.helpers
        case None => Scope(p, inputs)
        case Some(h) => Scope(p, inputs)[h.prepare := PrepareHelper][h.resolve := ResolveHelper];
      ExecBlock(p, t.code, State(env, NewRun(true)))
  }

  datatype Response = Returned(value: Value) | Failed(exc: Exc)

  /** What the Guest answers: the variable `result`, or the exception. */
  ghost function Answer(o: Outcome): Response {
    match o
    case Raised(x, _) => Failed(x)
    case Normal(st) => Returned(if "result" in st.env then st.env["result"] else NoneV)
  }

  /** The names the pass adds to a program. */
  ghost function Invented(m: Manifest, program: seq<Stmt>): set<string> {
    var c := ContextOf(m, program);
    if !BlockOk(c, program) then {}
    else
      var h := HelpersFor(program);
      Rewrite(c, h, program, BlockNames(program) + {h.prepare, h.resolve}).names - BlockNames(program)
  }

  /** The Host accepted the first part of every tool's path. */
  ghost predicate RootsValid(m: Manifest) {
    forall i :: 0 <= i < |m| && m[i].path != [] ==> ToolPaths.ValidRoot(m[i].path[0])
  }

  /** The names are in nobody's way: neither the program nor a tool of a valid catalog has them. */
  lemma InventedAreNew(m: Manifest, program: seq<Stmt>)
    ensures Invented(m, program) !! BlockNames(program)
    ensures forall n :: n in Invented(m, program) ==> "_pysolate_" <= n
    ensures RootsValid(m) ==> Invented(m, program) !! ToolRoots(m)
  {
    var c := ContextOf(m, program);
    if BlockOk(c, program) {
      var h := HelpersFor(program);
      RewriteAddsNames(c, h, program, BlockNames(program) + {h.prepare, h.resolve});
      forall n | n in Invented(m, program) ensures "_pysolate_" <= n {
        assert n == h.prepare || n == h.resolve || FUTURE <= n;
        assert "_pysolate_" <= FUTURE && "_pysolate_" <= PREPARE && "_pysolate_" <= RESOLVE;
      }
      if RootsValid(m) {
        forall n | n in Invented(m, program) ensures n !in ToolRoots(m) {
          assert ToolPaths.RESERVED_PREFIX <= n;
        }
      }
    }
  }

  // ------------------------------------------------------- nothing found, nothing changed

  lemma {:induction false} UnchangedBlock(c: Context, h: Helpers, body: seq<Stmt>, names: set<string>)
    requires BlockOk(c, body) && !Rewrite(c, h, body, names).changed
    ensures Rewrite(c, h, body, names).code == body
    decreases body, 0
  {
    if body != [] {
      UnchangedStmt(c, h, body[0], names);
      UnchangedBlock(c, h, body[1..], RewriteStmt(c, h, body[0], names).names);
    }
  }

  lemma {:induction false} UnchangedStmt(c: Context, h: Helpers, s: Stmt, names: set<string>)
    requires StmtOk(c, s) && !RewriteStmt(c, h, s, names).changed
    ensures RewriteStmt(c, h, s, names).code == s
    decreases s, 1
  {
    match s
    case If(_, body, orelse) =>
      UnchangedBlock(c, h, body, names);
      UnchangedBlock(c, h, orelse, Rewrite(c, h, body, names).names);
    case Try(body, handlers, orelse, finalbody) =>
      var b := Rewrite(c, h, body, names);
      var e := Rewrite(c, h, orelse, b.names);
      UnchangedBlock(c, h, body, names);
      UnchangedBlock(c, h, orelse, b.names);
      UnchangedBlock(c, h, finalbody, e.names);
      UnchangedHandlers(c, h, handlers, Rewrite(c, h, finalbody, e.names).names);
    case _ =>
  }

  lemma {:induction false} UnchangedHandlers(c: Context, h: Helpers, hs: seq<Handler>, names: set<string>)
    requires HandlersOk(c, hs) && !RewriteHandlers(c, h, hs, names).changed
    ensures RewriteHandlers(c, h, hs, names).code == hs
    decreases hs, 0
  {
    if hs != [] {
      UnchangedBlock(c, h, hs[0].body, names);
      UnchangedHandlers(c, h, hs[1..], Rewrite(c, h, hs[0].body, names).names);
    }
  }

  // -------------------------------------------------------------------- the theorem

  /** Two ends of an execution that no program and no tool can tell apart. */
  ghost predicate SameMeaning(invented: set<string>, o: Outcome, t: Outcome) {
    && (o.Normal? <==> t.Normal?)
    && (o.Raised? && t.Raised? ==> o.exc == t.exc)
    && (forall id :: id !in invented ==> SameAt(o.state.env, t.state.env, id))
    && o.state.run.effects == t.state.run.effects
    && Answer(o) == Answer(t)
  }

  /**
   The budget is enough for early reads if no path through the program makes more than 1024
   tool calls; or if the program itself, run without early reads, makes at most 960; or if it
   makes fewer than 1024 with them.
   */
  ghost predicate WithinBudget(p: Python, program: seq<Stmt>, inputs: Datum) {
    || BlockCalls(program) <= MAX_TOOL_CALLS
    || Execute(p, program, inputs, false).state.run.calls <= SAFE_CALLS
    || Execute(p, program, inputs, true).state.run.calls < MAX_TOOL_CALLS
  }

  lemma ScopeBindsRoots(p: Python, inputs: Datum)
    ensures RootsBound(p.host.manifest, Scope(p, inputs))
  {
    var m, env := p.host.manifest, Scope(p, inputs);
    forall i | 0 <= i < |m| && m[i].path != []
      ensures m[i].path[0] in env && env[m[i].path[0]] == Exported([m[i].path[0]])
    {
      assert m[i].path[0] in ToolRoots(m);
    }
  }

  lemma HelpersAreInvented(m: Manifest, program: seq<Stmt>)
    requires BlockOk(ContextOf(m, program), program)
    ensures HelpersFor(program).prepare in Invented(m, program) && HelpersFor(program).resolve in Invented(m, program)
  {
    var h := HelpersFor(program);
    RewriteAddsNames(ContextOf(m, program), h, program, BlockNames(program) + {h.prepare, h.resolve});
  }

  lemma HelpersAreHidden(m: Manifest, h: Helpers, hidden: set<string>, env: Env)
    requires h.prepare in hidden && h.resolve in hidden && h.prepare != h.resolve && RootsBound(m, env)
    ensures Related(m, h, hidden, State(env, NewRun(false)),
      State(env[h.prepare := PrepareHelper][h.resolve := ResolveHelper], NewRun(true)))
  {
    assert |NewRun(true).futures| == 0;
  }

  lemma StartsRelated(p: Python, program: seq<Stmt>, inputs: Datum)
    requires BlockOk(ContextOf(p.host.manifest, program), program)
    ensures var h := HelpersFor(program);
      var env := Scope(p, inputs);
      Related(p.host.manifest, h, Invented(p.host.manifest, program),
        State(env, NewRun(false)), State(env[h.prepare := PrepareHelper][h.resolve := ResolveHelper], NewRun(true)))
  {
    HelpersAreInvented(p.host.manifest, program);
    ScopeBindsRoots(p, inputs);
    HelpersAreHidden(p.host.manifest, HelpersFor(program), Invented(p.host.manifest, program), Scope(p, inputs));
  }

  lemma ExecuteUnfolds(p: Python, program: seq<Stmt>, inputs: Datum)
    requires Transform(p.host.manifest, program).helpers.Some?
    ensures var c := ContextOf(p.host.manifest, program);
      var h := HelpersFor(program);
      var names := BlockNames(program) + {h.prepare, h.resolve};
      && BlockOk(c, program)
      && Execute(p, program, inputs, true) == ExecBlock(p, Rewrite(c, h, program, names).code,
           State(Scope(p, inputs)[h.prepare := PrepareHelper][h.resolve := ResolveHelper], NewRun(true)))
      && Rewrite(c, h, program, names).names - names <= Invented(p.host.manifest, program)
  {
  }

  /** Where the pass found a group: the two executions are simulated to the end. */
  lemma ChangedProgram(p: Python, program: seq<Stmt>, inputs: Datum)
    requires BlockFree(ContextOf(p.host.manifest, program), program)
    requires WithinBudget(p, program, inputs)
    requires Transform(p.host.manifest, program).helpers.Some?
    ensures SameOutcome(p.host.manifest, HelpersFor(program), Invented(p.host.manifest, program),
              Execute(p, program, inputs, false), Execute(p, program, inputs, true))
  {
    var c := ContextOf(p.host.manifest, program);
    var h := HelpersFor(program);
    ExecuteUnfolds(p, program, inputs);
    InventedAreNew(p.host.manifest, program);
    HelpersAreInvented(p.host.manifest, program);
    StartsRelated(p, program, inputs);
    AcceptedSimulated(p, c, h, Invented(p.host.manifest, program), program,
      BlockNames(program) + {h.prepare, h.resolve}, Scope(p, inputs),
      Scope(p, inputs)[h.prepare := PrepareHelper][h.resolve := ResolveHelper]);
  }

  lemma AcceptedSimulated(p: Python, c: Context, h: Helpers, hidden: set<string>, program: seq<Stmt>, names: set<string>, env: Env, env': Env)
    requires Setting(p, c, h, hidden, names)
    requires BlockOk(c, program) && BlockFree(c, program) && BlockNames(program) !! hidden
    requires Rewrite(c, h, program, names).names - names <= hidden
    requires Related(p.host.manifest, h, hidden, State(env, NewRun(false)), State(env', NewRun(true)))
    requires Room(BlockCalls(program), ExecBlock(p, program, State(env, NewRun(false))).state.run,
      ExecBlock(p, Rewrite(c, h, program, names).code, State(env', NewRun(true))).state.run)
    ensures SameOutcome(p.host.manifest, h, hidden, ExecBlock(p, program, State(env, NewRun(false))),
      ExecBlock(p, Rewrite(c, h, program, names).code, State(env', NewRun(true))))
  {
    BlockSimulated(p, c, h, hidden, program, names, State(env, NewRun(false)), State(env', NewRun(true)));
  }

  lemma SameOutcomeSameMeaning(m: Manifest, h: Helpers, invented: set<string>, o: Outcome, t: Outcome)
    requires SameOutcome(m, h, invented, o, t)
    requires forall n :: n in invented ==> "_pysolate_" <= n
    ensures SameMeaning(invented, o, t)
  {
    assert "result" !in invented by { assert "result"[0] != "_pysolate_"[0]; }
    assert SameAt(o.state.env, t.state.env, "result");
  }

  /**
   For every program, every manifest, every behaviour of the tools and every timing of the
   workers: early reads do not change what the program means. They may only add reads that the
   program did not get to make.
   */
  lemma EarlyReadsPreserveMeaning(p: Python, program: seq<Stmt>, inputs: Datum)
    requires Transform(p.host.manifest, program).helpers.Some? ==>
      BlockFree(ContextOf(p.host.manifest, program), program) && WithinBudget(p, program, inputs)
    ensures var o, t := Execute(p, program, inputs, false), Execute(p, program, inputs, true);
      && SameMeaning(Invented(p.host.manifest, program), o, t)
      && multiset(o.state.run.dispatched) <= multiset(t.state.run.dispatched)
  {
    var m := p.host.manifest;
    var c := ContextOf(m, program);
    if Transform(m, program).helpers.Some? {
      ChangedProgram(p, program, inputs);
      InventedAreNew(m, program);
      SameOutcomeSameMeaning(m, HelpersFor(program), Invented(m, program),
        Execute(p, program, inputs, false), Execute(p, program, inputs, true));
    } else {
      ProgramUnchanged(m, program);
      BlockIgnoresFlag(p, program, State(Scope(p, inputs), NewRun(false)));
    }
  }

  lemma ProgramUnchanged(m: Manifest, program: seq<Stmt>)
    requires Transform(m, program).helpers.None?
    ensures Transform(m, program).code == program
  {
    var c := ContextOf(m, program);
    if BlockOk(c, program) {
      var h := HelpersFor(program);
      UnchangedBlock(c, h, program, BlockNames(program) + {h.prepare, h.resolve});
    }
  }
}
