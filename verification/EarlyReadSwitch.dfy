/**
 Whether a run may start early reads makes no difference to a program that has no name for the
 helper which starts them.
 */
module EarlyReadSwitch {
  import opened Options
  import opened PythonAst
  import opened RunFutures
  import opened GuestSemantics

  ghost predicate NoHelper(env: Env) {
    forall id :: id in env ==> !env[id].PrepareHelper?
  }

  ghost function Enabled(run: Run): Run {
    run.(enabled := true)
  }

  ghost function EnabledState(st: State): State {
    st.(run := Enabled(st.run))
  }

  /** The second execution ends as the first one does, but for the flag. */
  ghost predicate SameBut(o: Outcome, t: Outcome) {
    && NoHelper(o.state.env)
    && t == match o
         case Normal(st) => Normal(EnabledState(st))
         case Raised(x, st) => Raised(x, EnabledState(st))
  }

  lemma {:induction false} EvalGivesData(p: Python, e: Expr, env: Env)
    requires NoHelper(env)
    ensures Eval(p, e, env).Ok? ==> !Eval(p, e, env).value.PrepareHelper?
    decreases e, 1
  {
    match e
    case BoolOp(isAnd, operands) => BoolGivesData(p, isAnd, operands, env);
    case Compare(first, ops, comparators) =>
      EvalGivesData(p, first, env);
      var v := Eval(p, first, env);
      if v.Ok? { CompareGivesData(p, v.value, ops, comparators, env); }
    case _ =>
  }

  lemma {:induction false} BoolGivesData(p: Python, isAnd: bool, operands: seq<Expr>, env: Env)
    requires NoHelper(env)
    ensures var r := EvalBool(p, isAnd, operands, env);
      r.Ok? ==> !r.value.PrepareHelper?
    decreases operands, 0
  {
    if operands != [] {
      EvalGivesData(p, operands[0], env);
      BoolGivesData(p, isAnd, operands[1..], env);
    }
  }

  lemma {:induction false} CompareGivesData(p: Python, left: Value, ops: seq<string>, comparators: seq<Expr>, env: Env)
    requires NoHelper(env) && !left.PrepareHelper?
    ensures var r := EvalCompare(p, left, ops, comparators, env);
      r.Ok? ==> !r.value.PrepareHelper?
    decreases comparators, 0
  {
    if comparators != [] && ops != [] {
      EvalGivesData(p, comparators[0], env);
      var right := Eval(p, comparators[0], env);
      if right.Ok? { CompareGivesData(p, right.value, ops[1..], comparators[1..], env); }
    }
  }

  lemma InvokeIgnoresFlag(h: Host, run: Run, id: nat, request: Request)
    ensures Invoke(h, Enabled(run), request) == (Invoke(h, run, request).0, Enabled(Invoke(h, run, request).1))
    ensures Resolve(h, Enabled(run), id, request) == (Resolve(h, run, id, request).0, Enabled(Resolve(h, run, id, request).1))
  {
  }

  lemma CallIgnoresFlag(p: Python, func: Expr, args: seq<Expr>, kws: seq<Keyword>, st: State)
    requires NoHelper(st.env)
    ensures var o, t := EvalCall(p, func, args, kws, st), EvalCall(p, func, args, kws, EnabledState(st));
      t == (o.0, Enabled(o.1)) && (o.0.Ok? ==> !o.0.value.PrepareHelper?)
  {
    FuncGivesData(p, func, st.env);
    var f := EvalFunc(p, func, st.env);
    if f.Ok? && f.value.Exported? { ToolCallIgnoresFlag(p, f.value.path, args, kws, st); }
    if f.Ok? && f.value.ResolveHelper? { ResolveCallIgnoresFlag(p, args, kws, st); }
  }

  lemma {:induction false} FuncGivesData(p: Python, e: Expr, env: Env)
    requires NoHelper(env)
    ensures EvalFunc(p, e, env).Ok? ==> !EvalFunc(p, e, env).value.PrepareHelper?
  {
  }

  lemma ToolCallIgnoresFlag(p: Python, path: Path, args: seq<Expr>, kws: seq<Keyword>, st: State)
    ensures var o, t := EvalToolCall(p, path, args, kws, st), EvalToolCall(p, path, args, kws, EnabledState(st));
      t == (o.0, Enabled(o.1)) && (o.0.Ok? ==> !o.0.value.PrepareHelper?)
  {
    var values, tool := EvalKeywords(p, kws, st.env), ToolAt(p.host.manifest, path);
    if values.Ok? && tool.Some? && p.encode(tool.value, values.value).Encoded? {
      InvokeIgnoresFlag(p.host, st.run, 0, Request(tool.value, p.encode(tool.value, values.value).args));
    }
  }

  lemma ResolveCallIgnoresFlag(p: Python, args: seq<Expr>, kws: seq<Keyword>, st: State)
    ensures var o, t := EvalResolveCall(p, args, kws, st), EvalResolveCall(p, args, kws, EnabledState(st));
      t == (o.0, Enabled(o.1)) && (o.0.Ok? ==> !o.0.value.PrepareHelper?)
  {
    var positional, values := EvalAll(p, args, st.env), EvalKeywords(p, kws, st.env);
    if positional.Ok? && values.Ok? && |positional.value| == 2 && positional.value[0].Int? && positional.value[0].n >= 0
       && positional.value[1].Str? && p.encode(positional.value[1].text, values.value).Encoded? {
      var tool := positional.value[1].text;
      InvokeIgnoresFlag(p.host, st.run, positional.value[0].n, Request(tool, p.encode(tool, values.value).args));
    }
  }

  lemma {:induction false} BlockIgnoresFlag(p: Python, body: seq<Stmt>, st: State)
    requires NoHelper(st.env)
    ensures SameBut(ExecBlock(p, body, st), ExecBlock(p, body, EnabledState(st)))
    decreases body, 0
  {
    if body != [] {
      StmtIgnoresFlag(p, body[0], st);
      var o := ExecStmt(p, body[0], st);
      if o.Normal? { BlockIgnoresFlag(p, body[1..], o.state); }
    }
  }

  lemma {:induction false} StmtIgnoresFlag(p: Python, s: Stmt, st: State)
    requires NoHelper(st.env)
    ensures SameBut(ExecStmt(p, s, st), ExecStmt(p, s, EnabledState(st)))
    decreases s, 1
  {
    match s
    case Assign(_, value) =>
      if value.Call? { CallIgnoresFlag(p, value.func, value.args, value.keywords, st); }
      else { EvalGivesData(p, value, st.env); }
    case If(_, body, orelse) =>
      BlockIgnoresFlag(p, body, st);
      BlockIgnoresFlag(p, orelse, st);
    case Try(body, handlers, orelse, finalbody) =>
      BlockIgnoresFlag(p, body, st);
      var o := ExecBlock(p, body, st);
      if o.Normal? {
        BlockIgnoresFlag(p, orelse, o.state);
        BlockIgnoresFlag(p, finalbody, ExecBlock(p, orelse, o.state).state);
      } else {
        HandlersIgnoreFlag(p, handlers, o.exc, o.state);
        BlockIgnoresFlag(p, finalbody, ExecHandlers(p, handlers, o.exc, o.state).state);
      }
    case _ =>
  }

  lemma {:induction false} HandlersIgnoreFlag(p: Python, hs: seq<Handler>, x: Exc, st: State)
    requires NoHelper(st.env)
    ensures SameBut(ExecHandlers(p, hs, x, st), ExecHandlers(p, hs, x, EnabledState(st)))
    decreases hs, 0
  {
    if hs != [] {
      HandlersIgnoreFlag(p, hs[1..], x, st);
      HandlerIgnoresFlag(p, hs[0].name, hs[0].body, x, st);
    }
  }

  lemma {:induction false} HandlerIgnoresFlag(p: Python, name: Option<string>, body: seq<Stmt>, x: Exc, st: State)
    requires NoHelper(st.env)
    ensures SameBut(ExecHandlerBody(p, name, body, x, st), ExecHandlerBody(p, name, body, x, EnabledState(st)))
    decreases body, 1
  {
    match name
    case None => BlockIgnoresFlag(p, body, st);
    case Some(id) => BlockIgnoresFlag(p, body, st.(env := st.env[id := Caught(x)]));
  }
}
