/**
 How many calls of the budget a program can use: never fewer as it goes on, and at most one for
 each tool call on the path it takes.
 */
module CallBudget {
  import opened Options
  import opened PythonAst
  import opened GuestSemantics

  function Max(a: nat, b: nat): nat {
    if a < b then b else a
  }

  /** The most calls that one path through a block can make. */
  function BlockCalls(body: seq<Stmt>): nat
    decreases body, 0
  {
    if body == [] then 0 else StmtCalls(body[0]) + BlockCalls(body[1..])
  }

  function StmtCalls(s: Stmt): nat
    decreases s, 1
  {
    match s
    case Assign(_, value) => if value.Call? then 1 else 0
    case If(_, body, orelse) => Max(BlockCalls(body), BlockCalls(orelse))
    case Try(body, handlers, orelse, finalbody) =>
      BlockCalls(body) + Max(BlockCalls(orelse), HandlerCalls(handlers)) + BlockCalls(finalbody)
    case _ => 0
  }

  function HandlerCalls(hs: seq<Handler>): nat
    decreases hs, 0
  {
    if hs == [] then 0 else Max(BlockCalls(hs[0].body), HandlerCalls(hs[1..]))
  }

  lemma AssignCalls(p: Python, targets: seq<Expr>, value: Expr, st: State)
    ensures st.run.calls <= ExecAssign(p, targets, value, st).state.run.calls <= st.run.calls + (if value.Call? then 1 else 0)
  {
    if value.Call? {
      CallCalls(p, value.func, value.args, value.keywords, st);
    }
  }

  lemma CallCalls(p: Python, func: Expr, args: seq<Expr>, kws: seq<Keyword>, st: State)
    ensures st.run.calls <= EvalCall(p, func, args, kws, st).1.calls <= st.run.calls + 1
  {
  }

  /** What a block does to the budget counter, whichever path it takes. */
  lemma {:induction false} BlockUses(p: Python, body: seq<Stmt>, st: State)
    ensures st.run.calls <= ExecBlock(p, body, st).state.run.calls <= st.run.calls + BlockCalls(body)
    decreases body, 0
  {
    if body != [] {
      StmtUses(p, body[0], st);
      var r := ExecStmt(p, body[0], st);
      if r.Normal? { BlockUses(p, body[1..], r.state); }
    }
  }

  lemma {:induction false} StmtUses(p: Python, s: Stmt, st: State)
    ensures st.run.calls <= ExecStmt(p, s, st).state.run.calls <= st.run.calls + StmtCalls(s)
    decreases s, 1
  {
    match s
    case Assign(targets, value) => AssignCalls(p, targets, value, st);
    case If(_, body, orelse) => BlockUses(p, body, st); BlockUses(p, orelse, st);
    case Try(body, handlers, orelse, finalbody) =>
      BlockUses(p, body, st);
      var r := ExecBlock(p, body, st);
      if r.Normal? {
        BlockUses(p, orelse, r.state);
        BlockUses(p, finalbody, ExecBlock(p, orelse, r.state).state);
      } else {
        HandlersUse(p, handlers, r.exc, r.state);
        BlockUses(p, finalbody, ExecHandlers(p, handlers, r.exc, r.state).state);
      }
    case _ =>
  }

  lemma {:induction false} HandlersUse(p: Python, hs: seq<Handler>, x: Exc, st: State)
    ensures st.run.calls <= ExecHandlers(p, hs, x, st).state.run.calls <= st.run.calls + HandlerCalls(hs)
    decreases hs, 0
  {
    if hs != [] {
      HandlersUse(p, hs[1..], x, st);
      HandlerBodyUses(p, hs[0].name, hs[0].body, x, st);
    }
  }

  lemma {:induction false} HandlerBodyUses(p: Python, name: Option<string>, body: seq<Stmt>, x: Exc, st: State)
    ensures st.run.calls <= ExecHandlerBody(p, name, body, x, st).state.run.calls <= st.run.calls + BlockCalls(body)
    decreases body, 1
  {
    match name
    case None => BlockUses(p, body, st);
    case Some(id) => BlockUses(p, body, st.(env := st.env[id := Caught(x)]));
  }
}
