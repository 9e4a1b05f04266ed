/**
 The early-read pass preserves the meaning of every program in which no early call uses a
 keyword argument called `self`, `handle` or `name`, as long as the call budget is enough. It is
 if no path through the program makes more than 1024 tool calls; and also if the program, run
 without early reads, makes at most 960, or if it makes fewer than 1024 with them.
 */
module EarlyReadCorrect {
  import opened Options
  import opened PythonAst
  import opened RunFutures
  import opened EarlyReadPass
  import opened GuestSemantics
  import opened EvalFrame
  import opened CallBudget
  import opened GroupProtocol
  import opened GroupExecution

  // ---------------------------------------------------- free of the reserved keywords

  predicate BlockFree(c: Context, body: seq<Stmt>)
    decreases body, 0
  {
    body == [] || (StmtFree(c, body[0]) && BlockFree(c, body[1..]))
  }

  predicate StmtFree(c: Context, s: Stmt)
    decreases s, 1
  {
    match s
    case Assign(_, value) => EarlyCall(c, value) ==> FreeOfReserved(value.keywords)
    case If(_, body, orelse) => BlockFree(c, body) && BlockFree(c, orelse)
    case Try(body, handlers, orelse, finalbody) =>
      BlockFree(c, body) && HandlersFree(c, handlers) && BlockFree(c, orelse) && BlockFree(c, finalbody)
    case _ => true
  }

  predicate HandlersFree(c: Context, hs: seq<Handler>)
    decreases hs, 0
  {
    hs == [] || (BlockFree(c, hs[0].body) && HandlersFree(c, hs[1..]))
  }

  // --------------------------------------------------------------------- fresh names

  lemma {:induction false} SlotsAreFresh(n: nat, names: set<string>)
    ensures forall k :: 0 <= k < n ==> Slots(n, names)[k] !in names
    ensures forall k, l :: 0 <= k < l < n ==> Slots(n, names)[k] != Slots(n, names)[l]
  {
    if n > 0 {
      var slot := Fresh(names, FUTURE);
      SlotsAreFresh(n - 1, names + {slot});
    }
  }

  /** Names are only added, and every added name is that of a future's slot. */
  ghost predicate AddsFutures(names: set<string>, names': set<string>) {
    && names <= names'
    && forall n :: n in names' && n !in names ==> FUTURE <= n
  }

  lemma SlotsAddFutures(n: nat, names: set<string>)
    ensures AddsFutures(names, names + SlotSet(Slots(n, names)))
  {
  }

  lemma {:induction false} RewriteAddsNames(c: Context, h: Helpers, body: seq<Stmt>, names: set<string>)
    requires BlockOk(c, body)
    ensures AddsFutures(names, Rewrite(c, h, body, names).names)
    decreases body, 0
  {
    if body == [] {
    } else if EarlyAssign(c, body[0]) {
      var n := GroupLength(c, body);
      OkSuffix(c, body, n);
      SlotsAddFutures(n, names);
      RewriteAddsNames(c, h, body[n..], names + SlotSet(Slots(n, names)));
    } else {
      RewriteStmtAddsNames(c, h, body[0], names);
      RewriteAddsNames(c, h, body[1..], RewriteStmt(c, h, body[0], names).names);
    }
  }

  lemma {:induction false} RewriteStmtAddsNames(c: Context, h: Helpers, s: Stmt, names: set<string>)
    requires StmtOk(c, s)
    ensures AddsFutures(names, RewriteStmt(c, h, s, names).names)
    decreases s, 1
  {
    match s
    case If(_, body, orelse) =>
      RewriteAddsNames(c, h, body, names);
      RewriteAddsNames(c, h, orelse, Rewrite(c, h, body, names).names);
    case Try(body, handlers, orelse, finalbody) =>
      var b := Rewrite(c, h, body, names);
      var e := Rewrite(c, h, orelse, b.names);
      var f := Rewrite(c, h, finalbody, e.names);
      RewriteAddsNames(c, h, body, names);
      RewriteAddsNames(c, h, orelse, b.names);
      RewriteAddsNames(c, h, finalbody, e.names);
      RewriteHandlersAddsNames(c, h, handlers, f.names);
    case _ =>
  }

  lemma {:induction false} RewriteHandlersAddsNames(c: Context, h: Helpers, hs: seq<Handler>, names: set<string>)
    requires HandlersOk(c, hs)
    ensures AddsFutures(names, RewriteHandlers(c, h, hs, names).names)
    decreases hs, 0
  {
    if hs != [] {
      RewriteAddsNames(c, h, hs[0].body, names);
      RewriteHandlersAddsNames(c, h, hs[1..], Rewrite(c, h, hs[0].body, names).names);
    }
  }

  lemma {:induction false} StmtInBlock(c: Context, body: seq<Stmt>, k: nat)
    requires k < |body| && BlockOk(c, body) && BlockFree(c, body)
    ensures StmtNames(body[k]) <= BlockNames(body)
    ensures StmtOk(c, body[k]) && StmtFree(c, body[k])
  {
    if k > 0 { StmtInBlock(c, body[1..], k - 1); }
  }

  lemma {:induction false} SplitBlock(c: Context, body: seq<Stmt>, n: nat)
    requires n <= |body| && BlockOk(c, body) && BlockFree(c, body)
    requires forall k :: 0 <= k < n ==> body[k].Assign? && body[k].value.Call?
    ensures BlockOk(c, body[n..]) && BlockFree(c, body[n..])
    ensures BlockNames(body[n..]) <= BlockNames(body)
    ensures BlockCalls(body) == n + BlockCalls(body[n..])
  {
    if n > 0 {
      SplitBlock(c, body[1..], n - 1);
      assert body[n..] == body[1..][n - 1..];
    }
  }

  // -------------------------------------------------------------------- simulation

  /** What every block, statement and handler list of an accepted program is given. */
  ghost predicate Setting(p: Python, c: Context, h: Helpers, hidden: set<string>, names: set<string>) {
    && c.manifest == p.host.manifest
    && h.prepare in hidden && h.resolve in hidden
    && h.prepare in names && h.resolve in names
  }

  ghost predicate Simulates(p: Python, h: Helpers, hidden: set<string>, limit: nat, o: Outcome, t: Outcome) {
    SameOutcome(p.host.manifest, h, hidden, o, t) && t.state.run.calls <= limit
  }

  lemma LoadedAreNames(s: Stmt)
    requires s.Assign? && s.value.Call?
    ensures Loaded(s) <= Names(s.value)
  {
  }

  lemma GroupSlots(p: Python, c: Context, h: Helpers, hidden: set<string>, names: set<string>, body: seq<Stmt>, n: nat)
    requires Setting(p, c, h, hidden, names)
    requires BlockOk(c, body) && BlockFree(c, body) && BlockNames(body) !! hidden
    requires n <= GroupLength(c, body)
    requires SlotSet(Slots(n, names)) <= hidden
    ensures GroupWithSlots(p, c, h, hidden, body[..n], Slots(n, names))
  {
    var g, slots := body[..n], Slots(n, names);
    OkPrefixIsGroup(c, body, n);
    SlotsAreFresh(n, names);
    forall k | 0 <= k < n
      ensures EarlyStmt(p, c, g[k]) && FreeOfReserved(g[k].value.keywords)
      ensures Target(g[k]) !in hidden && Loaded(g[k]) !! hidden && !IsToolRoot(c.manifest, Target(g[k]))
    {
      StmtInBlock(c, body, k);
      assert g[k].targets[0] == Name(Target(g[k]));
      assert NamesOfAll(g[k].targets) == {Target(g[k])};
      LoadedAreNames(g[k]);
    }
    forall k | 0 <= k < n ensures slots[k] in hidden && slots[k] != h.prepare && slots[k] != h.resolve {
      assert slots[k] in SlotSet(slots);
    }
  }

  lemma AgreeOnVisible(hidden: set<string>, names: set<string>, a: Env, b: Env)
    requires forall id :: id !in hidden ==> SameAt(a, b, id)
    requires names !! hidden
    ensures AgreeOn(a, b, names)
  {
    forall id | id in names ensures SameAt(a, b, id) {
      assert id !in hidden;
    }
  }

  /** A tool call that is not an early read does the same in both runs. */
  lemma OtherCallSimulated(p: Python, c: Context, h: Helpers, hidden: set<string>, e: Expr, so: State, st: State)
    requires c.manifest == p.host.manifest && ToolCall(c, e) && !EarlyCall(c, e)
    requires Names(e) !! hidden
    requires Related(p.host.manifest, h, hidden, so, st)
    requires Room(st.run.calls + 1, EvalCall(p, e.func, e.args, e.keywords, so).1, EvalCall(p, e.func, e.args, e.keywords, st).1)
    ensures var (o, ro) := EvalCall(p, e.func, e.args, e.keywords, so);
      var (t, rt) := EvalCall(p, e.func, e.args, e.keywords, st);
      && o == t
      && Related(p.host.manifest, h, hidden, so.(run := ro), st.(run := rt))
      && rt.calls <= st.run.calls + 1
  {
    AgreeOnVisible(hidden, Names(e.func), so.env, st.env);
    AgreeOnVisible(hidden, KeywordNames(e.keywords), so.env, st.env);
    EvalFuncSame(p, e.func, so.env, st.env);
    EvalKeywordsSame(p, e.keywords, so.env, st.env);
    ToolValue(p, c, e, so.env);
    var args, tool := EvalKeywords(p, e.keywords, so.env), ToolName(c, e).value;
    ToolCallSends(p, e, tool, so);
    ToolCallSends(p, e, tool, st);
    SendSimulated(p, h, hidden, tool, e.keywords, args, so, st);
  }

  /** A tool call, once its function and its arguments are known. */
  ghost function Send(p: Python, tool: string, kws: seq<Keyword>, args: Result<Value>, run: Run): (Result<Value>, Run) {
    match args
    case Raise(x) => (Raise(x), run)
    case Ok(v) => if HasKeyword(kws, "self") then (Raise(Twice("self")), run) else InvokeTool(p, tool, v, run)
  }

  lemma ToolCallSends(p: Python, e: Expr, tool: string, st: State)
    requires e.Call? && e.args == []
    requires EvalFunc(p, e.func, st.env).Ok? && EvalFunc(p, e.func, st.env).value.Exported?
    requires ToolAt(p.host.manifest, EvalFunc(p, e.func, st.env).value.path) == Some(tool)
    ensures EvalCall(p, e.func, e.args, e.keywords, st) == Send(p, tool, e.keywords, EvalKeywords(p, e.keywords, st.env), st.run)
  {
  }

  lemma SendSimulated(p: Python, h: Helpers, hidden: set<string>, tool: string, kws: seq<Keyword>, args: Result<Value>, so: State, st: State)
    requires Related(p.host.manifest, h, hidden, so, st)
    requires Room(st.run.calls + 1, Send(p, tool, kws, args, so.run).1, Send(p, tool, kws, args, st.run).1)
    ensures var o, t := Send(p, tool, kws, args, so.run), Send(p, tool, kws, args, st.run);
      && o.0 == t.0
      && Related(p.host.manifest, h, hidden, so.(run := o.1), st.(run := t.1))
      && t.1.calls <= st.run.calls + 1
  {
    if args.Ok? && !HasKeyword(kws, "self") && p.encode(tool, args.value).Encoded? {
      InvokeSimulated(p, h, hidden, Request(tool, p.encode(tool, args.value).args), so, st);
    }
  }

  lemma InvokeSimulated(p: Python, h: Helpers, hidden: set<string>, request: Request, so: State, st: State)
    requires Related(p.host.manifest, h, hidden, so, st)
    requires Room(st.run.calls + 1, Invoke(p.host, so.run, request).1, Invoke(p.host, st.run, request).1)
    ensures var o, t := Invoke(p.host, so.run, request), Invoke(p.host, st.run, request);
      && o.0 == t.0
      && Related(p.host.manifest, h, hidden, so.(run := o.1), st.(run := t.1))
      && t.1.calls <= st.run.calls + 1
  {
  }

  /** Both runs bind the same value, or both raise. */
  lemma BindingSimulated(p: Python, c: Context, h: Helpers, hidden: set<string>, s: Stmt, r: Result<Value>,
                         so: State, st: State, ro: Run, rt: Run)
    requires c.manifest == p.host.manifest && h.prepare in hidden && h.resolve in hidden
    requires s.Assign? && StmtOk(c, s) && StmtNames(s) !! hidden
    requires Related(p.host.manifest, h, hidden, so, st)
    requires Related(p.host.manifest, h, hidden, so.(run := ro), st.(run := rt))
    ensures SameOutcome(p.host.manifest, h, hidden, Bound(s, r, so, ro), Bound(s, r, st, rt))
  {
    var target := s.targets[0].id;
    assert s.targets[0] == Name(target) && target in NamesOfAll(s.targets);
    if r.Ok? { AssignKeepsRelated(p.host, h, hidden, target, r.value, so, st, ro, rt); }
  }

  /** An assignment to one name, once its value is known. */
  ghost function Bound(s: Stmt, r: Result<Value>, st: State, run: Run): Outcome
    requires s.Assign? && |s.targets| == 1 && s.targets[0].Name?
  {
    match r
    case Raise(x) => Raised(x, st.(run := run))
    case Ok(v) => Normal(State(st.env[s.targets[0].id := v], run))
  }

  lemma AssignRuns(p: Python, s: Stmt, st: State)
    requires s.Assign? && |s.targets| == 1 && s.targets[0].Name?
    ensures s.value.Call? ==>
      var r := EvalCall(p, s.value.func, s.value.args, s.value.keywords, st);
      ExecStmt(p, s, st) == Bound(s, r.0, st, r.1) && ExecStmt(p, s, st).state.run == r.1
    ensures !s.value.Call? ==> ExecStmt(p, s, st) == Bound(s, Eval(p, s.value, st.env), st, st.run)
  {
  }

  lemma AssignSimulated(p: Python, c: Context, h: Helpers, hidden: set<string>, s: Stmt, so: State, st: State)
    requires c.manifest == p.host.manifest && h.prepare in hidden && h.resolve in hidden
    requires s.Assign? && StmtOk(c, s) && !EarlyAssign(c, s) && StmtNames(s) !! hidden
    requires Related(p.host.manifest, h, hidden, so, st)
    requires Room(st.run.calls + StmtCalls(s), ExecStmt(p, s, so).state.run, ExecStmt(p, s, st).state.run)
    ensures Simulates(p, h, hidden, st.run.calls + StmtCalls(s), ExecStmt(p, s, so), ExecStmt(p, s, st))
  {
    AssignRuns(p, s, so);
    AssignRuns(p, s, st);
    if s.value.Call? {
      CallAssignSimulated(p, c, h, hidden, s, so, st);
    } else {
      AgreeOnVisible(hidden, Names(s.value), so.env, st.env);
      EvalSame(p, s.value, so.env, st.env);
      BindingSimulated(p, c, h, hidden, s, Eval(p, s.value, so.env), so, st, so.run, st.run);
    }
  }

  lemma CallAssignSimulated(p: Python, c: Context, h: Helpers, hidden: set<string>, s: Stmt, so: State, st: State)
    requires c.manifest == p.host.manifest && h.prepare in hidden && h.resolve in hidden
    requires s.Assign? && s.value.Call? && StmtOk(c, s) && !EarlyCall(c, s.value) && StmtNames(s) !! hidden
    requires Related(p.host.manifest, h, hidden, so, st)
    requires Room(st.run.calls + 1, EvalCall(p, s.value.func, s.value.args, s.value.keywords, so).1,
      EvalCall(p, s.value.func, s.value.args, s.value.keywords, st).1)
    ensures var o := EvalCall(p, s.value.func, s.value.args, s.value.keywords, so);
      var t := EvalCall(p, s.value.func, s.value.args, s.value.keywords, st);
      SameOutcome(p.host.manifest, h, hidden, Bound(s, o.0, so, o.1), Bound(s, t.0, st, t.1)) && t.1.calls <= st.run.calls + 1
  {
    var o := EvalCall(p, s.value.func, s.value.args, s.value.keywords, so);
    var t := EvalCall(p, s.value.func, s.value.args, s.value.keywords, st);
    assert !Data(c, s.value);
    OtherCallSimulated(p, c, h, hidden, s.value, so, st);
    BindingSimulated(p, c, h, hidden, s, o.0, so, st, o.1, t.1);
  }

  /** A block that begins with a group of `n` statements: the slots of the group. */
  lemma HeadSlots(p: Python, c: Context, h: Helpers, hidden: set<string>, body: seq<Stmt>, n: nat, names: set<string>)
    requires Setting(p, c, h, hidden, names)
    requires BlockOk(c, body) && BlockFree(c, body) && BlockNames(body) !! hidden
    requires body != [] && EarlyAssign(c, body[0]) && n == GroupLength(c, body) && BlockOk(c, body[n..])
    requires Rewrite(c, h, body, names).names - names <= hidden
    ensures var slots := Slots(n, names);
      && GroupWithSlots(p, c, h, hidden, body[..n], slots)
      && Setting(p, c, h, hidden, names + SlotSet(slots))
      && Rewrite(c, h, body[n..], names + SlotSet(slots)).names - (names + SlotSet(slots)) <= hidden
      && Rewrite(c, h, body, names).code == RewriteGroup(c, h, body[..n], slots) + Rewrite(c, h, body[n..], names + SlotSet(slots)).code
  {
    var slots := Slots(n, names);
    var names' := names + SlotSet(slots);
    RewriteAddsNames(c, h, body[n..], names');
    SlotsAreFresh(n, names);
    OkPrefixIsGroup(c, body, n);
    assert Rewrite(c, h, body, names).names == Rewrite(c, h, body[n..], names').names;
    assert SlotSet(slots) <= hidden;
    GroupSlots(p, c, h, hidden, names, body, n);
  }

  lemma HeadRuns(p: Python, body: seq<Stmt>, n: nat, so: State)
    requires n <= |body|
    ensures var o := ExecBlock(p, body[..n], so);
      && ExecBlock(p, body, so) == (if o.Normal? then ExecBlock(p, body[n..], o.state) else o)
      && o.state.run.calls <= ExecBlock(p, body, so).state.run.calls
  {
    assert body == body[..n] + body[n..];
    ExecAppend(p, body[..n], body[n..], so);
    var o := ExecBlock(p, body[..n], so);
    if o.Normal? { BlockUses(p, body[n..], o.state); }
  }

  lemma HeadSimulated(p: Python, c: Context, h: Helpers, hidden: set<string>, body: seq<Stmt>, n: nat, slots: seq<string>,
                      rest: seq<Stmt>, so: State, st: State)
    requires n <= |body| && GroupWithSlots(p, c, h, hidden, body[..n], slots)
    requires h.prepare in hidden && h.resolve in hidden
    requires BlockCalls(body) == n + BlockCalls(body[n..])
    requires Related(p.host.manifest, h, hidden, so, st)
    requires Room(st.run.calls + BlockCalls(body), ExecBlock(p, body, so).state.run,
      ExecBlock(p, RewriteGroup(c, h, body[..n], slots) + rest, st).state.run)
    ensures var o, t := ExecBlock(p, body[..n], so), ExecBlock(p, RewriteGroup(c, h, body[..n], slots), st);
      && Simulates(p, h, hidden, st.run.calls + n, o, t)
      && (o.Normal? ==> Room(t.state.run.calls + BlockCalls(body[n..]), ExecBlock(p, body[n..], o.state).state.run,
            ExecBlock(p, rest, t.state).state.run))
      && ExecBlock(p, body, so) == (if o.Normal? then ExecBlock(p, body[n..], o.state) else o)
      && ExecBlock(p, RewriteGroup(c, h, body[..n], slots) + rest, st) == (if t.Normal? then ExecBlock(p, rest, t.state) else t)
  {
    var code := RewriteGroup(c, h, body[..n], slots);
    HeadRuns(p, body, n, so);
    HeadRuns(p, code + rest, |code|, st);
    assert (code + rest)[..|code|] == code && (code + rest)[|code|..] == rest;
    GroupPreserved(p, c, h, hidden, body[..n], slots, so, st);
  }

  lemma {:induction false} BlockSimulated(p: Python, c: Context, h: Helpers, hidden: set<string>, body: seq<Stmt>, names: set<string>, so: State, st: State)
    requires Setting(p, c, h, hidden, names)
    requires BlockOk(c, body) && BlockFree(c, body) && BlockNames(body) !! hidden
    requires Rewrite(c, h, body, names).names - names <= hidden
    requires Related(p.host.manifest, h, hidden, so, st)
    requires Room(st.run.calls + BlockCalls(body), ExecBlock(p, body, so).state.run,
      ExecBlock(p, Rewrite(c, h, body, names).code, st).state.run)
    ensures Simulates(p, h, hidden, st.run.calls + BlockCalls(body),
      ExecBlock(p, body, so), ExecBlock(p, Rewrite(c, h, body, names).code, st))
    decreases body, 1
  {
    if body != [] {
      if EarlyAssign(c, body[0]) { GroupFirst(p, c, h, hidden, body, names, so, st); }
      else { StmtFirst(p, c, h, hidden, body, names, so, st); }
    }
  }

  lemma {:induction false} GroupFirst(p: Python, c: Context, h: Helpers, hidden: set<string>, body: seq<Stmt>, names: set<string>, so: State, st: State)
    requires Setting(p, c, h, hidden, names)
    requires BlockOk(c, body) && BlockFree(c, body) && BlockNames(body) !! hidden
    requires Rewrite(c, h, body, names).names - names <= hidden
    requires Related(p.host.manifest, h, hidden, so, st)
    requires body != [] && EarlyAssign(c, body[0])
    requires Room(st.run.calls + BlockCalls(body), ExecBlock(p, body, so).state.run,
      ExecBlock(p, Rewrite(c, h, body, names).code, st).state.run)
    ensures Simulates(p, h, hidden, st.run.calls + BlockCalls(body),
      ExecBlock(p, body, so), ExecBlock(p, Rewrite(c, h, body, names).code, st))
    decreases body, 0
  {
    var n := GroupLength(c, body);
    var slots := Slots(n, names);
    var names' := names + SlotSet(slots);
    SplitBlock(c, body, n);
    HeadSlots(p, c, h, hidden, body, n, names);
    var code, rest := RewriteGroup(c, h, body[..n], slots), Rewrite(c, h, body[n..], names');
    HeadSimulated(p, c, h, hidden, body, n, slots, rest.code, so, st);
    var o, t := ExecBlock(p, body[..n], so), ExecBlock(p, code, st);
    if o.Normal? {
      BlockSimulated(p, c, h, hidden, body[n..], names', o.state, t.state);
    }
  }

  lemma {:induction false} StmtFirst(p: Python, c: Context, h: Helpers, hidden: set<string>, body: seq<Stmt>, names: set<string>, so: State, st: State)
    requires Setting(p, c, h, hidden, names)
    requires BlockOk(c, body) && BlockFree(c, body) && BlockNames(body) !! hidden
    requires Rewrite(c, h, body, names).names - names <= hidden
    requires Related(p.host.manifest, h, hidden, so, st)
    requires body != [] && !EarlyAssign(c, body[0])
    requires Room(st.run.calls + BlockCalls(body), ExecBlock(p, body, so).state.run,
      ExecBlock(p, Rewrite(c, h, body, names).code, st).state.run)
    ensures Simulates(p, h, hidden, st.run.calls + BlockCalls(body),
      ExecBlock(p, body, so), ExecBlock(p, Rewrite(c, h, body, names).code, st))
    decreases body, 0
  {
    var first := RewriteStmt(c, h, body[0], names);
    var rest := Rewrite(c, h, body[1..], first.names);
    RewriteStmtAddsNames(c, h, body[0], names);
    RewriteAddsNames(c, h, body[1..], first.names);
    ConsRuns(p, body[0], body[1..], so);
    ConsRuns(p, first.code, rest.code, st);
    assert body == [body[0]] + body[1..];
    StmtSimulated(p, c, h, hidden, body[0], names, so, st);
    var o, t := ExecStmt(p, body[0], so), ExecStmt(p, first.code, st);
    if o.Normal? {
      BlockSimulated(p, c, h, hidden, body[1..], first.names, o.state, t.state);
    }
  }

  lemma ConsRuns(p: Python, s: Stmt, rest: seq<Stmt>, st: State)
    ensures var o := ExecStmt(p, s, st);
      && ExecBlock(p, [s] + rest, st) == (if o.Normal? then ExecBlock(p, rest, o.state) else o)
      && o.state.run.calls <= ExecBlock(p, [s] + rest, st).state.run.calls
  {
    ExecCons(p, s, rest, st);
    var o := ExecStmt(p, s, st);
    if o.Normal? { BlockUses(p, rest, o.state); }
  }

  lemma {:induction false} StmtSimulated(p: Python, c: Context, h: Helpers, hidden: set<string>, s: Stmt, names: set<string>, so: State, st: State)
    requires Setting(p, c, h, hidden, names)
    requires StmtOk(c, s) && StmtFree(c, s) && StmtNames(s) !! hidden && !EarlyAssign(c, s)
    requires RewriteStmt(c, h, s, names).names - names <= hidden
    requires Related(p.host.manifest, h, hidden, so, st)
    requires Room(st.run.calls + StmtCalls(s), ExecStmt(p, s, so).state.run,
      ExecStmt(p, RewriteStmt(c, h, s, names).code, st).state.run)
    ensures Simulates(p, h, hidden, st.run.calls + StmtCalls(s),
      ExecStmt(p, s, so), ExecStmt(p, RewriteStmt(c, h, s, names).code, st))
    decreases s, 2
  {
    match s
    case Assign(_, _) => AssignSimulated(p, c, h, hidden, s, so, st);
    case If(test, body, orelse) =>
      var b := Rewrite(c, h, body, names);
      RewriteAddsNames(c, h, body, names);
      RewriteAddsNames(c, h, orelse, b.names);
      AgreeOnVisible(hidden, Names(test), so.env, st.env);
      EvalSame(p, test, so.env, st.env);
      var v := Eval(p, test, so.env);
      if v.Ok? {
        if p.truthy(v.value) { BlockSimulated(p, c, h, hidden, body, names, so, st); }
        else { BlockSimulated(p, c, h, hidden, orelse, b.names, so, st); }
      }
    case Try(_, _, _, _) => TrySimulated(p, c, h, hidden, s, names, so, st);
    case _ =>
  }

  /** The parts of a `try` statement never take back a call of the budget. */
  lemma GuardedUses(p: Python, s: Stmt, st: State)
    requires s.Try?
    ensures ExecBlock(p, s.body, st).state.run.calls <= Guarded(p, s.body, s.handlers, s.orelse, st).state.run.calls
  {
    var o := ExecBlock(p, s.body, st);
    if o.Normal? { BlockUses(p, s.orelse, o.state); } else { HandlersUse(p, s.handlers, o.exc, o.state); }
  }

  lemma TryRunsGuarded(p: Python, s: Stmt, st: State)
    requires s.Try?
    ensures var guarded := Guarded(p, s.body, s.handlers, s.orelse, st);
      var end := ExecBlock(p, s.finalbody, guarded.state);
      && ExecStmt(p, s, st) == (if end.Raised? then end else guarded.(state := end.state))
      && guarded.state.run.calls <= end.state.run.calls
  {
    BlockUses(p, s.finalbody, Guarded(p, s.body, s.handlers, s.orelse, st).state);
  }

  lemma {:induction false} FinallySimulated(p: Python, c: Context, h: Helpers, hidden: set<string>, s: Stmt, names: set<string>, so: State, st: State)
    requires Setting(p, c, h, hidden, names)
    requires s.Try? && StmtOk(c, s) && StmtFree(c, s) && StmtNames(s) !! hidden
    requires RewriteStmt(c, h, s, names).names - names <= hidden
    requires Related(p.host.manifest, h, hidden, so, st)
    requires Room(st.run.calls + BlockCalls(s.finalbody), ExecBlock(p, s.finalbody, so).state.run,
      ExecBlock(p, RewriteStmt(c, h, s, names).code.finalbody, st).state.run)
    ensures Simulates(p, h, hidden, st.run.calls + BlockCalls(s.finalbody), ExecBlock(p, s.finalbody, so),
      ExecBlock(p, RewriteStmt(c, h, s, names).code.finalbody, st))
    decreases s.finalbody, 2
  {
    TryNames(c, h, hidden, s, names);
    var e := Rewrite(c, h, s.orelse, Rewrite(c, h, s.body, names).names);
    BlockSimulated(p, c, h, hidden, s.finalbody, e.names, so, st);
  }

  /** The names that the parts of a `try` statement add, one part after the other. */
  lemma TryNames(c: Context, h: Helpers, hidden: set<string>, s: Stmt, names: set<string>)
    requires s.Try? && StmtOk(c, s) && RewriteStmt(c, h, s, names).names - names <= hidden
    ensures var b := Rewrite(c, h, s.body, names);
      var e := Rewrite(c, h, s.orelse, b.names);
      var f := Rewrite(c, h, s.finalbody, e.names);
      var hs := RewriteHandlers(c, h, s.handlers, f.names);
      && names <= b.names <= e.names <= f.names
      && b.names - names <= hidden && e.names - b.names <= hidden
      && f.names - e.names <= hidden && hs.names - f.names <= hidden
  {
    var b := Rewrite(c, h, s.body, names);
    var e := Rewrite(c, h, s.orelse, b.names);
    var f := Rewrite(c, h, s.finalbody, e.names);
    RewriteAddsNames(c, h, s.body, names);
    RewriteAddsNames(c, h, s.orelse, b.names);
    RewriteAddsNames(c, h, s.finalbody, e.names);
    RewriteHandlersAddsNames(c, h, s.handlers, f.names);
  }

  /** A `try` statement without its `finally` part. */
  ghost function Guarded(p: Python, body: seq<Stmt>, handlers: seq<Handler>, orelse: seq<Stmt>, st: State): Outcome {
    match ExecBlock(p, body, st)
    case Normal(st') => ExecBlock(p, orelse, st')
    case Raised(x, st') => ExecHandlers(p, handlers, x, st')
  }

  lemma {:induction false} GuardedSimulated(p: Python, c: Context, h: Helpers, hidden: set<string>, s: Stmt, names: set<string>, so: State, st: State)
    requires Setting(p, c, h, hidden, names)
    requires s.Try? && StmtOk(c, s) && StmtFree(c, s) && StmtNames(s) !! hidden
    requires RewriteStmt(c, h, s, names).names - names <= hidden
    requires Related(p.host.manifest, h, hidden, so, st)
    requires Room(st.run.calls + BlockCalls(s.body) + Max(BlockCalls(s.orelse), HandlerCalls(s.handlers)),
      Guarded(p, s.body, s.handlers, s.orelse, so).state.run, GuardedCode(p, c, h, s, names, st).state.run)
    ensures Simulates(p, h, hidden, st.run.calls + BlockCalls(s.body) + Max(BlockCalls(s.orelse), HandlerCalls(s.handlers)),
      Guarded(p, s.body, s.handlers, s.orelse, so), GuardedCode(p, c, h, s, names, st))
    decreases s, 0
  {
    TryNames(c, h, hidden, s, names);
    GuardedUses(p, s, so);
    var code := RewriteStmt(c, h, s, names).code;
    GuardedUses(p, code, st);
    BlockSimulated(p, c, h, hidden, s.body, names, so, st);
    var o, t := ExecBlock(p, s.body, so), ExecBlock(p, code.body, st);
    if o.Normal? { OrElseSimulated(p, c, h, hidden, s, names, o.state, t.state); }
    else { RaisedSimulated(p, c, h, hidden, s, names, o.exc, o.state, t.state); }
  }

  ghost function GuardedCode(p: Python, c: Context, h: Helpers, s: Stmt, names: set<string>, st: State): Outcome
    requires s.Try? && StmtOk(c, s)
  {
    var code := RewriteStmt(c, h, s, names).code;
    Guarded(p, code.body, code.handlers, code.orelse, st)
  }

  lemma {:induction false} OrElseSimulated(p: Python, c: Context, h: Helpers, hidden: set<string>, s: Stmt, names: set<string>, so: State, st: State)
    requires Setting(p, c, h, hidden, names)
    requires s.Try? && StmtOk(c, s) && StmtFree(c, s) && StmtNames(s) !! hidden
    requires RewriteStmt(c, h, s, names).names - names <= hidden
    requires Related(p.host.manifest, h, hidden, so, st)
    requires Room(st.run.calls + BlockCalls(s.orelse), ExecBlock(p, s.orelse, so).state.run,
      ExecBlock(p, RewriteStmt(c, h, s, names).code.orelse, st).state.run)
    ensures Simulates(p, h, hidden, st.run.calls + BlockCalls(s.orelse), ExecBlock(p, s.orelse, so),
      ExecBlock(p, RewriteStmt(c, h, s, names).code.orelse, st))
    decreases s.orelse, 2
  {
    TryNames(c, h, hidden, s, names);
    BlockSimulated(p, c, h, hidden, s.orelse, Rewrite(c, h, s.body, names).names, so, st);
  }

  lemma {:induction false} RaisedSimulated(p: Python, c: Context, h: Helpers, hidden: set<string>, s: Stmt, names: set<string>, x: Exc, so: State, st: State)
    requires Setting(p, c, h, hidden, names)
    requires s.Try? && StmtOk(c, s) && StmtFree(c, s) && StmtNames(s) !! hidden
    requires RewriteStmt(c, h, s, names).names - names <= hidden
    requires Related(p.host.manifest, h, hidden, so, st)
    requires Room(st.run.calls + HandlerCalls(s.handlers), ExecHandlers(p, s.handlers, x, so).state.run,
      ExecHandlers(p, RewriteStmt(c, h, s, names).code.handlers, x, st).state.run)
    ensures Simulates(p, h, hidden, st.run.calls + HandlerCalls(s.handlers), ExecHandlers(p, s.handlers, x, so),
      ExecHandlers(p, RewriteStmt(c, h, s, names).code.handlers, x, st))
    decreases s.handlers, 2
  {
    TryNames(c, h, hidden, s, names);
    var e := Rewrite(c, h, s.orelse, Rewrite(c, h, s.body, names).names);
    HandlersSimulated(p, c, h, hidden, s.handlers, Rewrite(c, h, s.finalbody, e.names).names, x, so, st);
  }

  lemma {:induction false} TrySimulated(p: Python, c: Context, h: Helpers, hidden: set<string>, s: Stmt, names: set<string>, so: State, st: State)
    requires Setting(p, c, h, hidden, names)
    requires s.Try? && StmtOk(c, s) && StmtFree(c, s) && StmtNames(s) !! hidden
    requires RewriteStmt(c, h, s, names).names - names <= hidden
    requires Related(p.host.manifest, h, hidden, so, st)
    requires Room(st.run.calls + StmtCalls(s), ExecStmt(p, s, so).state.run,
      ExecStmt(p, RewriteStmt(c, h, s, names).code, st).state.run)
    ensures Simulates(p, h, hidden, st.run.calls + StmtCalls(s),
      ExecStmt(p, s, so), ExecStmt(p, RewriteStmt(c, h, s, names).code, st))
    decreases s, 1
  {
    var code := RewriteStmt(c, h, s, names).code;
    TryRunsGuarded(p, s, so);
    TryRunsGuarded(p, code, st);
    GuardedSimulated(p, c, h, hidden, s, names, so, st);
    var o, t := Guarded(p, s.body, s.handlers, s.orelse, so), GuardedCode(p, c, h, s, names, st);
    FinallySimulated(p, c, h, hidden, s, names, o.state, t.state);
  }

  lemma {:induction false} HandlersSimulated(p: Python, c: Context, h: Helpers, hidden: set<string>, hs: seq<Handler>,
                                             names: set<string>, x: Exc, so: State, st: State)
    requires Setting(p, c, h, hidden, names)
    requires HandlersOk(c, hs) && HandlersFree(c, hs) && HandlerNames(hs) !! hidden
    requires RewriteHandlers(c, h, hs, names).names - names <= hidden
    requires Related(p.host.manifest, h, hidden, so, st)
    requires Room(st.run.calls + HandlerCalls(hs), ExecHandlers(p, hs, x, so).state.run,
      ExecHandlers(p, RewriteHandlers(c, h, hs, names).code, x, st).state.run)
    ensures Simulates(p, h, hidden, st.run.calls + HandlerCalls(hs),
      ExecHandlers(p, hs, x, so), ExecHandlers(p, RewriteHandlers(c, h, hs, names).code, x, st))
    decreases hs, 1
  {
    if hs != [] {
      MatchSimulated(p, h, hidden, hs[0].kind, x, so, st);
      var matched := HandlerMatches(p, hs[0].kind, x, so.env);
      if matched.Raise? { RewrittenHandlersRun(p, c, h, hs, names, x, st); }
      else if matched.value { FirstHandlerSimulated(p, c, h, hidden, hs, names, x, so, st); }
      else { OtherHandlersSimulated(p, c, h, hidden, hs, names, x, so, st); }
    }
  }

  lemma {:induction false} FirstHandlerSimulated(p: Python, c: Context, h: Helpers, hidden: set<string>, hs: seq<Handler>,
                                                 names: set<string>, x: Exc, so: State, st: State)
    requires Setting(p, c, h, hidden, names)
    requires HandlersOk(c, hs) && HandlersFree(c, hs) && HandlerNames(hs) !! hidden
    requires RewriteHandlers(c, h, hs, names).names - names <= hidden
    requires Related(p.host.manifest, h, hidden, so, st)
    requires hs != [] && HandlerMatches(p, hs[0].kind, x, so.env) == HandlerMatches(p, hs[0].kind, x, st.env) == Ok(true)
    requires Room(st.run.calls + HandlerCalls(hs), ExecHandlers(p, hs, x, so).state.run,
      ExecHandlers(p, RewriteHandlers(c, h, hs, names).code, x, st).state.run)
    ensures Simulates(p, h, hidden, st.run.calls + HandlerCalls(hs),
      ExecHandlers(p, hs, x, so), ExecHandlers(p, RewriteHandlers(c, h, hs, names).code, x, st))
    decreases hs, 0
  {
    var b := Rewrite(c, h, hs[0].body, names);
    RewriteAddsNames(c, h, hs[0].body, names);
    RewriteHandlersAddsNames(c, h, hs[1..], b.names);
    RewrittenHandlersRun(p, c, h, hs, names, x, st);
    HandlerBodySimulated(p, c, h, hidden, hs[0], names, x, so, st);
  }

  lemma {:induction false} OtherHandlersSimulated(p: Python, c: Context, h: Helpers, hidden: set<string>, hs: seq<Handler>,
                                                  names: set<string>, x: Exc, so: State, st: State)
    requires Setting(p, c, h, hidden, names)
    requires HandlersOk(c, hs) && HandlersFree(c, hs) && HandlerNames(hs) !! hidden
    requires RewriteHandlers(c, h, hs, names).names - names <= hidden
    requires Related(p.host.manifest, h, hidden, so, st)
    requires hs != [] && HandlerMatches(p, hs[0].kind, x, so.env) == HandlerMatches(p, hs[0].kind, x, st.env) == Ok(false)
    requires Room(st.run.calls + HandlerCalls(hs), ExecHandlers(p, hs, x, so).state.run,
      ExecHandlers(p, RewriteHandlers(c, h, hs, names).code, x, st).state.run)
    ensures Simulates(p, h, hidden, st.run.calls + HandlerCalls(hs),
      ExecHandlers(p, hs, x, so), ExecHandlers(p, RewriteHandlers(c, h, hs, names).code, x, st))
    decreases hs, 0
  {
    var b := Rewrite(c, h, hs[0].body, names);
    RewriteAddsNames(c, h, hs[0].body, names);
    RewriteHandlersAddsNames(c, h, hs[1..], b.names);
    RewrittenHandlersRun(p, c, h, hs, names, x, st);
    HandlersSimulated(p, c, h, hidden, hs[1..], b.names, x, so, st);
  }

  /** The first handler of rewritten handlers is the first one with its body rewritten. */
  lemma RewrittenHandlersRun(p: Python, c: Context, h: Helpers, hs: seq<Handler>, names: set<string>, x: Exc, st: State)
    requires HandlersOk(c, hs) && hs != []
    ensures var b := Rewrite(c, h, hs[0].body, names);
      var rest := RewriteHandlers(c, h, hs[1..], b.names);
      var matched := HandlerMatches(p, hs[0].kind, x, st.env);
      ExecHandlers(p, RewriteHandlers(c, h, hs, names).code, x, st) ==
        if matched.Raise? then Raised(matched.exc, st)
        else if matched.value then ExecHandlerBody(p, hs[0].name, b.code, x, st)
        else ExecHandlers(p, rest.code, x, st)
  {
    var b := Rewrite(c, h, hs[0].body, names);
    var rest := RewriteHandlers(c, h, hs[1..], b.names);
    var code := [hs[0].(body := b.code)] + rest.code;
    assert code[0] == hs[0].(body := b.code) && code[1..] == rest.code;
  }

  lemma MatchSimulated(p: Python, h: Helpers, hidden: set<string>, kind: Option<Expr>, x: Exc, so: State, st: State)
    requires Related(p.host.manifest, h, hidden, so, st)
    requires kind.Some? ==> Names(kind.value) !! hidden
    ensures HandlerMatches(p, kind, x, so.env) == HandlerMatches(p, kind, x, st.env)
  {
    if kind.Some? {
      AgreeOnVisible(hidden, Names(kind.value), so.env, st.env);
      EvalSame(p, kind.value, so.env, st.env);
    }
  }

  lemma {:induction false} HandlerBodySimulated(p: Python, c: Context, h: Helpers, hidden: set<string>, hd: Handler,
                                                names: set<string>, x: Exc, so: State, st: State)
    requires Setting(p, c, h, hidden, names)
    requires BlockOk(c, hd.body) && BlockFree(c, hd.body) && BlockNames(hd.body) !! hidden
    requires hd.name.Some? ==> !Reserved(c, hd.name.value) && hd.name.value !in hidden
    requires Rewrite(c, h, hd.body, names).names - names <= hidden
    requires Related(p.host.manifest, h, hidden, so, st)
    requires Room(st.run.calls + BlockCalls(hd.body), ExecHandlerBody(p, hd.name, hd.body, x, so).state.run,
      ExecHandlerBody(p, hd.name, Rewrite(c, h, hd.body, names).code, x, st).state.run)
    ensures Simulates(p, h, hidden, st.run.calls + BlockCalls(hd.body),
      ExecHandlerBody(p, hd.name, hd.body, x, so),
      ExecHandlerBody(p, hd.name, Rewrite(c, h, hd.body, names).code, x, st))
    decreases hd.body, 2
  {
    match hd.name
    case None => BlockSimulated(p, c, h, hidden, hd.body, names, so, st);
    case Some(name) =>
      var so1, st1 := so.(env := so.env[name := Caught(x)]), st.(env := st.env[name := Caught(x)]);
      BindKeepsRelated(p, h, hidden, name, Caught(x), so, st);
      BlockSimulated(p, c, h, hidden, hd.body, names, so1, st1);
      UnbindKeepsRelated(p, h, hidden, name, ExecBlock(p, hd.body, so1).state,
        ExecBlock(p, Rewrite(c, h, hd.body, names).code, st1).state);
  }

  lemma BindKeepsRelated(p: Python, h: Helpers, hidden: set<string>, name: string, v: Value, so: State, st: State)
    requires Related(p.host.manifest, h, hidden, so, st)
    requires h.prepare in hidden && h.resolve in hidden
    requires name !in hidden && !IsToolRoot(p.host.manifest, name)
    ensures Related(p.host.manifest, h, hidden, so.(env := so.env[name := v]), st.(env := st.env[name := v]))
  {
    AssignKeepsRelated(p.host, h, hidden, name, v, so, st, so.run, st.run);
  }

  lemma UnbindKeepsRelated(p: Python, h: Helpers, hidden: set<string>, name: string, so: State, st: State)
    requires Related(p.host.manifest, h, hidden, so, st)
    requires h.prepare in hidden && h.resolve in hidden
    requires name !in hidden && !IsToolRoot(p.host.manifest, name)
    ensures Related(p.host.manifest, h, hidden, so.(env := so.env - {name}), st.(env := st.env - {name}))
  {
    forall id | id !in hidden ensures SameAt(so.env - {name}, st.env - {name}, id) {
      assert SameAt(so.env, st.env, id);
    }
  }
}
