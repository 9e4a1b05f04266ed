/**
 The two conditions of the theorem are needed. A single early call keeps its meaning exactly if
 it uses no reserved keyword; and there are programs for which the bound on the calls of a path
 is exact.
 */
module EarlyReadLimits {
  import opened PythonAst
  import opened RunFutures
  import opened EarlyReadPass
  import opened GuestSemantics
  import opened CallBudget
  import opened GroupProtocol
  import opened GroupExecution
  import opened EarlyReadCorrect
  import opened EarlyReadTheorem

  // ------------------------------------------------------------- reserved keywords

  lemma OneCallRewritten(c: Context, h: Helpers, s: Stmt, names: set<string>)
    requires BlockOk(c, [s]) && EarlyAssign(c, s)
    ensures var slot := Fresh(names, FUTURE);
      Rewrite(c, h, [s], names).code == [PrepareStmt(c, h, s, slot), ResolveStmt(c, h, s, slot)]
    ensures Rewrite(c, h, [s], names).changed && Rewrite(c, h, [s], names).names == names + {Fresh(names, FUTURE)}
  {
    var slot := Fresh(names, FUTURE);
    assert [s][1..] == [];
    assert GroupLength(c, [s]) == 1;
    OkPrefixIsGroup(c, [s], 1);
    var slots := Slots(1, names);
    assert Slots(0, names + {slot}) == [];
    assert slots == [slot] && SlotSet(slots) == {slot};
    assert [s][..1] == [s];
    var ps, pl, rs := Prepares(c, h, [s], slots), Places(c, [s]), Resolves(c, h, [s], slots);
    assert pl[0] == 0;
    assert Before(ps, pl, 0, 1) == [];
    assert Before(ps, pl, 0, 0) == [ps[0]];
    assert Emit(ps, pl, rs, 1) == [];
    assert Emit(ps, pl, rs, 0) == [ps[0], rs[0]];
  }

  lemma ComplaintsDiffer()
    ensures Twice("self") != Twice("handle") && Twice("self") != Twice("name")
  {
    var prefix := "got multiple values for argument '";
    assert Twice("self").message[|prefix|] == 's';
    assert Twice("handle").message[|prefix|] == 'h';
    assert Twice("name").message[|prefix|] == 'n';
  }

  lemma OriginalOneCall(p: Python, c: Context, s: Stmt, st: State)
    requires EarlyStmt(p, c, s) && RootsBound(p.host.manifest, st.env) && st.run == NewRun(false)
    requires var a := Ask(p, ToolName(c, s.value).value, s.value.keywords, st.env);
      a.Asks? && p.host.respond([], a.request).Success?
    ensures var o := ExecBlock(p, [s], st);
      if HasKeyword(s.value.keywords, "self") then o.Raised? && o.exc == Twice("self") else o.Normal?
  {
    assert [s][1..] == [];
    ToolValue(p, c, s.value, st.env);
    KnownAndEarly(c, s.value);
  }

  lemma TwoStatements(p: Python, a: Stmt, b: Stmt, st: State, st': State)
    requires ExecStmt(p, a, st) == Normal(st')
    ensures ExecBlock(p, [a, b], st) == ExecStmt(p, b, st')
  {
    assert [a, b][1..] == [b] && [b][1..] == [];
    assert ExecBlock(p, [b], st') == ExecStmt(p, b, st');
  }

  lemma ResolveRefuses(p: Python, c: Context, h: Helpers, s: Stmt, slot: string, st: State)
    requires EarlyStmt(p, c, s) && HelpersBound(h, st.env) && HasHandle(st, slot)
    requires EvalKeywords(p, s.value.keywords, st.env).Ok?
    requires HasKeyword(s.value.keywords, "handle") || HasKeyword(s.value.keywords, "name")
    ensures ExecStmt(p, ResolveStmt(c, h, s, slot), st)
         == Raised(Twice(if HasKeyword(s.value.keywords, "handle") then "handle" else "name"), st)
  {
    EvalFrame.EvalPair(p, Name(slot), Constant(Str(ToolName(c, s.value).value)), st.env);
  }

  lemma TransformedOneCall(p: Python, c: Context, h: Helpers, s: Stmt, slot: string, st: State)
    requires EarlyStmt(p, c, s) && HelpersBound(h, st.env) && st.run == NewRun(true)
    requires slot != h.prepare && slot != h.resolve && slot !in Loaded(s)
    requires var a := Ask(p, ToolName(c, s.value).value, s.value.keywords, st.env);
      a.Asks? && p.host.respond([], a.request).Success?
    ensures var t := ExecBlock(p, [PrepareStmt(c, h, s, slot), ResolveStmt(c, h, s, slot)], st);
      var kws := s.value.keywords;
      if HasKeyword(kws, "handle") then t.Raised? && t.exc == Twice("handle")
      else if HasKeyword(kws, "name") then t.Raised? && t.exc == Twice("name")
      else t.Normal?
  {
    var kws := s.value.keywords;
    var st', id, request := PrepareExec(p, c, h, s, slot, 0, st);
    TwoStatements(p, PrepareStmt(c, h, s, slot), ResolveStmt(c, h, s, slot), st, st');
    EvalFrame.EvalKeywordsSame(p, kws, st.env, st'.env);
    if HasKeyword(kws, "handle") || HasKeyword(kws, "name") {
      ResolveRefuses(p, c, h, s, slot, st');
    } else {
      KnownAndEarly(c, s.value);
      ResolveExec(p, c, h, s, slot, 0, st');
      ResolveSucceeds(p.host, ItemFor(p, c, s, slot, 0), st, st', id, request);
    }
  }

  lemma ResolveSucceeds(h: Host, x: Read, st: State, st': State, id: nat, request: Request)
    requires st.run == NewRun(true) && PrepareOutcome(h, x, st, st', id, request)
    requires x.ask(st.env).Asks? && x.ask(st'.env) == x.ask(st.env)
    requires IsKnown(h.manifest, x.ask(st.env).request.tool) && IsEarly(h.manifest, x.ask(st.env).request.tool)
    requires h.respond([], x.ask(st.env).request).Success?
    ensures ResolveOutcome(h, x, id, st').Normal?
  {
  }

  lemma ReservedKeywordTells(p: Python, c: Context, h: Helpers, s: Stmt, slot: string, env: Env, env': Env)
    requires EarlyStmt(p, c, s) && RootsBound(p.host.manifest, env) && HelpersBound(h, env')
    requires slot != h.prepare && slot != h.resolve && slot !in Loaded(s)
    requires AgreeOn(env, env', Loaded(s))
    requires var a := Ask(p, ToolName(c, s.value).value, s.value.keywords, env);
      a.Asks? && p.host.respond([], a.request).Success?
    requires !FreeOfReserved(s.value.keywords)
    ensures var o := ExecBlock(p, [s], State(env, NewRun(false)));
      var t := ExecBlock(p, [PrepareStmt(c, h, s, slot), ResolveStmt(c, h, s, slot)], State(env', NewRun(true)));
      o.Normal? != t.Normal? || (o.Raised? && t.Raised? && o.exc != t.exc)
  {
    ComplaintsDiffer();
    EvalFrame.EvalKeywordsSame(p, s.value.keywords, env, env');
    OriginalOneCall(p, c, s, State(env, NewRun(false)));
    TransformedOneCall(p, c, h, s, slot, State(env', NewRun(true)));
  }

  /** What `Execute` runs for a program of one early call. */
  lemma OneCallExecuted(p: Python, s: Stmt, inputs: Datum) returns (h: Helpers, slot: string, env': Env)
    requires var c := ContextOf(p.host.manifest, [s]); BlockOk(c, [s]) && EarlyAssign(c, s)
    ensures var c := ContextOf(p.host.manifest, [s]);
      && EarlyStmt(p, c, s) && HelpersBound(h, env')
      && slot != h.prepare && slot != h.resolve && slot !in Loaded(s)
      && AgreeOn(Scope(p, inputs), env', Loaded(s))
      && Execute(p, [s], inputs, true)
         == ExecBlock(p, [PrepareStmt(c, h, s, slot), ResolveStmt(c, h, s, slot)], State(env', NewRun(true)))
  {
    var c := ContextOf(p.host.manifest, [s]);
    h := HelpersFor([s]);
    var names := BlockNames([s]) + {h.prepare, h.resolve};
    slot := Fresh(names, FUTURE);
    env' := Scope(p, inputs)[h.prepare := PrepareHelper][h.resolve := ResolveHelper];
    assert [s][1..] == [];
    assert Loaded(s) <= BlockNames([s]);
    OneCallRewritten(c, h, s, names);
  }

  /**
   A program that is one early call which can be made and which succeeds: early reads keep its
   meaning if and only if the call has no keyword `self`, `handle` or `name`.
   */
  lemma ReservedKeywordsExactly(p: Python, s: Stmt, inputs: Datum)
    requires var c := ContextOf(p.host.manifest, [s]);
      && BlockOk(c, [s]) && EarlyAssign(c, s)
      && var a := Ask(p, ToolName(c, s.value).value, s.value.keywords, Scope(p, inputs));
         a.Asks? && p.host.respond([], a.request).Success?
    ensures SameMeaning(Invented(p.host.manifest, [s]), Execute(p, [s], inputs, false), Execute(p, [s], inputs, true))
      <==> FreeOfReserved(s.value.keywords)
  {
    var c := ContextOf(p.host.manifest, [s]);
    if FreeOfReserved(s.value.keywords) {
      assert [s][1..] == [];
      assert BlockCalls([s]) == 1;
      assert StmtFree(c, s) && BlockFree(c, [s][1..]);
      EarlyReadsPreserveMeaning(p, [s], inputs);
    } else {
      var h, slot, env' := OneCallExecuted(p, s, inputs);
      ScopeBindsRoots(p, inputs);
      ReservedKeywordTells(p, c, h, s, slot, Scope(p, inputs), env');
    }
  }
}
