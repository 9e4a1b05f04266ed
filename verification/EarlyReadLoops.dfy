/**
 The early-read pass as the source runs it: loops that grow lists, a set of names and a table of
 definitions. Each method is proved to produce what the function of EarlyReadPass says.
 */
module EarlyReadLoops {
  import opened Options
  import opened PythonAst
  import opened EarlyReadPass

  method FreshName(names: set<string>, base: string) returns (name: string, names': set<string>)
    ensures name == Fresh(names, base)
    ensures names' == names + {name}
  {
    name := base;
    while name in names
      invariant Fresh(names, name) == Fresh(names, base)
      decreases NotShorter(names, name)
    {
      LongerNameHasFewerRivals(names, name);
      name := name + "_";
    }
    names' := names + {name};
  }

  // ----------------------------------------------------------- the table of definitions

  /** `definitions` maps each name assigned by the first `k` statements to its last position. */
  ghost predicate Defines(c: Context, g: seq<Stmt>, k: nat, definitions: map<string, nat>)
    requires Group(c, g) && k <= |g|
  {
    && (forall n :: n in definitions ==> definitions[n] < k && Target(g[definitions[n]]) == n)
    && (forall i :: 0 <= i < k ==> Target(g[i]) in definitions && i <= definitions[Target(g[i])])
  }

  ghost predicate FollowsDefinitions(definitions: map<string, nat>, loaded: set<string>, start: nat) {
    && (start > 0 ==> exists n :: n in loaded && n in definitions && definitions[n] == start - 1)
    && (forall n :: n in loaded && n in definitions ==> definitions[n] < start)
  }

  /** `1 + max(definitions.get(n, -1) for n in loaded)`, with -1 for no names at all. */
  method StartOf(definitions: map<string, nat>, loaded: set<string>) returns (start: nat)
    ensures FollowsDefinitions(definitions, loaded, start)
  {
    start := 0;
    var todo := loaded;
    while todo != {}
      invariant todo <= loaded
      invariant start > 0 ==> exists n :: n in loaded && n in definitions && definitions[n] == start - 1
      invariant forall n :: n in loaded && n !in todo && n in definitions ==> definitions[n] < start
      decreases todo
    {
      var n :| n in todo;
      if n in definitions && definitions[n] + 1 > start {
        start := definitions[n] + 1;
      }
      todo := todo - {n};
    }
  }

  lemma StartIsPlace(c: Context, g: seq<Stmt>, k: nat, definitions: map<string, nat>, loaded: set<string>, start: nat)
    requires Group(c, g) && k <= |g| && Defines(c, g, k, definitions)
    requires FollowsDefinitions(definitions, loaded, start)
    ensures start == AfterDefinitions(c, g, k, loaded)
  {
    LastDefinitionIsUnique(c, g, k, loaded, start);
  }

  lemma {:induction false} LastDefinitionIsUnique(c: Context, g: seq<Stmt>, k: nat, loaded: set<string>, start: nat)
    requires Group(c, g) && k <= |g| && start <= k
    requires start > 0 ==> Target(g[start - 1]) in loaded
    requires forall i :: start <= i < k ==> Target(g[i]) !in loaded
    ensures start == AfterDefinitions(c, g, k, loaded)
  {
    if start < k { LastDefinitionIsUnique(c, g, k - 1, loaded, start); }
  }

  // --------------------------------------------------------------------- one group

  lemma {:induction false} BeforeOneMore(ps: seq<Stmt>, pl: seq<nat>, p: Stmt, q: nat, j: nat, i: nat)
    requires |ps| == |pl| && i <= |ps|
    ensures Before(ps + [p], pl + [q], j, i) == Before(ps, pl, j, i) + (if q == j then [p] else [])
    decreases |ps| - i
  {
    if i < |ps| {
      assert (ps + [p])[i] == ps[i] && (pl + [q])[i] == pl[i];
      BeforeOneMore(ps, pl, p, q, j, i + 1);
    } else {
      assert Before(ps + [p], pl + [q], j, |ps| + 1) == [];
    }
  }

  lemma SlotsUnfold(n: nat, names: set<string>, slot: string)
    requires slot == Fresh(names, FUTURE)
    ensures Slots(n + 1, names) == [slot] + Slots(n, names + {slot})
  {
  }

  lemma NamesUnfold(names: set<string>, slot: string, less: seq<string>)
    ensures names + SlotSet([slot] + less) == names + {slot} + SlotSet(less)
  {
    SetOfCons(slot, less);
  }

  lemma {:induction false} SlotsOneMore(n: nat, names: set<string>, last: string)
    requires last == Fresh(names + SlotSet(Slots(n, names)), FUTURE)
    ensures Slots(n + 1, names) == Slots(n, names) + [last]
    decreases n, 0
  {
    if n == 0 {
      assert names + SlotSet([]) == names;
      SlotsUnfold(0, names, last);
    } else {
      SlotsLonger(n - 1, names, last, Fresh(names, FUTURE), names + {Fresh(names, FUTURE)});
    }
  }

  lemma {:induction false} SlotsLonger(n: nat, names: set<string>, last: string, slot: string, names': set<string>)
    requires slot == Fresh(names, FUTURE) && names' == names + {slot}
    requires last == Fresh(names + SlotSet(Slots(n + 1, names)), FUTURE)
    ensures Slots(n + 2, names) == Slots(n + 1, names) + [last]
    decreases n, 1
  {
    var less := Slots(n, names');
    SlotsUnfold(n, names, slot);
    SlotsUnfold(n + 1, names, slot);
    NamesUnfold(names, slot, less);
    SlotsOneMore(n, names', last);
    assert [slot] + (less + [last]) == ([slot] + less) + [last];
  }

  lemma SetOfCons(s: string, slots: seq<string>)
    ensures SlotSet([s] + slots) == {s} + SlotSet(slots)
  {
    assert forall x :: x in [s] + slots <==> x == s || x in slots;
  }

  lemma SetOfSnoc(slots: seq<string>, s: string)
    ensures SlotSet(slots + [s]) == SlotSet(slots) + {s}
  {
    forall x | x in SlotSet(slots) + {s} ensures x in slots + [s] {
      if x in slots {
        var i :| 0 <= i < |slots| && slots[i] == x;
        assert (slots + [s])[i] == x;
      } else {
        assert (slots + [s])[|slots|] == x;
      }
    }
  }

  ghost predicate CollectedAt(c: Context, h: Helpers, group: seq<Stmt>, k: nat, slot: string, early: Stmt, place: nat, late: Stmt)
    requires Group(c, group) && k < |group|
  {
    early == PrepareStmt(c, h, group[k], slot) && late == ResolveStmt(c, h, group[k], slot) && place == PlaceOf(c, group, k)
  }

  /** The prepares and resolves of the first `index` calls of a group. */
  ghost predicate Collected(c: Context, h: Helpers, group: seq<Stmt>, index: nat, slots: seq<string>,
                            ps: seq<Stmt>, pl: seq<nat>, replacements: seq<Stmt>)
    requires Group(c, group) && index <= |group|
  {
    && |ps| == |pl| == |replacements| == |slots| == index
    && (forall k {:trigger CollectedAt(c, h, group, k, slots[k], ps[k], pl[k], replacements[k])} ::
          0 <= k < index ==> CollectedAt(c, h, group, k, slots[k], ps[k], pl[k], replacements[k]))
  }

  lemma CollectedOneMore(c: Context, h: Helpers, group: seq<Stmt>, index: nat, slots: seq<string>,
                         ps: seq<Stmt>, pl: seq<nat>, replacements: seq<Stmt>, slot: string)
    requires Group(c, group) && index < |group|
    requires Collected(c, h, group, index, slots, ps, pl, replacements)
    ensures Collected(c, h, group, index + 1, slots + [slot], ps + [PrepareStmt(c, h, group[index], slot)],
      pl + [PlaceOf(c, group, index)], replacements + [ResolveStmt(c, h, group[index], slot)])
  {
    var slots', ps' := slots + [slot], ps + [PrepareStmt(c, h, group[index], slot)];
    var pl', replacements' := pl + [PlaceOf(c, group, index)], replacements + [ResolveStmt(c, h, group[index], slot)];
    forall k | 0 <= k < index + 1 ensures CollectedAt(c, h, group, k, slots'[k], ps'[k], pl'[k], replacements'[k]) {
      if k < index { assert CollectedAt(c, h, group, k, slots[k], ps[k], pl[k], replacements[k]); }
    }
  }

  /** `before[j]` lists the prepares that go right before position `j`. */
  ghost predicate Sorted(before: seq<seq<Stmt>>, ps: seq<Stmt>, pl: seq<nat>) {
    |ps| == |pl| && forall j :: 0 <= j < |before| ==> before[j] == Before(ps, pl, j, 0)
  }

  lemma SortedOneMore(before: seq<seq<Stmt>>, ps: seq<Stmt>, pl: seq<nat>, early: Stmt, start: nat)
    requires Sorted(before, ps, pl) && start < |before|
    ensures Sorted(before[start := before[start] + [early]], ps + [early], pl + [start])
  {
    forall j | 0 <= j < |before|
      ensures Before(ps + [early], pl + [start], j, 0) == (if j == start then before[j] + [early] else before[j])
    {
      BeforeOneMore(ps, pl, early, start, j, 0);
    }
  }

  /** Where the loop over a group stands: its lists and the reference they are compared with. */
  datatype Progress = Progress(before: seq<seq<Stmt>>, replacements: seq<Stmt>, definitions: map<string, nat>,
                               slots: seq<string>, ps: seq<Stmt>, pl: seq<nat>)

  ghost predicate Collecting(c: Context, h: Helpers, group: seq<Stmt>, names: set<string>, index: nat, x: Progress)
    requires Group(c, group) && index <= |group|
  {
    && |x.before| == |group|
    && x.slots == Slots(index, names)
    && Defines(c, group, index, x.definitions)
    && Collected(c, h, group, index, x.slots, x.ps, x.pl, x.replacements)
    && Sorted(x.before, x.ps, x.pl)
  }

  lemma CollectStep(c: Context, h: Helpers, group: seq<Stmt>, names: set<string>, index: nat, x: Progress, slot: string, early: Stmt, late: Stmt, start: nat)
    returns (x': Progress)
    requires Group(c, group) && index < |group| && Collecting(c, h, group, names, index, x)
    requires FollowsDefinitions(x.definitions, Loaded(group[index]), start)
    requires slot == Fresh(names + SlotSet(x.slots), FUTURE)
    requires early == PrepareStmt(c, h, group[index], slot) && late == ResolveStmt(c, h, group[index], slot)
    ensures start < |x.before| && x'.before == x.before[start := x.before[start] + [early]]
    ensures x'.replacements == x.replacements + [late]
    ensures x'.definitions == x.definitions[Target(group[index]) := index]
    ensures x'.slots == x.slots + [slot]
    ensures Collecting(c, h, group, names, index + 1, x')
  {
    StartIsPlace(c, group, index, x.definitions, Loaded(group[index]), start);
    SlotsOneMore(index, names, slot);
    CollectedOneMore(c, h, group, index, x.slots, x.ps, x.pl, x.replacements, slot);
    SortedOneMore(x.before, x.ps, x.pl, early, start);
    DefinesOneMore(c, group, index, x.definitions);
    x' := Progress(x.before[start := x.before[start] + [early]], x.replacements + [late],
      x.definitions[Target(group[index]) := index], x.slots + [slot], x.ps + [early], x.pl + [start]);
  }

  lemma DefinesOneMore(c: Context, g: seq<Stmt>, k: nat, definitions: map<string, nat>)
    requires Group(c, g) && k < |g| && Defines(c, g, k, definitions)
    ensures Defines(c, g, k + 1, definitions[Target(g[k]) := k])
  {
  }

  /** One turn of the loop over a group. */
  method CollectCall(c: Context, h: Helpers, ghost group: seq<Stmt>, ghost names: set<string>, index: nat, statement: Stmt,
                     before: seq<seq<Stmt>>, replacements: seq<Stmt>, definitions: map<string, nat>, used: set<string>, ghost x: Progress)
    returns (before': seq<seq<Stmt>>, replacements': seq<Stmt>, definitions': map<string, nat>, used': set<string>, ghost x': Progress)
    requires Group(c, group) && index < |group| && group[index] == statement
    requires Collecting(c, h, group, names, index, x) && used == names + SlotSet(x.slots)
    requires before == x.before && replacements == x.replacements && definitions == x.definitions
    ensures Collecting(c, h, group, names, index + 1, x') && used' == names + SlotSet(x'.slots)
    ensures before' == x'.before && replacements' == x'.replacements && definitions' == x'.definitions
  {
    var start := StartOf(definitions, Loaded(statement));
    var slot;
    slot, used' := FreshName(used, FUTURE);
    var early, late := PrepareStmt(c, h, statement, slot), ResolveStmt(c, h, statement, slot);
    SetOfSnoc(x.slots, slot);
    x' := CollectStep(c, h, group, names, index, x, slot, early, late, start);
    before' := before[start := before[start] + [early]];
    replacements' := replacements + [late];
    definitions' := definitions[Target(statement) := index];
  }

  method CollectGroup(c: Context, h: Helpers, group: seq<Stmt>, names: set<string>)
    returns (before: seq<seq<Stmt>>, replacements: seq<Stmt>, names': set<string>, ghost x: Progress)
    requires Group(c, group)
    ensures Collecting(c, h, group, names, |group|, x) && names' == names + SlotSet(x.slots)
    ensures before == x.before && replacements == x.replacements
  {
    before := seq(|group|, _ => []);
    replacements, names' := [], names;
    var definitions: map<string, nat> := map[];
    x := Progress(before, [], map[], [], [], []);
    assert SlotSet(x.slots) == {};
    var index := 0;
    while index < |group|
      invariant 0 <= index <= |group|
      invariant Collecting(c, h, group, names, index, x) && names' == names + SlotSet(x.slots)
      invariant before == x.before && replacements == x.replacements && definitions == x.definitions
    {
      before, replacements, definitions, names', x :=
        CollectCall(c, h, group, names, index, group[index], before, replacements, definitions, names', x);
      index := index + 1;
    }
  }

  method JoinGroup(before: seq<seq<Stmt>>, replacements: seq<Stmt>, ghost ps: seq<Stmt>, ghost pl: seq<nat>)
    returns (result: seq<Stmt>)
    requires |before| == |replacements| == |ps| == |pl| && Sorted(before, ps, pl)
    ensures result == Emit(ps, pl, replacements, 0)
  {
    result := [];
    var j := 0;
    while j < |replacements|
      invariant 0 <= j <= |replacements|
      invariant result + Emit(ps, pl, replacements, j) == Emit(ps, pl, replacements, 0)
    {
      ghost var tail := Emit(ps, pl, replacements, j + 1);
      assert result + (before[j] + ([replacements[j]] + tail)) == (result + before[j] + [replacements[j]]) + tail;
      result := result + before[j] + [replacements[j]];
      j := j + 1;
    }
    assert result + [] == result;
  }

  lemma CollectedAll(c: Context, h: Helpers, group: seq<Stmt>, slots: seq<string>, ps: seq<Stmt>, pl: seq<nat>, replacements: seq<Stmt>)
    requires Group(c, group) && Collected(c, h, group, |group|, slots, ps, pl, replacements)
    ensures ps == Prepares(c, h, group, slots) && pl == Places(c, group) && replacements == Resolves(c, h, group, slots)
  {
    forall k | 0 <= k < |group|
      ensures ps[k] == PrepareStmt(c, h, group[k], slots[k]) && replacements[k] == ResolveStmt(c, h, group[k], slots[k])
      ensures pl[k] == PlaceOf(c, group, k)
    {
      assert CollectedAt(c, h, group, k, slots[k], ps[k], pl[k], replacements[k]);
    }
  }

  method RewriteGroupLoop(c: Context, h: Helpers, group: seq<Stmt>, names: set<string>)
    returns (result: seq<Stmt>, names': set<string>)
    requires Group(c, group)
    ensures result == RewriteGroup(c, h, group, Slots(|group|, names))
    ensures names' == names + SlotSet(Slots(|group|, names))
  {
    var before, replacements;
    ghost var x;
    before, replacements, names', x := CollectGroup(c, h, group, names);
    CollectedAll(c, h, group, x.slots, x.ps, x.pl, replacements);
    result := JoinGroup(before, replacements, x.ps, x.pl);
  }

  // ------------------------------------------------------------------ whole blocks

  /** What is rewritten so far, followed by what the rest will become. */
  ghost predicate Splits<A>(whole: Rewritten<seq<A>>, done: seq<A>, changed: bool, rest: Rewritten<seq<A>>) {
    whole == Rewritten(done + rest.code, rest.names, changed || rest.changed)
  }

  lemma SplitsFurther<A>(whole: Rewritten<seq<A>>, done: seq<A>, changed: bool, mid: Rewritten<seq<A>>,
                         code: seq<A>, changed': bool, rest: Rewritten<seq<A>>)
    requires Splits(whole, done, changed, mid) && Splits(mid, code, changed', rest)
    ensures Splits(whole, done + code, changed || changed', rest)
  {
    assert done + (code + rest.code) == (done + code) + rest.code;
  }

  method GroupEnd(c: Context, body: seq<Stmt>, start: nat) returns (end: nat)
    requires start <= |body|
    ensures start <= end <= |body| && end - start == GroupLength(c, body[start..])
  {
    end := start;
    while end < |body| && EarlyAssign(c, body[end])
      invariant start <= end <= |body|
      invariant GroupLength(c, body[start..]) == end - start + GroupLength(c, body[end..])
    {
      assert body[end..][1..] == body[end + 1..];
      end := end + 1;
    }
  }

  lemma HeadGroupSplits(c: Context, h: Helpers, rest: seq<Stmt>, n: nat, names: set<string>)
    requires BlockOk(c, rest) && 0 < n == GroupLength(c, rest)
    ensures Group(c, rest[..n]) && BlockOk(c, rest[n..])
    ensures var slots := Slots(n, names);
      Splits(Rewrite(c, h, rest, names), RewriteGroup(c, h, rest[..n], slots), true,
             Rewrite(c, h, rest[n..], names + SlotSet(slots)))
  {
    OkPrefixIsGroup(c, rest, n);
    OkSuffix(c, rest, n);
    assert EarlyAssign(c, rest[0]);
  }

  lemma SliceOfRest<A>(s: seq<A>, i: nat, end: nat)
    requires i <= end <= |s|
    ensures s[i..end] == s[i..][..end - i] && s[end..] == s[i..][end - i..]
  {
  }

  /** The part of a block from `i` on that one turn of the loop takes: a group, or a statement. */
  method RewriteHead(c: Context, h: Helpers, body: seq<Stmt>, i: nat, names: set<string>)
    returns (code: seq<Stmt>, end: nat, names': set<string>, changed: bool)
    requires i < |body| && BlockOk(c, body[i..])
    ensures i < end <= |body| && BlockOk(c, body[end..])
    ensures Splits(Rewrite(c, h, body[i..], names), code, changed, Rewrite(c, h, body[end..], names'))
    decreases body, 0
  {
    assert body[i..][0] == body[i] && body[i..][1..] == body[i + 1..];
    if EarlyAssign(c, body[i]) {
      end := GroupEnd(c, body, i);
      changed := true;
      SliceOfRest(body, i, end);
      HeadGroupSplits(c, h, body[i..], end - i, names);
      code, names' := RewriteGroupLoop(c, h, body[i..end], names);
    } else {
      var s;
      s, names', changed := RewriteStmtLoop(c, h, body[i], names);
      end, code := i + 1, [s];
    }
  }

  method RewriteLoop(c: Context, h: Helpers, body: seq<Stmt>, names: set<string>)
    returns (result: seq<Stmt>, names': set<string>, changed: bool)
    requires BlockOk(c, body)
    ensures Rewritten(result, names', changed) == Rewrite(c, h, body, names)
    decreases body, 1
  {
    result, names', changed := [], names, false;
    var i := 0;
    ghost var whole := Rewrite(c, h, body, names);
    assert body[0..] == body && [] + whole.code == whole.code;
    while i < |body|
      invariant 0 <= i <= |body|
      invariant BlockOk(c, body[i..])
      invariant Splits(whole, result, changed, Rewrite(c, h, body[i..], names'))
    {
      ghost var mid := Rewrite(c, h, body[i..], names');
      var code, changed';
      code, i, names', changed' := RewriteHead(c, h, body, i, names');
      SplitsFurther(whole, result, changed, mid, code, changed', Rewrite(c, h, body[i..], names'));
      result, changed := result + code, changed || changed';
    }
    assert body[i..] == [] && result + [] == result;
  }

  method RewriteStmtLoop(c: Context, h: Helpers, s: Stmt, names: set<string>)
    returns (s': Stmt, names': set<string>, changed: bool)
    requires StmtOk(c, s)
    ensures Rewritten(s', names', changed) == RewriteStmt(c, h, s, names)
    decreases s, 1
  {
    s', names', changed := s, names, false;
    if s.If? {
      var body, orelse, changed1, changed2;
      body, names', changed1 := RewriteLoop(c, h, s.body, names');
      orelse, names', changed2 := RewriteLoop(c, h, s.orelse, names');
      s', changed := If(s.test, body, orelse), changed1 || changed2;
    } else if s.Try? {
      var body, orelse, finalbody, changed1, changed2, changed3;
      body, names', changed1 := RewriteLoop(c, h, s.body, names');
      orelse, names', changed2 := RewriteLoop(c, h, s.orelse, names');
      finalbody, names', changed3 := RewriteLoop(c, h, s.finalbody, names');
      var handlers: seq<Handler>, changed4 := [], false;
      ghost var start := names';
      var i := 0;
      assert s.handlers[0..] == s.handlers;
      assert [] + RewriteHandlers(c, h, s.handlers, start).code == RewriteHandlers(c, h, s.handlers, start).code;
      while i < |s.handlers|
        invariant 0 <= i <= |s.handlers|
        invariant HandlersOk(c, s.handlers[i..])
        invariant Splits(RewriteHandlers(c, h, s.handlers, start), handlers, changed4, RewriteHandlers(c, h, s.handlers[i..], names'))
      {
        assert s.handlers[i..][0] == s.handlers[i] && s.handlers[i..][1..] == s.handlers[i + 1..];
        var block, changed5;
        ghost var mid := RewriteHandlers(c, h, s.handlers[i..], names');
        block, names', changed5 := RewriteLoop(c, h, s.handlers[i].body, names');
        SplitsFurther(RewriteHandlers(c, h, s.handlers, start), handlers, changed4, mid,
          [s.handlers[i].(body := block)], changed5, RewriteHandlers(c, h, s.handlers[i + 1..], names'));
        handlers, changed4 := handlers + [s.handlers[i].(body := block)], changed4 || changed5;
        i := i + 1;
      }
      assert s.handlers[i..] == [] && handlers + [] == handlers;
      s', changed := Try(body, handlers, orelse, finalbody), changed1 || changed2 || changed3 || changed4;
    }
  }

  method TransformProgram(m: Manifest, program: seq<Stmt>) returns (code: seq<Stmt>, helpers: Option<Helpers>)
    ensures Transformed(code, helpers) == Transform(m, program)
  {
    var c := ContextOf(m, program);
    if !BlockOk(c, program) {
      return program, None;
    }
    var names := BlockNames(program);
    var prepare, resolve, changed;
    prepare, names := FreshName(names, PREPARE);
    resolve, names := FreshName(names, RESOLVE);
    var h := Helpers(prepare, resolve);
    assert names == BlockNames(program) + {prepare, resolve};
    code, names, changed := RewriteLoop(c, h, program, names);
    helpers := if changed then Some(h) else None;
  }
}
