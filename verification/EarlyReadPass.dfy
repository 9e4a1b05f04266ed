/**
 The early-read pass (guest/plm.py). Adjacent assignments of early-read calls form a group; for
 each call of a group a `prepare` is placed as early as the definitions of its argument names
 allow, and the call itself becomes a `resolve` at its original place.

 The functions say what the pass produces; the methods of EarlyReadLoops do it the way the
 source does, with loops that grow lists, a name set and a table of definitions.
 */
module EarlyReadPass {
  import opened Options
  import opened PythonAst

  // ------------------------------------------------ which programs are accepted

  /** What the pass knows about the program it is given. */
  datatype Context = Context(manifest: Manifest, dataNames: set<string>)

  predicate IsPlain(v: Value) {
    v.Str? || v.Int? || v.Float? || v.Bool? || v.NoneV?
  }

  predicate Data(c: Context, e: Expr)
    decreases e, 1
  {
    match e
    case Constant(value) => IsPlain(value)
    case Name(id) => id in c.dataNames
    case Display(_, elts) => AllData(c, elts)
    case DictDisplay(items) => ItemsData(c, items)
    case Subscript(base, index) => Data(c, base) && Data(c, index)
    case BinOp(_, left, right) => Data(c, left) && Data(c, right)
    case UnaryOp(_, operand) => Data(c, operand)
    case BoolOp(_, operands) => AllData(c, operands)
    case Compare(first, _, comparators) => Data(c, first) && AllData(c, comparators)
    case NoKey => false
    case Attribute(_, _) => false
    case Call(_, _, _) => false
    case Lambda(_) => false
    case OtherExpr(_) => false
  }

  predicate AllData(c: Context, es: seq<Expr>)
    decreases es, 0
  {
    es == [] || (Data(c, es[0]) && AllData(c, es[1..]))
  }

  predicate ItemsData(c: Context, items: seq<Item>)
    decreases items, 0
  {
    items == [] || (
      var i := items[0];
      assert i.key < i && i.value < i;
      i.key != NoKey && Data(c, i.key) && Data(c, i.value) && ItemsData(c, items[1..]))
  }

  predicate Argument(c: Context, e: Expr) {
    if e.Constant? || e.Name? then Data(c, e)
    else
      && e.Subscript?
      && Argument(c, e.base)
      && e.index.Constant?
      && (e.index.value.Str? || e.index.value.Int? || e.index.value.Bool?)  // a bool is an int
  }

  function FunctionPath(e: Expr): (r: Option<Path>) {
    match e
    case Name(id) => Some([id])
    case Attribute(owner, attr) =>
      (match FunctionPath(owner)
       case Some(prefix) => Some(prefix + [attr])
       case None => None)
    case _ => None
  }

  function ToolName(c: Context, e: Expr): Option<string> {
    if !e.Call? then None
    else match FunctionPath(e.func)
      case Some(path) => ToolAt(c.manifest, path)
      case None => None
  }

  predicate ToolCall(c: Context, e: Expr) {
    && ToolName(c, e).Some?
    && e.args == []
    && forall k :: k in e.keywords ==> k.arg.Some? && Argument(c, k.value)
  }

  predicate EarlyCall(c: Context, e: Expr) {
    ToolCall(c, e) && IsEarly(c.manifest, ToolName(c, e).value)
  }

  predicate Reserved(c: Context, id: string) {
    id == "inputs" || IsToolRoot(c.manifest, id)
  }

  predicate BlockOk(c: Context, body: seq<Stmt>)
    decreases body, 0
  {
    body == [] || (StmtOk(c, body[0]) && BlockOk(c, body[1..]))
  }

  predicate StmtOk(c: Context, s: Stmt)
    decreases s, 1
  {
    match s
    case Assign(targets, value) =>
      && |targets| == 1
      && targets[0].Name?
      && !Reserved(c, targets[0].id)
      && (ToolCall(c, value) || Data(c, value))
    case If(test, body, orelse) => Data(c, test) && BlockOk(c, body) && BlockOk(c, orelse)
    case Try(body, handlers, orelse, finalbody) =>
      && BlockOk(c, body) && BlockOk(c, orelse) && BlockOk(c, finalbody)
      && HandlersOk(c, handlers)
    case Pass => true
    case ExprStmt(value) => value.Constant?
    case OtherStmt(_) => false
  }

  predicate HandlersOk(c: Context, hs: seq<Handler>)
    decreases hs, 0
  {
    hs == [] || (
      && (hs[0].name.Some? ==> !Reserved(c, hs[0].name.value))
      && BlockOk(c, hs[0].body)
      && (hs[0].kind.Some? ==> hs[0].kind.value.Name?)
      && HandlersOk(c, hs[1..]))
  }

  function ContextOf(m: Manifest, program: seq<Stmt>): Context {
    Context(m, {"inputs"} + StoredNames(program))
  }

  // ------------------------------------------------------------------ fresh names

  /** Names at least as long as `base`: what the loop of `fresh` can still run into. */
  ghost function NotShorter(names: set<string>, base: string): set<string> {
    set n | n in names && |n| >= |base|
  }

  lemma LongerNameHasFewerRivals(names: set<string>, base: string)
    requires base in names
    ensures NotShorter(names, base + "_") < NotShorter(names, base)
  {
    assert base in NotShorter(names, base) && base !in NotShorter(names, base + "_");
  }

  ghost function Fresh(names: set<string>, base: string): (r: string)
    ensures r !in names
    ensures base <= r
    decreases NotShorter(names, base)
  {
    if base in names then
      LongerNameHasFewerRivals(names, base);
      Fresh(names, base + "_")
    else base
  }

  const PREPARE := "_pysolate_prepare"
  const RESOLVE := "_pysolate_resolve"
  const FUTURE := "_pysolate_future"

  // ------------------------------------------------------------------- the groups

  predicate EarlyAssign(c: Context, s: Stmt) {
    s.Assign? && EarlyCall(c, s.value)
  }

  function GroupLength(c: Context, body: seq<Stmt>): (n: nat)
    ensures n <= |body|
    ensures forall i :: 0 <= i < n ==> EarlyAssign(c, body[i])
    ensures n < |body| ==> !EarlyAssign(c, body[n])
  {
    if body == [] || !EarlyAssign(c, body[0]) then 0 else 1 + GroupLength(c, body[1..])
  }

  /** A group: assignments of early calls to a single name. */
  ghost predicate Group(c: Context, g: seq<Stmt>) {
    forall i :: 0 <= i < |g| ==> EarlyAssign(c, g[i]) && |g[i].targets| == 1 && g[i].targets[0].Name?
  }

  function Target(s: Stmt): string
    requires s.Assign? && |s.targets| == 1 && s.targets[0].Name?
  {
    s.targets[0].id
  }

  function Loaded(s: Stmt): set<string>
    requires s.Assign? && s.value.Call?
  {
    KeywordNames(s.value.keywords)
  }

  /** One more than the last position below `k` that defines one of `loaded`, else 0. */
  ghost function AfterDefinitions(c: Context, g: seq<Stmt>, k: nat, loaded: set<string>): (r: nat)
    requires Group(c, g) && k <= |g|
    ensures r <= k
    ensures forall i :: r <= i < k ==> Target(g[i]) !in loaded
    ensures r > 0 ==> Target(g[r - 1]) in loaded
  {
    if k == 0 then 0
    else if Target(g[k - 1]) in loaded then k
    else AfterDefinitions(c, g, k - 1, loaded)
  }

  /** Where the prepare of call `i` goes: right before the statement at this position. */
  ghost function PlaceOf(c: Context, g: seq<Stmt>, i: nat): (r: nat)
    requires Group(c, g) && i < |g|
    ensures r <= i
    ensures forall k :: r <= k < i ==> Target(g[k]) !in Loaded(g[i])
  {
    AfterDefinitions(c, g, i, Loaded(g[i]))
  }

  /** The slots of calls `i..`, given the names in use before them. */
  ghost function Slots(n: nat, names: set<string>): (r: seq<string>)
    ensures |r| == n
    ensures forall k :: 0 <= k < n ==> FUTURE <= r[k]
  {
    if n == 0 then [] else
      var slot := Fresh(names, FUTURE);
      [slot] + Slots(n - 1, names + {slot})
  }

  /** The keywords of a call as the items of a dictionary display. */
  function ItemsOf(kws: seq<Keyword>): (r: seq<Item>)
    requires forall k :: k in kws ==> k.arg.Some?
    ensures |r| == |kws|
    ensures forall i :: 0 <= i < |r| ==> r[i] == Item(Constant(Str(kws[i].arg.value)), kws[i].value)
  {
    if kws == [] then [] else [Item(Constant(Str(kws[0].arg.value)), kws[0].value)] + ItemsOf(kws[1..])
  }

  /** The names the pass gives to its two helpers. */
  datatype Helpers = Helpers(prepare: string, resolve: string)

  /** `slot = prepare(lambda: (canonical, {key: value, ...}))` */
  function PrepareStmt(c: Context, h: Helpers, s: Stmt, slot: string): Stmt
    requires EarlyAssign(c, s)
  {
    var kws := s.value.keywords;
    var thunk := Lambda(Display(true, [
      Constant(Str(ToolName(c, s.value).value)),
      DictDisplay(ItemsOf(kws))]));
    Assign([Name(slot)], Call(Name(h.prepare), [thunk], []))
  }

  /** `target = resolve(slot, canonical, key=value, ...)` */
  function ResolveStmt(c: Context, h: Helpers, s: Stmt, slot: string): Stmt
    requires EarlyAssign(c, s)
  {
    Assign(s.targets, Call(Name(h.resolve),
      [Name(slot), Constant(Str(ToolName(c, s.value).value))], s.value.keywords))
  }

  ghost function Prepares(c: Context, h: Helpers, g: seq<Stmt>, slots: seq<string>): (r: seq<Stmt>)
    requires Group(c, g) && |slots| == |g|
    ensures |r| == |g|
    ensures forall k :: 0 <= k < |g| ==> r[k] == PrepareStmt(c, h, g[k], slots[k])
  {
    seq(|g|, k requires 0 <= k < |g| => PrepareStmt(c, h, g[k], slots[k]))
  }

  ghost function Resolves(c: Context, h: Helpers, g: seq<Stmt>, slots: seq<string>): (r: seq<Stmt>)
    requires Group(c, g) && |slots| == |g|
    ensures |r| == |g|
    ensures forall k :: 0 <= k < |g| ==> r[k] == ResolveStmt(c, h, g[k], slots[k])
  {
    seq(|g|, k requires 0 <= k < |g| => ResolveStmt(c, h, g[k], slots[k]))
  }

  ghost function Places(c: Context, g: seq<Stmt>): (r: seq<nat>)
    requires Group(c, g)
    ensures |r| == |g|
    ensures forall k :: 0 <= k < |g| ==> r[k] == PlaceOf(c, g, k)
  {
    seq(|g|, k requires 0 <= k < |g| => PlaceOf(c, g, k))
  }

  /** The prepares from `i` on that go right before position `j`, in order. */
  ghost function Before(prepares: seq<Stmt>, places: seq<nat>, j: nat, i: nat): seq<Stmt>
    requires |places| == |prepares| && i <= |prepares|
    decreases |prepares| - i
  {
    if i == |prepares| then []
    else (if places[i] == j then [prepares[i]] else []) + Before(prepares, places, j, i + 1)
  }

  /** The rewritten group from position `j` on. */
  ghost function Emit(prepares: seq<Stmt>, places: seq<nat>, resolves: seq<Stmt>, j: nat): seq<Stmt>
    requires |places| == |prepares| == |resolves| && j <= |resolves|
    decreases |resolves| - j
  {
    if j == |resolves| then []
    else Before(prepares, places, j, 0) + ([resolves[j]] + Emit(prepares, places, resolves, j + 1))
  }

  ghost function RewriteGroup(c: Context, h: Helpers, g: seq<Stmt>, slots: seq<string>): seq<Stmt>
    requires Group(c, g) && |slots| == |g|
  {
    Emit(Prepares(c, h, g, slots), Places(c, g), Resolves(c, h, g, slots), 0)
  }

  // ------------------------------------------------------------------- whole blocks

  /** A rewritten part of the program, the names now in use, and whether a group was found. */
  datatype Rewritten<A> = Rewritten(code: A, names: set<string>, changed: bool)

  ghost function Rewrite(c: Context, h: Helpers, body: seq<Stmt>, names: set<string>): Rewritten<seq<Stmt>>
    requires BlockOk(c, body)
    decreases body, 0
  {
    if body == [] then Rewritten([], names, false)
    else if EarlyAssign(c, body[0]) then
      var n := GroupLength(c, body);
      OkPrefixIsGroup(c, body, n);
      OkSuffix(c, body, n);
      var slots := Slots(n, names);
      var rest := Rewrite(c, h, body[n..], names + SlotSet(slots));
      Rewritten(RewriteGroup(c, h, body[..n], slots) + rest.code, rest.names, true)
    else
      var first := RewriteStmt(c, h, body[0], names);
      var rest := Rewrite(c, h, body[1..], first.names);
      Rewritten([first.code] + rest.code, rest.names, first.changed || rest.changed)
  }

  ghost function SlotSet(slots: seq<string>): set<string> {
    set s | s in slots
  }

  ghost function RewriteStmt(c: Context, h: Helpers, s: Stmt, names: set<string>): Rewritten<Stmt>
    requires StmtOk(c, s)
    decreases s, 1
  {
    match s
    case If(test, body, orelse) =>
      var b := Rewrite(c, h, body, names);
      var e := Rewrite(c, h, orelse, b.names);
      Rewritten(If(test, b.code, e.code), e.names, b.changed || e.changed)
    case Try(body, handlers, orelse, finalbody) =>
      var b := Rewrite(c, h, body, names);
      var e := Rewrite(c, h, orelse, b.names);
      var f := Rewrite(c, h, finalbody, e.names);
      var hs := RewriteHandlers(c, h, handlers, f.names);
      Rewritten(Try(b.code, hs.code, e.code, f.code), hs.names,
                b.changed || e.changed || f.changed || hs.changed)
    case _ => Rewritten(s, names, false)
  }

  ghost function RewriteHandlers(c: Context, h: Helpers, hs: seq<Handler>, names: set<string>): Rewritten<seq<Handler>>
    requires HandlersOk(c, hs)
    decreases hs, 0
  {
    if hs == [] then Rewritten([], names, false)
    else
      var b := Rewrite(c, h, hs[0].body, names);
      var rest := RewriteHandlers(c, h, hs[1..], b.names);
      Rewritten([hs[0].(body := b.code)] + rest.code, rest.names, b.changed || rest.changed)
  }

  lemma {:induction false} OkPrefixIsGroup(c: Context, body: seq<Stmt>, n: nat)
    requires BlockOk(c, body) && n <= GroupLength(c, body)
    ensures Group(c, body[..n])
  {
    forall i | 0 <= i < n ensures |body[i].targets| == 1 && body[i].targets[0].Name? {
      OkAt(c, body, i);
    }
  }

  lemma {:induction false} OkAt(c: Context, body: seq<Stmt>, i: nat)
    requires BlockOk(c, body) && i < |body|
    ensures StmtOk(c, body[i])
  {
    if i > 0 { OkAt(c, body[1..], i - 1); }
  }

  lemma {:induction false} OkSuffix(c: Context, body: seq<Stmt>, n: nat)
    requires BlockOk(c, body) && n <= |body|
    ensures BlockOk(c, body[n..])
  {
    if n > 0 { OkSuffix(c, body[1..], n - 1); assert body[n..] == body[1..][n - 1..]; }
  }

  /** The transformed program and, if anything changed, the names of the two helpers. */
  datatype Transformed = Transformed(code: seq<Stmt>, helpers: Option<Helpers>)

  ghost function HelpersFor(program: seq<Stmt>): (h: Helpers)
    ensures h.prepare !in BlockNames(program) && h.resolve !in BlockNames(program)
    ensures h.prepare != h.resolve && PREPARE <= h.prepare && RESOLVE <= h.resolve
  {
    var prepare := Fresh(BlockNames(program), PREPARE);
    Helpers(prepare, Fresh(BlockNames(program) + {prepare}, RESOLVE))
  }

  ghost function Transform(m: Manifest, program: seq<Stmt>): Transformed {
    var c := ContextOf(m, program);
    if !BlockOk(c, program) then Transformed(program, None)
    else
      var h := HelpersFor(program);
      var r := Rewrite(c, h, program, BlockNames(program) + {h.prepare, h.resolve});
      Transformed(r.code, if r.changed then Some(h) else None)
  }
}
