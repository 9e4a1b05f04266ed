/**
 What a program means: a big-step semantics of the accepted statements, with exceptions, the
 variables of the module scope and the Host's run state. Tool calls and the two helpers of the
 early-read pass behave as guest/bootstrap.py and guest/pysolate.py define them.

 Python's operators, truth values, exception matching and JSON encoding are parameters: every
 property holds whatever they are.
 */
module GuestSemantics {
  import opened Options
  import opened PythonAst
  import opened RunFutures

  datatype Result<+T> = Ok(value: T) | Raise(exc: Exc)

  /** `json.dumps` may raise; the Host may reject what it produced; else a request is made. */
  datatype Encoded = DumpsRaises(exc: Exc) | HostRejects(error: string) | Encoded(args: string)

  datatype Python = Python(
    host: Host,
    builtins: map<string, Datum>,
    apply: (string, seq<Value>) -> Result<Datum>,
    truthy: Value -> bool,
    catches: (Exc, Value) -> Result<bool>,
    encode: (string, Value) -> Encoded)

  type Env = map<string, Value>

  datatype State = State(env: Env, run: Run)

  datatype Outcome = Normal(state: State) | Raised(exc: Exc, state: State)

  ghost predicate SameAt(a: Env, b: Env, id: string) {
    (id in a <==> id in b) && (id in a ==> a[id] == b[id])
  }

  ghost predicate AgreeOn(a: Env, b: Env, names: set<string>) {
    forall id :: id in names ==> SameAt(a, b, id)
  }

  // ---------------------------------------------------------------- expressions

  function Lookup(p: Python, env: Env, id: string): Result<Value> {
    if id in env then Ok(env[id])
    else if id in p.builtins then Ok(p.builtins[id])
    else Raise(NameError(id))
  }

  predicate Distinct(keys: seq<string>) {
    forall i, j :: 0 <= i < j < |keys| ==> keys[i] != keys[j]
  }

  /** A dictionary; with distinct string keys it is kept as its keys and values in order. */
  function BuildDict(p: Python, keys: seq<Value>, values: seq<Value>): Result<Value> {
    if (forall k :: k in keys ==> k.Str?) && Distinct(Texts(keys)) then
      Ok(Mapping(Texts(keys), values))
    else p.apply("dict", keys + values)
  }

  function Texts(keys: seq<Value>): (r: seq<string>)
    requires forall k :: k in keys ==> k.Str?
    ensures |r| == |keys|
    ensures forall i :: 0 <= i < |r| ==> r[i] == keys[i].text
  {
    if keys == [] then [] else [keys[0].text] + Texts(keys[1..])
  }

  function Eval(p: Python, e: Expr, env: Env): Result<Value>
    decreases e, 1
  {
    match e
    case Constant(value) => Ok(value)
    case Name(id) => Lookup(p, env, id)
    case Display(isTuple, elts) =>
      (match EvalAll(p, elts, env)
       case Ok(vs) => Ok(Items(isTuple, vs))
       case Raise(x) => Raise(x))
    case DictDisplay(items) =>
      (match EvalItems(p, items, env)
       case Raise(x) => Raise(x)
       case Ok(kvs) => BuildDict(p, kvs.0, kvs.1))
    case Subscript(base, index) => EvalBinary(p, "[]", Eval(p, base, env), Eval(p, index, env))
    case BinOp(op, left, right) => EvalBinary(p, op, Eval(p, left, env), Eval(p, right, env))
    case UnaryOp(op, operand) =>
      (match Eval(p, operand, env)
       case Ok(v) => p.apply(op, [v])
       case Raise(x) => Raise(x))
    case BoolOp(isAnd, operands) => EvalBool(p, isAnd, operands, env)
    case Compare(first, ops, comparators) =>
      (match Eval(p, first, env)
       case Ok(v) => EvalCompare(p, v, ops, comparators, env)
       case Raise(x) => Raise(x))
    case NoKey => Raise(Unsupported)
    case Attribute(_, _) => Raise(Unsupported)
    case Call(_, _, _) => Raise(Unsupported)
    case Lambda(_) => Raise(Unsupported)
    case OtherExpr(_) => Raise(Unsupported)
  }

  /** Both operands are free of effects, so only which exception comes first matters. */
  function EvalBinary(p: Python, op: string, left: Result<Value>, right: Result<Value>): Result<Value> {
    match left
    case Raise(x) => Raise(x)
    case Ok(l) =>
      match right
      case Raise(x) => Raise(x)
      case Ok(r) => p.apply(op, [l, r])
  }

  function EvalAll(p: Python, es: seq<Expr>, env: Env): (r: Result<seq<Value>>)
    ensures r.Ok? ==> |r.value| == |es|
    decreases es, 0
  {
    if es == [] then Ok([])
    else match Eval(p, es[0], env)
      case Raise(x) => Raise(x)
      case Ok(v) =>
        match EvalAll(p, es[1..], env)
        case Raise(x) => Raise(x)
        case Ok(vs) => Ok([v] + vs)
  }

  /** A key is evaluated before its value, and an item before the next one. */
  function EvalItems(p: Python, items: seq<Item>, env: Env): (r: Result<(seq<Value>, seq<Value>)>)
    ensures r.Ok? ==> |r.value.0| == |r.value.1| == |items|
    decreases items, 0
  {
    if items == [] then Ok(([], []))
    else
      var i := items[0];
      assert i.key < i && i.value < i;
      match Eval(p, i.key, env)
      case Raise(x) => Raise(x)
      case Ok(k) =>
        match Eval(p, i.value, env)
        case Raise(x) => Raise(x)
        case Ok(v) =>
          match EvalItems(p, items[1..], env)
          case Raise(x) => Raise(x)
          case Ok(rest) => Ok(([k] + rest.0, [v] + rest.1))
  }

  function EvalBool(p: Python, isAnd: bool, operands: seq<Expr>, env: Env): Result<Value>
    decreases operands, 0
  {
    if operands == [] then Raise(Unsupported)
    else match Eval(p, operands[0], env)
      case Raise(x) => Raise(x)
      case Ok(v) =>
        if |operands| == 1 || p.truthy(v) != isAnd then Ok(v)
        else EvalBool(p, isAnd, operands[1..], env)
  }

  /** `a < b < c` is `a < b and b < c` with `b` evaluated once. */
  function EvalCompare(p: Python, left: Value, ops: seq<string>, comparators: seq<Expr>, env: Env): Result<Value>
    decreases comparators, 0
  {
    if comparators == [] || ops == [] then Ok(left)
    else match Eval(p, comparators[0], env)
      case Raise(x) => Raise(x)
      case Ok(right) =>
        match p.apply(ops[0], [left, right])
        case Raise(x) => Raise(x)
        case Ok(v) =>
          if |comparators| == 1 || !p.truthy(v) then Ok(v)
          else EvalCompare(p, right, ops[1..], comparators[1..], env)
  }

  // ----------------------------------------------------------------- tool calls

  predicate IsPrefix(a: Path, b: Path) {
    |a| <= |b| && b[..|a|] == a
  }

  /** A function expression: a name, or an attribute of a tool namespace. */
  function EvalFunc(p: Python, e: Expr, env: Env): Result<Value> {
    match e
    case Name(id) => Lookup(p, env, id)
    case Attribute(owner, attr) =>
      (match EvalFunc(p, owner, env)
       case Raise(x) => Raise(x)
       case Ok(v) =>
         if !v.Exported? then Raise(Unsupported)
         else if exists i :: 0 <= i < |p.host.manifest| && IsPrefix(v.path + [attr], p.host.manifest[i].path) then
           Ok(Exported(v.path + [attr]))
         else Raise(AttributeError(attr)))
    case _ => Raise(Unsupported)
  }

  /**
   Keyword arguments are evaluated in order and become the dictionary `**args`. Python's
   compiler refuses a repeated keyword.
   */
  function EvalKeywords(p: Python, kws: seq<Keyword>, env: Env): Result<Value> {
    if (exists k :: k in kws && k.arg.None?) || !Distinct(ArgNames(kws)) then Raise(Unsupported)
    else match EvalValues(p, kws, env)
      case Raise(x) => Raise(x)
      case Ok(values) => Ok(Mapping(ArgNames(kws), values))
  }

  function EvalValues(p: Python, kws: seq<Keyword>, env: Env): (r: Result<seq<Value>>)
    ensures r.Ok? ==> |r.value| == |kws|
  {
    if kws == [] then Ok([])
    else match Eval(p, kws[0].value, env)
      case Raise(x) => Raise(x)
      case Ok(v) =>
        match EvalValues(p, kws[1..], env)
        case Raise(x) => Raise(x)
        case Ok(vs) => Ok([v] + vs)
  }

  function ArgNames(kws: seq<Keyword>): (r: seq<string>)
    requires forall k :: k in kws ==> k.arg.Some?
    ensures |r| == |kws|
    ensures forall i :: 0 <= i < |r| ==> r[i] == kws[i].arg.value
  {
    if kws == [] then [] else [kws[0].arg.value] + ArgNames(kws[1..])
  }

  predicate HasKeyword(kws: seq<Keyword>, id: string) {
    exists i :: 0 <= i < |kws| && kws[i].arg == Some(id)
  }

  function Decode(response: Response): Result<Value> {
    match response
    case Success(v) => Ok(v)
    case Failure(error) => Raise(RuntimeError(error))
  }

  /** `invoke_tool`: encode, cross into the Host, decode. */
  function InvokeTool(p: Python, tool: string, args: Value, run: Run): (Result<Value>, Run) {
    match p.encode(tool, args)
    case DumpsRaises(x) => (Raise(x), run)
    case HostRejects(error) => (Decode(Failure(error)), run)
    case Encoded(text) =>
      var (response, run') := Invoke(p.host, run, Request(tool, text));
      (Decode(response), run')
  }

  /** `prepare_call`: any exception of the thunk or of the encoding gives handle 0. */
  function PrepareCall(p: Python, thunk: Expr, env: Env, run: Run): (nat, Run) {
    match Eval(p, thunk, env)
    case Raise(_) => (0, run)
    case Ok(pair) =>
      if !(pair.Items? && |pair.elts| == 2 && pair.elts[0].Str?) then (0, run)
      else match p.encode(pair.elts[0].text, pair.elts[1])
        case DumpsRaises(_) => (0, run)
        case HostRejects(_) => (0, run)
        case Encoded(text) => Prepare(p.host, run, Request(pair.elts[0].text, text))
  }

  /** `resolve_call`; a request the Host rejects does not reach the future. */
  function ResolveCall(p: Python, handle: nat, tool: string, args: Value, run: Run): (Result<Value>, Run) {
    match p.encode(tool, args)
    case DumpsRaises(x) => (Raise(x), run)
    case HostRejects(error) => (Decode(Failure(error)), run)
    case Encoded(text) =>
      var (response, run') := Resolve(p.host, run, handle, Request(tool, text));
      (Decode(response), run')
  }

  /** Python's complaint when a keyword is bound by position as well. */
  function Twice(parameter: string): Exc {
    TypeError("got multiple values for argument '" + parameter + "'")
  }

  function EvalCall(p: Python, func: Expr, args: seq<Expr>, kws: seq<Keyword>, st: State): (Result<Value>, Run) {
    match EvalFunc(p, func, st.env)
    case Raise(x) => (Raise(x), st.run)
    case Ok(f) =>
      match f
      case Exported(path) => EvalToolCall(p, path, args, kws, st)
      case PrepareHelper =>
        if |args| == 1 && args[0].Lambda? && kws == [] then
          var (handle, run) := PrepareCall(p, args[0].body, st.env, st.run);
          (Ok(Int(handle)), run)
        else (Raise(Unsupported), st.run)
      case ResolveHelper => EvalResolveCall(p, args, kws, st)
      case _ => (Raise(TypeError("object is not callable")), st.run)
  }

  /** `_Tool.__call__(self, **args)`: a keyword `self` is bound twice. */
  function EvalToolCall(p: Python, path: Path, args: seq<Expr>, kws: seq<Keyword>, st: State): (Result<Value>, Run) {
    if args != [] then (Raise(Unsupported), st.run)
    else match EvalKeywords(p, kws, st.env)
      case Raise(x) => (Raise(x), st.run)
      case Ok(values) =>
        match ToolAt(p.host.manifest, path)
        case None => (Raise(TypeError("object is not callable")), st.run)
        case Some(tool) =>
          if HasKeyword(kws, "self") then (Raise(Twice("self")), st.run)
          else InvokeTool(p, tool, values, st.run)
  }

  /** `resolve_call(handle, name, **args)`: a keyword `handle` or `name` is bound twice. */
  function EvalResolveCall(p: Python, args: seq<Expr>, kws: seq<Keyword>, st: State): (Result<Value>, Run) {
    match EvalAll(p, args, st.env)
    case Raise(x) => (Raise(x), st.run)
    case Ok(positional) =>
      match EvalKeywords(p, kws, st.env)
      case Raise(x) => (Raise(x), st.run)
      case Ok(values) =>
        if HasKeyword(kws, "handle") then (Raise(Twice("handle")), st.run)
        else if HasKeyword(kws, "name") then (Raise(Twice("name")), st.run)
        else if |positional| == 2 && positional[0].Int? && positional[0].n >= 0 && positional[1].Str? then
          ResolveCall(p, positional[0].n, positional[1].text, values, st.run)
        else (Raise(Unsupported), st.run)
  }

  // ------------------------------------------------------------------ statements

  function ExecBlock(p: Python, body: seq<Stmt>, st: State): Outcome
    decreases body, 0
  {
    if body == [] then Normal(st)
    else match ExecStmt(p, body[0], st)
      case Raised(x, st') => Raised(x, st')
      case Normal(st') => ExecBlock(p, body[1..], st')
  }

  function ExecStmt(p: Python, s: Stmt, st: State): Outcome
    decreases s, 1
  {
    match s
    case Assign(targets, value) => ExecAssign(p, targets, value, st)
    case If(test, body, orelse) =>
      (match Eval(p, test, st.env)
       case Raise(x) => Raised(x, st)
       case Ok(v) => if p.truthy(v) then ExecBlock(p, body, st) else ExecBlock(p, orelse, st))
    case Try(body, handlers, orelse, finalbody) =>
      var guarded := match ExecBlock(p, body, st)
        case Normal(st') => ExecBlock(p, orelse, st')
        case Raised(x, st') => ExecHandlers(p, handlers, x, st');
      (match ExecBlock(p, finalbody, guarded.state)
       case Raised(x, st') => Raised(x, st')
       case Normal(st') => guarded.(state := st'))
    case Pass => Normal(st)
    case ExprStmt(value) => if value.Constant? then Normal(st) else Raised(Unsupported, st)
    case OtherStmt(_) => Raised(Unsupported, st)
  }

  function ExecAssign(p: Python, targets: seq<Expr>, value: Expr, st: State): Outcome {
    if !(|targets| == 1 && targets[0].Name?) then Raised(Unsupported, st)
    else
      var (r, run) := if value.Call? then EvalCall(p, value.func, value.args, value.keywords, st)
                      else (Eval(p, value, st.env), st.run);
      match r
      case Raise(x) => Raised(x, st.(run := run))
      case Ok(v) => Normal(State(st.env[targets[0].id := v], run))
  }

  /** The first handler whose type matches runs; its `as` name is gone when it ends. */
  function ExecHandlers(p: Python, hs: seq<Handler>, x: Exc, st: State): Outcome
    decreases hs, 0
  {
    if hs == [] then Raised(x, st)
    else match HandlerMatches(p, hs[0].kind, x, st.env)
      case Raise(y) => Raised(y, st)
      case Ok(matched) =>
        if !matched then ExecHandlers(p, hs[1..], x, st)
        else ExecHandlerBody(p, hs[0].name, hs[0].body, x, st)
  }

  function ExecHandlerBody(p: Python, name: Option<string>, body: seq<Stmt>, x: Exc, st: State): Outcome
    decreases body, 1
  {
    match name
    case None => ExecBlock(p, body, st)
    case Some(id) =>
      var r := ExecBlock(p, body, st.(env := st.env[id := Caught(x)]));
      r.(state := r.state.(env := r.state.env - {id}))
  }

  function HandlerMatches(p: Python, kind: Option<Expr>, x: Exc, env: Env): Result<bool> {
    match kind
    case None => Ok(true)
    case Some(e) =>
      match Eval(p, e, env)
      case Raise(y) => Raise(y)
      case Ok(v) => p.catches(x, v)
  }
}
