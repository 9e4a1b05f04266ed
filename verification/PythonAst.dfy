/**
 The part of Python's abstract syntax that the early-read pass inspects, the manifest it
 consults, and the names that occur in a program.

 Nodes that the pass never accepts are kept as `OtherExpr` and `OtherStmt`, so a program of
 any shape can be given to the pass.
 */
module PythonAst {
  import opened Options

  /** A dotted Python path is the sequence of its parts: `ns.tool` is `["ns", "tool"]`. */
  type Path = seq<string>

  datatype Exc =
    | RuntimeError(message: string)
    | TypeError(message: string)
    | NameError(id: string)
    | AttributeError(attr: string)
    | Unsupported
    | OtherExc(code: int)

  datatype Value =
    | NoneV
    | Bool(b: bool)
    | Int(n: int)
    | Float(bits: int)
    | Str(text: string)
    | Items(isTuple: bool, elts: seq<Value>)
    | Mapping(keys: seq<string>, values: seq<Value>)
    | Caught(exc: Exc)
    | Exported(path: Path)       // a tool or a namespace put in scope by `configure`
    | PrepareHelper              // bootstrap.prepare_call
    | ResolveHelper              // bootstrap.resolve_call
    | OtherValue(id: int)

  /**
   What programs, operators and tools have to do with. The helper that starts a read is no such
   value: only the pass gives a program a name for it.
   */
  type Datum = v: Value | !v.PrepareHelper? witness NoneV

  datatype Expr =
    | Constant(value: Datum)
    | Name(id: string)
    | Display(isTuple: bool, elts: seq<Expr>)
    | DictDisplay(items: seq<Item>)
    | NoKey                      // the absent key of `{**x}`
    | Subscript(base: Expr, index: Expr)
    | BinOp(op: string, left: Expr, right: Expr)
    | UnaryOp(op: string, operand: Expr)
    | BoolOp(isAnd: bool, operands: seq<Expr>)
    | Compare(first: Expr, ops: seq<string>, comparators: seq<Expr>)
    | Attribute(owner: Expr, attr: string)
    | Call(func: Expr, args: seq<Expr>, keywords: seq<Keyword>)
    | Lambda(body: Expr)
    | OtherExpr(node: int)

  /** One `key: value` of a dictionary display. */
  datatype Item = Item(key: Expr, value: Expr)

  /** `arg` is absent for `**mapping`. */
  datatype Keyword = Keyword(arg: Option<string>, value: Expr)

  datatype Stmt =
    | Assign(targets: seq<Expr>, value: Expr)
    | If(test: Expr, body: seq<Stmt>, orelse: seq<Stmt>)
    | Try(body: seq<Stmt>, handlers: seq<Handler>, orelse: seq<Stmt>, finalbody: seq<Stmt>)
    | Pass
    | ExprStmt(value: Expr)
    | OtherStmt(node: int)

  datatype Handler = Handler(kind: Option<Expr>, name: Option<string>, body: seq<Stmt>)

  // ---------------------------------------------------------------- manifest

  /** One tool as the Guest sees it: canonical name, Python path, early-read permission. */
  datatype Spec = Spec(name: string, path: Path, allowEarlyRead: bool)

  type Manifest = seq<Spec>

  /** `path_to_tool.get(path)`: a dictionary comprehension keeps the last entry of a key. */
  function ToolAt(m: Manifest, path: Path): (r: Option<string>)
    ensures r.Some? ==> exists i :: 0 <= i < |m| && m[i].path == path && m[i].name == r.value
  {
    if m == [] then None
    else if m[|m| - 1].path == path then Some(m[|m| - 1].name)
    else ToolAt(m[..|m| - 1], path)
  }

  predicate IsEarly(m: Manifest, tool: string) {
    exists i :: 0 <= i < |m| && m[i].name == tool && m[i].allowEarlyRead
  }

  predicate IsKnown(m: Manifest, tool: string) {
    exists i :: 0 <= i < |m| && m[i].name == tool
  }

  predicate IsToolRoot(m: Manifest, id: string) {
    exists i :: 0 <= i < |m| && m[i].path != [] && m[i].path[0] == id
  }

  // ------------------------------------------------------- names in a program

  function Names(e: Expr): set<string>
    decreases e, 1
  {
    match e
    case Name(id) => {id}
    case Display(_, elts) => NamesOfAll(elts)
    case DictDisplay(items) => ItemNames(items)
    case Subscript(base, index) => Names(base) + Names(index)
    case BinOp(_, left, right) => Names(left) + Names(right)
    case UnaryOp(_, operand) => Names(operand)
    case BoolOp(_, operands) => NamesOfAll(operands)
    case Compare(first, _, comparators) => Names(first) + NamesOfAll(comparators)
    case Attribute(owner, _) => Names(owner)
    case Call(func, args, keywords) => Names(func) + NamesOfAll(args) + KeywordNames(keywords)
    case Lambda(body) => Names(body)
    case Constant(_) => {}
    case NoKey => {}
    case OtherExpr(_) => {}
  }

  function NamesOfAll(es: seq<Expr>): set<string>
    decreases es, 0
  {
    if es == [] then {} else Names(es[0]) + NamesOfAll(es[1..])
  }

  function ItemNames(items: seq<Item>): set<string>
    decreases items, 0
  {
    if items == [] then {} else
      var i := items[0];
      assert i.key < i && i.value < i;
      Names(i.key) + Names(i.value) + ItemNames(items[1..])
  }

  function KeywordNames(kws: seq<Keyword>): set<string>
    decreases kws, 0
  {
    if kws == [] then {} else
      var k := kws[0];
      assert k.value < k;
      Names(k.value) + KeywordNames(kws[1..])
  }

  /** Every `ast.Name` identifier of a block together with every `except ... as` name. */
  function BlockNames(body: seq<Stmt>): set<string>
    decreases body, 0
  {
    if body == [] then {} else StmtNames(body[0]) + BlockNames(body[1..])
  }

  function StmtNames(s: Stmt): set<string>
    decreases s, 1
  {
    match s
    case Assign(targets, value) => NamesOfAll(targets) + Names(value)
    case If(test, body, orelse) => Names(test) + BlockNames(body) + BlockNames(orelse)
    case Try(body, handlers, orelse, finalbody) =>
      BlockNames(body) + HandlerNames(handlers) + BlockNames(orelse) + BlockNames(finalbody)
    case ExprStmt(value) => Names(value)
    case Pass => {}
    case OtherStmt(_) => {}
  }

  function HandlerNames(hs: seq<Handler>): set<string>
    decreases hs, 0
  {
    if hs == [] then {} else
      (if hs[0].kind.Some? then Names(hs[0].kind.value) else {})
      + (if hs[0].name.Some? then {hs[0].name.value} else {})
      + BlockNames(hs[0].body) + HandlerNames(hs[1..])
  }

  /** Names with a Store context: in an accepted program, the targets of assignments. */
  function StoredNames(body: seq<Stmt>): set<string>
    decreases body, 0
  {
    if body == [] then {} else StmtStoredNames(body[0]) + StoredNames(body[1..])
  }

  function StmtStoredNames(s: Stmt): set<string>
    decreases s, 1
  {
    match s
    case Assign(targets, _) => NamesOfAll(targets)
    case If(_, body, orelse) => StoredNames(body) + StoredNames(orelse)
    case Try(body, handlers, orelse, finalbody) =>
      StoredNames(body) + HandlerStoredNames(handlers) + StoredNames(orelse) + StoredNames(finalbody)
    case ExprStmt(_) => {}
    case Pass => {}
    case OtherStmt(_) => {}
  }

  function HandlerStoredNames(hs: seq<Handler>): set<string>
    decreases hs, 0
  {
    if hs == [] then {} else StoredNames(hs[0].body) + HandlerStoredNames(hs[1..])
  }
}
