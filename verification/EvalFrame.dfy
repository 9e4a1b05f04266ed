/**
 Evaluation depends only on the names that occur in an expression, and the thunk of a prepare
 evaluates to exactly the dictionary that the call itself would receive.
 */
module EvalFrame {
  import opened PythonAst
  import opened EarlyReadPass
  import opened GuestSemantics

  lemma {:induction false} EvalSame(p: Python, e: Expr, a: Env, b: Env)
    requires AgreeOn(a, b, Names(e))
    ensures Eval(p, e, a) == Eval(p, e, b)
    decreases e, 1
  {
    match e
    case Name(id) => assert SameAt(a, b, id);
    case Display(_, elts) => EvalAllSame(p, elts, a, b);
    case DictDisplay(items) => EvalItemsSame(p, items, a, b);
    case Subscript(base, index) => EvalSame(p, base, a, b); EvalSame(p, index, a, b);
    case BinOp(_, left, right) => EvalSame(p, left, a, b); EvalSame(p, right, a, b);
    case UnaryOp(_, operand) => EvalSame(p, operand, a, b);
    case BoolOp(isAnd, operands) => EvalBoolSame(p, isAnd, operands, a, b);
    case Compare(first, ops, comparators) =>
      EvalSame(p, first, a, b);
      if Eval(p, first, a).Ok? {
        EvalCompareSame(p, Eval(p, first, a).value, ops, comparators, a, b);
      }
    case _ =>
  }

  lemma {:induction false} EvalAllSame(p: Python, es: seq<Expr>, a: Env, b: Env)
    requires AgreeOn(a, b, NamesOfAll(es))
    ensures EvalAll(p, es, a) == EvalAll(p, es, b)
    decreases es, 0
  {
    if es != [] {
      EvalSame(p, es[0], a, b);
      EvalAllSame(p, es[1..], a, b);
    }
  }

  lemma {:induction false} EvalItemsSame(p: Python, items: seq<Item>, a: Env, b: Env)
    requires AgreeOn(a, b, ItemNames(items))
    ensures EvalItems(p, items, a) == EvalItems(p, items, b)
    decreases items, 0
  {
    if items != [] {
      var i := items[0];
      assert i.key < i && i.value < i;
      EvalSame(p, i.key, a, b);
      EvalSame(p, i.value, a, b);
      EvalItemsSame(p, items[1..], a, b);
    }
  }

  lemma {:induction false} EvalBoolSame(p: Python, isAnd: bool, es: seq<Expr>, a: Env, b: Env)
    requires AgreeOn(a, b, NamesOfAll(es))
    ensures EvalBool(p, isAnd, es, a) == EvalBool(p, isAnd, es, b)
    decreases es, 0
  {
    if es != [] {
      EvalSame(p, es[0], a, b);
      EvalBoolSame(p, isAnd, es[1..], a, b);
    }
  }

  lemma {:induction false} EvalCompareSame(p: Python, left: Value, ops: seq<string>, es: seq<Expr>, a: Env, b: Env)
    requires AgreeOn(a, b, NamesOfAll(es))
    ensures EvalCompare(p, left, ops, es, a) == EvalCompare(p, left, ops, es, b)
    decreases es, 0
  {
    if es != [] && ops != [] {
      EvalSame(p, es[0], a, b);
      if Eval(p, es[0], a).Ok? {
        EvalCompareSame(p, Eval(p, es[0], a).value, ops[1..], es[1..], a, b);
      }
    }
  }

  lemma {:induction false} EvalFuncSame(p: Python, e: Expr, a: Env, b: Env)
    requires AgreeOn(a, b, Names(e))
    ensures EvalFunc(p, e, a) == EvalFunc(p, e, b)
  {
    match e
    case Name(id) => assert SameAt(a, b, id);
    case Attribute(owner, _) => EvalFuncSame(p, owner, a, b);
    case _ =>
  }

  lemma {:induction false} EvalValuesSame(p: Python, kws: seq<Keyword>, a: Env, b: Env)
    requires AgreeOn(a, b, KeywordNames(kws))
    ensures EvalValues(p, kws, a) == EvalValues(p, kws, b)
  {
    if kws != [] {
      EvalSame(p, kws[0].value, a, b);
      EvalValuesSame(p, kws[1..], a, b);
    }
  }

  lemma EvalKeywordsSame(p: Python, kws: seq<Keyword>, a: Env, b: Env)
    requires AgreeOn(a, b, KeywordNames(kws))
    ensures EvalKeywords(p, kws, a) == EvalKeywords(p, kws, b)
  {
    EvalValuesSame(p, kws, a, b);
  }

  // --------------------------------------------------------------------- the thunk

  lemma {:induction false} ItemsAreKeywords(p: Python, kws: seq<Keyword>, env: Env)
    requires forall k :: k in kws ==> k.arg.Some?
    ensures EvalItems(p, ItemsOf(kws), env).Ok? <==> EvalValues(p, kws, env).Ok?
    ensures EvalItems(p, ItemsOf(kws), env).Ok? ==>
      var kvs := EvalItems(p, ItemsOf(kws), env).value;
      && kvs.1 == EvalValues(p, kws, env).value
      && forall i :: 0 <= i < |kws| ==> kvs.0[i] == Str(kws[i].arg.value)
  {
    if kws != [] {
      ItemsAreKeywords(p, kws[1..], env);
      assert ItemsOf(kws)[1..] == ItemsOf(kws[1..]);
      assert Eval(p, Constant(Str(kws[0].arg.value)), env) == Ok(Str(kws[0].arg.value));
    }
  }

  /**
   If the call's keyword arguments evaluate to a dictionary, the thunk evaluates to the pair of
   the canonical tool name and that very dictionary.
   */
  lemma ThunkIsArguments(p: Python, kws: seq<Keyword>, tool: string, env: Env)
    requires forall k :: k in kws ==> k.arg.Some?
    requires EvalKeywords(p, kws, env).Ok?
    ensures Eval(p, Display(true, [Constant(Str(tool)), DictDisplay(ItemsOf(kws))]), env)
         == Ok(Items(true, [Str(tool), EvalKeywords(p, kws, env).value]))
  {
    ItemsAreKeywords(p, kws, env);
    var d := DictDisplay(ItemsOf(kws));
    var kvs := EvalItems(p, ItemsOf(kws), env).value;
    assert Texts(kvs.0) == ArgNames(kws);
    assert Eval(p, d, env) == EvalKeywords(p, kws, env);
    EvalPair(p, Constant(Str(tool)), d, env);
  }

  lemma EvalPair(p: Python, e0: Expr, e1: Expr, env: Env)
    requires Eval(p, e0, env).Ok? && Eval(p, e1, env).Ok?
    ensures EvalAll(p, [e0, e1], env) == Ok([Eval(p, e0, env).value, Eval(p, e1, env).value])
  {
    var v1 := Eval(p, e1, env).value;
    assert [e0, e1][1..] == [e1] && [e1][1..] == [];
    assert EvalAll(p, [e1], env) == Ok([v1] + []);
    assert [v1] + [] == [v1];
    assert [Eval(p, e0, env).value] + [v1] == [Eval(p, e0, env).value, v1];
  }
}
