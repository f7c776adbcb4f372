/** backend/src/ir_optimizer.js: bottom-up folding of `+` on literal operands, and the
    builtin tag on declarations without a body. */
module IROptimizer {
  import opened Outcomes
  import opened Text
  import opened Ir
  import IRGenerator

  /** The literal a `+` of two literals folds to: numbers add, strings concatenate, and a
      mix of the two kinds is not folded. */
  function FoldPlus(a: Value, b: Value): Option<Value> {
    if a.Num? && b.Num? then Some(Num(Add(a.n, b.n)))
    else if a.Str? && b.Str? then Some(Str(a.s + b.s))
    else None
  }

  /** `optimizeExpression`. */
  function OptimizeExpr(e: IrExpr): (r: IrExpr)
    ensures e.CallIr? && e.builtin ==> r == e
    ensures e.Literal? || e.Variable? || e.MemberIr? ==> r == e
    ensures r.Literal? ==> e.Literal? || (e.BinaryIr? && e.operator == "+")
    ensures r.BinaryIr? ==> e.BinaryIr? && r.operator == e.operator
    ensures r.CallIr? <==> e.CallIr?
    decreases e
  {
    match e
    case BinaryIr(op, left, right) =>
      var l := OptimizeExpr(left);
      var rt := OptimizeExpr(right);
      if l.Literal? && rt.Literal? && op == "+" && FoldPlus(l.value, rt.value).Some? then
        Literal(FoldPlus(l.value, rt.value).value)
      else BinaryIr(op, l, rt)
    case CallIr(callee, args, builtin) =>
      if builtin then e
      else CallIr(OptimizeExpr(callee), seq(|args|, i requires 0 <= i < |args| => OptimizeExpr(args[i])), builtin)
    case _ => e
  }

  /** Optimizing an optimized expression changes nothing: every fold decision depends only
      on children that are already optimized. */
  lemma {:induction false} OptimizeExprIdempotent(e: IrExpr)
    ensures OptimizeExpr(OptimizeExpr(e)) == OptimizeExpr(e)
    decreases e
  {
    match e
    case BinaryIr(op, left, right) =>
      OptimizeExprIdempotent(left);
      OptimizeExprIdempotent(right);
    case CallIr(callee, args, builtin) =>
      if !builtin {
        OptimizeExprIdempotent(callee);
        var once := OptimizeExpr(e);
        forall i | 0 <= i < |args|
          ensures OptimizeExpr(once.arguments[i]) == once.arguments[i]
        {
          OptimizeExprIdempotent(args[i]);
        }
        assert OptimizeExpr(once).arguments == once.arguments;
      }
    case _ =>
  }

  /** JavaScript `+` on two values: numeric addition, or concatenation with the number's
      text when either side is a string. */
  function JsPlus(a: Value, b: Value): (r: Value)
    ensures FoldPlus(a, b).Some? ==> r == FoldPlus(a, b).value
  {
    match (a, b)
    case (Num(x), Num(y)) => Num(Add(x, y))
    case _ => Str(ValueText(a) + ValueText(b))
  }

  /** The value of an expression built from literals, variables bound in `env` and `+`;
      None for anything else (calls, members, other operators, unbound variables). */
  function Eval(env: map<string, Value>, e: IrExpr): Option<Value> {
    match e
    case Literal(v) => Some(v)
    case Variable(name) => if name in env then Some(env[name]) else None
    case BinaryIr(op, left, right) =>
      if op != "+" then None
      else
        var l := Eval(env, left);
        var rt := Eval(env, right);
        if l.Some? && rt.Some? then Some(JsPlus(l.value, rt.value)) else None
    case _ => None
  }

  /** Folding preserves meaning: in every environment, the optimized expression has the
      value of the original (or, like it, none). */
  lemma {:induction false} OptimizeExprPreservesValue(env: map<string, Value>, e: IrExpr)
    ensures Eval(env, OptimizeExpr(e)) == Eval(env, e)
    decreases e
  {
    match e
    case BinaryIr(op, left, right) =>
      OptimizeExprPreservesValue(env, left);
      OptimizeExprPreservesValue(env, right);
    case _ =>
  }

  /** A `+` tree whose leaves are all number literals (`numbers`) or all string literals. */
  predicate UniformSum(e: IrExpr, numbers: bool) {
    match e
    case Literal(v) => v.Num? == numbers
    case BinaryIr(op, left, right) => op == "+" && UniformSum(left, numbers) && UniformSum(right, numbers)
    case _ => false
  }

  /** Such a tree folds completely to a single literal of the same kind. */
  lemma {:induction false} UniformSumFolds(e: IrExpr, numbers: bool)
    requires UniformSum(e, numbers)
    ensures OptimizeExpr(e).Literal? && OptimizeExpr(e).value.Num? == numbers
    decreases e
  {
    if e.BinaryIr? {
      UniformSumFolds(e.left, numbers);
      UniformSumFolds(e.right, numbers);
    }
  }

  /** Folding never changes which calls are tagged builtin. */
  lemma {:induction false} OptimizeKeepsTags(e: IrExpr)
    requires IRGenerator.TagsExact(e)
    ensures IRGenerator.TagsExact(OptimizeExpr(e))
    decreases e
  {
    match e
    case BinaryIr(op, left, right) =>
      OptimizeKeepsTags(left);
      OptimizeKeepsTags(right);
    case CallIr(callee, args, builtin) =>
      if !builtin {
        OptimizeKeepsTags(callee);
        assert OptimizeExpr(callee).Variable? <==> callee.Variable?;
        assert callee.Variable? ==> OptimizeExpr(callee) == callee;
        var r := OptimizeExpr(e);
        forall i | 0 <= i < |args|
          ensures IRGenerator.TagsExact(r.arguments[i])
        {
          OptimizeKeepsTags(args[i]);
        }
      }
    case _ =>
  }

  /** `optimizeStatements`: each statement's expression is optimized. */
  function OptimizeStatements(body: seq<IrStmt>): (r: seq<IrStmt>)
    ensures |r| == |body|
    ensures forall i :: 0 <= i < |body| ==>
      r[i].ReturnIr? == body[i].ReturnIr? && r[i].expression == OptimizeExpr(body[i].expression)
  {
    seq(|body|, i requires 0 <= i < |body| =>
      match body[i]
      case ReturnIr(e) => ReturnIr(OptimizeExpr(e))
      case ExprStmtIr(e) => ExprStmtIr(OptimizeExpr(e)))
  }

  /** One node of `optimize`: a declaration with a non-empty body gets its body optimized,
      any other declaration is tagged builtin, and other nodes are left alone. */
  function OptimizeNode(n: IrNode): (r: IrNode)
    ensures r.FunctionDecl? <==> n.FunctionDecl?
    ensures !n.FunctionDecl? ==> r == n
    ensures n.FunctionDecl? ==>
      r.name == n.name && r.parameters == n.parameters && r.returnType == n.returnType &&
      r.line == n.line && r.body.Some? == n.body.Some?
    ensures n.FunctionDecl? ==>
      (r.builtin <==> n.builtin || n.body.None? || n.body.value == [])
  {
    if n.FunctionDecl? then
      if HasBody(n) then n.(body := Some(OptimizeStatements(n.body.value)))
      else n.(builtin := true)
    else n
  }

  function OptimizeAll(ir: seq<IrNode>): (r: seq<IrNode>)
    ensures |r| == |ir|
    ensures forall i :: 0 <= i < |ir| ==> r[i] == OptimizeNode(ir[i])
  {
    seq(|ir|, i requires 0 <= i < |ir| => OptimizeNode(ir[i]))
  }

  lemma OptimizeStatementsIdempotent(body: seq<IrStmt>)
    ensures OptimizeStatements(OptimizeStatements(body)) == OptimizeStatements(body)
  {
    var once := OptimizeStatements(body);
    forall i | 0 <= i < |body|
      ensures OptimizeStatements(once)[i] == once[i]
    {
      OptimizeExprIdempotent(body[i].expression);
    }
  }

  /** Re-running the optimizer on its own output changes nothing. */
  lemma OptimizeAllIdempotent(ir: seq<IrNode>)
    ensures OptimizeAll(OptimizeAll(ir)) == OptimizeAll(ir)
  {
    forall i | 0 <= i < |ir|
      ensures OptimizeNode(OptimizeNode(ir[i])) == OptimizeNode(ir[i])
    {
      var n := ir[i];
      if HasBody(n) {
        OptimizeStatementsIdempotent(n.body.value);
      }
    }
  }

  /** `optimize`: the nodes of `ir` are rewritten in place, and the list returned is the
      rewritten list. */
  method Optimize(ir: array<IrNode>) returns (r: seq<IrNode>)
    modifies ir
    ensures ir[..] == OptimizeAll(old(ir[..]))
    ensures r == ir[..]
  {
    ghost var original := ir[..];
    var i := 0;
    while i < ir.Length
      invariant 0 <= i <= ir.Length
      invariant ir[..i] == OptimizeAll(original[..i])
      invariant ir[i..] == original[i..]
    {
      var instr := ir[i];
      assert instr == original[i];
      if instr.FunctionDecl? {
        if HasBody(instr) {
          instr := instr.(body := Some(OptimizeStatements(instr.body.value)));
        } else {
          instr := instr.(builtin := true);
        }
      }
      ir[i] := instr;
      assert original[..i + 1] == original[..i] + [original[i]];
      i := i + 1;
    }
    r := ir[..];
  }
}
