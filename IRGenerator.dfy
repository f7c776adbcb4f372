/** backend/src/ir_generator.js: the structural lowering of the syntax tree to the IR. */
module IRGenerator {
  import opened Outcomes
  import opened Text
  import opened Ast
  import opened Ir
  import Parser

  predicate IsQuote(c: char) { c == '"' || c == '\'' }

  /** `replace(/^['"]|['"]$/g, "")`: one quote character is dropped from the front, then
      one from the end of what remains. */
  function StripQuotes(s: string): (r: string)
    ensures var k := if |s| > 0 && IsQuote(s[0]) then 1 else 0;
            k + |r| <= |s| && r == s[k..k + |r|]
    ensures |r| >= |s| - 2
    ensures |s| > 0 && !IsQuote(s[0]) && !IsQuote(s[|s| - 1]) ==> r == s
  {
    var t := if |s| > 0 && IsQuote(s[0]) then s[1..] else s;
    if |t| > 0 && IsQuote(t[|t| - 1]) then t[..|t| - 1] else t
  }

  /** A string-literal token, quotes included, loses exactly its two quotes. */
  lemma StripQuotesOfLiteral(q: char, body: string)
    requires IsQuote(q)
    ensures StripQuotes([q] + body + [q]) == body
  {
    var s := [q] + body + [q];
    assert s[1..] == body + [q];
    assert (body + [q])[..|body|] == body;
  }

  /** Whether a call to `callee` is tagged as a call of a reserved builtin. */
  predicate ReservedCallee(callee: Expr) {
    callee.Ident? && callee.name in Parser.ReservedBuiltins
  }

  /** `generateExpressionIR`. A member access's property, an identifier node in the
      source, lowers to the variable of that name. */
  function LowerExpr(e: Expr): (r: IrExpr)
    decreases e
  {
    match e
    case NumberLit(text) => Literal(Num(ParseNumber(text)))
    case StringLit(text) => Literal(Str(StripQuotes(text)))
    case Ident(name) => Variable(name)
    case Binary(op, left, right) => BinaryIr(op, LowerExpr(left), LowerExpr(right))
    case Call(callee, args) =>
      CallIr(LowerExpr(callee), seq(|args|, i requires 0 <= i < |args| => LowerExpr(args[i])),
             ReservedCallee(callee))
    case Member(obj, property) => MemberIr(LowerExpr(obj), Variable(property))
  }

  /** Every call node of `e` carries `builtin` exactly when its callee is a variable named
      in the reserved list. */
  predicate TagsExact(e: IrExpr) {
    match e
    case Literal(_) => true
    case Variable(_) => true
    case BinaryIr(_, left, right) => TagsExact(left) && TagsExact(right)
    case CallIr(callee, args, builtin) =>
      (builtin <==> callee.Variable? && callee.name in Parser.ReservedBuiltins) &&
      TagsExact(callee) && forall i :: 0 <= i < |args| ==> TagsExact(args[i])
    case MemberIr(obj, property) => TagsExact(obj) && TagsExact(property)
  }

  /** The builtin tag set by the lowering is exact throughout the tree: only an identifier
      lowers to a variable, so a call's callee is a variable iff it was an identifier. */
  lemma {:induction false} LowerTagsExact(e: Expr)
    ensures TagsExact(LowerExpr(e))
    decreases e
  {
    match e
    case NumberLit(_) =>
    case StringLit(_) =>
    case Ident(_) =>
    case Binary(_, left, right) =>
      LowerTagsExact(left);
      LowerTagsExact(right);
    case Call(callee, args) =>
      LowerTagsExact(callee);
      assert LowerExpr(callee).Variable? <==> callee.Ident?;
      forall i | 0 <= i < |args|
        ensures TagsExact(LowerExpr(args[i]))
      {
        LowerTagsExact(args[i]);
      }
    case Member(obj, property) =>
      LowerTagsExact(obj);
  }

  /** A numeric literal the lexer produces from a natural number's digits becomes that
      number. */
  lemma NumberOfNatText(n: nat)
    ensures LowerExpr(NumberLit(NatText(n))) == Literal(Num(Decimal(n, 0)))
  {
    var s := NatText(n);
    DigitsValueOfNatText(n);
    assert DotIndex(s) == |s| by {
      forall i | 0 <= i < |s| ensures s[i] != '.' { assert IsDigit(s[i]); }
    }
    assert s[..|s|] + "" == s;
  }

  /** `generateStatementIR`. */
  function LowerStmt(s: Stmt): IrStmt {
    match s
    case ReturnStatement(e) => ReturnIr(LowerExpr(e))
    case ExpressionStatement(e) => ExprStmtIr(LowerExpr(e))
  }

  /** An element of a declaration's `parameters`. */
  function LowerArg(a: Arg): IrParam {
    match a
    case Parameter(name, paramType) => ParamIr(name, paramType)
    case ExprArg(e) => ExprParam(LowerExpr(e))
  }

  /** `line || null`. */
  function LineOrNull(line: int): (r: Option<int>)
    ensures r.None? <==> line == 0
    ensures r.Some? ==> r.value == line
  {
    if line == 0 then None else Some(line)
  }

  /** The IR node of one top-level node. */
  function LowerNode(n: Node): IrNode {
    match n
    case FunctionDeclaration(name, args, returnType, body, line) =>
      FunctionDecl(name, seq(|args|, i requires 0 <= i < |args| => LowerArg(args[i])), returnType,
                   if body.Some? then Some(seq(|body.value|, i requires 0 <= i < |body.value| => LowerStmt(body.value[i])))
                   else None,
                   false, LineOrNull(line))
    case TypeAlias(alias, typeAnnotation, line) => TypeAliasIr(alias, typeAnnotation, LineOrNull(line))
    case TopExpression(e, _, line) => ExprStatementIr(LowerExpr(e), LineOrNull(line))
  }

  /** `generate`: one IR node per top-level node, in order. */
  function Generate(ast: seq<Node>): (ir: seq<IrNode>)
    ensures |ir| == |ast|
    ensures forall i :: 0 <= i < |ast| ==> ir[i] == LowerNode(ast[i])
  {
    seq(|ast|, i requires 0 <= i < |ast| => LowerNode(ast[i]))
  }

  /** The lowering of a program is the lowering of its parts, concatenated. */
  lemma GenerateAppend(a: seq<Node>, b: seq<Node>)
    ensures Generate(a + b) == Generate(a) + Generate(b)
  {
  }

  /** Each IR node has the kind, name and line of its AST node, and a declaration's
      parameters, return type and body shape carry over. */
  lemma GenerateCorresponds(ast: seq<Node>, i: nat)
    requires i < |ast|
    ensures var n, r := ast[i], Generate(ast)[i];
      (r.FunctionDecl? <==> n.FunctionDeclaration?) &&
      (r.TypeAliasIr? <==> n.TypeAlias?) &&
      (r.ExprStatementIr? <==> n.TopExpression?) &&
      (n.line != 0 ==> r.line == Some(n.line)) &&
      (n.FunctionDeclaration? ==>
         r.name == n.name && !r.builtin && r.returnType == n.returnType &&
         |r.parameters| == |n.arguments| &&
         (forall j :: 0 <= j < |n.arguments| ==>
            (r.parameters[j].ParamIr? <==> n.arguments[j].Parameter?)) &&
         (r.body.Some? <==> n.body.Some?) &&
         (n.body.Some? ==> |r.body.value| == |n.body.value|)) &&
      (n.TypeAlias? ==> r.alias == n.alias && r.typeAnnotation == n.typeAnnotation)
  {
  }

  /** A top-level statement's return-type annotation does not reach the IR. */
  lemma ReturnAnnotationDropped(e: Expr, t1: Type, t2: Type, line: int)
    ensures LowerNode(TopExpression(e, t1, line)) == LowerNode(TopExpression(e, t2, line))
  {
  }

  /** The IR of a whole program has exact builtin tags. */
  predicate NodeTagsExact(n: IrNode) {
    match n
    case FunctionDecl(_, params, _, body, _, _) =>
      (forall j :: 0 <= j < |params| ==> params[j].ExprParam? ==> TagsExact(params[j].expr)) &&
      (body.Some? ==> forall j :: 0 <= j < |body.value| ==> TagsExact(body.value[j].expression))
    case TypeAliasIr(_, _, _) => true
    case ExprStatementIr(e, _) => TagsExact(e)
  }

  lemma GenerateTagsExact(ast: seq<Node>)
    ensures forall i :: 0 <= i < |ast| ==> NodeTagsExact(Generate(ast)[i])
  {
    forall i | 0 <= i < |ast|
      ensures NodeTagsExact(Generate(ast)[i])
    {
      match ast[i]
      case FunctionDeclaration(_, args, _, body, _) =>
        forall j | 0 <= j < |args| && args[j].ExprArg? {
          LowerTagsExact(args[j].expr);
        }
        if body.Some? {
          forall j | 0 <= j < |body.value| {
            LowerTagsExact(body.value[j].expression);
          }
        }
      case TypeAlias(_, _, _) =>
      case TopExpression(e, _, _) =>
        LowerTagsExact(e);
    }
  }
}
