/** The checker of backend/src/type_checker.js: alias resolution, structural type equality,
    expression typing, and the three passes of `check` over the top-level nodes.

    The source recurses without end on a cyclic alias (`A = B; B = A`) and on a declaration
    whose argument list calls the function being declared; the model carries the set of
    aliases (or functions) being expanded and reports those cases as `AliasCycle` and
    `SignatureCycle` errors where the source would exhaust its stack. */
module TypeChecker {
  import opened Outcomes
  import opened Ast

  datatype TypeError =
    | UnknownAlias(name: string)
    | AliasCycle(name: string)
    | SignatureCycle(name: string)
    | CannotAdd(left: Type, right: Type)
    | UnsupportedOperator(op: string)
    | UnsupportedExpression
    | UnsupportedCallee
    | UnsupportedStatement
    | NotFound(name: string)
    | NotDeclared(name: string)
    | ArityMismatch(name: string, expected: nat, got: nat)
    | ArgumentMismatch(name: string, index: nat)
    | NoParameters(name: string)
    | NoReturn(name: string)
    | ReturnMismatch(name: string)
    | CallReturnMismatch(name: string)

  /** A builtin signature. `variadic` is recorded, as in the source, and read by no check. */
  datatype Signature = Signature(parameters: seq<Type>, returnType: Type, variadic: bool)

  const NumberType := Primitive("number")
  const StringType := Primitive("string")
  const AnyType := Primitive("any")

  const BuiltinSignatures: map<string, Signature> := map[
    "abs" := Signature([NumberType], NumberType, false),
    "min" := Signature([NumberType, NumberType], NumberType, false),
    "max" := Signature([NumberType, NumberType], NumberType, false),
    "push" := Signature([ArrayOf(AnyType), AnyType], NumberType, false),
    "pop" := Signature([ArrayOf(AnyType)], AnyType, false),
    "print" := Signature([AnyType], Primitive("void"), true),
    "sumNumbers" := Signature([ArrayOf(NumberType)], NumberType, false),
    "concatStrings" := Signature([ArrayOf(StringType)], StringType, false)
  ]

  /** The parts of a FunctionDeclaration node the checker reads back from its table. */
  datatype Declaration = Declaration(arguments: seq<Arg>, returnType: Type)

  /** The two tables `check` fills: aliases by name, user functions by name. */
  datatype Tables = Tables(aliases: map<string, Type>, functions: map<string, Declaration>)

  /** No alias anywhere inside. */
  predicate AliasFree(t: Type) {
    match t
    case Primitive(_) => true
    case ArrayOf(e) => AliasFree(e)
    case Union(ts) => forall i :: 0 <= i < |ts| ==> AliasFree(ts[i])
    case Alias(_) => false
  }

  /** `resolveType`: aliases are replaced by their definitions, arrays and unions rebuilt
      from their resolved members, primitives kept. `seen` holds the aliases being
      expanded. */
  function Resolve(aliases: map<string, Type>, t: Type, seen: set<string>): (r: Result<Type, TypeError>)
    ensures r.Ok? ==> AliasFree(r.value)
    ensures t.Primitive? ==> r == Ok(t)
    ensures t.Alias? && t.name !in aliases ==> r == Err(UnknownAlias(t.name))
    decreases aliases.Keys - seen, t, 0
  {
    match t
    case Alias(n) =>
      if n !in aliases then Err(UnknownAlias(n))
      else if n in seen then Err(AliasCycle(n))
      else Resolve(aliases, aliases[n], seen + {n})
    case ArrayOf(e) =>
      var r :- Resolve(aliases, e, seen);
      Ok(ArrayOf(r))
    case Union(ts) =>
      var rs :- ResolveAll(aliases, ts, 0, seen);
      Ok(Union(rs))
    case Primitive(_) => Ok(t)
  }

  /** `types.map(t => resolveType(t))` from index `i` on. */
  function ResolveAll(aliases: map<string, Type>, ts: seq<Type>, i: nat, seen: set<string>)
    : (r: Result<seq<Type>, TypeError>)
    requires i <= |ts|
    ensures r.Ok? ==> |r.value| == |ts| - i && forall j :: 0 <= j < |r.value| ==> AliasFree(r.value[j])
    decreases aliases.Keys - seen, ts, |ts| - i
  {
    if i == |ts| then Ok([])
    else
      var first :- Resolve(aliases, ts[i], seen);
      var rest :- ResolveAll(aliases, ts, i + 1, seen);
      Ok([first] + rest)
  }

  /** The comparison `typeEquals` makes once both sides are resolved: the kinds must agree;
      primitives compare by name, arrays by element; unions need equal length and each
      member of the first must equal some member of the second. */
  predicate StructEq(a: Type, b: Type)
    decreases a
  {
    match a
    case Primitive(n) => b.Primitive? && b.name == n
    case ArrayOf(e) => b.ArrayOf? && StructEq(e, b.elementType)
    case Union(ts) =>
      b.Union? && |ts| == |b.types| &&
      forall i :: 0 <= i < |ts| ==> exists j :: 0 <= j < |b.types| && StructEq(ts[i], b.types[j])
    case Alias(_) => false
  }

  /** `typeEquals`: both sides are resolved, then compared. (The source re-resolves the
      members on each recursive call; resolving an alias-free type changes nothing, see
      `TypeCheckerProperties.ResolveAliasFree`.) */
  function TypeEquals(aliases: map<string, Type>, a: Type, b: Type): Result<bool, TypeError> {
    var ra :- Resolve(aliases, a, {});
    var rb :- Resolve(aliases, b, {});
    Ok(StructEq(ra, rb))
  }

  /** The `name` property the checker reads off a type: primitives and aliases have one. */
  function NameOf(t: Type): Option<string> {
    if t.Primitive? || t.Alias? then Some(t.name) else None
  }

  /* Expression typing. `seen` holds the functions whose signatures are being computed;
     every call either keeps `seen` and moves to a smaller term, or adds a declared
     function to `seen`. */

  /** `getArgType(expr, context)`. */
  function ExprType(t: Tables, e: Expr, context: map<string, Type>, seen: set<string>)
    : (r: Result<Type, TypeError>)
    decreases t.functions.Keys - seen, e, 0
  {
    match e
    case NumberLit(_) => Ok(NumberType)
    case StringLit(_) => Ok(StringType)
    case Ident(n) => if n in context then Ok(context[n]) else Ok(AnyType)
    case Binary(op, left, right) =>
      var lt :- ExprType(t, left, context, seen);
      var rt :- ExprType(t, right, context, seen);
      if op != "+" then Err(UnsupportedOperator(op))
      else if NameOf(lt) == Some("number") && NameOf(rt) == Some("number") then Ok(NumberType)
      else if NameOf(lt) == Some("string") && NameOf(rt) == Some("string") then Ok(StringType)
      else Err(CannotAdd(lt, rt))
    case Call(callee, args) => CallType(t, callee, args, seen, false)
    case Member(_, _) => Err(UnsupportedExpression)
  }

  /** `inferCallExpression` (and, with `statement` set, the shared part of
      `checkExpressionStatement`): the callee must be a name; the user table is consulted
      before the builtins; the arity must match exactly; each argument, typed without
      context, must equal its parameter. The result is the signature's return type as
      written. */
  function CallType(t: Tables, callee: Expr, args: seq<Expr>, seen: set<string>, statement: bool)
    : (r: Result<Type, TypeError>)
    decreases t.functions.Keys - seen, args, |args| + 1
  {
    if !callee.Ident? then Err(UnsupportedCallee)
    else
      var name := callee.name;
      var signature :-
        if name in t.functions then
          if name in seen then Err(SignatureCycle(name))
          else
            var parameters :- ArgTypes(t, t.functions[name].arguments, 0, seen + {name});
            Ok(Signature(parameters, t.functions[name].returnType, false))
        else if name in BuiltinSignatures then Ok(BuiltinSignatures[name])
        else if statement then Err(NotDeclared(name))
        else Err(NotFound(name));
      if |signature.parameters| != |args| then Err(ArityMismatch(name, |signature.parameters|, |args|))
      else
        var checked :- CheckArgs(t, name, args, signature.parameters, 0, seen);
        Ok(signature.returnType)
  }

  /** The argument loop of a call, from index `i` on. */
  function CheckArgs(t: Tables, name: string, args: seq<Expr>, parameters: seq<Type>, i: nat, seen: set<string>)
    : (r: Result<(), TypeError>)
    requires |parameters| == |args| && i <= |args|
    decreases t.functions.Keys - seen, args, |args| - i
  {
    if i == |args| then Ok(())
    else
      var argType :- ExprType(t, args[i], map[], seen);
      var same :- TypeEquals(t.aliases, argType, parameters[i]);
      if !same then Err(ArgumentMismatch(name, i))
      else CheckArgs(t, name, args, parameters, i + 1, seen)
  }

  /** `arguments.map(arg => getArgType(arg))` over a declaration's argument list, from
      index `i` on. */
  function ArgTypes(t: Tables, decls: seq<Arg>, i: nat, seen: set<string>): (r: Result<seq<Type>, TypeError>)
    requires i <= |decls|
    ensures r.Ok? ==> |r.value| == |decls| - i
    decreases t.functions.Keys - seen, decls, |decls| - i
  {
    if i == |decls| then Ok([])
    else
      var first :- ArgType(t, decls[i], seen);
      var rest :- ArgTypes(t, decls, i + 1, seen);
      Ok([first] + rest)
  }

  /** `getArgType(arg)` on a declaration argument: a parameter has its resolved type, any
      other argument is typed as an expression without context. */
  function ArgType(t: Tables, a: Arg, seen: set<string>): (r: Result<Type, TypeError>)
    decreases t.functions.Keys - seen, a, 0
  {
    match a
    case Parameter(_, paramType) => Resolve(t.aliases, paramType, {})
    case ExprArg(e) => ExprType(t, e, map[], seen)
  }

  /** The expression of the first `return` statement of a body, if there is one. */
  function FirstReturn(body: seq<Stmt>): (r: Option<Expr>)
    ensures r.None? <==> forall k :: 0 <= k < |body| ==> !body[k].ReturnStatement?
    ensures r.Some? ==> exists k :: 0 <= k < |body| && body[k] == ReturnStatement(r.value) &&
                                    forall j :: 0 <= j < k ==> !body[j].ReturnStatement?
  {
    if body == [] then None
    else if body[0].ReturnStatement? then Some(body[0].expression)
    else
      var r := FirstReturn(body[1..]);
      if r.Some? then
        ghost var k :| 0 <= k < |body| - 1 && body[1..][k] == ReturnStatement(r.value) &&
                        forall j :: 0 <= j < k ==> !body[1..][j].ReturnStatement?;
        assert body[k + 1] == ReturnStatement(r.value);
        r
      else r
  }

  /** The context a body is typed in: each parameter's resolved type under its name (a
      later parameter of the same name wins). */
  function ParameterContext(t: Tables, args: seq<Arg>): (r: Result<map<string, Type>, TypeError>) {
    if args == [] then Ok(map[])
    else
      var context :- ParameterContext(t, args[..|args| - 1]);
      var last := args[|args| - 1];
      if last.Parameter? then
        var resolved :- Resolve(t.aliases, last.paramType, {});
        Ok(context[last.name := resolved])
      else Ok(context)
  }

  /** `checkFunction`: at least one argument; every argument must type; with a body, the
      type of the first `return` must equal the declared return type. */
  function CheckFunction(t: Tables, name: string, args: seq<Arg>, returnType: Type, body: Option<seq<Stmt>>)
    : (r: Result<(), TypeError>)
  {
    if |args| == 0 then Err(NoParameters(name))
    else
      var declared :- ArgTypes(t, args, 0, {});
      match body
      case None => Ok(())
      case Some(stmts) =>
        var context :- ParameterContext(t, args);
        CheckReturn(t, name, context, returnType, stmts)
  }

  /** The body part of `checkFunction`: the first `return` must exist, and its type in the
      parameters' context must equal the declared return type. */
  function CheckReturn(t: Tables, name: string, context: map<string, Type>, returnType: Type, stmts: seq<Stmt>)
    : (r: Result<(), TypeError>)
  {
    match FirstReturn(stmts)
    case None => Err(NoReturn(name))
    case Some(e) =>
      var inferred :- ExprType(t, e, context, {});
      var same :- TypeEquals(t.aliases, inferred, returnType);
      if same then Ok(()) else Err(ReturnMismatch(name))
  }

  /** `checkExpressionStatement`: a call whose result type must equal the annotation. */
  function CheckStatement(t: Tables, expression: Expr, returnType: Type): (r: Result<(), TypeError>) {
    match expression
    case Call(callee, args) =>
      var result :- CallType(t, callee, args, {}, true);
      var same :- TypeEquals(t.aliases, result, returnType);
      if same then Ok(()) else Err(CallReturnMismatch(callee.name))
    case _ => Err(UnsupportedStatement)
  }

  /** The alias table after registering the aliases of `nodes` in order. */
  function AliasTable(initial: map<string, Type>, nodes: seq<Node>): map<string, Type> {
    if nodes == [] then initial
    else
      var table := AliasTable(initial, nodes[..|nodes| - 1]);
      var last := nodes[|nodes| - 1];
      if last.TypeAlias? then table[last.alias := last.typeAnnotation] else table
  }

  /** The function table after registering the declarations of `nodes` in order. */
  function FunctionTable(initial: map<string, Declaration>, nodes: seq<Node>): map<string, Declaration> {
    if nodes == [] then initial
    else
      var table := FunctionTable(initial, nodes[..|nodes| - 1]);
      var last := nodes[|nodes| - 1];
      if last.FunctionDeclaration? then table[last.name := Declaration(last.arguments, last.returnType)]
      else table
  }

  /** The second pass from node `i` on: each declaration is registered, then checked
      against the table as it stands. */
  function CheckFunctionsFrom(aliases: map<string, Type>, functions: map<string, Declaration>,
                              ast: seq<Node>, i: nat): Result<(), TypeError>
    requires i <= |ast|
    decreases |ast| - i
  {
    if i == |ast| then Ok(())
    else if ast[i].FunctionDeclaration? then
      var n := ast[i];
      var checked :- CheckFunction(Tables(aliases, FunctionTable(functions, ast[..i + 1])),
                                   n.name, n.arguments, n.returnType, n.body);
      CheckFunctionsFrom(aliases, functions, ast, i + 1)
    else CheckFunctionsFrom(aliases, functions, ast, i + 1)
  }

  /** The third pass from node `i` on: every top-level statement against the full tables. */
  function CheckStatementsFrom(t: Tables, ast: seq<Node>, i: nat): Result<(), TypeError>
    requires i <= |ast|
    decreases |ast| - i
  {
    if i == |ast| then Ok(())
    else if ast[i].TopExpression? then
      var checked :- CheckStatement(t, ast[i].expression, ast[i].returnType);
      CheckStatementsFrom(t, ast, i + 1)
    else CheckStatementsFrom(t, ast, i + 1)
  }

  /** `check` on a checker whose tables start as given. */
  function CheckProgramFrom(aliases: map<string, Type>, functions: map<string, Declaration>, ast: seq<Node>)
    : Result<(), TypeError>
  {
    var table := AliasTable(aliases, ast);
    var checked :- CheckFunctionsFrom(table, functions, ast, 0);
    CheckStatementsFrom(Tables(table, FunctionTable(functions, ast)), ast, 0)
  }

  /** `new TypeChecker(ast).check()`. */
  function CheckProgram(ast: seq<Node>): Result<(), TypeError> {
    CheckProgramFrom(map[], map[], ast)
  }

  class TypeChecker {
    const ast: seq<Node>
    var typeAliases: map<string, Type>
    var userFunctionSignatures: map<string, Declaration>

    constructor(ast: seq<Node>)
      ensures this.ast == ast && typeAliases == map[] && userFunctionSignatures == map[]
    {
      this.ast := ast;
      typeAliases := map[];
      userFunctionSignatures := map[];
    }

    method Check() returns (r: Result<(), TypeError>)
      modifies this
      ensures r == CheckProgramFrom(old(typeAliases), old(userFunctionSignatures), ast)
      ensures typeAliases == AliasTable(old(typeAliases), ast)
      ensures r.Ok? ==> userFunctionSignatures == FunctionTable(old(userFunctionSignatures), ast)
    {
      for i := 0 to |ast|
        invariant typeAliases == AliasTable(old(typeAliases), ast[..i])
        invariant userFunctionSignatures == old(userFunctionSignatures)
      {
        assert ast[..i + 1][..i] == ast[..i];
        if ast[i].TypeAlias? {
          typeAliases := typeAliases[ast[i].alias := ast[i].typeAnnotation];
        }
      }
      assert ast[..|ast|] == ast;
      var aliases := typeAliases;
      var functions0 := userFunctionSignatures;
      for i := 0 to |ast|
        invariant typeAliases == aliases
        invariant userFunctionSignatures == FunctionTable(functions0, ast[..i])
        invariant CheckFunctionsFrom(typeAliases, functions0, ast, i) == CheckFunctionsFrom(typeAliases, functions0, ast, 0)
      {
        assert ast[..i + 1][..i] == ast[..i];
        var node := ast[i];
        if node.FunctionDeclaration? {
          userFunctionSignatures := userFunctionSignatures[node.name := Declaration(node.arguments, node.returnType)];
          assert userFunctionSignatures == FunctionTable(functions0, ast[..i + 1]);
          var checked := CheckFunction(Tables(typeAliases, userFunctionSignatures),
                                       node.name, node.arguments, node.returnType, node.body);
          if checked.Err? {
            assert CheckFunctionsFrom(aliases, functions0, ast, i) == Err(checked.error);
            return Err(checked.error);
          }
        }
      }
      assert ast[..|ast|] == ast;
      var tables := Tables(typeAliases, userFunctionSignatures);
      for i := 0 to |ast|
        invariant typeAliases == aliases && userFunctionSignatures == tables.functions
        invariant CheckStatementsFrom(tables, ast, i) == CheckStatementsFrom(tables, ast, 0)
      {
        if ast[i].TopExpression? {
          var checked := CheckStatement(tables, ast[i].expression, ast[i].returnType);
          if checked.Err? {
            return Err(checked.error);
          }
        }
      }
      return Ok(());
    }
  }

  /** Checking a node list with a fresh checker computes `CheckProgram`. */
  method CheckNodes(ast: seq<Node>) returns (r: Result<(), TypeError>)
    ensures r == CheckProgram(ast)
  {
    var checker := new TypeChecker(ast);
    r := checker.Check();
  }
}
