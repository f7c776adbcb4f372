/** Properties of the type checker of backend/src/type_checker.js. */
module TypeCheckerProperties {
  import opened Outcomes
  import opened Ast
  import opened Lexer
  import opened Parser
  import opened TypeChecker

  /* Alias resolution */

  /** A type without aliases resolves to itself. */
  lemma {:induction false} ResolveAliasFree(aliases: map<string, Type>, t: Type, seen: set<string>)
    requires AliasFree(t)
    ensures Resolve(aliases, t, seen) == Ok(t)
    decreases t, 1
  {
    match t
    case Primitive(_) =>
    case ArrayOf(e) =>
      ResolveAliasFree(aliases, e, seen);
    case Union(ts) =>
      ResolveAllAliasFree(aliases, ts, 0, seen);
      assert ts[0..] == ts;
  }

  lemma {:induction false} ResolveAllAliasFree(aliases: map<string, Type>, ts: seq<Type>, i: nat, seen: set<string>)
    requires i <= |ts| && forall j :: 0 <= j < |ts| ==> AliasFree(ts[j])
    ensures ResolveAll(aliases, ts, i, seen) == Ok(ts[i..])
    decreases ts, |ts| - i
  {
    if i < |ts| {
      ResolveAliasFree(aliases, ts[i], seen);
      ResolveAllAliasFree(aliases, ts, i + 1, seen);
      assert ts[i..] == [ts[i]] + ts[i + 1..];
    }
  }

  /** Resolving twice is resolving once. */
  lemma ResolveIdempotent(aliases: map<string, Type>, t: Type, seen: set<string>, seen': set<string>)
    requires Resolve(aliases, t, seen).Ok?
    ensures Resolve(aliases, Resolve(aliases, t, seen).value, seen') == Resolve(aliases, t, seen)
  {
    ResolveAliasFree(aliases, Resolve(aliases, t, seen).value, seen');
  }

  /** A registered alias whose definition has no aliases in it resolves to that definition. */
  lemma AliasReplaced(aliases: map<string, Type>, n: string)
    requires n in aliases && AliasFree(aliases[n])
    ensures Resolve(aliases, Alias(n), {}) == Ok(aliases[n])
  {
    ResolveAliasFree(aliases, aliases[n], {} + {n});
  }

  /** Two aliases defined as each other: the source recurses without end, the model stops
      at the first alias met again. */
  lemma MutualAliasesCycle(aliases: map<string, Type>, a: string, b: string)
    requires a in aliases && b in aliases && a != b
    requires aliases[a] == Alias(b) && aliases[b] == Alias(a)
    ensures Resolve(aliases, Alias(a), {}) == Err(AliasCycle(a))
  {
    assert Resolve(aliases, Alias(a), {}) == Resolve(aliases, Alias(b), {} + {a});
    assert Resolve(aliases, Alias(b), {} + {a}) == Resolve(aliases, Alias(a), {} + {a} + {b});
  }

  /* Type equality */

  /** Every alias-free type is structurally equal to itself. */
  lemma {:induction false} StructEqReflexive(t: Type)
    requires AliasFree(t)
    ensures StructEq(t, t)
  {
    match t
    case Primitive(_) =>
    case ArrayOf(e) =>
      StructEqReflexive(e);
    case Union(ts) =>
      forall i | 0 <= i < |ts|
        ensures StructEq(ts[i], ts[i])
      {
        StructEqReflexive(ts[i]);
      }
      assert forall i :: 0 <= i < |ts| ==> exists j :: 0 <= j < |ts| && StructEq(ts[i], ts[j]);
  }

  /** A type that resolves equals itself. */
  lemma TypeEqualsReflexive(aliases: map<string, Type>, t: Type)
    requires Resolve(aliases, t, {}).Ok?
    ensures TypeEquals(aliases, t, t) == Ok(true)
  {
    StructEqReflexive(Resolve(aliases, t, {}).value);
  }

  /** `any` is no wildcard: on either side, it equals exactly the types that resolve to
      `any`. */
  lemma AnyEqualsOnlyAny(aliases: map<string, Type>, a: Type)
    requires Resolve(aliases, a, {}).Ok?
    ensures TypeEquals(aliases, a, AnyType) == Ok(true) <==> Resolve(aliases, a, {}) == Ok(AnyType)
    ensures TypeEquals(aliases, AnyType, a) == Ok(true) <==> Resolve(aliases, a, {}) == Ok(AnyType)
  {
  }

  /** Kinds must agree: no primitive equals a union, even one that contains it. */
  lemma KindsMustAgree(a: Type, b: Type)
    requires StructEq(a, b)
    ensures a.Primitive? <==> b.Primitive?
    ensures a.ArrayOf? <==> b.ArrayOf?
    ensures a.Union? <==> b.Union?
    ensures !a.Alias? && !b.Alias?
  {
  }

  /** Union equality is not symmetric when members repeat: `number | number` equals
      `number | string` (with `m`, `n` the names `number` and `string`), not the other way
      round. */
  lemma UnionEqualityAsymmetric(m: string, n: string)
    requires m != n
    ensures StructEq(Union([Primitive(m), Primitive(m)]), Union([Primitive(m), Primitive(n)]))
    ensures !StructEq(Union([Primitive(m), Primitive(n)]), Union([Primitive(m), Primitive(m)]))
  {
    var mm := [Primitive(m), Primitive(m)];
    var mn := [Primitive(m), Primitive(n)];
    assert StructEq(mm[0], mn[0]) && StructEq(mm[1], mn[0]);
    if StructEq(Union(mn), Union(mm)) {
      var j :| 0 <= j < |mm| && StructEq(mn[1], mm[j]);
      assert false;
    }
  }

  /* Expression typing */

  /** `+` types as number exactly for two number operands and as string exactly for two
      string operands; every other operator or pairing is an error. */
  lemma PlusTyping(t: Tables, op: string, left: Expr, right: Expr, context: map<string, Type>, seen: set<string>)
    ensures
      var r := ExprType(t, Binary(op, left, right), context, seen);
      var lt := ExprType(t, left, context, seen);
      var rt := ExprType(t, right, context, seen);
      && (r == Ok(NumberType) <==>
            op == "+" && lt.Ok? && rt.Ok? && NameOf(lt.value) == Some("number") && NameOf(rt.value) == Some("number"))
      && (r == Ok(StringType) <==>
            op == "+" && lt.Ok? && rt.Ok? && NameOf(lt.value) == Some("string") && NameOf(rt.value) == Some("string"))
      && (r.Ok? ==> r == Ok(NumberType) || r == Ok(StringType))
  {
  }

  /** An argument the call accepts: it types without context, and its type equals the
      parameter's. */
  predicate ArgAccepted(t: Tables, e: Expr, parameter: Type, seen: set<string>) {
    ExprType(t, e, map[], seen).Ok? && TypeEquals(t.aliases, ExprType(t, e, map[], seen).value, parameter) == Ok(true)
  }

  /** The argument loop succeeds exactly when every remaining argument is accepted. */
  lemma {:induction false} CheckArgsAccepted(t: Tables, name: string, args: seq<Expr>, parameters: seq<Type>, i: nat, seen: set<string>)
    requires |parameters| == |args| && i <= |args|
    ensures CheckArgs(t, name, args, parameters, i, seen).Ok? <==>
              forall j :: i <= j < |args| ==> ArgAccepted(t, args[j], parameters[j], seen)
    decreases |args| - i
  {
    if i < |args| {
      CheckArgsAccepted(t, name, args, parameters, i + 1, seen);
    }
  }

  /** The signature a top-level call is checked against: the user declaration if there is
      one (its parameter types computed from its argument list), else the builtin, else
      none. */
  function DeclaredSignature(t: Tables, name: string): Result<Signature, TypeError> {
    if name in t.functions then
      var parameters :- ArgTypes(t, t.functions[name].arguments, 0, {name});
      Ok(Signature(parameters, t.functions[name].returnType, false))
    else if name in BuiltinSignatures then Ok(BuiltinSignatures[name])
    else Err(NotDeclared(name))
  }

  /** A call statement passes exactly when its name has a signature, the argument count
      equals the parameter count, every argument is accepted, and the signature's return
      type equals the annotation. */
  lemma CallStatementAccepted(t: Tables, name: string, args: seq<Expr>, returnType: Type)
    ensures CheckStatement(t, Call(Ident(name), args), returnType).Ok? <==>
              && DeclaredSignature(t, name).Ok?
              && |DeclaredSignature(t, name).value.parameters| == |args|
              && (forall j :: 0 <= j < |args| ==> ArgAccepted(t, args[j], DeclaredSignature(t, name).value.parameters[j], {}))
              && TypeEquals(t.aliases, DeclaredSignature(t, name).value.returnType, returnType) == Ok(true)
  {
    assert {} + {name} == {name};
    var s := DeclaredSignature(t, name);
    if s.Ok? && |s.value.parameters| == |args| {
      CheckArgsAccepted(t, name, args, s.value.parameters, 0, {});
    }
  }

  /** The arity check ignores `variadic`: the builtin `print` takes exactly one argument. */
  lemma PrintTakesOneArgument(t: Tables, args: seq<Expr>, returnType: Type)
    requires "print" !in t.functions && |args| != 1
    ensures CheckStatement(t, Call(Ident("print"), args), returnType) == Err(ArityMismatch("print", 1, |args|))
  {
    assert "print" in BuiltinSignatures && BuiltinSignatures["print"] == Signature([AnyType], Primitive("void"), true);
    assert CallType(t, Ident("print"), args, {}, true) == Err(ArityMismatch("print", 1, |args|));
  }

  /** `print(4)` fails against the builtin: a number is not `any`. */
  lemma PrintRejectsNumber(t: Tables, digits: string, returnType: Type)
    requires "print" !in t.functions
    ensures CheckStatement(t, Call(Ident("print"), [NumberLit(digits)]), returnType) == Err(ArgumentMismatch("print", 0))
  {
    assert "print" in BuiltinSignatures && BuiltinSignatures["print"] == Signature([AnyType], Primitive("void"), true);
    assert ExprType(t, NumberLit(digits), map[], {}) == Ok(NumberType);
    assert TypeEquals(t.aliases, NumberType, AnyType) == Ok(false);
    assert CheckArgs(t, "print", [NumberLit(digits)], [AnyType], 0, {}) == Err(ArgumentMismatch("print", 0));
    assert CallType(t, Ident("print"), [NumberLit(digits)], {}, true) == Err(ArgumentMismatch("print", 0));
  }

  /** The user table comes first: a user declaration `print(x: number)` makes `print(4)`
      pass where the builtin rejects it. */
  lemma UserSignatureShadowsBuiltin(t: Tables, x: string, digits: string)
    requires t.functions == map["print" := Declaration([Parameter(x, NumberType)], Primitive("void"))]
    ensures CheckStatement(t, Call(Ident("print"), [NumberLit(digits)]), Primitive("void")) == Ok(())
  {
    var decls := [Parameter(x, NumberType)];
    var seen := {} + {"print"};
    assert ArgType(t, decls[0], seen) == Ok(NumberType);
    var rest := ArgTypes(t, decls, 1, seen);
    assert rest.Ok? && rest.value == [];
    var parameters := ArgTypes(t, decls, 0, seen);
    assert parameters.Ok? && parameters.value == [NumberType];
    assert ExprType(t, NumberLit(digits), map[], {}) == Ok(NumberType);
    assert StructEq(NumberType, NumberType);
    assert CheckArgs(t, "print", [NumberLit(digits)], [NumberType], 0, {}).Ok?;
    assert CallType(t, Ident("print"), [NumberLit(digits)], {}, true) == Ok(Primitive("void"));
    assert StructEq(Primitive("void"), Primitive("void"));
  }

  /* Tables and the order of `check` */

  /** Some node of `nodes` declares a function named `k`. */
  predicate Declares(nodes: seq<Node>, k: string) {
    exists j :: 0 <= j < |nodes| && nodes[j].FunctionDeclaration? && nodes[j].name == k
  }

  /** The function table holds the initial names and the declared ones, and no others. */
  lemma {:induction false} FunctionTableKeys(initial: map<string, Declaration>, nodes: seq<Node>, k: string)
    ensures k in FunctionTable(initial, nodes) <==> k in initial || Declares(nodes, k)
  {
    if nodes != [] {
      var front := nodes[..|nodes| - 1];
      assert forall j :: 0 <= j < |front| ==> front[j] == nodes[j];
      FunctionTableKeys(initial, front, k);
    }
  }

  /** The alias table holds the initial names and the defined ones, and no others. */
  lemma {:induction false} AliasTableKeys(initial: map<string, Type>, nodes: seq<Node>, k: string)
    ensures k in AliasTable(initial, nodes) <==>
              k in initial || exists j :: 0 <= j < |nodes| && nodes[j].TypeAlias? && nodes[j].alias == k
  {
    if nodes != [] {
      var front := nodes[..|nodes| - 1];
      assert forall j :: 0 <= j < |front| ==> front[j] == nodes[j];
      AliasTableKeys(initial, front, k);
    }
  }

  /** A call, inside the declaration at index `i`, to a name that is neither a builtin nor
      declared at or before `i` fails: later declarations are not yet in the table. */
  lemma ForwardCallRejected(aliases: map<string, Type>, ast: seq<Node>, i: nat, name: string,
                            args: seq<Expr>, seen: set<string>)
    requires i < |ast| && name !in BuiltinSignatures && !Declares(ast[..i + 1], name)
    ensures CallType(Tables(aliases, FunctionTable(map[], ast[..i + 1])), Ident(name), args, seen, false)
              == Err(NotFound(name))
  {
    FunctionTableKeys(map[], ast[..i + 1], name);
  }

  /* Reserved names */

  /** The reserved names the checker has no signature for. */
  const Unsignatured: seq<string> := ["hcf", "lcm", "capitalize", "isURL", "coalesce", "slugify"]

  /** No declaration in `nodes` takes a reserved name. */
  predicate DeclaresNoReserved(nodes: seq<Node>) {
    forall j :: 0 <= j < |nodes| && nodes[j].FunctionDeclaration? ==> nodes[j].name !in ReservedBuiltins
  }

  /** The parser never yields a declaration of a reserved name. */
  lemma {:induction false} ParsedDeclaresNoReserved(ts: seq<Token>, pos: nat, acc: seq<Node>)
    requires pos <= |ts| && ProgramFrom(ts, pos, acc).Ok? && DeclaresNoReserved(acc)
    ensures DeclaresNoReserved(ProgramFrom(ts, pos, acc).value)
    decreases |ts| - pos
  {
    var t := PeekAt(ts, pos);
    if t.kind == Identifier || t.kind == Keyword {
      if pos + 1 < |ts| && ts[pos + 1].value == "=" {
        var node := TypeAliasAt(ts, pos).value;
        assert DeclaresNoReserved(acc + [node.value]);
        ParsedDeclaresNoReserved(ts, node.next, acc + [node.value]);
      } else if pos + 1 < |ts| && ts[pos + 1].value == "(" {
        var node := if ParameterListAhead(ts, pos) then FunctionAt(ts, pos).value else CallStatementAt(ts, pos).value;
        assert DeclaresNoReserved(acc + [node.value]);
        ParsedDeclaresNoReserved(ts, node.next, acc + [node.value]);
      }
    } else if t.kind != Eof {
      ParsedDeclaresNoReserved(ts, pos + 1, acc);
    }
  }

  /** The six reserved names without a builtin signature. */
  lemma UnsignaturedNames(name: string)
    requires name in Unsignatured
    ensures name in ReservedBuiltins && name !in BuiltinSignatures
  {
  }

  /** A reserved name without a builtin signature (see `UnsignaturedNames`) cannot be called
      from the top level of a parsed program: no declaration can supply it. */
  lemma ReservedCallRejected(ts: seq<Token>, aliases: map<string, Type>, name: string,
                             args: seq<Expr>, returnType: Type)
    requires ParseProgram(ts).Ok? && name in ReservedBuiltins && name !in BuiltinSignatures
    ensures CheckStatement(Tables(aliases, FunctionTable(map[], ParseProgram(ts).value)), Call(Ident(name), args), returnType)
              == Err(NotDeclared(name))
  {
    var ast := ParseProgram(ts).value;
    ParsedDeclaresNoReserved(ts, 0, []);
    FunctionTableKeys(map[], ast, name);
    assert forall j :: 0 <= j < |ast| && ast[j].FunctionDeclaration? ==> ast[j].name != name;
  }

  /* checkFunction */

  /** Appending statements after a `return` leaves the first `return` where it was. */
  lemma {:induction false} FirstReturnAppend(stmts: seq<Stmt>, more: seq<Stmt>)
    requires FirstReturn(stmts).Some?
    ensures FirstReturn(stmts + more) == FirstReturn(stmts)
  {
    if !stmts[0].ReturnStatement? {
      FirstReturnAppend(stmts[1..], more);
      assert (stmts + more)[1..] == stmts[1..] + more;
    }
  }

  /** Only the first `return` of a body is checked: what follows it does not matter. */
  lemma FirstReturnDecides(t: Tables, name: string, context: map<string, Type>, returnType: Type,
                           stmts: seq<Stmt>, more: seq<Stmt>)
    requires FirstReturn(stmts).Some?
    ensures CheckReturn(t, name, context, returnType, stmts + more) == CheckReturn(t, name, context, returnType, stmts)
  {
    FirstReturnAppend(stmts, more);
  }

  /** A declaration passes exactly when it has parameters, every argument types, and (with
      a body) the first `return` types in the parameters' context as the declared type;
      a body without `return` fails. */
  lemma FunctionAccepted(t: Tables, name: string, args: seq<Arg>, returnType: Type, body: Option<seq<Stmt>>)
    ensures CheckFunction(t, name, args, returnType, body).Ok? <==>
              && |args| > 0
              && ArgTypes(t, args, 0, {}).Ok?
              && (body.Some? ==>
                    && ParameterContext(t, args).Ok?
                    && FirstReturn(body.value).Some?
                    && ExprType(t, FirstReturn(body.value).value, ParameterContext(t, args).value, {}).Ok?
                    && TypeEquals(t.aliases, ExprType(t, FirstReturn(body.value).value, ParameterContext(t, args).value, {}).value,
                                  returnType) == Ok(true))
    ensures |args| == 0 ==> CheckFunction(t, name, args, returnType, body) == Err(NoParameters(name))
    ensures (|args| > 0 && ArgTypes(t, args, 0, {}).Ok? && body.Some? && ParameterContext(t, args).Ok? &&
             FirstReturn(body.value).None?) ==> CheckFunction(t, name, args, returnType, body) == Err(NoReturn(name))
  {
  }
}
