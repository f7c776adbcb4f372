/** backend/src/ir_compiler.js: IR to JavaScript text. Declarations are bucketed by name,
    stubs forwarding to the runtime library are added for the ten reserved names, and the
    sections are written out in a fixed order. */
module IRCompiler {
  import opened Outcomes
  import opened Text
  import opened Sequences
  import opened Ast
  import opened Ir
  import Parser

  const Prologue: string := "(function() {\n"
  const Require: string := "const stdlib = require(\"../src/runtime/stdlib\");\n\n"
  const Epilogue: string := "})();\n"
  const StatementsHeader: string := "// Top-level statements:\n"
  const ObjectText: string := "[object Object]"

  /** `typeToString`: the annotation's `name` when it has a non-empty one, otherwise what
      `String` makes of an object. */
  function TypeToString(t: Type): (r: string)
    ensures t.ArrayOf? || t.Union? ==> r == ObjectText
    ensures (t.Primitive? || t.Alias?) && t.name != "" ==> r == t.name
  {
    match t
    case Primitive(name) => if name != "" then name else ObjectText
    case Alias(name) => if name != "" then name else ObjectText
    case _ => ObjectText
  }

  /** `compileExpression`. */
  function CompileExpr(e: IrExpr): string
    decreases e
  {
    match e
    case Literal(v) => LiteralText(v)
    case Variable(name) => name
    case BinaryIr(op, left, right) => CompileExpr(left) + " " + op + " " + CompileExpr(right)
    case CallIr(callee, args, _) =>
      CompileExpr(callee) + "(" + JoinWith(seq(|args|, i requires 0 <= i < |args| => CompileExpr(args[i])), ", ") + ")"
    case MemberIr(obj, property) => CompileExpr(obj) + "." + CompileExpr(property)
  }

  /** Binary expressions are written without parentheses, so the grouping of the tree is
      lost: `(a op1 b) op2 c` and `a op1 (b op2 c)` give the same text. */
  lemma GroupingLost(op1: string, op2: string, a: IrExpr, b: IrExpr, c: IrExpr)
    ensures CompileExpr(BinaryIr(op2, BinaryIr(op1, a, b), c)) == CompileExpr(BinaryIr(op1, a, BinaryIr(op2, b, c)))
  {
    var x, y, z := CompileExpr(a), CompileExpr(b), CompileExpr(c);
    assert CompileExpr(BinaryIr(op2, BinaryIr(op1, a, b), c)) == (x + " " + op1 + " " + y) + " " + op2 + " " + z;
    assert CompileExpr(BinaryIr(op1, a, BinaryIr(op2, b, c))) == x + " " + op1 + " " + (y + " " + op2 + " " + z);
  }

  /** `compileStatement`. */
  function CompileStatement(s: IrStmt): string {
    match s
    case ReturnIr(e) => "return " + CompileExpr(e) + ";"
    case ExprStmtIr(e) => CompileExpr(e) + ";"
  }

  /** `p.name` of a parameter entry: a typed parameter's name, a variable's name, and
      `undefined` (which `join` writes as nothing) for any other expression. */
  function ParamName(p: IrParam): string {
    match p
    case ParamIr(name, _) => name
    case ExprParam(e) => if e.Variable? then e.name else ""
  }

  /** The statements of a body, each on its own line indented by two spaces. */
  function BodyLines(body: seq<IrStmt>): string
    decreases |body|
  {
    if body == [] then "" else BodyLines(body[..|body| - 1]) + "\n  " + CompileStatement(body[|body| - 1])
  }

  /** `compileFunction`. */
  function CompileFunction(n: IrNode): (r: string)
    requires n.FunctionDecl?
  {
    var params := JoinWith(seq(|n.parameters|, i requires 0 <= i < |n.parameters| => ParamName(n.parameters[i])), ", ");
    var inner :=
      if HasBody(n) then BodyLines(n.body.value)
      else if n.builtin then "\n  return stdlib." + n.name + "(...arguments);"
      else "\n  throw new Error(\"Function " + n.name + " has no body and is not a built-in.\");";
    FunctionText(n.name, params, inner)
  }

  /** `function NAME(PARAMS) {INNER\n}`. */
  function FunctionText(name: string, params: string, inner: string): string {
    "function " + name + "(" + params + ") {" + inner + "\n}"
  }

  /** The stub added for a reserved name nobody declared. */
  function Stub(name: string): (n: IrNode)
    ensures n.FunctionDecl? && n.name == name && n.builtin && !HasBody(n)
  {
    FunctionDecl(name, [], Primitive("any"), None, true, None)
  }

  /** A stub forwards every argument to the runtime library function of its name. */
  lemma StubForwards(name: string)
    ensures CompileFunction(Stub(name)) ==
      FunctionText(name, "", "\n  return stdlib." + name + "(...arguments);")
  {
    assert JoinWith([], ", ") == "";
  }

  /** The state of `compile`'s first loop: the function table with its key order (the
      iteration order of the `Map`), and the alias and statement lists. */
  datatype Buckets = Buckets(order: seq<string>, functions: map<string, IrNode>,
                             aliases: seq<(string, Type)>, statements: seq<IrExpr>)

  /** Every key is in the table once, in order, and maps to a declaration of that name. */
  ghost predicate WellFormed(b: Buckets) {
    NoDuplicates(b.order) &&
    (forall k :: k in b.functions <==> k in b.order) &&
    (forall k :: k in b.functions ==> b.functions[k].FunctionDecl? && b.functions[k].name == k)
  }

  /** One round of the bucketing loop. A declaration whose name is taken replaces the
      current one only when it has a body and the current one has none. */
  function BucketStep(b: Buckets, node: IrNode): Buckets
    requires WellFormed(b)
  {
    match node
    case FunctionDecl(name, _, _, _, _, _) =>
      if name in b.functions then
        var existing := b.functions[name];
        if node.body.Some? && |node.body.value| > 0 && (existing.body.None? || |existing.body.value| == 0) then
          b.(functions := b.functions[name := node])
        else b
      else b.(order := b.order + [name], functions := b.functions[name := node])
    case TypeAliasIr(alias, typeAnnotation, _) => b.(aliases := b.aliases + [(alias, typeAnnotation)])
    case ExprStatementIr(e, _) => b.(statements := b.statements + [e])
  }

  function Bucket(ir: seq<IrNode>): (b: Buckets)
    ensures WellFormed(b)
    decreases |ir|
  {
    if ir == [] then Buckets([], map[], [], []) else BucketStep(Bucket(ir[..|ir| - 1]), ir[|ir| - 1])
  }

  /** The loop over the reserved names: a stub for each one not in the table. */
  function AddStubs(b: Buckets, names: seq<string>): (r: Buckets)
    requires WellFormed(b)
    ensures WellFormed(r)
    ensures r.aliases == b.aliases && r.statements == b.statements
    decreases |names|
  {
    if names == [] then b
    else
      var front := AddStubs(b, names[..|names| - 1]);
      var name := names[|names| - 1];
      if name in front.functions then front
      else front.(order := front.order + [name], functions := front.functions[name := Stub(name)])
  }

  /** The buckets after both loops of `compile`. */
  function Collect(ir: seq<IrNode>): (b: Buckets)
    ensures WellFormed(b)
  {
    AddStubs(Bucket(ir), Parser.ReservedBuiltins)
  }

  function AliasLine(alias: string, t: Type): string {
    "// Type alias: " + alias + " = " + TypeToString(t) + "\n"
  }

  function AliasLines(aliases: seq<(string, Type)>): string
    decreases |aliases|
  {
    if aliases == [] then ""
    else
      var a := aliases[|aliases| - 1];
      AliasLines(aliases[..|aliases| - 1]) + AliasLine(a.0, a.1)
  }

  function FunctionsText(order: seq<string>, functions: map<string, IrNode>): string
    requires forall k :: k in order ==> k in functions && functions[k].FunctionDecl?
    decreases |order|
  {
    if order == [] then ""
    else FunctionsText(order[..|order| - 1], functions) + (CompileFunction(functions[order[|order| - 1]]) + "\n\n")
  }

  function StatementLines(statements: seq<IrExpr>): string
    decreases |statements|
  {
    if statements == [] then ""
    else StatementLines(statements[..|statements| - 1]) + (CompileStatement(ExprStmtIr(statements[|statements| - 1])) + "\n")
  }

  /** The text `compile(ir, wrap)` returns. */
  function CompileText(ir: seq<IrNode>, wrap: bool): string {
    Emit(Collect(ir), wrap)
  }

  /** The text written for the collected nodes `b`. */
  function Emit(b: Buckets, wrap: bool): string
    requires WellFormed(b)
  {
    (if wrap then Prologue else "") + Require +
    AliasLines(b.aliases) + "\n" +
    FunctionsText(b.order, b.functions) +
    (if |b.statements| > 0 then StatementsHeader + StatementLines(b.statements) else "") +
    (if wrap then Epilogue else "")
  }

  /** The two loops of `compile` that fill the function table and the alias and statement
      lists, then add the stubs. */
  method CollectNodes(ir: seq<IrNode>)
    returns (keys: seq<string>, functionsMap: map<string, IrNode>,
             typeAliases: seq<(string, Type)>, topLevelStatements: seq<IrExpr>)
    ensures Buckets(keys, functionsMap, typeAliases, topLevelStatements) == Collect(ir)
  {
    functionsMap := map[];
    keys := [];
    typeAliases := [];
    topLevelStatements := [];
    for i := 0 to |ir|
      invariant Buckets(keys, functionsMap, typeAliases, topLevelStatements) == Bucket(ir[..i])
    {
      assert ir[..i + 1][..i] == ir[..i];
      var node := ir[i];
      match node {
        case FunctionDecl(name, _, _, body, _, _) =>
          if name in functionsMap {
            var existing := functionsMap[name];
            if body.Some? && |body.value| > 0 && (existing.body.None? || |existing.body.value| == 0) {
              functionsMap := functionsMap[name := node];
            }
          } else {
            functionsMap := functionsMap[name := node];
            keys := keys + [name];
          }
        case TypeAliasIr(alias, typeAnnotation, _) =>
          typeAliases := typeAliases + [(alias, typeAnnotation)];
        case ExprStatementIr(e, _) =>
          topLevelStatements := topLevelStatements + [e];
      }
    }
    assert ir[..|ir|] == ir;
    var reserved := Parser.ReservedBuiltins;
    for i := 0 to |reserved|
      invariant Buckets(keys, functionsMap, typeAliases, topLevelStatements) == AddStubs(Bucket(ir), reserved[..i])
    {
      assert reserved[..i + 1][..i] == reserved[..i];
      var builtin := reserved[i];
      if builtin !in functionsMap {
        functionsMap := functionsMap[builtin := Stub(builtin)];
        keys := keys + [builtin];
      }
    }
    assert reserved[..|reserved|] == reserved;
  }

  /** `compile`: the nodes are collected, then written out. */
  method Compile(ir: seq<IrNode>, wrap: bool) returns (output: string)
    ensures output == CompileText(ir, wrap)
  {
    var keys, functionsMap, typeAliases, topLevelStatements := CollectNodes(ir);
    output := EmitNodes(keys, functionsMap, typeAliases, topLevelStatements, wrap);
  }

  /** The part of `compile` that appends the sections to `output`. */
  method EmitNodes(keys: seq<string>, functionsMap: map<string, IrNode>,
                   typeAliases: seq<(string, Type)>, topLevelStatements: seq<IrExpr>, wrap: bool)
    returns (output: string)
    requires WellFormed(Buckets(keys, functionsMap, typeAliases, topLevelStatements))
    ensures output == Emit(Buckets(keys, functionsMap, typeAliases, topLevelStatements), wrap)
  {
    output := "";
    if wrap {
      output := output + Prologue;
    }
    assert output == if wrap then Prologue else "";
    output := output + Require;
    output := AppendAliasComments(output, typeAliases);
    output := output + "\n";
    output := AppendFunctions(output, keys, functionsMap);
    ghost var body := output;
    ghost var statements := if |topLevelStatements| > 0 then StatementsHeader + StatementLines(topLevelStatements) else "";
    if |topLevelStatements| > 0 {
      output := output + StatementsHeader;
      output := AppendStatements(output, topLevelStatements);
      AppendAssociates(body, StatementsHeader, StatementLines(topLevelStatements));
    }
    assert output == body + statements;
    if wrap {
      output := output + Epilogue;
    }
    assert output == body + statements + (if wrap then Epilogue else "");
  }

  /** The loop writing one comment line per type alias. */
  method AppendAliasComments(prefix: string, typeAliases: seq<(string, Type)>) returns (output: string)
    ensures output == prefix + AliasLines(typeAliases)
  {
    output := prefix;
    for i := 0 to |typeAliases|
      invariant output == prefix + AliasLines(typeAliases[..i])
    {
      assert typeAliases[..i + 1][..i] == typeAliases[..i];
      var line := AliasLine(typeAliases[i].0, typeAliases[i].1);
      AppendAssociates(prefix, AliasLines(typeAliases[..i]), line);
      output := output + line;
    }
    assert typeAliases[..|typeAliases|] == typeAliases;
  }

  /** The loop writing each function of the table, in key order. */
  method AppendFunctions(prefix: string, keys: seq<string>, functionsMap: map<string, IrNode>)
    returns (output: string)
    requires forall k :: k in keys ==> k in functionsMap && functionsMap[k].FunctionDecl?
    ensures output == prefix + FunctionsText(keys, functionsMap)
  {
    output := prefix;
    for i := 0 to |keys|
      invariant output == prefix + FunctionsText(keys[..i], functionsMap)
    {
      assert keys[..i + 1][..i] == keys[..i];
      var code := CompileFunction(functionsMap[keys[i]]) + "\n\n";
      AppendAssociates(prefix, FunctionsText(keys[..i], functionsMap), code);
      output := output + code;
    }
    assert keys[..|keys|] == keys;
  }

  /** The loop writing each top-level statement on its own line. */
  method AppendStatements(prefix: string, topLevelStatements: seq<IrExpr>) returns (output: string)
    ensures output == prefix + StatementLines(topLevelStatements)
  {
    output := prefix;
    for i := 0 to |topLevelStatements|
      invariant output == prefix + StatementLines(topLevelStatements[..i])
    {
      assert topLevelStatements[..i + 1][..i] == topLevelStatements[..i];
      var line := CompileStatement(ExprStmtIr(topLevelStatements[i])) + "\n";
      AppendAssociates(prefix, StatementLines(topLevelStatements[..i]), line);
      output := output + line;
    }
    assert topLevelStatements[..|topLevelStatements|] == topLevelStatements;
  }
}
