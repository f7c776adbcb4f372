/** The recursive-descent parser of backend/src/parser.js.

    The grammar is first written as functions over the token list and a cursor
    (`XAt(ts, pos)`), each returning the node it builds and the cursor after it, or the
    error the source throws. The `Parser` class then walks the same grammar by moving its
    `position` field, as the source does, and each of its methods is proved to agree with
    the function of the same rule. */
module Parser {
  import opened Outcomes
  import opened Text
  import opened Lexer
  import opened Ast

  /** Names no declaration may take. */
  const ReservedBuiltins: seq<string> :=
    ["abs", "print", "max", "min", "hcf", "lcm", "capitalize", "isURL", "coalesce", "slugify"]

  /** The binding strength of a binary operator; None for an operator the table lacks. */
  function Precedence(op: string): Option<nat> {
    if op == "||" then Some(1)
    else if op == "&&" then Some(2)
    else if op == "==" || op == "!=" then Some(3)
    else if op == "<" || op == ">" || op == "<=" || op == ">=" then Some(4)
    else if op == "+" || op == "-" then Some(5)
    else if op == "*" || op == "/" then Some(6)
    else None
  }

  datatype ParseError =
    | Expected(kind: TokenKind, value: Option<string>, found: Token)
    | ExpectedName(found: Token)
    | OutOfTokens
    | UnexpectedToken(found: Token)
    | ExpectedTypeAnnotation(found: Token)
    | CannotOverride(name: string, line: int)

  /** A node together with the cursor just past it. */
  datatype Parsed<+T> = Parsed(value: T, next: nat)

  /** What `peek` reads past the end of the list: an EOF token. */
  const EndToken := Token(Eof, "", 0)

  function PeekAt(ts: seq<Token>, pos: nat): (t: Token)
    ensures pos < |ts| ==> t == ts[pos]
    ensures pos >= |ts| ==> t.kind == Eof && t.value == ""
  {
    if pos < |ts| then ts[pos] else EndToken
  }

  /** `consume(kind, value)`: the token at the cursor, if it has that kind and (when a value
      is given) that value. Reading past the end is an error too. */
  function ConsumeAt(ts: seq<Token>, pos: nat, kind: TokenKind, value: Option<string>)
    : (r: Result<Token, ParseError>)
    ensures r.Ok? <==> pos < |ts| && ts[pos].kind == kind && (value.None? || ts[pos].value == value.value)
    ensures r.Ok? ==> r.value == ts[pos]
  {
    if pos >= |ts| then Err(OutOfTokens)
    else if ts[pos].kind == kind && (value.None? || ts[pos].value == value.value) then Ok(ts[pos])
    else Err(Expected(kind, value, ts[pos]))
  }

  /** `consumeAny(["KEYWORD", "IDENTIFIER"])`, the only way the source calls it. */
  function ConsumeNameAt(ts: seq<Token>, pos: nat): (r: Result<Token, ParseError>)
    ensures r.Ok? <==> pos < |ts| && ts[pos].kind in {Keyword, Identifier}
    ensures r.Ok? ==> r.value == ts[pos]
  {
    var t := PeekAt(ts, pos);
    if t.kind == Keyword || t.kind == Identifier then Ok(t) else Err(ExpectedName(t))
  }

  /** The lookahead that tells a declaration from a call: with the cursor on a name, the
      next token is `(` and the one after it is `)`, or an identifier followed by `:`. */
  predicate ParameterListAhead(ts: seq<Token>, pos: nat) {
    pos + 2 < |ts| && ts[pos + 1].value == "(" &&
    (ts[pos + 2].value == ")" ||
     (ts[pos + 2].kind == Identifier && pos + 3 < |ts| && ts[pos + 3].value == ":"))
  }

  /** One `|`-separated piece of a type string, already trimmed: `T[]` is an array of the
      primitive `T` (one pair of brackets removed), anything else a primitive. */
  function PartType(part: string): Type {
    if EndsWith(part, "[]") then ArrayOf(Primitive(part[..|part| - 2])) else Primitive(part)
  }

  /** The types of the pieces of `s`, in order. */
  function PartTypes(parts: seq<string>): (r: seq<Type>)
    ensures |r| == |parts|
    ensures forall i :: 0 <= i < |parts| ==> r[i] == PartType(Trim(parts[i]))
  {
    if parts == [] then [] else [PartType(Trim(parts[0]))] + PartTypes(parts[1..])
  }

  /** `parseTypeAnnotationFromString`. */
  function TypeFromString(s: string): Type {
    var types := PartTypes(SplitOn(s, '|'));
    if |types| == 1 then types[0] else Union(types)
  }

  /** `parseTypeAnnotation`: a TYPE token is read as a type string, an identifier names an
      alias. (A token of the kind just peeked is always consumed, so that `consume` cannot
      fail; here and below the token is taken directly.) */
  function TypeAnnotationAt(ts: seq<Token>, pos: nat): (r: Result<Parsed<Type>, ParseError>)
    ensures r.Ok? ==> pos < r.value.next == pos + 1 <= |ts|
  {
    var t := PeekAt(ts, pos);
    if t.kind == TypeName then Ok(Parsed(TypeFromString(t.value), pos + 1))
    else if t.kind == Identifier then Ok(Parsed(Alias(t.value), pos + 1))
    else
      Err(ExpectedTypeAnnotation(t))
  }

  /** `parseTypeAlias`: `Name = type`, with an optional `;`. */
  function TypeAliasAt(ts: seq<Token>, pos: nat): (r: Result<Parsed<Node>, ParseError>)
    ensures r.Ok? ==> pos < r.value.next <= |ts|
    ensures r.Ok? ==> r.value.value.TypeAlias? && r.value.value.alias == ts[pos].value
  {
    var name :- ConsumeAt(ts, pos, Identifier, None);
    var eq :- ConsumeAt(ts, pos + 1, Symbol, Some("="));
    var ty :- TypeAnnotationAt(ts, pos + 2);
    var node := TypeAlias(name.value, ty.value, name.line);
    if PeekAt(ts, ty.next).value == ";" then
      var semi :- ConsumeAt(ts, ty.next, Symbol, Some(";"));
      Ok(Parsed(node, ty.next + 1))
    else
      Ok(Parsed(node, ty.next))
  }

  /** The expressions of an argument list parsed outside a declaration. */
  function Exprs(args: seq<Arg>): (es: seq<Expr>)
    requires forall i :: 0 <= i < |args| ==> args[i].ExprArg?
    ensures |es| == |args|
    ensures forall i :: 0 <= i < |args| ==> es[i] == args[i].expr
  {
    if args == [] then [] else [args[0].expr] + Exprs(args[1..])
  }

  /* The expression grammar. Each rule decreases the tokens left, or keeps them and moves
     to a rule of lower rank (the second component of `decreases`). */

  /** `parseExpression`. */
  function ExpressionAt(ts: seq<Token>, pos: nat): (r: Result<Parsed<Expr>, ParseError>)
    requires pos <= |ts|
    ensures r.Ok? ==> pos < r.value.next <= |ts|
    decreases |ts| - pos, 5
  {
    BinaryAt(ts, pos, 0)
  }

  /** `parseBinaryExpression(minPrecedence)`: a primary, then the operator loop. */
  function BinaryAt(ts: seq<Token>, pos: nat, minPrecedence: nat): (r: Result<Parsed<Expr>, ParseError>)
    requires pos <= |ts|
    ensures r.Ok? ==> pos < r.value.next <= |ts|
    decreases |ts| - pos, 4
  {
    var left :- PrimaryAt(ts, pos);
    BinaryLoopAt(ts, left.next, left.value, minPrecedence)
  }

  /** One turn of the operator loop of `parseBinaryExpression`: an operator of the table
      with precedence at least `minPrecedence` is consumed, its right operand is parsed one
      level higher, and the loop goes on with the combined node; anything else ends it. */
  function BinaryLoopAt(ts: seq<Token>, pos: nat, left: Expr, minPrecedence: nat)
    : (r: Result<Parsed<Expr>, ParseError>)
    requires pos <= |ts|
    ensures r.Ok? ==> pos <= r.value.next <= |ts|
    decreases |ts| - pos, 0
  {
    var t := PeekAt(ts, pos);
    if t.kind != Operator || Precedence(t.value).None? || Precedence(t.value).value < minPrecedence then
      Ok(Parsed(left, pos))
    else
      var prec := Precedence(t.value).value;
      var op :- ConsumeAt(ts, pos, Operator, Some(t.value));
      var right :- BinaryAt(ts, pos + 1, prec + 1);
      BinaryLoopAt(ts, right.next, Binary(t.value, left, right.value), minPrecedence)
  }

  /** `parsePrimary`: an atom, then the postfix loop. */
  function PrimaryAt(ts: seq<Token>, pos: nat): (r: Result<Parsed<Expr>, ParseError>)
    requires pos <= |ts|
    ensures r.Ok? ==> pos < r.value.next <= |ts|
    decreases |ts| - pos, 3
  {
    var atom :- AtomAt(ts, pos);
    PostfixAt(ts, atom.next, atom.value)
  }

  /** The first half of `parsePrimary`: a number, a string, a name (any keyword but
      `return` included), or a parenthesised expression. */
  function AtomAt(ts: seq<Token>, pos: nat): (r: Result<Parsed<Expr>, ParseError>)
    requires pos <= |ts|
    ensures r.Ok? ==> pos < r.value.next <= |ts|
    decreases |ts| - pos, 2
  {
    var t := PeekAt(ts, pos);
    if t.kind == NumberLiteral then Ok(Parsed(NumberLit(t.value), pos + 1))
    else if t.kind == StringLiteral then Ok(Parsed(StringLit(t.value), pos + 1))
    else if t.kind == Identifier || (t.kind == Keyword && t.value != "return") then
      Ok(Parsed(Ident(t.value), pos + 1))
    else if t.value == "(" then
      var open :- ConsumeAt(ts, pos, Symbol, Some("("));
      var inner :- ExpressionAt(ts, pos + 1);
      var close :- ConsumeAt(ts, inner.next, Symbol, Some(")"));
      Ok(Parsed(inner.value, inner.next + 1))
    else
      Err(UnexpectedToken(t))
  }

  /** The postfix loop of `parsePrimary`: `.name` wraps the expression in a member access,
      `(args)` in a call; anything else ends the loop. */
  function PostfixAt(ts: seq<Token>, pos: nat, e: Expr): (r: Result<Parsed<Expr>, ParseError>)
    requires pos <= |ts|
    ensures r.Ok? ==> pos <= r.value.next <= |ts|
    decreases |ts| - pos, 1
  {
    var t := PeekAt(ts, pos);
    if t.value == "." then
      var dot :- ConsumeAt(ts, pos, Symbol, Some("."));
      var property :- ConsumeAt(ts, pos + 1, Identifier, None);
      PostfixAt(ts, pos + 2, Member(e, property.value))
    else if t.value == "(" then
      var open :- ConsumeAt(ts, pos, Symbol, Some("("));
      var args :- ArgumentsAt(ts, pos + 1, false);
      var close :- ConsumeAt(ts, args.next, Symbol, Some(")"));
      PostfixAt(ts, args.next + 1, Call(e, Exprs(args.value)))
    else
      Ok(Parsed(e, pos))
  }

  /** `parseArguments(isParamContext)`: nothing before a `)`, otherwise a comma-separated
      list. Outside a declaration every element is an expression. */
  function ArgumentsAt(ts: seq<Token>, pos: nat, isParamContext: bool)
    : (r: Result<Parsed<seq<Arg>>, ParseError>)
    requires pos <= |ts|
    ensures r.Ok? ==> pos <= r.value.next <= |ts|
    ensures r.Ok? && !isParamContext ==> forall i :: 0 <= i < |r.value.value| ==> r.value.value[i].ExprArg?
    decreases |ts| - pos, 8
  {
    if PeekAt(ts, pos).value == ")" then Ok(Parsed([], pos))
    else
      var first :- ArgumentAt(ts, pos, isParamContext);
      MoreArgumentsAt(ts, first.next, isParamContext, [first.value])
  }

  /** The `while (peek().value === ",")` loop of `parseArguments`. */
  function MoreArgumentsAt(ts: seq<Token>, pos: nat, isParamContext: bool, acc: seq<Arg>)
    : (r: Result<Parsed<seq<Arg>>, ParseError>)
    requires pos <= |ts|
    requires !isParamContext ==> forall i :: 0 <= i < |acc| ==> acc[i].ExprArg?
    ensures r.Ok? ==> pos <= r.value.next <= |ts|
    ensures r.Ok? && !isParamContext ==> forall i :: 0 <= i < |r.value.value| ==> r.value.value[i].ExprArg?
    decreases |ts| - pos, 7
  {
    if PeekAt(ts, pos).value == "," then
      var comma :- ConsumeAt(ts, pos, Symbol, Some(","));
      var arg :- ArgumentAt(ts, pos + 1, isParamContext);
      MoreArgumentsAt(ts, arg.next, isParamContext, acc + [arg.value])
    else
      Ok(Parsed(acc, pos))
  }

  /** `parseArgument`: in a declaration, `name : type` is a parameter; anything else is an
      expression. */
  function ArgumentAt(ts: seq<Token>, pos: nat, isParamContext: bool): (r: Result<Parsed<Arg>, ParseError>)
    requires pos <= |ts|
    ensures r.Ok? ==> pos < r.value.next <= |ts|
    ensures r.Ok? && !isParamContext ==> r.value.value.ExprArg?
    decreases |ts| - pos, 6
  {
    if isParamContext && PeekAt(ts, pos).kind == Identifier && pos + 1 < |ts| && ts[pos + 1].value == ":" then
      var colon :- ConsumeAt(ts, pos + 1, Symbol, Some(":"));
      var ty :- TypeAnnotationAt(ts, pos + 2);
      Ok(Parsed(Parameter(ts[pos].value, ty.value), ty.next))
    else
      var e :- ExpressionAt(ts, pos);
      Ok(Parsed(ExprArg(e.value), e.next))
  }

  /** `parseStatement`: `return e;` or `e;`. */
  function StatementAt(ts: seq<Token>, pos: nat): (r: Result<Parsed<Stmt>, ParseError>)
    requires pos <= |ts|
    ensures r.Ok? ==> pos < r.value.next <= |ts|
  {
    var t := PeekAt(ts, pos);
    if t.kind == Keyword && t.value == "return" then
      var e :- ExpressionAt(ts, pos + 1);
      var semi :- ConsumeAt(ts, e.next, Symbol, Some(";"));
      Ok(Parsed(ReturnStatement(e.value), e.next + 1))
    else
      var e :- ExpressionAt(ts, pos);
      var semi :- ConsumeAt(ts, e.next, Symbol, Some(";"));
      Ok(Parsed(ExpressionStatement(e.value), e.next + 1))
  }

  /** `parseFunctionBody`: `{`, statements up to a `}`, `}`. */
  function BodyAt(ts: seq<Token>, pos: nat): (r: Result<Parsed<seq<Stmt>>, ParseError>)
    requires pos <= |ts|
    ensures r.Ok? ==> pos + 1 < r.value.next <= |ts| && ts[pos].value == "{"
    ensures r.Ok? ==> ts[r.value.next - 1] == Token(Symbol, "}", ts[r.value.next - 1].line)
  {
    var open :- ConsumeAt(ts, pos, Symbol, Some("{"));
    StatementsAt(ts, pos + 1, [])
  }

  /** The statement loop of `parseFunctionBody`, ending with the `}`. */
  function StatementsAt(ts: seq<Token>, pos: nat, acc: seq<Stmt>): (r: Result<Parsed<seq<Stmt>>, ParseError>)
    requires pos <= |ts|
    ensures r.Ok? ==> pos < r.value.next <= |ts| && ts[r.value.next - 1] == Token(Symbol, "}", ts[r.value.next - 1].line)
    ensures r.Ok? ==> |acc| <= |r.value.value| && r.value.value[..|acc|] == acc
    decreases |ts| - pos
  {
    if PeekAt(ts, pos).value != "}" then
      var s :- StatementAt(ts, pos);
      StatementsAt(ts, s.next, acc + [s.value])
    else
      var close :- ConsumeAt(ts, pos, Symbol, Some("}"));
      Ok(Parsed(acc, pos + 1))
  }

  /** `parseFunction`: a name that is not reserved, a parameter list, the RETURN_TYPE token
      the lexer merged, then a body or a `;`. */
  function FunctionAt(ts: seq<Token>, pos: nat): (r: Result<Parsed<Node>, ParseError>)
    requires pos <= |ts|
    ensures r.Ok? ==> pos < r.value.next <= |ts| && r.value.value.FunctionDeclaration?
    ensures r.Ok? ==> r.value.value.name == ts[pos].value && r.value.value.line == ts[pos].line
    ensures r.Ok? ==> r.value.value.name !in ReservedBuiltins
    ensures pos < |ts| && ts[pos].kind in {Keyword, Identifier} && ts[pos].value in ReservedBuiltins ==>
              r == Err(CannotOverride(ts[pos].value, ts[pos].line))
    ensures r.Ok? && r.value.value.body.None? ==> ts[r.value.next - 1] == Token(Symbol, ";", ts[r.value.next - 1].line)
    ensures r.Ok? && r.value.value.body.Some? ==> ts[r.value.next - 1] == Token(Symbol, "}", ts[r.value.next - 1].line)
  {
    var name :- ConsumeNameAt(ts, pos);
    if name.value in ReservedBuiltins then Err(CannotOverride(name.value, name.line))
    else
      var open :- ConsumeAt(ts, pos + 1, Symbol, Some("("));
      var args :- ArgumentsAt(ts, pos + 2, true);
      var close :- ConsumeAt(ts, args.next, Symbol, Some(")"));
      var rt :- ConsumeAt(ts, args.next + 1, ReturnType, None);
      var returnType := TypeFromString(rt.value);
      var bodyStart := args.next + 2;
      if PeekAt(ts, bodyStart).value == "{" then
        var body :- BodyAt(ts, bodyStart);
        Ok(Parsed(FunctionDeclaration(name.value, args.value, returnType, Some(body.value), name.line), body.next))
      else
        var semi :- ConsumeAt(ts, bodyStart, Symbol, Some(";"));
        Ok(Parsed(FunctionDeclaration(name.value, args.value, returnType, None, name.line), bodyStart + 1))
  }

  /** `parseCallExpressionStatement`: `name(args) : T;` at top level. */
  function CallStatementAt(ts: seq<Token>, pos: nat): (r: Result<Parsed<Node>, ParseError>)
    requires pos <= |ts|
    ensures r.Ok? ==> pos < r.value.next <= |ts| && r.value.value.TopExpression?
    ensures r.Ok? ==> r.value.value.expression.Call? && r.value.value.expression.callee == Ident(ts[pos].value)
    ensures r.Ok? ==> ts[r.value.next - 1] == Token(Symbol, ";", ts[r.value.next - 1].line)
  {
    var callee :- ConsumeNameAt(ts, pos);
    var open :- ConsumeAt(ts, pos + 1, Symbol, Some("("));
    var args :- ArgumentsAt(ts, pos + 2, false);
    var close :- ConsumeAt(ts, args.next, Symbol, Some(")"));
    var rt :- ConsumeAt(ts, args.next + 1, ReturnType, None);
    var semi :- ConsumeAt(ts, args.next + 2, Symbol, Some(";"));
    Ok(Parsed(TopExpression(Call(Ident(callee.value), Exprs(args.value)), TypeFromString(rt.value), callee.line),
              args.next + 3))
  }

  /** The loop of `parse`: until an EOF token, a name followed by `=` starts a type alias, a
      name followed by `(` a declaration or a call statement, a `;` is skipped, and
      anything else is an error. */
  function ProgramFrom(ts: seq<Token>, pos: nat, acc: seq<Node>): (r: Result<seq<Node>, ParseError>)
    requires pos <= |ts|
    decreases |ts| - pos
  {
    var t := PeekAt(ts, pos);
    if t.kind == Eof then Ok(acc)
    else if t.kind == Identifier || t.kind == Keyword then
      if pos + 1 < |ts| && ts[pos + 1].value == "=" then
        var node :- TypeAliasAt(ts, pos);
        ProgramFrom(ts, node.next, acc + [node.value])
      else if pos + 1 < |ts| && ts[pos + 1].value == "(" then
        if ParameterListAhead(ts, pos) then
          var node :- FunctionAt(ts, pos);
          ProgramFrom(ts, node.next, acc + [node.value])
        else
          var node :- CallStatementAt(ts, pos);
          ProgramFrom(ts, node.next, acc + [node.value])
      else
        Err(UnexpectedToken(t))
    else if t.value == ";" then
      var semi :- ConsumeAt(ts, pos, Symbol, Some(";"));
      ProgramFrom(ts, pos + 1, acc)
    else
      Err(UnexpectedToken(t))
  }

  /** `new Parser(tokens).parse()`. */
  function ParseProgram(ts: seq<Token>): Result<seq<Node>, ParseError> {
    ProgramFrom(ts, 0, [])
  }

  /** A method's result and the cursor it leaves, in the form the grammar functions use. */
  function Outcome<T>(r: Result<T, ParseError>, pos: nat): Result<Parsed<T>, ParseError> {
    match r
    case Ok(v) => Ok(Parsed(v, pos))
    case Err(e) => Err(e)
  }

  /** The parser object: a fixed token list and a cursor that every rule moves forward. A
      thrown error becomes an `Err` result that each caller hands on unchanged. */
  class Parser {
    const tokens: seq<Token>
    var position: nat

    constructor(tokens: seq<Token>)
      ensures this.tokens == tokens && position == 0
    {
      this.tokens := tokens;
      position := 0;
    }

    method Consume(kind: TokenKind, value: Option<string>) returns (r: Result<Token, ParseError>)
      modifies this
      ensures r == ConsumeAt(tokens, old(position), kind, value)
      ensures position == if r.Ok? then old(position) + 1 else old(position)
    {
      if position >= |tokens| {
        return Err(OutOfTokens);
      }
      var token := tokens[position];
      if token.kind == kind && (value.None? || token.value == value.value) {
        position := position + 1;
        return Ok(token);
      }
      return Err(Expected(kind, value, token));
    }

    /** `consumeAny(["KEYWORD", "IDENTIFIER"])`. */
    method ConsumeName() returns (r: Result<Token, ParseError>)
      modifies this
      ensures r == ConsumeNameAt(tokens, old(position))
      ensures position == if r.Ok? then old(position) + 1 else old(position)
    {
      var token := PeekAt(tokens, position);
      if token.kind == Keyword || token.kind == Identifier {
        position := position + 1;
        return Ok(token);
      }
      return Err(ExpectedName(token));
    }

    method Parse() returns (r: Result<seq<Node>, ParseError>)
      requires position <= |tokens|
      modifies this
      ensures r == ProgramFrom(tokens, old(position), [])
    {
      var ast: seq<Node> := [];
      while PeekAt(tokens, position).kind != Eof
        invariant position <= |tokens|
        invariant ProgramFrom(tokens, position, ast) == ProgramFrom(tokens, old(position), [])
        decreases |tokens| - position
      {
        var current := PeekAt(tokens, position);
        if current.kind == Identifier || current.kind == Keyword {
          if position + 1 < |tokens| && tokens[position + 1].value == "=" {
            var node :- ParseTypeAlias();
            ast := ast + [node];
          } else if position + 1 < |tokens| && tokens[position + 1].value == "(" {
            if ParameterListAhead(tokens, position) {
              var node :- ParseFunction();
              ast := ast + [node];
            } else {
              var node :- ParseCallExpressionStatement();
              ast := ast + [node];
            }
          } else {
            return Err(UnexpectedToken(current));
          }
        } else if current.value == ";" {
          var semi :- Consume(Symbol, Some(";"));
        } else {
          return Err(UnexpectedToken(current));
        }
      }
      return Ok(ast);
    }

    method ParseTypeAlias() returns (r: Result<Node, ParseError>)
      modifies this
      ensures Outcome(r, position) == TypeAliasAt(tokens, old(position))
    {
      var aliasToken :- Consume(Identifier, None);
      var eq :- Consume(Symbol, Some("="));
      var typeAnnotation :- ParseTypeAnnotation();
      if PeekAt(tokens, position).value == ";" {
        var semi :- Consume(Symbol, Some(";"));
      }
      return Ok(TypeAlias(aliasToken.value, typeAnnotation, aliasToken.line));
    }

    method ParseTypeAnnotation() returns (r: Result<Type, ParseError>)
      modifies this
      ensures Outcome(r, position) == TypeAnnotationAt(tokens, old(position))
    {
      var token := PeekAt(tokens, position);
      if token.kind == TypeName {
        var typeToken := Consume(TypeName, None);
        return Ok(TypeFromString(token.value));
      } else if token.kind == Identifier {
        var nameToken := Consume(Identifier, None);
        return Ok(Alias(token.value));
      }
      return Err(ExpectedTypeAnnotation(token));
    }

    method ParseFunction() returns (r: Result<Node, ParseError>)
      requires position <= |tokens|
      modifies this
      ensures Outcome(r, position) == FunctionAt(tokens, old(position))
    {
      var funcNameToken :- ConsumeName();
      if funcNameToken.value in ReservedBuiltins {
        return Err(CannotOverride(funcNameToken.value, funcNameToken.line));
      }
      var open :- Consume(Symbol, Some("("));
      var args :- ParseArguments(true);
      var close :- Consume(Symbol, Some(")"));
      var returnTypeToken :- Consume(ReturnType, None);
      var returnType := TypeFromString(returnTypeToken.value);
      var body: Option<seq<Stmt>> := None;
      if PeekAt(tokens, position).value == "{" {
        var statements :- ParseFunctionBody();
        body := Some(statements);
      } else {
        var semi :- Consume(Symbol, Some(";"));
      }
      return Ok(FunctionDeclaration(funcNameToken.value, args, returnType, body, funcNameToken.line));
    }

    method ParseCallExpressionStatement() returns (r: Result<Node, ParseError>)
      requires position <= |tokens|
      modifies this
      ensures Outcome(r, position) == CallStatementAt(tokens, old(position))
    {
      var calleeToken :- ConsumeName();
      var open :- Consume(Symbol, Some("("));
      var args :- ParseArguments(false);
      var close :- Consume(Symbol, Some(")"));
      var returnTypeToken :- Consume(ReturnType, None);
      var returnType := TypeFromString(returnTypeToken.value);
      var semi :- Consume(Symbol, Some(";"));
      return Ok(TopExpression(Call(Ident(calleeToken.value), Exprs(args)), returnType, calleeToken.line));
    }

    method ParseArguments(isParamContext: bool) returns (r: Result<seq<Arg>, ParseError>)
      requires position <= |tokens|
      modifies this
      ensures Outcome(r, position) == ArgumentsAt(tokens, old(position), isParamContext)
      decreases |tokens| - position, 5
    {
      var args: seq<Arg> := [];
      if PeekAt(tokens, position).value == ")" {
        return Ok(args);
      }
      var first :- ParseArgument(isParamContext);
      args := [first];
      while PeekAt(tokens, position).value == ","
        invariant old(position) < position <= |tokens|
        invariant !isParamContext ==> forall i :: 0 <= i < |args| ==> args[i].ExprArg?
        invariant MoreArgumentsAt(tokens, position, isParamContext, args)
                  == ArgumentsAt(tokens, old(position), isParamContext)
        decreases |tokens| - position
      {
        var comma :- Consume(Symbol, Some(","));
        var arg :- ParseArgument(isParamContext);
        args := args + [arg];
      }
      return Ok(args);
    }

    method ParseArgument(isParamContext: bool) returns (r: Result<Arg, ParseError>)
      requires position <= |tokens|
      modifies this
      ensures Outcome(r, position) == ArgumentAt(tokens, old(position), isParamContext)
      decreases |tokens| - position, 4
    {
      if isParamContext && PeekAt(tokens, position).kind == Identifier &&
         position + 1 < |tokens| && tokens[position + 1].value == ":" {
        var paramName := tokens[position].value;
        var paramNameToken := Consume(Identifier, None);
        var colon :- Consume(Symbol, Some(":"));
        var paramType :- ParseTypeAnnotation();
        return Ok(Parameter(paramName, paramType));
      }
      var e :- ParseExpression();
      return Ok(ExprArg(e));
    }

    method ParseExpression() returns (r: Result<Expr, ParseError>)
      requires position <= |tokens|
      modifies this
      ensures Outcome(r, position) == ExpressionAt(tokens, old(position))
      decreases |tokens| - position, 3
    {
      r := ParseBinaryExpression(0);
    }

    method ParsePrimary() returns (r: Result<Expr, ParseError>)
      requires position <= |tokens|
      modifies this
      ensures Outcome(r, position) == PrimaryAt(tokens, old(position))
      decreases |tokens| - position, 1
    {
      var expr :- ParseAtom();
      while true
        invariant old(position) < position <= |tokens|
        invariant PostfixAt(tokens, position, expr) == PrimaryAt(tokens, old(position))
        decreases |tokens| - position
      {
        var next := PeekAt(tokens, position);
        if next.value == "." {
          var dot :- Consume(Symbol, Some("."));
          var propertyToken :- Consume(Identifier, None);
          expr := Member(expr, propertyToken.value);
        } else if next.value == "(" {
          var open :- Consume(Symbol, Some("("));
          var args :- ParseArguments(false);
          var close :- Consume(Symbol, Some(")"));
          expr := Call(expr, Exprs(args));
        } else {
          break;
        }
      }
      return Ok(expr);
    }

    /** The first half of `parsePrimary`, before its postfix loop. */
    method ParseAtom() returns (r: Result<Expr, ParseError>)
      requires position <= |tokens|
      modifies this
      ensures Outcome(r, position) == AtomAt(tokens, old(position))
      decreases |tokens| - position, 0
    {
      var token := PeekAt(tokens, position);
      if token.kind == NumberLiteral {
        var literal := Consume(NumberLiteral, None);
        return Ok(NumberLit(token.value));
      } else if token.kind == StringLiteral {
        var literal := Consume(StringLiteral, None);
        return Ok(StringLit(token.value));
      } else if token.kind == Identifier || (token.kind == Keyword && token.value != "return") {
        var name := Consume(token.kind, None);
        return Ok(Ident(token.value));
      } else if token.value == "(" {
        var open :- Consume(Symbol, Some("("));
        var inner :- ParseExpression();
        var close :- Consume(Symbol, Some(")"));
        return Ok(inner);
      }
      return Err(UnexpectedToken(token));
    }

    method ParseBinaryExpression(minPrecedence: nat) returns (r: Result<Expr, ParseError>)
      requires position <= |tokens|
      modifies this
      ensures Outcome(r, position) == BinaryAt(tokens, old(position), minPrecedence)
      decreases |tokens| - position, 2
    {
      var left :- ParsePrimary();
      while true
        invariant old(position) < position <= |tokens|
        invariant BinaryLoopAt(tokens, position, left, minPrecedence) == BinaryAt(tokens, old(position), minPrecedence)
        decreases |tokens| - position
      {
        var token := PeekAt(tokens, position);
        if token.kind != Operator {
          break;
        }
        var precedence := Precedence(token.value);
        if precedence.None? || precedence.value < minPrecedence {
          break;
        }
        var op :- Consume(Operator, Some(token.value));
        var right :- ParseBinaryExpression(precedence.value + 1);
        left := Binary(token.value, left, right);
      }
      return Ok(left);
    }

    method ParseStatement() returns (r: Result<Stmt, ParseError>)
      requires position <= |tokens|
      modifies this
      ensures Outcome(r, position) == StatementAt(tokens, old(position))
    {
      var token := PeekAt(tokens, position);
      if token.kind == Keyword && token.value == "return" {
        var keyword := Consume(Keyword, Some("return"));
        var e :- ParseExpression();
        var semi :- Consume(Symbol, Some(";"));
        return Ok(ReturnStatement(e));
      }
      var e :- ParseExpression();
      var semi :- Consume(Symbol, Some(";"));
      return Ok(ExpressionStatement(e));
    }

    method ParseFunctionBody() returns (r: Result<seq<Stmt>, ParseError>)
      requires position <= |tokens|
      modifies this
      ensures Outcome(r, position) == BodyAt(tokens, old(position))
    {
      var body: seq<Stmt> := [];
      var open :- Consume(Symbol, Some("{"));
      while PeekAt(tokens, position).value != "}"
        invariant old(position) < position <= |tokens|
        invariant StatementsAt(tokens, position, body) == BodyAt(tokens, old(position))
        decreases |tokens| - position
      {
        var statement :- ParseStatement();
        body := body + [statement];
      }
      var close :- Consume(Symbol, Some("}"));
      return Ok(body);
    }
  }

  /** Parsing a token list with a fresh parser computes `ParseProgram`. */
  method ParseTokens(ts: seq<Token>) returns (r: Result<seq<Node>, ParseError>)
    ensures r == ParseProgram(ts)
  {
    var parser := new Parser(ts);
    r := parser.Parse();
  }
}
