/** What the parser of backend/src/parser.js guarantees about the trees it builds: how it
    tells declarations from calls, how type strings are read, how operators group, how
    member accesses and calls chain, and what it skips or rejects at top level. */
module ParserProperties {
  import opened Outcomes
  import opened Text
  import opened Lexer
  import opened Ast
  import opened Parser

  /* ---- Declarations and call statements ---- */

  /** The top-level loop only appends to the nodes it has. */
  lemma {:induction false} ProgramFromExtends(ts: seq<Token>, pos: nat, acc: seq<Node>)
    requires pos <= |ts| && ProgramFrom(ts, pos, acc).Ok?
    ensures |acc| <= |ProgramFrom(ts, pos, acc).value| && ProgramFrom(ts, pos, acc).value[..|acc|] == acc
    decreases |ts| - pos
  {
    var t := PeekAt(ts, pos);
    if t.kind == Identifier || t.kind == Keyword {
      var node :=
        if pos + 1 < |ts| && ts[pos + 1].value == "=" then TypeAliasAt(ts, pos).value
        else if ParameterListAhead(ts, pos) then FunctionAt(ts, pos).value
        else CallStatementAt(ts, pos).value;
      ProgramFromExtends(ts, node.next, acc + [node.value]);
      assert (acc + [node.value])[..|acc|] == acc;
    } else if t.kind != Eof {
      ProgramFromExtends(ts, pos + 1, acc);
    }
  }

  /** A name followed by `(` starts a declaration exactly when the parameter-list lookahead
      holds, and a call statement otherwise. */
  lemma DeclarationOrCall(ts: seq<Token>, pos: nat, acc: seq<Node>)
    requires pos + 1 < |ts| && ts[pos].kind in {Identifier, Keyword} && ts[pos + 1].value == "("
    requires ProgramFrom(ts, pos, acc).Ok?
    ensures |acc| < |ProgramFrom(ts, pos, acc).value|
    ensures ProgramFrom(ts, pos, acc).value[|acc|].FunctionDeclaration? <==> ParameterListAhead(ts, pos)
    ensures !ParameterListAhead(ts, pos) ==> ProgramFrom(ts, pos, acc).value[|acc|].TopExpression?
  {
    var r := ProgramFrom(ts, pos, acc).value;
    if ParameterListAhead(ts, pos) {
      var node := FunctionAt(ts, pos).value;
      assert ProgramFrom(ts, pos, acc) == ProgramFrom(ts, node.next, acc + [node.value]);
      ProgramFromExtends(ts, node.next, acc + [node.value]);
      assert r[..|acc| + 1] == acc + [node.value];
      assert r[|acc|] == r[..|acc| + 1][|acc|];
    } else {
      var node := CallStatementAt(ts, pos).value;
      assert ProgramFrom(ts, pos, acc) == ProgramFrom(ts, node.next, acc + [node.value]);
      ProgramFromExtends(ts, node.next, acc + [node.value]);
      assert r[..|acc| + 1] == acc + [node.value];
      assert r[|acc|] == r[..|acc| + 1][|acc|];
    }
  }

  /** A `;` at top level is skipped. */
  lemma SemicolonSkipped(ts: seq<Token>, pos: nat, acc: seq<Node>)
    requires pos < |ts| && ts[pos].kind == Symbol && ts[pos].value == ";"
    ensures ProgramFrom(ts, pos, acc) == ProgramFrom(ts, pos + 1, acc)
  {
  }

  /** Any other leading token that is not a name is an error. */
  lemma UnexpectedLeadingToken(ts: seq<Token>, pos: nat, acc: seq<Node>)
    requires pos < |ts| && ts[pos].kind !in {Eof, Identifier, Keyword} && ts[pos].value != ";"
    ensures ProgramFrom(ts, pos, acc) == Err(UnexpectedToken(ts[pos]))
  {
  }

  /** A declaration `name(): T;` is accepted for every name outside the reserved list
      (`push` and `sumNumbers` among them), and gets no body. */
  lemma BodylessDeclaration(ts: seq<Token>, pos: nat)
    requires pos + 5 <= |ts| && ts[pos].kind in {Identifier, Keyword} && ts[pos].value !in ReservedBuiltins
    requires ts[pos + 1].kind == Symbol && ts[pos + 1].value == "("
    requires ts[pos + 2].kind == Symbol && ts[pos + 2].value == ")"
    requires ts[pos + 3].kind == ReturnType
    requires ts[pos + 4].kind == Symbol && ts[pos + 4].value == ";"
    ensures FunctionAt(ts, pos)
            == Ok(Parsed(FunctionDeclaration(ts[pos].value, [], TypeFromString(ts[pos + 3].value), None, ts[pos].line),
                         pos + 5))
  {
    assert ArgumentsAt(ts, pos + 2, true) == Ok(Parsed([], pos + 2));
  }

  /* ---- Type strings ---- */

  /** A name that `parseTypeAnnotationFromString` reads back as itself: no `|`, no spaces
      at its ends, no trailing `[]`. */
  predicate PlainName(n: string) {
    '|' !in n && (n == [] || (!IsSpace(n[0]) && !IsSpace(n[|n| - 1]))) && !EndsWith(n, "[]")
  }

  /** A type one piece of a type string can denote. */
  predicate IsPartType(t: Type) {
    (t.Primitive? && PlainName(t.name)) ||
    (t.ArrayOf? && t.elementType.Primitive? && PlainName(t.elementType.name))
  }

  /** A type a type string can denote: a piece, or a union of two or more pieces. */
  predicate Printable(t: Type) {
    IsPartType(t) || (t.Union? && |t.types| >= 2 && forall i :: 0 <= i < |t.types| ==> IsPartType(t.types[i]))
  }

  function PartText(t: Type): (s: string)
    requires IsPartType(t)
    ensures '|' !in s
  {
    if t.Primitive? then t.name else t.elementType.name + "[]"
  }

  function PartTexts(ts: seq<Type>): (r: seq<string>)
    requires forall i :: 0 <= i < |ts| ==> IsPartType(ts[i])
    ensures |r| == |ts| && forall i :: 0 <= i < |ts| ==> r[i] == PartText(ts[i])
  {
    if ts == [] then [] else [PartText(ts[0])] + PartTexts(ts[1..])
  }

  /** A type written out as the type string that denotes it. */
  function TypeText(t: Type): string
    requires Printable(t)
  {
    if IsPartType(t) then PartText(t) else JoinWith(PartTexts(t.types), "|")
  }

  lemma PartRoundTrip(t: Type)
    requires IsPartType(t)
    ensures PartType(Trim(PartText(t))) == t
  {
    var s := PartText(t);
    TrimOfUnspaced(s);
    if t.ArrayOf? {
      assert s[..|s| - 2] == t.elementType.name;
    }
  }

  /** Reading a written-out type gives the type back. */
  lemma {:induction false} TypeStringRoundTrip(t: Type)
    requires Printable(t)
    ensures TypeFromString(TypeText(t)) == t
  {
    if IsPartType(t) {
      SplitOnNoSeparator(PartText(t), '|');
      PartRoundTrip(t);
    } else {
      var texts := PartTexts(t.types);
      SplitOnJoinWith(texts, '|');
      forall i | 0 <= i < |t.types|
        ensures PartTypes(texts)[i] == t.types[i]
      {
        PartRoundTrip(t.types[i]);
      }
      assert PartTypes(texts) == t.types;
    }
  }

  /** A type string without `|` is one piece, trimmed. */
  lemma SingleTypeString(s: string)
    requires '|' !in s
    ensures TypeFromString(s) == PartType(Trim(s))
  {
    SplitOnNoSeparator(s, '|');
  }

  /** A type string with a `|` is a union of its trimmed pieces, in order. */
  lemma UnionTypeString(s: string)
    requires '|' in s
    ensures TypeFromString(s).Union?
    ensures TypeFromString(s).types == PartTypes(SplitOn(s, '|'))
    ensures |TypeFromString(s).types| >= 2
  {
    if |SplitOn(s, '|')| == 1 {
      SplitOnJoin(s, '|');
      assert false;
    }
  }

  /** Only one pair of brackets is removed: `T[][]` is an array of the primitive named
      `T[]`. */
  lemma ArrayStripsOnePair(n: string)
    requires '|' !in n && (n == [] || !IsSpace(n[0]))
    ensures TypeFromString(n + "[][]") == ArrayOf(Primitive(n + "[]"))
  {
    var s := n + "[][]";
    SingleTypeString(s);
    TrimOfUnspaced(s);
    assert EndsWith(s, "[]") && s[..|s| - 2] == n + "[]";
  }

  /** The same name is an alias in annotation position but a primitive as a return type,
      because return types always go through `parseTypeAnnotationFromString`. */
  lemma AliasNameAsReturnType(ts: seq<Token>, pos: nat)
    requires pos < |ts| && ts[pos].kind == Identifier
    requires ts[pos].value != [] && forall i :: 0 <= i < |ts[pos].value| ==> IsWordChar(ts[pos].value[i])
    ensures TypeAnnotationAt(ts, pos) == Ok(Parsed(Alias(ts[pos].value), pos + 1))
    ensures TypeFromString(ts[pos].value) == Primitive(ts[pos].value)
  {
    var n := ts[pos].value;
    assert PlainName(n) by {
      assert !IsWordChar(']') && !IsWordChar('|');
      assert !IsSpace(n[0]) && !IsSpace(n[|n| - 1]);
    }
    TypeStringRoundTrip(Primitive(n));
  }

  /* ---- Operators ---- */

  /** An operator the binary loop would take at precedence `minPrecedence`. */
  predicate Eligible(t: Token, minPrecedence: nat) {
    t.kind == Operator && Precedence(t.value).Some? && Precedence(t.value).value >= minPrecedence
  }

  /** The operator loop only ends at a token it cannot take. */
  lemma {:induction false} BinaryLoopStops(ts: seq<Token>, pos: nat, left: Expr, minPrecedence: nat)
    requires pos <= |ts| && BinaryLoopAt(ts, pos, left, minPrecedence).Ok?
    ensures !Eligible(PeekAt(ts, BinaryLoopAt(ts, pos, left, minPrecedence).value.next), minPrecedence)
    decreases |ts| - pos
  {
    var t := PeekAt(ts, pos);
    if Eligible(t, minPrecedence) {
      var prec := Precedence(t.value).value;
      var right := BinaryAt(ts, pos + 1, prec + 1).value;
      BinaryLoopStops(ts, right.next, Binary(t.value, left, right.value), minPrecedence);
    }
  }

  /** So a binary expression ends only before a token that is not an operator of the table
      with enough precedence. In particular the right operand of an operator of precedence
      `p` stops before the next operator of precedence `p` or less, which the enclosing loop
      then applies to the combined node: operators of equal precedence group to the left. */
  lemma BinaryStops(ts: seq<Token>, pos: nat, minPrecedence: nat)
    requires pos <= |ts| && BinaryAt(ts, pos, minPrecedence).Ok?
    ensures !Eligible(PeekAt(ts, BinaryAt(ts, pos, minPrecedence).value.next), minPrecedence)
  {
    var left := PrimaryAt(ts, pos).value;
    BinaryLoopStops(ts, left.next, left.value, minPrecedence);
  }

  /** An operator token missing from the table ends the loop where it stands. */
  lemma UnknownOperatorEndsLoop(ts: seq<Token>, pos: nat, left: Expr, minPrecedence: nat)
    requires pos < |ts| && ts[pos].kind == Operator && Precedence(ts[pos].value).None?
    ensures BinaryLoopAt(ts, pos, left, minPrecedence) == Ok(Parsed(left, pos))
  {
  }

  /** A name followed by a token that is neither `.` nor `(` is a primary on its own. */
  lemma NamePrimary(ts: seq<Token>, pos: nat)
    requires pos < |ts| && ts[pos].kind == Identifier && PeekAt(ts, pos + 1).value !in {".", "("}
    ensures PrimaryAt(ts, pos) == Ok(Parsed(Ident(ts[pos].value), pos + 1))
  {
    assert AtomAt(ts, pos) == Ok(Parsed(Ident(ts[pos].value), pos + 1));
  }

  /** `a op1 b op2 c`, names and operators of the table. */
  predicate ThreeOperands(ts: seq<Token>) {
    |ts| == 5 && ts[0].kind == Identifier && ts[2].kind == Identifier && ts[4].kind == Identifier &&
    ts[1].kind == Operator && Precedence(ts[1].value).Some? &&
    ts[3].kind == Operator && Precedence(ts[3].value).Some?
  }

  /** When the first operator binds at least as tightly as the second, `a op1 b op2 c`
      groups as `(a op1 b) op2 c`; with equal precedence this is left association. */
  lemma GroupsLeft(ts: seq<Token>)
    requires ThreeOperands(ts) && Precedence(ts[1].value).value >= Precedence(ts[3].value).value
    ensures ExpressionAt(ts, 0)
            == Ok(Parsed(Binary(ts[3].value, Binary(ts[1].value, Ident(ts[0].value), Ident(ts[2].value)),
                                Ident(ts[4].value)), 5))
  {
    var a, b, c := Ident(ts[0].value), Ident(ts[2].value), Ident(ts[4].value);
    var p1, p2 := Precedence(ts[1].value).value, Precedence(ts[3].value).value;
    var ab := Binary(ts[1].value, a, b);
    var abc := Binary(ts[3].value, ab, c);
    NamePrimary(ts, 4);
    assert BinaryAt(ts, 4, p2 + 1) == Ok(Parsed(c, 5));
    assert BinaryLoopAt(ts, 3, ab, 0) == Ok(Parsed(abc, 5));
    NamePrimary(ts, 2);
    assert BinaryAt(ts, 2, p1 + 1) == Ok(Parsed(b, 3));
    assert BinaryLoopAt(ts, 1, a, 0) == Ok(Parsed(abc, 5));
    NamePrimary(ts, 0);
  }

  /** When the second operator binds more tightly, `a op1 b op2 c` groups as
      `a op1 (b op2 c)`. */
  lemma GroupsRight(ts: seq<Token>)
    requires ThreeOperands(ts) && Precedence(ts[1].value).value < Precedence(ts[3].value).value
    ensures ExpressionAt(ts, 0)
            == Ok(Parsed(Binary(ts[1].value, Ident(ts[0].value),
                                Binary(ts[3].value, Ident(ts[2].value), Ident(ts[4].value))), 5))
  {
    var a, b, c := Ident(ts[0].value), Ident(ts[2].value), Ident(ts[4].value);
    var p1, p2 := Precedence(ts[1].value).value, Precedence(ts[3].value).value;
    var bc := Binary(ts[3].value, b, c);
    NamePrimary(ts, 4);
    assert BinaryAt(ts, 4, p2 + 1) == Ok(Parsed(c, 5));
    assert BinaryLoopAt(ts, 3, b, p1 + 1) == Ok(Parsed(bc, 5));
    NamePrimary(ts, 2);
    assert BinaryAt(ts, 2, p1 + 1) == Ok(Parsed(bc, 5));
    assert BinaryLoopAt(ts, 1, a, 0) == Ok(Parsed(Binary(ts[1].value, a, bc), 5));
    NamePrimary(ts, 0);
  }

  /* ---- Member access and calls ---- */

  /** `e` is `base` wrapped in member accesses and calls, innermost first. */
  predicate Wraps(e: Expr, base: Expr) {
    e == base || (e.Member? && Wraps(e.obj, base)) || (e.Call? && Wraps(e.callee, base))
  }

  /** The postfix loop only wraps what it was given, and ends before a token that is
      neither `.` nor `(`. */
  lemma {:induction false} PostfixFolds(ts: seq<Token>, pos: nat, e: Expr)
    requires pos <= |ts| && PostfixAt(ts, pos, e).Ok?
    ensures Wraps(PostfixAt(ts, pos, e).value.value, e)
    ensures PeekAt(ts, PostfixAt(ts, pos, e).value.next).value !in {".", "("}
    decreases |ts| - pos
  {
    var t := PeekAt(ts, pos);
    if t.value == "." {
      var e' := Member(e, ts[pos + 1].value);
      PostfixFolds(ts, pos + 2, e');
      WrapsTrans(PostfixAt(ts, pos, e).value.value, e', e);
    } else if t.value == "(" {
      var args := ArgumentsAt(ts, pos + 1, false).value;
      var e' := Call(e, Exprs(args.value));
      PostfixFolds(ts, args.next + 1, e');
      WrapsTrans(PostfixAt(ts, pos, e).value.value, e', e);
    }
  }

  lemma {:induction false} WrapsTrans(e: Expr, mid: Expr, base: Expr)
    requires Wraps(e, mid) && ((mid.Member? && mid.obj == base) || (mid.Call? && mid.callee == base))
    ensures Wraps(e, base)
  {
    if e != mid {
      if e.Member? && Wraps(e.obj, mid) {
        WrapsTrans(e.obj, mid, base);
      } else {
        WrapsTrans(e.callee, mid, base);
      }
    }
  }

  /** `a.b(c)` is a call of the member `a.b` with argument `c`. */
  lemma MemberThenCall(ts: seq<Token>)
    requires |ts| == 6 && ts[0].kind == Identifier && ts[2].kind == Identifier && ts[4].kind == Identifier
    requires ts[1].kind == Symbol && ts[1].value == "." && ts[3].kind == Symbol && ts[3].value == "("
    requires ts[5].kind == Symbol && ts[5].value == ")" && ts[4].value != ")"
    ensures PrimaryAt(ts, 0) == Ok(Parsed(Call(Member(Ident(ts[0].value), ts[2].value), [Ident(ts[4].value)]), 6))
  {
    var a, c := Ident(ts[0].value), Ident(ts[4].value);
    var ab := Member(a, ts[2].value);
    NamePrimary(ts, 4);
    assert BinaryAt(ts, 4, 0) == Ok(Parsed(c, 5));
    assert ArgumentAt(ts, 4, false) == Ok(Parsed(ExprArg(c), 5));
    assert ArgumentsAt(ts, 4, false) == Ok(Parsed([ExprArg(c)], 5));
    assert Exprs([ExprArg(c)]) == [c];
    assert PostfixAt(ts, 3, ab) == Ok(Parsed(Call(ab, [c]), 6));
    assert PostfixAt(ts, 1, a) == Ok(Parsed(Call(ab, [c]), 6));
  }
}
