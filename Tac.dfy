/** backend/src/tac.js, class `TACPrinter`: three-address code for the IR, with a counter
    naming the temporaries and a buffer of lines.

    The specification functions build the lines as values (`TacLine`) and `LineText`
    renders each one with the template the printer uses, so the facts about which
    temporary a line assigns are stated on the values and carried to the text by
    `Render`. */
module Tac {
  import opened Outcomes
  import opened Text
  import opened Ir
  import opened Sequences

  /** The name `newTemp` returns once the counter has reached `n`. */
  function TempName(n: nat): string {
    "t" + NatText(n)
  }

  /** Temporaries with different numbers have different names. */
  lemma TempNamesDistinct(m: nat, n: nat)
    requires m != n
    ensures TempName(m) != TempName(n)
  {
    if TempName(m) == TempName(n) {
      assert NatText(m) == TempName(m)[1..];
      NatTextInjective(m, n);
    }
  }

  /** What `generateExpr` returns: a literal's text, a variable's name, a temporary, or
      `obj.prop`. */
  datatype Operand = Lit(value: Value) | Name(name: string) | Temp(n: nat) | Dot(obj: Operand, property: Operand)

  function OperandText(o: Operand): string {
    match o
    case Lit(v) => LiteralText(v)
    case Name(name) => name
    case Temp(n) => TempName(n)
    case Dot(obj, property) => OperandText(obj) + "." + OperandText(property)
  }

  /** The right-hand side of a line that assigns a temporary. */
  datatype Rhs = BinaryRhs(left: Operand, operator: string, right: Operand) | CallRhs(callee: Operand, arguments: seq<Operand>)

  function OperandTexts(os: seq<Operand>): seq<string> {
    seq(|os|, i requires 0 <= i < |os| => OperandText(os[i]))
  }

  function RhsText(r: Rhs): string {
    match r
    case BinaryRhs(left, op, right) => OperandText(left) + " " + op + " " + OperandText(right)
    case CallRhs(callee, args) => OperandText(callee) + "(" + JoinWith(OperandTexts(args), ", ") + ")"
  }

  /** One line of the printer's buffer. */
  datatype TacLine =
    | AssignLine(temp: nat, rhs: Rhs)
    | ResultLine(value: Operand)
    | ReturnLine(value: Operand)
    | HeaderLine(functionName: string)
    | BuiltinLine(functionName: string)
    | NoBodyLine

  function LineText(l: TacLine): string {
    match l
    case AssignLine(temp, rhs) => TempName(temp) + " := " + RhsText(rhs)
    case ResultLine(v) => "(result: " + OperandText(v) + ")"
    case ReturnLine(v) => "return " + OperandText(v)
    case HeaderLine(name) => "--- Function " + name + " ---"
    case BuiltinLine(name) => "(builtin function: " + name + " forwarding to stdlib)"
    case NoBodyLine => "(no body)"
  }

  /** The text of an assignment line starts with the name of the temporary it assigns. */
  lemma AssignLineText(temp: nat, rhs: Rhs)
    ensures StartsWith(LineText(AssignLine(temp, rhs)), TempName(temp) + " := ")
  {
    var prefix := TempName(temp) + " := ";
    assert LineText(AssignLine(temp, rhs)) == prefix + RhsText(rhs);
    assert (prefix + RhsText(rhs))[..|prefix|] == prefix;
  }

  /** The printed lines. */
  function Render(lines: seq<TacLine>): (r: seq<string>)
    ensures |r| == |lines|
  {
    Map(LineText, lines)
  }

  lemma RenderAppend(a: seq<TacLine>, b: seq<TacLine>)
    ensures Render(a + b) == Render(a) + Render(b)
  {
    MapAppend(LineText, a, b);
  }

  lemma RenderOne(line: TacLine)
    ensures Render([line]) == [LineText(line)]
  {
  }

  lemma RenderAt(lines: seq<TacLine>, i: nat)
    requires i < |lines|
    ensures Render(lines)[i] == LineText(lines[i])
  {
  }

  /** The number of binary and call nodes of an expression: the temporaries it needs. */
  function Ops(e: IrExpr): nat
    decreases e
  {
    match e
    case Literal(_) => 0
    case Variable(_) => 0
    case BinaryIr(_, left, right) => Ops(left) + Ops(right) + 1
    case CallIr(callee, args, _) => Ops(callee) + OpsAll(args) + 1
    case MemberIr(obj, property) => Ops(obj) + Ops(property)
  }

  function OpsAll(args: seq<IrExpr>): nat
    decreases args
  {
    if args == [] then 0 else OpsAll(args[..|args| - 1]) + Ops(args[|args| - 1])
  }

  /** What generating code for an expression yields: the operand naming its value, the
      lines appended, and the counter afterwards. */
  datatype Code = Code(result: Operand, lines: seq<TacLine>, count: nat)

  /** The same for a list of arguments: one operand per argument. */
  datatype ArgsCode = ArgsCode(results: seq<Operand>, lines: seq<TacLine>, count: nat)

  /** `generateExpr` from counter value `count`. Each binary or call node takes the next
      temporary and appends one line, after the lines of its operands; nothing else
      takes a temporary or appends a line. */
  function ExprCode(e: IrExpr, count: nat): (r: Code)
    ensures r.count == count + Ops(e)
    ensures |r.lines| == Ops(e)
    decreases e
  {
    match e
    case Literal(v) => Code(Lit(v), [], count)
    case Variable(name) => Code(Name(name), [], count)
    case BinaryIr(op, left, right) =>
      var l := ExprCode(left, count);
      var rt := ExprCode(right, l.count);
      Code(Temp(rt.count + 1), l.lines + rt.lines + [AssignLine(rt.count + 1, BinaryRhs(l.result, op, rt.result))], rt.count + 1)
    case CallIr(callee, args, _) =>
      var c := ExprCode(callee, count);
      var a := ArgumentsCode(args, c.count);
      Code(Temp(a.count + 1), c.lines + a.lines + [AssignLine(a.count + 1, CallRhs(c.result, a.results))], a.count + 1)
    case MemberIr(obj, property) =>
      var o := ExprCode(obj, count);
      var p := ExprCode(property, o.count);
      Code(Dot(o.result, p.result), o.lines + p.lines, p.count)
  }

  /** `arguments.map(arg => this.generateExpr(arg))`: the arguments in order, the counter
      threaded through. */
  function ArgumentsCode(args: seq<IrExpr>, count: nat): (r: ArgsCode)
    ensures |r.results| == |args|
    ensures r.count == count + OpsAll(args)
    ensures |r.lines| == OpsAll(args)
    decreases args
  {
    if args == [] then ArgsCode([], [], count)
    else
      var front := ArgumentsCode(args[..|args| - 1], count);
      var last := ExprCode(args[|args| - 1], front.count);
      ArgsCode(front.results + [last.result], front.lines + last.lines, last.count)
  }

  /** Every line assigns a temporary, line `k` the temporary `first + k`. */
  predicate AssignsFrom(lines: seq<TacLine>, first: nat) {
    forall k :: 0 <= k < |lines| ==> lines[k].AssignLine? && lines[k].temp == first + k
  }

  lemma AssignsFromAppend(a: seq<TacLine>, b: seq<TacLine>, first: nat)
    requires AssignsFrom(a, first) && AssignsFrom(b, first + |a|)
    ensures AssignsFrom(a + b, first)
  {
  }

  /** The lines for an expression assign the temporaries `count + 1`, `count + 2`, ... in
      order, one per line (operands before the node that uses them), and a binary or call
      node's value is the last temporary assigned. */
  lemma {:induction false} ExprCodeTemps(e: IrExpr, count: nat)
    ensures AssignsFrom(ExprCode(e, count).lines, count + 1)
    ensures e.BinaryIr? || e.CallIr? ==> ExprCode(e, count).result == Temp(count + Ops(e))
    decreases e
  {
    match e
    case Literal(_) =>
    case Variable(_) =>
    case BinaryIr(op, left, right) =>
      var l := ExprCode(left, count);
      ExprCodeTemps(left, count);
      ExprCodeTemps(right, l.count);
      AssignsFromAppend(l.lines, ExprCode(right, l.count).lines, count + 1);
    case CallIr(callee, args, _) =>
      var c := ExprCode(callee, count);
      ExprCodeTemps(callee, count);
      ArgumentsCodeTemps(args, c.count);
      AssignsFromAppend(c.lines, ArgumentsCode(args, c.count).lines, count + 1);
    case MemberIr(obj, property) =>
      var o := ExprCode(obj, count);
      ExprCodeTemps(obj, count);
      ExprCodeTemps(property, o.count);
      AssignsFromAppend(o.lines, ExprCode(property, o.count).lines, count + 1);
  }

  lemma {:induction false} ArgumentsCodeTemps(args: seq<IrExpr>, count: nat)
    ensures AssignsFrom(ArgumentsCode(args, count).lines, count + 1)
    decreases args
  {
    if args != [] {
      var front := ArgumentsCode(args[..|args| - 1], count);
      ArgumentsCodeTemps(args[..|args| - 1], count);
      ExprCodeTemps(args[|args| - 1], front.count);
      AssignsFromAppend(front.lines, ExprCode(args[|args| - 1], front.count).lines, count + 1);
    }
  }

  /** No temporary is assigned twice within an expression's code: the printed lines `i`
      and `j` start with the names of the different temporaries `count + 1 + i` and
      `count + 1 + j`. */
  lemma ExprCodeFresh(e: IrExpr, count: nat, i: nat, j: nat)
    requires i < j < |ExprCode(e, count).lines|
    ensures TempName(count + 1 + i) != TempName(count + 1 + j)
    ensures StartsWith(Render(ExprCode(e, count).lines)[i], TempName(count + 1 + i) + " := ")
    ensures StartsWith(Render(ExprCode(e, count).lines)[j], TempName(count + 1 + j) + " := ")
  {
    ExprCodeTemps(e, count);
    TempNamesDistinct(count + 1 + i, count + 1 + j);
    RenderedAssign(ExprCode(e, count).lines, count + 1, i);
    RenderedAssign(ExprCode(e, count).lines, count + 1, j);
  }

  /** Line `k` of lines that assign from `first` is printed starting with `t<first + k> := `. */
  lemma RenderedAssign(lines: seq<TacLine>, first: nat, k: nat)
    requires AssignsFrom(lines, first) && k < |lines|
    ensures StartsWith(Render(lines)[k], TempName(first + k) + " := ")
  {
    RenderAt(lines, k);
    AssignLineText(first + k, lines[k].rhs);
  }

  /** `generateStmt`: the expression's lines, then `(result: X)` or `return X`. */
  function StmtCode(s: IrStmt, count: nat): (r: (seq<TacLine>, nat))
    ensures r.1 == count + Ops(s.expression)
  {
    var c := ExprCode(s.expression, count);
    match s
    case ExprStmtIr(_) => (c.lines + [ResultLine(c.result)], c.count)
    case ReturnIr(_) => (c.lines + [ReturnLine(c.result)], c.count)
  }

  function StmtsCode(body: seq<IrStmt>, count: nat): (r: (seq<TacLine>, nat))
    decreases |body|
  {
    if body == [] then ([], count)
    else
      var front := StmtsCode(body[..|body| - 1], count);
      var last := StmtCode(body[|body| - 1], front.1);
      (front.0 + last.0, last.1)
  }

  /** The lines `generate` appends for one top-level node: a header and the body (or a
      note) for a declaration, the statement for a top-level statement, nothing for a type
      alias. */
  function NodeCode(n: IrNode, count: nat): (r: (seq<TacLine>, nat)) {
    match n
    case FunctionDecl(name, _, _, body, builtin, _) => DeclCode(name, body, builtin, count)
    case TypeAliasIr(_, _, _) => ([], count)
    case ExprStatementIr(e, _) => StmtCode(ExprStmtIr(e), count)
  }

  /** The lines of a declaration named `name`. */
  function DeclCode(name: string, body: Option<seq<IrStmt>>, builtin: bool, count: nat): (r: (seq<TacLine>, nat)) {
    if body.Some? && |body.value| > 0 then
      var b := StmtsCode(body.value, count);
      ([HeaderLine(name)] + b.0, b.1)
    else if builtin then ([HeaderLine(name), BuiltinLine(name)], count)
    else ([HeaderLine(name), NoBodyLine], count)
  }

  function ProgramCode(ir: seq<IrNode>, count: nat): (r: (seq<TacLine>, nat))
    decreases |ir|
  {
    if ir == [] then ([], count)
    else
      var front := ProgramCode(ir[..|ir| - 1], count);
      var last := NodeCode(ir[|ir| - 1], front.1);
      (front.0 + last.0, last.1)
  }

  /** The temporaries assigned by a sequence of lines, in order. */
  function AssignedTemps(lines: seq<TacLine>): seq<nat>
    decreases |lines|
  {
    if lines == [] then []
    else
      var front := AssignedTemps(lines[..|lines| - 1]);
      if lines[|lines| - 1].AssignLine? then front + [lines[|lines| - 1].temp] else front
  }

  lemma {:induction false} AssignedTempsAppend(a: seq<TacLine>, b: seq<TacLine>)
    ensures AssignedTemps(a + b) == AssignedTemps(a) + AssignedTemps(b)
    decreases |b|
  {
    if b == [] {
      assert a + b == a;
    } else {
      var front := b[..|b| - 1];
      AssignedTempsAppend(a, front);
      assert (a + b)[..|a + b| - 1] == a + front;
    }
  }

  /** `temps` is `first`, `first + 1`, ... */
  predicate Consecutive(temps: seq<nat>, first: nat) {
    forall k :: 0 <= k < |temps| ==> temps[k] == first + k
  }

  lemma {:induction false} AssignsFromTemps(lines: seq<TacLine>, first: nat)
    requires AssignsFrom(lines, first)
    ensures |AssignedTemps(lines)| == |lines| && Consecutive(AssignedTemps(lines), first)
    decreases |lines|
  {
    if lines != [] {
      AssignsFromTemps(lines[..|lines| - 1], first);
    }
  }

  /** The temporaries of a whole piece of code: exactly those between its first and final
      counter values, each once, in increasing order. */
  predicate TempsBetween(lines: seq<TacLine>, count: nat, final: nat) {
    final >= count && |AssignedTemps(lines)| == final - count && Consecutive(AssignedTemps(lines), count + 1)
  }

  lemma TempsBetweenAppend(a: seq<TacLine>, b: seq<TacLine>, count: nat, middle: nat, final: nat)
    requires TempsBetween(a, count, middle) && TempsBetween(b, middle, final)
    ensures TempsBetween(a + b, count, final)
  {
    AssignedTempsAppend(a, b);
  }

  lemma StmtCodeTemps(s: IrStmt, count: nat)
    ensures TempsBetween(StmtCode(s, count).0, count, StmtCode(s, count).1)
  {
    var c := ExprCode(s.expression, count);
    ExprCodeTemps(s.expression, count);
    AssignsFromTemps(c.lines, count + 1);
    var last := if s.ExprStmtIr? then ResultLine(c.result) else ReturnLine(c.result);
    assert AssignedTemps([last]) == [];
    TempsBetweenAppend(c.lines, [last], count, c.count, c.count);
  }

  lemma {:induction false} StmtsCodeTemps(body: seq<IrStmt>, count: nat)
    ensures TempsBetween(StmtsCode(body, count).0, count, StmtsCode(body, count).1)
    decreases |body|
  {
    if body != [] {
      var front := StmtsCode(body[..|body| - 1], count);
      StmtsCodeTemps(body[..|body| - 1], count);
      StmtCodeTemps(body[|body| - 1], front.1);
      var last := StmtCode(body[|body| - 1], front.1);
      TempsBetweenAppend(front.0, last.0, count, front.1, last.1);
    }
  }

  lemma NodeCodeTemps(n: IrNode, count: nat)
    ensures TempsBetween(NodeCode(n, count).0, count, NodeCode(n, count).1)
  {
    match n
    case FunctionDecl(name, _, _, body, builtin, _) =>
      assert AssignedTemps([HeaderLine(name)]) == [];
      if HasBody(n) {
        StmtsCodeTemps(body.value, count);
        var b := StmtsCode(body.value, count);
        TempsBetweenAppend([HeaderLine(name)], b.0, count, count, b.1);
      } else {
        var note := if builtin then BuiltinLine(name) else NoBodyLine;
        assert AssignedTemps([note]) == [];
        TempsBetweenAppend([HeaderLine(name)], [note], count, count, count);
        assert [HeaderLine(name)] + [note] == [HeaderLine(name), note];
      }
    case TypeAliasIr(_, _, _) =>
    case ExprStatementIr(e, _) => StmtCodeTemps(ExprStmtIr(e), count);
  }

  /** Over a whole program, the temporaries are assigned exactly once each, in increasing
      order from `count + 1` up to the final counter. */
  lemma {:induction false} ProgramTemps(ir: seq<IrNode>, count: nat)
    ensures TempsBetween(ProgramCode(ir, count).0, count, ProgramCode(ir, count).1)
    decreases |ir|
  {
    if ir != [] {
      var front := ProgramCode(ir[..|ir| - 1], count);
      ProgramTemps(ir[..|ir| - 1], count);
      NodeCodeTemps(ir[|ir| - 1], front.1);
      var last := NodeCode(ir[|ir| - 1], front.1);
      TempsBetweenAppend(front.0, last.0, count, front.1, last.1);
    }
  }

  /** A declaration's code starts with its header, followed by its body's code, the
      forwarding note for a builtin, or the no-body note. */
  lemma DeclarationCode(n: IrNode, count: nat)
    requires n.FunctionDecl?
    ensures var r := NodeCode(n, count);
      |r.0| >= 1 && r.0[0] == HeaderLine(n.name) &&
      (HasBody(n) ==> r.0[1..] == StmtsCode(n.body.value, count).0) &&
      (!HasBody(n) && n.builtin ==> r.0[1..] == [BuiltinLine(n.name)] && r.1 == count) &&
      (!HasBody(n) && !n.builtin ==> r.0[1..] == [NoBodyLine] && r.1 == count)
  {
    if HasBody(n) {
      assert ([HeaderLine(n.name)] + StmtsCode(n.body.value, count).0)[1..] == StmtsCode(n.body.value, count).0;
    }
  }

  /** Type aliases produce no code: removing them leaves the output unchanged. */
  function WithoutAliases(ir: seq<IrNode>): (r: seq<IrNode>)
    ensures forall i :: 0 <= i < |r| ==> !r[i].TypeAliasIr?
    ensures |r| <= |ir|
    decreases |ir|
  {
    if ir == [] then []
    else
      var front := WithoutAliases(ir[..|ir| - 1]);
      if ir[|ir| - 1].TypeAliasIr? then front else front + [ir[|ir| - 1]]
  }

  lemma {:induction false} AliasesSkipped(ir: seq<IrNode>, count: nat)
    ensures ProgramCode(WithoutAliases(ir), count) == ProgramCode(ir, count)
    decreases |ir|
  {
    if ir != [] {
      var front := ir[..|ir| - 1];
      var x := ir[|ir| - 1];
      AliasesSkipped(front, count);
      var w := WithoutAliases(front);
      var pf := ProgramCode(front, count);
      if x.TypeAliasIr? {
        assert pf.0 + [] == pf.0;
      } else {
        assert (w + [x])[..|w|] == w;
      }
    }
  }

  lemma AppendAssociates3(a: seq<string>, b: seq<string>, c: seq<string>, x: string)
    ensures a + b + c + [x] == a + (b + c + [x])
  {
  }

  /** Printing the operands' lines, then one assignment, prints their concatenation. */
  lemma Emitted(before: seq<string>, a: seq<TacLine>, b: seq<TacLine>, assign: TacLine)
    ensures before + Render(a) + Render(b) + [LineText(assign)] == before + Render(a + b + [assign])
  {
    RenderAppend(a + b, [assign]);
    RenderAppend(a, b);
    RenderOne(assign);
    AppendAssociates3(before, Render(a), Render(b), LineText(assign));
  }

  /** The `BinaryIr` case of `ExprCode`, with its two operands already generated. */
  lemma BinaryCode(op: string, left: IrExpr, right: IrExpr, count: nat, lc: Code, rc: Code)
    requires lc == ExprCode(left, count)
    requires rc == ExprCode(right, lc.count)
    ensures ExprCode(BinaryIr(op, left, right), count) ==
        Code(Temp(rc.count + 1), lc.lines + rc.lines + [AssignLine(rc.count + 1, BinaryRhs(lc.result, op, rc.result))], rc.count + 1)
  {
  }

  /** The `CallIr` case of `ExprCode`, with its callee and arguments already generated. */
  lemma CallCode(callee: IrExpr, args: seq<IrExpr>, builtin: bool, count: nat, cc: Code, ac: ArgsCode)
    requires cc == ExprCode(callee, count)
    requires ac == ArgumentsCode(args, cc.count)
    ensures ExprCode(CallIr(callee, args, builtin), count) ==
        Code(Temp(ac.count + 1), cc.lines + ac.lines + [AssignLine(ac.count + 1, CallRhs(cc.result, ac.results))], ac.count + 1)
  {
  }

  class TacPrinter {
    var tempCount: nat
    var codeLines: seq<string>

    constructor()
      ensures tempCount == 0 && codeLines == []
    {
      tempCount := 0;
      codeLines := [];
    }

    /** `newTemp`. */
    method NewTemp() returns (temp: string)
      modifies this
      ensures tempCount == old(tempCount) + 1 && codeLines == old(codeLines)
      ensures temp == TempName(tempCount)
    {
      tempCount := tempCount + 1;
      temp := "t" + NatText(tempCount);
    }

    /** `generateExpr`. */
    method GenerateExpr(node: IrExpr) returns (name: string)
      modifies this
      ensures var r := ExprCode(node, old(tempCount));
        name == OperandText(r.result) && codeLines == old(codeLines) + Render(r.lines) && tempCount == r.count
      decreases node, 1
    {
      match node {
        case Literal(v) =>
          name := LiteralText(v);
        case Variable(n) =>
          name := n;
        case BinaryIr(op, left, right) =>
          name := GenerateBinary(op, left, right);
        case CallIr(callee, args, builtin) =>
          name := GenerateCall(callee, args, builtin);
        case MemberIr(obj, property) =>
          name := GenerateMember(obj, property);
      }
    }

    /** A binary node: both operands, then a fresh temporary for the result. */
    method GenerateBinary(op: string, left: IrExpr, right: IrExpr) returns (name: string)
      modifies this
      ensures var r := ExprCode(BinaryIr(op, left, right), old(tempCount));
        name == OperandText(r.result) && codeLines == old(codeLines) + Render(r.lines) && tempCount == r.count
      decreases BinaryIr(op, left, right), 0
    {
      ghost var before := codeLines;
      ghost var lc := ExprCode(left, tempCount);
      var l := GenerateExpr(left);
      ghost var rc := ExprCode(right, tempCount);
      var r := GenerateExpr(right);
      var temp := NewTemp();
      ghost var assign := AssignLine(tempCount, BinaryRhs(lc.result, op, rc.result));
      var line := temp + " := " + (l + " " + op + " " + r);
      assert line == LineText(assign);
      codeLines := codeLines + [line];
      name := temp;
      Emitted(before, lc.lines, rc.lines, assign);
      BinaryCode(op, left, right, old(tempCount), lc, rc);
    }

    /** A call: the callee, the arguments, then a fresh temporary for the result. */
    method GenerateCall(callee: IrExpr, args: seq<IrExpr>, builtin: bool) returns (name: string)
      modifies this
      ensures var r := ExprCode(CallIr(callee, args, builtin), old(tempCount));
        name == OperandText(r.result) && codeLines == old(codeLines) + Render(r.lines) && tempCount == r.count
      decreases CallIr(callee, args, builtin), 0
    {
      ghost var before := codeLines;
      ghost var cc := ExprCode(callee, tempCount);
      var c := GenerateExpr(callee);
      ghost var ac := ArgumentsCode(args, tempCount);
      var results := GenerateArgs(args);
      var temp := NewTemp();
      ghost var assign := AssignLine(tempCount, CallRhs(cc.result, ac.results));
      var line := temp + " := " + (c + "(" + JoinWith(results, ", ") + ")");
      assert line == LineText(assign);
      codeLines := codeLines + [line];
      name := temp;
      Emitted(before, cc.lines, ac.lines, assign);
      CallCode(callee, args, builtin, old(tempCount), cc, ac);
    }

    /** A member access: object and property, joined by a dot, with no temporary. */
    method GenerateMember(obj: IrExpr, property: IrExpr) returns (name: string)
      modifies this
      ensures var r := ExprCode(MemberIr(obj, property), old(tempCount));
        name == OperandText(r.result) && codeLines == old(codeLines) + Render(r.lines) && tempCount == r.count
      decreases MemberIr(obj, property), 0
    {
      ghost var before := codeLines;
      ghost var oc := ExprCode(obj, tempCount);
      var o := GenerateExpr(obj);
      ghost var pc := ExprCode(property, tempCount);
      var p := GenerateExpr(property);
      name := o + "." + p;
      RenderAppend(oc.lines, pc.lines);
      AppendAssociates(before, Render(oc.lines), Render(pc.lines));
    }

    /** The arguments of a call, generated left to right: the operands' texts. */
    method GenerateArgs(args: seq<IrExpr>) returns (results: seq<string>)
      modifies this
      ensures var r := ArgumentsCode(args, old(tempCount));
        results == OperandTexts(r.results) && codeLines == old(codeLines) + Render(r.lines) && tempCount == r.count
      decreases args, 0
    {
      ghost var start := tempCount;
      ghost var before := codeLines;
      results := [];
      for i := 0 to |args|
        invariant var a := ArgumentsCode(args[..i], start);
          results == OperandTexts(a.results) && codeLines == before + Render(a.lines) && tempCount == a.count
      {
        assert args[..i + 1][..i] == args[..i];
        ghost var a := ArgumentsCode(args[..i], start);
        ghost var ec := ExprCode(args[i], tempCount);
        var arg := GenerateExpr(args[i]);
        results := results + [arg];
        assert OperandTexts(a.results + [ec.result]) == OperandTexts(a.results) + [OperandText(ec.result)];
        RenderAppend(a.lines, ec.lines);
        AppendAssociates(before, Render(a.lines), Render(ec.lines));
      }
      assert args[..|args|] == args;
    }

    /** `generateStmt`. */
    method GenerateStmt(node: IrStmt)
      modifies this
      ensures var r := StmtCode(node, old(tempCount));
        codeLines == old(codeLines) + Render(r.0) && tempCount == r.1
    {
      ghost var before := codeLines;
      ghost var c := ExprCode(node.expression, tempCount);
      var res := GenerateExpr(node.expression);
      ghost var last := if node.ExprStmtIr? then ResultLine(c.result) else ReturnLine(c.result);
      var line := if node.ExprStmtIr? then "(result: " + res + ")" else "return " + res;
      assert line == LineText(last);
      codeLines := codeLines + [line];
      RenderAppend(c.lines, [last]);
      RenderOne(last);
      AppendAssociates(before, Render(c.lines), [line]);
    }

    /** The statements of a body, in order. */
    method GenerateBody(body: seq<IrStmt>)
      modifies this
      ensures var r := StmtsCode(body, old(tempCount));
        codeLines == old(codeLines) + Render(r.0) && tempCount == r.1
    {
      ghost var start := tempCount;
      ghost var before := codeLines;
      for j := 0 to |body|
        invariant var b := StmtsCode(body[..j], start);
          codeLines == before + Render(b.0) && tempCount == b.1
      {
        assert body[..j + 1][..j] == body[..j];
        ghost var b := StmtsCode(body[..j], start);
        ghost var sc := StmtCode(body[j], tempCount);
        GenerateStmt(body[j]);
        RenderAppend(b.0, sc.0);
        AppendAssociates(before, Render(b.0), Render(sc.0));
      }
      assert body[..|body|] == body;
    }

    /** The lines of one top-level node. */
    method GenerateNode(node: IrNode)
      modifies this
      ensures var r := NodeCode(node, old(tempCount));
        codeLines == old(codeLines) + Render(r.0) && tempCount == r.1
    {
      match node {
        case FunctionDecl(name, _, _, body, builtin, _) =>
          GenerateFunction(name, body, builtin);
        case TypeAliasIr(_, _, _) =>
          assert codeLines == old(codeLines) + Render([]);
        case ExprStatementIr(e, _) =>
          GenerateStmt(ExprStmtIr(e));
      }
    }

    /** A declaration: its header, then its body, or the note for a bodyless one. */
    method GenerateFunction(name: string, body: Option<seq<IrStmt>>, builtin: bool)
      modifies this
      ensures var r := DeclCode(name, body, builtin, old(tempCount));
        codeLines == old(codeLines) + Render(r.0) && tempCount == r.1
    {
      ghost var before := codeLines;
      var header := "--- Function " + name + " ---";
      codeLines := codeLines + [header];
      RenderOne(HeaderLine(name));
      if body.Some? && |body.value| > 0 {
        ghost var bc := StmtsCode(body.value, tempCount);
        GenerateBody(body.value);
        RenderAppend([HeaderLine(name)], bc.0);
        AppendAssociates(before, [header], Render(bc.0));
      } else {
        ghost var noteLine := if builtin then BuiltinLine(name) else NoBodyLine;
        var note := if builtin then "(builtin function: " + name + " forwarding to stdlib)" else "(no body)";
        codeLines := codeLines + [note];
        RenderOne(noteLine);
        RenderAppend([HeaderLine(name)], [noteLine]);
        assert [HeaderLine(name)] + [noteLine] == [HeaderLine(name), noteLine];
        AppendAssociates(before, [header], [note]);
      }
    }

    /** `generate`: the lines of every node appended in order, then joined. */
    method Generate(ir: seq<IrNode>) returns (text: string)
      modifies this
      ensures var r := ProgramCode(ir, old(tempCount));
        codeLines == old(codeLines) + Render(r.0) && tempCount == r.1
      ensures text == JoinWith(codeLines, "\n")
    {
      ghost var start := tempCount;
      ghost var before := codeLines;
      for i := 0 to |ir|
        invariant var r := ProgramCode(ir[..i], start);
          codeLines == before + Render(r.0) && tempCount == r.1
      {
        assert ir[..i + 1][..i] == ir[..i];
        ghost var p := ProgramCode(ir[..i], start);
        ghost var nc := NodeCode(ir[i], tempCount);
        GenerateNode(ir[i]);
        RenderAppend(p.0, nc.0);
        AppendAssociates(before, Render(p.0), Render(nc.0));
      }
      assert ir[..|ir|] == ir;
      text := JoinWith(codeLines, "\n");
    }
  }
}
