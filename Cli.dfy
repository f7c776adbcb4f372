/** `formatTAC` of the command-line driver: each instruction becomes a line assigning a
    numbered temporary, followed by a line naming that temporary as the result. */
module Cli {
  import opened Text
  import opened Ir
  import opened Sequences
  import opened Tac

  /** An instruction as `formatTAC` reads it: the `op` tag, then the text each field
      interpolates to (`undefined` for a field the object lacks). */
  datatype Instr = Instr(op: string, value: string, left: string, operator: string,
                         right: string, callee: string, args: seq<string>, argument: string)

  const Title := "Three-Address Code (TAC):"
  const Header := Title + "\n"

  /** What the temporary of an instruction stands for, by its `op` tag. */
  function Rhs(instr: Instr): string {
    if instr.op == "assign" then instr.value
    else if instr.op == "binary" then instr.left + " " + instr.operator + " " + instr.right
    else if instr.op == "call" then instr.callee + "(" + JoinWith(instr.args, ", ") + ")"
    else if instr.op == "print" then "print(" + instr.argument + ")"
    else if instr.op == "return" then "return " + instr.argument
    else "[unknown op: " + instr.op + "]"
  }

  /** The line for instruction number `n`: the temporary `t<n>`, then what it stands for. */
  function InstrLine(n: nat, instr: Instr): string {
    TempName(n) + " := " + Rhs(instr)
  }

  /** The note line naming the temporary of instruction `n`. */
  function ResultNote(n: nat): string {
    "(result: " + TempName(n) + ")"
  }

  /** What instruction number `n` adds to the output: its line and its note line. */
  function ChunkText(n: nat, instr: Instr): string {
    InstrLine(n, instr) + "\n" + ResultNote(n) + "\n"
  }

  /** The texts of the instructions of `ir`, numbered from `first`. */
  function Chunks(ir: seq<Instr>, first: nat): (r: seq<string>)
    ensures |r| == |ir|
  {
    MapNumbered(ChunkText, ir, first)
  }

  /** The whole output: the header, then the instructions numbered from 1. */
  function FormatText(ir: seq<Instr>): string {
    Header + Flatten(Chunks(ir, 1))
  }

  /** `formatTAC`: one pass over the instructions with a counter starting at 1. */
  method FormatTac(ir: seq<Instr>) returns (output: string)
    ensures output == FormatText(ir)
  {
    output := "Three-Address Code (TAC):\n";
    var counter := 1;
    for i := 0 to |ir|
      invariant counter == i + 1
      invariant output == Header + Flatten(Chunks(ir[..i], 1))
    {
      var instr := ir[i];
      var temp := TempName(counter);
      var line := FormatLine(temp, instr);
      var chunk := line + "\n(result: " + temp + ")\n";
      NoteSplit(line, temp);
      output := output + chunk;
      counter := counter + 1;
      ChunksSnoc(ir, i);
      FlattenSnoc(Chunks(ir[..i], 1), chunk);
      AppendAssociates(Header, Flatten(Chunks(ir[..i], 1)), chunk);
    }
    assert ir[..|ir|] == ir;
  }

  /** The branch of the loop body that builds an instruction's line from its `op` tag. */
  method FormatLine(temp: string, instr: Instr) returns (line: string)
    ensures line == temp + " := " + Rhs(instr)
  {
    line := "";
    if instr.op == "assign" {
      line := temp + " := " + instr.value;
    } else if instr.op == "binary" {
      line := temp + " := " + instr.left + " " + instr.operator + " " + instr.right;
      Associates5(temp + " := ", instr.left, " ", instr.operator, " ", instr.right);
    } else if instr.op == "call" {
      line := temp + " := " + instr.callee + "(" + JoinWith(instr.args, ", ") + ")";
      Associates4(temp + " := ", instr.callee, "(", JoinWith(instr.args, ", "), ")");
    } else if instr.op == "print" {
      line := temp + " := print(" + instr.argument + ")";
      TemplateSplit(temp, " := print(", " := ", "print(", instr.argument + ")");
      AppendAssociates(temp + " := print(", instr.argument, ")");
      AppendAssociates("print(", instr.argument, ")");
    } else if instr.op == "return" {
      line := temp + " := return " + instr.argument;
      TemplateSplit(temp, " := return ", " := ", "return ", instr.argument);
    } else {
      line := temp + " := [unknown op: " + instr.op + "]";
      TemplateSplit(temp, " := [unknown op: ", " := ", "[unknown op: ", instr.op + "]");
      AppendAssociates(temp + " := [unknown op: ", instr.op, "]");
      AppendAssociates("[unknown op: ", instr.op, "]");
    }
  }

  lemma ChunksSnoc(ir: seq<Instr>, i: nat)
    requires i < |ir|
    ensures Chunks(ir[..i + 1], 1) == Chunks(ir[..i], 1) + [ChunkText(i + 1, ir[i])]
  {
    assert ir[..i + 1] == ir[..i] + [ir[i]];
    ChunksAppend(ir[..i], [ir[i]], 1);
    ChunksOne(ir[i], i + 1);
  }

  lemma Associates5(a: string, b: string, c: string, d: string, e: string, f: string)
    ensures a + b + c + d + e + f == a + (b + c + d + e + f)
  {
  }

  lemma Associates4(a: string, b: string, c: string, d: string, e: string)
    ensures a + b + c + d + e == a + (b + c + d + e)
  {
  }

  /** A template literal's fixed text splits where the temporary's assignment ends. */
  lemma TemplateSplit(temp: string, fixed: string, head: string, tail: string, rest: string)
    requires fixed == head + tail
    ensures temp + fixed + rest == temp + head + (tail + rest)
  {
  }

  lemma NoteSplit(line: string, temp: string)
    ensures line + "\n(result: " + temp + ")\n" == line + "\n" + ("(result: " + temp + ")") + "\n"
  {
    assert "\n(result: " == "\n" + "(result: ";
    assert ")\n" == ")" + "\n";
  }

  /** The output opens with the header line. */
  lemma FormatStartsWithHeader(ir: seq<Instr>)
    ensures StartsWith(FormatText(ir), Title + "\n")
  {
    PrefixOfAppend(Header, Flatten(Chunks(ir, 1)));
  }

  lemma PrefixOfAppend(a: string, b: string)
    ensures StartsWith(a + b, a)
  {
    assert (a + b)[..|a|] == a;
  }

  /** Numbering is additive: the instructions after `a` carry on from where `a` stopped. */
  lemma ChunksAppend(a: seq<Instr>, b: seq<Instr>, first: nat)
    ensures Chunks(a + b, first) == Chunks(a, first) + Chunks(b, first + |a|)
  {
    MapNumberedAppend(ChunkText, a, b, first);
  }

  /** Instruction `k` (from 0) is printed with the temporary `t<k + 1>`, between the text of
      the instructions before it and the text of those after it. */
  lemma InstructionChunk(ir: seq<Instr>, k: nat)
    requires k < |ir|
    ensures FormatText(ir) ==
      Header + Flatten(Chunks(ir[..k], 1)) + ChunkText(k + 1, ir[k]) + Flatten(Chunks(ir[k + 1..], k + 2))
  {
    var before, after := Chunks(ir[..k], 1), Chunks(ir[k + 1..], k + 2);
    var chunk := ChunkText(k + 1, ir[k]);
    ChunksSplit(ir, k);
    FlattenAppend(before, [chunk] + after);
    FlattenAppend([chunk], after);
    FlattenOne(chunk);
    var fb, fa := Flatten(before), Flatten(after);
    assert Flatten(Chunks(ir, 1)) == fb + (chunk + fa);
    AppendAssociates(Header, fb, chunk + fa);
    AppendAssociates(Header + fb, chunk, fa);
  }

  lemma ChunksSplit(ir: seq<Instr>, k: nat)
    requires k < |ir|
    ensures Chunks(ir, 1) == Chunks(ir[..k], 1) + ([ChunkText(k + 1, ir[k])] + Chunks(ir[k + 1..], k + 2))
  {
    assert ir == ir[..k] + ([ir[k]] + ir[k + 1..]);
    ChunksAppend(ir[..k], [ir[k]] + ir[k + 1..], 1);
    ChunksAppend([ir[k]], ir[k + 1..], k + 1);
    ChunksOne(ir[k], k + 1);
  }

  lemma ChunksOne(x: Instr, n: nat)
    ensures Chunks([x], n) == [ChunkText(n, x)]
  {
  }

  lemma FlattenOne(x: string)
    ensures Flatten([x]) == x
  {
    FlattenSnoc([], x);
    assert [] + [x] == [x];
  }

  /** Each instruction's text is two lines: `t<n> := …` and `(result: t<n>)`. */
  lemma ChunkLines(n: nat, instr: Instr)
    ensures StartsWith(InstrLine(n, instr), TempName(n) + " := ")
    ensures '\n' !in ResultNote(n)
  {
    PrefixOfAppend(TempName(n) + " := ", Rhs(instr));
    NoNewlineInTemp(n);
  }

  lemma NoNewlineInTemp(n: nat)
    ensures '\n' !in TempName(n)
  {
  }

  /** No field of the instruction holds a line feed. */
  predicate SingleLine(instr: Instr) {
    && '\n' !in instr.op && '\n' !in instr.value && '\n' !in instr.left
    && '\n' !in instr.operator && '\n' !in instr.right && '\n' !in instr.callee
    && '\n' !in instr.argument && forall i :: 0 <= i < |instr.args| ==> '\n' !in instr.args[i]
  }

  lemma {:induction false} JoinWithSingleLine(parts: seq<string>, sep: string)
    requires '\n' !in sep && forall i :: 0 <= i < |parts| ==> '\n' !in parts[i]
    ensures '\n' !in JoinWith(parts, sep)
    decreases |parts|
  {
    if |parts| > 1 {
      JoinWithSingleLine(parts[1..], sep);
    }
  }

  lemma InstrLineSingle(n: nat, instr: Instr)
    requires SingleLine(instr)
    ensures '\n' !in InstrLine(n, instr)
  {
    NoNewlineInTemp(n);
    if instr.op == "call" {
      JoinWithSingleLine(instr.args, ", ");
    }
  }

  lemma {:induction false} NoNewlinesCounted(s: string, i: nat)
    requires i <= |s| && '\n' !in s
    ensures NewlinesFrom(s, i) == 0
    decreases |s| - i
  {
    if i < |s| {
      NoNewlinesCounted(s, i + 1);
    }
  }

  lemma NewlineCounted()
    ensures CountNewlines("\n") == 1
  {
  }

  lemma ChunkNewlines(n: nat, instr: Instr)
    requires SingleLine(instr)
    ensures CountNewlines(ChunkText(n, instr)) == 2
  {
    ChunkLines(n, instr);
    InstrLineSingle(n, instr);
    var a, b := InstrLine(n, instr), ResultNote(n);
    NoNewlinesCounted(a, 0);
    NoNewlinesCounted(b, 0);
    NewlineCounted();
    CountNewlinesAppend(a + "\n" + b, "\n");
    CountNewlinesAppend(a + "\n", b);
    CountNewlinesAppend(a, "\n");
  }

  /** With single-line fields the output has exactly one line for the header and two per
      instruction. */
  lemma FormatLineCount(ir: seq<Instr>)
    requires forall k :: 0 <= k < |ir| ==> SingleLine(ir[k])
    ensures CountNewlines(FormatText(ir)) == 1 + 2 * |ir|
  {
    BodyNewlines(ir, 1);
    NoNewlinesCounted(Title, 0);
    NewlineCounted();
    CountNewlinesAppend(Title, "\n");
    CountNewlinesAppend(Header, Flatten(Chunks(ir, 1)));
  }

  lemma {:induction false} BodyNewlines(ir: seq<Instr>, first: nat)
    requires forall k :: 0 <= k < |ir| ==> SingleLine(ir[k])
    ensures CountNewlines(Flatten(Chunks(ir, first))) == 2 * |ir|
    decreases |ir|
  {
    if ir == [] {
      assert Chunks(ir, first) == [];
      NoNewlinesCounted("", 0);
    } else {
      var front, last := ir[..|ir| - 1], ir[|ir| - 1];
      BodyNewlines(front, first);
      ChunkNewlines(first + |front|, last);
      assert Chunks(ir, first) == Chunks(front, first) + [ChunkText(first + |front|, last)];
      FlattenSnoc(Chunks(front, first), ChunkText(first + |front|, last));
      CountNewlinesAppend(Flatten(Chunks(front, first)), ChunkText(first + |front|, last));
    }
  }

  /** The `op` tag of a top-level IR node. */
  function IrOp(node: IrNode): string {
    match node
    case FunctionDecl(_, _, _, _, _, _) => "function_decl"
    case TypeAliasIr(_, _, _) => "type_alias"
    case ExprStatementIr(_, _) => "expression_statement"
  }

  /** A top-level IR node as `formatTAC` sees it: only `op` is ever read, and none of the
      other fields exists on such a node. */
  function NodeInstr(node: IrNode): Instr {
    Instr(IrOp(node), "undefined", "undefined", "undefined", "undefined", "undefined", [], "undefined")
  }

  /** The IR the driver formats never carries one of the five known tags, so each of its
      nodes prints as an unknown operation. */
  lemma NodeLineUnknown(node: IrNode)
    ensures Rhs(NodeInstr(node)) == "[unknown op: " + IrOp(node) + "]"
  {
    var op := IrOp(node);
    assert |op| >= 10;
  }

  /** Formatting the optimised IR: the `k`-th node is printed as an unknown operation
      assigned to `t<k + 1>`. */
  lemma PipelineUnknownOps(ir: seq<IrNode>, k: nat)
    requires k < |ir|
    ensures var xs := Map(NodeInstr, ir);
      FormatText(xs) == Header + Flatten(Chunks(xs[..k], 1)) + ChunkText(k + 1, xs[k]) + Flatten(Chunks(xs[k + 1..], k + 2))
      && Rhs(xs[k]) == "[unknown op: " + IrOp(ir[k]) + "]"
  {
    var xs := Map(NodeInstr, ir);
    InstructionChunk(xs, k);
    NodeLineUnknown(ir[k]);
  }
}
