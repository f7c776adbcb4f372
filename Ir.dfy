/** The intermediate representation shared by backend/src/ir_generator.js,
    ir_optimizer.js, ir_compiler.js and tac.js, and the numbers its literals carry. */
module Ir {
  import opened Outcomes
  import opened Text
  import opened Ast

  /** A JavaScript number as `Number(text)` yields it for the lexer's literal form
      `-?\d+(\.\d+)?`: the exact decimal `units / 10^scale`; NaN for any other text. */
  datatype JsNumber = Decimal(units: int, scale: nat) | NaN

  /** The value of a `literal` node; its `type` tag ("number" or "string") follows from
      the constructor. */
  datatype Value = Num(n: JsNumber) | Str(s: string)

  /** IR expressions (`op` field): literal, variable, binary_expression, call_expression
      (with its `builtin` tag) and member_expression. */
  datatype IrExpr =
    | Literal(value: Value)
    | Variable(name: string)
    | BinaryIr(operator: string, left: IrExpr, right: IrExpr)
    | CallIr(callee: IrExpr, arguments: seq<IrExpr>, builtin: bool)
    | MemberIr(obj: IrExpr, property: IrExpr)

  /** IR statements: return_statement and expression_statement. */
  datatype IrStmt = ReturnIr(expression: IrExpr) | ExprStmtIr(expression: IrExpr)

  /** An element of a declaration's `parameters`: `{name, type}` for a parameter, the
      lowered expression for any other argument. */
  datatype IrParam = ParamIr(name: string, paramType: Type) | ExprParam(expr: IrExpr)

  /** Top-level IR nodes. `body` is None for `null` (or an absent body), `builtin` is the
      tag the optimizer sets, `line` is None for `null`. */
  datatype IrNode =
    | FunctionDecl(name: string, parameters: seq<IrParam>, returnType: Type,
                   body: Option<seq<IrStmt>>, builtin: bool, line: Option<int>)
    | TypeAliasIr(alias: string, typeAnnotation: Type, line: Option<int>)
    | ExprStatementIr(expression: IrExpr, line: Option<int>)

  function Pow10(n: nat): (p: nat)
    ensures p >= 1
  {
    if n == 0 then 1 else 10 * Pow10(n - 1)
  }

  lemma {:induction false} Pow10Add(a: nat, b: nat)
    ensures Pow10(a + b) == Pow10(a) * Pow10(b)
  {
    if a > 0 {
      Pow10Add(a - 1, b);
    }
  }

  /** `x` written at the scale `t`, which is at least its own: the units of
      `10^-t` it counts. Two decimals denote the same number exactly when they agree at a
      common scale. */
  function UnitsAt(x: JsNumber, t: nat): int
    requires x.Decimal? && x.scale <= t
  {
    x.units * Pow10(t - x.scale)
  }

  lemma ScaleTwice(u: int, i: nat, j: nat)
    ensures u * Pow10(i) * Pow10(j) == u * Pow10(i + j)
  {
    Pow10Add(i, j);
    assert u * Pow10(i) * Pow10(j) == u * (Pow10(i) * Pow10(j));
  }

  /** JavaScript `+` on two numbers (exact; IEEE rounding is not modelled). */
  function Add(a: JsNumber, b: JsNumber): (r: JsNumber)
    ensures r.NaN? <==> a.NaN? || b.NaN?
    ensures r.Decimal? ==> r.scale == if a.scale >= b.scale then a.scale else b.scale
  {
    if a.NaN? || b.NaN? then NaN
    else
      var s := if a.scale >= b.scale then a.scale else b.scale;
      Decimal(a.units * Pow10(s - a.scale) + b.units * Pow10(s - b.scale), s)
  }

  /** `Add` adds the numbers denoted: at any common scale, the units add up. */
  lemma AddUnits(a: JsNumber, b: JsNumber, t: nat)
    requires a.Decimal? && b.Decimal? && a.scale <= t && b.scale <= t
    ensures Add(a, b).Decimal? && Add(a, b).scale <= t
    ensures UnitsAt(Add(a, b), t) == UnitsAt(a, t) + UnitsAt(b, t)
  {
    var s := Add(a, b).scale;
    var p := Pow10(t - s);
    ScaleTwice(a.units, s - a.scale, t - s);
    ScaleTwice(b.units, s - b.scale, t - s);
    assert (a.units * Pow10(s - a.scale) + b.units * Pow10(s - b.scale)) * p
        == a.units * Pow10(s - a.scale) * p + b.units * Pow10(s - b.scale) * p;
  }

  /** The decimal with trailing zero digits removed from its scale. */
  function Normalize(x: JsNumber): (r: JsNumber)
    ensures r.NaN? <==> x.NaN?
    ensures r.Decimal? ==> r.scale <= x.scale && (r.scale == 0 || r.units % 10 != 0)
    decreases if x.Decimal? then x.scale else 0
  {
    match x
    case NaN => NaN
    case Decimal(u, s) => if s > 0 && u % 10 == 0 then Normalize(Decimal(u / 10, s - 1)) else x
  }

  /** Normalizing does not change the number denoted. */
  lemma {:induction false} NormalizeUnits(x: JsNumber, t: nat)
    requires x.Decimal? && x.scale <= t
    ensures UnitsAt(Normalize(x), t) == UnitsAt(x, t)
    decreases x.scale
  {
    if x.scale > 0 && x.units % 10 == 0 {
      var y := Decimal(x.units / 10, x.scale - 1);
      NormalizeUnits(y, t);
      ScaleTwice(y.units, 1, t - x.scale);
      assert y.units * Pow10(1) == x.units;
    }
  }

  /** `w` digits: `t` with zeros in front. */
  function PadDigits(t: string, w: nat): (r: string)
    ensures |r| == if |t| >= w then |t| else w
    decreases w - |t|
  {
    if |t| >= w then t else PadDigits("0" + t, w)
  }

  /** How JavaScript prints a number whose shortest decimal form is exact: an optional
      minus, the integer digits, and the fraction digits without trailing zeros. */
  function NumberText(x: JsNumber): string {
    match Normalize(x)
    case NaN => "NaN"
    case Decimal(u, s) =>
      var sign := if u < 0 then "-" else "";
      var m: nat := if u < 0 then -u else u;
      var digits := PadDigits(NatText(m), s + 1);
      var cut := |digits| - s;
      if s == 0 then sign + digits
      else sign + digits[..cut] + "." + digits[cut..]
  }

  /** The text `${v}` or `String(v)` gives for a literal's value; for strings, `value`
      itself. */
  function ValueText(v: Value): string {
    match v
    case Num(n) => NumberText(n)
    case Str(s) => s
  }

  /** How a literal is written in generated code: a string through `JSON.stringify`, a
      number as JavaScript prints it. */
  function LiteralText(v: Value): string {
    if v.Str? then Quote(v.s) else ValueText(v)
  }

  /** A declaration whose `body` is present and non-empty (`body && body.length > 0`). */
  predicate HasBody(n: IrNode) {
    n.FunctionDecl? && n.body.Some? && |n.body.value| > 0
  }

  /** The value of the digits `s`, most significant first. */
  function DigitsValue(s: string): nat
    requires forall i :: 0 <= i < |s| ==> IsDigit(s[i])
  {
    if s == [] then 0
    else
      assert IsDigit(s[|s| - 1]);
      DigitsValue(s[..|s| - 1]) * 10 + (s[|s| - 1] as int - '0' as int)
  }

  predicate AllDigits(s: string) {
    forall i :: 0 <= i < |s| ==> IsDigit(s[i])
  }

  /** Index of the first `.` in `s`, or `|s|`. */
  function DotIndex(s: string): (k: nat)
    ensures k <= |s|
    ensures forall i :: 0 <= i < k ==> s[i] != '.'
    ensures k < |s| ==> s[k] == '.'
  {
    if s == [] then 0 else if s[0] == '.' then 0 else 1 + DotIndex(s[1..])
  }

  /** `Number(text)` on the lexer's literal form `-?\d+(\.\d+)?`; NaN otherwise. */
  function ParseNumber(text: string): JsNumber {
    var negative := |text| > 0 && text[0] == '-';
    var body := if negative then text[1..] else text;
    var dot := DotIndex(body);
    var whole := body[..dot];
    var fraction := if dot < |body| then body[dot + 1..] else "";
    if whole != "" && AllDigits(whole) && (dot == |body| || (fraction != "" && AllDigits(fraction))) then
      var u := DigitsValue(whole + fraction);
      Decimal(if negative then -(u as int) else u, |fraction|)
    else NaN
  }

  /** The digits of a natural number read back give that number. */
  lemma {:induction false} DigitsValueOfNatText(n: nat)
    ensures DigitsValue(NatText(n)) == n
  {
    var s := NatText(n);
    if n >= 10 {
      DigitsValueOfNatText(n / 10);
      assert s[..|s| - 1] == NatText(n / 10);
    }
  }

  /** Different numbers have different digits. */
  lemma NatTextInjective(m: nat, n: nat)
    requires NatText(m) == NatText(n)
    ensures m == n
  {
    DigitsValueOfNatText(m);
    DigitsValueOfNatText(n);
  }
}
