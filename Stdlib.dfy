/** The integer and collection helpers of the runtime library that compiled programs call
    through `stdlib`. JavaScript's dynamic type guards become Dafny types where the type
    system enforces them, and error results where a value of the right type can still be
    refused (a number that is not an integer). */
module Stdlib {
  import opened Outcomes
  import opened Ir
  import opened Sequences

  function Abs(x: int): nat {
    if x < 0 then -x else x
  }

  /** `d` divides `x`: some integer multiple of `d` is `x`. */
  ghost predicate Divides(d: int, x: int) {
    exists k :: k * d == x
  }

  /** `g` is a greatest common divisor of `a` and `b`: a non-negative common divisor that
      every common divisor divides. */
  ghost predicate IsGcd(g: int, a: int, b: int) {
    g >= 0 && Divides(g, a) && Divides(g, b) &&
    forall d :: Divides(d, a) && Divides(d, b) ==> Divides(d, g)
  }

  // ---- Integers ----

  /** `Number.isInteger`: the decimal denotes a whole number. */
  predicate IsInteger(x: JsNumber) {
    Normalize(x).Decimal? && Normalize(x).scale == 0
  }

  /** The whole number an integral decimal denotes. */
  function IntegerValue(x: JsNumber): int
    requires IsInteger(x)
  {
    Normalize(x).units
  }

  /** `IntegerValue` is the value of the decimal: its units are that integer shifted left
      by the decimal's scale. */
  lemma IntegerValueDenotes(x: JsNumber)
    requires IsInteger(x)
    ensures x.Decimal? && x.units == IntegerValue(x) * Pow10(x.scale)
  {
    NormalizeUnits(x, x.scale);
  }

  /** JavaScript's `%`: the remainder of truncating division, with the sign of `a`. */
  function TruncRem(a: int, b: int): (r: int)
    requires b != 0
    ensures Abs(r) < Abs(b)
    ensures r == 0 || (r < 0 <==> a < 0)
  {
    if a >= 0 then a % Abs(b) else -((-a) % Abs(b))
  }

  /** The quotient that goes with `TruncRem`. */
  function TruncQuot(a: int, b: int): int
    requires b != 0
  {
    var q := if a >= 0 then a / Abs(b) else -((-a) / Abs(b));
    if b < 0 then -q else q
  }

  lemma TruncDivision(a: int, b: int)
    requires b != 0
    ensures a == TruncQuot(a, b) * b + TruncRem(a, b)
  {
    var m := Abs(b);
    if a >= 0 {
      assert a == (a / m) * m + a % m;
    } else {
      assert -a == ((-a) / m) * m + (-a) % m;
    }
  }

  lemma MulDistributes(x: int, y: int, d: int)
    ensures x * d - y * d == (x - y) * d && x * d + y * d == (x + y) * d
  {
  }

  lemma MulAssociates(x: int, y: int, d: int)
    ensures x * (y * d) == (x * y) * d
  {
  }

  /** One Euclid step keeps the common divisors: those of `a` and `b` are those of `b` and
      `a % b`. */
  lemma StepKeepsDivisors(a: int, b: int, d: int)
    requires b != 0
    ensures Divides(d, a) && Divides(d, b) <==> Divides(d, b) && Divides(d, TruncRem(a, b))
  {
    var q, r := TruncQuot(a, b), TruncRem(a, b);
    TruncDivision(a, b);
    if Divides(d, b) {
      var kb :| kb * d == b;
      MulAssociates(q, kb, d);
      if Divides(d, a) {
        var ka :| ka * d == a;
        MulDistributes(ka, q * kb, d);
        assert (ka - q * kb) * d == r;
      }
      if Divides(d, r) {
        var kr :| kr * d == r;
        MulDistributes(q * kb, kr, d);
        assert (q * kb + kr) * d == a;
      }
    }
  }

  lemma DividesZero(d: int)
    ensures Divides(d, 0)
  {
    assert 0 * d == 0;
  }

  lemma DividesAbs(d: int, x: int)
    requires Divides(d, x)
    ensures Divides(d, Abs(x))
  {
    var k :| k * d == x;
    assert (-k) * d == -x;
  }

  lemma AbsDivides(x: int)
    ensures Divides(Abs(x), x)
  {
    if x < 0 {
      assert (-1) * Abs(x) == x;
    } else {
      assert 1 * Abs(x) == x;
    }
  }

  /** `hcf`: refuses non-integers, then runs Euclid's loop with JavaScript's remainder and
      returns the absolute value of what is left. The result is a greatest common divisor,
      and `hcf(a, 0)` is `|a|`. */
  method Hcf(a: JsNumber, b: JsNumber) returns (r: Result<int, string>)
    ensures r.Err? <==> !(IsInteger(a) && IsInteger(b))
    ensures r.Err? ==> r.error == "hcf() expects two integers."
    ensures r.Ok? ==> IsGcd(r.value, IntegerValue(a), IntegerValue(b))
    ensures r.Ok? && IntegerValue(b) == 0 ==> r.value == Abs(IntegerValue(a))
  {
    if !IsInteger(a) || !IsInteger(b) {
      return Err("hcf() expects two integers.");
    }
    var a0, b0 := IntegerValue(a), IntegerValue(b);
    var x, y := a0, b0;
    while y != 0
      invariant forall d :: Divides(d, x) && Divides(d, y) <==> Divides(d, a0) && Divides(d, b0)
      invariant b0 == 0 ==> x == a0 && y == 0
      decreases Abs(y)
    {
      forall d
        ensures Divides(d, x) && Divides(d, y) <==> Divides(d, y) && Divides(d, TruncRem(x, y))
      {
        StepKeepsDivisors(x, y, d);
      }
      x, y := y, TruncRem(x, y);
    }
    AbsDivides(x);
    DividesZero(Abs(x));
    forall d | Divides(d, a0) && Divides(d, b0)
      ensures Divides(d, Abs(x))
    {
      DividesAbs(d, x);
    }
    r := Ok(Abs(x));
  }

  /** Dividing an exact multiple of `g` by `g` gives the multiplier back. */
  lemma MulCancel(n: int, g: int)
    requires g > 0
    ensures (n * g) / g == n
  {
    var q, r := (n * g) / g, (n * g) % g;
    assert n * g == q * g + r && 0 <= r < g;
    MulDistributes(n, q, g);
    if n - q >= 1 {
      MulAtLeast(n - q, g);
    } else if n - q <= -1 {
      MulAtLeast(q - n, g);
    }
  }

  lemma MulAtLeast(a: int, g: int)
    requires a >= 1 && g > 0
    ensures a * g >= g
  {
    assert a * g == (a - 1) * g + g;
  }

  /** The product of two multiples of `g`, divided by `g`, is a multiple of both. */
  lemma CommonMultiple(x: int, y: int, g: int)
    requires g > 0 && Divides(g, x) && Divides(g, y)
    ensures Divides(x, Abs(x * y / g)) && Divides(y, Abs(x * y / g))
  {
    var kx :| kx * g == x;
    var ky :| ky * g == y;
    MulAssociates(kx, g, y);
    assert x * y == (kx * y) * g;
    MulCancel(kx * y, g);
    assert Divides(y, kx * y);
    DividesAbs(y, kx * y);
    MulAssociates(kx, ky, g);
    MulAssociates(ky, kx, g);
    assert kx * y == ky * x;
    assert Divides(x, ky * x);
    DividesAbs(x, kx * y);
  }

  /** Two non-negative integers that divide each other are equal. */
  lemma MutualDivisors(g: int, h: int)
    requires g >= 0 && h >= 0 && Divides(g, h) && Divides(h, g)
    ensures g == h
  {
    var k :| k * g == h;
    var m :| m * h == g;
    if g != 0 {
      MulAssociates(m, k, g);
      assert (m * k) * g == 1 * g;
      MulDistributes(m * k, 1, g);
      if m * k != 1 {
        if m * k - 1 >= 1 {
          MulAtLeast(m * k - 1, g);
        } else {
          MulAtLeast(1 - m * k, g);
        }
      }
      assert m * k == 1;
      assert k == 1 || k == -1;
    }
  }

  /** The greatest common divisor is unique. */
  lemma GcdUnique(g: int, h: int, a: int, b: int)
    requires IsGcd(g, a, b) && IsGcd(h, a, b)
    ensures g == h
  {
    MutualDivisors(g, h);
  }

  /** `|x * y / g|` times `g` is `|x * y|` when `g` divides `x`. */
  lemma LcmTimesGcd(x: int, y: int, g: int)
    requires g > 0 && Divides(g, x)
    ensures Abs(x * y / g) * g == Abs(x * y)
  {
    var kx :| kx * g == x;
    MulAssociates(kx, g, y);
    assert x * y == (kx * y) * g;
    MulCancel(kx * y, g);
    if kx * y < 0 {
      assert Abs(kx * y) * g == -((kx * y) * g);
    }
  }

  /** `lcm`: the same integer check, then `|a * b / hcf(a, b)|`. When both are 0 the
      division is 0 / 0 and the result is NaN; otherwise it is the non-negative common
      multiple of both whose product with their greatest common divisor is `|a * b|`. */
  method Lcm(a: JsNumber, b: JsNumber) returns (r: Result<JsNumber, string>)
    ensures r.Err? <==> !(IsInteger(a) && IsInteger(b))
    ensures r.Err? ==> r.error == "lcm() expects two integers."
    ensures r.Ok? ==> (r.value.NaN? <==> IntegerValue(a) == 0 && IntegerValue(b) == 0)
    ensures r.Ok? && r.value.Decimal? ==>
      r.value.scale == 0 && r.value.units >= 0 &&
      Divides(IntegerValue(a), r.value.units) && Divides(IntegerValue(b), r.value.units)
    ensures r.Ok? && r.value.Decimal? ==>
      forall g :: IsGcd(g, IntegerValue(a), IntegerValue(b)) ==>
        r.value.units * g == Abs(IntegerValue(a) * IntegerValue(b))
  {
    if !IsInteger(a) || !IsInteger(b) {
      return Err("lcm() expects two integers.");
    }
    var x, y := IntegerValue(a), IntegerValue(b);
    var h := Hcf(a, b);
    var g := h.value;
    if g == 0 {
      ghost var kx :| kx * g == x;
      ghost var ky :| ky * g == y;
      return Ok(NaN);
    }
    CommonMultiple(x, y, g);
    LcmTimesGcd(x, y, g);
    forall g' | IsGcd(g', x, y)
      ensures Abs(x * y / g) * g' == Abs(x * y)
    {
      GcdUnique(g', g, x, y);
    }
    r := Ok(Decimal(Abs(x * y / g), 0));
  }

  // ---- Numbers ----

  function Max(a: real, b: real): real {
    if a >= b then a else b
  }

  function Min(a: real, b: real): real {
    if a <= b then a else b
  }

  /** `clamp`: `Math.max(min, Math.min(max, value))`. */
  function Clamp(value: real, min: real, max: real): (r: real)
    ensures min <= max ==> min <= r <= max
    ensures min <= value <= max ==> r == value
    ensures min > max ==> r == min
    ensures min <= max && value < min ==> r == min
    ensures min <= max && max < value ==> r == max
  {
    Max(min, Min(max, value))
  }

  /** Clamping twice is clamping once. */
  lemma ClampIdempotent(value: real, min: real, max: real)
    ensures Clamp(Clamp(value, min, max), min, max) == Clamp(value, min, max)
  {
  }

  // ---- Arrays ----

  /** A JavaScript array, whose contents `push` and `pop` change in place. */
  class JsArray<T> {
    var elements: seq<T>

    constructor (elements: seq<T>)
      ensures this.elements == elements
    {
      this.elements := elements;
    }
  }

  /** The contents after `push`. */
  function Pushed<T>(s: seq<T>, value: T): (r: seq<T>)
    ensures |r| == |s| + 1 && r[|s|] == value && r[..|s|] == s
  {
    s + [value]
  }

  /** What `pop` returns (`None` for `undefined`) and the contents after it. */
  function Popped<T>(s: seq<T>): (r: (Option<T>, seq<T>))
    ensures s == [] ==> r == (None, [])
    ensures s != [] ==> r.0 == Some(s[|s| - 1]) && r.1 + [s[|s| - 1]] == s
  {
    if s == [] then (None, []) else (Some(s[|s| - 1]), s[..|s| - 1])
  }

  /** `pop` undoes `push`. */
  lemma PopUndoesPush<T>(s: seq<T>, value: T)
    ensures Popped(Pushed(s, value)) == (Some(value), s)
  {
    assert Pushed(s, value)[..|s|] == s;
  }

  /** `push`: appends in place and returns the new length. */
  method Push<T>(arr: JsArray<T>, value: T) returns (length: nat)
    modifies arr
    ensures arr.elements == Pushed(old(arr.elements), value)
    ensures length == |arr.elements|
  {
    arr.elements := arr.elements + [value];
    length := |arr.elements|;
  }

  /** `pop`: removes and returns the last element; `undefined` on an empty array. */
  method Pop<T>(arr: JsArray<T>) returns (last: Option<T>)
    modifies arr
    ensures (last, arr.elements) == Popped(old(arr.elements))
  {
    if arr.elements == [] {
      last := None;
    } else {
      last := Some(arr.elements[|arr.elements| - 1]);
      arr.elements := arr.elements[..|arr.elements| - 1];
    }
  }

  /** `reverse`: a reversed copy of a string or an array. */
  function Reverse<T>(s: seq<T>): (r: seq<T>)
    ensures |r| == |s|
    ensures forall i :: 0 <= i < |s| ==> r[i] == s[|s| - 1 - i]
    decreases |s|
  {
    if s == [] then [] else [s[|s| - 1]] + Reverse(s[..|s| - 1])
  }

  /** Reversing twice gives the input back. */
  lemma ReverseInvolution<T>(s: seq<T>)
    ensures Reverse(Reverse(s)) == s
  {
    var r := Reverse(Reverse(s));
    assert forall i :: 0 <= i < |s| ==> r[i] == Reverse(s)[|s| - 1 - i];
  }

  /** Reversal turns a concatenation around. */
  lemma ReverseAppend<T>(a: seq<T>, b: seq<T>)
    ensures Reverse(a + b) == Reverse(b) + Reverse(a)
  {
    var l, r := Reverse(a + b), Reverse(b) + Reverse(a);
    forall i | 0 <= i < |l|
      ensures l[i] == r[i]
    {
      if i < |b| {
        assert l[i] == (a + b)[|a| + |b| - 1 - i];
      } else {
        assert l[i] == (a + b)[|a| + |b| - 1 - i];
      }
    }
  }

  /** `len`: the length of a string or an array. */
  function Len<T>(s: seq<T>): nat {
    |s|
  }

  /** `len` is unchanged by `reverse` and grows by one with `push`. */
  lemma LenOfReverseAndPush<T>(s: seq<T>, value: T)
    ensures Len(Reverse(s)) == Len(s)
    ensures Len(Pushed(s, value)) == Len(s) + 1
  {
  }

  /** `unique`: `[...new Set(arr)]`, the elements in order of first occurrence. */
  function Unique<T(==)>(arr: seq<T>): (r: seq<T>)
    ensures NoDuplicates(r)
    ensures forall i :: 0 <= i < |arr| ==> arr[i] in r
    ensures forall i :: 0 <= i < |r| ==> r[i] in arr
  {
    Dedup(arr)
  }

  /** Earlier elements of `unique` first occur earlier in the input. */
  lemma UniqueKeepsOrder<T>(arr: seq<T>, i: nat, j: nat)
    requires i < j < |Unique(arr)|
    ensures FirstIndex(arr, Unique(arr)[i]) < FirstIndex(arr, Unique(arr)[j])
  {
    DedupOrder(arr, i, j);
  }

  // ---- Values ----

  /** An argument of `coalesce`: `null`, `undefined`, or any other value. */
  datatype JsArg<T> = Null | Undefined | Defined(value: T)

  /** `coalesce`: the first argument that is neither `null` nor `undefined`; `None` stands
      for the `undefined` returned when there is none. */
  function Coalesce<T>(values: seq<JsArg<T>>): (r: Option<T>)
    ensures r.None? <==> forall i :: 0 <= i < |values| ==> !values[i].Defined?
    ensures r.Some? ==> exists i :: 0 <= i < |values| && values[i] == Defined(r.value)
    decreases |values|
  {
    if values == [] then None
    else if values[0].Defined? then Some(values[0].value)
    else
      var r := Coalesce(values[1..]);
      assert forall i :: 1 <= i < |values| ==> values[i] == values[1..][i - 1];
      r
  }

  /** The argument picked is the first defined one. */
  lemma {:induction false} CoalesceFirst<T>(values: seq<JsArg<T>>, i: nat)
    requires i < |values| && values[i].Defined?
    requires forall j :: 0 <= j < i ==> !values[j].Defined?
    ensures Coalesce(values) == Some(values[i].value)
    decreases i
  {
    if i > 0 {
      CoalesceFirst(values[1..], i - 1);
    }
  }

  // ---- Strings ----

  /** `toUpperCase` on one character, for the ASCII letters. */
  function UpperChar(c: char): char {
    if 'a' <= c <= 'z' then (c as int - 32) as char else c
  }

  /** `capitalize`: the first character upper-cased, the rest unchanged. */
  function Capitalize(s: string): (r: string)
    ensures |r| == |s|
    ensures s != [] ==> r[0] == UpperChar(s[0]) && r[1..] == s[1..]
  {
    if s == [] then "" else [UpperChar(s[0])] + s[1..]
  }

  /** Capitalizing twice is capitalizing once. */
  lemma CapitalizeIdempotent(s: string)
    ensures Capitalize(Capitalize(s)) == Capitalize(s)
  {
  }
}
