/** The tokenizer of backend/src/lexer.js: an ordered list of rules tried at each cursor
    position, first match wins; then a post-pass that merges `)` `:` T into one
    RETURN_TYPE token, and a terminal EOF token.

    Each regular expression of the rule list is written out as a matcher that returns the
    length of the text the JavaScript engine matches at offset 0 of the remaining input,
    or 0 when it matches nothing there (no rule can match the empty string). */
module Lexer {
  import opened Outcomes
  import opened Text

  /** The `type` of a pattern. COMMENT and WHITESPACE patterns are ignored, so those kinds
      never reach a token. */
  datatype TokenKind =
    | Comment | Keyword | TypeName | Identifier | NumberLiteral | StringLiteral
    | Symbol | Operator | Whitespace | ReturnType | Eof

  /** EOF carries the value null in the source; here it carries the empty string, which no
      parser test compares equal to anything. */
  datatype Token = Token(kind: TokenKind, value: string, line: int)

  datatype LexError = UnexpectedChar(position: nat, ch: char, line: int)

  /** One entry of `tokenPatterns`: the type it reports, its regular expression as a
      matcher (the length of the match at offset 0 of the input, 0 for none), and whether
      its matches are dropped. */
  datatype Pattern = Pattern(kind: TokenKind, regex: string -> nat, ignore: bool)

  /** The length of `p`'s match at offset 0 of `s`. A match is a prefix of its input, so
      an answer beyond `|s|` is read as all of `s`; no pattern of `tokenPatterns` gives one
      (TokenPatternsExact). */
  function MatchLen(p: Pattern, s: string): (n: nat)
    ensures n <= |s|
  {
    if p.regex(s) <= |s| then p.regex(s) else |s|
  }

  /** The alternatives of the KEYWORD rule: reserved words and every runtime helper name. */
  const Keywords: seq<string> := [
    "min", "max", "print", "len", "reverse", "abs", "sqrt", "sum", "push", "pop",
    "toUpperCase", "toLowerCase", "substring", "replace", "includes", "clamp",
    "startsWith", "endsWith", "unique", "range", "return", "for", "while", "if", "else",
    "let", "hcf", "lcm", "capitalize", "isURL", "coalesce", "slugify"
  ]

  /** The primitive names the TYPE rule accepts. */
  const BaseTypeNames: seq<string> := ["number", "string", "boolean", "void", "any"]

  // ---------------------------------------------------------------------------------
  // Character runs and searches

  function WordRun(s: string): (n: nat)
    ensures n <= |s|
    ensures forall i :: 0 <= i < n ==> IsWordChar(s[i])
    ensures n < |s| ==> !IsWordChar(s[n])
  {
    if s != [] && IsWordChar(s[0]) then 1 + WordRun(s[1..]) else 0
  }

  function DigitRun(s: string): (n: nat)
    ensures n <= |s|
    ensures forall i :: 0 <= i < n ==> IsDigit(s[i])
    ensures n < |s| ==> !IsDigit(s[n])
  {
    if s != [] && IsDigit(s[0]) then 1 + DigitRun(s[1..]) else 0
  }

  function SpaceRun(s: string): (n: nat)
    ensures n <= |s|
    ensures forall i :: 0 <= i < n ==> IsSpace(s[i])
  {
    if s != [] && IsSpace(s[0]) then 1 + SpaceRun(s[1..]) else 0
  }

  /** Length of the prefix free of line feeds (`[^\n]*`). */
  function LineRun(s: string): (n: nat)
    ensures n <= |s|
    ensures forall i :: 0 <= i < n ==> s[i] != '\n'
  {
    if s != [] && s[0] != '\n' then 1 + LineRun(s[1..]) else 0
  }

  /** First index at or after `i` holding `c`, or |s| if there is none. */
  function IndexFrom(s: string, c: char, i: nat): (k: nat)
    requires i <= |s|
    ensures i <= k <= |s|
    ensures k < |s| ==> s[k] == c
    ensures forall j :: i <= j < k ==> s[j] != c
    decreases |s| - i
  {
    if i == |s| || s[i] == c then i else IndexFrom(s, c, i + 1)
  }

  // First index at or after `i` where the closing star-slash pair starts, or |s| if none.
  function CommentEndFrom(s: string, i: nat): (k: nat)
    requires i <= |s|
    ensures i <= k <= |s|
    ensures k < |s| ==> k + 1 < |s| && s[k] == '*' && s[k + 1] == '/'
    decreases |s| - i
  {
    if i + 1 >= |s| then |s|
    else if s[i] == '*' && s[i + 1] == '/' then i
    else CommentEndFrom(s, i + 1)
  }

  /** `\b` at offset e > 0: exactly one side of e is a word character (the end of the
      input counts as a non-word character). */
  predicate BoundaryAt(s: string, e: nat)
    requires 0 < e <= |s|
  {
    IsWordChar(s[e - 1]) != (e < |s| && IsWordChar(s[e]))
  }

  // ---------------------------------------------------------------------------------
  // One matcher per rule

  /** `//[^\n]*` */
  function MatchLineComment(s: string): (n: nat)
    ensures n <= |s|
  {
    if StartsWith(s, "//") then 2 + LineRun(s[2..]) else 0
  }

  /** `/\*[\s\S]*?\*\/`: the lazy body stops at the first `*` `/` after the opening. */
  function MatchBlockComment(s: string): (n: nat)
    ensures n <= |s|
  {
    if StartsWith(s, "/*") then
      var k := CommentEndFrom(s, 2);
      if k < |s| then k + 2 else 0
    else 0
  }

  /** `\b(min|max|...)\b`: every alternative is made of word characters, so a match is
      exactly a leading run of word characters that is one of the keywords. */
  function MatchKeyword(s: string): (n: nat)
    ensures n <= |s|
  {
    var n := WordRun(s);
    if s[..n] in Keywords then n else 0
  }

  /** Length of the first base type name that `s` starts with, or 0. */
  function BaseNameLen(s: string): (n: nat)
    ensures n == 0 || exists b :: b in BaseTypeNames && n == |b| && StartsWith(s, b)
  {
    if StartsWith(s, "number") then 6
    else if StartsWith(s, "string") then 6
    else if StartsWith(s, "boolean") then 7
    else if StartsWith(s, "void") then 4
    else if StartsWith(s, "any") then 3
    else 0
  }

  /** `\[[^\]]*\]`: an opening bracket up to the first closing one. */
  function BracketLen(s: string): nat {
    if s != [] && s[0] == '[' then
      var k := IndexFrom(s, ']', 1);
      if k < |s| then k + 1 else 0
    else 0
  }

  /** One repetition after the leading base name of the TYPE rule: a bracket group, or
      `|` and another base name. */
  function TypeAtomLen(s: string): (n: nat)
    ensures n <= |s|
  {
    var b := BracketLen(s);
    if b > 0 then b
    else if s != [] && s[0] == '|' && BaseNameLen(s[1..]) > 0 then 1 + BaseNameLen(s[1..])
    else 0
  }

  /** End offsets of the successive repetitions the greedy TYPE rule consumes from `p`. */
  function TypeEndsFrom(s: string, p: nat): (ends: seq<nat>)
    requires p <= |s|
    ensures forall i :: 0 <= i < |ends| ==> p < ends[i] <= |s|
    decreases |s| - p
  {
    var a := TypeAtomLen(s[p..]);
    if a == 0 then [] else [p + a] + TypeEndsFrom(s, p + a)
  }

  /** Candidate end offsets of the TYPE rule, shortest first: after the base name and after
      each further repetition. */
  function TypeEnds(s: string): (ends: seq<nat>)
    ensures forall i :: 0 <= i < |ends| ==> 0 < ends[i] <= |s|
  {
    var b := BaseNameLen(s);
    if b == 0 then [] else [b] + TypeEndsFrom(s, b)
  }

  /** The last candidate end that stands on a word boundary, or 0: backtracking gives up
      repetitions from the last one until the closing `\b` holds. */
  function LastBoundary(s: string, ends: seq<nat>): (n: nat)
    requires forall i :: 0 <= i < |ends| ==> 0 < ends[i] <= |s|
    ensures n == 0 || (n in ends && BoundaryAt(s, n))
  {
    if ends == [] then 0
    else if BoundaryAt(s, ends[|ends| - 1]) then ends[|ends| - 1]
    else LastBoundary(s, ends[..|ends| - 1])
  }

  /** `\b(?:number|...)(?:\[[^\]]*\])*(?:\|(?:number|...)(?:\[[^\]]*\])*)*\b` */
  function MatchType(s: string): (n: nat)
    ensures n <= |s|
  {
    LastBoundary(s, TypeEnds(s))
  }

  /** `\b[a-zA-Z_][a-zA-Z0-9_]*\b` */
  function MatchIdentifier(s: string): (n: nat)
    ensures n <= |s|
  {
    if s != [] && (IsLetter(s[0]) || s[0] == '_') then WordRun(s) else 0
  }

  /** `(\.\d+)?` */
  function FractionLen(s: string): nat {
    if |s| >= 2 && s[0] == '.' && IsDigit(s[1]) then 1 + DigitRun(s[1..]) else 0
  }

  /** `-?\d+(\.\d+)?` */
  function MatchNumber(s: string): (n: nat)
    ensures n <= |s|
  {
    var sign := if |s| >= 2 && s[0] == '-' && IsDigit(s[1]) then 1 else 0;
    if sign == 0 && (s == [] || !IsDigit(s[0])) then 0
    else
      var p := sign + DigitRun(s[sign..]);
      p + FractionLen(s[p..])
  }

  /** `(?:"([^"]*)"|'([^']*)')`: a quote up to the next quote of the same kind. */
  function MatchString(s: string): (n: nat)
    ensures n <= |s|
  {
    if s != [] && (s[0] == '"' || s[0] == '\'') then
      var k := IndexFrom(s, s[0], 1);
      if k < |s| then k + 1 else 0
    else 0
  }

  /** `[()\[\]{}:,;=.]` */
  function MatchSymbol(s: string): (n: nat)
    ensures n <= |s|
  {
    if s != [] && s[0] in "()[]{}:,;=." then 1 else 0
  }

  /** `&&|\|\|` */
  function MatchMultiOperator(s: string): (n: nat)
    ensures n <= |s|
  {
    if StartsWith(s, "&&") || StartsWith(s, "||") then 2 else 0
  }

  /** `[+\-*\/<>!|]` */
  function MatchSingleOperator(s: string): (n: nat)
    ensures n <= |s|
  {
    if s != [] && s[0] in "+-*/<>!|" then 1 else 0
  }

  /** `\s+` */
  function MatchWhitespace(s: string): (n: nat)
    ensures n <= |s|
  {
    SpaceRun(s)
  }

  /** `tokenPatterns`, in order. */
  const TokenPatterns: seq<Pattern> := [
    Pattern(Comment, MatchLineComment, true),
    Pattern(Comment, MatchBlockComment, true),
    Pattern(Keyword, MatchKeyword, false),
    Pattern(TypeName, MatchType, false),
    Pattern(Identifier, MatchIdentifier, false),
    Pattern(NumberLiteral, MatchNumber, false),
    Pattern(StringLiteral, MatchString, false),
    Pattern(Symbol, MatchSymbol, false),
    Pattern(Operator, MatchMultiOperator, false),
    Pattern(Operator, MatchSingleOperator, false),
    Pattern(Whitespace, MatchWhitespace, true)
  ]

  /** For the lexer's own patterns the match length is the matcher's answer itself. */
  lemma TokenPatternsExact(i: nat, s: string)
    requires i < |TokenPatterns|
    ensures MatchLen(TokenPatterns[i], s) == TokenPatterns[i].regex(s)
  {
    var r := TokenPatterns[i].regex;
    if i == 0 { assert r == MatchLineComment; }
    else if i == 1 { assert r == MatchBlockComment; }
    else if i == 2 { assert r == MatchKeyword; }
    else if i == 3 { assert r == MatchType; }
    else if i == 4 { assert r == MatchIdentifier; }
    else if i == 5 { assert r == MatchNumber; }
    else if i == 6 { assert r == MatchString; }
    else if i == 7 { assert r == MatchSymbol; }
    else if i == 8 { assert r == MatchMultiOperator; }
    else if i == 9 { assert r == MatchSingleOperator; }
    else { assert r == MatchWhitespace; }
  }

  /** The inner `for` from pattern `i` on: the index of the first pattern whose match
      starts at offset 0 of `s`, with the match length. */
  function FirstMatchFrom(patterns: seq<Pattern>, s: string, i: nat): (m: Option<(nat, nat)>)
    requires i <= |patterns|
    ensures m.Some? ==> i <= m.value.0 < |patterns| && 0 < m.value.1 <= |s|
    ensures m.Some? ==> m.value.1 == MatchLen(patterns[m.value.0], s)
    decreases |patterns| - i
  {
    if i == |patterns| then None
    else if MatchLen(patterns[i], s) > 0 then Some((i, MatchLen(patterns[i], s)))
    else FirstMatchFrom(patterns, s, i + 1)
  }

  /** The winning pattern of `tokenPatterns` at the start of `s`. */
  function FirstMatch(s: string): (m: Option<(nat, nat)>)
    ensures m.Some? ==> m.value.0 < |TokenPatterns| && 0 < m.value.1 <= |s|
  {
    FirstMatchFrom(TokenPatterns, s, 0)
  }

  // ---------------------------------------------------------------------------------
  // The main loop and the post-pass, as functions

  /** The tokens pushed for one match of `p`: none for an ignored pattern, else one token
      holding the trimmed text and the line count after the text's own line feeds. */
  function Emit(p: Pattern, text: string, line: int): seq<Token> {
    if p.ignore then [] else [Token(p.kind, Trim(text), line)]
  }

  /** One turn of the loop at `pos`: the cursor, line count and tokens after the first
      pattern that matches there, or None when none does. */
  function Step(patterns: seq<Pattern>, code: string, pos: nat, line: int, acc: seq<Token>)
    : (next: Option<(nat, int, seq<Token>)>)
    requires pos < |code|
    ensures next.None? <==> FirstMatchFrom(patterns, code[pos..], 0).None?
    ensures next.Some? ==> pos < next.value.0 <= |code|
    ensures next.Some? ==> next.value.1 == line + CountNewlines(code[pos..next.value.0])
  {
    match FirstMatchFrom(patterns, code[pos..], 0)
    case None => None
    case Some((k, n)) =>
      var text := code[pos..pos + n];
      var line' := line + CountNewlines(text);
      Some((pos + n, line', acc + Emit(patterns[k], text, line')))
  }

  /** The `while (this.position < this.code.length)` loop from `pos` with line counter
      `line` and tokens `acc` so far: the tokens and final line count, or the error for
      the first position where no pattern matches. */
  function Scan(patterns: seq<Pattern>, code: string, pos: nat, line: int, acc: seq<Token>)
    : Result<(seq<Token>, int), LexError>
    requires pos <= |code|
    decreases |code| - pos
  {
    if pos == |code| then Ok((acc, line))
    else
      match Step(patterns, code, pos, line, acc)
      case None => Err(UnexpectedChar(pos, code[pos], line))
      case Some((pos', line', acc')) => Scan(patterns, code, pos', line', acc')
  }

  /** One turn of the loop when no pattern matches at `pos`. */
  lemma ScanStuck(patterns: seq<Pattern>, code: string, pos: nat, line: int, acc: seq<Token>)
    requires pos < |code| && FirstMatchFrom(patterns, code[pos..], 0).None?
    ensures Scan(patterns, code, pos, line, acc) == Err(UnexpectedChar(pos, code[pos], line))
  {
  }

  /** The turn taken when pattern `k` is the first to match, with `n` characters. */
  lemma StepFound(patterns: seq<Pattern>, code: string, pos: nat, line: int, acc: seq<Token>,
                  k: nat, n: nat)
    requires pos < |code| && FirstMatchFrom(patterns, code[pos..], 0) == Some((k, n))
    ensures Step(patterns, code, pos, line, acc)
         == Some((pos + n, line + CountNewlines(code[pos..pos + n]),
                  acc + Emit(patterns[k], code[pos..pos + n], line + CountNewlines(code[pos..pos + n]))))
  {
  }

  /** The loop goes on from the state its turn at `pos` leads to. */
  lemma ScanStep(patterns: seq<Pattern>, code: string, pos: nat, line: int, acc: seq<Token>,
                 pos': nat, line': int, acc': seq<Token>)
    requires pos < |code| && Step(patterns, code, pos, line, acc) == Some((pos', line', acc'))
    ensures pos' <= |code|
    ensures Scan(patterns, code, pos, line, acc) == Scan(patterns, code, pos', line', acc')
  {
  }

  /** A `:` whose raw predecessor is `)` and whose successor is a TYPE or IDENTIFIER. */
  predicate MergesAt(ts: seq<Token>, i: nat) {
    && i < |ts|
    && ts[i].kind == Symbol && ts[i].value == ":"
    && i > 0 && ts[i - 1].kind == Symbol && ts[i - 1].value == ")"
    && i + 1 < |ts| && (ts[i + 1].kind == TypeName || ts[i + 1].kind == Identifier)
  }

  /** The post-pass from raw index `i` on. */
  function MergeFrom(ts: seq<Token>, i: nat): seq<Token>
    requires i <= |ts|
    decreases |ts| - i
  {
    if i == |ts| then []
    else if MergesAt(ts, i) then
      [Token(ReturnType, ts[i + 1].value, ts[i + 1].line)] + MergeFrom(ts, i + 2)
    else [ts[i]] + MergeFrom(ts, i + 1)
  }

  /** The post-pass and the terminal EOF token applied to the outcome of the rule loop. */
  function Finish(scanned: Result<(seq<Token>, int), LexError>): Result<seq<Token>, LexError> {
    match scanned
    case Err(e) => Err(e)
    case Ok((raw, line)) => Ok(MergeFrom(raw, 0) + [Token(Eof, "", line)])
  }

  /** What `tokenize` returns for `code`. */
  function Lex(code: string): Result<seq<Token>, LexError> {
    Finish(Scan(TokenPatterns, code, 0, 1, []))
  }

  /** The inner `for` over the patterns: tries each in order and stops at the first that
      matches at offset 0; `len` is 0 when none does. */
  method FindPattern(patterns: seq<Pattern>, rest: string) returns (k: nat, len: nat)
    ensures len == 0 <==> FirstMatchFrom(patterns, rest, 0).None?
    ensures len > 0 ==> FirstMatchFrom(patterns, rest, 0) == Some((k, len))
  {
    k, len := 0, 0;
    var j := 0;
    while j < |patterns| && len == 0
      invariant 0 <= j <= |patterns|
      invariant len == 0 ==> FirstMatchFrom(patterns, rest, j) == FirstMatchFrom(patterns, rest, 0)
      invariant len > 0 ==> FirstMatchFrom(patterns, rest, 0) == Some((k, len))
    {
      len := MatchLen(patterns[j], rest);
      k := j;
      j := j + 1;
    }
  }

  /** The post-pass loop building `processedTokens`, with its manual skip of the merged
      successor. */
  method MergeReturnTypes(ts: seq<Token>) returns (processed: seq<Token>)
    ensures processed == MergeFrom(ts, 0)
  {
    processed := [];
    var i := 0;
    while i < |ts|
      invariant 0 <= i <= |ts|
      invariant processed + MergeFrom(ts, i) == MergeFrom(ts, 0)
      decreases |ts| - i
    {
      if MergesAt(ts, i) {
        processed := processed + [Token(ReturnType, ts[i + 1].value, ts[i + 1].line)];
        i := i + 1;
      } else {
        processed := processed + [ts[i]];
      }
      i := i + 1;
    }
  }

  // ---------------------------------------------------------------------------------
  // The lexer object

  class Lexer {
    const code: string
    const tokenPatterns: seq<Pattern>
    var tokens: seq<Token>
    var position: nat
    var line: int

    constructor(code: string)
      ensures this.code == code && tokenPatterns == TokenPatterns
      ensures tokens == [] && position == 0 && line == 1
    {
      this.code := code;
      tokenPatterns := TokenPatterns;
      tokens := [];
      position := 0;
      line := 1;
    }

    /** What the rest of the pattern loop yields from the current state. */
    ghost function Rest(): Result<(seq<Token>, int), LexError>
      reads this
      requires position <= |code|
    {
      Scan(tokenPatterns, code, position, line, tokens)
    }

    /** One turn of the `while` loop: the inner `for` over the patterns, then the line
        count, the token and the cursor updated for the winning match. Reports false,
        changing nothing, when no pattern matches at the cursor. */
    method MatchAtCursor() returns (matched: bool)
      requires position < |code|
      modifies this
      ensures matched ==> old(position) < position <= |code| && Rest() == old(Rest())
      ensures !matched ==> unchanged(this) && Rest() == Err(UnexpectedChar(position, code[position], line))
    {
      var pos, ln, toks := position, line, tokens;
      var k, len := FindPattern(tokenPatterns, code[pos..]);
      if len == 0 {
        ScanStuck(tokenPatterns, code, pos, ln, toks);
        return false;
      }
      var value := code[pos..pos + len];
      var newLine := ln + CountNewlines(value);
      var newTokens := toks;
      if !tokenPatterns[k].ignore {
        newTokens := toks + [Token(tokenPatterns[k].kind, Trim(value), newLine)];
      }
      assert newTokens == toks + Emit(tokenPatterns[k], value, newLine);
      StepFound(tokenPatterns, code, pos, ln, toks, k, len);
      ScanStep(tokenPatterns, code, pos, ln, toks, pos + len, newLine, newTokens);
      position, line, tokens := pos + len, newLine, newTokens;
      matched := true;
    }

    /** Runs the pattern loop from the current cursor, then the post-pass. */
    method Tokenize() returns (r: Result<seq<Token>, LexError>)
      requires position <= |code|
      modifies this
      ensures r == Finish(Scan(tokenPatterns, code, old(position), old(line), old(tokens)))
      ensures r.Ok? ==> tokens == r.value && position == |code|
    {
      while position < |code|
        invariant position <= |code| && Rest() == old(Rest())
        decreases |code| - position
      {
        var matched := MatchAtCursor();
        if !matched {
          return Err(UnexpectedChar(position, code[position], line));
        }
      }
      var processed := MergeReturnTypes(tokens);
      tokens := processed + [Token(Eof, "", line)];
      r := Ok(tokens);
    }
  }
}
