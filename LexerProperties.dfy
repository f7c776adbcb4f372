/** What the rule order and the loop of backend/src/lexer.js guarantee: first match wins,
    which rule claims which text, how lines are counted, where an error is reported, and
    the shape of the token list `tokenize` returns. */
module LexerProperties {
  import opened Outcomes
  import opened Text
  import opened Lexer

  // ---------------------------------------------------------------------------------
  // First match wins

  /** The winner from `i` on is the first pattern with a non-empty match, and there is no
      winner exactly when every pattern from `i` on fails. */
  lemma {:induction false} FirstMatchFromIsFirst(patterns: seq<Pattern>, s: string, i: nat)
    requires i <= |patterns|
    ensures FirstMatchFrom(patterns, s, i).None?
        <==> forall j :: i <= j < |patterns| ==> MatchLen(patterns[j], s) == 0
    ensures FirstMatchFrom(patterns, s, i).Some? ==>
      var k := FirstMatchFrom(patterns, s, i).value.0;
      MatchLen(patterns[k], s) > 0 && forall j :: i <= j < k ==> MatchLen(patterns[j], s) == 0
    decreases |patterns| - i
  {
    if i < |patterns| {
      FirstMatchFromIsFirst(patterns, s, i + 1);
    }
  }

  /** Conversely, a pattern that matches after patterns that all fail is the winner. */
  lemma {:induction false} FirstMatchFromAt(patterns: seq<Pattern>, s: string, i: nat, k: nat)
    requires i <= k < |patterns| && MatchLen(patterns[k], s) > 0
    requires forall j :: i <= j < k ==> MatchLen(patterns[j], s) == 0
    ensures FirstMatchFrom(patterns, s, i) == Some((k, MatchLen(patterns[k], s)))
    decreases k - i
  {
    if i < k {
      FirstMatchFromAt(patterns, s, i + 1, k);
    }
  }

  /** The match length of a pattern of the lexer is its matcher's answer. */
  lemma RuleLen(j: nat, f: string -> nat, s: string)
    requires j < |TokenPatterns| && TokenPatterns[j].regex == f
    ensures MatchLen(TokenPatterns[j], s) == f(s)
  {
    TokenPatternsExact(j, s);
  }

  lemma CommentRules(s: string)
    ensures MatchLen(TokenPatterns[0], s) == MatchLineComment(s)
    ensures MatchLen(TokenPatterns[1], s) == MatchBlockComment(s)
  {
    RuleLen(0, MatchLineComment, s);
    RuleLen(1, MatchBlockComment, s);
  }

  lemma KeywordRule(s: string)
    ensures MatchLen(TokenPatterns[2], s) == MatchKeyword(s)
  {
    RuleLen(2, MatchKeyword, s);
  }

  lemma TypeRule(s: string)
    ensures MatchLen(TokenPatterns[3], s) == MatchType(s)
  {
    RuleLen(3, MatchType, s);
  }

  lemma IdentifierRule(s: string)
    ensures MatchLen(TokenPatterns[4], s) == MatchIdentifier(s)
  {
    RuleLen(4, MatchIdentifier, s);
  }

  lemma NumberRule(s: string)
    ensures MatchLen(TokenPatterns[5], s) == MatchNumber(s)
  {
    RuleLen(5, MatchNumber, s);
  }

  lemma StringRule(s: string)
    ensures MatchLen(TokenPatterns[6], s) == MatchString(s)
  {
    RuleLen(6, MatchString, s);
  }

  lemma SymbolRule(s: string)
    ensures MatchLen(TokenPatterns[7], s) == MatchSymbol(s)
  {
    RuleLen(7, MatchSymbol, s);
  }

  lemma OperatorRules(s: string)
    ensures MatchLen(TokenPatterns[8], s) == MatchMultiOperator(s)
    ensures MatchLen(TokenPatterns[9], s) == MatchSingleOperator(s)
  {
    RuleLen(8, MatchMultiOperator, s);
    RuleLen(9, MatchSingleOperator, s);
  }

  /** A pattern that does not match passes the turn to the next one. */
  lemma Skip(patterns: seq<Pattern>, s: string, j: nat)
    requires j < |patterns| && MatchLen(patterns[j], s) == 0
    ensures FirstMatchFrom(patterns, s, j) == FirstMatchFrom(patterns, s, j + 1)
  {
  }

  /** A pattern that matches wins, if its turn comes. */
  lemma Win(patterns: seq<Pattern>, s: string, j: nat)
    requires j < |patterns| && MatchLen(patterns[j], s) > 0
    ensures FirstMatchFrom(patterns, s, j) == Some((j, MatchLen(patterns[j], s)))
  {
  }

  /** Neither comment rule matches text that does not start with a slash. */
  lemma SkipComments(s: string)
    requires s == [] || s[0] != '/'
    ensures FirstMatch(s) == FirstMatchFrom(TokenPatterns, s, 2)
  {
    CommentRules(s);
    assert MatchLineComment(s) == 0 && MatchBlockComment(s) == 0;
    Skip(TokenPatterns, s, 0);
    Skip(TokenPatterns, s, 1);
  }

  /** None of the word rules matches text that starts with a non-word character. */
  lemma NoKeyword(s: string)
    requires s != [] && !IsWordChar(s[0])
    ensures MatchKeyword(s) == 0
  {
    assert WordRun(s) == 0;
    assert s[..0] !in Keywords;
  }

  lemma NoType(s: string)
    requires s != [] && !IsWordChar(s[0])
    ensures MatchType(s) == 0
  {
    assert BaseNameLen(s) == 0;
    assert TypeEnds(s) == [];
  }

  /** Text that starts with neither a slash nor a word character gets past the comment,
      KEYWORD, TYPE and IDENTIFIER rules. */
  lemma SkipWords(s: string)
    requires s != [] && s[0] != '/' && !IsWordChar(s[0])
    ensures FirstMatch(s) == FirstMatchFrom(TokenPatterns, s, 5)
  {
    SkipComments(s);
    NoKeyword(s);
    NoType(s);
    KeywordRule(s);
    TypeRule(s);
    IdentifierRule(s);
    Skip(TokenPatterns, s, 2);
    Skip(TokenPatterns, s, 3);
    Skip(TokenPatterns, s, 4);
  }

  /** A reserved word or runtime helper name is a KEYWORD and never an IDENTIFIER, because
      the KEYWORD rule is tried first. */
  lemma KeywordBeatsIdentifier(s: string)
    requires s != [] && IsLetter(s[0]) && s[..WordRun(s)] in Keywords
    ensures FirstMatch(s) == Some((2, WordRun(s))) && TokenPatterns[2].kind == Keyword
  {
    SkipComments(s);
    KeywordRule(s);
    Win(TokenPatterns, s, 2);
  }

  /** A word that is neither reserved nor the start of a type is an IDENTIFIER spanning
      the whole run of word characters. */
  lemma IdentifierOtherwise(s: string)
    requires s != [] && (IsLetter(s[0]) || s[0] == '_')
    requires s[..WordRun(s)] !in Keywords && MatchType(s) == 0
    ensures FirstMatch(s) == Some((4, WordRun(s))) && TokenPatterns[4].kind == Identifier
  {
    SkipComments(s);
    KeywordRule(s);
    TypeRule(s);
    IdentifierRule(s);
    Skip(TokenPatterns, s, 2);
    Skip(TokenPatterns, s, 3);
    Win(TokenPatterns, s, 4);
  }

  /** A minus sign directly followed by a digit starts a NUMBER_LITERAL, never an
      OPERATOR: the NUMBER rule comes before the operator rules. */
  lemma NegativeNumberBeatsMinus(s: string)
    requires |s| >= 2 && s[0] == '-' && IsDigit(s[1])
    ensures FirstMatch(s).Some? && FirstMatch(s).value.0 == 5
    ensures TokenPatterns[5].kind == NumberLiteral
  {
    SkipWords(s);
    NumberRule(s);
    assert MatchNumber(s) > 0;
    Win(TokenPatterns, s, 5);
  }

  /** `=` is always a one-character SYMBOL, so `==`, `!=`, `<=` and `>=` never form one
      OPERATOR token. */
  lemma EqualsIsSymbol(s: string)
    requires s != [] && s[0] == '='
    ensures FirstMatch(s) == Some((7, 1)) && TokenPatterns[7].kind == Symbol
  {
    SkipWords(s);
    NumberRule(s);
    StringRule(s);
    SymbolRule(s);
    Skip(TokenPatterns, s, 5);
    Skip(TokenPatterns, s, 6);
    Win(TokenPatterns, s, 7);
  }

  /** The texts an OPERATOR token can have. */
  lemma OperatorTexts(s: string)
    requires FirstMatch(s).Some? && TokenPatterns[FirstMatch(s).value.0].kind == Operator
    ensures s[..FirstMatch(s).value.1] in ["&&", "||", "+", "-", "*", "/", "<", ">", "!", "|"]
  {
    var k, n := FirstMatch(s).value.0, FirstMatch(s).value.1;
    OperatorRules(s);
    assert k == 8 || k == 9;
    if k == 8 {
      assert s[..2] == "&&" || s[..2] == "||";
    } else {
      assert n == 1 && s[..1] == [s[0]] && s[0] in "+-*/<>!|";
    }
  }

  /** A STRING_LITERAL keeps its quotes: it opens and closes with the same quote
      character, and trimming leaves it as it is. */
  lemma StringKeepsQuotes(s: string)
    requires FirstMatch(s).Some? && FirstMatch(s).value.0 == 6
    ensures var n := FirstMatch(s).value.1;
      n >= 2 && (s[0] == '"' || s[0] == '\'') && s[n - 1] == s[0] && Trim(s[..n]) == s[..n]
  {
    var n := FirstMatch(s).value.1;
    StringRule(s);
    var t := s[..n];
    assert t[0] == s[0] && t[|t| - 1] == s[n - 1];
    TrimOfUnspaced(t);
  }

  /** The TYPE rule's closing `\b` cannot hold right after `]`, so an array type followed
      by a non-word character lexes as its element type alone. */
  lemma ArrayTypeSplits()
    ensures MatchType("number[];") == 6
  {
    var s := "number[];";
    assert BaseNameLen(s) == 6;
    assert s[6..][0] == '[' && s[6..][1] == ']';
    assert BracketLen(s[6..]) == 2;
    assert TypeAtomLen(s[8..]) == 0;
    assert TypeEndsFrom(s, 8) == [];
    assert TypeEnds(s) == [6, 8];
    assert !BoundaryAt(s, 8) && BoundaryAt(s, 6);
  }

  // ---------------------------------------------------------------------------------
  // The loop

  /** A loop that runs to the end has added one to the line counter per line feed. */
  lemma {:induction false} ScanLines(patterns: seq<Pattern>, code: string, pos: nat, line: int, acc: seq<Token>)
    requires pos <= |code|
    ensures Scan(patterns, code, pos, line, acc).Ok? ==>
      Scan(patterns, code, pos, line, acc).value.1 == line + CountNewlines(code[pos..])
    decreases |code| - pos
  {
    if pos < |code| {
      match Step(patterns, code, pos, line, acc)
      case None =>
      case Some((pos', line', acc')) =>
        ScanLines(patterns, code, pos', line', acc');
        assert code[pos..] == code[pos..pos'] + code[pos'..];
        CountNewlinesAppend(code[pos..pos'], code[pos'..]);
    }
  }

  /** The error names the first position where no pattern matches, the character there,
      and the line counter at that point. */
  lemma {:induction false} ScanError(patterns: seq<Pattern>, code: string, pos: nat, line: int, acc: seq<Token>)
    requires pos <= |code| && Scan(patterns, code, pos, line, acc).Err?
    ensures var e := Scan(patterns, code, pos, line, acc).error;
      && pos <= e.position < |code| && e.ch == code[e.position]
      && e.line == line + CountNewlines(code[pos..e.position])
      && forall j :: 0 <= j < |patterns| ==> MatchLen(patterns[j], code[e.position..]) == 0
    decreases |code| - pos
  {
    match Step(patterns, code, pos, line, acc)
    case None =>
      FirstMatchFromIsFirst(patterns, code[pos..], 0);
      assert code[pos..pos] == [];
    case Some((pos', line', acc')) =>
      ScanError(patterns, code, pos', line', acc');
      var p := Scan(patterns, code, pos', line', acc').error.position;
      assert code[pos..p] == code[pos..pos'] + code[pos'..p];
      CountNewlinesAppend(code[pos..pos'], code[pos'..p]);
  }

  /** Token `t` has the kind of a pattern whose matches are kept. */
  ghost predicate Reported(patterns: seq<Pattern>, t: Token) {
    exists j :: 0 <= j < |patterns| && !patterns[j].ignore && patterns[j].kind == t.kind
  }

  /** The loop only appends to the tokens, and only tokens of kept patterns. */
  lemma {:induction false} ScanKinds(patterns: seq<Pattern>, code: string, pos: nat, line: int, acc: seq<Token>)
    requires pos <= |code| && Scan(patterns, code, pos, line, acc).Ok?
    ensures var ts := Scan(patterns, code, pos, line, acc).value.0;
      acc <= ts && forall i :: |acc| <= i < |ts| ==> Reported(patterns, ts[i])
    decreases |code| - pos
  {
    if pos < |code| {
      var m := FirstMatchFrom(patterns, code[pos..], 0);
      if m.None? {
        ScanStuck(patterns, code, pos, line, acc);
      } else {
        var k, n := m.value.0, m.value.1;
        var text := code[pos..pos + n];
        var line' := line + CountNewlines(text);
        var acc' := acc + Emit(patterns[k], text, line');
        StepFound(patterns, code, pos, line, acc, k, n);
        ScanStep(patterns, code, pos, line, acc, pos + n, line', acc');
        ScanKinds(patterns, code, pos + n, line', acc');
        var ts := Scan(patterns, code, pos, line, acc).value.0;
        forall i | |acc| <= i < |ts| ensures Reported(patterns, ts[i]) {
          if i < |acc'| {
            assert ts[i] == Token(patterns[k].kind, Trim(text), line');
          }
        }
      }
    }
  }

  /** The patterns of the lexer keep no COMMENT or WHITESPACE token, and none reports EOF
      or RETURN_TYPE. */
  lemma TokenPatternsReport(t: Token)
    requires Reported(TokenPatterns, t)
    ensures t.kind !in {Comment, Whitespace, Eof, ReturnType}
  {
    var j :| 0 <= j < |TokenPatterns| && !TokenPatterns[j].ignore && TokenPatterns[j].kind == t.kind;
    assert j in {2, 3, 4, 5, 6, 7, 8, 9};
  }

  // ---------------------------------------------------------------------------------
  // The post-pass and the result

  /** Without a `)` `:` T triple the post-pass copies the tokens unchanged. */
  lemma {:induction false} MergeFromUnmerged(ts: seq<Token>, i: nat)
    requires i <= |ts| && forall j :: i <= j < |ts| ==> !MergesAt(ts, j)
    ensures MergeFrom(ts, i) == ts[i..]
    decreases |ts| - i
  {
    if i < |ts| {
      MergeFromUnmerged(ts, i + 1);
      assert ts[i..] == [ts[i]] + ts[i + 1..];
    }
  }

  /** Every token of the post-pass is a raw token or a merged RETURN_TYPE, and a merge
      makes the list shorter. */
  lemma {:induction false} MergeFromTokens(ts: seq<Token>, i: nat)
    requires i <= |ts|
    ensures |MergeFrom(ts, i)| <= |ts| - i
    ensures forall t :: t in MergeFrom(ts, i) ==> t in ts[i..] || t.kind == ReturnType
    decreases |ts| - i
  {
    if i < |ts| {
      if MergesAt(ts, i) {
        MergeFromTokens(ts, i + 2);
        assert forall t :: t in ts[i + 2..] ==> t in ts[i..];
      } else {
        MergeFromTokens(ts, i + 1);
        assert forall t :: t in ts[i + 1..] ==> t in ts[i..];
      }
    }
  }

  /** A successful `tokenize` ends with exactly one EOF, on the line after the last line
      feed of the input, and holds no COMMENT or WHITESPACE token. */
  lemma LexShape(code: string)
    requires Lex(code).Ok?
    ensures var ts := Lex(code).value;
      && ts != [] && ts[|ts| - 1] == Token(Eof, "", 1 + CountNewlines(code))
      && forall i :: 0 <= i < |ts| - 1 ==> ts[i].kind !in {Comment, Whitespace, Eof}
  {
    var scanned := Scan(TokenPatterns, code, 0, 1, []);
    ScanLines(TokenPatterns, code, 0, 1, []);
    ScanKinds(TokenPatterns, code, 0, 1, []);
    assert code[0..] == code;
    var raw := scanned.value.0;
    MergeFromTokens(raw, 0);
    var ts := Lex(code).value;
    var merged := MergeFrom(raw, 0);
    assert ts == merged + [Token(Eof, "", scanned.value.1)];
    forall i | 0 <= i < |ts| - 1 ensures ts[i].kind !in {Comment, Whitespace, Eof} {
      assert ts[i] == merged[i] && ts[i] in merged;
      if ts[i].kind != ReturnType {
        assert ts[i] in raw[0..];
        var j :| 0 <= j < |raw| && raw[j] == ts[i];
        TokenPatternsReport(raw[j]);
      }
    }
  }

  /** The program's use of the lexer: a new object over `code`, then `tokenize`. */
  method LexProgram(code: string) returns (r: Result<seq<Token>, LexError>)
    ensures r == Lex(code)
  {
    var lexer := new Lexer(code);
    r := lexer.Tokenize();
  }
}
