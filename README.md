# structura-lang compiler core in Dafny

This project models the core of the structura-lang compiler back end. Structura is a
small typed language of function declarations, type aliases and top-level call
statements. The model covers the following pipeline stages:

- **Lexer** (`Lexer`, `LexerProperties`): the ordered regular-expression rule table and the
  `tokenize` loop. The first rule that matches wins. Line feeds are counted, and comments
  and whitespace are dropped. A post-pass merges `)` `:` T into a RETURN_TYPE token, and
  an EOF token is appended.
- **Parser** (`Parser`, `ParserProperties`): the recursive-descent parser over the token list.
  It has a cursor, the reserved builtin names, the operator precedence table, type strings,
  function declarations with or without a body, and postfix member and call chains.
- **Type checker** (`TypeChecker`, `TypeCheckerProperties`): alias resolution, the three passes
  of `check` (aliases, then functions, then statements), argument typing, `+` typing,
  first-`return` checking, and the user-over-builtin signature lookup.
- **IR generator** (`IRGenerator`), **IR optimizer** (`IROptimizer`) and **IR compiler**
  (`IRCompiler`, `IRCompilerProperties`):
  - lowering the AST to IR nodes, with builtin tags on calls of reserved names;
  - constant folding of `+`, with builtin calls left untouched;
  - emitting JavaScript: a declaration with a body wins over a bodyless one, a stub is
    added for each reserved name, alias comments, statements, and the optional wrapper.
- **Three-address code** (`Tac`): the `TACPrinter` class with its temporary counter and
  line buffer. `Cli` models `formatTAC`.
- **Runtime** (`Environment`, `Stdlib`): the scope chain and the library helpers `hcf`, `lcm`,
  `clamp`, `push`, `pop`, `reverse`, `len`, `unique`, `coalesce` and `capitalize`.

The model takes the source's own form:

- Stateful objects are classes whose methods are proved equal to pure specification
  functions: the lexer, the parser cursor, the checker's tables, `TACPrinter`, the
  environment and arrays under `push`/`pop`.
- Loops are `while`/`for` loops with invariants: the `tokenize` loop, the post-pass,
  the compiler's bucketing and emitting loops, `formatTAC`, `hcf` and the optimizer's
  `map` over the IR array.
- Pure recursive code is written as functions.

Properties are then proved about the specification functions.

`Outcomes` (Option/Result), `Text` (character classes, split/trim, number printing),
`Sequences` (generic sequence lemmas), `Ast` and `Ir` (the node datatypes and the number
model) are shared support modules.

## Behaviours of the code worth knowing

- In the `tac` mode of the command line, `formatTAC` is handed optimized IR. Its nodes are
  tagged `function_decl`, `type_alias` or `expression_statement`, so every instruction
  prints as `[unknown op: …]` (`Cli.PipelineUnknownOps`).
- Declaring a reserved name such as `abs` fails in the parser (`Parser.FunctionAt`,
  `TypeCheckerProperties.ParsedDeclaresNoReserved`).
- The arity check ignores the `variadic` flag of `print`, so `print` takes exactly one
  argument (`TypeCheckerProperties.PrintTakesOneArgument`), although the language's own
  documentation shows it as `print(...args: any)` (frontend/src/components/Documentation.tsx:115).
- `any` is not a wildcard in type equality: it equals only `any`
  (`TypeCheckerProperties.AnyEqualsOnlyAny`).
- Union equality is one-directional: each member of the first union must equal some member
  of the second, so it is not set equality (`TypeCheckerProperties.UnionEqualityAsymmetric`).
- A user signature is consulted before the builtin one
  (`TypeCheckerProperties.UserSignatureShadowsBuiltin`).
- All ten reserved stubs are always emitted, whether a program calls them or not
  (`IRCompilerProperties.ReservedAlwaysEmitted`), and each forwards `...arguments`
  (`IRCompiler.StubForwards`).
- `lcm(0, 0)` is `0 / 0`, which is NaN, rather than an error (`Stdlib.Lcm`).
- On a cyclic alias, or a cyclic signature through argument calls, the source recurses
  without end. The model stops at the first revisit with `AliasCycle` / `SignatureCycle`
  (`TypeCheckerProperties.MutualAliasesCycle`).

## Model

| member | source | states |
|---|---|---|
| Lexer.Lexer.constructor | backend/src/lexer.js:3-8 | a new lexer holds the code, the ordered rule table, no tokens, position 0 and line 1 |
| Lexer.TokenPatternsExact | backend/src/lexer.js:11-64 | for every rule of the table the match length is exactly its matcher's answer (no clamping occurs) |
| LexerProperties.CommentRules | backend/src/lexer.js:13-14 | rules 0 and 1 are the line-comment and block-comment patterns |
| LexerProperties.KeywordRule | backend/src/lexer.js:19-22 | rule 2 is the keyword pattern |
| LexerProperties.TypeRule | backend/src/lexer.js:26-29 | rule 3 is the TYPE pattern (base names, bracket suffixes, unions, word boundaries) |
| LexerProperties.IdentifierRule | backend/src/lexer.js:30-33 | rule 4 is the identifier pattern |
| LexerProperties.NumberRule | backend/src/lexer.js:34-38 | rule 5 is the number pattern with optional minus and fraction |
| LexerProperties.StringRule | backend/src/lexer.js:39-43 | rule 6 is the single- or double-quoted string pattern |
| LexerProperties.SymbolRule | backend/src/lexer.js:44-48 | rule 7 is the one-character symbol pattern |
| LexerProperties.OperatorRules | backend/src/lexer.js:50-58 | rules 8 and 9 are the two-character then the one-character operator patterns |
| Lexer.FirstMatchFrom | backend/src/lexer.js:70-87 | a reported winner is a rule index at or after the start with a positive match length no longer than the rest of the input |
| Lexer.FirstMatch | backend/src/lexer.js:70-87 | the winning rule at the cursor is a rule of the table and consumes between 1 and the remaining characters |
| LexerProperties.FirstMatchFromIsFirst | backend/src/lexer.js:70-87 | no winner exactly when every rule fails; a winner matches and every earlier rule fails |
| LexerProperties.FirstMatchFromAt | backend/src/lexer.js:70-87 | conversely, a matching rule preceded only by failing rules is the winner |
| LexerProperties.Skip | backend/src/lexer.js:70-87 | a failing rule passes the turn to the next rule |
| LexerProperties.Win | backend/src/lexer.js:70-87 | a matching rule whose turn comes wins with its own length |
| LexerProperties.SkipComments | backend/src/lexer.js:13-14 | text not starting with `/` is never a comment: the search starts at the keyword rule |
| LexerProperties.NoKeyword | backend/src/lexer.js:19-22 | a keyword needs a word character first |
| LexerProperties.NoType | backend/src/lexer.js:26-29 | a TYPE needs a word character first |
| LexerProperties.SkipWords | backend/src/lexer.js:13-33 | text starting with a non-word, non-slash character skips the comment, keyword, type and identifier rules |
| LexerProperties.KeywordBeatsIdentifier | backend/src/lexer.js:19-33 | a whole word that is a keyword lexes as KEYWORD, not IDENTIFIER |
| LexerProperties.IdentifierOtherwise | backend/src/lexer.js:19-33 | a non-keyword word that is not a type lexes as IDENTIFIER of the whole word |
| LexerProperties.NegativeNumberBeatsMinus | backend/src/lexer.js:34-58 | `-` followed by a digit lexes as a NUMBER_LITERAL, not as the minus operator |
| LexerProperties.EqualsIsSymbol | backend/src/lexer.js:44-58 | `=` lexes as a one-character SYMBOL |
| LexerProperties.OperatorTexts | backend/src/lexer.js:50-58 | an OPERATOR token is one of `&&`, `\|\|`, `+`, `-`, `*`, `/`, `<`, `>`, `!`, `\|` |
| LexerProperties.StringKeepsQuotes | backend/src/lexer.js:39-43 | a string token keeps both matching quotes and is unchanged by trimming |
| LexerProperties.ArrayTypeSplits | backend/src/lexer.js:26-29 | the trailing word boundary makes `number[];` match only `number` as TYPE |
| Lexer.Step | backend/src/lexer.js:69-87 | one turn of the loop fails exactly when no rule matches; otherwise it advances the cursor and adds the line feeds of the matched text to the line |
| Lexer.ScanStuck | backend/src/lexer.js:89-93 | when no rule matches, the loop ends with an error at that position, character and line |
| Lexer.StepFound | backend/src/lexer.js:76-83 | the winner's text is consumed, the line counter advanced, and the token emitted (unless ignored) with the updated line |
| Lexer.ScanStep | backend/src/lexer.js:67-94 | the rest of the loop from a turn's successor state gives the loop's result |
| LexerProperties.ScanLines | backend/src/lexer.js:76-78 | a loop that reaches the end has counted one line per line feed of the input |
| LexerProperties.ScanError | backend/src/lexer.js:89-93 | an error names a position in the input, its character, the line there, and every rule fails at that position |
| LexerProperties.ScanKinds | backend/src/lexer.js:80-82 | the loop only appends tokens, and only of rules that are kept |
| LexerProperties.TokenPatternsReport | backend/src/lexer.js:13-63 | kept rules never yield comment, whitespace, EOF or RETURN_TYPE tokens |
| Lexer.FindPattern | backend/src/lexer.js:70-87 | the rule search loop returns length 0 exactly when no rule matches, otherwise the first matching rule and its length |
| Lexer.Lexer.MatchAtCursor | backend/src/lexer.js:69-93 | a successful turn advances the cursor within the code and leaves the loop's eventual result unchanged; a failed one changes nothing and the loop's result is the error at the cursor |
| Lexer.MergeReturnTypes | backend/src/lexer.js:98-113 | the post-pass loop computes the merge of `)` `:` T into RETURN_TYPE over the whole token list |
| LexerProperties.MergeFromUnmerged | backend/src/lexer.js:98-113 | without a `)` `:` T triple the post-pass copies the tokens unchanged |
| LexerProperties.MergeFromTokens | backend/src/lexer.js:98-113 | the post-pass never lengthens the list and adds no token except RETURN_TYPE ones |
| Lexer.Lexer.Tokenize | backend/src/lexer.js:66-117 | `tokenize` returns the loop's outcome, post-processed and terminated by EOF; on success the cursor is at the end and the tokens field holds the result |
| LexerProperties.LexShape | backend/src/lexer.js:98-116 | a successful lexing ends with exactly one EOF token, on line one plus the number of line feeds, and no comment, whitespace or EOF token precedes it |
| LexerProperties.LexProgram | backend/src/lexer.js:3-117 | constructing a lexer and calling `tokenize` computes `Lex(code)` |
| Parser.PeekAt | backend/src/parser.js:41-43 | the current token, or an EOF token past the end |
| Parser.ConsumeAt | backend/src/parser.js:45-57 | succeeds exactly when the current token has the expected kind (and value, if given), returning it |
| Parser.ConsumeNameAt | backend/src/parser.js:59-68 | succeeds exactly when the current token is a KEYWORD or IDENTIFIER, returning it |
| Parser.PartTypes | backend/src/parser.js:140-147 | each trimmed union piece maps, in order, to an array or primitive type |
| Parser.TypeAnnotationAt | backend/src/parser.js:127-137 | a type annotation is exactly one TYPE or IDENTIFIER token |
| Parser.TypeAliasAt | backend/src/parser.js:110-125 | a parsed alias consumes tokens and is named by its first token |
| Parser.Exprs | backend/src/parser.js:214-223 | the expressions of an expression-context argument list, in order |
| Parser.ExpressionAt | backend/src/parser.js:245-247 | a parsed expression consumes at least one token |
| Parser.BinaryAt | backend/src/parser.js:300-313 | a binary expression consumes at least one token |
| Parser.BinaryLoopAt | backend/src/parser.js:302-311 | the operator loop never moves the cursor back or past the end |
| Parser.PrimaryAt | backend/src/parser.js:250-298 | a primary consumes at least one token |
| Parser.AtomAt | backend/src/parser.js:252-265 | an atom consumes at least one token |
| Parser.PostfixAt | backend/src/parser.js:268-296 | the postfix loop never moves the cursor back or past the end |
| Parser.ArgumentsAt | backend/src/parser.js:214-223 | in expression context every parsed argument is an expression |
| Parser.MoreArgumentsAt | backend/src/parser.js:218-221 | the `,` loop keeps expression-context lists free of parameters |
| Parser.ArgumentAt | backend/src/parser.js:227-242 | outside parameter context an argument is always an expression |
| Parser.StatementAt | backend/src/parser.js:316-328 | a statement consumes at least one token |
| Parser.BodyAt | backend/src/parser.js:330-338 | a body starts at `{` and its last consumed token is `}` |
| Parser.StatementsAt | backend/src/parser.js:333-336 | the statement loop ends after a `}` and only appends statements |
| Parser.FunctionAt | backend/src/parser.js:156-189 | a declaration is named and lined by its first token and never has a reserved name (a reserved name gives the override error); a bodyless one ends with `;` and one with a body ends with `}` |
| Parser.CallStatementAt | backend/src/parser.js:192-211 | a top-level call statement calls the identifier of its first token and ends with `;` |
| Parser.Parser.constructor | backend/src/parser.js:36-39 | a new parser holds the tokens at position 0 |
| Parser.Parser.Consume | backend/src/parser.js:45-57 | `consume` agrees with `ConsumeAt` and advances the cursor by one exactly on success |
| Parser.Parser.ConsumeName | backend/src/parser.js:59-68 | `consumeAny` agrees with `ConsumeNameAt` and advances by one exactly on success |
| Parser.Parser.Parse | backend/src/parser.js:83-108 | the top-level loop computes `ProgramFrom` from the cursor |
| Parser.Parser.ParseTypeAlias | backend/src/parser.js:110-125 | result and new cursor are those of `TypeAliasAt` |
| Parser.Parser.ParseTypeAnnotation | backend/src/parser.js:127-137 | result and new cursor are those of `TypeAnnotationAt` |
| Parser.Parser.ParseFunction | backend/src/parser.js:156-189 | result and new cursor are those of `FunctionAt` |
| Parser.Parser.ParseCallExpressionStatement | backend/src/parser.js:192-211 | result and new cursor are those of `CallStatementAt` |
| Parser.Parser.ParseArguments | backend/src/parser.js:214-223 | result and new cursor are those of `ArgumentsAt` |
| Parser.Parser.ParseArgument | backend/src/parser.js:227-242 | result and new cursor are those of `ArgumentAt` |
| Parser.Parser.ParseExpression | backend/src/parser.js:245-247 | result and new cursor are those of `ExpressionAt` |
| Parser.Parser.ParsePrimary | backend/src/parser.js:250-298 | result and new cursor are those of `PrimaryAt` |
| Parser.Parser.ParseAtom | backend/src/parser.js:252-265 | result and new cursor are those of `AtomAt` |
| Parser.Parser.ParseBinaryExpression | backend/src/parser.js:300-313 | result and new cursor are those of `BinaryAt` |
| Parser.Parser.ParseStatement | backend/src/parser.js:316-328 | result and new cursor are those of `StatementAt` |
| Parser.Parser.ParseFunctionBody | backend/src/parser.js:330-338 | result and new cursor are those of `BodyAt` |
| Parser.ParseTokens | backend/src/parser.js:36-108 | a fresh parser's `parse` computes `ParseProgram` |
| ParserProperties.ProgramFromExtends | backend/src/parser.js:84-107 | the top-level loop only appends nodes |
| ParserProperties.DeclarationOrCall | backend/src/parser.js:91-97 | a name followed by `(` yields a declaration exactly when a parameter list follows, and a call statement otherwise |
| ParserProperties.SemicolonSkipped | backend/src/parser.js:101-102 | a top-level `;` is skipped |
| ParserProperties.UnexpectedLeadingToken | backend/src/parser.js:103-104 | any other leading token that is not a name is an unexpected-token error |
| ParserProperties.BodylessDeclaration | backend/src/parser.js:174-179 | `f() : T;` parses to a declaration with no arguments and no body, consuming five tokens |
| ParserProperties.PartRoundTrip | backend/src/parser.js:142-146 | a written-out array or primitive piece reads back as the same type |
| ParserProperties.TypeStringRoundTrip | backend/src/parser.js:139-153 | reading the written-out text of any type a type string can denote gives the type back |
| ParserProperties.SingleTypeString | backend/src/parser.js:148-149 | a type string without `\|` is its one trimmed piece |
| ParserProperties.UnionTypeString | backend/src/parser.js:140-152 | a type string with `\|` is a union of its trimmed pieces in order, at least two |
| ParserProperties.ArrayStripsOnePair | backend/src/parser.js:142-143 | only one `[]` is stripped: `n[][]` is an array of the primitive named `n[]` |
| ParserProperties.AliasNameAsReturnType | backend/src/parser.js:132-133 | an identifier annotation is an alias, but the same name as a return-type string is a primitive |
| ParserProperties.BinaryLoopStops | backend/src/parser.js:302-311 | the operator loop stops only at a token it cannot take at the current precedence |
| ParserProperties.BinaryStops | backend/src/parser.js:300-313 | a binary expression stops only at a token its loop cannot take |
| ParserProperties.UnknownOperatorEndsLoop | backend/src/parser.js:306-307 | an operator missing from the precedence table ends the loop without consuming it |
| ParserProperties.NamePrimary | backend/src/parser.js:257-258 | a name not followed by `.` or `(` is a primary on its own |
| ParserProperties.GroupsLeft | backend/src/parser.js:300-313 | `a op1 b op2 c` groups to the left when op1 binds at least as tightly as op2 |
| ParserProperties.GroupsRight | backend/src/parser.js:300-313 | and to the right when op2 binds more tightly |
| ParserProperties.PostfixFolds | backend/src/parser.js:268-296 | the postfix loop wraps the atom in member accesses and calls, and stops before any `.` or `(` |
| ParserProperties.WrapsTrans | backend/src/parser.js:268-296 | wrapping composes: a wrap of a one-step wrap of a base wraps the base |
| ParserProperties.MemberThenCall | backend/src/parser.js:268-296 | `a.b(c)` is a call of the member `a.b` with argument `c` |
| TypeChecker.Resolve | backend/src/type_checker.js:60-74 | a resolved type has no aliases; a primitive resolves to itself; an unknown alias is an error |
| TypeChecker.ResolveAll | backend/src/type_checker.js:60-74 | resolving a list of types gives as many alias-free types |
| TypeChecker.ArgTypes | backend/src/type_checker.js:77-109 | typing the declared arguments gives one type per argument |
| TypeChecker.FirstReturn | backend/src/type_checker.js:166-187 | no return expression exactly when the body has no `return`; otherwise it is that of the first `return` |
| TypeChecker.TypeChecker.constructor | backend/src/type_checker.js:3-57 | a new checker holds the AST and empty alias and user-signature tables |
| TypeChecker.TypeChecker.Check | backend/src/type_checker.js:126-148 | `check` computes `CheckProgramFrom`; it leaves the alias table with every alias registered and, on success, the signature table with every declaration |
| TypeChecker.CheckNodes | backend/src/type_checker.js:126-148 | a fresh checker's `check` computes `CheckProgram` |
| TypeCheckerProperties.ResolveAliasFree | backend/src/type_checker.js:60-74 | a type without aliases resolves to itself |
| TypeCheckerProperties.ResolveAllAliasFree | backend/src/type_checker.js:60-74 | a list of alias-free types resolves to itself |
| TypeCheckerProperties.ResolveIdempotent | backend/src/type_checker.js:60-74 | resolving a resolved type changes nothing |
| TypeCheckerProperties.AliasReplaced | backend/src/type_checker.js:62-66 | a registered alias with an alias-free definition resolves to that definition |
| TypeCheckerProperties.MutualAliasesCycle | backend/src/type_checker.js:62-66 | two aliases defined as each other are reported as a cycle |
| TypeCheckerProperties.StructEqReflexive | backend/src/type_checker.js:112-123 | every alias-free type is structurally equal to itself |
| TypeCheckerProperties.TypeEqualsReflexive | backend/src/type_checker.js:112-123 | every resolvable type equals itself |
| TypeCheckerProperties.AnyEqualsOnlyAny | backend/src/type_checker.js:112-123 | a type equals `any`, on either side, exactly when it resolves to `any` |
| TypeCheckerProperties.KindsMustAgree | backend/src/type_checker.js:112-123 | structurally equal types have the same kind and contain no alias |
| TypeCheckerProperties.UnionEqualityAsymmetric | backend/src/type_checker.js:117-120 | union equality is one-directional: `m\|m` equals `m\|n` but not the reverse |
| TypeCheckerProperties.PlusTyping | backend/src/type_checker.js:92-104 | a binary expression types as number exactly for `+` on two numbers, as string exactly for `+` on two strings, and never as anything else |
| TypeCheckerProperties.CheckArgsAccepted | backend/src/type_checker.js:213-220 | the argument loop succeeds exactly when every argument is accepted by its parameter |
| TypeCheckerProperties.CallStatementAccepted | backend/src/type_checker.js:192-233 | a call statement is accepted exactly when the signature exists, the arity matches, every argument is accepted and the return type equals the annotation |
| TypeCheckerProperties.PrintTakesOneArgument | backend/src/type_checker.js:210-212 | the builtin `print` rejects any number of arguments other than one |
| TypeCheckerProperties.PrintRejectsNumber | backend/src/type_checker.js:213-220 | `print(4)` fails against the builtin signature: a number is not `any` |
| TypeCheckerProperties.UserSignatureShadowsBuiltin | backend/src/type_checker.js:197-207 | a user declaration of `print` is used instead of the builtin one |
| TypeCheckerProperties.FunctionTableKeys | backend/src/type_checker.js:134-141 | the signature table holds the initial names and the declared ones, and no others |
| TypeCheckerProperties.AliasTableKeys | backend/src/type_checker.js:128-132 | the alias table holds the initial names and the defined ones, and no others |
| TypeCheckerProperties.ForwardCallRejected | backend/src/type_checker.js:134-141 | while checking a declaration, a call of a name declared only later (and not builtin) is not found |
| TypeCheckerProperties.ParsedDeclaresNoReserved | backend/src/parser.js:162-164 | no parsed program declares a reserved name |
| TypeCheckerProperties.UnsignaturedNames | backend/src/type_checker.js:7-52 | the reserved names `hcf`, `lcm`, `capitalize`, `isURL`, `coalesce`, `slugify` have no builtin signature |
| TypeCheckerProperties.ReservedCallRejected | backend/src/type_checker.js:197-207 | in a parsed program, a call statement of a reserved name without a builtin signature is rejected as undeclared |
| TypeCheckerProperties.FirstReturnAppend | backend/src/type_checker.js:166-167 | statements after the first `return` do not change which `return` is first |
| TypeCheckerProperties.FirstReturnDecides | backend/src/type_checker.js:166-187 | only the first `return` of a body is checked |
| TypeCheckerProperties.FunctionAccepted | backend/src/type_checker.js:151-189 | a declaration is accepted exactly when it has parameters, its argument types resolve and, with a body, the first return's type equals the return type; zero parameters and a body without `return` give their errors |
| Ir.Add | backend/src/ir_optimizer.js:51-54 | numeric `+` is NaN exactly when an operand is NaN, at the larger scale |
| Ir.AddUnits | backend/src/ir_optimizer.js:51-54 | numeric `+` adds the numbers denoted |
| Ir.Normalize | backend/src/ir_generator.js:68-69 | a normalized decimal has no trailing zero digits and a scale no larger than before |
| Ir.NormalizeUnits | backend/src/ir_generator.js:68-69 | normalizing does not change the number denoted |
| Ir.DigitsValueOfNatText | backend/src/ir_generator.js:68-69 | the digits of a natural number read back as that number |
| Ir.NatTextInjective | backend/src/ir_generator.js:68-69 | different numbers print differently |
| IRGenerator.StripQuotes | backend/src/ir_generator.js:70-73 | removes at most one leading and one trailing quote and keeps the text between |
| IRGenerator.StripQuotesOfLiteral | backend/src/ir_generator.js:70-73 | a quoted string token loses exactly its two quotes |
| IRGenerator.LowerTagsExact | backend/src/ir_generator.js:83-97 | a lowered call is tagged builtin exactly when its callee is a reserved name |
| IRGenerator.NumberOfNatText | backend/src/ir_generator.js:68-69 | a digit literal lowers to the literal of the number it spells |
| IRGenerator.LineOrNull | backend/src/ir_generator.js:20 | `line \|\| null`: absent exactly for line 0, the line otherwise |
| IRGenerator.Generate | backend/src/ir_generator.js:4-44 | one IR node per AST node, in order |
| IRGenerator.GenerateAppend | backend/src/ir_generator.js:4-44 | lowering a concatenation is the concatenation of the lowerings |
| IRGenerator.GenerateCorresponds | backend/src/ir_generator.js:4-44 | each IR node has its AST node's kind, line, name, return type, parameter kinds, body presence and length, alias and annotation, and a new declaration is not builtin |
| IRGenerator.ReturnAnnotationDropped | backend/src/ir_generator.js:31-38 | a top-level statement's return-type annotation does not reach the IR |
| IRGenerator.GenerateTagsExact | backend/src/ir_generator.js:4-44 | every node of a lowered program has exact builtin tags |
| IROptimizer.OptimizeExpr | backend/src/ir_optimizer.js:42-76 | builtin calls, literals, variables and members are unchanged; a literal result comes from a literal or a `+`; a binary result keeps its operator; calls stay calls |
| IROptimizer.OptimizeExprIdempotent | backend/src/ir_optimizer.js:42-76 | optimizing an optimized expression changes nothing |
| IROptimizer.JsPlus | backend/src/ir_optimizer.js:49-59 | JavaScript `+` agrees with the folding the optimizer does |
| IROptimizer.OptimizeExprPreservesValue | backend/src/ir_optimizer.js:42-76 | folding never changes the value an expression evaluates to |
| IROptimizer.UniformSumFolds | backend/src/ir_optimizer.js:49-59 | a `+` tree of number literals only (or string literals only) folds to one literal of that kind |
| IROptimizer.OptimizeKeepsTags | backend/src/ir_optimizer.js:64-72 | folding never changes which calls are tagged builtin |
| IROptimizer.OptimizeStatements | backend/src/ir_optimizer.js:26-34 | each statement keeps its kind and gets its expression optimized |
| IROptimizer.OptimizeNode | backend/src/ir_optimizer.js:8-19 | non-declarations are unchanged; a declaration keeps name, parameters, return type, line and body presence, and is builtin exactly when it was or has no or an empty body |
| IROptimizer.OptimizeAll | backend/src/ir_optimizer.js:7-20 | every node optimized, in order |
| IROptimizer.OptimizeStatementsIdempotent | backend/src/ir_optimizer.js:26-34 | optimizing a body twice is optimizing it once |
| IROptimizer.OptimizeAllIdempotent | backend/src/ir_optimizer.js:7-20 | re-running the optimizer on its own output changes nothing |
| IROptimizer.Optimize | backend/src/ir_optimizer.js:7-20 | the in-place pass leaves the array holding the optimized nodes and returns them |
| IRCompiler.TypeToString | backend/src/ir_compiler.js:180-185 | array and union types print as `[object Object]`; a named type prints its name |
| IRCompiler.GroupingLost | backend/src/ir_compiler.js:150-157 | binary expressions print without parentheses, so `(a op1 b) op2 c` and `a op1 (b op2 c)` print alike |
| IRCompiler.Stub | backend/src/ir_compiler.js:62-72 | a stub is a builtin declaration of the name without a body |
| IRCompiler.StubForwards | backend/src/ir_compiler.js:104-122 | a stub compiles to a function forwarding `...arguments` to the library function of its name |
| IRCompiler.Bucket | backend/src/ir_compiler.js:22-47 | the bucketing loop builds a table whose keys are distinct, in insertion order, each mapping to a declaration of that name |
| IRCompiler.AddStubs | backend/src/ir_compiler.js:62-72 | the stub loop keeps the table well formed and leaves aliases and statements alone |
| IRCompiler.Collect | backend/src/ir_compiler.js:22-72 | both loops together give a well-formed table |
| IRCompiler.CollectNodes | backend/src/ir_compiler.js:18-72 | the two loops compute `Collect` |
| IRCompiler.Compile | backend/src/ir_compiler.js:10-99 | `compile` returns `CompileText(ir, wrap)` |
| IRCompiler.EmitNodes | backend/src/ir_compiler.js:74-98 | the emitting part writes the text of the collected buckets |
| IRCompiler.AppendAliasComments | backend/src/ir_compiler.js:75-79 | the alias loop appends one comment line per alias |
| IRCompiler.AppendFunctions | backend/src/ir_compiler.js:83-85 | the function loop appends each compiled declaration, in key order |
| IRCompiler.AppendStatements | backend/src/ir_compiler.js:90-92 | the statement loop appends one line per top-level statement |
| IRCompilerProperties.Named | backend/src/ir_compiler.js:22-36 | the declarations gathered for a name are all declarations of that name |
| IRCompilerProperties.FirstWithBody | backend/src/ir_compiler.js:25-36 | the first declaration with a non-empty body, if any, has a body and is one of them |
| IRCompilerProperties.FirstWithBodySnoc | backend/src/ir_compiler.js:25-36 | a later declaration becomes the first with a body only when no earlier one has one |
| IRCompilerProperties.ChosenWithoutBody | backend/src/ir_compiler.js:34-36 | when no declaration has a body, the one kept has none |
| IRCompilerProperties.BucketChooses | backend/src/ir_compiler.js:22-47 | a name is in the table exactly when it is declared, and maps to the first declaration with a body, or else the first one |
| IRCompilerProperties.BucketOrder | backend/src/ir_compiler.js:22-47 | the table's keys are the declared names in first-occurrence order |
| IRCompilerProperties.DedupMembers | backend/src/ir_compiler.js:22-47 | deduplication keeps exactly the names present |
| IRCompilerProperties.AddStubsOrder | backend/src/ir_compiler.js:62-72 | stubs are appended after the declared names, in reserved-list order, without repeats |
| IRCompilerProperties.StubStepOrder | backend/src/ir_compiler.js:63-71 | one round of the stub loop keeps the key order a deduplication |
| IRCompilerProperties.AddStubsEntries | backend/src/ir_compiler.js:62-72 | stubs go only to names the table lacks; existing entries are kept |
| IRCompilerProperties.CollectOrder | backend/src/ir_compiler.js:22-85 | functions are written in the order of the declared names followed by the reserved names, each once |
| IRCompilerProperties.CollectEntry | backend/src/ir_compiler.js:22-72 | each written function is the chosen declaration of its name, or a stub when it was never declared |
| IRCompilerProperties.ReservedAlwaysEmitted | backend/src/ir_compiler.js:50-72 | every one of the ten reserved names is written, declared or not |
| IRCompilerProperties.WrapEncloses | backend/src/ir_compiler.js:12-14 | with `wrap`, the output is the unwrapped output between the wrapper's opening and closing lines |
| Tac.TempNamesDistinct | backend/src/tac.js:19-22 | temporaries with different numbers have different names |
| Tac.AssignLineText | backend/src/tac.js:38-47 | an assignment line begins with its temporary's name and ` := ` |
| Tac.ExprCode | backend/src/tac.js:28-58 | an expression needs one line and one temporary per binary or call node |
| Tac.ArgumentsCode | backend/src/tac.js:45 | one operand per argument, with the temporaries and lines of all arguments |
| Tac.ExprCodeTemps | backend/src/tac.js:28-58 | line k of an expression's code assigns temporary count+1+k, and a binary or call result is the last temporary |
| Tac.ArgumentsCodeTemps | backend/src/tac.js:45 | the arguments' lines assign consecutive temporaries from count+1 |
| Tac.ExprCodeFresh | backend/src/tac.js:19-47 | two lines of an expression's code assign temporaries with different names |
| Tac.StmtCode | backend/src/tac.js:64-76 | a statement uses exactly its expression's temporaries |
| Tac.StmtCodeTemps | backend/src/tac.js:64-76 | a statement's lines assign the temporaries between the old and new counter once each, in order |
| Tac.StmtsCodeTemps | backend/src/tac.js:89-91 | so do a body's lines |
| Tac.NodeCodeTemps | backend/src/tac.js:85-101 | so do one top-level node's lines |
| Tac.ProgramTemps | backend/src/tac.js:82-103 | over a whole program every temporary is assigned exactly once, in increasing order |
| Tac.DeclarationCode | backend/src/tac.js:86-96 | a declaration prints its header, then its body, the builtin forwarding note, or `(no body)` |
| Tac.WithoutAliases | backend/src/tac.js:97-100 | removing the type aliases from a program leaves only other nodes |
| Tac.AliasesSkipped | backend/src/tac.js:97-100 | type aliases produce no code: removing them changes nothing |
| Tac.TacPrinter.constructor | backend/src/tac.js:13-16 | a new printer has counter 0 and no lines |
| Tac.TacPrinter.NewTemp | backend/src/tac.js:19-22 | increments the counter and returns the name of the new count, leaving the lines |
| Tac.TacPrinter.GenerateExpr | backend/src/tac.js:28-58 | appends the printed lines of `ExprCode`, advances the counter likewise and returns the result operand |
| Tac.TacPrinter.GenerateBinary | backend/src/tac.js:35-41 | the same for a binary node |
| Tac.TacPrinter.GenerateCall | backend/src/tac.js:42-49 | the same for a call node |
| Tac.TacPrinter.GenerateMember | backend/src/tac.js:50-54 | the same for a member node |
| Tac.TacPrinter.GenerateArgs | backend/src/tac.js:45 | the same for a call's arguments, returning their operands |
| Tac.TacPrinter.GenerateStmt | backend/src/tac.js:64-76 | appends the printed lines of `StmtCode` and advances the counter likewise |
| Tac.TacPrinter.GenerateBody | backend/src/tac.js:89-91 | the same for a body |
| Tac.TacPrinter.GenerateNode | backend/src/tac.js:85-101 | the same for one top-level node |
| Tac.TacPrinter.GenerateFunction | backend/src/tac.js:86-96 | the same for a declaration |
| Tac.TacPrinter.Generate | backend/src/tac.js:82-103 | appends the printed lines of the whole program and returns all lines joined by line feeds |
| Cli.Chunks | backend/src/cli.js:47-67 | one text per instruction |
| Cli.FormatTac | backend/src/cli.js:43-70 | `formatTAC` returns the header followed by each instruction's text, numbered from 1 |
| Cli.FormatLine | backend/src/cli.js:51-63 | an instruction's line is its temporary, ` := `, and what its `op` tag prints |
| Cli.ChunksSnoc | backend/src/cli.js:47-67 | the loop's next turn appends the next instruction's text with the next number |
| Cli.FormatStartsWithHeader | backend/src/cli.js:44 | the output opens with the header line |
| Cli.ChunksAppend | backend/src/cli.js:45-66 | numbering is additive: later instructions carry on from where earlier ones stopped |
| Cli.InstructionChunk | backend/src/cli.js:43-70 | instruction k of the output is printed with number k+1 between the texts before and after it |
| Cli.ChunkLines | backend/src/cli.js:65 | an instruction's text starts with `t<n> := ` and its note is one line |
| Cli.ChunkNewlines | backend/src/cli.js:65 | each single-line instruction prints exactly two line feeds |
| Cli.FormatLineCount | backend/src/cli.js:43-70 | the output holds one line feed for the header plus two per instruction |
| Cli.BodyNewlines | backend/src/cli.js:47-67 | the instruction texts together hold two line feeds per instruction |
| Cli.NodeLineUnknown | backend/src/cli.js:61-62 | a top-level IR node prints as `[unknown op: <tag>]` |
| Cli.PipelineUnknownOps | backend/src/cli.js:84-98 | in `tac` mode every instruction of the optimized IR prints as an unknown op |
| Environment.Nearest | backend/src/runtime/environment.js:15-34 | the index of the innermost scope binding a name; none before it binds it |
| Environment.LookupNearest | backend/src/runtime/environment.js:26-34 | a lookup fails exactly when no scope binds the name, and otherwise reads the nearest binding |
| Environment.AssignNearestOnly | backend/src/runtime/environment.js:15-23 | assignment succeeds exactly for a bound name and rewrites only the nearest binding scope, at that name |
| Environment.AssignThenLookup | backend/src/runtime/environment.js:15-34 | after an assignment the name reads back as the new value and every other name as before |
| Environment.DefineShadows | backend/src/runtime/environment.js:10-12 | defining in the innermost scope shadows outer bindings and leaves other names alone |
| Environment.Env.constructor | backend/src/runtime/environment.js:4-7 | a new scope has no bindings and sits in front of its parent's chain |
| Environment.Env.Define | backend/src/runtime/environment.js:10-12 | binds the name in this scope only |
| Environment.Env.Assign | backend/src/runtime/environment.js:15-23 | the chain becomes `AssignIn` of the old chain, or stays unchanged with the undefined-variable error |
| Environment.Env.Get | backend/src/runtime/environment.js:26-34 | the nearest binding's value, or the undefined-variable error |
| Stdlib.IntegerValueDenotes | backend/src/runtime/stdlib.js:117 | an integral number denotes its integer value |
| Stdlib.TruncRem | backend/src/runtime/stdlib.js:120 | JavaScript `%`: smaller in magnitude than the divisor, with the sign of the dividend |
| Stdlib.TruncDivision | backend/src/runtime/stdlib.js:120 | dividend = truncated quotient × divisor + remainder |
| Stdlib.StepKeepsDivisors | backend/src/runtime/stdlib.js:119-121 | one Euclid step keeps the common divisors |
| Stdlib.Hcf | backend/src/runtime/stdlib.js:116-123 | an error exactly for non-integers, with its message; otherwise a greatest common divisor, and `abs(a)` when `b` is 0 |
| Stdlib.Lcm | backend/src/runtime/stdlib.js:125-129 | an error exactly for non-integers; NaN exactly when both are 0; otherwise the non-negative integer `\|a*b\| / hcf(a, b)`: a multiple of both whose product with their greatest common divisor is `\|a*b\|` |
| Stdlib.GcdUnique | backend/src/runtime/stdlib.js:128 | the greatest common divisor `hcf` returns is the only one, so `lcm` divides by a determined value |
| Stdlib.LcmTimesGcd | backend/src/runtime/stdlib.js:128 | `\|x*y/g\|` times `g` is `\|x*y\|` when `g` divides `x` |
| Stdlib.Clamp | backend/src/runtime/stdlib.js:47-51 | with ordered bounds: the value itself when inside them, `min` when below, `max` when above; `min` when the bounds are crossed |
| Stdlib.ClampIdempotent | backend/src/runtime/stdlib.js:47-51 | clamping twice is clamping once |
| Stdlib.JsArray.constructor | backend/src/runtime/stdlib.js:20-29 | an array holds the given elements |
| Stdlib.Pushed | backend/src/runtime/stdlib.js:20-24 | the contents after `push`: the old ones then the value |
| Stdlib.Popped | backend/src/runtime/stdlib.js:26-29 | `pop` returns the last element and leaves the rest; `undefined` and no change on an empty array |
| Stdlib.PopUndoesPush | backend/src/runtime/stdlib.js:20-29 | `pop` after `push` returns the pushed value and restores the array |
| Stdlib.Push | backend/src/runtime/stdlib.js:20-24 | appends in place and returns the new length |
| Stdlib.Pop | backend/src/runtime/stdlib.js:26-29 | removes and returns the last element in place |
| Stdlib.Reverse | backend/src/runtime/stdlib.js:58-64 | element i of the result is element n-1-i of the input |
| Stdlib.ReverseInvolution | backend/src/runtime/stdlib.js:58-64 | reversing twice gives the input back |
| Stdlib.ReverseAppend | backend/src/runtime/stdlib.js:58-64 | reversal turns a concatenation around |
| Stdlib.LenOfReverseAndPush | backend/src/runtime/stdlib.js:66-70 | `len` is unchanged by `reverse` and grows by one with `push` |
| Stdlib.Unique | backend/src/runtime/stdlib.js:111-114 | no duplicates, and exactly the input's elements |
| Stdlib.UniqueKeepsOrder | backend/src/runtime/stdlib.js:111-114 | elements appear in order of first occurrence |
| Stdlib.Coalesce | backend/src/runtime/stdlib.js:142-144 | `undefined` exactly when no argument is defined; otherwise one of the defined arguments |
| Stdlib.CoalesceFirst | backend/src/runtime/stdlib.js:142-144 | the argument picked is the first defined one |
| Stdlib.Capitalize | backend/src/runtime/stdlib.js:131-134 | the first character upper-cased, the rest unchanged |
| Stdlib.CapitalizeIdempotent | backend/src/runtime/stdlib.js:131-134 | capitalizing twice is capitalizing once |

## Left out

- Command-line glue in `cli.js` outside `formatTAC`: argument parsing, file reading and writing, console output and the run mode. It is input/output only.
- `generateTAC` in `tac.js` (lines 111-150): file reading and the pipeline call, which are input/output.
- `api-server.js`, `index.js`, the front end, the `src/` tree and the build artifacts: they are not part of the compiler core.
- Floating point: numbers are exact decimals (`Ir.JsNumber`), so IEEE rounding and precision beyond 2^53 (in `hcf`/`lcm` too) are not modelled.
- Stdlib.Clamp: it works on `real`, so NaN and the infinities are not modelled.
- `JSON.stringify` of string literals is modelled as wrapping in double quotes. Escaping is left out.
- `toUpperCase` (in `capitalize`) is modelled for ASCII letters only, and `reverse` reverses characters rather than splitting into UTF-16 code units.
- `unique` uses plain equality: SameValueZero (NaN equal to NaN, -0 equal to 0) is not modelled.
- Errors are modelled by kind (`LexError`, `ParseError`, `TypeError` datatypes) rather than by their exact message texts. The exceptions are `hcf`, `lcm` and the environment, whose messages are modelled.
- The runtime helpers' dynamic argument checks (`push() expects array.` and similar) are not modelled: the model's argument types rule those inputs out.
- `console.warn` calls are left out: they are side effects without effect on results.
- AST and IR kinds outside the datatypes cannot be represented because the datatypes are closed. This covers the throws at `tac.js` lines 55-56 and 74, the warnings in `ir_generator.js` (lines 40, 61-62, 104-105), the `""` returned by `compileStatement`/`compileExpression` for unknown kinds, and the `ir_compiler.js` default warning.
- The environment stores bindings in a map, so JavaScript prototype-chain lookups of names such as `toString` are not modelled.
- TypeChecker.Resolve: the alias table is a map, so an alias name inherited from `Object.prototype` (`toString`, `constructor`, …), which `resolveType` finds on the plain object `typeAliases` (type_checker.js:5, 63), is reported as `UnknownAlias` instead of resolving to that function object.
- TypeChecker.ExprType: the argument context and the user signature table are maps, so an identifier named like an `Object.prototype` member (`print(toString)`) is typed `any` where the source takes the inherited function object and then fails in `typeEquals`, and a user function named `hasOwnProperty`, which in the source replaces the method that the signature lookups call (type_checker.js:197, 242), is an ordinary name in the model.
- The other runtime helpers (`abs`, `min`, `max`, `sqrt`, `print`, `sumNumbers`, `concatStrings`, the string wrappers, `isURL`) are not modelled: they wrap JavaScript built-ins or the console. `slugify` is reserved but has no definition in `stdlib.js`.
- The parser's EOF token has value `null` in the source and `""` in the model.
- Expression nodes carry no line numbers: the source uses them only inside error messages.
- Three-address code lines are built as structured `Tac.TacLine` values and printed by `Tac.LineText`. The printer's `codeLines` holds the printed strings.
- Cyclic aliases and cyclic signatures: the source overflows the stack, and the model reports a cycle error instead.
