# A verified model of the Sanskrit language front end

The Sanskrit language repository turns source text into a tree and runs it,
in three stages:

- the **lexer** (`src/compiler/lexer.js`) moves a cursor over the text and
  hands out one token per `getNextToken()` call;
- the **parser** (`src/compiler/parser.js`) is a single-lookahead recursive
  descent that pulls those tokens and builds `ASTNode` trees;
- the **interpreter** (`src/interpreter/index.js`) walks the tree.
  It keeps a `variables` map and a `functions` table.

This project models all three stages in Dafny and proves properties of the
model. Each stage is written in two layers:

- A pure specification: `Scan`, `ParseAt` and its companions, and `Eval`.
  These functions say what one call computes.
- An imperative layer in the source's own form:
  - `class Lexer` with the cursor fields `position`, `line`, `column` and
    `currentChar`;
  - `class Parser` with `currentToken` and an index into the token stream;
  - `class Interpreter` with the `variables` and `functions` maps.

  Each of their methods is proved to agree with the specification. Each
  loop (skipping whitespace, reading a number, identifier or string, the
  program and block loops, the parameter and argument loops, evaluating
  the arguments, the `forEach` that binds the parameters) is a `while`
  loop with its invariants.

The properties are proved about the specification functions.

Files and modules:

| file | module | what it holds |
|---|---|---|
| `wrappers.dfy` | `Wrappers` | `Option` and `Result` |
| `lexer.dfy` | `Lexing` | tokens, the cursor, `Scan`, `class Lexer` |
| `lexer_properties.dfy` | `LexerProperties` | maximal munch, EOF, strings and escapes, line and column tracking |
| `parser.dfy` | `Parsing` | `AstNode`, the token stream, the parsing functions, `class Parser` |
| `parser_properties.dfy` | `ParserProperties` | statement order, dispatch, associativity and precedence, calls, parentheses, blocks |
| `interpreter.dfy` | `Interpreting` | values, the state, `Eval`, `class Interpreter` |
| `interpreter_properties.dfy` | `InterpreterProperties` | parameter binding, exhaustive dispatch, arithmetic, calls and scope |
| `pipeline.dfy` | `Pipeline` | lexing a whole text, lexing then parsing, and what source text can express |

Modelling choices:

- **The token stream.** The parser pulls tokens lazily, so a syntax error
  ahead of an illegal character is reported before the lexer ever reaches
  that character. The parser therefore reads a `Stream`. It holds the
  tokens the lexer yields up to and including the first EOF, or, when the
  lexer throws first, the tokens before the throw together with the error.
  `Pipeline.Tokenize` builds that stream from a text, and
  `Pipeline.LexAll` builds it by calling `GetNextToken` repeatedly.
  A parser over an arbitrary valid stream reaches paths that text cannot,
  such as function declarations.
- **Number tokens.** A number token keeps its lexeme. The lexer stores
  `Number(lexeme)`, and the interpreter converts the lexeme when it visits
  the literal.
- **Values.** A value is `Undefined`, `Num(v)` for an integer that a
  double holds exactly (magnitude at most 2^53, never -0), or `Str`.
  Anything IEEE-754 or JavaScript coercion would decide stays
  uninterpreted:
  - a fraction, `1.2.3` or a large literal is `HostNumber(lexeme)`;
  - a rounded, fractional, infinite, -0 or coerced result is
    `HostResult(op, left, right)`.
- **Null fields.** A missing node value is the empty string. The `null`
  third child of a function declaration is `Null`. A node the interpreter
  cannot take apart (a missing child, a null) gives `HostTypeError`, the
  `TypeError` JavaScript throws there.
- **Recursion depth.** The interpreter takes a `fuel` argument for its
  call depth. A user call with no fuel left gives `StackOverflow`.
- **The built-in.** The built-in `मुद्रण` appends its argument list to an
  `output` log in the state and returns `undefined`.

The language the code accepts is smaller than its name suggests, and the model follows the code:

- There are no comments.
- Identifiers are ASCII `[a-zA-Z_][a-zA-Z0-9_]*`; there are no Devanagari
  letters or digits.
- There are only two precedence levels, `+ -` and `* /`.
- There are no variable declarations, no assignment and no `return`.
- `statement` sends the keyword `चर` to a `variableDeclaration` method the
  class does not have. The model gives `MissingMethod`.

The model states three consequences of the code as written:

- `Pipeline.ProgramsFromTextDeclareNothing`: the lexer never yields the
  Devanagari keyword `कार्य`, so no program parsed from text declares a
  function.
- `Pipeline.PrintNameIsNotLexed` and `Pipeline.PrintNameIsNoIdentifier`:
  the lexer refuses the built-in's name at its first letter, and no
  identifier token of any text is that name.
- `Pipeline.SampleRaisesUndefinedVariable`: from a fresh interpreter,
  `a + b * c;` stops at `a`, which nothing has bound.

## Model

| member | source | states |
|---|---|---|
| Lexing.CharAt | src/compiler/lexer.js:44 | `currentChar` is the character at the position while the position is inside the input, and null (None) exactly when it is not |
| Lexing.Step | src/compiler/lexer.js:36-45 | `advance` always increments the position; after a newline the line goes up by one and the column resets to 1, otherwise only the column goes up by one |
| Lexing.SkipSpaces | src/compiler/lexer.js:47-51 | every character skipped is JavaScript whitespace, and the cursor stops at a non-whitespace character or at the end |
| Lexing.RunEnd | src/compiler/lexer.js:55-58 | the loops of `readNumber` and `readIdentifier` stop at the end of the maximal run of their character class |
| Lexing.RunEndUnique | src/compiler/lexer.js:55-58 | a position that bounds a run of the class and is followed by a character outside it (or the end) is where the run ends |
| Lexing.StringBody | src/compiler/lexer.js:77-90 | the string loop never moves the cursor back; where it stops inside the input is the closing quote; and it either does not move or stops at most one position past the end |
| Lexing.StringToken | src/compiler/lexer.js:72-93 | `readString` consumes at least the opening quote, and leaves the position at most `\|input\| + 2` (an unterminated string still takes the two `advance` calls past the last character) |
| Lexing.NumberToken | src/compiler/lexer.js:53-60 | `readNumber` yields a NUMBER whose text is the input from the cursor to the new position, a run of digits and dots that no such character follows, on the same line, with the token at the new cursor |
| Lexing.IdentifierToken | src/compiler/lexer.js:62-70 | `readIdentifier` yields the maximal run of `[a-zA-Z0-9_]` from the cursor, a KEYWORD exactly when the text is in `Keywords` and an IDENTIFIER otherwise, with the token at the new cursor |
| Lexing.EscapePiece | src/compiler/lexer.js:80-85 | a backslash at the very end appends `null`; otherwise one character, the escaped one itself unless it is `n`, `t` or `r` |
| Lexing.OperatorToken | src/compiler/lexer.js:114-124 | the operator branch yields an OPERATOR starting with the current character, two characters long exactly when the next one extends it (`=`, `&&`, `\|\|`) and one otherwise |
| Lexing.DelimiterToken | src/compiler/lexer.js:126-130 | the delimiter branch yields a one-character DELIMITER after one `advance`, with the token at the new cursor |
| Lexing.Dispatch | src/compiler/lexer.js:102-135 | EOF exactly at the end; a token carries the cursor after it; any other token consumes input; the error leaves the cursor and names the character, its line and column |
| Lexing.Scan | src/compiler/lexer.js:95-136 | `getNextToken`: a token's line and column are the cursor after it; a token other than EOF consumes input; EOF comes only once the input is exhausted |
| Lexing.SkipSpacesIdempotent | src/compiler/lexer.js:96-100 | skipping whitespace a second time moves nothing |
| Lexing.Lexer.constructor | src/compiler/lexer.js:28-34 | a new lexer is at position 0, line 1, column 1, with `currentChar` the first character or null |
| Lexing.Lexer.Advance | src/compiler/lexer.js:36-45 | updates the four cursor fields exactly as `Step` says and keeps `currentChar` in step with the position |
| Lexing.Lexer.SkipWhitespace | src/compiler/lexer.js:47-51 | the loop leaves the cursor where `SkipSpaces` says |
| Lexing.Lexer.ReadNumber | src/compiler/lexer.js:53-60 | accumulates the maximal run of digits and dots, and returns a NUMBER token with that lexeme and the cursor after it |
| Lexing.Lexer.ReadIdentifier | src/compiler/lexer.js:62-70 | accumulates the maximal identifier run; the token is a KEYWORD exactly when the text is in `Keywords` |
| Lexing.Lexer.ReadString | src/compiler/lexer.js:72-93 | accumulates the decoded body and skips both quotes, as `StringToken` says |
| Lexing.Lexer.GetNextToken | src/compiler/lexer.js:95-136 | the result and the new cursor are those `Scan` gives from the old cursor |
| LexerProperties.EofIsSticky | src/compiler/lexer.js:96-135 | once EOF is returned, the next call returns the same EOF token again without moving |
| LexerProperties.EofAtEnd | src/compiler/lexer.js:96-135 | at or past the end, the result is EOF at the current line and column |
| LexerProperties.ScanClassifies | src/compiler/lexer.js:95-133 | the first character after the whitespace decides the kind: a digit if and only if NUMBER, `[a-zA-Z_]` iff IDENTIFIER or KEYWORD, a quote iff STRING, an operator character iff OPERATOR, a delimiter iff DELIMITER, anything else iff the error, which names that character, line and column |
| LexerProperties.OperatorMunch | src/compiler/lexer.js:114-124 | an operator token is the text at the cursor, one or two characters long, two exactly when the second is `=` or doubles `&` or `\|` |
| LexerProperties.IdentifierMunch | src/compiler/lexer.js:62-70 | an identifier starts with `[a-zA-Z_]`, is the maximal run of `[a-zA-Z0-9_]`, and is a KEYWORD iff its text is in `Keywords` |
| LexerProperties.NumberMunch | src/compiler/lexer.js:53-60 | a number lexeme starts with a digit and is the maximal run of digits and dots |
| LexerProperties.LessEqualIsOneToken | src/compiler/lexer.js:117 | `<=` is a single token |
| LexerProperties.AndAndIsOneToken | src/compiler/lexer.js:118 | `&&` is a single token |
| LexerProperties.PlusPlusSplits | src/compiler/lexer.js:117-119 | `++` is two `+` tokens |
| LexerProperties.TripleEqualsSplits | src/compiler/lexer.js:117-122 | `===` is `==` followed by `=` |
| LexerProperties.SeveralDotsOneNumber | src/compiler/lexer.js:55 | `1.2.3` is one number token |
| LexerProperties.StringBodyReadsEscape | src/compiler/lexer.js:77-90 | the string loop decodes an escaped text back to the text it escapes, stopping on the closing quote |
| LexerProperties.StringRoundTrip | src/compiler/lexer.js:72-93 | a string literal written with escapes for backslashes, quotes and control characters scans back to the original text |
| LexerProperties.EscapedNewline | src/compiler/lexer.js:81 | `\n` in a string is a newline |
| LexerProperties.EscapedOtherKept | src/compiler/lexer.js:84 | any other escaped character stands for itself |
| LexerProperties.TrailingBackslash | src/compiler/lexer.js:78-84 | a backslash at the very end appends the text `null`, as JavaScript's string concatenation with `null` does |
| LexerProperties.UnterminatedBody | src/compiler/lexer.js:77-90 | without a quote or backslash ahead, the loop takes the rest of the input unchanged |
| LexerProperties.UnterminatedString | src/compiler/lexer.js:72-93 | an unterminated string is not an error: its text is the rest of the input |
| LexerProperties.ScanTracksCoordinates | src/compiler/lexer.js:36-136 | the line and column after each call are the line and column of the position in the text (newlines counted) |
| LexerProperties.LexErrorPosition | src/compiler/lexer.js:132 | the error names the offending character and its line and column in the text |
| LexerProperties.LexErrorExample | src/compiler/lexer.js:132 | `@` on the second line after two spaces is reported at line 2, column 3 |
| LexerProperties.DispatchNumber | src/compiler/lexer.js:102-104 | a digit after the whitespace is read by `readNumber` |
| LexerProperties.DispatchIdentifier | src/compiler/lexer.js:106-108 | a letter or underscore is read by `readIdentifier` |
| LexerProperties.DispatchString | src/compiler/lexer.js:110-112 | either quote is read by `readString`, with that quote as the terminator |
| LexerProperties.DispatchOperator | src/compiler/lexer.js:114-124 | an operator character is read by the operator branch |
| LexerProperties.DispatchDelimiter | src/compiler/lexer.js:126-130 | a delimiter is a one-character DELIMITER token |
| LexerProperties.DispatchOther | src/compiler/lexer.js:132 | any other character throws, naming the character and the cursor's line and column, and the cursor stays |
| LexerProperties.DispatchOperatorKind | src/compiler/lexer.js:102-132 | only an operator character yields an OPERATOR token |
| LexerProperties.OperatorTokenText | src/compiler/lexer.js:114-124 | the operator branch takes the character and, exactly when it extends the operator, the next one, and its text is those input characters |
| LexerProperties.ScanOpensString | src/compiler/lexer.js:96-112 | a quote at the start of the text opens a string literal |
| LexerProperties.StringBodyEscape | src/compiler/lexer.js:78-84 | a backslash and the character after it are consumed together and append that escape's meaning |
| LexerProperties.StringBodyStops | src/compiler/lexer.js:77 | the string loop stops on the quote and at the end of the input |
| LexerProperties.NumberTokenAt | src/compiler/lexer.js:53-60 | reading a number from the true line and column ends on the true line and column |
| LexerProperties.IdentifierTokenAt | src/compiler/lexer.js:62-70 | the same for an identifier |
| LexerProperties.StringTokenAt | src/compiler/lexer.js:72-93 | the same for a string, whenever it ends inside the input |
| LexerProperties.OperatorTokenAt | src/compiler/lexer.js:114-124 | the same for an operator |
| LexerProperties.DelimiterTokenAt | src/compiler/lexer.js:126-130 | the same for a delimiter |
| Parsing.AddChild | src/compiler/parser.js:11-14 | appends the child after the existing ones and keeps type, value and operator |
| Parsing.NextAt | src/compiler/parser.js:26 | pulling the next token gives the following one, the same EOF again, or the lexer's error |
| Parsing.EatAt | src/compiler/parser.js:23-30 | on a kind mismatch the error names the expected kind, the actual kind and the position; on success the cursor moves one token on |
| Parsing.ParseAt | src/compiler/parser.js:32-40 | a successful parse stops on EOF and returns a well-formed `Program` |
| Parsing.ProgramLoop | src/compiler/parser.js:35-37 | the statement loop stops on EOF and keeps its statements well formed |
| Parsing.StatementAt | src/compiler/parser.js:42-60 | a parsed statement moves the cursor on and is well formed |
| Parsing.FunctionDeclarationAt | src/compiler/parser.js:62-87 | a function declaration consumes tokens and has the four-child shape |
| Parsing.ParameterListAt | src/compiler/parser.js:69-77 | the parameters are identifier leaves; which ones, and in what order, is stated by `ParserProperties.ParameterListNames` |
| Parsing.ParamsLoop | src/compiler/parser.js:70-76 | the `do…while` loop consumes at least one token and keeps the parameters identifier leaves; which ones is stated by `ParserProperties.ParamsLoopNames` |
| Parsing.BlockAt | src/compiler/parser.js:89-97 | a block ends on a `}` delimiter and holds well-formed statements |
| Parsing.ExpressionStatementAt | src/compiler/parser.js:99-103 | an expression statement is a well-formed expression |
| Parsing.ExpressionAt | src/compiler/parser.js:105-118 | an expression consumes tokens and is well formed |
| Parsing.ExpressionLoop | src/compiler/parser.js:108-115 | the `+ -` loop keeps the tree well formed |
| Parsing.TermAt | src/compiler/parser.js:120-133 | a term consumes tokens and is well formed |
| Parsing.TermLoop | src/compiler/parser.js:123-130 | the `* /` loop keeps the tree well formed |
| Parsing.FactorAt | src/compiler/parser.js:135-180 | a factor consumes tokens and is a well-formed expression |
| Parsing.ArgumentListAt | src/compiler/parser.js:153-160 | the arguments are well-formed expressions |
| Parsing.ArgumentsLoop | src/compiler/parser.js:154-159 | the `do…while` loop consumes tokens and keeps the arguments well formed |
| Parsing.ParseStream | src/compiler/parser.js:18-40 | a successful parse of a stream is a well-formed `Program`; a stream whose first pull throws (no tokens) fails with that lexer error |
| Parsing.Parser.constructor | src/compiler/parser.js:18-21 | the parser starts on the first token of the stream |
| Parsing.Parser.Eat | src/compiler/parser.js:23-30 | returns the current token and moves on exactly as `EatAt` says, or fails with its error |
| Parsing.Parser.Parse | src/compiler/parser.js:32-40 | the `while` loop returns the tree `ParseAt` gives and ends on the position it gives |
| Parsing.Parser.Statement | src/compiler/parser.js:42-60 | agrees with `StatementAt` |
| Parsing.Parser.FunctionDeclaration | src/compiler/parser.js:62-87 | agrees with `FunctionDeclarationAt` |
| Parsing.Parser.ParameterList | src/compiler/parser.js:67-77 | the parameter loop builds the `Parameters` node `ParameterListAt` gives |
| Parsing.Parser.BlockStatement | src/compiler/parser.js:89-97 | agrees with `BlockAt` |
| Parsing.Parser.ExpressionStatement | src/compiler/parser.js:99-103 | agrees with `ExpressionStatementAt` |
| Parsing.Parser.Expression | src/compiler/parser.js:105-118 | agrees with `ExpressionAt` |
| Parsing.Parser.Term | src/compiler/parser.js:120-133 | agrees with `TermAt` |
| Parsing.Parser.Factor | src/compiler/parser.js:135-180 | agrees with `FactorAt` |
| Parsing.Parser.ArgumentList | src/compiler/parser.js:151-162 | the argument loop builds the `Arguments` node `ArgumentListAt` gives |
| Parsing.ParseSource | src/compiler/parser.js:18-40 | constructing a parser and calling `parse` gives `ParseStream` of the stream |
| ParserProperties.EatChecksKindOnly | src/compiler/parser.js:23-30 | `eat` succeeds if and only if the kind matches (the text is never looked at) and the next pull does not throw |
| ParserProperties.ParseIsStatementChain | src/compiler/parser.js:32-40 | `parse` returns `Program(stmts)` at `e` if and only if `stmts` are the statements parsed one after another in source order, none starting on EOF, and EOF is at `e` |
| ParserProperties.ProgramLoopChain | src/compiler/parser.js:35-37 | after statements already collected, the loop's result extends them by exactly such a chain |
| ParserProperties.ProgramLoopKeepsAcc | src/compiler/parser.js:35-37 | the statements collected so far stay the first children |
| ParserProperties.BlockIsStatementChain | src/compiler/parser.js:89-97 | `blockStatement` returns `BlockStatement(stmts)` if and only if `stmts` are the statements parsed in order up to a `}` delimiter |
| ParserProperties.BlockChain | src/compiler/parser.js:92-94 | the same for the loop after statements already collected |
| ParserProperties.BlockKeepsAcc | src/compiler/parser.js:92-94 | the statements collected so far stay the first children |
| ParserProperties.BlockAtEofFails | src/compiler/parser.js:89-97 | EOF inside a block throws "unexpected token EOF" rather than looping |
| ParserProperties.BlockNeverReachesEof | src/compiler/parser.js:89-97 | a block that parses never passes over EOF |
| ParserProperties.StatementDispatch | src/compiler/parser.js:42-60 | a statement succeeds only from `कार्य`, an identifier or a string; `चर` fails on the missing `variableDeclaration`; other keywords and NUMBER, OPERATOR, DELIMITER and EOF throw |
| ParserProperties.AnyDelimiterEndsStatement | src/compiler/parser.js:101 | an identifier followed by any delimiter other than `(` is a whole statement |
| ParserProperties.FunctionDeclarationShape | src/compiler/parser.js:62-87 | a declaration is `[Identifier(name), Parameters(params), null, BlockStatement]`, with the name from the token after the keyword |
| ParserProperties.OperandFactor | src/compiler/parser.js:147-167 | an identifier not followed by `(` is an `Identifier` factor |
| ParserProperties.TermLoopStops | src/compiler/parser.js:123 | the `* /` loop stops on anything but `*` and `/` |
| ParserProperties.ExpressionLoopStops | src/compiler/parser.js:108 | the `+ -` loop stops on anything but `+` and `-` |
| ParserProperties.TermLoopStep | src/compiler/parser.js:123-130 | one step of the `* /` loop, whatever factor follows the operator, nests the tree so far as the left operand and that factor as the right |
| ParserProperties.ExpressionLoopStep | src/compiler/parser.js:108-115 | one step of the `+ -` loop, whatever term follows the operator, nests the tree so far as the left operand and that term as the right |
| ParserProperties.TermLoopLastStep | src/compiler/parser.js:123-130 | a last `* /` step before any other token ends the loop with that one node |
| ParserProperties.ExpressionLoopLastStep | src/compiler/parser.js:108-115 | a last `+ -` step before any other token ends the loop with that one node |
| ParserProperties.TermLoopTwoSteps | src/compiler/parser.js:123-130 | two `* /` steps and a stop build `(left o1 b) o2 c` |
| ParserProperties.ExpressionLoopTwoSteps | src/compiler/parser.js:108-115 | two `+ -` steps and a stop build `(left o1 b) o2 c` |
| ParserProperties.TermGroupsLeft | src/compiler/parser.js:120-133 | three factors of any kind (literals, calls, parenthesised expressions) joined by `*` or `/` give `(a o1 b) o2 c` as the term |
| ParserProperties.ExpressionGroupsLeft | src/compiler/parser.js:105-118 | three terms of any kind joined by `+` or `-` give `(a o1 b) o2 c` as the expression |
| ParserProperties.OperandTerm | src/compiler/parser.js:120-133 | an identifier not followed by `*` or `/` is a whole term |
| ParserProperties.AdditionIsLeftAssociative | src/compiler/parser.js:105-118 | with `+` or `-` as both operators, `x ∘ y ∘ z` parses as `(x ∘ y) ∘ z` |
| ParserProperties.MultiplicationIsLeftAssociative | src/compiler/parser.js:120-133 | with `*` or `/` as both operators, `x ∘ y ∘ z` parses as `(x ∘ y) ∘ z`, and that is the whole expression |
| ParserProperties.ProductOnTheRight | src/compiler/parser.js:105-133 | `x + y * z` parses as `x + (y * z)` |
| ParserProperties.ProductOnTheLeft | src/compiler/parser.js:105-133 | `x * y + z` parses as `(x * y) + z` |
| ParserProperties.ParenthesesUnwrap | src/compiler/parser.js:169-175 | a parenthesised expression is the inner node itself |
| ParserProperties.OtherDelimiterIsNoFactor | src/compiler/parser.js:169-178 | a delimiter other than `(` falls through to "unexpected token" |
| ParserProperties.CallOrIdentifier | src/compiler/parser.js:147-167 | an identifier is a `FunctionCall[Identifier(name), Arguments(args)]` exactly when `(` follows, and a bare `Identifier` otherwise |
| ParserProperties.ArgumentListIsChain | src/compiler/parser.js:153-160 | the arguments are the expressions parsed one after another in order, separated by single delimiters and ended before a non-`,` token |
| ParserProperties.ArgumentsLoopChain | src/compiler/parser.js:154-159 | the loop after arguments already collected extends them by exactly such a chain |
| ParserProperties.ArgumentsLoopKeepsAcc | src/compiler/parser.js:154-159 | the arguments collected so far stay first, and one more is added |
| ParserProperties.ParameterListNames | src/compiler/parser.js:69-77 | the parameter list is empty when `)` follows; otherwise its nodes are, in order, the identifier leaves of the tokens at `pos`, `pos + 2`, …, with a `,` delimiter between each two and a non-`,` token after the last |
| ParserProperties.ParamsLoopNames | src/compiler/parser.js:70-76 | the loop keeps the names already collected first and appends at least one more: the identifier tokens at every second position from where it starts, after a separator once a name has been read, with `,` between them and a non-`,` token at the end |
| ParserProperties.ParamNamesCons | src/compiler/parser.js:70-76 | a name and a `,` in front of such a list of names give a longer one |
| Interpreting.NumberValue | src/interpreter/index.js:89-91 | `Number(lexeme)` is an exact non-negative integer of at most 2^53 written with a leading digit, or left to the host as `Number(lexeme)` itself |
| Interpreting.NumberArithmetic | src/interpreter/index.js:102-105 | an exact numeric result of `+ - *` is the sum, difference or product, and of `/` a quotient that multiplies back (never -0); `+` and `-` give a number exactly when the exact result fits in 2^53, and `*` exactly when it fits and is not -0 |
| Interpreting.Apply | src/interpreter/index.js:101-107 | fails with "unknown operator" if and only if the operator is not `+ - * /`; a string result is the concatenation of two strings under `+`, and two strings under `+` always give it; two numbers never give a string or undefined |
| InterpreterProperties.ExactQuotient | src/interpreter/index.js:105 | dividing by a non-zero b whose exact quotient q fits in 2^53 gives q, unless it would be -0 |
| InterpreterProperties.SumOfProductIsFourteen | src/interpreter/index.js:96-107 | evaluating the tree of `2 + 3 * 4` gives 14 and changes no state |
| Interpreting.LookupIdentifier | src/interpreter/index.js:81-87 | fails if and only if the value is undefined and the name is not a function; otherwise returns the bound value, so a bare function name gives undefined |
| Interpreting.Bind | src/interpreter/index.js:66-71 | the callee's scope has the caller's names and the parameter names |
| Interpreting.ParamNames | src/interpreter/index.js:38 | the names are read, in order, if and only if every parameter node is present |
| Interpreting.Declare | src/interpreter/index.js:34-42 | a declaration only adds to `functions`, leaves `variables` alone and returns undefined |
| Interpreting.Eval | src/interpreter/index.js:18-24 | a visit that returns normally leaves `variables` as it was; `functions` only gains names; the console only grows |
| Interpreting.EvalSequence | src/interpreter/index.js:26-50 | the loop over the children keeps the same three facts |
| Interpreting.EvalArguments | src/interpreter/index.js:62-67 | on success there is one value per argument and the values already collected stay first; the order and the values are stated by `ArgumentsSnoc` |
| InterpreterProperties.ArgumentsSnoc | src/interpreter/index.js:62-67 | one more argument is evaluated after the earlier ones, in the state they left, and its value is appended; a throw in an earlier argument or in this one stops the list with that error |
| Interpreting.EvalCall | src/interpreter/index.js:52-79 | a call that returns normally gives the caller's `variables` back |
| Interpreting.Interpreter.constructor | src/interpreter/index.js:3-12 | no variables, and only the built-in `मुद्रण` in `functions` |
| Interpreting.Interpreter.Interpret | src/interpreter/index.js:14-16 | result and new fields are those `Eval` gives from the old fields |
| Interpreting.Interpreter.Visit | src/interpreter/index.js:18-95 | the dispatch on the node type agrees with `Eval` |
| Interpreting.Interpreter.VisitSequence | src/interpreter/index.js:26-50 | the `for` loop agrees with `EvalSequence` |
| Interpreting.Interpreter.VisitFunctionDeclaration | src/interpreter/index.js:34-42 | the update of `functions` agrees with `Declare` |
| Interpreting.Interpreter.VisitArguments | src/interpreter/index.js:62-67 | the `map` over the arguments agrees with `EvalArguments` |
| Interpreting.Interpreter.VisitFunctionCall | src/interpreter/index.js:52-79 | the lookup, copy, `forEach` binding, swap and restore agree with `EvalCall` |
| Interpreting.Interpreter.VisitBinaryExpression | src/interpreter/index.js:97-108 | left, then right, then the operator, agreeing with `Eval` |
| InterpreterProperties.BindLookup | src/interpreter/index.js:66-71 | in the callee's scope a parameter reads the argument at its last position among the parameters (undefined if missing); every other name reads the caller's value |
| InterpreterProperties.ExtraArgumentsIgnored | src/interpreter/index.js:69-71 | arguments beyond the parameters change nothing |
| InterpreterProperties.MissingArgumentIsUndefined | src/interpreter/index.js:69-85 | a parameter without an argument is undefined, and reading it throws "not defined" unless it names a function |
| InterpreterProperties.SequenceSnoc | src/interpreter/index.js:28-31 | evaluating one more child runs it after the others, in the state they left |
| InterpreterProperties.SequenceResult | src/interpreter/index.js:26-50 | no children give undefined; otherwise the result is the last child's, evaluated after the others |
| InterpreterProperties.ParamNamesOfIdentifiers | src/interpreter/index.js:38 | parameters as the parser builds them always have names |
| InterpreterProperties.DeclarationStores | src/interpreter/index.js:34-42 | a parsed declaration stores its parameter names and body under its name, replacing any entry (the built-in included), without evaluating the body, and returns undefined |
| InterpreterProperties.EvalHandled | src/interpreter/index.js:18-108 | on any tree the parser builds, the visit never lacks a handler and never reads a field of null |
| InterpreterProperties.SequenceHandled | src/interpreter/index.js:26-50 | the same for a list of statements |
| InterpreterProperties.ArgumentsHandled | src/interpreter/index.js:62-67 | the same for a list of arguments |
| InterpreterProperties.CallHandled | src/interpreter/index.js:52-79 | the same for a call |
| InterpreterProperties.ExpressionIsNode | src/interpreter/index.js:18-24 | an expression tree is a tree `EvalHandled` covers |
| InterpreterProperties.ProgramsAreHandled | src/interpreter/index.js:18-108 | every program the parser builds has a handler for each of its nodes |
| InterpreterProperties.NoVisitMethodOnlyForLists | src/interpreter/index.js:18-24 | "no visit method" is thrown if and only if the node is `Parameters` or `Arguments` |
| InterpreterProperties.SubtractionUndoesAddition | src/interpreter/index.js:102-103 | an exact sum minus its right operand is the left operand |
| InterpreterProperties.DivisionUndoesMultiplication | src/interpreter/index.js:104-105 | an exact product divided by its non-zero right operand is the left operand |
| InterpreterProperties.NegativeZeroIsHost | src/interpreter/index.js:104-105 | `0 * -1` and `0 / -1` are left to the host (they are -0) |
| InterpreterProperties.StringOperators | src/interpreter/index.js:102-105 | `+` concatenates two strings; the other operators on strings are left to the host |
| InterpreterProperties.DecimalValue | src/interpreter/index.js:89-91 | the decimal numeral of n denotes n |
| InterpreterProperties.LeadingDigitsOfDigits | src/interpreter/index.js:89-91 | a string of digits is all leading digits |
| InterpreterProperties.NumberLiteralRoundTrip | src/interpreter/index.js:89-91 | the literal written as the decimal numeral of n (n at most 2^53) evaluates to n |
| InterpreterProperties.SeveralDotsAreHost | src/interpreter/index.js:89-91 | the lexeme `1.2.3` is left to the host's `Number` |
| InterpreterProperties.UserCall | src/interpreter/index.js:66-78 | a user call evaluates its arguments in the caller's state, runs the body in the caller's variables plus the parameters, gives the body's result, and restores the caller's variables on a normal return only |
| InterpreterProperties.BuiltinCall | src/interpreter/index.js:61-64 | the built-in evaluates its arguments in order, writes them as one line, and returns undefined |
| InterpreterProperties.UndefinedFunctionCall | src/interpreter/index.js:55-59 | calling a name missing from `functions` throws "Function … is not defined" and changes nothing |
| InterpreterProperties.BodyErrorLeavesCalleeScope | src/interpreter/index.js:73-76 | when the body throws, `variables` stays the callee's scope (no try/finally restores it) |
| InterpreterProperties.CalleeSeesCallerVariables | src/interpreter/index.js:66 | scoping is dynamic: the body reads the variables of its caller |
| Pipeline.ScanLexed | src/compiler/lexer.js:62-70 | every keyword token the lexer yields is in `Keywords`, and no identifier token is the built-in's name |
| Pipeline.PrintNameIsNoIdentifier | src/compiler/lexer.js:62-70 | no identifier token of any source text is the built-in's name `मुद्रण` |
| Pipeline.TokensFrom | src/compiler/lexer.js:95-136 | the successive tokens form a valid stream that extends the tokens already pulled |
| Pipeline.Tokenize | src/compiler/lexer.js:27-136 | the stream a new lexer yields is valid and holds only lexed tokens |
| Pipeline.LexAll | src/compiler/lexer.js:95-136 | calling `GetNextToken` until EOF or a throw builds exactly `Tokenize` |
| Pipeline.ParseText | src/compiler/parser.js:18-40 | lexing then parsing a text gives a well-formed program when it succeeds |
| Pipeline.LexedKeywordIsUnexpected | src/compiler/parser.js:44-52 | on lexed tokens a keyword always starts the "unexpected keyword" error |
| Pipeline.NoDeclarationsFromText | src/compiler/parser.js:44-47 | no statement chain over lexed tokens holds a function declaration |
| Pipeline.ProgramsFromTextDeclareNothing | src/compiler/parser.js:46 | no program parsed from text contains a function declaration |
| Pipeline.SampleScanA | src/compiler/lexer.js:106-107 | the first token of `a + b * c;` (stated for any text with those ten characters) is the identifier `a` |
| Pipeline.SampleScanPlus | src/compiler/lexer.js:114-124 | then `+` |
| Pipeline.SampleScanB | src/compiler/lexer.js:106-107 | then `b` |
| Pipeline.SampleScanTimes | src/compiler/lexer.js:114-124 | then `*` |
| Pipeline.SampleScanC | src/compiler/lexer.js:106-107 | then `c` |
| Pipeline.SampleScanSemicolon | src/compiler/lexer.js:126-130 | then `;` |
| Pipeline.SampleScanEof | src/compiler/lexer.js:135 | then EOF |
| Pipeline.SampleTokenizesAny | src/compiler/lexer.js:95-136 | any text with the ten characters of `a + b * c;` lexes to those seven tokens, ending with EOF |
| Pipeline.SampleTokenizes | src/compiler/lexer.js:95-136 | `a + b * c;` lexes to those seven tokens |
| Pipeline.SampleExpression | src/compiler/parser.js:105-133 | their expression is `a + (b * c)` |
| Pipeline.SampleStatement | src/compiler/parser.js:99-103 | and it is a statement ending after the `;` |
| Pipeline.SampleParses | src/compiler/parser.js:32-40 | lexing and parsing `a + b * c;` gives a program of one statement with `+` at the root and the product as its right operand |
| Pipeline.SampleRaisesUndefinedVariable | src/interpreter/index.js:81-98 | interpreting it from a fresh interpreter throws "Variable a is not defined" |
| Pipeline.PrintNameIsNotLexed | src/compiler/lexer.js:106-132 | a text starting with the built-in's name `मुद्रण` fails at its first letter |

## Left out

- `src/compiler/codegen.js` is not part of this model: each operation in it is a call into the LLVM bindings, whose behaviour is not visible.
- `src/compiler/index.js` is not part of this model. It holds file I/O, console output and the LLVM pass manager, and it calls a `parseProgram` method the parser does not define.
- `src/cli.js` is not part of this model. It holds argument parsing, the REPL, `process.exit` and temporary files.
- The built-in's `console.log` formatting is not modelled. A call appends its evaluated arguments to the `output` log in the state.
- IEEE-754 arithmetic and JavaScript coercions are not modelled: `HostNumber` and `HostResult` are uninterpreted values. This covers `NaN` from a lexeme like `1.2.`, the infinities of a division by zero, rounding beyond 2^53, -0, and `+` on mixed values.
- Interpreting.NumberValue: a lexeme with a fractional part other than zeros, or a value beyond 2^53, is `HostNumber`. Only the integers a double holds exactly are interpreted.
- The lexer stores `Number(lexeme)` as a number token's value; the model keeps the lexeme and converts it in the interpreter. That conversion is `NumberValue`.
- The lexer indexes JavaScript strings by UTF-16 code unit; the model's `char` is a Unicode scalar value and `Step` moves one of them. The Devanagari letters are single code units, so they read the same either way. A character outside the Basic Multilingual Plane (an emoji, say) is two code units in the source and one `char` in the model. Inside a string literal the source takes two `advance` calls for it, so every later column on that line is one higher than the model's: in `'😀' @` the source reports the STRING at column 5 and the error at column 6, the model at 4 and 5. Outside a string literal the source's error names a lone surrogate, the model's the whole character.
- `null` node values are the empty string, and the stored `null` child of a function declaration is `Null`.
- Recursion depth is a `fuel` argument, not the engine's stack limit. No lemma relates different amounts of fuel.
- Interpreting.EvalCall: the contract states only the frame facts. What a call computes is stated by `InterpreterProperties.UserCall`, `BuiltinCall` and `UndefinedFunctionCall`.
- Parsing.ExpressionAt, `TermAt`, `FactorAt` and the other parsing functions: their contracts state only progress and the tree's shape. The trees they build are stated by the lemmas of `ParserProperties` and `Pipeline`: for any factors and terms by the loop-step and `GroupsLeft` lemmas, for identifier operands by the associativity and precedence lemmas, for call arguments by `ArgumentListIsChain`, and for parameters by `ParameterListNames`.
- The error messages are datatype values that carry the same data as the thrown `Error` texts; the texts themselves are not modelled.
- Concurrency and timing play no part in the source; nothing is left out on that account.
