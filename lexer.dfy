/** The lexer of src/compiler/lexer.js: a cursor over the source text that
    hands out one token per call of GetNextToken.

    The pure functions below (Step, SkipSpaces, RunEnd, the *Token functions,
    Dispatch and Scan) say what each step of the lexer computes from a cursor;
    the class Lexer is the object the parser owns, whose methods update the
    cursor in place and are proved to agree with those functions. */
module Lexing {
  import opened Wrappers

  datatype TokenKind = KEYWORD | IDENTIFIER | NUMBER | STRING | OPERATOR | DELIMITER | EOF

  /** A token with the line and column the lexer reported for it. `text` is
      the lexeme of a number (the source stores the number it denotes and the
      interpreter converts it again), the name of an identifier or keyword,
      the decoded contents of a string, the operator or delimiter characters,
      and "" for EOF (the source stores null there; nothing reads it). */
  datatype Token = Token(kind: TokenKind, text: string, line: nat, column: nat)

  /** The error thrown for a character that starts no token. */
  datatype LexError = UnexpectedCharacter(ch: char, line: nat, column: nat)

  /** The lexer's cursor: `position` indexes the input; `line` and `column`
      are what the lexer reports. The current character is derived from
      `position` (see CharAt). */
  datatype Cursor = Cursor(position: nat, line: nat, column: nat)

  /** The reserved words; an identifier whose text is one of these is a KEYWORD. */
  const Keywords: set<string> := {
    "fn", "let", "const", "if", "else", "while", "for", "return",
    "async", "await", "match", "tensor", "type", "interface",
    "import", "export", "try", "catch", "throw"
  }

  /** The cursor of a freshly constructed lexer. */
  const Start: Cursor := Cursor(0, 1, 1)

  /** JavaScript's `\s` without the `u` flag: the WhiteSpace and
      LineTerminator code points of ECMAScript. */
  predicate IsWhitespace(c: char) {
    ('\t' <= c <= '\r') || c == ' ' || c == '\U{A0}' || c == '\U{1680}'
    || ('\U{2000}' <= c <= '\U{200A}') || c == '\U{2028}' || c == '\U{2029}'
    || c == '\U{202F}' || c == '\U{205F}' || c == '\U{3000}' || c == '\U{FEFF}'
  }

  /** `\d`: an ASCII digit only. */
  predicate IsDigit(c: char) {
    '0' <= c <= '9'
  }

  /** `[\d.]`, the characters of a number. */
  predicate IsNumberChar(c: char) {
    IsDigit(c) || c == '.'
  }

  /** `[a-zA-Z_]`, the characters that start an identifier. */
  predicate IsIdentifierStart(c: char) {
    ('a' <= c <= 'z') || ('A' <= c <= 'Z') || c == '_'
  }

  /** `[a-zA-Z0-9_]`, the characters that continue an identifier. */
  predicate IsIdentifierChar(c: char) {
    IsIdentifierStart(c) || IsDigit(c)
  }

  predicate IsQuote(c: char) {
    c == '"' || c == '\''
  }

  /** `[+\-*\/=<>!&|^%]`, the characters that start an operator. */
  predicate IsOperatorChar(c: char) {
    c in "+-*/=<>!&|^%"
  }

  /** `[(){}\[\],;:]`, the single-character delimiters. */
  predicate IsDelimiter(c: char) {
    c in "(){}[],;:"
  }

  /** The lexer's `currentChar` at position p: the character there, or null
      once the input is exhausted. */
  function CharAt(input: string, p: nat): (r: Option<char>)
    ensures r.Some? <==> p < |input|
    ensures r.Some? ==> r.value == input[p]
  {
    if p < |input| then Some(input[p]) else None
  }

  /** One `advance()`: the position always goes up by one; reading a newline
      moves to column 1 of the next line, any other character (or none) moves
      one column to the right. */
  function Step(input: string, c: Cursor): (r: Cursor)
    ensures r.position == c.position + 1
    ensures CharAt(input, c.position) == Some('\n') ==> r.line == c.line + 1 && r.column == 1
    ensures CharAt(input, c.position) != Some('\n') ==> r.line == c.line && r.column == c.column + 1
  {
    if CharAt(input, c.position) == Some('\n') then Cursor(c.position + 1, c.line + 1, 1)
    else Cursor(c.position + 1, c.line, c.column + 1)
  }

  /** `skipWhitespace()`: advance over the maximal run of whitespace. */
  function SkipSpaces(input: string, c: Cursor): (r: Cursor)
    ensures r.position >= c.position
    ensures r.position == c.position || r.position <= |input|
    ensures forall i :: c.position <= i < r.position ==> i < |input| && IsWhitespace(input[i])
    ensures r.position < |input| ==> !IsWhitespace(input[r.position])
    decreases |input| - c.position
  {
    if c.position < |input| && IsWhitespace(input[c.position]) then SkipSpaces(input, Step(input, c))
    else c
  }

  /** The two kinds of character run the lexer accumulates. */
  datatype RunClass = NumberRun | IdentifierRun

  predicate InRun(k: RunClass, c: char) {
    match k
    case NumberRun => IsNumberChar(c)
    case IdentifierRun => IsIdentifierChar(c)
  }

  /** The end of the maximal run of class k that starts at p. */
  function RunEnd(input: string, p: nat, k: RunClass): (e: nat)
    requires p <= |input|
    ensures p <= e <= |input|
    ensures forall i :: p <= i < e ==> InRun(k, input[i])
    ensures e == |input| || !InRun(k, input[e])
    decreases |input| - p
  {
    if p < |input| && InRun(k, input[p]) then RunEnd(input, p + 1, k) else p
  }

  /** The three facts RunEnd ensures determine it. */
  lemma RunEndUnique(input: string, p: nat, k: RunClass, e: nat)
    requires p <= e <= |input|
    requires forall i :: p <= i < e ==> InRun(k, input[i])
    requires e == |input| || !InRun(k, input[e])
    ensures RunEnd(input, p, k) == e
  {
  }

  /** `readNumber()` from a cursor on a digit: the lexeme is the run of
      digits and dots; the run holds no newline, so only the column moves. */
  function NumberToken(input: string, s: Cursor): (r: (Token, Cursor))
    requires s.position < |input|
    ensures s.position <= r.1.position <= |input|
    ensures r.0.kind == NUMBER && r.0.text == input[s.position..r.1.position]
    ensures forall i :: s.position <= i < r.1.position ==> IsNumberChar(input[i])
    ensures r.1.position == |input| || !IsNumberChar(input[r.1.position])
    ensures r.1.line == s.line && r.1.column == s.column + |r.0.text|
    ensures r.0.line == r.1.line && r.0.column == r.1.column
  {
    var e := RunEnd(input, s.position, NumberRun);
    var c := Cursor(e, s.line, s.column + (e - s.position));
    (Token(NUMBER, input[s.position..e], c.line, c.column), c)
  }

  /** `readIdentifier()` from a cursor on an identifier start. */
  function IdentifierToken(input: string, s: Cursor): (r: (Token, Cursor))
    requires s.position < |input|
    ensures s.position <= r.1.position <= |input|
    ensures r.0.text == input[s.position..r.1.position]
    ensures forall i :: s.position <= i < r.1.position ==> IsIdentifierChar(input[i])
    ensures r.1.position == |input| || !IsIdentifierChar(input[r.1.position])
    ensures r.0.kind == KEYWORD <==> r.0.text in Keywords
    ensures r.0.kind == IDENTIFIER <==> r.0.text !in Keywords
    ensures r.1.line == s.line && r.1.column == s.column + |r.0.text|
    ensures r.0.line == r.1.line && r.0.column == r.1.column
  {
    var e := RunEnd(input, s.position, IdentifierRun);
    var c := Cursor(e, s.line, s.column + (e - s.position));
    var text := input[s.position..e];
    (Token(if text in Keywords then KEYWORD else IDENTIFIER, text, c.line, c.column), c)
  }

  /** What a backslash followed by `next` appends to a string: `n`, `t` and
      `r` name control characters, any other character stands for itself,
      and at the end of the input JavaScript appends the text "null". */
  function EscapePiece(next: Option<char>): (r: string)
    ensures next.None? ==> r == "null"
    ensures next.Some? ==> |r| == 1
    ensures next.Some? && next.value !in "ntr" ==> r == [next.value]
  {
    match next
    case None => "null"
    case Some(x) => if x == 'n' then "\n" else if x == 't' then "\t" else if x == 'r' then "\r" else [x]
  }

  /** The loop of `readString()`: accumulate decoded characters until the
      closing quote or the end of the input. */
  function StringBody(input: string, c: Cursor, quote: char, acc: string): (r: (string, Cursor))
    ensures r.1.position >= c.position
    ensures r.1.position == c.position || r.1.position <= |input| + 1
    ensures r.1.position < |input| ==> input[r.1.position] == quote
    decreases |input| + 2 - c.position
  {
    if c.position >= |input| || input[c.position] == quote then (acc, c)
    else if input[c.position] == '\\' then
      var c1 := Step(input, c);
      StringBody(input, Step(input, c1), quote, acc + EscapePiece(CharAt(input, c1.position)))
    else
      StringBody(input, Step(input, c), quote, acc + [input[c.position]])
  }

  /** `readString()` from a cursor on the opening quote: skip it, read the
      body, skip the closing quote (or advance past the end once more when
      the string is unterminated). */
  function StringToken(input: string, s: Cursor, quote: char): (r: (Token, Cursor))
    requires s.position < |input|
    ensures s.position < r.1.position <= |input| + 2
  {
    var (text, c) := StringBody(input, Step(input, s), quote, "");
    var c' := Step(input, c);
    (Token(STRING, text, c'.line, c'.column), c')
  }

  /** The second character an operator may take: `=` after any operator,
      or the same character again after `&` or `|`. */
  predicate ExtendsOperator(op: char, next: Option<char>) {
    next == Some('=') || (op == '&' && next == Some('&')) || (op == '|' && next == Some('|'))
  }

  /** The operator branch of `getNextToken()`, from a cursor on an operator character. */
  function OperatorToken(input: string, s: Cursor, op: char): (r: (Token, Cursor))
    ensures r.0.kind == OPERATOR && (|r.0.text| == 1 || |r.0.text| == 2) && r.0.text[0] == op
    ensures |r.0.text| == 2 <==> ExtendsOperator(op, CharAt(input, s.position + 1))
    ensures r.0.line == r.1.line && r.0.column == r.1.column
  {
    var c1 := Step(input, s);
    var next := CharAt(input, c1.position);
    if ExtendsOperator(op, next) then
      var c2 := Step(input, c1);
      (Token(OPERATOR, [op, next.value], c2.line, c2.column), c2)
    else
      (Token(OPERATOR, [op], c1.line, c1.column), c1)
  }

  /** The delimiter branch of `getNextToken()`. */
  function DelimiterToken(input: string, s: Cursor, d: char): (r: (Token, Cursor))
    ensures r.0.kind == DELIMITER && r.0.text == [d]
    ensures r.1.position == s.position + 1
    ensures r.0.line == r.1.line && r.0.column == r.1.column
  {
    var c1 := Step(input, s);
    (Token(DELIMITER, [d], c1.line, c1.column), c1)
  }

  /** The dispatch of `getNextToken()` on the character class of the current
      character, once whitespace has been skipped. */
  function Dispatch(input: string, s: Cursor): (r: (Result<Token, LexError>, Cursor))
    ensures (r.0.Ok? && r.0.value.kind == EOF) <==> s.position >= |input|
    ensures r.0.Ok? ==> r.0.value.line == r.1.line && r.0.value.column == r.1.column
    ensures r.0.Ok? && r.0.value.kind != EOF ==> r.1.position > s.position
    ensures r.0.Err? ==> r.1 == s && s.position < |input|
                         && r.0.error == UnexpectedCharacter(input[s.position], s.line, s.column)
  {
    match CharAt(input, s.position)
    case None => (Ok(Token(EOF, "", s.line, s.column)), s)
    case Some(ch) =>
      if IsDigit(ch) then
        var (t, c) := NumberToken(input, s); (Ok(t), c)
      else if IsIdentifierStart(ch) then
        var (t, c) := IdentifierToken(input, s); (Ok(t), c)
      else if IsQuote(ch) then
        var (t, c) := StringToken(input, s, ch); (Ok(t), c)
      else if IsOperatorChar(ch) then
        var (t, c) := OperatorToken(input, s, ch); (Ok(t), c)
      else if IsDelimiter(ch) then
        var (t, c) := DelimiterToken(input, s, ch); (Ok(t), c)
      else
        (Err(UnexpectedCharacter(ch, s.line, s.column)), s)
  }

  /** `getNextToken()`: skip whitespace, then dispatch. The token's line and
      column are those of the cursor after the call; a token other than EOF
      consumes at least one character; EOF is returned exactly when only
      whitespace is left, and then the cursor sits at or past the end. */
  function Scan(input: string, c: Cursor): (r: (Result<Token, LexError>, Cursor))
    ensures r.1.position >= c.position
    ensures r.0.Ok? ==> r.0.value.line == r.1.line && r.0.value.column == r.1.column
    ensures r.0.Ok? && r.0.value.kind == EOF ==> r.1.position >= |input|
    ensures r.0.Ok? && r.0.value.kind != EOF ==> r.1.position > c.position
    ensures c.position <= |input| + 2 ==> r.1.position <= |input| + 2
  {
    Dispatch(input, SkipSpaces(input, c))
  }

  /** Skipping whitespace twice skips no more than once. */
  lemma SkipSpacesIdempotent(input: string, c: Cursor)
    ensures SkipSpaces(input, SkipSpaces(input, c)) == SkipSpaces(input, c)
  {
  }

  /** The lexer object of the source: the input and a cursor whose current
      character is kept in step with the position. */
  class Lexer {
    const input: string
    var position: nat
    var line: nat
    var column: nat
    var currentChar: Option<char>

    ghost predicate Valid()
      reads this
    {
      currentChar == CharAt(input, position)
    }

    /** The cursor the fields make up. */
    function Here(): Cursor
      reads this
    {
      Cursor(position, line, column)
    }

    constructor (input: string)
      ensures Valid() && this.input == input && Here() == Start
    {
      this.input := input;
      position := 0;
      line := 1;
      column := 1;
      currentChar := if 0 < |input| then Some(input[0]) else None;
    }

    method Advance()
      requires Valid()
      modifies this
      ensures Valid() && Here() == Step(input, old(Here()))
    {
      position := position + 1;
      if currentChar == Some('\n') {
        line := line + 1;
        column := 1;
      } else {
        column := column + 1;
      }
      currentChar := if position < |input| then Some(input[position]) else None;
    }

    method SkipWhitespace()
      requires Valid()
      modifies this
      ensures Valid() && Here() == SkipSpaces(input, old(Here()))
    {
      while currentChar.Some? && IsWhitespace(currentChar.value)
        invariant Valid()
        invariant SkipSpaces(input, Here()) == SkipSpaces(input, old(Here()))
        decreases |input| - position
      {
        Advance();
      }
    }

    method ReadNumber() returns (t: Token)
      requires Valid() && currentChar.Some?
      modifies this
      ensures Valid() && (t, Here()) == NumberToken(input, old(Here()))
    {
      ghost var start := position;
      var result := "";
      while currentChar.Some? && IsNumberChar(currentChar.value)
        invariant Valid()
        invariant start <= position <= |input|
        invariant result == input[start..position]
        invariant line == old(line) && column == old(column) + (position - start)
        invariant forall i :: start <= i < position ==> IsNumberChar(input[i])
        decreases |input| - position
      {
        result := result + [currentChar.value];
        Advance();
      }
      RunEndUnique(input, start, NumberRun, position);
      t := Token(NUMBER, result, line, column);
    }

    method ReadIdentifier() returns (t: Token)
      requires Valid() && currentChar.Some?
      modifies this
      ensures Valid() && (t, Here()) == IdentifierToken(input, old(Here()))
    {
      ghost var start := position;
      var result := "";
      while currentChar.Some? && IsIdentifierChar(currentChar.value)
        invariant Valid()
        invariant start <= position <= |input|
        invariant result == input[start..position]
        invariant line == old(line) && column == old(column) + (position - start)
        invariant forall i :: start <= i < position ==> IsIdentifierChar(input[i])
        decreases |input| - position
      {
        result := result + [currentChar.value];
        Advance();
      }
      RunEndUnique(input, start, IdentifierRun, position);
      var kind := if result in Keywords then KEYWORD else IDENTIFIER;
      t := Token(kind, result, line, column);
    }

    method ReadString() returns (t: Token)
      requires Valid() && currentChar.Some?
      modifies this
      ensures Valid() && (t, Here()) == StringToken(input, old(Here()), old(currentChar).value)
    {
      var quote := currentChar.value;
      Advance();
      ghost var first := Here();
      var result := "";
      while currentChar.Some? && currentChar.value != quote
        invariant Valid()
        invariant first.position <= position
        invariant StringBody(input, Here(), quote, result) == StringBody(input, first, quote, "")
        decreases |input| + 2 - position
      {
        if currentChar.value == '\\' {
          Advance();
          if currentChar == Some('n') {
            result := result + "\n";
          } else if currentChar == Some('t') {
            result := result + "\t";
          } else if currentChar == Some('r') {
            result := result + "\r";
          } else if currentChar.Some? {
            result := result + [currentChar.value];
          } else {
            result := result + "null";
          }
        } else {
          result := result + [currentChar.value];
        }
        Advance();
      }
      Advance();
      t := Token(STRING, result, line, column);
    }

    method GetNextToken() returns (r: Result<Token, LexError>)
      requires Valid()
      modifies this
      ensures Valid() && (r, Here()) == Scan(input, old(Here()))
    {
      while currentChar.Some?
        invariant Valid()
        invariant Scan(input, Here()) == Scan(input, old(Here()))
        decreases |input| - position
      {
        var ch := currentChar.value;
        if IsWhitespace(ch) {
          ghost var before := Here();
          SkipWhitespace();
          SkipSpacesIdempotent(input, before);
          continue;
        }
        if IsDigit(ch) {
          var t := ReadNumber();
          return Ok(t);
        }
        if IsIdentifierStart(ch) {
          var t := ReadIdentifier();
          return Ok(t);
        }
        if IsQuote(ch) {
          var t := ReadString();
          return Ok(t);
        }
        if IsOperatorChar(ch) {
          ghost var s := Here();
          assert Scan(input, s) == (Ok(OperatorToken(input, s, ch).0), OperatorToken(input, s, ch).1);
          var op := [ch];
          Advance();
          if currentChar == Some('=') || (ch == '&' && currentChar == Some('&'))
             || (ch == '|' && currentChar == Some('|')) {
            assert ExtendsOperator(ch, CharAt(input, position));
            op := op + [currentChar.value];
            Advance();
            assert op == [ch, CharAt(input, position - 1).value];
          } else {
            assert !ExtendsOperator(ch, CharAt(input, position));
          }
          return Ok(Token(OPERATOR, op, line, column));
        }
        if IsDelimiter(ch) {
          Advance();
          return Ok(Token(DELIMITER, [ch], line, column));
        }
        return Err(UnexpectedCharacter(ch, line, column));
      }
      return Ok(Token(EOF, "", line, column));
    }
  }
}
