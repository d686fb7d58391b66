/** Properties of the lexer of src/compiler/lexer.js, stated about Scan, the
    function that GetNextToken is proved to compute. */
module LexerProperties {
  import opened Wrappers
  import opened Lexing

  /** Once only whitespace is left, GetNextToken returns EOF, and every later
      call returns the same EOF token without moving the cursor. */
  lemma EofIsSticky(input: string, c: Cursor)
    requires Scan(input, c).0.Ok? && Scan(input, c).0.value.kind == EOF
    ensures Scan(input, Scan(input, c).1) == Scan(input, c)
    ensures Scan(input, c).1 == SkipSpaces(input, c)
  {
  }

  /** At or past the end of the input the lexer answers EOF at once. */
  lemma EofAtEnd(input: string, c: Cursor)
    requires c.position >= |input|
    ensures Scan(input, c) == (Ok(Token(EOF, "", c.line, c.column)), c)
  {
  }

  // ---------------------------------------------------------------------
  // The branches of the dispatch, one lemma each

  /** The character classes of the dispatch do not overlap. */
  lemma ClassesDisjoint(ch: char)
    ensures IsDigit(ch) ==> !IsIdentifierStart(ch) && !IsQuote(ch) && !IsOperatorChar(ch) && !IsDelimiter(ch)
    ensures IsIdentifierStart(ch) ==> !IsQuote(ch) && !IsOperatorChar(ch) && !IsDelimiter(ch)
    ensures IsQuote(ch) ==> !IsOperatorChar(ch) && !IsDelimiter(ch)
    ensures IsOperatorChar(ch) ==> !IsDelimiter(ch)
  {
  }

  lemma DispatchNumber(input: string, s: Cursor)
    requires s.position < |input| && IsDigit(input[s.position])
    ensures Dispatch(input, s) == (Ok(NumberToken(input, s).0), NumberToken(input, s).1)
  {
    assert CharAt(input, s.position) == Some(input[s.position]);
  }

  lemma DispatchIdentifier(input: string, s: Cursor)
    requires s.position < |input| && IsIdentifierStart(input[s.position])
    ensures Dispatch(input, s) == (Ok(IdentifierToken(input, s).0), IdentifierToken(input, s).1)
  {
    assert CharAt(input, s.position) == Some(input[s.position]);
    ClassesDisjoint(input[s.position]);
  }

  lemma DispatchString(input: string, s: Cursor)
    requires s.position < |input| && IsQuote(input[s.position])
    ensures var q := input[s.position];
            Dispatch(input, s) == (Ok(StringToken(input, s, q).0), StringToken(input, s, q).1)
  {
    assert CharAt(input, s.position) == Some(input[s.position]);
    ClassesDisjoint(input[s.position]);
  }

  lemma DispatchOperator(input: string, s: Cursor)
    requires s.position < |input| && IsOperatorChar(input[s.position])
    ensures var op := input[s.position];
            Dispatch(input, s) == (Ok(OperatorToken(input, s, op).0), OperatorToken(input, s, op).1)
  {
    assert CharAt(input, s.position) == Some(input[s.position]);
    ClassesDisjoint(input[s.position]);
  }

  lemma DispatchDelimiter(input: string, s: Cursor)
    requires s.position < |input| && IsDelimiter(input[s.position])
    ensures var d := input[s.position];
            Dispatch(input, s) == (Ok(DelimiterToken(input, s, d).0), DelimiterToken(input, s, d).1)
  {
    assert CharAt(input, s.position) == Some(input[s.position]);
    ClassesDisjoint(input[s.position]);
  }

  lemma DispatchOther(input: string, s: Cursor)
    requires s.position < |input|
    requires var ch := input[s.position];
             !IsDigit(ch) && !IsIdentifierStart(ch) && !IsQuote(ch) && !IsOperatorChar(ch) && !IsDelimiter(ch)
    ensures Dispatch(input, s) == (Err(UnexpectedCharacter(input[s.position], s.line, s.column)), s)
  {
    assert CharAt(input, s.position) == Some(input[s.position]);
  }

  /** The kind of the next token is decided by the class of the first
      character after the whitespace, and a character of no class is the
      one error the lexer raises, reported at the cursor on that character. */
  lemma ScanClassifies(input: string, c: Cursor)
    ensures var s := SkipSpaces(input, c);
            var r := Scan(input, c).0;
            && (s.position >= |input| <==> r.Ok? && r.value.kind == EOF)
            && (s.position < |input| ==>
                  var ch := input[s.position];
                  && (IsDigit(ch) <==> r.Ok? && r.value.kind == NUMBER)
                  && (IsIdentifierStart(ch) <==> r.Ok? && (r.value.kind == IDENTIFIER || r.value.kind == KEYWORD))
                  && (IsQuote(ch) <==> r.Ok? && r.value.kind == STRING)
                  && (IsOperatorChar(ch) <==> r.Ok? && r.value.kind == OPERATOR)
                  && (IsDelimiter(ch) <==> r.Ok? && r.value.kind == DELIMITER)
                  && (r.Err? <==> !IsDigit(ch) && !IsIdentifierStart(ch) && !IsQuote(ch)
                                  && !IsOperatorChar(ch) && !IsDelimiter(ch))
                  && (r.Err? ==> r.error == UnexpectedCharacter(ch, s.line, s.column)))
  {
    var s := SkipSpaces(input, c);
    assert Scan(input, c) == Dispatch(input, s);
    if s.position < |input| {
      var ch := input[s.position];
      ClassesDisjoint(ch);
      if IsDigit(ch) {
        DispatchNumber(input, s);
      } else if IsIdentifierStart(ch) {
        DispatchIdentifier(input, s);
      } else if IsQuote(ch) {
        DispatchString(input, s);
      } else if IsOperatorChar(ch) {
        DispatchOperator(input, s);
      } else if IsDelimiter(ch) {
        DispatchDelimiter(input, s);
      } else {
        DispatchOther(input, s);
      }
    }
  }

  /** An operator token is one or two characters of the input; the second
      is taken exactly when it is `=` or doubles `&` or `|`. */
  lemma OperatorMunch(input: string, c: Cursor)
    requires Scan(input, c).0.Ok? && Scan(input, c).0.value.kind == OPERATOR
    ensures var s := SkipSpaces(input, c).position;
            var t := Scan(input, c).0.value;
            && s < |input| && IsOperatorChar(input[s])
            && 1 <= |t.text| <= 2
            && Scan(input, c).1.position == s + |t.text| <= |input|
            && t.text == input[s..s + |t.text|]
            && (|t.text| == 2 <==> ExtendsOperator(input[s], CharAt(input, s + 1)))
  {
    var s := SkipSpaces(input, c);
    assert Scan(input, c) == Dispatch(input, s);
    DispatchOperatorKind(input, s);
    DispatchOperator(input, s);
    OperatorTokenText(input, s, input[s.position]);
  }

  /** Only an operator character makes the dispatch answer OPERATOR. */
  lemma DispatchOperatorKind(input: string, s: Cursor)
    ensures Dispatch(input, s).0.Ok? && Dispatch(input, s).0.value.kind == OPERATOR
            ==> s.position < |input| && IsOperatorChar(input[s.position])
  {
    if s.position < |input| {
      var ch := input[s.position];
      ClassesDisjoint(ch);
      if IsDigit(ch) {
        DispatchNumber(input, s);
      } else if IsIdentifierStart(ch) {
        DispatchIdentifier(input, s);
      } else if IsQuote(ch) {
        DispatchString(input, s);
      } else if IsDelimiter(ch) {
        DispatchDelimiter(input, s);
      } else if !IsOperatorChar(ch) {
        DispatchOther(input, s);
      }
    } else {
      assert CharAt(input, s.position) == None;
    }
  }

  /** The operator branch takes one character, or two when the second extends the first. */
  lemma OperatorTokenText(input: string, s: Cursor, op: char)
    requires s.position < |input| && input[s.position] == op
    ensures var (t, c) := OperatorToken(input, s, op);
            && t.kind == OPERATOR && 1 <= |t.text| <= 2
            && c.position == s.position + |t.text| <= |input|
            && t.text == input[s.position..s.position + |t.text|]
            && (|t.text| == 2 <==> ExtendsOperator(op, CharAt(input, s.position + 1)))
  {
    if ExtendsOperator(op, CharAt(input, s.position + 1)) {
      var w := input[s.position..s.position + 2];
      assert w[0] == op && w[1] == input[s.position + 1];
      assert w == [op, input[s.position + 1]];
    } else {
      var w := input[s.position..s.position + 1];
      assert w[0] == op;
      assert w == [op];
    }
  }

  /** An identifier token is a letter or underscore followed by the maximal
      run of letters, digits and underscores; it is a KEYWORD exactly when
      its text is reserved. */
  lemma IdentifierMunch(input: string, c: Cursor)
    requires Scan(input, c).0.Ok?
    requires Scan(input, c).0.value.kind == IDENTIFIER || Scan(input, c).0.value.kind == KEYWORD
    ensures var s := SkipSpaces(input, c).position;
            var e := Scan(input, c).1.position;
            var t := Scan(input, c).0.value;
            && s < e <= |input|
            && t.text == input[s..e]
            && IsIdentifierStart(input[s])
            && (forall i :: s <= i < e ==> IsIdentifierChar(input[i]))
            && (e == |input| || !IsIdentifierChar(input[e]))
            && (t.kind == KEYWORD <==> t.text in Keywords)
  {
  }

  /** A number token's lexeme is the maximal run of digits and dots that
      starts at a digit; any number of dots is taken. */
  lemma NumberMunch(input: string, c: Cursor)
    requires Scan(input, c).0.Ok? && Scan(input, c).0.value.kind == NUMBER
    ensures var s := SkipSpaces(input, c).position;
            var e := Scan(input, c).1.position;
            var t := Scan(input, c).0.value;
            && s < e <= |input|
            && t.text == input[s..e]
            && IsDigit(input[s])
            && (forall i :: s <= i < e ==> IsNumberChar(input[i]))
            && (e == |input| || !IsNumberChar(input[e]))
  {
  }

  /** `<=` is a single operator token. */
  lemma LessEqualIsOneToken()
    ensures Scan("<=", Start) == (Ok(Token(OPERATOR, "<=", 1, 3)), Cursor(2, 1, 3))
  {
    LessEqualIsOneTokenIn("<=");
  }

  lemma LessEqualIsOneTokenIn(input: string)
    requires Spells(input, "<=")
    ensures Scan(input, Start) == (Ok(Token(OPERATOR, "<=", 1, 3)), Cursor(2, 1, 3))
  {
    assert SkipSpaces(input, Start) == Start;
    DispatchOperator(input, Start);
    assert ExtendsOperator('<', CharAt(input, 1));
  }

  /** `&&` is a single operator token. */
  lemma AndAndIsOneToken()
    ensures Scan("&&", Start) == (Ok(Token(OPERATOR, "&&", 1, 3)), Cursor(2, 1, 3))
  {
    AndAndIsOneTokenIn("&&");
  }

  lemma AndAndIsOneTokenIn(input: string)
    requires Spells(input, "&&")
    ensures Scan(input, Start) == (Ok(Token(OPERATOR, "&&", 1, 3)), Cursor(2, 1, 3))
  {
    assert SkipSpaces(input, Start) == Start;
    DispatchOperator(input, Start);
    assert ExtendsOperator('&', CharAt(input, 1));
  }

  /** `++` is two operator tokens. */
  lemma PlusPlusSplits()
    ensures Scan("++", Start) == (Ok(Token(OPERATOR, "+", 1, 2)), Cursor(1, 1, 2))
    ensures Scan("++", Cursor(1, 1, 2)) == (Ok(Token(OPERATOR, "+", 1, 3)), Cursor(2, 1, 3))
  {
    PlusPlusSplitsIn("++");
  }

  lemma PlusPlusSplitsIn(input: string)
    requires Spells(input, "++")
    ensures Scan(input, Start) == (Ok(Token(OPERATOR, "+", 1, 2)), Cursor(1, 1, 2))
    ensures Scan(input, Cursor(1, 1, 2)) == (Ok(Token(OPERATOR, "+", 1, 3)), Cursor(2, 1, 3))
  {
    assert SkipSpaces(input, Start) == Start;
    DispatchOperator(input, Start);
    assert !ExtendsOperator('+', CharAt(input, 1));
    assert SkipSpaces(input, Cursor(1, 1, 2)) == Cursor(1, 1, 2);
    DispatchOperator(input, Cursor(1, 1, 2));
    assert !ExtendsOperator('+', CharAt(input, 2));
  }

  /** `===` is `==` followed by `=`: an operator never has three characters. */
  lemma TripleEqualsSplits()
    ensures Scan("===", Start) == (Ok(Token(OPERATOR, "==", 1, 3)), Cursor(2, 1, 3))
    ensures Scan("===", Cursor(2, 1, 3)) == (Ok(Token(OPERATOR, "=", 1, 4)), Cursor(3, 1, 4))
  {
    TripleEqualsSplitsIn("===");
  }

  lemma TripleEqualsSplitsIn(input: string)
    requires Spells(input, "===")
    ensures Scan(input, Start) == (Ok(Token(OPERATOR, "==", 1, 3)), Cursor(2, 1, 3))
    ensures Scan(input, Cursor(2, 1, 3)) == (Ok(Token(OPERATOR, "=", 1, 4)), Cursor(3, 1, 4))
  {
    assert SkipSpaces(input, Start) == Start;
    DispatchOperator(input, Start);
    assert ExtendsOperator('=', CharAt(input, 1));
    assert SkipSpaces(input, Cursor(2, 1, 3)) == Cursor(2, 1, 3);
    DispatchOperator(input, Cursor(2, 1, 3));
    assert !ExtendsOperator('=', CharAt(input, 3));
  }

  /** A number lexeme may hold several dots: `1.2.3` is one NUMBER token. */
  lemma SeveralDotsOneNumber()
    ensures Scan("1.2.3;", Start) == (Ok(Token(NUMBER, "1.2.3", 1, 6)), Cursor(5, 1, 6))
  {
    SeveralDotsOneNumberIn("1.2.3;");
  }

  lemma SeveralDotsOneNumberIn(input: string)
    requires Spells(input, "1.2.3;")
    ensures Scan(input, Start) == (Ok(Token(NUMBER, "1.2.3", 1, 6)), Cursor(5, 1, 6))
  {
    assert SkipSpaces(input, Start) == Start;
    DispatchNumber(input, Start);
    SeveralDotsNumberTokenIn(input);
  }

  lemma SeveralDotsNumberTokenIn(input: string)
    requires Spells(input, "1.2.3;")
    ensures NumberToken(input, Start) == (Token(NUMBER, "1.2.3", 1, 6), Cursor(5, 1, 6))
  {
    assert forall i :: 0 <= i < 5 ==> InRun(NumberRun, input[i]);
    assert !InRun(NumberRun, input[5]);
    RunEndUnique(input, 0, NumberRun, 5);
    assert input[0..5] == "1.2.3";
  }

  // ---------------------------------------------------------------------
  // Strings

  /** How a string's contents are written between quotes so that the lexer
      reads them back: a backslash and the quote are escaped, and newline,
      tab and carriage return are written as `\n`, `\t` and `\r`. */
  function EscapeChar(ch: char, quote: char): (r: string)
    requires IsQuote(quote)
    ensures |r| >= 1 && r[0] != quote
  {
    if ch == '\\' || ch == quote then ['\\', ch]
    else if ch == '\n' then "\\n"
    else if ch == '\t' then "\\t"
    else if ch == '\r' then "\\r"
    else [ch]
  }

  function Escape(s: string, quote: char): string
    requires IsQuote(quote)
  {
    if s == [] then [] else EscapeChar(s[0], quote) + Escape(s[1..], quote)
  }
  /** `w` stands in the input from position p on. */
  predicate Holds(input: string, p: nat, w: string) {
    p + |w| <= |input| && forall i {:trigger w[i]} :: 0 <= i < |w| ==> input[p + i] == w[i]
  }

  /** The input is the text `w`, character by character. */
  predicate Spells(input: string, w: string) {
    |input| == |w| && forall i :: 0 <= i < |w| ==> input[i] == w[i]
  }

  lemma HoldsSplit(input: string, p: nat, a: string, b: string)
    requires Holds(input, p, a + b)
    ensures Holds(input, p, a) && Holds(input, p + |a|, b)
  {
    forall i | 0 <= i < |a|
      ensures input[p + i] == a[i]
    {
      assert (a + b)[i] == a[i];
    }
    forall i | 0 <= i < |b|
      ensures input[p + |a| + i] == b[i]
    {
      assert (a + b)[|a| + i] == b[i];
    }
  }

  /** One escaped character: the string loop steps over its one or two
      characters and appends exactly that character. */
  lemma StringBodyPiece(input: string, c: Cursor, quote: char, acc: string, ch: char) returns (c': Cursor)
    requires IsQuote(quote)
    requires Holds(input, c.position, EscapeChar(ch, quote))
    ensures c'.position == c.position + |EscapeChar(ch, quote)|
    ensures StringBody(input, c, quote, acc) == StringBody(input, c', quote, acc + [ch])
  {
    var e := EscapeChar(ch, quote);
    var p := c.position;
    assert input[p + 0] == e[0];
    if |e| == 2 {
      var c1 := Step(input, c);
      assert input[p] == '\\';
      assert input[p + 1] == e[1];
      assert CharAt(input, c1.position) == Some(e[1]);
      assert EscapePiece(Some(e[1])) == [ch];
      c' := Step(input, c1);
    } else {
      assert input[p] == ch && ch != quote && ch != '\\';
      c' := Step(input, c);
    }
  }

  /** Past the first written character of `s`, the rest of the escaped
      text stands ahead of the cursor. */
  lemma EscapeStep(input: string, p: nat, quote: char, s: string)
    requires IsQuote(quote) && s != []
    requires Holds(input, p, Escape(s, quote))
    ensures Holds(input, p, EscapeChar(s[0], quote))
    ensures Holds(input, p + |EscapeChar(s[0], quote)|, Escape(s[1..], quote))
    ensures |EscapeChar(s[0], quote)| + |Escape(s[1..], quote)| == |Escape(s, quote)|
  {
    HoldsSplit(input, p, EscapeChar(s[0], quote), Escape(s[1..], quote));
  }

  /** The first written character of an escaped text: the string loop
      reads it and stands on the rest. */
  lemma StringBodyHead(input: string, c: Cursor, quote: char, acc: string, s: string) returns (c': Cursor)
    requires IsQuote(quote) && s != []
    requires Holds(input, c.position, Escape(s, quote))
    ensures Holds(input, c'.position, Escape(s[1..], quote))
    ensures c'.position + |Escape(s[1..], quote)| == c.position + |Escape(s, quote)|
    ensures StringBody(input, c, quote, acc) == StringBody(input, c', quote, acc + [s[0]])
  {
    EscapeStep(input, c.position, quote, s);
    c' := StringBodyPiece(input, c, quote, acc, s[0]);
  }

  /** The string loop reads an escaped text back, character for character,
      and stops on the quote that follows it. */
  lemma {:induction false} StringBodyReadsEscape(input: string, c: Cursor, quote: char, acc: string, s: string)
    requires IsQuote(quote)
    requires Holds(input, c.position, Escape(s, quote))
    requires c.position + |Escape(s, quote)| < |input| && input[c.position + |Escape(s, quote)|] == quote
    ensures StringBody(input, c, quote, acc).0 == acc + s
    ensures StringBody(input, c, quote, acc).1.position == c.position + |Escape(s, quote)|
    decreases s
  {
    if s == [] {
      StringBodyStops(input, c, quote, acc);
    } else {
      var c' := StringBodyHead(input, c, quote, acc, s);
      StringBodyReadsEscape(input, c', quote, acc + [s[0]], s[1..]);
      ConsTail(acc, s);
    }
  }

  lemma ConsTail(acc: string, s: string)
    requires s != []
    ensures acc + [s[0]] + s[1..] == acc + s
  {
    assert [s[0]] + s[1..] == s;
  }

  /** A quote at the start of the input opens a string literal. */
  lemma ScanOpensString(input: string, quote: char)
    requires IsQuote(quote) && |input| > 0 && input[0] == quote
    ensures Scan(input, Start) == (Ok(StringToken(input, Start, quote).0), StringToken(input, Start, quote).1)
  {
    assert SkipSpaces(input, Start) == Start;
    assert CharAt(input, 0) == Some(quote);
  }

  /** The middle part of a concatenation stands where it was put. */
  lemma HoldsInside(a: string, w: string, b: string)
    ensures Holds(a + w + b, |a|, w)
  {
    forall i | 0 <= i < |w|
      ensures (a + w + b)[|a| + i] == w[i]
    {
    }
  }

  /** Round trip: a string literal written with Escape lexes back to exactly
      its contents, and the lexer stops just after the closing quote. */
  lemma StringRoundTrip(s: string, quote: char, rest: string)
    requires IsQuote(quote)
    ensures var input := [quote] + Escape(s, quote) + [quote] + rest;
            var (r, c) := Scan(input, Start);
            r.Ok? && r.value.kind == STRING && r.value.text == s
            && c.position == |Escape(s, quote)| + 2
  {
    var e := Escape(s, quote);
    var input := [quote] + e + ([quote] + rest);
    assert input == [quote] + e + [quote] + rest;
    HoldsInside([quote], e, [quote] + rest);
    assert input[1 + |e|] == quote;
    var c1 := Step(input, Start);
    assert c1.position == 1;
    StringBodyReadsEscape(input, c1, quote, "", s);
    ScanOpensString(input, quote);
  }

  /** One escape sequence of the string loop: a backslash and the character after it. */
  lemma StringBodyEscape(input: string, c: Cursor, quote: char, acc: string)
    requires c.position < |input| && input[c.position] == '\\' && quote != '\\'
    ensures StringBody(input, c, quote, acc)
         == StringBody(input, Step(input, Step(input, c)), quote, acc + EscapePiece(CharAt(input, c.position + 1)))
  {
  }

  /** The string loop stops on the quote and at the end of the input. */
  lemma StringBodyStops(input: string, c: Cursor, quote: char, acc: string)
    requires c.position >= |input| || input[c.position] == quote
    ensures StringBody(input, c, quote, acc) == (acc, c)
  {
  }

  /** `\n` decodes to a newline character. */
  lemma EscapedNewline()
    ensures Scan("'\\n'", Start) == (Ok(Token(STRING, "\n", 1, 5)), Cursor(4, 1, 5))
  {
    EscapedNewlineIn("'\\n'");
  }

  lemma EscapedNewlineIn(input: string)
    requires Spells(input, "'\\n'")
    ensures Scan(input, Start) == (Ok(Token(STRING, "\n", 1, 5)), Cursor(4, 1, 5))
  {
    ScanOpensString(input, '\'');
    assert Step(input, Start) == Cursor(1, 1, 2);
    StringBodyEscape(input, Cursor(1, 1, 2), '\'', "");
    assert Step(input, Step(input, Cursor(1, 1, 2))) == Cursor(3, 1, 4);
    assert "" + EscapePiece(CharAt(input, 2)) == "\n";
    StringBodyStops(input, Cursor(3, 1, 4), '\'', "\n");
    assert Step(input, Cursor(3, 1, 4)) == Cursor(4, 1, 5);
  }

  /** An escaped character without a meaning of its own is kept: `\q` is `q`. */
  lemma EscapedOtherKept()
    ensures Scan("'\\q'", Start) == (Ok(Token(STRING, "q", 1, 5)), Cursor(4, 1, 5))
  {
    EscapedOtherKeptIn("'\\q'");
  }

  lemma EscapedOtherKeptIn(input: string)
    requires Spells(input, "'\\q'")
    ensures Scan(input, Start) == (Ok(Token(STRING, "q", 1, 5)), Cursor(4, 1, 5))
  {
    ScanOpensString(input, '\'');
    assert Step(input, Start) == Cursor(1, 1, 2);
    StringBodyEscape(input, Cursor(1, 1, 2), '\'', "");
    assert Step(input, Step(input, Cursor(1, 1, 2))) == Cursor(3, 1, 4);
    assert "" + EscapePiece(CharAt(input, 2)) == "q";
    StringBodyStops(input, Cursor(3, 1, 4), '\'', "q");
    assert Step(input, Cursor(3, 1, 4)) == Cursor(4, 1, 5);
  }

  /** A backslash that ends the input appends the text "null" (JavaScript's
      rendering of the missing character), and the cursor ends two past the end. */
  lemma TrailingBackslash()
    ensures Scan("\"\\", Start) == (Ok(Token(STRING, "null", 1, 5)), Cursor(4, 1, 5))
  {
    TrailingBackslashIn("\"\\");
  }

  lemma TrailingBackslashIn(input: string)
    requires Spells(input, "\"\\")
    ensures Scan(input, Start) == (Ok(Token(STRING, "null", 1, 5)), Cursor(4, 1, 5))
  {
    ScanOpensString(input, '"');
    assert Step(input, Start) == Cursor(1, 1, 2);
    StringBodyEscape(input, Cursor(1, 1, 2), '"', "");
    assert Step(input, Step(input, Cursor(1, 1, 2))) == Cursor(3, 1, 4);
    assert "" + EscapePiece(CharAt(input, 2)) == "null";
    StringBodyStops(input, Cursor(3, 1, 4), '"', "null");
    assert Step(input, Cursor(3, 1, 4)) == Cursor(4, 1, 5);
  }

  /** An unterminated string consumes the rest of the input without an
      error; the cursor ends one past the end of the input. */
  lemma {:induction false} UnterminatedBody(input: string, c: Cursor, quote: char, acc: string)
    requires c.position <= |input|
    requires forall i :: c.position <= i < |input| ==> input[i] != quote && input[i] != '\\'
    ensures StringBody(input, c, quote, acc).0 == acc + input[c.position..]
    ensures StringBody(input, c, quote, acc).1.position == |input|
    decreases |input| - c.position
  {
    if c.position < |input| {
      UnterminatedBody(input, Step(input, c), quote, acc + [input[c.position]]);
      assert acc + [input[c.position]] + input[c.position + 1..] == acc + input[c.position..];
    }
  }

  lemma UnterminatedString(input: string, c: Cursor)
    requires c.position < |input| && IsQuote(input[c.position])
    requires forall i :: c.position < i < |input| ==> input[i] != input[c.position] && input[i] != '\\'
    ensures var (r, c') := Scan(input, c);
            r == Ok(Token(STRING, input[c.position + 1..], c'.line, c'.column))
            && c'.position == |input| + 1
  {
    assert SkipSpaces(input, c) == c;
    DispatchString(input, c);
    UnterminatedBody(input, Step(input, c), input[c.position], "");
    assert "" + input[c.position + 1..] == input[c.position + 1..];
  }

  // ---------------------------------------------------------------------
  // Line and column

  /** The 1-based line on which the text after `t` continues. */
  function LineOf(t: string): (n: nat)
    ensures n >= 1
  {
    if t == [] then 1 else LineOf(t[..|t| - 1]) + (if t[|t| - 1] == '\n' then 1 else 0)
  }

  /** The 1-based column at which the text after `t` continues. */
  function ColumnOf(t: string): (n: nat)
    ensures n >= 1
  {
    if t == [] then 1 else if t[|t| - 1] == '\n' then 1 else ColumnOf(t[..|t| - 1]) + 1
  }

  /** The true coordinates of position p of the input. */
  function At(input: string, p: nat): Cursor
    requires p <= |input|
  {
    Cursor(p, LineOf(input[..p]), ColumnOf(input[..p]))
  }

  lemma StepAt(input: string, p: nat)
    requires p < |input|
    ensures Step(input, At(input, p)) == At(input, p + 1)
  {
    assert input[..p + 1][..p] == input[..p];
  }

  lemma {:induction false} SkipSpacesAt(input: string, c: Cursor)
    requires c.position <= |input| && c == At(input, c.position)
    ensures SkipSpaces(input, c).position <= |input|
    ensures SkipSpaces(input, c) == At(input, SkipSpaces(input, c).position)
    decreases |input| - c.position
  {
    if c.position < |input| && IsWhitespace(input[c.position]) {
      StepAt(input, c.position);
      SkipSpacesAt(input, Step(input, c));
    }
  }

  /** Over a stretch without newlines, coordinates move only to the right. */
  lemma {:induction false} NoNewlineAt(input: string, p: nat, e: nat)
    requires p <= e <= |input|
    requires forall i :: p <= i < e ==> input[i] != '\n'
    ensures At(input, e) == Cursor(e, At(input, p).line, At(input, p).column + (e - p))
    decreases e - p
  {
    if p < e {
      NoNewlineAt(input, p, e - 1);
      StepAt(input, e - 1);
    }
  }

  lemma {:induction false} StringBodyAt(input: string, c: Cursor, quote: char, acc: string)
    requires c.position <= |input| && c == At(input, c.position)
    ensures var c' := StringBody(input, c, quote, acc).1;
            c'.position <= |input| ==> c' == At(input, c'.position)
    decreases |input| + 2 - c.position
  {
    if c.position < |input| && input[c.position] != quote {
      StepAt(input, c.position);
      var c1 := Step(input, c);
      if input[c.position] == '\\' {
        if c1.position < |input| {
          StepAt(input, c1.position);
          StringBodyAt(input, Step(input, c1), quote, acc + EscapePiece(CharAt(input, c1.position)));
        }
      } else {
        StringBodyAt(input, c1, quote, acc + [input[c.position]]);
      }
    }
  }

  lemma NumberTokenAt(input: string, s: Cursor)
    requires s.position < |input| && s == At(input, s.position)
    ensures NumberToken(input, s).1 == At(input, NumberToken(input, s).1.position)
  {
    NoNewlineAt(input, s.position, RunEnd(input, s.position, NumberRun));
  }

  lemma IdentifierTokenAt(input: string, s: Cursor)
    requires s.position < |input| && s == At(input, s.position)
    ensures IdentifierToken(input, s).1 == At(input, IdentifierToken(input, s).1.position)
  {
    NoNewlineAt(input, s.position, RunEnd(input, s.position, IdentifierRun));
  }

  lemma StringTokenAt(input: string, s: Cursor, quote: char)
    requires s.position < |input| && s == At(input, s.position)
    ensures var c := StringToken(input, s, quote).1;
            c.position <= |input| ==> c == At(input, c.position)
  {
    StepAt(input, s.position);
    var c2 := StringBody(input, Step(input, s), quote, "").1;
    StringBodyAt(input, Step(input, s), quote, "");
    if c2.position < |input| {
      StepAt(input, c2.position);
    }
  }

  lemma OperatorTokenAt(input: string, s: Cursor, op: char)
    requires s.position < |input| && s == At(input, s.position)
    ensures var c := OperatorToken(input, s, op).1;
            c.position <= |input| ==> c == At(input, c.position)
  {
    StepAt(input, s.position);
    if s.position + 1 < |input| {
      StepAt(input, s.position + 1);
    }
  }

  lemma DelimiterTokenAt(input: string, s: Cursor, d: char)
    requires s.position < |input| && s == At(input, s.position)
    ensures DelimiterToken(input, s, d).1 == At(input, s.position + 1)
  {
    StepAt(input, s.position);
  }

  /** Started from the true coordinates, the lexer keeps reporting true
      coordinates: after each token its cursor is the line and column of
      its position, as long as that position is within the input. */
  lemma ScanTracksCoordinates(input: string, c: Cursor)
    requires c.position <= |input| && c == At(input, c.position)
    ensures var c' := Scan(input, c).1;
            c'.position <= |input| ==> c' == At(input, c'.position)
  {
    var s := SkipSpaces(input, c);
    SkipSpacesAt(input, c);
    assert Scan(input, c) == Dispatch(input, s);
    if s.position < |input| {
      var ch := input[s.position];
      if IsDigit(ch) {
        DispatchNumber(input, s);
        NumberTokenAt(input, s);
      } else if IsIdentifierStart(ch) {
        DispatchIdentifier(input, s);
        IdentifierTokenAt(input, s);
      } else if IsQuote(ch) {
        DispatchString(input, s);
        StringTokenAt(input, s, ch);
      } else if IsOperatorChar(ch) {
        DispatchOperator(input, s);
        OperatorTokenAt(input, s, ch);
      } else if IsDelimiter(ch) {
        DispatchDelimiter(input, s);
        DelimiterTokenAt(input, s, ch);
      } else {
        DispatchOther(input, s);
      }
    }
  }

  /** The error for an unexpected character names the character and the
      line and column at which it stands in the input. */
  lemma LexErrorPosition(input: string, c: Cursor)
    requires c.position <= |input| && c == At(input, c.position)
    requires Scan(input, c).0.Err?
    ensures var q := SkipSpaces(input, c).position;
            var e := Scan(input, c).0.error;
            && q < |input| && e.ch == input[q]
            && e.line == LineOf(input[..q]) && e.column == ColumnOf(input[..q])
  {
    SkipSpacesAt(input, c);
  }

  /** The unexpected character `@` on the second line is reported at line 2,
      column 3. */
  lemma LexErrorExample()
    ensures Scan("x\n  @", Cursor(1, 1, 2)).0 == Err(UnexpectedCharacter('@', 2, 3))
  {
    LexErrorExampleIn("x\n  @");
  }

  lemma LexErrorExampleIn(input: string)
    requires Spells(input, "x\n  @")
    ensures Scan(input, Cursor(1, 1, 2)).0 == Err(UnexpectedCharacter('@', 2, 3))
  {
    assert SkipSpaces(input, Cursor(3, 2, 2)) == Cursor(4, 2, 3);
    assert SkipSpaces(input, Cursor(1, 1, 2)) == Cursor(4, 2, 3);
    DispatchOther(input, Cursor(4, 2, 3));
  }
}
