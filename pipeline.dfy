/** The three stages together: the tokens the lexer of
    src/compiler/lexer.js yields for a source text, which the parser of
    src/compiler/parser.js pulls one at a time. */
module Pipeline {
  import opened Wrappers
  import opened Lexing
  import opened Parsing
  import ParserProperties
  import LexerProperties
  import Interpreting

  /** A token the lexer can yield: a keyword is one of `Keywords`, and an
      identifier is never the built-in's Devanagari name. */
  predicate Lexed(t: Token) {
    && (t.kind == KEYWORD ==> t.text in Keywords)
    && (t.kind == IDENTIFIER ==> t.text != Interpreting.PrintName)
  }

  /** Every token Scan yields is Lexed. */
  lemma ScanLexed(input: string, c: Cursor)
    ensures Scan(input, c).0.Ok? ==> Lexed(Scan(input, c).0.value)
  {
    var r := Scan(input, c);
    if r.0.Ok? && r.0.value.kind == IDENTIFIER {
      LexerProperties.IdentifierMunch(input, c);
      var p := SkipSpaces(input, c).position;
      assert r.0.value.text[0] == input[p] && IsIdentifierChar(input[p]);
      assert !IsIdentifierChar(Interpreting.PrintName[0]);
    }
  }

  /** The successive results of `getNextToken` from cursor `c`, after the
      tokens `done`: up to and including EOF, or up to the first throw. */
  function TokensFrom(input: string, c: Cursor, done: seq<Token>): (s: Stream)
    requires c.position <= |input| + 2
    requires forall i :: 0 <= i < |done| ==> done[i].kind != EOF && Lexed(done[i])
    ensures s.Valid() && |s.tokens| >= |done| && s.tokens[..|done|] == done
    ensures forall i :: 0 <= i < |s.tokens| ==> Lexed(s.tokens[i])
    decreases |input| + 2 - c.position
  {
    ScanLexed(input, c);
    var (r, next) := Scan(input, c);
    match r
    case Err(e) =>
      assert done[..|done|] == done;
      Stream(done, Some(e))
    case Ok(t) =>
      var more := done + [t];
      assert more[..|done|] == done && more[|done|] == t;
      if t.kind == EOF then
        assert more[..|more|] == more;
        Stream(more, None)
      else
        assert forall i :: 0 <= i < |more| ==> more[i].kind != EOF && Lexed(more[i]);
        var s := TokensFrom(input, next, more);
        assert s.tokens[..|done|] == s.tokens[..|more|][..|done|];
        s
  }

  /** The stream a new Lexer yields for `input`. */
  function Tokenize(input: string): (s: Stream)
    ensures s.Valid()
    ensures forall i :: 0 <= i < |s.tokens| ==> Lexed(s.tokens[i])
  {
    TokensFrom(input, Start, [])
  }

  /** The stream, by calling `getNextToken` on a Lexer until EOF or a throw. */
  method LexAll(input: string) returns (s: Stream)
    ensures s == Tokenize(input)
  {
    var lexer := new Lexer(input);
    var tokens: seq<Token> := [];
    while true
      invariant lexer.Valid() && lexer.input == input && lexer.Here().position <= |input| + 2
      invariant forall i :: 0 <= i < |tokens| ==> tokens[i].kind != EOF && Lexed(tokens[i])
      invariant TokensFrom(input, lexer.Here(), tokens) == Tokenize(input)
      decreases |input| + 2 - lexer.Here().position
    {
      ghost var before := lexer.Here();
      ScanLexed(input, before);
      var r := lexer.GetNextToken();
      if r.Err? {
        return Stream(tokens, Some(r.error));
      }
      tokens := tokens + [r.value];
      if r.value.kind == EOF {
        return Stream(tokens, None);
      }
    }
  }

  /** `new Parser(new Lexer(source)).parse()`. */
  function ParseText(source: string): (r: Result<AstNode, ParseError>)
    ensures r.Ok? ==> WfProgram(r.value)
  {
    ParseStream(Tokenize(source))
  }

  /** The parser dispatches declarations on a Devanagari keyword the lexer
      never yields: on lexed tokens a keyword always starts an error. */
  lemma LexedKeywordIsUnexpected(s: Stream, pos: nat)
    requires InStream(s, pos) && Lexed(s.tokens[pos]) && s.tokens[pos].kind == KEYWORD
    ensures StatementAt(s, pos) == Err(UnexpectedKeyword(s.tokens[pos].text))
  {
    assert "कार्य" !in Keywords;
    assert "चर" !in Keywords;
  }

  predicate IsDeclaration(n: AstNode) {
    n.Node? && n.kind == FunctionDeclaration
  }

  /** Hence no program parsed from source text declares a function. */
  lemma {:induction false} NoDeclarationsFromText(s: Stream, pos: nat, stmts: seq<AstNode>, e: nat)
    requires InStream(s, pos) && forall i :: 0 <= i < |s.tokens| ==> Lexed(s.tokens[i])
    requires ParserProperties.StatementChain(s, pos, stmts, ParserProperties.AtEof, e)
    ensures forall i :: 0 <= i < |stmts| ==> !IsDeclaration(stmts[i])
    decreases |stmts|
  {
    if stmts != [] {
      var st := StatementAt(s, pos);
      if s.tokens[pos].kind == KEYWORD {
        LexedKeywordIsUnexpected(s, pos);
      }
      NoDeclarationsFromText(s, st.value.next, stmts[1..], e);
      forall i | 0 <= i < |stmts|
        ensures !IsDeclaration(stmts[i])
      {
        if i > 0 {
          assert stmts[i] == stmts[1..][i - 1];
        }
      }
    }
  }

  lemma ProgramsFromTextDeclareNothing(source: string)
    requires ParseText(source).Ok?
    ensures forall i :: 0 <= i < |ParseText(source).value.children| ==>
              !IsDeclaration(ParseText(source).value.children[i])
  {
    var s := Tokenize(source);
    var p := ParseAt(s, 0).value;
    ParserProperties.ParseIsStatementChain(s, 0, p.node.children, p.next);
    NoDeclarationsFromText(s, 0, p.node.children, p.next);
  }

  // ---------------------------------------------------------------------
  // `a + b * c;`

  const Sample: string := "a + b * c;"

  /** The characters of the sample, one by one. */
  predicate IsSample(input: string) {
    && |input| == 10 && input[0] == 'a' && input[1] == ' ' && input[2] == '+' && input[3] == ' '
    && input[4] == 'b' && input[5] == ' ' && input[6] == '*' && input[7] == ' ' && input[8] == 'c'
    && input[9] == ';'
  }

  function Tok(kind: TokenKind, text: string, column: nat): Token {
    Token(kind, text, 1, column)
  }

  /** A letter followed by a character that cannot continue an identifier
      is a one-letter identifier token. */
  lemma OneLetterIdentifier(input: string, s: Cursor)
    requires s.position + 1 < |input| && !IsIdentifierChar(input[s.position + 1])
    requires IsIdentifierStart(input[s.position]) && [input[s.position]] !in Keywords
    ensures IdentifierToken(input, s)
         == (Token(IDENTIFIER, [input[s.position]], s.line, s.column + 1), Cursor(s.position + 1, s.line, s.column + 1))
  {
    RunEndUnique(input, s.position, IdentifierRun, s.position + 1);
    var w := input[s.position..s.position + 1];
    assert w[0] == input[s.position];
    assert w == [input[s.position]];
  }

  lemma SampleScanA(input: string)
    requires IsSample(input)
    ensures Scan(input, Start) == (Ok(Tok(IDENTIFIER, "a", 2)), Cursor(1, 1, 2))
  {
    assert SkipSpaces(input, Start) == Start;
    LexerProperties.DispatchIdentifier(input, Start);
    assert [input[0]] == "a" && "a" !in Keywords;
    OneLetterIdentifier(input, Start);
  }

  lemma SampleScanPlus(input: string)
    requires IsSample(input)
    ensures Scan(input, Cursor(1, 1, 2)) == (Ok(Tok(OPERATOR, "+", 4)), Cursor(3, 1, 4))
  {
    assert SkipSpaces(input, Cursor(2, 1, 3)) == Cursor(2, 1, 3);
    assert SkipSpaces(input, Cursor(1, 1, 2)) == Cursor(2, 1, 3);
    LexerProperties.DispatchOperator(input, Cursor(2, 1, 3));
    assert !ExtendsOperator('+', CharAt(input, 3));
  }

  lemma SampleScanB(input: string)
    requires IsSample(input)
    ensures Scan(input, Cursor(3, 1, 4)) == (Ok(Tok(IDENTIFIER, "b", 6)), Cursor(5, 1, 6))
  {
    assert SkipSpaces(input, Cursor(4, 1, 5)) == Cursor(4, 1, 5);
    assert SkipSpaces(input, Cursor(3, 1, 4)) == Cursor(4, 1, 5);
    LexerProperties.DispatchIdentifier(input, Cursor(4, 1, 5));
    assert [input[4]] == "b" && "b" !in Keywords;
    OneLetterIdentifier(input, Cursor(4, 1, 5));
  }

  lemma SampleScanTimes(input: string)
    requires IsSample(input)
    ensures Scan(input, Cursor(5, 1, 6)) == (Ok(Tok(OPERATOR, "*", 8)), Cursor(7, 1, 8))
  {
    assert SkipSpaces(input, Cursor(6, 1, 7)) == Cursor(6, 1, 7);
    assert SkipSpaces(input, Cursor(5, 1, 6)) == Cursor(6, 1, 7);
    LexerProperties.DispatchOperator(input, Cursor(6, 1, 7));
    assert !ExtendsOperator('*', CharAt(input, 7));
  }

  lemma SampleScanC(input: string)
    requires IsSample(input)
    ensures Scan(input, Cursor(7, 1, 8)) == (Ok(Tok(IDENTIFIER, "c", 10)), Cursor(9, 1, 10))
  {
    assert SkipSpaces(input, Cursor(8, 1, 9)) == Cursor(8, 1, 9);
    assert SkipSpaces(input, Cursor(7, 1, 8)) == Cursor(8, 1, 9);
    LexerProperties.DispatchIdentifier(input, Cursor(8, 1, 9));
    assert [input[8]] == "c" && "c" !in Keywords;
    OneLetterIdentifier(input, Cursor(8, 1, 9));
  }

  lemma SampleScanSemicolon(input: string)
    requires IsSample(input)
    ensures Scan(input, Cursor(9, 1, 10)) == (Ok(Tok(DELIMITER, ";", 11)), Cursor(10, 1, 11))
  {
    assert SkipSpaces(input, Cursor(9, 1, 10)) == Cursor(9, 1, 10);
    LexerProperties.DispatchDelimiter(input, Cursor(9, 1, 10));
  }

  lemma SampleScanEof(input: string)
    requires IsSample(input)
    ensures Scan(input, Cursor(10, 1, 11)) == (Ok(Tok(EOF, "", 11)), Cursor(10, 1, 11))
  {
    assert SkipSpaces(input, Cursor(10, 1, 11)) == Cursor(10, 1, 11);
  }

  function SampleTokens(): seq<Token> {
    [Tok(IDENTIFIER, "a", 2), Tok(OPERATOR, "+", 4), Tok(IDENTIFIER, "b", 6), Tok(OPERATOR, "*", 8),
     Tok(IDENTIFIER, "c", 10), Tok(DELIMITER, ";", 11), Tok(EOF, "", 11)]
  }

  /** A token other than EOF is recorded and the lexer is called again. */
  lemma TokensFromStep(input: string, c: Cursor, done: seq<Token>, t: Token, c': Cursor)
    requires c.position <= |input| + 2
    requires forall i :: 0 <= i < |done| ==> done[i].kind != EOF && Lexed(done[i])
    requires Scan(input, c) == (Ok(t), c') && t.kind != EOF
    ensures c'.position <= |input| + 2
    ensures forall i :: 0 <= i < |done + [t]| ==> (done + [t])[i].kind != EOF && Lexed((done + [t])[i])
    ensures TokensFrom(input, c, done) == TokensFrom(input, c', done + [t])
  {
    ScanLexed(input, c);
  }

  /** EOF is recorded and ends the stream. */
  lemma TokensFromEof(input: string, c: Cursor, done: seq<Token>, t: Token, c': Cursor)
    requires c.position <= |input| + 2
    requires forall i :: 0 <= i < |done| ==> done[i].kind != EOF && Lexed(done[i])
    requires Scan(input, c) == (Ok(t), c') && t.kind == EOF
    ensures TokensFrom(input, c, done) == Stream(done + [t], None)
  {
  }

  /** From the cursor after the first six tokens, the lexer yields EOF and stops. */
  lemma SampleFrom6(input: string)
    requires IsSample(input)
    ensures TokensFrom(input, Cursor(10, 1, 11), SampleTokens()[..6]) == Stream(SampleTokens(), None)
  {
    var t := SampleTokens();
    SampleScanEof(input);
    TokensFromEof(input, Cursor(10, 1, 11), t[..6], t[6], Cursor(10, 1, 11));
    assert t[..6] + [t[6]] == t;
  }

  lemma SampleFrom5(input: string)
    requires IsSample(input)
    ensures TokensFrom(input, Cursor(9, 1, 10), SampleTokens()[..5]) == Stream(SampleTokens(), None)
  {
    var t := SampleTokens();
    SampleScanSemicolon(input);
    TokensFromStep(input, Cursor(9, 1, 10), t[..5], t[5], Cursor(10, 1, 11));
    assert t[..5] + [t[5]] == t[..6];
    SampleFrom6(input);
  }

  lemma SampleFrom4(input: string)
    requires IsSample(input)
    ensures TokensFrom(input, Cursor(7, 1, 8), SampleTokens()[..4]) == Stream(SampleTokens(), None)
  {
    var t := SampleTokens();
    SampleScanC(input);
    TokensFromStep(input, Cursor(7, 1, 8), t[..4], t[4], Cursor(9, 1, 10));
    assert t[..4] + [t[4]] == t[..5];
    SampleFrom5(input);
  }

  lemma SampleFrom3(input: string)
    requires IsSample(input)
    ensures TokensFrom(input, Cursor(5, 1, 6), SampleTokens()[..3]) == Stream(SampleTokens(), None)
  {
    var t := SampleTokens();
    SampleScanTimes(input);
    TokensFromStep(input, Cursor(5, 1, 6), t[..3], t[3], Cursor(7, 1, 8));
    assert t[..3] + [t[3]] == t[..4];
    SampleFrom4(input);
  }

  lemma SampleFrom2(input: string)
    requires IsSample(input)
    ensures TokensFrom(input, Cursor(3, 1, 4), SampleTokens()[..2]) == Stream(SampleTokens(), None)
  {
    var t := SampleTokens();
    SampleScanB(input);
    TokensFromStep(input, Cursor(3, 1, 4), t[..2], t[2], Cursor(5, 1, 6));
    assert t[..2] + [t[2]] == t[..3];
    SampleFrom3(input);
  }

  lemma SampleFrom1(input: string)
    requires IsSample(input)
    ensures TokensFrom(input, Cursor(1, 1, 2), SampleTokens()[..1]) == Stream(SampleTokens(), None)
  {
    var t := SampleTokens();
    SampleScanPlus(input);
    TokensFromStep(input, Cursor(1, 1, 2), t[..1], t[1], Cursor(3, 1, 4));
    assert t[..1] + [t[1]] == t[..2];
    SampleFrom2(input);
  }

  lemma SampleFrom0(input: string)
    requires IsSample(input)
    ensures TokensFrom(input, Start, SampleTokens()[..0]) == Stream(SampleTokens(), None)
  {
    var t := SampleTokens();
    SampleScanA(input);
    TokensFromStep(input, Start, t[..0], t[0], Cursor(1, 1, 2));
    assert t[..0] + [t[0]] == t[..1];
    SampleFrom1(input);
  }

  /** Any text with the characters of the sample lexes to the seven tokens. */
  lemma SampleTokenizesAny(input: string)
    requires IsSample(input)
    ensures Tokenize(input) == Stream(SampleTokens(), None)
  {
    SampleFrom0(input);
    assert SampleTokens()[..0] == [];
  }

  lemma SampleTokenizes()
    ensures Tokenize(Sample) == Stream(SampleTokens(), None)
  {
    SampleTokenizesAny(Sample);
  }

  function Sum(): AstNode {
    ParserProperties.Bin("+", Leaf(Identifier, "a"),
                         ParserProperties.Bin("*", Leaf(Identifier, "b"), Leaf(Identifier, "c")))
  }

  function SampleStream(): Stream {
    Stream(SampleTokens(), None)
  }

  lemma SampleExpression()
    ensures InStream(SampleStream(), 0)
    ensures ExpressionAt(SampleStream(), 0) == Ok(Parsed(Sum(), 5))
  {
    var s := SampleStream();
    assert s.Valid();
    assert IsAdditive("+") && IsMultiplicative("*");
    assert ParserProperties.Operand(s, 0) && ParserProperties.Operand(s, 2) && ParserProperties.Operand(s, 4);
    assert ParserProperties.Ends(s.tokens[5]);
    ParserProperties.ProductOnTheRight(s, 0);
  }

  lemma SampleStatement()
    ensures InStream(SampleStream(), 0)
    ensures StatementAt(SampleStream(), 0) == Ok(Parsed(Sum(), 6))
  {
    var s := SampleStream();
    SampleExpression();
    assert EatAt(s, 5, DELIMITER) == Ok(6);
    assert ExpressionStatementAt(s, 0) == Ok(Parsed(Sum(), 6));
  }

  /** Lexing and parsing `a + b * c;` gives one statement with `+` at the
      root and the product as its right operand. */
  lemma SampleParses()
    ensures ParseText(Sample) == Ok(Node(Program, "", "", [Sum()]))
  {
    SampleTokenizes();
    var s := SampleStream();
    SampleStatement();
    assert ProgramLoop(s, 6, [Sum()]) == Ok(Parsed(Node(Program, "", "", [Sum()]), 6));
    assert [] + [Sum()] == [Sum()];
    assert ParseAt(s, 0) == ProgramLoop(s, 6, [Sum()]);
  }

  /** Run from a fresh Interpreter, the sample stops at its first operand,
      which nothing has bound. */
  lemma SampleRaisesUndefinedVariable(fuel: nat)
    ensures Interpreting.Eval(fuel, Node(Program, "", "", [Sum()]), Interpreting.Initial).result
            == Err(Interpreting.UndefinedVariable("a"))
  {
    var st := Interpreting.Initial;
    assert "a" !in st.funcs;
    var a := Interpreting.Eval(fuel, Leaf(Identifier, "a"), st);
    assert a.result == Err(Interpreting.UndefinedVariable("a"));
    assert Interpreting.Eval(fuel, Sum(), st) == a;
  }

  /** No identifier token of any source text is the built-in's name, since
      the lexer's identifiers are ASCII. */
  lemma PrintNameIsNoIdentifier(source: string)
    ensures forall t :: t in Tokenize(source).tokens && t.kind == IDENTIFIER ==> t.text != Interpreting.PrintName
  {
    var s := Tokenize(source);
    forall t | t in s.tokens && t.kind == IDENTIFIER
      ensures t.text != Interpreting.PrintName
    {
      var i :| 0 <= i < |s.tokens| && s.tokens[i] == t;
      assert Lexed(s.tokens[i]);
    }
  }

  /** The built-in's name is Devanagari, which the lexer refuses at its first
      letter. */
  lemma PrintNameIsNotLexed(rest: string)
    ensures Tokenize(Interpreting.PrintName + rest) == Stream([], Some(UnexpectedCharacter('म', 1, 1)))
  {
    var input := Interpreting.PrintName + rest;
    assert input[0] == 'म';
    assert SkipSpaces(input, Start) == Start;
  }
}
