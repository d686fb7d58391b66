/** Properties of the parser of src/compiler/parser.js, stated over the
    specification functions of module Parsing. */
module ParserProperties {
  import opened Wrappers
  import opened Lexing
  import opened Parsing

  /** `eat` succeeds exactly on a token of the asked kind, whatever its
      text, unless pulling the next token makes the lexer throw. */
  lemma EatChecksKindOnly(s: Stream, pos: nat, kind: TokenKind)
    requires InStream(s, pos)
    ensures EatAt(s, pos, kind).Ok? <==>
              s.tokens[pos].kind == kind && (pos + 1 < |s.tokens| || s.fault.None?)
    ensures EatAt(s, pos, kind).Ok? && kind != EOF ==> EatAt(s, pos, kind).value == pos + 1
    ensures s.tokens[pos].kind == kind && pos + 1 == |s.tokens| && s.fault.Some? ==>
              EatAt(s, pos, kind) == Err(LexFailure(s.fault.value))
  {
  }

  // ---------------------------------------------------------------------
  // Statement lists

  /** Where a list of statements stops: EOF for a program, `}` for a block. */
  datatype Terminator = AtEof | AtCloseBrace

  predicate Stops(t: Token, term: Terminator) {
    match term
    case AtEof => t.kind == EOF
    case AtCloseBrace => IsDelimiterToken(t, "}")
  }

  /** `stmts` are the statements parsed one after another from `pos`, each
      starting where the previous one ended and none at the terminator, and
      the terminator is at `e`. */
  ghost predicate StatementChain(s: Stream, pos: nat, stmts: seq<AstNode>, term: Terminator, e: nat)
    requires InStream(s, pos)
    decreases |stmts|
  {
    if stmts == [] then pos == e && Stops(s.tokens[pos], term)
    else
      !Stops(s.tokens[pos], term)
      && var st := StatementAt(s, pos);
      st.Ok? && st.value.node == stmts[0] && StatementChain(s, st.value.next, stmts[1..], term, e)
  }

  lemma {:induction false} ProgramLoopChain(s: Stream, pos: nat, acc: seq<AstNode>, stmts: seq<AstNode>, e: nat)
    requires InStream(s, pos)
    ensures ProgramLoop(s, pos, acc) == Ok(Parsed(Node(Program, "", "", acc + stmts), e))
            <==> StatementChain(s, pos, stmts, AtEof, e)
    decreases |s.tokens| - pos
  {
    if s.tokens[pos].kind == EOF {
      assert ProgramLoop(s, pos, acc) == Ok(Parsed(Node(Program, "", "", acc), pos));
      if stmts != [] {
        assert acc + stmts != acc by { assert |acc + stmts| > |acc|; }
        assert !StatementChain(s, pos, stmts, AtEof, e);
      } else {
        assert acc + stmts == acc;
      }
    } else {
      var st := StatementAt(s, pos);
      if st.Ok? {
        assert ProgramLoop(s, pos, acc) == ProgramLoop(s, st.value.next, acc + [st.value.node]);
        if stmts == [] {
          assert acc + stmts == acc;
          ProgramLoopKeepsAcc(s, st.value.next, acc + [st.value.node]);
        } else {
          assert acc + stmts == (acc + [stmts[0]]) + stmts[1..];
          ProgramLoopChain(s, st.value.next, acc + [stmts[0]], stmts[1..], e);
          if st.value.node != stmts[0] {
            ProgramLoopKeepsAcc(s, st.value.next, acc + [st.value.node]);
            if ProgramLoop(s, st.value.next, acc + [st.value.node]).Ok? {
              var n := ProgramLoop(s, st.value.next, acc + [st.value.node]).value.node;
              assert n.children[|acc|] == st.value.node;
              assert (acc + stmts)[|acc|] == stmts[0];
            }
          }
        }
      }
    }
  }

  /** The program loop only appends to the statements it was given. */
  lemma {:induction false} ProgramLoopKeepsAcc(s: Stream, pos: nat, acc: seq<AstNode>)
    requires InStream(s, pos)
    ensures ProgramLoop(s, pos, acc).Ok? ==>
              var n := ProgramLoop(s, pos, acc).value.node;
              n.Node? && |n.children| >= |acc| && n.children[..|acc|] == acc
    decreases |s.tokens| - pos
  {
    if s.tokens[pos].kind != EOF {
      var st := StatementAt(s, pos);
      if st.Ok? {
        ProgramLoopKeepsAcc(s, st.value.next, acc + [st.value.node]);
        if ProgramLoop(s, pos, acc).Ok? {
          var n := ProgramLoop(s, pos, acc).value.node;
          assert n.children[..|acc|] == n.children[..|acc| + 1][..|acc|];
        }
      }
    }
  }

  /** `parse()` returns a Program whose children are the statements of the
      input in order, and it stops exactly at EOF. */
  lemma ParseIsStatementChain(s: Stream, pos: nat, stmts: seq<AstNode>, e: nat)
    requires InStream(s, pos)
    ensures ParseAt(s, pos) == Ok(Parsed(Node(Program, "", "", stmts), e))
            <==> StatementChain(s, pos, stmts, AtEof, e)
  {
    ProgramLoopChain(s, pos, [], stmts, e);
    assert [] + stmts == stmts;
  }

  /** The block loop only appends to the statements it was given. */
  lemma {:induction false} BlockKeepsAcc(s: Stream, pos: nat, acc: seq<AstNode>)
    requires InStream(s, pos)
    ensures BlockAt(s, pos, acc).Ok? ==>
              var n := BlockAt(s, pos, acc).value.node;
              n.Node? && |n.children| >= |acc| && n.children[..|acc|] == acc
    decreases |s.tokens| - pos
  {
    if !IsDelimiterToken(s.tokens[pos], "}") {
      var st := StatementAt(s, pos);
      if st.Ok? {
        BlockKeepsAcc(s, st.value.next, acc + [st.value.node]);
        if BlockAt(s, pos, acc).Ok? {
          var n := BlockAt(s, pos, acc).value.node;
          assert n.children[..|acc|] == n.children[..|acc| + 1][..|acc|];
        }
      }
    }
  }

  lemma {:induction false} BlockChain(s: Stream, pos: nat, acc: seq<AstNode>, stmts: seq<AstNode>, e: nat)
    requires InStream(s, pos)
    ensures BlockAt(s, pos, acc) == Ok(Parsed(Node(BlockStatement, "", "", acc + stmts), e))
            <==> StatementChain(s, pos, stmts, AtCloseBrace, e)
    decreases |s.tokens| - pos
  {
    if IsDelimiterToken(s.tokens[pos], "}") {
      assert BlockAt(s, pos, acc) == Ok(Parsed(Node(BlockStatement, "", "", acc), pos));
      if stmts != [] {
        assert acc + stmts != acc by { assert |acc + stmts| > |acc|; }
        assert !StatementChain(s, pos, stmts, AtCloseBrace, e);
      } else {
        assert acc + stmts == acc;
      }
    } else {
      var st := StatementAt(s, pos);
      if st.Ok? {
        if stmts == [] {
          BlockKeepsAcc(s, st.value.next, acc + [st.value.node]);
        } else {
          assert acc + stmts == (acc + [stmts[0]]) + stmts[1..];
          BlockChain(s, st.value.next, acc + [stmts[0]], stmts[1..], e);
          if st.value.node != stmts[0] {
            BlockKeepsAcc(s, st.value.next, acc + [st.value.node]);
            if BlockAt(s, st.value.next, acc + [st.value.node]).Ok? {
              var n := BlockAt(s, st.value.next, acc + [st.value.node]).value.node;
              assert n.children[|acc|] == st.value.node;
              assert (acc + stmts)[|acc|] == stmts[0];
            }
          }
        }
      }
    }
  }

  /** `blockStatement()` collects the statements up to a `}` in order. */
  lemma BlockIsStatementChain(s: Stream, pos: nat, stmts: seq<AstNode>, e: nat)
    requires InStream(s, pos)
    ensures BlockAt(s, pos, []) == Ok(Parsed(Node(BlockStatement, "", "", stmts), e))
            <==> StatementChain(s, pos, stmts, AtCloseBrace, e)
  {
    BlockChain(s, pos, [], stmts, e);
    assert [] + stmts == stmts;
  }

  /** Reaching EOF inside a block is an error, not an endless loop. */
  lemma BlockAtEofFails(s: Stream, pos: nat, acc: seq<AstNode>)
    requires InStream(s, pos) && s.tokens[pos].kind == EOF
    ensures BlockAt(s, pos, acc) == Err(UnexpectedToken(EOF))
  {
  }

  /** A block that parses ends before EOF: no statement of it reaches EOF. */
  lemma {:induction false} BlockNeverReachesEof(s: Stream, pos: nat, acc: seq<AstNode>)
    requires InStream(s, pos)
    ensures BlockAt(s, pos, acc).Ok? ==>
              forall i :: pos <= i <= BlockAt(s, pos, acc).value.next ==> s.tokens[i].kind != EOF
    decreases |s.tokens| - pos
  {
    if !IsDelimiterToken(s.tokens[pos], "}") && s.tokens[pos].kind != EOF {
      var st := StatementAt(s, pos);
      if st.Ok? {
        BlockNeverReachesEof(s, st.value.next, acc + [st.value.node]);
        if BlockAt(s, pos, acc).Ok? {
          var e := BlockAt(s, pos, acc).value.next;
          forall i | pos <= i <= e
            ensures s.tokens[i].kind != EOF
          {
            if i < st.value.next {
              assert i < |s.tokens| - 1;
            }
          }
        }
      }
    }
  }

  // ---------------------------------------------------------------------
  // Statements

  /** A statement starts only with the function keyword, an identifier or a
      string; every other start is the error the source throws. */
  lemma StatementDispatch(s: Stream, pos: nat)
    requires InStream(s, pos)
    ensures StatementAt(s, pos).Ok? ==>
              var t := s.tokens[pos];
              (t.kind == KEYWORD && t.text == FunctionKeyword) || t.kind == IDENTIFIER || t.kind == STRING
    ensures var t := s.tokens[pos];
            t.kind == KEYWORD && t.text == VariableKeyword ==>
              StatementAt(s, pos) == Err(MissingMethod("variableDeclaration"))
    ensures var t := s.tokens[pos];
            t.kind == KEYWORD && t.text != FunctionKeyword && t.text != VariableKeyword ==>
              StatementAt(s, pos) == Err(UnexpectedKeyword(t.text))
    ensures var t := s.tokens[pos];
            t.kind in {NUMBER, OPERATOR, DELIMITER, EOF} ==>
              StatementAt(s, pos) == Err(UnexpectedToken(t.kind))
  {
  }

  /** `eat(DELIMITER)` after an expression accepts any delimiter, so an
      identifier followed by `)` or `}` is a whole statement. */
  lemma AnyDelimiterEndsStatement(s: Stream, pos: nat)
    requires InStream(s, pos) && pos + 2 < |s.tokens|
    requires s.tokens[pos].kind == IDENTIFIER
    requires s.tokens[pos + 1].kind == DELIMITER && s.tokens[pos + 1].text != "("
    ensures ExpressionStatementAt(s, pos) == Ok(Parsed(Leaf(Identifier, s.tokens[pos].text), pos + 2))
  {
    assert FactorAt(s, pos) == Ok(Parsed(Leaf(Identifier, s.tokens[pos].text), pos + 1));
    assert TermAt(s, pos) == Ok(Parsed(Leaf(Identifier, s.tokens[pos].text), pos + 1));
    assert ExpressionAt(s, pos) == Ok(Parsed(Leaf(Identifier, s.tokens[pos].text), pos + 1));
    assert EatAt(s, pos + 1, DELIMITER) == Ok(pos + 2);
  }

  /** A function declaration: the keyword, the name, the parameter list
      between two delimiters, then a body between two delimiters; its
      children are the name, the parameters, null and the body. */
  lemma FunctionDeclarationShape(s: Stream, pos: nat)
    requires InStream(s, pos)
    requires FunctionDeclarationAt(s, pos).Ok?
    ensures pos + 2 < |s.tokens|
    ensures s.tokens[pos].kind == KEYWORD && s.tokens[pos + 1].kind == IDENTIFIER
    ensures s.tokens[pos + 2].kind == DELIMITER
    ensures var n := FunctionDeclarationAt(s, pos).value.node;
            n.Node? && n.kind == FunctionDeclaration && |n.children| == 4
            && n.children[0] == Leaf(Identifier, s.tokens[pos + 1].text)
            && ParameterListAt(s, pos + 3).Ok?
            && n.children[1] == Node(Parameters, "", "", ParameterListAt(s, pos + 3).value.nodes)
            && n.children[2] == Null
            && n.children[3].kind == BlockStatement
  {
  }

  /** `names` are the leaves of the identifier tokens at every second
      position from `first`, the tokens between them are `,` delimiters, and
      the list ends at `e`, on a token that is not a `,`. */
  ghost predicate ParamNames(s: Stream, first: nat, names: seq<AstNode>, e: nat) {
    var n := |names|;
    0 < n && e == first + 2 * n - 1 && e < |s.tokens|
    && !IsDelimiterToken(s.tokens[e], ",")
    && (forall j :: 0 <= j < n ==> ParamNameAt(s, first + 2 * j, names[j]))
    && (forall j :: 0 <= j < n - 1 ==> IsDelimiterToken(s.tokens[first + 2 * j + 1], ","))
  }

  /** The token at `at` is an identifier and `node` is the leaf naming it. */
  predicate ParamNameAt(s: Stream, at: nat, node: AstNode) {
    at < |s.tokens| && s.tokens[at].kind == IDENTIFIER && node == Leaf(Identifier, s.tokens[at].text)
  }

  /** A name and a `,` in front of a list of names make a longer list. */
  lemma ParamNamesCons(s: Stream, first: nat, names: seq<AstNode>, e: nat)
    requires |names| > 0 && ParamNameAt(s, first, names[0])
    requires first + 1 < |s.tokens| && IsDelimiterToken(s.tokens[first + 1], ",")
    requires ParamNames(s, first + 2, names[1..], e)
    ensures ParamNames(s, first, names, e)
  {
    forall j | 0 < j < |names|
      ensures ParamNameAt(s, first + 2 * j, names[j])
    {
      assert names[j] == names[1..][j - 1];
      assert first + 2 * j == first + 2 + 2 * (j - 1);
    }
    forall j | 0 < j < |names| - 1
      ensures IsDelimiterToken(s.tokens[first + 2 * j + 1], ",")
    {
      assert first + 2 * j + 1 == first + 2 + 2 * (j - 1) + 1;
    }
  }

  /** The parameters the loop collects come after those already collected:
      the names from the first one, which follows a `,` once a name has
      been read. */
  lemma {:induction false} ParamsLoopNames(s: Stream, pos: nat, acc: seq<AstNode>, r: ParsedList)
    requires InStream(s, pos) && ParamsLoop(s, pos, acc) == Ok(r)
    ensures |acc| <= |r.nodes| && r.nodes[..|acc|] == acc
    ensures ParamNames(s, if |acc| > 0 then pos + 1 else pos, r.nodes[|acc|..], r.next)
    decreases |s.tokens| - pos
  {
    var first := if |acc| > 0 then pos + 1 else pos;
    ParamsLoopUnfold(s, pos, acc);
    var leaf := Leaf(Identifier, s.tokens[first].text);
    var acc' := acc + [leaf];
    if IsDelimiterToken(s.tokens[first + 1], ",") {
      ParamsLoopNames(s, first + 1, acc', r);
      ParamNamesAfter(s, first, acc, leaf, r);
    } else {
      ParamNamesLast(s, first, acc, leaf, r);
    }
  }

  /** The step of `ParamsLoopNames` that reads the last name. */
  lemma ParamNamesLast(s: Stream, first: nat, acc: seq<AstNode>, leaf: AstNode, r: ParsedList)
    requires ParamNameAt(s, first, leaf)
    requires first + 1 < |s.tokens| && !IsDelimiterToken(s.tokens[first + 1], ",")
    requires r == ParsedList(acc + [leaf], first + 1)
    ensures r.nodes[..|acc|] == acc
    ensures ParamNames(s, first, r.nodes[|acc|..], r.next)
  {
    assert r.nodes[|acc|..] == [leaf];
  }

  /** The step of `ParamsLoopNames` that reads one more name: the names
      after it, with it in front. */
  lemma ParamNamesAfter(s: Stream, first: nat, acc: seq<AstNode>, leaf: AstNode, r: ParsedList)
    requires ParamNameAt(s, first, leaf)
    requires first + 1 < |s.tokens| && IsDelimiterToken(s.tokens[first + 1], ",")
    requires |acc| + 1 <= |r.nodes| && r.nodes[..|acc| + 1] == acc + [leaf]
    requires ParamNames(s, first + 2, r.nodes[|acc| + 1..], r.next)
    ensures r.nodes[..|acc|] == acc
    ensures ParamNames(s, first, r.nodes[|acc|..], r.next)
  {
    assert r.nodes[..|acc|] == r.nodes[..|acc| + 1][..|acc|];
    var names := r.nodes[|acc|..];
    assert names[0] == r.nodes[..|acc| + 1][|acc|];
    assert names[1..] == r.nodes[|acc| + 1..];
    ParamNamesCons(s, first, names, r.next);
  }

  /** One turn of the parameters loop: a name at `first`, then either a `,`
      and the next turn or the end of the list. */
  lemma ParamsLoopUnfold(s: Stream, pos: nat, acc: seq<AstNode>)
    requires InStream(s, pos) && ParamsLoop(s, pos, acc).Ok?
    ensures var first := if |acc| > 0 then pos + 1 else pos;
            InStream(s, first + 1) && s.tokens[first].kind == IDENTIFIER
            && var acc' := acc + [Leaf(Identifier, s.tokens[first].text)];
               ParamsLoop(s, pos, acc) ==
                 if IsDelimiterToken(s.tokens[first + 1], ",") then ParamsLoop(s, first + 1, acc')
                 else Ok(ParsedList(acc', first + 1))
  {
  }

  /** The parameter list is empty when `)` follows; otherwise it holds the
      names from `pos` on. */
  lemma ParameterListNames(s: Stream, pos: nat)
    requires InStream(s, pos) && ParameterListAt(s, pos).Ok?
    ensures var r := ParameterListAt(s, pos).value;
            if IsDelimiterToken(s.tokens[pos], ")") then r == ParsedList([], pos)
            else ParamNames(s, pos, r.nodes, r.next)
  {
    if !IsDelimiterToken(s.tokens[pos], ")") {
      var r := ParameterListAt(s, pos).value;
      ParamsLoopNames(s, pos, [], r);
      assert r.nodes[0..] == r.nodes;
    }
  }

  // ---------------------------------------------------------------------
  // Expressions

  /** Tokens that make a bare identifier operand at `pos`: an identifier not
      followed by `(`. */
  predicate Operand(s: Stream, pos: nat) {
    pos + 1 < |s.tokens| && s.tokens[pos].kind == IDENTIFIER
    && !IsDelimiterToken(s.tokens[pos + 1], "(")
  }

  predicate AdditiveAt(s: Stream, pos: nat) {
    pos < |s.tokens| && s.tokens[pos].kind == OPERATOR && IsAdditive(s.tokens[pos].text)
  }

  predicate MultiplicativeAt(s: Stream, pos: nat) {
    pos < |s.tokens| && s.tokens[pos].kind == OPERATOR && IsMultiplicative(s.tokens[pos].text)
  }

  /** A token that ends an expression: not an operator, not `(`. */
  predicate Ends(t: Token) {
    t.kind != OPERATOR && !IsDelimiterToken(t, "(")
  }

  function Id(s: Stream, pos: nat): AstNode
    requires pos < |s.tokens|
  {
    Leaf(Identifier, s.tokens[pos].text)
  }

  function Bin(op: string, l: AstNode, r: AstNode): AstNode {
    Node(BinaryExpression, "", op, [l, r])
  }

  lemma OperandFactor(s: Stream, pos: nat)
    requires InStream(s, pos) && Operand(s, pos)
    ensures FactorAt(s, pos) == Ok(Parsed(Id(s, pos), pos + 1))
  {
  }

  lemma TermLoopStops(s: Stream, pos: nat, left: AstNode)
    requires InStream(s, pos) && !MultiplicativeAt(s, pos)
    ensures TermLoop(s, pos, left) == Ok(Parsed(left, pos))
  {
  }

  lemma ExpressionLoopStops(s: Stream, pos: nat, left: AstNode)
    requires InStream(s, pos) && !AdditiveAt(s, pos)
    ensures ExpressionLoop(s, pos, left) == Ok(Parsed(left, pos))
  {
  }

  /** One more `* factor` or `/ factor` for a term, whatever the factor. */
  lemma TermLoopStep(s: Stream, pos: nat, left: AstNode, right: Parsed)
    requires InStream(s, pos) && pos + 1 < |s.tokens| && MultiplicativeAt(s, pos)
    requires FactorAt(s, pos + 1) == Ok(right)
    ensures TermLoop(s, pos, left) == TermLoop(s, right.next, Bin(s.tokens[pos].text, left, right.node))
  {
    assert EatAt(s, pos, OPERATOR) == Ok(pos + 1);
  }

  /** One more `+ term` or `- term` for an expression. */
  lemma ExpressionLoopStep(s: Stream, pos: nat, left: AstNode, right: Parsed)
    requires InStream(s, pos) && pos + 1 < |s.tokens| && AdditiveAt(s, pos)
    requires TermAt(s, pos + 1) == Ok(right)
    ensures ExpressionLoop(s, pos, left) == ExpressionLoop(s, right.next, Bin(s.tokens[pos].text, left, right.node))
  {
    assert EatAt(s, pos, OPERATOR) == Ok(pos + 1);
  }

  /** An identifier operand not followed by `*` or `/` is a whole term. */
  lemma OperandTerm(s: Stream, pos: nat)
    requires InStream(s, pos) && Operand(s, pos) && !MultiplicativeAt(s, pos + 1)
    ensures TermAt(s, pos) == Ok(Parsed(Id(s, pos), pos + 1))
  {
    OperandFactor(s, pos);
    TermLoopStops(s, pos + 1, Id(s, pos));
  }

  /** `x o1 y o2 z` with additive operators groups as `(x o1 y) o2 z`. */
  lemma AdditionIsLeftAssociative(s: Stream, pos: nat)
    requires InStream(s, pos) && pos + 5 < |s.tokens|
    requires Operand(s, pos) && Operand(s, pos + 2) && Operand(s, pos + 4)
    requires AdditiveAt(s, pos + 1) && AdditiveAt(s, pos + 3)
    requires Ends(s.tokens[pos + 5])
    ensures ExpressionAt(s, pos) ==
              Ok(Parsed(Bin(s.tokens[pos + 3].text, Bin(s.tokens[pos + 1].text, Id(s, pos), Id(s, pos + 2)), Id(s, pos + 4)), pos + 5))
  {
    OperandTerm(s, pos);
    OperandTerm(s, pos + 2);
    OperandTerm(s, pos + 4);
    var first := Bin(s.tokens[pos + 1].text, Id(s, pos), Id(s, pos + 2));
    ExpressionLoopStep(s, pos + 1, Id(s, pos), Parsed(Id(s, pos + 2), pos + 3));
    ExpressionLoopStep(s, pos + 3, first, Parsed(Id(s, pos + 4), pos + 5));
    ExpressionLoopStops(s, pos + 5, Bin(s.tokens[pos + 3].text, first, Id(s, pos + 4)));
  }

  lemma TermLoopLastStep(s: Stream, p: nat, left: AstNode, c: Parsed)
    requires InStream(s, p) && p + 1 < |s.tokens| && MultiplicativeAt(s, p) && FactorAt(s, p + 1) == Ok(c)
    requires !MultiplicativeAt(s, c.next)
    ensures TermLoop(s, p, left) == Ok(Parsed(Bin(s.tokens[p].text, left, c.node), c.next))
  {
    TermLoopStep(s, p, left, c);
    TermLoopStops(s, c.next, Bin(s.tokens[p].text, left, c.node));
  }

  /** Two more `op factor` steps and a stop: the loop builds `((left o1 b) o2 c)`. */
  lemma TermLoopTwoSteps(s: Stream, p: nat, left: AstNode, b: Parsed, c: Parsed)
    requires InStream(s, p) && p + 1 < |s.tokens| && MultiplicativeAt(s, p) && FactorAt(s, p + 1) == Ok(b)
    requires b.next + 1 < |s.tokens| && MultiplicativeAt(s, b.next) && FactorAt(s, b.next + 1) == Ok(c)
    requires !MultiplicativeAt(s, c.next)
    ensures TermLoop(s, p, left) ==
              Ok(Parsed(Bin(s.tokens[b.next].text, Bin(s.tokens[p].text, left, b.node), c.node), c.next))
  {
    var first := Bin(s.tokens[p].text, left, b.node);
    var whole := Bin(s.tokens[b.next].text, first, c.node);
    assert TermLoop(s, b.next, first) == Ok(Parsed(whole, c.next)) by { TermLoopLastStep(s, b.next, first, c); }
    assert TermLoop(s, p, left) == TermLoop(s, b.next, first) by { TermLoopStep(s, p, left, b); }
  }

  lemma ExpressionLoopLastStep(s: Stream, p: nat, left: AstNode, c: Parsed)
    requires InStream(s, p) && p + 1 < |s.tokens| && AdditiveAt(s, p) && TermAt(s, p + 1) == Ok(c)
    requires !AdditiveAt(s, c.next)
    ensures ExpressionLoop(s, p, left) == Ok(Parsed(Bin(s.tokens[p].text, left, c.node), c.next))
  {
    ExpressionLoopStep(s, p, left, c);
    ExpressionLoopStops(s, c.next, Bin(s.tokens[p].text, left, c.node));
  }

  lemma ExpressionLoopTwoSteps(s: Stream, p: nat, left: AstNode, b: Parsed, c: Parsed)
    requires InStream(s, p) && p + 1 < |s.tokens| && AdditiveAt(s, p) && TermAt(s, p + 1) == Ok(b)
    requires b.next + 1 < |s.tokens| && AdditiveAt(s, b.next) && TermAt(s, b.next + 1) == Ok(c)
    requires !AdditiveAt(s, c.next)
    ensures ExpressionLoop(s, p, left) ==
              Ok(Parsed(Bin(s.tokens[b.next].text, Bin(s.tokens[p].text, left, b.node), c.node), c.next))
  {
    var first := Bin(s.tokens[p].text, left, b.node);
    var whole := Bin(s.tokens[b.next].text, first, c.node);
    assert ExpressionLoop(s, b.next, first) == Ok(Parsed(whole, c.next)) by { ExpressionLoopLastStep(s, b.next, first, c); }
    assert ExpressionLoop(s, p, left) == ExpressionLoop(s, b.next, first) by { ExpressionLoopStep(s, p, left, b); }
  }

  /** Three factors of any kind (numbers, strings, identifiers, calls,
      parenthesised expressions) joined by `*` or `/` group to the left. */
  lemma TermGroupsLeft(s: Stream, pos: nat, a: Parsed, b: Parsed, c: Parsed)
    requires InStream(s, pos) && FactorAt(s, pos) == Ok(a)
    requires a.next + 1 < |s.tokens| && MultiplicativeAt(s, a.next) && FactorAt(s, a.next + 1) == Ok(b)
    requires b.next + 1 < |s.tokens| && MultiplicativeAt(s, b.next) && FactorAt(s, b.next + 1) == Ok(c)
    requires !MultiplicativeAt(s, c.next)
    ensures TermAt(s, pos) ==
              Ok(Parsed(Bin(s.tokens[b.next].text, Bin(s.tokens[a.next].text, a.node, b.node), c.node), c.next))
  {
    TermLoopTwoSteps(s, a.next, a.node, b, c);
  }

  /** Three terms of any kind joined by `+` or `-` group to the left. */
  lemma ExpressionGroupsLeft(s: Stream, pos: nat, a: Parsed, b: Parsed, c: Parsed)
    requires InStream(s, pos) && TermAt(s, pos) == Ok(a)
    requires a.next + 1 < |s.tokens| && AdditiveAt(s, a.next) && TermAt(s, a.next + 1) == Ok(b)
    requires b.next + 1 < |s.tokens| && AdditiveAt(s, b.next) && TermAt(s, b.next + 1) == Ok(c)
    requires !AdditiveAt(s, c.next)
    ensures ExpressionAt(s, pos) ==
              Ok(Parsed(Bin(s.tokens[b.next].text, Bin(s.tokens[a.next].text, a.node, b.node), c.node), c.next))
  {
    ExpressionLoopTwoSteps(s, a.next, a.node, b, c);
  }

  /** `x o1 y o2 z` with multiplicative operators groups as `(x o1 y) o2 z`. */
  lemma MultiplicationIsLeftAssociative(s: Stream, pos: nat)
    requires InStream(s, pos) && pos + 5 < |s.tokens|
    requires Operand(s, pos) && Operand(s, pos + 2) && Operand(s, pos + 4)
    requires MultiplicativeAt(s, pos + 1) && MultiplicativeAt(s, pos + 3)
    requires Ends(s.tokens[pos + 5])
    ensures TermAt(s, pos) ==
              Ok(Parsed(Bin(s.tokens[pos + 3].text, Bin(s.tokens[pos + 1].text, Id(s, pos), Id(s, pos + 2)), Id(s, pos + 4)), pos + 5))
    ensures ExpressionAt(s, pos) == TermAt(s, pos)
  {
    var first := Bin(s.tokens[pos + 1].text, Id(s, pos), Id(s, pos + 2));
    var whole := Bin(s.tokens[pos + 3].text, first, Id(s, pos + 4));
    OperandFactor(s, pos);
    OperandFactor(s, pos + 2);
    OperandFactor(s, pos + 4);
    TermLoopStep(s, pos + 1, Id(s, pos), Parsed(Id(s, pos + 2), pos + 3));
    TermLoopStep(s, pos + 3, first, Parsed(Id(s, pos + 4), pos + 5));
    TermLoopStops(s, pos + 5, whole);
    ExpressionLoopStops(s, pos + 5, whole);
  }

  /** `x + y * z`: the multiplicative operator binds tighter, on the right. */
  lemma ProductOnTheRight(s: Stream, pos: nat)
    requires InStream(s, pos) && pos + 5 < |s.tokens|
    requires Operand(s, pos) && Operand(s, pos + 2) && Operand(s, pos + 4)
    requires AdditiveAt(s, pos + 1) && MultiplicativeAt(s, pos + 3)
    requires Ends(s.tokens[pos + 5])
    ensures ExpressionAt(s, pos) ==
              Ok(Parsed(Bin(s.tokens[pos + 1].text, Id(s, pos), Bin(s.tokens[pos + 3].text, Id(s, pos + 2), Id(s, pos + 4))), pos + 5))
  {
    var product := Bin(s.tokens[pos + 3].text, Id(s, pos + 2), Id(s, pos + 4));
    OperandTerm(s, pos);
    OperandFactor(s, pos + 2);
    OperandFactor(s, pos + 4);
    TermLoopStep(s, pos + 3, Id(s, pos + 2), Parsed(Id(s, pos + 4), pos + 5));
    TermLoopStops(s, pos + 5, product);
    ExpressionLoopStep(s, pos + 1, Id(s, pos), Parsed(product, pos + 5));
    ExpressionLoopStops(s, pos + 5, Bin(s.tokens[pos + 1].text, Id(s, pos), product));
  }

  /** `x * y + z`: the multiplicative operator binds tighter, on the left. */
  lemma ProductOnTheLeft(s: Stream, pos: nat)
    requires InStream(s, pos) && pos + 5 < |s.tokens|
    requires Operand(s, pos) && Operand(s, pos + 2) && Operand(s, pos + 4)
    requires MultiplicativeAt(s, pos + 1) && AdditiveAt(s, pos + 3)
    requires Ends(s.tokens[pos + 5])
    ensures ExpressionAt(s, pos) ==
              Ok(Parsed(Bin(s.tokens[pos + 3].text, Bin(s.tokens[pos + 1].text, Id(s, pos), Id(s, pos + 2)), Id(s, pos + 4)), pos + 5))
  {
    var product := Bin(s.tokens[pos + 1].text, Id(s, pos), Id(s, pos + 2));
    OperandFactor(s, pos);
    OperandFactor(s, pos + 2);
    TermLoopStep(s, pos + 1, Id(s, pos), Parsed(Id(s, pos + 2), pos + 3));
    TermLoopStops(s, pos + 3, product);
    OperandTerm(s, pos + 4);
    ExpressionLoopStep(s, pos + 3, product, Parsed(Id(s, pos + 4), pos + 5));
    ExpressionLoopStops(s, pos + 5, Bin(s.tokens[pos + 3].text, product, Id(s, pos + 4)));
  }

  /** A parenthesised expression is the inner expression itself; any
      delimiter closes it, since `eat` checks the kind only. */
  lemma ParenthesesUnwrap(s: Stream, pos: nat)
    requires InStream(s, pos) && pos + 1 < |s.tokens|
    requires IsDelimiterToken(s.tokens[pos], "(")
    requires ExpressionAt(s, pos + 1).Ok?
    requires var e := ExpressionAt(s, pos + 1).value.next;
             s.tokens[e].kind == DELIMITER && e + 1 < |s.tokens|
    ensures var inner := ExpressionAt(s, pos + 1).value;
            FactorAt(s, pos) == Ok(Parsed(inner.node, inner.next + 1))
  {
  }

  /** A delimiter other than `(` cannot start a factor. */
  lemma OtherDelimiterIsNoFactor(s: Stream, pos: nat)
    requires InStream(s, pos)
    requires s.tokens[pos].kind == DELIMITER && s.tokens[pos].text != "("
    ensures FactorAt(s, pos) == Err(UnexpectedToken(DELIMITER))
  {
  }

  /** An identifier is a call exactly when `(` follows it; then the node is
      `FunctionCall[Identifier(name), Arguments(arguments)]`. */
  lemma CallOrIdentifier(s: Stream, pos: nat)
    requires InStream(s, pos) && s.tokens[pos].kind == IDENTIFIER
    requires FactorAt(s, pos).Ok?
    ensures pos + 1 < |s.tokens|
    ensures var n := FactorAt(s, pos).value.node;
            n.kind == FunctionCall <==> IsDelimiterToken(s.tokens[pos + 1], "(")
    ensures var n := FactorAt(s, pos).value.node;
            !IsDelimiterToken(s.tokens[pos + 1], "(") ==> n == Id(s, pos)
    ensures var n := FactorAt(s, pos).value.node;
            IsDelimiterToken(s.tokens[pos + 1], "(") ==>
              pos + 2 < |s.tokens| && ArgumentListAt(s, pos + 2).Ok?
              && n == Node(FunctionCall, "", "", [Id(s, pos), Node(Arguments, "", "", ArgumentListAt(s, pos + 2).value.nodes)])
  {
  }

  /** The expressions `args` are parsed one after another from `pos`,
      separated by delimiters, and the list ends at `e`. */
  ghost predicate ArgumentChain(s: Stream, pos: nat, args: seq<AstNode>, e: nat)
    requires InStream(s, pos)
    decreases |args|
  {
    |args| > 0
    && var x := ExpressionAt(s, pos);
    x.Ok? && x.value.node == args[0]
    && if |args| == 1 then e == x.value.next && !IsDelimiterToken(s.tokens[x.value.next], ",")
       else IsDelimiterToken(s.tokens[x.value.next], ",")
            && var c := EatAt(s, x.value.next, DELIMITER);
            c.Ok? && ArgumentChain(s, c.value, args[1..], e)
  }

  /** Where the arguments loop reads its next expression: after a
      separating delimiter, except for the first argument. */
  function ArgumentStart(s: Stream, pos: nat, acc: seq<AstNode>): Result<nat, ParseError>
    requires InStream(s, pos)
  {
    if |acc| > 0 then EatAt(s, pos, DELIMITER) else Ok(pos)
  }

  lemma {:induction false} ArgumentsLoopChain(s: Stream, pos: nat, acc: seq<AstNode>, args: seq<AstNode>, e: nat)
    requires InStream(s, pos) && ArgumentStart(s, pos, acc).Ok?
    ensures ArgumentsLoop(s, pos, acc) == Ok(ParsedList(acc + args, e))
            <==> ArgumentChain(s, ArgumentStart(s, pos, acc).value, args, e)
    decreases |s.tokens| - pos
  {
    var p1 := ArgumentStart(s, pos, acc).value;
    var x := ExpressionAt(s, p1);
    if x.Ok? {
      var acc' := acc + [x.value.node];
      if IsDelimiterToken(s.tokens[x.value.next], ",") {
        assert ArgumentsLoop(s, pos, acc) == ArgumentsLoop(s, x.value.next, acc');
        ArgumentsLoopKeepsAcc(s, x.value.next, acc');
        if ArgumentStart(s, x.value.next, acc').Ok? {
          if args != [] && x.value.node == args[0] {
            assert acc + args == acc' + args[1..];
            ArgumentsLoopChain(s, x.value.next, acc', args[1..], e);
          } else if ArgumentsLoop(s, x.value.next, acc').Ok? {
            var l := ArgumentsLoop(s, x.value.next, acc').value.nodes;
            assert l[..|acc'|] == acc';
            assert acc + args != l by {
              if args == [] {
                assert |acc + args| < |l|;
              } else {
                assert (acc + args)[|acc|] == args[0];
                assert l[|acc|] == acc'[|acc|];
              }
            }
          }
        }
      } else {
        assert ArgumentsLoop(s, pos, acc) == Ok(ParsedList(acc', x.value.next));
        if acc + args == acc' {
          assert |args| == 1 && args[0] == (acc + args)[|acc|];
          assert args == [args[0]];
        }
        if args == [x.value.node] {
          assert acc + args == acc';
        }
      }
    }
  }

  /** The arguments loop only appends, and appends at least one argument. */
  lemma {:induction false} ArgumentsLoopKeepsAcc(s: Stream, pos: nat, acc: seq<AstNode>)
    requires InStream(s, pos)
    ensures ArgumentsLoop(s, pos, acc).Ok? ==>
              var l := ArgumentsLoop(s, pos, acc).value.nodes;
              |l| > |acc| && l[..|acc|] == acc
    decreases |s.tokens| - pos
  {
    var p1 := if |acc| > 0 then EatAt(s, pos, DELIMITER) else Ok(pos);
    if p1.Ok? {
      var x := ExpressionAt(s, p1.value);
      if x.Ok? {
        var acc' := acc + [x.value.node];
        if IsDelimiterToken(s.tokens[x.value.next], ",") {
          ArgumentsLoopKeepsAcc(s, x.value.next, acc');
          if ArgumentsLoop(s, pos, acc).Ok? {
            var l := ArgumentsLoop(s, pos, acc).value.nodes;
            assert l[..|acc|] == l[..|acc'|][..|acc|];
          }
        }
      }
    }
  }

  /** The arguments of a call are the comma-separated expressions in order. */
  lemma ArgumentListIsChain(s: Stream, pos: nat, args: seq<AstNode>, e: nat)
    requires InStream(s, pos) && !IsDelimiterToken(s.tokens[pos], ")")
    ensures ArgumentListAt(s, pos) == Ok(ParsedList(args, e)) <==> ArgumentChain(s, pos, args, e)
  {
    ArgumentsLoopChain(s, pos, [], args, e);
    assert [] + args == args;
  }
}
