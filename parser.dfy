/** The parser of src/compiler/parser.js: single-lookahead recursive descent
    over the lexer's tokens, building ASTNode trees.

    The parser is modelled over the stream of tokens its lexer would hand
    it (Stream): the tokens in order, ending either in EOF, which the lexer
    then repeats, or in the lexical error the lexer would throw on the next
    pull. The functions ending in `At` say what each parsing routine
    computes from a position in the stream; the class Parser holds the
    cursor and is proved to agree with them. */
module Parsing {
  import opened Wrappers
  import opened Lexing

  datatype NodeType =
    | Program | FunctionDeclaration | Parameters | BlockStatement
    | BinaryExpression | FunctionCall | Arguments
    | Identifier | NumberLiteral | StringLiteral

  /** ASTNode{type, value, children}, plus the `operator` field the parser
      sets on binary expressions ("" elsewhere). `value` is the name or the
      literal's text ("" where the source leaves it null). Null is the `null`
      a function declaration holds as its third child. */
  datatype AstNode =
    | Null
    | Node(kind: NodeType, value: string, operator: string, children: seq<AstNode>)

  /** A node without children, as `new ASTNode(type, value)` makes it. */
  function Leaf(kind: NodeType, value: string): AstNode {
    Node(kind, value, "", [])
  }

  /** `addChild`: append a child, keeping everything else. */
  function AddChild(n: AstNode, child: AstNode): (r: AstNode)
    requires n.Node?
    ensures r.Node? && r.kind == n.kind && r.value == n.value && r.operator == n.operator
    ensures |r.children| == |n.children| + 1 && r.children[|n.children|] == child
    ensures r.children[..|n.children|] == n.children
  {
    n.(children := n.children + [child])
  }

  /** The keyword that starts a function declaration. */
  const FunctionKeyword: string := "कार्य"
  /** The keyword that would start a variable declaration. */
  const VariableKeyword: string := "चर"

  datatype ParseError =
    | Expected(expected: TokenKind, actual: TokenKind, line: nat, column: nat)  // eat
    | UnexpectedKeyword(keyword: string)
    | UnexpectedToken(kind: TokenKind)
    | MissingMethod(name: string)  // the TypeError of calling a method the class lacks
    | LexFailure(error: LexError)  // thrown by the lexer while pulling the next token

  /** The tokens the lexer hands out, in order; after the last one it either
      repeats it (it is EOF) or throws `fault`. Only the last can be EOF. */
  datatype Stream = Stream(tokens: seq<Token>, fault: Option<LexError>) {
    predicate Valid() {
      (fault.None? <==> |tokens| > 0 && tokens[|tokens| - 1].kind == EOF)
      && forall i :: 0 <= i < |tokens| - 1 ==> tokens[i].kind != EOF
    }
  }

  /** A position of the stream holding a token. */
  predicate InStream(s: Stream, pos: nat) {
    s.Valid() && pos < |s.tokens|
  }

  predicate IsDelimiterToken(t: Token, d: string) {
    t.kind == DELIMITER && t.text == d
  }

  /** Pull the next token: the following one, the same EOF again at the end,
      or the lexer's error. */
  function NextAt(s: Stream, pos: nat): (r: Result<nat, ParseError>)
    requires InStream(s, pos)
    ensures r.Ok? ==> InStream(s, r.value) && pos <= r.value <= pos + 1
    ensures r.Ok? && r.value == pos ==> s.tokens[pos].kind == EOF
  {
    if pos + 1 < |s.tokens| then Ok(pos + 1)
    else if s.fault.Some? then Err(LexFailure(s.fault.value))
    else Ok(pos)
  }

  /** `eat(kind)`: consume the current token if and only if its kind (not
      its text) is `kind`; otherwise the error names both kinds and where
      the current token is. */
  function EatAt(s: Stream, pos: nat, kind: TokenKind): (r: Result<nat, ParseError>)
    requires InStream(s, pos)
    ensures r.Ok? ==> InStream(s, r.value) && s.tokens[pos].kind == kind
    ensures r.Ok? && kind != EOF ==> r.value == pos + 1
    ensures s.tokens[pos].kind != kind ==>
              var t := s.tokens[pos]; r == Err(Expected(kind, t.kind, t.line, t.column))
  {
    var t := s.tokens[pos];
    if t.kind == kind then NextAt(s, pos) else Err(Expected(kind, t.kind, t.line, t.column))
  }

  /** A subtree and the position after it. */
  datatype Parsed = Parsed(node: AstNode, next: nat)

  /** A list of subtrees and the position after them. */
  datatype ParsedList = ParsedList(nodes: seq<AstNode>, next: nat)

  // ---------------------------------------------------------------------
  // The shapes the parser builds

  predicate IsIdentifierLeaf(n: AstNode) {
    n.Node? && n.kind == Identifier && n.operator == "" && n.children == []
  }

  predicate IsAdditive(op: string) {
    op == "+" || op == "-"
  }

  predicate IsMultiplicative(op: string) {
    op == "*" || op == "/"
  }

  /** An expression as `expression` builds it: a literal, an identifier, a
      binary expression with exactly two operands, or a call
      `FunctionCall[Identifier, Arguments(expressions)]`. */
  predicate WfExpression(n: AstNode) {
    match n
    case Null => false
    case Node(kind, value, op, cs) =>
      match kind
      case Identifier => op == "" && cs == []
      case NumberLiteral => op == "" && cs == []
      case StringLiteral => op == "" && cs == []
      case BinaryExpression =>
        value == "" && (IsAdditive(op) || IsMultiplicative(op))
        && |cs| == 2 && WfExpression(cs[0]) && WfExpression(cs[1])
      case FunctionCall =>
        value == "" && op == "" && |cs| == 2 && IsIdentifierLeaf(cs[0])
        && cs[1].Node? && cs[1].kind == Arguments && cs[1].value == "" && cs[1].operator == ""
        && (forall i :: 0 <= i < |cs[1].children| ==> WfExpression(cs[1].children[i]))
      case _ => false
  }

  /** A statement: an expression, or a function declaration
      `[Identifier, Parameters(Identifier*), null, BlockStatement(statements)]`. */
  predicate WfStatement(n: AstNode) {
    match n
    case Null => false
    case Node(kind, value, op, cs) =>
      if kind == FunctionDeclaration then
        value == "" && op == "" && |cs| == 4 && IsIdentifierLeaf(cs[0])
        && cs[1].Node? && cs[1].kind == Parameters && cs[1].value == "" && cs[1].operator == ""
        && (forall i :: 0 <= i < |cs[1].children| ==> IsIdentifierLeaf(cs[1].children[i]))
        && cs[2] == Null
        && WfBlock(cs[3])
      else WfExpression(n)
  }

  predicate WfBlock(n: AstNode) {
    n.Node? && n.kind == BlockStatement && n.value == "" && n.operator == ""
    && forall i :: 0 <= i < |n.children| ==> WfStatement(n.children[i])
  }

  predicate WfProgram(n: AstNode) {
    n.Node? && n.kind == Program && n.value == "" && n.operator == ""
    && forall i :: 0 <= i < |n.children| ==> WfStatement(n.children[i])
  }

  // ---------------------------------------------------------------------
  // The parsing routines, from a position of the stream.
  // Each is measured by the tokens left and its place in the call order.

  /** `parse()`: statements until EOF, collected into a Program. */
  function ParseAt(s: Stream, pos: nat): (r: Result<Parsed, ParseError>)
    requires InStream(s, pos)
    ensures r.Ok? ==> InStream(s, r.value.next) && s.tokens[r.value.next].kind == EOF
    ensures r.Ok? ==> WfProgram(r.value.node)
    decreases |s.tokens| - pos, 8
  {
    ProgramLoop(s, pos, [])
  }

  function ProgramLoop(s: Stream, pos: nat, acc: seq<AstNode>): (r: Result<Parsed, ParseError>)
    requires InStream(s, pos)
    ensures r.Ok? ==> InStream(s, r.value.next) && s.tokens[r.value.next].kind == EOF
    ensures r.Ok? && (forall i :: 0 <= i < |acc| ==> WfStatement(acc[i])) ==> WfProgram(r.value.node)
    decreases |s.tokens| - pos, 7
  {
    if s.tokens[pos].kind == EOF then Ok(Parsed(Node(Program, "", "", acc), pos))
    else
      var st :- StatementAt(s, pos);
      ProgramLoop(s, st.next, acc + [st.node])
  }

  /** `statement()`: dispatch on the current token. */
  function StatementAt(s: Stream, pos: nat): (r: Result<Parsed, ParseError>)
    requires InStream(s, pos)
    ensures r.Ok? ==> InStream(s, r.value.next) && pos < r.value.next
    ensures r.Ok? ==> WfStatement(r.value.node)
    decreases |s.tokens| - pos, 6
  {
    var t := s.tokens[pos];
    match t.kind
    case KEYWORD =>
      if t.text == FunctionKeyword then FunctionDeclarationAt(s, pos)
      else if t.text == VariableKeyword then Err(MissingMethod("variableDeclaration"))
      else Err(UnexpectedKeyword(t.text))
    case IDENTIFIER => ExpressionStatementAt(s, pos)
    case STRING => ExpressionStatementAt(s, pos)
    case _ => Err(UnexpectedToken(t.kind))
  }

  /** `functionDeclaration()`. */
  function FunctionDeclarationAt(s: Stream, pos: nat): (r: Result<Parsed, ParseError>)
    requires InStream(s, pos)
    ensures r.Ok? ==> InStream(s, r.value.next) && pos < r.value.next
    ensures r.Ok? ==> WfStatement(r.value.node) && r.value.node.kind == FunctionDeclaration
    decreases |s.tokens| - pos, 5
  {
    var p1 :- EatAt(s, pos, KEYWORD);
    var name := s.tokens[p1].text;
    var p2 :- EatAt(s, p1, IDENTIFIER);
    var p3 :- EatAt(s, p2, DELIMITER);
    var params :- ParameterListAt(s, p3);
    var p5 :- EatAt(s, params.next, DELIMITER);
    var p6 :- EatAt(s, p5, DELIMITER);
    var body :- BlockAt(s, p6, []);
    var p7 :- EatAt(s, body.next, DELIMITER);
    Ok(Parsed(Node(FunctionDeclaration, "", "",
                   [Leaf(Identifier, name), Node(Parameters, "", "", params.nodes), Null, body.node]), p7))
  }

  /** The parameter names between the parentheses: none when `)` follows. */
  function ParameterListAt(s: Stream, pos: nat): (r: Result<ParsedList, ParseError>)
    requires InStream(s, pos)
    ensures r.Ok? ==> InStream(s, r.value.next) && pos <= r.value.next
    ensures r.Ok? ==> forall i :: 0 <= i < |r.value.nodes| ==> IsIdentifierLeaf(r.value.nodes[i])
    decreases |s.tokens| - pos, 2
  {
    if !IsDelimiterToken(s.tokens[pos], ")") then ParamsLoop(s, pos, [])
    else Ok(ParsedList([], pos))
  }

  /** The `do … while` loop over parameter names. */
  function ParamsLoop(s: Stream, pos: nat, acc: seq<AstNode>): (r: Result<ParsedList, ParseError>)
    requires InStream(s, pos)
    ensures r.Ok? ==> InStream(s, r.value.next) && pos < r.value.next
    ensures r.Ok? && (forall i :: 0 <= i < |acc| ==> IsIdentifierLeaf(acc[i])) ==>
              forall i :: 0 <= i < |r.value.nodes| ==> IsIdentifierLeaf(r.value.nodes[i])
    decreases |s.tokens| - pos, 1
  {
    var p1 :- if |acc| > 0 then EatAt(s, pos, DELIMITER) else Ok(pos);
    var name := s.tokens[p1].text;
    var p2 :- EatAt(s, p1, IDENTIFIER);
    var acc' := acc + [Leaf(Identifier, name)];
    if IsDelimiterToken(s.tokens[p2], ",") then ParamsLoop(s, p2, acc')
    else Ok(ParsedList(acc', p2))
  }

  /** `blockStatement()`: statements until a `}` delimiter. */
  function BlockAt(s: Stream, pos: nat, acc: seq<AstNode>): (r: Result<Parsed, ParseError>)
    requires InStream(s, pos)
    ensures r.Ok? ==> InStream(s, r.value.next) && pos <= r.value.next
    ensures r.Ok? ==> IsDelimiterToken(s.tokens[r.value.next], "}")
    ensures r.Ok? && (forall i :: 0 <= i < |acc| ==> WfStatement(acc[i])) ==> WfBlock(r.value.node)
    decreases |s.tokens| - pos, 7
  {
    if IsDelimiterToken(s.tokens[pos], "}") then Ok(Parsed(Node(BlockStatement, "", "", acc), pos))
    else
      var st :- StatementAt(s, pos);
      BlockAt(s, st.next, acc + [st.node])
  }

  /** `expressionStatement()`: an expression and the delimiter after it. */
  function ExpressionStatementAt(s: Stream, pos: nat): (r: Result<Parsed, ParseError>)
    requires InStream(s, pos)
    ensures r.Ok? ==> InStream(s, r.value.next) && pos < r.value.next
    ensures r.Ok? ==> WfExpression(r.value.node)
    decreases |s.tokens| - pos, 5
  {
    var e :- ExpressionAt(s, pos);
    var p :- EatAt(s, e.next, DELIMITER);
    Ok(Parsed(e.node, p))
  }

  /** `expression()`: terms joined by `+` and `-`, associating to the left. */
  function ExpressionAt(s: Stream, pos: nat): (r: Result<Parsed, ParseError>)
    requires InStream(s, pos)
    ensures r.Ok? ==> InStream(s, r.value.next) && pos < r.value.next
    ensures r.Ok? ==> WfExpression(r.value.node)
    decreases |s.tokens| - pos, 3
  {
    var t :- TermAt(s, pos);
    ExpressionLoop(s, t.next, t.node)
  }

  function ExpressionLoop(s: Stream, pos: nat, left: AstNode): (r: Result<Parsed, ParseError>)
    requires InStream(s, pos)
    ensures r.Ok? ==> InStream(s, r.value.next) && pos <= r.value.next
    ensures r.Ok? && WfExpression(left) ==> WfExpression(r.value.node)
    decreases |s.tokens| - pos, 3
  {
    var t := s.tokens[pos];
    if t.kind == OPERATOR && IsAdditive(t.text) then
      var p1 :- EatAt(s, pos, OPERATOR);
      var right :- TermAt(s, p1);
      ExpressionLoop(s, right.next, Node(BinaryExpression, "", t.text, [left, right.node]))
    else Ok(Parsed(left, pos))
  }

  /** `term()`: factors joined by `*` and `/`, associating to the left. */
  function TermAt(s: Stream, pos: nat): (r: Result<Parsed, ParseError>)
    requires InStream(s, pos)
    ensures r.Ok? ==> InStream(s, r.value.next) && pos < r.value.next
    ensures r.Ok? ==> WfExpression(r.value.node)
    decreases |s.tokens| - pos, 2
  {
    var f :- FactorAt(s, pos);
    TermLoop(s, f.next, f.node)
  }

  function TermLoop(s: Stream, pos: nat, left: AstNode): (r: Result<Parsed, ParseError>)
    requires InStream(s, pos)
    ensures r.Ok? ==> InStream(s, r.value.next) && pos <= r.value.next
    ensures r.Ok? && WfExpression(left) ==> WfExpression(r.value.node)
    decreases |s.tokens| - pos, 2
  {
    var t := s.tokens[pos];
    if t.kind == OPERATOR && IsMultiplicative(t.text) then
      var p1 :- EatAt(s, pos, OPERATOR);
      var right :- FactorAt(s, p1);
      TermLoop(s, right.next, Node(BinaryExpression, "", t.text, [left, right.node]))
    else Ok(Parsed(left, pos))
  }

  /** `factor()`: a literal, an identifier or call, or a parenthesised
      expression, which is returned unwrapped. */
  function FactorAt(s: Stream, pos: nat): (r: Result<Parsed, ParseError>)
    requires InStream(s, pos)
    ensures r.Ok? ==> InStream(s, r.value.next) && pos < r.value.next
    ensures r.Ok? ==> WfExpression(r.value.node)
    decreases |s.tokens| - pos, 1
  {
    var t := s.tokens[pos];
    match t.kind
    case NUMBER =>
      var p :- EatAt(s, pos, NUMBER);
      Ok(Parsed(Leaf(NumberLiteral, t.text), p))
    case STRING =>
      var p :- EatAt(s, pos, STRING);
      Ok(Parsed(Leaf(StringLiteral, t.text), p))
    case IDENTIFIER =>
      var p1 :- EatAt(s, pos, IDENTIFIER);
      if IsDelimiterToken(s.tokens[p1], "(") then
        var p2 :- EatAt(s, p1, DELIMITER);
        var args :- ArgumentListAt(s, p2);
        var p4 :- EatAt(s, args.next, DELIMITER);
        Ok(Parsed(Node(FunctionCall, "", "", [Leaf(Identifier, t.text), Node(Arguments, "", "", args.nodes)]), p4))
      else
        Ok(Parsed(Leaf(Identifier, t.text), p1))
    case DELIMITER =>
      if t.text == "(" then
        var p1 :- EatAt(s, pos, DELIMITER);
        var e :- ExpressionAt(s, p1);
        var p2 :- EatAt(s, e.next, DELIMITER);
        Ok(Parsed(e.node, p2))
      else Err(UnexpectedToken(DELIMITER))
    case _ => Err(UnexpectedToken(t.kind))
  }

  /** The arguments between the parentheses of a call: none when `)` follows. */
  function ArgumentListAt(s: Stream, pos: nat): (r: Result<ParsedList, ParseError>)
    requires InStream(s, pos)
    ensures r.Ok? ==> InStream(s, r.value.next) && pos <= r.value.next
    ensures r.Ok? ==> forall i :: 0 <= i < |r.value.nodes| ==> WfExpression(r.value.nodes[i])
    decreases |s.tokens| - pos, 5
  {
    if !IsDelimiterToken(s.tokens[pos], ")") then ArgumentsLoop(s, pos, [])
    else Ok(ParsedList([], pos))
  }

  /** The `do … while` loop over call arguments. */
  function ArgumentsLoop(s: Stream, pos: nat, acc: seq<AstNode>): (r: Result<ParsedList, ParseError>)
    requires InStream(s, pos)
    ensures r.Ok? ==> InStream(s, r.value.next) && pos < r.value.next
    ensures r.Ok? && (forall i :: 0 <= i < |acc| ==> WfExpression(acc[i])) ==>
              forall i :: 0 <= i < |r.value.nodes| ==> WfExpression(r.value.nodes[i])
    decreases |s.tokens| - pos, 4
  {
    var p1 :- if |acc| > 0 then EatAt(s, pos, DELIMITER) else Ok(pos);
    var e :- ExpressionAt(s, p1);
    var acc' := acc + [e.node];
    if IsDelimiterToken(s.tokens[e.next], ",") then ArgumentsLoop(s, e.next, acc')
    else Ok(ParsedList(acc', e.next))
  }

  /** `new Parser(lexer).parse()` over a whole stream: the constructor pulls
      the first token, which may already be the lexer's error. */
  function ParseStream(s: Stream): (r: Result<AstNode, ParseError>)
    requires s.Valid()
    ensures r.Ok? ==> WfProgram(r.value)
    ensures |s.tokens| == 0 ==> r == Err(LexFailure(s.fault.value))
  {
    if |s.tokens| == 0 then Err(LexFailure(s.fault.value))
    else
      var p :- ParseAt(s, 0);
      Ok(p.node)
  }

  // ---------------------------------------------------------------------
  // The parser object

  /** `class Parser`: the current token and, in place of the lexer, the
      stream of tokens it yields with the index of the current one. */
  class Parser {
    const stream: Stream
    var pos: nat
    var currentToken: Token

    ghost predicate Valid()
      reads this
    {
      InStream(stream, pos) && currentToken == stream.tokens[pos]
    }

    /** A routine ended as its specification says: with the same tree and
        the cursor after it, or with the same error. */
    ghost predicate Agrees(r: Result<AstNode, ParseError>, spec: Result<Parsed, ParseError>)
      reads this
    {
      match spec
      case Ok(p) => r == Ok(p.node) && pos == p.next && Valid()
      case Err(e) => r == Err(e)
    }

    /** The same for a list of subtrees collected under a node of `kind`. */
    ghost predicate ListAgrees(r: Result<AstNode, ParseError>, kind: NodeType, spec: Result<ParsedList, ParseError>)
      reads this
    {
      match spec
      case Ok(l) => r == Ok(Node(kind, "", "", l.nodes)) && pos == l.next && Valid()
      case Err(e) => r == Err(e)
    }

    /** The constructor pulls the first token; a stream holding none is the
        lexer throwing at once, which ParseSource handles. */
    constructor(s: Stream)
      requires s.Valid() && |s.tokens| > 0
      ensures Valid() && stream == s && pos == 0
    {
      stream := s;
      pos := 0;
      currentToken := s.tokens[0];
    }

    /** `eat(tokenType)`. */
    method Eat(kind: TokenKind) returns (r: Result<Token, ParseError>)
      requires Valid()
      modifies this
      ensures match EatAt(stream, old(pos), kind)
              case Ok(p) => r == Ok(old(currentToken)) && pos == p && Valid()
              case Err(e) => r == Err(e)
    {
      if currentToken.kind != kind {
        return Err(Expected(kind, currentToken.kind, currentToken.line, currentToken.column));
      }
      var token := currentToken;
      // this.lexer.getNextToken()
      if pos + 1 < |stream.tokens| {
        pos := pos + 1;
        currentToken := stream.tokens[pos];
      } else if stream.fault.Some? {
        return Err(LexFailure(stream.fault.value));
      }
      return Ok(token);
    }

    /** `parse()`. */
    method Parse() returns (r: Result<AstNode, ParseError>)
      requires Valid()
      modifies this
      ensures Agrees(r, ParseAt(stream, old(pos)))
      decreases |stream.tokens| - pos, 8
    {
      var program := Node(Program, "", "", []);
      while currentToken.kind != EOF
        invariant Valid() && program.Node? && program.kind == Program
        invariant program.value == "" && program.operator == ""
        invariant ParseAt(stream, old(pos)) == ProgramLoop(stream, pos, program.children)
        decreases |stream.tokens| - pos
      {
        var st :- Statement();
        program := AddChild(program, st);
      }
      return Ok(program);
    }

    /** `statement()`. */
    method Statement() returns (r: Result<AstNode, ParseError>)
      requires Valid()
      modifies this
      ensures Agrees(r, StatementAt(stream, old(pos)))
      decreases |stream.tokens| - pos, 6
    {
      match currentToken.kind
      case KEYWORD =>
        if currentToken.text == FunctionKeyword {
          r := FunctionDeclaration();
        } else if currentToken.text == VariableKeyword {
          r := Err(MissingMethod("variableDeclaration"));
        } else {
          r := Err(UnexpectedKeyword(currentToken.text));
        }
      case IDENTIFIER => r := ExpressionStatement();
      case STRING => r := ExpressionStatement();
      case _ => r := Err(UnexpectedToken(currentToken.kind));
    }

    /** `functionDeclaration()`. */
    method FunctionDeclaration() returns (r: Result<AstNode, ParseError>)
      requires Valid()
      modifies this
      ensures Agrees(r, FunctionDeclarationAt(stream, old(pos)))
      decreases |stream.tokens| - pos, 5
    {
      var _ :- Eat(KEYWORD);
      var name :- Eat(IDENTIFIER);
      var identifier := Leaf(Identifier, name.text);
      var _ :- Eat(DELIMITER);
      var params :- ParameterList();
      var _ :- Eat(DELIMITER);
      var _ :- Eat(DELIMITER);
      var body :- BlockStatement();
      var _ :- Eat(DELIMITER);
      return Ok(Node(NodeType.FunctionDeclaration, "", "", [identifier, params, Null, body]));
    }

    /** The Parameters node of `functionDeclaration()`. */
    method ParameterList() returns (r: Result<AstNode, ParseError>)
      requires Valid()
      modifies this
      ensures ListAgrees(r, Parameters, ParameterListAt(stream, old(pos)))
    {
      var params := Node(Parameters, "", "", []);
      if !IsDelimiterToken(currentToken, ")") {
        while true
          invariant Valid() && old(pos) <= pos
          invariant params.Node? && params.kind == Parameters
          invariant params.value == "" && params.operator == ""
          invariant ParamsLoop(stream, pos, params.children) == ParamsLoop(stream, old(pos), [])
          decreases |stream.tokens| - pos
        {
          if |params.children| > 0 {
            var _ :- Eat(DELIMITER);
          }
          var param :- Eat(IDENTIFIER);
          params := AddChild(params, Leaf(Identifier, param.text));
          if !IsDelimiterToken(currentToken, ",") {
            break;
          }
        }
      }
      return Ok(params);
    }

    /** `blockStatement()`. */
    method BlockStatement() returns (r: Result<AstNode, ParseError>)
      requires Valid()
      modifies this
      ensures Agrees(r, BlockAt(stream, old(pos), []))
      decreases |stream.tokens| - pos, 7
    {
      var node := Node(NodeType.BlockStatement, "", "", []);
      while !IsDelimiterToken(currentToken, "}")
        invariant Valid() && node.Node? && node.kind == NodeType.BlockStatement
        invariant node.value == "" && node.operator == ""
        invariant BlockAt(stream, old(pos), []) == BlockAt(stream, pos, node.children)
        decreases |stream.tokens| - pos
      {
        var st :- Statement();
        node := AddChild(node, st);
      }
      return Ok(node);
    }

    /** `expressionStatement()`. */
    method ExpressionStatement() returns (r: Result<AstNode, ParseError>)
      requires Valid()
      modifies this
      ensures Agrees(r, ExpressionStatementAt(stream, old(pos)))
      decreases |stream.tokens| - pos, 5
    {
      var expr :- Expression();
      var _ :- Eat(DELIMITER);
      return Ok(expr);
    }

    /** `expression()`. */
    method Expression() returns (r: Result<AstNode, ParseError>)
      requires Valid()
      modifies this
      ensures Agrees(r, ExpressionAt(stream, old(pos)))
      decreases |stream.tokens| - pos, 3
    {
      var node :- Term();
      while currentToken.kind == OPERATOR && IsAdditive(currentToken.text)
        invariant Valid() && old(pos) < pos
        invariant ExpressionAt(stream, old(pos)) == ExpressionLoop(stream, pos, node)
        decreases |stream.tokens| - pos
      {
        var operator :- Eat(OPERATOR);
        var right :- Term();
        node := Node(BinaryExpression, "", operator.text, [node, right]);
      }
      return Ok(node);
    }

    /** `term()`. */
    method Term() returns (r: Result<AstNode, ParseError>)
      requires Valid()
      modifies this
      ensures Agrees(r, TermAt(stream, old(pos)))
      decreases |stream.tokens| - pos, 2
    {
      var node :- Factor();
      while currentToken.kind == OPERATOR && IsMultiplicative(currentToken.text)
        invariant Valid() && old(pos) < pos
        invariant TermAt(stream, old(pos)) == TermLoop(stream, pos, node)
        decreases |stream.tokens| - pos
      {
        var operator :- Eat(OPERATOR);
        var right :- Factor();
        node := Node(BinaryExpression, "", operator.text, [node, right]);
      }
      return Ok(node);
    }

    /** `factor()`. */
    method Factor() returns (r: Result<AstNode, ParseError>)
      requires Valid()
      modifies this
      ensures Agrees(r, FactorAt(stream, old(pos)))
      decreases |stream.tokens| - pos, 1
    {
      var token := currentToken;
      match token.kind
      case NUMBER =>
        var _ :- Eat(NUMBER);
        return Ok(Leaf(NumberLiteral, token.text));
      case STRING =>
        var _ :- Eat(STRING);
        return Ok(Leaf(StringLiteral, token.text));
      case IDENTIFIER =>
        var _ :- Eat(IDENTIFIER);
        if IsDelimiterToken(currentToken, "(") {
          var _ :- Eat(DELIMITER);
          var args :- ArgumentList();
          var _ :- Eat(DELIMITER);
          return Ok(Node(FunctionCall, "", "", [Leaf(Identifier, token.text), args]));
        }
        return Ok(Leaf(Identifier, token.text));
      case DELIMITER =>
        if token.text == "(" {
          var _ :- Eat(DELIMITER);
          var node :- Expression();
          var _ :- Eat(DELIMITER);
          return Ok(node);
        }
        return Err(UnexpectedToken(token.kind));
      case _ =>
        return Err(UnexpectedToken(token.kind));
    }

    /** The Arguments node of a call in `factor()`. */
    method ArgumentList() returns (r: Result<AstNode, ParseError>)
      requires Valid()
      modifies this
      ensures ListAgrees(r, Arguments, ArgumentListAt(stream, old(pos)))
      decreases |stream.tokens| - pos, 5
    {
      var args := Node(Arguments, "", "", []);
      if !IsDelimiterToken(currentToken, ")") {
        while true
          invariant Valid() && old(pos) <= pos
          invariant args.Node? && args.kind == Arguments
          invariant args.value == "" && args.operator == ""
          invariant ArgumentsLoop(stream, pos, args.children) == ArgumentsLoop(stream, old(pos), [])
          decreases |stream.tokens| - pos
        {
          if |args.children| > 0 {
            var _ :- Eat(DELIMITER);
          }
          var arg :- Expression();
          args := AddChild(args, arg);
          if !IsDelimiterToken(currentToken, ",") {
            break;
          }
        }
      }
      return Ok(args);
    }
  }

  /** `new Parser(new Lexer(source)).parse()` over the stream the lexer
      yields for the source. */
  method ParseSource(s: Stream) returns (r: Result<AstNode, ParseError>)
    requires s.Valid()
    ensures r == ParseStream(s)
  {
    if |s.tokens| == 0 {
      return Err(LexFailure(s.fault.value));
    }
    var parser := new Parser(s);
    r := parser.Parse();
  }
}
