/** Properties of the interpreter of src/interpreter/index.js, stated over
    the evaluation functions of module Interpreting. */
module InterpreterProperties {
  import opened Wrappers
  import opened Lexing
  import opened Parsing
  import opened Interpreting

  // ---------------------------------------------------------------------
  // Parameter binding

  /** The argument bound to parameter position j. */
  function ArgumentAt(args: seq<Value>, j: nat): Value {
    if j < |args| then args[j] else Undefined
  }

  /** The last position of `x` among the parameter names. */
  function LastIndex(params: seq<string>, x: string): (j: nat)
    requires x in params
    ensures j < |params| && params[j] == x
    ensures forall k :: j < k < |params| ==> params[k] != x
  {
    var i := |params| - 1;
    if params[i] == x then i
    else
      assert params == params[..i] + [params[i]];
      LastIndex(params[..i], x)
  }

  /** In the callee's scope a parameter holds the argument at its last
      position (undefined when there are fewer arguments), and every other
      name holds what the caller's copy held. */
  lemma {:induction false} BindLookup(scope: map<string, Value>, params: seq<string>, args: seq<Value>, x: string)
    ensures Get(Bind(scope, params, args), x) ==
              if x in params then ArgumentAt(args, LastIndex(params, x)) else Get(scope, x)
    decreases |params|
  {
    if params != [] {
      var i := |params| - 1;
      assert params == params[..i] + [params[i]];
      BindLookup(scope, params[..i], args, x);
    }
  }

  /** Arguments beyond the parameters are ignored. */
  lemma {:induction false} ExtraArgumentsIgnored(scope: map<string, Value>, params: seq<string>, args: seq<Value>)
    requires |args| >= |params|
    ensures Bind(scope, params, args) == Bind(scope, params, args[..|params|])
  {
    forall x
      ensures Get(Bind(scope, params, args), x) == Get(Bind(scope, params, args[..|params|]), x)
    {
      BindLookup(scope, params, args, x);
      BindLookup(scope, params, args[..|params|], x);
    }
    GetDetermines(Bind(scope, params, args), Bind(scope, params, args[..|params|]));
  }

  lemma GetDetermines(m1: map<string, Value>, m2: map<string, Value>)
    requires m1.Keys == m2.Keys
    requires forall x :: Get(m1, x) == Get(m2, x)
    ensures m1 == m2
  {
    forall x | x in m1
      ensures m1[x] == m2[x]
    {
      assert Get(m1, x) == Get(m2, x);
    }
  }

  /** A parameter without an argument reads as undefined, so using it
      throws unless a function has that name. */
  lemma MissingArgumentIsUndefined(st: State, params: seq<string>, args: seq<Value>, j: nat)
    requires j < |params| && |args| <= j
    requires forall k :: j < k < |params| ==> params[k] != params[j]
    requires params[j] !in st.funcs
    ensures Get(Bind(st.vars, params, args), params[j]) == Undefined
    ensures LookupIdentifier(params[j], st.(vars := Bind(st.vars, params, args))) == Err(UndefinedVariable(params[j]))
  {
    BindLookup(st.vars, params, args, params[j]);
  }

  // ---------------------------------------------------------------------
  // Arguments

  /** One more argument is evaluated after the others, in the state they
      left, and its value is appended to theirs; an earlier throw stops it. */
  lemma {:induction false} ArgumentsSnoc(fuel: nat, cs: seq<AstNode>, c: AstNode, i: nat, done: seq<Value>, st: State)
    requires i <= |cs| && |done| == i
    ensures EvalArguments(fuel, cs + [c], i, done, st) ==
              var o := EvalArguments(fuel, cs, i, done, st);
              if o.result.Err? then o
              else
                var l := Eval(fuel, c, o.state);
                if l.result.Err? then ArgsOutcome(Err(l.result.error), l.state)
                else ArgsOutcome(Ok(o.result.value + [l.result.value]), l.state)
    decreases |cs| - i
  {
    if i == |cs| {
      var l := Eval(fuel, c, st);
      assert (cs + [c])[i] == c;
      if l.result.Ok? {
        assert EvalArguments(fuel, cs + [c], i + 1, done + [l.result.value], l.state)
            == ArgsOutcome(Ok(done + [l.result.value]), l.state);
      }
    } else {
      assert (cs + [c])[i] == cs[i];
      var o := Eval(fuel, cs[i], st);
      if o.result.Ok? {
        ArgumentsSnoc(fuel, cs, c, i + 1, done + [o.result.value], o.state);
      }
    }
  }

  // ---------------------------------------------------------------------
  // Sequences of statements

  /** Visiting one more child after a sequence: the sequence's outcome if
      it threw, else the child visited in the state after the sequence. */
  lemma {:induction false} SequenceSnoc(fuel: nat, cs: seq<AstNode>, c: AstNode, i: nat, last: Outcome)
    requires i <= |cs| && last.result.Ok?
    ensures EvalSequence(fuel, cs + [c], i, last) ==
              var o := EvalSequence(fuel, cs, i, last);
              if o.result.Err? then o else Eval(fuel, c, o.state)
    decreases |cs| - i
  {
    if i == |cs| {
      var o := Eval(fuel, c, last.state);
      if o.result.Ok? {
        assert EvalSequence(fuel, cs + [c], i + 1, o) == o;
      }
    } else {
      assert (cs + [c])[i] == cs[i];
      var o := Eval(fuel, cs[i], last.state);
      if o.result.Ok? {
        SequenceSnoc(fuel, cs, c, i + 1, o);
      }
    }
  }

  /** A Program or a block with no children evaluates to undefined; with
      children, to the last child's value visited after the others. */
  lemma SequenceResult(fuel: nat, cs: seq<AstNode>, st: State)
    ensures cs == [] ==> EvalSequence(fuel, cs, 0, Outcome(Ok(Undefined), st)) == Outcome(Ok(Undefined), st)
    ensures cs != [] ==>
              var init := cs[..|cs| - 1];
              var o := EvalSequence(fuel, init, 0, Outcome(Ok(Undefined), st));
              EvalSequence(fuel, cs, 0, Outcome(Ok(Undefined), st)) ==
                if o.result.Err? then o else Eval(fuel, cs[|cs| - 1], o.state)
  {
    if cs != [] {
      assert cs == cs[..|cs| - 1] + [cs[|cs| - 1]];
      SequenceSnoc(fuel, cs[..|cs| - 1], cs[|cs| - 1], 0, Outcome(Ok(Undefined), st));
    }
  }

  // ---------------------------------------------------------------------
  // Declarations

  /** The parameter names of a well-formed Parameters list. */
  lemma ParamNamesOfIdentifiers(ps: seq<AstNode>)
    requires forall i :: 0 <= i < |ps| ==> IsIdentifierLeaf(ps[i])
    ensures ParamNames(ps).Some?
  {
  }

  /** A declaration the parser built stores its parameter names and its
      block under its name, replacing any entry, the built-in included; it
      evaluates nothing and yields undefined. */
  lemma DeclarationStores(fuel: nat, n: AstNode, st: State)
    requires WfStatement(n) && n.kind == FunctionDeclaration
    ensures ParamNames(n.children[1].children).Some?
    ensures Eval(fuel, n, st) ==
              Outcome(Ok(Undefined),
                      st.(funcs := st.funcs[n.children[0].value :=
                            UserFunction(ParamNames(n.children[1].children).value, n.children[3])]))
  {
    ParamNamesOfIdentifiers(n.children[1].children);
  }

  // ---------------------------------------------------------------------
  // Exhaustiveness: every node the parser builds has a handler

  /** Every stored user function has a body the parser could have built. */
  ghost predicate WfFunctions(st: State) {
    forall f :: f in st.funcs && st.funcs[f].UserFunction? ==> WfBlock(st.funcs[f].body)
  }

  /** The outcome is not a missing handler and not a property read on
      undefined or null. */
  predicate Handled(r: Result<Value, RuntimeError>) {
    r.Err? ==> !r.error.NoVisitMethod? && r.error != HostTypeError
  }

  predicate WfNode(n: AstNode) {
    WfStatement(n) || WfBlock(n) || WfProgram(n)
  }

  lemma {:induction false} EvalHandled(fuel: nat, n: AstNode, st: State)
    requires WfFunctions(st) && WfNode(n)
    ensures Handled(Eval(fuel, n, st).result) && WfFunctions(Eval(fuel, n, st).state)
    decreases fuel, n, 1
  {
    var cs := n.children;
    match n.kind
    case Program =>
      SequenceHandled(fuel, cs, 0, Outcome(Ok(Undefined), st));
    case BlockStatement =>
      SequenceHandled(fuel, cs, 0, Outcome(Ok(Undefined), st));
    case FunctionDeclaration =>
      DeclarationStores(fuel, n, st);
    case FunctionCall =>
      CallHandled(fuel, n, st);
    case BinaryExpression =>
      ExpressionIsNode(cs[0]);
      ExpressionIsNode(cs[1]);
      EvalHandled(fuel, cs[0], st);
      var left := Eval(fuel, cs[0], st);
      if left.result.Ok? {
        EvalHandled(fuel, cs[1], left.state);
      }
    case Identifier =>
    case NumberLiteral =>
    case StringLiteral =>
  }

  lemma ExpressionIsNode(n: AstNode)
    requires WfExpression(n)
    ensures WfNode(n)
  {
    assert n.kind != FunctionDeclaration;
  }

  lemma {:induction false} SequenceHandled(fuel: nat, cs: seq<AstNode>, i: nat, last: Outcome)
    requires i <= |cs| && last.result.Ok?
    requires WfFunctions(last.state)
    requires forall k :: 0 <= k < |cs| ==> WfStatement(cs[k])
    ensures Handled(EvalSequence(fuel, cs, i, last).result)
    ensures WfFunctions(EvalSequence(fuel, cs, i, last).state)
    decreases fuel, cs, |cs| - i
  {
    if i < |cs| {
      EvalHandled(fuel, cs[i], last.state);
      var o := Eval(fuel, cs[i], last.state);
      if o.result.Ok? {
        SequenceHandled(fuel, cs, i + 1, o);
      }
    }
  }

  lemma {:induction false} ArgumentsHandled(fuel: nat, cs: seq<AstNode>, i: nat, done: seq<Value>, st: State)
    requires i <= |cs| && |done| == i
    requires WfFunctions(st)
    requires forall k :: 0 <= k < |cs| ==> WfExpression(cs[k])
    ensures var r := EvalArguments(fuel, cs, i, done, st);
            (r.result.Err? ==> Handled(Err(r.result.error))) && WfFunctions(r.state)
    decreases fuel, cs, |cs| - i
  {
    if i < |cs| {
      EvalHandled(fuel, cs[i], st);
      var o := Eval(fuel, cs[i], st);
      if o.result.Ok? {
        ArgumentsHandled(fuel, cs, i + 1, done + [o.result.value], o.state);
      }
    }
  }

  lemma {:induction false} CallHandled(fuel: nat, n: AstNode, st: State)
    requires WfFunctions(st) && WfExpression(n) && n.kind == FunctionCall
    ensures Handled(EvalCall(fuel, n, st).result) && WfFunctions(EvalCall(fuel, n, st).state)
    decreases fuel, n, 0
  {
    var cs := n.children;
    var name := cs[0].value;
    if name in st.funcs {
      var callee := st.funcs[name];
      ArgumentsHandled(fuel, cs[1].children, 0, [], st);
      var args := EvalArguments(fuel, cs[1].children, 0, [], st);
      if args.result.Ok? && callee.UserFunction? && fuel > 0 {
        var scope := Bind(st.vars, callee.params, args.result.value);
        assert WfBlock(callee.body);
        EvalHandled(fuel - 1, callee.body, args.state.(vars := scope));
      }
    }
  }

  /** The parser's trees, run from a fresh interpreter, never reach a
      missing visit method nor a property read on undefined or null. */
  lemma ProgramsAreHandled(fuel: nat, program: AstNode)
    requires WfProgram(program)
    ensures Handled(Eval(fuel, program, Initial).result)
  {
    EvalHandled(fuel, program, Initial);
  }

  /** Only Parameters and Arguments nodes lack a visit method. */
  lemma NoVisitMethodOnlyForLists(fuel: nat, kind: NodeType, st: State)
    ensures Eval(fuel, Node(kind, "", "", []), st).result.Err? &&
            Eval(fuel, Node(kind, "", "", []), st).result.error.NoVisitMethod?
            <==> kind == Parameters || kind == Arguments
  {
    if kind == NumberLiteral {
      assert NumberValue("") == Num(0);
    }
  }

  // ---------------------------------------------------------------------
  // Arithmetic

  /** Subtracting what was added gives the first operand back. */
  lemma SubtractionUndoesAddition(a: int, b: int, c: int)
    requires IsExact(a) && IsExact(b)
    requires Apply("+", Num(a), Num(b)) == Ok(Num(c))
    ensures Apply("-", Num(c), Num(b)) == Ok(Num(a))
  {
  }

  /** Dividing an exact product by a non-zero factor gives the other
      factor back. */
  lemma DivisionUndoesMultiplication(a: int, b: int, c: int)
    requires IsExact(a) && b != 0
    requires Apply("*", Num(a), Num(b)) == Ok(Num(c))
    ensures Apply("/", Num(c), Num(b)) == Ok(Num(a))
  {
    assert c == a * b;
    assert c % b == 0 && c / b == a by {
      DivExact(a, b);
    }
  }

  /** A quotient that multiplies back to the dividend is exactly what `/`
      gives, unless the dividend is 0 and the divisor negative (-0). */
  lemma ExactQuotient(a: int, b: int, q: int)
    requires b != 0 && q * b == a && IsExact(q) && !(a == 0 && b < 0)
    ensures Apply("/", Num(a), Num(b)) == Ok(Num(q))
  {
    DivExact(q, b);
  }

  lemma DivExact(a: int, b: int)
    requires b != 0
    ensures (a * b) % b == 0 && (a * b) / b == a
  {
    var x := a * b;
    var q, r := x / b, x % b;
    assert x == q * b + r;
    assert 0 <= r < Abs(b);
    assert (a - q) * b == r by {
      assert a * b - q * b == (a - q) * b;
    }
    if a != q {
      MultipleAtLeast(a - q, b);
    }
  }

  function Abs(x: int): nat {
    if x < 0 then -x else x
  }

  lemma AbsProduct(k: int, b: int)
    ensures Abs(k * b) == Abs(k) * Abs(b)
  {
    if k < 0 && b < 0 {
      assert k * b == (-k) * (-b);
    } else if k < 0 {
      assert k * b == -((-k) * b);
    } else if b < 0 {
      assert k * b == -(k * (-b));
    }
  }

  lemma AtLeastOnce(m: nat, n: nat)
    requires m >= 1
    ensures m * n >= n
  {
    assert m * n == (m - 1) * n + n;
  }

  /** A non-zero multiple of b is at least |b| in magnitude. */
  lemma MultipleAtLeast(k: int, b: int)
    requires k != 0 && b != 0
    ensures Abs(k * b) >= Abs(b)
  {
    AbsProduct(k, b);
    AtLeastOnce(Abs(k), Abs(b));
  }

  /** `0 * -1` is -0 in JavaScript, which the model leaves to the host
      rather than confuse with 0. */
  lemma NegativeZeroIsHost()
    ensures Apply("*", Num(0), Num(-1)) == Ok(HostResult("*", Num(0), Num(-1)))
    ensures Apply("/", Num(0), Num(-1)) == Ok(HostResult("/", Num(0), Num(-1)))
  {
  }

  /** The tree of `2 + 3 * 4`, with the product on the right. */
  function SumOfProduct(): AstNode {
    Node(BinaryExpression, "", "+", [Leaf(NumberLiteral, "2"),
      Node(BinaryExpression, "", "*", [Leaf(NumberLiteral, "3"), Leaf(NumberLiteral, "4")])])
  }

  /** Evaluating that tree gives 14 and leaves the state as it was. */
  lemma SumOfProductIsFourteen(fuel: nat, st: State)
    ensures Eval(fuel, SumOfProduct(), st) == Outcome(Ok(Num(14)), st)
  {
    NumberLiteralRoundTrip(2);
    NumberLiteralRoundTrip(3);
    NumberLiteralRoundTrip(4);
    assert Decimal(2) == "2" && Decimal(3) == "3" && Decimal(4) == "4";
    var product := SumOfProduct().children[1];
    assert Eval(fuel, product, st) == Outcome(Ok(Num(12)), st);
  }

  /** Strings are joined by `+`; every other operator on strings is left
      to the host's coercions. */
  lemma StringOperators(op: string, a: string, b: string)
    requires IsArithmetic(op)
    ensures Apply(op, Str(a), Str(b)) == if op == "+" then Ok(Str(a + b)) else Ok(HostResult(op, Str(a), Str(b)))
  {
  }

  // ---------------------------------------------------------------------
  // Number literals

  /** The decimal digits of n, without leading zeros. */
  function Decimal(n: nat): (s: string)
    ensures |s| > 0 && AllDigits(s)
  {
    var d := ['0' + (n % 10) as char];
    if n < 10 then d else Decimal(n / 10) + d
  }

  lemma {:induction false} DecimalValue(n: nat)
    ensures DigitsValue(Decimal(n)) == n
  {
    var s := Decimal(n);
    if n >= 10 {
      DecimalValue(n / 10);
      assert s[..|s| - 1] == Decimal(n / 10);
    }
  }

  lemma {:induction false} LeadingDigitsOfDigits(s: string)
    requires AllDigits(s)
    ensures LeadingDigits(s) == |s|
  {
    if s != [] {
      LeadingDigitsOfDigits(s[1..]);
    }
  }

  /** The literal written as the decimal digits of an exact integer
      denotes that integer. */
  lemma NumberLiteralRoundTrip(n: nat)
    requires n <= MaxExact
    ensures NumberValue(Decimal(n)) == Num(n)
  {
    LeadingDigitsOfDigits(Decimal(n));
    DecimalValue(n);
    assert Decimal(n)[..|Decimal(n)|] == Decimal(n);
  }

  /** A lexeme with two dots, which the lexer accepts, is `NaN` to the host. */
  lemma SeveralDotsAreHost()
    ensures NumberValue("1.2.3") == HostNumber("1.2.3")
  {
    assert LeadingDigits("1.2.3") == 1 by {
      assert "1.2.3"[1..] == ".2.3";
    }
    assert !AllZeros("1.2.3"[2..]) by {
      assert "1.2.3"[2..][0] == '2';
    }
  }

  // ---------------------------------------------------------------------
  // Calls

  function Call(name: string, args: seq<AstNode>): AstNode {
    Node(FunctionCall, "", "", [Leaf(Identifier, name), Node(Arguments, "", "", args)])
  }

  function Block(stmts: seq<AstNode>): AstNode {
    Node(BlockStatement, "", "", stmts)
  }

  /** A call of a user function whose arguments evaluate in the caller's
      state runs the body in the caller's variables (taken before the
      arguments) with the parameters bound, and on a normal return gives
      the caller's variables back. */
  lemma UserCall(fuel: nat, name: string, args: seq<AstNode>, st: State)
    requires name in st.funcs && st.funcs[name].UserFunction?
    requires EvalArguments(fuel, args, 0, [], st).result.Ok?
    ensures var f := st.funcs[name];
            var a := EvalArguments(fuel, args, 0, [], st);
            var scope := Bind(st.vars, f.params, a.result.value);
            var r := EvalCall(fuel, Call(name, args), st);
            (fuel == 0 ==> r == Outcome(Err(StackOverflow), a.state.(vars := scope)))
            && (fuel > 0 ==>
                  var body := Eval(fuel - 1, f.body, a.state.(vars := scope));
                  r.result == body.result
                  && (body.result.Ok? ==> r.state == body.state.(vars := st.vars))
                  && (body.result.Err? ==> r.state == body.state))
  {
  }

  /** The built-in evaluates its arguments, records them, and yields
      undefined. */
  lemma BuiltinCall(fuel: nat, name: string, args: seq<AstNode>, st: State)
    requires name in st.funcs && st.funcs[name].Builtin?
    ensures var a := EvalArguments(fuel, args, 0, [], st);
            EvalCall(fuel, Call(name, args), st) ==
              if a.result.Err? then Outcome(Err(a.result.error), a.state)
              else Outcome(Ok(Undefined), a.state.(output := a.state.output + [a.result.value]))
  {
  }

  /** Calling a name `functions` does not hold throws before any argument
      is evaluated. */
  lemma UndefinedFunctionCall(fuel: nat, name: string, args: seq<AstNode>, st: State)
    requires name !in st.funcs
    ensures Eval(fuel, Call(name, args), st) == Outcome(Err(UndefinedFunction(name)), st)
  {
  }

  /** The state in which `f(a) { g(); }` has been declared. */
  function WithF(): State {
    Initial.(funcs := Initial.funcs["f" := UserFunction(["a"], Block([Call("g", [])]))])
  }

  /** When the body throws, `variables` is left as the callee's scope: the
      caller's empty map is not put back. */
  lemma BodyErrorLeavesCalleeScope(fuel: nat)
    requires fuel > 0
    ensures Eval(fuel, Call("f", [Leaf(NumberLiteral, "7")]), WithF()) ==
              Outcome(Err(UndefinedFunction("g")), WithF().(vars := map["a" := Num(7)]))
  {
    var st := WithF();
    assert NumberValue("7") == Num(7) by {
      assert LeadingDigits("7") == 1;
      assert "7"[..1] == "7" && "7"[..0] == "";
    }
    var args := EvalArguments(fuel, [Leaf(NumberLiteral, "7")], 0, [], st);
    assert Eval(fuel, Leaf(NumberLiteral, "7"), st) == Outcome(Ok(Num(7)), st);
    assert [] + [Num(7)] == [Num(7)];
    assert EvalArguments(fuel, [Leaf(NumberLiteral, "7")], 1, [Num(7)], st) == ArgsOutcome(Ok([Num(7)]), st);
    assert args == ArgsOutcome(Ok([Num(7)]), st);
    assert Bind(map[], ["a"], [Num(7)]) == map["a" := Num(7)] by {
      assert ["a"][..0] == [];
    }
    var inner := st.(vars := map["a" := Num(7)]);
    assert Eval(fuel - 1, Call("g", []), inner) == Outcome(Err(UndefinedFunction("g")), inner);
    assert EvalSequence(fuel - 1, [Call("g", [])], 0, Outcome(Ok(Undefined), inner)) ==
             Outcome(Err(UndefinedFunction("g")), inner);
    assert Eval(fuel - 1, Block([Call("g", [])]), inner) == Outcome(Err(UndefinedFunction("g")), inner);
    assert EvalCall(fuel, Call("f", [Leaf(NumberLiteral, "7")]), st) ==
             Outcome(Err(UndefinedFunction("g")), inner);
  }

  /** The state in which `h() { x; }` has been declared. */
  function WithH(): State {
    Initial.(funcs := Initial.funcs["h" := UserFunction([], Block([Leaf(Identifier, "x")]))])
  }

  /** Scoping is dynamic: a function reads the variables of whoever called
      it. Here a body that calls `h()` with `x` bound sees that `x`. */
  lemma CalleeSeesCallerVariables(fuel: nat, v: Value)
    requires fuel > 0 && v != Undefined
    ensures Eval(fuel, Call("h", []), WithH().(vars := map["x" := v])).result == Ok(v)
  {
    var st := WithH().(vars := map["x" := v]);
    assert EvalArguments(fuel, [], 0, [], st) == ArgsOutcome(Ok([]), st);
    assert Bind(st.vars, [], []) == st.vars;
    assert Eval(fuel - 1, Leaf(Identifier, "x"), st) == Outcome(Ok(v), st);
    assert EvalSequence(fuel - 1, [Leaf(Identifier, "x")], 1, Outcome(Ok(v), st)) == Outcome(Ok(v), st);
    assert EvalSequence(fuel - 1, [Leaf(Identifier, "x")], 0, Outcome(Ok(Undefined), st)) == Outcome(Ok(v), st);
    assert Eval(fuel - 1, Block([Leaf(Identifier, "x")]), st) == Outcome(Ok(v), st);
    assert EvalCall(fuel, Call("h", []), st).result == Ok(v);
  }
}
