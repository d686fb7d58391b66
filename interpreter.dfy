/** The tree-walking interpreter of src/interpreter/index.js.

    Eval and its companions say what visiting a node computes from a state
    (the `variables` map, the `functions` table and what the built-in has
    written so far); the class Interpreter holds that state in fields and
    is proved to agree with them. JavaScript's recursion depth is a `fuel`
    parameter: a user-function call past it fails with StackOverflow, the
    RangeError an engine throws when its stack is exhausted. */
module Interpreting {
  import opened Wrappers
  import opened Lexing
  import opened Parsing

  // ---------------------------------------------------------------------
  // Values

  /** 2^53: every integer up to it in magnitude is an exact double. */
  const MaxExact: int := 0x20_0000_0000_0000

  predicate IsExact(v: int) {
    -MaxExact <= v <= MaxExact
  }

  /** A JavaScript value as far as the model interprets it:
      - Undefined is `undefined`;
      - Num(v) is the double holding the integer v exactly (never -0);
      - Str is a string;
      - HostNumber(text) is `Number(text)` and HostResult(op, l, r) is
        `l op r`, both as the engine computes them with IEEE-754 doubles
        and coercions, which the model leaves uninterpreted. */
  datatype Value =
    | Undefined
    | Num(v: int)
    | Str(s: string)
    | HostNumber(text: string)
    | HostResult(op: string, left: Value, right: Value)

  predicate AllDigits(s: string) {
    forall i :: 0 <= i < |s| ==> IsDigit(s[i])
  }

  predicate AllZeros(s: string) {
    forall i :: 0 <= i < |s| ==> s[i] == '0'
  }

  /** The integer a string of decimal digits denotes. */
  function DigitsValue(s: string): (v: nat)
    requires AllDigits(s)
    ensures |s| > 0 && s[0] != '0' ==> v > 0
  {
    if s == [] then 0
    else DigitsValue(s[..|s| - 1]) * 10 + (s[|s| - 1] as int - '0' as int)
  }

  /** The length of the run of digits that starts `s`. */
  function LeadingDigits(s: string): (k: nat)
    ensures k <= |s| && AllDigits(s[..k]) && (k < |s| ==> !IsDigit(s[k]))
  {
    if s == [] || !IsDigit(s[0]) then 0
    else
      var k := 1 + LeadingDigits(s[1..]);
      assert s[..k] == [s[0]] + s[1..][..k - 1];
      k
  }

  /** `Number(node.value)` of visitNumberLiteral for a literal's lexeme:
      digits, or digits followed by a dot and only zeros, denote an integer,
      exact when it is at most 2^53; every other lexeme (a fraction, two
      dots, a larger integer) is left to the host. */
  function NumberValue(lexeme: string): (r: Value)
    ensures r.Num? || r == HostNumber(lexeme)
    ensures r.Num? ==> 0 <= r.v <= MaxExact
    ensures r.Num? && |lexeme| > 0 ==> IsDigit(lexeme[0])
  {
    var k := LeadingDigits(lexeme);
    var integral := k == |lexeme| || (k > 0 && lexeme[k] == '.' && AllZeros(lexeme[k + 1..]));
    if integral && DigitsValue(lexeme[..k]) <= MaxExact then Num(DigitsValue(lexeme[..k]))
    else HostNumber(lexeme)
  }

  predicate IsArithmetic(op: string) {
    op == "+" || op == "-" || op == "*" || op == "/"
  }

  /** `left op right` for two exact integers: the exact result when the
      double result is that integer, otherwise left to the host (rounding,
      a fraction, a division by zero, or -0). */
  function NumberArithmetic(op: string, a: int, b: int): (r: Value)
    requires IsArithmetic(op)
    ensures r.Num? ==> IsExact(r.v)
    ensures r.Num? && op == "+" ==> r.v == a + b
    ensures r.Num? && op == "-" ==> r.v == a - b
    ensures r.Num? && op == "*" ==> r.v == a * b
    ensures r.Num? && op == "/" ==> b != 0 && r.v * b == a && !(a == 0 && b < 0)
    ensures op == "+" ==> (r.Num? <==> IsExact(a + b))
    ensures op == "-" ==> (r.Num? <==> IsExact(a - b))
    ensures op == "*" ==> (r.Num? <==> IsExact(a * b) && !(a * b == 0 && (a < 0 || b < 0)))
  {
    var exact :=
      match op
      case "+" => Some(a + b)
      case "-" => Some(a - b)
      case "*" => if a * b == 0 && (a < 0 || b < 0) then None else Some(a * b)
      case _ => if b != 0 && a % b == 0 && !(a == 0 && b < 0) then Some(a / b) else None;
    if exact.Some? && IsExact(exact.value) then Num(exact.value)
    else HostResult(op, Num(a), Num(b))
  }

  /** The switch of visitBinaryExpression, after both operands are evaluated. */
  function Apply(op: string, left: Value, right: Value): (r: Result<Value, RuntimeError>)
    ensures r.Err? <==> !IsArithmetic(op)
    ensures r.Err? ==> r.error == UnknownOperator(op)
    ensures r.Ok? && r.value.Str? ==> op == "+" && left.Str? && right.Str? && r.value.s == left.s + right.s
    ensures op == "+" && left.Str? && right.Str? ==> r == Ok(Str(left.s + right.s))
    ensures IsArithmetic(op) && left.Num? && right.Num? ==> r.Ok? && !r.value.Str? && !r.value.Undefined?
  {
    if !IsArithmetic(op) then Err(UnknownOperator(op))
    else if left.Num? && right.Num? then Ok(NumberArithmetic(op, left.v, right.v))
    else if left.Str? && right.Str? && op == "+" then Ok(Str(left.s + right.s))
    else Ok(HostResult(op, left, right))
  }

  // ---------------------------------------------------------------------
  // State

  /** The name of the built-in that writes its arguments to the console. */
  const PrintName: string := "मुद्रण"

  /** An entry of `functions`: the built-in, or the parameter names and body
      a declaration stored. */
  datatype Callable = Builtin | UserFunction(params: seq<string>, body: AstNode)

  datatype RuntimeError =
    | UndefinedVariable(name: string)
    | UndefinedFunction(name: string)
    | UnknownOperator(op: string)
    | NoVisitMethod(kind: NodeType)
    | HostTypeError            // a property read on undefined or null
    | StackOverflow

  /** The interpreter's fields, and the argument lists the built-in has
      been called with, in order. */
  datatype State = State(vars: map<string, Value>, funcs: map<string, Callable>, output: seq<seq<Value>>)

  /** The state of a new Interpreter. */
  const Initial: State := State(map[], map[PrintName := Builtin], [])

  /** The result of visiting a node, and the state after it: JavaScript
      throws leave the fields as they were at the throw. */
  datatype Outcome = Outcome(result: Result<Value, RuntimeError>, state: State)

  datatype ArgsOutcome = ArgsOutcome(result: Result<seq<Value>, RuntimeError>, state: State)

  /** `this.variables.get(name)`: a key that is absent reads as undefined. */
  function Get(vars: map<string, Value>, name: string): Value {
    if name in vars then vars[name] else Undefined
  }

  /** `visitIdentifier`. */
  function LookupIdentifier(name: string, st: State): (r: Result<Value, RuntimeError>)
    ensures r.Err? <==> Get(st.vars, name) == Undefined && name !in st.funcs
    ensures r.Err? ==> r.error == UndefinedVariable(name)
    ensures r.Ok? ==> r.value == Get(st.vars, name)
  {
    var value := Get(st.vars, name);
    if value == Undefined && name !in st.funcs then Err(UndefinedVariable(name)) else Ok(value)
  }

  /** The `forEach` of visitFunctionCall: parameter i is set to argument i,
      or to undefined where there are fewer arguments, from first to last. */
  function Bind(scope: map<string, Value>, params: seq<string>, args: seq<Value>): (r: map<string, Value>)
    ensures r.Keys == scope.Keys + set p | p in params
  {
    if params == [] then scope
    else
      var i := |params| - 1;
      var prior := Bind(scope, params[..i], args);
      assert params == params[..i] + [params[i]];
      prior[params[i] := if i < |args| then args[i] else Undefined]
  }

  /** The names of the Parameters node's children, or None when one of them
      is null (reading `p.value` throws). */
  function ParamNames(ps: seq<AstNode>): (r: Option<seq<string>>)
    ensures r.Some? <==> forall i :: 0 <= i < |ps| ==> ps[i].Node?
    ensures r.Some? ==> |r.value| == |ps| && forall i :: 0 <= i < |ps| ==> r.value[i] == ps[i].value
  {
    if ps == [] then Some([])
    else
      var rest := ParamNames(ps[1..]);
      if ps[0].Null? || rest.None? then
        (if ps[0].Node? then
          var j :| 0 <= j < |ps[1..]| && ps[1..][j].Null?;
          assert ps[j + 1].Null?;
          None
        else None)
      else Some([ps[0].value] + rest.value)
  }

  /** `visitFunctionDeclaration`: store the parameter names and the body
      under the name, replacing any entry; the result is undefined. A
      missing body is stored as null and fails only when called. */
  function Declare(cs: seq<AstNode>, st: State): (r: Outcome)
    ensures r.state.vars == st.vars && r.state.output == st.output
    ensures r.state.funcs.Keys >= st.funcs.Keys
    ensures r.result.Ok? ==> r.result.value == Undefined
    ensures r.result.Err? ==> r.result.error == HostTypeError && r.state == st
  {
    if |cs| < 2 || cs[0].Null? || cs[1].Null? then Outcome(Err(HostTypeError), st)
    else
      var names := ParamNames(cs[1].children);
      if names.None? then Outcome(Err(HostTypeError), st)
      else
        var body := if |cs| > 3 then cs[3] else Null;
        Outcome(Ok(Undefined), st.(funcs := st.funcs[cs[0].value := UserFunction(names.value, body)]))
  }

  // ---------------------------------------------------------------------
  // Evaluation

  /** `visit(node)`. A successful visit leaves `variables` as it found it;
      `functions` only gains names and the console only grows, whether the
      visit succeeds or throws. */
  function Eval(fuel: nat, n: AstNode, st: State): (r: Outcome)
    ensures r.result.Ok? ==> r.state.vars == st.vars
    ensures r.state.funcs.Keys >= st.funcs.Keys
    ensures |r.state.output| >= |st.output| && r.state.output[..|st.output|] == st.output
    decreases fuel, n, 1
  {
    match n
    case Null => Outcome(Err(HostTypeError), st)
    case Node(kind, value, op, cs) =>
      match kind
      case Program => EvalSequence(fuel, cs, 0, Outcome(Ok(Undefined), st))
      case BlockStatement => EvalSequence(fuel, cs, 0, Outcome(Ok(Undefined), st))
      case FunctionDeclaration => Declare(cs, st)
      case FunctionCall => EvalCall(fuel, n, st)
      case Identifier => Outcome(LookupIdentifier(value, st), st)
      case NumberLiteral => Outcome(Ok(NumberValue(value)), st)
      case StringLiteral => Outcome(Ok(Str(value)), st)
      case BinaryExpression =>
        if |cs| == 0 then Outcome(Err(HostTypeError), st)
        else
          var left := Eval(fuel, cs[0], st);
          if left.result.Err? then left
          else if |cs| == 1 then Outcome(Err(HostTypeError), left.state)
          else
            var right := Eval(fuel, cs[1], left.state);
            if right.result.Err? then right
            else Outcome(Apply(op, left.result.value, right.result.value), right.state)
      case Parameters => Outcome(Err(NoVisitMethod(kind)), st)
      case Arguments => Outcome(Err(NoVisitMethod(kind)), st)
  }

  /** The loop of visitProgram and visitBlockStatement from child `i` on:
      `last` holds the result so far (undefined before the first child). */
  function EvalSequence(fuel: nat, cs: seq<AstNode>, i: nat, last: Outcome): (r: Outcome)
    requires i <= |cs| && last.result.Ok?
    ensures r.result.Ok? ==> r.state.vars == last.state.vars
    ensures r.state.funcs.Keys >= last.state.funcs.Keys
    ensures |r.state.output| >= |last.state.output| && r.state.output[..|last.state.output|] == last.state.output
    decreases fuel, cs, |cs| - i
  {
    if i == |cs| then last
    else
      var o := Eval(fuel, cs[i], last.state);
      if o.result.Err? then o else EvalSequence(fuel, cs, i + 1, o)
  }

  /** `args.children.map(arg => this.visit(arg))` from argument `i` on. */
  function EvalArguments(fuel: nat, cs: seq<AstNode>, i: nat, done: seq<Value>, st: State): (r: ArgsOutcome)
    requires i <= |cs| && |done| == i
    ensures r.result.Ok? ==> r.state.vars == st.vars && |r.result.value| == |cs|
    ensures r.result.Ok? ==> r.result.value[..i] == done
    ensures r.state.funcs.Keys >= st.funcs.Keys
    ensures |r.state.output| >= |st.output| && r.state.output[..|st.output|] == st.output
    decreases fuel, cs, |cs| - i
  {
    if i == |cs| then ArgsOutcome(Ok(done), st)
    else
      var o := Eval(fuel, cs[i], st);
      if o.result.Err? then ArgsOutcome(Err(o.result.error), o.state)
      else
        var r := EvalArguments(fuel, cs, i + 1, done + [o.result.value], o.state);
        assert r.result.Ok? ==> r.result.value[..i] == r.result.value[..i + 1][..i];
        r
  }

  /** `visitFunctionCall`. The function is looked up before the arguments
      are evaluated; the built-in records its arguments and returns
      undefined; a user function runs in a copy of the caller's variables
      taken before the arguments, extended by its parameters, and the
      caller's map is put back only when the body returns normally. */
  function EvalCall(fuel: nat, n: AstNode, st: State): (r: Outcome)
    requires n.Node?
    ensures r.result.Ok? ==> r.state.vars == st.vars
    ensures r.state.funcs.Keys >= st.funcs.Keys
    ensures |r.state.output| >= |st.output| && r.state.output[..|st.output|] == st.output
    decreases fuel, n, 0
  {
    var cs := n.children;
    if |cs| == 0 || cs[0].Null? then Outcome(Err(HostTypeError), st)
    else
      var name := cs[0].value;
      if name !in st.funcs then Outcome(Err(UndefinedFunction(name)), st)
      else
        var callee := st.funcs[name];
        if |cs| == 1 || cs[1].Null? then Outcome(Err(HostTypeError), st)
        else
          var args := EvalArguments(fuel, cs[1].children, 0, [], st);
          if args.result.Err? then Outcome(Err(args.result.error), args.state)
          else
            var after := args.state;
            match callee
            case Builtin =>
              Outcome(Ok(Undefined), after.(output := after.output + [args.result.value]))
            case UserFunction(params, body) =>
              var scope := Bind(st.vars, params, args.result.value);
              if fuel == 0 then Outcome(Err(StackOverflow), after.(vars := scope))
              else
                var o := Eval(fuel - 1, body, after.(vars := scope));
                if o.result.Err? then o else Outcome(o.result, o.state.(vars := after.vars))
  }

  // ---------------------------------------------------------------------
  // The interpreter object

  /** `class Interpreter`: the `variables` and `functions` maps, and the
      console the built-in writes to. */
  class Interpreter {
    var variables: map<string, Value>
    var functions: map<string, Callable>
    var output: seq<seq<Value>>

    function Current(): State
      reads this
    {
      State(variables, functions, output)
    }

    /** A new interpreter knows no variables and only the built-in. */
    constructor()
      ensures Current() == Initial
    {
      variables := map[];
      functions := map[PrintName := Builtin];
      output := [];
    }

    /** `interpret(ast)`. */
    method Interpret(fuel: nat, ast: AstNode) returns (r: Result<Value, RuntimeError>)
      modifies this
      ensures Outcome(r, Current()) == Eval(fuel, ast, old(Current()))
    {
      r := Visit(fuel, ast);
    }

    /** `visit(node)`: dispatch on the node's type. */
    method Visit(fuel: nat, node: AstNode) returns (r: Result<Value, RuntimeError>)
      modifies this
      ensures Outcome(r, Current()) == Eval(fuel, node, old(Current()))
      decreases fuel, node, 1
    {
      if node.Null? {
        return Err(HostTypeError);
      }
      match node.kind
      case Program => r := VisitSequence(fuel, node.children);
      case BlockStatement => r := VisitSequence(fuel, node.children);
      case FunctionDeclaration => r := VisitFunctionDeclaration(node.children);
      case FunctionCall => r := VisitFunctionCall(fuel, node);
      case Identifier => r := LookupIdentifier(node.value, Current());
      case NumberLiteral => r := Ok(NumberValue(node.value));
      case StringLiteral => r := Ok(Str(node.value));
      case BinaryExpression => r := VisitBinaryExpression(fuel, node);
      case Parameters => r := Err(NoVisitMethod(node.kind));
      case Arguments => r := Err(NoVisitMethod(node.kind));
    }

    /** `visitProgram` and `visitBlockStatement`: visit the children in
        order and return the last result. */
    method VisitSequence(fuel: nat, children: seq<AstNode>) returns (r: Result<Value, RuntimeError>)
      modifies this
      ensures Outcome(r, Current()) == EvalSequence(fuel, children, 0, Outcome(Ok(Undefined), old(Current())))
      decreases fuel, children, |children| + 1
    {
      var result := Undefined;
      var i := 0;
      while i < |children|
        invariant 0 <= i <= |children|
        invariant EvalSequence(fuel, children, i, Outcome(Ok(result), Current()))
                  == EvalSequence(fuel, children, 0, Outcome(Ok(Undefined), old(Current())))
      {
        var v := Visit(fuel, children[i]);
        if v.Err? {
          return v;
        }
        result := v.value;
        i := i + 1;
      }
      return Ok(result);
    }

    /** `visitFunctionDeclaration`. */
    method VisitFunctionDeclaration(children: seq<AstNode>) returns (r: Result<Value, RuntimeError>)
      modifies this
      ensures Outcome(r, Current()) == Declare(children, old(Current()))
    {
      if |children| < 2 || children[0].Null? || children[1].Null? {
        return Err(HostTypeError);
      }
      var names := ParamNames(children[1].children);
      if names.None? {
        return Err(HostTypeError);
      }
      var body := if |children| > 3 then children[3] else Null;
      functions := functions[children[0].value := UserFunction(names.value, body)];
      return Ok(Undefined);
    }

    /** `args.children.map(arg => this.visit(arg))`. */
    method VisitArguments(fuel: nat, args: seq<AstNode>) returns (r: Result<seq<Value>, RuntimeError>)
      modifies this
      ensures ArgsOutcome(r, Current()) == EvalArguments(fuel, args, 0, [], old(Current()))
      decreases fuel, args, |args| + 1
    {
      var values: seq<Value> := [];
      var i := 0;
      while i < |args|
        invariant 0 <= i <= |args| && |values| == i
        invariant EvalArguments(fuel, args, i, values, Current())
                  == EvalArguments(fuel, args, 0, [], old(Current()))
      {
        var v := Visit(fuel, args[i]);
        if v.Err? {
          return Err(v.error);
        }
        values := values + [v.value];
        i := i + 1;
      }
      return Ok(values);
    }

    /** `visitFunctionCall`. */
    method VisitFunctionCall(fuel: nat, node: AstNode) returns (r: Result<Value, RuntimeError>)
      requires node.Node?
      modifies this
      ensures Outcome(r, Current()) == EvalCall(fuel, node, old(Current()))
      decreases fuel, node, 0
    {
      var cs := node.children;
      if |cs| == 0 || cs[0].Null? {
        return Err(HostTypeError);
      }
      var funcName := cs[0].value;
      if funcName !in functions {
        return Err(UndefinedFunction(funcName));
      }
      var func := functions[funcName];
      if |cs| == 1 || cs[1].Null? {
        return Err(HostTypeError);
      }
      if func.Builtin? {
        var evaluated :- VisitArguments(fuel, cs[1].children);
        output := output + [evaluated];
        return Ok(Undefined);
      }
      var scope := variables;
      var evaluated :- VisitArguments(fuel, cs[1].children);
      var i := 0;
      while i < |func.params|
        invariant 0 <= i <= |func.params|
        invariant scope == Bind(old(variables), func.params[..i], evaluated)
      {
        assert func.params[..i + 1][..i] == func.params[..i];
        scope := scope[func.params[i] := if i < |evaluated| then evaluated[i] else Undefined];
        i := i + 1;
      }
      assert func.params[..i] == func.params;
      var oldVars := variables;
      variables := scope;
      if fuel == 0 {
        return Err(StackOverflow);
      }
      r := Visit(fuel - 1, func.body);
      if r.Ok? {
        variables := oldVars;
      }
    }

    /** `visitBinaryExpression`. */
    method VisitBinaryExpression(fuel: nat, node: AstNode) returns (r: Result<Value, RuntimeError>)
      requires node.Node? && node.kind == BinaryExpression
      modifies this
      ensures Outcome(r, Current()) == Eval(fuel, node, old(Current()))
      decreases fuel, node, 0
    {
      if |node.children| == 0 {
        return Err(HostTypeError);
      }
      var left :- Visit(fuel, node.children[0]);
      if |node.children| == 1 {
        return Err(HostTypeError);
      }
      var right :- Visit(fuel, node.children[1]);
      return Apply(node.operator, left, right);
    }
  }
}
