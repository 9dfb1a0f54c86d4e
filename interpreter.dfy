/**
 * The expression evaluator (interpreter/interpreter.go) and user functions
 * (interpreter/loxFunction.go). Evaluation is a total function from an expression to a
 * value, a runtime error, or a Go panic; a call binds its parameters in a fresh scope that
 * encloses the function's closure and runs the body there.
 */
module Interpreter {
  import opened TokenTypes
  import opened Tokens
  import opened Ast
  import opened LoxError
  import opened Environment

  /** A user function value: its declaration and the scope it closes over. */
  datatype LoxFunction = LoxFunction(declaration: Function, closure: Environment<Value>)

  /** The runtime values of the evaluator: the Go `Object` cases it produces or receives. */
  datatype Value = NilVal | BoolVal(b: bool) | NumVal(n: real) | StrVal(s: string) | FnVal(f: LoxFunction)

  type Outcome = Result<Value, Value>

  const MustBeNumber: string := "Operand(s) must be a number"
  const MustBeNumbersOrStrings: string := "Operand(s) must be two numbers or two strings"
  const DivideByZero: string := "Cannot divide by zero"
  /** Why typeOf panics: reflect.TypeOf(nil) has no String method to call. */
  const TypeOfNil: string := "typeOf(nil)"
  /** Why `+` panics on a string and a non-string, non-number: the assertion `.(string)` fails. */
  const NotAString: string := "interface conversion: not a string"

  /** The value a literal's Go object is at run time. */
  function ValueOf(o: Object): (v: Value)
    ensures v.FnVal? == false
    ensures o.Null? <==> v.NilVal?
  {
    match o
    case Null => NilVal
    case Boolean(b) => BoolVal(b)
    case Num(n) => NumVal(n)
    case Str(s) => StrVal(s)
  }

  // ---------------------------------------------------------------------------------------
  // Helpers of the evaluator

  /** isTruthy: nil and false are falsey, everything else (0 and "" included) is truthy. */
  predicate IsTruthy(v: Value)
    ensures IsTruthy(v) <==> v != NilVal && v != BoolVal(false)
  {
    match v
    case NilVal => false
    case BoolVal(b) => b
    case _ => true
  }

  /**
   * isEqual: nil equals only nil; otherwise reflect.DeepEqual, which for these values is
   * equality of the dynamic type and the value.
   */
  function IsEqual(x: Value, y: Value): (r: bool)
    ensures r <==> x == y
  {
    if x.NilVal? && y.NilVal? then true
    else if x.NilVal? then false
    else match (x, y)
      case (BoolVal(a), BoolVal(b)) => a == b
      case (NumVal(a), NumVal(b)) => a == b
      case (StrVal(a), StrVal(b)) => a == b
      case (FnVal(a), FnVal(b)) => a == b
      case _ => false
  }

  lemma EqualitySymmetric(x: Value, y: Value)
    ensures IsEqual(x, y) == IsEqual(y, x)
    ensures IsEqual(NilVal, y) <==> y.NilVal?
  {
  }

  /**
   * verifyType("float64", "number", operator, operands...): the operands are checked in
   * order; the first nil panics in typeOf, the first other non-number is a runtime error.
   */
  function VerifyNumbers(operator: Token, operands: seq<Value>): (r: Result<(), Value>)
    ensures r.Ok? <==> forall i | 0 <= i < |operands| :: operands[i].NumVal?
    ensures r.Ok? ==> r == Ok(())
    ensures r.Err? ==> r.error == RuntimeErr(operator, MustBeNumber)
    ensures !r.Ok? ==>
              exists i | 0 <= i < |operands| ::
                && !operands[i].NumVal? && (forall j | 0 <= j < i :: operands[j].NumVal?)
                && (r.Panic? <==> operands[i].NilVal?)
  {
    if operands == [] then Ok(())
    else if operands[0].NilVal? then Panic(TypeOfNil)
    else if !operands[0].NumVal? then Err(RuntimeErr(operator, MustBeNumber))
    else
      var rest := VerifyNumbers(operator, operands[1..]);
      assert forall i | 1 <= i < |operands| :: operands[i] == operands[1..][i - 1];
      rest
  }

  // ---------------------------------------------------------------------------------------
  // Operators

  /** VisitUnary after its operand evaluated to `right`. */
  function UnaryOp(operator: Token, right: Value): (r: Outcome)
    ensures operator.ttype == Bang ==> r == Ok(BoolVal(!IsTruthy(right)))
    ensures operator.ttype == Minus && right.NumVal? ==> r == Ok(NumVal(-right.n))
    ensures operator.ttype == Minus && right.NilVal? ==> r.Panic?
    ensures operator.ttype == Minus && !right.NumVal? && !right.NilVal? ==> r == Err(RuntimeErr(operator, MustBeNumber))
    ensures operator.ttype != Bang && operator.ttype != Minus ==> r == Ok(NilVal)
  {
    match operator.ttype
    case Bang => Ok(BoolVal(!IsTruthy(right)))
    case Minus =>
      (match VerifyNumbers(operator, [right])
       case Ok(_) => Ok(NumVal(-right.n))
       case Err(e) => Err(e)
       case Panic(p) => Panic(p))
    case _ => Ok(NilVal)
  }

  /** The operators that need two numbers. */
  predicate NumericOperator(t: TokenType)
  {
    t in [Great, GreatEqual, Less, LessEqual, Minus, Slash, Star]
  }

  /** `+` after both operands evaluated, following the order of typeOf calls in the source. */
  function Add(operator: Token, left: Value, right: Value, numText: real -> string): (r: Outcome)
    ensures r.Err? <==>
              && !left.NilVal? && !right.NilVal? && !left.StrVal? && !right.StrVal?
              && !(left.NumVal? && right.NumVal?)
    ensures r.Err? ==> r.error == RuntimeErr(operator, MustBeNumbersOrStrings)
    ensures r.Ok? ==> (left.NumVal? && right.NumVal? && r.value == NumVal(left.n + right.n)) || r.value.StrVal?
  {
    if left.NilVal? then Panic(TypeOfNil)
    else if left.NumVal? && right.NilVal? then Panic(TypeOfNil)
    else if left.NumVal? && right.NumVal? then Ok(NumVal(left.n + right.n))
    else if left.StrVal? then
      if right.NilVal? then Panic(TypeOfNil)
      else if right.NumVal? then Ok(StrVal(left.s + numText(right.n)))
      else if right.StrVal? then Ok(StrVal(left.s + right.s))
      else Panic(NotAString)
    else if right.NilVal? then Panic(TypeOfNil)
    else if right.StrVal? then
      if left.NumVal? then Ok(StrVal(numText(left.n) + right.s)) else Panic(NotAString)
    else Err(RuntimeErr(operator, MustBeNumbersOrStrings))
  }

  /** VisitBinary after both operands evaluated. */
  function BinaryOp(operator: Token, left: Value, right: Value, numText: real -> string): (r: Outcome)
    ensures r.Err? ==> r.error.RuntimeErr? && r.error.token == operator
    ensures operator.ttype in [BangEqual, EqualEqual] ==> r.Ok? && r.value.BoolVal?
    ensures r.Ok? && operator.ttype in [Great, GreatEqual, Less, LessEqual] ==> r.value.BoolVal?
    ensures r.Ok? && operator.ttype in [Minus, Slash, Star] ==> r.value.NumVal?
    ensures !NumericOperator(operator.ttype) && operator.ttype !in [BangEqual, EqualEqual, Plus] ==> r == Ok(NilVal)
  {
    var t := operator.ttype;
    if t == BangEqual then Ok(BoolVal(!IsEqual(left, right)))
    else if t == EqualEqual then Ok(BoolVal(IsEqual(left, right)))
    else if t == TokenType.Plus then Add(operator, left, right, numText)
    else if !NumericOperator(t) then Ok(NilVal)
    else NumericOp(operator, left, right)
  }

  /** The operators that need two numbers: verifyType on the right operand, then the left. */
  function NumericOp(operator: Token, left: Value, right: Value): (r: Outcome)
    requires NumericOperator(operator.ttype)
    ensures r.Err? ==> r.error.RuntimeErr? && r.error.token == operator
    ensures r.Ok? ==> left.NumVal? && right.NumVal? && r == Arithmetic(operator, left.n, right.n)
  {
    match VerifyNumbers(operator, [right, left])
    case Err(e) => Err(e)
    case Panic(p) => Panic(p)
    case Ok(_) =>
      assert [right, left][0].NumVal? && [right, left][1].NumVal?;
      Arithmetic(operator, left.n, right.n)
  }

  /** A numeric operator once both operands are known to be numbers. */
  function Arithmetic(operator: Token, a: real, b: real): (r: Outcome)
    requires NumericOperator(operator.ttype)
    ensures r.Err? <==> operator.ttype == Slash && b == 0.0
    ensures r.Err? ==> r.error == RuntimeErr(operator, DivideByZero)
    ensures r.Ok? && operator.ttype in [Great, GreatEqual, Less, LessEqual] ==> r.value.BoolVal?
    ensures r.Ok? && operator.ttype in [Minus, Slash, Star] ==> r.value.NumVal?
  {
    var t := operator.ttype;
    if t == Great then Ok(BoolVal(a > b))
    else if t == GreatEqual then Ok(BoolVal(a >= b))
    else if t == Less then Ok(BoolVal(a < b))
    else if t == LessEqual then Ok(BoolVal(a <= b))
    else if t == Minus then Ok(NumVal(a - b))
    else if t == Star then Ok(NumVal(a * b))
    else if b == 0.0 then Err(RuntimeErr(operator, DivideByZero))
    else Ok(NumVal(a / b))
  }

  // ---------------------------------------------------------------------------------------
  // Evaluation

  /**
   * evaluate: the Visit methods by node kind; operands left to right, errors propagate.
   * An expression never raises a return signal, and every runtime error it raises is on
   * one of its own operator tokens.
   */
  function Evaluate(e: Expr, numText: real -> string): (r: Outcome)
    ensures r.Err? ==> r.error.RuntimeErr? && r.error.token in Operators(e)
    decreases e
  {
    match e
    case Literal(o) => Ok(ValueOf(o))
    case Grouping(inner) => Evaluate(inner, numText)
    case Unary(op, right) =>
      (match Evaluate(right, numText)
       case Ok(v) => UnaryOp(op, v)
       case Err(err) => Err(err)
       case Panic(p) => Panic(p))
    case Binary(left, op, right) =>
      match Evaluate(left, numText)
      case Err(err) => Err(err)
      case Panic(p) => Panic(p)
      case Ok(l) =>
        match Evaluate(right, numText)
        case Err(err) => Err(err)
        case Panic(p) => Panic(p)
        case Ok(r) => BinaryOp(op, l, r, numText)
  }

  /** The operator tokens of a tree. */
  function Operators(e: Expr): set<Token>
  {
    match e
    case Literal(_) => {}
    case Grouping(inner) => Operators(inner)
    case Unary(op, right) => {op} + Operators(right)
    case Binary(left, op, right) => Operators(left) + {op} + Operators(right)
  }

  /**
   * stringify: "nil" for nil, otherwise Go's `%v`. `numText` is `%v` of a float64 and
   * `fnText` is `%v` of a function value; neither is modelled.
   */
  function Stringify(v: Value, numText: real -> string, fnText: LoxFunction -> string): (s: string)
    ensures v.NilVal? ==> s == "nil"
    ensures v.BoolVal? ==> s == (if v.b then "true" else "false")
    ensures v.StrVal? ==> s == v.s
  {
    match v
    case NilVal => "nil"
    case BoolVal(b) => if b then "true" else "false"
    case NumVal(n) => numText(n)
    case StrVal(s) => s
    case FnVal(f) => fnText(f)
  }

  /** What Interpret does with an expression. */
  datatype Interpreted = Printed(text: string) | Reported(token: Token, msg: string) | Crashed(reason: string)

  /**
   * Interpret: a runtime error is reported (and HadRuntimeError set) instead of printing;
   * otherwise the stringified value is printed. Evaluate never yields a return signal, so
   * every error that reaches here is a runtime error.
   */
  function Interpret(e: Expr, numText: real -> string, fnText: LoxFunction -> string): (r: Interpreted)
    ensures r.Reported? <==> Evaluate(e, numText).Err? && Evaluate(e, numText).error.RuntimeErr?
    ensures r.Crashed? <==> Evaluate(e, numText).Panic?
    ensures Evaluate(e, numText).Ok? ==> r == Printed(Stringify(Evaluate(e, numText).value, numText, fnText))
    ensures Evaluate(e, numText).Err? ==>
              r == Reported(Evaluate(e, numText).error.token, Evaluate(e, numText).error.msg)
  {
    match Evaluate(e, numText)
    case Ok(v) => Printed(Stringify(v, numText, fnText))
    case Err(err) => Reported(err.token, err.msg)
    case Panic(p) => Crashed(p)
  }

  // ---------------------------------------------------------------------------------------
  // Properties of the evaluator

  /** `!=` is the negation of `==` and neither can fail. */
  lemma NotEqualIsNegation(operator: Token, left: Value, right: Value, numText: real -> string)
    ensures var eq := BinaryOp(operator.(ttype := EqualEqual), left, right, numText);
            var ne := BinaryOp(operator.(ttype := BangEqual), left, right, numText);
            && eq.Ok? && eq.value.BoolVal? && ne == Ok(BoolVal(!eq.value.b))
            && eq.value.b == (left == right)
  {
  }

  /**
   * - * / < <= > >= succeed only on two numbers; a non-number is a runtime error on the
   * operator (or a panic when the first non-number checked, right before left, is nil).
   */
  lemma NumericOperatorsNeedNumbers(operator: Token, left: Value, right: Value, numText: real -> string)
    requires NumericOperator(operator.ttype)
    ensures var r := BinaryOp(operator, left, right, numText);
            && (r.Ok? ==> left.NumVal? && right.NumVal?)
            && (!right.NumVal? && !right.NilVal? ==> r == Err(RuntimeErr(operator, MustBeNumber)))
            && (right.NumVal? && !left.NumVal? && !left.NilVal? ==> r == Err(RuntimeErr(operator, MustBeNumber)))
            && (right.NilVal? || (right.NumVal? && left.NilVal?) ==> r.Panic?)
            && (left.NumVal? && right.NumVal? && operator.ttype != Slash ==> r.Ok?)
  {
    var v := VerifyNumbers(operator, [right, left]);
    assert [right, left][0] == right && [right, left][1] == left;
  }

  /** `/` by zero is an error, not a value. */
  lemma DivisionByZero(operator: Token, left: Value, right: Value, numText: real -> string)
    requires operator.ttype == Slash && left.NumVal? && right.NumVal?
    ensures var r := BinaryOp(operator, left, right, numText);
            && (right.n == 0.0 ==> r == Err(RuntimeErr(operator, DivideByZero)))
            && (right.n != 0.0 ==> r == Ok(NumVal(left.n / right.n)))
  {
  }

  /**
   * `+`: numbers add; when either side is a string the other side, if a number, is turned
   * into text and the two are concatenated; neither a string nor two numbers is an error.
   */
  lemma PlusOverloads(operator: Token, left: Value, right: Value, numText: real -> string)
    requires operator.ttype == TokenType.Plus
    ensures var r := BinaryOp(operator, left, right, numText);
            && (left.NumVal? && right.NumVal? ==> r == Ok(NumVal(left.n + right.n)))
            && (left.StrVal? && right.StrVal? ==> r == Ok(StrVal(left.s + right.s)))
            && (left.NumVal? && right.StrVal? ==> r == Ok(StrVal(numText(left.n) + right.s)))
            && (left.StrVal? && right.NumVal? ==> r == Ok(StrVal(left.s + numText(right.n))))
            && (left.NilVal? || right.NilVal? ==> r.Panic?)
            && ((left.StrVal? && (right.BoolVal? || right.FnVal?)) || (right.StrVal? && (left.BoolVal? || left.FnVal?))
                ==> r.Panic?)
            && (!left.NilVal? && !right.NilVal? && !left.StrVal? && !right.StrVal? && !(left.NumVal? && right.NumVal?)
                ==> r == Err(RuntimeErr(operator, MustBeNumbersOrStrings)))
  {
  }

  /** The left operand is evaluated first: if it fails, that is the result, whatever the right is. */
  lemma {:induction false} LeftEvaluatedFirst(left: Expr, operator: Token, right: Expr, numText: real -> string)
    requires !Evaluate(left, numText).Ok?
    ensures Evaluate(Binary(left, operator, right), numText) == Evaluate(left, numText)
  {
  }

  /** When the left succeeds and the right fails, the right's failure is the result. */
  lemma {:induction false} RightErrorPropagates(left: Expr, operator: Token, right: Expr, numText: real -> string)
    requires Evaluate(left, numText).Ok? && !Evaluate(right, numText).Ok?
    ensures Evaluate(Binary(left, operator, right), numText) == Evaluate(right, numText)
  {
  }

  /** Unary `-` on a number negates it; `!` negates truthiness; neither looks past its operand. */
  lemma UnaryOperators(operator: Token, right: Expr, numText: real -> string)
    requires Evaluate(right, numText).Ok?
    ensures var v := Evaluate(right, numText).value;
            var r := Evaluate(Unary(operator, right), numText);
            && (operator.ttype == Bang ==> r == Ok(BoolVal(!IsTruthy(v))))
            && (operator.ttype == Minus && v.NumVal? ==> r == Ok(NumVal(-v.n)))
            && (operator.ttype == Minus && !v.NumVal? && !v.NilVal? ==> r == Err(RuntimeErr(operator, MustBeNumber)))
  {
  }

  /** Only the `+` and the two operand checks can panic; only the operators can fail. */
  lemma {:induction false} LiteralsNeverFail(e: Expr, numText: real -> string)
    requires NoOperators(e)
    ensures Evaluate(e, numText).Ok?
    decreases e
  {
    if e.Grouping? {
      LiteralsNeverFail(e.expression, numText);
    }
  }

  predicate NoOperators(e: Expr)
  {
    match e
    case Literal(_) => true
    case Grouping(inner) => NoOperators(inner)
    case _ => false
  }

  // ---------------------------------------------------------------------------------------
  // User functions

  function Arity(f: LoxFunction): (n: nat)
    ensures n == |f.declaration.params|
  {
    |f.declaration.params|
  }

  /** ToString: "<fn " + name + ">". */
  function ToString(f: LoxFunction): (s: string)
    ensures |s| == |f.declaration.name.lexeme| + 5
    ensures s[..4] == "<fn " && s[4..|s| - 1] == f.declaration.name.lexeme && s[|s| - 1] == '>'
  {
    "<fn " + f.declaration.name.lexeme + ">"
  }

  /** The scope the parameter loop builds: params[k] bound to args[k], a later duplicate winning. */
  function Bindings(params: seq<Token>, args: seq<Value>): (m: map<string, Value>)
    requires |args| >= |params|
    ensures m.Keys == set k | 0 <= k < |params| :: params[k].lexeme
  {
    if params == [] then map[]
    else
      var n := |params| - 1;
      var m := Bindings(params[..n], args)[params[n].lexeme := args[n]];
      assert forall k | 0 <= k < n :: params[..n][k] == params[k];
      m
  }

  /** Parameter k holds args[k] unless a later parameter has the same name. */
  lemma {:induction false} BindingsHoldArguments(params: seq<Token>, args: seq<Value>, k: nat)
    requires |args| >= |params| && k < |params|
    requires forall j | k < j < |params| :: params[j].lexeme != params[k].lexeme
    ensures Bindings(params, args)[params[k].lexeme] == args[k]
    decreases |params|
  {
    var n := |params| - 1;
    var prefix := params[..n];
    assert Bindings(params, args) == Bindings(prefix, args)[params[n].lexeme := args[n]];
    if k < n {
      assert params[n].lexeme != params[k].lexeme;
      assert prefix[k] == params[k];
      assert forall j | k < j < n :: prefix[j].lexeme != prefix[k].lexeme by {
        forall j | k < j < n ensures prefix[j].lexeme != prefix[k].lexeme {
          assert prefix[j] == params[j];
        }
      }
      BindingsHoldArguments(prefix, args, k);
    }
  }

  /** How Call turns the body's outcome into its own: a return signal is the call's value. */
  function CallResult(body: Result<(), Value>): (r: Outcome)
    ensures body.Err? && body.error.Return? ==> r == Ok(body.error.value)
    ensures body.Err? && body.error.RuntimeErr? ==> r == Err(body.error)
    ensures body.Ok? ==> r == Ok(NilVal)
    ensures body.Panic? ==> r == Panic(body.reason)
  {
    match body
    case Err(Return(v)) => Ok(v)
    case Err(e) => Err(e)
    case Panic(p) => Panic(p)
    case Ok(_) => Ok(NilVal)
  }

  /**
   * Call: a fresh scope enclosing the closure (not the caller's scope), the parameters
   * defined in it in order, then the body. `exec` stands for executeBlock, which is given
   * the body and the scope chain it runs in. Call modifies no existing object, so the
   * closure's bindings are left as they were.
   */
  method Call(f: LoxFunction, args: seq<Value>, exec: (seq<Stmt>, Scopes<Value>) -> Result<(), Value>)
    returns (r: Outcome, ghost env: Environment<Value>)
    requires f.closure.Valid() && |args| >= Arity(f)
    ensures fresh(env) && env.Valid() && env.enclosing == f.closure
    ensures unchanged(f.closure.Repr) && f.closure.Scopes() == env.Scopes()[1..]
    ensures env.Scopes() == [Bindings(f.declaration.params, args)] + f.closure.Scopes()
    ensures r == CallResult(exec(f.declaration.body, env.Scopes()))
  {
    var params := f.declaration.params;
    var scope := new Environment(f.closure);
    for k := 0 to |params|
      invariant scope.Valid() && fresh(scope) && scope.enclosing == f.closure
      invariant scope.Scopes() == [Bindings(params[..k], args)] + f.closure.Scopes()
    {
      assert params[..k + 1][..k] == params[..k];
      scope.Define(params[k].lexeme, args[k]);
    }
    assert params[..|params|] == params;
    env := scope;
    var body := exec(f.declaration.body, scope.Scopes());
    r := CallResult(body);
  }
}
