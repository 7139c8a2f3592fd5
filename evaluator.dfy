/**
 * The tree-walking evaluator of `src/evaluator.rs`. Every evaluation function takes the
 * environment it runs in and returns the environment it leaves behind, which is how a `let`
 * (including one inside an `if` block) changes the caller's `&mut Environment`. A call runs
 * the function body in a fresh scope in front of the captured one, on one unit less of
 * fuel: the language can express programs that never finish, and fuel is what bounds them.
 */
module Evaluating {
  import opened Wrappers
  import opened Chars
  import opened Division
  import opened Ast
  import opened Objects
  import opened Environments

  /** Why an evaluation failed: the `bail!`s of the source, and the host faults it panics on. */
  datatype EvalError =
    | IdentifierNotFound(name: string)
    | UnknownMinusOperand(operand: ObjectType)
    | UnknownInfixOperator(left: ObjectType, op: Operator, right: ObjectType)
    | TypeMismatch(left: ObjectType, op: Operator, right: ObjectType)
    | EmptyStatements
    | NotCallable
    | IntegerFault
    | StringLiteralUnsupported
    | OutOfFuel

  /** The printed form of an operator, where it is known: `+` in the error texts. */
  function OperatorText(op: Operator): Option<string>
  {
    if op == Operator.Plus then Some("+") else None
  }

  /** The error text, where every part of it is known. */
  function ErrorMessage(e: EvalError): Option<string>
  {
    match e
    case IdentifierNotFound(name) => Some("identifier not found: " + name)
    case UnknownMinusOperand(t) =>
      if TypeName(t).Some? then Some("unknown operator: -" + TypeName(t).value) else None
    case UnknownInfixOperator(l, op, r) =>
      if TypeName(l).Some? && OperatorText(op).Some? && TypeName(r).Some?
      then Some("unknown operator: " + TypeName(l).value + " " + OperatorText(op).value + " " + TypeName(r).value)
      else None
    case TypeMismatch(l, op, r) =>
      if TypeName(l).Some? && OperatorText(op).Some? && TypeName(r).Some?
      then Some("type mismatch: " + TypeName(l).value + " " + OperatorText(op).value + " " + TypeName(r).value)
      else None
    case EmptyStatements => Some("empty statments")
    case NotCallable => Some("callable is not a function")
    case _ => None
  }

  // ---------------------------------------------------------------------------
  // Operators

  /** An `i64` result, or the host fault on overflow. */
  function Checked(x: int): (r: Result<Object, EvalError>)
    ensures r.Ok? <==> InI64(x)
    ensures r.Ok? ==> r.value.Integer? && r.value.number as int == x
  {
    if InI64(x) then Ok(Integer(x as i64)) else Err(IntegerFault)
  }

  /** Both operands integers: arithmetic gives an integer, comparison a boolean. */
  function IntegerInfix(l: i64, op: Operator, r: i64): Result<Object, EvalError>
  {
    match op
    case Minus => Checked(l as int - r as int)
    case Plus => Checked(l as int + r as int)
    case Asterisk => Checked(l as int * r as int)
    case Slash => if r == 0 then Err(IntegerFault) else Checked(TruncDiv(l as int, r as int))
    case Eq => Ok(Boolean(l == r))
    case NotEq => Ok(Boolean(l != r))
    case Lt => Ok(Boolean(l < r))
    case Gt => Ok(Boolean(l > r))
    case _ => Err(UnknownInfixOperator(IntegerType, op, IntegerType))
  }

  /** The infix arm of `eval_exp`, once both operands are values. */
  function EvalInfix(l: Object, op: Operator, r: Object): Result<Object, EvalError>
  {
    if l.Integer? && r.Integer? then IntegerInfix(l.number, op, r.number)
    else if op == Operator.Eq then Ok(Boolean(l == r))
    else if op == Operator.NotEq then Ok(Boolean(l != r))
    else if TypeOf(l) == TypeOf(r) then Err(UnknownInfixOperator(TypeOf(l), op, TypeOf(r)))
    else Err(TypeMismatch(TypeOf(l), op, TypeOf(r)))
  }

  /** The prefix arm of `eval_exp`, once the operand is a value. */
  function EvalPrefix(op: Operator, right: Object): Result<Object, EvalError>
  {
    match op
    case Bang =>
      Ok(Boolean(match right
                 case Boolean(b) => !b
                 case Null => true
                 case _ => false))
    case Minus =>
      if !right.Integer? then Err(UnknownMinusOperand(TypeOf(right)))
      else if right.number as int == I64_MIN then Err(IntegerFault)
      else Ok(Integer(-right.number))
    case _ => Ok(Null)
  }

  // ---------------------------------------------------------------------------
  // Calls

  /** `eval_callable_exp`: a name is looked up, a function literal closes over the current scope. */
  function EvalCallable(c: CallableExpression, env: Env): Result<Object, EvalError>
  {
    match c
    case Identifier(name) => if Get(env, name).Some? then Ok(Get(env, name).value) else Err(IdentifierNotFound(name))
    case FunctionLiteral(params, body) => Ok(Function(params, body, env))
  }

  /** The binding loop of a call: the `i`-th parameter gets the `i`-th argument, while there is one. */
  function BindParams(params: seq<string>, args: seq<Object>, env: Env): Env
    decreases |params|
  {
    if params == [] || args == [] then env
    else BindParams(params[1..], args[1..], Bind(env, params[0], args[0]))
  }

  // ---------------------------------------------------------------------------
  // Expressions, statements and blocks

  /** What an evaluation step yields, and the environment it leaves. */
  datatype Outcome = Outcome(result: Result<Object, EvalError>, env: Env)

  datatype ArgsOutcome = ArgsOutcome(result: Result<seq<Object>, EvalError>, env: Env)

  /** `eval_exp`. */
  function EvalExp(e: Expression, env: Env, fuel: nat): Outcome
    decreases fuel, e
  {
    match e
    case Callable(c) => Outcome(EvalCallable(c, env), env)
    case IntegerLiteral(n) => Outcome(Ok(Integer(n)), env)
    case BooleanLiteral(b) => Outcome(Ok(Boolean(b)), env)
    case StringLiteral(_) => Outcome(Err(StringLiteralUnsupported), env)
    case Prefix(op, right) =>
      var r := EvalExp(right, env, fuel);
      if r.result.Err? then r else Outcome(EvalPrefix(op, r.result.value), r.env)
    case Infix(left, op, right) =>
      var l := EvalExp(left, env, fuel);
      if l.result.Err? then l
      else
        var r := EvalExp(right, l.env, fuel);
        if r.result.Err? then r else Outcome(EvalInfix(l.result.value, op, r.result.value), r.env)
    case If(condition, consequence, alternative) =>
      var c := EvalExp(condition, env, fuel);
      if c.result.Err? then c
      else if IsTruthy(c.result.value) then EvalBlock(consequence, c.env, fuel)
      else if alternative.Some? then EvalBlock(alternative.value, c.env, fuel)
      else Outcome(Ok(Null), c.env)
    case Call(func, arguments) =>
      var callee := EvalCallable(func, env);
      if callee.Err? then Outcome(Err(callee.error), env)
      else if !callee.value.Function? then Outcome(Err(EvalError.NotCallable), env)
      else
        var a := EvalArguments(arguments, env, fuel);
        if a.result.Err? then Outcome(Err(a.result.error), a.env)
        else if fuel == 0 then Outcome(Err(OutOfFuel), a.env)
        else
          var f := callee.value;
          var body := EvalBlock(f.body, BindParams(f.parameters, a.result.value, Enclosed(f.env)), fuel - 1);
          Outcome(body.result, a.env)
  }

  /** The arguments of a call, left to right, up to the first error. */
  function EvalArguments(args: seq<Expression>, env: Env, fuel: nat): ArgsOutcome
    decreases fuel, args
  {
    if args == [] then ArgsOutcome(Ok([]), env)
    else
      var h := EvalExp(args[0], env, fuel);
      if h.result.Err? then ArgsOutcome(Err(h.result.error), h.env)
      else
        var t := EvalArguments(args[1..], h.env, fuel);
        if t.result.Err? then t else ArgsOutcome(Ok([h.result.value] + t.result.value), t.env)
  }

  /** `eval_statment`. */
  function EvalStatement(st: Statement, env: Env, fuel: nat): Outcome
    decreases fuel, st
  {
    match st
    case ExpressionStatement(e) => EvalExp(e, env, fuel)
    case ReturnStatement(e) =>
      var v := EvalExp(e, env, fuel);
      if v.result.Err? then v else Outcome(Ok(ReturnValue(v.result.value)), v.env)
    case Block(b) => EvalBlock(b, env, fuel)
    case LetStatement(name, e) =>
      var v := EvalExp(e, env, fuel);
      if v.result.Err? then v else Outcome(Ok(Null), Bind(v.env, name, v.result.value))
  }

  /** `eval_block_statments`. */
  function EvalBlock(b: BlockStatement, env: Env, fuel: nat): Outcome
    decreases fuel, b
  {
    BlockRun(b.statements, env, fuel, None)
  }

  /**
   * The loop of `eval_block_statments` over the statements still to run, `last` being the
   * value of the one before: an error or a return value ends it (the latter still wrapped).
   */
  function BlockRun(stmts: seq<Statement>, env: Env, fuel: nat, last: Option<Object>): Outcome
    decreases fuel, stmts
  {
    if stmts == [] then Outcome(if last.Some? then Ok(last.value) else Err(EmptyStatements), env)
    else
      var o := EvalStatement(stmts[0], env, fuel);
      if o.result.Err? || o.result.value.ReturnValue? then o
      else BlockRun(stmts[1..], o.env, fuel, Some(o.result.value))
  }

  /** The loop of `eval_program`: the same as a block, except that a return value is unwrapped. */
  function ProgramRun(stmts: seq<Statement>, env: Env, fuel: nat, last: Option<Object>): Outcome
    decreases stmts
  {
    if stmts == [] then Outcome(if last.Some? then Ok(last.value) else Err(EmptyStatements), env)
    else
      var o := EvalStatement(stmts[0], env, fuel);
      if o.result.Err? then o
      else if o.result.value.ReturnValue? then Outcome(Ok(o.result.value.value), o.env)
      else ProgramRun(stmts[1..], o.env, fuel, Some(o.result.value))
  }

  /** `eval_program` (and `eval`, which reaches it through `eval_node`). */
  function EvalProgram(p: Program, env: Env, fuel: nat): Outcome
  {
    ProgramRun(p.statements, env, fuel, None)
  }
}

/**
 * The loops of `src/evaluator.rs` as they run: `eval_program` and `eval_block_statments`
 * step through the statements updating `obj` and the caller's scope object, and a call fills
 * its fresh scope with `set` in a loop over the parameters. Each method has the result and the
 * final scope the function of the same name in `Evaluating` gives.
 */
module Evaluators {
  import opened Wrappers
  import opened Ast
  import opened Objects
  import opened Environments
  import opened Evaluating
  import EvaluatingProperties

  /** `ext_env` of a call: a fresh scope in front of `outer`, the `i`-th parameter set to the `i`-th argument. */
  method BindParameters(params: seq<string>, args: seq<Object>, outer: Env) returns (ext: Environment)
    ensures fresh(ext)
    ensures ext.Value() == BindParams(params, args, Enclosed(outer))
  {
    ext := new Environment.WithOuter(outer);
    var idx := 0;
    while idx < |params|
      invariant 0 <= idx <= |params|
      invariant BindParams(params[idx..], if idx <= |args| then args[idx..] else [], ext.Value())
                == BindParams(params, args, Enclosed(outer))
    {
      if idx < |args| {
        var _ := ext.Set(params[idx], args[idx]);
      }
      idx := idx + 1;
    }
  }

  /** `eval_program`: the statements in order, until an error or a return value, whose content is the result. */
  method EvalProgramStatements(program: Program, env: Environment, fuel: nat) returns (r: Result<Object, EvalError>)
    modifies env
    ensures r == EvalProgram(program, old(env.Value()), fuel).result
    ensures env.Value() == EvalProgram(program, old(env.Value()), fuel).env
  {
    var stmts := program.statements;
    var obj: Option<Object> := None;
    var i := 0;
    while i < |stmts|
      invariant 0 <= i <= |stmts|
      invariant ProgramRun(stmts[i..], env.Value(), fuel, obj) == EvalProgram(program, old(env.Value()), fuel)
    {
      assert stmts[i..][1..] == stmts[i + 1..];
      var o := EvalStatement(stmts[i], env.Value(), fuel);
      EvaluatingProperties.StatementKeepsOuter(stmts[i], env.Value(), fuel);
      env.store := o.env.store;
      if o.result.Err? {
        return o.result;
      }
      if o.result.value.ReturnValue? {
        return Ok(o.result.value.value);
      }
      obj := Some(o.result.value);
      i := i + 1;
    }
    if obj.Some? {
      return Ok(obj.value);
    }
    return Err(EmptyStatements);
  }

  /** `eval_block_statments`: the same loop, except that a return value is handed on still wrapped. */
  method EvalBlockStatements(block: BlockStatement, env: Environment, fuel: nat) returns (r: Result<Object, EvalError>)
    modifies env
    ensures r == EvalBlock(block, old(env.Value()), fuel).result
    ensures env.Value() == EvalBlock(block, old(env.Value()), fuel).env
  {
    var stmts := block.statements;
    var obj: Option<Object> := None;
    var i := 0;
    while i < |stmts|
      invariant 0 <= i <= |stmts|
      invariant BlockRun(stmts[i..], env.Value(), fuel, obj) == EvalBlock(block, old(env.Value()), fuel)
    {
      assert stmts[i..][1..] == stmts[i + 1..];
      var o := EvalStatement(stmts[i], env.Value(), fuel);
      EvaluatingProperties.StatementKeepsOuter(stmts[i], env.Value(), fuel);
      env.store := o.env.store;
      if o.result.Err? || o.result.value.ReturnValue? {
        return o.result;
      }
      obj := Some(o.result.value);
      i := i + 1;
    }
    if obj.Some? {
      return Ok(obj.value);
    }
    return Err(EmptyStatements);
  }
}
