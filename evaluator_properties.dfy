/**
 * What the evaluator of `src/evaluator.rs` promises: the operator tables, truthiness,
 * how return values travel through blocks and stop a program, what `let` and calls do to
 * scopes, and that fuel only ever cuts an evaluation short.
 */
module EvaluatingProperties {
  import opened Wrappers
  import opened Chars
  import opened Division
  import opened Ast
  import opened Objects
  import opened Environments
  import opened Evaluating

  // ---------------------------------------------------------------------------
  // Evaluation writes the local scope only

  lemma {:induction false} ExpKeepsOuter(e: Expression, env: Env, fuel: nat)
    ensures EvalExp(e, env, fuel).env.outer == env.outer
    decreases fuel, e
  {
    match e
    case Prefix(_, right) => ExpKeepsOuter(right, env, fuel);
    case Infix(left, _, right) =>
      ExpKeepsOuter(left, env, fuel);
      ExpKeepsOuter(right, EvalExp(left, env, fuel).env, fuel);
    case If(condition, consequence, alternative) =>
      ExpKeepsOuter(condition, env, fuel);
      var c := EvalExp(condition, env, fuel);
      BlockKeepsOuter(consequence, c.env, fuel);
      if alternative.Some? {
        BlockKeepsOuter(alternative.value, c.env, fuel);
      }
    case Call(_, arguments) => ArgumentsKeepOuter(arguments, env, fuel);
    case _ =>
  }

  lemma {:induction false} ArgumentsKeepOuter(args: seq<Expression>, env: Env, fuel: nat)
    ensures EvalArguments(args, env, fuel).env.outer == env.outer
    decreases fuel, args
  {
    if args != [] {
      ExpKeepsOuter(args[0], env, fuel);
      ArgumentsKeepOuter(args[1..], EvalExp(args[0], env, fuel).env, fuel);
    }
  }

  lemma {:induction false} StatementKeepsOuter(st: Statement, env: Env, fuel: nat)
    ensures EvalStatement(st, env, fuel).env.outer == env.outer
    decreases fuel, st
  {
    match st
    case ExpressionStatement(e) => ExpKeepsOuter(e, env, fuel);
    case ReturnStatement(e) => ExpKeepsOuter(e, env, fuel);
    case LetStatement(_, e) => ExpKeepsOuter(e, env, fuel);
    case Block(b) => BlockKeepsOuter(b, env, fuel);
  }

  lemma {:induction false} BlockKeepsOuter(b: BlockStatement, env: Env, fuel: nat)
    ensures EvalBlock(b, env, fuel).env.outer == env.outer
    decreases fuel, b
  {
    RunKeepsOuter(b.statements, env, fuel, None);
  }

  lemma {:induction false} RunKeepsOuter(stmts: seq<Statement>, env: Env, fuel: nat, last: Option<Object>)
    ensures BlockRun(stmts, env, fuel, last).env.outer == env.outer
    decreases fuel, stmts
  {
    if stmts != [] {
      StatementKeepsOuter(stmts[0], env, fuel);
      var o := EvalStatement(stmts[0], env, fuel);
      if !(o.result.Err? || o.result.value.ReturnValue?) {
        RunKeepsOuter(stmts[1..], o.env, fuel, Some(o.result.value));
      }
    }
  }

  /** The statements of a program leave the outer link of the scope they run in alone. */
  lemma {:induction false} ProgramKeepsOuter(stmts: seq<Statement>, env: Env, fuel: nat, last: Option<Object>)
    ensures ProgramRun(stmts, env, fuel, last).env.outer == env.outer
    decreases stmts
  {
    if stmts != [] {
      StatementKeepsOuter(stmts[0], env, fuel);
      var o := EvalStatement(stmts[0], env, fuel);
      if o.result.Ok? && !o.result.value.ReturnValue? {
        ProgramKeepsOuter(stmts[1..], o.env, fuel, Some(o.result.value));
      }
    }
  }

  // ---------------------------------------------------------------------------
  // Fuel only cuts evaluation short

  lemma {:induction false} ExpFuel(e: Expression, env: Env, fuel: nat)
    requires EvalExp(e, env, fuel).result != Err(OutOfFuel)
    ensures EvalExp(e, env, fuel + 1) == EvalExp(e, env, fuel)
    decreases fuel, e
  {
    match e
    case Prefix(_, right) => ExpFuel(right, env, fuel);
    case Infix(left, _, right) =>
      ExpFuel(left, env, fuel);
      var l := EvalExp(left, env, fuel);
      if l.result.Ok? {
        ExpFuel(right, l.env, fuel);
      }
    case If(condition, consequence, alternative) =>
      ExpFuel(condition, env, fuel);
      var c := EvalExp(condition, env, fuel);
      if c.result.Ok? {
        if IsTruthy(c.result.value) {
          BlockFuel(consequence, c.env, fuel);
        } else if alternative.Some? {
          BlockFuel(alternative.value, c.env, fuel);
        }
      }
    case Call(func, arguments) =>
      var callee := EvalCallable(func, env);
      if callee.Ok? && callee.value.Function? {
        ArgumentsFuel(arguments, env, fuel);
        var a := EvalArguments(arguments, env, fuel);
        if a.result.Ok? {
          var f := callee.value;
          BlockFuel(f.body, BindParams(f.parameters, a.result.value, Enclosed(f.env)), fuel - 1);
        }
      }
    case _ =>
  }

  lemma {:induction false} ArgumentsFuel(args: seq<Expression>, env: Env, fuel: nat)
    requires EvalArguments(args, env, fuel).result != Err(OutOfFuel)
    ensures EvalArguments(args, env, fuel + 1) == EvalArguments(args, env, fuel)
    decreases fuel, args
  {
    if args != [] {
      ExpFuel(args[0], env, fuel);
      var h := EvalExp(args[0], env, fuel);
      if h.result.Ok? {
        ArgumentsFuel(args[1..], h.env, fuel);
      }
    }
  }

  lemma {:induction false} StatementFuel(st: Statement, env: Env, fuel: nat)
    requires EvalStatement(st, env, fuel).result != Err(OutOfFuel)
    ensures EvalStatement(st, env, fuel + 1) == EvalStatement(st, env, fuel)
    decreases fuel, st
  {
    match st
    case ExpressionStatement(e) => ExpFuel(e, env, fuel);
    case ReturnStatement(e) => ExpFuel(e, env, fuel);
    case LetStatement(_, e) => ExpFuel(e, env, fuel);
    case Block(b) => BlockFuel(b, env, fuel);
  }

  lemma {:induction false} BlockFuel(b: BlockStatement, env: Env, fuel: nat)
    requires EvalBlock(b, env, fuel).result != Err(OutOfFuel)
    ensures EvalBlock(b, env, fuel + 1) == EvalBlock(b, env, fuel)
    decreases fuel, b
  {
    RunFuel(b.statements, env, fuel, None);
  }

  lemma {:induction false} RunFuel(stmts: seq<Statement>, env: Env, fuel: nat, last: Option<Object>)
    requires BlockRun(stmts, env, fuel, last).result != Err(OutOfFuel)
    ensures BlockRun(stmts, env, fuel + 1, last) == BlockRun(stmts, env, fuel, last)
    decreases fuel, stmts
  {
    if stmts != [] {
      StatementFuel(stmts[0], env, fuel);
      var o := EvalStatement(stmts[0], env, fuel);
      if !(o.result.Err? || o.result.value.ReturnValue?) {
        RunFuel(stmts[1..], o.env, fuel, Some(o.result.value));
      }
    }
  }

  // ---------------------------------------------------------------------------
  // Blocks and programs

  /** A program result is a block result with its return value unwrapped. */
  function Unwrapped(o: Outcome): Outcome
  {
    if o.result.Ok? && o.result.value.ReturnValue? then Outcome(Ok(o.result.value.value), o.env) else o
  }

  /**
   * `eval_program` runs the same loop as `eval_block_statments`; the only difference is that
   * the return value that stops it is unwrapped.
   */
  lemma {:induction false} ProgramIsUnwrappedBlock(stmts: seq<Statement>, env: Env, fuel: nat, last: Option<Object>)
    requires last.None? || !last.value.ReturnValue?
    ensures ProgramRun(stmts, env, fuel, last) == Unwrapped(BlockRun(stmts, env, fuel, last))
    decreases stmts
  {
    if stmts != [] {
      var o := EvalStatement(stmts[0], env, fuel);
      if o.result.Ok? && !o.result.value.ReturnValue? {
        ProgramIsUnwrappedBlock(stmts[1..], o.env, fuel, Some(o.result.value));
      }
    }
  }

  /** A block stops at a statement that fails or returns: its outcome, still wrapped, is the block's, whatever follows. */
  lemma {:induction false} BlockStops(st: Statement, rest: seq<Statement>, env: Env, fuel: nat, last: Option<Object>)
    requires var o := EvalStatement(st, env, fuel); o.result.Err? || o.result.value.ReturnValue?
    ensures BlockRun([st] + rest, env, fuel, last) == EvalStatement(st, env, fuel)
  {
    assert ([st] + rest)[0] == st;
  }

  /** A program stops at the same statements, with the return value unwrapped. */
  lemma {:induction false} ProgramStops(st: Statement, rest: seq<Statement>, env: Env, fuel: nat, last: Option<Object>)
    requires var o := EvalStatement(st, env, fuel); o.result.Err? || o.result.value.ReturnValue?
    ensures ProgramRun([st] + rest, env, fuel, last) == Unwrapped(EvalStatement(st, env, fuel))
  {
    assert ([st] + rest)[0] == st;
  }

  /** A statement with an ordinary value hands its scope and its value on to the rest of the block. */
  lemma {:induction false} BlockGoesOn(st: Statement, rest: seq<Statement>, env: Env, fuel: nat, last: Option<Object>)
    requires var o := EvalStatement(st, env, fuel); o.result.Ok? && !o.result.value.ReturnValue?
    ensures var o := EvalStatement(st, env, fuel);
            BlockRun([st] + rest, env, fuel, last) == BlockRun(rest, o.env, fuel, Some(o.result.value))
  {
    assert ([st] + rest)[0] == st;
    assert ([st] + rest)[1..] == rest;
  }

  /** Once every statement has run, a block has the value of the last one, and a block without statements fails. */
  lemma {:induction false} BlockEndsWithLast(env: Env, fuel: nat, last: Option<Object>)
    ensures BlockRun([], env, fuel, last).result == (if last.Some? then Ok(last.value) else Err(EmptyStatements))
    ensures ProgramRun([], env, fuel, last).result == BlockRun([], env, fuel, last).result
  {
  }

  // ---------------------------------------------------------------------------
  // Conditionals

  /**
   * `if` runs the consequence when the condition is truthy, otherwise the alternative when
   * there is one, otherwise it is null; a failing condition is the failure of the whole.
   */
  lemma {:induction false} IfSelects(c: Expression, k: BlockStatement, alt: Option<BlockStatement>, env: Env, fuel: nat)
    ensures var v := EvalExp(c, env, fuel);
            var o := EvalExp(Expression.If(c, k, alt), env, fuel);
            && (v.result.Err? ==> o == v)
            && (v.result.Ok? && IsTruthy(v.result.value) ==> o == EvalBlock(k, v.env, fuel))
            && (v.result.Ok? && !IsTruthy(v.result.value) && alt.Some? ==> o == EvalBlock(alt.value, v.env, fuel))
            && (v.result.Ok? && !IsTruthy(v.result.value) && alt.None? ==> o == Outcome(Ok(Null), v.env))
  {
  }

  // ---------------------------------------------------------------------------
  // Prefix operators

  /**
   * `!` always yields a boolean. On a value that is not a return value it is the negation of
   * the value's truthiness; the match of `src/evaluator.rs` has no arm for a return value,
   * which therefore gives `false` whatever it wraps.
   */
  lemma {:induction false} BangNegatesTruth(x: Object)
    ensures !x.ReturnValue? ==> EvalPrefix(Operator.Bang, x) == Ok(Boolean(!IsTruthy(x)))
    ensures x.ReturnValue? ==> EvalPrefix(Operator.Bang, x) == Ok(Boolean(false))
  {
  }

  /** `!!x` is the truthiness of `x`, except that `!!` of a return value is `true`. */
  lemma {:induction false} DoubleBang(x: Object)
    ensures !x.ReturnValue? ==> EvalPrefix(Operator.Bang, EvalPrefix(Operator.Bang, x).value) == Ok(Boolean(IsTruthy(x)))
    ensures x.ReturnValue? ==> EvalPrefix(Operator.Bang, EvalPrefix(Operator.Bang, x).value) == Ok(Boolean(true))
  {
    BangNegatesTruth(x);
    BangNegatesTruth(EvalPrefix(Operator.Bang, x).value);
  }

  /**
   * Where `!` and truthiness part: a return value wrapping a false value is false, yet `!`
   * of it is `false` too, so `!` does not negate it.
   */
  lemma {:induction false} BangOnFalseReturn(v: Object)
    requires !IsTruthy(v)
    ensures !IsTruthy(ReturnValue(v))
    ensures EvalPrefix(Operator.Bang, ReturnValue(v)) != Ok(Boolean(!IsTruthy(ReturnValue(v))))
  {
    BangNegatesTruth(ReturnValue(v));
  }

  /** `-` negates an integer (`-i64::MIN` being the host fault) and rejects every other operand. */
  lemma {:induction false} MinusNegates(x: Object)
    ensures EvalPrefix(Operator.Minus, x).Ok? <==> x.Integer? && x.number as int != I64_MIN
    ensures EvalPrefix(Operator.Minus, x).Ok? ==>
              EvalPrefix(Operator.Minus, x).value.Integer? && EvalPrefix(Operator.Minus, x).value.number as int == -(x.number as int)
    ensures !x.Integer? ==> EvalPrefix(Operator.Minus, x) == Err(UnknownMinusOperand(TypeOf(x)))
  {
  }

  /** Negating twice gives the integer back. */
  lemma {:induction false} MinusTwice(n: i64)
    requires n as int != I64_MIN
    ensures EvalPrefix(Operator.Minus, EvalPrefix(Operator.Minus, Integer(n)).value) == Ok(Integer(n))
  {
  }

  // ---------------------------------------------------------------------------
  // Infix operators

  /** Integer `+`, `-` and `*` are the mathematical operations, defined exactly when the result fits `i64`. */
  lemma {:induction false} IntegerArithmetic(l: i64, op: Operator, r: i64)
    requires op in {Operator.Plus, Operator.Minus, Operator.Asterisk}
    ensures var exact := if op == Operator.Plus then l as int + r as int
                         else if op == Operator.Minus then l as int - r as int
                         else l as int * r as int;
            && (EvalInfix(Integer(l), op, Integer(r)).Ok? <==> InI64(exact))
            && (InI64(exact) ==> EvalInfix(Integer(l), op, Integer(r)) == Ok(Integer(exact as i64)))
  {
  }

  /** Integer `/` fails exactly on a zero divisor and on `i64::MIN / -1`, and otherwise rounds toward zero. */
  lemma {:induction false} IntegerDivision(l: i64, r: i64)
    ensures EvalInfix(Integer(l), Operator.Slash, Integer(r)).Ok? <==> r != 0 && !(l as int == I64_MIN && r == -1)
    ensures r != 0 && !(l as int == I64_MIN && r == -1) ==>
              EvalInfix(Integer(l), Operator.Slash, Integer(r)) == Ok(Integer(TruncDiv(l as int, r as int) as i64))
  {
    if r != 0 {
      QuotientFits(l as int, r as int);
    }
  }

  /** Two integers compare to a boolean with the usual meaning. */
  lemma {:induction false} IntegerComparison(l: i64, r: i64)
    ensures EvalInfix(Integer(l), Operator.Eq, Integer(r)) == Ok(Boolean(l == r))
    ensures EvalInfix(Integer(l), Operator.NotEq, Integer(r)) == Ok(Boolean(l != r))
    ensures EvalInfix(Integer(l), Operator.Lt, Integer(r)) == Ok(Boolean(l < r))
    ensures EvalInfix(Integer(l), Operator.Gt, Integer(r)) == Ok(Boolean(l > r))
  {
  }

  /** `==` and `!=` are structural equality and its negation on every pair of values, integers included. */
  lemma {:induction false} EqualityIsStructural(l: Object, r: Object)
    ensures EvalInfix(l, Operator.Eq, r) == Ok(Boolean(l == r))
    ensures EvalInfix(l, Operator.NotEq, r) == Ok(Boolean(l != r))
  {
  }

  /**
   * Any other operator on values that are not two integers fails: "unknown operator" when
   * both have the same type, "type mismatch" when they do not.
   */
  lemma {:induction false} OperatorNeedsIntegers(l: Object, op: Operator, r: Object)
    requires !(l.Integer? && r.Integer?) && op != Operator.Eq && op != Operator.NotEq
    ensures EvalInfix(l, op, r).Err?
    ensures EvalInfix(l, op, r).error.UnknownInfixOperator? <==> TypeOf(l) == TypeOf(r)
    ensures EvalInfix(l, op, r).error.TypeMismatch? <==> TypeOf(l) != TypeOf(r)
  {
  }

  /** An infix expression over values yields an integer or a boolean whenever it yields anything. */
  lemma {:induction false} InfixYieldsScalar(l: Object, op: Operator, r: Object)
    requires EvalInfix(l, op, r).Ok?
    ensures EvalInfix(l, op, r).value.Integer? || EvalInfix(l, op, r).value.Boolean?
  {
  }

  // ---------------------------------------------------------------------------
  // Names and scopes

  /** A name evaluates to its innermost binding, and fails with "identifier not found" when there is none. */
  lemma {:induction false} IdentifierLookup(name: string, env: Env, fuel: nat)
    ensures var o := EvalExp(Callable(Identifier(name)), env, fuel);
            && o.env == env
            && (Get(env, name).Some? ==> o.result == Ok(Get(env, name).value))
            && (Get(env, name).None? ==> o.result == Err(IdentifierNotFound(name)))
  {
  }

  /** `let` yields null and binds the value of its expression in the scope that expression left. */
  lemma {:induction false} LetBinds(name: string, e: Expression, env: Env, fuel: nat)
    requires EvalExp(e, env, fuel).result.Ok?
    ensures var v := EvalExp(e, env, fuel);
            var o := EvalStatement(LetStatement(name, e), env, fuel);
            && o.result == Ok(Null)
            && Get(o.env, name) == Some(v.result.value)
            && (forall k :: k != name ==> Get(o.env, k) == Get(v.env, k))
  {
  }

  /** The `i`-th parameter is bound to the `i`-th argument; a parameter without an argument is left unbound. */
  lemma {:induction false} BoundByPosition(params: seq<string>, args: seq<Object>, env: Env, i: nat)
    requires forall j, k :: 0 <= j < k < |params| ==> params[j] != params[k]
    requires i < |params|
    ensures Previous(BindParams(params, args, env), params[i]) == if i < |args| then Some(args[i]) else Previous(env, params[i])
    ensures BindParams(params, args, env).outer == env.outer
    decreases |params|
  {
    if params != [] && args != [] {
      var env1 := Bind(env, params[0], args[0]);
      if i == 0 {
        NotRebound(params[1..], args[1..], env1, params[0]);
      } else {
        BoundByPosition(params[1..], args[1..], env1, i - 1);
      }
    }
  }

  /** Binding the parameters after the first never touches the first. */
  lemma {:induction false} NotRebound(params: seq<string>, args: seq<Object>, env: Env, k: string)
    requires k !in params
    ensures Previous(BindParams(params, args, env), k) == Previous(env, k)
    ensures BindParams(params, args, env).outer == env.outer
    decreases |params|
  {
    if params != [] && args != [] {
      NotRebound(params[1..], args[1..], Bind(env, params[0], args[0]), k);
    }
  }

  /** Arguments beyond the last parameter are ignored. */
  lemma {:induction false} ExtraArgumentsIgnored(params: seq<string>, args: seq<Object>, env: Env)
    requires |args| >= |params|
    ensures BindParams(params, args, env) == BindParams(params, args[..|params|], env)
    decreases |params|
  {
    if params != [] {
      assert args[..|params|][1..] == args[1..][..|params| - 1];
      ExtraArgumentsIgnored(params[1..], args[1..], Bind(env, params[0], args[0]));
    }
  }

  /**
   * A call runs the body in a fresh scope whose outer scope is the captured one, and leaves
   * the caller in the scope its arguments left: nothing the body binds reaches the caller,
   * and the body's return value comes back still wrapped.
   */
  lemma {:induction false} CallRunsBody(func: CallableExpression, arguments: seq<Expression>, env: Env, fuel: nat)
    requires EvalCallable(func, env).Ok? && EvalCallable(func, env).value.Function?
    requires EvalArguments(arguments, env, fuel).result.Ok? && fuel > 0
    ensures var f := EvalCallable(func, env).value;
            var a := EvalArguments(arguments, env, fuel);
            EvalExp(Call(func, arguments), env, fuel)
            == Outcome(EvalBlock(f.body, BindParams(f.parameters, a.result.value, Enclosed(f.env)), fuel - 1).result, a.env)
  {
  }
}
