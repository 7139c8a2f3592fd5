/**
 * Programs from the tests of `src/evaluator.rs`, as syntax trees, with the value or the
 * error each evaluates to from an empty environment.
 */
module EvaluatingExamples {
  import opened Wrappers
  import opened Chars
  import opened Tokens
  import opened Ast
  import opened Objects
  import opened Environments
  import opened Evaluating
  import Parsing
  import ParsingProperties

  function Int(n: i64): Expression
  {
    IntegerLiteral(n)
  }

  function Name(n: string): Expression
  {
    Callable(Identifier(n))
  }

  function Run(stmts: seq<Statement>, fuel: nat): Result<Object, EvalError>
  {
    EvalProgram(Program(stmts, []), Empty(), fuel).result
  }

  /** `5 + 2 * 10`, from its tokens: parsed with the product inside the sum, it is 25. */
  lemma {:induction false} SumOfProductIs25(ts: seq<Lexeme>)
    requires ts == [Lexeme(TokenKind.Int, "5"), Lexeme(TokenKind.Plus, "+"), Lexeme(TokenKind.Int, "2"), Lexeme(TokenKind.Asterisk, "*"), Lexeme(TokenKind.Int, "10")]
    ensures EvalProgram(Parsing.ParseProgram(ts), Empty(), 0).result == Ok(Integer(25))
  {
    ParsingProperties.SumOfProduct(ts);
  }

  /** `50 / 2 * 2 + 10` is 60. */
  lemma {:induction false} FiftyIs60()
    ensures Run([ExpressionStatement(Infix(Infix(Infix(Int(50), Operator.Slash, Int(2)), Operator.Asterisk, Int(2)), Operator.Plus, Int(10)))], 0)
            == Ok(Integer(60))
  {
  }

  /** `!!5` is true. */
  lemma {:induction false} DoubleBangFive()
    ensures Run([ExpressionStatement(Prefix(Operator.Bang, Prefix(Operator.Bang, Int(5))))], 0) == Ok(Boolean(true))
  {
  }

  /** `if (1 > 2) { 10 } else { 20 }` is 20, and `if (false) { 10 }` is null. */
  lemma {:induction false} IfExamples()
    ensures Run([ExpressionStatement(Expression.If(Infix(Int(1), Operator.Gt, Int(2)),
                                                 BlockStatement([ExpressionStatement(Int(10))]),
                                                 Some(BlockStatement([ExpressionStatement(Int(20))]))))], 0)
            == Ok(Integer(20))
    ensures Run([ExpressionStatement(Expression.If(BooleanLiteral(false), BlockStatement([ExpressionStatement(Int(10))]), None))], 0)
            == Ok(Null)
  {
  }

  /** `if (10 > 1) { if (10 > 1) { return 10; } return 1; }` is 10: the inner return leaves both blocks. */
  lemma {:induction false} NestedReturn()
    ensures var cond := Infix(Int(10), Operator.Gt, Int(1));
            var inner := Expression.If(cond, BlockStatement([ReturnStatement(Int(10))]), None);
            var outer := Expression.If(cond, BlockStatement([ExpressionStatement(inner), ReturnStatement(Int(1))]), None);
            Run([ExpressionStatement(outer)], 0) == Ok(Integer(10))
  {
  }

  /** `9; return 2 * 5; 6;` is 10. */
  lemma {:induction false} ReturnStopsProgram()
    ensures Run([ExpressionStatement(Int(9)), ReturnStatement(Infix(Int(2), Operator.Asterisk, Int(5))), ExpressionStatement(Int(6))], 0)
            == Ok(Integer(10))
  {
  }

  /** `5 + true; 5;` fails with "type mismatch: INTEGER + BOOLEAN". */
  lemma {:induction false} TypeMismatchExample()
    ensures Run([ExpressionStatement(Infix(Int(5), Operator.Plus, BooleanLiteral(true))), ExpressionStatement(Int(5))], 0)
            == Err(TypeMismatch(IntegerType, Operator.Plus, BooleanType))
    ensures ErrorMessage(TypeMismatch(IntegerType, Operator.Plus, BooleanType)) == Some("type mismatch: INTEGER + BOOLEAN")
  {
    assert "type mismatch: " + "INTEGER" + " " + "+" + " " + "BOOLEAN" == "type mismatch: INTEGER + BOOLEAN";
  }

  /** `-true` fails with "unknown operator: -BOOLEAN". */
  lemma {:induction false} UnknownPrefixExample()
    ensures Run([ExpressionStatement(Prefix(Operator.Minus, BooleanLiteral(true)))], 0) == Err(UnknownMinusOperand(BooleanType))
    ensures ErrorMessage(UnknownMinusOperand(BooleanType)) == Some("unknown operator: -BOOLEAN")
  {
    assert "unknown operator: -" + "BOOLEAN" == "unknown operator: -BOOLEAN";
  }

  /** `true + true` fails with "unknown operator: BOOLEAN + BOOLEAN". */
  lemma {:induction false} UnknownInfixExample()
    ensures Run([ExpressionStatement(Infix(BooleanLiteral(true), Operator.Plus, BooleanLiteral(true)))], 0)
            == Err(UnknownInfixOperator(BooleanType, Operator.Plus, BooleanType))
    ensures ErrorMessage(UnknownInfixOperator(BooleanType, Operator.Plus, BooleanType)) == Some("unknown operator: BOOLEAN + BOOLEAN")
  {
    assert "unknown operator: " + "BOOLEAN" + " " + "+" + " " + "BOOLEAN" == "unknown operator: BOOLEAN + BOOLEAN";
  }

  /** `foobar` fails with "identifier not found: foobar". */
  lemma {:induction false} UnboundIdentifierExample()
    ensures Run([ExpressionStatement(Name("foobar"))], 0) == Err(IdentifierNotFound("foobar"))
    ensures ErrorMessage(IdentifierNotFound("foobar")) == Some("identifier not found: foobar")
  {
    assert "identifier not found: " + "foobar" == "identifier not found: foobar";
  }

  /** The program without statements fails with "empty statments". */
  lemma {:induction false} EmptyProgramExample()
    ensures Run([], 0) == Err(EmptyStatements)
    ensures ErrorMessage(EmptyStatements) == Some("empty statments")
  {
  }

  /** `let a = 5; let b = a; let c = a + b + 5; c;` is 15. */
  lemma {:induction false} LetChain()
    ensures Run([LetStatement("a", Int(5)), LetStatement("b", Name("a")),
                 LetStatement("c", Infix(Infix(Name("a"), Operator.Plus, Name("b")), Operator.Plus, Int(5))),
                 ExpressionStatement(Name("c"))], 0)
            == Ok(Integer(15))
  {
  }

  /** The body of `add` in the next example: `{ x + y; }`. */
  function AddBody(): BlockStatement
  {
    BlockStatement([ExpressionStatement(Infix(Name("x"), Operator.Plus, Name("y")))])
  }

  /** The top-level scope once `let add = fn(x, y) { x + y; };` has run. */
  function AddScope(): Env
  {
    Bind(Empty(), "add", Object.Function(["x", "y"], AddBody(), Empty()))
  }

  lemma {:induction false} AddBodySums(x: i64, y: i64)
    requires InI64(x as int + y as int)
    ensures EvalBlock(AddBody(), BindParams(["x", "y"], [Integer(x), Integer(y)], Enclosed(Empty())), 0).result
            == Ok(Integer((x as int + y as int) as i64))
  {
    var scope := BindParams(["x", "y"], [Integer(x), Integer(y)], Enclosed(Empty()));
    assert Get(scope, "x") == Some(Integer(x));
    assert Get(scope, "y") == Some(Integer(y));
  }

  lemma {:induction false} AddCall(x: i64, y: i64)
    requires InI64(x as int + y as int)
    ensures EvalExp(Call(Identifier("add"), [Int(x), Int(y)]), AddScope(), 1)
            == Outcome(Ok(Integer((x as int + y as int) as i64)), AddScope())
  {
    var args := [Int(x), Int(y)];
    assert args[1..][1..] == [];
    assert EvalArguments([], AddScope(), 1) == ArgsOutcome(Ok([]), AddScope());
    assert EvalExp(Int(y), AddScope(), 1) == Outcome(Ok(Integer(y)), AddScope());
    assert [Integer(y)] + [] == [Integer(y)];
    assert EvalArguments(args[1..], AddScope(), 1) == ArgsOutcome(Ok([Integer(y)]), AddScope());
    assert EvalExp(Int(x), AddScope(), 1) == Outcome(Ok(Integer(x)), AddScope());
    assert [Integer(x)] + [Integer(y)] == [Integer(x), Integer(y)];
    assert EvalArguments(args, AddScope(), 1) == ArgsOutcome(Ok([Integer(x), Integer(y)]), AddScope());
    AddBodySums(x, y);
  }

  /** `let add = fn(x, y) { x + y; }; add(5, add(5, 5));` is 15. */
  lemma {:induction false} NestedCalls()
    ensures var add := FunctionLiteral(["x", "y"], AddBody());
            Run([LetStatement("add", Callable(add)),
                 ExpressionStatement(Call(Identifier("add"), [Int(5), Call(Identifier("add"), [Int(5), Int(5)])]))], 1)
            == Ok(Integer(15))
  {
    AddCall(5, 5);
    var args := [Int(5), Call(Identifier("add"), [Int(5), Int(5)])];
    assert args[1..][1..] == [];
    assert EvalArguments([], AddScope(), 1) == ArgsOutcome(Ok([]), AddScope());
    assert [Integer(10)] + [] == [Integer(10)];
    assert EvalArguments(args[1..], AddScope(), 1) == ArgsOutcome(Ok([Integer(10)]), AddScope());
    assert EvalExp(Int(5), AddScope(), 1) == Outcome(Ok(Integer(5)), AddScope());
    assert [Integer(5)] + [Integer(10)] == [Integer(5), Integer(10)];
    assert EvalArguments(args, AddScope(), 1) == ArgsOutcome(Ok([Integer(5), Integer(10)]), AddScope());
    AddBodySums(5, 10);
    var outer := Call(Identifier("add"), args);
    assert EvalExp(outer, AddScope(), 1) == Outcome(Ok(Integer(15)), AddScope());
    var stmts := [LetStatement("add", Callable(FunctionLiteral(["x", "y"], AddBody()))), ExpressionStatement(outer)];
    assert stmts[1..][1..] == [];
    assert EvalStatement(stmts[0], Empty(), 1) == Outcome(Ok(Null), AddScope());
  }

  /** `fn(x) { x; }(5)` is 5. */
  lemma {:induction false} ImmediateCall()
    ensures Run([ExpressionStatement(Call(FunctionLiteral(["x"], BlockStatement([ExpressionStatement(Name("x"))])), [Int(5)]))], 1)
            == Ok(Integer(5))
  {
  }

  /**
   * `let f = fn() { return 5; }; f() + 1;`: the call hands back the return value still
   * wrapped, so the sum meets a return value and an integer.
   */
  lemma {:induction false} ReturnValueCrossesCall()
    ensures var f := FunctionLiteral([], BlockStatement([ReturnStatement(Int(5))]));
            Run([LetStatement("f", Callable(f)), ExpressionStatement(Infix(Call(Identifier("f"), []), Operator.Plus, Int(1)))], 1)
            == Err(TypeMismatch(ReturnType, Operator.Plus, IntegerType))
  {
  }

  /** `let f = fn() { f(); }; f();`: the closure captured the scope before `f` was bound, so the inner call finds no `f`. */
  lemma {:induction false} ClosureCapturesEarlierScope()
    ensures var f := FunctionLiteral([], BlockStatement([ExpressionStatement(Call(Identifier("f"), []))]));
            Run([LetStatement("f", Callable(f)), ExpressionStatement(Call(Identifier("f"), []))], 1)
            == Err(IdentifierNotFound("f"))
  {
  }

  /**
   * `if (fn(x) { return false; }(1)) { 10 } else { 20 }` is 20: the call hands back a return
   * value wrapping `false`, which is as false as `false` itself.
   */
  lemma {:induction false} ConditionOnReturnedFalse()
    ensures var f := FunctionLiteral(["x"], BlockStatement([ReturnStatement(BooleanLiteral(false))]));
            Run([ExpressionStatement(Expression.If(Call(f, [Int(1)]),
                                                 BlockStatement([ExpressionStatement(Int(10))]),
                                                 Some(BlockStatement([ExpressionStatement(Int(20))]))))], 1)
            == Ok(Integer(20))
  {
  }

  /** `!fn(x) { return false; }(1)` is `false`: `!` of a return value is `false` whatever it wraps. */
  lemma {:induction false} BangOnReturnedFalse()
    ensures var f := FunctionLiteral(["x"], BlockStatement([ReturnStatement(BooleanLiteral(false))]));
            Run([ExpressionStatement(Prefix(Operator.Bang, Call(f, [Int(1)])))], 1) == Ok(Boolean(false))
  {
  }
}
