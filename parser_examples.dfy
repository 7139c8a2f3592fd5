/**
 * Inputs from the tests of `src/parser.rs`, as token sequences, with the program each
 * parses to. Each proof strings together the step lemmas of `ParsingProperties` and
 * `ParsingForms`, one token rule at a time.
 */
module ParsingExamples {
  import opened Wrappers
  import opened Chars
  import opened Tokens
  import opened Ast
  import opened Parsing
  import opened ParsingProperties
  import opened ParsingForms

  function Name(n: string): Expression
  {
    Callable(Identifier(n))
  }

  /** The tokens of the condition `(x o y) {` have the kinds that form, and `x` and `y` spell the atoms `X` and `Y`. */
  predicate ConditionShape(lp: Lexeme, x: Lexeme, o: Lexeme, y: Lexeme, rp: Lexeme, lb: Lexeme, X: Expression, Y: Expression)
  {
    lp.kind == TokenKind.Lparen && rp.kind == Rparen && lb.kind == Lbrace && Atom(x, X) && Atom(y, Y) && IsBinaryOperator(o.kind)
  }

  /** The prefix rule of `(x o y)` over atoms, then `{`: it ends on `)`. */
  lemma {:induction false} GroupedCondition(lp: Lexeme, x: Lexeme, o: Lexeme, y: Lexeme, rp: Lexeme, lb: Lexeme, rest: seq<Lexeme>, X: Expression, Y: Expression)
    requires lp.kind == TokenKind.Lparen && rp.kind == Rparen
    requires Atom(x, X) && Atom(y, Y) && IsBinaryOperator(o.kind)
    ensures PrefixParse(PState(Some(lp), Some(x), [o, y, rp, lb] + rest))
            == Parsed(Ok(Infix(X, BinaryOperator(o.kind), Y)), PState(Some(rp), Some(lb), rest))
  {
    assert [o, y, rp] + ([lb] + rest) == [o, y, rp, lb] + rest;
    GroupedBinary(lp, x, o, y, rp, [lb] + rest, X, Y);
    assert Advance(PState(Some(y), Some(rp), [lb] + rest)) == PState(Some(rp), Some(lb), rest) by {
      assert ([lb] + rest)[1..] == rest;
    }
  }

  /** `(x o y)` over atoms, then `{`: the condition of a conditional, ending on `)`. */
  lemma {:induction false} IfCondition(lp: Lexeme, x: Lexeme, o: Lexeme, y: Lexeme, rp: Lexeme, lb: Lexeme, rest: seq<Lexeme>, X: Expression, Y: Expression)
    requires ConditionShape(lp, x, o, y, rp, lb, X, Y)
    ensures ParseExpression(PState(Some(lp), Some(x), [o, y, rp, lb] + rest), Lowest)
            == Parsed(Ok(Infix(X, BinaryOperator(o.kind), Y)), PState(Some(rp), Some(lb), rest))
  {
    GroupedCondition(lp, x, o, y, rp, lb, rest, X, Y);
    var t := PState(Some(rp), Some(lb), rest);
    var c := Infix(X, BinaryOperator(o.kind), Y);
    ExpressionStep(PState(Some(lp), Some(x), [o, y, rp, lb] + rest), Lowest, c, t);
    LoopStops(t, Lowest, c);
  }

  /** After the condition, the consequence `{ a }` ends on its `}`. */
  lemma {:induction false} IfHeadBlock(rp: Lexeme, lb: Lexeme, a: Lexeme, rb: Lexeme, rest: seq<Lexeme>, A: Expression)
    requires lb.kind == Lbrace && rb.kind == Rbrace && Atom(a, A)
    ensures ParseBlockStatement(Advance(PState(Some(rp), Some(lb), [a, rb] + rest)))
            == Parsed(Ok(BlockStatement([ExpressionStatement(A)])), Advance(PState(Some(a), Some(rb), rest)))
  {
    assert Advance(PState(Some(rp), Some(lb), [a, rb] + rest)) == PState(Some(lb), Some(a), [rb] + rest) by {
      assert ([a, rb] + rest)[1..] == [rb] + rest;
    }
    AtomBlock(lb, a, rb, rest, A);
  }

  /** The tokens of `if (x o y) { a }` have the kinds that form, and spell the atoms `X`, `Y` and `A`. */
  predicate ThenShape(i: Lexeme, lp: Lexeme, x: Lexeme, o: Lexeme, y: Lexeme, rp: Lexeme, lb: Lexeme, a: Lexeme, rb: Lexeme,
                      X: Expression, Y: Expression, A: Expression)
  {
    && i.kind == TokenKind.If && lp.kind == TokenKind.Lparen && rp.kind == Rparen && lb.kind == Lbrace && rb.kind == Rbrace
    && Atom(x, X) && Atom(y, Y) && Atom(a, A) && IsBinaryOperator(o.kind)
  }

  /** The prefix rule of `if (x o y) { a }` at the end of the input. */
  lemma {:induction false} IfWithoutElsePrefix(i: Lexeme, lp: Lexeme, x: Lexeme, o: Lexeme, y: Lexeme, rp: Lexeme, lb: Lexeme, a: Lexeme, rb: Lexeme,
                                              X: Expression, Y: Expression, A: Expression)
    requires ThenShape(i, lp, x, o, y, rp, lb, a, rb, X, Y, A)
    ensures PrefixParse(PState(Some(i), Some(lp), [x, o, y, rp, lb, a, rb]))
            == Parsed(Ok(Expression.If(Infix(X, BinaryOperator(o.kind), Y), BlockStatement([ExpressionStatement(A)]), None)), PState(Some(rb), None, []))
  {
    assert Advance(PState(Some(i), Some(lp), [x, o, y, rp, lb, a, rb])) == PState(Some(lp), Some(x), [o, y, rp, lb] + [a, rb]);
    assert [a, rb] + [] == [a, rb];
    IfCondition(lp, x, o, y, rp, lb, [a, rb], X, Y);
    IfHeadBlock(rp, lb, a, rb, [], A);
    var s0 := PState(Some(i), Some(lp), [x, o, y, rp, lb, a, rb]);
    IfAlternative(s0, Infix(X, BinaryOperator(o.kind), Y), PState(Some(rp), Some(lb), [a, rb]), BlockStatement([ExpressionStatement(A)]), PState(Some(rb), None, []));
  }

  lemma {:induction false} IfWithoutElseExpression(i: Lexeme, lp: Lexeme, x: Lexeme, o: Lexeme, y: Lexeme, rp: Lexeme, lb: Lexeme, a: Lexeme, rb: Lexeme,
                                                  X: Expression, Y: Expression, A: Expression)
    requires ThenShape(i, lp, x, o, y, rp, lb, a, rb, X, Y, A)
    ensures ParseExpression(Start([i, lp, x, o, y, rp, lb, a, rb]), Lowest)
            == Parsed(Ok(Expression.If(Infix(X, BinaryOperator(o.kind), Y), BlockStatement([ExpressionStatement(A)]), None)), PState(Some(rb), None, []))
  {
    var s0 := PState(Some(i), Some(lp), [x, o, y, rp, lb, a, rb]);
    assert Start([i, lp, x, o, y, rp, lb, a, rb]) == s0;
    IfWithoutElsePrefix(i, lp, x, o, y, rp, lb, a, rb, X, Y, A);
    var e := Expression.If(Infix(X, BinaryOperator(o.kind), Y), BlockStatement([ExpressionStatement(A)]), None);
    var u := PState(Some(rb), None, []);
    ExpressionStep(s0, Lowest, e, u);
    LoopStops(u, Lowest, e);
  }

  /** `if (x < y) { x }`, for any two names `x` and `y`: a conditional without an alternative. */
  lemma {:induction false} IfWithoutElse(ts: seq<Lexeme>, x: string, y: string)
    requires ts == [Lexeme(TokenKind.If, "if"), Lexeme(TokenKind.Lparen, "("), Lexeme(Ident, x), Lexeme(TokenKind.Lt, "<"), Lexeme(Ident, y),
                    Lexeme(Rparen, ")"), Lexeme(Lbrace, "{"), Lexeme(Ident, x), Lexeme(Rbrace, "}")]
    ensures ParseProgram(ts)
            == Program([ExpressionStatement(Expression.If(Infix(Name(x), Operator.Lt, Name(y)), BlockStatement([ExpressionStatement(Name(x))]), None))], [])
  {
    var i, lp, lt, rp := Lexeme(TokenKind.If, "if"), Lexeme(TokenKind.Lparen, "("), Lexeme(TokenKind.Lt, "<"), Lexeme(Rparen, ")");
    var nx, ny := Lexeme(Ident, x), Lexeme(Ident, y);
    var lb, rb := Lexeme(Lbrace, "{"), Lexeme(Rbrace, "}");
    assert ThenShape(i, lp, nx, lt, ny, rp, lb, nx, rb, Name(x), Name(y), Name(x));
    assert ts == [i, lp, nx, lt, ny, rp, lb, nx, rb];
    IfWithoutElseExpression(i, lp, nx, lt, ny, rp, lb, nx, rb, Name(x), Name(y), Name(x));
    ExpressionProgram(ts, Expression.If(Infix(Name(x), Operator.Lt, Name(y)), BlockStatement([ExpressionStatement(Name(x))]), None), rb);
  }

  /** The tokens of `if (x o y) { a } else { b }` have the kinds that form, and spell the atoms `X`, `Y`, `A` and `B`. */
  predicate ElseShape(i: Lexeme, lp: Lexeme, x: Lexeme, o: Lexeme, y: Lexeme, rp: Lexeme, lb: Lexeme, a: Lexeme, rb: Lexeme,
                      el: Lexeme, lb2: Lexeme, b: Lexeme, rb2: Lexeme, X: Expression, Y: Expression, A: Expression, B: Expression)
  {
    && i.kind == TokenKind.If && lp.kind == TokenKind.Lparen && rp.kind == Rparen && lb.kind == Lbrace && rb.kind == Rbrace
    && el.kind == Else && lb2.kind == Lbrace && rb2.kind == Rbrace
    && Atom(x, X) && Atom(y, Y) && Atom(a, A) && Atom(b, B) && IsBinaryOperator(o.kind)
  }

  /** The consequence `{ a }` is followed by `else`. */
  lemma {:induction false} ElseConsequence(rp: Lexeme, lb: Lexeme, a: Lexeme, rb: Lexeme, el: Lexeme, rest: seq<Lexeme>, A: Expression)
    requires lb.kind == Lbrace && rb.kind == Rbrace && Atom(a, A)
    ensures ParseBlockStatement(Advance(PState(Some(rp), Some(lb), [a, rb] + ([el] + rest))))
            == Parsed(Ok(BlockStatement([ExpressionStatement(A)])), PState(Some(rb), Some(el), rest))
  {
    IfHeadBlock(rp, lb, a, rb, [el] + rest, A);
    assert Advance(PState(Some(a), Some(rb), [el] + rest)) == PState(Some(rb), Some(el), rest) by {
      assert ([el] + rest)[1..] == rest;
    }
  }

  /** The alternative `{ b }` ends the input. */
  lemma {:induction false} ElseAlternative(rb: Lexeme, el: Lexeme, lb2: Lexeme, b: Lexeme, rb2: Lexeme, B: Expression)
    requires lb2.kind == Lbrace && rb2.kind == Rbrace && Atom(b, B)
    ensures ParseBlockStatement(Advance(Advance(PState(Some(rb), Some(el), [lb2, b, rb2]))))
            == Parsed(Ok(BlockStatement([ExpressionStatement(B)])), PState(Some(rb2), None, []))
  {
    var u := PState(Some(rb), Some(el), [lb2, b, rb2]);
    assert Advance(Advance(u)) == PState(Some(lb2), Some(b), [rb2] + []);
    AtomBlock(lb2, b, rb2, [], B);
  }

  /** The three parts of `if (x o y) { a } else { b }`: condition, consequence and alternative. */
  lemma {:induction false} IfWithElseParts(i: Lexeme, lp: Lexeme, x: Lexeme, o: Lexeme, y: Lexeme, rp: Lexeme, lb: Lexeme, a: Lexeme, rb: Lexeme,
                                          el: Lexeme, lb2: Lexeme, b: Lexeme, rb2: Lexeme, X: Expression, Y: Expression, A: Expression, B: Expression)
    requires ElseShape(i, lp, x, o, y, rp, lb, a, rb, el, lb2, b, rb2, X, Y, A, B)
    ensures var s0 := PState(Some(i), Some(lp), [x, o, y, rp, lb, a, rb, el, lb2, b, rb2]);
            var t := PState(Some(rp), Some(lb), [a, rb, el, lb2, b, rb2]);
            var u := PState(Some(rb), Some(el), [lb2, b, rb2]);
            && ParseExpression(Advance(s0), Lowest) == Parsed(Ok(Infix(X, BinaryOperator(o.kind), Y)), t)
            && ParseBlockStatement(Advance(t)) == Parsed(Ok(BlockStatement([ExpressionStatement(A)])), u)
            && ParseBlockStatement(Advance(Advance(u))) == Parsed(Ok(BlockStatement([ExpressionStatement(B)])), PState(Some(rb2), None, []))
  {
    var tail := [lb2, b, rb2];
    var rest := [a, rb, el, lb2, b, rb2];
    assert Advance(PState(Some(i), Some(lp), [x, o, y, rp, lb, a, rb, el, lb2, b, rb2])) == PState(Some(lp), Some(x), [o, y, rp, lb] + rest);
    assert [a, rb] + ([el] + tail) == rest;
    IfCondition(lp, x, o, y, rp, lb, rest, X, Y);
    ElseConsequence(rp, lb, a, rb, el, tail, A);
    ElseAlternative(rb, el, lb2, b, rb2, B);
  }

  /** The prefix rule of `if (x o y) { a } else { b }` at the end of the input. */
  lemma {:induction false} IfWithElsePrefix(i: Lexeme, lp: Lexeme, x: Lexeme, o: Lexeme, y: Lexeme, rp: Lexeme, lb: Lexeme, a: Lexeme, rb: Lexeme,
                                           el: Lexeme, lb2: Lexeme, b: Lexeme, rb2: Lexeme, X: Expression, Y: Expression, A: Expression, B: Expression)
    requires ElseShape(i, lp, x, o, y, rp, lb, a, rb, el, lb2, b, rb2, X, Y, A, B)
    ensures PrefixParse(PState(Some(i), Some(lp), [x, o, y, rp, lb, a, rb, el, lb2, b, rb2]))
            == Parsed(Ok(Expression.If(Infix(X, BinaryOperator(o.kind), Y), BlockStatement([ExpressionStatement(A)]), Some(BlockStatement([ExpressionStatement(B)])))),
                      PState(Some(rb2), None, []))
  {
    IfWithElseParts(i, lp, x, o, y, rp, lb, a, rb, el, lb2, b, rb2, X, Y, A, B);
    ElseStep(PState(Some(i), Some(lp), [x, o, y, rp, lb, a, rb, el, lb2, b, rb2]), Infix(X, BinaryOperator(o.kind), Y),
             PState(Some(rp), Some(lb), [a, rb, el, lb2, b, rb2]), BlockStatement([ExpressionStatement(A)]), PState(Some(rb), Some(el), [lb2, b, rb2]),
             BlockStatement([ExpressionStatement(B)]), PState(Some(rb2), None, []));
  }

  lemma {:induction false} IfWithElseExpression(i: Lexeme, lp: Lexeme, x: Lexeme, o: Lexeme, y: Lexeme, rp: Lexeme, lb: Lexeme, a: Lexeme, rb: Lexeme,
                                               el: Lexeme, lb2: Lexeme, b: Lexeme, rb2: Lexeme, X: Expression, Y: Expression, A: Expression, B: Expression)
    requires ElseShape(i, lp, x, o, y, rp, lb, a, rb, el, lb2, b, rb2, X, Y, A, B)
    ensures ParseExpression(Start([i, lp, x, o, y, rp, lb, a, rb, el, lb2, b, rb2]), Lowest)
            == Parsed(Ok(Expression.If(Infix(X, BinaryOperator(o.kind), Y), BlockStatement([ExpressionStatement(A)]), Some(BlockStatement([ExpressionStatement(B)])))),
                      PState(Some(rb2), None, []))
  {
    var s0 := PState(Some(i), Some(lp), [x, o, y, rp, lb, a, rb, el, lb2, b, rb2]);
    assert Start([i, lp, x, o, y, rp, lb, a, rb, el, lb2, b, rb2]) == s0;
    IfWithElsePrefix(i, lp, x, o, y, rp, lb, a, rb, el, lb2, b, rb2, X, Y, A, B);
    var e := Expression.If(Infix(X, BinaryOperator(o.kind), Y), BlockStatement([ExpressionStatement(A)]), Some(BlockStatement([ExpressionStatement(B)])));
    var w := PState(Some(rb2), None, []);
    ExpressionStep(s0, Lowest, e, w);
    LoopStops(w, Lowest, e);
  }

  /** `if (x < y) { x } else { y }`, for any two names `x` and `y`: the block after `else` is the alternative. */
  lemma {:induction false} IfWithElse(ts: seq<Lexeme>, x: string, y: string)
    requires ts == [Lexeme(TokenKind.If, "if"), Lexeme(TokenKind.Lparen, "("), Lexeme(Ident, x), Lexeme(TokenKind.Lt, "<"), Lexeme(Ident, y),
                    Lexeme(Rparen, ")"), Lexeme(Lbrace, "{"), Lexeme(Ident, x), Lexeme(Rbrace, "}"),
                    Lexeme(Else, "else"), Lexeme(Lbrace, "{"), Lexeme(Ident, y), Lexeme(Rbrace, "}")]
    ensures ParseProgram(ts)
            == Program([ExpressionStatement(Expression.If(Infix(Name(x), Operator.Lt, Name(y)), BlockStatement([ExpressionStatement(Name(x))]),
                                                          Some(BlockStatement([ExpressionStatement(Name(y))]))))], [])
  {
    var i, lp, lt, rp := Lexeme(TokenKind.If, "if"), Lexeme(TokenKind.Lparen, "("), Lexeme(TokenKind.Lt, "<"), Lexeme(Rparen, ")");
    var nx, ny, el := Lexeme(Ident, x), Lexeme(Ident, y), Lexeme(Else, "else");
    var lb, rb := Lexeme(Lbrace, "{"), Lexeme(Rbrace, "}");
    assert ElseShape(i, lp, nx, lt, ny, rp, lb, nx, rb, el, lb, ny, rb, Name(x), Name(y), Name(x), Name(y));
    assert ts == [i, lp, nx, lt, ny, rp, lb, nx, rb, el, lb, ny, rb];
    IfWithElseExpression(i, lp, nx, lt, ny, rp, lb, nx, rb, el, lb, ny, rb, Name(x), Name(y), Name(x), Name(y));
    ExpressionProgram(ts, Expression.If(Infix(Name(x), Operator.Lt, Name(y)), BlockStatement([ExpressionStatement(Name(x))]),
                                        Some(BlockStatement([ExpressionStatement(Name(y))]))), rb);
  }

  /** The parameter list `(x, y)`, from `(`: both names in order, ending on `)`. */
  lemma {:induction false} TwoParams(open: Lexeme, x: Lexeme, comma: Lexeme, y: Lexeme, close: Lexeme, rest: seq<Lexeme>)
    requires open.kind == TokenKind.Lparen && x.kind == Ident && comma.kind == Comma && y.kind == Ident && close.kind == Rparen
    ensures ParseFuncParams(PState(Some(open), Some(x), [comma, y, close] + rest))
            == Parsed(Ok([x.val, y.val]), Advance(PState(Some(y), Some(close), rest)))
  {
    var s := PState(Some(open), Some(x), [comma, y, close] + rest);
    var s1 := PState(Some(x), Some(comma), [y, close] + rest);
    assert Advance(s) == s1 by {
      assert ([comma, y, close] + rest)[1..] == [y, close] + rest;
    }
    var s2 := PState(Some(y), Some(close), rest);
    assert Advance(Advance(s1)) == s2 by {
      assert ([y, close] + rest)[1..] == [close] + rest;
      assert ([close] + rest)[1..] == rest;
    }
    assert ParamsLoop(s2, [x.val, y.val]) == Parsed(Ok([x.val, y.val]), Advance(s2));
    assert [x.val] + [y.val] == [x.val, y.val];
    assert ParamsLoop(s1, [x.val]) == ParamsLoop(s2, [x.val, y.val]);
  }

  /** The tokens of `fn (x, y) { a o b; }` have the kinds that form, and `a` and `b` spell the atoms `A` and `B`. */
  predicate FunctionShape(f: Lexeme, lp: Lexeme, x: Lexeme, comma: Lexeme, y: Lexeme, rp: Lexeme,
      lb: Lexeme, a: Lexeme, o: Lexeme, b: Lexeme, semi: Lexeme, rb: Lexeme, A: Expression, B: Expression)
  {
    && f.kind == TokenKind.Function && lp.kind == TokenKind.Lparen && x.kind == Ident && comma.kind == Comma && y.kind == Ident && rp.kind == Rparen
    && lb.kind == Lbrace && Atom(a, A) && IsBinaryOperator(o.kind) && Atom(b, B) && semi.kind == Semicolon && rb.kind == Rbrace
  }

  /** After `fn`, the parameters `(x, y)` end on their `)`. */
  lemma {:induction false} FunctionParams(f: Lexeme, lp: Lexeme, x: Lexeme, comma: Lexeme, y: Lexeme, rp: Lexeme, lb: Lexeme, rest: seq<Lexeme>)
    requires lp.kind == TokenKind.Lparen && x.kind == Ident && comma.kind == Comma && y.kind == Ident && rp.kind == Rparen
    ensures ParseFuncParams(Advance(PState(Some(f), Some(lp), [x, comma, y, rp, lb] + rest)))
            == Parsed(Ok([x.val, y.val]), PState(Some(rp), Some(lb), rest))
  {
    assert Advance(PState(Some(f), Some(lp), [x, comma, y, rp, lb] + rest)) == PState(Some(lp), Some(x), [comma, y, rp] + ([lb] + rest)) by {
      assert ([x, comma, y, rp, lb] + rest)[1..] == [comma, y, rp] + ([lb] + rest);
    }
    TwoParams(lp, x, comma, y, rp, [lb] + rest);
    assert Advance(PState(Some(y), Some(rp), [lb] + rest)) == PState(Some(rp), Some(lb), rest) by {
      assert ([lb] + rest)[1..] == rest;
    }
  }

  /** After the parameters, the body `{ a o b; }` ends the input. */
  lemma {:induction false} FunctionBody(rp: Lexeme, lb: Lexeme, a: Lexeme, o: Lexeme, b: Lexeme, semi: Lexeme, rb: Lexeme, A: Expression, B: Expression)
    requires lb.kind == Lbrace && Atom(a, A) && IsBinaryOperator(o.kind) && Atom(b, B) && semi.kind == Semicolon && rb.kind == Rbrace
    ensures ParseBlockStatement(Advance(PState(Some(rp), Some(lb), [a, o, b, semi, rb])))
            == Parsed(Ok(BlockStatement([ExpressionStatement(Infix(A, BinaryOperator(o.kind), B))])), PState(Some(rb), None, []))
  {
    assert Advance(PState(Some(rp), Some(lb), [a, o, b, semi, rb])) == PState(Some(lb), Some(a), [o, b, semi, rb] + []);
    BinaryBlock(lb, a, o, b, semi, rb, [], A, B);
  }

  /** The two parts of `fn (x, y) { a o b; }`: parameters and body. */
  lemma {:induction false} FunctionParts(f: Lexeme, lp: Lexeme, x: Lexeme, comma: Lexeme, y: Lexeme, rp: Lexeme,
      lb: Lexeme, a: Lexeme, o: Lexeme, b: Lexeme, semi: Lexeme, rb: Lexeme, A: Expression, B: Expression)
    requires FunctionShape(f, lp, x, comma, y, rp, lb, a, o, b, semi, rb, A, B)
    ensures var s0 := PState(Some(f), Some(lp), [x, comma, y, rp, lb, a, o, b, semi, rb]);
            var t := PState(Some(rp), Some(lb), [a, o, b, semi, rb]);
            && ParseFuncParams(Advance(s0)) == Parsed(Ok([x.val, y.val]), t)
            && ParseBlockStatement(Advance(t)) == Parsed(Ok(BlockStatement([ExpressionStatement(Infix(A, BinaryOperator(o.kind), B))])), PState(Some(rb), None, []))
  {
    var rest := [a, o, b, semi, rb];
    assert [x, comma, y, rp, lb] + rest == [x, comma, y, rp, lb, a, o, b, semi, rb];
    FunctionParams(f, lp, x, comma, y, rp, lb, rest);
    FunctionBody(rp, lb, a, o, b, semi, rb, A, B);
  }

  /** The prefix rule of `fn (x, y) { a o b; }` at the end of the input. */
  lemma {:induction false} FunctionLiteralPrefix(f: Lexeme, lp: Lexeme, x: Lexeme, comma: Lexeme, y: Lexeme, rp: Lexeme,
      lb: Lexeme, a: Lexeme, o: Lexeme, b: Lexeme, semi: Lexeme, rb: Lexeme, A: Expression, B: Expression)
    requires FunctionShape(f, lp, x, comma, y, rp, lb, a, o, b, semi, rb, A, B)
    ensures PrefixParse(PState(Some(f), Some(lp), [x, comma, y, rp, lb, a, o, b, semi, rb]))
            == Parsed(Ok(Callable(FunctionLiteral([x.val, y.val], BlockStatement([ExpressionStatement(Infix(A, BinaryOperator(o.kind), B))])))),
                      PState(Some(rb), None, []))
  {
    FunctionParts(f, lp, x, comma, y, rp, lb, a, o, b, semi, rb, A, B);
    FunctionStep(PState(Some(f), Some(lp), [x, comma, y, rp, lb, a, o, b, semi, rb]), [x.val, y.val], PState(Some(rp), Some(lb), [a, o, b, semi, rb]),
                 BlockStatement([ExpressionStatement(Infix(A, BinaryOperator(o.kind), B))]), PState(Some(rb), None, []));
  }

  lemma {:induction false} FunctionLiteralExpression(f: Lexeme, lp: Lexeme, x: Lexeme, comma: Lexeme, y: Lexeme, rp: Lexeme,
      lb: Lexeme, a: Lexeme, o: Lexeme, b: Lexeme, semi: Lexeme, rb: Lexeme, A: Expression, B: Expression)
    requires FunctionShape(f, lp, x, comma, y, rp, lb, a, o, b, semi, rb, A, B)
    ensures ParseExpression(Start([f, lp, x, comma, y, rp, lb, a, o, b, semi, rb]), Lowest)
            == Parsed(Ok(Callable(FunctionLiteral([x.val, y.val], BlockStatement([ExpressionStatement(Infix(A, BinaryOperator(o.kind), B))])))),
                      PState(Some(rb), None, []))
  {
    var s0 := PState(Some(f), Some(lp), [x, comma, y, rp, lb, a, o, b, semi, rb]);
    assert Start([f, lp, x, comma, y, rp, lb, a, o, b, semi, rb]) == s0;
    FunctionLiteralPrefix(f, lp, x, comma, y, rp, lb, a, o, b, semi, rb, A, B);
    var e := Callable(FunctionLiteral([x.val, y.val], BlockStatement([ExpressionStatement(Infix(A, BinaryOperator(o.kind), B))])));
    var u := PState(Some(rb), None, []);
    ExpressionStep(s0, Lowest, e, u);
    LoopStops(u, Lowest, e);
  }

  /** `fn (x, y) {x + y;}`, for any two names `x` and `y`: those parameters, and a body of one statement. */
  lemma {:induction false} FunctionLiteralExample(ts: seq<Lexeme>, x: string, y: string)
    requires ts == [Lexeme(TokenKind.Function, "fn"), Lexeme(TokenKind.Lparen, "("), Lexeme(Ident, x), Lexeme(Comma, ","), Lexeme(Ident, y),
                    Lexeme(Rparen, ")"), Lexeme(Lbrace, "{"), Lexeme(Ident, x), Lexeme(TokenKind.Plus, "+"), Lexeme(Ident, y),
                    Lexeme(Semicolon, ";"), Lexeme(Rbrace, "}")]
    ensures ParseProgram(ts)
            == Program([ExpressionStatement(Callable(FunctionLiteral([x, y], BlockStatement([ExpressionStatement(Infix(Name(x), Operator.Plus, Name(y)))]))))], [])
  {
    var f, lp, comma, rp := Lexeme(TokenKind.Function, "fn"), Lexeme(TokenKind.Lparen, "("), Lexeme(Comma, ","), Lexeme(Rparen, ")");
    var nx, ny, plus := Lexeme(Ident, x), Lexeme(Ident, y), Lexeme(TokenKind.Plus, "+");
    var lb, semi, rb := Lexeme(Lbrace, "{"), Lexeme(Semicolon, ";"), Lexeme(Rbrace, "}");
    assert FunctionShape(f, lp, nx, comma, ny, rp, lb, nx, plus, ny, semi, rb, Name(x), Name(y));
    assert ts == [f, lp, nx, comma, ny, rp, lb, nx, plus, ny, semi, rb];
    FunctionLiteralExpression(f, lp, nx, comma, ny, rp, lb, nx, plus, ny, semi, rb, Name(x), Name(y));
    ExpressionProgram(ts, Callable(FunctionLiteral([x, y], BlockStatement([ExpressionStatement(Infix(Name(x), Operator.Plus, Name(y)))]))), rb);
  }

  /** `(a,` from `(`, over an atom: the loop goes on at the `,` with the first argument. */
  lemma {:induction false} FirstAtomArgument(lp: Lexeme, a: Lexeme, c1: Lexeme, rest: seq<Lexeme>, A: Expression)
    requires c1.kind == Comma && Atom(a, A)
    ensures ParseCallArguments(PState(Some(lp), Some(a), [c1] + rest)) == ArgumentsLoop(PState(Some(a), Some(c1), rest), [A])
  {
    var s1 := PState(Some(a), Some(c1), rest);
    assert Advance(PState(Some(lp), Some(a), [c1] + rest)) == s1 by {
      assert ([c1] + rest)[1..] == rest;
    }
    AtomAlone(s1, Lowest, A);
    FirstArgument(PState(Some(lp), Some(a), [c1] + rest), A, s1);
  }

  /** From a `,` of the list, `b1 o1 b2,` is the next argument, with the loop on the `,` after it. */
  lemma {:induction false} MiddleArgument(a: Lexeme, c1: Lexeme, b1: Lexeme, o1: Lexeme, b2: Lexeme, c2: Lexeme, rest: seq<Lexeme>,
                                         args: seq<Expression>, B1: Expression, B2: Expression)
    requires c1.kind == Comma && c2.kind == Comma && Atom(b1, B1) && Atom(b2, B2) && IsBinaryOperator(o1.kind)
    ensures ArgumentsLoop(PState(Some(a), Some(c1), [b1, o1] + ([b2, c2] + rest)), args)
            == ArgumentsLoop(PState(Some(b2), Some(c2), rest), args + [Infix(B1, BinaryOperator(o1.kind), B2)])
  {
    var s1 := PState(Some(a), Some(c1), [b1, o1] + ([b2, c2] + rest));
    assert Advance(Advance(s1)) == PState(Some(b1), Some(o1), [b2, c2] + rest) by {
      assert ([b1, o1] + ([b2, c2] + rest))[1..] == [o1] + ([b2, c2] + rest);
      assert ([o1] + ([b2, c2] + rest))[1..] == [b2, c2] + rest;
    }
    BinaryThenStop(b1, o1, b2, c2, rest, B1, B2, Lowest);
    ArgumentStep(s1, args, Infix(B1, BinaryOperator(o1.kind), B2), PState(Some(b2), Some(c2), rest));
  }

  /** From the second `,` of the list, `d1 o2 d2)` is the last argument and the list ends on `)`. */
  lemma {:induction false} LastArgument(b2: Lexeme, c2: Lexeme, d1: Lexeme, o2: Lexeme, d2: Lexeme, rp: Lexeme, args: seq<Expression>,
                                       D1: Expression, D2: Expression)
    requires c2.kind == Comma && rp.kind == Rparen && Atom(d1, D1) && Atom(d2, D2) && IsBinaryOperator(o2.kind)
    ensures ArgumentsLoop(PState(Some(b2), Some(c2), [d1, o2, d2, rp]), args)
            == Parsed(Ok(args + [Infix(D1, BinaryOperator(o2.kind), D2)]), PState(Some(rp), None, []))
  {
    var s2 := PState(Some(b2), Some(c2), [d1, o2, d2, rp]);
    assert Advance(Advance(s2)) == PState(Some(d1), Some(o2), [d2, rp] + []);
    BinaryThenStop(d1, o2, d2, rp, [], D1, D2, Lowest);
    ArgumentStep(s2, args, Infix(D1, BinaryOperator(o2.kind), D2), PState(Some(d2), Some(rp), []));
  }

  /** `(a, b1 o1 b2, d1 o2 d2)` over atoms, from `(`: three arguments in source order, ending on `)`. */
  lemma {:induction false} ThreeArguments(lp: Lexeme, a: Lexeme, c1: Lexeme, b1: Lexeme, o1: Lexeme, b2: Lexeme, c2: Lexeme,
                                         d1: Lexeme, o2: Lexeme, d2: Lexeme, rp: Lexeme,
                                         A: Expression, B1: Expression, B2: Expression, D1: Expression, D2: Expression)
    requires lp.kind == TokenKind.Lparen && c1.kind == Comma && c2.kind == Comma && rp.kind == Rparen
    requires Atom(a, A) && Atom(b1, B1) && Atom(b2, B2) && Atom(d1, D1) && Atom(d2, D2)
    requires IsBinaryOperator(o1.kind) && IsBinaryOperator(o2.kind)
    ensures ParseCallArguments(PState(Some(lp), Some(a), [c1] + ([b1, o1] + ([b2, c2] + [d1, o2, d2, rp]))))
            == Parsed(Ok([A, Infix(B1, BinaryOperator(o1.kind), B2), Infix(D1, BinaryOperator(o2.kind), D2)]), PState(Some(rp), None, []))
  {
    FirstAtomArgument(lp, a, c1, [b1, o1] + ([b2, c2] + [d1, o2, d2, rp]), A);
    MiddleArgument(a, c1, b1, o1, b2, c2, [d1, o2, d2, rp], [A], B1, B2);
    LastArgument(b2, c2, d1, o2, d2, rp, [A] + [Infix(B1, BinaryOperator(o1.kind), B2)], D1, D2);
    assert [A] + [Infix(B1, BinaryOperator(o1.kind), B2)] + [Infix(D1, BinaryOperator(o2.kind), D2)]
           == [A, Infix(B1, BinaryOperator(o1.kind), B2), Infix(D1, BinaryOperator(o2.kind), D2)];
  }

  /** The tokens of `f(a, b1 o1 b2, d1 o2 d2)` have the kinds that form, and spell the atoms `A`, `B1`, `B2`, `D1` and `D2`. */
  predicate CallShape(f: Lexeme, lp: Lexeme, a: Lexeme, c1: Lexeme, b1: Lexeme, o1: Lexeme, b2: Lexeme, c2: Lexeme,
                      d1: Lexeme, o2: Lexeme, d2: Lexeme, rp: Lexeme,
                      A: Expression, B1: Expression, B2: Expression, D1: Expression, D2: Expression)
  {
    && f.kind == Ident && lp.kind == TokenKind.Lparen && c1.kind == Comma && c2.kind == Comma && rp.kind == Rparen
    && Atom(a, A) && Atom(b1, B1) && Atom(b2, B2) && Atom(d1, D1) && Atom(d2, D2)
    && IsBinaryOperator(o1.kind) && IsBinaryOperator(o2.kind)
  }

  /** A name followed by a call that ends the input is, as an expression, that call. */
  lemma {:induction false} IdentifierCallAlone(s: PState, e: Expression, z: PState)
    requires Valid(s) && CurKind(s) == Some(Ident) && PeekKind(s) == Some(TokenKind.Lparen) && Valid(z) && z.peek.None?
    requires InfixParse(s, Callable(Identifier(s.cur.value.val))) == Parsed(Ok(e), z)
    ensures ParseExpression(s, Lowest) == Parsed(Ok(e), z)
  {
    var left := Callable(Identifier(s.cur.value.val));
    LoopGoesOn(s, Lowest, left, e, z);
    LoopStops(z, Lowest, e);
    ExpressionStep(s, Lowest, left, s);
  }

  /** The call rule after `f`: the argument list, ending the input. */
  lemma {:induction false} CallInfix(f: Lexeme, lp: Lexeme, a: Lexeme, c1: Lexeme, b1: Lexeme, o1: Lexeme, b2: Lexeme, c2: Lexeme,
                                         d1: Lexeme, o2: Lexeme, d2: Lexeme, rp: Lexeme,
                                         A: Expression, B1: Expression, B2: Expression, D1: Expression, D2: Expression)
    requires CallShape(f, lp, a, c1, b1, o1, b2, c2, d1, o2, d2, rp, A, B1, B2, D1, D2)
    ensures InfixParse(PState(Some(f), Some(lp), [a, c1, b1, o1, b2, c2, d1, o2, d2, rp]), Callable(Identifier(f.val)))
            == Parsed(Ok(Call(Identifier(f.val), [A, Infix(B1, BinaryOperator(o1.kind), B2), Infix(D1, BinaryOperator(o2.kind), D2)])), PState(Some(rp), None, []))
  {
    var s0 := PState(Some(f), Some(lp), [a, c1, b1, o1, b2, c2, d1, o2, d2, rp]);
    assert Advance(s0) == PState(Some(lp), Some(a), [c1] + ([b1, o1] + ([b2, c2] + [d1, o2, d2, rp])));
    ThreeArguments(lp, a, c1, b1, o1, b2, c2, d1, o2, d2, rp, A, B1, B2, D1, D2);
    CallStep(s0, Callable(Identifier(f.val)), [A, Infix(B1, BinaryOperator(o1.kind), B2), Infix(D1, BinaryOperator(o2.kind), D2)], PState(Some(rp), None, []));
  }

  lemma {:induction false} CallExpression(f: Lexeme, lp: Lexeme, a: Lexeme, c1: Lexeme, b1: Lexeme, o1: Lexeme, b2: Lexeme, c2: Lexeme,
                                         d1: Lexeme, o2: Lexeme, d2: Lexeme, rp: Lexeme,
                                         A: Expression, B1: Expression, B2: Expression, D1: Expression, D2: Expression)
    requires CallShape(f, lp, a, c1, b1, o1, b2, c2, d1, o2, d2, rp, A, B1, B2, D1, D2)
    ensures ParseExpression(Start([f, lp, a, c1, b1, o1, b2, c2, d1, o2, d2, rp]), Lowest)
            == Parsed(Ok(Call(Identifier(f.val), [A, Infix(B1, BinaryOperator(o1.kind), B2), Infix(D1, BinaryOperator(o2.kind), D2)])), PState(Some(rp), None, []))
  {
    var s0 := PState(Some(f), Some(lp), [a, c1, b1, o1, b2, c2, d1, o2, d2, rp]);
    assert Start([f, lp, a, c1, b1, o1, b2, c2, d1, o2, d2, rp]) == s0;
    CallInfix(f, lp, a, c1, b1, o1, b2, c2, d1, o2, d2, rp, A, B1, B2, D1, D2);
    IdentifierCallAlone(s0, Call(Identifier(f.val), [A, Infix(B1, BinaryOperator(o1.kind), B2), Infix(D1, BinaryOperator(o2.kind), D2)]),
                        PState(Some(rp), None, []));
  }

  /** `add(1, 2 * 3, 4 + 5)`, for any name in place of `add`: one call, with its three arguments in order. */
  lemma {:induction false} CallExample(ts: seq<Lexeme>, add: string)
    requires ts == [Lexeme(Ident, add), Lexeme(TokenKind.Lparen, "("), Lexeme(Int, "1"), Lexeme(Comma, ","), Lexeme(Int, "2"), Lexeme(TokenKind.Asterisk, "*"),
                    Lexeme(Int, "3"), Lexeme(Comma, ","), Lexeme(Int, "4"), Lexeme(TokenKind.Plus, "+"), Lexeme(Int, "5"), Lexeme(Rparen, ")")]
    ensures ParseProgram(ts)
            == Program([ExpressionStatement(Call(Identifier(add), [IntegerLiteral(1), Infix(IntegerLiteral(2), Operator.Asterisk, IntegerLiteral(3)),
                                                                  Infix(IntegerLiteral(4), Operator.Plus, IntegerLiteral(5))]))], [])
  {
    var f, lp, comma, rp := Lexeme(Ident, add), Lexeme(TokenKind.Lparen, "("), Lexeme(Comma, ","), Lexeme(Rparen, ")");
    var one, two, three, four, five := Lexeme(Int, "1"), Lexeme(Int, "2"), Lexeme(Int, "3"), Lexeme(Int, "4"), Lexeme(Int, "5");
    var times, plus := Lexeme(TokenKind.Asterisk, "*"), Lexeme(TokenKind.Plus, "+");
    assert CallShape(f, lp, one, comma, two, times, three, comma, four, plus, five, rp,
                     IntegerLiteral(1), IntegerLiteral(2), IntegerLiteral(3), IntegerLiteral(4), IntegerLiteral(5));
    assert ts == [f, lp, one, comma, two, times, three, comma, four, plus, five, rp];
    CallExpression(f, lp, one, comma, two, times, three, comma, four, plus, five, rp,
                   IntegerLiteral(1), IntegerLiteral(2), IntegerLiteral(3), IntegerLiteral(4), IntegerLiteral(5));
    ExpressionProgram(ts, Call(Identifier(add), [IntegerLiteral(1), Infix(IntegerLiteral(2), Operator.Asterisk, IntegerLiteral(3)),
                                                 Infix(IntegerLiteral(4), Operator.Plus, IntegerLiteral(5))]), rp);
  }

  /**
   * `5(1)`: the call after a literal is an error, and `parse_program` carries on from the
   * next token, where `(1)` parses as a grouped expression.
   */
  lemma {:induction false} NotCallableRecovers(ts: seq<Lexeme>)
    requires ts == [Lexeme(Int, "5"), Lexeme(TokenKind.Lparen, "("), Lexeme(Int, "1"), Lexeme(Rparen, ")")]
    ensures ParseProgram(ts) == Program([ExpressionStatement(IntegerLiteral(1))], [NotCallable])
  {
    var s0 := PState(Some(ts[0]), Some(ts[1]), ts[2..]);
    assert Start(ts) == s0;
    var five := IntegerLiteral(5);
    CallNeedsCallable(s0, five);
    ExpressionStep(s0, Lowest, five, s0);
    assert ParseStatement(s0) == Parsed(Err(NotCallable), s0);
    AttemptsUnfold(s0);
    var a := PState(Some(ts[1]), Some(ts[2]), [ts[3]]);
    var one := IntegerLiteral(1);
    var r := PState(Some(ts[2]), Some(ts[3]), []);
    assert Advance(a) == r;
    AtomAlone(r, Lowest, one);
    var z := PState(Some(ts[3]), None, []);
    assert PrefixParse(a) == Parsed(Ok(one), z);
    ExpressionStep(a, Lowest, one, z);
    LoopStops(z, Lowest, one);
    ExpressionStatementStep(a, one, z);
    assert SkipSemicolon(z) == z;
    AttemptsUnfold(a);
    assert Attempts(Advance(z)) == [];
    var rs: seq<Result<Statement, ParseError>> := [Err(NotCallable), Ok(ExpressionStatement(one))];
    assert Attempts(s0) == rs;
    assert rs[1..][1..] == [];
    assert Oks(rs[1..]) == [ExpressionStatement(one)];
    assert Errs(rs[1..]) == [];
  }

  /** The three literals of the next example are atoms. */
  lemma {:induction false} ThreeLiterals()
    ensures Atom(Lexeme(Int, "5"), IntegerLiteral(5))
    ensures Atom(Lexeme(Int, "10"), IntegerLiteral(10))
    ensures Atom(Lexeme(Int, "838383"), IntegerLiteral(838383))
  {
    assert DecimalValue("10") == 10 by { assert "10"[..1] == "1"; }
    assert DecimalValue("838383") == 838383 by {
      assert "838383"[..5] == "83838";
      assert "83838"[..4] == "8383";
      assert "8383"[..3] == "838";
      assert "838"[..2] == "83";
      assert "83"[..1] == "8";
    }
  }

  /** Three outcomes that are all statements. */
  lemma {:induction false} ThreeStatements(a: Statement, b: Statement, c: Statement)
    ensures var rs: seq<Result<Statement, ParseError>> := [Ok(a), Ok(b), Ok(c)];
            Oks(rs) == [a, b, c] && Errs(rs) == []
  {
    var r3: seq<Result<Statement, ParseError>> := [Ok(c)];
    assert r3[1..] == [];
    assert Oks(r3) == [c] && Errs(r3) == [];
    var r2 := [Ok(b)] + r3;
    assert r2[1..] == r3;
    assert Oks(r2) == [b, c] && Errs(r2) == [];
    var r1 := [Ok(a)] + r2;
    assert r1[1..] == r2;
    assert Oks(r1) == [a, b, c] && Errs(r1) == [];
    assert r1 == [Ok(a), Ok(b), Ok(c)];
  }

  /** The tokens of `let x = 5; let y = 10; let foobar = 838383;`, for any three names. */
  function ThreeLetTokens(x: string, y: string, foobar: string): seq<Lexeme>
  {
    [Lexeme(Let, "let"), Lexeme(Ident, x), Lexeme(Assign, "="), Lexeme(Int, "5"), Lexeme(Semicolon, ";"),
     Lexeme(Let, "let"), Lexeme(Ident, y), Lexeme(Assign, "="), Lexeme(Int, "10"), Lexeme(Semicolon, ";"),
     Lexeme(Let, "let"), Lexeme(Ident, foobar), Lexeme(Assign, "="), Lexeme(Int, "838383"), Lexeme(Semicolon, ";")]
  }

  /** Each of the three statements parses, in order, and nothing is left. */
  lemma {:induction false} ThreeLetAttempts(x: string, y: string, foobar: string)
    ensures Attempts(Start(ThreeLetTokens(x, y, foobar)))
            == [Ok(LetStatement(x, IntegerLiteral(5))), Ok(LetStatement(y, IntegerLiteral(10))), Ok(LetStatement(foobar, IntegerLiteral(838383)))]
  {
    ThreeLiterals();
    var ts := ThreeLetTokens(x, y, foobar);
    var t1 := ts[5..];
    var t2 := t1[5..];
    assert t2[5..] == [];
    LetThenRest(t2, IntegerLiteral(838383));
    LetThenRest(t1, IntegerLiteral(10));
    LetThenRest(ts, IntegerLiteral(5));
    assert Attempts(Start([])) == [];
    var r1: Result<Statement, ParseError> := Ok(LetStatement(x, IntegerLiteral(5)));
    var r2: Result<Statement, ParseError> := Ok(LetStatement(y, IntegerLiteral(10)));
    var r3: Result<Statement, ParseError> := Ok(LetStatement(foobar, IntegerLiteral(838383)));
    assert Attempts(Start(ts)) == [r1] + ([r2] + ([r3] + []));
    assert [r1] + ([r2] + ([r3] + [])) == [r1, r2, r3];
  }

  /**
   * `let x = 5; let y = 10; let foobar = 838383;`, for any three names in place of `x`, `y`
   * and `foobar`: three let statements, named in order, and no error.
   */
  lemma {:induction false} ThreeLets(ts: seq<Lexeme>, x: string, y: string, foobar: string)
    requires ts == ThreeLetTokens(x, y, foobar)
    ensures ParseProgram(ts)
            == Program([LetStatement(x, IntegerLiteral(5)), LetStatement(y, IntegerLiteral(10)), LetStatement(foobar, IntegerLiteral(838383))], [])
  {
    ThreeLetAttempts(x, y, foobar);
    ThreeStatements(LetStatement(x, IntegerLiteral(5)), LetStatement(y, IntegerLiteral(10)), LetStatement(foobar, IntegerLiteral(838383)));
  }

  /** The tokens of `return 5; return 10; return 838383;`. */
  function ThreeReturnTokens(): seq<Lexeme>
  {
    [Lexeme(Return, "return"), Lexeme(Int, "5"), Lexeme(Semicolon, ";"),
     Lexeme(Return, "return"), Lexeme(Int, "10"), Lexeme(Semicolon, ";"),
     Lexeme(Return, "return"), Lexeme(Int, "838383"), Lexeme(Semicolon, ";")]
  }

  /** A `return x;` line over an atom. */
  predicate ReturnLine(l: seq<Lexeme>, X: Expression)
  {
    |l| == 3 && l[0].kind == Return && Atom(l[1], X) && l[2].kind == Semicolon
  }

  /** Three `return x;` lines are three return statements, in order. */
  lemma {:induction false} ReturnLines(l1: seq<Lexeme>, l2: seq<Lexeme>, l3: seq<Lexeme>, A: Expression, B: Expression, C: Expression)
    requires ReturnLine(l1, A) && ReturnLine(l2, B) && ReturnLine(l3, C)
    ensures Attempts(Start(l1 + (l2 + l3))) == [Ok(ReturnStatement(A)), Ok(ReturnStatement(B)), Ok(ReturnStatement(C))]
  {
    var t2 := l3;
    var t1 := l2 + l3;
    var ts := l1 + t1;
    assert t2[3..] == [];
    assert t1[..3] == l2 && t1[3..] == t2;
    assert ts[..3] == l1 && ts[3..] == t1;
    ReturnThenRest(t2, C);
    ReturnThenRest(t1, B);
    ReturnThenRest(ts, A);
    assert Attempts(Start([])) == [];
    var r1: Result<Statement, ParseError> := Ok(ReturnStatement(A));
    var r2: Result<Statement, ParseError> := Ok(ReturnStatement(B));
    var r3: Result<Statement, ParseError> := Ok(ReturnStatement(C));
    assert Attempts(Start(ts)) == [r1] + ([r2] + ([r3] + []));
    assert [r1] + ([r2] + ([r3] + [])) == [r1, r2, r3];
  }

  /** Each of the three return statements parses, in order, and nothing is left. */
  lemma {:induction false} ThreeReturnAttempts()
    ensures Attempts(Start(ThreeReturnTokens()))
            == [Ok(ReturnStatement(IntegerLiteral(5))), Ok(ReturnStatement(IntegerLiteral(10))), Ok(ReturnStatement(IntegerLiteral(838383)))]
  {
    ThreeLiterals();
    var r := Lexeme(Return, "return");
    var sc := Lexeme(Semicolon, ";");
    var l1 := [r, Lexeme(Int, "5"), sc];
    var l2 := [r, Lexeme(Int, "10"), sc];
    var l3 := [r, Lexeme(Int, "838383"), sc];
    assert ThreeReturnTokens() == l1 + (l2 + l3);
    ReturnLines(l1, l2, l3, IntegerLiteral(5), IntegerLiteral(10), IntegerLiteral(838383));
  }

  /** `return 5; return 10; return 838383;`: three return statements, in order, and no error. */
  lemma {:induction false} ThreeReturns()
    ensures ParseProgram(ThreeReturnTokens())
            == Program([ReturnStatement(IntegerLiteral(5)), ReturnStatement(IntegerLiteral(10)), ReturnStatement(IntegerLiteral(838383))], [])
  {
    ThreeReturnAttempts();
    ThreeStatements(ReturnStatement(IntegerLiteral(5)), ReturnStatement(IntegerLiteral(10)), ReturnStatement(IntegerLiteral(838383)));
  }
}
