/**
 * The empty parameter list and the empty argument list of `src/parser.rs`.
 *
 * Both `parse_func_params` and `parse_call_arguments` end a non-empty list with the cursor
 * on its `)`, and their callers rely on that: the function literal then checks that the
 * next token is `{`, and the call hands the cursor back to the infix loop. For an empty
 * list the source shifts once more, past the `)`. `Parsing` follows the source there; this
 * module shows on `fn ( ) { a }` and `f ( ) + b` what the extra shift does, and defines the
 * two lists as evidently intended, ending on their `)` whether empty or not.
 */
module ParsingFindings {
  import opened Wrappers
  import opened Tokens
  import opened Ast
  import opened Parsing
  import opened ParsingProperties
  import opened ParsingForms

  /** `parse_func_params` as intended: every list it accepts, the empty one included, ends on its `)`. */
  function ParseFuncParamsCorrected(s: PState): (p: Parsed<seq<string>>)
    requires Valid(s)
    ensures Valid(p.state)
    ensures p.result.Ok? ==> CurKind(p.state) == Some(Rparen)
    ensures CurKind(Advance(s)) == Some(Rparen) ==> p == Parsed(Ok([]), Advance(s))
    ensures CurKind(Advance(s)) != Some(Rparen) ==> p == ParseFuncParams(s)
  {
    var s1 := Advance(s);
    FuncParamsEnd(s);
    if CurKind(s1) == Some(Rparen) then Parsed(Ok([]), s1) else ParseFuncParams(s)
  }

  /** `parse_call_arguments` as intended: every list it accepts, the empty one included, ends on its `)`. */
  function ParseCallArgumentsCorrected(s: PState): (p: Parsed<seq<Expression>>)
    requires Valid(s)
    ensures Valid(p.state)
    ensures p.result.Ok? ==> CurKind(p.state) == Some(Rparen)
    ensures CurKind(Advance(s)) == Some(Rparen) ==> p == Parsed(Ok([]), Advance(s))
    ensures CurKind(Advance(s)) != Some(Rparen) ==> p == ParseCallArguments(s)
  {
    var s1 := Advance(s);
    CallArgumentsEnd(s);
    if CurKind(s1) == Some(Rparen) then Parsed(Ok([]), s1) else ParseCallArguments(s)
  }

  /** The prefix rule for `fn` over the corrected parameter list. */
  function FunctionLiteralCorrected(s: PState): (p: Parsed<Expression>)
    requires Valid(s) && CurKind(s) == Some(TokenKind.Function)
    ensures CurKind(Advance(Advance(s))) != Some(Rparen) ==> p == PrefixParse(s)
  {
    if PeekKind(s) != Some(TokenKind.Lparen) then Parsed(Err(LeftParenMissing), s)
    else
      var ps := ParseFuncParamsCorrected(Advance(s));
      if ps.result.Err? then Parsed(Err(ps.result.error), ps.state)
      else if PeekKind(ps.state) != Some(Lbrace) then Parsed(Err(LeftBraceMissing), ps.state)
      else
        var b := ParseBlockStatement(Advance(ps.state));
        if b.result.Err? then Parsed(Err(b.result.error), b.state)
        else Parsed(Ok(Callable(FunctionLiteral(ps.result.value, b.result.value))), b.state)
  }

  /** The call rule over the corrected argument list. */
  function CallCorrected(s: PState, left: Expression): (p: Parsed<Expression>)
    requires Valid(s) && PeekKind(s) == Some(TokenKind.Lparen) && left.Callable?
    ensures CurKind(Advance(Advance(s))) != Some(Rparen) ==> p == InfixParse(s, left)
  {
    var a := ParseCallArgumentsCorrected(Advance(s));
    if a.result.Err? then Parsed(Err(a.result.error), a.state) else Parsed(Ok(Call(left.callable, a.result.value)), a.state)
  }

  /**
   * As written, `fn ( ) { a }` is refused: the empty list leaves the cursor on `{`, so the
   * token after it is `a`, not the `{` the literal asks for.
   */
  lemma {:induction false} EmptyParametersAsWritten(f: Lexeme, lp: Lexeme, rp: Lexeme, lb: Lexeme, a: Lexeme, rb: Lexeme)
    requires f.kind == TokenKind.Function && lp.kind == TokenKind.Lparen && rp.kind == Rparen && lb.kind == Lbrace
    requires a.kind != Lbrace
    ensures ParseFuncParams(PState(Some(lp), Some(rp), [lb, a, rb])) == Parsed(Ok([]), PState(Some(lb), Some(a), [rb]))
    ensures PrefixParse(PState(Some(f), Some(lp), [rp, lb, a, rb])) == Parsed(Err(LeftBraceMissing), PState(Some(lb), Some(a), [rb]))
    ensures Message(LeftBraceMissing) == "left brace parentesis not found after if"
  {
    var s0 := PState(Some(f), Some(lp), [rp, lb, a, rb]);
    assert Advance(s0) == PState(Some(lp), Some(rp), [lb, a, rb]);
    assert Advance(PState(Some(lp), Some(rp), [lb, a, rb])) == PState(Some(rp), Some(lb), [a, rb]);
    assert Advance(PState(Some(rp), Some(lb), [a, rb])) == PState(Some(lb), Some(a), [rb]);
  }

  /** With the corrected list, `fn ( ) { a }` over an atom is a function literal without parameters. */
  lemma {:induction false} EmptyParametersCorrected(f: Lexeme, lp: Lexeme, rp: Lexeme, lb: Lexeme, a: Lexeme, rb: Lexeme, A: Expression)
    requires f.kind == TokenKind.Function && lp.kind == TokenKind.Lparen && rp.kind == Rparen && lb.kind == Lbrace
    requires Atom(a, A) && rb.kind == Rbrace
    ensures ParseFuncParamsCorrected(PState(Some(lp), Some(rp), [lb, a, rb])) == Parsed(Ok([]), PState(Some(rp), Some(lb), [a, rb]))
    ensures FunctionLiteralCorrected(PState(Some(f), Some(lp), [rp, lb, a, rb]))
            == Parsed(Ok(Callable(FunctionLiteral([], BlockStatement([ExpressionStatement(A)])))), PState(Some(rb), None, []))
  {
    var s0 := PState(Some(f), Some(lp), [rp, lb, a, rb]);
    var t := PState(Some(rp), Some(lb), [a, rb]);
    assert Advance(s0) == PState(Some(lp), Some(rp), [lb, a, rb]);
    assert Advance(PState(Some(lp), Some(rp), [lb, a, rb])) == t;
    assert Advance(t) == PState(Some(lb), Some(a), [rb] + []);
    AtomBlock(lb, a, rb, [], A);
  }

  /**
   * As written, the call `f ( )` at the head of `f ( ) + b` ends with the cursor on `+` and
   * `b` after it, where the infix loop stops: the expression is the bare call.
   */
  lemma {:induction false} EmptyCallExpression(f: Lexeme, lp: Lexeme, rp: Lexeme, plus: Lexeme, b: Lexeme, B: Expression)
    requires f.kind == Ident && lp.kind == TokenKind.Lparen && rp.kind == Rparen && IsBinaryOperator(plus.kind) && Atom(b, B)
    ensures InfixParse(PState(Some(f), Some(lp), [rp, plus, b]), Callable(Identifier(f.val)))
            == Parsed(Ok(Call(Identifier(f.val), [])), PState(Some(plus), Some(b), []))
    ensures Stops(PState(Some(plus), Some(b), []), Lowest)
    ensures ParseExpression(PState(Some(f), Some(lp), [rp, plus, b]), Lowest)
            == Parsed(Ok(Call(Identifier(f.val), [])), PState(Some(plus), Some(b), []))
  {
    var s0 := PState(Some(f), Some(lp), [rp, plus, b]);
    var left := Callable(Identifier(f.val));
    var call := Call(Identifier(f.val), []);
    var u := PState(Some(plus), Some(b), []);
    assert Advance(s0) == PState(Some(lp), Some(rp), [plus, b]);
    assert Advance(PState(Some(lp), Some(rp), [plus, b])) == PState(Some(rp), Some(plus), [b]);
    assert Advance(PState(Some(rp), Some(plus), [b])) == u;
    CallStep(s0, left, [], u);
    ExpressionStep(s0, Lowest, left, s0);
    LoopGoesOn(s0, Lowest, left, call, u);
    LoopStops(u, Lowest, call);
  }

  /** As written, the statement at the head of `f ( ) + b` is the bare call, and `+` is current after it. */
  lemma {:induction false} EmptyCallStatement(f: Lexeme, lp: Lexeme, rp: Lexeme, plus: Lexeme, b: Lexeme, B: Expression)
    requires f.kind == Ident && lp.kind == TokenKind.Lparen && rp.kind == Rparen && IsBinaryOperator(plus.kind) && Atom(b, B)
    ensures ParseStatement(PState(Some(f), Some(lp), [rp, plus, b]))
            == Parsed(Ok(ExpressionStatement(Call(Identifier(f.val), []))), PState(Some(plus), Some(b), []))
  {
    var s0 := PState(Some(f), Some(lp), [rp, plus, b]);
    var u := PState(Some(plus), Some(b), []);
    EmptyCallExpression(f, lp, rp, plus, b, B);
    ExpressionStatementStep(s0, Call(Identifier(f.val), []), u);
    assert SkipSemicolon(u) == u;
  }

  /** An atom as the last token is one last attempt: its expression statement. */
  lemma {:induction false} LastAtomAttempts(b: Lexeme, B: Expression)
    requires Atom(b, B)
    ensures Attempts(PState(Some(b), None, [])) == [Ok(ExpressionStatement(B))]
  {
    var z := PState(Some(b), None, []);
    AtomAlone(z, Lowest, B);
    ExpressionStatementStep(z, B, z);
    assert SkipSemicolon(z) == z;
    assert Attempts(Advance(z)) == [];
    AttemptsUnfold(z);
  }

  /** Two outcomes that are both statements. */
  lemma {:induction false} TwoStatements(a: Statement, b: Statement)
    ensures var rs: seq<Result<Statement, ParseError>> := [Ok(a), Ok(b)];
            Oks(rs) == [a, b] && Errs(rs) == []
  {
    var r2: seq<Result<Statement, ParseError>> := [Ok(b)];
    assert r2[1..] == [];
    assert Oks(r2) == [b] && Errs(r2) == [];
    var r1 := [Ok(a)] + r2;
    assert r1[1..] == r2;
    assert r1 == [Ok(a), Ok(b)];
  }

  /**
   * As written, `f ( ) + b` is a program of two statements, the call and `b`, with the `+`
   * dropped and no error recorded.
   */
  lemma {:induction false} EmptyArgumentsAsWritten(f: Lexeme, lp: Lexeme, rp: Lexeme, plus: Lexeme, b: Lexeme, B: Expression)
    requires f.kind == Ident && lp.kind == TokenKind.Lparen && rp.kind == Rparen && IsBinaryOperator(plus.kind) && Atom(b, B)
    ensures ParseProgram([f, lp, rp, plus, b]) == Program([ExpressionStatement(Call(Identifier(f.val), [])), ExpressionStatement(B)], [])
  {
    var s0 := PState(Some(f), Some(lp), [rp, plus, b]);
    var a := ExpressionStatement(Call(Identifier(f.val), []));
    var u := PState(Some(plus), Some(b), []);
    assert Start([f, lp, rp, plus, b]) == s0;
    EmptyCallStatement(f, lp, rp, plus, b, B);
    assert Advance(u) == PState(Some(b), None, []);
    LastAtomAttempts(b, B);
    AttemptsUnfold(s0);
    assert Attempts(s0) == [Ok(a), Ok(ExpressionStatement(B))];
    TwoStatements(a, ExpressionStatement(B));
  }

  /** With the corrected list, the call in `f ( ) + b` is followed by `+`, and the loop goes on to the sum. */
  lemma {:induction false} EmptyArgumentsCorrected(f: Lexeme, lp: Lexeme, rp: Lexeme, plus: Lexeme, b: Lexeme, B: Expression)
    requires f.kind == Ident && lp.kind == TokenKind.Lparen && rp.kind == Rparen && IsBinaryOperator(plus.kind) && Atom(b, B)
    ensures CallCorrected(PState(Some(f), Some(lp), [rp, plus, b]), Callable(Identifier(f.val)))
            == Parsed(Ok(Call(Identifier(f.val), [])), PState(Some(rp), Some(plus), [b]))
    ensures InfixLoop(PState(Some(rp), Some(plus), [b]), Lowest, Call(Identifier(f.val), []))
            == Parsed(Ok(Infix(Call(Identifier(f.val), []), BinaryOperator(plus.kind), B)), PState(Some(b), None, []))
  {
    var s0 := PState(Some(f), Some(lp), [rp, plus, b]);
    var t := PState(Some(rp), Some(plus), [b]);
    assert Advance(s0) == PState(Some(lp), Some(rp), [plus, b]);
    assert Advance(PState(Some(lp), Some(rp), [plus, b])) == t;
    var z := PState(Some(b), None, []);
    assert Advance(Advance(t)) == z;
    AtomAlone(z, PrecedenceOf(BinaryOperator(plus.kind)), B);
    var call := Call(Identifier(f.val), []);
    var e := Infix(call, BinaryOperator(plus.kind), B);
    BinaryStep(t, call, B, z);
    LoopGoesOn(t, Lowest, call, e, z);
    LoopStops(z, Lowest, e);
  }
}
