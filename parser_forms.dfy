/**
 * What each list and statement form of `src/parser.rs` accepts and rejects: argument and
 * parameter lists keep their items in source order and end on `)` (the empty list one
 * token later), a block ends on `}` or at the end of the input, `let` needs a name and `=`,
 * `return` takes one expression, and `parse_program` records one entry per statement
 * attempt.
 */
module ParsingForms {
  import opened Wrappers
  import opened Chars
  import opened Tokens
  import opened Ast
  import opened Parsing
  import opened ParsingProperties

  // ---------------------------------------------------------------------------
  // Argument and parameter lists

  /**
   * The loop of `parse_call_arguments` only appends: what it hands back starts with the
   * arguments parsed so far, and it leaves the parser on the closing `)`.
   */
  lemma {:induction false} ArgumentsExtend(s: PState, args: seq<Expression>)
    requires Valid(s)
    ensures var p := ArgumentsLoop(s, args);
            p.result.Ok? ==> args <= p.result.value && CurKind(p.state) == Some(Rparen)
    decreases Remaining(s)
  {
    if PeekKind(s) == Some(Comma) {
      var e := ParseExpression(Advance(Advance(s)), Lowest);
      if e.result.Ok? {
        ArgumentsExtend(e.state, args + [e.result.value]);
        var p := ArgumentsLoop(s, args);
        assert p == ArgumentsLoop(e.state, args + [e.result.value]);
        if p.result.Ok? {
          assert args <= args + [e.result.value];
        }
      }
    }
  }

  /** The same for the loop of `parse_func_params`. */
  lemma {:induction false} ParamsExtend(s: PState, names: seq<string>)
    requires Valid(s)
    ensures var p := ParamsLoop(s, names);
            p.result.Ok? ==> names <= p.result.value && CurKind(p.state) == Some(Rparen)
    decreases Remaining(s)
  {
    if PeekKind(s) == Some(Comma) {
      var s2 := Advance(Advance(s));
      if CurKind(s2) == Some(Ident) {
        ParamsExtend(s2, names + [s2.cur.value.val]);
        var p := ParamsLoop(s, names);
        if p.result.Ok? {
          assert names <= names + [s2.cur.value.val];
        }
      }
    }
  }

  /**
   * How a parsed argument list ends: the empty list `( )` shifts past its `)`, leaving the
   * token after it current, and a non-empty list holds at least one argument and leaves
   * the parser on its `)`.
   */
  lemma {:induction false} CallArgumentsEnd(s: PState)
    requires Valid(s)
    ensures CurKind(Advance(s)) == Some(Rparen) ==> ParseCallArguments(s) == Parsed(Ok([]), Advance(Advance(s)))
    ensures var p := ParseCallArguments(s);
            CurKind(Advance(s)) != Some(Rparen) && p.result.Ok? ==> |p.result.value| > 0 && CurKind(p.state) == Some(Rparen)
  {
    var s1 := Advance(s);
    if CurKind(s1) != Some(Rparen) {
      var e := ParseExpression(s1, Lowest);
      if e.result.Ok? {
        ArgumentsExtend(e.state, [e.result.value]);
      }
    }
  }

  /** The same for a parsed parameter list. */
  lemma {:induction false} FuncParamsEnd(s: PState)
    requires Valid(s)
    ensures CurKind(Advance(s)) == Some(Rparen) ==> ParseFuncParams(s) == Parsed(Ok([]), Advance(Advance(s)))
    ensures var p := ParseFuncParams(s);
            CurKind(Advance(s)) != Some(Rparen) && p.result.Ok? ==> |p.result.value| > 0 && CurKind(p.state) == Some(Rparen)
  {
    var s1 := Advance(s);
    if CurKind(s1) != Some(Rparen) && CurKind(s1) == Some(Ident) {
      ParamsExtend(s1, [s1.cur.value.val]);
    }
  }

  /** Every parameter is an identifier: anything else where a name is due is an error. */
  lemma {:induction false} NonIdentifierParameter(s: PState, names: seq<string>)
    requires Valid(s)
    ensures CurKind(Advance(s)) != Some(Rparen) && CurKind(Advance(s)) != Some(Ident)
            ==> ParseFuncParams(s) == Parsed(Err(ParameterNotIdentifier), Advance(s))
    ensures PeekKind(s) == Some(Comma) && CurKind(Advance(Advance(s))) != Some(Ident)
            ==> ParamsLoop(s, names) == Parsed(Err(ParameterNotIdentifier), Advance(Advance(s)))
  {
  }

  /** `(` after a left operand that is neither an identifier nor a function literal fails. */
  lemma {:induction false} CallNeedsCallable(s: PState, left: Expression)
    requires Valid(s) && PeekKind(s) == Some(TokenKind.Lparen) && !left.Callable?
    ensures InfixParse(s, left) == Parsed(Err(NotCallable), s)
    ensures Message(NotCallable) == "expression is not callable"
  {
  }

  // ---------------------------------------------------------------------------
  // Blocks

  /** The loop of `parse_block_statement` only appends, and stops on `}` or at the end of the input. */
  lemma {:induction false} BlockLoopEnds(s: PState, stmts: seq<Statement>)
    requires Valid(s)
    ensures var p := BlockLoop(s, stmts);
            p.result.Ok? ==> stmts <= p.result.value && (p.state.cur.None? || p.state.cur.value.kind == Rbrace)
    decreases Remaining(s)
  {
    if s.cur.Some? && s.cur.value.kind != Rbrace {
      var st := ParseStatement(s);
      if st.result.Ok? {
        BlockLoopEnds(Advance(st.state), stmts + [st.result.value]);
        var p := BlockLoop(s, stmts);
        if p.result.Ok? {
          assert stmts <= stmts + [st.result.value];
        }
      }
    }
  }

  /** A parsed block ends at its `}`, or at the end of the input when the `}` is missing. */
  lemma {:induction false} BlockEnds(s: PState)
    requires Valid(s)
    ensures var p := ParseBlockStatement(s);
            p.result.Ok? ==> p.state.cur.None? || p.state.cur.value.kind == Rbrace
  {
    BlockLoopEnds(Advance(s), []);
  }

  // ---------------------------------------------------------------------------
  // Calls, function literals and conditionals, one rule at a time

  /** The first argument of a non-empty list, then the loop over the rest. */
  lemma {:induction false} FirstArgument(s: PState, e: Expression, t: PState)
    requires Valid(s) && CurKind(Advance(s)) != Some(Rparen)
    requires ParseExpression(Advance(s), Lowest) == Parsed(Ok(e), t)
    ensures ParseCallArguments(s) == ArgumentsLoop(t, [e])
  {
  }

  /** `(` after a callable operand: a call with the arguments parsed from there. */
  lemma {:induction false} CallStep(s: PState, left: Expression, args: seq<Expression>, t: PState)
    requires Valid(s) && PeekKind(s) == Some(TokenKind.Lparen) && left.Callable?
    requires ParseCallArguments(Advance(s)) == Parsed(Ok(args), t)
    ensures InfixParse(s, left) == Parsed(Ok(Call(left.callable, args)), t)
  {
  }

  /** `fn`, a parameter list and a block make a function literal. */
  lemma {:induction false} FunctionStep(s: PState, names: seq<string>, t: PState, body: BlockStatement, u: PState)
    requires Valid(s) && CurKind(s) == Some(TokenKind.Function) && PeekKind(s) == Some(TokenKind.Lparen)
    requires ParseFuncParams(Advance(s)) == Parsed(Ok(names), t) && PeekKind(t) == Some(Lbrace)
    requires ParseBlockStatement(Advance(t)) == Parsed(Ok(body), u)
    ensures PrefixParse(s) == Parsed(Ok(Callable(FunctionLiteral(names, body))), u)
  {
  }

  /**
   * `if`, a condition and a consequence block that ends in state `u`: the conditional has
   * an alternative exactly when `else` comes next, and without one it ends where the
   * consequence did.
   */
  lemma {:induction false} IfAlternative(s: PState, c: Expression, t: PState, k: BlockStatement, u: PState)
    requires Valid(s) && CurKind(s) == Some(TokenKind.If) && PeekKind(s) == Some(TokenKind.Lparen)
    requires ParseExpression(Advance(s), Lowest) == Parsed(Ok(c), t) && PeekKind(t) == Some(Lbrace)
    requires ParseBlockStatement(Advance(t)) == Parsed(Ok(k), u)
    ensures var p := PrefixParse(s);
            p.result.Ok? ==> p.result.value.If? && (p.result.value.alternative.Some? <==> PeekKind(u) == Some(Else))
    ensures PeekKind(u) != Some(Else) ==> PrefixParse(s) == Parsed(Ok(Expression.If(c, k, None)), u)
  {
  }

  /** The alternative block after `else {`. */
  lemma {:induction false} ElseStep(s: PState, c: Expression, t: PState, k: BlockStatement, u: PState, a: BlockStatement, w: PState)
    requires Valid(s) && CurKind(s) == Some(TokenKind.If) && PeekKind(s) == Some(TokenKind.Lparen)
    requires ParseExpression(Advance(s), Lowest) == Parsed(Ok(c), t) && PeekKind(t) == Some(Lbrace)
    requires ParseBlockStatement(Advance(t)) == Parsed(Ok(k), u)
    requires PeekKind(u) == Some(Else) && PeekKind(Advance(u)) == Some(Lbrace)
    requires ParseBlockStatement(Advance(Advance(u))) == Parsed(Ok(a), w)
    ensures PrefixParse(s) == Parsed(Ok(Expression.If(c, k, Some(a))), w)
  {
  }

  /** `(` and an expression followed by `)` is that expression, with the `)` consumed. */
  lemma {:induction false} GroupStep(s: PState, e: Expression, t: PState)
    requires Valid(s) && CurKind(s) == Some(TokenKind.Lparen)
    requires ParseExpression(Advance(s), Lowest) == Parsed(Ok(e), t) && PeekKind(t) == Some(Rparen)
    ensures PrefixParse(s) == Parsed(Ok(e), Advance(t))
  {
  }

  /** `(x o y)` over atoms, as the grouped-expression rule parses it. */
  lemma {:induction false} GroupedBinary(lp: Lexeme, x: Lexeme, o: Lexeme, y: Lexeme, rp: Lexeme, rest: seq<Lexeme>, X: Expression, Y: Expression)
    requires lp.kind == TokenKind.Lparen && rp.kind == Rparen && Atom(x, X) && Atom(y, Y) && IsBinaryOperator(o.kind)
    ensures PrefixParse(PState(Some(lp), Some(x), [o, y, rp] + rest))
            == Parsed(Ok(Infix(X, BinaryOperator(o.kind), Y)), Advance(PState(Some(y), Some(rp), rest)))
  {
    assert Advance(PState(Some(lp), Some(x), [o, y, rp] + rest)) == PState(Some(x), Some(o), [y, rp] + rest) by {
      assert ([o, y, rp] + rest)[1..] == [y, rp] + rest;
    }
    BinaryThenStop(x, o, y, rp, rest, X, Y, Lowest);
    GroupStep(PState(Some(lp), Some(x), [o, y, rp] + rest), Infix(X, BinaryOperator(o.kind), Y), PState(Some(y), Some(rp), rest));
  }

  /** `x o y;` over atoms is one infix expression statement, with the `;` consumed. */
  lemma {:induction false} BinaryStatement(x: Lexeme, o: Lexeme, y: Lexeme, semi: Lexeme, close: Lexeme, rest: seq<Lexeme>, X: Expression, Y: Expression)
    requires Atom(x, X) && Atom(y, Y) && IsBinaryOperator(o.kind) && semi.kind == Semicolon
    ensures ParseStatement(PState(Some(x), Some(o), [y, semi, close] + rest))
            == Parsed(Ok(ExpressionStatement(Infix(X, BinaryOperator(o.kind), Y))), PState(Some(semi), Some(close), rest))
  {
    var s1 := PState(Some(x), Some(o), [y, semi, close] + rest);
    var t := PState(Some(y), Some(semi), [close] + rest);
    var e := Infix(X, BinaryOperator(o.kind), Y);
    assert [y, semi] + ([close] + rest) == [y, semi, close] + rest;
    BinaryThenStop(x, o, y, semi, [close] + rest, X, Y, Lowest);
    ExpressionStatementStep(s1, e, t);
    assert SkipSemicolon(t) == PState(Some(semi), Some(close), rest) by {
      assert ([close] + rest)[1..] == rest;
    }
  }

  /** A block holding one binary expression statement over atoms: `{ x o y; }`. */
  lemma {:induction false} BinaryBlock(open: Lexeme, x: Lexeme, o: Lexeme, y: Lexeme, semi: Lexeme, close: Lexeme, rest: seq<Lexeme>, X: Expression, Y: Expression)
    requires open.kind == Lbrace && Atom(x, X) && Atom(y, Y) && IsBinaryOperator(o.kind)
    requires semi.kind == Semicolon && close.kind == Rbrace
    ensures ParseBlockStatement(PState(Some(open), Some(x), [o, y, semi, close] + rest))
            == Parsed(Ok(BlockStatement([ExpressionStatement(Infix(X, BinaryOperator(o.kind), Y))])), Advance(PState(Some(semi), Some(close), rest)))
  {
    var s1 := PState(Some(x), Some(o), [y, semi, close] + rest);
    assert Advance(PState(Some(open), Some(x), [o, y, semi, close] + rest)) == s1 by {
      assert ([o, y, semi, close] + rest)[1..] == [y, semi, close] + rest;
    }
    var st := ExpressionStatement(Infix(X, BinaryOperator(o.kind), Y));
    var t1 := PState(Some(semi), Some(close), rest);
    BinaryStatement(x, o, y, semi, close, rest, X, Y);
    BlockStep(s1, [], st, t1);
    assert [] + [st] == [st];
    assert Advance(t1).cur == Some(close);
    BlockCloses(Advance(t1), [st]);
    BlockOpens(PState(Some(open), Some(x), [o, y, semi, close] + rest), [st], Advance(t1));
  }

  // ---------------------------------------------------------------------------
  // Let statements

  /** `let` must be followed by an identifier. */
  lemma {:induction false} LetNeedsName(s: PState)
    requires Valid(s) && CurKind(s) == Some(Let) && PeekKind(s) != Some(Ident)
    ensures ParseStatement(s) == Parsed(Err(LetNameMissing(s.peek)), s)
  {
  }

  /** The name of a `let` must be followed by `=`. */
  lemma {:induction false} LetNeedsAssign(s: PState)
    requires Valid(s) && CurKind(s) == Some(Let) && PeekKind(s) == Some(Ident) && PeekKind(Advance(s)) != Some(Assign)
    ensures ParseStatement(s) == Parsed(Err(LetNameMissing(Advance(s).peek)), Advance(s))
  {
  }

  /** A `let` whose name and `=` are in place: the statement holds the value expression, and a `;` after it is consumed. */
  lemma {:induction false} LetStep(s: PState, X: Expression, t: PState)
    requires Valid(s) && CurKind(s) == Some(Let) && PeekKind(s) == Some(Ident) && PeekKind(Advance(s)) == Some(Assign)
    requires ParseExpression(Advance(Advance(Advance(s))), Lowest) == Parsed(Ok(X), t)
    ensures ParseStatement(s) == Parsed(Ok(LetStatement(s.peek.value.val, X)), SkipSemicolon(t))
  {
  }

  /**
   * `let n = x` with an atom `x`, then a token `u` that is no operator: a `;` there is
   * consumed with the statement, anything else is left for the next one.
   */
  lemma {:induction false} LetOfAtom(l: Lexeme, n: Lexeme, a: Lexeme, x: Lexeme, u: Lexeme, rest: seq<Lexeme>, X: Expression)
    requires l.kind == Let && n.kind == Ident && a.kind == Assign && Atom(x, X) && TokenOperator(u.kind).None?
    ensures var p := ParseStatement(PState(Some(l), Some(n), [a, x, u] + rest));
            && p.result == Ok(LetStatement(n.val, X))
            && Advance(p.state) == (if u.kind == Semicolon then Start(rest) else Start([u] + rest))
  {
    var s0 := PState(Some(l), Some(n), [a, x, u] + rest);
    var s3 := PState(Some(x), Some(u), rest);
    assert Advance(Advance(Advance(s0))) == s3 by {
      assert ([a, x, u] + rest)[1..] == [x, u] + rest;
      assert ([x, u] + rest)[1..] == [u] + rest;
      assert ([u] + rest)[1..] == rest;
    }
    AtomAlone(s3, Lowest, X);
    LetStep(s0, X, s3);
    if u.kind == Semicolon {
      TwoShifts(x, u, rest);
    } else {
      assert Advance(s3) == Start([u] + rest) by {
        assert ([u] + rest)[1..] == rest;
      }
    }
  }

  /** A program that opens with `let n = x;` over an atom: one let statement, then the rest. */
  lemma {:induction false} LetThenRest(ts: seq<Lexeme>, X: Expression)
    requires |ts| >= 5 && ts[0].kind == Let && ts[1].kind == Ident && ts[2].kind == Assign && Atom(ts[3], X)
    requires ts[4].kind == Semicolon
    ensures Attempts(Start(ts)) == [Ok(LetStatement(ts[1].val, X))] + Attempts(Start(ts[5..]))
  {
    var rest := ts[5..];
    var s0 := PState(Some(ts[0]), Some(ts[1]), [ts[2], ts[3], ts[4]] + rest);
    assert Start(ts) == s0 by {
      assert ts[2..] == [ts[2], ts[3], ts[4]] + rest;
    }
    LetOfAtom(ts[0], ts[1], ts[2], ts[3], ts[4], rest, X);
    var p := ParseStatement(s0);
    assert p.result == Ok(LetStatement(ts[1].val, X)) && Advance(p.state) == Start(rest);
    AttemptsUnfold(s0);
  }

  /** `return e` is a return statement of `e`, with the `;` after it optional. */
  lemma {:induction false} ReturnStep(s: PState, X: Expression, t: PState)
    requires Valid(s) && CurKind(s) == Some(Return)
    requires ParseExpression(Advance(s), Lowest) == Parsed(Ok(X), t)
    ensures ParseStatement(s) == Parsed(Ok(ReturnStatement(X)), SkipSemicolon(t))
    ensures PeekKind(t) == Some(Semicolon) ==> ParseStatement(s).state == Advance(t)
    ensures PeekKind(t) != Some(Semicolon) ==> ParseStatement(s).state == t
  {
  }

  /** A `return` whose value fails to parse fails with that error, where the value stopped. */
  lemma {:induction false} ReturnFails(s: PState, e: ParseError, t: PState)
    requires Valid(s) && CurKind(s) == Some(Return)
    requires ParseExpression(Advance(s), Lowest) == Parsed(Err(e), t)
    ensures ParseStatement(s) == Parsed(Err(e), t)
  {
  }

  /**
   * `return x` with an atom `x`, then a token `u` that is no operator: a `;` there is
   * consumed with the statement, anything else is left for the next one.
   */
  lemma {:induction false} ReturnOfAtom(r: Lexeme, x: Lexeme, u: Lexeme, rest: seq<Lexeme>, X: Expression)
    requires r.kind == Return && Atom(x, X) && TokenOperator(u.kind).None?
    ensures var p := ParseStatement(PState(Some(r), Some(x), [u] + rest));
            && p.result == Ok(ReturnStatement(X))
            && Advance(p.state) == (if u.kind == Semicolon then Start(rest) else Start([u] + rest))
  {
    var s0 := PState(Some(r), Some(x), [u] + rest);
    var s1 := PState(Some(x), Some(u), rest);
    assert Advance(s0) == s1 by {
      assert ([u] + rest)[1..] == rest;
    }
    AtomAlone(s1, Lowest, X);
    ReturnStep(s0, X, s1);
    if u.kind == Semicolon {
      TwoShifts(x, u, rest);
    } else {
      assert Advance(s1) == Start([u] + rest) by {
        assert ([u] + rest)[1..] == rest;
      }
    }
  }

  /** A program that opens with `return x;` over an atom: one return statement, then the rest. */
  lemma {:induction false} ReturnThenRest(ts: seq<Lexeme>, X: Expression)
    requires |ts| >= 3 && ts[0].kind == Return && Atom(ts[1], X) && ts[2].kind == Semicolon
    ensures Attempts(Start(ts)) == [Ok(ReturnStatement(X))] + Attempts(Start(ts[3..]))
  {
    var rest := ts[3..];
    var s0 := PState(Some(ts[0]), Some(ts[1]), [ts[2]] + rest);
    assert Start(ts) == s0 by {
      assert ts[2..] == [ts[2]] + rest;
    }
    ReturnOfAtom(ts[0], ts[1], ts[2], rest, X);
    var p := ParseStatement(s0);
    assert p.result == Ok(ReturnStatement(X)) && Advance(p.state) == Start(rest);
    AttemptsUnfold(s0);
  }

  // ---------------------------------------------------------------------------
  // Programs

  /** Every outcome is either a statement or an error, never both and never neither. */
  lemma {:induction false} OutcomesCounted(rs: seq<Result<Statement, ParseError>>)
    ensures |Oks(rs)| + |Errs(rs)| == |rs|
  {
    if rs != [] {
      OutcomesCounted(rs[1..]);
    }
  }

  /** Each statement attempt consumes at least one token. */
  lemma {:induction false} AttemptsBounded(s: PState)
    requires Valid(s)
    ensures |Attempts(s)| <= Remaining(s)
    decreases Remaining(s)
  {
    if s.cur.Some? {
      AttemptsBounded(Advance(ParseStatement(s).state));
    }
  }

  /**
   * `parse_program` always yields a program, and every statement attempt lands in exactly
   * one of its two lists: there are as many entries as attempts, and no more than tokens.
   */
  lemma {:induction false} ProgramAccounts(tokens: seq<Lexeme>)
    ensures var p := ParseProgram(tokens);
            var rs := Attempts(Start(tokens));
            && p.statements == Oks(rs) && p.errors == Errs(rs)
            && |p.statements| + |p.errors| == |rs| <= |tokens|
  {
    OutcomesCounted(Attempts(Start(tokens)));
    AttemptsBounded(Start(tokens));
  }
}
