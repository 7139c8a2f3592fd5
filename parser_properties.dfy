/**
 * What the Pratt parser of `src/parser.rs` promises: how operators group, what each
 * statement and list form accepts and rejects, and that `parse_program` accounts for
 * every statement attempt. The step lemmas at the top unfold one rule each; the ones
 * after them are the properties.
 */
module ParsingProperties {
  import opened Wrappers
  import opened Chars
  import opened Tokens
  import opened Ast
  import opened Parsing

  // ---------------------------------------------------------------------------
  // One rule at a time

  /** The operator of a binary operator kind. */
  function BinaryOperator(k: TokenKind): (op: Operator)
    requires IsBinaryOperator(k)
    ensures TokenOperator(k) == Some(op) && 1 <= Level(PrecedenceOf(op)) <= 4
  {
    TokenOperator(k).value
  }

  /** The infix loop of `parse_expression` leaves `left` alone from `s`. */
  predicate Stops(s: PState, prec: OperatorPrecedence)
  {
    || CurKind(s) == Some(Semicolon)
    || s.peek.None?
    || TokenOperator(s.peek.value.kind).None?
    || Level(prec) >= Level(PrecedenceOf(TokenOperator(s.peek.value.kind).value))
  }

  lemma {:induction false} LoopStops(s: PState, prec: OperatorPrecedence, left: Expression)
    requires Valid(s) && Stops(s, prec)
    ensures InfixLoop(s, prec, left) == Parsed(Ok(left), s)
  {
  }

  /** `!` as the peek token converts to an operator, but at `Lowest` it never continues the loop. */
  lemma {:induction false} BangStopsLoop(s: PState, prec: OperatorPrecedence, left: Expression)
    requires Valid(s) && PeekKind(s) == Some(TokenKind.Bang)
    ensures TokenOperator(TokenKind.Bang) == Some(Operator.Bang) && PrecedenceOf(Operator.Bang) == Lowest
    ensures InfixLoop(s, prec, left) == Parsed(Ok(left), s)
  {
    assert Stops(s, prec);
    LoopStops(s, prec, left);
  }

  lemma {:induction false} LoopGoesOn(s: PState, prec: OperatorPrecedence, left: Expression, e: Expression, t: PState)
    requires Valid(s) && !Stops(s, prec) && InfixParse(s, left) == Parsed(Ok(e), t)
    ensures InfixLoop(s, prec, left) == InfixLoop(t, prec, e)
  {
  }

  lemma {:induction false} BinaryStep(s: PState, left: Expression, right: Expression, t: PState)
    requires Valid(s) && s.peek.Some? && IsBinaryOperator(s.peek.value.kind)
    requires ParseExpression(Advance(Advance(s)), PrecedenceOf(BinaryOperator(s.peek.value.kind))) == Parsed(Ok(right), t)
    ensures InfixParse(s, left) == Parsed(Ok(Infix(left, BinaryOperator(s.peek.value.kind), right)), t)
  {
  }

  lemma {:induction false} ExpressionStep(s: PState, prec: OperatorPrecedence, e: Expression, t: PState)
    requires Valid(s) && s.cur.Some? && PrefixParse(s) == Parsed(Ok(e), t)
    ensures ParseExpression(s, prec) == InfixLoop(t, prec, e)
  {
  }

  /**
   * `str::parse` into `i64` reads back every `i64` from its decimal text, and from that text
   * behind a `+` when it is not negative; a sign without digits is no integer.
   */
  lemma {:induction false} IntegerTextRoundTrip(n: i64)
    ensures ParseInteger(IntToString(n as int)) == Some(n)
    ensures n >= 0 ==> ParseInteger("+" + IntToString(n as int)) == Some(n)
    ensures ParseInteger("") == None && ParseInteger("+") == None && ParseInteger("-") == None
  {
    var m := if n < 0 then -(n as int) else n as int;
    DecimalValueOfNatToString(m);
    var d := NatToString(m);
    if n < 0 {
      assert IntToString(n as int) == "-" + d;
      assert Unsigned("-" + d) == d;
    } else {
      assert IntToString(n as int) == d;
      assert d[0] != '+' && d[0] != '-';
      assert Unsigned(d) == d;
      assert Unsigned("+" + d) == d;
      assert ("+" + d)[0] == '+';
    }
    assert Unsigned("+") == [];
    assert Unsigned("-") == [];
  }

  /** `+5` and `-5` read as 5 and -5, as `str::parse` allows. */
  lemma {:induction false} SignedIntegerTexts()
    ensures ParseInteger("+5") == Some(5) && ParseInteger("-5") == Some(-5)
  {
    assert Unsigned("+5") == "5";
    assert Unsigned("-5") == "5";
  }

  /** The expression a token is on its own, when its prefix rule does not move the parser. */
  function AtomOf(t: Lexeme): Option<Expression>
  {
    match t.kind
    case Ident => Some(Callable(Identifier(t.val)))
    case Int => if ParseInteger(t.val).Some? then Some(IntegerLiteral(ParseInteger(t.val).value)) else None
    case True => Some(BooleanLiteral(true))
    case False => Some(BooleanLiteral(false))
    case _ => None
  }

  predicate Atom(t: Lexeme, e: Expression)
  {
    AtomOf(t) == Some(e)
  }

  /** An atom the infix loop does not continue after is a whole expression. */
  lemma {:induction false} AtomAlone(s: PState, prec: OperatorPrecedence, e: Expression)
    requires Valid(s) && s.cur.Some? && Atom(s.cur.value, e) && Stops(s, prec)
    ensures ParseExpression(s, prec) == Parsed(Ok(e), s)
  {
    LoopStops(s, prec, e);
  }

  /** Two shifts from a state with both token slots filled land where a fresh parser over the rest starts. */
  lemma {:induction false} TwoShifts(c: Lexeme, p: Lexeme, rest: seq<Lexeme>)
    ensures Advance(Advance(PState(Some(c), Some(p), rest))) == Start(rest)
  {
  }

  /** A binary operator between two atoms, followed by a token that is no operator. */
  lemma {:induction false} BinaryThenStop(x: Lexeme, o: Lexeme, y: Lexeme, u: Lexeme, rest: seq<Lexeme>, X: Expression, Y: Expression, prec: OperatorPrecedence)
    requires Atom(x, X) && Atom(y, Y) && IsBinaryOperator(o.kind) && TokenOperator(u.kind).None?
    requires Level(prec) < Level(PrecedenceOf(BinaryOperator(o.kind)))
    ensures ParseExpression(PState(Some(x), Some(o), [y, u] + rest), prec)
            == Parsed(Ok(Infix(X, BinaryOperator(o.kind), Y)), PState(Some(y), Some(u), rest))
  {
    var s0 := PState(Some(x), Some(o), [y, u] + rest);
    var s2 := PState(Some(y), Some(u), rest);
    assert Advance(Advance(s0)) == s2 by {
      assert ([y, u] + rest)[1..] == [u] + rest;
      assert ([u] + rest)[1..] == rest;
    }
    var op := BinaryOperator(o.kind);
    AtomAlone(s2, PrecedenceOf(op), Y);
    BinaryStep(s0, X, Y, s2);
    LoopGoesOn(s0, prec, X, Infix(X, op, Y), s2);
    LoopStops(s2, prec, Infix(X, op, Y));
    ExpressionStep(s0, prec, X, s0);
  }

  /** A statement that is an expression, after which the parser stands on `t` (before any `;`). */
  lemma {:induction false} ExpressionStatementStep(s: PState, e: Expression, t: PState)
    requires Valid(s) && CurKind(s) != Some(Let) && CurKind(s) != Some(Return)
    requires ParseExpression(s, Lowest) == Parsed(Ok(e), t)
    ensures ParseStatement(s) == Parsed(Ok(ExpressionStatement(e)), SkipSemicolon(t))
  {
  }

  /** One more statement of a block. */
  lemma {:induction false} BlockStep(s: PState, stmts: seq<Statement>, st: Statement, t: PState)
    requires Valid(s) && s.cur.Some? && s.cur.value.kind != Rbrace
    requires ParseStatement(s) == Parsed(Ok(st), t)
    ensures BlockLoop(s, stmts) == BlockLoop(Advance(t), stmts + [st])
  {
  }

  /** A `}` ends the block loop with the statements so far. */
  lemma {:induction false} BlockCloses(s: PState, stmts: seq<Statement>)
    requires Valid(s) && s.cur.Some? && s.cur.value.kind == Rbrace
    ensures BlockLoop(s, stmts) == Parsed(Ok(stmts), s)
  {
  }

  /** A block is the statements its loop collects after the `{`. */
  lemma {:induction false} BlockOpens(s: PState, stmts: seq<Statement>, t: PState)
    requires Valid(s) && BlockLoop(Advance(s), []) == Parsed(Ok(stmts), t)
    ensures ParseBlockStatement(s) == Parsed(Ok(BlockStatement(stmts)), t)
  {
  }

  /** One more argument of a call, after a `,`. */
  lemma {:induction false} ArgumentStep(s: PState, args: seq<Expression>, e: Expression, t: PState)
    requires Valid(s) && PeekKind(s) == Some(Comma)
    requires ParseExpression(Advance(Advance(s)), Lowest) == Parsed(Ok(e), t)
    ensures ArgumentsLoop(s, args) == ArgumentsLoop(t, args + [e])
  {
  }

  /** A block holding one atom as its only statement: `{ a }`. */
  lemma {:induction false} AtomBlock(open: Lexeme, a: Lexeme, close: Lexeme, rest: seq<Lexeme>, A: Expression)
    requires open.kind == Lbrace && Atom(a, A) && close.kind == Rbrace
    ensures ParseBlockStatement(PState(Some(open), Some(a), [close] + rest))
            == Parsed(Ok(BlockStatement([ExpressionStatement(A)])), Advance(PState(Some(a), Some(close), rest)))
  {
    var s1 := PState(Some(a), Some(close), rest);
    assert Advance(PState(Some(open), Some(a), [close] + rest)) == s1 by {
      assert ([close] + rest)[1..] == rest;
    }
    AtomAlone(s1, Lowest, A);
    ExpressionStatementStep(s1, A, s1);
    assert SkipSemicolon(s1) == s1;
    BlockStep(s1, [], ExpressionStatement(A), s1);
    assert [] + [ExpressionStatement(A)] == [ExpressionStatement(A)];
  }

  /** A whole program that is one expression statement. */
  lemma {:induction false} ExpressionProgram(ts: seq<Lexeme>, e: Expression, z: Lexeme)
    requires |ts| > 0 && ts[0].kind != Let && ts[0].kind != Return
    requires ParseExpression(Start(ts), Lowest) == Parsed(Ok(e), PState(Some(z), None, []))
    ensures ParseProgram(ts) == Program([ExpressionStatement(e)], [])
  {
    var s := Start(ts);
    var t := PState(Some(z), None, []);
    ExpressionStatementStep(s, e, t);
    assert SkipSemicolon(t) == t;
    assert Attempts(Advance(t)) == [];
    AttemptsUnfold(s);
    var rs := [Ok(ExpressionStatement(e))];
    assert Attempts(s) == rs;
    assert rs[1..] == [];
    assert Oks(rs) == [ExpressionStatement(e)];
    assert Errs(rs) == [];
  }

  // ---------------------------------------------------------------------------
  // Binding power

  /** The ladder of binding powers is strictly ordered, lowest first. */
  lemma {:induction false} PrecedenceLadder()
    ensures Level(Lowest) < Level(Equals) < Level(LessGreater) < Level(Sum) < Level(Product) < Level(PrefixLevel) < Level(CallLevel)
    ensures forall p: OperatorPrecedence, q: OperatorPrecedence :: Level(p) == Level(q) ==> p == q
  {
  }

  /**
   * `x o1 y o2 z` over atoms: when `o2` binds tighter than `o1` it groups to the
   * right, and otherwise (equal or looser) to the left.
   */
  lemma {:induction false} TwoOperators(x: Lexeme, o1: Lexeme, y: Lexeme, o2: Lexeme, z: Lexeme, A: Expression, B: Expression, C: Expression)
    requires Atom(x, A) && Atom(y, B) && Atom(z, C)
    requires IsBinaryOperator(o1.kind) && IsBinaryOperator(o2.kind)
    ensures var p := BinaryOperator(o1.kind);
            var q := BinaryOperator(o2.kind);
            ParseExpression(Start([x, o1, y, o2, z]), Lowest)
            == Parsed(Ok(if Level(PrecedenceOf(p)) < Level(PrecedenceOf(q))
                         then Infix(A, p, Infix(B, q, C))
                         else Infix(Infix(A, p, B), q, C)),
                      PState(Some(z), None, []))
  {
    assert Start([x, o1, y, o2, z]) == PState(Some(x), Some(o1), [y, o2, z]);
    if Level(PrecedenceOf(BinaryOperator(o1.kind))) < Level(PrecedenceOf(BinaryOperator(o2.kind))) {
      GroupsRight(x, o1, y, o2, z, A, B, C);
    } else {
      GroupsLeft(x, o1, y, o2, z, A, B, C);
    }
  }

  lemma {:induction false} GroupsRight(x: Lexeme, o1: Lexeme, y: Lexeme, o2: Lexeme, z: Lexeme, A: Expression, B: Expression, C: Expression)
    requires Atom(x, A) && Atom(y, B) && Atom(z, C)
    requires IsBinaryOperator(o1.kind) && IsBinaryOperator(o2.kind)
    requires Level(PrecedenceOf(BinaryOperator(o1.kind))) < Level(PrecedenceOf(BinaryOperator(o2.kind)))
    ensures ParseExpression(PState(Some(x), Some(o1), [y, o2, z]), Lowest)
            == Parsed(Ok(Infix(A, BinaryOperator(o1.kind), Infix(B, BinaryOperator(o2.kind), C))), PState(Some(z), None, []))
  {
    var p := BinaryOperator(o1.kind);
    var q := BinaryOperator(o2.kind);
    var s0 := PState(Some(x), Some(o1), [y, o2, z]);
    var s2 := PState(Some(y), Some(o2), [z]);
    var s4 := PState(Some(z), None, []);
    assert Advance(Advance(s0)) == s2;
    assert Advance(Advance(s2)) == s4;
    AtomAlone(s4, PrecedenceOf(q), C);
    BinaryStep(s2, B, C, s4);
    var bc := Infix(B, q, C);
    LoopGoesOn(s2, PrecedenceOf(p), B, bc, s4);
    LoopStops(s4, PrecedenceOf(p), bc);
    ExpressionStep(s2, PrecedenceOf(p), B, s2);
    BinaryStep(s0, A, bc, s4);
    LoopGoesOn(s0, Lowest, A, Infix(A, p, bc), s4);
    LoopStops(s4, Lowest, Infix(A, p, bc));
    ExpressionStep(s0, Lowest, A, s0);
  }

  lemma {:induction false} GroupsLeft(x: Lexeme, o1: Lexeme, y: Lexeme, o2: Lexeme, z: Lexeme, A: Expression, B: Expression, C: Expression)
    requires Atom(x, A) && Atom(y, B) && Atom(z, C)
    requires IsBinaryOperator(o1.kind) && IsBinaryOperator(o2.kind)
    requires Level(PrecedenceOf(BinaryOperator(o1.kind))) >= Level(PrecedenceOf(BinaryOperator(o2.kind)))
    ensures ParseExpression(PState(Some(x), Some(o1), [y, o2, z]), Lowest)
            == Parsed(Ok(Infix(Infix(A, BinaryOperator(o1.kind), B), BinaryOperator(o2.kind), C)), PState(Some(z), None, []))
  {
    var p := BinaryOperator(o1.kind);
    var q := BinaryOperator(o2.kind);
    var s0 := PState(Some(x), Some(o1), [y, o2, z]);
    var s2 := PState(Some(y), Some(o2), [z]);
    var s4 := PState(Some(z), None, []);
    assert Advance(Advance(s0)) == s2;
    assert Advance(Advance(s2)) == s4;
    AtomAlone(s4, PrecedenceOf(q), C);
    AtomAlone(s2, PrecedenceOf(p), B);
    BinaryStep(s0, A, B, s2);
    var ab := Infix(A, p, B);
    LoopGoesOn(s0, Lowest, A, ab, s2);
    BinaryStep(s2, ab, C, s4);
    LoopGoesOn(s2, Lowest, ab, Infix(ab, q, C), s4);
    LoopStops(s4, Lowest, Infix(ab, q, C));
    ExpressionStep(s0, Lowest, A, s0);
  }

  /** `!a` and `-a`: a prefix operator applied to the atom after it, when no operator binds tighter than a prefix. */
  lemma {:induction false} NegatedAtom(s: PState, X: Expression)
    requires Valid(s) && s.cur.Some? && s.cur.value.kind in {TokenKind.Bang, TokenKind.Minus}
    requires s.peek.Some? && Atom(s.peek.value, X) && Stops(Advance(s), PrefixLevel)
    ensures PrefixParse(s) == Parsed(Ok(Prefix(PrefixOperator(s.cur.value.kind), X)), Advance(s))
  {
    AtomAlone(Advance(s), PrefixLevel, X);
  }

  /** `!` and `-` take only the atom after them: `-a op b` is `(-a) op b` for every binary operator. */
  lemma {:induction false} PrefixBindsTighter(o: Lexeme, x: Lexeme, op: Lexeme, y: Lexeme, X: Expression, Y: Expression)
    requires o.kind in {TokenKind.Bang, TokenKind.Minus} && Atom(x, X) && Atom(y, Y) && IsBinaryOperator(op.kind)
    ensures ParseExpression(Start([o, x, op, y]), Lowest)
            == Parsed(Ok(Infix(Prefix(PrefixOperator(o.kind), X), BinaryOperator(op.kind), Y)), PState(Some(y), None, []))
  {
    var s0 := PState(Some(o), Some(x), [op, y]);
    var s1 := PState(Some(x), Some(op), [y]);
    var s3 := PState(Some(y), None, []);
    assert Start([o, x, op, y]) == s0;
    assert Advance(s0) == s1;
    assert Advance(Advance(s1)) == s3;
    var px := Prefix(PrefixOperator(o.kind), X);
    NegatedAtom(s0, X);
    ExpressionStep(s0, Lowest, px, s1);
    var q := BinaryOperator(op.kind);
    AtomAlone(s3, PrecedenceOf(q), Y);
    BinaryStep(s1, px, Y, s3);
    LoopGoesOn(s1, Lowest, px, Infix(px, q, Y), s3);
    LoopStops(s3, Lowest, Infix(px, q, Y));
  }

  /** `-15` is the negation of the literal 15. */
  lemma {:induction false} NegativeFifteen(ts: seq<Lexeme>)
    requires ts == [Lexeme(TokenKind.Minus, "-"), Lexeme(Int, "15")]
    ensures ParseProgram(ts) == Program([ExpressionStatement(Prefix(Operator.Minus, IntegerLiteral(15)))], [])
  {
    assert DecimalValue("15") == 15 by { assert "15"[..1] == "1"; }
    var s0 := PState(Some(ts[0]), Some(ts[1]), []);
    var s1 := PState(Some(ts[1]), None, []);
    assert Start(ts) == s0;
    var e := Prefix(Operator.Minus, IntegerLiteral(15));
    NegatedAtom(s0, IntegerLiteral(15));
    ExpressionStep(s0, Lowest, e, s1);
    LoopStops(s1, Lowest, e);
    ExpressionProgram(ts, e, ts[1]);
  }

  /** `5 + 2 * 10`: the product binds tighter than the sum. */
  lemma {:induction false} SumOfProduct(ts: seq<Lexeme>)
    requires ts == [Lexeme(Int, "5"), Lexeme(TokenKind.Plus, "+"), Lexeme(Int, "2"), Lexeme(TokenKind.Asterisk, "*"), Lexeme(Int, "10")]
    ensures ParseProgram(ts)
            == Program([ExpressionStatement(Infix(IntegerLiteral(5), Operator.Plus, Infix(IntegerLiteral(2), Operator.Asterisk, IntegerLiteral(10))))], [])
  {
    assert DecimalValue("10") == 10 by { assert "10"[..1] == "1"; }
    TwoOperators(ts[0], ts[1], ts[2], ts[3], ts[4], IntegerLiteral(5), IntegerLiteral(2), IntegerLiteral(10));
    ExpressionProgram(ts, Infix(IntegerLiteral(5), Operator.Plus, Infix(IntegerLiteral(2), Operator.Asterisk, IntegerLiteral(10))), ts[4]);
  }
}
