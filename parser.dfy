/**
 * The Pratt parser of `src/parser.rs`, over the stream of (kind, text) tokens it reads.
 *
 * `PState` is the parser's state: the current token, the peek token and the tokens the
 * lexer has not produced yet. Every parsing routine is a function from a state to a result
 * and the state it leaves behind, with the routine's own error on failure (the state on
 * failure matters: `parse_program` carries on from it). The class `Parser` further down is
 * the parser object itself, and each of its methods is proved to do what its function says.
 */
module Parsing {
  import opened Wrappers
  import opened Chars
  import opened Tokens
  import opened Ast

  // ---------------------------------------------------------------------------
  // Binding power

  /** The binding-power ladder, lowest first. */
  datatype OperatorPrecedence = Lowest | Equals | LessGreater | Sum | Product | PrefixLevel | CallLevel

  /** The discriminant of each rung; the derived ordering compares these. */
  function Level(p: OperatorPrecedence): (n: nat)
    ensures n <= 6
  {
    match p
    case Lowest => 0
    case Equals => 1
    case LessGreater => 2
    case Sum => 3
    case Product => 4
    case PrefixLevel => 5
    case CallLevel => 6
  }

  /** The binding power of an operator (`From<&Operator>`); `!` falls into the catch-all. */
  function PrecedenceOf(op: Operator): OperatorPrecedence
  {
    match op
    case Minus => Sum
    case Plus => Sum
    case Asterisk => Product
    case Slash => Product
    case Eq => Equals
    case NotEq => Equals
    case Lt => LessGreater
    case Gt => LessGreater
    case Lparen => CallLevel
    case Bang => Lowest
  }

  /** The operator a token kind stands for, if any (the conversion `parse_expression` tries on the peek token). */
  function TokenOperator(k: TokenKind): Option<Operator>
  {
    match k
    case Plus => Some(Operator.Plus)
    case Minus => Some(Operator.Minus)
    case Bang => Some(Operator.Bang)
    case Asterisk => Some(Operator.Asterisk)
    case Slash => Some(Operator.Slash)
    case Lt => Some(Operator.Lt)
    case Gt => Some(Operator.Gt)
    case Eq => Some(Operator.Eq)
    case NotEq => Some(Operator.NotEq)
    case Lparen => Some(Operator.Lparen)
    case _ => None
  }

  /** The operator of a prefix expression: `!` for `!`, `-` for `-`. */
  function PrefixOperator(k: TokenKind): Operator
  {
    if k == TokenKind.Bang then Operator.Bang else Operator.Minus
  }

  /** The kinds with an infix rule of their own: the eight binary operators and the call parenthesis. */
  predicate HasInfixRule(k: TokenKind)
  {
    IsBinaryOperator(k) || k == TokenKind.Lparen
  }

  predicate IsBinaryOperator(k: TokenKind)
  {
    k in {TokenKind.Plus, TokenKind.Minus, TokenKind.Asterisk, TokenKind.Slash,
          TokenKind.Lt, TokenKind.Gt, TokenKind.Eq, TokenKind.NotEq}
  }

  /** The text after the one optional sign, `+` or `-`, that `str::parse` accepts before the digits. */
  function Unsigned(text: string): (u: string)
    ensures |u| <= |text|
  {
    if |text| > 0 && (text[0] == '+' || text[0] == '-') then text[1..] else text
  }

  /**
   * The text of an integer token as an `i64`, as `str::parse` reads it: an optional sign,
   * then a non-empty numeral whose signed value fits.
   */
  function ParseInteger(text: string): (r: Option<i64>)
    ensures |text| > 0 && AllDigits(text) ==> (r.Some? <==> DecimalValue(text) <= I64_MAX)
    ensures |text| > 0 && AllDigits(text) && r.Some? ==> r.value as int == DecimalValue(text)
    ensures r.Some? ==> |Unsigned(text)| > 0 && AllDigits(Unsigned(text))
    ensures r.Some? && text[0] == '-' ==> -(r.value as int) == DecimalValue(Unsigned(text))
    ensures r.Some? && text[0] != '-' ==> r.value as int == DecimalValue(Unsigned(text))
  {
    var u := Unsigned(text);
    if |u| == 0 || !AllDigits(u) then None
    else
      var m: int := DecimalValue(u);
      var v := if text[0] == '-' then -m else m;
      if InI64(v) then Some(v as i64) else None
  }

  // ---------------------------------------------------------------------------
  // The parser state

  /** The current token, the peek token and what the lexer has still to produce. */
  datatype PState = PState(cur: Option<Lexeme>, peek: Option<Lexeme>, rest: seq<Lexeme>)

  /** Tokens are shifted in order: no peek token without a current one, no more input without a peek token. */
  predicate Valid(s: PState)
  {
    (s.cur.None? ==> s.peek.None?) && (s.peek.None? ==> s.rest == [])
  }

  /** The tokens not yet consumed, counting the current and the peek token. */
  function Remaining(s: PState): nat
  {
    |s.rest| + (if s.peek.Some? then 1 else 0) + (if s.cur.Some? then 1 else 0)
  }

  /** `next_token`: the peek token becomes current and the lexer is asked for the next one. */
  function Advance(s: PState): (r: PState)
    ensures Valid(s) ==> Valid(r)
    ensures Remaining(r) == Remaining(s) - (if s.cur.Some? then 1 else 0)
    ensures r.cur == s.peek
  {
    if s.rest == [] then PState(s.peek, None, [])
    else PState(s.peek, Some(s.rest[0]), s.rest[1..])
  }

  /** `Parser::new`: two shifts fill the current and the peek token. */
  function Start(tokens: seq<Lexeme>): (s: PState)
    ensures Valid(s) && Remaining(s) == |tokens|
  {
    Advance(Advance(PState(None, None, tokens)))
  }

  function CurKind(s: PState): Option<TokenKind>
  {
    if s.cur.Some? then Some(s.cur.value.kind) else None
  }

  function PeekKind(s: PState): Option<TokenKind>
  {
    if s.peek.Some? then Some(s.peek.value.kind) else None
  }

  /** The optional `;` after a statement: consumed when it is the peek token. */
  function SkipSemicolon(s: PState): (r: PState)
    ensures Valid(s) ==> Valid(r)
    ensures Remaining(r) <= Remaining(s)
  {
    if PeekKind(s) == Some(Semicolon) then Advance(s) else s
  }

  /** What a parsing routine returns, and the state it leaves the parser in. */
  datatype Parsed<T> = Parsed(result: Result<T, ParseError>, state: PState)

  // ---------------------------------------------------------------------------
  // Expressions

  /** `prefix_parse`: the rule of the current token, which starts an expression. */
  function PrefixParse(s: PState): (p: Parsed<Expression>)
    requires Valid(s) && s.cur.Some?
    ensures Valid(p.state) && Remaining(p.state) <= Remaining(s)
    decreases Remaining(s), 2
  {
    var t := s.cur.value;
    match t.kind
    case Ident => Parsed(Ok(Callable(Identifier(t.val))), s)
    case Bang | Minus =>
      var r := ParseExpression(Advance(s), PrefixLevel);
      if r.result.Err? then r else Parsed(Ok(Prefix(PrefixOperator(t.kind), r.result.value)), r.state)
    case Int =>
      var n := ParseInteger(t.val);
      if n.Some? then Parsed(Ok(IntegerLiteral(n.value)), s) else Parsed(Err(BadIntegerLiteral(t.val)), s)
    case String => Parsed(Ok(StringLiteral(t.val)), s)
    case True => Parsed(Ok(BooleanLiteral(true)), s)
    case False => Parsed(Ok(BooleanLiteral(false)), s)
    case Lparen =>
      var r := ParseExpression(Advance(s), Lowest);
      if PeekKind(r.state) == Some(Rparen) then Parsed(r.result, Advance(r.state))
      else Parsed(Err(RightParenMissing), r.state)
    case Function =>
      if PeekKind(s) != Some(TokenKind.Lparen) then Parsed(Err(LeftParenMissing), s)
      else
        var ps := ParseFuncParams(Advance(s));
        if ps.result.Err? then Parsed(Err(ps.result.error), ps.state)
        else if PeekKind(ps.state) != Some(Lbrace) then Parsed(Err(LeftBraceMissing), ps.state)
        else
          var b := ParseBlockStatement(Advance(ps.state));
          if b.result.Err? then Parsed(Err(b.result.error), b.state)
          else Parsed(Ok(Callable(FunctionLiteral(ps.result.value, b.result.value))), b.state)
    case If =>
      if PeekKind(s) != Some(TokenKind.Lparen) then Parsed(Err(LeftParenMissing), s)
      else
        var c := ParseExpression(Advance(s), Lowest);
        if c.result.Err? then c
        else if PeekKind(c.state) != Some(Lbrace) then Parsed(Err(LeftBraceMissing), c.state)
        else
          var k := ParseBlockStatement(Advance(c.state));
          if k.result.Err? then Parsed(Err(k.result.error), k.state)
          else if PeekKind(k.state) == Some(Else) then
            var e := Advance(k.state);
            if PeekKind(e) != Some(Lbrace) then Parsed(Err(LeftBraceMissing), e)
            else
              var a := ParseBlockStatement(Advance(e));
              if a.result.Err? then Parsed(Err(a.result.error), a.state)
              else Parsed(Ok(Expression.If(c.result.value, k.result.value, Some(a.result.value))), a.state)
          else Parsed(Ok(Expression.If(c.result.value, k.result.value, None)), k.state)
    case _ => Parsed(Err(NoPrefixRule(t)), s)
  }

  /** `infix_parse`: the rule of the peek token, applied to the expression parsed so far. */
  function InfixParse(s: PState, left: Expression): (p: Parsed<Expression>)
    requires Valid(s) && s.peek.Some?
    ensures Valid(p.state) && Remaining(p.state) <= Remaining(s)
    ensures p.result.Ok? && HasInfixRule(s.peek.value.kind) ==> Remaining(p.state) < Remaining(s)
    decreases Remaining(s), 1
  {
    var k := s.peek.value.kind;
    if IsBinaryOperator(k) then
      var op := TokenOperator(k).value;
      var r := ParseExpression(Advance(Advance(s)), PrecedenceOf(op));
      if r.result.Err? then r else Parsed(Ok(Infix(left, op, r.result.value)), r.state)
    else if k == TokenKind.Lparen then
      if left.Callable? then
        var a := ParseCallArguments(Advance(s));
        if a.result.Err? then Parsed(Err(a.result.error), a.state)
        else Parsed(Ok(Call(left.callable, a.result.value)), a.state)
      else Parsed(Err(NotCallable), s)
    else Parsed(Ok(left), s)
  }

  /** `parse_expression`: a prefix rule, then infix rules for as long as the peek operator binds tighter than `prec`. */
  function ParseExpression(s: PState, prec: OperatorPrecedence): (p: Parsed<Expression>)
    requires Valid(s)
    ensures Valid(p.state) && Remaining(p.state) <= Remaining(s)
    decreases Remaining(s), 3
  {
    if s.cur.None? then Parsed(Err(NoExpression), s)
    else
      var l := PrefixParse(s);
      if l.result.Err? then l else InfixLoop(l.state, prec, l.result.value)
  }

  /** The loop of `parse_expression`, from the state after `left`. */
  function InfixLoop(s: PState, prec: OperatorPrecedence, left: Expression): (p: Parsed<Expression>)
    requires Valid(s)
    ensures Valid(p.state) && Remaining(p.state) <= Remaining(s)
    decreases Remaining(s), 2
  {
    if CurKind(s) == Some(Semicolon) || s.peek.None? then Parsed(Ok(left), s)
    else
      var op := TokenOperator(s.peek.value.kind);
      if op.None? || Level(prec) >= Level(PrecedenceOf(op.value)) then Parsed(Ok(left), s)
      else
        var r := InfixParse(s, left);
        if r.result.Err? then r else InfixLoop(r.state, prec, r.result.value)
  }

  /**
   * `parse_call_arguments`, with the cursor on `(`: comma-separated expressions up to `)`.
   * A non-empty list leaves the cursor on its `)`; the empty list shifts once more, past it.
   */
  function ParseCallArguments(s: PState): (p: Parsed<seq<Expression>>)
    requires Valid(s)
    ensures Valid(p.state) && Remaining(p.state) <= Remaining(s)
    decreases Remaining(s), 4
  {
    var s1 := Advance(s);
    if CurKind(s1) == Some(Rparen) then Parsed(Ok([]), Advance(s1))
    else
      var e := ParseExpression(s1, Lowest);
      if e.result.Err? then Parsed(Err(e.result.error), e.state)
      else ArgumentsLoop(e.state, [e.result.value])
  }

  /** The loop of `parse_call_arguments`: each `,` is followed by one more argument. */
  function ArgumentsLoop(s: PState, args: seq<Expression>): (p: Parsed<seq<Expression>>)
    requires Valid(s)
    ensures Valid(p.state) && Remaining(p.state) <= Remaining(s)
    decreases Remaining(s), 0
  {
    if PeekKind(s) == Some(Comma) then
      var e := ParseExpression(Advance(Advance(s)), Lowest);
      if e.result.Err? then Parsed(Err(e.result.error), e.state)
      else ArgumentsLoop(e.state, args + [e.result.value])
    else if PeekKind(s) == Some(Rparen) then Parsed(Ok(args), Advance(s))
    else Parsed(Err(CloseParenMissing), s)
  }

  // ---------------------------------------------------------------------------
  // Parameters, blocks and statements

  /**
   * `parse_func_params`, with the cursor on `(`: comma-separated identifiers up to `)`.
   * A non-empty list leaves the cursor on its `)`; the empty list shifts once more, past it.
   */
  function ParseFuncParams(s: PState): (p: Parsed<seq<string>>)
    requires Valid(s)
    ensures Valid(p.state) && Remaining(p.state) <= Remaining(s)
  {
    var s1 := Advance(s);
    if CurKind(s1) == Some(Rparen) then Parsed(Ok([]), Advance(s1))
    else if CurKind(s1) != Some(Ident) then Parsed(Err(ParameterNotIdentifier), s1)
    else ParamsLoop(s1, [s1.cur.value.val])
  }

  /** The loop of `parse_func_params`: each `,` is followed by one more identifier. */
  function ParamsLoop(s: PState, names: seq<string>): (p: Parsed<seq<string>>)
    requires Valid(s)
    ensures Valid(p.state) && Remaining(p.state) <= Remaining(s)
    decreases Remaining(s)
  {
    if PeekKind(s) == Some(Comma) then
      var s2 := Advance(Advance(s));
      if CurKind(s2) == Some(Ident) then ParamsLoop(s2, names + [s2.cur.value.val])
      else Parsed(Err(ParameterNotIdentifier), s2)
    else if PeekKind(s) == Some(Rparen) then Parsed(Ok(names), Advance(s))
    else Parsed(Err(CloseParenMissing), s)
  }

  /** `parse_block_statement`, with the cursor on `{`: statements up to `}` or the end of the input. */
  function ParseBlockStatement(s: PState): (p: Parsed<BlockStatement>)
    requires Valid(s)
    ensures Valid(p.state) && Remaining(p.state) <= Remaining(s)
    decreases Remaining(s), 7
  {
    var b := BlockLoop(Advance(s), []);
    if b.result.Err? then Parsed(Err(b.result.error), b.state) else Parsed(Ok(BlockStatement(b.result.value)), b.state)
  }

  /** The loop of `parse_block_statement`. */
  function BlockLoop(s: PState, stmts: seq<Statement>): (p: Parsed<seq<Statement>>)
    requires Valid(s)
    ensures Valid(p.state) && Remaining(p.state) <= Remaining(s)
    decreases Remaining(s), 6
  {
    if s.cur.None? || s.cur.value.kind == Rbrace then Parsed(Ok(stmts), s)
    else
      var st := ParseStatement(s);
      if st.result.Err? then Parsed(Err(st.result.error), st.state)
      else BlockLoop(Advance(st.state), stmts + [st.result.value])
  }

  /** `parse_statement`: dispatch on the current token. */
  function ParseStatement(s: PState): (p: Parsed<Statement>)
    requires Valid(s)
    ensures Valid(p.state) && Remaining(p.state) <= Remaining(s)
    decreases Remaining(s), 5
  {
    match CurKind(s)
    case Some(Let) => ParseLetStatement(s)
    case Some(Return) => ParseReturnStatement(s)
    case _ => ParseExpressionStatement(s)
  }

  /** `parse_let_statement`: `let`, an identifier, `=`, an expression and an optional `;`. */
  function ParseLetStatement(s: PState): (p: Parsed<Statement>)
    requires Valid(s)
    ensures Valid(p.state) && Remaining(p.state) <= Remaining(s)
    decreases Remaining(s), 4
  {
    if PeekKind(s) != Some(Ident) then Parsed(Err(LetNameMissing(s.peek)), s)
    else
      var s1 := Advance(s);
      if PeekKind(s1) != Some(Assign) then Parsed(Err(LetNameMissing(s1.peek)), s1)
      else
        var v := ParseExpression(Advance(Advance(s1)), Lowest);
        if v.result.Err? then Parsed(Err(v.result.error), v.state)
        else Parsed(Ok(LetStatement(s1.cur.value.val, v.result.value)), SkipSemicolon(v.state))
  }

  /** `parse_return_statement`: `return`, an expression and an optional `;`. */
  function ParseReturnStatement(s: PState): (p: Parsed<Statement>)
    requires Valid(s)
    ensures Valid(p.state) && Remaining(p.state) <= Remaining(s)
    decreases Remaining(s), 4
  {
    var v := ParseExpression(Advance(s), Lowest);
    if v.result.Err? then Parsed(Err(v.result.error), v.state)
    else Parsed(Ok(ReturnStatement(v.result.value)), SkipSemicolon(v.state))
  }

  /** `parse_expression_statement`: an expression and an optional `;`. */
  function ParseExpressionStatement(s: PState): (p: Parsed<Statement>)
    requires Valid(s)
    ensures Valid(p.state) && Remaining(p.state) <= Remaining(s)
    decreases Remaining(s), 4
  {
    var v := ParseExpression(s, Lowest);
    if v.result.Err? then Parsed(Err(v.result.error), v.state)
    else Parsed(Ok(ExpressionStatement(v.result.value)), SkipSemicolon(v.state))
  }

  // ---------------------------------------------------------------------------
  // Programs

  /** The outcome of every statement attempt of `parse_program` from `s`, in order. */
  function Attempts(s: PState): seq<Result<Statement, ParseError>>
    requires Valid(s)
    decreases Remaining(s)
  {
    if s.cur.None? then []
    else
      var st := ParseStatement(s);
      [st.result] + Attempts(Advance(st.state))
  }

  /** The statements among a list of outcomes, in order. */
  function Oks(rs: seq<Result<Statement, ParseError>>): seq<Statement>
  {
    if rs == [] then [] else (if rs[0].Ok? then [rs[0].value] else []) + Oks(rs[1..])
  }

  /** The errors among a list of outcomes, in order. */
  function Errs(rs: seq<Result<Statement, ParseError>>): seq<ParseError>
  {
    if rs == [] then [] else (if rs[0].Err? then [rs[0].error] else []) + Errs(rs[1..])
  }

  /** The program `parse_program` builds from state `s`: the statements that parsed and the errors of the rest. */
  function ProgramFrom(s: PState): Program
    requires Valid(s)
  {
    var rs := Attempts(s);
    Program(Oks(rs), Errs(rs))
  }

  /** One statement attempt of `parse_program`, then the attempts from the state it leaves. */
  lemma {:induction false} AttemptsUnfold(s: PState)
    requires Valid(s) && s.cur.Some?
    ensures Attempts(s) == [ParseStatement(s).result] + Attempts(Advance(ParseStatement(s).state))
  {
  }

  /** Adding one outcome at the end adds its statement, if it is one, at the end. */
  lemma {:induction false} OksSnoc(rs: seq<Result<Statement, ParseError>>, r: Result<Statement, ParseError>)
    ensures Oks(rs + [r]) == Oks(rs) + (if r.Ok? then [r.value] else [])
  {
    if rs == [] {
      assert [] + [r] == [r];
      assert [r][1..] == [];
    } else {
      OksSnoc(rs[1..], r);
      assert (rs + [r])[0] == rs[0];
      assert (rs + [r])[1..] == rs[1..] + [r];
    }
  }

  /** Adding one outcome at the end adds its error, if it is one, at the end. */
  lemma {:induction false} ErrsSnoc(rs: seq<Result<Statement, ParseError>>, r: Result<Statement, ParseError>)
    ensures Errs(rs + [r]) == Errs(rs) + (if r.Err? then [r.error] else [])
  {
    if rs == [] {
      assert [] + [r] == [r];
      assert [r][1..] == [];
    } else {
      ErrsSnoc(rs[1..], r);
      assert (rs + [r])[0] == rs[0];
      assert (rs + [r])[1..] == rs[1..] + [r];
    }
  }

  /** `Parser::new` followed by `parse_program`. */
  function ParseProgram(tokens: seq<Lexeme>): Program
  {
    ProgramFrom(Start(tokens))
  }
}

/**
 * The parser object of `src/parser.rs`: the current and the peek token are fields that
 * `NextToken` shifts, and `rest` is what the lexer has still to hand out. Each method does
 * what the function of the same name in `Parsing` says, result and final state alike.
 */
module Parsers {
  import opened Wrappers
  import opened Tokens
  import opened Ast
  import P = Parsing

  class Parser {
    var cur: Option<Lexeme>
    var peek: Option<Lexeme>
    /** The tokens the lexer has not produced yet. */
    var rest: seq<Lexeme>

    function State(): P.PState
      reads this
    {
      P.PState(cur, peek, rest)
    }

    /** `Parser::new`: both token slots are filled by two shifts. */
    constructor (tokens: seq<Lexeme>)
      ensures State() == P.Start(tokens)
    {
      cur, peek, rest := None, None, tokens;
      new;
      NextToken();
      NextToken();
    }

    /** `next_token`. */
    method NextToken()
      modifies this
      ensures State() == P.Advance(old(State()))
    {
      cur := peek;
      if rest == [] {
        peek := None;
      } else {
        peek := Some(rest[0]);
        rest := rest[1..];
      }
    }

    /** `prefix_parse` of the current token. */
    method PrefixParse() returns (r: Result<Expression, ParseError>)
      requires P.Valid(State()) && cur.Some?
      modifies this
      ensures P.Parsed(r, State()) == P.PrefixParse(old(State()))
      decreases P.Remaining(State()), 2
    {
      var t := cur.value;
      match t.kind {
        case Ident =>
          r := Ok(Callable(Identifier(t.val)));
        case Bang | Minus =>
          NextToken();
          var right := ParseExpression(P.PrefixLevel);
          if right.Err? {
            return right;
          }
          r := Ok(Prefix(P.PrefixOperator(t.kind), right.value));
        case Int =>
          var n := P.ParseInteger(t.val);
          if n.Some? {
            r := Ok(IntegerLiteral(n.value));
          } else {
            r := Err(BadIntegerLiteral(t.val));
          }
        case String =>
          r := Ok(StringLiteral(t.val));
        case True =>
          r := Ok(BooleanLiteral(true));
        case False =>
          r := Ok(BooleanLiteral(false));
        case Lparen =>
          NextToken();
          var e := ParseExpression(P.Lowest);
          if P.PeekKind(State()) == Some(Rparen) {
            NextToken();
            r := e;
          } else {
            r := Err(RightParenMissing);
          }
        case Function =>
          if P.PeekKind(State()) == Some(TokenKind.Lparen) {
            NextToken();
          } else {
            return Err(LeftParenMissing);
          }
          var parameters := ParseFuncParams();
          if parameters.Err? {
            return Err(parameters.error);
          }
          if P.PeekKind(State()) == Some(Lbrace) {
            NextToken();
          } else {
            return Err(LeftBraceMissing);
          }
          var body := ParseBlockStatement();
          if body.Err? {
            return Err(body.error);
          }
          r := Ok(Callable(FunctionLiteral(parameters.value, body.value)));
        case If =>
          if P.PeekKind(State()) == Some(TokenKind.Lparen) {
            NextToken();
          } else {
            return Err(LeftParenMissing);
          }
          var condition := ParseExpression(P.Lowest);
          if condition.Err? {
            return condition;
          }
          if P.PeekKind(State()) == Some(Lbrace) {
            NextToken();
          } else {
            return Err(LeftBraceMissing);
          }
          var consequence := ParseBlockStatement();
          if consequence.Err? {
            return Err(consequence.error);
          }
          if P.PeekKind(State()) == Some(Else) {
            NextToken();
            if P.PeekKind(State()) == Some(Lbrace) {
              NextToken();
            } else {
              return Err(LeftBraceMissing);
            }
            var alternative := ParseBlockStatement();
            if alternative.Err? {
              return Err(alternative.error);
            }
            r := Ok(Expression.If(condition.value, consequence.value, Some(alternative.value)));
          } else {
            r := Ok(Expression.If(condition.value, consequence.value, None));
          }
        case _ =>
          r := Err(NoPrefixRule(t));
      }
    }

    /** `infix_parse` of the peek token, applied to `left`. */
    method InfixParse(left: Expression) returns (r: Result<Expression, ParseError>)
      requires P.Valid(State()) && peek.Some?
      modifies this
      ensures P.Parsed(r, State()) == P.InfixParse(old(State()), left)
      decreases P.Remaining(State()), 1
    {
      var k := peek.value.kind;
      if P.IsBinaryOperator(k) {
        var op := P.TokenOperator(k).value;
        var precedence := P.PrecedenceOf(op);
        NextToken();
        NextToken();
        var right := ParseExpression(precedence);
        if right.Err? {
          return right;
        }
        return Ok(Infix(left, op, right.value));
      } else if k == TokenKind.Lparen {
        if left.Callable? {
          NextToken();
          var arguments := ParseCallArguments();
          if arguments.Err? {
            return Err(arguments.error);
          }
          return Ok(Call(left.callable, arguments.value));
        }
        return Err(NotCallable);
      }
      return Ok(left);
    }

    /** `parse_expression`. */
    method ParseExpression(precedence: P.OperatorPrecedence) returns (r: Result<Expression, ParseError>)
      requires P.Valid(State())
      modifies this
      ensures P.Parsed(r, State()) == P.ParseExpression(old(State()), precedence)
      decreases P.Remaining(State()), 3
    {
      if cur.None? {
        return Err(NoExpression);
      }
      var first := PrefixParse();
      if first.Err? {
        return first;
      }
      var left := first.value;
      while true
        invariant P.Valid(State()) && P.Remaining(State()) <= P.Remaining(old(State()))
        invariant P.InfixLoop(State(), precedence, left) == P.ParseExpression(old(State()), precedence)
        decreases P.Remaining(State())
      {
        if P.CurKind(State()) == Some(Semicolon) || peek.None? {
          break;
        }
        var op := P.TokenOperator(peek.value.kind);
        if op.None? || P.Level(precedence) >= P.Level(P.PrecedenceOf(op.value)) {
          break;
        }
        var next := InfixParse(left);
        if next.Err? {
          return next;
        }
        left := next.value;
      }
      return Ok(left);
    }

    /** `parse_call_arguments`, with the current token on `(`; an empty list also shifts past its `)`. */
    method ParseCallArguments() returns (r: Result<seq<Expression>, ParseError>)
      requires P.Valid(State())
      modifies this
      ensures P.Parsed(r, State()) == P.ParseCallArguments(old(State()))
      decreases P.Remaining(State()), 4
    {
      var expressions := [];
      NextToken();
      if P.CurKind(State()) == Some(Rparen) {
        NextToken();
        return Ok(expressions);
      }
      var first := ParseExpression(P.Lowest);
      if first.Err? {
        return Err(first.error);
      }
      expressions := [first.value];
      while peek.Some?
        invariant P.Valid(State()) && P.Remaining(State()) <= P.Remaining(old(State()))
        invariant P.ArgumentsLoop(State(), expressions) == P.ParseCallArguments(old(State()))
        decreases P.Remaining(State())
      {
        if P.PeekKind(State()) == Some(Comma) {
          NextToken();
          NextToken();
          var e := ParseExpression(P.Lowest);
          if e.Err? {
            return Err(e.error);
          }
          expressions := expressions + [e.value];
        } else {
          break;
        }
      }
      if P.PeekKind(State()) == Some(Rparen) {
        NextToken();
        return Ok(expressions);
      }
      return Err(CloseParenMissing);
    }

    /** `parse_func_params`, with the current token on `(`; an empty list also shifts past its `)`. */
    method ParseFuncParams() returns (r: Result<seq<string>, ParseError>)
      requires P.Valid(State())
      modifies this
      ensures P.Parsed(r, State()) == P.ParseFuncParams(old(State()))
    {
      var identifiers := [];
      NextToken();
      if P.CurKind(State()) == Some(Rparen) {
        NextToken();
        return Ok(identifiers);
      }
      if P.CurKind(State()) == Some(Ident) {
        identifiers := [cur.value.val];
      } else {
        return Err(ParameterNotIdentifier);
      }
      while peek.Some?
        invariant P.Valid(State())
        invariant P.ParamsLoop(State(), identifiers) == P.ParseFuncParams(old(State()))
        decreases P.Remaining(State())
      {
        if P.PeekKind(State()) == Some(Comma) {
          NextToken();
          NextToken();
          if P.CurKind(State()) == Some(Ident) {
            identifiers := identifiers + [cur.value.val];
          } else {
            return Err(ParameterNotIdentifier);
          }
        } else {
          break;
        }
      }
      if P.PeekKind(State()) == Some(Rparen) {
        NextToken();
        return Ok(identifiers);
      }
      return Err(CloseParenMissing);
    }

    /** `parse_block_statement`, with the current token on `{`. */
    method ParseBlockStatement() returns (r: Result<BlockStatement, ParseError>)
      requires P.Valid(State())
      modifies this
      ensures P.Parsed(r, State()) == P.ParseBlockStatement(old(State()))
      decreases P.Remaining(State()), 7
    {
      var statements := [];
      NextToken();
      while cur.Some?
        invariant P.Valid(State()) && P.Remaining(State()) <= P.Remaining(old(State()))
        invariant P.BlockLoop(State(), statements) == P.BlockLoop(P.Advance(old(State())), [])
        decreases P.Remaining(State())
      {
        if P.CurKind(State()) == Some(Rbrace) {
          break;
        }
        var statement := ParseStatement();
        if statement.Err? {
          return Err(statement.error);
        }
        statements := statements + [statement.value];
        NextToken();
      }
      return Ok(BlockStatement(statements));
    }

    /** `parse_statement`. */
    method ParseStatement() returns (r: Result<Statement, ParseError>)
      requires P.Valid(State())
      modifies this
      ensures P.Parsed(r, State()) == P.ParseStatement(old(State()))
      decreases P.Remaining(State()), 5
    {
      match P.CurKind(State()) {
        case Some(Let) =>
          r := ParseLetStatement();
        case Some(Return) =>
          r := ParseReturnStatement();
        case _ =>
          r := ParseExpressionStatement();
      }
    }

    /** The optional `;` that ends a statement. */
    method SkipSemicolon()
      modifies this
      ensures State() == P.SkipSemicolon(old(State()))
    {
      if P.PeekKind(State()) == Some(Semicolon) {
        NextToken();
      }
    }

    /** `parse_let_statement`. */
    method ParseLetStatement() returns (r: Result<Statement, ParseError>)
      requires P.Valid(State())
      modifies this
      ensures P.Parsed(r, State()) == P.ParseLetStatement(old(State()))
      decreases P.Remaining(State()), 4
    {
      if P.PeekKind(State()) == Some(Ident) {
        NextToken();
        var name := cur.value.val;
        if P.PeekKind(State()) == Some(Assign) {
          NextToken();
          NextToken();
          var value := ParseExpression(P.Lowest);
          if value.Err? {
            return Err(value.error);
          }
          SkipSemicolon();
          return Ok(LetStatement(name, value.value));
        }
      }
      return Err(LetNameMissing(peek));
    }

    /** `parse_return_statement`. */
    method ParseReturnStatement() returns (r: Result<Statement, ParseError>)
      requires P.Valid(State())
      modifies this
      ensures P.Parsed(r, State()) == P.ParseReturnStatement(old(State()))
      decreases P.Remaining(State()), 4
    {
      NextToken();
      var value := ParseExpression(P.Lowest);
      if value.Err? {
        return Err(value.error);
      }
      SkipSemicolon();
      return Ok(ReturnStatement(value.value));
    }

    /** `parse_expression_statement`. */
    method ParseExpressionStatement() returns (r: Result<Statement, ParseError>)
      requires P.Valid(State())
      modifies this
      ensures P.Parsed(r, State()) == P.ParseExpressionStatement(old(State()))
      decreases P.Remaining(State()), 4
    {
      var expression := ParseExpression(P.Lowest);
      if expression.Err? {
        return Err(expression.error);
      }
      SkipSemicolon();
      return Ok(ExpressionStatement(expression.value));
    }

    /** `parse_program`: every statement attempt adds one statement or one error, and the parser moves on. */
    method ParseProgram() returns (program: Program)
      requires P.Valid(State())
      modifies this
      ensures program == P.ProgramFrom(old(State()))
      ensures cur.None?
    {
      var statements := [];
      var errors := [];
      ghost var done := [];
      while cur.Some?
        invariant P.Valid(State())
        invariant P.Attempts(old(State())) == done + P.Attempts(State())
        invariant statements == P.Oks(done) && errors == P.Errs(done)
        decreases P.Remaining(State())
      {
        ghost var before := State();
        var statement := ParseStatement();
        if statement.Ok? {
          statements := statements + [statement.value];
        } else {
          errors := errors + [statement.error];
        }
        NextToken();
        P.AttemptsUnfold(before);
        assert P.Attempts(before) == [statement] + P.Attempts(State());
        assert done + ([statement] + P.Attempts(State())) == (done + [statement]) + P.Attempts(State());
        P.OksSnoc(done, statement);
        P.ErrsSnoc(done, statement);
        done := done + [statement];
      }
      assert done + [] == done;
      program := Program(statements, errors);
    }
  }
}
