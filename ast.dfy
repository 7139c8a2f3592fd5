/**
 * The syntax tree the parser builds and the evaluator walks, in the shape `src/parser.rs`
 * and `src/evaluator.rs` use it: callables (identifiers and function literals) are their own
 * kind of expression so that only they can be called, and a program carries the statements
 * that parsed together with the errors of the attempts that did not.
 */
module Ast {
  import opened Wrappers
  import opened Chars
  import opened Tokens

  datatype Operator = Minus | Plus | Bang | Asterisk | Slash | Eq | NotEq | Lt | Gt | Lparen

  datatype Expression =
    | Callable(callable: CallableExpression)
    | IntegerLiteral(value: i64)
    | StringLiteral(text: string)
    | BooleanLiteral(truth: bool)
    | Prefix(operator: Operator, right: Expression)
    | Infix(left: Expression, operator: Operator, right: Expression)
    | If(condition: Expression, consequence: BlockStatement, alternative: Option<BlockStatement>)
    | Call(func: CallableExpression, arguments: seq<Expression>)

  /** The expressions a call may be applied to. */
  datatype CallableExpression =
    | Identifier(name: string)
    | FunctionLiteral(parameters: seq<string>, body: BlockStatement)

  datatype BlockStatement = BlockStatement(statements: seq<Statement>)

  datatype Statement =
    | LetStatement(name: string, value: Expression)
    | ReturnStatement(value: Expression)
    | ExpressionStatement(expression: Expression)
    | Block(block: BlockStatement)

  /**
   * Why one statement attempt failed: one variant per `bail!` of the parser, plus an
   * integer literal whose text is not an `i64` numeral (where the source panics).
   */
  datatype ParseError =
    | RightParenMissing
    | LeftParenMissing
    | LeftBraceMissing
    | NoPrefixRule(token: Lexeme)
    | NotCallable
    | LetNameMissing(peek: Option<Lexeme>)
    | ParameterNotIdentifier
    | CloseParenMissing
    | NoExpression
    | BadIntegerLiteral(text: string)

  /** The fixed text of each error; the two that print a token with `{:?}` keep only their fixed part. */
  function Message(e: ParseError): string
  {
    match e
    case RightParenMissing => "right parentesis not found after left"
    case LeftParenMissing => "left parentesis not found after if"
    case LeftBraceMissing => "left brace parentesis not found after if"
    case NoPrefixRule(_) => "test broken exp "
    case NotCallable => "expression is not callable"
    case LetNameMissing(_) => "expected token to be ident got: "
    case ParameterNotIdentifier => "identifier not found for parameters"
    case CloseParenMissing => "lparen not found after params"
    case NoExpression => "cannot parse expression"
    case BadIntegerLiteral(_) => "invalid integer literal"
  }

  /** What `parse_program` returns: the statements that parsed, and one error per attempt that failed. */
  datatype Program = Program(statements: seq<Statement>, errors: seq<ParseError>)
}
