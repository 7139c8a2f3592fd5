/**
 * The two token shapes of the interpreter. `Token` is the enum the lexer produces
 * (`src/token.rs`); `Lexeme` is the kind/text pair the parser consumes
 * (`token.kind`, `token.val` in `src/parser.rs`). Neither carries behaviour.
 */
module Tokens {
  import opened Chars

  datatype Token =
    // keywords
    | LET | FUNCTION | TRUE | FALSE | IF | ELSE | RETURN
    | ILLEGAL
    | EOF
    | IDENT(name: string)
    | INT(value: i32)
    | COMMA | SEMICOLON | LPAREN | RPAREN | LBRACE | RBRACE
    // operators
    | ASSIGN | PLUS | MINUS | BANG | ASTERISK | SLASH
    | LT | GT | EQ | NOT_EQ

  /** The kinds the parser dispatches on. */
  datatype TokenKind =
    | Let | Function | True | False | If | Else | Return
    | Illegal
    | Ident | Int | String
    | Comma | Semicolon | Lparen | Rparen | Lbrace | Rbrace
    | Assign | Plus | Minus | Bang | Asterisk | Slash
    | Lt | Gt | Eq | NotEq

  /** A token as the parser sees it: its kind and the exact source text it was scanned from. */
  datatype Lexeme = Lexeme(kind: TokenKind, val: string)
}
