# Monkey interpreter core, modelled in Dafny

This project models the core of a Rust interpreter for the Monkey language and proves
properties of the model. The core has five parts.

- **Lexer** (`src/lexer.rs`). A cursor over the input that hands out one token per call.
  It skips blanks and looks ahead one character for `==` and `!=`. It reads maximal
  letter runs, which become keywords or identifiers, and maximal digit runs, which become
  integers.
- **Pratt parser** (`src/parser.rs`). A current and a peek token are shifted together.
  Per-token prefix and infix rules do the work, and the expression loop compares binding
  powers. It parses `let`, `return` and expression statements, blocks, parameter lists and
  argument lists. `parse_program` records one statement or one error per attempt.
- **Evaluator** (`src/evaluator.rs`). A tree walker over integers, booleans, null, return
  values and closures.
- **Environment** (`src/environment.rs`). A name-to-value store with an optional outer
  scope.
- **Objects** (`src/object.rs`). The runtime values and how they print.

Layout, one module per concern (file names in brackets):

- `Wrappers` (wrappers.dfy): `Option` and `Result`.
- `Chars` and `Division` (chars.dfy): ASCII character classes, decimal numerals, the
  `i32`/`i64` ranges, and division that truncates toward zero.
- `Tokens` (tokens.dfy): the `token.rs` enum, plus the (kind, text) lexemes the parser reads.
- `Ast` (ast.dfy): the syntax tree and the parse errors with their texts.
- `Lexing` (lexer.dfy): the specification functions and the class `Lexer`, whose fields
  `position`, `readPosition` and `ch` are advanced by its methods.
- `LexingProperties` (lexer.dfy): properties of the lexer.
- `Parsing` (parser.dfy): every parsing routine as a function from a parser state to a
  result and the state it leaves.
- `Parsers` (parser.dfy): the class `Parser`, whose `cur`/`peek`/`rest` fields the methods
  shift. Each method is proved to return what the function of the same name says and to
  leave the state it says.
- `ParsingProperties`, `ParsingForms`, `ParsingExamples` (parser_properties.dfy,
  parser_forms.dfy, parser_examples.dfy): properties of the parser, the shape of each
  construct, and the source's test inputs.
- `ParsingFindings` (parser_findings.dfy): what the extra shift after an empty parameter
  or argument list does, and both lists as evidently intended (see Findings).
- `Objects` (objects.dfy), `Environments` (environment.dfy): values, scopes, and the class
  `Environment` whose `set` updates its store in place.
- `Evaluating` (evaluator.dfy): `eval_exp` and friends as fuelled functions that return a
  result and the environment they leave.
- `Evaluators` (evaluator.dfy): the loops of `eval_program`, `eval_block_statments` and the
  call's binding loop, as methods over an `Environment` object, proved against those
  functions.
- `EvaluatingProperties`, `EvaluatingExamples` (evaluator_properties.dfy,
  evaluator_examples.dfy): properties of the evaluator and the source's test programs.

The files do not all describe the same version of the program.

- `parser.rs` and `evaluator.rs` use an API richer than the one `ast.rs`, `token.rs`,
  `object.rs` and `environment.rs` define. That API has tokens with a kind and a text,
  and AST variants for calls, function literals, `if` and blocks. It has objects for
  return values and functions, and environments with an outer scope.
- The model takes the AST, the objects and the environment from how `parser.rs` and
  `evaluator.rs` use them. Integer literals are therefore `i64`, not the `i32` of
  `ast.rs`.
- The model takes the lexer as `lexer.rs` writes it, producing the `token.rs` tokens.
  The parser reads (kind, text) lexemes, independent of the lexer's API.

## Model

| member | source | states |
|---|---|---|
| Chars.DigitValue | src/lexer.rs:55-63 | the value of a decimal digit is below ten |
| Chars.DigitChar | src/object.rs:13 | the digit printed for a value below ten is a digit with that value |
| Chars.NatToString | src/object.rs:13 | a natural prints as a non-empty digit string with no leading zero except for 0 itself |
| Chars.DecimalValueOfNatToString | src/object.rs:13 | reading back the printed digits of a natural gives the natural |
| Chars.IntToStringRoundTrip | src/object.rs:13 | an integer prints with `-` exactly when negative, followed by the digits of its magnitude |
| Division.NaturalDivision | src/evaluator.rs:73 | Euclidean division of naturals: quotient times divisor plus remainder, remainder below the divisor |
| Division.QuotientBounds | src/evaluator.rs:73 | the quotient of naturals is at most the dividend, equal to it for divisor 1, at most half of it for divisors of 2 or more |
| Division.QuotientTimesDivisor | src/evaluator.rs:73 | the truncated quotient times the divisor is the magnitude product carrying the dividend's sign |
| Division.TruncDivIsRounding | src/evaluator.rs:73 | `i64 /` rounds toward zero: the remainder is smaller than the divisor in magnitude and has the dividend's sign |
| Division.QuotientFits | src/evaluator.rs:73 | dividing two `i64`s stays in range exactly unless it is `i64::MIN / -1` |
| Environments.GetAfterSet | src/environment.rs:12-18 | after `set(k, v)`, `get(k)` is `v` |
| Environments.SetLeavesOthers | src/environment.rs:16-18 | `set(k, v)` leaves `get(j)` unchanged for every other `j` |
| Environments.LastWriteWins | src/environment.rs:16-18 | two sets of the same name equal the last one alone |
| Environments.SetReturnsPrevious | src/environment.rs:16-18 | `set` returns what the name was bound to before, none if unbound; in a scope without outer scope that is what `get` saw |
| Environments.EmptyHasNothing | src/environment.rs:6-9 | the default environment binds no name |
| Environments.Empty | src/environment.rs:6-9 | the default scope, with no binding and no outer scope; EmptyHasNothing states what it binds |
| Environments.Enclosed | src/evaluator.rs:129 | an empty local store in front of the captured scope; EnclosedSeesOuter and LocalShadows state how it answers |
| Environments.Get | src/environment.rs:12-14 | the innermost binding of a name, local store first and then outwards; GetAfterSet, SetLeavesOthers and EnclosedSeesOuter state its behaviour |
| Environments.Previous | src/environment.rs:16-18 | the local binding `set` replaces, which `HashMap::insert` returns; SetReturnsPrevious relates it to `get` |
| Environments.Bind | src/environment.rs:16-18 | the scope after `set`: the local store with one entry replaced; GetAfterSet, SetLeavesOthers and LastWriteWins state its behaviour |
| Environments.EnclosedSeesOuter | src/evaluator.rs:129 | a fresh scope in front of an outer one sees exactly the outer bindings |
| Environments.LocalShadows | src/evaluator.rs:133-137 | a binding in the fresh scope hides the outer one and leaves the outer scope in place |
| Environments.Environment.constructor | src/environment.rs:6-9 | a new environment is the empty scope |
| Environments.Environment.WithOuter | src/evaluator.rs:129 | `new_with_outer` is an empty scope in front of the given one |
| Environments.Environment.Lookup | src/environment.rs:12-14 | `get` answers what the scope value binds, falling back to the outer scope |
| Environments.Environment.Set | src/environment.rs:16-18 | `set` writes the local store in place and returns the previous local binding |
| Objects.TypeName | src/evaluator.rs:447-490 | type names are known for integers and booleans only: `INTEGER`, `BOOLEAN` |
| Objects.TypeOf | src/evaluator.rs:94 | the type tag `type_val` gives, one per variant, which the infix arm compares to choose "unknown operator" or "type mismatch"; OperatorNeedsIntegers states that choice |
| Objects.IsTruthy | src/evaluator.rs:113 | `false` and `null` are false, a return value is as true as the value it wraps, and every other value is true; IfSelects and ConditionOnReturnedFalse state how `if` uses it |
| Objects.Display | src/object.rs:10-23 | the printed form of a value; DisplayWords, DisplayInteger, DisplayDefined and DisplayInjective state it |
| Objects.DisplayWords | src/object.rs:14-21 | `true`, `false` and `null` print as those words |
| Objects.DisplayDefined | src/object.rs:10-23 | the printable values are exactly the integers, the booleans and null |
| Objects.DisplayInteger | src/object.rs:13 | an integer prints as its decimal form, with a leading `-` exactly when negative |
| Objects.DisplayInjective | src/object.rs:3 | two printable values with the same text are equal |
| Objects.IntegerTextIsNumeral | src/object.rs:13 | an integer's text starts with `-` or a digit, so it never reads as a boolean or null |
| Lexing.ScanWhile | src/lexer.rs:47-69 | a scan loop stops on the first character out of its class (`\0` past the end), and once it has moved it is still within the input |
| Lexing.ScanWhileRun | src/lexer.rs:47-69 | every character a scan loop steps over is inside the input and in the class |
| Lexing.DigitRun | src/lexer.rs:55-63 | a digit run is non-empty, all digits, and its value fits in `i32` |
| Lexing.NextTokenAt | src/lexer.rs:71-131 | every `next_token` moves the cursor forward |
| Lexing.Tokenize | src/lexer.rs:71-131 | the tokens of successive `next_token` calls up to the first EOF; TokenizeStep, TokenizeAtEnd and TokenizeRender state it |
| Lexing.NotEofStaysInside | src/lexer.rs:71-131 | a token other than EOF ends within the input |
| Lexing.Lexer.constructor | src/lexer.rs:11-20 | `new` reads the first character: position 0, read position 1 |
| Lexing.Lexer.ReadChar | src/lexer.rs:22-34 | `read_char` loads the character at the read position (`\0` past the end), sets `read_position == position + 1`, never moves `position` back |
| Lexing.Lexer.PeakChar | src/lexer.rs:36-45 | `peak_char` is the character after the current one, `\0` past the end, and changes nothing |
| Lexing.Lexer.ReadIdentifier | src/lexer.rs:47-53 | `read_itentifier` returns exactly the maximal letter run and stops on its end |
| Lexing.Lexer.ReadNumber | src/lexer.rs:55-63 | `read_number` returns the decimal value of the maximal digit run and stops on its end |
| Lexing.Lexer.ConsumeWhitespace | src/lexer.rs:65-69 | `consume_whitespace` stops on the first non-blank |
| Lexing.Lexer.NextToken | src/lexer.rs:71-131 | `next_token` returns the token and the new position of the specification function |
| LexingProperties.WhitespaceSkipped | src/lexer.rs:65-72 | blanks before a token are skipped and no token contains one |
| LexingProperties.EqualsLookahead | src/lexer.rs:76-84 | `==` is EQ and consumes two characters; any other `=` is ASSIGN and consumes one |
| LexingProperties.BangLookahead | src/lexer.rs:87-95 | `!=` is NOT_EQ and consumes two characters; any other `!` is BANG and consumes one |
| LexingProperties.KeywordTable | src/lexer.rs:110-119 | a word is a keyword token exactly when it is one of the seven keywords; otherwise it is IDENT of that word |
| Lexing.Keyword | src/lexer.rs:110-119 | the keyword table of `next_token`; KeywordTable states that exactly the seven keywords map to keyword tokens |
| Lexing.SingleCharToken | src/lexer.rs:85-106 | the single-character arms of `next_token`, `\0` as EOF and ILLEGAL otherwise; SingleCharStep and IllegalConsumesOne state them |
| LexingProperties.IdentifierIsMaximalRun | src/lexer.rs:108-120 | a letter run is lexed whole: the token is the keyword or IDENT of exactly that run, and the next token starts after it |
| LexingProperties.NumberIsMaximalRun | src/lexer.rs:121-123 | a digit run is lexed whole as INT with its decimal value |
| LexingProperties.SingleCharStep | src/lexer.rs:85-106 | the remaining single-character tokens consume one character |
| LexingProperties.IllegalConsumesOne | src/lexer.rs:124-129 | any other character is ILLEGAL and consumes exactly one character |
| LexingProperties.EofForever | src/lexer.rs:23-24 | past the input every call yields EOF, and each call moves the cursor by exactly one |
| LexingProperties.Text | src/token.rs:1-35 | every printable token has a non-empty spelling |
| LexingProperties.Words | src/token.rs:1-35 | spelling a token list spells each token in place |
| LexingProperties.WordText | src/lexer.rs:108-120 | a word token's spelling is all letters and lexes back to the token |
| LexingProperties.SymbolText | src/lexer.rs:76-106 | a symbol's spelling has at most two characters; the two-character ones are `==` and `!=`, and the one-character ones lex back to the symbol |
| LexingProperties.LexPrinted | src/lexer.rs:71-131 | a token's spelling followed by a blank lexes back to the token |
| LexingProperties.WordPrinted | src/lexer.rs:108-120 | the same for word tokens |
| LexingProperties.WordAt | src/lexer.rs:108-120 | a letter run ended by a non-letter lexes as the keyword or IDENT of the run |
| LexingProperties.NumberPrinted | src/lexer.rs:121-123 | the same for integer tokens |
| LexingProperties.SymbolPrinted | src/lexer.rs:76-106 | the same for symbol tokens |
| LexingProperties.LetterRunIs | src/lexer.rs:47-53 | the identifier loop stops exactly at the first non-letter |
| LexingProperties.DigitRunIs | src/lexer.rs:55-63 | the number loop stops exactly at the first non-digit |
| LexingProperties.TokenizeStep | src/lexer.rs:71-131 | the token stream is the next token followed by the stream after it |
| LexingProperties.TokenizeAtEnd | src/lexer.rs:106 | the stream at the end of input is EOF alone |
| LexingProperties.EndToken | src/lexer.rs:106 | at the end of input `next_token` yields EOF |
| LexingProperties.JoinSpelled | src/lexer.rs:71-131 | joining words with blanks places each word at a known offset |
| LexingProperties.SpelledSteps | src/lexer.rs:71-131 | a blank-separated spelling lexes token by token at those offsets |
| LexingProperties.StepFromSpelling | src/lexer.rs:71-131 | a spelled token followed by a blank contributes exactly that token to the stream |
| LexingProperties.CallsSteps | src/lexer.rs:71-131 | successive `next_token` calls over a run of offsets give the run's tokens |
| LexingProperties.StepsTokenize | src/lexer.rs:71-131 | from each offset the stream is the remaining tokens followed by EOF |
| LexingProperties.TokenizeRender | src/lexer.rs:71-131 | lexing the blank-separated spelling of any printable token list gives back the list followed by EOF, and that spelling never overflows `read_number` |
| LexingProperties.TextFits | src/lexer.rs:55-63 | no digit run inside a printable token's spelling overflows `i32` |
| LexingProperties.SpaceJoinFits | src/lexer.rs:55-63 | a blank between two inputs joins no digit runs, so neither overflows |
| LexingProperties.RenderFits | src/lexer.rs:55-63 | the blank-separated spelling of printable tokens has no digit run that overflows `i32` |
| LexingProperties.TokenThenSpace | src/lexer.rs:65-72 | a token followed by a blank is followed in the stream by what follows the blank |
| LexingProperties.SpaceToken | src/lexer.rs:65-72 | a blank before the cursor does not change the next token |
| LexingProperties.DecimalValueBound | src/lexer.rs:55-63 | a numeral of n digits is below 10^n |
| LexingProperties.ShortInputFits | src/lexer.rs:60-62 | an input of at most nine characters has no digit run overflowing `i32` |
| LexingProperties.Pow10Monotone | src/lexer.rs:60-62 | powers of ten grow with the exponent |
| LexingProperties.NoSignedLiterals | src/lexer.rs:141-203 | `!-/*5` is BANG, MINUS, SLASH, ASTERISK, INT(5), EOF: no sign is lexed into a number |
| LexingProperties.SignedCalls | src/lexer.rs:141-203 | the five `next_token` calls over `!-/*5`, one per character |
| LexingProperties.SignedSymbols | src/lexer.rs:85-97 | the first four characters of `!-/*5` are one symbol each |
| LexingProperties.SignedNumber | src/lexer.rs:121-123 | the last character of `!-/*5` is INT(5) |
| Parsing.Level | src/parser.rs:169-178 | the precedences are the rungs 0 to 6 |
| Parsing.ParseInteger | src/parser.rs:35-40 | `str::parse` into `i64`: an unsigned numeral is accepted exactly when it fits and then has its decimal value; anything accepted is an optional sign and digits, worth the digits' value with that sign |
| Parsing.PrecedenceOf | src/parser.rs:180-195 | the binding power of each operator, `!` in the catch-all; BinaryOperator and PrecedenceLadder state it |
| Parsing.TokenOperator | src/parser.rs:358 | the operator the peek token converts to, if any; LoopStops states that a token without one stops the loop |
| Parsing.Advance | src/parser.rs:209-212 | `next_token` makes the peek token current, keeps the state well formed, and consumes one token when there was a current one |
| Parsing.Start | src/parser.rs:198-207 | `new` shifts twice and consumes nothing |
| Parsing.SkipSemicolon | src/parser.rs:236-238 | the optional `;` is consumed only as the peek token |
| Parsing.PrefixParse | src/parser.rs:19-130 | a prefix rule never goes back in the input |
| Parsing.InfixParse | src/parser.rs:132-166 | an infix rule never goes back, and a successful operator or call rule always moves forward |
| Parsing.ParseExpression | src/parser.rs:348-380 | parsing an expression never goes back in the input |
| Parsing.InfixLoop | src/parser.rs:353-376 | the binding-power loop never goes back in the input |
| Parsing.ParseCallArguments | src/parser.rs:318-346 | the argument list never goes back in the input; ParsingForms.CallArgumentsEnd states where it ends, the empty list one token past its `)` |
| Parsing.ArgumentsLoop | src/parser.rs:329-345 | the comma loop of the arguments never goes back |
| Parsing.ParseFuncParams | src/parser.rs:274-316 | the parameter list never goes back in the input; ParsingForms.FuncParamsEnd states where it ends, the empty list one token past its `)` |
| Parsing.ParamsLoop | src/parser.rs:295-315 | the comma loop of the parameters never goes back |
| Parsing.ParseBlockStatement | src/parser.rs:257-272 | a block never goes back in the input |
| Parsing.BlockLoop | src/parser.rs:263-271 | the statement loop of a block never goes back |
| Parsing.ParseStatement | src/parser.rs:392-398 | a statement never goes back in the input |
| Parsing.ParseLetStatement | src/parser.rs:222-245 | a `let` never goes back in the input |
| Parsing.ParseReturnStatement | src/parser.rs:247-255 | a `return` never goes back in the input; ParsingForms.ReturnStep and ReturnFails state what it builds |
| Parsing.ParseExpressionStatement | src/parser.rs:382-390 | an expression statement never goes back in the input |
| Parsing.AttemptsUnfold | src/parser.rs:403-409 | one pass of the program loop: one attempt, then a shift, then the attempts from there |
| Parsing.OksSnoc | src/parser.rs:405 | a successful attempt appends its statement at the end |
| Parsing.ErrsSnoc | src/parser.rs:406 | a failed attempt appends its error at the end |
| Parsing.Attempts | src/parser.rs:403-409 | the outcome of every statement attempt of `parse_program`, in order; AttemptsUnfold, AttemptsBounded and ProgramAccounts state it |
| Parsing.Oks | src/parser.rs:405 | the statements among the outcomes, in order; OksSnoc and OutcomesCounted state it |
| Parsing.Errs | src/parser.rs:406 | the errors among the outcomes, in order; ErrsSnoc and OutcomesCounted state it |
| Parsing.ProgramFrom | src/parser.rs:400-411 | the program of the statements and errors of the attempts; Parsers.Parser.ParseProgram is proved to build it |
| Parsing.ParseProgram | src/parser.rs:400-411 | `Parser::new` followed by `parse_program`; ProgramAccounts, ThreeLets, ThreeReturns and EmptyArgumentsAsWritten state what it yields |
| Parsers.Parser.constructor | src/parser.rs:198-207 | `new` leaves the state `Start` describes |
| Parsers.Parser.NextToken | src/parser.rs:209-212 | `next_token` shifts the fields as `Advance` says |
| Parsers.Parser.PrefixParse | src/parser.rs:19-130 | the method gives the result and the final state of the prefix rule |
| Parsers.Parser.InfixParse | src/parser.rs:132-166 | the method gives the result and the final state of the infix rule |
| Parsers.Parser.ParseExpression | src/parser.rs:348-380 | the loop that reassigns `left` gives the result and state of `ParseExpression` |
| Parsers.Parser.ParseCallArguments | src/parser.rs:318-346 | the pushing loop gives the arguments and state of `ParseCallArguments`, including the extra shift after an empty list |
| Parsers.Parser.ParseFuncParams | src/parser.rs:274-316 | the pushing loop gives the names and state of `ParseFuncParams`, including the extra shift after an empty list |
| Parsers.Parser.ParseBlockStatement | src/parser.rs:257-272 | the pushing loop gives the block and state of `ParseBlockStatement` |
| Parsers.Parser.ParseStatement | src/parser.rs:392-398 | the dispatch gives the result and state of `ParseStatement` |
| Parsers.Parser.SkipSemicolon | src/parser.rs:236-238 | the optional `;` shift, as `SkipSemicolon` says |
| Parsers.Parser.ParseLetStatement | src/parser.rs:222-245 | the method gives the result and state of `ParseLetStatement` |
| Parsers.Parser.ParseReturnStatement | src/parser.rs:247-255 | the method gives the result and state of `ParseReturnStatement` |
| Parsers.Parser.ParseExpressionStatement | src/parser.rs:382-390 | the method gives the result and state of `ParseExpressionStatement` |
| Parsers.Parser.ParseProgram | src/parser.rs:400-411 | the loop builds exactly the program of every attempt's statement or error, in order, and runs the input out |
| ParsingProperties.BinaryOperator | src/parser.rs:180-195 | the eight binary operators bind at Equals, LessGreater, Sum or Product |
| ParsingProperties.IntegerTextRoundTrip | src/parser.rs:35-40 | every `i64` reads back from its decimal text, and a non-negative one also from that text behind `+`; empty text or a lone sign is no integer |
| ParsingProperties.SignedIntegerTexts | src/parser.rs:35-40 | `+5` and `-5` read as 5 and -5 |
| ParsingProperties.LoopStops | src/parser.rs:354-367 | the loop stops on `;`, at the end, before a non-operator, and when the threshold is at least the peek operator's precedence |
| ParsingProperties.BangStopsLoop | src/parser.rs:357-367 | `!` as the peek token converts to an operator of `Lowest` precedence, so the loop stops with `left` unchanged |
| ParsingProperties.LoopGoesOn | src/parser.rs:363-371 | otherwise the loop parses the infix rule and carries on with the new left operand |
| ParsingProperties.BinaryStep | src/parser.rs:134-153 | a binary operator shifts twice and parses its right operand at its own precedence |
| ParsingProperties.ExpressionStep | src/parser.rs:349-351 | an expression is its prefix rule followed by the loop |
| ParsingProperties.AtomAlone | src/parser.rs:348-380 | a literal or identifier before a stop parses to itself without moving |
| ParsingProperties.TwoShifts | src/parser.rs:198-212 | two shifts over current, peek and rest start the parser on the rest |
| ParsingProperties.BinaryThenStop | src/parser.rs:357-371 | `x o y` followed by a non-operator is one infix node whenever the threshold is below `o` |
| ParsingProperties.ExpressionStatementStep | src/parser.rs:382-398 | a statement not starting with `let` or `return` is the expression with an optional `;` |
| ParsingProperties.BlockStep | src/parser.rs:263-270 | the block loop appends the parsed statement and shifts |
| ParsingProperties.ArgumentStep | src/parser.rs:330-335 | `, e` appends `e` to the arguments |
| ParsingProperties.AtomBlock | src/parser.rs:257-272 | `{ a }` is a block of one expression statement |
| ParsingProperties.ExpressionProgram | src/parser.rs:400-411 | a token list that is one expression is a program of that one statement with no errors |
| ParsingProperties.PrecedenceLadder | src/parser.rs:169-178 | Lowest < Equals < LessGreater < Sum < Product < Prefix < Call, and no two rungs are equal |
| ParsingProperties.TwoOperators | src/parser.rs:357-371 | `x o1 y o2 z` groups right exactly when `o2` binds tighter than `o1`, else left |
| ParsingProperties.GroupsRight | src/parser.rs:365-371 | a tighter second operator takes `y` as its left operand |
| ParsingProperties.GroupsLeft | src/parser.rs:365-367 | an equal or looser second operator takes `x o1 y` as its left operand |
| ParsingProperties.NegatedAtom | src/parser.rs:26-34 | `!x` and `-x` are a prefix node over the atom |
| ParsingProperties.PrefixBindsTighter | src/parser.rs:26-34 | `-x o y` is `(-x) o y` for every binary operator |
| ParsingProperties.NegativeFifteen | src/parser.rs:672-717 | `-15` is one statement `Prefix(-, 15)` |
| ParsingProperties.SumOfProduct | src/evaluator.rs:255-257 | `5 + 2 * 10` parses with the product inside the sum |
| ParsingForms.ArgumentsExtend | src/parser.rs:329-345 | the argument loop only appends, and on success ends on `)` |
| ParsingForms.ParamsExtend | src/parser.rs:295-315 | the parameter loop only appends, and on success ends on `)` |
| ParsingForms.CallArgumentsEnd | src/parser.rs:318-346 | `( )` is the empty list with the token after `)` current; a successful non-empty list has at least one argument and ends with `)` current |
| ParsingForms.FuncParamsEnd | src/parser.rs:274-316 | `( )` is the empty list with the token after `)` current; a successful non-empty list has at least one name and ends with `)` current |
| ParsingForms.NonIdentifierParameter | src/parser.rs:283-305 | a parameter that is not an identifier fails with "identifier not found for parameters" |
| ParsingForms.CallNeedsCallable | src/parser.rs:154-163 | `(` after a left operand that is not an identifier or function literal fails with "expression is not callable" and does not move |
| ParsingForms.BlockLoopEnds | src/parser.rs:263-271 | the block loop only appends, and ends on `}` or at the end of input |
| ParsingForms.BlockEnds | src/parser.rs:257-272 | a block ends on `}` or at the end of input |
| ParsingForms.FirstArgument | src/parser.rs:326-327 | a non-empty argument list starts with one expression |
| ParsingForms.CallStep | src/parser.rs:154-161 | `(` after a callable is a call with the parsed arguments |
| ParsingForms.FunctionStep | src/parser.rs:61-80 | `fn` is the parameter list, `{`, then the body |
| ParsingForms.IfAlternative | src/parser.rs:104-126 | an `if` has an alternative exactly when `else` follows the consequence |
| ParsingForms.ElseStep | src/parser.rs:104-119 | `else {` parses the alternative block |
| ParsingForms.GroupStep | src/parser.rs:50-59 | `(` followed by an expression and `)` is that expression, with the `)` consumed |
| ParsingForms.GroupedBinary | src/parser.rs:50-59 | `( x o y )` is the infix node, with the `)` consumed |
| ParsingForms.BinaryStatement | src/parser.rs:382-390 | `x o y;` over atoms is one infix expression statement, with the `;` consumed |
| ParsingForms.BinaryBlock | src/parser.rs:257-272 | `{ x o y; }` is a block of one infix statement |
| ParsingForms.LetNeedsName | src/parser.rs:223 | `let` not followed by an identifier fails with the peek token in the error |
| ParsingForms.LetNeedsAssign | src/parser.rs:230 | `let name` not followed by `=` fails |
| ParsingForms.LetStep | src/parser.rs:222-242 | `let name = e` is a Let of that name and value, with the `;` optional |
| ParsingForms.LetOfAtom | src/parser.rs:222-242 | `let n = x` followed by a non-operator is a Let, consuming a following `;` |
| ParsingForms.LetThenRest | src/parser.rs:400-411 | a `let n = x;` line gives one Let and the program continues after the `;` |
| ParsingForms.ReturnStep | src/parser.rs:247-255 | `return e` is `ReturnStatement(e)`, and a `;` after `e` is consumed with it |
| ParsingForms.ReturnFails | src/parser.rs:247-252 | a `return` whose value fails fails with that error |
| ParsingForms.ReturnOfAtom | src/parser.rs:247-255 | `return x` followed by a non-operator is a return statement, consuming a following `;` |
| ParsingForms.ReturnThenRest | src/parser.rs:400-411 | a `return x;` line gives one return statement and the program continues after the `;` |
| ParsingForms.OutcomesCounted | src/parser.rs:404-407 | every attempt is either a statement or an error |
| ParsingForms.AttemptsBounded | src/parser.rs:403-409 | there are at most as many attempts as tokens |
| ParsingForms.ProgramAccounts | src/parser.rs:400-411 | the program's statements and errors are, in order, the successes and failures of its attempts, one entry per attempt, never more than the tokens |
| ParsingExamples.GroupedCondition | src/parser.rs:50-59 | the grouped condition of an `if` ends with `)` current and `{` next |
| ParsingExamples.IfCondition | src/parser.rs:82-94 | the condition is parsed as a grouped expression, with no separate `)` check |
| ParsingExamples.IfHeadBlock | src/parser.rs:96-102 | `{ a }` after the condition is the consequence |
| ParsingExamples.IfWithoutElsePrefix | src/parser.rs:81-126 | `if (x o y) { a }` is an `if` without alternative |
| ParsingExamples.IfWithoutElseExpression | src/parser.rs:348-380 | the same as a whole expression |
| ParsingExamples.IfWithoutElse | src/parser.rs:803-862 | `if (x < y) { x }` is one If statement without alternative |
| ParsingExamples.ElseConsequence | src/parser.rs:102-104 | the consequence block ends before `else` |
| ParsingExamples.ElseAlternative | src/parser.rs:105-113 | `else { b }` is the alternative block |
| ParsingExamples.IfWithElseParts | src/parser.rs:81-119 | the condition, consequence and alternative of `if (x o y) { a } else { b }` |
| ParsingExamples.IfWithElsePrefix | src/parser.rs:104-119 | `if (x o y) { a } else { b }` is an `if` with alternative |
| ParsingExamples.IfWithElseExpression | src/parser.rs:348-380 | the same as a whole expression |
| ParsingExamples.IfWithElse | src/parser.rs:863-938 | `if (x < y) { x } else { y }` is one If statement with alternative |
| ParsingExamples.TwoParams | src/parser.rs:274-316 | `(x, y)` is the parameter list `[x, y]`, in source order |
| ParsingExamples.FunctionParams | src/parser.rs:61-67 | the parameters of `fn (x, y) {` end on `)` with `{` next |
| ParsingExamples.FunctionBody | src/parser.rs:69-75 | `{a o b;}` is a body of one statement |
| ParsingExamples.FunctionParts | src/parser.rs:61-80 | the parameters and body of `fn (x, y) {a o b;}` |
| ParsingExamples.FunctionLiteralPrefix | src/parser.rs:61-80 | `fn (x, y) {a o b;}` is a function literal |
| ParsingExamples.FunctionLiteralExpression | src/parser.rs:348-380 | the same as a whole expression |
| ParsingExamples.FunctionLiteralExample | src/parser.rs:939-998 | `fn (x, y) {x + y;}` has parameters `[x, y]` and a body of one statement |
| ParsingExamples.FirstAtomArgument | src/parser.rs:318-328 | the first argument of `(a, ...` is `a` |
| ParsingExamples.MiddleArgument | src/parser.rs:329-335 | `, b1 o1 b2` appends the infix node |
| ParsingExamples.LastArgument | src/parser.rs:329-344 | `, d1 o2 d2 )` appends the last node and ends on `)` |
| ParsingExamples.ThreeArguments | src/parser.rs:318-346 | `(a, b1 o1 b2, d1 o2 d2)` is three arguments in source order |
| ParsingExamples.IdentifierCallAlone | src/parser.rs:348-380 | an identifier whose call ends the input is the whole expression |
| ParsingExamples.CallInfix | src/parser.rs:154-161 | the call rule over three arguments |
| ParsingExamples.CallExpression | src/parser.rs:348-380 | `f(a, b1 o1 b2, d1 o2 d2)` is one call expression |
| ParsingExamples.CallExample | src/parser.rs:999-1053 | `add(1, 2 * 3, 4 + 5)` is one call with three arguments in order |
| ParsingExamples.NotCallableRecovers | src/parser.rs:400-411 | `5(1)` records "expression is not callable", and the program goes on to parse `(1)` |
| ParsingExamples.ThreeLiterals | src/parser.rs:35-40 | `5`, `10`, `838383` are integer literals of those values |
| ParsingExamples.ThreeStatements | src/parser.rs:404-407 | three successes give three statements and no errors |
| ParsingExamples.ThreeLetAttempts | src/parser.rs:526-562 | `let x = 5; let y = 10; let foobar = 838383;` is three successful attempts, in order |
| ParsingExamples.ThreeLets | src/parser.rs:526-562 | the same lines give three Let statements named x, y, foobar, and no errors |
| ParsingExamples.ReturnLines | src/parser.rs:497-524 | any three `return <atom>;` lines are three return statements of those atoms, in order, with nothing left |
| ParsingExamples.ThreeReturnAttempts | src/parser.rs:497-524 | `return 5; return 10; return 838383;` is three successful attempts, in order |
| ParsingExamples.ThreeReturns | src/parser.rs:497-524 | the same lines give three return statements of 5, 10 and 838383, and no errors |
| ParsingFindings.ParseFuncParamsCorrected | src/parser.rs:274-316 | the intended parameter list: every list it accepts, `( )` included, ends with its `)` current, and every list other than `( )` is the source's |
| ParsingFindings.ParseCallArgumentsCorrected | src/parser.rs:318-346 | the intended argument list: every list it accepts, `( )` included, ends with its `)` current, and every list other than `( )` is the source's |
| ParsingFindings.FunctionLiteralCorrected | src/parser.rs:61-80 | the `fn` rule over the intended parameter list, the source's rule whenever the list is not `( )` |
| ParsingFindings.CallCorrected | src/parser.rs:154-161 | the call rule over the intended argument list, the source's rule whenever the list is not `( )` |
| ParsingFindings.EmptyParametersAsWritten | src/parser.rs:278-281 | as written, `fn () { a }` fails with "left brace parentesis not found after if" |
| ParsingFindings.EmptyParametersCorrected | src/parser.rs:61-80 | with the intended list, `fn () { a }` is a function literal with no parameters |
| ParsingFindings.EmptyCallExpression | src/parser.rs:322-325 | as written, the call `f()` at the head of `f() + b` ends on `+`, the infix loop stops there, and the expression is the bare call |
| ParsingFindings.EmptyCallStatement | src/parser.rs:322-325 | as written, the first statement of `f() + b` is the bare call `f()`, with `+` current after it |
| ParsingFindings.LastAtomAttempts | src/parser.rs:400-411 | an atom as the last token is one last attempt, its expression statement |
| ParsingFindings.EmptyArgumentsAsWritten | src/parser.rs:322-325 | as written, `f() + b` is the program of the two statements `f()` and `b`, with no error |
| ParsingFindings.EmptyArgumentsCorrected | src/parser.rs:154-161 | with the intended list, `f() + b` is the sum of the call and `b` |
| Evaluating.Checked | src/evaluator.rs:70-72 | an `i64` result is the exact value when it fits, and the host fault otherwise |
| Evaluating.ErrorMessage | src/evaluator.rs:55-107 | the texts of the unknown-operator and type-mismatch errors, plus "identifier not found: NAME" (line 24) and "empty statments" (line 176); the error examples state them |
| Evaluating.IntegerInfix | src/evaluator.rs:66-86 | the arm for two integers; IntegerArithmetic, IntegerDivision and IntegerComparison state it |
| Evaluating.EvalInfix | src/evaluator.rs:61-110 | the infix arm once both operands are values; EqualityIsStructural, OperatorNeedsIntegers and InfixYieldsScalar state it |
| Evaluating.EvalPrefix | src/evaluator.rs:41-60 | the prefix arm once the operand is a value; BangNegatesTruth, DoubleBang, MinusNegates and MinusTwice state it |
| Evaluating.EvalCallable | src/evaluator.rs:21-34 | a name is looked up and a function literal closes over the current scope; IdentifierLookup and ClosureCapturesEarlierScope state it |
| Evaluating.BindParams | src/evaluator.rs:133-137 | the binding loop of a call; BoundByPosition, NotRebound and ExtraArgumentsIgnored state it |
| Evaluating.EvalExp | src/evaluator.rs:36-145 | `eval_exp` with the scope it leaves; ExpKeepsOuter, ExpFuel, IfSelects, CallRunsBody and the examples state it |
| Evaluating.EvalArguments | src/evaluator.rs:124-130 | the arguments left to right up to the first error; ArgumentsKeepOuter and ArgumentsFuel state it |
| Evaluating.EvalStatement | src/evaluator.rs:147-161 | `eval_statment`; LetBinds, StatementKeepsOuter and StatementFuel state it |
| Evaluating.EvalBlock | src/evaluator.rs:179-193 | `eval_block_statments`; Evaluators.EvalBlockStatements is proved to compute it, and BlockKeepsOuter and BlockFuel state it |
| Evaluating.BlockRun | src/evaluator.rs:182-192 | the loop of a block; BlockStops, BlockGoesOn and BlockEndsWithLast state it |
| Evaluating.ProgramRun | src/evaluator.rs:166-176 | the loop of a program; ProgramStops and ProgramIsUnwrappedBlock state it |
| Evaluating.EvalProgram | src/evaluator.rs:163-177 | `eval_program`; Evaluators.EvalProgramStatements is proved to compute it, and ProgramKeepsOuter and the examples state it |
| Evaluators.BindParameters | src/evaluator.rs:129-137 | the loop over the parameters fills the fresh scope as `BindParams` says |
| Evaluators.EvalProgramStatements | src/evaluator.rs:163-177 | the loop updating `obj` and the caller's scope gives the result and scope of `EvalProgram` |
| Evaluators.EvalBlockStatements | src/evaluator.rs:179-193 | the loop of a block gives the result and scope of `EvalBlock` |
| EvaluatingProperties.ExpKeepsOuter | src/evaluator.rs:36-145 | evaluating an expression writes the local scope only |
| EvaluatingProperties.ArgumentsKeepOuter | src/evaluator.rs:124-128 | evaluating the arguments writes the local scope only |
| EvaluatingProperties.StatementKeepsOuter | src/evaluator.rs:147-161 | a statement writes the local scope only |
| EvaluatingProperties.BlockKeepsOuter | src/evaluator.rs:179-193 | a block writes the local scope only |
| EvaluatingProperties.RunKeepsOuter | src/evaluator.rs:182-187 | the block loop writes the local scope only |
| EvaluatingProperties.ProgramKeepsOuter | src/evaluator.rs:166-171 | the program loop writes the local scope only |
| EvaluatingProperties.ExpFuel | src/evaluator.rs:36-145 | more fuel changes nothing about an expression that did not run out |
| EvaluatingProperties.ArgumentsFuel | src/evaluator.rs:124-128 | the same for argument lists |
| EvaluatingProperties.StatementFuel | src/evaluator.rs:147-161 | the same for statements |
| EvaluatingProperties.BlockFuel | src/evaluator.rs:179-193 | the same for blocks |
| EvaluatingProperties.RunFuel | src/evaluator.rs:182-187 | the same for the block loop |
| EvaluatingProperties.ProgramIsUnwrappedBlock | src/evaluator.rs:163-193 | a program runs the block loop, except that the return value that stops it is unwrapped |
| EvaluatingProperties.BlockStops | src/evaluator.rs:183-186 | a block stops at the first statement that fails or returns, with the return value still wrapped |
| EvaluatingProperties.ProgramStops | src/evaluator.rs:167-170 | a program stops at the first statement that fails or returns, unwrapping the return value |
| EvaluatingProperties.BlockGoesOn | src/evaluator.rs:182-187 | an ordinary statement passes its scope and value to the rest of the block |
| EvaluatingProperties.BlockEndsWithLast | src/evaluator.rs:173-176 | once all statements ran, the result is the last value; with no statements it is "empty statments" |
| EvaluatingProperties.IfSelects | src/evaluator.rs:111-120 | `if` runs the consequence when the condition is truthy, else the alternative if present, else yields Null; a failing condition fails the whole |
| EvaluatingProperties.BangNegatesTruth | src/evaluator.rs:45-50 | `!` yields the boolean negation of the truthiness of any operand that is not a return value, and `false` for a return value, which its match has no arm for |
| EvaluatingProperties.BangOnFalseReturn | src/evaluator.rs:45-50 | a return value wrapping a false value is false, yet `!` of it is `false`: `!` is not the negation of truthiness there |
| EvaluatingProperties.DoubleBang | src/evaluator.rs:45-50 | `!!x` is the truthiness of `x` when `x` is not a return value, and `true` when it is |
| EvaluatingProperties.MinusNegates | src/evaluator.rs:51-56 | `-` negates exactly the integers other than `i64::MIN`, and fails with "unknown operator: -TYPE" on other values |
| EvaluatingProperties.MinusTwice | src/evaluator.rs:51-56 | negating twice gives the integer back |
| EvaluatingProperties.IntegerArithmetic | src/evaluator.rs:70-72 | `+ - *` on integers give the exact result exactly when it fits in `i64` |
| EvaluatingProperties.IntegerDivision | src/evaluator.rs:73 | `/` on integers gives the truncated quotient exactly unless the divisor is 0 or it is `i64::MIN / -1` |
| EvaluatingProperties.IntegerComparison | src/evaluator.rs:74-77 | `== != < >` on integers give the comparison as a boolean |
| EvaluatingProperties.EqualityIsStructural | src/evaluator.rs:74-92 | `==` and `!=` are structural equality and inequality on every pair of values |
| EvaluatingProperties.OperatorNeedsIntegers | src/evaluator.rs:93-108 | any other operator on non-integers fails with "unknown operator" when the types agree and "type mismatch" when they differ |
| EvaluatingProperties.InfixYieldsScalar | src/evaluator.rs:61-110 | a successful infix result is an integer or a boolean |
| EvaluatingProperties.IdentifierLookup | src/evaluator.rs:23-26 | a name evaluates to its binding, or fails with "identifier not found: NAME", touching no scope |
| EvaluatingProperties.LetBinds | src/evaluator.rs:155-159 | `let` yields Null, binds the name to the value, and leaves every other name as the value's evaluation left it |
| EvaluatingProperties.BoundByPosition | src/evaluator.rs:133-137 | the i-th parameter gets the i-th argument when there is one, and is otherwise left as it was |
| EvaluatingProperties.NotRebound | src/evaluator.rs:133-137 | names that are not parameters are untouched by the binding loop |
| EvaluatingProperties.ExtraArgumentsIgnored | src/evaluator.rs:133-137 | arguments beyond the parameters make no difference |
| EvaluatingProperties.CallRunsBody | src/evaluator.rs:121-139 | a call runs the body in a fresh scope in front of the captured one, hands back the body's result as it is (a return value stays wrapped), and leaves the caller's scope as the arguments left it |
| EvaluatingExamples.SumOfProductIs25 | src/evaluator.rs:255-257 | `5 + 2 * 10`, from its tokens, is 25 |
| EvaluatingExamples.FiftyIs60 | src/evaluator.rs:259-261 | `50 / 2 * 2 + 10` is 60 |
| EvaluatingExamples.DoubleBangFive | src/evaluator.rs:357-359 | `!!5` is true |
| EvaluatingExamples.IfExamples | src/evaluator.rs:380-394 | `if (1 > 2) { 10 } else { 20 }` is 20, `if (false) { 10 }` is null |
| EvaluatingExamples.NestedReturn | src/evaluator.rs:431-432 | the inner `return 10` leaves both blocks |
| EvaluatingExamples.ReturnStopsProgram | src/evaluator.rs:427-428 | `9; return 2 * 5; 6;` is 10 |
| EvaluatingExamples.TypeMismatchExample | src/evaluator.rs:454-455 | `5 + true; 5;` fails with "type mismatch: INTEGER + BOOLEAN" |
| EvaluatingExamples.UnknownPrefixExample | src/evaluator.rs:458-459 | `-true` fails with "unknown operator: -BOOLEAN" |
| EvaluatingExamples.UnknownInfixExample | src/evaluator.rs:462-463 | `true + true` fails with "unknown operator: BOOLEAN + BOOLEAN" |
| EvaluatingExamples.UnboundIdentifierExample | src/evaluator.rs:529-546 | `foobar` fails with "identifier not found: foobar" |
| EvaluatingExamples.EmptyProgramExample | src/evaluator.rs:176 | the empty program fails with "empty statments" |
| EvaluatingExamples.LetChain | src/evaluator.rs:512-513 | `let a = 5; let b = a; let c = a + b + 5; c;` is 15 |
| EvaluatingExamples.AddBodySums | src/evaluator.rs:564-565 | the body of `add` sums its two bound parameters |
| EvaluatingExamples.AddCall | src/evaluator.rs:564-565 | `add(x, y)` is `x + y` and leaves the caller's scope as it was |
| EvaluatingExamples.NestedCalls | src/evaluator.rs:568-569 | `let add = fn(x, y) { x + y; }; add(5, add(5, 5));` is 15 |
| EvaluatingExamples.ImmediateCall | src/evaluator.rs:572-573 | `fn(x) { x; }(5)` is 5 |
| EvaluatingExamples.ReturnValueCrossesCall | src/evaluator.rs:139 | a return value comes out of a call still wrapped, so `f() + 1` meets a return value |
| EvaluatingExamples.ClosureCapturesEarlierScope | src/evaluator.rs:28-32 | a closure captures a copy of the scope before its own `let`, so a self-call finds no binding |
| EvaluatingExamples.ConditionOnReturnedFalse | src/evaluator.rs:111-120 | `if (fn(x) { return false; }(1)) { 10 } else { 20 }` is 20: the returned `false` arrives wrapped and still counts as false |
| EvaluatingExamples.BangOnReturnedFalse | src/evaluator.rs:45-50 | `!fn(x) { return false; }(1)` is `false`, as the `!` match gives for a return value |

## Left out

- The REPL and the entry point (`src/repl.rs`, `src/main.rs`) are console I/O and are not
  part of this model.
- String literals. `src/lexer.rs` has no rule for strings, and their evaluation is `todo!()`.
  The AST keeps the variant, and evaluating it yields the error `StringLiteralUnsupported`.
- Panics become errors: calling a value that is not a function yields `NotCallable`, and
  `i64` overflow, `-i64::MIN` and division by zero yield `IntegerFault`. The source panics
  on division by zero and on `i64::MIN / -1` in every build. It panics on `+ - *` overflow
  and on `-i64::MIN` only when overflow checks are on, as in the default debug profile; a
  release build wraps those around instead, which the model does not follow.
- An integer token whose text `str::parse` refuses (it does not fit `i64`, or it is not an
  optionally signed numeral) becomes the parse error `BadIntegerLiteral`; the source panics
  on the `expect` of its `parse`. `src/lexer.rs` only produces digit runs, so the signs
  Parsing.ParseInteger accepts never come from the lexer.
- The lexer's `i32` parse of a digit run that overflows is excluded by a precondition
  (`DigitRunsFit`) of the lexer's entry points rather than modelled as a panic.
  LexingProperties.RenderFits proves that the spelling of printable tokens always meets it.
- Unicode. The lexer is modelled on ASCII letters and digits, so the source's mixing of
  byte length and character index does not arise. The character classes still apply to
  any `string` input: a non-ASCII letter or digit, which `is_alphabetic` or `is_numeric`
  would read into a run, lexes as ILLEGAL in the model.
- Fuel: evaluation takes a fuel argument that each function call uses up,
  and running out yields `OutOfFuel`. Programs that need more calls than the fuel are not
  evaluated to the end. Fuel lemmas show that fuel cuts evaluation short and changes
  nothing else.
- `src/object.rs` in this version defines no `type_val` or `is_thruthy` body, and
  `src/ast.rs` no `Display for Operator`. `type_val` is assumed to give every variant of
  the value its own tag (Objects.TypeOf), so comparing the tags of two values compares their
  variants; EvaluatingExamples.ReturnValueCrossesCall relies on this when it expects
  `TypeMismatch(ReturnType, +, IntegerType)`. `is_thruthy` is taken as false exactly for
  `false`, `null` and a return value wrapping one of them (Objects.IsTruthy): a return
  value counts as the value it wraps. The `!` of `src/evaluator.rs:45-50` does not use
  `is_thruthy` and gives `false` for every return value, so there `!x` is not the negation
  of the truthiness of `x` (EvaluatingProperties.BangOnFalseReturn). The type names used are `INTEGER` and `BOOLEAN` from the tests, and
  `+` is the only operator spelling. Error texts involving other names have no text in the
  model (`ErrorMessage` is `None`).
- Parsing.TokenOperator: the `try_into` conversion from token to operator that
  `src/parser.rs:32`, `:142` and `:358` call is not part of this model. The table of ten
  token kinds is assumed from the operators the parser uses; `!` converts to an operator
  but takes the catch-all `Lowest` precedence, so it never continues the infix loop
  (ParsingProperties.BangStopsLoop).
- Objects.Display gives no text for return values and functions: the `Display` in
  `src/object.rs` has no arm for them.
- Evaluators.EvalProgramStatements and Evaluators.EvalBlockStatements change the
  caller's `Environment` object by writing back the store the statement left. The
  recursion in between is on values, so no aliasing between scopes is modelled. `clone`
  on capture is value semantics.
- EvaluatingExamples.FiftyIs60 and the other evaluator examples start from syntax trees.
  Only `5 + 2 * 10` is taken from its tokens.
- EvaluatingExamples.ReturnValueCrossesCall is stated on the syntax tree. The parser does
  not parse `f() + 1` as a sum: ParsingFindings.EmptyArgumentsAsWritten proves that it
  yields the two statements `f()` and `1` (see Findings).
- The parser examples are proved for any identifier names, not only the literal `x`, `y`,
  `add` and `foobar`.
- The intended lists of ParsingFindings are used only by the two rules defined beside them
  (ParsingFindings.FunctionLiteralCorrected and ParsingFindings.CallCorrected); the rest of
  the parser, and the parser class, follow the source.
- Error texts that print a token with `{:?}` (a token without prefix rule, a `let` without
  a name) keep the token in the error value; its debug rendering is not modelled.
- The lexer's test over the whole multi-line program is stated generally instead:
  LexingProperties.TokenizeRender covers every blank-separated token list.

## Findings

| source | as written | input that shows it | evidently intended | confidence | as-written member | corrected member |
|---|---|---|---|---|---|---|
| src/parser.rs:278-281 | the empty parameter list shifts past its `)`, unlike a non-empty one, so the current token is `{` when the caller checks that the peek token is `{` | `fn() { 1 }` fails with "left brace parentesis not found after if" | the empty list ends with `)` current, like a non-empty one, and `fn() { 1 }` is a function literal without parameters | not executed | ParsingFindings.EmptyParametersAsWritten | ParsingFindings.EmptyParametersCorrected |
| src/parser.rs:322-325 | the empty argument list shifts past its `)`, so the infix loop resumes with the token after the call as current | `f() + 1`: the `+` is never combined and the input becomes two statements | the empty list ends with `)` current, and `f() + 1` is the sum of the call and 1 | not executed | ParsingFindings.EmptyArgumentsAsWritten | ParsingFindings.EmptyArgumentsCorrected |

`Parsing` and the class `Parsers.Parser` follow the source, extra shift included, so every
property of the parser above holds of the lists as written; ParsingForms.CallArgumentsEnd
and ParsingForms.FuncParamsEnd state both endings. The intended lists are
ParsingFindings.ParseFuncParamsCorrected and ParsingFindings.ParseCallArgumentsCorrected,
whose contracts state, for every input, that a successful intended list ends on its `)`,
empty or not.
