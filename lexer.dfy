/**
 * The lexer of `src/lexer.rs`: a cursor (`position`, `read_position`, `ch`) over the
 * source text that produces one token per call of `NextToken`.
 *
 * `NextTokenAt` is the specification of one call, as a function of the cursor position;
 * the class `Lexer` is the cursor itself, and each of its methods is proved against
 * that specification.
 */
module Lexing {
  import opened Chars
  import opened Tokens

  /** The character under the cursor at position `i`: the sentinel `'\0'` once `i` is past the end. */
  function CharAt(input: string, i: nat): char
  {
    if i < |input| then input[i] else '\0'
  }

  /**
   * What `read_number` demands of the input: a run of digits is parsed as an `i32` and
   * the lexer panics when it does not fit. Stated for every digit substring, which holds
   * exactly when it holds for every maximal run.
   */
  predicate DigitRunsFit(input: string)
  {
    forall i, j :: 0 <= i <= j <= |input| ==> RunFits(input, i, j)
  }

  /** The characters from `i` to `j`, if they are all digits, make a number that fits an `i32`. */
  predicate RunFits(input: string, i: nat, j: nat)
    requires i <= j <= |input|
  {
    AllDigits(input[i..j]) ==> DecimalValue(input[i..j]) <= I32_MAX
  }

  /** The three classes the lexer scans greedily: whitespace, letters and digits. */
  datatype CharClass = Space | Letter | Digit

  predicate InClass(c: char, k: CharClass)
  {
    match k
    case Space => IsWhitespace(c)
    case Letter => IsLetter(c)
    case Digit => IsDigit(c)
  }

  /** The end of the maximal run of class `k` that starts at `i`. */
  function ScanWhile(input: string, i: nat, k: CharClass): (j: nat)
    ensures i <= j
    ensures i < j ==> j <= |input|
    ensures !InClass(CharAt(input, j), k)
    decreases |input| - i
  {
    if i < |input| && InClass(input[i], k) then ScanWhile(input, i + 1, k) else i
  }

  /** Every character `ScanWhile` passes over is inside the input and in the class. */
  lemma {:induction false} ScanWhileRun(input: string, i: nat, k: CharClass)
    ensures forall m :: i <= m < ScanWhile(input, i, k) ==> m < |input| && InClass(input[m], k)
    decreases |input| - i
  {
    if i < |input| && InClass(input[i], k) {
      ScanWhileRun(input, i + 1, k);
      var j := ScanWhile(input, i + 1, k);
      assert ScanWhile(input, i, k) == j;
      forall m | i <= m < j ensures m < |input| && InClass(input[m], k) {
        if m > i {
          assert i + 1 <= m < j;
        }
      }
    } else {
      assert ScanWhile(input, i, k) == i;
    }
  }

  /** The run `ScanWhile` finds from a digit is a numeral that fits an `i32`. */
  lemma DigitRun(input: string, p: nat, q: nat)
    requires DigitRunsFit(input) && IsDigit(CharAt(input, p)) && q == ScanWhile(input, p, Digit)
    ensures p < q <= |input| && AllDigits(input[p..q]) && DecimalValue(input[p..q]) <= I32_MAX
  {
    ScanWhileRun(input, p, Digit);
    assert RunFits(input, p, q);
  }

  /** The keyword table of `next_token`: a word is a keyword token or else an identifier carrying the word. */
  function Keyword(word: string): Token
  {
    match word
    case "let" => LET
    case "fn" => FUNCTION
    case "if" => IF
    case "else" => ELSE
    case "true" => TRUE
    case "false" => FALSE
    case "return" => RETURN
    case _ => IDENT(word)
  }

  predicate IsKeyword(word: string)
  {
    word in {"let", "fn", "if", "else", "true", "false", "return"}
  }

  /** The one-character tokens that need no lookahead, the end-of-input sentinel, and ILLEGAL for anything else. */
  function SingleCharToken(c: char): Token
  {
    match c
    case '+' => PLUS
    case '-' => MINUS
    case '*' => ASTERISK
    case '/' => SLASH
    case '<' => LT
    case '>' => GT
    case ';' => SEMICOLON
    case '(' => LPAREN
    case ')' => RPAREN
    case ',' => COMMA
    case '{' => LBRACE
    case '}' => RBRACE
    case '\0' => EOF
    case _ => ILLEGAL
  }

  /**
   * One call of `next_token` with the cursor at `pos`: the token and the cursor position
   * after it.
   */
  function NextTokenAt(input: string, pos: nat): (r: (Token, nat))
    requires DigitRunsFit(input)
    ensures pos < r.1
  {
    var p := ScanWhile(input, pos, Space);
    var c := CharAt(input, p);
    if c == '=' then
      if CharAt(input, p + 1) == '=' then (EQ, p + 2) else (ASSIGN, p + 1)
    else if c == '!' then
      if CharAt(input, p + 1) == '=' then (NOT_EQ, p + 2) else (BANG, p + 1)
    else if IsLetter(c) then
      var q := ScanWhile(input, p, Letter);
      (Keyword(input[p..q]), q)
    else if IsDigit(c) then
      var q := ScanWhile(input, p, Digit);
      DigitRun(input, p, q);
      (INT(DecimalValue(input[p..q]) as i32), q)
    else
      (SingleCharToken(c), p + 1)
  }

  /** The whole token stream from `pos` up to and including the first EOF. */
  function Tokenize(input: string, pos: nat): (ts: seq<Token>)
    requires DigitRunsFit(input) && pos <= |input|
    decreases |input| - pos
  {
    var (t, q) := NextTokenAt(input, pos);
    if t == EOF then [EOF]
    else
      NotEofStaysInside(input, pos);
      [t] + Tokenize(input, q)
  }

  /** A token other than EOF ends inside the input. */
  lemma NotEofStaysInside(input: string, pos: nat)
    requires DigitRunsFit(input)
    ensures NextTokenAt(input, pos).0 != EOF ==> NextTokenAt(input, pos).1 <= |input|
  {
  }

  // ---------------------------------------------------------------------------
  // The cursor

  class Lexer {
    const input: string
    var position: nat
    var readPosition: nat
    var ch: char

    /** The cursor invariant: `read_position` is one past `position`, and `ch` is the character at `position`. */
    ghost predicate Valid()
      reads this
    {
      && readPosition == position + 1
      && ch == CharAt(input, position)
      && DigitRunsFit(input)
    }

    constructor (input: string)
      requires DigitRunsFit(input)
      ensures Valid() && this.input == input && position == 0
    {
      this.input := input;
      position, readPosition, ch := 0, 0, '\0';
      new;
      ReadChar();
    }

    /** Moves the cursor to `read_position`; so `position` never decreases and `read_position` stays one ahead. */
    method ReadChar()
      modifies this
      ensures ch == CharAt(input, old(readPosition))
      ensures position == old(readPosition) && readPosition == position + 1
      ensures old(position) <= old(readPosition) ==> old(position) <= position
    {
      if readPosition >= |input| {
        ch := '\0';
      } else {
        ch := input[readPosition];
      }
      position := readPosition;
      readPosition := readPosition + 1;
    }

    /** The character after the current one, without moving the cursor. */
    method PeakChar() returns (c: char)
      requires Valid()
      ensures c == CharAt(input, position + 1)
    {
      if readPosition >= |input| {
        c := '\0';
      } else {
        c := input[readPosition];
      }
    }

    /** Reads the maximal run of letters under the cursor and returns its text. */
    method ReadIdentifier() returns (word: string)
      requires Valid() && position <= |input|
      modifies this
      ensures Valid()
      ensures position == ScanWhile(input, old(position), Letter)
      ensures old(position) <= position <= |input| && word == input[old(position)..position]
    {
      var pos := position;
      while IsLetter(ch)
        invariant Valid() && pos <= position <= |input|
        invariant ScanWhile(input, position, Letter) == ScanWhile(input, pos, Letter)
        decreases |input| - position
      {
        ReadChar();
      }
      word := input[pos..position];
    }

    /** Reads the maximal run of digits under the cursor and returns its decimal value. */
    method ReadNumber() returns (n: i32)
      requires Valid() && IsDigit(ch)
      modifies this
      ensures Valid()
      ensures position == ScanWhile(input, old(position), Digit)
      ensures old(position) < position <= |input|
      ensures AllDigits(input[old(position)..position]) && n as int == DecimalValue(input[old(position)..position])
    {
      var pos := position;
      while IsDigit(ch)
        invariant Valid() && pos <= position <= |input|
        invariant ScanWhile(input, position, Digit) == ScanWhile(input, pos, Digit)
        decreases |input| - position
      {
        ReadChar();
      }
      var digits := input[pos..position];
      ScanWhileRun(input, pos, Digit);
      assert AllDigits(digits) && RunFits(input, pos, position);
      n := DecimalValue(digits) as i32;
    }

    /** Skips spaces, tabs, line feeds and carriage returns. */
    method ConsumeWhitespace()
      requires Valid()
      modifies this
      ensures Valid()
      ensures position == ScanWhile(input, old(position), Space)
    {
      ghost var pos := position;
      while IsWhitespace(ch)
        invariant Valid() && pos <= position
        invariant ScanWhile(input, position, Space) == ScanWhile(input, pos, Space)
        decreases |input| - position
      {
        ReadChar();
      }
    }

    /** Produces the next token and moves the cursor past it, exactly as `NextTokenAt` says. */
    method NextToken() returns (t: Token)
      requires Valid()
      modifies this
      ensures Valid()
      ensures (t, position) == NextTokenAt(input, old(position))
    {
      ConsumeWhitespace();
      var c := ch;
      if c == '=' {
        var next := PeakChar();
        if next == '=' {
          ReadChar();
          t := EQ;
        } else {
          t := ASSIGN;
        }
      } else if c == '!' {
        var next := PeakChar();
        if next == '=' {
          ReadChar();
          t := NOT_EQ;
        } else {
          t := BANG;
        }
      } else if IsLetter(c) {
        var word := ReadIdentifier();
        t := Keyword(word);
        return;
      } else if IsDigit(c) {
        var n := ReadNumber();
        t := INT(n);
        return;
      } else {
        t := SingleCharToken(c);
      }
      ReadChar();
    }
  }
}

/** What one call of the lexer promises, and the round trip from printed tokens back to tokens. */
module LexingProperties {
  import opened Chars
  import opened Tokens
  import opened Lexing

  /** Whitespace before a token is skipped, and no whitespace lies inside the token. */
  lemma WhitespaceSkipped(input: string, pos: nat)
    requires DigitRunsFit(input)
    ensures var p := ScanWhile(input, pos, Space);
      var q := NextTokenAt(input, pos).1;
      && pos <= p < q
      && (forall k :: pos <= k < p ==> IsWhitespace(input[k]))
      && (forall k :: p <= k < q ==> !IsWhitespace(CharAt(input, k)))
  {
    var p := ScanWhile(input, pos, Space);
    var q := NextTokenAt(input, pos).1;
    ScanWhileRun(input, pos, Space);
    ScanWhileRun(input, p, Letter);
    ScanWhileRun(input, p, Digit);
    forall k | p <= k < q ensures !IsWhitespace(CharAt(input, k)) {
      if IsLetter(CharAt(input, p)) {
        assert InClass(input[k], Letter);
      } else if IsDigit(CharAt(input, p)) {
        assert InClass(input[k], Digit);
      }
    }
  }

  /** `=` followed by `=` is EQ and consumes both; any other `=` is ASSIGN and consumes one. */
  lemma EqualsLookahead(input: string, pos: nat)
    requires DigitRunsFit(input)
    requires CharAt(input, ScanWhile(input, pos, Space)) == '='
    ensures var p := ScanWhile(input, pos, Space);
      NextTokenAt(input, pos) == if CharAt(input, p + 1) == '=' then (EQ, p + 2) else (ASSIGN, p + 1)
  {
  }

  /** `!` followed by `=` is NOT_EQ and consumes both; any other `!` is BANG and consumes one. */
  lemma BangLookahead(input: string, pos: nat)
    requires DigitRunsFit(input)
    requires CharAt(input, ScanWhile(input, pos, Space)) == '!'
    ensures var p := ScanWhile(input, pos, Space);
      NextTokenAt(input, pos) == if CharAt(input, p + 1) == '=' then (NOT_EQ, p + 2) else (BANG, p + 1)
  {
  }

  /** The keyword table: a word is one of the seven keyword tokens exactly when it is spelled as one, else an IDENT carrying the word. */
  lemma KeywordTable(word: string)
    ensures IsKeyword(word) <==> !Keyword(word).IDENT?
    ensures !IsKeyword(word) ==> Keyword(word) == IDENT(word)
  {
  }

  /**
   * A maximal run of letters becomes one token: the keyword or IDENT for exactly that run,
   * and the next token starts right after it.
   */
  lemma IdentifierIsMaximalRun(input: string, pos: nat)
    requires DigitRunsFit(input)
    requires IsLetter(CharAt(input, ScanWhile(input, pos, Space)))
    ensures var p := ScanWhile(input, pos, Space);
      var (t, q) := NextTokenAt(input, pos);
      && p < q <= |input|
      && (forall k :: p <= k < q ==> IsLetter(input[k]))
      && !IsLetter(CharAt(input, q))
      && t == Keyword(input[p..q])
  {
    var p := ScanWhile(input, pos, Space);
    var q := NextTokenAt(input, pos).1;
    ScanWhileRun(input, p, Letter);
    forall k | p <= k < q ensures IsLetter(input[k]) {
      assert InClass(input[k], Letter);
    }
    assert !InClass(CharAt(input, q), Letter);
  }

  /** A maximal run of digits becomes one INT carrying its decimal value; no sign is ever part of it. */
  lemma NumberIsMaximalRun(input: string, pos: nat)
    requires DigitRunsFit(input)
    requires IsDigit(CharAt(input, ScanWhile(input, pos, Space)))
    ensures var p := ScanWhile(input, pos, Space);
      var (t, q) := NextTokenAt(input, pos);
      && p < q <= |input|
      && AllDigits(input[p..q])
      && !IsDigit(CharAt(input, q))
      && t.INT? && t.value as int == DecimalValue(input[p..q])
  {
    var p := ScanWhile(input, pos, Space);
    var q := NextTokenAt(input, pos).1;
    ScanWhileRun(input, p, Digit);
    assert !InClass(CharAt(input, q), Digit);
  }

  /** A character with no lookahead and no run behind it is its one-character token and consumes exactly itself. */
  lemma SingleCharStep(input: string, pos: nat)
    requires DigitRunsFit(input)
    requires var c := CharAt(input, ScanWhile(input, pos, Space));
      !IsLetter(c) && !IsDigit(c) && c != '=' && c != '!'
    ensures var p := ScanWhile(input, pos, Space);
      NextTokenAt(input, pos) == (SingleCharToken(CharAt(input, p)), p + 1)
  {
  }

  /** A character that starts no token is ILLEGAL and consumes exactly one character. */
  lemma IllegalConsumesOne(input: string, pos: nat)
    requires DigitRunsFit(input)
    requires var c := CharAt(input, ScanWhile(input, pos, Space));
      !IsLetter(c) && !IsDigit(c) && c !in "=+-!*/<>;(),{}\0"
    ensures var p := ScanWhile(input, pos, Space);
      NextTokenAt(input, pos) == (ILLEGAL, p + 1)
  {
  }

  /** Once the input is exhausted every further call yields EOF, and the cursor keeps moving forward. */
  lemma {:induction false} EofForever(input: string, pos: nat, calls: nat)
    requires DigitRunsFit(input) && pos >= |input|
    ensures NextTokenAt(input, pos) == (EOF, pos + 1)
    ensures Iterate(input, pos, calls) == pos + calls
    decreases calls
  {
    if calls > 0 {
      EofForever(input, pos + 1, calls - 1);
    }
  }

  /** The cursor after `calls` further calls of the lexer from `pos`. */
  function Iterate(input: string, pos: nat, calls: nat): nat
    requires DigitRunsFit(input)
    decreases calls
  {
    if calls == 0 then pos else Iterate(input, NextTokenAt(input, pos).1, calls - 1)
  }

  // ---------------------------------------------------------------------------
  // Printing tokens and reading them back

  /** The tokens that have a source spelling: not ILLEGAL or EOF, identifiers that are letter words other than keywords, non-negative integers. */
  predicate Printable(t: Token)
  {
    match t
    case ILLEGAL => false
    case EOF => false
    case IDENT(name) => |name| > 0 && (forall i :: 0 <= i < |name| ==> IsLetter(name[i])) && !IsKeyword(name)
    case INT(v) => v >= 0
    case _ => true
  }

  /** The source spelling of a printable token. */
  function Text(t: Token): (s: string)
    requires Printable(t)
    ensures |s| > 0
  {
    match t
    case LET => "let"
    case FUNCTION => "fn"
    case TRUE => "true"
    case FALSE => "false"
    case IF => "if"
    case ELSE => "else"
    case RETURN => "return"
    case IDENT(name) => name
    case INT(v) => NatToString(v as int)
    case COMMA => ","
    case SEMICOLON => ";"
    case LPAREN => "("
    case RPAREN => ")"
    case LBRACE => "{"
    case RBRACE => "}"
    case ASSIGN => "="
    case PLUS => "+"
    case MINUS => "-"
    case BANG => "!"
    case ASTERISK => "*"
    case SLASH => "/"
    case LT => "<"
    case GT => ">"
    case EQ => "=="
    case NOT_EQ => "!="
  }

  /** The spellings of printable tokens. */
  function Words(ts: seq<Token>): (ws: seq<string>)
    requires forall i :: 0 <= i < |ts| ==> Printable(ts[i])
    ensures |ws| == |ts| && forall i :: 0 <= i < |ts| ==> ws[i] == Text(ts[i])
  {
    seq(|ts|, i requires 0 <= i < |ts| => Text(ts[i]))
  }

  /** Words written one after the other, each followed by a single space. */
  function Join(ws: seq<string>): string
  {
    if ws == [] then "" else ws[0] + " " + Join(ws[1..])
  }

  /** Tokens printed one after the other, each followed by a single space. */
  function Render(ts: seq<Token>): string
    requires forall i :: 0 <= i < |ts| ==> Printable(ts[i])
  {
    Join(Words(ts))
  }

  /** The printed form of a keyword or identifier is a letter word that the keyword table maps back to the token. */
  lemma WordText(t: Token)
    requires Printable(t) && IsLetter(Text(t)[0])
    ensures forall i :: 0 <= i < |Text(t)| ==> IsLetter(Text(t)[i])
    ensures Keyword(Text(t)) == t
  {
  }

  /** The printed form of any other token starts with a character that is neither a letter nor whitespace. */
  lemma SymbolText(t: Token)
    requires Printable(t) && !IsLetter(Text(t)[0]) && !t.INT?
    ensures |Text(t)| <= 2 && !IsWhitespace(Text(t)[0]) && !IsDigit(Text(t)[0])
    ensures |Text(t)| == 2 ==> (t == EQ || t == NOT_EQ) && Text(t)[1] == '='
    ensures t == EQ ==> Text(t)[0] == '='
    ensures t == NOT_EQ ==> Text(t)[0] == '!'
    ensures Text(t) == "=" <==> t == ASSIGN
    ensures Text(t) == "!" <==> t == BANG
    ensures |Text(t)| == 1 && t != ASSIGN && t != BANG ==> SingleCharToken(Text(t)[0]) == t
  {
  }

  /** A printed token followed by whitespace lexes back to itself and leaves the cursor on that whitespace. */
  lemma LexPrinted(input: string, pos: nat, t: Token)
    requires DigitRunsFit(input) && Printable(t)
    requires pos + |Text(t)| < |input|
    requires input[pos..pos + |Text(t)|] == Text(t)
    requires IsWhitespace(input[pos + |Text(t)|])
    ensures NextTokenAt(input, pos) == (t, pos + |Text(t)|)
  {
    assert input[pos] == Text(t)[0];
    if IsLetter(Text(t)[0]) {
      WordPrinted(input, pos, t);
    } else if t.INT? {
      NumberPrinted(input, pos, t);
    } else {
      SymbolPrinted(input, pos, t);
    }
  }

  lemma WordPrinted(input: string, pos: nat, t: Token)
    requires DigitRunsFit(input) && Printable(t) && IsLetter(Text(t)[0])
    requires pos + |Text(t)| < |input|
    requires input[pos..pos + |Text(t)|] == Text(t)
    requires IsWhitespace(input[pos + |Text(t)|])
    ensures NextTokenAt(input, pos) == (t, pos + |Text(t)|)
  {
    var w := Text(t);
    var e := pos + |w|;
    WordText(t);
    assert forall k :: pos <= k < e ==> IsLetter(input[k]) by {
      forall k | pos <= k < e ensures IsLetter(input[k]) {
        assert input[k] == w[k - pos];
      }
    }
    WordAt(input, pos, e);
  }

  /** A maximal run of letters at the cursor is the keyword or identifier spelled by it. */
  lemma WordAt(input: string, pos: nat, e: nat)
    requires DigitRunsFit(input) && pos < e < |input|
    requires forall k :: pos <= k < e ==> IsLetter(input[k])
    requires !IsLetter(input[e])
    ensures NextTokenAt(input, pos) == (Keyword(input[pos..e]), e)
  {
    assert ScanWhile(input, pos, Space) == pos;
    LetterRunIs(input, pos, e);
  }

  lemma NumberPrinted(input: string, pos: nat, t: Token)
    requires DigitRunsFit(input) && Printable(t) && t.INT?
    requires pos + |Text(t)| < |input|
    requires input[pos..pos + |Text(t)|] == Text(t)
    requires IsWhitespace(input[pos + |Text(t)|])
    ensures NextTokenAt(input, pos) == (t, pos + |Text(t)|)
  {
    var w := Text(t);
    var e := pos + |w|;
    assert input[pos] == w[0] && IsDigit(w[0]);
    assert ScanWhile(input, pos, Space) == pos;
    DigitRunIs(input, pos, e);
    DecimalValueOfNatToString(t.value as int);
  }

  lemma SymbolPrinted(input: string, pos: nat, t: Token)
    requires DigitRunsFit(input) && Printable(t) && !IsLetter(Text(t)[0]) && !t.INT?
    requires pos + |Text(t)| < |input|
    requires input[pos..pos + |Text(t)|] == Text(t)
    requires IsWhitespace(input[pos + |Text(t)|])
    ensures NextTokenAt(input, pos) == (t, pos + |Text(t)|)
  {
    var w := Text(t);
    SymbolText(t);
    assert input[pos] == w[0];
    assert ScanWhile(input, pos, Space) == pos;
    if |w| == 2 {
      assert input[pos + 1] == w[1];
    }
  }

  /** A run of letters that is followed by a non-letter is what `ScanWhile` finds. */
  lemma {:induction false} LetterRunIs(input: string, i: nat, e: nat)
    requires i <= e < |input|
    requires forall k :: i <= k < e ==> IsLetter(input[k])
    requires !IsLetter(input[e])
    ensures ScanWhile(input, i, Letter) == e
    decreases e - i
  {
    if i < e {
      LetterRunIs(input, i + 1, e);
    }
  }

  /** A run of digits that is followed by a non-digit is what `ScanWhile` finds. */
  lemma {:induction false} DigitRunIs(input: string, i: nat, e: nat)
    requires i <= e < |input|
    requires forall k :: i <= k < e ==> IsDigit(input[k])
    requires !IsDigit(input[e])
    ensures ScanWhile(input, i, Digit) == e
    decreases e - i
  {
    if i < e {
      DigitRunIs(input, i + 1, e);
    }
  }

  /** One step of `Tokenize`: a token other than EOF is followed by the stream from where it ends. */
  lemma TokenizeStep(input: string, pos: nat, t: Token, q: nat)
    requires DigitRunsFit(input) && pos <= |input|
    requires NextTokenAt(input, pos) == (t, q) && t != EOF
    ensures q <= |input|
    ensures Tokenize(input, pos) == [t] + Tokenize(input, q)
  {
    NotEofStaysInside(input, pos);
  }

  /** At the end of the input the stream is just EOF. */
  lemma TokenizeAtEnd(input: string)
    requires DigitRunsFit(input)
    ensures Tokenize(input, |input|) == [EOF]
  {
    EndToken(input);
  }

  /** At the end of the input the call gives EOF. */
  lemma EndToken(input: string)
    requires DigitRunsFit(input)
    ensures NextTokenAt(input, |input|) == (EOF, |input| + 1)
  {
    assert ScanWhile(input, |input|, Space) == |input|;
  }

  /**
   * Where the words of a joined list sit: word `k` is spelled from `ps[k]` on and is
   * followed by one space, after which word `k + 1` starts; the last space ends the input.
   */
  predicate Spelled(input: string, ws: seq<string>, ps: seq<nat>)
  {
    && |ps| == |ws| + 1 && ps[|ws|] == |input|
    && forall k :: 0 <= k < |ws| ==> SpelledAt(input, ws, ps, k)
  }

  predicate SpelledAt(input: string, ws: seq<string>, ps: seq<nat>, k: nat)
    requires k < |ws| && |ps| == |ws| + 1
  {
    && ps[k] + |ws[k]| + 1 == ps[k + 1] <= |input|
    && input[ps[k]..ps[k + 1] - 1] == ws[k]
    && input[ps[k + 1] - 1] == ' '
  }

  /** The same positions as the lexer sees them: the stream from `ps[k]` is token `k` followed by the stream from `ps[k + 1]`. */
  predicate Steps(input: string, ts: seq<Token>, ps: seq<nat>)
    requires DigitRunsFit(input)
  {
    && |ps| == |ts| + 1 && ps[|ts|] == |input|
    && forall k :: 0 <= k < |ts| ==> StepAt(input, ts, ps, k)
  }

  predicate StepAt(input: string, ts: seq<Token>, ps: seq<nat>, k: nat)
    requires DigitRunsFit(input) && k < |ts| && |ps| == |ts| + 1
  {
    && ps[k] < ps[k + 1] <= |input|
    && Tokenize(input, ps[k]) == [ts[k]] + Tokenize(input, ps[k + 1])
  }

  /** Positions moved right by `d`. */
  function Shift(ps: seq<nat>, d: nat): (qs: seq<nat>)
    ensures |qs| == |ps| && forall i :: 0 <= i < |ps| ==> qs[i] == ps[i] + d
  {
    seq(|ps|, i requires 0 <= i < |ps| => ps[i] + d)
  }

  /** A word and a space in front of a joined list: every position moves right past them, and the word sits at 0. */
  lemma SpelledCons(w: string, r: string, ws: seq<string>, qs: seq<nat>)
    requires Spelled(r, ws, qs) && |qs| > 0 && qs[0] == 0
    ensures Spelled(w + " " + r, [w] + ws, [0] + Shift(qs, |w| + 1))
  {
    var s := w + " " + r;
    var shifted := Shift(qs, |w| + 1);
    var ps := [0] + shifted;
    var us := [w] + ws;
    forall k | 0 <= k < |us| ensures SpelledAt(s, us, ps, k) {
      if k == 0 {
        assert s[0..|w|] == w;
        assert s[|w|] == ' ';
      } else {
        var j := k - 1;
        assert SpelledAt(r, ws, qs, j);
        assert us[k] == ws[j] && ps[k] == qs[j] + |w| + 1 && ps[k + 1] == qs[j + 1] + |w| + 1;
        assert s[ps[k]..ps[k + 1] - 1] == r[qs[j]..qs[j + 1] - 1];
        assert s[ps[k + 1] - 1] == r[qs[j + 1] - 1];
      }
    }
  }

  /** `Join` spells each word followed by one space. */
  lemma {:induction false} JoinSpelled(ws: seq<string>) returns (ps: seq<nat>)
    ensures |ps| > 0 && ps[0] == 0 && Spelled(Join(ws), ws, ps)
    decreases ws
  {
    if ws == [] {
      ps := [0];
    } else {
      var qs := JoinSpelled(ws[1..]);
      SpelledCons(ws[0], Join(ws[1..]), ws[1..], qs);
      ps := [0] + Shift(qs, |ws[0]| + 1);
      assert [ws[0]] + ws[1..] == ws;
    }
  }

  /** Every token of a printed list lexes back from its position. */
  lemma SpelledSteps(input: string, ts: seq<Token>, ps: seq<nat>)
    requires forall i :: 0 <= i < |ts| ==> Printable(ts[i])
    requires DigitRunsFit(input) && Spelled(input, Words(ts), ps)
    ensures Steps(input, ts, ps)
  {
    forall k | 0 <= k < |ts| ensures StepAt(input, ts, ps, k) {
      assert SpelledAt(input, Words(ts), ps, k);
      StepFromSpelling(input, ts[k], ps[k], ps[k + 1]);
    }
  }

  /** A printed token followed by a space: the stream from the token is the token followed by the stream after the space. */
  lemma StepFromSpelling(input: string, t: Token, p: nat, q: nat)
    requires DigitRunsFit(input) && Printable(t)
    requires q == p + |Text(t)| + 1 <= |input|
    requires input[p..q - 1] == Text(t) && input[q - 1] == ' '
    ensures Tokenize(input, p) == [t] + Tokenize(input, q)
  {
    LexPrinted(input, p, t);
    TokenThenSpace(input, p, t, q - 1, Tokenize(input, q));
  }

  /** Calls of the lexer that follow each other from position to position make up the stream between them. */
  lemma CallsSteps(input: string, ts: seq<Token>, ps: seq<nat>)
    requires DigitRunsFit(input) && |ps| == |ts| + 1 && ps[0] <= |input| && ps[|ts|] == |input|
    requires forall k :: 0 <= k < |ts| ==> ts[k] != EOF && NextTokenAt(input, ps[k]) == (ts[k], ps[k + 1])
    ensures Steps(input, ts, ps)
  {
    forall k | 0 <= k < |ts| ensures StepAt(input, ts, ps, k) {
      CallsStay(input, ts, ps, k);
      TokenizeStep(input, ps[k], ts[k], ps[k + 1]);
    }
  }

  /** Every position in such a chain of calls is inside the input. */
  lemma {:induction false} CallsStay(input: string, ts: seq<Token>, ps: seq<nat>, k: nat)
    requires DigitRunsFit(input) && |ps| == |ts| + 1 && ps[0] <= |input|
    requires forall k :: 0 <= k < |ts| ==> ts[k] != EOF && NextTokenAt(input, ps[k]) == (ts[k], ps[k + 1])
    requires k <= |ts|
    ensures ps[k] <= |input|
  {
    if k > 0 {
      CallsStay(input, ts, ps, k - 1);
      TokenizeStep(input, ps[k - 1], ts[k - 1], ps[k]);
    }
  }

  /** Lexing from the position of token `k` gives the tokens from `k` on, followed by EOF. */
  lemma {:induction false} StepsTokenize(input: string, ts: seq<Token>, ps: seq<nat>, k: nat)
    requires DigitRunsFit(input) && Steps(input, ts, ps) && k <= |ts|
    ensures ps[k] <= |input| && Tokenize(input, ps[k]) == ts[k..] + [EOF]
    decreases |ts| - k
  {
    if k == |ts| {
      TokenizeAtEnd(input);
    } else {
      StepsTokenize(input, ts, ps, k + 1);
      assert StepAt(input, ts, ps, k);
      assert ts[k..] == [ts[k]] + ts[k + 1..];
    }
  }

  /** A numeral is worth at least what the digits after any prefix of it are worth. */
  lemma {:induction false} SuffixBound(p: string, q: string)
    requires AllDigits(p + q)
    ensures AllDigits(q) && DecimalValue(q) <= DecimalValue(p + q)
    decreases |q|
  {
    assert forall k :: 0 <= k < |q| ==> q[k] == (p + q)[|p| + k];
    if q != [] {
      var q' := q[..|q| - 1];
      assert (p + q)[..|p + q| - 1] == p + q';
      SuffixBound(p, q');
    }
  }

  /** A numeral is worth at least what any of its prefixes is worth. */
  lemma {:induction false} PrefixBound(s: string, b: nat)
    requires AllDigits(s) && b <= |s|
    ensures AllDigits(s[..b]) && DecimalValue(s[..b]) <= DecimalValue(s)
    decreases |s| - b
  {
    if b < |s| {
      var s' := s[..|s| - 1];
      assert s'[..b] == s[..b];
      PrefixBound(s', b);
    } else {
      assert s[..b] == s;
    }
  }

  /** The text of a printable token contains no digit run that overflows `i32`. */
  lemma {:induction false} TextFits(t: Token)
    requires Printable(t)
    ensures DigitRunsFit(Text(t))
  {
    var s := Text(t);
    if t.INT? {
      DecimalValueOfNatToString(t.value as int);
      forall i, j | 0 <= i <= j <= |s| ensures RunFits(s, i, j) {
        PrefixBound(s, j);
        assert s[..j] == s[..i] + s[i..j];
        SuffixBound(s[..i], s[i..j]);
      }
    } else {
      assert forall k :: 0 <= k < |s| ==> !IsDigit(s[k]);
      forall i, j | 0 <= i <= j <= |s| ensures RunFits(s, i, j) {
        if i < j {
          assert s[i..j][0] == s[i];
        }
      }
    }
  }

  /** Two inputs without an overflowing digit run stay so when a space separates them. */
  lemma {:induction false} SpaceJoinFits(a: string, b: string)
    requires DigitRunsFit(a) && DigitRunsFit(b)
    ensures DigitRunsFit(a + " " + b)
  {
    var s := a + " " + b;
    forall i, j | 0 <= i <= j <= |s| ensures RunFits(s, i, j) {
      if j <= |a| {
        assert s[i..j] == a[i..j];
        assert RunFits(a, i, j);
      } else if i > |a| {
        assert s[i..j] == b[i - |a| - 1..j - |a| - 1];
        assert RunFits(b, i - |a| - 1, j - |a| - 1);
      } else {
        assert s[i..j][|a| - i] == ' ';
      }
    }
  }

  /** The printed form of a list of printable tokens has no digit run that overflows `i32`. */
  lemma {:induction false} RenderFits(ts: seq<Token>)
    requires forall i :: 0 <= i < |ts| ==> Printable(ts[i])
    ensures DigitRunsFit(Render(ts))
    decreases |ts|
  {
    if ts != [] {
      var ws := Words(ts);
      assert ws[1..] == Words(ts[1..]);
      RenderFits(ts[1..]);
      TextFits(ts[0]);
      SpaceJoinFits(ws[0], Join(ws[1..]));
    }
  }

  /**
   * The round trip: lexing the printed form of a list of tokens gives back exactly those
   * tokens, followed by EOF.
   */
  lemma TokenizeRender(ts: seq<Token>)
    requires forall i :: 0 <= i < |ts| ==> Printable(ts[i])
    ensures DigitRunsFit(Render(ts)) && Tokenize(Render(ts), 0) == ts + [EOF]
  {
    RenderFits(ts);
    var ps := JoinSpelled(Words(ts));
    SpelledSteps(Render(ts), ts, ps);
    StepsTokenize(Render(ts), ts, ps, 0);
    assert ts[0..] == ts;
  }

  lemma SeqConsAppend<T>(xs: seq<T>, x: T)
    requires xs != []
    ensures [xs[0]] + (xs[1..] + [x]) == xs + [x]
  {
    assert xs == [xs[0]] + xs[1..];
  }

  /** A token that ends on whitespace is followed by the stream from just after that whitespace. */
  lemma TokenThenSpace(input: string, pos: nat, t: Token, e: nat, tail: seq<Token>)
    requires DigitRunsFit(input) && pos <= |input|
    requires NextTokenAt(input, pos) == (t, e) && t != EOF
    requires e < |input| && IsWhitespace(input[e])
    requires Tokenize(input, e + 1) == tail
    ensures Tokenize(input, pos) == [t] + tail
  {
    TokenizeStep(input, pos, t, e);
    SpaceToken(input, e);
  }

  /** A call that starts on whitespace behaves as one that starts just after it. */
  lemma SpaceToken(input: string, e: nat)
    requires DigitRunsFit(input) && e < |input| && IsWhitespace(input[e])
    ensures NextTokenAt(input, e) == NextTokenAt(input, e + 1)
  {
    assert ScanWhile(input, e, Space) == ScanWhile(input, e + 1, Space);
  }

  /** A numeral of `n` digits is below ten to the `n`. */
  lemma {:induction false} DecimalValueBound(s: string)
    requires AllDigits(s)
    ensures DecimalValue(s) < Pow10(|s|)
    decreases |s|
  {
    if s != [] {
      DecimalValueBound(s[..|s| - 1]);
    }
  }

  function Pow10(n: nat): nat
  {
    if n == 0 then 1 else 10 * Pow10(n - 1)
  }

  /** An input of at most nine characters meets the lexer's precondition. */
  lemma ShortInputFits(input: string)
    requires |input| <= 9
    ensures DigitRunsFit(input)
  {
    forall i, j | 0 <= i <= j <= |input|
      ensures RunFits(input, i, j)
    {
      if AllDigits(input[i..j]) {
        DecimalValueBound(input[i..j]);
      }
      assert Pow10(9) == 1000000000;
      Pow10Monotone(j - i, 9);
    }
  }

  lemma {:induction false} Pow10Monotone(a: nat, b: nat)
    requires a <= b
    ensures Pow10(a) <= Pow10(b)
    decreases b
  {
    if a < b {
      Pow10Monotone(a, b - 1);
    }
  }

  // The sign of a negative number is lexed separately: the five characters ! - / * 5 give BANG, MINUS, SLASH, ASTERISK, INT(5).
  lemma NoSignedLiterals(s: string)
    requires s == "!-/*5"
    ensures DigitRunsFit(s)
    ensures Tokenize(s, 0) == [BANG, MINUS, SLASH, ASTERISK, INT(5), EOF]
  {
    ShortInputFits(s);
    var ts, ps := [BANG, MINUS, SLASH, ASTERISK, INT(5)], [0, 1, 2, 3, 4, 5];
    SignedCalls(s, ts, ps);
    CallsSteps(s, ts, ps);
    StepsTokenize(s, ts, ps, 0);
    assert ts[0..] + [EOF] == [BANG, MINUS, SLASH, ASTERISK, INT(5), EOF];
  }

  lemma SignedCalls(s: string, ts: seq<Token>, ps: seq<nat>)
    requires s == "!-/*5" && ts == [BANG, MINUS, SLASH, ASTERISK, INT(5)] && ps == [0, 1, 2, 3, 4, 5]
    ensures DigitRunsFit(s)
    ensures forall k :: 0 <= k < |ts| ==> ts[k] != EOF && NextTokenAt(s, ps[k]) == (ts[k], ps[k + 1])
  {
    SignedSymbols(s);
    SignedNumber(s);
    forall k | 0 <= k < |ts| ensures ts[k] != EOF && NextTokenAt(s, ps[k]) == (ts[k], ps[k + 1]) {
      if k == 0 { } else if k == 1 { } else if k == 2 { } else if k == 3 { } else { }
    }
  }

  lemma SignedSymbols(s: string)
    requires s == "!-/*5"
    ensures DigitRunsFit(s)
    ensures NextTokenAt(s, 0) == (BANG, 1)
    ensures NextTokenAt(s, 1) == (MINUS, 2)
    ensures NextTokenAt(s, 2) == (SLASH, 3)
    ensures NextTokenAt(s, 3) == (ASTERISK, 4)
  {
    ShortInputFits(s);
    assert ScanWhile(s, 0, Space) == 0;
    BangLookahead(s, 0);
    assert ScanWhile(s, 1, Space) == 1;
    SingleCharStep(s, 1);
    assert ScanWhile(s, 2, Space) == 2;
    SingleCharStep(s, 2);
    assert ScanWhile(s, 3, Space) == 3;
    SingleCharStep(s, 3);
  }

  lemma SignedNumber(s: string)
    requires s == "!-/*5"
    ensures DigitRunsFit(s)
    ensures NextTokenAt(s, 4) == (INT(5), 5)
  {
    ShortInputFits(s);
    assert ScanWhile(s, 4, Digit) == 5;
    assert s[4..5] == "5";
    assert DecimalValue("5") == 5 by {
      assert "5"[..0] == "";
    }
  }
}
