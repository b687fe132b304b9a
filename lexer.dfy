/**
 * The character-level lexer (src/lexer/lexer.rs).
 *
 * The first half states what one call of `next_token` does as functions over
 * a `Cursor` value (the lexer's three mutable fields); runs of letters, digits
 * and blanks are described by where they end, not by a loop. The class
 * `Lexer` below is the source's stateful lexer, and each of its methods is
 * proved to move the cursor exactly as these functions say.
 */
module Lexing {
  import opened Wrappers
  import opened Tokens

  /** The sentinel character: "not yet started" and "past the end of input". */
  const NUL: char := '\0'

  /** Every character of s is a 7-bit ASCII character. */
  predicate IsAscii(s: seq<char>)
  {
    forall i :: 0 <= i < |s| ==> s[i] < 128 as char
  }

  /** `is_letter` as written: 'a'..'z', the single upper-case letter 'A', and '_'. */
  predicate IsLetter(c: char)
  {
    'a' <= c <= 'z' || 'A' <= c <= 'A' || c == '_'
  }

  /** The letters are the lower-case ones, '_' and 'A'; no other upper-case letter is one. */
  lemma IsLetterSet(c: char)
    ensures IsLetter(c) <==> ('a' <= c <= 'z' || c == 'A' || c == '_')
    ensures forall u :: 'B' <= u <= 'Z' ==> !IsLetter(u)
  {
  }

  /** `char::is_ascii_digit`. */
  predicate IsDigit(c: char)
  {
    '0' <= c <= '9'
  }

  /** The characters `skip_whitespace` passes over. */
  predicate IsBlank(c: char)
  {
    c == ' ' || c == '\t' || c == '\n' || c == '\r'
  }

  /** The three kinds of character run the lexer consumes greedily. */
  datatype CharClass = Letters | Digits | Blanks

  predicate InClass(k: CharClass, c: char)
  {
    match k
    case Letters => IsLetter(c)
    case Digits => IsDigit(c)
    case Blanks => IsBlank(c)
  }

  /** The character at index i, or the sentinel when i is past the end. */
  function CharAt(input: seq<char>, i: nat): char
  {
    if i < |input| then input[i] else NUL
  }

  /** Where the maximal run of class-k characters that starts at index i ends. */
  function RunEnd(input: seq<char>, i: nat, k: CharClass): (e: nat)
    ensures i <= e
    ensures i <= |input| ==> e <= |input|
    ensures !InClass(k, CharAt(input, e))
    decreases |input| - i
  {
    if i < |input| && InClass(k, input[i]) then RunEnd(input, i + 1, k) else i
  }

  /** Every character of the run is of class k. */
  lemma {:induction false} RunIsInClass(input: seq<char>, i: nat, k: CharClass, j: nat)
    requires i <= j < RunEnd(input, i, k)
    ensures j < |input| && InClass(k, input[j])
    decreases |input| - i
  {
    if i < j {
      RunIsInClass(input, i + 1, k, j);
    }
  }

  /** Conversely, a run of class-k characters from i that is followed by another character or the end is the run at i. */
  lemma {:induction false} RunEndOf(input: seq<char>, i: nat, k: CharClass, e: nat)
    requires i <= e <= |input|
    requires forall j :: i <= j < e ==> InClass(k, input[j])
    requires e == |input| || !InClass(k, input[e])
    ensures RunEnd(input, i, k) == e
    decreases e - i
  {
    if i < e {
      RunEndOf(input, i + 1, k, e);
    }
  }

  /** The lexer's mutable fields `position`, `read_position` and `ch`, as a value. */
  datatype Cursor = Cursor(position: nat, readPosition: nat, ch: char)

  /** The cursor `Lexer::new` creates: nothing read yet, `ch` is the sentinel. */
  const Start: Cursor := Cursor(0, 0, NUL)

  /** The cursor after `read_char` has moved onto index p. */
  function Settle(input: seq<char>, p: nat): (c: Cursor)
    ensures c.readPosition == c.position + 1 && c.position == p
    ensures c.ch == CharAt(input, p)
  {
    Cursor(p, p + 1, CharAt(input, p))
  }

  /**
   * The lexer invariant: either nothing has been read yet, or
   * `read_position == position + 1` and `ch` is the character at `position`
   * (the sentinel past the end).
   */
  predicate WellFormed(input: seq<char>, c: Cursor)
  {
    c == Start || c == Settle(input, c.position)
  }

  /** What `skip_whitespace` leaves: the cursor on the first non-blank at or after it. */
  function SkipBlanks(input: seq<char>, c: Cursor): (d: Cursor)
    requires WellFormed(input, c)
    ensures WellFormed(input, d) && !IsBlank(d.ch)
    ensures c == Start ==> d == Start
    ensures c.position <= d.position
  {
    if c == Start then c else Settle(input, RunEnd(input, c.position, Blanks))
  }

  /** One call of `next_token`: a token and the new cursor, or the `unwrap` panic. */
  datatype Outcome = Emit(token: Token, next: Cursor) | Panics

  /** A token made of the current character alone; the cursor moves one place on. */
  function Single(input: seq<char>, t: Cursor, k: KeyWord): (o: Outcome)
  {
    Emit(Token(k, [t.ch]), Settle(input, t.readPosition))
  }

  /**
   * `=` and `!`: look at the character at `read_position` (panicking when there
   * is none); on a second `=` consume both characters.
   */
  function Lookahead(input: seq<char>, t: Cursor, one: KeyWord, two: KeyWord): (o: Outcome)
  {
    if t.readPosition >= |input| then Panics
    else if input[t.readPosition] == '=' then
      Emit(Token(two, [t.ch, input[t.readPosition]]), Settle(input, t.readPosition + 1))
    else
      Single(input, t, one)
  }

  /** The maximal run of class-k characters at t as a token; the cursor stops on the character after it. */
  function Run(input: seq<char>, t: Cursor, k: CharClass): (o: Outcome)
    requires t.position <= |input|
  {
    var e := RunEnd(input, t.position, k);
    var literal := input[t.position..e];
    Emit(Token(if k == Digits then INT else LookupToken(literal), literal), Settle(input, e))
  }

  /** The kind of the characters that form a token on their own, without lookahead. */
  function SingleKind(ch: char): (k: Option<KeyWord>)
  {
    match ch
    case '+' => Some(PLUS)
    case '-' => Some(MINUS)
    case '*' => Some(ASTERISK)
    case '/' => Some(SLASH)
    case '<' => Some(LT)
    case '>' => Some(GT)
    case ',' => Some(COMMA)
    case ';' => Some(SEMICOLON)
    case '(' => Some(LPAREN)
    case ')' => Some(RPAREN)
    case '{' => Some(LBRACE)
    case '}' => Some(RBRACE)
    case '\0' => Some(EOF)
    case _ => None
  }

  /** `Lexer::next_token` as a function of the input and the cursor. */
  function NextSpec(input: seq<char>, c: Cursor): (o: Outcome)
    requires WellFormed(input, c)
    ensures o.Emit? ==> o.next == Settle(input, o.next.position)
  {
    Classify(input, SkipBlanks(input, c))
  }

  /** The token at a cursor that `skip_whitespace` has left on a non-blank. */
  function Classify(input: seq<char>, t: Cursor): (o: Outcome)
    requires WellFormed(input, t)
    ensures o.Emit? ==> o.next == Settle(input, o.next.position)
  {
    if t.ch == '=' then Lookahead(input, t, ASSIGN, EQ)
    else if t.ch == '!' then Lookahead(input, t, BANG, NOT_EQ)
    else if SingleKind(t.ch).Some? then Single(input, t, SingleKind(t.ch).value)
    else if IsLetter(t.ch) then Run(input, t, Letters)
    else if IsDigit(t.ch) then Run(input, t, Digits)
    else Single(input, t, ILLEGAL)
  }

  /** The tokens n successive calls return, and the cursor they leave. */
  datatype Scanned = Scanned(tokens: seq<Token>, rest: Cursor)

  /** n successive calls of step from cursor c: the tokens and the cursor left, or None once a call panics. */
  function Iterate(step: Cursor -> Outcome, c: Cursor, n: nat): (r: Option<Scanned>)
    ensures r.Some? ==> |r.value.tokens| == n
    decreases n
  {
    if n == 0 then Some(Scanned([], c))
    else
      match step(c)
      case Panics => None
      case Emit(tok, d) =>
        match Iterate(step, d, n - 1)
        case None => None
        case Some(s) => Some(Scanned([tok] + s.tokens, s.rest))
  }

  /** One `next_token` call on input as a step function (cursors outside the invariant never arise). */
  function Step(input: seq<char>): Cursor -> Outcome
  {
    c => if WellFormed(input, c) then NextSpec(input, c) else Panics
  }

  /** n successive `next_token` calls from cursor c, or None if one of them panics. */
  function Scan(input: seq<char>, c: Cursor, n: nat): (r: Option<Scanned>)
    ensures r.Some? ==> |r.value.tokens| == n
  {
    Iterate(Step(input), c, n)
  }

  /** The source's `Lexer`: the input and the three cursor fields. */
  class Lexer {
    const input: seq<char>
    var position: nat
    var readPosition: nat
    var ch: char

    /** The cursor fields as a value. */
    function State(): Cursor
      reads this
    {
      Cursor(position, readPosition, ch)
    }

    ghost predicate Valid()
      reads this
    {
      WellFormed(input, State())
    }

    /**
     * `Lexer::new`. The input is ASCII: the source slices the input by byte
     * offsets computed as character counts, which agree only on ASCII text.
     */
    constructor (input: seq<char>)
      requires IsAscii(input)
      ensures this.input == input
      ensures Valid() && State() == Start
    {
      this.input := input;
      position := 0;
      readPosition := 0;
      ch := NUL;
    }

    /** `read_char`: move onto `read_position`, reading the sentinel past the end. */
    method ReadChar()
      modifies this
      ensures Valid()
      ensures State() == Settle(input, old(readPosition))
    {
      if readPosition >= |input| {
        ch := NUL;
      } else {
        ch := input[readPosition];
      }
      position := readPosition;
      readPosition := readPosition + 1;
    }

    /** `skip_whitespace`: advance while `ch` is a space, tab, newline or carriage return. */
    method SkipWhitespace()
      requires Valid()
      modifies this
      ensures Valid()
      ensures State() == SkipBlanks(input, old(State()))
    {
      while IsBlank(ch)
        invariant Valid()
        invariant old(State()) == Start ==> State() == Start
        invariant old(State()) != Start ==>
          State() != Start && RunEnd(input, old(position), Blanks) == RunEnd(input, position, Blanks)
        decreases |input| - position
      {
        ReadChar();
      }
    }

    /** `read_identifier`: consume the maximal run of letters and return it. */
    method ReadIdentifier() returns (literal: string)
      requires Valid() && IsLetter(ch)
      modifies this
      ensures Valid()
      ensures old(position) <= |input|
      ensures State() == Settle(input, RunEnd(input, old(position), Letters))
      ensures literal == input[old(position)..position]
    {
      var start := position;
      while IsLetter(ch)
        invariant Valid() && State() != Start
        invariant start <= position <= |input|
        invariant RunEnd(input, start, Letters) == RunEnd(input, position, Letters)
        decreases |input| - position
      {
        ReadChar();
      }
      literal := input[start..position];
    }

    /** `read_number`: consume the maximal run of ASCII digits and return it. */
    method ReadNumber() returns (literal: string)
      requires Valid() && IsDigit(ch)
      modifies this
      ensures Valid()
      ensures old(position) <= |input|
      ensures State() == Settle(input, RunEnd(input, old(position), Digits))
      ensures literal == input[old(position)..position]
    {
      var start := position;
      while IsDigit(ch)
        invariant Valid() && State() != Start
        invariant start <= position <= |input|
        invariant RunEnd(input, start, Digits) == RunEnd(input, position, Digits)
        decreases |input| - position
      {
        ReadChar();
      }
      literal := input[start..position];
    }

    /**
     * `next_token`. The caller must not reach the `unwrap` panic, which happens
     * when `=` or `!` is the last character of the input.
     */
    method NextToken() returns (tok: Token)
      requires Valid() && NextSpec(input, State()).Emit?
      modifies this
      ensures Valid()
      ensures NextSpec(input, old(State())) == Emit(tok, State())
    {
      SkipWhitespace();
      match ch {
        case '=' =>
          if input[readPosition] == '=' {
            var literal := [ch];
            ReadChar();
            literal := literal + [ch];
            tok := NewToken(EQ, literal);
          } else {
            tok := NewToken(ASSIGN, [ch]);
          }
        case '+' => tok := NewToken(PLUS, [ch]);
        case '-' => tok := NewToken(MINUS, [ch]);
        case '*' => tok := NewToken(ASTERISK, [ch]);
        case '/' => tok := NewToken(SLASH, [ch]);
        case '!' =>
          if input[readPosition] == '=' {
            var literal := [ch];
            ReadChar();
            literal := literal + [ch];
            tok := NewToken(NOT_EQ, literal);
          } else {
            tok := NewToken(BANG, [ch]);
          }
        case '<' => tok := NewToken(LT, [ch]);
        case '>' => tok := NewToken(GT, [ch]);
        case ',' => tok := NewToken(COMMA, [ch]);
        case ';' => tok := NewToken(SEMICOLON, [ch]);
        case '(' => tok := NewToken(LPAREN, [ch]);
        case ')' => tok := NewToken(RPAREN, [ch]);
        case '{' => tok := NewToken(LBRACE, [ch]);
        case '}' => tok := NewToken(RBRACE, [ch]);
        case '\0' => tok := NewToken(EOF, [ch]);
        case _ =>
          if IsLetter(ch) {
            var literal := ReadIdentifier();
            var tokenType := LookupToken(literal);
            return NewToken(tokenType, literal);
          } else if IsDigit(ch) {
            var literal := ReadNumber();
            return NewToken(INT, literal);
          } else {
            tok := NewToken(ILLEGAL, [ch]);
          }
      }
      ReadChar();
    }
  }
}
