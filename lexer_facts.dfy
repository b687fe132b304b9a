/** Properties of one and of many `next_token` calls, stated over NextSpec. */
module LexerFacts {
  import opened Wrappers
  import opened Tokens
  import opened Lexing

  predicate NoNul(input: seq<char>)
  {
    forall i :: 0 <= i < |input| ==> input[i] != NUL
  }

  /** n copies of one token. */
  function Repeat(tok: Token, n: nat): (r: seq<Token>)
    ensures |r| == n && forall i :: 0 <= i < n ==> r[i] == tok
  {
    if n == 0 then [] else [tok] + Repeat(tok, n - 1)
  }

  /** The first call on a fresh lexer returns EOF and only then loads `input[0]`. */
  lemma FirstTokenIsEof(input: seq<char>)
    ensures NextSpec(input, Start) == Emit(Token(EOF, "\0"), Settle(input, 0))
    ensures |input| > 0 ==> Settle(input, 0).ch == input[0]
    ensures |input| == 0 ==> Settle(input, 0).ch == NUL
  {
  }

  /** A started lexer that reads the sentinel from an input without NUL characters is past its end. */
  lemma SentinelMeansEnd(input: seq<char>, c: Cursor)
    requires WellFormed(input, c) && c != Start && c.ch == NUL && NoNul(input)
    ensures c.position >= |input|
  {
  }

  /** Once past the end, every call returns EOF and the cursor stays past the end. */
  lemma EofIsSticky(input: seq<char>, c: Cursor)
    requires WellFormed(input, c) && c != Start && c.position >= |input|
    ensures c.ch == NUL
    ensures NextSpec(input, c) == Emit(Token(EOF, "\0"), Settle(input, c.position + 1))
    ensures Settle(input, c.position + 1).ch == NUL
  {
  }

  /** From there every later call returns EOF, however many calls are made. */
  lemma {:induction false} EofForever(input: seq<char>, c: Cursor, n: nat)
    requires WellFormed(input, c) && c != Start && c.position >= |input|
    ensures Scan(input, c, n) == Some(Scanned(Repeat(Token(EOF, "\0"), n), Settle(input, c.position + n)))
    decreases n
  {
    if n > 0 {
      EofIsSticky(input, c);
      EofForever(input, Settle(input, c.position + 1), n - 1);
    } else {
      assert c == Settle(input, c.position);
    }
  }

  /**
   * `=`: a panic when it is the last character; `==` as one EQ token that
   * consumes both characters; otherwise ASSIGN, consuming one.
   */
  lemma AssignOrEqual(input: seq<char>, c: Cursor)
    requires WellFormed(input, c)
    requires SkipBlanks(input, c).ch == '='
    ensures var t := SkipBlanks(input, c);
      && t.position < |input| && t.readPosition == t.position + 1
      && NextSpec(input, c) ==
        if t.readPosition >= |input| then Panics
        else if input[t.readPosition] == '=' then Emit(Token(EQ, "=="), Settle(input, t.position + 2))
        else Emit(Token(ASSIGN, "="), Settle(input, t.position + 1))
  {
  }

  /** `!`: the same lookahead, giving NOT_EQ for `!=` and BANG otherwise. */
  lemma BangOrNotEqual(input: seq<char>, c: Cursor)
    requires WellFormed(input, c)
    requires SkipBlanks(input, c).ch == '!'
    ensures var t := SkipBlanks(input, c);
      && t.position < |input| && t.readPosition == t.position + 1
      && NextSpec(input, c) ==
        if t.readPosition >= |input| then Panics
        else if input[t.readPosition] == '=' then Emit(Token(NOT_EQ, "!="), Settle(input, t.position + 2))
        else Emit(Token(BANG, "!"), Settle(input, t.position + 1))
  {
  }

  /** `next_token` panics exactly when the token starts with `=` or `!` at the last index. */
  lemma PanicsExactly(input: seq<char>, c: Cursor)
    requires WellFormed(input, c)
    ensures var t := SkipBlanks(input, c);
      NextSpec(input, c).Panics? <==> (t.ch == '=' || t.ch == '!') && t.position == |input| - 1
  {
  }

  /**
   * An identifier is the maximal run of letters where the token starts; its
   * kind is the reserved-word lookup of that run, and the cursor stops on the
   * first non-letter without consuming it.
   */
  lemma IdentifierToken(input: seq<char>, c: Cursor)
    requires WellFormed(input, c)
    requires IsLetter(SkipBlanks(input, c).ch)
    ensures var t := SkipBlanks(input, c);
      var o := NextSpec(input, c);
      && o.Emit?
      && t.position < o.next.position <= |input|
      && o.token.literal == input[t.position..o.next.position]
      && (forall j :: t.position <= j < o.next.position ==> IsLetter(input[j]))
      && !IsLetter(o.next.ch)
      && o.token.tokenType == LookupToken(o.token.literal)
  {
    var t := SkipBlanks(input, c);
    forall j | t.position <= j < RunEnd(input, t.position, Letters)
      ensures j < |input| && InClass(Letters, input[j])
    {
      RunIsInClass(input, t.position, Letters, j);
    }
  }

  /** A number is the maximal run of ASCII digits, of kind INT. */
  lemma NumberToken(input: seq<char>, c: Cursor)
    requires WellFormed(input, c)
    requires IsDigit(SkipBlanks(input, c).ch)
    ensures var t := SkipBlanks(input, c);
      var o := NextSpec(input, c);
      && o.Emit?
      && t.position < o.next.position <= |input|
      && o.token.literal == input[t.position..o.next.position]
      && (forall j :: t.position <= j < o.next.position ==> IsDigit(input[j]))
      && !IsDigit(o.next.ch)
      && o.token.tokenType == INT
  {
    var t := SkipBlanks(input, c);
    forall j | t.position <= j < RunEnd(input, t.position, Digits)
      ensures j < |input| && InClass(Digits, input[j])
    {
      RunIsInClass(input, t.position, Digits, j);
    }
  }

  /** The characters the lexer recognises on their own (besides letters and digits). */
  predicate IsOperatorOrPunctuation(ch: char)
  {
    ch in "=!+-*/<>,;(){}"
  }

  /** Any other character is an ILLEGAL token of that one character, and the cursor moves one place. */
  lemma IllegalToken(input: seq<char>, c: Cursor)
    requires WellFormed(input, c)
    requires var ch := SkipBlanks(input, c).ch;
      !IsOperatorOrPunctuation(ch) && ch != NUL && !IsLetter(ch) && !IsDigit(ch)
    ensures var t := SkipBlanks(input, c);
      NextSpec(input, c) == Emit(Token(ILLEGAL, [t.ch]), Settle(input, t.position + 1))
  {
  }

  /** No token begins with a blank, and everything skipped before it is blank. */
  lemma NoTokenStartsAtBlank(input: seq<char>, c: Cursor)
    requires WellFormed(input, c)
    requires NextSpec(input, c).Emit?
    ensures var tok := NextSpec(input, c).token;
      |tok.literal| > 0 && !IsBlank(tok.literal[0]) && tok.literal[0] == SkipBlanks(input, c).ch
    ensures var t := SkipBlanks(input, c);
      forall j :: c.position <= j < t.position ==> IsBlank(input[j])
  {
    if c != Start {
      forall j | c.position <= j < SkipBlanks(input, c).position
        ensures j < |input| && IsBlank(input[j])
      {
        RunIsInClass(input, c.position, Blanks, j);
      }
    }
  }

  /**
   * Literal preservation: once the lexer has started, every token read from
   * inside the input carries exactly the characters it consumed.
   */
  lemma LiteralIsConsumedText(input: seq<char>, c: Cursor)
    requires WellFormed(input, c) && c != Start
    requires NextSpec(input, c).Emit?
    requires SkipBlanks(input, c).position < |input|
    ensures var t := SkipBlanks(input, c);
      var o := NextSpec(input, c);
      && t.position < o.next.position <= |input|
      && o.token.literal == input[t.position..o.next.position]
  {
  }

  /** Every call moves `read_position` forward, so the stream is consumed left to right. */
  lemma Progress(input: seq<char>, c: Cursor)
    requires WellFormed(input, c)
    requires NextSpec(input, c).Emit?
    ensures c.readPosition < NextSpec(input, c).next.readPosition
  {
  }

}
