/**
 * The token vocabulary of the lexer: the closed set of token kinds, the token
 * record, and the reserved-word lookup (src/lexer/token.rs).
 */
module Tokens {
  import opened Wrappers

  /** The kinds of tokens, in the order the source declares them. */
  datatype KeyWord =
    | ILLEGAL | EOF | IDENT | INT
    | PLUS | MINUS | ASTERISK | SLASH | ASSIGN | BANG
    | LT | GT
    | EQ | NOT_EQ
    | COMMA | SEMICOLON
    | LPAREN | RPAREN | LBRACE | RBRACE
    | FUNCTION | LET | TRUE | FALSE | IF | ELSE | RETURN

  /** A token: its kind and the text that produced it. Equality is structural. */
  datatype Token = Token(tokenType: KeyWord, literal: string)

  /** The seven reserved words of the language. */
  predicate IsReservedWord(s: string)
  {
    s == "fn" || s == "let" || s == "true" || s == "false" || s == "if" || s == "else" || s == "return"
  }

  /** The kinds reserved words map to. */
  predicate IsKeywordKind(k: KeyWord)
  {
    k == FUNCTION || k == LET || k == TRUE || k == FALSE || k == IF || k == ELSE || k == RETURN
  }

  /** `Token::new`: stores the kind and the literal unchanged. */
  function NewToken(tokenType: KeyWord, literal: string): (t: Token)
    ensures t.tokenType == tokenType && t.literal == literal
  {
    Token(tokenType, literal)
  }

  /** `Token::lookup_token`: the kind of an identifier-shaped word. */
  function LookupToken(literal: string): (k: KeyWord)
    ensures k == IDENT || IsKeywordKind(k)
    ensures IsKeywordKind(k) <==> IsReservedWord(literal)
  {
    match literal
    case "fn" => FUNCTION
    case "let" => LET
    case "true" => TRUE
    case "false" => FALSE
    case "if" => IF
    case "else" => ELSE
    case "return" => RETURN
    case _ => IDENT
  }

  /** The reserved word of a keyword kind; the inverse of LookupToken on reserved words. */
  function KeywordText(k: KeyWord): (r: Option<string>)
    ensures r.Some? <==> IsKeywordKind(k)
    ensures r.Some? ==> IsReservedWord(r.value)
  {
    match k
    case FUNCTION => Some("fn")
    case LET => Some("let")
    case TRUE => Some("true")
    case FALSE => Some("false")
    case IF => Some("if")
    case ELSE => Some("else")
    case RETURN => Some("return")
    case _ => None
  }

  /** Each reserved word maps to its own kind. */
  lemma LookupReservedWords()
    ensures LookupToken("fn") == FUNCTION && LookupToken("let") == LET
    ensures LookupToken("true") == TRUE && LookupToken("false") == FALSE
    ensures LookupToken("if") == IF && LookupToken("else") == ELSE
    ensures LookupToken("return") == RETURN
  {
  }

  /** Every other word, the empty one included, is an identifier. */
  lemma LookupOtherWords(s: string)
    requires !IsReservedWord(s)
    ensures LookupToken(s) == IDENT
  {
  }

  /** LookupToken never yields a sentinel, literal, operator or punctuation kind. */
  lemma LookupRange(s: string)
    ensures LookupToken(s) !in {ILLEGAL, EOF, INT, PLUS, MINUS, ASTERISK, SLASH, ASSIGN, BANG,
                                LT, GT, EQ, NOT_EQ, COMMA, SEMICOLON, LPAREN, RPAREN, LBRACE, RBRACE}
  {
  }

  /** The reserved-word mapping is injective and inverted by KeywordText. */
  lemma LookupInjective(a: string, b: string)
    requires IsReservedWord(a) && IsReservedWord(b)
    ensures LookupToken(a) == LookupToken(b) <==> a == b
    ensures KeywordText(LookupToken(a)) == Some(a)
  {
  }

  /** Reading a keyword kind back through LookupToken gives the kind again. */
  lemma KeywordRoundTrip(k: KeyWord)
    requires IsKeywordKind(k)
    ensures LookupToken(KeywordText(k).value) == k
  {
  }

  /** Two tokens are equal exactly when their kinds and their literals are. */
  lemma TokenEquality(a: Token, b: Token)
    ensures a == b <==> a.tokenType == b.tokenType && a.literal == b.literal
  {
  }
}
