/**
 * The scenario test `lexer_test` of lexer.rs: the program text it scans, the
 * tokens it expects, and a proof that `next_token` returns exactly those
 * tokens. Each source line of the text is cut into pieces, each some blanks
 * followed by one token (two where the first is a lone `=` or `!`, whose
 * lookahead needs the next character). Each piece is read on its own, and
 * the pieces are joined with PiecesConcat and ScanConcat.
 */
module LexerScenario {
  import opened Wrappers
  import opened Tokens
  import opened Lexing
  import opened LexerFacts
  import opened LexerLocality

  /** The lines of the program text of `lexer_test`, each a sequence of pieces, with each piece's tokens. */
  const Line0: seq<string> := ["let", " five", " = 5", ";"]
  const Line0Tokens: seq<seq<Token>> := [[Token(LET, "let")], [Token(IDENT, "five")], [Token(ASSIGN, "="), Token(INT, "5")], [Token(SEMICOLON, ";")]]

  const Line1: seq<string> := ["\n    let", " ten", " = 10", ";"]
  const Line1Tokens: seq<seq<Token>> := [[Token(LET, "let")], [Token(IDENT, "ten")], [Token(ASSIGN, "="), Token(INT, "10")], [Token(SEMICOLON, ";")]]

  const Line2: seq<string> := ["\n    let", " add", " = fn", " (", "x", ",", " y", ")", " {"]
  const Line2Tokens: seq<seq<Token>> := [[Token(LET, "let")], [Token(IDENT, "add")], [Token(ASSIGN, "="), Token(FUNCTION, "fn")], [Token(LPAREN, "(")], [Token(IDENT, "x")], [Token(COMMA, ",")], [Token(IDENT, "y")], [Token(RPAREN, ")")], [Token(LBRACE, "{")]]

  const Line3: seq<string> := ["\n        x", " +", " y", ";"]
  const Line3Tokens: seq<seq<Token>> := [[Token(IDENT, "x")], [Token(PLUS, "+")], [Token(IDENT, "y")], [Token(SEMICOLON, ";")]]

  const Line4: seq<string> := ["\n    }", ";"]
  const Line4Tokens: seq<seq<Token>> := [[Token(RBRACE, "}")], [Token(SEMICOLON, ";")]]

  const Line5: seq<string> := ["\n    \n    let", " result", " = add", "(", "five", ",", " ten", ")", ";"]
  const Line5Tokens: seq<seq<Token>> := [[Token(LET, "let")], [Token(IDENT, "result")], [Token(ASSIGN, "="), Token(IDENT, "add")], [Token(LPAREN, "(")], [Token(IDENT, "five")], [Token(COMMA, ",")], [Token(IDENT, "ten")], [Token(RPAREN, ")")], [Token(SEMICOLON, ";")]]

  const Line6: seq<string> := ["\n    !-", "/", "*", "5", ";"]
  const Line6Tokens: seq<seq<Token>> := [[Token(BANG, "!"), Token(MINUS, "-")], [Token(SLASH, "/")], [Token(ASTERISK, "*")], [Token(INT, "5")], [Token(SEMICOLON, ";")]]

  const Line7: seq<string> := ["\n    5", " <", " 10", " >", " 5", ";"]
  const Line7Tokens: seq<seq<Token>> := [[Token(INT, "5")], [Token(LT, "<")], [Token(INT, "10")], [Token(GT, ">")], [Token(INT, "5")], [Token(SEMICOLON, ";")]]

  const Line8: seq<string> := ["\n    \n    if", " (", "5", " <", " 10", ")", " {"]
  const Line8Tokens: seq<seq<Token>> := [[Token(IF, "if")], [Token(LPAREN, "(")], [Token(INT, "5")], [Token(LT, "<")], [Token(INT, "10")], [Token(RPAREN, ")")], [Token(LBRACE, "{")]]

  const Line9: seq<string> := ["\n        return", " true", ";"]
  const Line9Tokens: seq<seq<Token>> := [[Token(RETURN, "return")], [Token(TRUE, "true")], [Token(SEMICOLON, ";")]]

  const Line10: seq<string> := ["\n    }", " else", " {"]
  const Line10Tokens: seq<seq<Token>> := [[Token(RBRACE, "}")], [Token(ELSE, "else")], [Token(LBRACE, "{")]]

  const Line11: seq<string> := ["\n        return", " false", ";"]
  const Line11Tokens: seq<seq<Token>> := [[Token(RETURN, "return")], [Token(FALSE, "false")], [Token(SEMICOLON, ";")]]

  const Line12: seq<string> := ["\n    }"]
  const Line12Tokens: seq<seq<Token>> := [[Token(RBRACE, "}")]]

  const Line13: seq<string> := ["\n    \n    10", " ==", " 10", ";"]
  const Line13Tokens: seq<seq<Token>> := [[Token(INT, "10")], [Token(EQ, "==")], [Token(INT, "10")], [Token(SEMICOLON, ";")]]

  const Line14: seq<string> := ["\n    10", " !=", " 9", ";"]
  const Line14Tokens: seq<seq<Token>> := [[Token(INT, "10")], [Token(NOT_EQ, "!=")], [Token(INT, "9")], [Token(SEMICOLON, ";")]]

  const TestLines: seq<seq<string>> := [Line0, Line1, Line2, Line3, Line4, Line5, Line6, Line7, Line8, Line9, Line10, Line11, Line12, Line13, Line14]
  const TestLineTokens: seq<seq<seq<Token>>> := [Line0Tokens, Line1Tokens, Line2Tokens, Line3Tokens, Line4Tokens, Line5Tokens, Line6Tokens, Line7Tokens, Line8Tokens, Line9Tokens, Line10Tokens, Line11Tokens, Line12Tokens, Line13Tokens, Line14Tokens]

  /** The program text `lexer_test` scans. */
  const TestInput: string := Concat(Concat(TestLines))

  /** The tokens `lexer_test` expects after the initial EOF it discards, ending in EOF. */
  const TestTokens: seq<Token> := Concat(Concat(TestLineTokens)) + [Token(EOF, "\0")]

  /** One more `next_token` call in front of n calls. */
  lemma ScanCons(input: seq<char>, c: Cursor, tok: Token, d: Cursor, n: nat, s: Scanned)
    requires WellFormed(input, c) && NextSpec(input, c) == Emit(tok, d)
    requires Scan(input, d, n) == Some(s)
    ensures Scan(input, c, n + 1) == Some(Scanned([tok] + s.tokens, s.rest))
  {
    assert Step(input)(c) == NextSpec(input, c);
    IterateCons(Step(input), c, tok, d, n, s);
  }

  /** Calls that each read ts[j] from index ps[j] to index ps[j + 1] read ts from ps[0]. */
  lemma {:induction false} ScanSteps(input: seq<char>, ps: seq<nat>, ts: seq<Token>)
    requires |ps| == |ts| + 1
    requires forall j :: 0 <= j < |ts| ==> NextSpec(input, Settle(input, ps[j])) == Emit(ts[j], Settle(input, ps[j + 1]))
    ensures Scan(input, Settle(input, ps[0]), |ts|) == Some(Scanned(ts, Settle(input, ps[|ts|])))
    decreases |ts|
  {
    if ts != [] {
      assert NextSpec(input, Settle(input, ps[0])) == Emit(ts[0], Settle(input, ps[1]));
      ScanSteps(input, ps[1..], ts[1..]);
      ScanCons(input, Settle(input, ps[0]), ts[0], Settle(input, ps[1]), |ts| - 1, Scanned(ts[1..], Settle(input, ps[|ts|])));
      assert [ts[0]] + ts[1..] == ts;
    }
  }

  /** In "AB" the letter run is "A" alone, because `is_letter` rejects 'B'. */
  lemma CapitalATokens()
    ensures NextSpec("AB", Settle("AB", 0)) == Emit(Token(IDENT, "A"), Settle("AB", 1))
    ensures NextSpec("AB", Settle("AB", 1)) == Emit(Token(ILLEGAL, "B"), Settle("AB", 2))
  {
    RunEndOf("AB", 0, Letters, 1);
  }

  /** Of the upper-case letters only 'A' starts an identifier: "AB" is IDENT "A", then ILLEGAL "B". */
  lemma OnlyCapitalA(w: string, ts: seq<Token>)
    requires w == "AB" && ts == [Token(IDENT, "A"), Token(ILLEGAL, "B")]
    ensures Scan(w, Settle(w, 0), 2) == Some(Scanned(ts, Settle(w, 2)))
  {
    CapitalATokens();
    ScanSteps("AB", [0, 1, 2], [Token(IDENT, "A"), Token(ILLEGAL, "B")]);
  }

  lemma TokensOfPiece0()
    ensures NextSpec("let", Settle("let", 0)) == Emit(Token(LET, "let"), Settle("let", 3))
  {
    RunEndOf("let", 0, Letters, 3);
  }

  lemma Piece0(w: string, ts: seq<Token>)
    requires w == "let" && ts == [Token(LET, "let")]
    ensures ScansTo(w, ts)
  {
    TokensOfPiece0();
    ScanSteps("let", [0, 3], [Token(LET, "let")]);
  }

  lemma TokensOfPiece1()
    ensures NextSpec(" five", Settle(" five", 0)) == Emit(Token(IDENT, "five"), Settle(" five", 5))
  {
    RunEndOf(" five", 0, Blanks, 1);
    assert SkipBlanks(" five", Settle(" five", 0)) == Settle(" five", 1);
    RunEndOf(" five", 1, Letters, 5);
  }

  lemma Piece1(w: string, ts: seq<Token>)
    requires w == " five" && ts == [Token(IDENT, "five")]
    ensures ScansTo(w, ts)
  {
    TokensOfPiece1();
    ScanSteps(" five", [0, 5], [Token(IDENT, "five")]);
  }

  lemma TokensOfPiece2Part0()
    ensures NextSpec(" = 5", Settle(" = 5", 0)) == Emit(Token(ASSIGN, "="), Settle(" = 5", 2))
  {
    RunEndOf(" = 5", 0, Blanks, 1);
    assert SkipBlanks(" = 5", Settle(" = 5", 0)) == Settle(" = 5", 1);
  }

  lemma TokensOfPiece2Part1()
    ensures NextSpec(" = 5", Settle(" = 5", 2)) == Emit(Token(INT, "5"), Settle(" = 5", 4))
  {
    RunEndOf(" = 5", 2, Blanks, 3);
    assert SkipBlanks(" = 5", Settle(" = 5", 2)) == Settle(" = 5", 3);
    RunEndOf(" = 5", 3, Digits, 4);
  }

  lemma Piece2(w: string, ts: seq<Token>)
    requires w == " = 5" && ts == [Token(ASSIGN, "="), Token(INT, "5")]
    ensures ScansTo(w, ts)
  {
    TokensOfPiece2Part0();
    TokensOfPiece2Part1();
    ScanSteps(" = 5", [0, 2, 4], [Token(ASSIGN, "="), Token(INT, "5")]);
  }

  lemma TokensOfPiece3()
    ensures NextSpec(";", Settle(";", 0)) == Emit(Token(SEMICOLON, ";"), Settle(";", 1))
  {

  }

  lemma Piece3(w: string, ts: seq<Token>)
    requires w == ";" && ts == [Token(SEMICOLON, ";")]
    ensures ScansTo(w, ts)
  {
    TokensOfPiece3();
    ScanSteps(";", [0, 1], [Token(SEMICOLON, ";")]);
  }

  lemma TokensOfPiece4()
    ensures NextSpec("\n    let", Settle("\n    let", 0)) == Emit(Token(LET, "let"), Settle("\n    let", 8))
  {
    RunEndOf("\n    let", 0, Blanks, 5);
    assert SkipBlanks("\n    let", Settle("\n    let", 0)) == Settle("\n    let", 5);
    RunEndOf("\n    let", 5, Letters, 8);
  }

  lemma Piece4(w: string, ts: seq<Token>)
    requires w == "\n    let" && ts == [Token(LET, "let")]
    ensures ScansTo(w, ts)
  {
    TokensOfPiece4();
    ScanSteps("\n    let", [0, 8], [Token(LET, "let")]);
  }

  lemma TokensOfPiece5()
    ensures NextSpec(" ten", Settle(" ten", 0)) == Emit(Token(IDENT, "ten"), Settle(" ten", 4))
  {
    RunEndOf(" ten", 0, Blanks, 1);
    assert SkipBlanks(" ten", Settle(" ten", 0)) == Settle(" ten", 1);
    RunEndOf(" ten", 1, Letters, 4);
  }

  lemma Piece5(w: string, ts: seq<Token>)
    requires w == " ten" && ts == [Token(IDENT, "ten")]
    ensures ScansTo(w, ts)
  {
    TokensOfPiece5();
    ScanSteps(" ten", [0, 4], [Token(IDENT, "ten")]);
  }

  lemma TokensOfPiece6Part0()
    ensures NextSpec(" = 10", Settle(" = 10", 0)) == Emit(Token(ASSIGN, "="), Settle(" = 10", 2))
  {
    RunEndOf(" = 10", 0, Blanks, 1);
    assert SkipBlanks(" = 10", Settle(" = 10", 0)) == Settle(" = 10", 1);
  }

  lemma TokensOfPiece6Part1()
    ensures NextSpec(" = 10", Settle(" = 10", 2)) == Emit(Token(INT, "10"), Settle(" = 10", 5))
  {
    RunEndOf(" = 10", 2, Blanks, 3);
    assert SkipBlanks(" = 10", Settle(" = 10", 2)) == Settle(" = 10", 3);
    RunEndOf(" = 10", 3, Digits, 5);
  }

  lemma Piece6(w: string, ts: seq<Token>)
    requires w == " = 10" && ts == [Token(ASSIGN, "="), Token(INT, "10")]
    ensures ScansTo(w, ts)
  {
    TokensOfPiece6Part0();
    TokensOfPiece6Part1();
    ScanSteps(" = 10", [0, 2, 5], [Token(ASSIGN, "="), Token(INT, "10")]);
  }

  lemma TokensOfPiece7()
    ensures NextSpec(" add", Settle(" add", 0)) == Emit(Token(IDENT, "add"), Settle(" add", 4))
  {
    RunEndOf(" add", 0, Blanks, 1);
    assert SkipBlanks(" add", Settle(" add", 0)) == Settle(" add", 1);
    RunEndOf(" add", 1, Letters, 4);
  }

  lemma Piece7(w: string, ts: seq<Token>)
    requires w == " add" && ts == [Token(IDENT, "add")]
    ensures ScansTo(w, ts)
  {
    TokensOfPiece7();
    ScanSteps(" add", [0, 4], [Token(IDENT, "add")]);
  }

  lemma TokensOfPiece8Part0()
    ensures NextSpec(" = fn", Settle(" = fn", 0)) == Emit(Token(ASSIGN, "="), Settle(" = fn", 2))
  {
    RunEndOf(" = fn", 0, Blanks, 1);
    assert SkipBlanks(" = fn", Settle(" = fn", 0)) == Settle(" = fn", 1);
  }

  lemma TokensOfPiece8Part1()
    ensures NextSpec(" = fn", Settle(" = fn", 2)) == Emit(Token(FUNCTION, "fn"), Settle(" = fn", 5))
  {
    RunEndOf(" = fn", 2, Blanks, 3);
    assert SkipBlanks(" = fn", Settle(" = fn", 2)) == Settle(" = fn", 3);
    RunEndOf(" = fn", 3, Letters, 5);
  }

  lemma Piece8(w: string, ts: seq<Token>)
    requires w == " = fn" && ts == [Token(ASSIGN, "="), Token(FUNCTION, "fn")]
    ensures ScansTo(w, ts)
  {
    TokensOfPiece8Part0();
    TokensOfPiece8Part1();
    ScanSteps(" = fn", [0, 2, 5], [Token(ASSIGN, "="), Token(FUNCTION, "fn")]);
  }

  lemma TokensOfPiece9()
    ensures NextSpec(" (", Settle(" (", 0)) == Emit(Token(LPAREN, "("), Settle(" (", 2))
  {
    RunEndOf(" (", 0, Blanks, 1);
    assert SkipBlanks(" (", Settle(" (", 0)) == Settle(" (", 1);
  }

  lemma Piece9(w: string, ts: seq<Token>)
    requires w == " (" && ts == [Token(LPAREN, "(")]
    ensures ScansTo(w, ts)
  {
    TokensOfPiece9();
    ScanSteps(" (", [0, 2], [Token(LPAREN, "(")]);
  }

  lemma TokensOfPiece10()
    ensures NextSpec("x", Settle("x", 0)) == Emit(Token(IDENT, "x"), Settle("x", 1))
  {
    RunEndOf("x", 0, Letters, 1);
  }

  lemma Piece10(w: string, ts: seq<Token>)
    requires w == "x" && ts == [Token(IDENT, "x")]
    ensures ScansTo(w, ts)
  {
    TokensOfPiece10();
    ScanSteps("x", [0, 1], [Token(IDENT, "x")]);
  }

  lemma TokensOfPiece11()
    ensures NextSpec(",", Settle(",", 0)) == Emit(Token(COMMA, ","), Settle(",", 1))
  {

  }

  lemma Piece11(w: string, ts: seq<Token>)
    requires w == "," && ts == [Token(COMMA, ",")]
    ensures ScansTo(w, ts)
  {
    TokensOfPiece11();
    ScanSteps(",", [0, 1], [Token(COMMA, ",")]);
  }

  lemma TokensOfPiece12()
    ensures NextSpec(" y", Settle(" y", 0)) == Emit(Token(IDENT, "y"), Settle(" y", 2))
  {
    RunEndOf(" y", 0, Blanks, 1);
    assert SkipBlanks(" y", Settle(" y", 0)) == Settle(" y", 1);
    RunEndOf(" y", 1, Letters, 2);
  }

  lemma Piece12(w: string, ts: seq<Token>)
    requires w == " y" && ts == [Token(IDENT, "y")]
    ensures ScansTo(w, ts)
  {
    TokensOfPiece12();
    ScanSteps(" y", [0, 2], [Token(IDENT, "y")]);
  }

  lemma TokensOfPiece13()
    ensures NextSpec(")", Settle(")", 0)) == Emit(Token(RPAREN, ")"), Settle(")", 1))
  {

  }

  lemma Piece13(w: string, ts: seq<Token>)
    requires w == ")" && ts == [Token(RPAREN, ")")]
    ensures ScansTo(w, ts)
  {
    TokensOfPiece13();
    ScanSteps(")", [0, 1], [Token(RPAREN, ")")]);
  }

  lemma TokensOfPiece14()
    ensures NextSpec(" {", Settle(" {", 0)) == Emit(Token(LBRACE, "{"), Settle(" {", 2))
  {
    RunEndOf(" {", 0, Blanks, 1);
    assert SkipBlanks(" {", Settle(" {", 0)) == Settle(" {", 1);
  }

  lemma Piece14(w: string, ts: seq<Token>)
    requires w == " {" && ts == [Token(LBRACE, "{")]
    ensures ScansTo(w, ts)
  {
    TokensOfPiece14();
    ScanSteps(" {", [0, 2], [Token(LBRACE, "{")]);
  }

  lemma TokensOfPiece15()
    ensures NextSpec("\n        x", Settle("\n        x", 0)) == Emit(Token(IDENT, "x"), Settle("\n        x", 10))
  {
    RunEndOf("\n        x", 0, Blanks, 9);
    assert SkipBlanks("\n        x", Settle("\n        x", 0)) == Settle("\n        x", 9);
    RunEndOf("\n        x", 9, Letters, 10);
  }

  lemma Piece15(w: string, ts: seq<Token>)
    requires w == "\n        x" && ts == [Token(IDENT, "x")]
    ensures ScansTo(w, ts)
  {
    TokensOfPiece15();
    ScanSteps("\n        x", [0, 10], [Token(IDENT, "x")]);
  }

  lemma TokensOfPiece16()
    ensures NextSpec(" +", Settle(" +", 0)) == Emit(Token(PLUS, "+"), Settle(" +", 2))
  {
    RunEndOf(" +", 0, Blanks, 1);
    assert SkipBlanks(" +", Settle(" +", 0)) == Settle(" +", 1);
  }

  lemma Piece16(w: string, ts: seq<Token>)
    requires w == " +" && ts == [Token(PLUS, "+")]
    ensures ScansTo(w, ts)
  {
    TokensOfPiece16();
    ScanSteps(" +", [0, 2], [Token(PLUS, "+")]);
  }

  lemma TokensOfPiece17()
    ensures NextSpec("\n    }", Settle("\n    }", 0)) == Emit(Token(RBRACE, "}"), Settle("\n    }", 6))
  {
    RunEndOf("\n    }", 0, Blanks, 5);
    assert SkipBlanks("\n    }", Settle("\n    }", 0)) == Settle("\n    }", 5);
  }

  lemma Piece17(w: string, ts: seq<Token>)
    requires w == "\n    }" && ts == [Token(RBRACE, "}")]
    ensures ScansTo(w, ts)
  {
    TokensOfPiece17();
    ScanSteps("\n    }", [0, 6], [Token(RBRACE, "}")]);
  }

  lemma TokensOfPiece18()
    ensures NextSpec("\n    \n    let", Settle("\n    \n    let", 0)) == Emit(Token(LET, "let"), Settle("\n    \n    let", 13))
  {
    RunEndOf("\n    \n    let", 0, Blanks, 10);
    assert SkipBlanks("\n    \n    let", Settle("\n    \n    let", 0)) == Settle("\n    \n    let", 10);
    RunEndOf("\n    \n    let", 10, Letters, 13);
  }

  lemma Piece18(w: string, ts: seq<Token>)
    requires w == "\n    \n    let" && ts == [Token(LET, "let")]
    ensures ScansTo(w, ts)
  {
    TokensOfPiece18();
    ScanSteps("\n    \n    let", [0, 13], [Token(LET, "let")]);
  }

  lemma TokensOfPiece19()
    ensures NextSpec(" result", Settle(" result", 0)) == Emit(Token(IDENT, "result"), Settle(" result", 7))
  {
    RunEndOf(" result", 0, Blanks, 1);
    assert SkipBlanks(" result", Settle(" result", 0)) == Settle(" result", 1);
    RunEndOf(" result", 1, Letters, 7);
  }

  lemma Piece19(w: string, ts: seq<Token>)
    requires w == " result" && ts == [Token(IDENT, "result")]
    ensures ScansTo(w, ts)
  {
    TokensOfPiece19();
    ScanSteps(" result", [0, 7], [Token(IDENT, "result")]);
  }

  lemma TokensOfPiece20Part0()
    ensures NextSpec(" = add", Settle(" = add", 0)) == Emit(Token(ASSIGN, "="), Settle(" = add", 2))
  {
    RunEndOf(" = add", 0, Blanks, 1);
    assert SkipBlanks(" = add", Settle(" = add", 0)) == Settle(" = add", 1);
  }

  lemma TokensOfPiece20Part1()
    ensures NextSpec(" = add", Settle(" = add", 2)) == Emit(Token(IDENT, "add"), Settle(" = add", 6))
  {
    RunEndOf(" = add", 2, Blanks, 3);
    assert SkipBlanks(" = add", Settle(" = add", 2)) == Settle(" = add", 3);
    RunEndOf(" = add", 3, Letters, 6);
  }

  lemma Piece20(w: string, ts: seq<Token>)
    requires w == " = add" && ts == [Token(ASSIGN, "="), Token(IDENT, "add")]
    ensures ScansTo(w, ts)
  {
    TokensOfPiece20Part0();
    TokensOfPiece20Part1();
    ScanSteps(" = add", [0, 2, 6], [Token(ASSIGN, "="), Token(IDENT, "add")]);
  }

  lemma TokensOfPiece21()
    ensures NextSpec("(", Settle("(", 0)) == Emit(Token(LPAREN, "("), Settle("(", 1))
  {

  }

  lemma Piece21(w: string, ts: seq<Token>)
    requires w == "(" && ts == [Token(LPAREN, "(")]
    ensures ScansTo(w, ts)
  {
    TokensOfPiece21();
    ScanSteps("(", [0, 1], [Token(LPAREN, "(")]);
  }

  lemma TokensOfPiece22()
    ensures NextSpec("five", Settle("five", 0)) == Emit(Token(IDENT, "five"), Settle("five", 4))
  {
    RunEndOf("five", 0, Letters, 4);
  }

  lemma Piece22(w: string, ts: seq<Token>)
    requires w == "five" && ts == [Token(IDENT, "five")]
    ensures ScansTo(w, ts)
  {
    TokensOfPiece22();
    ScanSteps("five", [0, 4], [Token(IDENT, "five")]);
  }

  lemma TokensOfPiece23Part0()
    ensures NextSpec("\n    !-", Settle("\n    !-", 0)) == Emit(Token(BANG, "!"), Settle("\n    !-", 6))
  {
    RunEndOf("\n    !-", 0, Blanks, 5);
    assert SkipBlanks("\n    !-", Settle("\n    !-", 0)) == Settle("\n    !-", 5);
  }

  lemma TokensOfPiece23Part1()
    ensures NextSpec("\n    !-", Settle("\n    !-", 6)) == Emit(Token(MINUS, "-"), Settle("\n    !-", 7))
  {
  }

  lemma Piece23(w: string, ts: seq<Token>)
    requires w == "\n    !-" && ts == [Token(BANG, "!"), Token(MINUS, "-")]
    ensures ScansTo(w, ts)
  {
    TokensOfPiece23Part0();
    TokensOfPiece23Part1();
    ScanSteps("\n    !-", [0, 6, 7], [Token(BANG, "!"), Token(MINUS, "-")]);
  }

  lemma TokensOfPiece24()
    ensures NextSpec("/", Settle("/", 0)) == Emit(Token(SLASH, "/"), Settle("/", 1))
  {

  }

  lemma Piece24(w: string, ts: seq<Token>)
    requires w == "/" && ts == [Token(SLASH, "/")]
    ensures ScansTo(w, ts)
  {
    TokensOfPiece24();
    ScanSteps("/", [0, 1], [Token(SLASH, "/")]);
  }

  lemma TokensOfPiece25()
    ensures NextSpec("*", Settle("*", 0)) == Emit(Token(ASTERISK, "*"), Settle("*", 1))
  {

  }

  lemma Piece25(w: string, ts: seq<Token>)
    requires w == "*" && ts == [Token(ASTERISK, "*")]
    ensures ScansTo(w, ts)
  {
    TokensOfPiece25();
    ScanSteps("*", [0, 1], [Token(ASTERISK, "*")]);
  }

  lemma TokensOfPiece26()
    ensures NextSpec("5", Settle("5", 0)) == Emit(Token(INT, "5"), Settle("5", 1))
  {
    RunEndOf("5", 0, Digits, 1);
  }

  lemma Piece26(w: string, ts: seq<Token>)
    requires w == "5" && ts == [Token(INT, "5")]
    ensures ScansTo(w, ts)
  {
    TokensOfPiece26();
    ScanSteps("5", [0, 1], [Token(INT, "5")]);
  }

  lemma TokensOfPiece27()
    ensures NextSpec("\n    5", Settle("\n    5", 0)) == Emit(Token(INT, "5"), Settle("\n    5", 6))
  {
    RunEndOf("\n    5", 0, Blanks, 5);
    assert SkipBlanks("\n    5", Settle("\n    5", 0)) == Settle("\n    5", 5);
    RunEndOf("\n    5", 5, Digits, 6);
  }

  lemma Piece27(w: string, ts: seq<Token>)
    requires w == "\n    5" && ts == [Token(INT, "5")]
    ensures ScansTo(w, ts)
  {
    TokensOfPiece27();
    ScanSteps("\n    5", [0, 6], [Token(INT, "5")]);
  }

  lemma TokensOfPiece28()
    ensures NextSpec(" <", Settle(" <", 0)) == Emit(Token(LT, "<"), Settle(" <", 2))
  {
    RunEndOf(" <", 0, Blanks, 1);
    assert SkipBlanks(" <", Settle(" <", 0)) == Settle(" <", 1);
  }

  lemma Piece28(w: string, ts: seq<Token>)
    requires w == " <" && ts == [Token(LT, "<")]
    ensures ScansTo(w, ts)
  {
    TokensOfPiece28();
    ScanSteps(" <", [0, 2], [Token(LT, "<")]);
  }

  lemma TokensOfPiece29()
    ensures NextSpec(" 10", Settle(" 10", 0)) == Emit(Token(INT, "10"), Settle(" 10", 3))
  {
    RunEndOf(" 10", 0, Blanks, 1);
    assert SkipBlanks(" 10", Settle(" 10", 0)) == Settle(" 10", 1);
    RunEndOf(" 10", 1, Digits, 3);
  }

  lemma Piece29(w: string, ts: seq<Token>)
    requires w == " 10" && ts == [Token(INT, "10")]
    ensures ScansTo(w, ts)
  {
    TokensOfPiece29();
    ScanSteps(" 10", [0, 3], [Token(INT, "10")]);
  }

  lemma TokensOfPiece30()
    ensures NextSpec(" >", Settle(" >", 0)) == Emit(Token(GT, ">"), Settle(" >", 2))
  {
    RunEndOf(" >", 0, Blanks, 1);
    assert SkipBlanks(" >", Settle(" >", 0)) == Settle(" >", 1);
  }

  lemma Piece30(w: string, ts: seq<Token>)
    requires w == " >" && ts == [Token(GT, ">")]
    ensures ScansTo(w, ts)
  {
    TokensOfPiece30();
    ScanSteps(" >", [0, 2], [Token(GT, ">")]);
  }

  lemma TokensOfPiece31()
    ensures NextSpec(" 5", Settle(" 5", 0)) == Emit(Token(INT, "5"), Settle(" 5", 2))
  {
    RunEndOf(" 5", 0, Blanks, 1);
    assert SkipBlanks(" 5", Settle(" 5", 0)) == Settle(" 5", 1);
    RunEndOf(" 5", 1, Digits, 2);
  }

  lemma Piece31(w: string, ts: seq<Token>)
    requires w == " 5" && ts == [Token(INT, "5")]
    ensures ScansTo(w, ts)
  {
    TokensOfPiece31();
    ScanSteps(" 5", [0, 2], [Token(INT, "5")]);
  }

  lemma TokensOfPiece32()
    ensures NextSpec("\n    \n    if", Settle("\n    \n    if", 0)) == Emit(Token(IF, "if"), Settle("\n    \n    if", 12))
  {
    RunEndOf("\n    \n    if", 0, Blanks, 10);
    assert SkipBlanks("\n    \n    if", Settle("\n    \n    if", 0)) == Settle("\n    \n    if", 10);
    RunEndOf("\n    \n    if", 10, Letters, 12);
  }

  lemma Piece32(w: string, ts: seq<Token>)
    requires w == "\n    \n    if" && ts == [Token(IF, "if")]
    ensures ScansTo(w, ts)
  {
    TokensOfPiece32();
    ScanSteps("\n    \n    if", [0, 12], [Token(IF, "if")]);
  }

  lemma TokensOfPiece33()
    ensures NextSpec("\n        return", Settle("\n        return", 0)) == Emit(Token(RETURN, "return"), Settle("\n        return", 15))
  {
    RunEndOf("\n        return", 0, Blanks, 9);
    assert SkipBlanks("\n        return", Settle("\n        return", 0)) == Settle("\n        return", 9);
    RunEndOf("\n        return", 9, Letters, 15);
  }

  lemma Piece33(w: string, ts: seq<Token>)
    requires w == "\n        return" && ts == [Token(RETURN, "return")]
    ensures ScansTo(w, ts)
  {
    TokensOfPiece33();
    ScanSteps("\n        return", [0, 15], [Token(RETURN, "return")]);
  }

  lemma TokensOfPiece34()
    ensures NextSpec(" true", Settle(" true", 0)) == Emit(Token(TRUE, "true"), Settle(" true", 5))
  {
    RunEndOf(" true", 0, Blanks, 1);
    assert SkipBlanks(" true", Settle(" true", 0)) == Settle(" true", 1);
    RunEndOf(" true", 1, Letters, 5);
  }

  lemma Piece34(w: string, ts: seq<Token>)
    requires w == " true" && ts == [Token(TRUE, "true")]
    ensures ScansTo(w, ts)
  {
    TokensOfPiece34();
    ScanSteps(" true", [0, 5], [Token(TRUE, "true")]);
  }

  lemma TokensOfPiece35()
    ensures NextSpec(" else", Settle(" else", 0)) == Emit(Token(ELSE, "else"), Settle(" else", 5))
  {
    RunEndOf(" else", 0, Blanks, 1);
    assert SkipBlanks(" else", Settle(" else", 0)) == Settle(" else", 1);
    RunEndOf(" else", 1, Letters, 5);
  }

  lemma Piece35(w: string, ts: seq<Token>)
    requires w == " else" && ts == [Token(ELSE, "else")]
    ensures ScansTo(w, ts)
  {
    TokensOfPiece35();
    ScanSteps(" else", [0, 5], [Token(ELSE, "else")]);
  }

  lemma TokensOfPiece36()
    ensures NextSpec(" false", Settle(" false", 0)) == Emit(Token(FALSE, "false"), Settle(" false", 6))
  {
    RunEndOf(" false", 0, Blanks, 1);
    assert SkipBlanks(" false", Settle(" false", 0)) == Settle(" false", 1);
    RunEndOf(" false", 1, Letters, 6);
  }

  lemma Piece36(w: string, ts: seq<Token>)
    requires w == " false" && ts == [Token(FALSE, "false")]
    ensures ScansTo(w, ts)
  {
    TokensOfPiece36();
    ScanSteps(" false", [0, 6], [Token(FALSE, "false")]);
  }

  lemma TokensOfPiece37()
    ensures NextSpec("\n    \n    10", Settle("\n    \n    10", 0)) == Emit(Token(INT, "10"), Settle("\n    \n    10", 12))
  {
    RunEndOf("\n    \n    10", 0, Blanks, 10);
    assert SkipBlanks("\n    \n    10", Settle("\n    \n    10", 0)) == Settle("\n    \n    10", 10);
    RunEndOf("\n    \n    10", 10, Digits, 12);
  }

  lemma Piece37(w: string, ts: seq<Token>)
    requires w == "\n    \n    10" && ts == [Token(INT, "10")]
    ensures ScansTo(w, ts)
  {
    TokensOfPiece37();
    ScanSteps("\n    \n    10", [0, 12], [Token(INT, "10")]);
  }

  lemma TokensOfPiece38()
    ensures NextSpec(" ==", Settle(" ==", 0)) == Emit(Token(EQ, "=="), Settle(" ==", 3))
  {
    RunEndOf(" ==", 0, Blanks, 1);
    assert SkipBlanks(" ==", Settle(" ==", 0)) == Settle(" ==", 1);
  }

  lemma Piece38(w: string, ts: seq<Token>)
    requires w == " ==" && ts == [Token(EQ, "==")]
    ensures ScansTo(w, ts)
  {
    TokensOfPiece38();
    ScanSteps(" ==", [0, 3], [Token(EQ, "==")]);
  }

  lemma TokensOfPiece39()
    ensures NextSpec("\n    10", Settle("\n    10", 0)) == Emit(Token(INT, "10"), Settle("\n    10", 7))
  {
    RunEndOf("\n    10", 0, Blanks, 5);
    assert SkipBlanks("\n    10", Settle("\n    10", 0)) == Settle("\n    10", 5);
    RunEndOf("\n    10", 5, Digits, 7);
  }

  lemma Piece39(w: string, ts: seq<Token>)
    requires w == "\n    10" && ts == [Token(INT, "10")]
    ensures ScansTo(w, ts)
  {
    TokensOfPiece39();
    ScanSteps("\n    10", [0, 7], [Token(INT, "10")]);
  }

  lemma TokensOfPiece40()
    ensures NextSpec(" !=", Settle(" !=", 0)) == Emit(Token(NOT_EQ, "!="), Settle(" !=", 3))
  {
    RunEndOf(" !=", 0, Blanks, 1);
    assert SkipBlanks(" !=", Settle(" !=", 0)) == Settle(" !=", 1);
  }

  lemma Piece40(w: string, ts: seq<Token>)
    requires w == " !=" && ts == [Token(NOT_EQ, "!=")]
    ensures ScansTo(w, ts)
  {
    TokensOfPiece40();
    ScanSteps(" !=", [0, 3], [Token(NOT_EQ, "!=")]);
  }

  lemma TokensOfPiece41()
    ensures NextSpec(" 9", Settle(" 9", 0)) == Emit(Token(INT, "9"), Settle(" 9", 2))
  {
    RunEndOf(" 9", 0, Blanks, 1);
    assert SkipBlanks(" 9", Settle(" 9", 0)) == Settle(" 9", 1);
    RunEndOf(" 9", 1, Digits, 2);
  }

  lemma Piece41(w: string, ts: seq<Token>)
    requires w == " 9" && ts == [Token(INT, "9")]
    ensures ScansTo(w, ts)
  {
    TokensOfPiece41();
    ScanSteps(" 9", [0, 2], [Token(INT, "9")]);
  }

  /** Line 0 of the program text: its pieces are non-empty ASCII text, each separated from the next. */
  lemma TextOfLine0()
    ensures TestLines[0] != []
    ensures forall j :: 0 <= j < |TestLines[0]| ==> |TestLines[0][j]| > 0 && IsAscii(TestLines[0][j])
    ensures forall j :: 0 < j < |TestLines[0]| ==> Separated(TestLines[0][j - 1], TestLines[0][j])
  {
    assert TestLines[0] == Line0;
  }

  /** Line 0 of the program text, read piece by piece. */
  lemma PiecesOfLine0()
    ensures Pieces(Step, TestLines[0], TestLineTokens[0])
  {
    assert TestLines[0] == Line0 && TestLineTokens[0] == Line0Tokens;
    TextOfLine0();
    forall j | 0 <= j < |Line0|
      ensures ScansTo(Line0[j], Line0Tokens[j])
    {
      if j == 0 { Piece0(Line0[j], Line0Tokens[j]); }
      else if j == 1 { Piece1(Line0[j], Line0Tokens[j]); }
      else if j == 2 { Piece2(Line0[j], Line0Tokens[j]); }
      else { Piece3(Line0[j], Line0Tokens[j]); }
    }
  }

  /** Line 1 of the program text: its pieces are non-empty ASCII text, each separated from the next. */
  lemma TextOfLine1()
    ensures TestLines[1] != []
    ensures forall j :: 0 <= j < |TestLines[1]| ==> |TestLines[1][j]| > 0 && IsAscii(TestLines[1][j])
    ensures forall j :: 0 < j < |TestLines[1]| ==> Separated(TestLines[1][j - 1], TestLines[1][j])
    ensures TestLines[1][0][0] == '\n'
  {
    assert TestLines[1] == Line1;
  }

  /** Line 1 of the program text, read piece by piece. */
  lemma PiecesOfLine1()
    ensures Pieces(Step, TestLines[1], TestLineTokens[1])
  {
    assert TestLines[1] == Line1 && TestLineTokens[1] == Line1Tokens;
    TextOfLine1();
    forall j | 0 <= j < |Line1|
      ensures ScansTo(Line1[j], Line1Tokens[j])
    {
      if j == 0 { Piece4(Line1[j], Line1Tokens[j]); }
      else if j == 1 { Piece5(Line1[j], Line1Tokens[j]); }
      else if j == 2 { Piece6(Line1[j], Line1Tokens[j]); }
      else { Piece3(Line1[j], Line1Tokens[j]); }
    }
  }

  /** Line 2 of the program text: its pieces are non-empty ASCII text, each separated from the next. */
  lemma TextOfLine2()
    ensures TestLines[2] != []
    ensures forall j :: 0 <= j < |TestLines[2]| ==> |TestLines[2][j]| > 0 && IsAscii(TestLines[2][j])
    ensures forall j :: 0 < j < |TestLines[2]| ==> Separated(TestLines[2][j - 1], TestLines[2][j])
    ensures TestLines[2][0][0] == '\n'
  {
    assert TestLines[2] == Line2;
  }

  /** Line 2 of the program text, read piece by piece. */
  lemma PiecesOfLine2()
    ensures Pieces(Step, TestLines[2], TestLineTokens[2])
  {
    assert TestLines[2] == Line2 && TestLineTokens[2] == Line2Tokens;
    TextOfLine2();
    forall j | 0 <= j < |Line2|
      ensures ScansTo(Line2[j], Line2Tokens[j])
    {
      if j == 0 { Piece4(Line2[j], Line2Tokens[j]); }
      else if j == 1 { Piece7(Line2[j], Line2Tokens[j]); }
      else if j == 2 { Piece8(Line2[j], Line2Tokens[j]); }
      else if j == 3 { Piece9(Line2[j], Line2Tokens[j]); }
      else if j == 4 { Piece10(Line2[j], Line2Tokens[j]); }
      else if j == 5 { Piece11(Line2[j], Line2Tokens[j]); }
      else if j == 6 { Piece12(Line2[j], Line2Tokens[j]); }
      else if j == 7 { Piece13(Line2[j], Line2Tokens[j]); }
      else { Piece14(Line2[j], Line2Tokens[j]); }
    }
  }

  /** Line 3 of the program text: its pieces are non-empty ASCII text, each separated from the next. */
  lemma TextOfLine3()
    ensures TestLines[3] != []
    ensures forall j :: 0 <= j < |TestLines[3]| ==> |TestLines[3][j]| > 0 && IsAscii(TestLines[3][j])
    ensures forall j :: 0 < j < |TestLines[3]| ==> Separated(TestLines[3][j - 1], TestLines[3][j])
    ensures TestLines[3][0][0] == '\n'
  {
    assert TestLines[3] == Line3;
  }

  /** Line 3 of the program text, read piece by piece. */
  lemma PiecesOfLine3()
    ensures Pieces(Step, TestLines[3], TestLineTokens[3])
  {
    assert TestLines[3] == Line3 && TestLineTokens[3] == Line3Tokens;
    TextOfLine3();
    forall j | 0 <= j < |Line3|
      ensures ScansTo(Line3[j], Line3Tokens[j])
    {
      if j == 0 { Piece15(Line3[j], Line3Tokens[j]); }
      else if j == 1 { Piece16(Line3[j], Line3Tokens[j]); }
      else if j == 2 { Piece12(Line3[j], Line3Tokens[j]); }
      else { Piece3(Line3[j], Line3Tokens[j]); }
    }
  }

  /** Line 4 of the program text: its pieces are non-empty ASCII text, each separated from the next. */
  lemma TextOfLine4()
    ensures TestLines[4] != []
    ensures forall j :: 0 <= j < |TestLines[4]| ==> |TestLines[4][j]| > 0 && IsAscii(TestLines[4][j])
    ensures forall j :: 0 < j < |TestLines[4]| ==> Separated(TestLines[4][j - 1], TestLines[4][j])
    ensures TestLines[4][0][0] == '\n'
  {
    assert TestLines[4] == Line4;
  }

  /** Line 4 of the program text, read piece by piece. */
  lemma PiecesOfLine4()
    ensures Pieces(Step, TestLines[4], TestLineTokens[4])
  {
    assert TestLines[4] == Line4 && TestLineTokens[4] == Line4Tokens;
    TextOfLine4();
    forall j | 0 <= j < |Line4|
      ensures ScansTo(Line4[j], Line4Tokens[j])
    {
      if j == 0 { Piece17(Line4[j], Line4Tokens[j]); }
      else { Piece3(Line4[j], Line4Tokens[j]); }
    }
  }

  /** Line 5 of the program text: its pieces are non-empty ASCII text, each separated from the next. */
  lemma TextOfLine5()
    ensures TestLines[5] != []
    ensures forall j :: 0 <= j < |TestLines[5]| ==> |TestLines[5][j]| > 0 && IsAscii(TestLines[5][j])
    ensures forall j :: 0 < j < |TestLines[5]| ==> Separated(TestLines[5][j - 1], TestLines[5][j])
    ensures TestLines[5][0][0] == '\n'
  {
    assert TestLines[5] == Line5;
  }

  /** Line 5 of the program text, read piece by piece. */
  lemma PiecesOfLine5()
    ensures Pieces(Step, TestLines[5], TestLineTokens[5])
  {
    assert TestLines[5] == Line5 && TestLineTokens[5] == Line5Tokens;
    TextOfLine5();
    forall j | 0 <= j < |Line5|
      ensures ScansTo(Line5[j], Line5Tokens[j])
    {
      if j == 0 { Piece18(Line5[j], Line5Tokens[j]); }
      else if j == 1 { Piece19(Line5[j], Line5Tokens[j]); }
      else if j == 2 { Piece20(Line5[j], Line5Tokens[j]); }
      else if j == 3 { Piece21(Line5[j], Line5Tokens[j]); }
      else if j == 4 { Piece22(Line5[j], Line5Tokens[j]); }
      else if j == 5 { Piece11(Line5[j], Line5Tokens[j]); }
      else if j == 6 { Piece5(Line5[j], Line5Tokens[j]); }
      else if j == 7 { Piece13(Line5[j], Line5Tokens[j]); }
      else { Piece3(Line5[j], Line5Tokens[j]); }
    }
  }

  /** Line 6 of the program text: its pieces are non-empty ASCII text, each separated from the next. */
  lemma TextOfLine6()
    ensures TestLines[6] != []
    ensures forall j :: 0 <= j < |TestLines[6]| ==> |TestLines[6][j]| > 0 && IsAscii(TestLines[6][j])
    ensures forall j :: 0 < j < |TestLines[6]| ==> Separated(TestLines[6][j - 1], TestLines[6][j])
    ensures TestLines[6][0][0] == '\n'
  {
    assert TestLines[6] == Line6;
  }

  /** Line 6 of the program text, read piece by piece. */
  lemma PiecesOfLine6()
    ensures Pieces(Step, TestLines[6], TestLineTokens[6])
  {
    assert TestLines[6] == Line6 && TestLineTokens[6] == Line6Tokens;
    TextOfLine6();
    forall j | 0 <= j < |Line6|
      ensures ScansTo(Line6[j], Line6Tokens[j])
    {
      if j == 0 { Piece23(Line6[j], Line6Tokens[j]); }
      else if j == 1 { Piece24(Line6[j], Line6Tokens[j]); }
      else if j == 2 { Piece25(Line6[j], Line6Tokens[j]); }
      else if j == 3 { Piece26(Line6[j], Line6Tokens[j]); }
      else { Piece3(Line6[j], Line6Tokens[j]); }
    }
  }

  /** Line 7 of the program text: its pieces are non-empty ASCII text, each separated from the next. */
  lemma TextOfLine7()
    ensures TestLines[7] != []
    ensures forall j :: 0 <= j < |TestLines[7]| ==> |TestLines[7][j]| > 0 && IsAscii(TestLines[7][j])
    ensures forall j :: 0 < j < |TestLines[7]| ==> Separated(TestLines[7][j - 1], TestLines[7][j])
    ensures TestLines[7][0][0] == '\n'
  {
    assert TestLines[7] == Line7;
  }

  /** Line 7 of the program text, read piece by piece. */
  lemma PiecesOfLine7()
    ensures Pieces(Step, TestLines[7], TestLineTokens[7])
  {
    assert TestLines[7] == Line7 && TestLineTokens[7] == Line7Tokens;
    TextOfLine7();
    forall j | 0 <= j < |Line7|
      ensures ScansTo(Line7[j], Line7Tokens[j])
    {
      if j == 0 { Piece27(Line7[j], Line7Tokens[j]); }
      else if j == 1 { Piece28(Line7[j], Line7Tokens[j]); }
      else if j == 2 { Piece29(Line7[j], Line7Tokens[j]); }
      else if j == 3 { Piece30(Line7[j], Line7Tokens[j]); }
      else if j == 4 { Piece31(Line7[j], Line7Tokens[j]); }
      else { Piece3(Line7[j], Line7Tokens[j]); }
    }
  }

  /** Line 8 of the program text: its pieces are non-empty ASCII text, each separated from the next. */
  lemma TextOfLine8()
    ensures TestLines[8] != []
    ensures forall j :: 0 <= j < |TestLines[8]| ==> |TestLines[8][j]| > 0 && IsAscii(TestLines[8][j])
    ensures forall j :: 0 < j < |TestLines[8]| ==> Separated(TestLines[8][j - 1], TestLines[8][j])
    ensures TestLines[8][0][0] == '\n'
  {
    assert TestLines[8] == Line8;
  }

  /** Line 8 of the program text, read piece by piece. */
  lemma PiecesOfLine8()
    ensures Pieces(Step, TestLines[8], TestLineTokens[8])
  {
    assert TestLines[8] == Line8 && TestLineTokens[8] == Line8Tokens;
    TextOfLine8();
    forall j | 0 <= j < |Line8|
      ensures ScansTo(Line8[j], Line8Tokens[j])
    {
      if j == 0 { Piece32(Line8[j], Line8Tokens[j]); }
      else if j == 1 { Piece9(Line8[j], Line8Tokens[j]); }
      else if j == 2 { Piece26(Line8[j], Line8Tokens[j]); }
      else if j == 3 { Piece28(Line8[j], Line8Tokens[j]); }
      else if j == 4 { Piece29(Line8[j], Line8Tokens[j]); }
      else if j == 5 { Piece13(Line8[j], Line8Tokens[j]); }
      else { Piece14(Line8[j], Line8Tokens[j]); }
    }
  }

  /** Line 9 of the program text: its pieces are non-empty ASCII text, each separated from the next. */
  lemma TextOfLine9()
    ensures TestLines[9] != []
    ensures forall j :: 0 <= j < |TestLines[9]| ==> |TestLines[9][j]| > 0 && IsAscii(TestLines[9][j])
    ensures forall j :: 0 < j < |TestLines[9]| ==> Separated(TestLines[9][j - 1], TestLines[9][j])
    ensures TestLines[9][0][0] == '\n'
  {
    assert TestLines[9] == Line9;
  }

  /** Line 9 of the program text, read piece by piece. */
  lemma PiecesOfLine9()
    ensures Pieces(Step, TestLines[9], TestLineTokens[9])
  {
    assert TestLines[9] == Line9 && TestLineTokens[9] == Line9Tokens;
    TextOfLine9();
    forall j | 0 <= j < |Line9|
      ensures ScansTo(Line9[j], Line9Tokens[j])
    {
      if j == 0 { Piece33(Line9[j], Line9Tokens[j]); }
      else if j == 1 { Piece34(Line9[j], Line9Tokens[j]); }
      else { Piece3(Line9[j], Line9Tokens[j]); }
    }
  }

  /** Line 10 of the program text: its pieces are non-empty ASCII text, each separated from the next. */
  lemma TextOfLine10()
    ensures TestLines[10] != []
    ensures forall j :: 0 <= j < |TestLines[10]| ==> |TestLines[10][j]| > 0 && IsAscii(TestLines[10][j])
    ensures forall j :: 0 < j < |TestLines[10]| ==> Separated(TestLines[10][j - 1], TestLines[10][j])
    ensures TestLines[10][0][0] == '\n'
  {
    assert TestLines[10] == Line10;
  }

  /** Line 10 of the program text, read piece by piece. */
  lemma PiecesOfLine10()
    ensures Pieces(Step, TestLines[10], TestLineTokens[10])
  {
    assert TestLines[10] == Line10 && TestLineTokens[10] == Line10Tokens;
    TextOfLine10();
    forall j | 0 <= j < |Line10|
      ensures ScansTo(Line10[j], Line10Tokens[j])
    {
      if j == 0 { Piece17(Line10[j], Line10Tokens[j]); }
      else if j == 1 { Piece35(Line10[j], Line10Tokens[j]); }
      else { Piece14(Line10[j], Line10Tokens[j]); }
    }
  }

  /** Line 11 of the program text: its pieces are non-empty ASCII text, each separated from the next. */
  lemma TextOfLine11()
    ensures TestLines[11] != []
    ensures forall j :: 0 <= j < |TestLines[11]| ==> |TestLines[11][j]| > 0 && IsAscii(TestLines[11][j])
    ensures forall j :: 0 < j < |TestLines[11]| ==> Separated(TestLines[11][j - 1], TestLines[11][j])
    ensures TestLines[11][0][0] == '\n'
  {
    assert TestLines[11] == Line11;
  }

  /** Line 11 of the program text, read piece by piece. */
  lemma PiecesOfLine11()
    ensures Pieces(Step, TestLines[11], TestLineTokens[11])
  {
    assert TestLines[11] == Line11 && TestLineTokens[11] == Line11Tokens;
    TextOfLine11();
    forall j | 0 <= j < |Line11|
      ensures ScansTo(Line11[j], Line11Tokens[j])
    {
      if j == 0 { Piece33(Line11[j], Line11Tokens[j]); }
      else if j == 1 { Piece36(Line11[j], Line11Tokens[j]); }
      else { Piece3(Line11[j], Line11Tokens[j]); }
    }
  }

  /** Line 12 of the program text: its pieces are non-empty ASCII text, each separated from the next. */
  lemma TextOfLine12()
    ensures TestLines[12] != []
    ensures forall j :: 0 <= j < |TestLines[12]| ==> |TestLines[12][j]| > 0 && IsAscii(TestLines[12][j])
    ensures forall j :: 0 < j < |TestLines[12]| ==> Separated(TestLines[12][j - 1], TestLines[12][j])
    ensures TestLines[12][0][0] == '\n'
  {
    assert TestLines[12] == Line12;
  }

  /** Line 12 of the program text, read piece by piece. */
  lemma PiecesOfLine12()
    ensures Pieces(Step, TestLines[12], TestLineTokens[12])
  {
    assert TestLines[12] == Line12 && TestLineTokens[12] == Line12Tokens;
    TextOfLine12();
    forall j | 0 <= j < |Line12|
      ensures ScansTo(Line12[j], Line12Tokens[j])
    {
      Piece17(Line12[j], Line12Tokens[j]);
    }
  }

  /** Line 13 of the program text: its pieces are non-empty ASCII text, each separated from the next. */
  lemma TextOfLine13()
    ensures TestLines[13] != []
    ensures forall j :: 0 <= j < |TestLines[13]| ==> |TestLines[13][j]| > 0 && IsAscii(TestLines[13][j])
    ensures forall j :: 0 < j < |TestLines[13]| ==> Separated(TestLines[13][j - 1], TestLines[13][j])
    ensures TestLines[13][0][0] == '\n'
  {
    assert TestLines[13] == Line13;
  }

  /** Line 13 of the program text, read piece by piece. */
  lemma PiecesOfLine13()
    ensures Pieces(Step, TestLines[13], TestLineTokens[13])
  {
    assert TestLines[13] == Line13 && TestLineTokens[13] == Line13Tokens;
    TextOfLine13();
    forall j | 0 <= j < |Line13|
      ensures ScansTo(Line13[j], Line13Tokens[j])
    {
      if j == 0 { Piece37(Line13[j], Line13Tokens[j]); }
      else if j == 1 { Piece38(Line13[j], Line13Tokens[j]); }
      else if j == 2 { Piece29(Line13[j], Line13Tokens[j]); }
      else { Piece3(Line13[j], Line13Tokens[j]); }
    }
  }

  /** Line 14 of the program text: its pieces are non-empty ASCII text, each separated from the next. */
  lemma TextOfLine14()
    ensures TestLines[14] != []
    ensures forall j :: 0 <= j < |TestLines[14]| ==> |TestLines[14][j]| > 0 && IsAscii(TestLines[14][j])
    ensures forall j :: 0 < j < |TestLines[14]| ==> Separated(TestLines[14][j - 1], TestLines[14][j])
    ensures TestLines[14][0][0] == '\n'
  {
    assert TestLines[14] == Line14;
  }

  /** Line 14 of the program text, read piece by piece. */
  lemma PiecesOfLine14()
    ensures Pieces(Step, TestLines[14], TestLineTokens[14])
  {
    assert TestLines[14] == Line14 && TestLineTokens[14] == Line14Tokens;
    TextOfLine14();
    forall j | 0 <= j < |Line14|
      ensures ScansTo(Line14[j], Line14Tokens[j])
    {
      if j == 0 { Piece39(Line14[j], Line14Tokens[j]); }
      else if j == 1 { Piece40(Line14[j], Line14Tokens[j]); }
      else if j == 2 { Piece41(Line14[j], Line14Tokens[j]); }
      else { Piece3(Line14[j], Line14Tokens[j]); }
    }
  }
  /** The lines of the program text chain as ScanConcat needs. */
  lemma AllPieces()
    ensures Pieces(Step, Concat(TestLines), Concat(TestLineTokens))
  {
    forall k | 0 <= k < |TestLines|
      ensures TestLines[k] != [] && Pieces(Step, TestLines[k], TestLineTokens[k])
      ensures k > 0 ==> TestLines[k][0][0] == '\n'
    {
      if k == 0 { PiecesOfLine0(); TextOfLine0(); }
      else if k == 1 { PiecesOfLine1(); TextOfLine1(); }
      else if k == 2 { PiecesOfLine2(); TextOfLine2(); }
      else if k == 3 { PiecesOfLine3(); TextOfLine3(); }
      else if k == 4 { PiecesOfLine4(); TextOfLine4(); }
      else if k == 5 { PiecesOfLine5(); TextOfLine5(); }
      else if k == 6 { PiecesOfLine6(); TextOfLine6(); }
      else if k == 7 { PiecesOfLine7(); TextOfLine7(); }
      else if k == 8 { PiecesOfLine8(); TextOfLine8(); }
      else if k == 9 { PiecesOfLine9(); TextOfLine9(); }
      else if k == 10 { PiecesOfLine10(); TextOfLine10(); }
      else if k == 11 { PiecesOfLine11(); TextOfLine11(); }
      else if k == 12 { PiecesOfLine12(); TextOfLine12(); }
      else if k == 13 { PiecesOfLine13(); TextOfLine13(); }
      else { PiecesOfLine14(); TextOfLine14(); }
    }
    PiecesConcat(Step, TestLines, TestLineTokens);
  }

  /**
   * A lexer on text that scans from its first character to its end with
   * body returns EOF first, then body, then EOF once more, and stands just
   * past the end of the text.
   */
  lemma ScanAround(input: string, body: seq<Token>)
    requires Scan(input, Settle(input, 0), |body|) == Some(Scanned(body, Settle(input, |input|)))
    ensures Scan(input, Start, |body| + 2) == Some(Scanned([Token(EOF, "\0")] + (body + [Token(EOF, "\0")]), Settle(input, |input| + 1)))
  {
    var eof := Token(EOF, "\0");
    var last, after := Settle(input, |input|), Settle(input, |input| + 1);
    EofIsSticky(input, last);
    ScanCons(input, last, eof, after, 0, Scanned([], after));
    assert [eof] + [] == [eof];
    ScanSplit(input, Settle(input, 0), |body|, 1, Scanned(body, last), Scanned([eof], after));
    FirstTokenIsEof(input);
    ScanCons(input, Start, eof, Settle(input, 0), |body| + 1, Scanned(body + [eof], after));
  }

  /** The lexer on the text of a chain of pieces returns EOF, the pieces' tokens, and EOF. */
  lemma ScanOfPieces(ws: seq<string>, tss: seq<seq<Token>>)
    requires Pieces(Step, ws, tss)
    ensures Scan(Concat(ws), Start, |Concat(tss)| + 2) == Some(Scanned([Token(EOF, "\0")] + (Concat(tss) + [Token(EOF, "\0")]), Settle(Concat(ws), |Concat(ws)| + 1)))
  {
    ScanConcat(ws, tss);
    ScanAround(Concat(ws), Concat(tss));
  }

  /** The pieces of the program text, named ws with their tokens tss, scan as ScanOfPieces says. */
  lemma TestPiecesScan(ws: seq<string>, tss: seq<seq<Token>>)
    requires ws == Concat(TestLines) && tss == Concat(TestLineTokens)
    ensures Scan(Concat(ws), Start, |Concat(tss)| + 2) == Some(Scanned([Token(EOF, "\0")] + (Concat(tss) + [Token(EOF, "\0")]), Settle(Concat(ws), |Concat(ws)| + 1)))
  {
    AllPieces();
    ScanOfPieces(ws, tss);
  }

  /**
   * `lexer_test`: a fresh lexer first returns EOF, then the expected tokens in
   * order, the last of them the EOF at the end of the text.
   */
  lemma LexerTestScenario()
    ensures Scan(TestInput, Start, 1 + |TestTokens|) == Some(Scanned([Token(EOF, "\0")] + TestTokens, Settle(TestInput, |TestInput| + 1)))
  {
    TestPiecesScan(Concat(TestLines), Concat(TestLineTokens));
  }

  /** Text made of ASCII pieces is ASCII. */
  lemma {:induction false} AsciiConcat(ws: seq<string>)
    requires forall i :: 0 <= i < |ws| ==> IsAscii(ws[i])
    ensures IsAscii(Concat(ws))
    decreases |ws|
  {
    if ws != [] {
      var r, tail := Concat(ws), Concat(ws[1..]);
      assert IsAscii(ws[0]);
      assert forall i :: 0 <= i < |ws[1..]| ==> IsAscii(ws[1..][i]) by {
        forall i | 0 <= i < |ws[1..]| ensures IsAscii(ws[1..][i]) {
          assert IsAscii(ws[i + 1]);
        }
      }
      AsciiConcat(ws[1..]);
      forall i | 0 <= i < |r| ensures r[i] < 128 as char {
        if i < |ws[0]| {
          assert r[i] == ws[0][i];
        } else {
          assert r[i] == tail[i - |ws[0]|];
        }
      }
    }
  }

  /** The pieces of lines of ASCII pieces are ASCII. */
  lemma {:induction false} AsciiLines(wss: seq<seq<string>>)
    requires forall k, j :: 0 <= k < |wss| && 0 <= j < |wss[k]| ==> IsAscii(wss[k][j])
    ensures forall i :: 0 <= i < |Concat(wss)| ==> IsAscii(Concat(wss)[i])
    decreases |wss|
  {
    if wss != [] {
      var r, tail := Concat(wss), Concat(wss[1..]);
      assert forall k, j :: 0 <= k < |wss[1..]| && 0 <= j < |wss[1..][k]| ==> IsAscii(wss[1..][k][j]) by {
        forall k, j | 0 <= k < |wss[1..]| && 0 <= j < |wss[1..][k]| ensures IsAscii(wss[1..][k][j]) {
          assert IsAscii(wss[k + 1][j]);
        }
      }
      AsciiLines(wss[1..]);
      forall i | 0 <= i < |r| ensures IsAscii(r[i]) {
        if i < |wss[0]| {
          assert r[i] == wss[0][i];
          assert IsAscii(wss[0][i]);
        } else {
          assert r[i] == tail[i - |wss[0]|];
        }
      }
    }
  }

  /** The pieces of the program text, named ws, are ASCII text. */
  lemma TestPiecesAscii(ws: seq<string>)
    requires ws == Concat(TestLines)
    ensures IsAscii(Concat(ws))
  {
    forall k | 0 <= k < |TestLines|
      ensures forall j :: 0 <= j < |TestLines[k]| ==> IsAscii(TestLines[k][j])
    {
      if k == 0 { TextOfLine0(); }
      else if k == 1 { TextOfLine1(); }
      else if k == 2 { TextOfLine2(); }
      else if k == 3 { TextOfLine3(); }
      else if k == 4 { TextOfLine4(); }
      else if k == 5 { TextOfLine5(); }
      else if k == 6 { TextOfLine6(); }
      else if k == 7 { TextOfLine7(); }
      else if k == 8 { TextOfLine8(); }
      else if k == 9 { TextOfLine9(); }
      else if k == 10 { TextOfLine10(); }
      else if k == 11 { TextOfLine11(); }
      else if k == 12 { TextOfLine12(); }
      else if k == 13 { TextOfLine13(); }
      else { TextOfLine14(); }
    }
    AsciiLines(TestLines);
    AsciiConcat(ws);
  }

  /** The program text of `lexer_test` is ASCII, so a lexer can be made on it. */
  lemma TestInputIsAscii()
    ensures IsAscii(TestInput)
  {
    TestPiecesAscii(Concat(TestLines));
  }

  /** Scanning n + 1 tokens is one `next_token` call followed by scanning n tokens. */
  lemma ScanUncons(input: seq<char>, c: Cursor, n: nat)
    requires WellFormed(input, c) && Scan(input, c, n + 1).Some?
    ensures NextSpec(input, c).Emit?
    ensures var o := NextSpec(input, c);
      Scan(input, o.next, n).Some? &&
      Scan(input, c, n + 1).value == Scanned([o.token] + Scan(input, o.next, n).value.tokens, Scan(input, o.next, n).value.rest)
  {
    assert Step(input)(c) == NextSpec(input, c);
  }

  /**
   * A lexer made on input and asked for n tokens, when n calls of
   * `next_token` do not panic, returns the tokens Scan describes.
   */
  method ReadTokens(input: string, n: nat) returns (tokens: seq<Token>)
    requires IsAscii(input) && Scan(input, Start, n).Some?
    ensures tokens == Scan(input, Start, n).value.tokens
  {
    var lexer := new Lexer(input);
    tokens := [];
    var i := 0;
    while i < n
      invariant i <= n && lexer.input == input && lexer.Valid()
      invariant Scan(input, lexer.State(), n - i).Some?
      invariant Scan(input, Start, n).value.tokens == tokens + Scan(input, lexer.State(), n - i).value.tokens
      decreases n - i
    {
      ScanUncons(input, lexer.State(), n - i - 1);
      ghost var rest := Scan(input, NextSpec(input, lexer.State()).next, n - i - 1).value.tokens;
      var tok := lexer.NextToken();
      assert tokens + ([tok] + rest) == (tokens + [tok]) + rest;
      tokens := tokens + [tok];
      i := i + 1;
    }
    assert tokens + [] == tokens;
  }

  /** `lexer_test`, run on the lexer: the initial EOF, then every expected token in order. */
  method LexerTest() returns (tokens: seq<Token>)
    ensures tokens == [Token(EOF, "\0")] + TestTokens
  {
    TestInputIsAscii();
    LexerTestScenario();
    tokens := ReadTokens(TestInput, 1 + |TestTokens|);
  }
}
