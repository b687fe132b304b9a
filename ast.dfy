/**
 * The abstract syntax tree of node.rs and its two renderings: `string`, the
 * canonical text of a node, and `token_literal`, the text of the token the
 * node was built from. The `Box<dyn Statement>` / `Box<dyn Expression>` trait
 * objects become the datatypes Statement and Expression; the tree is never
 * changed after it is built, so every rendering is a function over it. The
 * four renderings the source writes as loops (`Program`, `BlockStatement`,
 * `FuntionLiteral`, `CallExpression`) also have a method with that loop,
 * proved equal to the function.
 */
module Ast {
  import opened Wrappers
  import opened Tokens

  /** `Identifier`: a name, with the token it was read from. */
  datatype Identifier = Identifier(token: Token, value: string)

  /** The nodes that implement `Expression`. */
  datatype Expression =
    | IdentifierExpression(identifier: Identifier)
    | Boolean(token: Token, value: bool)
    | IntegerLiteral(token: Token, number: nat)
    | PrefixExpression(token: Token, operator: string, right: Expression)
    | IfExpression(token: Token, condition: Expression, consequence: BlockStatement, alternative: Option<BlockStatement>)
      /** `FuntionLiteral` in the source. */
    | FunctionLiteral(token: Token, parameters: seq<Identifier>, body: BlockStatement)
    | CallExpression(token: Token, callee: Expression, arguments: seq<Expression>)

  /** The nodes that implement `Statement`. */
  datatype Statement =
    | LetStatement(token: Token, name: Identifier, value: Expression)
    | ReturnStatement(token: Token, returnValue: Option<Expression>)
    | ExpressionStatement(token: Token, expression: Option<Expression>)
    | Block(block: BlockStatement)

  /** `BlockStatement`: a braced sequence of statements. */
  datatype BlockStatement = BlockStatement(token: Token, statements: seq<Statement>)

  /** `Program`: the root, a sequence of statements. */
  datatype Program = Program(statements: seq<Statement>)

  // ---------------------------------------------------------------------------
  // Decimal form of an integer (`usize::to_string`)
  // ---------------------------------------------------------------------------

  predicate IsDecimalDigit(c: char)
  {
    '0' <= c <= '9'
  }

  predicate AllDigits(s: string)
  {
    forall i :: 0 <= i < |s| ==> IsDecimalDigit(s[i])
  }

  /** A decimal numeral as `to_string` writes one: digits, no leading zero unless it is "0". */
  predicate IsCanonicalDecimal(s: string)
  {
    |s| > 0 && AllDigits(s) && (s[0] == '0' ==> |s| == 1)
  }

  function DigitChar(d: nat): (c: char)
    requires d < 10
    ensures IsDecimalDigit(c) && c as int - '0' as int == d
  {
    ('0' as int + d) as char
  }

  /** The decimal form of n. */
  function DecimalString(n: nat): (s: string)
    ensures IsCanonicalDecimal(s)
    ensures s[0] == '0' <==> n == 0
  {
    if n < 10 then [DigitChar(n)] else DecimalString(n / 10) + [DigitChar(n % 10)]
  }

  /** The value of a string of decimal digits, read most significant digit first. */
  function ParseDecimal(s: string): nat
    requires AllDigits(s)
  {
    if s == [] then 0 else ParseDecimal(s[..|s| - 1]) * 10 + (s[|s| - 1] as int - '0' as int)
  }

  /** Reading the decimal form of n gives back n. */
  lemma {:induction false} DecimalRoundTrip(n: nat)
    ensures ParseDecimal(DecimalString(n)) == n
  {
    var s := DecimalString(n);
    if n >= 10 {
      DecimalRoundTrip(n / 10);
      assert s[..|s| - 1] == DecimalString(n / 10);
    }
  }

  /** A numeral that does not start with '0' has a positive value. */
  lemma {:induction false} LeadingDigitPositive(s: string)
    requires |s| > 0 && AllDigits(s) && s[0] != '0'
    ensures ParseDecimal(s) > 0
  {
    if |s| > 1 {
      LeadingDigitPositive(s[..|s| - 1]);
    }
  }

  /** Writing the value of a canonical numeral gives back the numeral. */
  lemma {:induction false} CanonicalRoundTrip(s: string)
    requires IsCanonicalDecimal(s)
    ensures DecimalString(ParseDecimal(s)) == s
  {
    var init, d := s[..|s| - 1], s[|s| - 1] as int - '0' as int;
    if |s| == 1 {
      assert init == [];
      assert [DigitChar(d)] == s;
    } else {
      LeadingDigitPositive(init);
      CanonicalRoundTrip(init);
      var n := ParseDecimal(s);
      assert n == ParseDecimal(init) * 10 + d;
      assert n / 10 == ParseDecimal(init) && n % 10 == d;
      assert s == init + [s[|s| - 1]];
    }
  }

  /** The decimal form is one-to-one. */
  lemma DecimalInjective(m: nat, n: nat)
    requires DecimalString(m) == DecimalString(n)
    ensures m == n
  {
    DecimalRoundTrip(m);
    DecimalRoundTrip(n);
  }

  // ---------------------------------------------------------------------------
  // `string`
  // ---------------------------------------------------------------------------

  /** `bool::to_string`. */
  function BooleanString(b: bool): (s: string)
    ensures s == "true" || s == "false"
    ensures (s == "true") <==> b
  {
    if b then "true" else "false"
  }

  /** `string` of an expression. */
  function ExpressionString(e: Expression): string
    decreases e
  {
    match e
    case IdentifierExpression(id) => id.value
    case Boolean(_, value) => BooleanString(value)
    case IntegerLiteral(_, value) => DecimalString(value)
    case PrefixExpression(_, operator, right) => "(" + operator + ExpressionString(right) + ")"
    case IfExpression(_, condition, consequence, alternative) =>
      "if" + ExpressionString(condition) + " " + BlockString(consequence)
      + (if alternative.Some? then "else" + BlockString(alternative.value) else "")
    case FunctionLiteral(token, parameters, body) =>
      token.literal + "(" + ParametersString(parameters) + ")" + BlockString(body)
    case CallExpression(_, callee, arguments) =>
      ExpressionString(callee) + "(" + ArgumentsString(arguments) + ")"
  }

  /** The parameters of a function literal, written one after another with no separator. */
  function ParametersString(parameters: seq<Identifier>): string
  {
    if parameters == [] then ""
    else ParametersString(parameters[..|parameters| - 1]) + parameters[|parameters| - 1].value
  }

  /** The arguments of a call, each followed by ", ", the last one included. */
  function ArgumentsString(arguments: seq<Expression>): string
    decreases arguments
  {
    if arguments == [] then ""
    else ArgumentsString(arguments[..|arguments| - 1]) + ExpressionString(arguments[|arguments| - 1]) + ", "
  }

  /** `string` of a statement. */
  function StatementString(s: Statement): string
    decreases s
  {
    match s
    case LetStatement(token, name, value) => token.literal + " " + name.value + " = " + ExpressionString(value) + ";"
    case ReturnStatement(token, returnValue) =>
      token.literal + " " + (if returnValue.Some? then ExpressionString(returnValue.value) else "") + ";"
    case ExpressionStatement(_, _) => " "
    case Block(block) => BlockString(block)
  }

  /** `string` of a block: its statements, one after another. */
  function BlockString(b: BlockStatement): string
    decreases b
  {
    StatementsString(b.statements)
  }

  /** Statements written one after another with no separator, as the `for` loops of node.rs append them. */
  function StatementsString(statements: seq<Statement>): string
    decreases statements
  {
    if statements == [] then ""
    else StatementsString(statements[..|statements| - 1]) + StatementString(statements[|statements| - 1])
  }

  /** `string` of a program. */
  function ProgramString(p: Program): string
  {
    StatementsString(p.statements)
  }

  // ---------------------------------------------------------------------------
  // `token_literal`
  // ---------------------------------------------------------------------------

  /** `token_literal` of an expression: its token's text. */
  function ExpressionTokenLiteral(e: Expression): string
  {
    match e
    case IdentifierExpression(id) => id.token.literal
    case _ => e.token.literal
  }

  /** `token_literal` of a statement: its token's text. */
  function StatementTokenLiteral(s: Statement): string
  {
    match s
    case Block(block) => block.token.literal
    case _ => s.token.literal
  }

  /**
   * `token_literal` of a program: "" when it is empty, and otherwise the
   * `string` (not the token text) of its first statement.
   */
  function ProgramTokenLiteral(p: Program): (r: string)
    ensures p.statements == [] ==> r == ""
  {
    if |p.statements| > 0 then StatementString(p.statements[0]) else ""
  }

  // ---------------------------------------------------------------------------
  // Properties of the renderings
  // ---------------------------------------------------------------------------

  /** Writing two lists of statements is writing the first, then the second. */
  lemma {:induction false} StatementsAppend(a: seq<Statement>, b: seq<Statement>)
    ensures StatementsString(a + b) == StatementsString(a) + StatementsString(b)
    decreases |b|
  {
    if b == [] {
      assert a + b == a;
    } else {
      var b' := b[..|b| - 1];
      assert (a + b)[..|a + b| - 1] == a + b';
      assert (a + b)[|a + b| - 1] == b[|b| - 1];
      StatementsAppend(a, b');
    }
  }

  /** Appending statement lists to a program appends their renderings. */
  lemma ProgramAppend(a: seq<Statement>, b: seq<Statement>)
    ensures ProgramString(Program(a + b)) == ProgramString(Program(a)) + ProgramString(Program(b))
    ensures ProgramString(Program([])) == ""
  {
    StatementsAppend(a, b);
  }

  /** A program is written statement by statement, first statement first. */
  lemma StatementsCons(s: Statement, rest: seq<Statement>)
    ensures StatementsString([s] + rest) == StatementString(s) + StatementsString(rest)
  {
    StatementsAppend([s], rest);
    assert [s][..0] == [];
  }

  /**
   * The token literal of a program is the rendering of its first statement
   * alone, and so a prefix of its rendering.
   */
  lemma ProgramTokenLiteralIsPrefix(p: Program)
    ensures p.statements != [] ==> ProgramTokenLiteral(p) == ProgramString(Program(p.statements[..1]))
    ensures ProgramTokenLiteral(p) <= ProgramString(p)
  {
    if p.statements != [] {
      assert p.statements[..1][..0] == [];
      assert p.statements[..1][0] == p.statements[0];
      StatementsAppend(p.statements[..1], p.statements[1..]);
      assert p.statements[..1] + p.statements[1..] == p.statements;
    }
  }

  /** A block statement is written like a program with the same statements. */
  lemma BlockIsProgram(b: BlockStatement)
    ensures StatementString(Block(b)) == BlockString(b) == ProgramString(Program(b.statements))
  {
  }

  /** An expression statement is written " ", whatever its expression and token. */
  lemma ExpressionStatementIgnoresExpression(t1: Token, e1: Option<Expression>, t2: Token, e2: Option<Expression>)
    ensures StatementString(ExpressionStatement(t1, e1)) == StatementString(ExpressionStatement(t2, e2)) == " "
  {
  }

  /** A let statement is written from its token literal and ends in ";", with five characters beyond its parts. */
  lemma LetShape(t: Token, name: Identifier, value: Expression)
    ensures var r := StatementString(LetStatement(t, name, value));
      && StatementTokenLiteral(LetStatement(t, name, value)) <= r
      && |r| == |t.literal| + |name.value| + |ExpressionString(value)| + 5
      && r[|r| - 1] == ';'
  {
  }

  /** A bare return is written as its literal followed by " ;"; a return with a value puts it between the two. */
  lemma ReturnShape(t: Token, value: Expression)
    ensures StatementString(ReturnStatement(t, None)) == t.literal + " ;"
    ensures StatementString(ReturnStatement(t, Some(value)))
         == t.literal + " " + ExpressionString(value) + ";"
    ensures StatementTokenLiteral(ReturnStatement(t, None)) <= StatementString(ReturnStatement(t, None))
  {
  }

  /** A prefix expression is parenthesised and two characters longer than its parts. */
  lemma PrefixShape(t: Token, operator: string, right: Expression)
    ensures var r := ExpressionString(PrefixExpression(t, operator, right));
      && |r| == |operator| + |ExpressionString(right)| + 2
      && r[0] == '(' && r[|r| - 1] == ')'
      && r[1..|r| - 1] == operator + ExpressionString(right)
  {
  }

  /** An if with an else branch is written as the if without it, then "else" and the alternative. */
  lemma IfElse(t: Token, condition: Expression, consequence: BlockStatement, alternative: BlockStatement)
    ensures ExpressionString(IfExpression(t, condition, consequence, Some(alternative)))
         == ExpressionString(IfExpression(t, condition, consequence, None)) + "else" + BlockString(alternative)
    ensures ExpressionString(IfExpression(t, condition, consequence, None))
         == "if" + ExpressionString(condition) + " " + BlockString(consequence)
  {
  }

  /** Writing two parameter lists is writing the first, then the second. */
  lemma {:induction false} ParametersAppend(a: seq<Identifier>, b: seq<Identifier>)
    ensures ParametersString(a + b) == ParametersString(a) + ParametersString(b)
    decreases |b|
  {
    if b == [] {
      assert a + b == a;
    } else {
      var b' := b[..|b| - 1];
      assert (a + b)[..|a + b| - 1] == a + b';
      assert (a + b)[|a + b| - 1] == b[|b| - 1];
      ParametersAppend(a, b');
    }
  }

  /** A function literal starts with its token literal and "("; its parameters follow with no separator. */
  lemma FunctionLiteralShape(t: Token, parameters: seq<Identifier>, body: BlockStatement)
    ensures var r := ExpressionString(FunctionLiteral(t, parameters, body));
      && ExpressionTokenLiteral(FunctionLiteral(t, parameters, body)) + "(" <= r
      && (|parameters| == 1 ==> ParametersString(parameters) == parameters[0].value)
  {
    if |parameters| == 1 {
      assert parameters[..0] == [];
    }
  }

  /** The sum over the arguments of each rendering's length plus two. */
  function ArgumentsWidth(arguments: seq<Expression>): nat
  {
    if arguments == [] then 0 else |ExpressionString(arguments[0])| + 2 + ArgumentsWidth(arguments[1..])
  }

  /** Every argument adds its own length and two for its ", ". */
  lemma {:induction false} ArgumentsLength(arguments: seq<Expression>)
    ensures |ArgumentsString(arguments)| == ArgumentsWidth(arguments)
    decreases |arguments|
  {
    if arguments != [] {
      var init := arguments[..|arguments| - 1];
      ArgumentsLength(init);
      WidthSnoc(init, arguments[|arguments| - 1]);
      assert init + [arguments[|arguments| - 1]] == arguments;
    }
  }

  /** ArgumentsWidth, taken from the end. */
  lemma {:induction false} WidthSnoc(arguments: seq<Expression>, last: Expression)
    ensures ArgumentsWidth(arguments + [last]) == ArgumentsWidth(arguments) + |ExpressionString(last)| + 2
    decreases |arguments|
  {
    if arguments != [] {
      assert (arguments + [last])[1..] == arguments[1..] + [last];
      WidthSnoc(arguments[1..], last);
    }
  }

  /**
   * A call is its callee, "(", every argument followed by ", ", and ")": its
   * length is the callee's plus two plus the arguments' widths, and with at
   * least one argument it ends in ", )".
   */
  lemma CallShape(t: Token, callee: Expression, arguments: seq<Expression>)
    ensures var r := ExpressionString(CallExpression(t, callee, arguments));
      && |r| == |ExpressionString(callee)| + 2 + ArgumentsWidth(arguments)
      && (arguments != [] ==> r[|r| - 3..] == ", )")
      && (arguments == [] ==> r == ExpressionString(callee) + "()")
  {
    ArgumentsLength(arguments);
  }

  /** The leaves: an identifier is written as its name, a boolean and an integer in their usual forms. */
  lemma LeafShapes(id: Identifier, t: Token, b: bool, n: nat)
    ensures ExpressionString(IdentifierExpression(id)) == id.value
    ensures ExpressionString(Boolean(t, b)) == (if b then "true" else "false")
    ensures IsCanonicalDecimal(ExpressionString(IntegerLiteral(t, n)))
    ensures ParseDecimal(ExpressionString(IntegerLiteral(t, n))) == n
  {
    DecimalRoundTrip(n);
  }

  /** Every node but the program reports its own token's text as its token literal. */
  lemma TokenLiterals(e: Expression, s: Statement)
    ensures e.IdentifierExpression? ==> ExpressionTokenLiteral(e) == e.identifier.token.literal
    ensures !e.IdentifierExpression? ==> ExpressionTokenLiteral(e) == e.token.literal
    ensures s.Block? ==> StatementTokenLiteral(s) == s.block.token.literal
    ensures !s.Block? ==> StatementTokenLiteral(s) == s.token.literal
  {
  }

  // ---------------------------------------------------------------------------
  // The loops of node.rs
  // ---------------------------------------------------------------------------

  /** The `for` loop of `Program::string` and `BlockStatement::string`. */
  method RenderStatements(statements: seq<Statement>) returns (out: string)
    ensures out == StatementsString(statements)
  {
    out := "";
    for i := 0 to |statements|
      invariant out == StatementsString(statements[..i])
    {
      assert statements[..i + 1][..i] == statements[..i];
      out := out + StatementString(statements[i]);
    }
    assert statements[..|statements|] == statements;
  }

  /** `Program::string`. */
  method RenderProgram(p: Program) returns (out: string)
    ensures out == ProgramString(p)
  {
    out := RenderStatements(p.statements);
  }

  /** `BlockStatement::string`. */
  method RenderBlock(b: BlockStatement) returns (out: string)
    ensures out == BlockString(b)
  {
    out := RenderStatements(b.statements);
  }

  /** `FuntionLiteral::string`: the literal, then the parameters appended one by one, then the body. */
  method RenderFunctionLiteral(token: Token, parameters: seq<Identifier>, body: BlockStatement) returns (out: string)
    ensures out == ExpressionString(FunctionLiteral(token, parameters, body))
  {
    out := token.literal;
    out := out + "(";
    for i := 0 to |parameters|
      invariant out == token.literal + "(" + ParametersString(parameters[..i])
    {
      assert parameters[..i + 1][..i] == parameters[..i];
      out := out + parameters[i].value;
    }
    assert parameters[..|parameters|] == parameters;
    out := out + ")";
    var rendered := RenderBlock(body);
    out := out + rendered;
  }

  /** `CallExpression::string`: the callee, "(", each argument with ", " pushed onto it, then ")". */
  method RenderCall(token: Token, callee: Expression, arguments: seq<Expression>) returns (out: string)
    ensures out == ExpressionString(CallExpression(token, callee, arguments))
  {
    out := ExpressionString(callee);
    out := out + "(";
    for i := 0 to |arguments|
      invariant out == ExpressionString(callee) + "(" + ArgumentsString(arguments[..i])
    {
      assert arguments[..i + 1][..i] == arguments[..i];
      var arg := ExpressionString(arguments[i]);
      arg := arg + ", ";
      out := out + arg;
    }
    assert arguments[..|arguments|] == arguments;
    out := out + ")";
  }

  // ---------------------------------------------------------------------------
  // `ast_test`
  // ---------------------------------------------------------------------------

  /** The tree `ast_test` builds: `let five = ten;`. */
  const TestProgram: Program :=
    Program([
      LetStatement(
        Token(LET, "let"),
        Identifier(Token(IDENT, "five"), "five"),
        IdentifierExpression(Identifier(Token(IDENT, "ten"), "ten")))
    ])

  /** `ast_test`: the tree renders as "let five = ten;". */
  lemma AstTest()
    ensures ProgramString(TestProgram) == "let five = ten;"
  {
    assert TestProgram.statements[..0] == [];
  }

  /** `ast_test`, run through the loop of `Program::string`. */
  method RunAstTest() returns (out: string)
    ensures out == "let five = ten;"
  {
    out := RenderProgram(TestProgram);
    AstTest();
  }
}
