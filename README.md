# Monkey lexer, tokens and AST rendering in Dafny

This project models the front end of the Monkey interpreter written in Rust. It has three parts.

- **The token vocabulary** (src/lexer/token.rs) is in `token.dfy`, module `Tokens`:
  - the 27 token kinds;
  - the `Token` record;
  - `Token::new`;
  - the reserved-word lookup `lookup_token`.
- **The lexer** (src/lexer/lexer.rs) is in `lexer.dfy`, module `Lexing`. It has two halves.
  - The first half is a value-level specification of one `next_token` call: `NextSpec`, over a `Cursor(position, readPosition, ch)`. Runs of letters, digits and blanks are described by where they end (`RunEnd`), not by a loop. `Scan` is n successive calls.
  - The second half is the class `Lexing.Lexer`: the source's stateful lexer with the fields `position`, `read_position` and `ch`. Its methods `ReadChar`, `SkipWhitespace`, `ReadIdentifier`, `ReadNumber` and `NextToken` use the source's own loops. Each is proved to move the cursor exactly as the specification says, and `Valid()` is preserved throughout.
- **Lexer properties:**
  - `lexer_facts.dfy` (`LexerFacts`) proves what one call does: longest match for `==` and `!=`, the panic condition, identifier and number runs, illegal characters, whitespace, and EOF.
  - `lexer_locality.dfy` (`LexerLocality`) proves that scanning a text made of pieces is scanning the pieces one after another, when the pieces do not glue together.
  - `lexer_scenario.dfy` (`LexerScenario`) uses this to prove the scenario test `lexer_test` in full. The proof is both a lemma over `Scan` and a method that drives a `Lexer` object.
- **The AST** (src/ast/node.rs) is in `ast.dfy`, module `Ast`:
  - the twelve node kinds, as the datatypes `Expression`, `Statement`, `BlockStatement`, `Identifier` and `Program`;
  - `string` and `token_literal` as recursive functions;
  - the `for`/`for_each` loops of `Program`, `BlockStatement`, `FuntionLiteral` and `CallExpression`, as methods proved equal to those functions;
  - `ast_test`.

The model follows the code as written. Some of its behaviour is worth noting:

- `ExpressionStatement::string` returns `" "` whatever it wraps. It computes the wrapped expression's rendering (node.rs:87-89) and discards it.
- `CallExpression::string` puts `", "` after every argument, the last one included.
- `is_letter` accepts `'a'..'z'`, `'_'` and only the single upper-case letter `'A'`: its middle test is `'A' <= ch && ch <= 'A'` (lexer.rs:136).
- At end of input `next_token` keeps returning `Token(EOF, "\0")`, but `position` and `read_position` still grow by one on every call.
- `next_token` panics (the `unwrap` on `chars().nth`) when `=` or `!` is the last character. `NextSpec` returns `Panics` there, and `Lexer.NextToken` requires that no panic is reached.
- `new` sets `ch` to `'\0'` and `read_position` to 0 without reading. So the first `next_token` returns `Token(EOF, "\0")` and only then loads `input[0]`. `lexer_test` discards that token.
- `Program::token_literal` returns the first statement's `string()`, not a token's text.

## Model

| member | source | states |
|---|---|---|
| Tokens.NewToken | src/lexer/token.rs:50-55 | the token stores exactly the given kind and literal |
| Tokens.LookupToken | src/lexer/token.rs:57-68 | the result is IDENT or a keyword kind, and a keyword kind exactly when the word is one of the seven reserved words |
| Tokens.KeywordText | src/lexer/token.rs:58-65 | a keyword kind has a reserved word, and no other kind has one |
| Tokens.LookupReservedWords | src/lexer/token.rs:59-65 | fn, let, true, false, if, else and return map to FUNCTION, LET, TRUE, FALSE, IF, ELSE and RETURN |
| Tokens.LookupOtherWords | src/lexer/token.rs:66 | every other word, the empty one included, maps to IDENT |
| Tokens.LookupRange | src/lexer/token.rs:57-68 | the lookup never yields ILLEGAL, EOF, INT or an operator or punctuation kind |
| Tokens.LookupInjective | src/lexer/token.rs:58-65 | distinct reserved words give distinct kinds, and KeywordText inverts the lookup on them |
| Tokens.KeywordRoundTrip | src/lexer/token.rs:58-65 | looking up a keyword kind's reserved word gives the kind back |
| Tokens.TokenEquality | src/lexer/token.rs:43-47 | tokens are equal exactly when their kinds and their literals are equal |
| Lexing.RunEnd | src/lexer/lexer.rs:118-132 | the end of a run lies within the input, and the character there (or the sentinel) is outside the class |
| Lexing.IsLetterSet | src/lexer/lexer.rs:135-137 | a letter is exactly one of 'a'..'z', 'A' or '_'; 'B'..'Z' are not letters |
| Lexing.RunEndOf | src/lexer/lexer.rs:118-132 | a run of class characters followed by an outside character, or by the end, ends exactly there |
| Lexing.RunIsInClass | src/lexer/lexer.rs:118-132 | every character between the start of a run and its end is of the class |
| Lexing.Settle | src/lexer/lexer.rs:95-108 | after a read, `read_position == position + 1`, and `ch` is `input[position]`, or the sentinel past the end |
| Lexing.SkipBlanks | src/lexer/lexer.rs:89-93 | skipping leaves the cursor well formed, on a non-blank, no earlier than before, and leaves a fresh cursor alone |
| Lexing.NextSpec | src/lexer/lexer.rs:21-87 | one call either panics or returns a token and a cursor that satisfies the read invariant |
| Lexing.Classify | src/lexer/lexer.rs:24-83 | the dispatch on `ch` after whitespace, with the same result invariant |
| Lexing.Scan | src/lexer/lexer.rs:21-87 | n calls that do not panic return exactly n tokens |
| Lexing.Lexer.constructor | src/lexer/lexer.rs:12-19 | a new lexer holds the input, with position 0, read position 0 and `ch` the sentinel |
| Lexing.Lexer.ReadChar | src/lexer/lexer.rs:95-108 | the cursor moves onto the old read position, reading the sentinel past the end |
| Lexing.Lexer.SkipWhitespace | src/lexer/lexer.rs:89-93 | the loop leaves the cursor exactly where SkipBlanks says |
| Lexing.Lexer.ReadIdentifier | src/lexer/lexer.rs:118-124 | the loop stops at the end of the letter run and returns the input between the start and there |
| Lexing.Lexer.ReadNumber | src/lexer/lexer.rs:126-132 | the loop stops at the end of the digit run and returns the input between the start and there |
| Lexing.Lexer.NextToken | src/lexer/lexer.rs:21-87 | the returned token and the new cursor are the ones NextSpec gives for the old cursor |
| LexerFacts.Repeat | src/lexer/lexer.rs:70 | n copies of one token |
| LexerFacts.FirstTokenIsEof | src/lexer/lexer.rs:12-19 | a fresh lexer returns `Token(EOF, "\0")` first and only then loads `input[0]`, or the sentinel on empty input |
| LexerFacts.SentinelMeansEnd | src/lexer/lexer.rs:96-97 | on input free of NUL, a started lexer reads the sentinel only past the end |
| LexerFacts.EofIsSticky | src/lexer/lexer.rs:70 | past the end every call returns EOF, `ch` stays the sentinel, and the position grows by one |
| LexerFacts.EofForever | src/lexer/lexer.rs:70 | past the end, any number of calls return only EOF tokens |
| LexerFacts.AssignOrEqual | src/lexer/lexer.rs:25-36 | `=` panics as the last character, gives EQ "==" consuming two when followed by `=`, else ASSIGN "=" consuming one |
| LexerFacts.BangOrNotEqual | src/lexer/lexer.rs:46-57 | `!` panics as the last character, gives NOT_EQ "!=" consuming two when followed by `=`, else BANG "!" consuming one |
| LexerFacts.PanicsExactly | src/lexer/lexer.rs:26 | a call panics if and only if the token starts with `=` or `!` at the last index |
| LexerFacts.IdentifierToken | src/lexer/lexer.rs:73-76 | an identifier is the maximal letter run, equal to the input slice, of kind `lookup_token(literal)`, and the next character is left unread |
| LexerFacts.NumberToken | src/lexer/lexer.rs:77-78 | a number is the maximal ASCII-digit run, equal to the input slice, of kind INT, and the next character is left unread |
| LexerFacts.IllegalToken | src/lexer/lexer.rs:79-81 | any other character gives an ILLEGAL token of that one character and moves exactly one place |
| LexerFacts.NoTokenStartsAtBlank | src/lexer/lexer.rs:89-93 | no token starts with a space, tab, newline or carriage return, and everything skipped before it is blank |
| LexerFacts.LiteralIsConsumedText | src/lexer/lexer.rs:21-87 | once started, a token read inside the input carries exactly the characters it consumed |
| LexerFacts.Progress | src/lexer/lexer.rs:85 | every call moves the read position forward |
| LexerLocality.NextAppend | src/lexer/lexer.rs:21-87 | a non-EOF token read inside a text is unchanged by appended text that does not continue its letter or digit run |
| LexerLocality.ScanShift | src/lexer/lexer.rs:21-87 | scanning text that follows a prefix is the same as scanning it alone, shifted by the prefix's length |
| LexerLocality.ScanAppend | src/lexer/lexer.rs:21-87 | a scan that returns no EOF token is unchanged by text appended after it, when the text's last character and the appended text's first character are not both letters or both digits |
| LexerLocality.ScanSplit | src/lexer/lexer.rs:21-87 | n calls followed by m calls are n + m calls |
| LexerLocality.ScanConcat | src/lexer/lexer.rs:21-87 | the text of a chain of pieces scans into the concatenation of the pieces' tokens |
| LexerLocality.PiecesConcat | src/lexer/lexer.rs:21-87 | chains joined at non-gluing boundaries form one chain |
| LexerScenario.LexerTestScenario | src/lexer/lexer.rs:139-244 | on the program text of `lexer_test`, a fresh lexer returns EOF, then every expected token in order, ending with EOF |
| LexerScenario.OnlyCapitalA | src/lexer/lexer.rs:73-81 | on "AB" the lexer reads IDENT "A" and then ILLEGAL "B", ending at the end of the text, since `is_letter` (lexer.rs:135-137) rejects 'B' |
| LexerScenario.TestInputIsAscii | src/lexer/lexer.rs:219-236 | the program text of `lexer_test` is ASCII |
| LexerScenario.ReadTokens | src/lexer/lexer.rs:239-244 | driving a new `Lexer` object n times returns the tokens Scan describes |
| LexerScenario.LexerTest | src/lexer/lexer.rs:139-244 | the `Lexer` object returns the initial EOF and then exactly the tokens `lexer_test` asserts |
| Ast.DigitChar | src/ast/node.rs:164-166 | the digit character of a value below ten |
| Ast.DecimalString | src/ast/node.rs:164-166 | the decimal form is non-empty, all digits, and starts with '0' exactly when the value is 0 |
| Ast.DecimalRoundTrip | src/ast/node.rs:164-166 | reading the decimal form of n gives back n |
| Ast.CanonicalRoundTrip | src/ast/node.rs:164-166 | every canonical numeral is the decimal form of its value |
| Ast.LeadingDigitPositive | src/ast/node.rs:164-166 | a numeral that does not start with '0' has a positive value |
| Ast.DecimalInjective | src/ast/node.rs:164-166 | distinct values have distinct decimal forms |
| Ast.BooleanString | src/ast/node.rs:146-148 | a boolean renders "true" exactly when it is true, else "false" |
| Ast.ProgramTokenLiteral | src/ast/node.rs:10-16 | the token literal of an empty program is "" |
| Ast.ProgramTokenLiteralIsPrefix | src/ast/node.rs:10-16 | the token literal of a non-empty program is the rendering of its first statement alone, a prefix of the program's rendering |
| Ast.StatementsAppend | src/ast/node.rs:18-24 | rendering a concatenation of statement lists concatenates their renderings |
| Ast.ProgramAppend | src/ast/node.rs:18-24 | an empty program renders "", and program rendering distributes over appending statements |
| Ast.StatementsCons | src/ast/node.rs:18-24 | a program renders its first statement, then the rest |
| Ast.BlockIsProgram | src/ast/node.rs:106-114 | a block renders like a program with the same statements |
| Ast.ExpressionStatementIgnoresExpression | src/ast/node.rs:86-91 | every expression statement renders " ", whatever its token and expression |
| Ast.LetShape | src/ast/node.rs:38-47 | a let renders starting with its token literal, five characters longer than its parts, ending in ';' |
| Ast.ReturnShape | src/ast/node.rs:63-71 | a bare return renders literal + " ;", and a return with a value puts the value before the ';' |
| Ast.PrefixShape | src/ast/node.rs:182-189 | a prefix expression is parenthesised operator and operand, two characters longer than they are |
| Ast.IfElse | src/ast/node.rs:206-218 | an if renders "if", condition, " " and consequence, with "else" and the alternative appended exactly when present |
| Ast.ParametersAppend | src/ast/node.rs:244-246 | parameters render one after another with no separator |
| Ast.FunctionLiteralShape | src/ast/node.rs:236-251 | a function literal starts with its token literal and "(", and a single parameter renders as its name |
| Ast.ArgumentsLength | src/ast/node.rs:272-276 | the arguments' rendering is as long as the sum over the arguments of each one's length plus two |
| Ast.WidthSnoc | src/ast/node.rs:272-276 | appending an argument adds its length plus two |
| Ast.CallShape | src/ast/node.rs:267-281 | a call's length is the callee's plus two plus the arguments' widths, it ends in ", )" when there are arguments, and it is callee + "()" when there are none |
| Ast.LeafShapes | src/ast/node.rs:129-166 | an identifier renders its value, a boolean "true"/"false", and an integer a canonical numeral of its value |
| Ast.TokenLiterals | src/ast/node.rs:34-36 | every node other than the program reports its own token's literal |
| Ast.RenderStatements | src/ast/node.rs:106-114 | the `for` loop appending each statement's rendering gives the statements' rendering |
| Ast.RenderProgram | src/ast/node.rs:18-24 | the loop of `Program::string` computes the program's rendering |
| Ast.RenderBlock | src/ast/node.rs:106-114 | the loop of `BlockStatement::string` computes the block's rendering |
| Ast.RenderFunctionLiteral | src/ast/node.rs:236-251 | the `for_each` over the parameters computes the function literal's rendering |
| Ast.RenderCall | src/ast/node.rs:267-281 | the `for_each` pushing ", " onto each argument computes the call's rendering |
| Ast.AstTest | src/ast/node.rs:286-308 | the tree of `ast_test` renders "let five = ten;" |
| Ast.RunAstTest | src/ast/node.rs:286-308 | the loop of `Program::string` on that tree returns "let five = ten;" |

## Left out

- Lexing.Lexer.constructor: requires ASCII input. The source slices its input by byte offsets (lexer.rs:123, 131) that it computes as character counts (`chars().nth`). These agree only on ASCII text, and on other text the slice can panic or cut the wrong characters.
- Lexing.Lexer.NextToken: requires that the call does not reach the `unwrap` panic (`=` or `!` as the last character). The panic itself is modelled as `Panics` in `NextSpec`, and its exact condition is `LexerFacts.PanicsExactly`.
- The `println!` diagnostics (lexer.rs:84, 99-103) are output only and are not modelled.
- `peek` (lexer.rs:110-116) is never called and is not modelled.
- `usize` width is not modelled. `position` and `read_position` are unbounded `nat`s, so overflow after 2^64 calls is not modelled. `IntegerLiteral`'s value is an unbounded `nat`.
- Ownership, `Box<dyn ...>` trait objects and dynamic dispatch are replaced by datatypes with exhaustive matching.
- src/ast/mod.rs holds only the empty marker traits `Node`, `Expression` and `Statement`, which have no behaviour, so it is not modelled.
- The unused import `use std::env` (lexer.rs:1) has no behaviour.
- No parser or evaluator exists in the repository, so none is modelled.
- The test harness's `assert_eq!` failures are stated as equalities the lemmas prove, not as runtime checks.
