# dicebot core in Dafny

A model of the expression engine of dicebot. dicebot is a Discord bot that
reads dice formulas such as `50, pemdas = 5 + 2 * 8 / 4 ^ 7` and
answers with rolled results. The model covers these parts:

- **Tokens** (`token.dfy`): the kinds, the token record, the lenient
  decimal decoder `Int()`, and `Quote()`, which renders a token for error
  messages. Go's `%q` is modelled by `quoting.dfy`. Decimal digits and
  their formatting are in `numerals.dfy`.
- **Lexer** (`lexer.dfy`, `lexer_facts.dfy`, `lexer_examples.dfy`): the
  rune reader that tracks line and column, and `Read`. `Read` skips commas
  and white space, then classifies:
  - operators, integers and words;
  - the replacement rune and unrecognised runes;
  - end of input.

  Finally it reclassifies any token matching `[Dd]\d+` as a dice token.
  The Unicode class tables are a parameter (`Runes.Classes`). Its ASCII
  part is fixed by `Runes.AsciiFaithful`.
- **Syntax tree and evaluator** (`ast.dfy`, `ast_facts.dfy`): the term
  variants and `Solve`. Go's `/` truncates toward zero. The die rolls
  from `math/rand` are an explicit sequence of draws.
- **Parser and its errors** (`parser.dfy`, `parser_facts.dfy`,
  `parser_examples.dfy`, `expectation.dfy`): the recursive-descent parser
  over the lexer's token stream, and the `expectation` error with its
  message.
- **Discord helpers** (`discord.dfy`): the Markdown escaper and the
  slash-command option lookup.

The parser is modelled as the code is written. Two of its behaviours
differ from what the repository's tests expect:

- The lexer reads `d4` as one dice token. The parser's dice rule wants a
  dice token followed by an integer token. So `2d4` is rejected
  (`LexingExamples.TwoDFourRejected`). The dice token's own digits play no
  part in a dice term: `3 d4 6` lexes to an integer, the dice token `d4`
  and an integer, and parses to three six-sided dice
  (`ParsingExamples.CountedDice`).
- An equation name is a single word.

A third behaviour agrees with the tests but is evidently not what a sign
is meant to do. A sign checks that an integer follows, then takes its
value from the token after that integer (parser.go:210-212 and 220-222).
In `1 + +1 - -1` both signed literals therefore read as zero, which is
what internal/parser/parser_test.go:52-59 expects
(`ParsingExamples.SignedLiterals`).

The model states each of these as a proved property. It does not correct
them.

The main results are round trips:

- Parsing the printed form of any formula whose literals, dice counts
  and faces are non-negative gives the formula back
  (`ParsingFacts.FormulaRoundTrip`).
- Unquoting `Quote()` gives back the token text.
- Reading a formatted number gives back the number.
- Unescaping the escaper's output gives back the graphic part of the
  input. Conversely, every well-escaped text is the escape of its
  unescaping.

## Model

| member | source | states |
|---|---|---|
| Tokens.New | internal/token/token.go:31-33 | the token carries exactly the line, column, kind and text it was built from |
| Tokens.ScanInt | internal/token/token.go:35-46 | the byte loop computes `Int()`, and on an all-digit text it is the positional decimal value of the digits |
| Tokens.Token.Int | internal/token/token.go:35-46 | the decoded value is the positional decimal value of the text's digits, with every other byte skipped |
| Tokens.Token.Quote | internal/token/token.go:48-57 | end of input and decoding errors render as their fixed phrases; every other token renders as a quoted text that unquotes to exactly the token's text |
| Tokens.QuoteDependsOnlyOnText | internal/token/token.go:48-57 | two quoted tokens of ordinary kinds with the same text render identically, whatever their position or kind |
| Quoting.QuoteRoundTrip | internal/token/token.go:55 | unquoting the `%q` rendering of any text gives the text back, so the message shows exactly the token received |
| Numerals.ValueIgnoresNonDigits | internal/token/token.go:39-43 | `Int()` skips every byte that is not an ASCII digit: its value is that of the digits alone |
| Numerals.ValueSkipsLeadingNonDigit | internal/token/token.go:40 | a leading non-digit contributes nothing to the decoded value |
| Numerals.ValueAppend | internal/token/token.go:39-43 | each further digit multiplies the accumulated value by ten and adds the digit; a non-digit leaves it unchanged |
| Numerals.ValueIsPositional | internal/token/token.go:41 | on an all-digit text the accumulated value equals the positional sum of digit times power of ten |
| Numerals.FormatNatRoundTrip | internal/parser/expectation.go:16-18 | decoding the decimal rendering of a natural number gives the number |
| Numerals.FormatRoundTrip | internal/parser/expectation.go:16-18 | decoding the rendering of any integer gives its magnitude; a negative number renders with a leading `-` |
| Numerals.SplitDigitsOf | internal/parser/expectation.go:16 | splitting a digit run followed by a non-digit yields exactly that run and the remainder |
| Lexing.ReadRune | internal/lexer/lexer.go:108-135 | the cursor advances by the current rune; a line break starts a new line at column 0; any other rune advances the column; end of input leaves the position; validity is kept |
| Lexing.New | internal/lexer/lexer.go:25-38 | the lexer starts on the first rune at line 1, column 1, or at line 2, column 0 when that rune is a line break, or at column 0 on empty input |
| Lexing.Skip | internal/lexer/lexer.go:42-45 | every skipped rune is a comma or white space, and the lexer stops on the first rune that is neither |
| Lexing.ReadRun | internal/lexer/lexer.go:84-92 | every consumed rune continues the number or word, and the run is maximal |
| Lexing.Scan | internal/lexer/lexer.go:52-97 | end of input is reported exactly when the input is exhausted and then consumes nothing; every other token consumes at least one rune; the switch itself never yields the dice kind |
| Lexing.Read | internal/lexer/lexer.go:41-106 | the token text is exactly the input between the skipped separators and the new cursor; the token has the position of its first rune; EOF exactly at end of input; the kind is D if and only if the text matches `[Dd]\d+` |
| Lexing.Tokenize | internal/lexer/lexer.go:56-57 | reading to the end yields a stream that ends with end of input and contains no earlier end of input |
| LexingFacts.ReadLexeme | internal/lexer/lexer.go:52-103 | each token's text is well formed for its kind: one operator rune, a digit run, a word, `[Dd]\d+`, the replacement rune, or one unrecognised rune; it never starts with a separator |
| LexingFacts.ReadMaximal | internal/lexer/lexer.go:84-92 | numbers and words are maximal: the rune after the token could not have extended it |
| LexingFacts.ReadPosition | internal/lexer/lexer.go:43-50 | the recorded line and column are those of the token's first rune, counted over the input up to it; end of input gets the position after the whole input |
| LexingFacts.EofIsSticky | internal/lexer/lexer.go:56-57 | once end of input is read, reading again yields the same token and lexer |
| LexingExamples.TwoDFour | internal/lexer/lexer.go:99-103 | `2d4` lexes to an integer `2`, a dice token `d4` and end of input at column 3 |
| LexingExamples.TwoDFourRejected | internal/parser/parser.go:189-194 | `2d4` is rejected: an integer is expected at end of input |
| LexingExamples.Bang | internal/lexer/lexer.go:93-96 | `!` lexes to one unrecognised token followed by end of input on the same column |
| LexingExamples.BangRejected | internal/parser/parser_test.go:67-68 | `!` is rejected at line 1, column 1, expecting an integer, a dice term or `"("` |
| Expectations.Join | internal/parser/expectation.go:19 | for at least one part, the joined length is the parts' lengths plus one separator between each two |
| Expectations.JoinSingle | internal/parser/expectation.go:19 | a single alternative is written without a separator |
| Expectations.JoinAppend | internal/parser/expectation.go:19 | each further alternative is appended after ` or ` |
| Expectations.Error | internal/parser/expectation.go:15-21 | for a token at a non-negative position, the line and column read back from the start of the message are those of the received token; the message ends with `: expected `, the alternatives joined by ` or `, `, got ` and the received token as `Quote` renders it; the length leaves no room for anything between the column and that ending |
| Expectations.EofMessage | internal/parser/expectation.go:16-20 | an error at end of input ends with `, got end of input` |
| Ast.TruncDiv | internal/ast/ast.go:34-36 | the quotient leaves a remainder smaller than the divisor in magnitude and with the dividend's sign, so it truncates toward zero |
| Ast.Roll | internal/ast/ast.go:52-61 | a non-positive count rolls nothing and totals 0; otherwise exactly `count` draws are taken; failure happens exactly on non-positive faces or too few draws |
| Ast.RollDice | internal/ast/ast.go:52-61 | the accumulating loop computes the same outcome as the recursive definition of the roll |
| Ast.Solve | internal/ast/ast.go:24-67 | whatever evaluation leaves for later is a suffix of the draws it was given |
| AstFacts.SolveConsumesDrawCount | internal/ast/ast.go:26-61 | a successful evaluation takes exactly one draw per die, from the front of the sequence |
| AstFacts.RollFrame | internal/ast/ast.go:55-58 | a roll is unaffected by draws beyond those it takes, and leaves them in place |
| AstFacts.SolveFrame | internal/ast/ast.go:26-61 | the same holds for any term |
| AstFacts.LeftBeforeRight | internal/ast/ast.go:28-48 | a binary node solves its left operand on the first draws and its right operand on the draws after them, then combines the two values |
| AstFacts.DiceFreeIgnoresDraws | internal/ast/ast.go:63-67 | a term without dice takes no draws, and its outcome is the same for every draw sequence |
| AstFacts.DiceFreeSameValue | internal/ast/ast.go:63-67 | two draw sequences give a dice-free term the same success, value or error |
| AstFacts.DiceBounds | internal/ast/ast.go:55-58 | with draws in range, `count` dice with `faces` faces total between `count` and `count * faces` |
| AstFacts.NoDiceRolled | internal/ast/ast.go:55 | a dice term with a non-positive count is 0 and takes no draws |
| AstFacts.DivideTruncates | internal/ast/ast.go:34-36 | -7/2 is -3, 7/-2 is -3, -7/-2 is 3, and dividing by zero fails |
| AstFacts.SolveExamples | internal/ast/ast_test.go:13-18 | the test's five evaluations: 4*2=8, 42/21=2, 40+2=42, 2-4=-2, 42=42, with no draws taken |
| Parsing.Parse | internal/parser/parser.go:9-23 | a failure reports a token that the lexer produced from the input |
| Parsing.Expected | internal/parser/parser.go:30-32 | the error is a failure at the current token, naming that token as received and the given alternatives as expected |
| Parsing.ParseETerm | internal/parser/parser.go:86-104 | the parse advances over non-EOF tokens, or fails at a token it reached, reporting that token |
| Parsing.ParseMDTerm | internal/parser/parser.go:106-136 | the same progress guarantee for products and quotients |
| Parsing.ParseMDRest | internal/parser/parser.go:112-135 | the loop over further `*` and `/` never moves backward and never consumes end of input |
| Parsing.ParseASTerm | internal/parser/parser.go:138-168 | the same progress guarantee for sums and differences |
| Parsing.ParseASRest | internal/parser/parser.go:144-167 | the loop over further `+` and `-` never moves backward and never consumes end of input |
| Parsing.ParseBottomTerm | internal/parser/parser.go:171-241 | a bottom term consumes at least one token, or fails reporting a token it reached |
| Parsing.ParseGroup | internal/parser/parser.go:223-237 | a parenthesised group consumes at least its opening parenthesis, or fails reporting a token it reached |
| Parsing.ParseOptionalEquationName | internal/parser/parser.go:68-84 | a stream not starting with a word has no name and consumes nothing; a word then `=` is the name and consumes both; a word then anything else fails at that token, expecting `"="` |
| Parsing.ParseEquation | internal/parser/parser.go:54-66 | an equation consumes at least one token, or fails reporting a token it reached |
| Parsing.ParseFormula | internal/parser/parser.go:39-52 | equations parsed earlier are kept in order at the front of the result; an error names a token of the stream |
| ParsingExamples.Literals | internal/parser/parser.go:184-202 | at any position, an integer not followed by a dice token is a literal of its decoded value, and parsing resumes after it |
| ParsingExamples.CountedDice | internal/parser/parser.go:184-200 | an integer, a dice token and an integer are a dice term of the first integer's value in dice with the second's value in faces, whatever the dice token's text |
| ParsingExamples.LeadingDice | internal/parser/parser.go:173-183 | a dice token then an integer is one die with the integer's value in faces |
| ParsingExamples.LeadingDiceNeedsFaces | internal/parser/parser.go:173-178 | a dice token not followed by an integer fails at the next token, expecting an integer |
| ParsingExamples.SignNeedsInteger | internal/parser/parser.go:203-218 | a sign not followed by an integer fails at the next token, expecting an integer |
| ParsingExamples.SumBindsTighter | internal/parser/parser.go:106-168 | `a + b * c` parses as `(a + b) * c`: sums bind tighter than products |
| ParsingExamples.ProductBindsTighter | internal/parser/parser.go:86-136 | `a / b ^ c` parses as `(a / b) ^ c` |
| ParsingExamples.PowerRightAssociative | internal/parser/parser.go:86-104 | `a ^ b ^ c` parses as `a ^ (b ^ c)` |
| ParsingExamples.DifferenceLeftAssociative | internal/parser/parser.go:144-167 | `a - b - c` parses as `(a - b) - c` |
| ParsingExamples.QuotientLeftAssociative | internal/parser/parser.go:112-135 | `a / b / c` parses as `(a / b) / c` |
| ParsingExamples.UnexpectedTermStart | internal/parser/parser.go:238-239 | a token that cannot start a term is rejected at that token, expecting an integer, a dice term or `"("` |
| ParsingExamples.UnexpectedFirstToken | internal/parser/parser_test.go:67-68 | a formula opening with such a token fails with that error |
| ParsingExamples.UnexpectedAfterLiteral | internal/parser/parser_test.go:71-72 | after a literal, a token that neither continues the term nor starts an equation is rejected with the same error |
| ParsingExamples.NameNeedsEqual | internal/parser/parser.go:73-78 | a word not followed by `=` is rejected at the following token, expecting `"="` |
| ParsingExamples.MultiWordNameRejected | internal/parser/parser.go:68-84 | a second word after a name is rejected at that word, expecting `"="` |
| ParsingExamples.DiceNeedFaces | internal/parser/parser.go:189-194 | a count and a dice token not followed by an integer fail at that token, expecting an integer |
| ParsingExamples.GroupNeedsClose | internal/parser/parser.go:223-232 | a group whose expression is followed by anything but `)` fails at that token, expecting `")"` |
| ParsingExamples.UnclosedGroup | internal/parser/parser_test.go:75-76 | on the split tokens `( 5 d 8` and end of input, the error expects `")"` at end of input |
| ParsingExamples.SignSkipsLiteral | internal/parser/parser.go:203-222 | a sign and an integer consume two tokens, and the literal is the value of the token after the integer, negated for `-` |
| ParsingExamples.SignedLiterals | internal/parser/parser_test.go:19 | `1 + +1 - -1`, lexed as written, parses to `(1 + 0) - 0` |
| ParsingFacts.LiftBottom | internal/parser/parser.go:86-168 | a bottom term followed by a closing token is also the whole term at every precedence level |
| ParsingFacts.BottomRoundTrip | internal/parser/parser.go:171-241 | the printed form of any printable term parses back, as a bottom term, to that term, ending just after it |
| ParsingFacts.LiteralRoundTrip | internal/parser/parser.go:184-202 | a formatted natural parses back to its value |
| ParsingFacts.DiceRoundTrip | internal/parser/parser.go:184-200 | the token sequence count, `d`, faces parses back to the dice term |
| ParsingFacts.Parenthesised | internal/parser/parser.go:223-237 | a parenthesised binary operation parses back to that operation |
| ParsingFacts.ParenthesisedSum | internal/parser/parser.go:138-168 | the same for `+` and `-` inside parentheses |
| ParsingFacts.ParenthesisedProduct | internal/parser/parser.go:106-136 | the same for `*` and `/` inside parentheses |
| ParsingFacts.ParenthesisedPower | internal/parser/parser.go:86-104 | the same for `^` inside parentheses |
| ParsingFacts.PowerStep | internal/parser/parser.go:92-100 | a term, `^`, and an exponent term form an exponent node |
| ParsingFacts.ParenthesesStep | internal/parser/parser.go:223-237 | a term between parentheses is that term as a bottom term |
| ParsingFacts.LeftOfPower | internal/parser/parser.go:106-136 | a bottom term before `^` is the whole product term |
| ParsingFacts.GroupRoundTrip | internal/parser/parser.go:223-237 | a grouped binary term parses back from its printed form |
| ParsingFacts.TermRoundTrip | internal/parser/parser.go:86-104 | the printed form of any printable term parses back to the term at the top precedence level |
| ParsingFacts.NameRoundTrip | internal/parser/parser.go:68-84 | wherever it stands, a word followed by `=` is read as the equation's name, and parsing resumes after the `=` |
| ParsingFacts.EquationStep | internal/parser/parser.go:54-66 | an equation is its optional name followed by its term |
| ParsingFacts.EquationRoundTrip | internal/parser/parser.go:54-84 | the printed form of any equation parses back to the equation |
| ParsingFacts.FormulaStep | internal/parser/parser.go:42-49 | an equation parsed before end of input is appended, and parsing continues after it |
| ParsingFacts.FormulaFrom | internal/parser/parser.go:39-52 | a printed list of equations parses to exactly that list |
| ParsingFacts.FormulaRoundTrip | internal/parser/parser.go:9-52 | printing any formula whose literals, dice counts and faces are non-negative, and closing it with end of input, gives a token stream that parses back to the formula |
| Discord.EscapeRune | discord.go:175-190 | a rune becomes at most two runes, each an inserted backslash or the rune itself, and the rune itself is written only when it is graphic |
| Discord.Escape | discord.go:169-194 | the escape is at most twice as long as the input, and every rune of it is a backslash or a graphic rune |
| Discord.EscapeMarkdown | discord.go:169-194 | the rune loop computes the escape of the whole input |
| Discord.EscapeAppend | discord.go:171-191 | escaping distributes over concatenation |
| Discord.EscapeLength | discord.go:169-194 | the output length is that of the graphic runes of the input plus one per punctuation rune among them |
| Discord.EscapeRoundTrip | discord.go:169-194 | unescaping the output gives back the input with only its non-graphic runes removed |
| Discord.EscapeDrawsFromInput | discord.go:175-177 | every output rune is an inserted backslash or a graphic rune of the input, so no non-graphic rune reaches the channel |
| Discord.EscapeWellEscaped | discord.go:186-190 | every punctuation rune of the output is preceded by exactly one backslash, and every backslash escapes a punctuation rune |
| Discord.UnescapeEscape | discord.go:169-194 | conversely, every well-escaped text of graphic runes is the escape of its unescaping |
| Discord.GetStringOption | discord.go:35-45 | the value of the first option with the given name, rendered; the empty string when no option has that name |

## Left out

- UTF-8 is not modelled. The input is a sequence of already decoded runes, so offsets count runes and every rune has width 1. Go's decoder yields `RuneError` of width 1 for each byte it cannot decode; the model represents each such byte as one U+FFFD rune.
- Unicode's space, letter, number and graphic tables are a parameter. Only their ASCII part and "U+FFFD is not a space" are fixed.
- Go's `%q` is modelled for ASCII: quote, backslash, the named control escapes and `\xHH`. Every non-ASCII rune is taken as printable and written as itself. Go would escape non-printable non-ASCII runes with `\u` or `\U`.
- Go's `%v` of an option's JSON value is a `render` parameter of `GetStringOption`.
- `math/rand` is replaced by an explicit sequence of draws, each standing for the result of one `rand.Intn(faces)` call. Running out of draws (`OutOfDraws`) exists only in the model.
- Ast.Solve: Go's 64-bit wrap-around on overflow is not modelled. Values are unbounded integers.
- Ast.Solve: Go panics on `rand.Intn` of a non-positive bound and on division by zero. These become the errors `NonPositiveFaces` and `DivideByZero`.
- Ast.Solve: the exponent term the parser builds has no evaluation in ast.go, so solving one yields `NotSolvable`.
- Tokens.Kind: internal/token/token.go:7-22 declares no `Word` kind, yet internal/lexer/lexer.go:89 gives word tokens the kind `token.Word`, so the source as given does not compile. The model reads the lexer's word kind as `ID`. Only that reading lets a name reach the parser: internal/parser/parser.go:69 accepts a name only on an `ID` token, and internal/parser/parser_test.go:33 expects `pemdas = …` to be named. With a separate word kind, every word would fail as an unexpected term start (internal/parser/parser.go:239).
- Tokens.ScanInt: Go's `int` overflow on very long digit runs is not modelled.
- Tokens.Token.Int: the same overflow is not modelled; the value is an unbounded natural.
- Lexing.Tokenize: the parser reads tokens one at a time, on demand. The model reads the whole stream first. Reading is deterministic and EOF is sticky (`LexingFacts.EofIsSticky`), so parsing sees the same tokens either way.
- Parsing.Parse: the error is `Expectation` as a value. Go's `error` interface wrapping is not modelled.
- ParsingFacts.FormulaRoundTrip: only formulas whose literals, dice counts and faces are non-negative round trip. A negative literal has no printed form that parses back, because a sign takes its value from the token after the integer (`ParsingExamples.SignSkipsLiteral`).
- ParsingFacts.FormulaRoundTrip: the round trip is stated over token streams, not text. The printer writes a dice term as count, a dice token with text `d`, and faces. The lexer never yields a dice token whose text is exactly `d`: it needs at least one digit after the letter (`LexingExamples.TwoDFour`). So the printed stream is not one the lexer produces from text. The parser ignores a dice token's text, so `3 d4 6` does parse to the same term (`ParsingExamples.CountedDice`), but its printed text is not what the round trip states.
- Parsing.ParseETerm: no lemma gives a full grammar-level characterisation of the accepted language. Correctness is stated as the print/parse round trip, the precedence and associativity examples, and the error cases.
- The tests' expected token lists split `d4` into `d` and `4`. They also expect the multi-word name `unary operations aka signs` and a `")"` error for `(5d8`. The code as written does not do these things. The model follows the code (`LexingExamples.TwoDFour`, `ParsingExamples.MultiWordNameRejected`). `ParsingExamples.UnclosedGroup` states the `")"` error on the split token stream the test presumes.
- The HTTP server, the Discord interaction types and signature check, `main.go`, `roll.go` and `ginutils.go` are not part of this model. They are I/O and web framework glue around the core.
