# The glox scanner, modelled in Dafny

This project models the lexical scanner of glox, a tree-walking interpreter
for the Lox language written in Go. The scanner turns a source buffer of
bytes into a list of tokens and a list of recoverable scan errors, then
appends one EOF token.

- A token has a type, a lexeme (the exact bytes it covers), a literal and a
  line.
- The literal is the bytes between the quotes for a string, and the number
  text for a number.
- Each error records the line it was found on.

The model covers three files: `scanner.go` (the `Scanner` object and its
sub-scanners), `tokentypes.go` (the token types, tokens and reserved-word
table) and `utils.go` (the byte classes).

Layout:

- `chars.dfy` (module `Chars`): bytes and the digit, letter and alphanumeric
  classes.
- `tokens.dfy` (module `Tokens`): the `TokenType` enumeration with its
  `iota` ordinals, literals, tokens and `NewToken`.
- `keywords.dfy` (module `KeywordTable`): the reserved-word map.
- `scan_spec.dfy` (module `ScanSpec`): the scan as pure functions on the
  buffer.
  - `StepAt` is one call of `scanToken`.
  - `StringStep` and `NumberStep` are the string and number sub-scanners.
  - `Run` is the whole `ScanTokens` loop plus the EOF token.
- `scanner.dfy` (module `Lexer`): the `Scanner` class.
  - It has the source's fields: `source`, `tokens`, `errors`, `start`,
    `current` and `line`.
  - Its methods update them in place, with loops carrying invariants.
  - Each method is proved to compute exactly what `ScanSpec` says.
  - `Scan` is `NewScanner` followed by `ScanTokens`.
- `scan_facts.dfy` (module `ScanFacts`): properties of every scan.
  - Each lexeme is the slice of the buffer it was scanned from, in source
    order and without overlap.
  - Each token carries the line reached at the end of its lexeme.
  - Lines never decrease.
  - Errors are in order.
  - Every token's literal agrees with its type.
  - A scan ends with exactly one EOF token, on the last line.
- `dispatch.dfy` (module `DispatchFacts`): what each byte class of
  `scanToken` produces.
- `scan_cases.dfy` (module `ScanCases`): whole scans of small inputs.
- `findings.dfy` (module `Findings`): the defects listed under "Findings".
- `wrappers.dfy`: `Option`.

Where the code and its documentation disagree, the model follows the code
in these places:

- **Line numbering.** `NewScanner` leaves `line` at Go's zero value, so
  scanning starts on line 0, not 1.
- **Shifted punctuation table.** The token-type declaration has a single
  `LeftParenrightParen` and no type for `)`. The `scanToken` switch pairs the
  i-th punctuation byte with the i-th declared type.
  - `)` has no type of its own and takes LeftBrace.
  - Each byte from `{` to `;` gets the type declared one place after the one
    its name suggests: `{` gives RightBrace, `.` gives Minus, `+` gives
    Semicolon and `;` gives Slash.
  - `(` and `*` keep LeftParenrightParen and Star.

  The model keeps this table as written (`SingleCharTableIsPositional`).
- **Swapped `=` outcomes.** `=` gives EqualEqual and `==` gives Equal, as
  written (`EqualOutcomesSwapped`).
- **No identifier branch.** `scanToken` has no identifier or keyword branch,
  so every letter is an unexpected-byte error (`LetterIsUnexpected`). The
  keyword table is modelled on its own.

In these places the code does not do what it evidently means to do, and the
model follows the evident intent:

- **Value receivers.** Every `Scanner` method has a value receiver, so in Go
  each call updates a copy and its effects are lost. The model keeps the
  evident intent: one scanner whose methods update its fields.
- **Loops that read their condition once.** The loops of `scanString` and
  `scanNumber` test a byte read once, before the loop. The model's loops read
  it again on every iteration (see "Findings").
- **Newlines inside strings.** `scanString` bumps `line` on a quote, which
  its loop never sees. The model counts the newlines inside a string (see
  "Findings").
- **peekAt.** `peekAt(i)` ignores `i`. The model's `PeekAt` returns the byte
  `i` places past the cursor, as the function's comment says (see
  "Findings").

Float parsing is abstracted: `strconv.ParseFloat` is the parameter
`floatParses: seq<byte> -> bool`, and a Number literal keeps its digit text.

## Model

| member | source | states |
|---|---|---|
| Chars.IsDigit | utils.go:7-9 | isDigit: its body is the source's range test '0'..'9'; characterised by Chars.IsDigitExactly |
| Chars.IsAlpha | utils.go:11-13 | isAlpha: its body is the source's test for 'a'..'z', 'A'..'Z' or '_'; characterised by Chars.IsAlphaExactly |
| Chars.IsAlphaNumeric | utils.go:3-5 | isAlphaNumeric: its body is the source's disjunction of isAlpha and isDigit; characterised by Chars.IsAlphaNumericIsUnion |
| Chars.DigitValue | utils.go:7-9 | a digit byte's value is below 10 and indexes that byte in "0123456789" |
| Chars.IsDigitExactly | utils.go:7-9 | isDigit holds exactly for the ten bytes '0'..'9' |
| Chars.LowerLettersExactly | utils.go:11-13 | the range 'a'..'z' is exactly the 26 lower-case letters |
| Chars.UpperLettersExactly | utils.go:11-13 | the range 'A'..'Z' is exactly the 26 upper-case letters |
| Chars.IsAlphaExactly | utils.go:11-13 | isAlpha holds exactly for the ASCII letters and '_' |
| Chars.IsAlphaNumericIsUnion | utils.go:3-5 | isAlphaNumeric holds exactly for the letters, '_' and the digits |
| Chars.ClassesDisjointAndAscii | utils.go:3-13 | no byte is both a digit and a letter; no byte at or above 128 is in any class |
| Tokens.Ordinal | tokentypes.go:33-79 | each type's iota value is below 38, and only EOF has the last value, 37 |
| Tokens.OrdinalIsBijection | tokentypes.go:33-79 | the iota values are distinct and consecutive: FromOrdinal and Ordinal are inverse bijections onto 0..37 |
| Tokens.FromOrdinalOfOrdinal | tokentypes.go:33-79 | FromOrdinal recovers every type from its iota value |
| Tokens.OrdinalInjective | tokentypes.go:33-79 | distinct types have distinct iota values |
| Tokens.KeywordTypesAreTheSixteen | tokentypes.go:60-76 | the range And..While holds exactly the sixteen keyword types |
| Tokens.NewToken | tokentypes.go:16-23 | the token stores type, lexeme, literal and line as given; the unused column stays 0 |
| KeywordTable.Keywords | tokentypes.go:81-98 | the keywords map, entry for entry; its keys and values are characterised by KeywordTable.KeywordsAreTheReservedWords and KeywordTable.KeywordValuesInRange |
| KeywordTable.KeywordsAreTheReservedWords | tokentypes.go:81-98 | the table's keys are the sixteen reserved words |
| KeywordTable.KeywordCount | tokentypes.go:81-98 | the table has exactly sixteen entries |
| KeywordTable.KeywordsInjective | tokentypes.go:81-98 | distinct reserved words map to distinct types |
| KeywordTable.KeywordValuesInRange | tokentypes.go:81-98 | every value is a keyword type, never Identifier, String, Number or EOF |
| KeywordTable.KeywordText | tokentypes.go:81-98 | the inverse of the table: each keyword type's word maps back to that type |
| KeywordTable.KeywordTableRoundTrip | tokentypes.go:81-98 | looking up a reserved word and taking KeywordText gives the word back |
| KeywordTable.LookupKeyword | tokentypes.go:81-98 | a hit is a keyword type whose word is the looked-up word; a miss means the word is not reserved |
| KeywordTable.KeywordLookupIsExact | tokentypes.go:81-98 | a word with any byte outside 'a'..'z' is not a keyword |
| KeywordTable.KeywordLookupExamples | tokentypes.go:81-98 | "and" is And; "android", "And" and "an" are not keywords |
| ScanSpec.NewScanError | scanner.go:209-219 | the error stores the line and the kind given |
| ScanSpec.NewlinesSplit | scanner.go:92-93 | newline counts add up over adjacent ranges |
| ScanSpec.NewlinesZero | scanner.go:92-93 | a range counts zero newlines exactly when it holds no '\n' |
| ScanSpec.CommentEnd | scanner.go:105-112 | a comment stops at the first '\n', which it leaves unread, or at the end of the buffer; it holds no '\n' |
| ScanSpec.ClosingQuote | scanner.go:114-126 | the first '"' at or after p, or none when there is none |
| ScanSpec.DigitsEnd | scanner.go:135-137 | a run of digits is maximal: every byte in it is a digit and the byte after it is not |
| ScanSpec.NumberEnd | scanner.go:134-145 | where the corrected scanNumber stops: never before its starting point and never past the buffer; characterised by ScanSpec.NumberEndIsMaximal |
| ScanSpec.NumberEndIsMaximal | scanner.go:134-145 | a number lexeme holds only digits and at most one '.'; every '.' in it is followed by a digit; no digit and no '.'-digit pair can extend it |
| ScanSpec.SingleCharType | scanner.go:37-56 | exactly the ten bytes "(){},.-+;*" are single-character tokens, and their types are the first ten |
| ScanSpec.OperatorType | scanner.go:57-80 | each operator byte gives one of the eight one-or-two-character types |
| ScanSpec.StepAt | scanner.go:35-101 | one scanToken call consumes at least one byte, never moves to an earlier line, and records at most one token or error |
| ScanSpec.StringStep | scanner.go:114-132 | a string consumes at least its quote, counts newlines forward, and records at most one token or error; an unterminated string's error is on the line the string began on |
| ScanSpec.NumberStep | scanner.go:134-154 | a number keeps the line and records exactly one thing: a Number token or a parse error |
| ScanSpec.Run | scanner.go:26-33 | the scan ends with an EOF token and records at most one token or error per byte, plus EOF |
| ScanSpec.LastLexemeStart | scanner.go:26-30 | after a non-empty scan `start` lies inside the buffer; an empty scan leaves it alone |
| ScanFacts.FittingTokenLiteral | scanner.go:128-131 | a fitting token has a string literal exactly when it is a String, a number exactly when it is a Number, and otherwise none; it is never an identifier or keyword |
| ScanFacts.StepAtInvariant | scanner.go:35-101 | every step consumes bytes and counts their newlines; its token's lexeme is exactly those bytes; its literal fits its type; a token is on the step's final line and an error on the line the step began on |
| ScanFacts.StringStepFacts | scanner.go:114-132 | a string's lexeme is quote, body, quote; the body holds no quote; the literal is the body; the line advances by the body's newlines |
| ScanFacts.NumberStepFacts | scanner.go:134-154 | a number's lexeme is digits with at most one '.' between digits; the literal is the lexeme |
| ScanFacts.NumberLexemeShape | scanner.go:134-147 | a digit followed by the rest of its number begins and ends with a digit and holds at most one '.' |
| ScanFacts.RunStep | scanner.go:26-30 | a scan is its first step's output followed by the scan from where that step stopped |
| ScanFacts.RunAtEnd | scanner.go:32 | a scan at the end of the buffer yields only EOF, on the current line |
| ScanFacts.RunLexemesAreSlices | scanner.go:197-202 | every lexeme of a scan is the slice of the buffer that ends at its recorded end |
| ScanFacts.RunTokenLines | scanner.go:197-202 | every token is on the starting line plus the newlines up to its end |
| ScanFacts.RunLexemesInOrder | scanner.go:26-30 | lexemes appear in source order and do not overlap |
| ScanFacts.RunErrorsAreOrdered | scanner.go:204-207 | errors are recorded in source order, each on the line its lexeme begins on |
| ScanFacts.RunTokensFit | scanner.go:35-154 | every token of a scan fits its type: literal, lexeme shape and dispatch table agree |
| ScanFacts.NoIdentifierOrKeywordTokens | scanner.go:98-101 | no scan yields an Identifier or keyword token; only String and Number tokens carry a literal |
| ScanFacts.RunEndsWithEof | scanner.go:32 | the last token is the only EOF, with an empty lexeme and no literal, on the line reached at the end of the buffer |
| ScanFacts.RunEndsWithOneEof | scanner.go:32 | the last token is EOF and no earlier token is |
| ScanFacts.RunTokenLinesOrdered | scanner.go:92-93 | token lines never decrease and stay between the first line and the last |
| ScanFacts.RunErrorLinesOrdered | scanner.go:204-207 | error lines never decrease and stay between the first line and the last |
| DispatchFacts.SingleCharTableIsPositional | scanner.go:37-56 | the i-th byte of "(){},.-+;*" gets the i-th declared type |
| DispatchFacts.TableShiftsForward | scanner.go:37-56 | ')' takes LeftBrace; '{' gets RightBrace and '.' gets Minus, each declared one place after the type the byte's name suggests; '(' and '*' keep their own types |
| DispatchFacts.SingleCharTableInjective | scanner.go:37-56 | distinct single-character bytes get distinct types |
| DispatchFacts.SemicolonScansAsSlash | scanner.go:53-54 | both ';' and a '/' not followed by '/' scan as a one-byte Slash token |
| DispatchFacts.SemicolonTypeComesFromPlus | scanner.go:51-52 | exactly '+' produces a Semicolon token |
| DispatchFacts.OperatorTypeInjective | scanner.go:57-80 | the operator type determines both the first byte and whether '=' followed |
| DispatchFacts.EqualOutcomesSwapped | scanner.go:57-80 | "=" gives EqualEqual and "==" gives Equal; '!', '<' and '>' pair the bare byte with the bare type |
| DispatchFacts.BlankSteps | scanner.go:87-93 | blanks record nothing; only '\n' moves to the next line |
| DispatchFacts.CommentStep | scanner.go:81-83 | "//" records nothing and stops at the next newline, leaving it unread, or at the end |
| DispatchFacts.UnexpectedByteStep | scanner.go:98-101 | any other byte records one unexpected-byte error on the current line and consumes one byte |
| DispatchFacts.LetterIsUnexpected | scanner.go:96-101 | every letter is an unexpected byte |
| DispatchFacts.StringOutcome | scanner.go:114-132 | an unclosed string consumes the buffer, counts its newlines, and records no token and one error on the line the string began on; a closed one yields one String token running to the first closing quote, whose literal is the bytes between the quotes |
| ScanCases.Eof | scanner.go:32 | the EOF token has type EOF, an empty lexeme and the given line |
| ScanCases.RunOfOneStep | scanner.go:26-33 | a scan whose first step reaches the end is that step's output followed by EOF |
| ScanCases.OperatorStep | scanner.go:57-80 | an operator byte becomes one token of one byte, or of two when '=' follows |
| ScanCases.EmptySource | scanner.go:26-33 | an empty buffer yields only EOF, on line 0 |
| ScanCases.CommentOnly | scanner.go:81-93 | a comment yields nothing; its newline puts EOF on line 1 |
| ScanCases.StringLiteral | scanner.go:128-131 | a quoted "hi" yields a String token whose lexeme keeps the quotes and whose literal drops them |
| ScanCases.MultiLineString | scanner.go:114-132 | a string spanning a newline is recorded on the line where it ends, and EOF follows on that line |
| ScanCases.UnclosedString | scanner.go:116-119 | an unclosed string records one error and no token |
| ScanCases.UnclosedMultiLineString | scanner.go:114-123 | an unclosed string spanning a newline records its error on the opening line, while EOF moves to the next line |
| ScanCases.LoneEqualSign | scanner.go:63-68 | "=" scans as EqualEqual |
| ScanCases.DoubleEqualSign | scanner.go:63-68 | "==" scans as Equal |
| ScanCases.LettersAreErrors | scanner.go:98-101 | the reserved word "or" yields two unexpected-byte errors and no token but EOF |
| ScanCases.DecimalNumber | scanner.go:134-154 | "1.5" is one Number token, fraction included, when it parses |
| Lexer.Scanner.constructor | scanner.go:19-24 | a new scanner holds the buffer, empty output lists, start and cursor at 0, and line 0 |
| Lexer.Scanner.ReachedEnd | scanner.go:156-158 | true exactly when the cursor is not before the end of the buffer |
| Lexer.Scanner.PeekAt | scanner.go:168-175 | the byte i places past the cursor, or '\0' past the end (the documented behaviour; see Findings) |
| Lexer.Scanner.PeekAtAsWritten | scanner.go:169-175 | as written, every index yields the byte under the cursor |
| Lexer.Scanner.Peek | scanner.go:160-162 | the byte under the cursor, or '\0' at the end |
| Lexer.Scanner.PeekNext | scanner.go:164-166 | the byte after the cursor, or '\0' past the end |
| Lexer.Scanner.Advance | scanner.go:177-181 | returns the byte under the cursor and moves the cursor one byte on |
| Lexer.Scanner.Match | scanner.go:183-195 | consumes one byte exactly when it is the expected one, and says whether it did |
| Lexer.Scanner.AddToken | scanner.go:197-202 | appends one token whose lexeme is the bytes from start to the cursor, on the current line |
| Lexer.Scanner.AddError | scanner.go:204-207 | appends one error on the current line |
| Lexer.Scanner.ScanComment | scanner.go:105-112 | the cursor ends at CommentEnd |
| Lexer.Scanner.SkipStringBody | scanner.go:115-126 | the cursor ends at the closing quote, or at the end with one unterminated-string error on the opening line; the newlines passed are counted |
| Lexer.Scanner.ScanString | scanner.go:114-132 | the cursor, line, tokens and errors change exactly as StringStep says |
| Lexer.Scanner.SkipDigits | scanner.go:135-137 | the cursor ends at DigitsEnd |
| Lexer.Scanner.SkipNumber | scanner.go:134-145 | the cursor ends at NumberEnd |
| Lexer.Scanner.ScanNumber | scanner.go:134-154 | the cursor ends at NumberEnd; the lexeme becomes a Number token if it parses and a parse error otherwise |
| Lexer.Scanner.ScanToken | scanner.go:35-103 | the cursor, line, tokens and errors change exactly as StepAt says |
| Lexer.Scanner.ScanTokens | scanner.go:26-33 | appends exactly Run's tokens and errors; ends at the end of the buffer, having counted every newline |
| Lexer.Scan | scanner.go:19-33 | a fresh scan yields Run from line 0; it ends with exactly one EOF token, on the line of the last newline count |
| Findings.PeekNextAsWrittenIsPeek | scanner.go:164-175 | as written, peekNext answers the same byte as peek |
| Findings.PeekAtIgnoresIndexOnDecimal | scanner.go:169-175 | on "1.5" after the '1', peekAt(1) answers '.' as written, while the byte one ahead is '5' |
| Findings.FractionTestNeverHoldsAsWritten | scanner.go:140 | as written, the fraction test of scanNumber can never hold |
| Findings.StringLineAsWrittenMissesNewline | scanner.go:121-123 | as written, a string spanning a newline leaves the line unchanged; the corrected scan advances it |
| ScanSpec.StringStepAsWritten | scanner.go:114-132 | with the line bump on '"', the line never changes, but the string ends where the corrected one does and records the same error |
| Findings.StringStepWithoutRepeek | scanner.go:115-126 | the string loop that tests its byte once keeps the line |
| Findings.NonEmptyStringIsUnterminatedAsWritten | scanner.go:115-119 | as written, any string with a non-empty body is reported unterminated and yields no token |
| Findings.QuotedStringAsWritten | scanner.go:115-132 | as written, the quoted "hi" gives an error; the corrected StringStep gives the String token |
| Findings.NumberEndAsWritten | scanner.go:135-145 | as written, scanNumber stops right after the first digit, or never returns (a panic past the buffer with updates kept, an endless loop under value receivers) |
| Findings.NumberEndAsWrittenOnlyForOneDigit | scanner.go:134-145 | the as-written and corrected number ends agree exactly when the number is one digit |
| Findings.NumbersAsWritten | scanner.go:135-145 | as written, scanNumber never returns on "12" and stops at the '.' of "1.5"; the corrected NumberEnd takes all of each |

## Left out

- `main.go` and `interpreter.go` (reading files, the prompt, printing
  errors) are not part of this model.
- `strconv.ParseFloat` is the parameter `floatParses`. The float value and
  64-bit floating point are not modelled; a Number literal keeps its text.
- Error messages are `ErrorKind` values, not the formatted text: the byte
  for an unexpected byte, and the lexeme for an unparsable number.
- `Token.String` (tokentypes.go:25-27) formats a token for printing. It is
  left out with the rest of the output.
- `column` is never set by the source. Tokens carry it, always 0.
- `line`, `start` and `current` are unbounded naturals. Go's `int` cannot
  wrap on any buffer that fits in memory.
- Value receivers: the model does not capture that Go's calls update copies.
  As written, `ScanTokens` returns only on an empty buffer, with the lists
  still empty; on any other buffer it never returns, because its cursor
  never moves, or it panics (scanner.go:130). The model follows the
  evident intent instead.
- The loops of `scanString` and `scanNumber` re-read their byte on every
  iteration. The as-written loops appear only as the pure functions under
  "Findings", for two different reasons:
  - the as-written digit loops of `scanNumber` do not return once a second
    digit follows the first;
  - the as-written string loop does end, with the updates kept, but its
    `line++` branch is dead
    code, so it is kept as the pure function
    `Findings.StringStepWithoutRepeek`.
- The loops of `scanString` and `scanNumber` are written inline in the
  source; here they are the methods `SkipStringBody`, `SkipDigits` and
  `SkipNumber`. As in the source, the unterminated-string error is recorded
  inside the loop. It carries the line the string began on, as in the source
  as written. The corrected loop counts the string's newlines into `line`, so
  it keeps the opening line aside for the error.

## Findings

| source | as written | input that shows it | evidently intended | confidence | as-written member | corrected member |
|---|---|---|---|---|---|---|
| scanner.go:169-175 | `peekAt(i)` ignores `i` and returns the byte under the cursor, so `peekNext` equals `peek` and the fraction test of `scanNumber` never holds | "1.5" with the cursor after '1': `peekAt(1)` is '.', not '5'; the number stops at "1" | `peekAt(i)` returns the byte `i` places past the cursor, as its comment says | high (not executed) | Lexer.Scanner.PeekAtAsWritten, Findings.PeekAtIgnoresIndexOnDecimal, Findings.FractionTestNeverHoldsAsWritten | Lexer.Scanner.PeekAt, Lexer.Scanner.SkipNumber, ScanCases.DecimalNumber |
| scanner.go:121-123 | the line is bumped when the byte is '"', which the loop condition rules out, so newlines inside a string are never counted | a quote, 'a', '\n', 'b', a quote: the line stays the same | bump the line on '\n' inside the string; an unterminated string's error stays on the line the string began on (ScanCases.UnclosedMultiLineString) | high (not executed) | ScanSpec.StringStepAsWritten, Findings.StringLineAsWrittenMissesNewline | ScanSpec.StringStep, Lexer.Scanner.ScanString, ScanCases.MultiLineString, ScanCases.UnclosedMultiLineString |
| scanner.go:115 | `next` is read once before the loop and never again, so a non-empty string runs to the end of the buffer | the quoted "hi": an unterminated-string error, no String token | re-read the byte under the cursor on every iteration | high (not executed) | Findings.StringStepWithoutRepeek, Findings.NonEmptyStringIsUnterminatedAsWritten, Findings.QuotedStringAsWritten | Lexer.Scanner.SkipStringBody, ScanSpec.StringStep, ScanCases.StringLiteral |
| scanner.go:135-137, 142-144 | `char` is read once before each digit loop, so after a second digit the loop never stops advancing | "12": with the updates kept, the second `advance` indexes past the buffer and panics at scanner.go:180; with Go's value receivers the cursor never moves and the loop spins forever; either way scanNumber never returns | re-read the byte under the cursor on every iteration | high (not executed) | Findings.NumberEndAsWritten, Findings.NumbersAsWritten | Lexer.Scanner.SkipDigits, ScanSpec.NumberEnd, Lexer.Scanner.SkipNumber |
