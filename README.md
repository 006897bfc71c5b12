# Scanner of a small scripting language, modelled in Dafny

This project models the lexical scanner in `src/scanner.rs`. The scanner turns a
source buffer into a list of classified tokens, or stops at the first lexical error.
The model also covers the `scan_tokens` helper in `src/main.rs`, which runs a fresh
scanner and returns either its tokens or its error.

The model has these layers:

- `tokens.dfy`, module `Tokens`: the data. This means token kinds, literals, tokens,
  the scanner error, the keyword table and the byte classes used by the dispatch of
  `scan_token`.
- `lexing.dfy`, module `Lexing`: the scanner's behaviour as functions over an
  explicit state (`ScanState`). `Step` is one call of `scan_token`, `Run` is the main
  loop of `scan_tokens`, `Finish` is the Eof push after the loop, and `Lex` is a
  whole scan by a fresh scanner. A ghost list of spans records which source slice
  each token came from.
- `scanner.dfy`, module `Scanning`: class `Scanner`. It has the source's fields and
  one method per source method, with the source's loops. Each method is proved to
  change the fields exactly as the matching `Lexing` function says. `IsAtEnd`
  (`is_at_end`, src/scanner.rs:152-154) and `PeekNext` (`peek_next`,
  src/scanner.rs:298-304) are plain definitions used by the methods.
- `driver.dfy`, module `Driver`: the `scan_tokens` function of `src/main.rs`.
- `properties.dfy`, module `ScanProperties`: what a step and a whole scan promise.
  This covers the token shapes, the invariant over the token list, when Eof is
  pushed, and how errors end the scan.
- `examples.dfy`, module `ScanExamples`: small inputs and their exact results.
- `findings.dfy`, module `AsWritten`: the end of `string` exactly as written. On an
  unterminated string it reads past the end of the buffer.

## Model

| member | source | states |
|---|---|---|
| Scanning.Scanner.constructor | src/scanner.rs:102-134 | A new scanner has an empty source, no tokens, no error, line 1 and column -1. The first byte read is therefore column 0. |
| Scanning.Scanner.ScanTokens | src/scanner.rs:135-151 | The final state is `Finish(Run(input, old state))`. The loop steps until an error or the end of input, and Eof is pushed only if no error was recorded. The old cursor and tokens are kept, as in the source. |
| Scanning.Scanner.Advance | src/scanner.rs:155-159 | It returns the byte under the cursor and moves cursor and column on by one. Nothing else changes. |
| Scanning.Scanner.ScanToken | src/scanner.rs:160-237 | One call changes the fields exactly as `Lexing.Step` does: consume a byte, then act on its class. |
| Scanning.Scanner.AdvanceWhile | src/scanner.rs:256-258 | The cursor stops at the first byte failing the test, or at the end, as `ScanWhile` gives. The column moves by the number of bytes consumed. This is the loop shape of lines 209-211, 239-241 and 256-258. |
| Scanning.Scanner.ScanNumber | src/scanner.rs:238-254 | The fields change as `Lexing.LexNumber` says. The fraction branch at line 242 is proved unreachable. |
| Scanning.Scanner.ScanIdentifier | src/scanner.rs:255-275 | The fields change as `Lexing.LexIdentifier` says: a maximal alphanumeric run, then the keyword lookup. |
| Scanning.Scanner.StringBody | src/scanner.rs:277-282 | The cursor stops at the next quote or the end. The line grows by the number of newlines passed, and the column by the number of bytes passed. |
| Scanning.Scanner.ScanString | src/scanner.rs:276-297 | The fields change as `Lexing.LexString` says. On an unterminated string the method records the error and returns, as in the corrected behaviour under Findings. |
| Scanning.Scanner.Peek | src/scanner.rs:305-311 | It gives the byte under the cursor, and NUL at the end. NUL fails the digit and alphanumeric tests, so the loops at lines 239 and 256 stop at the end without an end test. NUL is neither a newline nor a quote, so it passes the tests of the loops at lines 209 and 277, which stop at the end only through `!is_at_end()`. |
| Scanning.Scanner.Matches | src/scanner.rs:312-322 | It returns true exactly when input remains and the next byte is the expected one. Only then is that byte consumed. |
| Scanning.Scanner.AddToken | src/scanner.rs:323-325 | It pushes a token with no literal, as `Emit` with `None`. |
| Scanning.Scanner.AddTokenLiteral | src/scanner.rs:326-335 | It pushes one token whose lexeme is `source[start..current]`, stamped with the current line and column. Its span is recorded too. |
| Driver.ScanTokens | src/main.rs:46-55 | A fresh scan gives exactly `Lex(input)`. On success the list ends with the only Eof. |
| Lexing.ScanWhile | src/scanner.rs:239-241 | A `while p(peek()) advance()` loop started within the input stops within the input, never before where it started. |
| Lexing.ScanWhileMaximal | src/scanner.rs:239-241 | Every byte such a loop passes satisfies `p`, and the byte it stops on (if any) does not. |
| Lexing.Step | src/scanner.rs:160-237 | Each `scan_token` call consumes at least one byte and never moves past the end. |
| Lexing.Dispatch | src/scanner.rs:162-236 | No arm of the dispatch moves the cursor back or past the end. |
| Lexing.Run | src/scanner.rs:137-140 | The main loop ends with an error recorded or the input consumed, and the cursor never moves back. |
| ScanProperties.StepHasShape | src/scanner.rs:160-237 | A step over whitespace or a `//` comment adds nothing and records no error. Any other step either records an error and adds nothing, or adds exactly one non-Eof token. That token's lexeme is the slice between the two cursors and it carries the line the step ends on. The line never decreases. |
| ScanProperties.StepSilentIff | src/scanner.rs:207-220 | A step adds no token and no error exactly when it starts on whitespace, a newline or `//`. Then it ends after the blank byte or just before the newline ending the comment. |
| ScanProperties.RunExtends | src/scanner.rs:137-140 | Tokens already pushed stay as a prefix. Once an error is recorded the loop does nothing. |
| ScanProperties.ErrorEndsScan | src/scanner.rs:141-150 | When an error is recorded, the final state is that state: nothing more is scanned and no Eof is pushed. |
| ScanProperties.RunSilentIff | src/scanner.rs:137-140 | The rest of a scan yields no token and no error exactly when the remaining input is whitespace and comments only. |
| ScanProperties.BlankInputScansToEofOnly | src/scanner.rs:135-151 | An input scans to exactly `[Eof]` if and only if it is whitespace and comments only. |
| ScanProperties.RunPreservesWellFormed | src/scanner.rs:137-140 | The main loop keeps the invariant. Tokens and spans pair up, and each lexeme is the nonempty slice it was cut from, behind the cursor. Slices do not overlap and come in order, lines never decrease, and there is no Eof before the end. |
| ScanProperties.ScanTokensAreOrderedSlices | src/scanner.rs:326-335 | In a whole scan every token's lexeme is `source[start..end]` of its span. Spans come in strictly increasing, non-overlapping order, only the Eof is empty, and lines never decrease. |
| ScanProperties.EofExactlyWhenNoError | src/scanner.rs:141-150 | An Eof is in the final list exactly when no error was recorded. It is then last and unique, with an empty lexeme, no literal, and the final line and column. |
| ScanProperties.LexReportsTheError | src/main.rs:51-54 | The caller gets an error exactly when the scan recorded one, and it is that error. Otherwise the caller gets the tokens followed by the Eof. |
| ScanProperties.OperatorStep | src/scanner.rs:175-206 | `!`, `=`, `<` and `>` give the two-byte kind with lexeme `c=` exactly when `=` follows. Only then is the `=` consumed. Otherwise they give the one-byte kind. |
| ScanProperties.CommentStep | src/scanner.rs:207-215 | `//` yields nothing and stops at the next newline or the end. It passes no newline and leaves the line unchanged. |
| ScanProperties.NewlineStep | src/scanner.rs:217-220 | A newline yields nothing, adds one to the line and sets the column to 0. |
| ScanProperties.NumberStep | src/scanner.rs:238-254 | A number token is the maximal digit run at the cursor, and its literal is the value of those digits. A following `.` is not consumed. |
| ScanProperties.KeywordsAreNotIdentifiers | src/scanner.rs:263-266 | The lookup gives `Identifier` exactly when the text is not one of the keywords. |
| ScanProperties.IdentifierStep | src/scanner.rs:255-275 | An identifier is the maximal alphanumeric run at the cursor. An exact keyword gets the keyword's kind and no literal. Any other run gets `Identifier` and carries its own text. |
| ScanProperties.StringStep | src/scanner.rs:276-297 | A closed string runs from the quote to the next quote. Its literal is the bytes strictly between them, with newlines kept and no escapes. Its line is the line of the closing quote. |
| ScanProperties.UnterminatedStringStep | src/scanner.rs:283-289 | With no closing quote, the step records "Unterminated string." at the line and column of the end of input. It adds no token. |
| ScanProperties.UnexpectedByteStops | src/scanner.rs:228-234 | A byte no rule accepts records "Unexpected character at c" at that byte's line and column. The scan ends there and no Eof is pushed. |
| ScanExamples.OnePlusTwo | src/scanner.rs:135-151 | `1+2` scans to Number 1, Plus, Number 2 and Eof, on columns 0, 1, 2 and 2. |
| ScanExamples.FractionIsNotConsumed | src/scanner.rs:242 | `1.5` scans to Number 1, Dot, Number 5 and Eof. |
| ScanExamples.KeywordExact | src/scanner.rs:263-273 | `fun` scans to the Fun keyword with no literal, then Eof. |
| ScanExamples.KeywordPrefixIsIdentifier | src/scanner.rs:263-272 | `funct` scans to an Identifier carrying `funct`, then Eof. |
| ScanExamples.TwoByteOperator | src/scanner.rs:175-182 | `!=` scans to BangEqual, then Eof. |
| ScanExamples.OneByteOperator | src/scanner.rs:175-182 | `!` scans to Bang, then Eof. |
| ScanExamples.UnexpectedCharacter | src/scanner.rs:228-234 | `@` fails with "Unexpected character at @" at line 1, column 0. |
| ScanExamples.UnterminatedString | src/scanner.rs:283-289 | A string with no closing quote fails with "Unterminated string." at the end of the input. |
| ScanExamples.MultiLineString | src/scanner.rs:277-282 | A string holding a newline keeps it in the literal. The token is on line 2. |
| ScanExamples.ColumnAfterNewline | src/scanner.rs:217-220 | After a newline the next byte is on the next line, at column 1. |
| ScanExamples.CommentOnly | src/scanner.rs:207-215 | A comment line scans to Eof alone, on line 2. |
| AsWritten.StringAsWritten | src/scanner.rs:283-296 | This is `string`'s end as written. A panic means an index at or past the buffer's length. A normal end means one new token and no error. |
| AsWritten.UnterminatedStringReadsPastEnd | src/scanner.rs:290 | With no closing quote, the as-written code indexes the buffer at exactly its length. |
| AsWritten.OpenStringReadsPastEnd | src/scanner.rs:290 | `"ab` makes the as-written code read index 3 of a 3-byte buffer. |
| AsWritten.ClosedStringAgrees | src/scanner.rs:290-296 | With a closing quote, the as-written code and `Lexing.LexString` give the same result. |

## Left out

- Reading lines from standard input, printing tokens and errors, and the prompt loop in `src/main.rs` are left to the caller of `Driver.ScanTokens`.
- Scanning.Scanner.ScanNumber: the literal is the natural number the digits denote, not the source's 64-bit float. Floating point is not modelled. Since only digit runs reach the parse, the parse never fails.
- Tokens.IsAlpha: the source tests bytes with `char::is_alphabetic` and `char::is_alphanumeric` on the Latin-1 character of each byte. The model accepts only ASCII letters and digits, so bytes 0x80 and above (some of which Rust counts as letters) are unexpected characters here.
- The UTF-8 conversions of lexemes (`String::from_utf8(...).unwrap()`) are not modelled. With ASCII-only byte classes they never fail on identifiers and numbers. String literals are kept as bytes.
- The keyword table is a constant map from byte strings to kinds, not a `HashMap` built in `new`.
- The `Debug` formatting of tokens is not modelled.
- Line and column are unbounded integers. The source's `usize` and `i64` cannot overflow on any buffer that fits in memory.
- `peek_next` is modelled but never called, as in the source.
- The loops of the comment skip, `number` and `identifier` share one method, `AdvanceWhile`. The digit and alphanumeric loops in the source have no explicit end test, since `peek` gives NUL there.
- The fraction branch of `number` (`src/scanner.rs:242-247`) tests the byte under the cursor twice, asking whether it is both `.` and a digit. That is never true, so the branch is dead and the model follows the code: `1.5` is Number, Dot, Number. The second test was evidently meant to use `peek_next` (`src/scanner.rs:298-304`), which exists but is never called.
- The column quirks are modelled as written. A newline sets the column to 0, so the next line's first byte is column 1. Newlines inside a string do not reset the column at all.

## Findings

| source | as written | input that shows it | evidently intended | confidence | as-written member | corrected member |
|---|---|---|---|---|---|---|
| src/scanner.rs:283-290 | After recording "Unterminated string." at the end of the input, `string` still calls `advance`, which reads `source[current - 1]` with `current - 1 == source.len()`. | `"ab` (no closing quote): the read is index 3 of a 3-byte buffer, so the scan panics instead of returning the error. | Record the error and stop, so that the caller receives "Unterminated string." at the end of input. | not executed | AsWritten.UnterminatedStringReadsPastEnd | ScanProperties.UnterminatedStringStep |
