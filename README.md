# Monkey lexer, modelled in Dafny

This project models the lexer of the Monkey language. The lexer turns a source string into tokens, one token per `NextToken` call. It has two parts:

- **The token model** (`token.dfy`, module `Token`). It holds the closed set of token kinds (`TokenType`) and the `Token` record (a kind and a literal). It also holds the string value of each kind constant (`Spelling`), the fixed keyword table (`Keywords`: `"fn"` and `"let"`) and `LookupIdent`.
- **The scanner** (`lexer.dfy`, module `Lexer`). The class `Lexer` is the byte cursor. It keeps the three fields of the source: `position`, `readPosition` and `ch`, where `ch == 0` is the past-end sentinel. Its methods `ReadChar`, `SkipWhitespace`, `ReadIdentifier`, `ReadNumber` and `NextToken` update those fields in place. The constructor plays the role of `New`.

Each method is proved against pure functions of the input and the cursor index:

- `At(input, i)` is the byte the cursor sees at index `i`.
- `RunEnd(input, pos, cls)` is where the maximal run of whitespace, letters or digits from `pos` ends. It specifies all three scanning loops.
- `Scan(input, pos)` is one whole `NextToken` call. It gives the token and the new cursor.

`NextToken` ensures `Scan(input, old(position)) == Step(tok, position)`. The lemmas about `Scan` then state what the source promises, case by case. `Calls(input, pos, n)` chains `n` calls so that properties of token sequences can be stated.

Bytes are modelled as `Byte`, the characters below 0x100. Literals such as `"let"` and `'='` can then be written as in the source. `isLetter` and `isDigit` become the predicates `IsLetter` and `IsDigit`. The whitespace test inside `skipWhitespace` becomes `IsWhitespace`. `newToken` becomes `NewToken`.

The model keeps three behaviours of the code that a reader might not expect:

- After the end of the input, every call still runs the final `readChar` (lexer/lexer.go:91). So `position` and `readPosition` grow by one on every call that returns EOF. They do not stay at a terminal position. See `ScanPastEnd` and `EofForever`.
- A NUL byte inside the input matches the same `case 0` as the sentinel (lexer/lexer.go:70). It yields EOF in the middle of the input, and later calls go on scanning after it. See `NulInsideInput` and `NulThenIdentifier`.
- Identifiers are runs of letters and underscores only, not of letters and digits (lexer/lexer.go:108). So `"x1"` is IDENT `"x"` followed by INT `"1"`. See `IdentifierStopsAtDigit`.

## Model

| member | source | states |
|---|---|---|
| Token.SpellingInjective | token/token.go:15-41 | The kind constants have pairwise distinct values. A kind's value is one character long exactly when it is one of the eight punctuation kinds. |
| Token.LookupIdent | token/token.go:43-57 | Gives FUNCTION exactly for `"fn"` and LET exactly for `"let"`. Every other spelling gives IDENT, so `"letx"` and `"Let"` give IDENT too. The result is always FUNCTION, LET or IDENT. |
| Lexer.ClassesExcludeSentinel | lexer/lexer.go:105-125 | The byte 0 is not a letter, a digit or whitespace, so every scanning loop stops at the end of the input. Letters, digits and whitespace do not overlap. |
| Lexer.RunEnd | lexer/lexer.go:97-133 | The end `e` of the run from `pos` is at or after `pos`. Every byte in `[pos, e)` is an input byte of the class. The byte at `e` (0 past the end) is not of the class. |
| Lexer.RunEndUnique | lexer/lexer.go:97-103 | Maximal munch: any run of the class from `pos` that stops at a byte outside the class ends exactly at `RunEnd`. |
| Lexer.FixedKindMatchesSpelling | lexer/lexer.go:53-72 | A switch arm selects a punctuation kind exactly when that kind's constant is the byte itself. The EOF arm is taken exactly for the byte 0. No fixed arm catches a letter or a digit. |
| Lexer.Scan | lexer/lexer.go:48-93 | Every call moves the cursor forward by at least one. The literal is empty exactly when the kind is EOF. Every token other than EOF leaves the cursor inside the input or at its end. |
| Lexer.SkippedBytesAreWhitespace | lexer/lexer.go:117-121 | The token starts on a byte that is not whitespace. Every byte skipped before it was space, tab, newline or carriage return. |
| Lexer.ScanPunctuation | lexer/lexer.go:53-69 | Each of `= ; ( ) , + { }` yields its own kind. The literal is that one input byte, and the cursor ends one past it. |
| Lexer.ScanIdentifier | lexer/lexer.go:77-81 | A letter or underscore start yields the maximal non-empty run of letters as `input[start..next]`. Its kind is `LookupIdent` of that literal. The cursor ends on the first byte that is not a letter. |
| Lexer.ScanNumber | lexer/lexer.go:82-85 | A digit start yields INT. The literal is the maximal non-empty run of digits, and the cursor ends on the first byte that is not a digit. |
| Lexer.ScanIllegal | lexer/lexer.go:86-88 | Any other non-zero byte yields ILLEGAL with that one byte as literal. The cursor ends one past it. |
| Lexer.ScanEof | lexer/lexer.go:70-72 | The byte 0 at the token start yields EOF with an empty literal. The cursor still moves one past it. |
| Lexer.ScanPastEnd | lexer/lexer.go:24-39 | With the cursor at or past the end of the input, a call yields EOF and moves the cursor exactly one further. |
| Lexer.NulInsideInput | lexer/lexer.go:70-72 | A NUL byte inside the input yields EOF and leaves the cursor inside the input. |
| Lexer.LiteralIsSlice | lexer/lexer.go:97-115 | Every literal other than EOF's is the slice of the input that ends at the new cursor and starts at or after the old one. |
| Lexer.Calls | lexer/lexer.go:48-93 | `n` consecutive calls yield `n` tokens, and the cursor moves forward at least `n`. |
| Lexer.EofForever | lexer/lexer.go:26-38 | Past the end, every one of `n` calls yields EOF with an empty literal, and the cursor ends exactly `n` further on. |
| Lexer.WhitespaceOnlyIsEof | lexer/lexer.go:51-72 | An input of whitespace only, the empty input included, yields EOF on the first call and on every later one. |
| Lexer.IdentifierStopsAtDigit | lexer/lexer.go:107-109 | `"x1"` scans to IDENT `"x"`, INT `"1"`, EOF. |
| Lexer.NulThenIdentifier | lexer/lexer.go:70-72 | `"a\0b"` scans to IDENT `"a"`, EOF, IDENT `"b"`, EOF. |
| Lexer.IllegalByte | lexer/lexer.go:86-88 | `"@"` scans to ILLEGAL `"@"`, then EOF. |
| Lexer.LetStatement | lexer/lexer.go:48-93 | `"let five = 5;"` scans to LET, IDENT `"five"`, ASSIGN, INT `"5"`, SEMICOLON, EOF, with the literals as written. |
| Lexer.Lexer.constructor | lexer/lexer.go:14-22 | New primes the cursor: `position == 0`, `readPosition == 1`, and `ch` is the first byte, or 0 for empty input. The cursor invariant holds. |
| Lexer.Lexer.ReadChar | lexer/lexer.go:24-39 | The cursor moves to the old read position. `ch` becomes the input byte there, or 0 past the end. `readPosition == position + 1` holds afterwards. |
| Lexer.Lexer.SkipWhitespace | lexer/lexer.go:117-121 | The cursor ends at the end of the whitespace run, on a byte that is not whitespace. The invariant is kept. |
| Lexer.Lexer.ReadIdentifier | lexer/lexer.go:97-103 | The cursor ends at the end of the letter run. It returns the input slice from the old cursor to the new one. |
| Lexer.Lexer.ReadNumber | lexer/lexer.go:127-133 | The cursor ends at the end of the digit run. It returns the input slice from the old cursor to the new one. |
| Lexer.Lexer.NextToken | lexer/lexer.go:48-93 | The token and the new cursor are exactly `Scan` of the old cursor, so every `Scan` lemma applies to the method. The cursor strictly advances, and the invariant is kept. |

## Left out

- The trace print inside `LookupIdent` (token/token.go:50) is console output with no effect on the result. `Token.LookupIdent` is a pure function.
- Lexer.NewToken: for a byte at or above 0x80, Go's `string(ch)` gives the two-byte UTF-8 encoding of that code point. The model keeps the single input byte as the literal of an ILLEGAL token.
- Lexer.Lexer.ReadChar: `position` and `readPosition` are unbounded naturals. Go's `int` would overflow only after about 2^63 calls past the end, so wrap-around is not modelled.
- Lexer.Lexer.ReadIdentifier and Lexer.Lexer.ReadNumber require the cursor to be inside the input or at its end. Otherwise the final slice in the source would panic. `NextToken` calls them only on a letter or a digit, so this always holds there.
- A zero-valued `Lexer` that was never primed by `New` cannot be built: the constructor always primes the cursor.
- The driver that calls `NextToken` until EOF, and any parser or REPL, are not part of this model. `Calls` only chains a given number of calls.
