/** The Monkey scanner (lexer/lexer.go): a byte cursor over an immutable input
    that produces one token per call.

    The first half of the module specifies one call of NextToken as a pure
    function `Scan` of the input and the cursor position; the class `Lexer`
    below is the cursor itself, and each of its methods is proved against
    these functions. */
module Lexer {
  import opened Token

  // ---------------------------------------------------------------------
  // Character classes
  // ---------------------------------------------------------------------

  predicate IsLetter(c: Byte)
  {
    'a' <= c <= 'z' || 'A' <= c <= 'Z' || c == '_'
  }

  predicate IsDigit(c: Byte)
  {
    '0' <= c <= '9'
  }

  predicate IsWhitespace(c: Byte)
  {
    c == ' ' || c == '\t' || c == '\n' || c == '\r'
  }

  /** The three classes whose maximal runs the scanner consumes. */
  datatype CharClass = Whitespace | Letter | Digit

  predicate InClass(c: Byte, cls: CharClass)
  {
    match cls
    case Whitespace => IsWhitespace(c)
    case Letter => IsLetter(c)
    case Digit => IsDigit(c)
  }

  /** The past-end sentinel belongs to no class, so every scanning loop stops
      at the end of the input; and the classes do not overlap. */
  lemma ClassesExcludeSentinel(c: Byte)
    ensures !IsLetter('\0') && !IsDigit('\0') && !IsWhitespace('\0')
    ensures !(IsLetter(c) && IsDigit(c))
    ensures !(IsWhitespace(c) && (IsLetter(c) || IsDigit(c)))
  {
  }

  // ---------------------------------------------------------------------
  // The cursor, as pure functions
  // ---------------------------------------------------------------------

  /** The byte under the cursor at index `i`: the input byte, or the
      sentinel 0 once `i` is past the end. */
  function At(input: seq<Byte>, i: nat): Byte
  {
    if i < |input| then input[i] else '\0'
  }

  /** Where the maximal run of `cls` bytes that starts at `pos` ends. */
  function RunEnd(input: seq<Byte>, pos: nat, cls: CharClass): (e: nat)
    ensures pos <= e
    ensures pos < e ==> e <= |input|
    ensures forall i :: pos <= i < e ==> i < |input| && InClass(input[i], cls)
    ensures !InClass(At(input, e), cls)
    decreases |input| - pos
  {
    if InClass(At(input, pos), cls) then RunEnd(input, pos + 1, cls) else pos
  }

  /** Maximal munch: a run of `cls` bytes from `pos` that stops at `e` (the
      byte at `e` is not in `cls`) ends exactly where `RunEnd` says. */
  lemma RunEndUnique(input: seq<Byte>, pos: nat, e: nat, cls: CharClass)
    requires pos <= e
    requires forall i :: pos <= i < e ==> InClass(At(input, i), cls)
    requires !InClass(At(input, e), cls)
    ensures RunEnd(input, pos, cls) == e
  {
  }

  /** Where the next token starts: past the whitespace at `pos`. */
  function TokenStart(input: seq<Byte>, pos: nat): nat
  {
    RunEnd(input, pos, Whitespace)
  }

  /** The kind of the switch arm the byte selects: a punctuation kind, EOF for
      the byte 0, and ILLEGAL when no fixed arm matches. */
  function FixedKind(c: Byte): TokenType
  {
    match c
    case '=' => ASSIGN
    case ';' => SEMICOLON
    case '(' => LPAREN
    case ')' => RPAREN
    case ',' => COMMA
    case '+' => PLUS
    case '{' => LBRACE
    case '}' => RBRACE
    case '\0' => EOF
    case _ => ILLEGAL
  }

  /** The switch arms agree with the kind constants: a byte selects a
      punctuation kind exactly when that kind's value is the byte itself. */
  lemma FixedKindMatchesSpelling(c: Byte, t: TokenType)
    requires IsPunctuation(t)
    ensures FixedKind(c) == t <==> Spelling(t) == [c]
    ensures FixedKind(c) == EOF <==> c == '\0'
    ensures FixedKind(c) != ILLEGAL ==> !IsLetter(c) && !IsDigit(c)
  {
  }

  /** A single-byte token. */
  function NewToken(t: TokenType, c: Byte): Token
  {
    Token(t, [c])
  }

  /** The result of one NextToken call: the token and the cursor afterwards. */
  datatype Step = Step(tok: Token, next: nat)

  /** One NextToken call on a lexer whose cursor is at `pos`. */
  function Scan(input: seq<Byte>, pos: nat): (s: Step)
    ensures pos < s.next
    ensures s.tok.literal == [] <==> s.tok.kind == EOF
    ensures s.tok.kind != EOF ==> s.next <= |input|
  {
    var p := TokenStart(input, pos);
    var c := At(input, p);
    var k := FixedKind(c);
    if k == EOF then Step(Token(EOF, []), p + 1)
    else if k != ILLEGAL then Step(NewToken(k, c), p + 1)
    else if IsLetter(c) then
      var e := RunEnd(input, p, Letter);
      Step(Token(LookupIdent(input[p..e]), input[p..e]), e)
    else if IsDigit(c) then
      var e := RunEnd(input, p, Digit);
      Step(Token(INT, input[p..e]), e)
    else Step(NewToken(ILLEGAL, c), p + 1)
  }

  // ---------------------------------------------------------------------
  // What one call produces, case by case
  // ---------------------------------------------------------------------

  /** Everything a call steps over before its token is whitespace. */
  lemma SkippedBytesAreWhitespace(input: seq<Byte>, pos: nat)
    ensures var p := TokenStart(input, pos);
      pos <= p && !IsWhitespace(At(input, p)) &&
      forall i :: pos <= i < p ==> i < |input| && IsWhitespace(input[i])
  {
  }

  /** A punctuation byte yields its kind, with that byte as literal, and the
      cursor ends one past it. */
  lemma ScanPunctuation(input: seq<Byte>, pos: nat, t: TokenType)
    requires IsPunctuation(t)
    requires Spelling(t) == [At(input, TokenStart(input, pos))]
    ensures var p := TokenStart(input, pos);
      p < |input| && Scan(input, pos) == Step(Token(t, input[p..p + 1]), p + 1)
  {
  }

  /** A letter or underscore starts an identifier or keyword: the literal is
      the maximal non-empty run of letters from there, the kind is its table
      lookup, and the cursor ends on the first byte that is not a letter. */
  lemma ScanIdentifier(input: seq<Byte>, pos: nat)
    requires IsLetter(At(input, TokenStart(input, pos)))
    ensures var p := TokenStart(input, pos); var s := Scan(input, pos);
      p < s.next <= |input| &&
      s.tok.literal == input[p..s.next] &&
      (forall i :: p <= i < s.next ==> IsLetter(input[i])) &&
      !IsLetter(At(input, s.next)) &&
      s.tok.kind == LookupIdent(s.tok.literal)
  {
  }

  /** A digit starts an integer: the literal is the maximal non-empty run of
      digits, and the cursor ends on the first byte that is not a digit. */
  lemma ScanNumber(input: seq<Byte>, pos: nat)
    requires IsDigit(At(input, TokenStart(input, pos)))
    ensures var p := TokenStart(input, pos); var s := Scan(input, pos);
      p < s.next <= |input| &&
      s.tok == Token(INT, input[p..s.next]) &&
      (forall i :: p <= i < s.next ==> IsDigit(input[i])) &&
      !IsDigit(At(input, s.next))
  {
  }

  /** Any other non-zero byte yields ILLEGAL with that byte as literal and
      advances the cursor by one. */
  lemma ScanIllegal(input: seq<Byte>, pos: nat)
    requires var c := At(input, TokenStart(input, pos));
      c != '\0' && !IsLetter(c) && !IsDigit(c) &&
      forall t :: IsPunctuation(t) ==> Spelling(t) != [c]
    ensures var p := TokenStart(input, pos);
      p < |input| && Scan(input, pos) == Step(Token(ILLEGAL, input[p..p + 1]), p + 1)
  {
    var c := At(input, TokenStart(input, pos));
    if FixedKind(c) != ILLEGAL {
      FixedKindMatchesSpelling(c, FixedKind(c));
    }
  }

  /** The byte 0, whether the past-end sentinel or a NUL inside the input,
      yields EOF with an empty literal; the cursor still moves one on. */
  lemma ScanEof(input: seq<Byte>, pos: nat)
    requires At(input, TokenStart(input, pos)) == '\0'
    ensures Scan(input, pos) == Step(Token(EOF, []), TokenStart(input, pos) + 1)
  {
  }

  /** Once the cursor is past the input, a call yields EOF and moves the
      cursor exactly one further. */
  lemma ScanPastEnd(input: seq<Byte>, pos: nat)
    requires |input| <= pos
    ensures Scan(input, pos) == Step(Token(EOF, []), pos + 1)
  {
  }

  /** A NUL byte inside the input yields EOF there, and the cursor is left
      inside the input, so later calls go on scanning what follows it. */
  lemma NulInsideInput(input: seq<Byte>, pos: nat)
    requires TokenStart(input, pos) < |input| && input[TokenStart(input, pos)] == '\0'
    ensures Scan(input, pos).tok == Token(EOF, [])
    ensures Scan(input, pos).next <= |input|
  {
  }

  /** Every token other than EOF is the slice of the input that ends at the
      new cursor, starting at or after the old one. */
  lemma LiteralIsSlice(input: seq<Byte>, pos: nat)
    ensures var s := Scan(input, pos);
      s.tok.kind != EOF ==>
        pos <= s.next - |s.tok.literal| &&
        s.tok.literal == input[s.next - |s.tok.literal|..s.next]
  {
  }

  // ---------------------------------------------------------------------
  // Several calls
  // ---------------------------------------------------------------------

  /** The tokens of `n` consecutive NextToken calls from cursor `pos`, and
      the cursor after them. */
  function Calls(input: seq<Byte>, pos: nat, n: nat): (r: (seq<Token>, nat))
    ensures |r.0| == n
    ensures pos + n <= r.1
    decreases n
  {
    if n == 0 then ([], pos)
    else
      var s := Scan(input, pos);
      var rest := Calls(input, s.next, n - 1);
      ([s.tok] + rest.0, rest.1)
  }

  /** Past the end of the input every call yields EOF with an empty literal,
      while the cursor still grows by one per call. */
  lemma {:induction false} EofForever(input: seq<Byte>, pos: nat, n: nat)
    requires |input| <= pos
    ensures Calls(input, pos, n).1 == pos + n
    ensures forall k :: 0 <= k < n ==> Calls(input, pos, n).0[k] == Token(EOF, [])
    decreases n
  {
    if n > 0 {
      ScanPastEnd(input, pos);
      EofForever(input, pos + 1, n - 1);
    }
  }

  /** An input of whitespace only (the empty one included) yields EOF on the
      first call and on every later one. */
  lemma {:induction false} WhitespaceOnlyIsEof(input: seq<Byte>, n: nat)
    requires forall i :: 0 <= i < |input| ==> IsWhitespace(input[i])
    ensures forall k :: 0 <= k < n ==> Calls(input, 0, n).0[k] == Token(EOF, [])
  {
    if n > 0 {
      var s := Scan(input, 0);
      assert TokenStart(input, 0) == |input|;
      EofForever(input, s.next, n - 1);
    }
  }

  /** Identifiers do not run on into digits: "x1" is IDENT "x", then INT "1". */
  lemma IdentifierStopsAtDigit(input: seq<Byte>)
    requires input == "x1"
    ensures Calls(input, 0, 3).0 == [Token(IDENT, "x"), Token(INT, "1"), Token(EOF, [])]
  {
    assert Scan(input, 0) == Step(Token(IDENT, "x"), 1) by {
      RunEndUnique(input, 0, 0, Whitespace);
      RunEndUnique(input, 0, 1, Letter);
      assert input[0..1] == "x";
    }
    assert Scan(input, 1) == Step(Token(INT, "1"), 2) by {
      RunEndUnique(input, 1, 1, Whitespace);
      RunEndUnique(input, 1, 2, Digit);
      assert input[1..2] == "1";
    }
    ScanPastEnd(input, 2);
  }

  /** "@" is ILLEGAL "@", then EOF. */
  lemma IllegalByte(input: seq<Byte>)
    requires input == "@"
    ensures Calls(input, 0, 2).0 == [Token(ILLEGAL, "@"), Token(EOF, [])]
  {
  }

  /** A NUL inside "a\0b" yields EOF mid-input, and the next call still
      finds the identifier after it. */
  lemma NulThenIdentifier(input: seq<Byte>)
    requires input == "a\0b"
    ensures Calls(input, 0, 4).0 ==
      [Token(IDENT, "a"), Token(EOF, []), Token(IDENT, "b"), Token(EOF, [])]
  {
    assert Scan(input, 0) == Step(Token(IDENT, "a"), 1) by {
      RunEndUnique(input, 0, 0, Whitespace);
      RunEndUnique(input, 0, 1, Letter);
      assert input[0..1] == "a";
    }
    assert Scan(input, 1) == Step(Token(EOF, []), 2) by {
      RunEndUnique(input, 1, 1, Whitespace);
    }
    assert Scan(input, 2) == Step(Token(IDENT, "b"), 3) by {
      RunEndUnique(input, 2, 2, Whitespace);
      RunEndUnique(input, 2, 3, Letter);
      assert input[2..3] == "b";
    }
    ScanPastEnd(input, 3);
  }

  /** "let five = 5;" scans to LET, IDENT, ASSIGN, INT, SEMICOLON, EOF. */
  lemma LetStatement(input: seq<Byte>)
    requires input == "let five = 5;"
    ensures Calls(input, 0, 6).0 ==
      [Token(LET, "let"), Token(IDENT, "five"), Token(ASSIGN, "="),
       Token(INT, "5"), Token(SEMICOLON, ";"), Token(EOF, [])]
  {
    LetStatementWords(input);
    LetStatementRest(input);
    ScanPastEnd(input, 13);
    var tail := [Token(INT, "5"), Token(SEMICOLON, ";"), Token(EOF, [])];
    assert Calls(input, 12, 2).0 == tail[1..];
    assert Calls(input, 10, 3).0 == tail;
    assert Calls(input, 8, 4).0 == [Token(ASSIGN, "=")] + tail;
    assert Calls(input, 3, 5).0 == [Token(IDENT, "five"), Token(ASSIGN, "=")] + tail;
  }

  /** The first two calls on "let five = 5;": the keyword, then the name. */
  lemma LetStatementWords(input: seq<Byte>)
    requires input == "let five = 5;"
    ensures Scan(input, 0) == Step(Token(LET, "let"), 3)
    ensures Scan(input, 3) == Step(Token(IDENT, "five"), 8)
  {
    assert Scan(input, 0) == Step(Token(LET, "let"), 3) by {
      RunEndUnique(input, 0, 0, Whitespace);
      RunEndUnique(input, 0, 3, Letter);
      assert input[0..3] == "let";
    }
    RunEndUnique(input, 3, 4, Whitespace);
    RunEndUnique(input, 4, 8, Letter);
    assert input[4..8] == "five";
  }

  /** The next three calls on "let five = 5;": "=", "5" and ";". */
  lemma LetStatementRest(input: seq<Byte>)
    requires input == "let five = 5;"
    ensures Scan(input, 8) == Step(Token(ASSIGN, "="), 10)
    ensures Scan(input, 10) == Step(Token(INT, "5"), 12)
    ensures Scan(input, 12) == Step(Token(SEMICOLON, ";"), 13)
  {
    assert Scan(input, 8) == Step(Token(ASSIGN, "="), 10) by {
      RunEndUnique(input, 8, 9, Whitespace);
    }
    assert Scan(input, 10) == Step(Token(INT, "5"), 12) by {
      RunEndUnique(input, 10, 11, Whitespace);
      RunEndUnique(input, 11, 12, Digit);
      assert input[11..12] == "5";
    }
    RunEndUnique(input, 12, 12, Whitespace);
  }

  // ---------------------------------------------------------------------
  // The lexer object
  // ---------------------------------------------------------------------

  class Lexer {
    const input: seq<Byte>
    /** Index of the byte under examination. */
    var position: nat
    /** Index of the next byte to read. */
    var readPosition: nat
    /** The byte under examination; 0 past the end of the input. */
    var ch: Byte

    /** The cursor invariant every call keeps. */
    ghost predicate Valid()
      reads this
    {
      readPosition == position + 1 && ch == At(input, position)
    }

    /** New: primes the cursor on the first byte (or on 0 for empty input). */
    constructor (input: seq<Byte>)
      ensures this.input == input
      ensures position == 0 && readPosition == 1
      ensures ch == if |input| == 0 then '\0' else input[0]
      ensures Valid()
    {
      this.input := input;
      position, readPosition, ch := 0, 0, '\0';
      new;
      ReadChar();
    }

    /** Moves the cursor to the read position and loads the byte there. */
    method ReadChar()
      modifies this
      ensures old(Valid()) ==> position == old(position) + 1
      ensures position == old(readPosition)
      ensures readPosition == position + 1
      ensures ch == At(input, position)
      ensures Valid()
    {
      if readPosition >= |input| {
        ch := '\0';
      } else {
        ch := input[readPosition];
      }
      position := readPosition;
      readPosition := readPosition + 1;
    }

    method SkipWhitespace()
      requires Valid()
      modifies this
      ensures Valid()
      ensures position == TokenStart(input, old(position))
      ensures !IsWhitespace(ch)
    {
      while IsWhitespace(ch)
        invariant Valid()
        invariant old(position) <= position
        invariant RunEnd(input, position, Whitespace) == RunEnd(input, old(position), Whitespace)
        decreases |input| - position
      {
        ReadChar();
      }
    }

    /** Consumes the maximal run of letters under the cursor and returns it. */
    method ReadIdentifier() returns (literal: seq<Byte>)
      requires Valid()
      requires position <= |input|
      modifies this
      ensures Valid()
      ensures position == RunEnd(input, old(position), Letter)
      ensures literal == input[old(position)..position]
    {
      var start := position;
      while IsLetter(ch)
        invariant Valid()
        invariant start <= position <= |input|
        invariant RunEnd(input, position, Letter) == RunEnd(input, start, Letter)
        decreases |input| - position
      {
        ReadChar();
      }
      literal := input[start..position];
    }

    /** Consumes the maximal run of digits under the cursor and returns it. */
    method ReadNumber() returns (literal: seq<Byte>)
      requires Valid()
      requires position <= |input|
      modifies this
      ensures Valid()
      ensures position == RunEnd(input, old(position), Digit)
      ensures literal == input[old(position)..position]
    {
      var start := position;
      while IsDigit(ch)
        invariant Valid()
        invariant start <= position <= |input|
        invariant RunEnd(input, position, Digit) == RunEnd(input, start, Digit)
        decreases |input| - position
      {
        ReadChar();
      }
      literal := input[start..position];
    }

    /** Produces the next token and advances the cursor past it. */
    method NextToken() returns (tok: Token)
      requires Valid()
      modifies this
      ensures Valid()
      ensures Scan(input, old(position)) == Step(tok, position)
      ensures old(position) < position
    {
      SkipWhitespace();
      match ch {
      case '=' => tok := NewToken(ASSIGN, ch);
      case ';' => tok := NewToken(SEMICOLON, ch);
      case '(' => tok := NewToken(LPAREN, ch);
      case ')' => tok := NewToken(RPAREN, ch);
      case ',' => tok := NewToken(COMMA, ch);
      case '+' => tok := NewToken(PLUS, ch);
      case '{' => tok := NewToken(LBRACE, ch);
      case '}' => tok := NewToken(RBRACE, ch);
      case '\0' => tok := Token(EOF, []);
      case _ =>
        if IsLetter(ch) {
          var literal := ReadIdentifier();
          tok := Token(LookupIdent(literal), literal);
          return;
        } else if IsDigit(ch) {
          var literal := ReadNumber();
          tok := Token(INT, literal);
          return;
        } else {
          tok := NewToken(ILLEGAL, ch);
        }
      }
      ReadChar();
    }
  }
}
