/** The token model of the Monkey lexer: the closed set of token kinds, the
    token record and the fixed keyword table (token/token.go). */
module Token {

  /** One byte of a Go string. Characters stand for bytes so that literals such
      as "let" and '=' read as in the source. */
  type Byte = c: char | c as int < 0x100 witness '\0'

  /** The kind constants. In the source a kind is a string; `Spelling` gives it. */
  datatype TokenType =
    | ILLEGAL | EOF
    | IDENT | INT
    | ASSIGN | PLUS
    | COMMA | SEMICOLON | LPAREN | RPAREN | LBRACE | RBRACE
    | FUNCTION | LET

  /** A token: its kind and the exact bytes of the input that produced it. */
  datatype Token = Token(kind: TokenType, literal: seq<Byte>)

  /** The string value of each kind constant. */
  function Spelling(t: TokenType): string
  {
    match t
    case ILLEGAL => "ILLEGAL"
    case EOF => "EOF"
    case IDENT => "IDENT"
    case INT => "INT"
    case ASSIGN => "="
    case PLUS => "+"
    case COMMA => ","
    case SEMICOLON => ";"
    case LPAREN => "("
    case RPAREN => ")"
    case LBRACE => "{"
    case RBRACE => "}"
    case FUNCTION => "FUNCTION"
    case LET => "LET"
  }

  /** The operator and delimiter kinds, each produced by one character. */
  predicate IsPunctuation(t: TokenType)
  {
    t in {ASSIGN, PLUS, COMMA, SEMICOLON, LPAREN, RPAREN, LBRACE, RBRACE}
  }

  /** The kind constants have pairwise distinct values, so a kind is known from
      its string; a punctuation kind's value is the one character that
      produces it, and no other kind's value is one character long. */
  lemma SpellingInjective(a: TokenType, b: TokenType)
    ensures Spelling(a) == Spelling(b) <==> a == b
    ensures |Spelling(a)| == 1 <==> IsPunctuation(a)
  {
  }

  /** The keyword table. It is a constant: nothing can change it. */
  const Keywords: map<seq<Byte>, TokenType> := map["fn" := FUNCTION, "let" := LET]

  /** The kind of an identifier: its keyword kind when the exact spelling is in
      the table, IDENT otherwise (no prefix and no case-insensitive match). */
  function LookupIdent(ident: seq<Byte>): (t: TokenType)
    ensures t == FUNCTION <==> ident == "fn"
    ensures t == LET <==> ident == "let"
    ensures t == IDENT <==> ident != "fn" && ident != "let"
    ensures t == FUNCTION || t == LET || t == IDENT
  {
    if ident in Keywords then Keywords[ident] else IDENT
  }
}
