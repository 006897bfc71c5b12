/** Token kinds, literals, tokens and errors of the scanner (src/scanner.rs:4-89),
    together with the byte classes and the keyword table the scanner consults. */
module Tokens {

  /** The source is a byte buffer; each byte is read as one character. */
  newtype byte = x: int | 0 <= x < 256

  datatype Option<T> = None | Some(value: T)

  datatype Result<T, E> = Ok(value: T) | Err(error: E)

  /** The closed set of lexical categories. */
  datatype TokenType =
    // Single-character tokens.
    | LeftParen | RightParen | LeftBrace | RightBrace | LeftBracket | RightBracket
    | Comma | Dot | Minus | Plus | Semicolon | Slash | Star
    // One or two character tokens.
    | Bang | BangEqual | Equal | EqualEqual | Greater | GreaterEqual | Less | LessEqual
    // Literals.
    | Identifier | String | Number
    // Keywords.
    | And | Class | Else | False | Fun | For | If | Nil | Or | Print | Return
    | Super | This | True | Var | While | Lambda
    | Eof

  /** The value attached to identifier, string and number tokens. The source parses a
      number's text into a 64-bit float; here it is the natural number its digits denote. */
  datatype Literal = Ident(name: seq<byte>) | Str(text: seq<byte>) | Num(value: nat)

  datatype Token = Token(kind: TokenType, lexeme: seq<byte>, literal: Option<Literal>, line: nat, col: int)

  datatype ScannerError = ScannerError(what: string, line: nat, col: int)

  const NUL: byte := 0
  const NEWLINE: byte := 10  // '\n'
  const QUOTE: byte := 34  // '"'
  const DOT: byte := 46  // '.'
  const EQUAL: byte := 61  // '='
  const SLASH: byte := 47  // '/'

  /** `char::is_ascii_digit` */
  predicate IsDigit(b: byte) {
    48 <= b <= 57  // '0' to '9'
  }

  /** `char::is_alphabetic`, restricted to ASCII letters. */
  predicate IsAlpha(b: byte) {
    97 <= b <= 122 || 65 <= b <= 90  // 'a' to 'z', 'A' to 'Z'
  }

  /** `char::is_alphanumeric`, restricted to ASCII letters and digits. */
  predicate IsAlphanumeric(b: byte) {
    IsAlpha(b) || IsDigit(b)
  }

  predicate NotNewline(b: byte) {
    b != NEWLINE
  }

  predicate NotQuote(b: byte) {
    b != QUOTE
  }

  /** The 17 reserved words and their kinds; lookup is exact and case-sensitive. */
  const Keywords: map<seq<byte>, TokenType> := map[
    [97, 110, 100] := And,  // "and"
    [99, 108, 97, 115, 115] := Class,  // "class"
    [101, 108, 115, 101] := Else,  // "else"
    [102, 97, 108, 115, 101] := False,  // "false"
    [102, 111, 114] := For,  // "for"
    [102, 117, 110] := Fun,  // "fun"
    [105, 102] := If,  // "if"
    [110, 105, 108] := Nil,  // "nil"
    [111, 114] := Or,  // "or"
    [112, 114, 105, 110, 116] := Print,  // "print"
    [114, 101, 116, 117, 114, 110] := Return,  // "return"
    [115, 117, 112, 101, 114] := Super,  // "super"
    [116, 104, 105, 115] := This,  // "this"
    [116, 114, 117, 101] := True,  // "true"
    [118, 97, 114] := Var,  // "var"
    [119, 104, 105, 108, 101] := While,  // "while"
    [108, 97, 109, 98, 100, 97] := Lambda  // "lambda"
  ]

  /** The kind the identifier rule gives to `text`: its keyword kind, or `Identifier`. */
  function KeywordOrIdentifier(text: seq<byte>): TokenType
  {
    if text in Keywords then Keywords[text] else Identifier
  }

  /** What the first byte of a token tells the scanner to do: the dispatch of
      `scan_token`, in the order its match arms are tried. */
  datatype ByteClass =
    | Punct(kind: TokenType)
    | Operator(single: TokenType, double: TokenType)
    | SlashOrComment
    | Blank
    | Newline
    | Quote
    | Digit
    | Alpha
    | Unexpected

  function Classify(c: byte): ByteClass {
    if c == 40 then Punct(LeftParen)  // '('
    else if c == 41 then Punct(RightParen)  // ')'
    else if c == 123 then Punct(LeftBrace)  // '{'
    else if c == 125 then Punct(RightBrace)  // '}'
    else if c == 91 then Punct(LeftBracket)  // '['
    else if c == 93 then Punct(RightBracket)  // ']'
    else if c == 44 then Punct(Comma)  // ','
    else if c == DOT then Punct(Dot)
    else if c == 45 then Punct(Minus)  // '-'
    else if c == 43 then Punct(Plus)  // '+'
    else if c == 59 then Punct(Semicolon)  // ';'
    else if c == 42 then Punct(Star)  // '*'
    else if c == 33 then Operator(Bang, BangEqual)  // '!'
    else if c == EQUAL then Operator(Equal, EqualEqual)
    else if c == 60 then Operator(Less, LessEqual)  // '<'
    else if c == 62 then Operator(Greater, GreaterEqual)  // '>'
    else if c == SLASH then SlashOrComment
    else if c == 32 || c == 13 || c == 9 then Blank  // ' ' '\r' '\t'
    else if c == NEWLINE then Newline
    else if c == QUOTE then Quote
    else if IsDigit(c) then Digit
    else if IsAlpha(c) then Alpha
    else Unexpected
  }

  /** The message of the error for a byte no rule accepts. */
  function UnexpectedMessage(c: byte): string {
    "Unexpected character at " + [(c as int) as char]
  }

  const UNTERMINATED: string := "Unterminated string."
}
