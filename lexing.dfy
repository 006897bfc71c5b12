/** The scanner's behaviour as functions over an explicit state: one call of
    `scan_token` is `Step`, the main loop of `scan_tokens` is `Run`, and the Eof
    push after it is `Finish`. The class in module Scanning is proved against these. */
module Lexing {
  import opened Tokens

  /** Where a token's lexeme was taken from: `source[start..end]`. */
  datatype Span = Span(start: nat, end: nat)

  /** The scanner's fields, less `source` (a parameter here) and `start` (the
      `current` of the state a step begins in). `spans` records, for each token,
      the slice of the source it was cut from. */
  datatype ScanState = ScanState(
    current: nat,
    line: nat,
    col: int,
    tokens: seq<Token>,
    spans: seq<Span>,
    err: Option<ScannerError>)

  /** A fresh scanner: line 1, and column -1 so that the first byte read is column 0. */
  const Initial: ScanState := ScanState(0, 1, -1, [], [], None)

  /** The first index at or after `i` whose byte fails `p`, or the end of the source:
      where a `while p(peek()) { advance() }` loop started at `i` stops. */
  function ScanWhile(src: seq<byte>, i: nat, p: byte -> bool): (e: nat)
    requires i <= |src|
    ensures i <= e <= |src|
    decreases |src| - i
  {
    if i < |src| && p(src[i]) then ScanWhile(src, i + 1, p) else i
  }

  /** `ScanWhile` stops at the first byte that fails `p`: every byte it passes over
      satisfies `p`, and the byte it stops at, if any, does not. */
  lemma {:induction false} ScanWhileMaximal(src: seq<byte>, i: nat, p: byte -> bool)
    requires i <= |src|
    ensures forall j :: i <= j < ScanWhile(src, i, p) ==> p(src[j])
    ensures ScanWhile(src, i, p) < |src| ==> !p(src[ScanWhile(src, i, p)])
    decreases |src| - i
  {
    if i < |src| && p(src[i]) {
      ScanWhileMaximal(src, i + 1, p);
    }
  }

  /** The number of newline bytes in `src[i..j]`. */
  function CountNewlines(src: seq<byte>, i: nat, j: nat): nat
    requires i <= j <= |src|
    decreases j
  {
    if i == j then 0
    else CountNewlines(src, i, j - 1) + (if src[j - 1] == NEWLINE then 1 else 0)
  }

  /** The value of a run of decimal digits. */
  function DecimalValue(s: seq<byte>): nat
    requires forall i :: 0 <= i < |s| ==> IsDigit(s[i])
  {
    if s == [] then 0
    else
      var d := s[|s| - 1];
      assert IsDigit(d);
      DecimalValue(s[..|s| - 1]) * 10 + (d - '0' as byte) as int
  }

  /** `advance`: one byte consumed, one column further. */
  function Advanced(st: ScanState): ScanState {
    st.(current := st.current + 1, col := st.col + 1)
  }

  /** The test of `matches(expected)`: input remains and the next byte is `expected`. */
  predicate NextIs(src: seq<byte>, st: ScanState, expected: byte) {
    st.current < |src| && src[st.current] == expected
  }

  /** `add_token_literal`: the token's lexeme is `source[start..current]`, and it
      carries the current line and column. */
  function Emit(src: seq<byte>, start: nat, st: ScanState, kind: TokenType, literal: Option<Literal>): (r: ScanState)
    requires start <= st.current <= |src|
    // The record update written out field by field: a proof aid that keeps the
    // callers of `add_token` from unfolding this function.
    ensures r.tokens == st.tokens + [Token(kind, src[start..st.current], literal, st.line, st.col)]
    ensures r.spans == st.spans + [Span(start, st.current)]
    ensures r.current == st.current && r.line == st.line && r.col == st.col && r.err == st.err
  {
    st.(tokens := st.tokens + [Token(kind, src[start..st.current], literal, st.line, st.col)],
        spans := st.spans + [Span(start, st.current)])
  }

  /** The `//` comment loop: skip up to, but not including, the next newline. */
  function SkipComment(src: seq<byte>, st: ScanState): ScanState
    requires st.current <= |src|
  {
    var e := ScanWhile(src, st.current, NotNewline);
    st.(current := e, col := st.col + (e - st.current))
  }

  /** `number`: a maximal run of digits. The fraction test of the source can never
      succeed, so a `.` after the digits is left for the next token. */
  function LexNumber(src: seq<byte>, start: nat, st: ScanState): ScanState
    requires start < st.current <= |src|
    requires forall j :: start <= j < st.current ==> IsDigit(src[j])
  {
    var e := ScanWhile(src, st.current, IsDigit);
    ScanWhileMaximal(src, st.current, IsDigit);
    var s := st.(current := e, col := st.col + (e - st.current));
    Emit(src, start, s, Number, Some(Num(DecimalValue(src[start..e]))))
  }

  /** `identifier`: a maximal alphanumeric run, then the keyword lookup. */
  function LexIdentifier(src: seq<byte>, start: nat, st: ScanState): ScanState
    requires start < st.current <= |src|
  {
    var e := ScanWhile(src, st.current, IsAlphanumeric);
    var s := st.(current := e, col := st.col + (e - st.current));
    var text := src[start..e];
    var kind := KeywordOrIdentifier(text);
    if kind == Identifier then Emit(src, start, s, Identifier, Some(Ident(text)))
    else Emit(src, start, s, kind, None)
  }

  /** `string`, started after the opening quote at `start`: consume up to the closing
      quote, counting newlines into `line` (the column keeps counting across them).
      Without a closing quote the error is recorded at the end of the input and the
      step ends there; the source instead goes on to read past the end (see module
      AsWritten). Otherwise the closing quote is consumed and the literal is the
      bytes strictly between the quotes. */
  function LexString(src: seq<byte>, start: nat, st: ScanState): ScanState
    requires start + 1 == st.current <= |src| && st.err.None?
  {
    var e := ScanWhile(src, st.current, NotQuote);
    var s := st.(current := e, line := st.line + CountNewlines(src, st.current, e), col := st.col + (e - st.current));
    if e == |src| then
      s.(err := Some(ScannerError(UNTERMINATED, s.line, s.col)))
    else
      Emit(src, start, Advanced(s), String, Some(Str(src[start + 1..e])))
  }

  /** One iteration of the main loop: `start = current; scan_token()`, where
      `scan_token` advances over one byte and dispatches on it. */
  function Step(src: seq<byte>, st: ScanState): (r: ScanState)
    requires st.current < |src| && st.err.None?
    ensures st.current < r.current <= |src|
  {
    Dispatch(src, st.current, src[st.current], Advanced(st))
  }

  /** The arms of `scan_token`'s match, for the byte `c` at `start` already consumed. */
  function Dispatch(src: seq<byte>, start: nat, c: byte, s: ScanState): (r: ScanState)
    requires start + 1 == s.current <= |src| && s.err.None?
    requires c == src[start]
    ensures s.current <= r.current <= |src|
  {
    match Classify(c)
    case Punct(kind) => Emit(src, start, s, kind, None)
    case Operator(single, double) =>
      if NextIs(src, s, EQUAL) then Emit(src, start, Advanced(s), double, None)
      else Emit(src, start, s, single, None)
    case SlashOrComment =>
      if NextIs(src, s, SLASH) then SkipComment(src, Advanced(s))
      else Emit(src, start, s, Slash, None)
    case Blank => s
    case Newline => s.(line := s.line + 1, col := 0)
    case Quote => LexString(src, start, s)
    case Digit => LexNumber(src, start, s)
    case Alpha => LexIdentifier(src, start, s)
    case Unexpected => s.(err := Some(ScannerError(UnexpectedMessage(c), s.line, s.col)))
  }

  /** The main loop of `scan_tokens`: step while no error is recorded and input remains. */
  function Run(src: seq<byte>, st: ScanState): (r: ScanState)
    ensures r.err.Some? || r.current >= |src|
    ensures st.current <= r.current
    decreases |src| - st.current
  {
    if st.err.Some? || st.current >= |src| then st
    else Run(src, Step(src, st))
  }

  /** The Eof token: empty lexeme, no literal, the current line and column. */
  function EofToken(st: ScanState): Token {
    Token(Eof, [], None, st.line, st.col)
  }

  /** After the loop: push Eof exactly when no error was recorded. Its span is the
      empty slice at the cursor. */
  function Finish(st: ScanState): ScanState {
    if st.err.Some? then st
    else st.(tokens := st.tokens + [EofToken(st)], spans := st.spans + [Span(st.current, st.current)])
  }

  /** The final state of a scan of `src` by a fresh scanner. */
  function Final(src: seq<byte>): ScanState {
    Finish(Run(src, Initial))
  }

  /** What a caller of a fresh scan receives: the token list, or the one error. */
  function Lex(src: seq<byte>): Result<seq<Token>, ScannerError> {
    var f := Final(src);
    if f.err.Some? then Err(f.err.value) else Ok(f.tokens)
  }
}
