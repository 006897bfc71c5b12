/** The `Scanner` of src/scanner.rs: a cursor over the source bytes that fills a
    token list or records one error. Every method is proved to move the fields
    exactly as the function of module Lexing that specifies it. */
module Scanning {
  import opened Tokens
  import opened Lexing

  class Scanner {
    var source: seq<byte>
    var tokens: seq<Token>
    var err: Option<ScannerError>
    var start: nat
    var current: nat
    var line: nat
    var col: int
    /** The slice of `source` each token was cut from. */
    ghost var spans: seq<Span>

    /** The fields as a Lexing state. */
    ghost function State(): ScanState
      reads this
    {
      ScanState(current, line, col, tokens, spans, err)
    }

    /** `Scanner::new`: empty source, no tokens, line 1, column -1. The keyword table
        is the constant `Tokens.Keywords`. */
    constructor ()
      ensures source == [] && start == 0
      ensures State() == Initial
    {
      source := [];
      tokens := [];
      spans := [];
      err := None;
      start := 0;
      current := 0;
      line := 1;
      col := -1;
    }

    /** `scan_tokens`: take `input` as the source, scan until an error or the end,
        then push Eof unless an error was recorded. The cursor and token list are
        not reset, as in the source. */
    method ScanTokens(input: seq<byte>)
      modifies this
      ensures source == input
      ensures State() == Finish(Run(input, old(State())))
    {
      source := input;
      while err.None? && !IsAtEnd()
        invariant source == input
        invariant Run(source, State()) == Run(input, old(State()))
        decreases |source| - current
      {
        start := current;
        ScanToken();
      }
      if err.None? {
        tokens := tokens + [Token(Eof, [], None, line, col)];
        spans := spans + [Span(current, current)];
      }
    }

    /** `is_at_end`: no byte is left under the cursor. */
    function IsAtEnd(): bool
      reads this
    {
      current >= |source|
    }

    /** `advance`: consume one byte and return it. */
    method Advance() returns (c: byte)
      requires current < |source|
      modifies this`current, this`col
      ensures c == source[old(current)]
      ensures State() == Advanced(old(State()))
    {
      current := current + 1;
      col := col + 1;
      c := source[current - 1];
    }

    /** `peek`: the byte under the cursor, or NUL at the end. NUL fails the digit and
        alphanumeric tests, so the `number` and `identifier` loops stop at the end with
        no end test of their own. NUL is neither a newline nor a quote, so it passes
        the tests of the comment and string loops: those stop at the end only through
        their explicit `is_at_end` test. */
    function Peek(): (r: byte)
      reads this
      ensures current < |source| ==> r == source[current]
      ensures current >= |source| ==> !IsAlphanumeric(r) && r != QUOTE && r != NEWLINE
    {
      if IsAtEnd() then NUL else source[current]
    }

    /** `peek_next`: the byte after the cursor, or NUL. Never called by the scanner. */
    function PeekNext(): byte
      reads this
    {
      if current + 1 >= |source| then NUL else source[current + 1]
    }

    /** `matches`: consume the next byte only when input remains and it is `expected`. */
    method Matches(expected: byte) returns (b: bool)
      modifies this`current, this`col
      ensures b == NextIs(source, old(State()), expected)
      ensures State() == if b then Advanced(old(State())) else old(State())
    {
      if IsAtEnd() {
        return false;
      }
      if source[current] != expected {
        return false;
      }
      current := current + 1;
      col := col + 1;
      return true;
    }

    /** `add_token`: a token without a literal. */
    method AddToken(kind: TokenType)
      requires start <= current <= |source|
      modifies this`tokens, this`spans
      ensures State() == Emit(source, start, old(State()), kind, None)
    {
      AddTokenLiteral(kind, None);
    }

    /** `add_token_literal`: push a token whose lexeme is `source[start..current]`. */
    method AddTokenLiteral(kind: TokenType, literal: Option<Literal>)
      requires start <= current <= |source|
      modifies this`tokens, this`spans
      ensures State() == Emit(source, start, old(State()), kind, literal)
    {
      var text := source[start..current];
      tokens := tokens + [Token(kind, text, literal, line, col)];
      spans := spans + [Span(start, current)];
    }

    /** `scan_token`: consume one byte and act on its class. */
    method ScanToken()
      requires start == current < |source| && err.None?
      modifies this`current, this`col, this`line, this`tokens, this`spans, this`err
      ensures State() == Step(source, old(State()))
    {
      ghost var s0 := State();
      var c := Advance();
      assert Step(source, s0) == Dispatch(source, s0.current, c, State());
      match Classify(c)
      case Punct(kind) =>
        AddToken(kind);
      case Operator(single, double) =>
        var matchesEq := Matches(EQUAL);
        AddToken(if matchesEq then double else single);
      case SlashOrComment =>
        var isComment := Matches(SLASH);
        if isComment {
          AdvanceWhile(NotNewline);
        } else {
          AddToken(Slash);
        }
      case Blank =>
      case Newline =>
        line := line + 1;
        col := 0;
      case Quote =>
        ScanString();
      case Digit =>
        ScanNumber();
      case Alpha =>
        ScanIdentifier();
      case Unexpected =>
        err := Some(ScannerError(UnexpectedMessage(c), line, col));
    }

    /** The loops `while p(peek()) { advance() }` of the comment skip, `number` and
        `identifier`: consume bytes while input remains and they satisfy `p`. The
        digit and alphanumeric tests already fail on the NUL that `peek` returns at
        the end, so the explicit end test changes nothing for those two. */
    method AdvanceWhile(p: byte -> bool)
      requires current <= |source|
      modifies this`current, this`col
      ensures current == ScanWhile(source, old(current), p)
      ensures col == old(col) + (current - old(current))
    {
      while !IsAtEnd() && p(Peek())
        invariant old(current) <= current <= |source|
        invariant ScanWhile(source, current, p) == ScanWhile(source, old(current), p)
        invariant col == old(col) + (current - old(current))
        decreases |source| - current
      {
        var _ := Advance();
      }
    }

    /** `number`: the run of digits after the first one. */
    method ScanNumber()
      requires start < current <= |source|
      requires forall j :: start <= j < current ==> IsDigit(source[j])
      modifies this`current, this`col, this`tokens, this`spans
      ensures State() == LexNumber(source, start, old(State()))
    {
      AdvanceWhile(IsDigit);
      ScanWhileMaximal(source, old(current), IsDigit);
      if Peek() == DOT && IsDigit(Peek()) {
        // The fraction part (an advance over the dot and a second digit loop) is
        // unreachable: one byte cannot be both a dot and a digit.
        assert false;
      }
      AddTokenLiteral(Number, Some(Num(DecimalValue(source[start..current]))));
    }

    /** `identifier`: the alphanumeric run after the first letter, then the keyword lookup. */
    method ScanIdentifier()
      requires start < current <= |source|
      modifies this`current, this`col, this`tokens, this`spans
      ensures State() == LexIdentifier(source, start, old(State()))
    {
      AdvanceWhile(IsAlphanumeric);
      var text := source[start..current];
      var kind := KeywordOrIdentifier(text);
      if kind == Identifier {
        AddTokenLiteral(Identifier, Some(Ident(text)));
      } else {
        AddToken(kind);
      }
    }

    /** The loop of `string`: consume up to the closing quote or the end, adding one
        to `line` for each newline passed over. */
    method StringBody()
      requires current <= |source|
      modifies this`current, this`col, this`line
      ensures current == ScanWhile(source, old(current), NotQuote)
      ensures line == old(line) + CountNewlines(source, old(current), current)
      ensures col == old(col) + (current - old(current))
    {
      while Peek() != QUOTE && !IsAtEnd()
        invariant old(current) <= current <= |source|
        invariant ScanWhile(source, current, NotQuote) == ScanWhile(source, old(current), NotQuote)
        invariant line == old(line) + CountNewlines(source, old(current), current)
        invariant col == old(col) + (current - old(current))
        decreases |source| - current
      {
        if Peek() == NEWLINE {
          line := line + 1;
        }
        var _ := Advance();
      }
    }

    /** `string`, after the opening quote. Where the closing quote is missing the
        source records the error and then still advances past the end of the buffer,
        which panics; here the method returns once the error is recorded. */
    method ScanString()
      requires start + 1 == current <= |source| && err.None?
      modifies this`current, this`col, this`line, this`tokens, this`spans, this`err
      ensures State() == LexString(source, start, old(State()))
    {
      StringBody();
      if IsAtEnd() {
        err := Some(ScannerError(UNTERMINATED, line, col));
        return;
      }
      var _ := Advance();
      AddTokenLiteral(String, Some(Str(source[start + 1..current - 1])));
    }
  }
}
