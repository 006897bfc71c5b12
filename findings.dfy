/** The end of `string` (src/scanner.rs:283-296) as it is written. When the input
    ends before a closing quote, the source records "Unterminated string." and then
    still calls `advance`, which reads the byte at `current - 1` after the increment:
    one past the last byte of the source, an index the buffer does not have. The
    rest of the model uses `Lexing.LexString` instead, which stops after recording
    the error; module ScanProperties proves what that gives. */
module AsWritten {
  import opened Tokens
  import opened Lexing

  /** How `string` ends as written: with a String token pushed, or by reading
      `source[index]` from a buffer of `length` bytes where `index >= length`. */
  datatype StringOutcome =
    | Finished(st: ScanState)
    | OutOfBounds(index: nat, length: nat)

  /** `string` started after the opening quote at `start`, line for line: the loop
      up to a quote or the end, the error when at the end, then `advance` and
      `add_token_literal` unconditionally. */
  function StringAsWritten(src: seq<byte>, start: nat, st: ScanState): (r: StringOutcome)
    requires start + 1 == st.current <= |src| && st.err.None?
    ensures r.OutOfBounds? ==> r.length == |src| <= r.index
    ensures r.Finished? ==> r.st.err.None? && |r.st.tokens| == |st.tokens| + 1
  {
    var e := ScanWhile(src, st.current, NotQuote);
    var s := st.(current := e, line := st.line + CountNewlines(src, st.current, e), col := st.col + (e - st.current));
    var flagged := if e >= |src| then s.(err := Some(ScannerError(UNTERMINATED, s.line, s.col))) else s;
    var advanced := Advanced(flagged);
    if advanced.current - 1 >= |src| then OutOfBounds(advanced.current - 1, |src|)
    else Finished(Emit(src, start, advanced, String, Some(Str(src[start + 1..advanced.current - 1]))))
  }

  /** With no quote left in the input, the source indexes its buffer at its own
      length: the error it has just recorded is never returned. */
  lemma UnterminatedStringReadsPastEnd(src: seq<byte>, start: nat, st: ScanState)
    requires start + 1 == st.current <= |src| && st.err.None?
    requires forall j :: st.current <= j < |src| ==> src[j] != QUOTE
    ensures StringAsWritten(src, start, st) == OutOfBounds(|src|, |src|)
  {
    ScanWhileMaximal(src, st.current, NotQuote);
    assert ScanWhile(src, st.current, NotQuote) == |src|;
  }

  /** The smallest such input, `"ab` with no closing quote: the read is at index 3
      of a 3-byte source. */
  lemma OpenStringReadsPastEnd()
    ensures StringAsWritten([34, 97, 98], 0, Advanced(Initial)) == OutOfBounds(3, 3)  // "\"ab"
  {
    UnterminatedStringReadsPastEnd([34, 97, 98], 0, Advanced(Initial));
  }

  /** When a closing quote exists the as-written code and the corrected `LexString`
      do the same thing, so the correction changes only the unterminated case. */
  lemma ClosedStringAgrees(src: seq<byte>, start: nat, st: ScanState, close: nat)
    requires start + 1 == st.current <= close < |src| && st.err.None?
    requires src[close] == QUOTE
    ensures StringAsWritten(src, start, st) == Finished(LexString(src, start, st))
  {
    ScanWhileMaximal(src, st.current, NotQuote);
  }
}
