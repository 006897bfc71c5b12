/** What the scanner promises about one step and about a whole scan, proved on the
    functions of module Lexing (and so, through their contracts, on the class of
    module Scanning). */
module ScanProperties {
  import opened Tokens
  import opened Lexing

  /** The bytes a step passes over without producing a token or an error: blanks,
      newlines, and a `//` comment. */
  predicate IsSpace(b: byte) {
    b == 32 || b == 13 || b == 9 || b == NEWLINE  // ' ' '\r' '\t' '\n'
  }

  predicate SkipsAt(src: seq<byte>, i: nat)
    requires i < |src|
  {
    IsSpace(src[i]) || (src[i] == SLASH && i + 1 < |src| && src[i + 1] == SLASH)
  }

  /** Where such a skip ends: after the blank byte, or at the newline ending the comment. */
  function SkipEnd(src: seq<byte>, i: nat): (e: nat)
    requires i < |src| && SkipsAt(src, i)
    ensures i < e <= |src|
  {
    if IsSpace(src[i]) then i + 1 else ScanWhile(src, i + 2, NotNewline)
  }

  /** `src[i..]` holds only whitespace and comments. */
  predicate BlankFrom(src: seq<byte>, i: nat)
    decreases |src| - i
  {
    i >= |src| || (SkipsAt(src, i) && BlankFrom(src, SkipEnd(src, i)))
  }

  /** `r` is `st` with one token appended: cut from the bytes between the two cursors,
      not an Eof, stamped with the line `r` ends on. */
  ghost predicate Emitted(src: seq<byte>, st: ScanState, r: ScanState) {
    && st.current <= r.current <= |src|
    && r.err.None?
    && |r.tokens| == |st.tokens| + 1
    && r.tokens == st.tokens + [r.tokens[|st.tokens|]]
    && r.spans == st.spans + [Span(st.current, r.current)]
    && r.tokens[|st.tokens|].lexeme == src[st.current..r.current]
    && r.tokens[|st.tokens|].kind != Eof
    && r.tokens[|st.tokens|].line == r.line
  }

  /** What one step from `st` may do: move the cursor forward and the line down; over
      whitespace or a comment, nothing else; on any other byte, either record an
      error and append nothing, or append exactly one token. */
  ghost predicate StepShape(src: seq<byte>, st: ScanState, r: ScanState)
    requires st.current < |src|
  {
    && st.current < r.current <= |src|
    && st.line <= r.line
    && if SkipsAt(src, st.current) then
         r.tokens == st.tokens && r.spans == st.spans && r.err.None? && r.current == SkipEnd(src, st.current)
       else
         (r.err.Some? && r.tokens == st.tokens && r.spans == st.spans) || Emitted(src, st, r)
  }

  // StepHasShape is proved one byte class at a time, in the lemmas below, so that
  // each proof obligation stays small.

  lemma PunctShape(src: seq<byte>, st: ScanState)
    requires st.current < |src| && st.err.None? && Classify(src[st.current]).Punct?
    ensures StepShape(src, st, Step(src, st))
  {
    assert Classify(src[st.current]).kind != Eof;
  }

  lemma OperatorShape(src: seq<byte>, st: ScanState)
    requires st.current < |src| && st.err.None? && Classify(src[st.current]).Operator?
    ensures StepShape(src, st, Step(src, st))
  {
  }

  lemma SlashShape(src: seq<byte>, st: ScanState)
    requires st.current < |src| && st.err.None? && src[st.current] == SLASH
    ensures StepShape(src, st, Step(src, st))
  {
  }

  lemma BlankShape(src: seq<byte>, st: ScanState)
    requires st.current < |src| && st.err.None? && IsSpace(src[st.current])
    ensures StepShape(src, st, Step(src, st))
  {
  }

  lemma QuoteShape(src: seq<byte>, st: ScanState)
    requires st.current < |src| && st.err.None? && src[st.current] == QUOTE
    ensures StepShape(src, st, Step(src, st))
  {
    QuoteStepIsLexString(src, st);
    StringStepUnfolded(src, st);
  }

  lemma DigitShape(src: seq<byte>, st: ScanState)
    requires st.current < |src| && st.err.None? && IsDigit(src[st.current])
    ensures StepShape(src, st, Step(src, st))
  {
    DigitStepIsLexNumber(src, st);
  }

  lemma DigitStepIsLexNumber(src: seq<byte>, st: ScanState)
    requires st.current < |src| && st.err.None? && IsDigit(src[st.current])
    ensures Step(src, st) == LexNumber(src, st.current, Advanced(st))
  {
    assert Classify(src[st.current]) == Digit;
  }

  lemma AlphaShape(src: seq<byte>, st: ScanState)
    requires st.current < |src| && st.err.None? && IsAlpha(src[st.current])
    ensures StepShape(src, st, Step(src, st))
  {
  }

  lemma UnexpectedShape(src: seq<byte>, st: ScanState)
    requires st.current < |src| && st.err.None? && Classify(src[st.current]).Unexpected?
    ensures StepShape(src, st, Step(src, st))
  {
  }

  /** Every step has that shape. */
  lemma StepHasShape(src: seq<byte>, st: ScanState)
    requires st.current < |src| && st.err.None?
    ensures StepShape(src, st, Step(src, st))
  {
    var c := src[st.current];
    match Classify(c)
    case Punct(_) => PunctShape(src, st);
    case Operator(_, _) => OperatorShape(src, st);
    case SlashOrComment => SlashShape(src, st);
    case Blank => BlankShape(src, st);
    case Newline => BlankShape(src, st);
    case Quote => QuoteShape(src, st);
    case Digit => DigitShape(src, st);
    case Alpha => AlphaShape(src, st);
    case Unexpected => UnexpectedShape(src, st);
  }

  /** A step is silent (no token, no error) exactly on whitespace and comments, and
      then it moves the cursor to the end of the skipped run. */
  lemma StepSilentIff(src: seq<byte>, st: ScanState)
    requires st.current < |src| && st.err.None?
    ensures var r := Step(src, st);
      && ((r.tokens == st.tokens && r.err.None?) <==> SkipsAt(src, st.current))
      && (SkipsAt(src, st.current) ==> r.current == SkipEnd(src, st.current))
  {
    StepHasShape(src, st);
  }

  /** Tokens and a recorded error survive the rest of the scan. */
  lemma {:induction false} RunExtends(src: seq<byte>, st: ScanState)
    ensures var r := Run(src, st);
      && |st.tokens| <= |r.tokens| && r.tokens[..|st.tokens|] == st.tokens
      && (st.err.Some? ==> r == st)
    decreases |src| - st.current
  {
    if st.err.None? && st.current < |src| {
      var s := Step(src, st);
      StepHasShape(src, st);
      RunExtends(src, s);
      assert s.tokens[..|st.tokens|] == st.tokens;
    }
  }

  /** Once an error is recorded the loop stops: the final state is the error state. */
  lemma ErrorEndsScan(src: seq<byte>, st: ScanState)
    requires st.err.Some?
    ensures Finish(Run(src, st)) == st
  {
  }

  /** The scan from `st` produces no token and no error exactly when the rest of the
      input is whitespace and comments. */
  lemma {:induction false} RunSilentIff(src: seq<byte>, st: ScanState)
    requires st.err.None? && st.current <= |src|
    ensures (Run(src, st).tokens == st.tokens && Run(src, st).err.None?) <==> BlankFrom(src, st.current)
    decreases |src| - st.current
  {
    if st.current < |src| {
      var s := Step(src, st);
      StepHasShape(src, st);
      if s.tokens == st.tokens && s.err.None? {
        RunSilentIff(src, s);
      } else {
        RunExtends(src, s);
        if s.err.None? {
          assert |Run(src, s).tokens| >= |s.tokens| > |st.tokens|;
        }
      }
    }
  }

  /** Input made only of whitespace and comments scans to exactly one token, the
      Eof, and any other input does not. */
  lemma BlankInputScansToEofOnly(src: seq<byte>)
    ensures BlankFrom(src, 0) <==> Lex(src) == Ok([EofToken(Run(src, Initial))])
  {
    RunSilentIff(src, Initial);
    var r := Run(src, Initial);
    if BlankFrom(src, 0) {
      assert r.tokens == [] && r.err.None?;
      assert Final(src).tokens == [EofToken(r)];
    }
    if Lex(src) == Ok([EofToken(r)]) {
      assert r.tokens + [EofToken(r)] == [EofToken(r)];
      assert r.tokens == [];
    }
  }

  /** The scanner's invariant over a state reached from `Initial`: tokens and spans
      pair up; each lexeme is the nonempty slice it was cut from, behind the cursor;
      slices follow one another without overlap; line numbers never decrease. */
  ghost predicate WellFormed(src: seq<byte>, st: ScanState) {
    && st.current <= |src|
    && |st.tokens| == |st.spans|
    && (forall i :: 0 <= i < |st.tokens| ==>
          && st.spans[i].start < st.spans[i].end <= st.current
          && st.tokens[i].lexeme == src[st.spans[i].start..st.spans[i].end]
          && st.tokens[i].kind != Eof
          && st.tokens[i].line <= st.line)
    && (forall i, j :: 0 <= i < j < |st.tokens| ==>
          st.spans[i].end <= st.spans[j].start && st.tokens[i].line <= st.tokens[j].line)
  }

  /** A state change of the shape of a step keeps the invariant. */
  lemma ShapePreservesWellFormed(src: seq<byte>, st: ScanState, r: ScanState)
    requires st.current < |src| && WellFormed(src, st) && StepShape(src, st, r)
    ensures WellFormed(src, r)
  {
    if r.tokens != st.tokens {
      var n := |st.tokens|;
      assert Emitted(src, st, r);
      forall i | 0 <= i < n
        ensures r.tokens[i] == st.tokens[i] && r.spans[i] == st.spans[i]
      {
        assert (st.tokens + [r.tokens[n]])[i] == st.tokens[i];
      }
    }
  }

  lemma {:induction false} RunPreservesWellFormed(src: seq<byte>, st: ScanState)
    requires WellFormed(src, st)
    ensures WellFormed(src, Run(src, st))
    decreases |src| - st.current
  {
    if st.err.None? && st.current < |src| {
      StepHasShape(src, st);
      ShapePreservesWellFormed(src, st, Step(src, st));
      RunPreservesWellFormed(src, Step(src, st));
    }
  }

  /** Every token of a scan, the Eof included, is the slice of the source its span
      names; slices come in source order without overlap, each token starting
      strictly after the one before; only the Eof has an empty lexeme; line numbers
      never decrease along the list. */
  lemma ScanTokensAreOrderedSlices(src: seq<byte>)
    ensures var f := Final(src);
      && |f.tokens| == |f.spans|
      && (forall i :: 0 <= i < |f.tokens| ==>
            && f.spans[i].start <= f.spans[i].end <= |src|
            && f.tokens[i].lexeme == src[f.spans[i].start..f.spans[i].end]
            && (f.tokens[i].kind != Eof ==> f.spans[i].start < f.spans[i].end))
      && (forall i, j :: 0 <= i < j < |f.tokens| ==>
            && f.spans[i].end <= f.spans[j].start
            && f.spans[i].start < f.spans[j].start
            && f.tokens[i].line <= f.tokens[j].line)
  {
    RunPreservesWellFormed(src, Initial);
  }

  /** The Eof token is pushed exactly when the scan ends without an error; it is then
      the last token and the only Eof, with an empty lexeme, no literal, and the
      line and column the scanner stopped at. */
  lemma EofExactlyWhenNoError(src: seq<byte>)
    ensures var f := Final(src);
      && (f.err.None? <==> exists i :: 0 <= i < |f.tokens| && f.tokens[i].kind == Eof)
      && (f.err.None? ==>
            && |f.tokens| > 0
            && f.tokens[|f.tokens| - 1] == Token(Eof, [], None, f.line, f.col)
            && forall i :: 0 <= i < |f.tokens| - 1 ==> f.tokens[i].kind != Eof)
  {
    RunPreservesWellFormed(src, Initial);
    var f := Final(src);
    if f.err.None? {
      assert f.tokens[|f.tokens| - 1].kind == Eof;
    }
  }

  /** `Lex` fails exactly when the scan records an error, and then reports that error. */
  lemma LexReportsTheError(src: seq<byte>)
    ensures Lex(src).Err? <==> Run(src, Initial).err.Some?
    ensures Lex(src).Err? ==> Lex(src).error == Run(src, Initial).err.value
    ensures Lex(src).Ok? ==> Lex(src).value == Run(src, Initial).tokens + [EofToken(Run(src, Initial))]
  {
  }

  /** `!`, `=`, `<` and `>` form a two-byte token exactly when `=` follows; the `=`
      is consumed only then. */
  lemma OperatorStep(src: seq<byte>, st: ScanState)
    requires st.current < |src| && st.err.None?
    requires Classify(src[st.current]).Operator?
    ensures var r := Step(src, st);
      var c := Classify(src[st.current]);
      var double := st.current + 1 < |src| && src[st.current + 1] == EQUAL;
      && r.err.None?
      && r.current == st.current + (if double then 2 else 1)
      && r.tokens == st.tokens + [Token(if double then c.double else c.single,
                                        if double then [src[st.current], EQUAL] else [src[st.current]],
                                        None, st.line, r.col)]
  {
    var r := Step(src, st);
    var s := Advanced(st);
    assert r == Dispatch(src, st.current, src[st.current], s);
    if st.current + 1 < |src| && src[st.current + 1] == EQUAL {
      assert src[st.current..st.current + 2] == [src[st.current], EQUAL];
      assert r == Emit(src, st.current, Advanced(s), Classify(src[st.current]).double, None);
    } else {
      assert |src[st.current..st.current + 1]| == 1 && src[st.current..st.current + 1][0] == src[st.current];
      assert src[st.current..st.current + 1] == [src[st.current]];
      assert r == Emit(src, st.current, s, Classify(src[st.current]).single, None);
    }
  }

  /** A `//` comment is skipped up to, but not including, the next newline (or the
      end), and yields nothing. */
  lemma CommentStep(src: seq<byte>, st: ScanState)
    requires st.current + 1 < |src| && st.err.None?
    requires src[st.current] == SLASH && src[st.current + 1] == SLASH
    ensures var r := Step(src, st);
      && r.tokens == st.tokens && r.err.None? && r.line == st.line
      && (r.current == |src| || src[r.current] == NEWLINE)
      && forall j :: st.current + 2 <= j < r.current ==> src[j] != NEWLINE
  {
    ScanWhileMaximal(src, st.current + 2, NotNewline);
  }

  /** A newline yields nothing, moves to the next line and resets the column to 0, so
      the first byte of the next line is column 1. */
  lemma NewlineStep(src: seq<byte>, st: ScanState)
    requires st.current < |src| && st.err.None? && src[st.current] == NEWLINE
    ensures Step(src, st) == st.(current := st.current + 1, line := st.line + 1, col := 0)
  {
  }

  /** A number is the maximal run of digits at the cursor, its literal the value of
      those digits; the byte after the run, a `.` included, is left for the next step. */
  lemma NumberStep(src: seq<byte>, st: ScanState)
    requires st.current < |src| && st.err.None? && IsDigit(src[st.current])
    ensures var r := Step(src, st);
      && r.err.None? && |r.tokens| == |st.tokens| + 1
      && var t := r.tokens[|st.tokens|];
      && t.kind == Number && t.lexeme == src[st.current..r.current]
      && (forall j :: st.current <= j < r.current ==> IsDigit(src[j]))
      && (r.current == |src| || !IsDigit(src[r.current]))
      && t.literal == Some(Num(DecimalValue(t.lexeme)))
  {
    ScanWhileMaximal(src, st.current + 1, IsDigit);
  }

  /** No keyword maps to the identifier kind. */
  lemma KeywordsAreNotIdentifiers(text: seq<byte>)
    ensures KeywordOrIdentifier(text) == Identifier <==> text !in Keywords
  {
  }

  /** An identifier is the maximal alphanumeric run at the cursor. A run equal to a
      keyword becomes that keyword's token with no literal; any other run (a keyword
      with more letters after it included) is an identifier carrying its own text. */
  lemma IdentifierStep(src: seq<byte>, st: ScanState)
    requires st.current < |src| && st.err.None? && IsAlpha(src[st.current])
    ensures var r := Step(src, st);
      && r.err.None? && |r.tokens| == |st.tokens| + 1
      && var t := r.tokens[|st.tokens|];
      && t.lexeme == src[st.current..r.current]
      && (forall j :: st.current <= j < r.current ==> IsAlphanumeric(src[j]))
      && (r.current == |src| || !IsAlphanumeric(src[r.current]))
      && (t.lexeme in Keywords ==> t.kind == Keywords[t.lexeme] && t.literal == None)
      && (t.lexeme !in Keywords ==> t.kind == Identifier && t.literal == Some(Ident(t.lexeme)))
  {
    ScanWhileMaximal(src, st.current + 1, IsAlphanumeric);
    KeywordsAreNotIdentifiers(src[st.current..Step(src, st).current]);
  }

  /** At a quote the step is the string rule. */
  lemma QuoteStepIsLexString(src: seq<byte>, st: ScanState)
    requires st.current < |src| && st.err.None? && src[st.current] == QUOTE
    ensures Step(src, st) == LexString(src, st.current, Advanced(st))
  {
    assert Classify(QUOTE) == Quote;
  }

  /** The string loop stops at the first quote after the opening one, or at the end. */
  lemma StringStepUnfolded(src: seq<byte>, st: ScanState)
    requires st.current < |src| && st.err.None? && src[st.current] == QUOTE
    ensures var e := ScanWhile(src, st.current + 1, NotQuote);
      && (forall j :: st.current < j < e ==> src[j] != QUOTE)
      && (e < |src| ==> src[e] == QUOTE)
  {
    var e := ScanWhile(src, st.current + 1, NotQuote);
    ScanWhileMaximal(src, st.current + 1, NotQuote);
    forall j | st.current < j < e
      ensures src[j] != QUOTE
    {
      assert NotQuote(src[j]);
    }
  }

  /** A string runs from the opening quote to the next quote. Its literal is the bytes
      strictly between them, newlines included and no escape processed; the token
      carries the line of the closing quote. */
  lemma StringStep(src: seq<byte>, st: ScanState, close: nat)
    requires st.current < close < |src| && st.err.None?
    requires src[st.current] == QUOTE && src[close] == QUOTE
    requires forall j :: st.current < j < close ==> src[j] != QUOTE
    ensures var r := Step(src, st);
      && r.err.None? && r.current == close + 1
      && |r.tokens| == |st.tokens| + 1
      && var t := r.tokens[|st.tokens|];
      && r.tokens == st.tokens + [t]
      && t.kind == String
      && t.lexeme == src[st.current..close + 1]
      && t.literal == Some(Str(src[st.current + 1..close]))
      && t.line == r.line == st.line + CountNewlines(src, st.current + 1, close)
  {
    QuoteStepIsLexString(src, st);
    StringStepUnfolded(src, st);
    assert ScanWhile(src, st.current + 1, NotQuote) == close;
  }

  /** Without a closing quote the step records "Unterminated string." at the end of
      the input, with the line advanced past every newline in between, and yields no
      token. */
  lemma UnterminatedStringStep(src: seq<byte>, st: ScanState)
    requires st.current < |src| && st.err.None? && src[st.current] == QUOTE
    requires forall j :: st.current < j < |src| ==> src[j] != QUOTE
    ensures var r := Step(src, st);
      && r.current == |src| && r.tokens == st.tokens
      && r.line == st.line + CountNewlines(src, st.current + 1, |src|)
      && r.col == st.col + (|src| - st.current)
      && r.err == Some(ScannerError(UNTERMINATED, r.line, r.col))
  {
    StringStepUnfolded(src, st);
    assert ScanWhile(src, st.current + 1, NotQuote) == |src|;
    UnterminatedStringUnfolded(src, st);
  }

  // UnterminatedStringUnfolded, LexStringUnterminated and LexStringAtEnd state the
  // same result in stages (Step, then LexString, then LexString's own terms), which
  // splits the proof of UnterminatedStringStep into small obligations.

  lemma UnterminatedStringUnfolded(src: seq<byte>, st: ScanState)
    requires st.current < |src| && st.err.None? && src[st.current] == QUOTE
    requires ScanWhile(src, st.current + 1, NotQuote) == |src|
    ensures var r := Step(src, st);
      && r.current == |src| && r.tokens == st.tokens
      && r.line == st.line + CountNewlines(src, st.current + 1, |src|)
      && r.col == st.col + (|src| - st.current)
      && r.err == Some(ScannerError(UNTERMINATED, r.line, r.col))
  {
    QuoteStepIsLexString(src, st);
    LexStringUnterminated(src, st);
  }

  lemma LexStringUnterminated(src: seq<byte>, st: ScanState)
    requires st.current < |src| && st.err.None?
    requires ScanWhile(src, st.current + 1, NotQuote) == |src|
    ensures var r := LexString(src, st.current, Advanced(st));
      && r.current == |src| && r.tokens == st.tokens
      && r.line == st.line + CountNewlines(src, st.current + 1, |src|)
      && r.col == st.col + (|src| - st.current)
      && r.err == Some(ScannerError(UNTERMINATED, r.line, r.col))
  {
    LexStringAtEnd(src, st.current, Advanced(st));
  }

  lemma LexStringAtEnd(src: seq<byte>, start: nat, s: ScanState)
    requires start + 1 == s.current <= |src| && s.err.None?
    requires ScanWhile(src, s.current, NotQuote) == |src|
    ensures var t := s.(current := |src|, line := s.line + CountNewlines(src, s.current, |src|), col := s.col + (|src| - s.current));
      LexString(src, start, s) == t.(err := Some(ScannerError(UNTERMINATED, t.line, t.col)))
  {
  }

  /** A byte no rule accepts records "Unexpected character at <c>" at its own line
      and column, and the scan ends there without an Eof. */
  lemma UnexpectedByteStops(src: seq<byte>, st: ScanState)
    requires st.current < |src| && st.err.None? && Classify(src[st.current]) == Unexpected
    ensures Finish(Run(src, st)) ==
      st.(current := st.current + 1, col := st.col + 1,
          err := Some(ScannerError(UnexpectedMessage(src[st.current]), st.line, st.col + 1)))
  {
  }
}
