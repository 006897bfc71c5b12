/** Scans of small inputs, worked out to their exact token lists. Bytes are written
    as numbers with the text they spell in a comment. Each input has a lemma per
    costly scanning step and one for the result. */
module ScanExamples {
  import opened Tokens
  import opened Lexing
  import ScanProperties

  /** The result of `Lex` once the loop is known to end in `last` without an error. */
  lemma LexOfRun(src: seq<byte>, last: ScanState, expected: seq<Token>)
    requires Run(src, Initial) == last && last.err.None?
    requires last.tokens + [EofToken(last)] == expected
    ensures Lex(src) == Ok(expected)
  {
  }

  // "1+2"

  const ONE_PLUS_TWO: seq<byte> := [49, 43, 50]  // "1+2"

  lemma OnePlusTwoStep1()
    ensures Step(ONE_PLUS_TWO, Initial) == ScanState(1, 1, 0, [Token(Number, [49], Some(Num(1)), 1, 0)], [Span(0, 1)], None)
  {
    assert ScanWhile(ONE_PLUS_TWO, 1, IsDigit) == 1;
    assert ONE_PLUS_TWO[0..1] == [49];
    assert DecimalValue([49]) == 1;
  }

  lemma OnePlusTwoStep2(s1: ScanState)
    requires s1 == ScanState(1, 1, 0, [Token(Number, [49], Some(Num(1)), 1, 0)], [Span(0, 1)], None)
    ensures Step(ONE_PLUS_TWO, s1) == s1.(current := 2, col := 1, tokens := s1.tokens + [Token(Plus, [43], None, 1, 1)], spans := s1.spans + [Span(1, 2)])
  {
    assert ONE_PLUS_TWO[1..2] == [43];
  }

  lemma OnePlusTwoStep3(s2: ScanState)
    requires s2.current == 2 && s2.line == 1 && s2.col == 1 && s2.err.None?
    ensures Step(ONE_PLUS_TWO, s2) == s2.(current := 3, col := 2, tokens := s2.tokens + [Token(Number, [50], Some(Num(2)), 1, 2)], spans := s2.spans + [Span(2, 3)])
  {
    assert ScanWhile(ONE_PLUS_TWO, 3, IsDigit) == 3;
    assert ONE_PLUS_TWO[2..3] == [50];
    assert DecimalValue([50]) == 2;
  }

  /** "1+2": columns count from 0, and Eof sits at the last column read. */
  lemma OnePlusTwo()
    ensures Lex(ONE_PLUS_TWO) == Ok([
      Token(Number, [49], Some(Num(1)), 1, 0),
      Token(Plus, [43], None, 1, 1),
      Token(Number, [50], Some(Num(2)), 1, 2),
      Token(Eof, [], None, 1, 2)])
  {
    OnePlusTwoStep1();
    var s1 := Step(ONE_PLUS_TWO, Initial);
    OnePlusTwoStep2(s1);
    var s2 := Step(ONE_PLUS_TWO, s1);
    OnePlusTwoStep3(s2);
    var s3 := Step(ONE_PLUS_TWO, s2);
    assert Run(ONE_PLUS_TWO, Initial) == s3;
    LexOfRun(ONE_PLUS_TWO, s3, [
      Token(Number, [49], Some(Num(1)), 1, 0),
      Token(Plus, [43], None, 1, 1),
      Token(Number, [50], Some(Num(2)), 1, 2),
      Token(Eof, [], None, 1, 2)]);
  }

  // "1.5"

  const ONE_DOT_FIVE: seq<byte> := [49, 46, 53]  // "1.5"

  lemma OneDotFiveStep1()
    ensures Step(ONE_DOT_FIVE, Initial) == ScanState(1, 1, 0, [Token(Number, [49], Some(Num(1)), 1, 0)], [Span(0, 1)], None)
  {
    assert ScanWhile(ONE_DOT_FIVE, 1, IsDigit) == 1;
    assert ONE_DOT_FIVE[0..1] == [49];
    assert DecimalValue([49]) == 1;
  }

  lemma OneDotFiveStep2(s1: ScanState)
    requires s1 == ScanState(1, 1, 0, [Token(Number, [49], Some(Num(1)), 1, 0)], [Span(0, 1)], None)
    ensures Step(ONE_DOT_FIVE, s1) == s1.(current := 2, col := 1, tokens := s1.tokens + [Token(Dot, [46], None, 1, 1)], spans := s1.spans + [Span(1, 2)])
  {
    assert ONE_DOT_FIVE[1..2] == [46];
  }

  lemma OneDotFiveStep3(s2: ScanState)
    requires s2.current == 2 && s2.line == 1 && s2.col == 1 && s2.err.None?
    ensures Step(ONE_DOT_FIVE, s2) == s2.(current := 3, col := 2, tokens := s2.tokens + [Token(Number, [53], Some(Num(5)), 1, 2)], spans := s2.spans + [Span(2, 3)])
  {
    assert ScanWhile(ONE_DOT_FIVE, 3, IsDigit) == 3;
    assert ONE_DOT_FIVE[2..3] == [53];
    assert DecimalValue([53]) == 5;
  }

  /** "1.5": the fraction is never taken into the number, so the dot is a token of
      its own between two numbers. */
  lemma FractionIsNotConsumed()
    ensures Lex(ONE_DOT_FIVE) == Ok([
      Token(Number, [49], Some(Num(1)), 1, 0),
      Token(Dot, [46], None, 1, 1),
      Token(Number, [53], Some(Num(5)), 1, 2),
      Token(Eof, [], None, 1, 2)])
  {
    OneDotFiveStep1();
    var s1 := Step(ONE_DOT_FIVE, Initial);
    OneDotFiveStep2(s1);
    var s2 := Step(ONE_DOT_FIVE, s1);
    OneDotFiveStep3(s2);
    var s3 := Step(ONE_DOT_FIVE, s2);
    assert Run(ONE_DOT_FIVE, Initial) == s3;
    LexOfRun(ONE_DOT_FIVE, s3, [
      Token(Number, [49], Some(Num(1)), 1, 0),
      Token(Dot, [46], None, 1, 1),
      Token(Number, [53], Some(Num(5)), 1, 2),
      Token(Eof, [], None, 1, 2)]);
  }

  // "fun" and "funct"

  const FUN: seq<byte> := [102, 117, 110]  // "fun"
  const FUNCT: seq<byte> := [102, 117, 110, 99, 116]  // "funct"

  lemma FunStep()
    ensures Step(FUN, Initial) == ScanState(3, 1, 2, [Token(Fun, FUN, None, 1, 2)], [Span(0, 3)], None)
  {
    assert ScanWhile(FUN, 1, IsAlphanumeric) == 3;
    assert FUN[0..3] == FUN;
    assert KeywordOrIdentifier(FUN) == Fun;
  }

  /** "fun" is the keyword, with no literal. */
  lemma KeywordExact()
    ensures Lex(FUN) == Ok([Token(Fun, FUN, None, 1, 2), Token(Eof, [], None, 1, 2)])
  {
    FunStep();
    assert Run(FUN, Initial) == Step(FUN, Initial);
    LexOfRun(FUN, Step(FUN, Initial), [Token(Fun, FUN, None, 1, 2), Token(Eof, [], None, 1, 2)]);
  }

  lemma FunctStep()
    ensures Step(FUNCT, Initial) == ScanState(5, 1, 4, [Token(Identifier, FUNCT, Some(Ident(FUNCT)), 1, 4)], [Span(0, 5)], None)
  {
    assert ScanWhile(FUNCT, 1, IsAlphanumeric) == 5;
    assert FUNCT[0..5] == FUNCT;
    assert FUNCT !in Keywords;
  }

  /** "funct" only starts with a keyword: it is an identifier carrying its own text. */
  lemma KeywordPrefixIsIdentifier()
    ensures Lex(FUNCT) == Ok([Token(Identifier, FUNCT, Some(Ident(FUNCT)), 1, 4), Token(Eof, [], None, 1, 4)])
  {
    FunctStep();
    assert Run(FUNCT, Initial) == Step(FUNCT, Initial);
    LexOfRun(FUNCT, Step(FUNCT, Initial), [Token(Identifier, FUNCT, Some(Ident(FUNCT)), 1, 4), Token(Eof, [], None, 1, 4)]);
  }

  // "!=" and "!"

  const BANG_EQUAL: seq<byte> := [33, 61]  // "!="
  const BANG: seq<byte> := [33]  // "!"

  /** "!=" is one two-byte token. */
  lemma TwoByteOperator()
    ensures Lex(BANG_EQUAL) == Ok([Token(BangEqual, BANG_EQUAL, None, 1, 1), Token(Eof, [], None, 1, 1)])
  {
    assert BANG_EQUAL[0..2] == BANG_EQUAL;
    var s1 := ScanState(2, 1, 1, [Token(BangEqual, BANG_EQUAL, None, 1, 1)], [Span(0, 2)], None);
    assert Step(BANG_EQUAL, Initial) == s1;
    assert Run(BANG_EQUAL, Initial) == s1;
    LexOfRun(BANG_EQUAL, s1, [Token(BangEqual, BANG_EQUAL, None, 1, 1), Token(Eof, [], None, 1, 1)]);
  }

  /** "!" alone is the one-byte token. */
  lemma OneByteOperator()
    ensures Lex(BANG) == Ok([Token(Bang, BANG, None, 1, 0), Token(Eof, [], None, 1, 0)])
  {
    assert BANG[0..1] == BANG;
    var s1 := ScanState(1, 1, 0, [Token(Bang, BANG, None, 1, 0)], [Span(0, 1)], None);
    assert Step(BANG, Initial) == s1;
    assert Run(BANG, Initial) == s1;
    LexOfRun(BANG, s1, [Token(Bang, BANG, None, 1, 0), Token(Eof, [], None, 1, 0)]);
  }

  // "@"

  /** "@" matches no rule: the scan fails at line 1, column 0. */
  lemma UnexpectedCharacter()
    ensures Lex([64]) == Err(ScannerError("Unexpected character at @", 1, 0))  // "@"
  {
    var src: seq<byte> := [64];
    assert Classify(64) == Unexpected;
    assert UnexpectedMessage(64) == "Unexpected character at @";
    assert Run(src, Initial) == Step(src, Initial);
  }

  // "\"ab"

  const OPEN_STRING: seq<byte> := [34, 97, 98]  // "\"ab"

  /** "\"ab" never closes: the error is reported at the end of the input. */
  lemma UnterminatedString()
    ensures Lex(OPEN_STRING) == Err(ScannerError("Unterminated string.", 1, 2))
  {
    ScanProperties.UnterminatedStringStep(OPEN_STRING, Initial);
    assert CountNewlines(OPEN_STRING, 1, 3) == 0;
    var s1 := Step(OPEN_STRING, Initial);
    assert Run(OPEN_STRING, Initial) == s1;
  }

  // "\"a\nb\""

  const TWO_LINE_STRING: seq<byte> := [34, 97, 10, 98, 34]  // "\"a\nb\""

  lemma TwoLineStringStep()
    ensures Step(TWO_LINE_STRING, Initial) ==
      ScanState(5, 2, 4, [Token(String, TWO_LINE_STRING, Some(Str([97, 10, 98])), 2, 4)], [Span(0, 5)], None)
  {
    ScanProperties.StringStep(TWO_LINE_STRING, Initial, 4);
    assert CountNewlines(TWO_LINE_STRING, 1, 4) == 1;
    assert TWO_LINE_STRING[0..5] == TWO_LINE_STRING;
    assert TWO_LINE_STRING[1..4] == [97, 10, 98];
    ScanProperties.StepHasShape(TWO_LINE_STRING, Initial);
  }

  /** A newline inside a string stays in the literal and moves the line on, so the
      token carries the line of its closing quote. The column is not reset by it. */
  lemma MultiLineString()
    ensures Lex(TWO_LINE_STRING) == Ok([
      Token(String, TWO_LINE_STRING, Some(Str([97, 10, 98])), 2, 4),
      Token(Eof, [], None, 2, 4)])
  {
    TwoLineStringStep();
    assert Run(TWO_LINE_STRING, Initial) == Step(TWO_LINE_STRING, Initial);
    LexOfRun(TWO_LINE_STRING, Step(TWO_LINE_STRING, Initial), [
      Token(String, TWO_LINE_STRING, Some(Str([97, 10, 98])), 2, 4),
      Token(Eof, [], None, 2, 4)]);
  }

  // "\nx"

  const NEWLINE_X: seq<byte> := [10, 120]  // "\nx"

  lemma NewlineXStep2(s1: ScanState)
    requires s1 == ScanState(1, 2, 0, [], [], None)
    ensures Step(NEWLINE_X, s1) == ScanState(2, 2, 1, [Token(Identifier, [120], Some(Ident([120])), 2, 1)], [Span(1, 2)], None)
  {
    assert ScanWhile(NEWLINE_X, 2, IsAlphanumeric) == 2;
    assert NEWLINE_X[1..2] == [120];
    assert [120] !in Keywords;
  }

  /** A newline resets the column to 0, so the first byte of the next line is column 1. */
  lemma ColumnAfterNewline()
    ensures Lex(NEWLINE_X) == Ok([Token(Identifier, [120], Some(Ident([120])), 2, 1), Token(Eof, [], None, 2, 1)])
  {
    ScanProperties.NewlineStep(NEWLINE_X, Initial);
    var s1 := Step(NEWLINE_X, Initial);
    NewlineXStep2(s1);
    var s2 := Step(NEWLINE_X, s1);
    assert Run(NEWLINE_X, Initial) == s2;
    LexOfRun(NEWLINE_X, s2, [Token(Identifier, [120], Some(Ident([120])), 2, 1), Token(Eof, [], None, 2, 1)]);
  }

  // "// c\n"

  const COMMENT_LINE: seq<byte> := [47, 47, 32, 99, 10]  // "// c\n"

  /** A comment and its line break produce nothing but the Eof, on the next line. */
  lemma CommentOnly()
    ensures Lex(COMMENT_LINE) == Ok([Token(Eof, [], None, 2, 0)])
  {
    assert ScanWhile(COMMENT_LINE, 2, NotNewline) == 4;
    var s1 := ScanState(4, 1, 3, [], [], None);
    assert Step(COMMENT_LINE, Initial) == s1;
    ScanProperties.NewlineStep(COMMENT_LINE, s1);
    var s2 := Step(COMMENT_LINE, s1);
    assert Run(COMMENT_LINE, Initial) == s2;
    LexOfRun(COMMENT_LINE, s2, [Token(Eof, [], None, 2, 0)]);
  }
}
