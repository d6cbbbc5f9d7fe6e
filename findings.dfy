/** Four places where scanner.go does not do what its own comments and names
    say: peekAt ignores its index, scanString bumps the line on a quote rather
    than on a newline, and the loops of scanString and scanNumber read the byte
    they test only once. Each is shown on a concrete input next to the
    corrected behaviour the rest of the model uses. */
module Findings {
  import opened Wrappers
  import opened Chars
  import opened Tokens
  import opened ScanSpec
  import opened ScanCases
  import opened Lexer

  /** peekAt as written reads the byte under the cursor whatever its index, so
      peekNext answers the same byte as peek. */
  lemma PeekNextAsWrittenIsPeek(sc: Scanner)
    ensures sc.PeekAtAsWritten(1) == sc.Peek()
  {
  }

  /** On "1.5" with the cursor after the '1', peekAt(1) as written answers '.',
      while the byte one place ahead, which the corrected PeekAt answers, is '5'. */
  lemma PeekAtIgnoresIndexOnDecimal(sc: Scanner)
    requires sc.source == Decimal && sc.current == 1
    ensures sc.PeekAtAsWritten(1) == '.'
    ensures sc.PeekAt(1) == '5' && sc.PeekNext() == '5'
  {
  }

  /** Consequently the fraction test of scanNumber, a '.' under the cursor and a
      digit after it, can never hold as written: no fraction is ever consumed. */
  lemma FractionTestNeverHoldsAsWritten(sc: Scanner)
    ensures !(sc.PeekAtAsWritten(0) == '.' && IsDigit(sc.PeekAtAsWritten(1)))
  {
  }

  /** scanString as written keeps the line of a string that spans a newline,
      where the corrected StringStep advances it. */
  lemma StringLineAsWrittenMissesNewline(line: nat)
    ensures StringStepAsWritten(TwoLines, 0, line).line == line
    ensures StringStep(TwoLines, 0, line).line == line + 1
  {
    assert ClosingQuote(TwoLines, 1) == Some(4);
    assert Newlines(TwoLines, 1, 4) == 1;
  }

  // ---------------------------------------------------------------------------
  // Loops that read their condition once

  /** scanString as written: the byte `next` is read once, before the loop, so
      the loop either never runs (the string is empty) or runs to the end of
      the buffer and reports an unterminated string. */
  function StringStepWithoutRepeek(src: seq<byte>, pos: nat, line: nat): (s: Step)
    requires pos < |src|
    ensures s.line == line
  {
    var p := pos + 1;
    if p < |src| && src[p] == '"' then
      Step(p + 1, line, [NewToken(String, src[pos..p + 1], StringValue([]), line)], [])
    else
      Step(|src|, line, [], [NewScanError(line, UnterminatedString)])
  }

  /** As written, every string with a non-empty body is reported unterminated
      and yields no token, closing quote or not. */
  lemma NonEmptyStringIsUnterminatedAsWritten(src: seq<byte>, pos: nat, line: nat)
    requires pos + 1 < |src| && src[pos + 1] != '"'
    ensures StringStepWithoutRepeek(src, pos, line) == Step(|src|, line, [], [NewScanError(line, UnterminatedString)])
  {
  }

  /** On the quoted input "hi" the as-written loop reports an unterminated
      string, where the corrected StringStep yields the String token "hi". */
  lemma QuotedStringAsWritten(line: nat)
    ensures StringStepWithoutRepeek(Quoted, 0, line) == Step(4, line, [], [NewScanError(line, UnterminatedString)])
    ensures StringStep(Quoted, 0, line) == Step(4, line, [NewToken(String, Quoted, StringValue(Hi), line)], [])
  {
    assert ClosingQuote(Quoted, 1) == Some(3);
    assert Newlines(Quoted, 1, 3) == 0;
    assert Quoted[0..4] == Quoted && Quoted[1..3] == Hi;
  }

  /** Where scanNumber as written stops after the first digit, or None when it
      never returns: its digit loop tests a byte read once before the loop, so
      after a second digit it keeps advancing. With the updates kept, advance
      then indexes past the end of the buffer and panics; with Go's value
      receivers the cursor never moves and the loop spins forever. Its
      fraction test never holds (FractionTestNeverHoldsAsWritten). */
  function NumberEndAsWritten(src: seq<byte>, p: nat): (r: Option<nat>)
    requires p <= |src|
    ensures r.Some? ==> r.value == p
  {
    if p < |src| && IsDigit(src[p]) then None else Some(p)
  }

  /** The as-written scan of a number agrees with NumberEnd exactly when the
      number is a single digit. */
  lemma NumberEndAsWrittenOnlyForOneDigit(src: seq<byte>, p: nat)
    requires p <= |src|
    ensures NumberEndAsWritten(src, p) == Some(NumberEnd(src, p)) <==> NumberEnd(src, p) == p
  {
  }

  const TwoDigits: seq<byte> := "12"

  /** "12" never returns from scanNumber as written; NumberEnd takes both digits. On
      "1.5" the as-written scan stops at the '.', where NumberEnd takes the
      fraction. */
  lemma NumbersAsWritten()
    ensures NumberEndAsWritten(TwoDigits, 1) == None && NumberEnd(TwoDigits, 1) == 2
    ensures NumberEndAsWritten(Decimal, 1) == Some(1) && NumberEnd(Decimal, 1) == 3
  {
    assert DigitsEnd(TwoDigits, 1) == 2;
    assert DigitsEnd(Decimal, 1) == 1;
    assert DigitsEnd(Decimal, 2) == 3;
  }
}
