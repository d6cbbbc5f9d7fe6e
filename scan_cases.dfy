/** Whole scans of small inputs, as the source computes them. */
module ScanCases {
  import opened Wrappers
  import opened Chars
  import opened Tokens
  import opened ScanSpec
  import opened ScanFacts

  /** The EOF token ScanTokens appends on line `line`. */
  function Eof(line: nat): (t: Token)
    ensures t.ttype == EOF && t.lexeme == [] && t.literal == NoLiteral && t.line == line
  {
    NewToken(EOF, [], NoLiteral, line)
  }

  /** A scan whose first step reaches the end of the buffer. */
  lemma RunOfOneStep(src: seq<byte>, parses: seq<byte> -> bool, pos: nat, line: nat, s: Step)
    requires pos < |src| && StepAt(src, parses, pos, line) == s && s.next == |src|
    ensures Run(src, parses, pos, line) == Output(s.emitted + [Eof(s.line)], s.reported)
  {
    RunStep(src, parses, pos, line);
    RunAtEnd(src, parses, s.line);
  }

  /** A quote hands the step to scanString. */
  lemma QuoteStep(src: seq<byte>, parses: seq<byte> -> bool, pos: nat, line: nat)
    requires pos < |src| && src[pos] == '"'
    ensures StepAt(src, parses, pos, line) == StringStep(src, pos, line)
  {
  }

  /** A digit hands the step to scanNumber. */
  lemma DigitStep(src: seq<byte>, parses: seq<byte> -> bool, pos: nat, line: nat)
    requires pos < |src| && IsDigit(src[pos])
    ensures StepAt(src, parses, pos, line) == NumberStep(src, parses, pos, line)
  {
  }

  /** An operator byte becomes one token, of one byte or of two when '='
      follows. */
  lemma OperatorStep(src: seq<byte>, parses: seq<byte> -> bool, pos: nat, line: nat)
    requires pos < |src| && IsOperatorStart(src[pos])
    ensures var m := pos + 1 < |src| && src[pos + 1] == '=';
      var q := if m then pos + 2 else pos + 1;
      StepAt(src, parses, pos, line) == Step(q, line, [NewToken(OperatorType(src[pos], m), src[pos..q], NoLiteral, line)], [])
  {
  }

  /** An empty buffer yields only the EOF token, on line 0. */
  lemma EmptySource(parses: seq<byte> -> bool)
    ensures Run([], parses, 0, 0) == Output([Eof(0)], [])
  {
  }

  const Comment: seq<byte> := "//c\n"

  /** A comment yields nothing; its newline moves the EOF token to line 1. */
  lemma CommentOnly(parses: seq<byte> -> bool)
    ensures Run(Comment, parses, 0, 0) == Output([Eof(1)], [])
  {
    assert CommentEnd(Comment, 2) == 3;
    assert StepAt(Comment, parses, 0, 0) == Step(3, 0, [], []);
    assert StepAt(Comment, parses, 3, 0) == Step(4, 1, [], []);
  }

  const Quoted: seq<byte> := "\"hi\""
  const Hi: seq<byte> := "hi"

  lemma QuotedStep(parses: seq<byte> -> bool, line: nat)
    ensures StepAt(Quoted, parses, 0, line) == Step(4, line, [NewToken(String, Quoted, StringValue(Hi), line)], [])
  {
    QuoteStep(Quoted, parses, 0, line);
    assert ClosingQuote(Quoted, 1) == Some(3);
    assert Newlines(Quoted, 1, 3) == 0;
    assert Quoted[0..4] == Quoted && Quoted[1..3] == Hi;
  }

  /** A string literal: the lexeme keeps the quotes, the literal drops them. */
  lemma StringLiteral(parses: seq<byte> -> bool, line: nat)
    ensures Run(Quoted, parses, 0, line) == Output([NewToken(String, Quoted, StringValue(Hi), line), Eof(line)], [])
  {
    QuotedStep(parses, line);
    RunOfOneStep(Quoted, parses, 0, line, StepAt(Quoted, parses, 0, line));
  }

  const TwoLines: seq<byte> := "\"a\nb\""
  const TwoLinesValue: seq<byte> := "a\nb"

  lemma TwoLinesStep(parses: seq<byte> -> bool, line: nat)
    ensures StepAt(TwoLines, parses, 0, line)
      == Step(5, line + 1, [NewToken(String, TwoLines, StringValue(TwoLinesValue), line + 1)], [])
  {
    QuoteStep(TwoLines, parses, 0, line);
    assert ClosingQuote(TwoLines, 1) == Some(4);
    assert Newlines(TwoLines, 1, 4) == 1;
    assert TwoLines[0..5] == TwoLines && TwoLines[1..4] == TwoLinesValue;
  }

  /** A string spanning a newline is recorded on the line where it ends, and
      so is the EOF token after it. */
  lemma MultiLineString(parses: seq<byte> -> bool, line: nat)
    ensures Run(TwoLines, parses, 0, line)
      == Output([NewToken(String, TwoLines, StringValue(TwoLinesValue), line + 1), Eof(line + 1)], [])
  {
    TwoLinesStep(parses, line);
    RunOfOneStep(TwoLines, parses, 0, line, StepAt(TwoLines, parses, 0, line));
  }

  const Unclosed: seq<byte> := "\"ab"

  lemma UnclosedStep(parses: seq<byte> -> bool, line: nat)
    ensures StepAt(Unclosed, parses, 0, line) == Step(3, line, [], [NewScanError(line, UnterminatedString)])
  {
    QuoteStep(Unclosed, parses, 0, line);
    assert ClosingQuote(Unclosed, 1) == None;
    assert Newlines(Unclosed, 1, 3) == 0;
  }

  /** A string without its closing quote swallows the rest of the buffer and
      records one error; no String token is produced. */
  lemma UnclosedString(parses: seq<byte> -> bool, line: nat)
    ensures Run(Unclosed, parses, 0, line) == Output([Eof(line)], [NewScanError(line, UnterminatedString)])
  {
    UnclosedStep(parses, line);
    RunOfOneStep(Unclosed, parses, 0, line, StepAt(Unclosed, parses, 0, line));
  }

  const UnclosedTwoLines: seq<byte> := "\"a\nb"

  lemma UnclosedTwoLinesStep(parses: seq<byte> -> bool, line: nat)
    ensures StepAt(UnclosedTwoLines, parses, 0, line)
      == Step(4, line + 1, [], [NewScanError(line, UnterminatedString)])
  {
    QuoteStep(UnclosedTwoLines, parses, 0, line);
    assert ClosingQuote(UnclosedTwoLines, 1) == None;
    assert Newlines(UnclosedTwoLines, 1, 4) == 1;
  }

  /** An unclosed string that spans a newline records its error on the line
      the string began on, while the newline still moves the EOF token on. */
  lemma UnclosedMultiLineString(parses: seq<byte> -> bool, line: nat)
    ensures Run(UnclosedTwoLines, parses, 0, line) == Output([Eof(line + 1)], [NewScanError(line, UnterminatedString)])
  {
    UnclosedTwoLinesStep(parses, line);
    RunOfOneStep(UnclosedTwoLines, parses, 0, line, StepAt(UnclosedTwoLines, parses, 0, line));
  }

  const OneEqual: seq<byte> := "="
  const TwoEquals: seq<byte> := "=="

  /** As written, a lone '=' scans as EqualEqual ... */
  lemma LoneEqualSign(parses: seq<byte> -> bool, line: nat)
    ensures Run(OneEqual, parses, 0, line) == Output([NewToken(EqualEqual, OneEqual, NoLiteral, line), Eof(line)], [])
  {
    OperatorStep(OneEqual, parses, 0, line);
    assert OneEqual[0..1] == OneEqual;
    RunOfOneStep(OneEqual, parses, 0, line, StepAt(OneEqual, parses, 0, line));
  }

  /** ... and "==" as Equal. */
  lemma DoubleEqualSign(parses: seq<byte> -> bool, line: nat)
    ensures Run(TwoEquals, parses, 0, line) == Output([NewToken(Equal, TwoEquals, NoLiteral, line), Eof(line)], [])
  {
    OperatorStep(TwoEquals, parses, 0, line);
    assert TwoEquals[0..2] == TwoEquals;
    RunOfOneStep(TwoEquals, parses, 0, line, StepAt(TwoEquals, parses, 0, line));
  }

  const Or: seq<byte> := "or"

  lemma OrSteps(parses: seq<byte> -> bool, line: nat)
    ensures StepAt(Or, parses, 0, line) == Step(1, line, [], [NewScanError(line, UnexpectedChar('o'))])
    ensures StepAt(Or, parses, 1, line) == Step(2, line, [], [NewScanError(line, UnexpectedChar('r'))])
  {
  }

  /** With no identifier branch, every letter is an unexpected byte: a reserved
      word yields one error per letter and no token. */
  lemma LettersAreErrors(parses: seq<byte> -> bool, line: nat)
    ensures Run(Or, parses, 0, line)
      == Output([Eof(line)], [NewScanError(line, UnexpectedChar('o')), NewScanError(line, UnexpectedChar('r'))])
  {
    OrSteps(parses, line);
    RunOfOneStep(Or, parses, 1, line, StepAt(Or, parses, 1, line));
    RunStep(Or, parses, 0, line);
  }

  const Decimal: seq<byte> := "1.5"

  lemma DecimalStep(parses: seq<byte> -> bool, line: nat)
    ensures StepAt(Decimal, parses, 0, line)
      == if parses(Decimal) then Step(3, line, [NewToken(Number, Decimal, NumberValue(Decimal), line)], [])
         else Step(3, line, [], [NewScanError(line, UnparsableNumber(Decimal))])
  {
    DigitStep(Decimal, parses, 0, line);
    assert DigitsEnd(Decimal, 1) == 1;
    assert DigitsEnd(Decimal, 2) == 3;
    assert NumberEnd(Decimal, 1) == 3;
    assert Decimal[0..3] == Decimal;
  }

  /** A decimal number is one lexeme, fraction included: a Number token when it
      parses. */
  lemma DecimalNumber(parses: seq<byte> -> bool, line: nat)
    requires parses(Decimal)
    ensures Run(Decimal, parses, 0, line) == Output([NewToken(Number, Decimal, NumberValue(Decimal), line), Eof(line)], [])
  {
    DecimalStep(parses, line);
    RunOfOneStep(Decimal, parses, 0, line, StepAt(Decimal, parses, 0, line));
  }
}
