/** The scanner object of scanner.go. The source declares every method on a
    value receiver, so in Go each call works on a copy and its updates are
    lost; this model keeps the evident intent: one scanner whose methods update
    its cursor, its line counter and its two output lists in place.

    The loops of scanString and scanNumber test a byte peeked once before the
    loop; here they peek again on every iteration, which is what lets them
    stop. Everything else, including the shifted dispatch table and the missing
    identifier branch, follows the source as written. */
module Lexer {
  import opened Chars
  import opened Tokens
  import opened ScanSpec
  import opened ScanFacts

  class Scanner {
    /** The source buffer; never changes. */
    const source: seq<byte>
    /** Whether strconv.ParseFloat accepts a number lexeme. */
    const floatParses: seq<byte> -> bool

    var tokens: seq<Token>
    var errors: seq<ScanError>
    /** Where the lexeme being scanned starts. */
    var start: nat
    /** The next byte to read. */
    var current: nat
    var line: nat

    /** NewScanner: every other field keeps its zero value, so scanning starts
        on line 0. */
    constructor (source: seq<byte>, floatParses: seq<byte> -> bool)
      ensures this.source == source && this.floatParses == floatParses
      ensures tokens == [] && errors == []
      ensures start == 0 && current == 0 && line == 0
    {
      this.source := source;
      this.floatParses := floatParses;
      tokens := [];
      errors := [];
      start := 0;
      current := 0;
      line := 0;
    }

    // -------------------------------------------------------------------------
    // Lookahead

    /** Whether the cursor is at or past the end of the buffer. */
    function ReachedEnd(): (r: bool)
      reads this
      ensures r <==> !(current < |source|)
    {
      current >= |source|
    }

    /** The byte i places after the cursor, or the sentinel past the end. */
    function PeekAt(i: nat): (b: byte)
      reads this
      ensures current + i < |source| ==> b == source[current + i]
      ensures current + i >= |source| ==> b == Sentinel
    {
      if current + i >= |source| then Sentinel else source[current + i]
    }

    /** peekAt as the source writes it: the index is not used, so every
        lookahead distance yields the byte under the cursor. */
    function PeekAtAsWritten(i: nat): (b: byte)
      reads this
      ensures b == PeekAt(0)
    {
      if ReachedEnd() then Sentinel else source[current]
    }

    function Peek(): (b: byte)
      reads this
      ensures !ReachedEnd() ==> b == source[current]
      ensures ReachedEnd() ==> b == Sentinel
    {
      PeekAt(0)
    }

    function PeekNext(): (b: byte)
      reads this
      ensures current + 1 < |source| ==> b == source[current + 1]
      ensures current + 1 >= |source| ==> b == Sentinel
    {
      PeekAt(1)
    }

    // -------------------------------------------------------------------------
    // Cursor movement and output

    /** Consumes the byte under the cursor and returns it. */
    method Advance() returns (c: byte)
      requires current < |source|
      modifies this`current
      ensures current == old(current) + 1
      ensures c == source[old(current)]
    {
      current := current + 1;
      c := source[current - 1];
    }

    /** Consumes the byte under the cursor only when it is `expected`. */
    method Match(expected: byte) returns (r: bool)
      modifies this`current
      ensures r <==> old(current) < |source| && source[old(current)] == expected
      ensures current == if r then old(current) + 1 else old(current)
    {
      if ReachedEnd() {
        return false;
      }
      if Peek() == expected {
        current := current + 1;
        return true;
      }
      return false;
    }

    /** Appends a token whose lexeme is the bytes scanned since `start`. */
    method AddToken(t: TokenType, literal: Literal)
      requires start <= current <= |source|
      modifies this`tokens
      ensures tokens == old(tokens) + [NewToken(t, source[start..current], literal, line)]
    {
      tokens := tokens + [NewToken(t, source[start..current], literal, line)];
    }

    method AddError(kind: ErrorKind)
      modifies this`errors
      ensures errors == old(errors) + [NewScanError(line, kind)]
    {
      errors := errors + [NewScanError(line, kind)];
    }

    // -------------------------------------------------------------------------
    // Sub-scanners

    /** Skips the text of a `//` comment, up to but not including the newline. */
    method ScanComment()
      requires current <= |source|
      modifies this`current
      ensures current == CommentEnd(source, old(current))
    {
      while Peek() != '\n' && !ReachedEnd()
        invariant old(current) <= current <= |source|
        invariant CommentEnd(source, current) == CommentEnd(source, old(current))
        decreases |source| - current
      {
        var _ := Advance();
      }
    }

    /** The loop of scanString: walks to the closing quote, counting the
        newlines on the way; when the buffer ends first it reports an
        unterminated string on the line the string began on, `opening`, and
        answers false. */
    method SkipStringBody(opening: nat) returns (closed: bool)
      requires current <= |source|
      modifies this`current, this`line, this`errors
      ensures var q := ClosingQuote(source, old(current));
        closed == q.Some? && current == (if closed then q.value else |source|)
      ensures line == old(line) + Newlines(source, old(current), current)
      ensures errors == old(errors) + if closed then [] else [NewScanError(opening, UnterminatedString)]
    {
      while Peek() != '"'
        modifies this`current, this`line, this`errors
        invariant old(current) <= current <= |source|
        invariant ClosingQuote(source, current) == ClosingQuote(source, old(current))
        invariant errors == old(errors)
        invariant line == old(line) + Newlines(source, old(current), current)
        decreases |source| - current
      {
        if ReachedEnd() {
          // addError reads the line counter, which the loop as written never
          // moves; the corrected loop does, so the opening line is kept aside.
          errors := errors + [NewScanError(opening, UnterminatedString)];
          return false;
        }
        if Peek() == '\n' {
          line := line + 1;
        }
        var _ := Advance();
      }
      return true;
    }

    /** Scans the rest of a string literal whose opening quote was just
        consumed, counting the newlines inside it. */
    method ScanString()
      requires start < |source| && source[start] == '"' && current == start + 1
      modifies this`current, this`line, this`tokens, this`errors
      ensures var s := StringStep(source, start, old(line));
        current == s.next && line == s.line
        && tokens == old(tokens) + s.emitted && errors == old(errors) + s.reported
    {
      var closed := SkipStringBody(line);
      if !closed {
        UnterminatedStringStepIs(source, start, old(line));
        return;
      }
      ghost var q := current;
      ClosedStringStepIs(source, start, old(line), q);
      var _ := Advance();
      var value := source[start + 1..current - 1];
      assert value == source[start + 1..q];
      AddToken(String, StringValue(value));
    }

    /** The digit loop scanNumber runs twice: advances over a run of digits. */
    method SkipDigits()
      requires current <= |source|
      modifies this`current
      ensures current == DigitsEnd(source, old(current))
    {
      while IsDigit(Peek())
        invariant old(current) <= current <= |source|
        invariant DigitsEnd(source, current) == DigitsEnd(source, old(current))
        decreases |source| - current
      {
        var _ := Advance();
      }
    }

    /** The cursor movement of scanNumber: the integer digits, then a '.' and
        the fraction digits when a digit follows the '.'. */
    method SkipNumber()
      requires current <= |source|
      modifies this`current
      ensures current == NumberEnd(source, old(current))
    {
      SkipDigits();
      ghost var digitsEnd := current;
      if Peek() == '.' && IsDigit(PeekNext()) {
        var _ := Advance();
        SkipDigits();
        NumberEndWithFraction(source, old(current), digitsEnd);
      } else {
        NumberEndWithoutFraction(source, old(current), digitsEnd);
      }
    }

    /** Scans the rest of a number literal whose first digit was just consumed;
        the lexeme becomes a Number token if it parses and an error otherwise. */
    method ScanNumber()
      requires start < |source| && IsDigit(source[start]) && current == start + 1
      modifies this`current, this`tokens, this`errors
      ensures current == NumberEnd(source, start + 1)
      ensures var text := source[start..current];
        if floatParses(text) then tokens == old(tokens) + [NewToken(Number, text, NumberValue(text), line)] && errors == old(errors)
        else tokens == old(tokens) && errors == old(errors) + [NewScanError(line, UnparsableNumber(text))]
    {
      SkipNumber();
      var text := source[start..current];
      if floatParses(text) {
        AddToken(Number, NumberValue(text));
      } else {
        AddError(UnparsableNumber(text));
      }
    }

    // -------------------------------------------------------------------------
    // The scan

    /** Scans one lexeme starting at the cursor. */
    method ScanToken()
      requires start == current < |source|
      modifies this`current, this`line, this`tokens, this`errors
      ensures var s := StepAt(source, floatParses, old(current), old(line));
        current == s.next && line == s.line
        && tokens == old(tokens) + s.emitted && errors == old(errors) + s.reported
    {
      var c := Advance();
      if SingleCharType(c).Some? {
        AddToken(SingleCharType(c).value, NoLiteral);
      } else if IsOperatorStart(c) {
        var followedByEqual := Match('=');
        AddToken(OperatorType(c, followedByEqual), NoLiteral);
      } else if c == '/' {
        var comment := Match('/');
        if comment {
          ScanComment();
        } else {
          AddToken(Slash, NoLiteral);
        }
      } else if c == ' ' || c == '\r' || c == '\t' {
      } else if c == '\n' {
        line := line + 1;
      } else if c == '"' {
        ScanString();
      } else if IsDigit(c) {
        ScanNumber();
        NumberStepIs(source, floatParses, old(current), line, current);
      } else {
        AddError(UnexpectedChar(c));
      }
    }

    /** Scans from the cursor to the end of the buffer, then appends the EOF
        token on the final line. */
    method ScanTokens()
      requires current <= |source|
      modifies this
      ensures var out := Run(source, floatParses, old(current), old(line));
        tokens == old(tokens) + out.tokens && errors == old(errors) + out.errors
      ensures current == |source| && line == old(line) + Newlines(source, old(current), |source|)
      ensures start == LastLexemeStart(source, floatParses, old(current), old(line), old(start))
    {
      while !ReachedEnd()
        invariant old(current) <= current <= |source|
        invariant var out := Run(source, floatParses, current, line);
          tokens + out.tokens == old(tokens) + Run(source, floatParses, old(current), old(line)).tokens
          && errors + out.errors == old(errors) + Run(source, floatParses, old(current), old(line)).errors
        invariant line == old(line) + Newlines(source, old(current), current)
        invariant LastLexemeStart(source, floatParses, current, line, start)
          == LastLexemeStart(source, floatParses, old(current), old(line), old(start))
        decreases |source| - current
      {
        ghost var pos := current;
        ghost var before := line;
        ghost var done := tokens;
        ghost var failed := errors;
        ghost var step := StepAt(source, floatParses, pos, before);
        start := current;
        ScanToken();
        StepAtInvariant(source, floatParses, pos, before);
        NewlinesSplit(source, old(current), pos, current);
        RunStep(source, floatParses, pos, before);
        OutputSplits(done, failed, step, Run(source, floatParses, current, line), Run(source, floatParses, pos, before));
      }
      tokens := tokens + [NewToken(EOF, [], NoLiteral, line)];
    }
  }

  /** Output already produced, followed by a step and the rest of the scan,
      is the output produced so far followed by the whole scan from there. */
  lemma OutputSplits(done: seq<Token>, failed: seq<ScanError>, s: Step, rest: Output, whole: Output)
    requires whole == Output(s.emitted + rest.tokens, s.reported + rest.errors)
    ensures (done + s.emitted) + rest.tokens == done + whole.tokens
    ensures (failed + s.reported) + rest.errors == failed + whole.errors
  {
  }

  /** NewScanner followed by ScanTokens: the whole source, from line 0. */
  method Scan(source: seq<byte>, floatParses: seq<byte> -> bool) returns (tokens: seq<Token>, errors: seq<ScanError>)
    ensures tokens == Run(source, floatParses, 0, 0).tokens && errors == Run(source, floatParses, 0, 0).errors
    ensures EndsWithOneEof(tokens)
    ensures LastTokenOnLine(tokens, Newlines(source, 0, |source|))
  {
    var scanner := new Scanner(source, floatParses);
    scanner.ScanTokens();
    tokens, errors := scanner.tokens, scanner.errors;
    assert tokens == [] + Run(source, floatParses, 0, 0).tokens;
    RunEndsWithEof(source, floatParses, 0, 0);
  }
}
