/** Facts about the dispatch table of scanToken as the source writes it
    (scanner.go, lines 36-101). */
module DispatchFacts {
  import opened Wrappers
  import opened Chars
  import opened Tokens
  import opened ScanSpec
  import opened ScanFacts

  /** The ten single-character bytes, in the order the switch lists them. */
  const SingleChars: seq<byte> := "(){},.-+;*"

  /** The table is positional: the i-th byte of the switch gets the i-th
      declared token type. Because the declaration has no type of its own for
      ')', ')' takes LeftBrace and each byte from '{' to ';' gets the type
      declared one place after the one its name suggests; '(' and '*' keep
      their own types. */
  lemma SingleCharTableIsPositional(i: nat)
    requires i < |SingleChars|
    ensures SingleCharType(SingleChars[i]) == Some(FromOrdinal(i))
  {
    if i < 5 {
      assert i == 0 || i == 1 || i == 2 || i == 3 || i == 4;
    } else {
      assert i == 5 || i == 6 || i == 7 || i == 8 || i == 9;
    }
  }

  /** The direction of the shift: ')' takes LeftBrace, '{' and '.' get the
      type declared right after the one their names suggest, and '(' and '*'
      keep their own. */
  lemma TableShiftsForward()
    ensures SingleCharType(')') == Some(LeftBrace)
    ensures SingleCharType('{') == Some(RightBrace) && Ordinal(RightBrace) == Ordinal(LeftBrace) + 1
    ensures SingleCharType('.') == Some(Minus) && Ordinal(Minus) == Ordinal(Dot) + 1
    ensures SingleCharType('(') == Some(LeftParenrightParen) && SingleCharType('*') == Some(Star)
  {
  }

  /** Distinct single-character bytes get distinct types. */
  lemma SingleCharTableInjective(c: byte, d: byte)
    requires SingleCharType(c).Some? && SingleCharType(d).Some?
    requires SingleCharType(c) == SingleCharType(d)
    ensures c == d
  {
    var i :| 0 <= i < |SingleChars| && SingleChars[i] == c;
    var j :| 0 <= j < |SingleChars| && SingleChars[j] == d;
    SingleCharTableIsPositional(i);
    SingleCharTableIsPositional(j);
    OrdinalIsBijection(FromOrdinal(i), j);
  }

  /** Slash is reached from two bytes: ';' through the table, and '/' when no
      second '/' follows; a Slash token does not tell which of the two was read
      except through its lexeme. */
  lemma SemicolonScansAsSlash(src: seq<byte>, parses: seq<byte> -> bool, pos: nat, line: nat)
    requires pos < |src| && (src[pos] == ';' || (src[pos] == '/' && (pos + 1 == |src| || src[pos + 1] != '/')))
    ensures StepAt(src, parses, pos, line).emitted == [NewToken(Slash, [src[pos]], NoLiteral, line)]
  {
    assert src[pos..pos + 1] == [src[pos]];
  }

  /** The only byte that yields a Semicolon token is '+'. */
  lemma SemicolonTypeComesFromPlus(c: byte)
    ensures SingleCharType(c) == Some(Semicolon) <==> c == '+'
  {
  }

  /** The operator outcomes are pairwise distinct: the type determines both the
      first byte and whether an '=' followed. */
  lemma OperatorTypeInjective(c: byte, m: bool, d: byte, n: bool)
    requires IsOperatorStart(c) && IsOperatorStart(d)
    requires OperatorType(c, m) == OperatorType(d, n)
    ensures c == d && m == n
  {
  }

  /** As written, "=" gives EqualEqual and "==" gives Equal; the other three
      operators pair the bare byte with the bare type. */
  lemma EqualOutcomesSwapped()
    ensures OperatorType('=', false) == EqualEqual && OperatorType('=', true) == Equal
    ensures OperatorType('!', false) == Bang && OperatorType('!', true) == BangEqual
    ensures OperatorType('<', false) == Less && OperatorType('<', true) == LessEqual
    ensures OperatorType('>', false) == Greater && OperatorType('>', true) == GreaterEqual
  {
  }

  /** A newline moves to the next line and records nothing; a space, '\r' or
      '\t' records nothing and keeps the line. */
  lemma BlankSteps(src: seq<byte>, parses: seq<byte> -> bool, pos: nat, line: nat)
    requires pos < |src| && src[pos] in " \r\t\n"
    ensures StepAt(src, parses, pos, line)
      == Step(pos + 1, if src[pos] == '\n' then line + 1 else line, [], [])
  {
  }

  /** "//" records nothing and skips to the next newline, which it leaves for
      the following step, or to the end of the buffer. */
  lemma CommentStep(src: seq<byte>, parses: seq<byte> -> bool, pos: nat, line: nat)
    requires pos + 1 < |src| && src[pos] == '/' && src[pos + 1] == '/'
    ensures var s := StepAt(src, parses, pos, line);
      && s.emitted == [] && s.reported == [] && s.line == line
      && (s.next == |src| || src[s.next] == '\n')
      && forall i :: pos + 2 <= i < s.next ==> src[i] != '\n'
  {
  }

  /** Any byte outside the table, the operators, '/', the blanks, the quote and
      the digits records an unexpected-byte error on the current line and no
      token; letters are among them. */
  lemma UnexpectedByteStep(src: seq<byte>, parses: seq<byte> -> bool, pos: nat, line: nat)
    requires pos < |src|
    requires var c := src[pos];
      SingleCharType(c).None? && !IsOperatorStart(c) && !(c in "/ \r\t\n\"") && !IsDigit(c)
    ensures StepAt(src, parses, pos, line) == Step(pos + 1, line, [], [NewScanError(line, UnexpectedChar(src[pos]))])
  {
  }

  /** In particular every letter, so no identifier or keyword token is ever
      produced from text. */
  lemma LetterIsUnexpected(src: seq<byte>, parses: seq<byte> -> bool, pos: nat, line: nat)
    requires pos < |src| && IsAlpha(src[pos])
    ensures StepAt(src, parses, pos, line) == Step(pos + 1, line, [], [NewScanError(line, UnexpectedChar(src[pos]))])
  {
    UnexpectedByteStep(src, parses, pos, line);
  }

  /** A quote starts a string. Without a closing quote the rest of the buffer
      is consumed, its newlines are counted, and one error on the opening line
      and no token is recorded; otherwise one String
      token runs to the first closing quote, and its literal is the bytes
      strictly between the quotes. */
  lemma StringOutcome(src: seq<byte>, parses: seq<byte> -> bool, pos: nat, line: nat)
    requires pos < |src| && src[pos] == '"'
    ensures var s := StepAt(src, parses, pos, line);
      && (s.emitted == [] <==> ClosingQuote(src, pos + 1).None?)
      && (s.emitted == [] ==>
            && s.next == |src| && s.line == line + Newlines(src, pos, |src|)
            && s.reported == [NewScanError(line, UnterminatedString)])
      && (s.emitted != [] ==>
            && s.reported == [] && src[s.next - 1] == '"'
            && (forall i :: pos < i < s.next - 1 ==> src[i] != '"')
            && s.emitted == [NewToken(String, src[pos..s.next], StringValue(src[pos + 1..s.next - 1]), s.line)])
  {
    assert StepAt(src, parses, pos, line) == StringStep(src, pos, line);
    StringStepFacts(src, pos, line);
  }
}
