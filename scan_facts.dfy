/** Properties of the scan specification: what every step and every whole scan
    guarantees about lexemes, literals, lines, ordering and the EOF token. */
module ScanFacts {
  import opened Wrappers
  import opened Chars
  import opened Tokens
  import opened ScanSpec

  // ---------------------------------------------------------------------------
  // The shape of a token

  /** A number lexeme: digits, optionally one '.' between two digit runs. */
  predicate NumberShape(s: seq<byte>)
  {
    |s| >= 1 && IsDigit(s[0]) && IsDigit(s[|s| - 1])
    && (forall i :: 0 <= i < |s| ==> IsDigit(s[i]) || s[i] == '.')
    && (forall i, j :: 0 <= i < j < |s| && s[i] == '.' ==> s[j] != '.')
  }

  /** A punctuation or operator lexeme with the type the as-written dispatch
      table gives it. */
  predicate PunctuationFits(tt: TokenType, lexeme: seq<byte>)
  {
    (|lexeme| == 1 && SingleCharType(lexeme[0]) == Some(tt))
    || (lexeme == "/" && tt == Slash)
    || (|lexeme| == 1 && IsOperatorStart(lexeme[0]) && OperatorType(lexeme[0], false) == tt)
    || (|lexeme| == 2 && IsOperatorStart(lexeme[0]) && lexeme[1] == '=' && OperatorType(lexeme[0], true) == tt)
  }

  /** How a token's lexeme and literal agree with its type. */
  predicate LexemeFits(t: Token)
  {
    t.column == 0 &&
    match t.ttype
    case String =>
      t.literal.StringValue? && t.lexeme == ['"'] + t.literal.bytes + ['"'] && '"' !in t.literal.bytes
    case Number => t.literal == NumberValue(t.lexeme) && NumberShape(t.lexeme)
    case EOF => t.literal == NoLiteral && t.lexeme == []
    case _ => t.literal == NoLiteral && PunctuationFits(t.ttype, t.lexeme)
  }

  /** The literal's tag follows the type: a string value exactly for String
      tokens, a number exactly for Number tokens, none otherwise; and since the
      scanner has no identifier branch, no fitting token is an identifier or a
      keyword. */
  lemma FittingTokenLiteral(t: Token)
    requires LexemeFits(t)
    ensures t.literal.StringValue? <==> t.ttype == String
    ensures t.literal.NumberValue? <==> t.ttype == Number
    ensures t.literal.NoLiteral? <==> t.ttype != String && t.ttype != Number
    ensures t.ttype != Identifier && !IsKeywordType(t.ttype)
    ensures t.ttype != EOF ==> |t.lexeme| >= 1
  {
    if t.ttype !in {String, Number, EOF} {
      assert PunctuationFits(t.ttype, t.lexeme);
      assert Ordinal(t.ttype) < 18;
    }
  }

  // ---------------------------------------------------------------------------
  // One step

  /** What every call of scanToken guarantees about what it consumes: at least
      one byte; the newlines among them are counted; at most one token or
      error is recorded, a token on the line the step ends on and an error on
      the line it began on; and the token's lexeme is exactly the bytes
      consumed. */
  predicate StepConsumes(src: seq<byte>, pos: nat, line: nat, s: Step)
  {
    pos < s.next <= |src|
    && s.line == line + Newlines(src, pos, s.next)
    && |s.emitted| + |s.reported| <= 1
    && (forall t :: t in s.emitted ==> t.lexeme == src[pos..s.next] && t.line == s.line)
    && (forall e :: e in s.reported ==> e.line == line)
  }

  /** The token a step records fits its type. */
  predicate StepTokensFit(s: Step)
  {
    forall t :: t in s.emitted ==> LexemeFits(t)
  }

  /** Everything one call of scanToken guarantees. */
  predicate StepInvariant(src: seq<byte>, pos: nat, line: nat, s: Step)
  {
    StepConsumes(src, pos, line, s) && StepTokensFit(s)
  }

  lemma StepAtInvariant(src: seq<byte>, parses: seq<byte> -> bool, pos: nat, line: nat)
    requires pos < |src|
    ensures StepInvariant(src, pos, line, StepAt(src, parses, pos, line))
  {
    var c := src[pos];
    if SingleCharType(c).Some? || IsOperatorStart(c) {
      PunctuationStepInvariant(src, parses, pos, line);
    } else if c == '/' {
      SlashStepInvariant(src, parses, pos, line);
    } else if c == '"' {
      StringStepInvariant(src, parses, pos, line);
    } else if IsDigit(c) {
      NumberStepInvariant(src, parses, pos, line);
    } else {
      OtherStepInvariant(src, parses, pos, line);
    }
  }

  lemma PunctuationStepInvariant(src: seq<byte>, parses: seq<byte> -> bool, pos: nat, line: nat)
    requires pos < |src| && (SingleCharType(src[pos]).Some? || IsOperatorStart(src[pos]))
    ensures StepInvariant(src, pos, line, StepAt(src, parses, pos, line))
  {
    var s := StepAt(src, parses, pos, line);
    NewlinesZero(src, pos, s.next);
    assert PunctuationFits(s.emitted[0].ttype, s.emitted[0].lexeme);
  }

  lemma SlashStepInvariant(src: seq<byte>, parses: seq<byte> -> bool, pos: nat, line: nat)
    requires pos < |src| && src[pos] == '/'
    ensures StepInvariant(src, pos, line, StepAt(src, parses, pos, line))
  {
    var s := StepAt(src, parses, pos, line);
    NewlinesZero(src, pos, s.next);
    if s.emitted != [] {
      assert PunctuationFits(s.emitted[0].ttype, s.emitted[0].lexeme);
    }
  }

  lemma StringStepInvariant(src: seq<byte>, parses: seq<byte> -> bool, pos: nat, line: nat)
    requires pos < |src| && src[pos] == '"'
    ensures StepInvariant(src, pos, line, StepAt(src, parses, pos, line))
  {
    assert StepAt(src, parses, pos, line) == StringStep(src, pos, line);
    StringStepFacts(src, pos, line);
  }

  lemma StringStepFacts(src: seq<byte>, pos: nat, line: nat)
    requires pos < |src| && src[pos] == '"'
    ensures StepInvariant(src, pos, line, StringStep(src, pos, line))
  {
    var s := StringStep(src, pos, line);
    var p := pos + 1;
    if ClosingQuote(src, p).Some? {
      var q := ClosingQuote(src, p).value;
      ClosedStringLines(src, pos, line);
      StringTokenFits(src, pos, q, s.line);
    } else {
      NewlinesSplit(src, pos, p, |src|);
      NewlinesOfOne(src, pos);
    }
  }

  lemma ClosedStringLines(src: seq<byte>, pos: nat, line: nat)
    requires pos < |src| && src[pos] == '"' && ClosingQuote(src, pos + 1).Some?
    ensures var s := StringStep(src, pos, line); s.line == line + Newlines(src, pos, s.next)
  {
    QuotedNewlines(src, pos, ClosingQuote(src, pos + 1).value);
  }

  /** The step for a string closed by the quote at q. */
  lemma ClosedStringStepIs(src: seq<byte>, pos: nat, line: nat, q: nat)
    requires pos < q < |src| && src[q] == '"' && ClosingQuote(src, q) == ClosingQuote(src, pos + 1)
    ensures var l := line + Newlines(src, pos + 1, q);
      StringStep(src, pos, line)
        == Step(q + 1, l, [NewToken(String, src[pos..q + 1], StringValue(src[pos + 1..q]), l)], [])
  {
  }

  /** The step for a string with no closing quote. */
  lemma UnterminatedStringStepIs(src: seq<byte>, pos: nat, line: nat)
    requires pos < |src| && ClosingQuote(src, |src|) == ClosingQuote(src, pos + 1)
    ensures var l := line + Newlines(src, pos + 1, |src|);
      StringStep(src, pos, line) == Step(|src|, l, [], [NewScanError(line, UnterminatedString)])
  {
  }

  /** The quotes around a string add no newlines. */
  lemma QuotedNewlines(src: seq<byte>, pos: nat, q: nat)
    requires pos < q < |src| && src[pos] == '"' && src[q] == '"'
    ensures Newlines(src, pos, q + 1) == Newlines(src, pos + 1, q)
  {
    NewlinesSplit(src, pos, pos + 1, q + 1);
    NewlinesSplit(src, pos + 1, q, q + 1);
    NewlinesOfOne(src, pos);
    NewlinesOfOne(src, q);
  }

  /** A lexeme from an opening quote to the first closing quote fits a String token. */
  lemma StringTokenFits(src: seq<byte>, pos: nat, q: nat, l: int)
    requires pos < q < |src| && src[pos] == '"' && src[q] == '"'
    requires forall i :: pos < i < q ==> src[i] != '"'
    ensures LexemeFits(NewToken(String, src[pos..q + 1], StringValue(src[pos + 1..q]), l))
  {
    assert src[pos..q + 1] == ['"'] + src[pos + 1..q] + ['"'];
  }

  /** A number lexeme whose digits are followed by '.' and a digit ends after
      the digits that follow the '.'. */
  lemma NumberEndWithFraction(src: seq<byte>, p: nat, e: nat)
    requires p <= |src| && e == DigitsEnd(src, p)
    requires e + 1 < |src| && src[e] == '.' && IsDigit(src[e + 1])
    ensures NumberEnd(src, p) == DigitsEnd(src, e + 1)
  {
  }

  /** Otherwise it ends with its integer digits. */
  lemma NumberEndWithoutFraction(src: seq<byte>, p: nat, e: nat)
    requires p <= |src| && e == DigitsEnd(src, p)
    requires !(e + 1 < |src| && src[e] == '.' && IsDigit(src[e + 1]))
    ensures NumberEnd(src, p) == e
  {
  }

  lemma NumberStepIs(src: seq<byte>, parses: seq<byte> -> bool, pos: nat, line: nat, e: nat)
    requires pos < e <= |src| && e == NumberEnd(src, pos + 1)
    ensures var text := src[pos..e];
      NumberStep(src, parses, pos, line)
        == if parses(text) then Step(e, line, [NewToken(Number, text, NumberValue(text), line)], [])
           else Step(e, line, [], [NewScanError(line, UnparsableNumber(text))])
  {
  }

  lemma NumberStepInvariant(src: seq<byte>, parses: seq<byte> -> bool, pos: nat, line: nat)
    requires pos < |src| && IsDigit(src[pos])
    ensures StepInvariant(src, pos, line, StepAt(src, parses, pos, line))
  {
    assert StepAt(src, parses, pos, line) == NumberStep(src, parses, pos, line);
    NumberStepFacts(src, parses, pos, line);
  }

  lemma NumberStepFacts(src: seq<byte>, parses: seq<byte> -> bool, pos: nat, line: nat)
    requires pos < |src| && IsDigit(src[pos])
    ensures StepInvariant(src, pos, line, NumberStep(src, parses, pos, line))
  {
    var s := NumberStep(src, parses, pos, line);
    assert forall i :: pos <= i < s.next ==> IsDigit(src[i]) || src[i] == '.';
    NewlinesZero(src, pos, s.next);
    NumberLexemeShape(src, pos);
  }

  lemma OtherStepInvariant(src: seq<byte>, parses: seq<byte> -> bool, pos: nat, line: nat)
    requires pos < |src|
    requires !(SingleCharType(src[pos]).Some? || IsOperatorStart(src[pos]))
    requires src[pos] != '/' && src[pos] != '"' && !IsDigit(src[pos])
    ensures StepInvariant(src, pos, line, StepAt(src, parses, pos, line))
  {
    NewlinesOfOne(src, pos);
  }

  /** A digit followed by the rest of a number literal has NumberShape. */
  lemma NumberLexemeShape(src: seq<byte>, pos: nat)
    requires pos < |src| && IsDigit(src[pos])
    ensures NumberShape(src[pos..NumberEnd(src, pos + 1)])
  {
    var e := NumberEnd(src, pos + 1);
    NumberEndIsMaximal(src, pos + 1);
    var s := src[pos..e];
    assert s[0] == src[pos];
  }

  // ---------------------------------------------------------------------------
  // The whole scan

  /** The end position of each token Run(src, parses, pos, line) produces: the
      position just after its lexeme. The EOF token ends at the end of src. */
  ghost function TokenEnds(src: seq<byte>, parses: seq<byte> -> bool, pos: nat, line: nat): (ends: seq<nat>)
    requires pos <= |src|
    ensures |ends| >= 1 && ends[|ends| - 1] == |src|
    decreases |src| - pos
  {
    if pos == |src| then [|src|]
    else
      var s := StepAt(src, parses, pos, line);
      var rest := TokenEnds(src, parses, s.next, s.line);
      EmittedEndsKeepsLast(s, rest);
      EmittedEnds(s, rest)
  }

  /** Where the lexeme of each error of Run(src, parses, pos, line) begins. */
  ghost function ErrorEnds(src: seq<byte>, parses: seq<byte> -> bool, pos: nat, line: nat): seq<nat>
    requires pos <= |src|
    decreases |src| - pos
  {
    if pos == |src| then []
    else
      var s := StepAt(src, parses, pos, line);
      (if s.reported == [] then [] else [pos]) + ErrorEnds(src, parses, s.next, s.line)
  }

  /** Each token of toks is the slice of src that ends at ends[k], after pos. */
  predicate LexemesAt(src: seq<byte>, pos: nat, toks: seq<Token>, ends: seq<nat>)
  {
    |ends| == |toks|
    && (forall k :: 0 <= k < |toks| ==>
          pos + |toks[k].lexeme| <= ends[k] <= |src|
          && toks[k].lexeme == src[ends[k] - |toks[k].lexeme|..ends[k]])
  }

  /** Each token carries the line reached at its end: the starting line plus
      the newlines between pos and ends[k]. */
  predicate LinesAt(src: seq<byte>, pos: nat, line: nat, toks: seq<Token>, ends: seq<nat>)
  {
    |ends| == |toks|
    && (forall k :: 0 <= k < |toks| ==>
          pos <= ends[k] <= |src| && toks[k].line == line + Newlines(src, pos, ends[k]))
  }

  /** The lexemes follow each other without overlapping: each later lexeme
      starts at or after the end of each earlier one. */
  predicate InOrder(toks: seq<Token>, ends: seq<nat>)
  {
    |ends| == |toks|
    && (forall j, k :: 0 <= j < k < |toks| ==> ends[j] + |toks[k].lexeme| <= ends[k])
  }

  /** Scanning from pos on line `line` produced errs, the k-th for the lexeme
      that begins at ends[k], in order, each on the line reached there. */
  predicate ErrorPlaces(src: seq<byte>, pos: nat, line: nat, errs: seq<ScanError>, ends: seq<nat>)
  {
    |ends| == |errs|
    && (forall k :: 0 <= k < |errs| ==>
          pos <= ends[k] < |src| && errs[k].line == line + Newlines(src, pos, ends[k]))
    && (forall j, k :: 0 <= j < k < |errs| ==> ends[j] <= ends[k])
  }

  /** The one token a step may emit, in front of the rest of the scan: it is
      the step's slice and ends where the step ends. */
  function EmittedEnds(s: Step, restEnds: seq<nat>): seq<nat>
  {
    (if s.emitted == [] then [] else [s.next]) + restEnds
  }

  lemma EmittedEndsKeepsLast(s: Step, restEnds: seq<nat>)
    requires |restEnds| >= 1
    ensures var ends := EmittedEnds(s, restEnds);
      |ends| >= 1 && ends[|ends| - 1] == restEnds[|restEnds| - 1]
  {
  }

  lemma LexemesAtExtend(src: seq<byte>, pos: nat, line: nat, s: Step, rest: seq<Token>, restEnds: seq<nat>)
    requires StepConsumes(src, pos, line, s)
    requires LexemesAt(src, s.next, rest, restEnds)
    ensures LexemesAt(src, pos, s.emitted + rest, EmittedEnds(s, restEnds))
  {
    if s.emitted == [] {
      assert s.emitted + rest == rest;
    } else {
      assert s.emitted[0] in s.emitted;
      assert s.emitted + rest == [s.emitted[0]] + rest;
    }
  }

  lemma LinesAtExtend(src: seq<byte>, pos: nat, line: nat, s: Step, rest: seq<Token>, restEnds: seq<nat>)
    requires StepConsumes(src, pos, line, s)
    requires LinesAt(src, s.next, s.line, rest, restEnds)
    ensures LinesAt(src, pos, line, s.emitted + rest, EmittedEnds(s, restEnds))
  {
    var toks := s.emitted + rest;
    var ends := EmittedEnds(s, restEnds);
    var d := |s.emitted|;
    forall k | d <= k < |toks|
      ensures toks[k].line == line + Newlines(src, pos, ends[k])
    {
      NewlinesSplit(src, pos, s.next, restEnds[k - d]);
    }
    if d == 1 {
      assert toks[0] in s.emitted;
    }
  }

  lemma InOrderExtend(src: seq<byte>, pos: nat, line: nat, s: Step, rest: seq<Token>, restEnds: seq<nat>)
    requires StepConsumes(src, pos, line, s)
    requires LexemesAt(src, s.next, rest, restEnds)
    requires InOrder(rest, restEnds)
    ensures InOrder(s.emitted + rest, EmittedEnds(s, restEnds))
  {
    var toks := s.emitted + rest;
    var ends := EmittedEnds(s, restEnds);
    var d := |s.emitted|;
    forall j, k | 0 <= j < k < |toks|
      ensures ends[j] + |toks[k].lexeme| <= ends[k]
    {
      if j >= d {
        assert restEnds[j - d] + |rest[k - d].lexeme| <= restEnds[k - d];
      } else {
        assert s.next + |rest[k - d].lexeme| <= restEnds[k - d];
      }
    }
  }

  /** One step in front of a scan that satisfies ErrorPlaces gives a scan that
      satisfies it. */
  lemma ErrorPlacesExtend(src: seq<byte>, pos: nat, line: nat, s: Step, rest: seq<ScanError>, restEnds: seq<nat>)
    requires StepConsumes(src, pos, line, s)
    requires ErrorPlaces(src, s.next, s.line, rest, restEnds)
    ensures ErrorPlaces(src, pos, line, s.reported + rest, (if s.reported == [] then [] else [pos]) + restEnds)
  {
    var errs := s.reported + rest;
    var ends := (if s.reported == [] then [] else [pos]) + restEnds;
    var d := |s.reported|;
    forall k | d <= k < |errs|
      ensures errs[k].line == line + Newlines(src, pos, ends[k])
    {
      NewlinesSplit(src, pos, s.next, restEnds[k - d]);
    }
    if d == 1 {
      assert errs[0] in s.reported;
    }
  }

  /** One step of Run: the step's output followed by the rest of the scan. */
  lemma RunStep(src: seq<byte>, parses: seq<byte> -> bool, pos: nat, line: nat)
    requires pos < |src|
    ensures var s := StepAt(src, parses, pos, line);
      var rest := Run(src, parses, s.next, s.line);
      Run(src, parses, pos, line) == Output(s.emitted + rest.tokens, s.reported + rest.errors)
  {
  }

  /** At the end of the buffer Run yields only the EOF token. */
  lemma RunAtEnd(src: seq<byte>, parses: seq<byte> -> bool, line: nat)
    ensures Run(src, parses, |src|, line) == Output([NewToken(EOF, [], NoLiteral, line)], [])
  {
  }

  /** The tokens of a scan are slices of the source: the k-th token's lexeme is
      the bytes just before TokenEnds(...)[k]. */
  lemma {:induction false} RunLexemesAreSlices(src: seq<byte>, parses: seq<byte> -> bool, pos: nat, line: nat)
    requires pos <= |src|
    ensures LexemesAt(src, pos, Run(src, parses, pos, line).tokens, TokenEnds(src, parses, pos, line))
    decreases |src| - pos
  {
    if pos < |src| {
      var s := StepAt(src, parses, pos, line);
      StepAtInvariant(src, parses, pos, line);
      RunLexemesAreSlices(src, parses, s.next, s.line);
      LexemesAtExtend(src, pos, line, s, Run(src, parses, s.next, s.line).tokens, TokenEnds(src, parses, s.next, s.line));
    }
  }

  /** Each token of a scan carries the line reached at the end of its lexeme. */
  lemma {:induction false} RunTokenLines(src: seq<byte>, parses: seq<byte> -> bool, pos: nat, line: nat)
    requires pos <= |src|
    ensures LinesAt(src, pos, line, Run(src, parses, pos, line).tokens, TokenEnds(src, parses, pos, line))
    decreases |src| - pos
  {
    if pos == |src| {
      assert src[pos..pos] == [];
    } else {
      var s := StepAt(src, parses, pos, line);
      StepAtInvariant(src, parses, pos, line);
      RunTokenLines(src, parses, s.next, s.line);
      LinesAtExtend(src, pos, line, s, Run(src, parses, s.next, s.line).tokens, TokenEnds(src, parses, s.next, s.line));
    }
  }

  /** The lexemes of a scan appear in source order and do not overlap. */
  lemma {:induction false} RunLexemesInOrder(src: seq<byte>, parses: seq<byte> -> bool, pos: nat, line: nat)
    requires pos <= |src|
    ensures InOrder(Run(src, parses, pos, line).tokens, TokenEnds(src, parses, pos, line))
    decreases |src| - pos
  {
    if pos < |src| {
      var s := StepAt(src, parses, pos, line);
      StepAtInvariant(src, parses, pos, line);
      RunLexemesAreSlices(src, parses, s.next, s.line);
      RunLexemesInOrder(src, parses, s.next, s.line);
      InOrderExtend(src, pos, line, s, Run(src, parses, s.next, s.line).tokens, TokenEnds(src, parses, s.next, s.line));
    }
  }

  /** The errors of a scan are recorded in order, each on the line its lexeme
      begins on. */
  lemma {:induction false} RunErrorsAreOrdered(src: seq<byte>, parses: seq<byte> -> bool, pos: nat, line: nat)
    requires pos <= |src|
    ensures ErrorPlaces(src, pos, line, Run(src, parses, pos, line).errors, ErrorEnds(src, parses, pos, line))
    decreases |src| - pos
  {
    if pos < |src| {
      var s := StepAt(src, parses, pos, line);
      StepAtInvariant(src, parses, pos, line);
      RunErrorsAreOrdered(src, parses, s.next, s.line);
      ErrorPlacesExtend(src, pos, line, s, Run(src, parses, s.next, s.line).errors, ErrorEnds(src, parses, s.next, s.line));
    }
  }

  /** Every token of a scan fits its type (see LexemeFits). */
  lemma {:induction false} RunTokensFit(src: seq<byte>, parses: seq<byte> -> bool, pos: nat, line: nat)
    requires pos <= |src|
    ensures forall t :: t in Run(src, parses, pos, line).tokens ==> LexemeFits(t)
    decreases |src| - pos
  {
    if pos < |src| {
      var s := StepAt(src, parses, pos, line);
      StepAtInvariant(src, parses, pos, line);
      RunTokensFit(src, parses, s.next, s.line);
      var rest := Run(src, parses, s.next, s.line).tokens;
      assert forall t :: t in s.emitted + rest ==> t in s.emitted || t in rest;
    }
  }

  /** The scanner has no identifier branch: a scan never yields an identifier
      or a keyword token, and only String and Number tokens carry a literal. */
  lemma NoIdentifierOrKeywordTokens(src: seq<byte>, parses: seq<byte> -> bool, t: Token)
    requires t in Run(src, parses, 0, 0).tokens
    ensures t.ttype != Identifier && !IsKeywordType(t.ttype)
    ensures t.literal.StringValue? <==> t.ttype == String
    ensures t.literal.NumberValue? <==> t.ttype == Number
  {
    RunTokensFit(src, parses, 0, 0);
    FittingTokenLiteral(t);
  }

  /** A scan ends with exactly one EOF token: the last token is EOF, with an
      empty lexeme, no literal and the line reached at the end of the source,
      and no earlier token is EOF. */
  lemma RunEndsWithEof(src: seq<byte>, parses: seq<byte> -> bool, pos: nat, line: nat)
    requires pos <= |src|
    ensures EndsWithOneEof(Run(src, parses, pos, line).tokens)
    ensures LastTokenOnLine(Run(src, parses, pos, line).tokens, line + Newlines(src, pos, |src|))
  {
    RunEndsWithOneEof(src, parses, pos, line);
    RunTokenLines(src, parses, pos, line);
    EofOnLastLine(src, pos, line, Run(src, parses, pos, line).tokens, TokenEnds(src, parses, pos, line));
  }

  lemma EofOnLastLine(src: seq<byte>, pos: nat, line: nat, toks: seq<Token>, ends: seq<nat>)
    requires EndsWithOneEof(toks) && LinesAt(src, pos, line, toks, ends)
    requires |ends| >= 1 && ends[|ends| - 1] == |src|
    ensures LastTokenOnLine(toks, line + Newlines(src, pos, |src|))
  {
    assert toks[|toks| - 1].line == line + Newlines(src, pos, ends[|ends| - 1]);
  }

  /** The last token of toks sits on the given line. */
  predicate LastTokenOnLine(toks: seq<Token>, line: int)
  {
    |toks| >= 1 && toks[|toks| - 1].line == line
  }

  /** toks ends with a token of type EOF with an empty lexeme and no literal,
      and no other token of toks is EOF. */
  predicate EndsWithOneEof(toks: seq<Token>)
  {
    |toks| >= 1
    && toks[|toks| - 1].ttype == EOF && toks[|toks| - 1].lexeme == []
    && toks[|toks| - 1].literal == NoLiteral && toks[|toks| - 1].column == 0
    && forall k :: 0 <= k < |toks| - 1 ==> toks[k].ttype != EOF
  }

  lemma {:induction false} RunEndsWithOneEof(src: seq<byte>, parses: seq<byte> -> bool, pos: nat, line: nat)
    requires pos <= |src|
    ensures EndsWithOneEof(Run(src, parses, pos, line).tokens)
    decreases |src| - pos
  {
    if pos < |src| {
      var s := StepAt(src, parses, pos, line);
      StepAtInvariant(src, parses, pos, line);
      RunEndsWithOneEof(src, parses, s.next, s.line);
      EofAfterStep(src, pos, line, s, Run(src, parses, s.next, s.line).tokens);
    }
  }

  lemma EofAfterStep(src: seq<byte>, pos: nat, line: nat, s: Step, rest: seq<Token>)
    requires StepInvariant(src, pos, line, s)
    requires EndsWithOneEof(rest)
    ensures EndsWithOneEof(s.emitted + rest)
  {
    if s.emitted != [] {
      assert s.emitted[0] in s.emitted;
    }
  }

  /** Newline counts from a fixed start grow with the end. */
  lemma NewlinesMonotone(src: seq<byte>, pos: nat, i: nat, j: nat)
    requires pos <= i <= j <= |src|
    ensures Newlines(src, pos, i) <= Newlines(src, pos, j) <= Newlines(src, pos, |src|)
  {
    NewlinesSplit(src, pos, i, j);
    NewlinesSplit(src, pos, j, |src|);
  }

  /** The lines of a scan's tokens never decrease, start at the first line
      and never pass the line reached at the end of the source. */
  lemma RunTokenLinesOrdered(src: seq<byte>, parses: seq<byte> -> bool, pos: nat, line: nat)
    requires pos <= |src|
    ensures var toks := Run(src, parses, pos, line).tokens;
      (forall k :: 0 <= k < |toks| ==> line <= toks[k].line <= line + Newlines(src, pos, |src|))
      && (forall j, k :: 0 <= j < k < |toks| ==> toks[j].line <= toks[k].line)
  {
    RunTokenLines(src, parses, pos, line);
    RunLexemesInOrder(src, parses, pos, line);
    TokenLinesOrdered(src, pos, line, Run(src, parses, pos, line).tokens, TokenEnds(src, parses, pos, line));
  }

  lemma TokenLinesOrdered(src: seq<byte>, pos: nat, line: nat, toks: seq<Token>, ends: seq<nat>)
    requires LinesAt(src, pos, line, toks, ends) && InOrder(toks, ends)
    ensures forall k :: 0 <= k < |toks| ==> line <= toks[k].line <= line + Newlines(src, pos, |src|)
    ensures forall j, k :: 0 <= j < k < |toks| ==> toks[j].line <= toks[k].line
  {
    forall k | 0 <= k < |toks|
      ensures line <= toks[k].line <= line + Newlines(src, pos, |src|)
    {
      NewlinesMonotone(src, pos, ends[k], ends[k]);
    }
    forall j, k | 0 <= j < k < |toks|
      ensures toks[j].line <= toks[k].line
    {
      NewlinesMonotone(src, pos, ends[j], ends[k]);
    }
  }

  /** The same holds for the lines of a scan's errors. */
  lemma RunErrorLinesOrdered(src: seq<byte>, parses: seq<byte> -> bool, pos: nat, line: nat)
    requires pos <= |src|
    ensures var errs := Run(src, parses, pos, line).errors;
      (forall k :: 0 <= k < |errs| ==> line <= errs[k].line <= line + Newlines(src, pos, |src|))
      && (forall j, k :: 0 <= j < k < |errs| ==> errs[j].line <= errs[k].line)
  {
    RunErrorsAreOrdered(src, parses, pos, line);
    ErrorLinesOrdered(src, pos, line, Run(src, parses, pos, line).errors, ErrorEnds(src, parses, pos, line));
  }

  lemma ErrorLinesOrdered(src: seq<byte>, pos: nat, line: nat, errs: seq<ScanError>, ends: seq<nat>)
    requires ErrorPlaces(src, pos, line, errs, ends)
    ensures forall k :: 0 <= k < |errs| ==> line <= errs[k].line <= line + Newlines(src, pos, |src|)
    ensures forall j, k :: 0 <= j < k < |errs| ==> errs[j].line <= errs[k].line
  {
    forall k | 0 <= k < |errs|
      ensures line <= errs[k].line <= line + Newlines(src, pos, |src|)
    {
      NewlinesMonotone(src, pos, ends[k], ends[k]);
    }
    forall j, k | 0 <= j < k < |errs|
      ensures errs[j].line <= errs[k].line
    {
      NewlinesMonotone(src, pos, ends[j], ends[k]);
    }
  }
}
