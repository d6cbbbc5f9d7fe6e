/** What one pass of the scanner computes (scanner.go), stated as functions on
    the source bytes: where each sub-scanner stops, what one call of scanToken
    produces (StepAt), and what the whole scan produces (Run). The Scanner class
    in module Lexer is proved to compute exactly these. */
module ScanSpec {
  import opened Wrappers
  import opened Chars
  import opened Tokens

  /** The byte peekAt returns past the end of the buffer. */
  const Sentinel: byte := '\0'

  /** The kind of a lexical error. The message text of the source is not
      modelled; the offending byte or lexeme is kept instead. */
  datatype ErrorKind =
    | UnexpectedChar(c: byte)
    | UnterminatedString
    | UnparsableNumber(text: seq<byte>)

  /** A recoverable scan error, tagged with the line it was recorded on. */
  datatype ScanError = ScanError(line: int, kind: ErrorKind)

  function NewScanError(line: int, kind: ErrorKind): (e: ScanError)
    ensures e.line == line && e.kind == kind
  {
    ScanError(line, kind)
  }

  // ---------------------------------------------------------------------------
  // Line counting

  /** The number of newline bytes in src[i..j]. */
  function Newlines(src: seq<byte>, i: nat, j: nat): (n: nat)
    requires i <= j <= |src|
    ensures n <= j - i
    decreases j - i
  {
    if i == j then 0
    else Newlines(src, i, j - 1) + (if src[j - 1] == '\n' then 1 else 0)
  }

  /** Counting over i..k is counting over i..j then over j..k. */
  lemma {:induction false} NewlinesSplit(src: seq<byte>, i: nat, j: nat, k: nat)
    requires i <= j <= k <= |src|
    ensures Newlines(src, i, k) == Newlines(src, i, j) + Newlines(src, j, k)
    decreases k - j
  {
    if j < k {
      NewlinesSplit(src, i, j, k - 1);
    }
  }

  /** The count is zero exactly when there is no newline in the range. */
  lemma {:induction false} NewlinesZero(src: seq<byte>, i: nat, j: nat)
    requires i <= j <= |src|
    ensures Newlines(src, i, j) == 0 <==> forall k :: i <= k < j ==> src[k] != '\n'
    decreases j - i
  {
    if i < j {
      NewlinesZero(src, i, j - 1);
    }
  }

  /** The count agrees with the byte sequence it counts: a newline adds one,
      any other byte nothing. */
  lemma NewlinesOfOne(src: seq<byte>, i: nat)
    requires i < |src|
    ensures Newlines(src, i, i + 1) == (if src[i] == '\n' then 1 else 0)
  {
  }

  // ---------------------------------------------------------------------------
  // Where the sub-scanners stop

  /** Where a comment whose text starts at p ends: at the first newline at or
      after p, which is not part of the comment, or at the end of the buffer. */
  function CommentEnd(src: seq<byte>, p: nat): (r: nat)
    requires p <= |src|
    ensures p <= r <= |src|
    ensures r == |src| || src[r] == '\n'
    ensures forall i :: p <= i < r ==> src[i] != '\n'
    decreases |src| - p
  {
    if p == |src| || src[p] == '\n' then p else CommentEnd(src, p + 1)
  }

  /** The position of the first double quote at or after p, if there is one. */
  function ClosingQuote(src: seq<byte>, p: nat): (r: Option<nat>)
    requires p <= |src|
    ensures r.Some? ==> p <= r.value < |src| && src[r.value] == '"'
    ensures r.Some? ==> forall i :: p <= i < r.value ==> src[i] != '"'
    ensures r.None? ==> forall i :: p <= i < |src| ==> src[i] != '"'
    decreases |src| - p
  {
    if p == |src| then None
    else if src[p] == '"' then Some(p)
    else ClosingQuote(src, p + 1)
  }

  /** The end of the run of digits that starts at p. */
  function DigitsEnd(src: seq<byte>, p: nat): (r: nat)
    requires p <= |src|
    ensures p <= r <= |src|
    ensures r == |src| || !IsDigit(src[r])
    ensures forall i :: p <= i < r ==> IsDigit(src[i])
    decreases |src| - p
  {
    if p < |src| && IsDigit(src[p]) then DigitsEnd(src, p + 1) else p
  }

  /** The end of the rest of a number literal whose first digit precedes p: a
      run of digits, then a '.' and a second run of digits only when the '.' is
      directly followed by a digit. */
  function NumberEnd(src: seq<byte>, p: nat): (r: nat)
    requires p <= |src|
    ensures p <= r <= |src|
  {
    var e := DigitsEnd(src, p);
    if e + 1 < |src| && src[e] == '.' && IsDigit(src[e + 1]) then DigitsEnd(src, e + 1) else e
  }

  /** What NumberEnd covers: digits with at most one '.', each '.' followed by
      a digit, and nothing that could extend the literal left after it. */
  lemma NumberEndIsMaximal(src: seq<byte>, p: nat)
    requires p <= |src|
    ensures var r := NumberEnd(src, p);
      && (forall i :: p <= i < r ==> IsDigit(src[i]) || src[i] == '.')
      // a '.' is consumed only when a digit follows it, and only once
      && (forall i :: p <= i < r && src[i] == '.' ==> i + 1 < r && IsDigit(src[i + 1]))
      && (forall i, j :: p <= i < j < r && src[i] == '.' ==> src[j] != '.')
      // maximal: no digit follows, and no '.'-digit pair follows a dot-less run
      && (r == |src| || !IsDigit(src[r]))
      && (r + 1 < |src| && src[r] == '.' && IsDigit(src[r + 1]) ==> exists i :: p <= i < r && src[i] == '.')
  {
    var e := DigitsEnd(src, p);
    if e + 1 < |src| && src[e] == '.' && IsDigit(src[e + 1]) {
      assert src[e] == '.';
    }
  }

  // ---------------------------------------------------------------------------
  // The dispatch table of scanToken, as written

  /** The single-character table of scanToken as the source writes it. The
      declaration has no type of its own for ')', so ')' takes LeftBrace and
      each byte from '{' to ';' gets the type declared one place after the one
      its name suggests, ending with Slash for ';'; '(' and '*' keep
      LeftParenrightParen and Star. */
  function SingleCharType(c: byte): (r: Option<TokenType>)
    ensures r.Some? <==> c in "(){},.-+;*"
    ensures r.Some? ==> Ordinal(r.value) < 10
  {
    if c == '(' then Some(LeftParenrightParen)
    else if c == ')' then Some(LeftBrace)
    else if c == '{' then Some(RightBrace)
    else if c == '}' then Some(Comma)
    else if c == ',' then Some(Dot)
    else if c == '.' then Some(Minus)
    else if c == '-' then Some(Plus)
    else if c == '+' then Some(Semicolon)
    else if c == ';' then Some(Slash)
    else if c == '*' then Some(Star)
    else None
  }

  /** The bytes that start a one-or-two-character operator. */
  predicate IsOperatorStart(c: byte)
  {
    c == '!' || c == '=' || c == '<' || c == '>'
  }

  /** The type scanToken gives an operator byte, depending on whether `match('=')`
      consumed a following '='. As written, the two outcomes for '=' are
      swapped: "=" gives EqualEqual and "==" gives Equal. */
  function OperatorType(c: byte, followedByEqual: bool): (t: TokenType)
    requires IsOperatorStart(c)
    ensures 10 <= Ordinal(t) < 18
  {
    if c == '!' then (if followedByEqual then BangEqual else Bang)
    else if c == '=' then (if followedByEqual then Equal else EqualEqual)
    else if c == '<' then (if followedByEqual then LessEqual else Less)
    else (if followedByEqual then GreaterEqual else Greater)
  }

  // ---------------------------------------------------------------------------
  // One call of scanToken, and the whole scan

  /** What one call of scanToken does from position pos on line `line`: where the
      cursor ends, the new line, and the token or error it records (at most one). */
  datatype Step = Step(next: nat, line: nat, emitted: seq<Token>, reported: seq<ScanError>)

  /** One call of scanToken. `parses` stands for strconv.ParseFloat succeeding
      on a lexeme. */
  function StepAt(src: seq<byte>, parses: seq<byte> -> bool, pos: nat, line: nat): (s: Step)
    requires pos < |src|
    ensures pos < s.next <= |src|
    ensures line <= s.line
    ensures |s.emitted| + |s.reported| <= 1
  {
    var c := src[pos];
    var p := pos + 1;
    if SingleCharType(c).Some? then
      Step(p, line, [NewToken(SingleCharType(c).value, src[pos..p], NoLiteral, line)], [])
    else if IsOperatorStart(c) then
      var m := p < |src| && src[p] == '=';
      var q := if m then p + 1 else p;
      Step(q, line, [NewToken(OperatorType(c, m), src[pos..q], NoLiteral, line)], [])
    else if c == '/' then
      if p < |src| && src[p] == '/' then Step(CommentEnd(src, p + 1), line, [], [])
      else Step(p, line, [NewToken(Slash, src[pos..p], NoLiteral, line)], [])
    else if c == ' ' || c == '\r' || c == '\t' then
      Step(p, line, [], [])
    else if c == '\n' then
      Step(p, line + 1, [], [])
    else if c == '"' then
      StringStep(src, pos, line)
    else if IsDigit(c) then
      NumberStep(src, parses, pos, line)
    else
      Step(p, line, [], [NewScanError(line, UnexpectedChar(c))])
  }

  /** scanString, entered after the opening quote at pos: the string runs to the
      next quote; newlines inside it are counted; without a closing quote the
      rest of the buffer is consumed and an error is recorded on the line the
      string began on. */
  function StringStep(src: seq<byte>, pos: nat, line: nat): (s: Step)
    requires pos < |src|
    ensures pos < s.next <= |src| && line <= s.line
    ensures |s.emitted| + |s.reported| <= 1
  {
    var p := pos + 1;
    match ClosingQuote(src, p)
    case None =>
      Step(|src|, line + Newlines(src, p, |src|), [], [NewScanError(line, UnterminatedString)])
    case Some(q) =>
      var l := line + Newlines(src, p, q);
      Step(q + 1, l, [NewToken(String, src[pos..q + 1], StringValue(src[p..q]), l)], [])
  }

  /** scanString as the source writes it (with the loop re-peeking): the line
      counter is bumped on a quote inside the loop, which the loop condition
      rules out, so the line never changes. */
  function StringStepAsWritten(src: seq<byte>, pos: nat, line: nat): (s: Step)
    requires pos < |src|
    ensures s.line == line
    ensures s.next == StringStep(src, pos, line).next
    ensures s.reported == StringStep(src, pos, line).reported
  {
    var p := pos + 1;
    match ClosingQuote(src, p)
    case None =>
      Step(|src|, line, [], [NewScanError(line, UnterminatedString)])
    case Some(q) =>
      Step(q + 1, line, [NewToken(String, src[pos..q + 1], StringValue(src[p..q]), line)], [])
  }

  /** scanNumber, entered after the first digit at pos: the lexeme runs to
      NumberEnd; it becomes a Number token when it parses as a float, an error
      otherwise. */
  function NumberStep(src: seq<byte>, parses: seq<byte> -> bool, pos: nat, line: nat): (s: Step)
    requires pos < |src|
    ensures pos < s.next <= |src| && s.line == line
    ensures |s.emitted| + |s.reported| == 1
  {
    var e := NumberEnd(src, pos + 1);
    var text := src[pos..e];
    if parses(text) then Step(e, line, [NewToken(Number, text, NumberValue(text), line)], [])
    else Step(e, line, [], [NewScanError(line, UnparsableNumber(text))])
  }

  /** The two output lists of a scan. */
  datatype Output = Output(tokens: seq<Token>, errors: seq<ScanError>)

  /** The tokens and errors that ScanTokens appends when it starts at position
      pos on line `line`: one scanToken step at a time until the end of the
      buffer, then the EOF token. */
  function Run(src: seq<byte>, parses: seq<byte> -> bool, pos: nat, line: nat): (out: Output)
    requires pos <= |src|
    ensures |out.tokens| >= 1 && out.tokens[|out.tokens| - 1].ttype == EOF
    ensures |out.tokens| + |out.errors| <= |src| - pos + 1
    decreases |src| - pos
  {
    if pos == |src| then
      Output([NewToken(EOF, [], NoLiteral, line)], [])
    else
      var s := StepAt(src, parses, pos, line);
      var rest := Run(src, parses, s.next, s.line);
      Output(s.emitted + rest.tokens, s.reported + rest.errors)
  }

  /** Where the last lexeme of a scan from pos begins: the value `start` holds
      when ScanTokens returns (`start` itself if the loop never runs). */
  function LastLexemeStart(src: seq<byte>, parses: seq<byte> -> bool, pos: nat, line: nat, start: nat): (r: nat)
    requires pos <= |src|
    ensures pos < |src| ==> pos <= r < |src|
    ensures pos == |src| ==> r == start
    decreases |src| - pos
  {
    if pos == |src| then start
    else
      var s := StepAt(src, parses, pos, line);
      LastLexemeStart(src, parses, s.next, s.line, pos)
  }
}
