/** Token types, tokens and the reserved-word table (tokentypes.go). */
module Tokens {
  import opened Chars

  /** The closed set of lexical categories. The first constructor keeps the
      source's own name: the enumeration has no separate right-parenthesis type. */
  datatype TokenType =
    // Single-character tokens.
    | LeftParenrightParen | LeftBrace | RightBrace | Comma | Dot
    | Minus | Plus | Semicolon | Slash | Star
    // One or two character tokens.
    | Bang | BangEqual | Equal | EqualEqual
    | Greater | GreaterEqual | Less | LessEqual
    // Literals.
    | Identifier | String | Number
    // Keywords.
    | And | Class | Else | False | Fun | For | If | Nil
    | Or | Print | Return | Super | This | True | Var | While
    | EOF

  /** The number of token types. */
  const TokenTypeCount: nat := 38

  /** The integer the source's `iota` gives each constant: its position in the
      declaration, from 0 for LeftParenrightParen up to EOF as the last value. */
  function Ordinal(t: TokenType): (k: nat)
    ensures k < TokenTypeCount
    ensures t == EOF <==> k == TokenTypeCount - 1
  {
    match t
    case LeftParenrightParen => 0
    case LeftBrace => 1
    case RightBrace => 2
    case Comma => 3
    case Dot => 4
    case Minus => 5
    case Plus => 6
    case Semicolon => 7
    case Slash => 8
    case Star => 9
    case Bang => 10
    case BangEqual => 11
    case Equal => 12
    case EqualEqual => 13
    case Greater => 14
    case GreaterEqual => 15
    case Less => 16
    case LessEqual => 17
    case Identifier => 18
    case String => 19
    case Number => 20
    case And => 21
    case Class => 22
    case Else => 23
    case False => 24
    case Fun => 25
    case For => 26
    case If => 27
    case Nil => 28
    case Or => 29
    case Print => 30
    case Return => 31
    case Super => 32
    case This => 33
    case True => 34
    case Var => 35
    case While => 36
    case EOF => 37
  }

  /** The token type that `iota` numbers k: the inverse of Ordinal. */
  function FromOrdinal(k: nat): (t: TokenType)
    requires k < TokenTypeCount
    ensures Ordinal(t) == k
  {
    if k < 10 then SingleCharFromOrdinal(k)
    else if k < 21 then OperatorOrLiteralFromOrdinal(k)
    else KeywordOrEofFromOrdinal(k)
  }

  function SingleCharFromOrdinal(k: nat): (t: TokenType)
    requires k < 10
    ensures Ordinal(t) == k
  {
    if k == 0 then LeftParenrightParen
    else if k == 1 then LeftBrace
    else if k == 2 then RightBrace
    else if k == 3 then Comma
    else if k == 4 then Dot
    else if k == 5 then Minus
    else if k == 6 then Plus
    else if k == 7 then Semicolon
    else if k == 8 then Slash
    else Star
  }

  function OperatorOrLiteralFromOrdinal(k: nat): (t: TokenType)
    requires 10 <= k < 21
    ensures Ordinal(t) == k
  {
    if k == 10 then Bang
    else if k == 11 then BangEqual
    else if k == 12 then Equal
    else if k == 13 then EqualEqual
    else if k == 14 then Greater
    else if k == 15 then GreaterEqual
    else if k == 16 then Less
    else if k == 17 then LessEqual
    else if k == 18 then Identifier
    else if k == 19 then String
    else Number
  }

  function KeywordOrEofFromOrdinal(k: nat): (t: TokenType)
    requires 21 <= k < TokenTypeCount
    ensures Ordinal(t) == k
  {
    if k == 21 then And
    else if k == 22 then Class
    else if k == 23 then Else
    else if k == 24 then False
    else if k == 25 then Fun
    else if k == 26 then For
    else if k == 27 then If
    else if k == 28 then Nil
    else if k == 29 then Or
    else if k == 30 then Print
    else if k == 31 then Return
    else if k == 32 then Super
    else if k == 33 then This
    else if k == 34 then True
    else if k == 35 then Var
    else if k == 36 then While
    else EOF
  }

  /** The ordinals are distinct and consecutive: Ordinal is a bijection onto
      0 .. TokenTypeCount - 1. */
  lemma OrdinalIsBijection(t: TokenType, k: nat)
    requires k < TokenTypeCount
    ensures FromOrdinal(Ordinal(t)) == t
    ensures Ordinal(FromOrdinal(k)) == k
    ensures Ordinal(t) == k <==> t == FromOrdinal(k)
  {
    FromOrdinalOfOrdinal(t);
    if Ordinal(t) == k {
      FromOrdinalOfOrdinal(FromOrdinal(k));
    }
  }

  lemma FromOrdinalOfOrdinal(t: TokenType)
    ensures FromOrdinal(Ordinal(t)) == t
  {
    if Ordinal(t) < 10 {
      SingleCharOrdinals(t);
    } else if Ordinal(t) < 21 {
      OperatorOrLiteralOrdinals(t);
    } else {
      KeywordOrEofOrdinals(t);
    }
  }

  lemma SingleCharOrdinals(t: TokenType)
    requires Ordinal(t) < 10
    ensures SingleCharFromOrdinal(Ordinal(t)) == t
  {
    match t
    case _ =>
  }

  lemma OperatorOrLiteralOrdinals(t: TokenType)
    requires 10 <= Ordinal(t) < 21
    ensures OperatorOrLiteralFromOrdinal(Ordinal(t)) == t
  {
    match t
    case _ =>
  }

  lemma KeywordOrEofOrdinals(t: TokenType)
    requires 21 <= Ordinal(t)
    ensures KeywordOrEofFromOrdinal(Ordinal(t)) == t
  {
    match t
    case _ =>
  }

  /** Distinct token types have distinct ordinals. */
  lemma OrdinalInjective(t: TokenType, u: TokenType)
    requires Ordinal(t) == Ordinal(u)
    ensures t == u
  {
    FromOrdinalOfOrdinal(t);
    FromOrdinalOfOrdinal(u);
  }

  /** The reserved words occupy the ordinals And .. While. */
  predicate IsKeywordType(t: TokenType)
  {
    Ordinal(And) <= Ordinal(t) <= Ordinal(While)
  }

  /** The keyword range holds the sixteen reserved-word types and nothing else. */
  lemma KeywordTypesAreTheSixteen(t: TokenType)
    ensures IsKeywordType(t) <==>
      t in {And, Class, Else, False, Fun, For, If, Nil, Or, Print, Return, Super, This, True, Var, While}
  {
    match t
    case _ =>
  }

  /** A token's literal value: absent, the bytes of a string, or a number. The
      number is kept as the digit text it was parsed from; floating point is not
      modelled. */
  datatype Literal = NoLiteral | StringValue(bytes: seq<byte>) | NumberValue(text: seq<byte>)

  /** A token. `column` is never set by the source and stays 0. */
  datatype Token = Token(ttype: TokenType, lexeme: seq<byte>, literal: Literal, line: int, column: int)

  /** Builds a token from its four given attributes; the column is left at 0. */
  function NewToken(ttype: TokenType, lexeme: seq<byte>, literal: Literal, line: int): (t: Token)
    ensures t.ttype == ttype && t.lexeme == lexeme && t.literal == literal && t.line == line
    ensures t.column == 0
  {
    Token(ttype, lexeme, literal, line, 0)
  }
}
