/** Bytes and the three byte classes the scanner dispatches on (utils.go). */
module Chars {

  /** A byte of the source buffer. Bytes are written as characters below 256 so
      that byte strings can be written as string literals. */
  type byte = c: char | c as int < 256 witness '\0'

  /** The decimal digits, in order: an independent reference for IsDigit. */
  const DigitBytes: seq<byte> := "0123456789"

  /** The bytes that may start an identifier, spelled out: an independent
      reference for IsAlpha. */
  const LowerLetters: string := "abcdefghijklmnopqrstuvwxyz"
  const UpperLetters: string := "ABCDEFGHIJKLMNOPQRSTUVWXYZ"
  const AlphaBytes: string := LowerLetters + UpperLetters + "_"

  predicate IsDigit(c: byte)
  {
    '0' <= c <= '9'
  }

  predicate IsAlpha(c: byte)
  {
    ('a' <= c <= 'z') || ('A' <= c <= 'Z') || c == '_'
  }

  predicate IsAlphaNumeric(c: byte)
  {
    IsAlpha(c) || IsDigit(c)
  }

  /** The value of a digit byte. */
  function DigitValue(c: byte): (v: nat)
    requires IsDigit(c)
    ensures v < 10 && DigitBytes[v] == c
  {
    c as int - '0' as int
  }

  /** IsDigit holds exactly for the ten bytes '0' .. '9'. */
  lemma IsDigitExactly(c: byte)
    ensures IsDigit(c) <==> c in DigitBytes
  {
    if IsDigit(c) {
      assert DigitBytes[DigitValue(c)] == c;
    }
  }

  lemma LowerLettersExactly(c: byte)
    ensures 'a' <= c <= 'z' <==> c in LowerLetters
  {
    if 'a' <= c <= 'z' {
      assert LowerLetters[c as int - 'a' as int] == c;
    }
  }

  lemma UpperLettersExactly(c: byte)
    ensures 'A' <= c <= 'Z' <==> c in UpperLetters
  {
    if 'A' <= c <= 'Z' {
      assert UpperLetters[c as int - 'A' as int] == c;
    }
  }

  /** IsAlpha holds exactly for the ASCII letters and the underscore. */
  lemma IsAlphaExactly(c: byte)
    ensures IsAlpha(c) <==> c in AlphaBytes
  {
    LowerLettersExactly(c);
    UpperLettersExactly(c);
  }

  /** IsAlphaNumeric is the union of the two other classes. */
  lemma IsAlphaNumericIsUnion(c: byte)
    ensures IsAlphaNumeric(c) <==> c in AlphaBytes || c in DigitBytes
  {
    IsDigitExactly(c);
    IsAlphaExactly(c);
  }

  /** No byte is both a digit and a letter, and no byte above ASCII is either. */
  lemma ClassesDisjointAndAscii(c: byte)
    ensures !(IsDigit(c) && IsAlpha(c))
    ensures c as int >= 128 ==> !IsDigit(c) && !IsAlpha(c) && !IsAlphaNumeric(c)
  {
  }
}
