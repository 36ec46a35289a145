/** Character classes used by the normaliser, the validators and `strings.TrimSpace`. */
module Chars {

  predicate IsDigit(c: char)
  {
    '0' <= c <= '9'
  }

  predicate IsAsciiLetter(c: char)
  {
    ('a' <= c <= 'z') || ('A' <= c <= 'Z')
  }

  /** The complement of the character class `[^a-zA-Z0-9]`. */
  predicate IsAsciiAlphaNumeric(c: char)
  {
    IsDigit(c) || IsAsciiLetter(c)
  }

  predicate AllDigits(s: string)
  {
    forall i :: 0 <= i < |s| ==> IsDigit(s[i])
  }

  function DigitValue(c: char): (d: nat)
    requires IsDigit(c)
    ensures d < 10
  {
    (c as int - '0' as int) as nat
  }

  function DigitChar(d: nat): (c: char)
    requires d < 10
    ensures IsDigit(c) && DigitValue(c) == d
  {
    ('0' as int + d) as char
  }

  /** `strconv.Atoi` applied to a one-character string with its error
      discarded: a digit gives its value and anything else gives 0. */
  function DigitOrZero(c: char): (d: nat)
    ensures d < 10
    ensures IsDigit(c) ==> d == DigitValue(c)
    ensures !IsDigit(c) ==> d == 0
  {
    if IsDigit(c) then DigitValue(c) else 0
  }

  /** Go's `unicode.IsSpace`: the Latin-1 spaces plus the Unicode
      White_Space property. */
  predicate IsSpace(c: char)
  {
    || c == '\t' || c == '\n' || c == '\U{000B}' || c == '\U{000C}' || c == '\r' || c == ' '
    || c == '\U{0085}' || c == '\U{00A0}' || c == '\U{1680}'
    || ('\U{2000}' <= c <= '\U{200A}')
    || c == '\U{2028}' || c == '\U{2029}' || c == '\U{202F}' || c == '\U{205F}' || c == '\U{3000}'
  }
}
