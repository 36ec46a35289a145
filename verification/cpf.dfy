/** `ValidateCpf`: the check of an individual taxpayer number (CPF, eleven
    digits, the last two of which are modulo-11 check digits). */
module Cpf {
  import opened Chars
  import opened Wrappers
  import opened Errors
  import opened Normalization
  import opened CheckDigits

  const CpfLength: nat := 11

  /** The weight of position `i` when `n` characters are summed:
      `(positionVerification + 1) - i`, so 10..2 for the first check digit
      and 11..2 for the second. */
  function CpfWeights(n: nat): (w: seq<nat>)
    ensures |w| == n
  {
    seq(n, i requires 0 <= i < n => n + 1 - i)
  }

  /** `(status * constValidation) % lenCharacters` with a result of 10 read as 0. */
  function CpfDigitRule(status: nat): nat
  {
    var check := (status * 10) % CpfLength;
    if check == 10 then 0 else check
  }

  lemma ModOfMultiplePlus(k: nat, m: nat)
    ensures (11 * k + m) % 11 == m % 11
  {
  }

  /** The "times ten" rule of the source is the textbook modulo-11 rule
      (the one the CNPJ validator spells out): both give 0 for remainders 0
      and 1 and eleven minus the remainder otherwise. */
  lemma CpfRuleIsMod11(status: nat)
    ensures CpfDigitRule(status) == Mod11CheckDigit(status)
  {
    var q, r := status / 11, status % 11;
    assert status * 10 == 11 * (10 * q) + 10 * r;
    ModOfMultiplePlus(10 * q, 10 * r);
    assert (status * 10) % 11 == (10 * r) % 11;
    if r == 0 {} else if r == 1 {} else if r == 2 {} else if r == 3 {} else if r == 4 {}
    else if r == 5 {} else if r == 6 {} else if r == 7 {} else if r == 8 {} else if r == 9 {}
    else {
      assert r == 10;
    }
  }

  /** Reference check digit for a prefix of digits. */
  function CpfCheckDigit(prefix: string): (d: nat)
    requires AllDigits(prefix)
    ensures d < 10
  {
    Mod11CheckDigit(DigitSum(prefix, CpfWeights(|prefix|)))
  }

  /** The `verification` closure of `ValidateCpf`: sums the first `position`
      characters, leaving with the length error on a non-digit, and compares
      the rule's digit with `charVerification`. */
  function Verification(s: string, position: nat, charVerification: nat, err: Error): Outcome<Error>
    requires position <= |s|
  {
    match WeightedDigitSum(s[..position], CpfWeights(position))
    case None => Fail(InvalidCpfLength)
    case Some(status) => if CpfDigitRule(status) != charVerification then Fail(err) else Pass
  }

  /** What one verification step decides, stated with the reference check digit. */
  lemma VerificationMeaning(s: string, position: nat, charVerification: nat, err: Error)
    requires position <= |s|
    ensures Verification(s, position, charVerification, err)
         == if !AllDigits(s[..position]) then Fail(InvalidCpfLength)
            else if charVerification != CpfCheckDigit(s[..position]) then Fail(err)
            else Pass
  {
    if AllDigits(s[..position]) {
      WeightedDigitSumOfDigits(s[..position], CpfWeights(position));
      CpfRuleIsMod11(DigitSum(s[..position], CpfWeights(position)));
    }
  }

  function ValidateCpf(cpf: string): (r: Outcome<Error>)
    ensures |Normalize(cpf)| != CpfLength ==> r == Fail(InvalidCpfLength)
    ensures |Normalize(cpf)| == CpfLength && AllSameCharacter(Normalize(cpf)) ==> r == Fail(AllDigitsEqualCpf)
    ensures r.Fail? ==> r.error in {InvalidCpfLength, AllDigitsEqualCpf, FirstVerificationCpf, SecondVerificationCpf}
  {
    var s := Normalize(cpf);
    if |s| != CpfLength then Fail(InvalidCpfLength)
    else if AllSameCharacter(s) then Fail(AllDigitsEqualCpf)
    else
      // the Atoi errors of these two conversions are discarded
      var beforeLastValue := DigitOrZero(s[9]);
      var lastValue := DigitOrZero(s[10]);
      match Verification(s, 9, beforeLastValue, FirstVerificationCpf)
      case Fail(e) => Fail(e)
      case Pass => Verification(s, 10, lastValue, SecondVerificationCpf)
  }

  /** The normalised strings `ValidateCpf` accepts: eleven characters, not
      all equal, the first ten digits, the tenth the check digit of the
      first nine and the eleventh, read as 0 when it is a letter, the check
      digit of the first ten. */
  predicate CpfAccepted(s: string)
  {
    && |s| == CpfLength
    && !AllSameCharacter(s)
    && AllDigits(s[..10])
    && DigitValue(s[9]) == CpfCheckDigit(s[..9])
    && DigitOrZero(s[10]) == CpfCheckDigit(s[..10])
  }

  lemma ValidateCpfAcceptsExactly(cpf: string)
    ensures ValidateCpf(cpf) == Pass <==> CpfAccepted(Normalize(cpf))
  {
    var s := Normalize(cpf);
    if |s| == CpfLength && !AllSameCharacter(s) {
      VerificationMeaning(s, 9, DigitOrZero(s[9]), FirstVerificationCpf);
      VerificationMeaning(s, 10, DigitOrZero(s[10]), SecondVerificationCpf);
      assert s[..10][..9] == s[..9];
    }
  }

  /** Which error an eleven-character, not-all-equal input gets: a
      non-digit among the first nine (or a non-digit tenth character once
      the first check has passed on it as 0) is reported as the length
      error, then the first and second check digits are tried in order. */
  lemma ValidateCpfErrors(cpf: string, s: string)
    requires s == Normalize(cpf) && |s| == CpfLength && !AllSameCharacter(s)
    ensures !AllDigits(s[..9]) ==> ValidateCpf(cpf) == Fail(InvalidCpfLength)
    ensures AllDigits(s[..9]) && DigitOrZero(s[9]) != CpfCheckDigit(s[..9])
            ==> ValidateCpf(cpf) == Fail(FirstVerificationCpf)
    ensures AllDigits(s[..9]) && DigitOrZero(s[9]) == CpfCheckDigit(s[..9]) && !IsDigit(s[9])
            ==> ValidateCpf(cpf) == Fail(InvalidCpfLength)
    ensures AllDigits(s[..10]) && DigitValue(s[9]) == CpfCheckDigit(s[..9]) && DigitOrZero(s[10]) != CpfCheckDigit(s[..10])
            ==> ValidateCpf(cpf) == Fail(SecondVerificationCpf)
  {
    VerificationMeaning(s, 9, DigitOrZero(s[9]), FirstVerificationCpf);
    VerificationMeaning(s, 10, DigitOrZero(s[10]), SecondVerificationCpf);
    assert s[..10][..9] == s[..9];
    assert s[..10][9] == s[9];
  }

  /** Appends the two check digits to nine base digits. */
  function CompleteCpf(base: string): (cpf: string)
    requires |base| == 9 && AllDigits(base)
    ensures |cpf| == CpfLength && AllDigits(cpf) && cpf[..9] == base
  {
    var d1 := CpfCheckDigit(base);
    var d2 := CpfCheckDigit(base + [DigitChar(d1)]);
    base + [DigitChar(d1), DigitChar(d2)]
  }

  /** Every completed base that is not a repeated digit validates. */
  lemma CompletedCpfIsValid(base: string)
    requires |base| == 9 && AllDigits(base) && !AllSameCharacter(base)
    ensures ValidateCpf(CompleteCpf(base)) == Pass
  {
    var c1 := DigitChar(CpfCheckDigit(base));
    var c2 := DigitChar(CpfCheckDigit(base + [c1]));
    var cpf := CompleteCpf(base);
    assert cpf == base + [c1, c2];
    assert cpf[..9] == base;
    assert cpf[..10] == base + [c1];
    DigitsAreNormal(cpf);
    MixedPrefix(cpf, 9);
    assert CpfAccepted(cpf);
    ValidateCpfAcceptsExactly(cpf);
  }

  /** Every accepted all-digit CPF is the completion of its first nine digits. */
  lemma ValidCpfIsCompletion(cpf: string)
    requires ValidateCpf(cpf) == Pass && AllDigits(Normalize(cpf))
    ensures |Normalize(cpf)| == CpfLength
    ensures Normalize(cpf) == CompleteCpf(Normalize(cpf)[..9])
  {
    var s := Normalize(cpf);
    ValidateCpfAcceptsExactly(cpf);
    assert CpfAccepted(s);
    var c1 := DigitChar(CpfCheckDigit(s[..9]));
    var c2 := DigitChar(CpfCheckDigit(s[..10]));
    assert s[9] == c1 && s[10] == c2;
    assert s[..10] == s[..9] + [c1];
    assert s == s[..9] + [c1, c2];
  }

  /** A letter in the last position is compared as the digit 0. */
  lemma LetterInLastPositionReadAsZero(cpf: string, s: string)
    requires s == Normalize(cpf) && |s| == CpfLength && IsAsciiLetter(s[10])
    requires !AllSameCharacter(s) && !AllSameCharacter(s[..10] + "0")
    ensures ValidateCpf(cpf) == ValidateCpf(s[..10] + "0")
  {
    var t := s[..10] + "0";
    NormalizeIdentity(t);
    assert t[..10] == s[..10] && t[..9] == s[..9];
    assert t[9] == s[9] && DigitOrZero(t[10]) == 0 == DigitOrZero(s[10]);
    VerificationMeaning(s, 9, DigitOrZero(s[9]), FirstVerificationCpf);
    VerificationMeaning(s, 10, DigitOrZero(s[10]), SecondVerificationCpf);
    VerificationMeaning(t, 9, DigitOrZero(t[9]), FirstVerificationCpf);
    VerificationMeaning(t, 10, DigitOrZero(t[10]), SecondVerificationCpf);
  }

  /** Ten zeros followed by a letter pass: the all-equal test counts only
      ten zeros, the letter's `Atoi` error is dropped so it reads as 0, and
      both check digits of a zero sum are 0.  Eleven zeros, by contrast,
      are refused as all equal. */
  lemma ZerosThenLetterAccepted(letter: char)
    requires IsAsciiLetter(letter)
    ensures ValidateCpf(seq(10, _ => '0') + [letter]) == Pass
  {
    var s := seq(10, _ => '0') + [letter];
    ZerosThenLetter(10, letter);
    DigitSumOfZeros(s[..9], CpfWeights(9));
    DigitSumOfZeros(s[..10], CpfWeights(10));
    assert CpfAccepted(s);
    ValidateCpfAcceptsExactly(s);
  }
}
