/** `ValidateCnpj`: the check of a legal-entity taxpayer number (CNPJ,
    fourteen digits, the last two modulo-11 check digits). */
module Cnpj {
  import opened Chars
  import opened Wrappers
  import opened Errors
  import opened Normalization
  import opened CheckDigits

  const CnpjLength: nat := 14

  /** `cnpjMultipliersFirst` and `cnpjMultipliersSecond`. */
  const FirstMultipliers: seq<nat> := [5, 4, 3, 2, 9, 8, 7, 6, 5, 4, 3, 2]
  const SecondMultipliers: seq<nat> := [6, 5, 4, 3, 2, 9, 8, 7, 6, 5, 4, 3, 2]

  /** Reference weights: counting from the rightmost summed position the
      weights run 2, 3, ..., 9 and then start again at 2. */
  function CyclicWeights(n: nat): (w: seq<nat>)
    ensures |w| == n
  {
    seq(n, i requires 0 <= i < n => 2 + (n - 1 - i) % 8)
  }

  /** The literal multiplier vectors are the cyclic 2..9 weights. */
  lemma MultipliersAreCyclic()
    ensures FirstMultipliers == CyclicWeights(12)
    ensures SecondMultipliers == CyclicWeights(13)
  {
  }

  /** The decision of the CNPJ `verification` closure once the sum is known. */
  predicate CnpjDigitAccepted(status: nat, charVerification: nat)
  {
    var check := status % 11;
    && !((check == 0 || check == 1) && charVerification != 0)
    && !((2 <= check <= 10) && charVerification != 11 - check)
  }

  /** The two guarded returns amount to comparing with the modulo-11 check digit. */
  lemma CnpjRuleIsMod11(status: nat, charVerification: nat)
    ensures CnpjDigitAccepted(status, charVerification) <==> charVerification == Mod11CheckDigit(status)
  {
  }

  /** Reference check digit of a prefix of digits. */
  function CnpjCheckDigit(prefix: string): (d: nat)
    requires AllDigits(prefix)
    ensures d < 10
  {
    Mod11CheckDigit(DigitSum(prefix, CyclicWeights(|prefix|)))
  }

  function Verification(s: string, multipliers: seq<nat>, charVerification: nat, err: Error): Outcome<Error>
    requires |multipliers| <= |s|
  {
    var position := |multipliers|;
    match WeightedDigitSum(s[..position], multipliers)
    case None => Fail(InvalidCnpjLength)
    case Some(status) => if CnpjDigitAccepted(status, charVerification) then Pass else Fail(err)
  }

  lemma VerificationMeaning(s: string, multipliers: seq<nat>, charVerification: nat, err: Error)
    requires |multipliers| <= |s|
    requires multipliers == CyclicWeights(|multipliers|)
    ensures Verification(s, multipliers, charVerification, err)
         == if !AllDigits(s[..|multipliers|]) then Fail(InvalidCnpjLength)
            else if charVerification != CnpjCheckDigit(s[..|multipliers|]) then Fail(err)
            else Pass
  {
    var prefix := s[..|multipliers|];
    if AllDigits(prefix) {
      WeightedDigitSumOfDigits(prefix, multipliers);
      CnpjRuleIsMod11(DigitSum(prefix, multipliers), charVerification);
    }
  }

  function ValidateCnpj(cnpj: string): (r: Outcome<Error>)
    ensures |Normalize(cnpj)| != CnpjLength ==> r == Fail(InvalidCnpjLength)
    ensures |Normalize(cnpj)| == CnpjLength && AllSameCharacter(Normalize(cnpj)) ==> r == Fail(AllDigitsEqualCnpj)
    ensures r.Fail? ==> r.error in {InvalidCnpjLength, AllDigitsEqualCnpj, FirstVerificationCnpj, SecondVerificationCnpj}
  {
    var s := Normalize(cnpj);
    if |s| != CnpjLength then Fail(InvalidCnpjLength)
    else if AllSameCharacter(s) then Fail(AllDigitsEqualCnpj)
    else
      // the Atoi errors of these two conversions are discarded
      var beforeLastValue := DigitOrZero(s[12]);
      var lastValue := DigitOrZero(s[13]);
      match Verification(s, FirstMultipliers, beforeLastValue, FirstVerificationCnpj)
      case Fail(e) => Fail(e)
      case Pass => Verification(s, SecondMultipliers, lastValue, SecondVerificationCnpj)
  }

  /** The normalised strings `ValidateCnpj` accepts. */
  predicate CnpjAccepted(s: string)
  {
    && |s| == CnpjLength
    && !AllSameCharacter(s)
    && AllDigits(s[..13])
    && DigitValue(s[12]) == CnpjCheckDigit(s[..12])
    && DigitOrZero(s[13]) == CnpjCheckDigit(s[..13])
  }

  lemma ValidateCnpjAcceptsExactly(cnpj: string)
    ensures ValidateCnpj(cnpj) == Pass <==> CnpjAccepted(Normalize(cnpj))
  {
    var s := Normalize(cnpj);
    if |s| == CnpjLength && !AllSameCharacter(s) {
      MultipliersAreCyclic();
      VerificationMeaning(s, FirstMultipliers, DigitOrZero(s[12]), FirstVerificationCnpj);
      VerificationMeaning(s, SecondMultipliers, DigitOrZero(s[13]), SecondVerificationCnpj);
      assert s[..13][..12] == s[..12];
    }
  }

  /** Which error a fourteen-character, not-all-equal input gets. */
  lemma ValidateCnpjErrors(cnpj: string, s: string)
    requires s == Normalize(cnpj) && |s| == CnpjLength && !AllSameCharacter(s)
    ensures !AllDigits(s[..12]) ==> ValidateCnpj(cnpj) == Fail(InvalidCnpjLength)
    ensures AllDigits(s[..12]) && DigitOrZero(s[12]) != CnpjCheckDigit(s[..12])
            ==> ValidateCnpj(cnpj) == Fail(FirstVerificationCnpj)
    ensures AllDigits(s[..12]) && DigitOrZero(s[12]) == CnpjCheckDigit(s[..12]) && !IsDigit(s[12])
            ==> ValidateCnpj(cnpj) == Fail(InvalidCnpjLength)
    ensures AllDigits(s[..13]) && DigitValue(s[12]) == CnpjCheckDigit(s[..12]) && DigitOrZero(s[13]) != CnpjCheckDigit(s[..13])
            ==> ValidateCnpj(cnpj) == Fail(SecondVerificationCnpj)
  {
    MultipliersAreCyclic();
    VerificationMeaning(s, FirstMultipliers, DigitOrZero(s[12]), FirstVerificationCnpj);
    VerificationMeaning(s, SecondMultipliers, DigitOrZero(s[13]), SecondVerificationCnpj);
    assert s[..13][..12] == s[..12];
    assert s[..13][12] == s[12];
  }

  /** Appends the two check digits to twelve base digits. */
  function CompleteCnpj(base: string): (cnpj: string)
    requires |base| == 12 && AllDigits(base)
    ensures |cnpj| == CnpjLength && AllDigits(cnpj) && cnpj[..12] == base
  {
    var d1 := CnpjCheckDigit(base);
    var d2 := CnpjCheckDigit(base + [DigitChar(d1)]);
    base + [DigitChar(d1), DigitChar(d2)]
  }

  /** The first-step weights total 58. */
  lemma FirstWeightTotal()
    ensures WeightTotal(CyclicWeights(12)) == 58
  {
    MultipliersAreCyclic();
    // the suffix totals, from the right
    assert WeightTotal(FirstMultipliers[11..]) == 2;
    assert WeightTotal(FirstMultipliers[10..]) == 5;
    assert WeightTotal(FirstMultipliers[9..]) == 9;
    assert WeightTotal(FirstMultipliers[8..]) == 14;
    assert WeightTotal(FirstMultipliers[7..]) == 20;
    assert WeightTotal(FirstMultipliers[6..]) == 27;
    assert WeightTotal(FirstMultipliers[5..]) == 35;
    assert WeightTotal(FirstMultipliers[4..]) == 44;
    assert WeightTotal(FirstMultipliers[3..]) == 46;
    assert WeightTotal(FirstMultipliers[2..]) == 49;
    assert WeightTotal(FirstMultipliers[1..]) == 53;
    assert WeightTotal(FirstMultipliers) == 58;
  }

  /** 58 * d is 3 * d modulo 11, and its check digit is never d itself for d in 1..9. */
  lemma RunDigitArithmetic(d: nat)
    requires 1 <= d <= 9
    ensures Mod11CheckDigit(58 * d) != d
  {
  }

  /** Twelve copies of one non-zero digit never have that digit as their
      first check digit. */
  lemma RunCheckDigitDiffers(base: string)
    requires |base| == 12 && IsDigit(base[0]) && base[0] != '0'
    requires forall i :: 0 <= i < 12 ==> base[i] == base[0]
    ensures AllDigits(base) && CnpjCheckDigit(base) != DigitValue(base[0])
  {
    DigitSumOfRun(base, CyclicWeights(12), base[0]);
    FirstWeightTotal();
    RunDigitArithmetic(DigitValue(base[0]));
  }

  /** The completion of twelve digits other than twelve '0's is not all equal. */
  lemma CompletionIsMixed(base: string)
    requires |base| == 12 && AllDigits(base) && base != seq(12, _ => '0')
    ensures !AllSameCharacter(CompleteCnpj(base))
  {
    var cnpj := CompleteCnpj(base);
    if AllSameCharacter(base) {
      AllSameCharacterIff(base);
      if base[0] == '0' {
        assert false;
      }
      RunCheckDigitDiffers(base);
      assert cnpj[12] == DigitChar(CnpjCheckDigit(base));
      assert cnpj[0] != cnpj[12];
      AllSameCharacterIff(cnpj);
    } else {
      MixedPrefix(cnpj, 12);
    }
  }

  /** Twelve '0's complete to fourteen '0's. */
  lemma ZeroCompletion()
    ensures CompleteCnpj(seq(12, _ => '0')) == seq(14, _ => '0')
  {
    var base: string := seq(12, _ => '0');
    DigitSumOfZeros(base, CyclicWeights(12));
    DigitSumOfZeros(base + ['0'], CyclicWeights(13));
  }

  /** Fourteen '0's are refused as all equal. */
  lemma ZeroRunRefused()
    ensures ValidateCnpj(seq(14, _ => '0')) == Fail(AllDigitsEqualCnpj)
  {
    var s: string := seq(14, _ => '0');
    DigitsAreNormal(s);
    AllSameCharacterIff(s);
  }

  /** A mixed completion satisfies the acceptance predicate. */
  lemma MixedCompletionAccepted(base: string)
    requires |base| == 12 && AllDigits(base) && base != seq(12, _ => '0')
    ensures ValidateCnpj(CompleteCnpj(base)) == Pass
  {
    var c1 := DigitChar(CnpjCheckDigit(base));
    var c2 := DigitChar(CnpjCheckDigit(base + [c1]));
    var cnpj := CompleteCnpj(base);
    assert cnpj == base + [c1, c2];
    assert cnpj[..12] == base;
    assert cnpj[..13] == base + [c1];
    DigitsAreNormal(cnpj);
    CompletionIsMixed(base);
    assert CnpjAccepted(cnpj);
    ValidateCnpjAcceptsExactly(cnpj);
  }

  /** Completing twelve digits yields an accepted CNPJ unless the digits are
      all '0': that completion is fourteen zeros, refused as all equal. A run
      of any other digit gets a different first check digit and passes. */
  lemma CompletedCnpjIsValid(base: string)
    requires |base| == 12 && AllDigits(base)
    ensures ValidateCnpj(CompleteCnpj(base)) == Pass <==> base != seq(12, _ => '0')
  {
    if base == seq(12, _ => '0') {
      ZeroCompletion();
      ZeroRunRefused();
    } else {
      MixedCompletionAccepted(base);
    }
  }

  lemma ValidCnpjIsCompletion(cnpj: string)
    requires ValidateCnpj(cnpj) == Pass && AllDigits(Normalize(cnpj))
    ensures |Normalize(cnpj)| == CnpjLength
    ensures Normalize(cnpj) == CompleteCnpj(Normalize(cnpj)[..12])
  {
    var s := Normalize(cnpj);
    ValidateCnpjAcceptsExactly(cnpj);
    assert CnpjAccepted(s);
    var c1 := DigitChar(CnpjCheckDigit(s[..12]));
    var c2 := DigitChar(CnpjCheckDigit(s[..13]));
    assert s[12] == c1 && s[13] == c2;
    assert s[..13] == s[..12] + [c1];
    assert s == s[..12] + [c1, c2];
  }

  /** Thirteen zeros followed by a letter pass, for the same reasons as in
      the CPF validator. */
  lemma ZerosThenLetterAccepted(letter: char)
    requires IsAsciiLetter(letter)
    ensures ValidateCnpj(seq(13, _ => '0') + [letter]) == Pass
  {
    var s := seq(13, _ => '0') + [letter];
    ZerosThenLetter(13, letter);
    DigitSumOfZeros(s[..12], CyclicWeights(12));
    DigitSumOfZeros(s[..13], CyclicWeights(13));
    assert CnpjAccepted(s);
    ValidateCnpjAcceptsExactly(s);
  }
}
