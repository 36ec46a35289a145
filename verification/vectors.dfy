/** Concrete cases of the repository's unit tests, stated about the model. */
module TestVectors {
  import opened Chars
  import opened Wrappers
  import opened Errors
  import opened Normalization
  import opened Cpf
  import opened Cnpj
  import opened Contact
  import opened Orchestration
  import PhoneService

  lemma NormalizeDots()
    ensures Normalize("1.2.3") == "123"
  {
  }

  /** A letter is kept and counts toward the length. */
  lemma LetterSurvives()
    ensures Normalize("89C.662") == "89C662"
  {
  }

  /** Three digits are too short for either document. */
  lemma ShortDocumentVectors()
    ensures ValidateCpf("1.2.3") == Fail(InvalidCpfLength)
    ensures ValidateCnpj("1.2.3") == Fail(InvalidCnpjLength)
  {
    NormalizeDots();
  }

  /** "000.000.000-0A" normalises to this CPF, which is accepted. */
  lemma ZerosAndLetterCpf()
    ensures ValidateCpf("0000000000A") == Pass
  {
    assert "0000000000A" == seq(10, _ => '0') + ['A'];
    Cpf.ZerosThenLetterAccepted('A');
  }

  lemma ZerosAndLetterCnpj()
    ensures ValidateCnpj("0000000000000A") == Pass
  {
    assert "0000000000000A" == seq(13, _ => '0') + ['A'];
    Cnpj.ZerosThenLetterAccepted('A');
  }

  lemma ListedAreaCode()
    ensures ValidateCodeAreaNumber("32") == Pass
  {
    DigitsAreNormal("32");
    assert AreaCodes[35] == "32";
  }

  /** Parentheses around a listed code are stripped before the lookup. */
  lemma ParenthesisedAreaCode()
    ensures ValidateCodeAreaNumber("(96)") == Pass
  {
    assert AreaCodes[1] == "96";
    AreaCodeIgnoresPunctuation("(", 1, ")");
    assert "(" + "96" + ")" == "(96)";
  }

  /** A string of digits that is not in the list is refused. */
  lemma UnlistedCode(code: string)
    requires AllDigits(code)
    requires code !in NorthRegion && code !in NortheastRegion && code !in MidwestRegion
    requires code !in SoutheastRegion && code !in SouthRegion
    ensures ValidateCodeAreaNumber(code) == Fail(AreaCodeVerification)
  {
    DigitsAreNormal(code);
  }

  /** The code the phone tests use as invalid. */
  lemma UnlistedAreaCode()
    ensures ValidateCodeAreaNumber("39") == Fail(AreaCodeVerification)
  {
    assert "39" !in NorthRegion && "39" !in NortheastRegion && "39" !in MidwestRegion;
    assert "39" !in SoutheastRegion && "39" !in SouthRegion;
    UnlistedCode("39");
  }

  /** "29" is not a Brazilian area code. */
  lemma UnlistedAreaCode29()
    ensures ValidateCodeAreaNumber("29") == Fail(AreaCodeVerification)
  {
    assert "29" !in NorthRegion && "29" !in NortheastRegion && "29" !in MidwestRegion;
    assert "29" !in SoutheastRegion && "29" !in SouthRegion;
    UnlistedCode("29");
  }

  /** "67" (Mato Grosso do Sul) is missing from the list, so it is refused. */
  lemma UnlistedAreaCode67()
    ensures ValidateCodeAreaNumber("67") == Fail(AreaCodeVerification)
  {
    assert "67" !in NorthRegion && "67" !in NortheastRegion && "67" !in MidwestRegion;
    assert "67" !in SoutheastRegion && "67" !in SouthRegion;
    UnlistedCode("67");
  }

  /** "47", "48" and "49" (Santa Catarina) are missing from the list too. */
  lemma UnlistedAreaCode47()
    ensures ValidateCodeAreaNumber("47") == Fail(AreaCodeVerification)
  {
    assert "47" !in NorthRegion && "47" !in NortheastRegion && "47" !in MidwestRegion;
    assert "47" !in SoutheastRegion && "47" !in SouthRegion;
    UnlistedCode("47");
  }

  lemma UnlistedAreaCode48()
    ensures ValidateCodeAreaNumber("48") == Fail(AreaCodeVerification)
  {
    assert "48" !in NorthRegion && "48" !in NortheastRegion && "48" !in MidwestRegion;
    assert "48" !in SoutheastRegion && "48" !in SouthRegion;
    UnlistedCode("48");
  }

  lemma UnlistedAreaCode49()
    ensures ValidateCodeAreaNumber("49") == Fail(AreaCodeVerification)
  {
    assert "49" !in NorthRegion && "49" !in NortheastRegion && "49" !in MidwestRegion;
    assert "49" !in SoutheastRegion && "49" !in SouthRegion;
    UnlistedCode("49");
  }

  lemma ShortMobileNumber()
    ensures ValidatePhoneNumber(MobilePhone, "1234") == Fail(InvalidMobilePhoneLength)
  {
  }

  lemma LandLineNumber()
    ensures ValidatePhoneNumber(LandLinePhone, "3212-2222") == Pass
  {
  }

  /** Digits joined by a dash normalise to the digits alone. */
  lemma DashedDigits(a: string, b: string)
    requires AllDigits(a) && AllDigits(b)
    ensures Normalize(a + "-" + b) == a + b
  {
    NormalizeConcat(a + "-", b);
    NormalizeConcat(a, "-");
    NormalizeSingle('-');
    DigitsAreNormal(a);
    DigitsAreNormal(b);
    assert Normalize(a + "-") == a;
  }

  /** With the listed area code "32", a phone's verdict is decided by its
      type and normalised length alone, as in the phone service tests. */
  lemma PhoneWithCode32(number: string, phoneType: string)
    ensures var r := PhoneService.ValidatePhone(PhoneService.Phone(0, number, "32", phoneType));
            && (phoneType == MobilePhone ==>
                  r == if |Normalize(number)| == MobilePhoneLength then Pass else Fail(InvalidMobilePhoneLength))
            && (phoneType == LandLinePhone ==>
                  r == if |Normalize(number)| == LandLinePhoneLength then Pass else Fail(InvalidLandLinePhoneLength))
  {
    ListedAreaCode();
  }

  lemma MobilePhoneAccepted()
    ensures PhoneService.ValidatePhone(PhoneService.Phone(0, "99999-9999", "32", MobilePhone)) == Pass
  {
    MobileNumber();
    PhoneWithCode32("99999-9999", MobilePhone);
  }

  lemma MobileNumber()
    ensures |Normalize("99999-9999")| == 9
  {
    DashedDigits("99999", "9999");
    assert "99999" + "-" + "9999" == "99999-9999";
  }

  lemma LandLinePhoneAccepted()
    ensures PhoneService.ValidatePhone(PhoneService.Phone(0, "3212-2222", "32", LandLinePhone)) == Pass
  {
    LandLineNumberLength();
    PhoneWithCode32("3212-2222", LandLinePhone);
  }

  lemma LandLineNumberLength()
    ensures |Normalize("3212-2222")| == 8
  {
    DashedDigits("3212", "2222");
    assert "3212" + "-" + "2222" == "3212-2222";
  }

  lemma LongMobilePhoneRejected()
    ensures PhoneService.ValidatePhone(PhoneService.Phone(0, "33333399999-9999", "32", MobilePhone))
         == Fail(InvalidMobilePhoneLength)
  {
    LongMobileNumber();
    PhoneWithCode32("33333399999-9999", MobilePhone);
  }

  lemma LongMobileNumber()
    ensures |Normalize("33333399999-9999")| == 15
  {
    DashedDigits("33333399999", "9999");
    assert "33333399999" + "-" + "9999" == "33333399999-9999";
  }

  /** The area code is checked first, so a valid mobile number with an
      unlisted code gets the area-code error. */
  lemma UnlistedAreaCodeWins()
    ensures PhoneService.ValidatePhone(PhoneService.Phone(0, "99999-9999", "39", MobilePhone))
         == Fail(AreaCodeVerification)
  {
    UnlistedAreaCode();
  }

  lemma CacheKeyVectors()
    ensures IdKey(1) == "ID.1"
    ensures IdKey(0) == "ID.0"
    ensures IdKey(-42) == "ID.-42"
  {
  }
}
