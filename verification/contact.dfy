/** `ValidateCodeAreaNumber` and `ValidatePhoneNumber`: the contact
    validators of the utility package. */
module Contact {
  import opened Chars
  import opened Wrappers
  import opened Errors
  import opened Normalization

  const LandLinePhone: string := "landline_phone"
  const MobilePhone: string := "mobile_phone"
  const LandLinePhoneLength: nat := 8
  const MobilePhoneLength: nat := 9

  /** The DDD whitelist, region by region, in the order of the source list. */
  const NorthRegion: seq<string> := ["68", "96", "92", "97", "91", "93", "94", "69", "95", "63"]
  const NortheastRegion: seq<string> :=
    ["82", "71", "73", "74", "75", "77", "85", "88", "98", "99", "83", "81", "87", "86", "89", "84", "79"]
  const MidwestRegion: seq<string> := ["61", "62", "64", "65", "66"]
  const SoutheastRegion: seq<string> :=
    ["27", "28", "31", "32", "33", "34", "35", "37", "38", "21", "22", "24",
     "11", "12", "13", "14", "15", "16", "17", "18", "19"]
  const SouthRegion: seq<string> := ["41", "42", "43", "44", "45", "46", "51", "53", "54", "55"]

  const AreaCodes: seq<string> := NorthRegion + NortheastRegion + MidwestRegion + SoutheastRegion + SouthRegion

  /** A well-formed DDD: two digits, neither of them zero. */
  predicate IsAreaCodeShape(code: string)
  {
    |code| == 2 && AllDigits(code) && code[0] != '0' && code[1] != '0'
  }

  predicate AllAreaCodeShaped(codes: seq<string>)
  {
    forall i :: 0 <= i < |codes| ==> IsAreaCodeShape(codes[i])
  }

  /** The whitelist has 63 entries, every one a two-digit code without a zero digit. */
  lemma AreaCodeListShape()
    ensures |AreaCodes| == 63
    ensures AllAreaCodeShaped(AreaCodes)
  {
    RegionsShaped();
    ShapedConcat(NorthRegion, NortheastRegion);
    ShapedConcat(NorthRegion + NortheastRegion, MidwestRegion);
    ShapedConcat(NorthRegion + NortheastRegion + MidwestRegion, SoutheastRegion);
    ShapedConcat(NorthRegion + NortheastRegion + MidwestRegion + SoutheastRegion, SouthRegion);
  }

  lemma RegionsShaped()
    ensures AllAreaCodeShaped(NorthRegion) && AllAreaCodeShaped(NortheastRegion)
    ensures AllAreaCodeShaped(MidwestRegion) && AllAreaCodeShaped(SoutheastRegion)
    ensures AllAreaCodeShaped(SouthRegion)
  {
    NorthShaped();
    NortheastShaped();
    MidwestShaped();
    SoutheastShaped();
    SouthShaped();
  }

  lemma NorthShaped() ensures AllAreaCodeShaped(NorthRegion) {}
  lemma NortheastShaped() ensures AllAreaCodeShaped(NortheastRegion) {}
  lemma MidwestShaped() ensures AllAreaCodeShaped(MidwestRegion) {}
  lemma SoutheastShaped() ensures AllAreaCodeShaped(SoutheastRegion) {}
  lemma SouthShaped() ensures AllAreaCodeShaped(SouthRegion) {}

  lemma ShapedConcat(a: seq<string>, b: seq<string>)
    requires AllAreaCodeShaped(a) && AllAreaCodeShaped(b)
    ensures AllAreaCodeShaped(a + b)
  {
    forall i | 0 <= i < |a + b|
      ensures IsAreaCodeShape((a + b)[i])
    {
      if i >= |a| {
        assert (a + b)[i] == b[i - |a|];
      }
    }
  }

  /** The loop over `dddList`, returning nil at the first entry equal to the
      normalised input and the area-code error when none is. */
  function ValidateCodeAreaNumber(areaCode: string): (r: Outcome<Error>)
    ensures r == Pass <==> Normalize(areaCode) in AreaCodes
    ensures r.Fail? ==> r.error == AreaCodeVerification
  {
    var clearAreaCode := Normalize(areaCode);
    if clearAreaCode in AreaCodes then Pass else Fail(AreaCodeVerification)
  }

  /** An accepted area code normalises to a two-digit code with no zero
      digit, so anything longer, shorter or containing a letter is refused. */
  lemma AcceptedAreaCodeShape(areaCode: string)
    ensures ValidateCodeAreaNumber(areaCode) == Pass ==> IsAreaCodeShape(Normalize(areaCode))
  {
    AreaCodeListShape();
  }

  /** Punctuation around a listed code does not matter: "(32)" is accepted
      because it normalises to "32", the code at some position `k` of the list. */
  lemma AreaCodeIgnoresPunctuation(prefix: string, k: nat, suffix: string)
    requires k < |AreaCodes|
    requires forall i :: 0 <= i < |prefix| ==> !IsAsciiAlphaNumeric(prefix[i])
    requires forall i :: 0 <= i < |suffix| ==> !IsAsciiAlphaNumeric(suffix[i])
    ensures ValidateCodeAreaNumber(prefix + AreaCodes[k] + suffix) == Pass
  {
    AreaCodeListShape();
    var code := AreaCodes[k];
    assert IsAreaCodeShape(code);
    NormalizeConcat(prefix + code, suffix);
    NormalizeConcat(prefix, code);
    NormalizeIdentity(code);
    NothingSurvives(prefix);
    NothingSurvives(suffix);
    assert Normalize(prefix) + Normalize(code) == code;
    assert Normalize(prefix + code + suffix) == code;
  }

  /** The length check applied by both phone validators. */
  function LengthCheck(clearPhone: string, phoneLen: nat, err: Error): (r: Outcome<Error>)
    ensures r == Pass <==> |clearPhone| == phoneLen
    ensures r.Fail? ==> r.error == err
  {
    if |clearPhone| != phoneLen then Fail(err) else Pass
  }

  /** `ValidatePhoneNumber`: the switch has no default branch, so a type
      other than the two known ones is accepted whatever the number. */
  function ValidatePhoneNumber(phoneType: string, phoneNumber: string): (r: Outcome<Error>)
    ensures r == Pass <==>
              (phoneType == LandLinePhone ==> |Normalize(phoneNumber)| == LandLinePhoneLength)
              && (phoneType == MobilePhone ==> |Normalize(phoneNumber)| == MobilePhoneLength)
    ensures r.Fail? ==> (phoneType == LandLinePhone && r.error == InvalidLandLinePhoneLength)
                        || (phoneType == MobilePhone && r.error == InvalidMobilePhoneLength)
  {
    var clearPhone := Normalize(phoneNumber);
    if phoneType == LandLinePhone then LengthCheck(clearPhone, LandLinePhoneLength, InvalidLandLinePhoneLength)
    else if phoneType == MobilePhone then LengthCheck(clearPhone, MobilePhoneLength, InvalidMobilePhoneLength)
    else Pass
  }

  /** An unknown phone type is never rejected. */
  lemma UnknownPhoneTypeAccepted(phoneType: string, phoneNumber: string)
    requires phoneType != LandLinePhone && phoneType != MobilePhone
    ensures ValidatePhoneNumber(phoneType, phoneNumber) == Pass
  {
  }
}
