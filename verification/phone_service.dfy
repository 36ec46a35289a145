/** `PhoneService`: area code first, then type and length; the pipeline
    swallows cache failures and keys the cache entry of `Create` by the
    identifier of the phone passed IN, not the one `Save` assigned. */
module PhoneService {
  import opened Wrappers
  import opened Errors
  import opened Decimal
  import opened Normalization
  import opened Contact
  import opened Orchestration

  datatype Phone = Phone(id: Int64, number: string, codeArea: string, phoneType: string)

  /** `domain.PhoneDomain{}`. */
  const ZeroPhone := Phone(0, "", "", "")

  function PhoneId(p: Phone): Int64
  {
    p.id
  }

  const PhonePolicy := Policy(CacheFailureSwallowed, KeyFromInput)

  function ValidatePhone(phone: Phone): (r: Outcome<Error>)
    // an invalid area code wins over any length or type error
    ensures ValidateCodeAreaNumber(phone.codeArea).Fail? ==> r == Fail(AreaCodeVerification)
    ensures && ValidateCodeAreaNumber(phone.codeArea).Pass?
            && phone.phoneType != LandLinePhone && phone.phoneType != MobilePhone
            ==> r == Fail(InvalidTypeOfPhone)
  {
    match ValidateCodeAreaNumber(phone.codeArea)
    case Fail(e) => Fail(e)
    case Pass =>
      var clearPhone := Normalize(phone.number);
      if phone.phoneType == LandLinePhone then LengthCheck(clearPhone, LandLinePhoneLength, InvalidLandLinePhoneLength)
      else if phone.phoneType == MobilePhone then LengthCheck(clearPhone, MobilePhoneLength, InvalidMobilePhoneLength)
      else Fail(InvalidTypeOfPhone)
  }

  /** The service validator is the utility's length check restricted to the
      two known phone types and guarded by the area-code whitelist: unlike
      `ValidatePhoneNumber`, an unknown type is refused. */
  lemma ValidatePhoneAgreesWithUtility(phone: Phone)
    ensures ValidatePhone(phone) == Pass <==>
              && ValidateCodeAreaNumber(phone.codeArea) == Pass
              && (phone.phoneType == LandLinePhone || phone.phoneType == MobilePhone)
              && ValidatePhoneNumber(phone.phoneType, phone.number) == Pass
    ensures ValidateCodeAreaNumber(phone.codeArea) == Pass
            && (phone.phoneType == LandLinePhone || phone.phoneType == MobilePhone)
            ==> ValidatePhone(phone) == ValidatePhoneNumber(phone.phoneType, phone.number)
  {
  }

  /** An accepted phone has a whitelisted two-digit area code and a
      normalised number of exactly 8 (landline) or 9 (mobile) characters. */
  lemma AcceptedPhoneShape(phone: Phone)
    ensures ValidatePhone(phone) == Pass ==>
              && Normalize(phone.codeArea) in AreaCodes
              && IsAreaCodeShape(Normalize(phone.codeArea))
              && (phone.phoneType == LandLinePhone ==> |Normalize(phone.number)| == 8)
              && (phone.phoneType == MobilePhone ==> |Normalize(phone.number)| == 9)
              && (phone.phoneType == LandLinePhone || phone.phoneType == MobilePhone)
  {
    AcceptedAreaCodeShape(phone.codeArea);
    if ValidatePhone(phone) == Pass {
      ValidatePhoneAgreesWithUtility(phone);
    }
  }

  function Create(phone: Phone, save: SaveOutcome<Phone>, setResult: Option<Error>): (r: Created<Phone>)
    ensures ValidatePhone(phone).Fail? ==> r == Created(ZeroPhone, Some(ValidatePhone(phone).error), [])
    ensures ValidatePhone(phone).Pass? && save.SaveFailed? ==>
              r == Created(ZeroPhone, Some(save.error), [SaveCall(phone)])
    // the cache outcome never changes the answer; the key is the INPUT identifier
    ensures ValidatePhone(phone).Pass? && save.Saved? ==>
              r.record == save.record && r.error.None?
              && r.trace == [SaveCall(phone), SetCall(IdKey(phone.id), save.record, CacheTtl)]
    ensures r.error.None? <==> ValidatePhone(phone).Pass? && save.Saved?
  {
    Orchestration.Create(PhonePolicy, PhoneId, ZeroPhone, ValidatePhone(phone), phone, save, setResult)
  }

  /** Because the key comes from the input, two phones created from inputs
      with the same identifier (a new phone usually carries 0) are cached
      under the same key even when `Save` assigned them different identifiers. */
  lemma CreateKeyIgnoresSavedId(phone: Phone, saved1: Phone, saved2: Phone, set1: Option<Error>, set2: Option<Error>)
    requires ValidatePhone(phone) == Pass
    ensures var r1 := Create(phone, Saved(saved1), set1);
            var r2 := Create(phone, Saved(saved2), set2);
            r1.trace[1].key == r2.trace[1].key == IdKey(phone.id)
  {
  }

  function GetById(id: Int64, lookup: Lookup<Phone>, setResult: Option<Error>): (r: Found<Phone>)
    ensures lookup.error.Some? ==> r == Found(ZeroPhone, lookup.found, lookup.error, [GetByIdCall(id)])
    ensures lookup.error.None? && !lookup.found ==> r == Found(ZeroPhone, false, None, [GetByIdCall(id)])
    // found: the record is returned whatever the cache does
    ensures lookup.error.None? && lookup.found ==>
              r.record == lookup.record && r.found && r.error.None?
              && r.trace == [GetByIdCall(id), SetCall(IdKey(lookup.record.id), lookup.record, CacheTtl)]
  {
    Orchestration.GetById(PhonePolicy, PhoneId, ZeroPhone, id, lookup, setResult)
  }

  /** `Create` and `GetById` cache the same stored phone under different keys
      unless the input already carried the identifier `Save` assigned: a new
      phone created with identifier 0 and stored as 5 is cached as "ID.0" and
      read back as "ID.5". */
  lemma CreateThenGetByIdKeys(phone: Phone, saved: Phone, createSet: Option<Error>, id: Int64, getSet: Option<Error>)
    ensures ValidatePhone(phone) == Pass ==>
              var c := Create(phone, Saved(saved), createSet);
              var g := GetById(id, Lookup(saved, true, None), getSet);
              c.trace[1].key == g.trace[1].key <==> phone.id == saved.id
  {
    Orchestration.CreateThenGetByIdKeys(PhonePolicy, PhoneId, ZeroPhone, phone, saved, createSet, id, getSet);
  }
}
