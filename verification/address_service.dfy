/** `AddressService`: fail-fast validation of the seven required fields and
    the pipeline with a FATAL cache policy: a failing cache `Set` turns a
    successful `Save` (or lookup) into an error and the zero record. */
module AddressService {
  import opened Wrappers
  import opened Errors
  import opened Decimal
  import opened Whitespace
  import opened Orchestration

  datatype Address = Address(
    id: Int64,
    street: string,
    number: string,
    complement: string,
    neighborhood: string,
    zipCode: string,
    city: string,
    state: string,
    country: string)

  /** `domain.AddressDomain{}`. */
  const ZeroAddress := Address(0, "", "", "", "", "", "", "", "")

  function AddressId(a: Address): Int64
  {
    a.id
  }

  const AddressPolicy := Policy(CacheFailureFatal, KeyFromSaved)

  /** The required fields in the order they are checked, each with the
      error reported when it is blank.  `complement` is not among them. */
  function RequiredFields(a: Address): seq<(string, Error)>
  {
    [ (a.street, StreetIsRequired), (a.number, NumberIsRequired),
      (a.neighborhood, NeighborhoodIsRequired), (a.zipCode, ZipCodeIsRequired),
      (a.city, CityIsRequired), (a.state, StateIsRequired), (a.country, CountryIsRequired) ]
  }

  function ValidateAddress(a: Address): (r: Outcome<Error>)
    ensures r.Fail? ==> r.error in {StreetIsRequired, NumberIsRequired, NeighborhoodIsRequired,
                                    ZipCodeIsRequired, CityIsRequired, StateIsRequired, CountryIsRequired}
    ensures IsBlank(a.street) ==> r == Fail(StreetIsRequired)
  {
    if IsBlank(a.street) then Fail(StreetIsRequired)
    else if IsBlank(a.number) then Fail(NumberIsRequired)
    else if IsBlank(a.neighborhood) then Fail(NeighborhoodIsRequired)
    else if IsBlank(a.zipCode) then Fail(ZipCodeIsRequired)
    else if IsBlank(a.city) then Fail(CityIsRequired)
    else if IsBlank(a.state) then Fail(StateIsRequired)
    else if IsBlank(a.country) then Fail(CountryIsRequired)
    else Pass
  }

  /** Every missing-field error, in order: the aggregate report. */
  function BlankFieldErrors(fields: seq<(string, Error)>): (errs: seq<Error>)
    ensures |errs| <= |fields|
  {
    if |fields| == 0 then []
    else (if IsBlank(fields[0].0) then [fields[0].1] else []) + BlankFieldErrors(fields[1..])
  }

  lemma {:induction false} FirstBlankFieldError(fields: seq<(string, Error)>, k: nat)
    requires k < |fields| && IsBlank(fields[k].0)
    requires forall i :: 0 <= i < k ==> !IsBlank(fields[i].0)
    ensures |BlankFieldErrors(fields)| > 0 && BlankFieldErrors(fields)[0] == fields[k].1
  {
    if k > 0 {
      FirstBlankFieldError(fields[1..], k - 1);
    }
  }

  lemma {:induction false} NoBlankFieldErrors(fields: seq<(string, Error)>)
    ensures BlankFieldErrors(fields) == [] <==> forall i :: 0 <= i < |fields| ==> !IsBlank(fields[i].0)
  {
    if |fields| > 0 {
      NoBlankFieldErrors(fields[1..]);
      assert forall i :: 1 <= i < |fields| ==> fields[i] == fields[1..][i - 1];
    }
  }

  /** Fail-fast over an ordered field list: the error of the first blank field. */
  function FirstBlank(fields: seq<(string, Error)>): (r: Outcome<Error>)
  {
    if |fields| == 0 then Pass
    else if IsBlank(fields[0].0) then Fail(fields[0].1)
    else FirstBlank(fields[1..])
  }

  lemma {:induction false} FirstBlankIsHeadOfAggregate(fields: seq<(string, Error)>)
    ensures var errs := BlankFieldErrors(fields);
            FirstBlank(fields) == if errs == [] then Pass else Fail(errs[0])
  {
    if |fields| > 0 {
      FirstBlankIsHeadOfAggregate(fields[1..]);
    }
  }

  /** The chain of `if`s in `ValidateAddress` is the fail-fast walk over the
      required fields in order. */
  lemma ValidateAddressIsFirstBlank(a: Address)
    ensures ValidateAddress(a) == FirstBlank(RequiredFields(a))
  {
    var f6 := [(a.country, CountryIsRequired)];
    var f5 := [(a.state, StateIsRequired)] + f6;
    var f4 := [(a.city, CityIsRequired)] + f5;
    var f3 := [(a.zipCode, ZipCodeIsRequired)] + f4;
    var f2 := [(a.neighborhood, NeighborhoodIsRequired)] + f3;
    var f1 := [(a.number, NumberIsRequired)] + f2;
    var f0 := [(a.street, StreetIsRequired)] + f1;
    assert f0 == RequiredFields(a);
    assert f6[1..] == [];
    assert f0[1..] == f1 && f1[1..] == f2 && f2[1..] == f3 && f3[1..] == f4 && f4[1..] == f5 && f5[1..] == f6;
    assert FirstBlank(f6) == if IsBlank(a.country) then Fail(CountryIsRequired) else Pass;
    assert FirstBlank(f5) == if IsBlank(a.state) then Fail(StateIsRequired) else FirstBlank(f6);
    assert FirstBlank(f4) == if IsBlank(a.city) then Fail(CityIsRequired) else FirstBlank(f5);
    assert FirstBlank(f3) == if IsBlank(a.zipCode) then Fail(ZipCodeIsRequired) else FirstBlank(f4);
    assert FirstBlank(f2) == if IsBlank(a.neighborhood) then Fail(NeighborhoodIsRequired) else FirstBlank(f3);
    assert FirstBlank(f1) == if IsBlank(a.number) then Fail(NumberIsRequired) else FirstBlank(f2);
    assert FirstBlank(f0) == if IsBlank(a.street) then Fail(StreetIsRequired) else FirstBlank(f1);
  }

  /** The validator is fail-fast: it passes when no field is missing and
      otherwise reports only the first error of the aggregate list, never
      the list itself. */
  lemma ValidateAddressReportsFirstBlank(a: Address)
    ensures var errs := BlankFieldErrors(RequiredFields(a));
            ValidateAddress(a) == if errs == [] then Pass else Fail(errs[0])
  {
    ValidateAddressIsFirstBlank(a);
    FirstBlankIsHeadOfAggregate(RequiredFields(a));
  }

  /** Passing means that none of the seven required fields is blank. */
  lemma ValidateAddressPassIff(a: Address)
    ensures ValidateAddress(a) == Pass <==>
              !IsBlank(a.street) && !IsBlank(a.number) && !IsBlank(a.neighborhood) && !IsBlank(a.zipCode)
              && !IsBlank(a.city) && !IsBlank(a.state) && !IsBlank(a.country)
  {
  }

  /** The complement never affects validation. */
  lemma ComplementIgnored(a: Address, complement: string)
    ensures ValidateAddress(a.(complement := complement)) == ValidateAddress(a)
  {
  }

  /** A required field made only of white space is as missing as an empty one. */
  lemma WhitespaceStreetRejected(a: Address)
    requires forall i :: 0 <= i < |a.street| ==> Chars.IsSpace(a.street[i])
    ensures ValidateAddress(a) == Fail(StreetIsRequired)
  {
    BlankIffAllSpace(a.street);
  }

  function Create(address: Address, save: SaveOutcome<Address>, setResult: Option<Error>): (r: Created<Address>)
    ensures ValidateAddress(address).Fail? ==> r == Created(ZeroAddress, Some(ValidateAddress(address).error), [])
    ensures ValidateAddress(address).Pass? && save.SaveFailed? ==>
              r == Created(ZeroAddress, Some(save.error), [SaveCall(address)])
    // the cache error is fatal
    ensures ValidateAddress(address).Pass? && save.Saved? && setResult.Some? ==>
              r.record == ZeroAddress && r.error == setResult
    ensures ValidateAddress(address).Pass? && save.Saved? ==>
              r.trace == [SaveCall(address), SetCall(IdKey(save.record.id), save.record, CacheTtl)]
    ensures r.error.None? <==> ValidateAddress(address).Pass? && save.Saved? && setResult.None?
    ensures r.error.None? ==> r.record == save.record
  {
    Orchestration.Create(AddressPolicy, AddressId, ZeroAddress, ValidateAddress(address), address, save, setResult)
  }

  function GetById(id: Int64, lookup: Lookup<Address>, setResult: Option<Error>): (r: Found<Address>)
    ensures lookup.error.Some? ==> r == Found(ZeroAddress, lookup.found, lookup.error, [GetByIdCall(id)])
    ensures lookup.error.None? && !lookup.found ==> r == Found(ZeroAddress, false, None, [GetByIdCall(id)])
    // a found address whose cache refresh fails is reported as an error
    ensures lookup.error.None? && lookup.found && setResult.Some? ==>
              r.record == ZeroAddress && r.found && r.error == setResult
    ensures lookup.error.None? && lookup.found && setResult.None? ==>
              r.record == lookup.record && r.found && r.error.None?
    ensures lookup.error.None? && lookup.found ==>
              r.trace == [GetByIdCall(id), SetCall(IdKey(lookup.record.id), lookup.record, CacheTtl)]
  {
    Orchestration.GetById(AddressPolicy, AddressId, ZeroAddress, id, lookup, setResult)
  }
}
