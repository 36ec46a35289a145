/** `PersonService`: the document is checked against the kind the person
    declares (CNPJ for "legal", CPF for "individual"); the pipeline
    swallows cache failures and keys by the saved identifier. */
module PersonService {
  import opened Wrappers
  import opened Errors
  import opened Decimal
  import opened Normalization
  import opened Cpf
  import opened Cnpj
  import opened Orchestration

  const TypePersonLegal: string := "legal"
  const TypePersonIndividual: string := "individual"

  datatype Person = Person(id: Int64, document: string, personType: string)

  /** `domain.PersonDomain{}`. */
  const ZeroPerson := Person(0, "", "")

  function PersonId(p: Person): Int64
  {
    p.id
  }

  const PersonPolicy := Policy(CacheFailureSwallowed, KeyFromSaved)

  function Validate(person: Person): (r: Outcome<Error>)
    ensures person.personType == TypePersonLegal ==> r == ValidateCnpj(person.document)
    ensures person.personType == TypePersonIndividual ==> r == ValidateCpf(person.document)
    ensures person.personType != TypePersonLegal && person.personType != TypePersonIndividual
            ==> r == Fail(InvalidTypeOfDocument)
  {
    if person.personType == TypePersonLegal then ValidateCnpj(person.document)
    else if person.personType == TypePersonIndividual then ValidateCpf(person.document)
    else Fail(InvalidTypeOfDocument)
  }

  /** An accepted person carries a well-formed document of the kind it declares. */
  lemma AcceptedPersonDocument(person: Person)
    ensures Validate(person) == Pass ==>
              && (person.personType == TypePersonLegal ==> CnpjAccepted(Normalize(person.document)))
              && (person.personType == TypePersonIndividual ==> CpfAccepted(Normalize(person.document)))
              && (person.personType == TypePersonLegal || person.personType == TypePersonIndividual)
  {
    if person.personType == TypePersonLegal {
      ValidateCnpjAcceptsExactly(person.document);
    } else if person.personType == TypePersonIndividual {
      ValidateCpfAcceptsExactly(person.document);
    }
  }


  /** A document is never checked against the other kind: a CNPJ-length
      document declared "individual" fails with the CPF length error, and a
      CPF-length document declared "legal" with the CNPJ one. */
  lemma DocumentCheckedAgainstDeclaredKind(person: Person)
    ensures person.personType == TypePersonIndividual && |Normalize(person.document)| == CnpjLength
            ==> Validate(person) == Fail(InvalidCpfLength)
    ensures person.personType == TypePersonLegal && |Normalize(person.document)| == CpfLength
            ==> Validate(person) == Fail(InvalidCnpjLength)
  {
  }

  function Create(person: Person, save: SaveOutcome<Person>, setResult: Option<Error>): (r: Created<Person>)
    ensures Validate(person).Fail? ==> r == Created(ZeroPerson, Some(Validate(person).error), [])
    ensures Validate(person).Pass? && save.SaveFailed? ==>
              r == Created(ZeroPerson, Some(save.error), [SaveCall(person)])
    // the cache outcome never changes the answer
    ensures Validate(person).Pass? && save.Saved? ==>
              r.record == save.record && r.error.None?
              && r.trace == [SaveCall(person), SetCall(IdKey(save.record.id), save.record, CacheTtl)]
    ensures r.error.None? <==> Validate(person).Pass? && save.Saved?
  {
    Orchestration.Create(PersonPolicy, PersonId, ZeroPerson, Validate(person), person, save, setResult)
  }

  function GetById(id: Int64, lookup: Lookup<Person>, setResult: Option<Error>): (r: Found<Person>)
    ensures lookup.error.Some? ==> r == Found(ZeroPerson, lookup.found, lookup.error, [GetByIdCall(id)])
    ensures lookup.error.None? && !lookup.found ==> r == Found(ZeroPerson, false, None, [GetByIdCall(id)])
    ensures lookup.error.None? && lookup.found ==>
              r.record == lookup.record && r.found && r.error.None?
              && r.trace == [GetByIdCall(id), SetCall(IdKey(lookup.record.id), lookup.record, CacheTtl)]
  {
    Orchestration.GetById(PersonPolicy, PersonId, ZeroPerson, id, lookup, setResult)
  }
}
