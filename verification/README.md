# petshop-api core in Dafny

This project models the application core of the petshop API:

- the document and contact validators of `application/utils/utils.go`
  (`RemoveNonAlphaNumericCharacters`, `ValidateCpf`, `ValidateCnpj`,
  `ValidateCodeAreaNumber`, `ValidatePhoneNumber`);
- the four entity services of `application/service` (address, phone,
  person, customer). The address, phone and person services validate the
  entity before saving it; the customer service runs no validation and only
  stamps `DateCreated`. Each `Create` saves through the database repository,
  serialises the saved record and writes it to the cache under `ID.<id>` for
  ten minutes. The phone service takes that identifier from the phone passed
  in (`application/service/phone.go:53`), the others from the saved record.
  Only the address, phone and person services have a `GetByID`; it reads
  from the repository and refreshes the cache under the stored record's
  identifier.

The model is pure. A validator is a function returning `Outcome<Error>`:
`Pass` stands for a nil error and `Fail(e)` for a returned error. The
repository and the cache are not modelled as code. What `Save`, `GetByID`
and `Set` answer is an input, and every service run returns the Go results
together with the trace of calls it made to them. One generic pipeline
(`Orchestration.Create`, `Orchestration.GetById`) is instantiated with each
service's policy:

| service  | validation          | cache `Set` failure                | cache key of `Create` |
|----------|---------------------|------------------------------------|-----------------------|
| address  | `ValidateAddress`   | returned, with the zero record     | saved identifier      |
| phone    | `ValidatePhone`     | logged and ignored                 | input identifier      |
| person   | `Validate`          | logged and ignored                 | saved identifier      |
| customer | none                | logged and ignored                 | saved identifier      |

Modules follow the source:

- `Chars`, `Wrappers` and `Errors`: character classes, result shapes and the error values with their exact messages.
- `Normalization`: `RemoveNonAlphaNumericCharacters`.
- `Whitespace`: `strings.TrimSpace`.
- `Decimal`: `strconv.FormatInt`.
- `CheckDigits`: the weighted sum and the modulo-11 rule shared by both documents.
- `Cpf` and `Cnpj`: the two document validators.
- `Contact`: the area-code and phone-number validators.
- `Orchestration`: the service pipeline.
- `Wiring`: the cache the services share in `main`.
- `AddressService`, `PhoneService`, `PersonService` and `CustomerService`: the four services.
- `TestVectors`: concrete cases from the repository's unit tests.

Where the code and the repository's unit tests disagree, the model follows the code:

- The unit test calls the normaliser `RemoveNonNumericCharacters`
  (`application/utils/utils_test.go:118-131`), but the code removes
  `[^a-zA-Z0-9]+` (`application/utils/utils.go:201-203`), so ASCII letters
  survive and count toward a document's length.
- A letter at one of the two check-digit positions reaches `strconv.Atoi`.
  Its error is discarded there, so the letter is compared as the digit 0
  (`Cpf.LetterInLastPositionReadAsZero`). A letter anywhere in the summed
  prefix makes the verification loop return the length error. The
  "incorrect character conversion" errors the unit tests expect do not
  exist in the code. One consequence: ten zeros followed by a letter
  ("000.000.000-0A") is an accepted CPF, and thirteen zeros followed by a
  letter an accepted CNPJ. The all-equal test counts only the zeros, the
  letter reads as 0, and a zero sum has check digit 0
  (`Cpf.ZerosThenLetterAccepted`, `Cnpj.ZerosThenLetterAccepted`). Eleven
  zeros are refused as all equal.
- `ValidateAddress` is fail-fast: it returns only the first missing field.
  The unit test that expects one aggregated message for an empty address
  describes other behaviour. The unit tests also expect the prefix
  "error to validate address: " on single-field errors
  (`application/service/address_test.go:87`), while the code returns the
  bare message constant (`application/service/address.go:92-110`). `AddressService.ValidateAddressReportsFirstBlank`
  relates the two: the returned error is the head of the aggregate list.
- The address service treats a failing cache `Set` as fatal in both `Create`
  and `GetByID`, and its unit tests expect exactly that. The other services
  log the failure and return the record.
- The phone service's `Create` builds the cache key from the identifier of
  the phone passed in, not from the one `Save` returned
  (`PhoneService.CreateKeyIgnoresSavedId`).
- `ValidatePhone` receives two values from `utils.ValidateCodeAreaNumber`,
  which returns a single `error`. The model uses that single error.
- The person service's `GetByID` uses the address service's key type and
  TTL constants (`application/service/person.go:70-71`), and the phone
  service's `GetByID` uses the address service's key type with its own TTL
  (`application/service/phone.go:70-72`). They have the same values ("ID"
  and ten minutes), so the behaviour is unaffected.
- Because the phone service's `Create` keys by the input identifier and its
  `GetByID` by the stored one, the two write the same phone under different
  keys unless the input already carried the stored identifier
  (`PhoneService.CreateThenGetByIdKeys`).
- `main` hands one Redis client to the customer, address and phone services
  (`cmd/petshop-api/main.go:44-82`), and every service uses the key type
  "ID". An address and a phone with the same identifier therefore share a
  cache entry and overwrite each other (`Wiring.SharedCacheKeys`).

## Model

| member | source | states |
|---|---|---|
| Chars.DigitOrZero | application/utils/utils.go:95-99 | a check-digit character reads as its digit value, and anything else as 0 because the `Atoi` error is dropped; the result is always below 10 |
| Normalization.Normalize | application/utils/utils.go:201-203 | the result is no longer than the input and holds only ASCII letters and digits |
| Normalization.NormalizeConcat | application/utils/utils.go:201-203 | normalisation distributes over concatenation, so characters are selected in order |
| Normalization.NormalizeSingle | application/utils/utils.go:201-203 | one character survives exactly when it is an ASCII letter or digit |
| Normalization.NormalizeCounts | application/utils/utils.go:201-203 | every letter and digit keeps its number of occurrences; every other character disappears |
| Normalization.NormalizeFixedPoint | application/utils/utils.go:201-203 | a string is unchanged by normalisation if and only if it is made of ASCII letters and digits |
| Normalization.NormalizeIdentity | application/utils/utils.go:201-203 | an all-alphanumeric string is its own normal form |
| Normalization.NothingSurvives | application/utils/utils.go:201-203 | punctuation alone normalises to the empty string |
| Normalization.NormalizeIdempotent | application/utils/utils.go:201-203 | normalising twice equals normalising once |
| Normalization.DigitsAreNormal | application/utils/utils.go:201-203 | a string of digits is already normalised |
| Whitespace.TrimLeftSpec | application/service/address.go:91 | left trimming removes a prefix made only of white space, and what remains is empty or starts with a non-space |
| Whitespace.TrimRightSpec | application/service/address.go:91 | right trimming removes a suffix made only of white space, and what remains is empty or ends with a non-space |
| Whitespace.TrimSpaceSpec | application/service/address.go:91 | `TrimSpace` yields the infix left after removing white space at both ends, and that infix neither starts nor ends with white space |
| Whitespace.BlankIffAllSpace | application/service/address.go:91-111 | a field counts as missing if and only if every character of it is white space |
| Decimal.FormatInt | application/service/address.go:60 | the rendering is non-empty; it starts with '-' exactly for negative numbers and is all digits otherwise |
| Decimal.DecimalRoundTrip | application/service/address.go:60 | reading back the decimal digits of a natural number gives the number |
| Decimal.FormatParseRoundTrip | application/service/address.go:60 | parsing the `FormatInt` rendering of any integer gives it back |
| Decimal.FormatIntInjective | application/service/address.go:60 | two integers render the same if and only if they are equal |
| CheckDigits.WeightedDigitSum | application/utils/utils.go:112-118 | the summing loop finishes with a sum exactly when every summed character is a digit; otherwise it takes the early error return |
| CheckDigits.WeightedDigitSumOfDigits | application/utils/utils.go:165-171 | on a digit string the loop computes the reference weighted sum |
| CheckDigits.CountIsLength | application/utils/utils.go:91 | the count of a character is at most the length, and equals it exactly when every position holds that character |
| CheckDigits.AllSameCharacterIff | application/utils/utils.go:152-154 | `strings.Count(s, s[0]) == len(s)` holds if and only if all characters are equal |
| Cpf.CpfRuleIsMod11 | application/utils/utils.go:120-124 | the CPF rule "(sum*10) mod 11, with 10 read as 0" equals the modulo-11 check digit: 0 for remainders 0 and 1, eleven minus the remainder otherwise |
| Cpf.VerificationMeaning | application/utils/utils.go:107-131 | one CPF verification step gives the length error on a non-digit in the prefix, the step's error when the digit differs from the reference check digit, and nil otherwise |
| Cpf.ValidateCpf | application/utils/utils.go:83-142 | a normalised length other than 11 gives the length error, 11 equal characters give the all-equal error, and every failure is one of the four CPF errors |
| Cpf.ValidateCpfAcceptsExactly | application/utils/utils.go:83-142 | a CPF is accepted if and only if its normal form has 11 characters, not all equal, with the first ten digits and both check digits correct |
| Cpf.ValidateCpfErrors | application/utils/utils.go:95-139 | for 11 mixed characters, the error is decided in order: non-digit prefix, first check digit, non-digit tenth character, second check digit |
| Cpf.CompleteCpf | application/utils/utils.go:83-142 | the completion of nine base digits is an 11-digit string that starts with the base |
| Cpf.CompletedCpfIsValid | application/utils/utils.go:83-142 | completing any nine digits that are not all equal yields an accepted CPF |
| Cpf.ValidCpfIsCompletion | application/utils/utils.go:83-142 | every accepted all-digit CPF is the completion of its first nine digits |
| Cpf.LetterInLastPositionReadAsZero | application/utils/utils.go:97-99 | a letter in the last position is judged as if it were the digit 0 |
| Cpf.ZerosThenLetterAccepted | application/utils/utils.go:91-99 | ten zeros followed by any ASCII letter are an accepted CPF |
| Cnpj.MultipliersAreCyclic | application/utils/utils.go:189-194 | the two multiplier vectors are the weights 2..9, repeating from the right |
| Cnpj.CnpjRuleIsMod11 | application/utils/utils.go:177-185 | the two guarded returns of the CNPJ rule accept exactly the modulo-11 check digit |
| Cnpj.VerificationMeaning | application/utils/utils.go:162-187 | one CNPJ verification step gives the length error on a non-digit in the prefix, the step's error on a wrong check digit, and nil otherwise |
| Cnpj.ValidateCnpj | application/utils/utils.go:144-199 | a normalised length other than 14 gives the length error, 14 equal characters give the all-equal error, and every failure is one of the four CNPJ errors |
| Cnpj.ValidateCnpjAcceptsExactly | application/utils/utils.go:144-199 | a CNPJ is accepted if and only if its normal form has 14 characters, not all equal, with the first 13 digits and both check digits correct |
| Cnpj.ValidateCnpjErrors | application/utils/utils.go:156-197 | for 14 mixed characters, the error is decided in order: non-digit prefix, first check digit, non-digit 13th character, second check digit |
| Cnpj.CompleteCnpj | application/utils/utils.go:144-199 | the completion of 12 base digits is a 14-digit string that starts with the base |
| Cnpj.RunCheckDigitDiffers | application/utils/utils.go:152-187 | twelve copies of a non-zero digit get a first check digit different from that digit |
| Cnpj.CompletedCnpjIsValid | application/utils/utils.go:144-199 | completing 12 digits yields an accepted CNPJ if and only if they are not all '0'; a run of any other digit completes to a mixed, accepted number |
| Cnpj.ValidCnpjIsCompletion | application/utils/utils.go:144-199 | every accepted all-digit CNPJ is the completion of its first 12 digits |
| Cnpj.ZerosThenLetterAccepted | application/utils/utils.go:152-160 | thirteen zeros followed by any ASCII letter are an accepted CNPJ |
| Contact.AreaCodeListShape | application/utils/utils.go:60-71 | the area-code list has 63 entries, each two digits, neither of them 0 |
| Contact.ValidateCodeAreaNumber | application/utils/utils.go:58-81 | it passes if and only if the normalised input is one of the 63 listed codes; the only error it returns is the area-code error |
| Contact.AcceptedAreaCodeShape | application/utils/utils.go:58-81 | any area code that is accepted normalises to two non-zero digits |
| Contact.AreaCodeIgnoresPunctuation | application/utils/utils.go:73-79 | a listed code surrounded by punctuation is accepted |
| Contact.LengthCheck | application/utils/utils.go:38-43 | the check passes exactly when the normalised number has the required length, and otherwise fails with the given error |
| Contact.ValidatePhoneNumber | application/utils/utils.go:33-56 | it passes if and only if a landline has 8 and a mobile 9 normalised characters; a failure is the length error of the declared type |
| Contact.UnknownPhoneTypeAccepted | application/utils/utils.go:45-55 | a phone type other than landline and mobile is never rejected |
| Orchestration.CacheKey | application/service/address.go:42-44 | the key is the key type, a dot, then the value |
| Orchestration.IdKeyRoundTrip | application/service/address.go:60 | the identifier can be read back from its cache key |
| Orchestration.IdKeyInjective | application/service/address.go:60 | two records share a cache key if and only if they share an identifier |
| Orchestration.Create | application/service/address.go:46-67 | a validation error stops before `Save`; a `Save` error is returned with nothing cached; success returns the saved record; calls are `Save` of the input and then at most one `Set` of the saved record with the ten-minute TTL; once validation and `Save` succeed the `Set` always happens, keyed by the input or the saved identifier as the policy says |
| Orchestration.GetById | application/service/address.go:69-88 | a repository error is returned with the repository's exists flag; absence is not an error; a found record is re-cached under its own identifier |
| Orchestration.CreatePoliciesDiffer | application/service/address.go:59-64 | the fatal and the lenient cache policies make the same calls, and give different answers only when `Set` fails after a successful `Save` |
| Orchestration.FatalCreateSuccessMeansCached | application/service/address.go:59-66 | under the fatal policy a successful `Create` means the returned record was written to the cache under its own key |
| Orchestration.CreateThenGetByIdKeys | application/service/phone.go:40-76 | a saved record is cached under the same key by `Create` and by a later `GetByID` if and only if the policy keys `Create` by the saved record or the input already had the saved identifier |
| Orchestration.LenientCreateIgnoresCache | application/service/person.go:51-56 | under the lenient policy a saved record is returned whatever the cache answers |
| AddressService.ValidateAddress | application/service/address.go:90-113 | every failure is one of the seven missing-field errors, and a blank street is always reported first |
| AddressService.BlankFieldErrors | application/service/address_test.go:127-134 | the aggregate list has at most one error per field |
| AddressService.FirstBlankFieldError | application/service/address_test.go:127-134 | the first entry of the aggregate list is the error of the first blank field |
| AddressService.NoBlankFieldErrors | application/service/address_test.go:127-134 | the aggregate list is empty if and only if no field is blank |
| AddressService.FirstBlankIsHeadOfAggregate | application/service/address.go:90-113 | fail-fast over a field list reports exactly the head of the aggregate list |
| AddressService.ValidateAddressIsFirstBlank | application/service/address.go:90-113 | the chain of checks is the fail-fast walk over street, number, neighborhood, zip code, city, state and country in that order |
| AddressService.ValidateAddressReportsFirstBlank | application/service/address.go:90-113 | the validator passes when the aggregate list is empty and otherwise reports only its first error |
| AddressService.ValidateAddressPassIff | application/service/address.go:90-113 | an address passes if and only if none of the seven required fields is blank |
| AddressService.ComplementIgnored | application/service/address.go:90-113 | the complement never affects validation |
| AddressService.WhitespaceStreetRejected | application/service/address.go:91-93 | a street made only of white space is reported as missing |
| AddressService.Create | application/service/address.go:46-67 | a cache failure after a successful `Save` returns the zero address and the cache error; success happens exactly when validation, `Save` and `Set` all succeed |
| AddressService.GetById | application/service/address.go:69-88 | a found address whose cache refresh fails is reported with exists true, the zero address and the cache error |
| PhoneService.ValidatePhone | application/service/phone.go:78-106 | an unlisted area code wins over every other error; with a listed code, an unknown type is rejected |
| PhoneService.ValidatePhoneAgreesWithUtility | application/service/phone.go:78-106 | the service validator accepts exactly what the utility length check accepts for the two known types, behind the area-code check |
| PhoneService.AcceptedPhoneShape | application/service/phone.go:78-106 | an accepted phone has an area code that normalises to one of the listed codes, two non-zero digits, a known type, and 8 (landline) or 9 (mobile) normalised characters |
| PhoneService.Create | application/service/phone.go:40-58 | a cache failure never changes the answer; the cache key uses the input phone's identifier |
| PhoneService.CreateKeyIgnoresSavedId | application/service/phone.go:53 | the cache key of `Create` does not depend on the identifier `Save` assigned |
| PhoneService.CreateThenGetByIdKeys | application/service/phone.go:52-53 | an accepted phone's `Create` key and the `GetByID` key of its stored record agree if and only if the input identifier equals the stored one |
| Wiring.SharedCacheKeys | cmd/petshop-api/main.go:44-82 | a found address and a found phone are refreshed under the same key of the shared cache if and only if their identifiers are equal |
| PhoneService.GetById | application/service/phone.go:60-76 | a found phone is returned and re-cached under its own identifier whatever the cache answers |
| PersonService.Validate | application/service/person.go:77-91 | "legal" is checked as a CNPJ, "individual" as a CPF, and any other kind gets the invalid-type error |
| PersonService.AcceptedPersonDocument | application/service/person.go:77-91 | an accepted person holds a well-formed document of the declared kind |
| PersonService.DocumentCheckedAgainstDeclaredKind | application/service/person.go:77-91 | a CNPJ-length document declared "individual" fails the CPF length check, and the reverse holds too |
| PersonService.Create | application/service/person.go:38-57 | success happens exactly when validation and `Save` succeed; the saved record is cached under its own identifier and a cache failure is ignored |
| PersonService.GetById | application/service/person.go:59-75 | a found person is returned whatever the cache answers |
| CustomerService.Create | application/service/customer.go:33-49 | the record saved is the input stamped with the current time; a cache failure is ignored |
| CustomerService.CreateIgnoresInputDate | application/service/customer.go:35 | the caller's creation date is discarded |
| TestVectors.NormalizeDots | application/utils/utils_test.go:124 | "1.2.3" normalises to "123" |
| TestVectors.LetterSurvives | application/utils/utils_test.go:125 | a letter inside a CNPJ survives normalisation |
| TestVectors.ShortDocumentVectors | application/utils/utils.go:84-89 | a three-digit input gets the CPF and the CNPJ length errors |
| TestVectors.ZerosAndLetterCpf | application/utils/utils.go:83-142 | "0000000000A" is an accepted CPF |
| TestVectors.ZerosAndLetterCnpj | application/utils/utils.go:144-199 | "0000000000000A" is an accepted CNPJ |
| TestVectors.ListedAreaCode | application/service/phone_test.go:56 | "32" is an accepted area code |
| TestVectors.ParenthesisedAreaCode | application/utils/utils.go:73-77 | "(96)" is accepted |
| TestVectors.UnlistedCode | application/utils/utils.go:58-81 | a digit string that appears in no region of the list is rejected with the area-code error |
| TestVectors.UnlistedAreaCode | application/service/phone_test.go:190 | "39" is rejected with the area-code error |
| TestVectors.UnlistedAreaCode29 | application/utils/utils.go:60-71 | "29" is rejected with the area-code error |
| TestVectors.UnlistedAreaCode67 | application/utils/utils.go:60-71 | "67", a real area code missing from the list, is rejected |
| TestVectors.UnlistedAreaCode47 | application/utils/utils.go:60-71 | "47", a real area code missing from the list, is rejected |
| TestVectors.UnlistedAreaCode48 | application/utils/utils.go:60-71 | "48", a real area code missing from the list, is rejected |
| TestVectors.UnlistedAreaCode49 | application/utils/utils.go:60-71 | "49", a real area code missing from the list, is rejected |
| TestVectors.ShortMobileNumber | application/utils/utils.go:50-53 | a four-digit mobile number gets the mobile length error |
| TestVectors.LandLineNumber | application/service/phone_test.go:107 | "3212-2222" is a valid landline number |
| TestVectors.PhoneWithCode32 | application/service/phone.go:78-106 | with the listed area code "32", a mobile or landline phone passes exactly when its normalised number has 9 or 8 characters, and otherwise gets the length error of its type |
| TestVectors.MobilePhoneAccepted | application/service/phone_test.go:52-81 | mobile "99999-9999" with area code "32" is accepted |
| TestVectors.LandLinePhoneAccepted | application/service/phone_test.go:104-133 | landline "3212-2222" with area code "32" is accepted |
| TestVectors.LongMobilePhoneRejected | application/service/phone_test.go:82-101 | mobile "33333399999-9999" gets the mobile length error |
| TestVectors.MobileNumber | application/service/phone_test.go:55 | "99999-9999" normalises to 9 characters |
| TestVectors.LandLineNumberLength | application/service/phone_test.go:107 | "3212-2222" normalises to 8 characters |
| TestVectors.LongMobileNumber | application/service/phone_test.go:85 | "33333399999-9999" normalises to 15 characters |
| TestVectors.UnlistedAreaCodeWins | application/service/phone_test.go:186-205 | a valid mobile number with area code "39" gets the area-code error |
| TestVectors.CacheKeyVectors | application/service/address.go:60 | identifiers 1, 0 and -42 are cached under "ID.1", "ID.0" and "ID.-42" |

## Left out

- The HTTP handlers, Kafka consumers, database and Redis adapters, configuration and program start-up are outside the core. The model's inputs stand in for what they return.
- The repository and cache ports and their mocks are left out. Their answers are parameters of each service call.
- The `cliente` service duplicates the customer service under another name and is not part of this model.
- The domain structs are left out beyond the fields the core reads.
- Logging is left out. It has no effect on results.
- `json.Marshal` is treated as deterministic and opaque. A `Set` call records the record it would serialise, not the bytes.
- `time.Now` is a parameter of `CustomerService.Create`.
- The `context` argument is left out.
- Contact.AreaCodeListShape: states the size and the shape of the list but not that its 63 codes are distinct.
- TestVectors: the concrete CPF and CNPJ check-digit cases of the unit tests (for example "12345678909") and the 14-character normalisation case are not restated as vectors. The general characterisations `Cpf.ValidateCpfAcceptsExactly`, `Cnpj.ValidateCnpjAcceptsExactly` and the completion lemmas decide them.
- The unit tests expect "incorrect character conversion" errors for CPF and CNPJ. No such constants exist in the code, and the model returns what the code returns.
- AddressService.ValidateAddress: the aggregated message a unit test expects for an empty address is not produced. The model follows the code, which stops at the first missing field. Nor is the "error to validate address: " prefix the unit tests expect on single-field errors (`application/service/address_test.go:87`): the code returns the bare constant.
- Errors.Message: the message table is given as data without a contract.
- Customer has no `GetByID` in the service code, so none is modelled.
