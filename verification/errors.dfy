/** The closed set of error values the core can return.  Every constructor
    except `External` stands for one of the message constants of the Go
    source; `External` is an error produced by a collaborator (the
    database repository or the cache) that the core forwards verbatim. */
module Errors {

  datatype Error =
    // application/utils/utils.go: documents
    | InvalidCpfLength
    | AllDigitsEqualCpf
    | FirstVerificationCpf
    | SecondVerificationCpf
    | InvalidCnpjLength
    | AllDigitsEqualCnpj
    | FirstVerificationCnpj
    | SecondVerificationCnpj
    // application/utils/utils.go and application/service/phone.go: contacts
    | InvalidMobilePhoneLength
    | InvalidLandLinePhoneLength
    | AreaCodeVerification
    | InvalidTypeOfPhone
    // application/service/person.go
    | InvalidTypeOfDocument
    // application/service/address.go
    | StreetIsRequired
    | NumberIsRequired
    | NeighborhoodIsRequired
    | ZipCodeIsRequired
    | CityIsRequired
    | StateIsRequired
    | CountryIsRequired
    // anything a repository or cache returns
    | External(message: string)

  /** The text of the error as the Go code builds it. */
  function Message(e: Error): string
  {
    match e
    case InvalidCpfLength => "invalid CPF length error"
    case AllDigitsEqualCpf => "invalid CPF because all digits are equal"
    case FirstVerificationCpf => "error in the first verification of the CPF"
    case SecondVerificationCpf => "error in the second verification of the CPF"
    case InvalidCnpjLength => "invalid CNPJ length error"
    case AllDigitsEqualCnpj => "invalid CNPJ because all digits are equal"
    case FirstVerificationCnpj => "error in the first verification of the CNPJ"
    case SecondVerificationCnpj => "error in the second verification of the CNPJ"
    case InvalidMobilePhoneLength => "invalid Mobile Phone length error"
    case InvalidLandLinePhoneLength => "invalid Land Line Phone length error"
    case AreaCodeVerification => "invalid area code"
    case InvalidTypeOfPhone => "invalid type of phone"
    case InvalidTypeOfDocument => "invalid type of person"
    case StreetIsRequired => "street is required"
    case NumberIsRequired => "number is required"
    case NeighborhoodIsRequired => "neighborhood is required"
    case ZipCodeIsRequired => "zip code is required"
    case CityIsRequired => "city is required"
    case StateIsRequired => "state is required"
    case CountryIsRequired => "country is required"
    case External(m) => m
  }
}
