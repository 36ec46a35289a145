/** `CustomerService`: no validation; the creation time is stamped on the
    record, which is saved and then cached on a best-effort basis. */
module CustomerService {
  import opened Wrappers
  import opened Errors
  import opened Decimal
  import opened Orchestration

  /** A `time.Time` value, abstracted to an instant on a clock. */
  datatype Timestamp = Timestamp(ticks: int)

  /** The zero `time.Time`. */
  const ZeroTime := Timestamp(0)

  datatype Customer = Customer(
    id: Int64,
    name: string,
    document: string,
    personType: string,
    addressId: Int64,
    contractId: Int64,
    email: string,
    dateCreated: Timestamp)

  /** `domain.CustomerDomain{}`. */
  const ZeroCustomer := Customer(0, "", "", "", 0, 0, "", ZeroTime)

  function CustomerId(c: Customer): Int64
  {
    c.id
  }

  const CustomerPolicy := Policy(CacheFailureSwallowed, KeyFromSaved)

  /** `now` is the value `time.Now()` returned during the call. */
  function Create(customer: Customer, now: Timestamp, save: SaveOutcome<Customer>, setResult: Option<Error>)
    : (r: Created<Customer>)
    // the only change made before Save is the creation time
    ensures |r.trace| >= 1 && r.trace[0] == SaveCall(customer.(dateCreated := now))
    ensures save.SaveFailed? ==> r == Created(ZeroCustomer, Some(save.error), [SaveCall(customer.(dateCreated := now))])
    // the cache outcome never changes the answer
    ensures save.Saved? ==>
              r.record == save.record && r.error.None?
              && r.trace == [SaveCall(customer.(dateCreated := now)),
                             SetCall(IdKey(save.record.id), save.record, CacheTtl)]
  {
    var stamped := customer.(dateCreated := now);
    Orchestration.Create(CustomerPolicy, CustomerId, ZeroCustomer, Pass, stamped, save, setResult)
  }

  /** Whatever the caller put in `dateCreated` is discarded: two inputs that
      differ only there are saved identically. */
  lemma CreateIgnoresInputDate(customer: Customer, other: Timestamp, now: Timestamp,
                               save: SaveOutcome<Customer>, setResult: Option<Error>)
    ensures Create(customer, now, save, setResult) == Create(customer.(dateCreated := other), now, save, setResult)
  {
  }
}
