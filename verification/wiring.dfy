/** The services as `main` wires them: the address, phone and customer
    services share one Redis client, and every service tags its keys "ID". */
module Wiring {
  import opened Wrappers
  import opened Errors
  import opened Orchestration
  import AddressService
  import PhoneService

  /** An address and a phone read back with the same identifier are written
      to the shared cache under the same key, so each overwrites the other's
      entry; different identifiers never collide. */
  lemma SharedCacheKeys(address: AddressService.Address, addressSet: Option<Error>,
                        phone: PhoneService.Phone, phoneSet: Option<Error>)
    ensures var a := AddressService.GetById(address.id, Lookup(address, true, None), addressSet);
            var p := PhoneService.GetById(phone.id, Lookup(phone, true, None), phoneSet);
            a.trace[1].key == p.trace[1].key <==> address.id == phone.id
  {
    IdKeyInjective(address.id, phone.id);
  }
}
