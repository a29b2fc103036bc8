/** Exceptions and the contact gateway as the orchestrators and the outbox
    worker see it: an object with `create_or_update_contact(contact)` that
    either returns the API's JSON answer or raises. */
module Gateway {
  import opened Wrappers
  import opened JsonValue
  import opened BrevoModels

  /** The exception classes the core distinguishes. `Transient` and `Fatal` are
      the two gateway error classes the worker catches by name; `Runtime` is
      `RuntimeError`; `Value` is `ValueError`; `Other` is any other exception
      (a network failure of `requests`, a database error). */
  datatype ErrorKind = Transient | Fatal | Runtime | Value | Other

  /** A raised exception: its class and `str(e)`. */
  datatype Failure = Failure(kind: ErrorKind, message: string)

  /** The contact API. `sent` records every contact passed to
      `create_or_update_contact`, in call order; `respond` is the oracle that
      gives the outcome of the n-th call. */
  class ContactGateway {
    var sent: seq<BrevoContact>
    const respond: (nat, BrevoContact) -> Result<Json, Failure>

    constructor (respond: (nat, BrevoContact) -> Result<Json, Failure>)
      ensures sent == [] && this.respond == respond
    {
      sent := [];
      this.respond := respond;
    }

    /** One call: the contact is recorded, then the oracle's outcome is returned. */
    method CreateOrUpdateContact(contact: BrevoContact) returns (r: Result<Json, Failure>)
      modifies this
      ensures sent == old(sent) + [contact]
      ensures r == respond(|old(sent)|, contact)
    {
      r := respond(|sent|, contact);
      sent := sent + [contact];
    }
  }
}
