/**
 * The two browser stores script.js works on. Every script function reads a
 * whole list from a key, changes it and writes it back; here each key is a
 * field and that read-modify-write is an assignment to the field.
 */
module Storage {
  import opened Wrappers
  import opened CartLedger
  import Catalog
  import Accounts
  import Invoices

  /** `localStorage`: durable across sessions. An absent key reads as the empty list. */
  class LocalStorage {
    var cart: seq<CartLine>
    var products: seq<Catalog.Product>
    var registrations: seq<Accounts.Account>
    var locked: seq<string>
    var invoices: seq<Invoices.Invoice>

    /** What the script's own writes keep true of the durable keys. */
    ghost predicate Valid()
      reads this
    {
      && WellFormed(cart)
      && Accounts.RegistryValid(registrations)
      && Accounts.Distinct(locked)
      && forall i :: 0 <= i < |invoices| ==> Invoices.SelfConsistent(invoices[i])
    }

    constructor ()
      ensures Valid()
      ensures cart == [] && products == [] && registrations == [] && locked == [] && invoices == []
    {
      cart, products, registrations, locked, invoices := [], [], [], [], [];
    }
  }

  /** `sessionStorage`: the `loginAttempts_<trn>` counters and `loggedInTRN`, cleared when the session ends. */
  class SessionStorage {
    var attempts: map<string, nat>
    var loggedInTRN: Option<string>

    function State(): Accounts.Session
      reads this
    {
      Accounts.Session(attempts, loggedInTRN)
    }

    constructor ()
      ensures attempts == map[] && loggedInTRN == None
    {
      attempts, loggedInTRN := map[], None;
    }
  }
}
