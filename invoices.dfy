/**
 * The `Invoices` ledger: the invoice generateInvoice builds from a cart
 * and the GetUserInvoices filter.
 */
module Invoices {
  import opened Wrappers
  import opened CartLedger
  import opened Pricing

  datatype Customer = Customer(name: string, address: string, city: string, zip: string)

  /** A frozen, priced copy of one cart line. */
  datatype InvoiceLine = InvoiceLine(name: string, price: real, qty: int, amounts: Amounts, img: string)

  /** `invoiceNumber` is the `Date.now()` reading behind "INV-..."; `invoiceDate` the ISO date string. */
  datatype Invoice = Invoice(
    invoiceNumber: nat, invoiceDate: string, trn: string, customer: Customer,
    items: seq<InvoiceLine>, subtotal: real, totalDiscount: real, totalTax: real, grandTotal: real)

  const GUEST: string := "GUEST"

  /** `sessionStorage.getItem('loggedInTRN') || 'GUEST'`. */
  function InvoiceTrn(loggedInTRN: Option<string>): (t: string)
    ensures t != ""
    ensures t == GUEST || loggedInTRN == Some(t)
    ensures loggedInTRN.Some? && loggedInTRN.value != "" ==> t == loggedInTRN.value
  {
    if loggedInTRN.Some? && loggedInTRN.value != "" then loggedInTRN.value else GUEST
  }

  function PricedItem(line: CartLine): (item: InvoiceLine)
    ensures item.name == line.name && item.price == line.price && item.qty == line.qty && item.img == line.img
    ensures item.amounts == PriceLine(line.price, line.qty)
  {
    InvoiceLine(line.name, line.price, line.qty, LineAmounts(line), line.img)
  }

  function PricedItems(cart: seq<CartLine>): (items: seq<InvoiceLine>)
    ensures |items| == |cart|
    ensures forall i :: 0 <= i < |cart| ==> items[i] == PricedItem(cart[i])
  {
    seq(|cart|, i requires 0 <= i < |cart| => PricedItem(cart[i]))
  }

  /** The running sums over the lines stored in an invoice. */
  function ItemTotals(items: seq<InvoiceLine>): (t: Amounts)
    ensures items == [] ==> t == Zero
  {
    if items == [] then Zero
    else ItemTotals(items[..|items| - 1]).Plus(items[|items| - 1].amounts)
  }

  function Totals(inv: Invoice): Amounts {
    Amounts(inv.subtotal, inv.totalDiscount, inv.totalTax, inv.grandTotal)
  }

  /** Every line is priced by the formula, and the aggregate fields are the sums of the line fields. */
  ghost predicate SelfConsistent(inv: Invoice) {
    && (forall i :: 0 <= i < |inv.items| ==> inv.items[i].amounts == PriceLine(inv.items[i].price, inv.items[i].qty))
    && ItemTotals(inv.items) == Totals(inv)
  }

  lemma PricedItemsStep(cart: seq<CartLine>, i: nat)
    requires i < |cart|
    ensures PricedItems(cart[..i + 1]) == PricedItems(cart[..i]) + [PricedItem(cart[i])]
  {
  }

  lemma {:induction false} ItemTotalsOfPriced(cart: seq<CartLine>)
    ensures ItemTotals(PricedItems(cart)) == CartTotals(cart)
  {
    if cart != [] {
      var n := |cart| - 1;
      ItemTotalsOfPriced(cart[..n]);
      assert PricedItems(cart)[..n] == PricedItems(cart[..n]);
    }
  }

  /** The invoice generateInvoice builds from `cart`, before it is appended to the ledger. */
  function InvoiceFor(customer: Customer, cart: seq<CartLine>, loggedInTRN: Option<string>, number: nat, date: string): (inv: Invoice)
    ensures |inv.items| == |cart|
    ensures forall i :: 0 <= i < |cart| ==>
      && inv.items[i].name == cart[i].name && inv.items[i].price == cart[i].price
      && inv.items[i].qty == cart[i].qty && inv.items[i].img == cart[i].img
    ensures Totals(inv) == CartTotals(cart)
    ensures SelfConsistent(inv)
    ensures inv.trn == InvoiceTrn(loggedInTRN)
    ensures inv.customer == customer && inv.invoiceNumber == number && inv.invoiceDate == date
  {
    var items := PricedItems(cart);
    var t := CartTotals(cart);
    ItemTotalsOfPriced(cart);
    Invoice(number, date, InvoiceTrn(loggedInTRN), customer, items, t.subtotal, t.discount, t.tax, t.total)
  }

  /** An invoice's discount is 10% and its grand total 103.5% of its subtotal, and none is negative for non-negative prices. */
  lemma InvoiceTotalsFollowRates(customer: Customer, cart: seq<CartLine>, loggedInTRN: Option<string>, number: nat, date: string)
    ensures var inv := InvoiceFor(customer, cart, loggedInTRN, number, date);
      && inv.totalDiscount == inv.subtotal / 10.0
      && inv.totalTax == inv.subtotal * 27.0 / 200.0
      && inv.grandTotal == inv.subtotal * 207.0 / 200.0
    ensures (forall i :: 0 <= i < |cart| ==> cart[i].price >= 0.0 && cart[i].qty >= 0) ==>
      var inv := InvoiceFor(customer, cart, loggedInTRN, number, date);
      inv.subtotal >= 0.0 && inv.totalDiscount >= 0.0 && inv.totalTax >= 0.0 && inv.grandTotal >= 0.0
  {
    CartTotalsConsistent(cart);
    if forall i :: 0 <= i < |cart| ==> cart[i].price >= 0.0 && cart[i].qty >= 0 {
      CartTotalsNonNegative(cart);
    }
  }

  // ---------------- GetUserInvoices ----------------

  /** `allInvoices.filter(inv => inv.trn === trn)`. */
  function UserInvoices(ledger: seq<Invoice>, trn: string): (r: seq<Invoice>)
    ensures forall inv :: inv in r <==> inv in ledger && inv.trn == trn
    ensures |r| <= |ledger|
  {
    if ledger == [] then []
    else (if ledger[0].trn == trn then [ledger[0]] else []) + UserInvoices(ledger[1..], trn)
  }

  /** Appending an invoice adds it at the end of its owner's list and leaves every other list as it was. */
  lemma {:induction false} UserInvoicesAppend(ledger: seq<Invoice>, inv: Invoice, trn: string)
    ensures UserInvoices(ledger + [inv], trn) == UserInvoices(ledger, trn) + (if inv.trn == trn then [inv] else [])
  {
    if ledger == [] {
      assert [] + [inv] == [inv];
      assert [inv][1..] == [];
    } else {
      var rest, tail := ledger[1..], if inv.trn == trn then [inv] else [];
      var head := if ledger[0].trn == trn then [ledger[0]] else [];
      assert (ledger + [inv])[0] == ledger[0];
      assert (ledger + [inv])[1..] == rest + [inv];
      UserInvoicesAppend(rest, inv, trn);
      assert UserInvoices(ledger + [inv], trn) == head + (UserInvoices(rest, trn) + tail);
      assert UserInvoices(ledger, trn) == head + UserInvoices(rest, trn);
      assert head + (UserInvoices(rest, trn) + tail) == head + UserInvoices(rest, trn) + tail;
    }
  }

  /** Right after a checkout, the acting TRN's invoice list ends with the new invoice. */
  lemma CheckoutThenListed(ledger: seq<Invoice>, customer: Customer, cart: seq<CartLine>, loggedInTRN: Option<string>, number: nat, date: string)
    ensures var inv := InvoiceFor(customer, cart, loggedInTRN, number, date);
      var mine := UserInvoices(ledger + [inv], InvoiceTrn(loggedInTRN));
      mine != [] && mine[|mine| - 1] == inv && mine[..|mine| - 1] == UserInvoices(ledger, InvoiceTrn(loggedInTRN))
  {
    var inv := InvoiceFor(customer, cart, loggedInTRN, number, date);
    UserInvoicesAppend(ledger, inv, InvoiceTrn(loggedInTRN));
  }
}
