/**
 * The stateful functions of script.js, as methods over the two browser
 * stores. Each one's new state is tied to the pure definition in its
 * component module, and each keeps `LocalStorage.Valid`.
 */
module Script {
  import opened Wrappers
  import opened CartLedger
  import opened Pricing
  import Catalog
  import opened Accounts
  import opened Invoices
  import opened Dashboard
  import opened Storage

  // ---------------- cart ----------------

  /** addToCart: find the line by name, then raise its quantity or push a new line. */
  method AddToCart(ls: LocalStorage, name: string, price: real, img: string)
    modifies ls`cart
    ensures ls.cart == Added(old(ls.cart), name, price, img)
    ensures old(ls.Valid()) ==> ls.Valid()
  {
    var cart := ls.cart;
    var i := 0;
    while i < |cart| && cart[i].name != name
      invariant 0 <= i <= |cart|
      invariant forall j :: 0 <= j < i ==> cart[j].name != name
    {
      i := i + 1;
    }
    if i < |cart| {
      AddedMerges(cart, name, price, img, i);
      cart := cart[i := cart[i].(qty := cart[i].qty + 1)];
    } else {
      AddedAppends(cart, name, price, img);
      cart := cart + [NewLine(name, price, img)];
    }
    if ls.Valid() {
      AddToCartKeepsWellFormed(ls.cart, name, price, img);
    }
    ls.cart := cart;
  }

  /** updateQty: the line at `index` gets the clamped quantity. */
  method UpdateQty(ls: LocalStorage, index: nat, parsed: Option<int>)
    requires index < |ls.cart|
    modifies ls`cart
    ensures ls.cart == WithQty(old(ls.cart), index, parsed)
    ensures old(ls.Valid()) ==> ls.Valid()
  {
    var cart := ls.cart;
    cart := cart[index := cart[index].(qty := ClampQty(parsed))];
    ls.cart := cart;
  }

  /** removeItem: `cart.splice(index, 1)`. */
  method RemoveItem(ls: LocalStorage, index: int)
    modifies ls`cart
    ensures ls.cart == Spliced(old(ls.cart), index)
    ensures old(ls.Valid()) ==> ls.Valid()
  {
    var cart := ls.cart;
    var start := SpliceStart(|cart|, index);
    if start < |cart| {
      RemoveItemRemovesOne(cart, start);
      cart := cart[..start] + cart[start + 1..];
    }
    ls.cart := cart;
  }

  /** The clear button on the checkout page: `localStorage.removeItem('cart')`. */
  method ClearCart(ls: LocalStorage)
    modifies ls`cart
    ensures ls.cart == []
    ensures old(ls.Valid()) ==> ls.Valid()
  {
    ls.cart := [];
  }

  /** ensureProducts: seed the catalog when it is empty. */
  method EnsureProducts(ls: LocalStorage)
    modifies ls`products
    ensures ls.products == Catalog.EnsuredProducts(old(ls.products))
    ensures old(ls.Valid()) ==> ls.Valid()
  {
    if |ls.products| == 0 {
      ls.products := Catalog.SampleProducts();
    }
  }

  // ---------------- accounts ----------------

  /** registerUser: the six checks in order, then one push. `age` is calculateAge(dob); `now` the registration date. */
  method RegisterUser(ls: LocalStorage, form: RegistrationForm, age: int, now: string) returns (error: Option<RegisterError>)
    modifies ls`registrations
    ensures error == RegistrationCheck(form, age, old(ls.registrations))
    ensures ls.registrations == if error.None? then old(ls.registrations) + [NewAccount(form, now)] else old(ls.registrations)
    ensures old(ls.Valid()) ==> ls.Valid()
  {
    if !AllFilled(form) { return Some(MissingField); }
    if |form.password| < MIN_PASSWORD_LENGTH { return Some(PasswordTooShort); }
    if form.password != form.confirmPassword { return Some(PasswordMismatch); }
    if !IsTrn(form.trn) { return Some(BadTrnFormat); }
    if age < MIN_AGE { return Some(Underage); }
    var regs := ls.registrations;
    if TrnRegistered(regs, form.trn) { return Some(TrnTaken); }
    if ls.Valid() {
      RegisterKeepsRegistryValid(regs, form, age, now);
    }
    regs := regs + [NewAccount(form, now)];
    ls.registrations := regs;
    error := None;
  }

  /** attemptLogin: refuse a locked TRN, count a failure and lock at three, or log in and drop the counter. */
  method AttemptLogin(ls: LocalStorage, ss: SessionStorage, trn: string, password: string) returns (outcome: LoginOutcome)
    modifies ls`locked, ss
    ensures LoginStep(outcome, ls.locked, ss.State()) == Login(old(ls.registrations), old(ls.locked), old(ss.State()), trn, password)
    ensures old(ls.Valid()) ==> ls.Valid()
  {
    if trn == "" || password == "" { return MissingInput; }
    if trn in ls.locked { return AccountLocked; }
    var found := HasCredentials(ls.registrations, trn, password);
    var attempts := if trn in ss.attempts then ss.attempts[trn] else 0;
    if !found {
      attempts := attempts + 1;
      ss.attempts := ss.attempts[trn := attempts];
      if attempts >= MAX_ATTEMPTS {
        if ls.Valid() {
          LoginKeepsLockedDistinct(ls.registrations, ls.locked, old(ss.State()), trn, password);
        }
        ls.locked := ls.locked + [trn];
        return LockedOut;
      }
      return InvalidCredentials(attempts);
    }
    ss.loggedInTRN := Some(trn);
    ss.attempts := ss.attempts - {trn};
    outcome := Welcome;
  }

  /** resetPasswordPrompt, with the three prompt answers given. */
  method ResetPasswordPrompt(ls: LocalStorage, trnAnswer: Option<string>, dobAnswer: Option<string>, passAnswer: Option<string>)
    returns (outcome: ResetOutcome)
    modifies ls`registrations, ls`locked
    ensures ResetStep(outcome, ls.registrations, ls.locked) == Reset(old(ls.registrations), old(ls.locked), trnAnswer, dobAnswer, passAnswer)
    ensures old(ls.Valid()) ==> ls.Valid()
  {
    if ls.Valid() {
      ResetKeepsInvariants(ls.registrations, ls.locked, trnAnswer, dobAnswer, passAnswer);
    }
    if !Answered(trnAnswer) { return Cancelled; }
    var trn := trnAnswer.value;
    if !IsTrn(trn) { return BadTrn; }
    var regs := ls.registrations;
    var idx := IndexOfTrn(regs, trn);
    if idx.None? { return TrnNotFound; }
    if !Answered(dobAnswer) { return Cancelled; }
    if regs[idx.value].dob != dobAnswer.value { return DobMismatch; }
    if !Answered(passAnswer) || |passAnswer.value| < MIN_PASSWORD_LENGTH { return NewPasswordTooShort; }
    regs := regs[idx.value := regs[idx.value].(password := passAnswer.value)];
    ls.registrations := regs;
    ls.locked := Unlocked(ls.locked, trn);
    outcome := PasswordReset;
  }

  // ---------------- invoices ----------------

  /** generateInvoice: price every line while keeping the four running sums, then append the invoice. */
  method GenerateInvoice(ls: LocalStorage, ss: SessionStorage, customer: Customer, cart: seq<CartLine>, number: nat, date: string)
    returns (inv: Invoice)
    modifies ls`invoices
    ensures inv == InvoiceFor(customer, cart, ss.loggedInTRN, number, date)
    ensures ls.invoices == old(ls.invoices) + [inv]
    ensures old(ls.Valid()) ==> ls.Valid()
  {
    var trn := InvoiceTrn(ss.loggedInTRN);
    var subtotalSum, discountSum, taxSum, totalSum := 0.0, 0.0, 0.0, 0.0;
    var items: seq<InvoiceLine> := [];
    var i := 0;
    while i < |cart|
      invariant 0 <= i <= |cart|
      invariant items == PricedItems(cart[..i])
      invariant Amounts(subtotalSum, discountSum, taxSum, totalSum) == CartTotals(cart[..i])
      invariant ls.invoices == old(ls.invoices)
    {
      var item := cart[i];
      var line := PriceLine(item.price, item.qty);
      CartTotalsStep(cart, i);
      PricedItemsStep(cart, i);
      subtotalSum := subtotalSum + line.subtotal;
      discountSum := discountSum + line.discount;
      taxSum := taxSum + line.tax;
      totalSum := totalSum + line.total;
      items := items + [InvoiceLine(item.name, item.price, item.qty, line, item.img)];
      i := i + 1;
    }
    assert cart[..|cart|] == cart;
    assert items == PricedItems(cart);
    assert Amounts(subtotalSum, discountSum, taxSum, totalSum) == CartTotals(cart);
    inv := Invoice(number, date, trn, customer, items, subtotalSum, discountSum, taxSum, totalSum);
    assert inv == InvoiceFor(customer, cart, ss.loggedInTRN, number, date);
    ls.invoices := ls.invoices + [inv];
  }

  /** The checkout form's submit handler: every field filled, then one invoice from the stored cart, then the cart cleared. */
  method SubmitCheckout(ls: LocalStorage, ss: SessionStorage, name: string, address: string, city: string, zip: string, amount: string, number: nat, date: string)
    returns (placed: bool)
    modifies ls`invoices, ls`cart
    ensures placed <==> name != "" && address != "" && city != "" && zip != "" && amount != ""
    ensures placed ==>
      && ls.invoices == old(ls.invoices) + [InvoiceFor(Customer(name, address, city, zip), old(ls.cart), ss.loggedInTRN, number, date)]
      && ls.cart == []
    ensures !placed ==> ls.invoices == old(ls.invoices) && ls.cart == old(ls.cart)
    ensures old(ls.Valid()) ==> ls.Valid()
  {
    if name == "" || address == "" || city == "" || zip == "" || amount == "" {
      return false;
    }
    var cart := ls.cart;
    var customer := Customer(name, address, city, zip);
    var _ := GenerateInvoice(ls, ss, customer, cart, number, date);
    ls.cart := [];
    placed := true;
  }

  // ---------------- dashboard ----------------

  /** displayGenderChart's counting: None when there are no users, else one count per charted gender. */
  method DisplayGenderChart(ls: LocalStorage) returns (chart: Option<GenderCounts>)
    ensures chart.None? <==> ls.registrations == []
    ensures chart.Some? ==> chart.value == GenderCountsOf(ls.registrations)
  {
    var users := ls.registrations;
    if |users| == 0 { return None; }
    var male, female, other := 0, 0, 0;
    var i := 0;
    while i < |users|
      invariant 0 <= i <= |users|
      invariant GenderCounts(male, female, other) == GenderCountsOf(users[..i])
    {
      var g := users[i].gender;
      if g == "Male" { male := male + 1; }
      else if g == "Female" { female := female + 1; }
      else if g == "Other" { other := other + 1; }
      assert users[..i + 1][..i] == users[..i];
      i := i + 1;
    }
    assert users[..|users|] == users;
    chart := Some(GenderCounts(male, female, other));
  }

  /** displayAgeChart's counting: None when there are no users, else one count per age group. */
  method DisplayAgeChart(ls: LocalStorage, calculateAge: string -> int) returns (chart: Option<AgeCounts>)
    ensures chart.None? <==> ls.registrations == []
    ensures chart.Some? ==> chart.value == AgeCountsOf(ls.registrations, calculateAge)
  {
    var users := ls.registrations;
    if |users| == 0 { return None; }
    var c1, c2, c3, c4, c5 := 0, 0, 0, 0, 0;
    var i := 0;
    while i < |users|
      invariant 0 <= i <= |users|
      invariant AgeCounts(c1, c2, c3, c4, c5) == AgeCountsOf(users[..i], calculateAge)
    {
      var age := calculateAge(users[i].dob);
      if age >= 18 && age <= 25 { c1 := c1 + 1; }
      else if age >= 26 && age <= 35 { c2 := c2 + 1; }
      else if age >= 36 && age <= 45 { c3 := c3 + 1; }
      else if age >= 46 && age <= 55 { c4 := c4 + 1; }
      else if age >= 56 { c5 := c5 + 1; }
      assert users[..i + 1][..i] == users[..i];
      i := i + 1;
    }
    assert users[..|users|] == users;
    chart := Some(AgeCounts(c1, c2, c3, c4, c5));
  }
}
