# Shop back end of script.js, in Dafny

This project models the logic behind the storefront's single script,
`script.js`. That script keeps all of its state in the browser's two
key-value stores:

- `localStorage` holds the `cart`, the `AllProducts` catalog, the
  `RegistrationData` accounts, the `LockedAccounts` TRNs and the
  `Invoices` ledger.
- `sessionStorage` holds the per-TRN failed-login counters
  (`loginAttempts_<trn>`) and `loggedInTRN`.

The model has two layers.

- **Pure modules.** Each component is a module of datatypes and
  functions that define the effect of each script function on the lists
  it reads and writes, with lemmas about those effects:
  - `CartLedger`: addToCart, updateQty, removeItem, the badge count and
    goToCheckout.
  - `Pricing`: the per-line formula and its running sums.
  - `Catalog`: ensureProducts.
  - `Accounts`: TRN_REGEX, registerUser, attemptLogin and
    resetPasswordPrompt.
  - `Invoices`: generateInvoice and GetUserInvoices.
  - `Dashboard`: the counts behind the gender and age charts.
- **Stateful layer.** `Storage` holds the two stores as classes, one
  field per key. `Script` holds the script's state-changing functions as
  methods over them. Each method works step by step, as the script does:
  it searches, splices or accumulates in a loop, then writes the key
  back. Its `ensures` ties the new state to the pure definition and keeps
  `LocalStorage.Valid`, which says:
  - cart names are unique and quantities at least 1;
  - TRNs are unique and well formed, and every password has at least
    8 characters;
  - the locked list has no duplicates;
  - every invoice is self-consistent.

Money is exact rational arithmetic (`real`). The two rates are 10% and
15%. Discount, tax and total therefore come out as exactly 1/10, 27/200
and 207/200 of the subtotal.

An account is locked as soon as its session counter of failed logins
is 3 or more (`script.js:359`).

A password reset leaves that session's counter alone, and the model
keeps this behaviour. `ResetThenWrongPasswordRelocks` shows the
consequence: after a reset, one wrong password relocks an account that
was locked earlier in the same session.

## Model

| member | source | states |
|---|---|---|
| CartLedger.ImagePath | script.js:26 | the stored image path always starts with `../Assets/`; an already-prefixed path is kept, any other gets the prefix |
| CartLedger.ImagePathIdempotent | script.js:26 | prefixing twice is the same as prefixing once |
| CartLedger.NewLine | script.js:26-31 | a new line carries the given name and price, quantity 1 and the image path with the assets prefix |
| CartLedger.Added | script.js:23-35 | addToCart grows the cart by one line exactly when no line had that name, and afterwards a line with that name exists |
| CartLedger.AddedMerges | script.js:25-29 | when a line has the name, only the first such line changes, and its quantity rises by one |
| CartLedger.AddedAppends | script.js:25-31 | when no line has the name, one new line with quantity 1 and the prefixed image goes at the end |
| CartLedger.AddToCartMergesOrAppends | script.js:23-35 | on a cart with unique names, addToCart merges or appends, and the badge count rises by exactly one |
| CartLedger.AddToCartKeepsWellFormed | script.js:23-35 | addToCart keeps names unique and quantities at least 1 |
| CartLedger.BadgeCount | script.js:15-20 | the badge is the sum of the quantities, at least the number of lines when every quantity is positive |
| CartLedger.BadgeCountAppend | script.js:17 | the badge count of two carts joined is the sum of their counts |
| CartLedger.BadgeCountUpdate | script.js:17 | changing one line's quantity changes the badge by the difference |
| CartLedger.CanCheckout | script.js:114-121 | checkout proceeds exactly when the cart is non-empty, which for a well-formed cart is when the badge is positive |
| CartLedger.ClampQty | script.js:100 | the new quantity is at least 1: a parsed value of 1 or more is kept, and NaN, 0 or a negative becomes 1 |
| CartLedger.WithQty | script.js:98-103 | updateQty changes only the quantity of the line at the index, keeps the cart well formed and moves the badge by the difference |
| CartLedger.SpliceStart | script.js:108 | splice's start index: an in-range index is kept, a negative one counts from the end, one below minus the length starts at 0, and one at or past the end starts at the length |
| CartLedger.Spliced | script.js:106-111 | removeItem shortens the cart by one when the start falls inside it, and otherwise leaves it unchanged |
| CartLedger.RemoveItemRemovesOne | script.js:106-111 | an in-range index removes exactly that line: the others keep their order, the multiset loses that line, the badge drops by its quantity, and the cart stays well formed |
| CartLedger.RemoveItemFromEnd | script.js:108 | a negative index removes the line that many places from the end |
| CartLedger.RemoveItemOutOfRange | script.js:108 | an index at or past the end leaves the cart unchanged |
| Pricing.PriceLine | script.js:57-61 | a line's subtotal is price times quantity; discount, tax and total are 1/10, 27/200 and 207/200 of it; with non-negative inputs all are non-negative and discount ≤ subtotal ≤ total |
| Pricing.PriceLineExample | script.js:42-43 | two items at 25 cost 50 with 5 off, 6.75 tax and a total of 51.75 |
| Pricing.CartTotals | script.js:52-66 | the running sums of an empty cart are all zero |
| Pricing.CartTotalsConsistent | script.js:266-275 | the cart totals keep the per-line ratios, so the cart's discount is 10% and its grand total 103.5% of its subtotal |
| Pricing.CartTotalsAppend | script.js:266-275 | the totals of two carts joined are the sums of their totals |
| Pricing.CartTotalsSingle | script.js:266-275 | a one-line cart totals to that line's amounts |
| Pricing.CartTotalsRemoveAt | script.js:266-275 | removing one line lowers every sum by that line's amounts |
| Pricing.CartTotalsOrderIndependent | script.js:266-275 | two carts with the same lines in any order have the same totals |
| Pricing.CartTotalsNonNegative | script.js:266-275 | with non-negative prices and quantities every sum is non-negative |
| Catalog.SampleProducts | script.js:296-303 | the seed catalog has six products, with distinct ids and positive prices |
| Catalog.EnsuredProducts | script.js:293-306 | after ensureProducts the catalog is non-empty: an existing catalog is untouched, an empty one becomes exactly the six sample products |
| Catalog.EnsureProductsIdempotent | script.js:293-306 | running ensureProducts twice is the same as running it once |
| Accounts.IsTrn | script.js:291 | the TRN pattern: eleven characters, dashes at positions 3 and 7, decimal digits elsewhere |
| Accounts.TrnShape | script.js:291 | the TRN check holds exactly when the text is three digits, a dash, three digits, a dash, three digits |
| Accounts.AllFilled | script.js:322 | all nine registration fields are non-empty |
| Accounts.TrnRegistered | script.js:331 | some registered account has this TRN |
| Accounts.RegistrationCheck | script.js:322-331 | registration passes exactly when all nine fields are filled, the password has at least 8 characters and matches its confirmation, the TRN is well formed, the age is at least 18 and the TRN is new; each error is reported exactly when its own check fails after every earlier one passed: missing field, short password, mismatch, bad TRN format, under age, TRN taken |
| Accounts.NewAccount | script.js:333 | the new account copies all eight form fields but the confirmation, carries the registration date and has an empty cart |
| Accounts.RegisterKeepsRegistryValid | script.js:331-335 | a successful registration keeps TRNs unique and well formed and passwords at least 8 characters long |
| Accounts.AttemptsOf | script.js:353-354 | a TRN's failed-attempt counter, 0 when the session has none |
| Accounts.HasCredentials | script.js:350-351 | some registered account has both this TRN and this password |
| Accounts.Login | script.js:342-374 | empty input or a locked TRN changes nothing; login succeeds exactly for an unlocked TRN whose credentials match, which sets loggedInTRN and drops the counter; a wrong password on an unlocked TRN raises its counter by one, from whatever value, and reports that attempt number, or, once the counter reaches 3, appends the TRN to the locked list and reports the lock; the locked list changes in no other way |
| Accounts.LoginKeepsLockedDistinct | script.js:349-363 | a TRN is never locked twice |
| Accounts.ThreeFailuresLock | script.js:354-366 | three wrong passwords report attempts 1 and 2 and then lock the TRN; a fourth attempt, even with the right password, is refused as locked |
| Accounts.IndexOfTrn | script.js:381-382 | the index found is the first account with that TRN, and there is none exactly when the TRN is unregistered |
| Accounts.Unlocked | script.js:390-392 | unlocking removes exactly that TRN from the locked list and keeps it free of duplicates |
| Accounts.Answered | script.js:378 | a prompt answer that is neither cancelled nor empty |
| Accounts.Reset | script.js:376-394 | answers that pass every check (TRN well formed and registered, matching date of birth, new password of at least 8 characters) reset that account's password and unlock the TRN, and nothing else changes; otherwise nothing changes, and the outcome names the first check that failed: cancelled TRN, bad format, unknown TRN, cancelled date of birth, date mismatch, short or cancelled new password |
| Accounts.ResetKeepsInvariants | script.js:388-392 | a reset keeps the registry valid and the locked list free of duplicates |
| Accounts.ResetThenLoginSucceeds | script.js:388-392 | after a reset the new password logs in at the first attempt |
| Accounts.ResetThenWrongPasswordRelocks | script.js:355-359 | the session counter survives a reset, so one wrong password relocks a TRN that already had two or more failures |
| Invoices.InvoiceTrn | script.js:411 | the invoice's TRN is the logged-in TRN when there is one, and otherwise "GUEST" |
| Invoices.PricedItem | script.js:429-438 | an invoice line copies the cart line's name, price, quantity and image, and carries the per-line amounts |
| Invoices.PricedItems | script.js:418-439 | the invoice lines are the cart lines priced one by one, in cart order |
| Invoices.ItemTotals | script.js:450-453 | an invoice without lines totals to zero |
| Invoices.ItemTotalsOfPriced | script.js:418-453 | the sums over the stored invoice lines equal the cart totals |
| Invoices.InvoiceFor | script.js:408-454 | the invoice has one line per cart line, with fields copied; its four totals equal the cart totals; it is self-consistent; it carries the customer, number, date and acting TRN |
| Invoices.InvoiceTotalsFollowRates | script.js:418-453 | an invoice's discount is 10% and its grand total 103.5% of its subtotal, all non-negative for non-negative prices |
| Invoices.UserInvoices | script.js:547-552 | a user's list holds exactly the ledger's invoices with that TRN |
| Invoices.UserInvoicesAppend | script.js:457-459 | appending an invoice extends its owner's list by it and leaves every other user's list as it was |
| Invoices.CheckoutThenListed | script.js:408-459 | right after generateInvoice, the acting TRN's list is its old list followed by the new invoice |
| Dashboard.ChartedGender | script.js:615-618 | the genders with a bar: Male, Female and Other |
| Dashboard.GenderCount | script.js:615-619 | a gender's bar never exceeds the number of users |
| Dashboard.ChartedCount | script.js:615-619 | the number of users with a charted gender never exceeds the number of users |
| Dashboard.GenderBarsCountCharted | script.js:615-619 | the three gender bars together count exactly the users whose gender is Male, Female or Other, which is all of them when every gender is charted |
| Dashboard.AgeGroupOf | script.js:666-672 | each age from 18 falls in exactly one of the five buckets, and an age under 18 falls in none |
| Dashboard.GroupCount | script.js:665-673 | a bucket's bar never exceeds the number of users |
| Dashboard.AdultCount | script.js:665-673 | the number of users aged 18 or more never exceeds the number of users |
| Dashboard.AgeBarsCountAdults | script.js:665-673 | the five age bars together count exactly the users aged 18 or more |
| Storage.LocalStorage.constructor | script.js:288 | every durable key starts as the empty list, which satisfies the store invariant |
| Storage.SessionStorage.constructor | script.js:353-354 | a fresh session has no failed-attempt counters, so every counter reads as 0, and no logged-in TRN, so an invoice made now is filed under GUEST (`script.js:411`) |
| Script.AddToCart | script.js:23-35 | the search loop finds the first line with the name; the stored cart becomes `Added` of the old cart; the store invariant is kept |
| Script.UpdateQty | script.js:98-103 | the stored cart becomes `WithQty` of the old cart; the store invariant is kept |
| Script.RemoveItem | script.js:106-111 | the stored cart becomes `Spliced` of the old cart; the store invariant is kept |
| Script.ClearCart | script.js:211-215 | the clear button empties the stored cart |
| Script.EnsureProducts | script.js:293-306 | the stored catalog becomes `EnsuredProducts` of the old one |
| Script.RegisterUser | script.js:311-340 | the error reported is `RegistrationCheck`'s; on success exactly the new account is appended, otherwise the registry is unchanged; the store invariant is kept |
| Script.AttemptLogin | script.js:342-374 | the outcome, locked list and session store are `Login`'s; the store invariant is kept |
| Script.ResetPasswordPrompt | script.js:376-394 | the outcome, registry and locked list are `Reset`'s; the store invariant is kept |
| Script.GenerateInvoice | script.js:408-462 | the loop's running sums and item list yield exactly `InvoiceFor`, which is appended to the ledger; the store invariant is kept |
| Script.SubmitCheckout | script.js:707-730 | an order is placed exactly when all five fields are filled; the stored cart is then invoiced and emptied, and otherwise nothing changes |
| Script.DisplayGenderChart | script.js:604-622 | no chart when there are no users; otherwise the counting loop yields `GenderCountsOf` the registry |
| Script.DisplayAgeChart | script.js:646-673 | no chart when there are no users; otherwise the counting loop yields `AgeCountsOf` the registry |

## Left out

- Rendering is not modelled. This covers DOM updates, `alert`,
  navigation, `renderCart`'s table, `renderCheckoutItems`,
  `displayInvoice`, `printInvoice`, `displayAllInvoices`, the chart HTML
  and its percentages, and `formatCurrency`/`toFixed`. These only
  display values that the model computes.
- JSON serialisation is not modelled. `getLS`/`getCart` and
  `setLS`/`saveCart` become field reads and writes. An absent key reads
  as the empty list.
- Floating point is not modelled: money is exact, so IEEE rounding in
  the running sums is not captured.
- Clock readings are parameters: `calculateAge(dob)` (an `int` for
  registerUser, a `string -> int` for the age chart), `Date.now()` (the
  invoice number, a `nat`, without its `INV-` prefix), and the ISO date
  strings.
- Inputs arrive already prepared:
  - form values already trimmed;
  - `parseInt`'s result as `Option<int>`, with None for NaN;
  - prompt answers as `Option<string>`, with None for a cancelled prompt.
- String length is measured in characters, whereas JavaScript counts
  UTF-16 code units.
- Script.UpdateQty requires an index inside the cart. With any other
  index the script throws at `cart[index].qty`, before any write.
- The legacy handlers are not modelled. The login and register forms at
  `script.js:126-174` write to `username`/`users` keys that nothing else
  reads. The first checkout handler at `script.js:186-202` only alerts
  and navigates.
- Script.ClearCart does not model the re-render that follows.
- `initializeDashboard` and the `DOMContentLoaded` bootstraps only call
  the functions above.
