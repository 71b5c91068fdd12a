/**
 * The per-line price formula that renderCart, renderCheckoutSummary and
 * generateInvoice each repeat, and the running sums they keep, in exact
 * rational arithmetic.
 */
module Pricing {
  import opened CartLedger

  const DISCOUNT_RATE: real := 0.1
  const TAX_RATE: real := 0.15

  /** The four money figures of a line, or their sums over a cart. */
  datatype Amounts = Amounts(subtotal: real, discount: real, tax: real, total: real) {
    function Plus(other: Amounts): Amounts {
      Amounts(subtotal + other.subtotal, discount + other.discount, tax + other.tax, total + other.total)
    }
  }

  const Zero: Amounts := Amounts(0.0, 0.0, 0.0, 0.0)

  /** The rates folded into one factor each: 10% off, then 15% on what remains. */
  ghost predicate Consistent(a: Amounts) {
    && a.discount == a.subtotal / 10.0
    && a.tax == a.subtotal * 27.0 / 200.0
    && a.total == a.subtotal * 207.0 / 200.0
  }

  ghost predicate NonNegative(a: Amounts) {
    a.subtotal >= 0.0 && a.discount >= 0.0 && a.tax >= 0.0 && a.total >= 0.0
  }

  /** subtotal = price * qty, discount = 10% of it, tax = 15% of the rest, total = rest + tax. */
  function PriceLine(price: real, qty: int): (r: Amounts)
    ensures r.subtotal == price * qty as real
    ensures Consistent(r)
    ensures price >= 0.0 && qty >= 0 ==> NonNegative(r) && r.discount <= r.subtotal <= r.total
  {
    var subtotal := price * qty as real;
    var discount := subtotal * DISCOUNT_RATE;
    var tax := (subtotal - discount) * TAX_RATE;
    Amounts(subtotal, discount, tax, subtotal - discount + tax)
  }

  lemma PriceLineExample()
    ensures PriceLine(25.0, 2) == Amounts(50.0, 5.0, 6.75, 51.75)
  {
  }

  function LineAmounts(line: CartLine): Amounts {
    PriceLine(line.price, line.qty)
  }

  /** The four running sums after visiting the lines in cart order. */
  function CartTotals(cart: seq<CartLine>): (t: Amounts)
    ensures cart == [] ==> t == Zero
  {
    if cart == [] then Zero
    else CartTotals(cart[..|cart| - 1]).Plus(LineAmounts(cart[|cart| - 1]))
  }

  /** The cart's totals keep the per-line relations: 10% discount, 13.5% tax and 103.5% total of the subtotal. */
  lemma {:induction false} CartTotalsConsistent(cart: seq<CartLine>)
    ensures Consistent(CartTotals(cart))
  {
    if cart != [] {
      CartTotalsConsistent(cart[..|cart| - 1]);
    }
  }

  lemma {:induction false} CartTotalsAppend(a: seq<CartLine>, b: seq<CartLine>)
    ensures CartTotals(a + b) == CartTotals(a).Plus(CartTotals(b))
    decreases |b|
  {
    if b == [] {
      assert a + b == a;
      var x := CartTotals(a);
      assert x.Plus(Zero) == x;
    } else {
      var n := |b| - 1;
      var ab := a + b;
      assert ab[..|ab| - 1] == a + b[..n];
      assert ab[|ab| - 1] == b[n];
      assert CartTotals(ab) == CartTotals(a + b[..n]).Plus(LineAmounts(b[n]));
      CartTotalsAppend(a, b[..n]);
      var x, y, z := CartTotals(a), CartTotals(b[..n]), LineAmounts(b[n]);
      assert CartTotals(ab) == x.Plus(y).Plus(z);
      assert CartTotals(b) == y.Plus(z);
      assert x.Plus(y).Plus(z) == x.Plus(y.Plus(z));
    }
  }

  /** A one-line cart totals to that line's amounts. */
  lemma CartTotalsSingle(line: CartLine)
    ensures CartTotals([line]) == LineAmounts(line)
  {
    assert [line][..0] == [];
    assert CartTotals([line]) == Zero.Plus(LineAmounts(line));
  }

  /** One more line visited adds that line's amounts to the running sums. */
  lemma CartTotalsStep(cart: seq<CartLine>, i: nat)
    requires i < |cart|
    ensures CartTotals(cart[..i + 1]) == CartTotals(cart[..i]).Plus(LineAmounts(cart[i]))
  {
    assert cart[..i + 1][..i] == cart[..i];
  }

  lemma PlusSwap(x: Amounts, y: Amounts, z: Amounts)
    ensures x.Plus(y).Plus(z) == x.Plus(z).Plus(y)
  {
  }

  /** Taking one line out of the middle lowers the totals by that line's amounts. */
  lemma CartTotalsRemoveAt(b: seq<CartLine>, j: nat)
    requires j < |b|
    ensures CartTotals(b) == CartTotals(b[..j] + b[j + 1..]).Plus(LineAmounts(b[j]))
  {
    var left, right := b[..j], b[j + 1..];
    SplitAt(b, j);
    CartTotalsWithout(left, b[j], right);
  }

  lemma SplitAt(s: seq<CartLine>, j: nat)
    requires j < |s|
    ensures s == s[..j] + [s[j]] + s[j + 1..]
  {
  }

  lemma CartTotalsWithout(left: seq<CartLine>, line: CartLine, right: seq<CartLine>)
    ensures CartTotals(left + [line] + right) == CartTotals(left + right).Plus(LineAmounts(line))
  {
    var p, m, q := CartTotals(left), LineAmounts(line), CartTotals(right);
    CartTotalsAppend(left + [line], right);
    CartTotalsAppend(left, [line]);
    CartTotalsSingle(line);
    CartTotalsAppend(left, right);
    assert CartTotals(left + [line] + right) == p.Plus(m).Plus(q);
    PlusSwap(p, m, q);
  }

  /** The totals do not depend on the order of the lines. */
  lemma {:induction false} CartTotalsOrderIndependent(a: seq<CartLine>, b: seq<CartLine>)
    requires multiset(a) == multiset(b)
    ensures CartTotals(a) == CartTotals(b)
    decreases |a|
  {
    if a != [] {
      var n := |a| - 1;
      var last := a[n];
      assert a == a[..n] + [last];
      assert last in multiset(b);
      var j :| 0 <= j < |b| && b[j] == last;
      var b' := b[..j] + b[j + 1..];
      assert multiset(a[..n]) == multiset(b') by {
        assert b == b[..j] + [last] + b[j + 1..];
        assert multiset(a[..n]) == multiset(a) - multiset{last};
        assert multiset(b') == multiset(b) - multiset{last};
      }
      CartTotalsOrderIndependent(a[..n], b');
      CartTotalsRemoveAt(b, j);
    } else {
      assert |b| == |multiset(b)|;
    }
  }

  /** With non-negative prices and quantities every sum is non-negative. */
  lemma {:induction false} CartTotalsNonNegative(cart: seq<CartLine>)
    requires forall i :: 0 <= i < |cart| ==> cart[i].price >= 0.0 && cart[i].qty >= 0
    ensures NonNegative(CartTotals(cart))
  {
    if cart != [] {
      CartTotalsNonNegative(cart[..|cart| - 1]);
    }
  }
}
