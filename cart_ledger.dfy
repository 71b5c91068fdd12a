/**
 * The `cart` store of script.js: an ordered list of lines, one per product
 * name, and the pure effect of addToCart, updateQty, removeItem,
 * updateCartBadge and goToCheckout on it.
 */
module CartLedger {
  import opened Wrappers

  /** One cart line; `name` is the line's identity. */
  datatype CartLine = CartLine(name: string, price: real, qty: int, img: string)

  const ASSETS: string := "../Assets/"

  /** The image reference addToCart stores: `img` under the assets directory. */
  function ImagePath(img: string): (r: string)
    ensures ASSETS <= r
    ensures ASSETS <= img ==> r == img
    ensures !(ASSETS <= img) ==> r == ASSETS + img
  {
    if ASSETS <= img then img else ASSETS + img
  }

  lemma ImagePathIdempotent(img: string)
    ensures ImagePath(ImagePath(img)) == ImagePath(img)
  {
  }

  ghost predicate NamesUnique(cart: seq<CartLine>) {
    forall i, j :: 0 <= i < j < |cart| ==> cart[i].name != cart[j].name
  }

  ghost predicate QtysPositive(cart: seq<CartLine>) {
    forall i :: 0 <= i < |cart| ==> cart[i].qty >= 1
  }

  /** What every cart the script writes satisfies. */
  ghost predicate WellFormed(cart: seq<CartLine>) {
    NamesUnique(cart) && QtysPositive(cart)
  }

  ghost predicate HasLine(cart: seq<CartLine>, name: string) {
    exists i :: 0 <= i < |cart| && cart[i].name == name
  }

  // ---------------- addToCart ----------------

  function NewLine(name: string, price: real, img: string): (line: CartLine)
    ensures line.name == name && line.price == price && line.qty == 1
    ensures line.img == ImagePath(img)
  {
    CartLine(name, price, 1, ImagePath(img))
  }

  /** The cart after addToCart(name, price, img), defined line by line. */
  function Added(cart: seq<CartLine>, name: string, price: real, img: string): (r: seq<CartLine>)
    ensures |r| == if HasLine(cart, name) then |cart| else |cart| + 1
    ensures HasLine(r, name)
  {
    if cart == [] then
      var r := [NewLine(name, price, img)];
      assert r[0].name == name;
      r
    else if cart[0].name == name then
      var r := [cart[0].(qty := cart[0].qty + 1)] + cart[1..];
      assert cart[0].name == name && r[0].name == name;
      r
    else
      var rest := Added(cart[1..], name, price, img);
      assert HasLine(cart, name) <==> HasLine(cart[1..], name) by {
        if HasLine(cart, name) {
          var i :| 0 <= i < |cart| && cart[i].name == name;
          assert cart[1..][i - 1].name == name;
        }
        if HasLine(cart[1..], name) {
          var i :| 0 <= i < |cart[1..]| && cart[1..][i].name == name;
          assert cart[i + 1].name == name;
        }
      }
      assert HasLine([cart[0]] + rest, name) by {
        var i :| 0 <= i < |rest| && rest[i].name == name;
        assert ([cart[0]] + rest)[i + 1].name == name;
      }
      [cart[0]] + rest
  }

  /** When a line with that name exists, only the first such line's quantity rises by one. */
  lemma {:induction false} AddedMerges(cart: seq<CartLine>, name: string, price: real, img: string, i: nat)
    requires i < |cart| && cart[i].name == name
    requires forall j :: 0 <= j < i ==> cart[j].name != name
    ensures Added(cart, name, price, img) == cart[i := cart[i].(qty := cart[i].qty + 1)]
  {
    if i > 0 {
      AddedMerges(cart[1..], name, price, img, i - 1);
      assert [cart[0]] + cart[1..][i - 1 := cart[i].(qty := cart[i].qty + 1)]
          == cart[i := cart[i].(qty := cart[i].qty + 1)];
    }
  }

  /** When no line has that name, one new line with quantity 1 is appended at the end. */
  lemma {:induction false} AddedAppends(cart: seq<CartLine>, name: string, price: real, img: string)
    requires !HasLine(cart, name)
    ensures Added(cart, name, price, img) == cart + [NewLine(name, price, img)]
  {
    if cart != [] {
      AddedAppends(cart[1..], name, price, img);
      assert cart == [cart[0]] + cart[1..];
    }
  }

  /** addToCart merges or appends, and raises the badge by one. */
  lemma AddToCartMergesOrAppends(cart: seq<CartLine>, name: string, price: real, img: string)
    requires NamesUnique(cart)
    ensures HasLine(cart, name) ==>
      exists i :: 0 <= i < |cart| && cart[i].name == name &&
        Added(cart, name, price, img) == cart[i := cart[i].(qty := cart[i].qty + 1)]
    ensures !HasLine(cart, name) ==> Added(cart, name, price, img) == cart + [NewLine(name, price, img)]
    ensures BadgeCount(Added(cart, name, price, img)) == BadgeCount(cart) + 1
  {
    if HasLine(cart, name) {
      var i :| 0 <= i < |cart| && cart[i].name == name;
      assert forall j :: 0 <= j < i ==> cart[j].name != name;
      AddedMerges(cart, name, price, img, i);
      BadgeCountUpdate(cart, i, cart[i].qty + 1);
    } else {
      AddedAppends(cart, name, price, img);
      BadgeCountAppend(cart, [NewLine(name, price, img)]);
    }
  }

  /** Names stay unique and quantities positive after addToCart. */
  lemma AddToCartKeepsWellFormed(cart: seq<CartLine>, name: string, price: real, img: string)
    requires WellFormed(cart)
    ensures WellFormed(Added(cart, name, price, img))
  {
    if HasLine(cart, name) {
      var i :| 0 <= i < |cart| && cart[i].name == name;
      AddedMerges(cart, name, price, img, i);
      BumpKeepsWellFormed(cart, i);
    } else {
      AddedAppends(cart, name, price, img);
      AppendKeepsWellFormed(cart, NewLine(name, price, img));
    }
  }

  lemma BumpKeepsWellFormed(cart: seq<CartLine>, i: nat)
    requires WellFormed(cart) && i < |cart|
    ensures WellFormed(cart[i := cart[i].(qty := cart[i].qty + 1)])
  {
    var r := cart[i := cart[i].(qty := cart[i].qty + 1)];
    assert forall k :: 0 <= k < |r| ==> r[k].name == cart[k].name && r[k].qty >= cart[k].qty;
  }

  lemma AppendKeepsWellFormed(cart: seq<CartLine>, line: CartLine)
    requires WellFormed(cart) && !HasLine(cart, line.name) && line.qty >= 1
    ensures WellFormed(cart + [line])
  {
    var r := cart + [line];
    assert forall k :: 0 <= k < |cart| ==> r[k] == cart[k];
  }

  // ---------------- updateCartBadge / goToCheckout ----------------

  /** The badge count: the quantities summed, as `cart.reduce` does. */
  function BadgeCount(cart: seq<CartLine>): (n: int)
    ensures QtysPositive(cart) ==> n >= |cart|
  {
    if cart == [] then 0 else cart[0].qty + BadgeCount(cart[1..])
  }

  lemma {:induction false} BadgeCountAppend(a: seq<CartLine>, b: seq<CartLine>)
    ensures BadgeCount(a + b) == BadgeCount(a) + BadgeCount(b)
  {
    if a != [] {
      BadgeCountAppend(a[1..], b);
      assert (a + b)[1..] == a[1..] + b;
    } else {
      assert a + b == b;
    }
  }

  lemma {:induction false} BadgeCountUpdate(cart: seq<CartLine>, i: nat, q: int)
    requires i < |cart|
    ensures BadgeCount(cart[i := cart[i].(qty := q)]) == BadgeCount(cart) - cart[i].qty + q
  {
    if i > 0 {
      BadgeCountUpdate(cart[1..], i - 1, q);
      assert cart[i := cart[i].(qty := q)][1..] == cart[1..][i - 1 := cart[i].(qty := q)];
    }
  }

  /** goToCheckout goes on exactly when the cart is not empty, which for a well-formed cart is when the badge is positive. */
  function CanCheckout(cart: seq<CartLine>): (ok: bool)
    ensures ok <==> cart != []
    ensures WellFormed(cart) ==> (ok <==> BadgeCount(cart) > 0)
  {
    |cart| != 0
  }

  // ---------------- updateQty ----------------

  /** `Math.max(1, parseInt(value) || 1)`, with `parseInt`'s result given (None for NaN). */
  function ClampQty(parsed: Option<int>): (q: int)
    ensures q >= 1
    ensures parsed.Some? && parsed.value >= 1 ==> q == parsed.value
    ensures parsed.None? || parsed.value < 1 ==> q == 1
  {
    var n := if parsed.None? || parsed.value == 0 then 1 else parsed.value;
    if n < 1 then 1 else n
  }

  /** The cart after updateQty(index, value). */
  function WithQty(cart: seq<CartLine>, index: nat, parsed: Option<int>): (r: seq<CartLine>)
    requires index < |cart|
    ensures |r| == |cart|
    ensures r[index] == cart[index].(qty := ClampQty(parsed))
    ensures forall j :: 0 <= j < |cart| && j != index ==> r[j] == cart[j]
    ensures WellFormed(cart) ==> WellFormed(r)
    ensures BadgeCount(r) == BadgeCount(cart) - cart[index].qty + ClampQty(parsed)
  {
    BadgeCountUpdate(cart, index, ClampQty(parsed));
    cart[index := cart[index].(qty := ClampQty(parsed))]
  }

  // ---------------- removeItem ----------------

  /** Where `splice(index, 1)` starts: a negative index counts from the end, and both ends clamp. */
  function SpliceStart(len: nat, index: int): (s: nat)
    ensures s <= len
    ensures 0 <= index <= len ==> s == index
    ensures -(len as int) <= index < 0 ==> s == len + index
    ensures index < -(len as int) ==> s == 0
    ensures index >= len ==> s == len
  {
    if index < 0 then (if len + index < 0 then 0 else len + index)
    else if index < len then index
    else len
  }

  /** The cart after removeItem(index). */
  function Spliced(cart: seq<CartLine>, index: int): (r: seq<CartLine>)
    ensures SpliceStart(|cart|, index) < |cart| ==> |r| == |cart| - 1
    ensures SpliceStart(|cart|, index) == |cart| ==> r == cart
  {
    var s := SpliceStart(|cart|, index);
    if s < |cart| then cart[..s] + cart[s + 1..] else cart
  }

  /** removeItem with an in-range index removes exactly that line, keeps the others in order and lowers the badge by its quantity. */
  lemma RemoveItemRemovesOne(cart: seq<CartLine>, index: int)
    requires 0 <= index < |cart|
    ensures var r := Spliced(cart, index);
      && |r| == |cart| - 1
      && (forall j :: 0 <= j < index ==> r[j] == cart[j])
      && (forall j :: index <= j < |r| ==> r[j] == cart[j + 1])
      && multiset(r) + multiset{cart[index]} == multiset(cart)
      && BadgeCount(r) == BadgeCount(cart) - cart[index].qty
      && (WellFormed(cart) ==> WellFormed(r))
  {
    var left, line, right := cart[..index], cart[index], cart[index + 1..];
    assert cart == left + [line] + right;
    RemoveMiddleBadge(left, line, right);
    if WellFormed(cart) {
      RemoveMiddleWellFormed(left, line, right);
    }
  }

  /** Dropping the middle line of `left + [line] + right` lowers the badge by its quantity. */
  lemma RemoveMiddleBadge(left: seq<CartLine>, line: CartLine, right: seq<CartLine>)
    ensures BadgeCount(left + right) == BadgeCount(left + [line] + right) - line.qty
  {
    BadgeCountAppend(left, right);
    BadgeCountAppend(left + [line], right);
    BadgeCountAppend(left, [line]);
    assert BadgeCount([line]) == line.qty;
  }

  /** Dropping the middle line of a well-formed cart leaves it well formed. */
  lemma RemoveMiddleWellFormed(left: seq<CartLine>, line: CartLine, right: seq<CartLine>)
    requires WellFormed(left + [line] + right)
    ensures WellFormed(left + right)
  {
    var whole, r := left + [line] + right, left + right;
    assert forall k :: 0 <= k < |r| ==> r[k] == whole[if k < |left| then k else k + 1];
  }

  /** A negative index removes the line that many places from the end, as JavaScript's splice does. */
  lemma RemoveItemFromEnd(cart: seq<CartLine>, index: int)
    requires -|cart| <= index < 0
    ensures Spliced(cart, index) == cart[..|cart| + index] + cart[|cart| + index + 1..]
  {
  }

  /** An index at or past the end leaves the cart unchanged. */
  lemma RemoveItemOutOfRange(cart: seq<CartLine>, index: int)
    requires index >= |cart|
    ensures Spliced(cart, index) == cart
  {
  }
}
