/** The `AllProducts` store and the six sample products ensureProducts seeds into it. */
module Catalog {

  datatype Product = Product(id: string, name: string, price: real, description: string, image: string, category: string)

  function SampleProducts(): (s: seq<Product>)
    ensures |s| == 6
    ensures forall i, j :: 0 <= i < j < |s| ==> s[i].id != s[j].id
    ensures forall i :: 0 <= i < |s| ==> s[i].price > 0.0
  {
    [ Product("P001", "Logitech Mouse", 25.0, "Comfortable ambidextrous wireless mouse", "../Assets/mouse1.png", "Mouses"),
      Product("P002", "TECKNET Ergonomic Mouse", 30.0, "Vertical ergonomic mouse", "../Assets/mouse2.png", "Mouses"),
      Product("P003", "AeroCurve Pro", 20.0, "Curved gaming mousepad", "../Assets/mouse3.png", "Mouses"),
      Product("P004", "Perixx Keyboard", 80.0, "Split-key keyboard", "../Assets/keyboard1.png", "Keyboards"),
      Product("P005", "Incase Sculpt Ergonomic Keyboard", 90.0, "Sculpt ergonomic keyboard", "../Assets/keyboard2.png", "Keyboards"),
      Product("P006", "PatioMage Ergonomic Office Chair", 200.0, "Full adjust ergonomic office chair", "../Assets/chair1.png", "Chairs") ]
  }

  /** The catalog after ensureProducts: seeded when empty, untouched otherwise. */
  function EnsuredProducts(all: seq<Product>): (r: seq<Product>)
    ensures r != []
    ensures all != [] ==> r == all
    ensures all == [] ==> r == SampleProducts() && |r| == 6
  {
    if |all| == 0 then SampleProducts() else all
  }

  lemma EnsureProductsIdempotent(all: seq<Product>)
    ensures EnsuredProducts(EnsuredProducts(all)) == EnsuredProducts(all)
  {
  }
}
