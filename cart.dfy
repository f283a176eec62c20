/**
 * The shopping cart of the storefront: an ordered list of line items, and the
 * three state updaters (add to cart, increment, decrement) that each rewrite
 * the old list into a new one.
 *
 * Two invariants are kept by every updater: at most one line item per product
 * id, and every quantity at least 1.
 */
module Cart {

  datatype Option<T> = None | Some(value: T)

  /**
   * One line item of the cart. `price` is stored, never computed with.
   * `imageUrl` is the item's `image_url` field, renamed to Dafny's naming style.
   */
  datatype Product = Product(id: string, title: string, imageUrl: string, price: real, quantity: int)

  /** What a caller hands to add-to-cart: a product whose quantity is optional (`imageUrl` is `image_url`). */
  datatype AddedProduct = AddedProduct(id: string, title: string, imageUrl: string, price: real, quantity: Option<int>)

  // ---------------------------------------------------------------------------
  // Invariants of the cart

  predicate HasId(s: seq<Product>, id: string)
  {
    exists i :: 0 <= i < |s| && s[i].id == id
  }

  /** At most one line item per product id. */
  predicate UniqueIds(s: seq<Product>)
  {
    forall i, j :: 0 <= i < j < |s| ==> s[i].id != s[j].id
  }

  /** Every line item present has quantity at least 1. */
  predicate AllPositive(s: seq<Product>)
  {
    forall i :: 0 <= i < |s| ==> s[i].quantity >= 1
  }

  predicate ValidCart(s: seq<Product>)
  {
    UniqueIds(s) && AllPositive(s)
  }

  // ---------------------------------------------------------------------------
  // The list rewrites

  /**
   * The `map` over the list shared by increment and decrement: every item
   * whose id matches gets `delta` added to its quantity, the others are kept
   * as they are.
   */
  function Adjusted(s: seq<Product>, id: string, delta: int): (r: seq<Product>)
    ensures |r| == |s|
    ensures forall i :: 0 <= i < |s| ==>
      r[i].id == s[i].id && r[i].title == s[i].title && r[i].imageUrl == s[i].imageUrl && r[i].price == s[i].price
    ensures forall i :: 0 <= i < |s| && s[i].id != id ==> r[i] == s[i]
  {
    seq(|s|, i requires 0 <= i < |s| =>
      if s[i].id == id then s[i].(quantity := s[i].quantity + delta) else s[i])
  }

  /** The `filter` of decrement: keeps, in order, the items whose quantity is above 0. */
  function KeepInCart(s: seq<Product>): (r: seq<Product>)
    ensures |r| <= |s|
    ensures forall x :: x in r <==> x in s && x.quantity > 0
    ensures forall i :: 0 <= i < |r| ==> r[i].quantity > 0
  {
    if s == [] then []
    else if s[0].quantity > 0 then [s[0]] + KeepInCart(s[1..])
    else KeepInCart(s[1..])
  }

  /** The increment updater. */
  function Incremented(s: seq<Product>, id: string): (r: seq<Product>)
    ensures |r| == |s|
    ensures forall i :: 0 <= i < |s| ==> r[i].id == s[i].id && r[i].quantity >= s[i].quantity
    ensures AllPositive(s) ==> AllPositive(r)
  {
    Adjusted(s, id, 1)
  }

  /** The decrement updater: lower the matching quantity, then drop what is no longer above 0. */
  function Decremented(s: seq<Product>, id: string): (r: seq<Product>)
    ensures AllPositive(r)
  {
    KeepInCart(Adjusted(s, id, -1))
  }

  /**
   * The line item that add-to-cart appends for a product not yet in the cart:
   * the caller's fields with quantity 1, whatever quantity the caller gave.
   */
  function NewLine(p: AddedProduct): (r: Product)
    ensures r.id == p.id && r.title == p.title && r.imageUrl == p.imageUrl && r.price == p.price
    ensures r.quantity == 1
  {
    Product(p.id, p.title, p.imageUrl, p.price, 1)
  }

  /**
   * Reference definition of add-to-cart: for a product already in the cart it
   * is increment by that id; otherwise one new line is appended at the end.
   */
  function AddedTo(s: seq<Product>, p: AddedProduct): (r: seq<Product>)
  {
    if HasId(s, p.id) then Incremented(s, p.id) else s + [NewLine(p)]
  }

  /**
   * The add-to-cart updater as the code runs it: one pass over the old list
   * that raises a `productExists` flag on every match and bumps that item,
   * then an append of a new line when the flag was never raised.
   */
  method AddToCartUpdater(oldProducts: seq<Product>, addedProduct: AddedProduct)
    returns (newProducts: seq<Product>)
    ensures newProducts == AddedTo(oldProducts, addedProduct)
  {
    var productExists := false;
    newProducts := [];
    var i := 0;
    while i < |oldProducts|
      invariant 0 <= i <= |oldProducts|
      invariant newProducts == Incremented(oldProducts[..i], addedProduct.id)
      invariant productExists <==> HasId(oldProducts[..i], addedProduct.id)
    {
      var product := oldProducts[i];
      if product.id == addedProduct.id {
        productExists := true;
        newProducts := newProducts + [product.(quantity := product.quantity + 1)];
      } else {
        newProducts := newProducts + [product];
      }
      assert oldProducts[..i + 1] == oldProducts[..i] + [product];
      i := i + 1;
    }
    assert oldProducts[..i] == oldProducts;
    if !productExists {
      newProducts := newProducts + [NewLine(addedProduct)];
    }
  }

  // ---------------------------------------------------------------------------
  // Facts about the filter

  lemma {:induction false} KeepInCartAppend(a: seq<Product>, b: seq<Product>)
    ensures KeepInCart(a + b) == KeepInCart(a) + KeepInCart(b)
  {
    if a == [] {
      assert a + b == b;
    } else {
      assert (a + b)[1..] == a[1..] + b;
      KeepInCartAppend(a[1..], b);
    }
  }

  lemma {:induction false} KeepInCartOfPositive(s: seq<Product>)
    requires AllPositive(s)
    ensures KeepInCart(s) == s
  {
    if s != [] {
      KeepInCartOfPositive(s[1..]);
    }
  }

  lemma {:induction false} KeepInCartUnique(s: seq<Product>)
    requires UniqueIds(s)
    ensures UniqueIds(KeepInCart(s))
  {
    if s != [] {
      KeepInCartUnique(s[1..]);
      var rest := KeepInCart(s[1..]);
      if s[0].quantity > 0 {
        forall j | 0 <= j < |rest|
          ensures s[0].id != rest[j].id
        {
          assert rest[j] in s[1..];
        }
      }
    }
  }

  // ---------------------------------------------------------------------------
  // Increment

  /** Increment with a present id: that item gains exactly 1, everything else stays in place. */
  lemma IncrementedAt(s: seq<Product>, k: nat)
    requires UniqueIds(s) && k < |s|
    ensures |Incremented(s, s[k].id)| == |s|
    ensures Incremented(s, s[k].id)[k] == s[k].(quantity := s[k].quantity + 1)
    ensures forall j :: 0 <= j < |s| && j != k ==> Incremented(s, s[k].id)[j] == s[j]
  {
  }

  /** Increment with an id that is not in the cart leaves the cart identical. */
  lemma IncrementedMissing(s: seq<Product>, id: string)
    requires !HasId(s, id)
    ensures Incremented(s, id) == s
  {
  }

  lemma AdjustedKeepsIds(s: seq<Product>, id: string, delta: int)
    requires UniqueIds(s)
    ensures UniqueIds(Adjusted(s, id, delta))
  {
  }

  lemma IncrementedValid(s: seq<Product>, id: string)
    requires ValidCart(s)
    ensures ValidCart(Incremented(s, id))
  {
    AdjustedKeepsIds(s, id, 1);
  }

  // ---------------------------------------------------------------------------
  // Decrement

  /** Decrement never leaves an item with quantity 0 or below, whatever the cart held before. */
  lemma DecrementedValid(s: seq<Product>, id: string)
    requires UniqueIds(s)
    ensures ValidCart(Decremented(s, id))
  {
    AdjustedKeepsIds(s, id, -1);
    KeepInCartUnique(Adjusted(s, id, -1));
  }

  /** Decrement on an item above 1 lowers it by 1 and keeps it in place. */
  lemma DecrementedAbove1(s: seq<Product>, k: nat)
    requires ValidCart(s) && k < |s| && s[k].quantity > 1
    ensures Decremented(s, s[k].id) == s[k := s[k].(quantity := s[k].quantity - 1)]
  {
    var a := Adjusted(s, s[k].id, -1);
    assert a == s[k := s[k].(quantity := s[k].quantity - 1)];
    KeepInCartOfPositive(a);
  }

  /** Decrement on an item at 1 removes it; the rest keep their relative order. */
  lemma DecrementedRemoves(s: seq<Product>, k: nat)
    requires ValidCart(s) && k < |s| && s[k].quantity == 1
    ensures Decremented(s, s[k].id) == s[..k] + s[k + 1..]
  {
    var before, zero, after := s[..k], s[k].(quantity := 0), s[k + 1..];
    AdjustedSingle(s, k, -1);
    assert AllPositive(before) && AllPositive(after);
    KeepInCartAppend(before + [zero], after);
    KeepInCartAppend(before, [zero]);
    KeepInCartOfPositive(before);
    KeepInCartOfPositive(after);
    assert KeepInCart([zero]) == [];
    assert KeepInCart(before + [zero]) == before;
  }

  /** With unique ids the `map` of increment and decrement touches one item only. */
  lemma AdjustedSingle(s: seq<Product>, k: nat, delta: int)
    requires UniqueIds(s) && k < |s|
    ensures Adjusted(s, s[k].id, delta) == s[..k] + [s[k].(quantity := s[k].quantity + delta)] + s[k + 1..]
  {
  }

  /** Decrement with an id not in a cart of positive quantities leaves it unchanged. */
  lemma DecrementedMissing(s: seq<Product>, id: string)
    requires AllPositive(s) && !HasId(s, id)
    ensures Decremented(s, id) == s
  {
    assert Adjusted(s, id, -1) == s;
    KeepInCartOfPositive(s);
  }

  /**
   * Decrement keeps exactly the items of the decremented list that are still
   * above 0: any item already at 0 or below is dropped too, not only the
   * decremented one.
   */
  lemma DecrementedKeeps(s: seq<Product>, id: string, i: nat)
    requires i < |s| && s[i].id != id
    ensures s[i] in Decremented(s, id) <==> s[i].quantity > 0
  {
    assert Adjusted(s, id, -1)[i] == s[i];
  }

  // ---------------------------------------------------------------------------
  // Add to cart

  /** A product not yet in the cart is appended once, at the end, with quantity 1. */
  lemma AddedNew(s: seq<Product>, p: AddedProduct)
    requires !HasId(s, p.id)
    ensures |AddedTo(s, p)| == |s| + 1
    ensures AddedTo(s, p)[..|s|] == s
    ensures AddedTo(s, p)[|s|] == Product(p.id, p.title, p.imageUrl, p.price, 1)
  {
  }

  /** The caller's quantity never reaches the cart. */
  lemma AddedIgnoresQuantity(s: seq<Product>, p: AddedProduct, q: Option<int>)
    ensures AddedTo(s, p) == AddedTo(s, p.(quantity := q))
  {
  }

  /**
   * A product already in the cart gains 1 in place; its stored title, image
   * and price are kept, not replaced by the caller's.
   */
  lemma AddedExisting(s: seq<Product>, p: AddedProduct, k: nat)
    requires UniqueIds(s) && k < |s| && s[k].id == p.id
    ensures |AddedTo(s, p)| == |s|
    ensures AddedTo(s, p)[k] == s[k].(quantity := s[k].quantity + 1)
    ensures forall j :: 0 <= j < |s| && j != k ==> AddedTo(s, p)[j] == s[j]
  {
    IncrementedAt(s, k);
  }

  lemma AddedValid(s: seq<Product>, p: AddedProduct)
    requires ValidCart(s)
    ensures ValidCart(AddedTo(s, p))
  {
    if HasId(s, p.id) {
      IncrementedValid(s, p.id);
    }
  }

  // ---------------------------------------------------------------------------
  // The cart state

  /** The cart state held by the provider; each operation replaces the whole list. */
  class CartStore {
    var products: seq<Product>

    ghost predicate Valid()
      reads this
    {
      ValidCart(products)
    }

    constructor ()
      ensures products == [] && Valid()
    {
      products := [];
    }

    method AddToCart(addedProduct: AddedProduct)
      modifies this
      ensures products == AddedTo(old(products), addedProduct)
      ensures old(Valid()) ==> Valid()
    {
      if Valid() {
        AddedValid(products, addedProduct);
      }
      products := AddToCartUpdater(products, addedProduct);
    }

    method Increment(id: string)
      modifies this
      ensures products == Incremented(old(products), id)
      ensures old(Valid()) ==> Valid()
    {
      if Valid() {
        IncrementedValid(products, id);
      }
      products := Incremented(products, id);
    }

    method Decrement(id: string)
      modifies this
      ensures products == Decremented(old(products), id)
      ensures old(Valid()) ==> Valid()
    {
      if Valid() {
        DecrementedValid(products, id);
      }
      products := Decremented(products, id);
    }
  }

  // ---------------------------------------------------------------------------
  // A session from an empty cart

  const Shoe := AddedProduct("A", "Shoe", "u", 10.0, None)
  const Hat := AddedProduct("B", "Hat", "v", 5.0, None)

  /** Shoe added twice, then hat once, from an empty cart. */
  lemma SessionAdds()
    ensures AddedTo([], Shoe) == [Product("A", "Shoe", "u", 10.0, 1)]
    ensures AddedTo([Product("A", "Shoe", "u", 10.0, 1)], Shoe) == [Product("A", "Shoe", "u", 10.0, 2)]
    ensures AddedTo([Product("A", "Shoe", "u", 10.0, 2)], Hat)
         == [Product("A", "Shoe", "u", 10.0, 2), Product("B", "Hat", "v", 5.0, 1)]
  {
    var a1 := Product("A", "Shoe", "u", 10.0, 1);
    var a2 := Product("A", "Shoe", "u", 10.0, 2);
    var b1 := Product("B", "Hat", "v", 5.0, 1);
    assert AddedTo([], Shoe) == [a1] by {
      AddedNew([], Shoe);
    }
    assert AddedTo([a1], Shoe) == [a2] by {
      AddedExisting([a1], Shoe, 0);
    }
    assert AddedTo([a2], Hat) == [a2, b1] by {
      assert !HasId([a2], "B");
      AddedNew([a2], Hat);
    }
  }

  /** Then shoe decremented twice: first lowered to 1, then removed. */
  lemma SessionDecrements()
    ensures Decremented([Product("A", "Shoe", "u", 10.0, 2), Product("B", "Hat", "v", 5.0, 1)], "A")
         == [Product("A", "Shoe", "u", 10.0, 1), Product("B", "Hat", "v", 5.0, 1)]
    ensures Decremented([Product("A", "Shoe", "u", 10.0, 1), Product("B", "Hat", "v", 5.0, 1)], "A")
         == [Product("B", "Hat", "v", 5.0, 1)]
  {
    var a1 := Product("A", "Shoe", "u", 10.0, 1);
    var a2 := Product("A", "Shoe", "u", 10.0, 2);
    var b1 := Product("B", "Hat", "v", 5.0, 1);
    assert Decremented([a2, b1], "A") == [a1, b1] by {
      assert ValidCart([a2, b1]);
      DecrementedAbove1([a2, b1], 0);
      assert [a2, b1][0 := a1] == [a1, b1];
    }
    assert Decremented([a1, b1], "A") == [b1] by {
      assert ValidCart([a1, b1]);
      DecrementedRemoves([a1, b1], 0);
      assert [a1, b1][..0] == [];
      assert [a1, b1][1..] == [b1];
    }
  }
}
