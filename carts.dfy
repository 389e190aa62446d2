/**
 * The cart service (`CartService`): a map from cart id to cart, whose methods add, merge,
 * overwrite and remove lines, and a priced read model that joins each line with the catalog.
 */
module Carts {
  import opened Wrappers
  import opened Sequences
  import opened ProductTypes
  import opened Products

  /** Why a cart operation gave no cart: `null` (no cart, no line) or the thrown availability error. */
  datatype CartError = CartNotFound | ItemNotFound | ProductUnavailable

  /** No product occurs on two lines. */
  predicate LinesUnique(items: seq<CartItem>)
  {
    forall i, j :: 0 <= i < j < |items| ==> items[i].productId != items[j].productId
  }

  /** Every line holds a positive quantity. */
  predicate QuantitiesPositive(items: seq<CartItem>)
  {
    forall i :: 0 <= i < |items| ==> items[i].quantity > 0
  }

  /** The line list shape every cart keeps. */
  predicate WellFormedLines(items: seq<CartItem>)
  {
    LinesUnique(items) && QuantitiesPositive(items)
  }

  /** The index `items.find(item => item.productId === productId)` stops at. */
  function LineIndex(items: seq<CartItem>, productId: string): (r: Option<nat>)
    ensures r.Some? ==> r.value < |items| && items[r.value].productId == productId
    ensures r.Some? ==> forall j :: 0 <= j < r.value ==> items[j].productId != productId
    ensures r.None? <==> forall j :: 0 <= j < |items| ==> items[j].productId != productId
  {
    IndexWhere(items, (l: CartItem) => l.productId == productId)
  }

  /** The lines after `addItem`: an existing line for the product grows by `quantity` in place;
      otherwise a new line stamped `now` is appended at the end. */
  function AddLine(items: seq<CartItem>, productId: string, quantity: int, now: int): (r: seq<CartItem>)
    ensures LineIndex(items, productId).Some? ==>
      var k := LineIndex(items, productId).value;
      && |r| == |items|
      && r[k] == items[k].(quantity := items[k].quantity + quantity)
      && forall j :: 0 <= j < |items| && j != k ==> r[j] == items[j]
    ensures LineIndex(items, productId).None? ==> r == items + [CartItem(productId, quantity, now)]
    ensures LinesUnique(items) ==> LinesUnique(r)
    ensures QuantitiesPositive(items) && quantity > 0 ==> QuantitiesPositive(r)
  {
    match LineIndex(items, productId)
    case Some(k) => items[k := items[k].(quantity := items[k].quantity + quantity)]
    case None => items + [CartItem(productId, quantity, now)]
  }

  /** The lines after `item.quantity = quantity` on the line for `productId`: only that line's
      quantity changes. */
  function SetLineQuantity(items: seq<CartItem>, productId: string, quantity: int): (r: seq<CartItem>)
    ensures |r| == |items|
    ensures forall j :: 0 <= j < |items| ==> r[j].productId == items[j].productId && r[j].addedAt == items[j].addedAt
    ensures forall j :: 0 <= j < |items| && items[j].productId != productId ==> r[j] == items[j]
    ensures LinesUnique(items) ==> forall j :: 0 <= j < |items| && items[j].productId == productId ==> r[j].quantity == quantity
    ensures LinesUnique(items) ==> LinesUnique(r)
    ensures QuantitiesPositive(items) && quantity > 0 ==> QuantitiesPositive(r)
  {
    match LineIndex(items, productId)
    case None => items
    case Some(k) => items[k := items[k].(quantity := quantity)]
  }

  /** The lines after `removeItem`: every line for `productId` goes, the rest keep their order. */
  function RemoveLines(items: seq<CartItem>, productId: string): (r: seq<CartItem>)
    ensures forall l :: l in r <==> l in items && l.productId != productId
    ensures IsSubsequence(r, items)
    ensures LinesUnique(items) ==> LinesUnique(r)
    ensures QuantitiesPositive(items) ==> QuantitiesPositive(r)
  {
    var r := Filter(items, (l: CartItem) => l.productId != productId);
    SubsequenceKeepsUnique(r, items);
    SubsequenceKeepsPositive(r, items);
    r
  }

  /** Deleting lines cannot make two lines share a product. */
  lemma {:induction false} SubsequenceKeepsUnique(a: seq<CartItem>, b: seq<CartItem>)
    requires IsSubsequence(a, b)
    ensures LinesUnique(b) ==> LinesUnique(a)
    decreases |b|
  {
    if a != [] && LinesUnique(b) {
      if a[0] == b[0] {
        SubsequenceKeepsUnique(a[1..], b[1..]);
        SubsequenceMembers(a[1..], b[1..]);
        forall j | 0 < j < |a| ensures a[0].productId != a[j].productId {
          assert a[j] == a[1..][j - 1];
          var m :| 0 <= m < |b[1..]| && b[1..][m] == a[j];
          assert b[m + 1] == a[j];
        }
      } else {
        SubsequenceKeepsUnique(a, b[1..]);
      }
    }
  }

  /** Every element of a subsequence occurs in the sequence it was taken from. */
  lemma {:induction false} SubsequenceMembers<T>(a: seq<T>, b: seq<T>)
    requires IsSubsequence(a, b)
    ensures forall i :: 0 <= i < |a| ==> exists m :: 0 <= m < |b| && b[m] == a[i]
    decreases |b|
  {
    if a != [] {
      if a[0] == b[0] {
        SubsequenceMembers(a[1..], b[1..]);
        forall i | 0 < i < |a| ensures exists m :: 0 <= m < |b| && b[m] == a[i] {
          assert a[i] == a[1..][i - 1];
          var m :| 0 <= m < |b[1..]| && b[1..][m] == a[i];
          assert b[m + 1] == a[i];
        }
        assert b[0] == a[0];
      } else {
        SubsequenceMembers(a, b[1..]);
        forall i | 0 <= i < |a| ensures exists m :: 0 <= m < |b| && b[m] == a[i] {
          var m :| 0 <= m < |b[1..]| && b[1..][m] == a[i];
          assert b[m + 1] == a[i];
        }
      }
    }
  }

  /** Deleting lines keeps every remaining quantity positive. */
  lemma SubsequenceKeepsPositive(a: seq<CartItem>, b: seq<CartItem>)
    requires IsSubsequence(a, b)
    ensures QuantitiesPositive(b) ==> QuantitiesPositive(a)
  {
    SubsequenceMembers(a, b);
  }

  // ----- the priced read model -----

  /** A cart line joined with its product, as `getCartWithDetails` returns it. */
  datatype PricedLine = PricedLine(
    productId: string, product: Product, quantity: int, unitPrice: real, totalPrice: real, addedAt: int)

  /** The result of `getCartWithDetails`. */
  datatype CartDetails = CartDetails(cart: Cart, items: seq<PricedLine>, subtotal: real, itemCount: int)

  /** The line refers to a product that is still in the catalog. */
  predicate Known(products: seq<Product>, item: CartItem)
  {
    GetProductById(products, item.productId).Some?
  }

  /** The lines whose product still exists, in cart order. */
  function KeptLines(items: seq<CartItem>, products: seq<Product>): (r: seq<CartItem>)
  {
    Filter(items, (l: CartItem) => Known(products, l))
  }

  /** A priced line carries the current catalog product, its price, and price times quantity. */
  predicate WellPriced(line: PricedLine, products: seq<Product>)
  {
    && GetProductById(products, line.productId) == Some(line.product)
    && line.unitPrice == line.product.price
    && line.totalPrice == line.unitPrice * line.quantity as real
  }

  /** The cart line a priced line was made from. */
  function Unpriced(lines: seq<PricedLine>): (r: seq<CartItem>)
    ensures |r| == |lines|
    ensures forall k :: 0 <= k < |lines| ==>
      r[k] == CartItem(lines[k].productId, lines[k].quantity, lines[k].addedAt)
  {
    if lines == [] then [] else [CartItem(lines[0].productId, lines[0].quantity, lines[0].addedAt)] + Unpriced(lines[1..])
  }

  /** The `map`/`filter` step of `getCartWithDetails`: lines with a vanished product are dropped,
      the others priced against the catalog. */
  function PriceLines(items: seq<CartItem>, products: seq<Product>): (r: seq<PricedLine>)
    ensures forall k :: 0 <= k < |r| ==> WellPriced(r[k], products)
    ensures Unpriced(r) == KeptLines(items, products)
  {
    if items == [] then []
    else
      var rest := PriceLines(items[1..], products);
      var item := items[0];
      assert items == [item] + items[1..];
      match GetProductById(products, item.productId)
      case None => rest
      case Some(p) =>
        var line := PricedLine(item.productId, p, item.quantity, p.price, p.price * item.quantity as real, item.addedAt);
        assert Unpriced([line] + rest) == [item] + Unpriced(rest);
        [line] + rest
  }

  /** `items.reduce((sum, item) => sum + item.totalPrice, 0)`. */
  function SumTotals(lines: seq<PricedLine>): (r: real)
  {
    if lines == [] then 0.0 else lines[0].totalPrice + SumTotals(lines[1..])
  }

  /** `items.reduce((sum, item) => sum + item.quantity, 0)`. */
  function SumQuantities(lines: seq<PricedLine>): (r: int)
  {
    if lines == [] then 0 else lines[0].quantity + SumQuantities(lines[1..])
  }

  /** What a cart is worth at current prices: price times quantity over the lines whose product exists. */
  function CartValue(items: seq<CartItem>, products: seq<Product>): (r: real)
  {
    if items == [] then 0.0
    else
      (match GetProductById(products, items[0].productId)
       case None => 0.0
       case Some(p) => p.price * items[0].quantity as real)
      + CartValue(items[1..], products)
  }

  /** The number of units on the given lines. */
  function UnitCount(items: seq<CartItem>): (r: int)
  {
    if items == [] then 0 else items[0].quantity + UnitCount(items[1..])
  }

  /** The subtotal of the priced lines is the cart's value at current prices. */
  lemma {:induction false} SubtotalIsCartValue(items: seq<CartItem>, products: seq<Product>)
    ensures SumTotals(PriceLines(items, products)) == CartValue(items, products)
  {
    if items != [] {
      SubtotalIsCartValue(items[1..], products);
    }
  }

  /** The item count of the priced lines is the number of units on the kept lines. */
  lemma {:induction false} ItemCountIsKeptUnits(items: seq<CartItem>, products: seq<Product>)
    ensures SumQuantities(PriceLines(items, products)) == UnitCount(KeptLines(items, products))
  {
    if items != [] {
      ItemCountIsKeptUnits(items[1..], products);
      var rest := KeptLines(items[1..], products);
      if Known(products, items[0]) {
        assert KeptLines(items, products) == [items[0]] + rest;
        assert ([items[0]] + rest)[1..] == rest;
      } else {
        assert KeptLines(items, products) == rest;
      }
    }
  }

  /** `getCartWithDetails`: nothing for an unknown cart; otherwise the cart, its priced lines, the
      subtotal (the cart's value at current prices) and the number of units on the kept lines. */
  function GetCartWithDetails(carts: map<string, Cart>, products: seq<Product>, cartId: string): (r: Option<CartDetails>)
    ensures r.None? <==> cartId !in carts
    ensures r.Some? ==>
      && r.value.cart == carts[cartId]
      && r.value.items == PriceLines(carts[cartId].items, products)
      && r.value.subtotal == CartValue(carts[cartId].items, products)
      && r.value.itemCount == UnitCount(KeptLines(carts[cartId].items, products))
  {
    if cartId !in carts then None
    else
      var cart := carts[cartId];
      var lines := PriceLines(cart.items, products);
      SubtotalIsCartValue(cart.items, products);
      ItemCountIsKeptUnits(cart.items, products);
      Some(CartDetails(cart, lines, SumTotals(lines), SumQuantities(lines)))
  }

  /** The cart service. Every stored cart is filed under its own id and keeps well-formed lines. */
  class CartService {
    const catalog: ProductService
    var carts: map<string, Cart>

    ghost predicate Valid()
      reads this
    {
      forall id :: id in carts ==> carts[id].id == id && WellFormedLines(carts[id].items)
    }

    constructor (catalog: ProductService)
      ensures Valid() && this.catalog == catalog && carts == map[]
    {
      this.catalog := catalog;
      carts := map[];
    }

    /** `createCart`: a new empty cart under the fresh id `id`; other carts are untouched. */
    method CreateCart(id: string, userId: Option<string>, now: int) returns (cart: Cart)
      requires Valid()
      requires id !in carts
      modifies this
      ensures Valid()
      ensures cart == Cart(id, userId, [], now, now)
      ensures carts == old(carts)[id := cart]
    {
      cart := Cart(id, userId, [], now, now);
      carts := carts[id := cart];
    }

    /** `getCart`. */
    function GetCart(cartId: string): (r: Option<Cart>)
      reads this
      ensures r.Some? <==> cartId in carts
      ensures r.Some? ==> r.value == carts[cartId]
    {
      if cartId in carts then Some(carts[cartId]) else None
    }

    /** `addItem`, for `quantity > 0` as the route demands. The availability test looks at the added
        quantity alone, not at the merged line total. */
    method AddItem(cartId: string, productId: string, quantity: int, now: int) returns (r: Result<Cart, CartError>)
      requires Valid()
      requires quantity > 0
      modifies this
      ensures Valid()
      ensures cartId !in old(carts) ==> r == Err(CartNotFound) && carts == old(carts)
      ensures cartId in old(carts) && !CheckAvailability(catalog.products, productId, quantity) ==>
        r == Err(ProductUnavailable) && carts == old(carts)
      ensures cartId in old(carts) && CheckAvailability(catalog.products, productId, quantity) ==>
        var before := old(carts)[cartId];
        var after := before.(items := AddLine(before.items, productId, quantity, now), updatedAt := now);
        r == Ok(after) && carts == old(carts)[cartId := after]
    {
      if cartId !in carts {
        return Err(CartNotFound);
      }
      if !CheckAvailability(catalog.products, productId, quantity) {
        return Err(ProductUnavailable);
      }
      var cart := carts[cartId];
      cart := cart.(items := AddLine(cart.items, productId, quantity, now), updatedAt := now);
      carts := carts[cartId := cart];
      r := Ok(cart);
    }

    /** `removeItem`: drops every line for the product. */
    method RemoveItem(cartId: string, productId: string, now: int) returns (r: Result<Cart, CartError>)
      requires Valid()
      modifies this
      ensures Valid()
      ensures cartId !in old(carts) ==> r == Err(CartNotFound) && carts == old(carts)
      ensures cartId in old(carts) ==>
        var before := old(carts)[cartId];
        var after := before.(items := RemoveLines(before.items, productId), updatedAt := now);
        r == Ok(after) && carts == old(carts)[cartId := after]
    {
      if cartId !in carts {
        return Err(CartNotFound);
      }
      var cart := carts[cartId];
      cart := cart.(items := RemoveLines(cart.items, productId), updatedAt := now);
      carts := carts[cartId := cart];
      r := Ok(cart);
    }

    /** `updateItemQuantity`: no cart or no line gives `null`; a quantity of zero or less removes
        the line; otherwise the new quantity is checked against stock and overwrites the line's
        quantity. */
    method UpdateItemQuantity(cartId: string, productId: string, quantity: int, now: int) returns (r: Result<Cart, CartError>)
      requires Valid()
      modifies this
      ensures Valid()
      ensures cartId !in old(carts) ==> r == Err(CartNotFound) && carts == old(carts)
      ensures cartId in old(carts) && LineIndex(old(carts)[cartId].items, productId).None? ==>
        r == Err(ItemNotFound) && carts == old(carts)
      ensures cartId in old(carts) && LineIndex(old(carts)[cartId].items, productId).Some? ==>
        var before := old(carts)[cartId];
        if quantity <= 0 then
          var after := before.(items := RemoveLines(before.items, productId), updatedAt := now);
          r == Ok(after) && carts == old(carts)[cartId := after]
        else if !CheckAvailability(catalog.products, productId, quantity) then
          r == Err(ProductUnavailable) && carts == old(carts)
        else
          var after := before.(items := SetLineQuantity(before.items, productId, quantity), updatedAt := now);
          r == Ok(after) && carts == old(carts)[cartId := after]
    {
      if cartId !in carts {
        return Err(CartNotFound);
      }
      var cart := carts[cartId];
      if LineIndex(cart.items, productId).None? {
        return Err(ItemNotFound);
      }
      if quantity <= 0 {
        r := RemoveItem(cartId, productId, now);
        return;
      }
      if !CheckAvailability(catalog.products, productId, quantity) {
        return Err(ProductUnavailable);
      }
      cart := cart.(items := SetLineQuantity(cart.items, productId, quantity), updatedAt := now);
      carts := carts[cartId := cart];
      r := Ok(cart);
    }

    /** `clearCart`: the cart stays, with no lines. */
    method ClearCart(cartId: string, now: int) returns (r: Result<Cart, CartError>)
      requires Valid()
      modifies this
      ensures Valid()
      ensures cartId !in old(carts) ==> r == Err(CartNotFound) && carts == old(carts)
      ensures cartId in old(carts) ==>
        var after := old(carts)[cartId].(items := [], updatedAt := now);
        r == Ok(after) && carts == old(carts)[cartId := after]
    {
      if cartId !in carts {
        return Err(CartNotFound);
      }
      var cart := carts[cartId].(items := [], updatedAt := now);
      carts := carts[cartId := cart];
      r := Ok(cart);
    }

    /** `deleteCart`: true exactly when the cart existed; it is gone afterwards. */
    method DeleteCart(cartId: string) returns (existed: bool)
      requires Valid()
      modifies this
      ensures Valid()
      ensures existed == (cartId in old(carts))
      ensures carts == old(carts) - {cartId}
    {
      existed := cartId in carts;
      carts := carts - {cartId};
    }
  }
}
