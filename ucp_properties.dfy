/**
 * Properties of the checkout lifecycle's stock effects that relate several calls: what placing
 * and then cancelling an order does to the catalog, and what it does not undo.
 */
module UcpProperties {
  import opened Wrappers
  import opened Sequences
  import opened ProductTypes
  import opened Products
  import opened Carts
  import opened UcpTypes
  import opened Ucp

  /** The units of product `id` the items ask for. */
  function Demand(items: seq<UcpCartItem>, id: string): (r: int)
    decreases |items|
  {
    if items == [] then 0
    else
      var last := items[|items| - 1];
      Demand(items[..|items| - 1], id) + (if last.productId == id then last.quantity else 0)
  }

  /** Every item asks for a non-negative quantity. */
  predicate QuantitiesNonNegative(items: seq<UcpCartItem>)
  {
    forall i :: 0 <= i < |items| ==> items[i].quantity >= 0
  }

  /** The catalog holds enough of every product to serve the items. */
  predicate Covers(products: seq<Product>, items: seq<UcpCartItem>)
  {
    forall k :: 0 <= k < |products| ==> Demand(items, products[k].id) <= products[k].stockQuantity
  }

  /** `n` clamped at zero, as `updateStock` clamps a count. */
  function ClampAtZero(n: int): (r: int)
  {
    if n <= 0 then 0 else n
  }

  /** With unique ids and non-negative stock, consuming items lowers each count by its demand,
      clamped at zero (the check in `addItem` does not bind `completeCheckout`, so the demand may
      exceed the stock), and restoring raises each count by exactly its demand. */
  lemma {:induction false} StockAfterShiftsByDemand(products: seq<Product>, items: seq<UcpCartItem>, restore: bool, now: int)
    requires UniqueIds(products) && StockNonNegative(products) && QuantitiesNonNegative(items)
    ensures forall k :: 0 <= k < |products| ==>
      StockAfter(products, items, restore, now)[k].stockQuantity ==
        if restore then products[k].stockQuantity + Demand(items, products[k].id)
        else ClampAtZero(products[k].stockQuantity - Demand(items, products[k].id))
    decreases |items|
  {
    if items != [] {
      var init := items[..|items| - 1];
      var last := items[|items| - 1];
      assert QuantitiesNonNegative(init) by {
        forall i | 0 <= i < |init| ensures init[i].quantity >= 0 {
          assert init[i] == items[i];
        }
      }
      assert last.quantity >= 0;
      StockAfterShiftsByDemand(products, init, restore, now);
      var before := StockAfter(products, init, restore, now);
      var delta := StockDelta(last, restore);
      assert StockAfter(products, items, restore, now) == StockUpdated(before, last.productId, delta, now);
      match IndexOfProduct(before, last.productId)
      case None =>
        forall k | 0 <= k < |products|
          ensures products[k].id != last.productId
        {
          assert before[k].id == products[k].id;
        }
      case Some(j) =>
        assert before[j].id == products[j].id;
        forall k | 0 <= k < |products| && k != j
          ensures products[k].id != last.productId
        {
          assert before[k].id == products[k].id;
        }
    }
  }

  /** Cancelling an order gives every product back the larger of its count before the order and
      the order's demand for it: exactly the old count when the catalog covered the order, and more
      than it had when the placement was clamped at zero. */
  lemma CancelRestoresConsumedCounts(products: seq<Product>, items: seq<UcpCartItem>, placedAt: int, cancelledAt: int)
    requires UniqueIds(products) && StockNonNegative(products) && QuantitiesNonNegative(items)
    ensures var placed := StockAfter(products, items, false, placedAt);
            var cancelled := StockAfter(placed, items, true, cancelledAt);
            forall k :: 0 <= k < |products| ==>
              cancelled[k].stockQuantity ==
                if Demand(items, products[k].id) <= products[k].stockQuantity then products[k].stockQuantity
                else Demand(items, products[k].id)
    ensures var placed := StockAfter(products, items, false, placedAt);
            var cancelled := StockAfter(placed, items, true, cancelledAt);
            Covers(products, items) ==>
              forall k :: 0 <= k < |products| ==> cancelled[k].stockQuantity == products[k].stockQuantity
  {
    var placed := StockAfter(products, items, false, placedAt);
    StockAfterShiftsByDemand(products, items, false, placedAt);
    StockAfterShiftsByDemand(placed, items, true, cancelledAt);
  }

  /** `completeCheckout` does not check stock: an order of 3 against a stock of 1 takes the count
      to 0, and cancelling it raises the count to 3, two more than the catalog ever had. */
  lemma UncoveredOrderCancelOverRestores(p: Product, item: UcpCartItem, placedAt: int, cancelledAt: int)
    requires p.stockQuantity == 1
    requires item.productId == p.id && item.quantity == 3
    ensures var placed := StockAfter([p], [item], false, placedAt);
            var cancelled := StockAfter(placed, [item], true, cancelledAt);
            placed[0].stockQuantity == 0 && cancelled[0].stockQuantity == 3
  {
    assert [item][..0] == [];
    assert Demand([item], p.id) == 3;
    StockAfterShiftsByDemand([p], [item], false, placedAt);
    CancelRestoresConsumedCounts([p], [item], placedAt, cancelledAt);
  }

  /** Explicit `cartItems` are not validated, so a quantity may be negative: placing -3 then 5 of a
      product with 1 in stock raises the count to 4 and clamps it to 0, and cancelling clamps at 0
      again and then adds 5, leaving 5 where the order's demand is 2 and the count before it 1. */
  lemma MixedSignOrderBreaksRestore(p: Product, a: UcpCartItem, b: UcpCartItem, placedAt: int, cancelledAt: int)
    requires p.stockQuantity == 1
    requires a.productId == p.id && a.quantity == -3
    requires b.productId == p.id && b.quantity == 5
    ensures Demand([a, b], p.id) == 2
    ensures var placed := StockAfter([p], [a, b], false, placedAt);
            var cancelled := StockAfter(placed, [a, b], true, cancelledAt);
            placed[0].stockQuantity == 0 && cancelled[0].stockQuantity == 5
  {
    assert [a, b][..1] == [a];
    assert [a][..0] == [];
    assert Demand([a], p.id) == -3;
    assert StockAfter([p], [], false, placedAt) == [p];
    assert StockDelta(a, false) == -3;
    var half := StockAfter([p], [a], false, placedAt);
    assert half == StockUpdated([p], p.id, -3, placedAt);
    assert half[0].stockQuantity == 4;
    var placed := StockAfter([p], [a, b], false, placedAt);
    assert placed == StockUpdated(half, p.id, 5, placedAt);
    assert placed[0].stockQuantity == 0;
    assert StockAfter(placed, [], true, cancelledAt) == placed;
    assert StockDelta(a, true) == 3;
    var back := StockAfter(placed, [a], true, cancelledAt);
    assert back == StockUpdated(placed, p.id, 3, cancelledAt);
    assert back[0].stockQuantity == 0;
    var cancelled := StockAfter(placed, [a, b], true, cancelledAt);
    assert cancelled == StockUpdated(back, p.id, -5, cancelledAt);
  }

  /** `cancelOrder` has no guard against an order already cancelled: placing an order and
      cancelling it twice leaves every product its demand above what the first cancellation gave
      back, and so its demand above its starting count when the catalog covered the order. */
  lemma DoubleCancelOverRestores(products: seq<Product>, items: seq<UcpCartItem>, placedAt: int, t1: int, t2: int)
    requires UniqueIds(products) && StockNonNegative(products) && QuantitiesNonNegative(items)
    ensures var placed := StockAfter(products, items, false, placedAt);
            var once := StockAfter(placed, items, true, t1);
            var twice := StockAfter(once, items, true, t2);
            forall k :: 0 <= k < |products| ==>
              twice[k].stockQuantity == once[k].stockQuantity + Demand(items, products[k].id)
    ensures var placed := StockAfter(products, items, false, placedAt);
            var twice := StockAfter(StockAfter(placed, items, true, t1), items, true, t2);
            Covers(products, items) ==>
              forall k :: 0 <= k < |products| ==>
                twice[k].stockQuantity == products[k].stockQuantity + Demand(items, products[k].id)
  {
    var placed := StockAfter(products, items, false, placedAt);
    var once := StockAfter(placed, items, true, t1);
    StockAfterShiftsByDemand(products, items, false, placedAt);
    StockAfterShiftsByDemand(placed, items, true, t1);
    StockAfterShiftsByDemand(once, items, true, t2);
  }

  /** `updateStock` never sets the in-stock flag: a product flagged out of stock stays so through
      any sequence of stock changes, restorations included. */
  lemma {:induction false} OutOfStockIsPermanent(products: seq<Product>, items: seq<UcpCartItem>, restore: bool, now: int)
    ensures forall k :: 0 <= k < |products| && !products[k].inStock ==> !StockAfter(products, items, restore, now)[k].inStock
    decreases |items|
  {
    if items != [] {
      OutOfStockIsPermanent(products, items[..|items| - 1], restore, now);
    }
  }

  /** A product sold down to zero by an order and given back by its cancellation has its count back
      but stays hidden from the listing and unavailable. */
  lemma SoldOutThenCancelledStaysHidden(p: Product, item: UcpCartItem, placedAt: int, cancelledAt: int)
    requires p.inStock && p.stockQuantity == 2
    requires item.productId == p.id && item.quantity == 2
    ensures var placed := StockAfter([p], [item], false, placedAt);
            var cancelled := StockAfter(placed, [item], true, cancelledAt);
            && cancelled[0].stockQuantity == 2
            && !cancelled[0].inStock
            && GetAllProducts(cancelled) == []
            && !CheckAvailability(cancelled, p.id, 1)
  {
    var placed := StockAfter([p], [item], false, placedAt);
    assert [item][..0] == [];
    assert StockAfter([p], [], false, placedAt) == [p];
    assert IndexOfProduct([p], p.id) == Some(0);
    assert placed == StockUpdated([p], p.id, 2, placedAt);
    assert placed == [AdjustedProduct(p, 2, placedAt)];
    var cancelled := StockAfter(placed, [item], true, cancelledAt);
    assert IndexOfProduct(placed, p.id) == Some(0);
    assert StockAfter(placed, [], true, cancelledAt) == placed;
    assert StockDelta(item, true) == -2;
    assert cancelled == StockUpdated(placed, p.id, -2, cancelledAt);
    assert cancelled == [AdjustedProduct(placed[0], -2, cancelledAt)];
    assert cancelled[0].stockQuantity == 2 && !cancelled[0].inStock;
    assert !(cancelled[0] in GetAllProducts(cancelled));
  }

  /** `addItem` checks availability of the added quantity only: a cart line for a product with 5 in
      stock can grow from 3 to 6. */
  lemma MergedLineCanExceedStock(p: Product, line: CartItem, now: int)
    requires p.inStock && p.stockQuantity == 5
    requires line.productId == p.id && line.quantity == 3
    ensures CheckAvailability([p], p.id, 3)
    ensures AddLine([line], p.id, 3, now)[0].quantity == 6 > p.stockQuantity
  {
    assert LineIndex([line], p.id) == Some(0);
  }
}
