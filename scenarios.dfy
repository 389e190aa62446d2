/**
 * A client of the three services: one cart line of 2 units at 10.00 from a stock of 5, checked out,
 * completed, completed again, and its payment failed. Every assertion follows from the services'
 * contracts alone.
 */
module Scenarios {
  import opened Wrappers
  import opened ProductTypes
  import opened Products
  import opened Carts
  import opened UcpTypes
  import opened Ucp

  /** The checkout item the scenario's cart line becomes. */
  function ScenarioItem(p1: Product): (r: UcpCartItem)
  {
    UcpCartItem("P1", p1.name, p1.description, 2, 10.0, 20.0, Some(p1.imageUrl), Some(ItemMetadata(p1.category, p1.tags)))
  }

  /** The cart hands over one item worth 20.00. */
  lemma ScenarioCartItems(p1: Product, cart: Cart)
    requires p1.id == "P1" && p1.price == 10.0
    requires cart.items == [CartItem("P1", 2, 1)]
    ensures ConvertCartToUCPItems(map["C1" := cart], [p1], "C1") == Ok([ScenarioItem(p1)])
  {
    assert IndexOfProduct([p1], "P1") == Some(0);
    var lines := [PricedLine("P1", p1, 2, 10.0, 20.0, 1)];
    assert PriceLines(cart.items, [p1]) == lines;
    assert GetCartWithDetails(map["C1" := cart], [p1], "C1") == Some(CartDetails(cart, lines, SumTotals(lines), SumQuantities(lines)));
    assert ToUcpItems(lines) == [ScenarioItem(p1)];
  }

  /** Placing the order takes the catalog's 5 units down to 3. */
  lemma ScenarioStock(p1: Product, now: int)
    requires p1.id == "P1" && p1.inStock && p1.stockQuantity == 5
    ensures var after := StockAfter([p1], [ScenarioItem(p1)], false, now);
            |after| == 1 && after[0].stockQuantity == 3 && after[0].inStock
  {
    assert [ScenarioItem(p1)][..0] == [];
    assert IndexOfProduct([p1], "P1") == Some(0);
    assert StockAfter([p1], [ScenarioItem(p1)], false, now) == StockUpdated([p1], "P1", 2, now);
  }

  /** The session for the scenario's item: 20.00 + 1.60 tax + 5.99 shipping = 27.59, in USD,
      expiring thirty minutes after creation. */
  lemma ScenarioSession(p1: Product, request: CheckoutRequest)
    requires request.cartItems == [ScenarioItem(p1)] && request.currency == None
    ensures var s := NewSession(request, "shop", "S1", 2);
            && s.subtotal == 20.0 && s.tax == 1.6 && s.shipping == 5.99 && s.total == 27.59
            && s.currency == "USD" && s.expiresAt == 1800002
  {
    assert SumItemTotals([ScenarioItem(p1)]) == 20.0;
  }

  /** The cart: one line of 2 units becomes one checkout item worth 20.00. */
  method CartScenario(p1: Product)
    requires p1.id == "P1" && p1.inStock && p1.stockQuantity == 5 && p1.price == 10.0
  {
    var catalog := new ProductService([p1]);
    var cartService := new CartService(catalog);
    var cart := cartService.CreateCart("C1", None, 0);
    assert IndexOfProduct(catalog.products, "P1") == Some(0);
    var added := cartService.AddItem("C1", "P1", 2, 1);
    assert added.Ok? && added.value.items == [CartItem("P1", 2, 1)];
    assert cartService.carts == map["C1" := added.value];
    ScenarioCartItems(p1, added.value);
    var items := ConvertCartToUCPItems(cartService.carts, catalog.products, "C1");
    assert items == Ok([ScenarioItem(p1)]);
  }

  /** The checkout: subtotal 20.00, tax 1.60, shipping 5.99, total 27.59; completion leaves 3 in
      stock and an order awaiting payment; a second completion fails. */
  method CheckoutScenario(p1: Product)
    requires p1.id == "P1" && p1.inStock && p1.stockQuantity == 5 && p1.price == 10.0
  {
    var catalog := new ProductService([p1]);
    var cartService := new CartService(catalog);
    var ucp := new UCPService(catalog, cartService);
    var items := [ScenarioItem(p1)];

    var request := CheckoutRequest(items, None, None, None, None);
    var response := ucp.CreateCheckoutSession(request, "shop", "S1", 2);
    ScenarioSession(p1, request);
    var session := ucp.checkoutSessions["S1"];
    assert session.total == 27.59 && session.expiresAt == 1800002;

    var placed := ucp.CompleteCheckout("S1", Some("alice"), "O1", 3);
    assert placed.Ok? && placed.value.status == OrderStatus.PendingPayment;
    assert ucp.checkoutSessions["S1"].status == SessionStatus.Completed;
    ScenarioStock(p1, 3);
    assert catalog.products[0].stockQuantity == 3;

    var again := ucp.CompleteCheckout("S1", None, "O2", 4);
    assert again == Err(InvalidSessionStatus(SessionStatus.Completed));
    assert "O2" !in ucp.orders;
  }

  /** A failed payment on a freshly placed order cancels it and leaves two webhook events. */
  method PaymentFailureScenario(p1: Product)
    requires p1.id == "P1" && p1.inStock && p1.stockQuantity == 5 && p1.price == 10.0
  {
    var catalog := new ProductService([p1]);
    var cartService := new CartService(catalog);
    var ucp := new UCPService(catalog, cartService);
    var request := CheckoutRequest([ScenarioItem(p1)], None, None, None, None);
    var response := ucp.CreateCheckoutSession(request, "shop", "S1", 2);
    assert ucp.checkoutSessions["S1"].status == SessionStatus.Pending;
    assert ucp.checkoutSessions["S1"].expiresAt == 2 + 1800000;
    assert ucp.webhookLog == [];
    var placed := ucp.CompleteCheckout("S1", Some("alice"), "O1", 3);
    assert ucp.webhookLog == [WebhookEvent(OrderCreated, "O1", 3)];
    assert "O1" in ucp.orders;

    var failed := ucp.UpdatePaymentStatus("O1", PaymentStatus.Failed, 5);
    assert failed.Ok? && failed.value.status == OrderStatus.Cancelled;
    assert ucp.webhookLog == [WebhookEvent(OrderCreated, "O1", 3), WebhookEvent(PaymentFailed, "O1", 5)];
  }
}
