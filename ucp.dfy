/**
 * The checkout and order lifecycle (`UCPService`): checkout sessions that move from pending to
 * completed, cancelled or expired; orders with order, payment and fulfilment status; stock
 * consumption on completion and restoration on cancellation; and webhook events.
 *
 * Time is the parameter `now` (milliseconds), ids the source draws from uuid are fresh-id
 * parameters, the expiry timer is the explicit `ExpireSession`, and webhook delivery is an
 * append-only ghost log of events.
 */
module Ucp {
  import opened Wrappers
  import opened Sequences
  import opened ProductTypes
  import opened Products
  import opened Carts
  import opened UcpTypes

  const TaxRate: real := 0.08
  const ShippingCost: real := 5.99
  const SessionExpiryMinutes: int := 30
  const MillisPerMinute: int := 60000

  /** The errors the service throws, and the route's missing-items rejection. */
  datatype UcpError =
    | SessionNotFound
    | InvalidSessionStatus(status: SessionStatus)
    | SessionExpired
    | OrderNotFound
    | OrderNotCancellable
    | CartNotFound
    | MissingCheckoutItems

  // ----- building a session -----

  /** `cartItems.reduce((sum, item) => sum + item.totalPrice, 0)`. */
  function SumItemTotals(items: seq<UcpCartItem>): (r: real)
  {
    if items == [] then 0.0 else items[0].totalPrice + SumItemTotals(items[1..])
  }

  /** `request.currency || 'USD'`: a missing or empty currency falls back to USD. */
  function SessionCurrency(currency: Option<string>): (r: string)
    ensures currency.Some? && currency.value != "" ==> r == currency.value
    ensures currency.None? || currency.value == "" ==> r == "USD"
    ensures r != ""
  {
    if currency.Some? && currency.value != "" then currency.value else "USD"
  }

  /** The session `createCheckoutSession` stores: pending, priced at an 8% tax and a flat 5.99
      shipping, expiring thirty minutes after `now`. */
  function NewSession(request: CheckoutRequest, merchantId: string, sessionId: string, now: int): (s: CheckoutSession)
    ensures s.sessionId == sessionId && s.merchantId == merchantId
    ensures s.status == SessionStatus.Pending
    ensures s.cartItems == request.cartItems
    ensures s.subtotal == SumItemTotals(request.cartItems)
    ensures s.tax == s.subtotal * 8.0 / 100.0
    ensures s.shipping == 5.99
    ensures s.total == s.subtotal + s.tax + s.shipping
    ensures s.createdAt == now && s.expiresAt == now + 30 * 60 * 1000
    ensures s.currency == SessionCurrency(request.currency) && s.metadata == request.metadata
  {
    var subtotal := SumItemTotals(request.cartItems);
    var tax := subtotal * TaxRate;
    CheckoutSession(sessionId, merchantId, SessionStatus.Pending, request.cartItems, subtotal, tax,
      ShippingCost, subtotal + tax + ShippingCost, SessionCurrency(request.currency),
      now, now + SessionExpiryMinutes * MillisPerMinute, request.metadata)
  }

  /** A session in this status may still be completed. */
  predicate Completable(status: SessionStatus)
  {
    status == SessionStatus.Pending || status == SessionStatus.Active
  }

  /** The order a successful `completeCheckout` stores: awaiting payment, with payment and
      fulfilment pending, and the session's items, totals, currency and metadata. */
  function OrderFromSession(session: CheckoutSession, orderId: string, customerId: Option<string>, now: int): (o: Order)
    ensures o.orderId == orderId && o.sessionId == session.sessionId && o.merchantId == session.merchantId
    ensures o.customerId == customerId
    ensures o.status == OrderStatus.PendingPayment
    ensures o.paymentStatus == PaymentStatus.Pending && o.fulfillmentStatus == FulfillmentStatus.Pending
    ensures o.items == session.cartItems
    ensures o.subtotal == session.subtotal && o.tax == session.tax && o.shipping == session.shipping && o.total == session.total
    ensures o.currency == session.currency && o.metadata == session.metadata
    ensures o.createdAt == now && o.updatedAt == now
  {
    Order(orderId, session.sessionId, session.merchantId, customerId, OrderStatus.PendingPayment,
      session.cartItems, session.subtotal, session.tax, session.shipping, session.total,
      session.currency, PaymentStatus.Pending, FulfillmentStatus.Pending, now, now, session.metadata)
  }

  // ----- order status rules -----

  /** The event `updateOrderStatus` raises: `order.confirmed` for a confirmed order, otherwise
      `order.created` whatever the new status is. */
  function OrderStatusEvent(status: OrderStatus): (e: EventType)
    ensures e == OrderConfirmed <==> status == OrderStatus.Confirmed
    ensures e == OrderConfirmed || e == OrderCreated
  {
    if status == OrderStatus.Confirmed then OrderConfirmed else OrderCreated
  }

  /** The order after `updatePaymentStatus`: a completed payment confirms the order, a failed one
      cancels it, any other payment status leaves the order status alone. */
  function WithPayment(o: Order, paymentStatus: PaymentStatus, now: int): (r: Order)
    ensures r.paymentStatus == paymentStatus && r.updatedAt == now
    ensures paymentStatus == PaymentStatus.Completed ==> r.status == OrderStatus.Confirmed
    ensures paymentStatus == PaymentStatus.Failed ==> r.status == OrderStatus.Cancelled
    ensures paymentStatus != PaymentStatus.Completed && paymentStatus != PaymentStatus.Failed ==> r.status == o.status
    ensures r == o.(status := r.status, paymentStatus := paymentStatus, updatedAt := now)
  {
    var status :=
      if paymentStatus == PaymentStatus.Completed then OrderStatus.Confirmed
      else if paymentStatus == PaymentStatus.Failed then OrderStatus.Cancelled
      else o.status;
    o.(paymentStatus := paymentStatus, updatedAt := now, status := status)
  }

  /** The event `updatePaymentStatus` raises: `payment.completed` exactly for a completed payment,
      and `payment.failed` for every other payment status, pending and refunded included. */
  function PaymentEvent(paymentStatus: PaymentStatus): (e: EventType)
    ensures e == PaymentCompleted <==> paymentStatus == PaymentStatus.Completed
    ensures e == PaymentFailed <==> paymentStatus != PaymentStatus.Completed
  {
    if paymentStatus == PaymentStatus.Completed then PaymentCompleted else PaymentFailed
  }

  /** The order after `updateFulfillmentStatus`: shipped and delivered carry over to the order
      status; any other fulfilment status changes only the fulfilment field. */
  function WithFulfillment(o: Order, fulfillmentStatus: FulfillmentStatus, now: int): (r: Order)
    ensures r.fulfillmentStatus == fulfillmentStatus && r.updatedAt == now
    ensures fulfillmentStatus == FulfillmentStatus.Shipped ==> r.status == OrderStatus.Shipped
    ensures fulfillmentStatus == FulfillmentStatus.Delivered ==> r.status == OrderStatus.Delivered
    ensures fulfillmentStatus != FulfillmentStatus.Shipped && fulfillmentStatus != FulfillmentStatus.Delivered ==> r.status == o.status
    ensures r == o.(status := r.status, fulfillmentStatus := fulfillmentStatus, updatedAt := now)
  {
    var status :=
      if fulfillmentStatus == FulfillmentStatus.Shipped then OrderStatus.Shipped
      else if fulfillmentStatus == FulfillmentStatus.Delivered then OrderStatus.Delivered
      else o.status;
    o.(fulfillmentStatus := fulfillmentStatus, updatedAt := now, status := status)
  }

  /** The event `updateFulfillmentStatus` raises, if any: one for shipped and one for delivered. */
  function FulfillmentEvent(fulfillmentStatus: FulfillmentStatus): (e: Option<EventType>)
    ensures e == Some(ShipmentCreated) <==> fulfillmentStatus == FulfillmentStatus.Shipped
    ensures e == Some(ShipmentDelivered) <==> fulfillmentStatus == FulfillmentStatus.Delivered
    ensures e.None? <==> fulfillmentStatus != FulfillmentStatus.Shipped && fulfillmentStatus != FulfillmentStatus.Delivered
  {
    if fulfillmentStatus == FulfillmentStatus.Shipped then Some(ShipmentCreated)
    else if fulfillmentStatus == FulfillmentStatus.Delivered then Some(ShipmentDelivered)
    else None
  }

  /** `cancelOrder` refuses only shipped and delivered orders; a cancelled order may be cancelled again. */
  predicate Cancellable(status: OrderStatus)
  {
    status != OrderStatus.Shipped && status != OrderStatus.Delivered
  }

  // ----- stock effects -----

  /** The `quantity` argument each item passes to `updateStock`: its quantity when the order is
      placed, its negation when the order is cancelled. */
  function StockDelta(item: UcpCartItem, restore: bool): (r: int)
  {
    if restore then -item.quantity else item.quantity
  }

  /** The catalog after calling `updateStock` for each item in order. */
  function StockAfter(products: seq<Product>, items: seq<UcpCartItem>, restore: bool, now: int): (r: seq<Product>)
    ensures |r| == |products|
    ensures forall i :: 0 <= i < |r| ==> r[i].id == products[i].id
    ensures StockNonNegative(products) ==> StockNonNegative(r)
    ensures UniqueIds(products) ==> UniqueIds(r)
    decreases |items|
  {
    if items == [] then products
    else
      var last := items[|items| - 1];
      StockUpdated(StockAfter(products, items[..|items| - 1], restore, now), last.productId, StockDelta(last, restore), now)
  }

  /** One more item is one more `updateStock` call on the catalog reached so far. */
  lemma StockAfterStep(products: seq<Product>, items: seq<UcpCartItem>, i: nat, restore: bool, now: int)
    requires i < |items|
    ensures StockAfter(products, items[..i + 1], restore, now)
         == StockUpdated(StockAfter(products, items[..i], restore, now), items[i].productId, StockDelta(items[i], restore), now)
  {
    assert items[..i + 1][..i] == items[..i];
  }

  // ----- the cart hand-over -----

  /** One checkout item per priced cart line, keeping product, quantity and prices, in cart order. */
  function ToUcpItems(lines: seq<PricedLine>): (r: seq<UcpCartItem>)
    ensures |r| == |lines|
    ensures forall k :: 0 <= k < |lines| ==>
      && r[k].productId == lines[k].productId
      && r[k].quantity == lines[k].quantity
      && r[k].unitPrice == lines[k].unitPrice
      && r[k].totalPrice == lines[k].totalPrice
      && r[k].name == lines[k].product.name
      && r[k].description == lines[k].product.description
      && r[k].imageUrl == Some(lines[k].product.imageUrl)
      && r[k].metadata == Some(ItemMetadata(lines[k].product.category, lines[k].product.tags))
  {
    if lines == [] then []
    else
      var l := lines[0];
      [UcpCartItem(l.productId, l.product.name, l.product.description, l.quantity, l.unitPrice,
        l.totalPrice, Some(l.product.imageUrl), Some(ItemMetadata(l.product.category, l.product.tags)))]
      + ToUcpItems(lines[1..])
  }

  /** `convertCartToUCPItems`: an error for an unknown cart, otherwise the cart's priced lines as
      checkout items; their totals add up to the cart's value at current prices. */
  function ConvertCartToUCPItems(carts: map<string, Cart>, products: seq<Product>, cartId: string): (r: Result<seq<UcpCartItem>, UcpError>)
    ensures r.Err? <==> cartId !in carts
    ensures r.Err? ==> r.error == UcpError.CartNotFound
    ensures r.Ok? ==> r.value == ToUcpItems(PriceLines(carts[cartId].items, products))
    ensures r.Ok? ==> SumItemTotals(r.value) == CartValue(carts[cartId].items, products)
  {
    match GetCartWithDetails(carts, products, cartId)
    case None => Err(UcpError.CartNotFound)
    case Some(details) =>
      ToUcpItemsKeepTotal(details.items);
      Ok(ToUcpItems(details.items))
  }

  /** Converting priced lines keeps their summed total. */
  lemma {:induction false} ToUcpItemsKeepTotal(lines: seq<PricedLine>)
    ensures SumItemTotals(ToUcpItems(lines)) == SumTotals(lines)
  {
    if lines != [] {
      ToUcpItemsKeepTotal(lines[1..]);
      assert ToUcpItems(lines)[1..] == ToUcpItems(lines[1..]);
    }
  }

  /** The route's choice of checkout items: a non-empty cart id wins, then explicit items (even an
      empty list), and with neither the request is rejected. */
  function SelectCheckoutItems(cartId: Option<string>, cartItems: Option<seq<UcpCartItem>>,
                               carts: map<string, Cart>, products: seq<Product>): (r: Result<seq<UcpCartItem>, UcpError>)
    ensures cartId.Some? && cartId.value != "" ==> r == ConvertCartToUCPItems(carts, products, cartId.value)
    ensures (cartId.None? || cartId.value == "") && cartItems.Some? ==> r == Ok(cartItems.value)
    ensures (cartId.None? || cartId.value == "") && cartItems.None? ==> r == Err(MissingCheckoutItems)
  {
    if cartId.Some? && cartId.value != "" then ConvertCartToUCPItems(carts, products, cartId.value)
    else if cartItems.Some? then Ok(cartItems.value)
    else Err(MissingCheckoutItems)
  }

  // ----- customer order listing -----

  /** The orders filed under `ids`, in that order (the iteration order of the orders map). */
  function OrdersInOrder(ids: seq<string>, orders: map<string, Order>): (r: seq<Order>)
    requires forall i :: 0 <= i < |ids| ==> ids[i] in orders
    ensures |r| == |ids|
    ensures forall i :: 0 <= i < |ids| ==> r[i] == orders[ids[i]]
  {
    if ids == [] then [] else [orders[ids[0]]] + OrdersInOrder(ids[1..], orders)
  }

  /** When every order is filed under its own id and every id is listed once, the listing holds
      every stored order exactly once. */
  lemma OrdersInOrderListsEachOnce(ids: seq<string>, orders: map<string, Order>)
    requires Distinct(ids)
    requires forall i :: 0 <= i < |ids| ==> ids[i] in orders
    requires forall id :: id in orders ==> orders[id].orderId == id && id in ids
    ensures forall o :: o in orders.Values ==> o in OrdersInOrder(ids, orders)
    ensures forall o :: multiset(OrdersInOrder(ids, orders))[o] <= 1
  {
    var all := OrdersInOrder(ids, orders);
    assert Distinct(all) by {
      forall i, j | 0 <= i < j < |all| ensures all[i] != all[j] {
        assert all[i].orderId == ids[i] && all[j].orderId == ids[j];
      }
    }
    DistinctCountsAtMostOne(all);
    forall o | o in orders.Values ensures o in all {
      var id :| id in orders && orders[id] == o;
      var i :| 0 <= i < |ids| && ids[i] == id;
      assert all[i] == o;
    }
  }

  /** The sort key of `getCustomerOrders`. */
  function CreatedAt(o: Order): (r: int)
  {
    o.createdAt
  }

  /** Newest first: no order is preceded by one created later. */
  ghost predicate NewestFirst(os: seq<Order>)
  {
    forall i, j :: 0 <= i < j < |os| ==> os[i].createdAt >= os[j].createdAt
  }

  /** The filter predicate of `getCustomerOrders`: the order was placed by this customer. */
  function PlacedBy(customerId: string): (f: Order -> bool)
    ensures forall o :: f(o) == (o.customerId == Some(customerId))
  {
    (o: Order) => o.customerId == Some(customerId)
  }

  /** `getCustomerOrders` on the orders in map order: exactly those placed by the customer, each
      as often as it occurs, newest first, and orders created at the same time in map order (the
      JavaScript sort is stable). */
  function CustomerOrders(all: seq<Order>, customerId: string): (r: seq<Order>)
    ensures forall o :: o in r <==> o in all && o.customerId == Some(customerId)
    ensures forall o :: multiset(r)[o] == if o.customerId == Some(customerId) then multiset(all)[o] else 0
    ensures NewestFirst(r)
    ensures forall v :: Filter(r, KeyIs(CreatedAt, v)) == Filter(Filter(all, PlacedBy(customerId)), KeyIs(CreatedAt, v))
  {
    var mine := Filter(all, PlacedBy(customerId));
    var r := SortDescending(mine, CreatedAt);
    assert forall o :: o in r <==> o in multiset(mine);
    forall v ensures Filter(r, KeyIs(CreatedAt, v)) == Filter(mine, KeyIs(CreatedAt, v)) {
      SortDescendingIsStable(mine, CreatedAt, v);
    }
    r
  }

  /** The service. Sessions and orders are filed under their own ids; `orderIds` lists the order
      ids once each, in insertion order; the cart service prices against the same catalog whose
      stock this service changes (both use the one shared product service). */
  class UCPService {
    const catalog: ProductService
    const carts: CartService
    var checkoutSessions: map<string, CheckoutSession>
    var orders: map<string, Order>
    var orderIds: seq<string>
    ghost var webhookLog: seq<WebhookEvent>

    ghost predicate Valid()
      reads this
    {
      && (forall id :: id in checkoutSessions ==> checkoutSessions[id].sessionId == id)
      && (forall id :: id in orders ==> orders[id].orderId == id)
      && Distinct(orderIds)
      && (forall i :: 0 <= i < |orderIds| ==> orderIds[i] in orders)
      && (forall id :: id in orders ==> id in orderIds)
      && carts.catalog == catalog
    }

    constructor (catalog: ProductService, carts: CartService)
      requires carts.catalog == catalog
      ensures Valid()
      ensures this.catalog == catalog && this.carts == carts
      ensures checkoutSessions == map[] && orders == map[] && orderIds == [] && webhookLog == []
    {
      this.catalog := catalog;
      this.carts := carts;
      checkoutSessions := map[];
      orders := map[];
      orderIds := [];
      webhookLog := [];
    }

    /** `createCheckoutSession` under the fresh id `sessionId`; nothing else changes. The expiry
        timer it schedules is `ExpireSession`, called by whoever models the clock. */
    method CreateCheckoutSession(request: CheckoutRequest, merchantId: string, sessionId: string, now: int)
      returns (response: CheckoutResponse)
      requires Valid()
      requires sessionId !in checkoutSessions
      modifies this
      ensures Valid()
      ensures checkoutSessions == old(checkoutSessions)[sessionId := NewSession(request, merchantId, sessionId, now)]
      ensures response == CheckoutResponse(sessionId, "/checkout/" + sessionId, now + 30 * 60000)
      ensures orders == old(orders) && orderIds == old(orderIds) && webhookLog == old(webhookLog)
    {
      var session := NewSession(request, merchantId, sessionId, now);
      checkoutSessions := checkoutSessions[sessionId := session];
      response := CheckoutResponse(sessionId, "/checkout/" + sessionId, session.expiresAt);
    }

    /** `getCheckoutSession`. */
    function GetCheckoutSession(sessionId: string): (r: Option<CheckoutSession>)
      reads this
      ensures r.Some? <==> sessionId in checkoutSessions
      ensures r.Some? ==> r.value == checkoutSessions[sessionId]
    {
      if sessionId in checkoutSessions then Some(checkoutSessions[sessionId]) else None
    }

    /** The `forEach` that calls `updateStock` once per item. */
    method AdjustStock(items: seq<UcpCartItem>, restore: bool, now: int)
      modifies catalog
      ensures catalog.products == StockAfter(old(catalog.products), items, restore, now)
    {
      var i := 0;
      while i < |items|
        invariant 0 <= i <= |items|
        invariant catalog.products == StockAfter(old(catalog.products), items[..i], restore, now)
      {
        StockAfterStep(old(catalog.products), items, i, restore, now);
        var found := catalog.UpdateStock(items[i].productId, StockDelta(items[i], restore), now);
        i := i + 1;
      }
      assert items[..i] == items;
    }

    /** `completeCheckout` with the fresh order id `orderId`. An unknown session or one that is no
        longer pending or active fails with nothing changed; a session past its expiry is marked
        expired and fails; otherwise the session completes, one order is stored, each item's stock
        is consumed, and one `order.created` event is logged. */
    method CompleteCheckout(sessionId: string, customerId: Option<string>, orderId: string, now: int)
      returns (r: Result<Order, UcpError>)
      requires Valid()
      requires orderId !in orders
      modifies this, catalog
      ensures Valid()
      ensures sessionId !in old(checkoutSessions) ==>
        && r == Err(SessionNotFound)
        && checkoutSessions == old(checkoutSessions) && orders == old(orders) && orderIds == old(orderIds)
        && webhookLog == old(webhookLog) && catalog.products == old(catalog.products)
      ensures sessionId in old(checkoutSessions) && !Completable(old(checkoutSessions)[sessionId].status) ==>
        && r == Err(InvalidSessionStatus(old(checkoutSessions)[sessionId].status))
        && checkoutSessions == old(checkoutSessions) && orders == old(orders) && orderIds == old(orderIds)
        && webhookLog == old(webhookLog) && catalog.products == old(catalog.products)
      ensures sessionId in old(checkoutSessions) && Completable(old(checkoutSessions)[sessionId].status)
              && now > old(checkoutSessions)[sessionId].expiresAt ==>
        && r == Err(SessionExpired)
        && checkoutSessions == old(checkoutSessions)[sessionId := old(checkoutSessions)[sessionId].(status := SessionStatus.Expired)]
        && orders == old(orders) && orderIds == old(orderIds)
        && webhookLog == old(webhookLog) && catalog.products == old(catalog.products)
      ensures sessionId in old(checkoutSessions) && Completable(old(checkoutSessions)[sessionId].status)
              && now <= old(checkoutSessions)[sessionId].expiresAt ==>
        var session := old(checkoutSessions)[sessionId];
        var order := OrderFromSession(session, orderId, customerId, now);
        && r == Ok(order)
        && checkoutSessions == old(checkoutSessions)[sessionId := session.(status := SessionStatus.Completed)]
        && orders == old(orders)[orderId := order]
        && orderIds == old(orderIds) + [orderId]
        && webhookLog == old(webhookLog) + [WebhookEvent(OrderCreated, orderId, now)]
        && catalog.products == StockAfter(old(catalog.products), session.cartItems, false, now)
    {
      if sessionId !in checkoutSessions {
        return Err(SessionNotFound);
      }
      var session := checkoutSessions[sessionId];
      if !Completable(session.status) {
        return Err(InvalidSessionStatus(session.status));
      }
      if now > session.expiresAt {
        checkoutSessions := checkoutSessions[sessionId := session.(status := SessionStatus.Expired)];
        return Err(SessionExpired);
      }
      checkoutSessions := checkoutSessions[sessionId := session.(status := SessionStatus.Completed)];
      var order := OrderFromSession(session, orderId, customerId, now);
      orders := orders[orderId := order];
      orderIds := orderIds + [orderId];
      webhookLog := webhookLog + [WebhookEvent(OrderCreated, orderId, now)];
      assert Valid();
      AdjustStock(session.cartItems, false, now);
      r := Ok(order);
    }

    /** `cancelCheckoutSession`: false for an unknown session; otherwise the status becomes
        cancelled whatever it was, completed and expired included, and nothing else changes. */
    method CancelCheckoutSession(sessionId: string) returns (found: bool)
      requires Valid()
      modifies this
      ensures Valid()
      ensures found == (sessionId in old(checkoutSessions))
      ensures found ==> checkoutSessions == old(checkoutSessions)[sessionId := old(checkoutSessions)[sessionId].(status := SessionStatus.Cancelled)]
      ensures !found ==> checkoutSessions == old(checkoutSessions)
      ensures orders == old(orders) && orderIds == old(orderIds) && webhookLog == old(webhookLog)
    {
      if sessionId !in checkoutSessions {
        return false;
      }
      checkoutSessions := checkoutSessions[sessionId := checkoutSessions[sessionId].(status := SessionStatus.Cancelled)];
      found := true;
    }

    /** `expireSession`, the timer's callback: a pending session becomes expired; a session in any
        other status, or an unknown one, is left as it is. */
    method ExpireSession(sessionId: string)
      requires Valid()
      modifies this
      ensures Valid()
      ensures sessionId in old(checkoutSessions) && old(checkoutSessions)[sessionId].status == SessionStatus.Pending ==>
        checkoutSessions == old(checkoutSessions)[sessionId := old(checkoutSessions)[sessionId].(status := SessionStatus.Expired)]
      ensures !(sessionId in old(checkoutSessions) && old(checkoutSessions)[sessionId].status == SessionStatus.Pending) ==>
        checkoutSessions == old(checkoutSessions)
      ensures orders == old(orders) && orderIds == old(orderIds) && webhookLog == old(webhookLog)
    {
      if sessionId in checkoutSessions && checkoutSessions[sessionId].status == SessionStatus.Pending {
        checkoutSessions := checkoutSessions[sessionId := checkoutSessions[sessionId].(status := SessionStatus.Expired)];
      }
    }

    /** `getOrder`. */
    function GetOrder(orderId: string): (r: Option<Order>)
      reads this
      ensures r.Some? <==> orderId in orders
      ensures r.Some? ==> r.value == orders[orderId]
    {
      if orderId in orders then Some(orders[orderId]) else None
    }

    /** `getCustomerOrders`: exactly the stored orders placed by the customer, each once, newest
        first, and orders created at the same time in insertion order. */
    function GetCustomerOrders(customerId: string): (r: seq<Order>)
      reads this
      requires Valid()
      ensures forall o :: o in r <==> o in orders.Values && o.customerId == Some(customerId)
      ensures forall o :: multiset(r)[o] <= 1
      ensures NewestFirst(r)
      ensures forall v :: Filter(r, KeyIs(CreatedAt, v)) == Filter(Filter(OrdersInOrder(orderIds, orders), PlacedBy(customerId)), KeyIs(CreatedAt, v))
    {
      OrdersInOrderListsEachOnce(orderIds, orders);
      CustomerOrders(OrdersInOrder(orderIds, orders), customerId)
    }

    /** `updateOrderStatus`: an unknown order fails; otherwise the status is overwritten and an
        `order.confirmed` or `order.created` event is logged. */
    method UpdateOrderStatus(orderId: string, status: OrderStatus, now: int) returns (r: Result<Order, UcpError>)
      requires Valid()
      modifies this
      ensures Valid()
      ensures orderId !in old(orders) ==> r == Err(OrderNotFound) && orders == old(orders) && webhookLog == old(webhookLog)
      ensures orderId in old(orders) ==>
        var order := old(orders)[orderId].(status := status, updatedAt := now);
        && r == Ok(order)
        && orders == old(orders)[orderId := order]
        && webhookLog == old(webhookLog) + [WebhookEvent(OrderStatusEvent(status), orderId, now)]
      ensures checkoutSessions == old(checkoutSessions) && orderIds == old(orderIds)
    {
      if orderId !in orders {
        return Err(OrderNotFound);
      }
      var order := orders[orderId].(status := status, updatedAt := now);
      orders := orders[orderId := order];
      webhookLog := webhookLog + [WebhookEvent(OrderStatusEvent(status), orderId, now)];
      r := Ok(order);
    }

    /** `updatePaymentStatus`: an unknown order fails; otherwise the payment status is recorded,
        mapped onto the order status, and a payment event is logged. */
    method UpdatePaymentStatus(orderId: string, paymentStatus: PaymentStatus, now: int) returns (r: Result<Order, UcpError>)
      requires Valid()
      modifies this
      ensures Valid()
      ensures orderId !in old(orders) ==> r == Err(OrderNotFound) && orders == old(orders) && webhookLog == old(webhookLog)
      ensures orderId in old(orders) ==>
        var order := WithPayment(old(orders)[orderId], paymentStatus, now);
        && r == Ok(order)
        && orders == old(orders)[orderId := order]
        && webhookLog == old(webhookLog) + [WebhookEvent(PaymentEvent(paymentStatus), orderId, now)]
      ensures checkoutSessions == old(checkoutSessions) && orderIds == old(orderIds)
    {
      if orderId !in orders {
        return Err(OrderNotFound);
      }
      var order := WithPayment(orders[orderId], paymentStatus, now);
      orders := orders[orderId := order];
      webhookLog := webhookLog + [WebhookEvent(PaymentEvent(paymentStatus), orderId, now)];
      r := Ok(order);
    }

    /** `updateFulfillmentStatus`: an unknown order fails; otherwise the fulfilment status is
        recorded, shipped and delivered carry over to the order status with their event, and other
        values log nothing. */
    method UpdateFulfillmentStatus(orderId: string, fulfillmentStatus: FulfillmentStatus, now: int)
      returns (r: Result<Order, UcpError>)
      requires Valid()
      modifies this
      ensures Valid()
      ensures orderId !in old(orders) ==> r == Err(OrderNotFound) && orders == old(orders) && webhookLog == old(webhookLog)
      ensures orderId in old(orders) ==>
        var order := WithFulfillment(old(orders)[orderId], fulfillmentStatus, now);
        && r == Ok(order)
        && orders == old(orders)[orderId := order]
        && webhookLog == old(webhookLog) +
             (match FulfillmentEvent(fulfillmentStatus)
              case None => []
              case Some(e) => [WebhookEvent(e, orderId, now)])
      ensures checkoutSessions == old(checkoutSessions) && orderIds == old(orderIds)
    {
      if orderId !in orders {
        return Err(OrderNotFound);
      }
      var order := WithFulfillment(orders[orderId], fulfillmentStatus, now);
      orders := orders[orderId := order];
      match FulfillmentEvent(fulfillmentStatus) {
        case None =>
        case Some(e) =>
          webhookLog := webhookLog + [WebhookEvent(e, orderId, now)];
      }
      r := Ok(order);
    }

    /** `cancelOrder`: an unknown order, or one shipped or delivered, fails with nothing changed;
        otherwise the order is cancelled, an `order.cancelled` event is logged and each item's
        quantity is given back to stock. Nothing stops a cancelled order being cancelled again. */
    method CancelOrder(orderId: string, now: int) returns (r: Result<Order, UcpError>)
      requires Valid()
      modifies this, catalog
      ensures Valid()
      ensures orderId !in old(orders) ==>
        && r == Err(OrderNotFound)
        && orders == old(orders) && webhookLog == old(webhookLog) && catalog.products == old(catalog.products)
      ensures orderId in old(orders) && !Cancellable(old(orders)[orderId].status) ==>
        && r == Err(OrderNotCancellable)
        && orders == old(orders) && webhookLog == old(webhookLog) && catalog.products == old(catalog.products)
      ensures orderId in old(orders) && Cancellable(old(orders)[orderId].status) ==>
        var order := old(orders)[orderId].(status := OrderStatus.Cancelled, updatedAt := now);
        && r == Ok(order)
        && orders == old(orders)[orderId := order]
        && webhookLog == old(webhookLog) + [WebhookEvent(OrderCancelled, orderId, now)]
        && catalog.products == StockAfter(old(catalog.products), order.items, true, now)
      ensures checkoutSessions == old(checkoutSessions) && orderIds == old(orderIds)
    {
      if orderId !in orders {
        return Err(OrderNotFound);
      }
      if !Cancellable(orders[orderId].status) {
        return Err(OrderNotCancellable);
      }
      var order := orders[orderId].(status := OrderStatus.Cancelled, updatedAt := now);
      orders := orders[orderId := order];
      webhookLog := webhookLog + [WebhookEvent(OrderCancelled, orderId, now)];
      AdjustStock(order.items, true, now);
      r := Ok(order);
    }
  }
}
