/**
 * Properties of call sequences on one checkout service, stated for every service state and every
 * argument: what a second call of the same operation does after a first one.
 */
module Lifecycle {
  import opened Wrappers
  import opened ProductTypes
  import opened Products
  import opened UcpTypes
  import opened Ucp

  /** Completing the same session twice: whatever the first call did, the second one fails, and
      orders, events and stock end as the first call alone leaves them. */
  method CompleteTwice(ucp: UCPService, sessionId: string, customerId: Option<string>,
                       firstId: string, secondId: string, t1: int, t2: int)
    returns (first: Result<Order, UcpError>, second: Result<Order, UcpError>)
    requires ucp.Valid()
    requires firstId !in ucp.orders && secondId !in ucp.orders && firstId != secondId
    modifies ucp, ucp.catalog
    ensures ucp.Valid()
    ensures second.Err?
    ensures first.Ok? ==> second == Err(InvalidSessionStatus(SessionStatus.Completed))
    ensures secondId !in ucp.orders
    ensures first.Ok? ==>
      && sessionId in old(ucp.checkoutSessions)
      && ucp.orders == old(ucp.orders)[firstId := first.value]
      && ucp.orderIds == old(ucp.orderIds) + [firstId]
      && ucp.webhookLog == old(ucp.webhookLog) + [WebhookEvent(OrderCreated, firstId, t1)]
      && ucp.catalog.products == StockAfter(old(ucp.catalog.products), old(ucp.checkoutSessions)[sessionId].cartItems, false, t1)
    ensures first.Err? ==>
      && ucp.orders == old(ucp.orders) && ucp.orderIds == old(ucp.orderIds)
      && ucp.webhookLog == old(ucp.webhookLog) && ucp.catalog.products == old(ucp.catalog.products)
  {
    first := ucp.CompleteCheckout(sessionId, customerId, firstId, t1);
    assert first.Ok? ==> ucp.checkoutSessions[sessionId].status == SessionStatus.Completed;
    assert !first.Ok? ==> sessionId !in ucp.checkoutSessions || !Completable(ucp.checkoutSessions[sessionId].status);
    assert secondId !in ucp.orders;
    second := ucp.CompleteCheckout(sessionId, customerId, secondId, t2);
  }

  /** Cancelling the same order twice: both calls succeed unless the order was shipped or
      delivered, and each gives every item's quantity back to stock. */
  method CancelTwice(ucp: UCPService, orderId: string, t1: int, t2: int)
    returns (first: Result<Order, UcpError>, second: Result<Order, UcpError>)
    requires ucp.Valid()
    requires orderId in ucp.orders && Cancellable(ucp.orders[orderId].status)
    modifies ucp, ucp.catalog
    ensures ucp.Valid()
    ensures first.Ok? && second.Ok?
    ensures orderId in ucp.orders && ucp.orders[orderId].status == OrderStatus.Cancelled
    ensures ucp.webhookLog == old(ucp.webhookLog) + [WebhookEvent(OrderCancelled, orderId, t1), WebhookEvent(OrderCancelled, orderId, t2)]
    ensures var items := old(ucp.orders)[orderId].items;
      ucp.catalog.products == StockAfter(StockAfter(old(ucp.catalog.products), items, true, t1), items, true, t2)
  {
    first := ucp.CancelOrder(orderId, t1);
    assert ucp.orders[orderId].status == OrderStatus.Cancelled;
    second := ucp.CancelOrder(orderId, t2);
  }
}
