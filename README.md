# Vegan breakfast shop: catalog, cart and checkout services in Dafny

This project models the server-side business logic of a small shop that sells vegan breakfast
products and implements a Universal Commerce Protocol (UCP) checkout. It covers three
in-memory services:

- **`ProductService`** (`products.dfy`) holds an ordered product list. It filters the list by
  stock, category, tag or case-insensitive substring, answers availability questions, and is
  changed only by `updateStock`. That call lowers a count, clamps it at zero and clears the
  in-stock flag, but never sets the flag again. The queries are functions over the list, and
  the service is a class whose `products` field `UpdateStock` reassigns.
- **`CartService`** (`carts.dfy`) maps cart ids to carts whose lines are `{productId, quantity,
  addedAt}`. Its methods add or merge lines, overwrite quantities, remove lines, clear carts and
  delete carts. Every stored cart is filed under its own id, has at most one line per product, and
  holds only positive quantities; each method keeps this as its class invariant `Valid()`.
  `getCartWithDetails` is a pure join of the lines with the catalog. The model proves that its
  subtotal is the cart's value at current prices and that its item count is the number of units
  on the lines whose product still exists.
- **`UCPService`** (`ucp.dfy`) holds checkout sessions and orders. Sessions start `pending`. They
  complete into orders, or they are cancelled or expire. Orders carry an order status, a payment
  status and a fulfilment status. Completing a checkout consumes stock and cancelling an order
  gives it back, one `updateStock` call per item, in a loop proved against the fold `StockAfter`.
  Webhook events are appended to a ghost log. The class invariant files sessions and orders under
  their own ids, and keeps `orderIds`, the insertion order of the orders map, free of repeats and
  equal to the map's keys.

The datatypes (`product_types.dfy`, `ucp_types.dfy`) mirror the product, cart, session, order and
event records and the status enums. `sequences.dfy` holds the generic `filter`, `find` and sort
used by the queries. `ucp_properties.dfy` proves the stock properties: the exact shift by demand,
restoration by cancellation, over-restoration by a repeated cancellation, and the permanence of
the out-of-stock flag. `lifecycle.dfy` states what a second completion or a second cancellation
does on any service state. `scenarios.dfy` walks one cart and one checkout through the services'
contracts; every step of it is verified from those contracts alone.

How the environment is represented:
- Time is an integer `now` in milliseconds, passed to every operation that reads the clock.
- Each uuid the services draw becomes a fresh-id parameter, with a precondition that it is not yet
  in use.
- The 30-minute `setTimeout` becomes the explicit `ExpireSession`, which the caller invokes.
- Money is `real`, so 0.08 and 5.99 are exact.
- Lower-casing is ASCII-only.

Where the code differs from the documented intent, the model follows the code:
- `addItem` checks only the added quantity against stock, not the merged line total
  (`UcpProperties.MergedLineCanExceedStock`).
- `addItem` reports a product missing from the catalog as unavailable, not as not found.
- `updateStock` never sets `inStock` back to true, even when a cancellation restores the count
  (`UcpProperties.SoldOutThenCancelledStaysHidden`).
- `cancelCheckoutSession` also overwrites `completed` and `expired` sessions.
- `updatePaymentStatus` emits `payment.failed` for every status other than `completed`, including
  `pending`, `processing` and `refunded`.
- An empty currency string also falls back to `USD`, because of `||`.
- An empty `cartItems` list is accepted by the checkout route.
- `cancelOrder` does not guard against an order already cancelled. A second cancellation succeeds
  and restores stock again (`Lifecycle.CancelTwice`, `UcpProperties.DoubleCancelOverRestores`).
- `completeCheckout` does not check stock, so an order may ask for more than the catalog holds:
  explicit `cartItems`, a merged cart line, or stock sold between adding and checking out. Placing
  it clamps the count at zero, and cancelling it then gives back the whole demand, more than the
  catalog ever had (`UcpProperties.UncoveredOrderCancelOverRestores`,
  `UcpProperties.CancelRestoresConsumedCounts`).
- Explicit `cartItems` are not validated, so an item's quantity may be negative. Placing such an
  item adds stock, and cancelling it takes stock away, clamped at zero. With mixed signs the
  clamping breaks the restore formula above: items -3 then 5 against a stock of 1 leave 5 after
  placing and cancelling, where the demand is 2 (`UcpProperties.MixedSignOrderBreaksRestore`). The
  placement and cancellation formulas are proved for non-negative quantities.
- No operation ever puts a session into `active`. It is still accepted by `completeCheckout`.

The route guard `quantity > 0` for adding an item becomes a precondition of `AddItem`. The
route's choice between a cart id and explicit items is `Ucp.SelectCheckoutItems`. An error the
source throws becomes an `Err` result, and a `null` return becomes `Err(CartNotFound)` or
`Err(ItemNotFound)`. In both cases nothing changes, with one exception: `completeCheckout` on an
expired session marks the session `expired` before it throws, and `Err(SessionExpired)` comes with
that change.

## Model

| member | source | states |
|---|---|---|
| Sequences.Filter | src/services/product.service.ts:8 | `filter` keeps exactly the elements satisfying the predicate, each as often as in the input, in input order (a subsequence) |
| Sequences.IndexWhere | src/services/product.service.ts:12 | `find` stops at the first element satisfying the predicate; none exists exactly when no element satisfies it |
| Sequences.SortDescending | src/services/ucp.service.ts:188 | the sort yields a permutation of its input (same multiset) ordered by non-increasing key |
| Sequences.FilterCons | src/services/product.service.ts:8 | filtering a sequence with one more element in front keeps that element first exactly when it satisfies the predicate |
| Sequences.InsertKeepsKeyClass | src/services/ucp.service.ts:188 | inserting into a sorted sequence keeps the elements of each key in the order of the element followed by the sequence |
| Sequences.SortDescendingIsStable | src/services/ucp.service.ts:188 | the sort is stable: the elements of each key come out in their input order |
| Sequences.DistinctCountsAtMostOne | src/services/ucp.service.ts:186 | a sequence without repeats holds every element at most once |
| Products.GetAllProducts | src/services/product.service.ts:7-9 | exactly the in-stock products, with their multiplicities, in catalog order |
| Products.GetProductsByCategory | src/services/product.service.ts:15-17 | exactly the in-stock products of the category, with their multiplicities, in catalog order |
| Products.Includes | src/services/product.service.ts:23 | `includes` is true exactly when the needle occurs at some position of the string |
| Products.SearchProducts | src/services/product.service.ts:19-29 | exactly the in-stock products whose lower-cased name, description, some tag or some ingredient contains the lower-cased query, with their multiplicities, in catalog order |
| Products.GetProductsByTags | src/services/product.service.ts:31-35 | exactly the in-stock products carrying one of the query tags, with their multiplicities, in catalog order; an empty tag list gives an empty result |
| Products.IndexOfProduct | src/services/product.service.ts:44 | the index of the first product with the id, or none exactly when no product has it |
| Products.GetProductById | src/services/product.service.ts:11-13 | the first catalog product with that id, none exactly when the id is unknown, and with unique ids the one product carrying it |
| Products.CheckAvailability | src/services/product.service.ts:37-41 | true exactly when the first product with the id exists, is flagged in stock and has at least the quantity; false for an unknown id |
| Products.AdjustedProduct | src/services/product.service.ts:47-52 | the count becomes max(0, count − quantity); the flag is cleared at zero and never set; only count, flag and update time change |
| Products.StockUpdated | src/services/product.service.ts:43-53 | an unknown id changes nothing; otherwise only the first product with the id is adjusted; ids, non-negative stock and unique ids are kept |
| Products.ProductService.constructor | src/services/product.service.ts:5 | the service starts with the given catalog |
| Products.ProductService.UpdateStock | src/services/product.service.ts:43-54 | returns true exactly when the id is in the catalog; false leaves the list unchanged; the new list is the adjusted one; non-negative stock is preserved |
| Carts.LineIndex | src/services/cart.service.ts:34 | the index of the first line for the product, or none exactly when the cart has no line for it |
| Carts.AddLine | src/services/cart.service.ts:33-44 | an existing line grows by the quantity in place with the length and every other line unchanged; otherwise one line stamped `now` is appended; unique product ids and positive quantities are kept |
| Carts.SetLineQuantity | src/services/cart.service.ts:66 | only the product's line changes, to the new quantity; ids, timestamps and the other lines are kept, as are uniqueness and positivity |
| Carts.RemoveLines | src/services/cart.service.ts:75 | exactly the lines of other products remain, in their original order; uniqueness and positivity are kept |
| Carts.SubsequenceKeepsUnique | src/services/cart.service.ts:75 | deleting lines cannot make two lines share a product |
| Carts.SubsequenceKeepsPositive | src/services/cart.service.ts:75 | deleting lines keeps every remaining quantity positive |
| Carts.PriceLines | src/services/cart.service.ts:93-105 | every priced line carries the current catalog product, its price and price × quantity; stripping the prices gives exactly the lines whose product exists, in order |
| Carts.SubtotalIsCartValue | src/services/cart.service.ts:107 | the summed line totals are the cart's value at current prices |
| Carts.ItemCountIsKeptUnits | src/services/cart.service.ts:113 | the summed quantities are the units on the lines whose product still exists |
| Carts.GetCartWithDetails | src/services/cart.service.ts:89-115 | nothing exactly for an unknown cart; otherwise the cart, its priced lines, the subtotal as the cart's value and the item count as the kept units |
| Carts.CartService.constructor | src/services/cart.service.ts:6 | the service starts with no carts and the invariant holds |
| Carts.CartService.CreateCart | src/services/cart.service.ts:8-17 | a new empty cart under the fresh id, stamped `now`; every other cart is untouched; the invariant is kept |
| Carts.CartService.GetCart | src/services/cart.service.ts:20-22 | the stored cart, or none exactly when the id is unknown |
| Carts.CartService.AddItem | src/services/cart.service.ts:24-48 | an unknown cart or a failed availability check of the added quantity changes nothing and fails; otherwise only that cart changes, to the merged or appended lines; the invariant is kept |
| Carts.CartService.RemoveItem | src/services/cart.service.ts:71-78 | an unknown cart fails unchanged; otherwise only that cart changes, losing every line for the product |
| Carts.CartService.UpdateItemQuantity | src/services/cart.service.ts:50-69 | a missing cart or line fails unchanged; a quantity of zero or less removes the line; an unavailable quantity fails unchanged; otherwise only that line's quantity is overwritten |
| Carts.CartService.ClearCart | src/services/cart.service.ts:80-87 | an unknown cart fails unchanged; otherwise the cart stays with no lines |
| Carts.CartService.DeleteCart | src/services/cart.service.ts:117-119 | true exactly when the cart existed; afterwards it is gone and the other carts are untouched |
| Ucp.SessionCurrency | src/services/ucp.service.ts:58 | the requested currency when it is present and non-empty, otherwise USD; never empty |
| Ucp.NewSession | src/services/ucp.service.ts:36-62 | a pending session with the request's items, subtotal the sum of item totals, 8% tax, 5.99 shipping, total their sum, and expiry 30 minutes after creation |
| Ucp.OrderFromSession | src/services/ucp.service.ts:114-131 | an order awaiting payment with payment and fulfilment pending, carrying the session's items, totals, currency and metadata |
| Ucp.OrderStatusEvent | src/services/ucp.service.ts:209 | `order.confirmed` exactly for a confirmed status, `order.created` otherwise |
| Ucp.WithPayment | src/services/ucp.service.ts:232-240 | payment completed → confirmed, failed → cancelled, any other value leaves the order status; only status, payment status and update time change |
| Ucp.PaymentEvent | src/services/ucp.service.ts:245 | `payment.completed` exactly for a completed payment, `payment.failed` exactly for every other status |
| Ucp.WithFulfillment | src/services/ucp.service.ts:268-294 | shipped → order shipped, delivered → order delivered, any other value leaves the order status; only status, fulfilment status and update time change |
| Ucp.FulfillmentEvent | src/services/ucp.service.ts:272-294 | `shipment.created` exactly for shipped, `shipment.delivered` exactly for delivered, no event exactly otherwise |
| Ucp.StockAfter | src/services/ucp.service.ts:147-149 | the catalog after one `updateStock` per item keeps its length and ids, non-negative stock and unique ids |
| Ucp.StockAfterStep | src/services/ucp.service.ts:147-149 | one more item is one more `updateStock` call on the catalog reached so far |
| Ucp.ToUcpItems | src/services/ucp.service.ts:363-375 | one checkout item per priced line, in order, with product id, quantity, unit and total price, name, description, image and category/tags metadata |
| Ucp.ToUcpItemsKeepTotal | src/services/ucp.service.ts:363-375 | converting priced lines keeps their summed total |
| Ucp.ConvertCartToUCPItems | src/services/ucp.service.ts:357-376 | an error exactly for an unknown cart; otherwise the converted priced lines, whose totals add up to the cart's value at current prices |
| Ucp.SelectCheckoutItems | src/routes/ucp.routes.ts:19-28 | a non-empty cart id is converted, else explicit items are used as given, else the request is rejected |
| Ucp.OrdersInOrder | src/services/ucp.service.ts:186 | the stored orders listed in map insertion order |
| Ucp.OrdersInOrderListsEachOnce | src/services/ucp.service.ts:186 | when every order is filed under its own id and the ids are distinct, the listing holds every stored order exactly once |
| Ucp.PlacedBy | src/services/ucp.service.ts:187 | the filter keeps an order exactly when its customer id is the given one |
| Ucp.CustomerOrders | src/services/ucp.service.ts:185-189 | exactly the orders of that customer, each as often as in the input, ordered newest first; orders created at the same time keep their input order |
| Ucp.UCPService.constructor | src/services/ucp.service.ts:21-23 | no sessions, no orders, no events, and the invariant holds, including that the cart service shares the service's catalog |
| Ucp.UCPService.CreateCheckoutSession | src/services/ucp.service.ts:32-76 | the new session is stored under the fresh id; the response carries that id, its checkout URL and the expiry; orders and events are untouched |
| Ucp.UCPService.GetCheckoutSession | src/services/ucp.service.ts:81-83 | the stored session, or none exactly when the id is unknown |
| Ucp.UCPService.AdjustStock | src/services/ucp.service.ts:147-149 | the loop leaves the catalog equal to the fold of `updateStock` over the items |
| Ucp.UCPService.CompleteCheckout | src/services/ucp.service.ts:88-152 | unknown or non-completable sessions fail unchanged; an expired one is marked expired and fails; otherwise the session completes, one order is stored and listed, one `order.created` event is logged, and stock is consumed per item |
| Ucp.UCPService.CancelCheckoutSession | src/services/ucp.service.ts:157-163 | false exactly for an unknown session; otherwise it becomes cancelled whatever its status; orders, events and stock are untouched |
| Ucp.UCPService.ExpireSession | src/services/ucp.service.ts:168-173 | a pending session becomes expired; in every other case nothing changes |
| Ucp.UCPService.GetOrder | src/services/ucp.service.ts:178-180 | the stored order, or none exactly when the id is unknown |
| Ucp.UCPService.GetCustomerOrders | src/services/ucp.service.ts:185-189 | exactly the stored orders of that customer, each once, newest first; orders created at the same time keep their insertion order |
| Ucp.UCPService.UpdateOrderStatus | src/services/ucp.service.ts:194-218 | an unknown order fails unchanged; otherwise only that order's status and update time change and one confirmed-or-created event is logged |
| Ucp.UCPService.UpdatePaymentStatus | src/services/ucp.service.ts:223-254 | an unknown order fails unchanged; otherwise only that order changes, by the payment mapping, and one payment event is logged |
| Ucp.UCPService.UpdateFulfillmentStatus | src/services/ucp.service.ts:259-297 | an unknown order fails unchanged; otherwise only that order changes, by the fulfilment mapping, and a shipment event is logged exactly for shipped or delivered |
| Ucp.UCPService.CancelOrder | src/services/ucp.service.ts:302-332 | an unknown, shipped or delivered order fails with nothing changed; otherwise it is cancelled, one `order.cancelled` event is logged and each item's quantity is restored |
| UcpProperties.StockAfterShiftsByDemand | src/services/ucp.service.ts:147-149 | with unique ids, non-negative stock and non-negative item quantities, a placement lowers every count by its demand clamped at zero, and a restoration raises it by exactly its demand |
| UcpProperties.CancelRestoresConsumedCounts | src/services/ucp.service.ts:327-329 | with unique ids, non-negative stock and non-negative item quantities, cancelling an order leaves every product the larger of its count before the order and the order's demand for it; exactly its old count when the catalog covered the order |
| UcpProperties.MixedSignOrderBreaksRestore | src/routes/ucp.routes.ts:21-22 | unvalidated items -3 then 5 against a stock of 1 leave 0 after placing and 5 after cancelling, while their demand is 2 |
| UcpProperties.UncoveredOrderCancelOverRestores | src/services/ucp.service.ts:147-149 | an order of 3 against a stock of 1 takes the count to 0, and its cancellation raises it to 3 |
| UcpProperties.DoubleCancelOverRestores | src/services/ucp.service.ts:302-331 | with unique ids, non-negative stock and non-negative item quantities, a second cancellation adds every product's demand again on top of the first; for a covered order that is its demand above the starting count |
| UcpProperties.OutOfStockIsPermanent | src/services/product.service.ts:47-51 | a product flagged out of stock stays so through any sequence of stock changes, restorations included |
| UcpProperties.SoldOutThenCancelledStaysHidden | src/services/product.service.ts:48-51 | a product sold down to zero and restored by cancellation has its count back but stays hidden from the listing and unavailable |
| UcpProperties.MergedLineCanExceedStock | src/services/cart.service.ts:29-37 | adding 3 units with 5 in stock passes the check although the merged line then holds 6 |
| Lifecycle.CompleteTwice | src/services/ucp.service.ts:97-99 | a second completion of the same session always fails, with `completed` as the reported status after a successful first one; orders, order ids, events and stock end as the first call alone leaves them |
| Lifecycle.CancelTwice | src/services/ucp.service.ts:302-331 | cancelling a cancellable order twice succeeds both times, logs two `order.cancelled` events and restores stock twice |
| Scenarios.ScenarioCartItems | src/services/ucp.service.ts:357-376 | a cart with one 2-unit line at 10.00 converts to one checkout item worth 20.00 |
| Scenarios.ScenarioStock | src/services/product.service.ts:47 | placing that item takes a stock of 5 down to 3, still in stock |
| Scenarios.ScenarioSession | src/services/ucp.service.ts:41-60 | that item's session totals 20.00 + 1.60 + 5.99 = 27.59 in USD, expiring 1 800 000 ms after creation |

## Left out

- HTTP routes, the Express server and the React client: these are glue and UI. Only the guard on added
  quantities and the checkout item selection are modelled.
- `registerWebhookListener` and the listener loop with its `try`/`catch` in `emitWebhook`: these are
  calls into code the model cannot see. Each emission is an append, of event type, order id and time,
  to the ghost `webhookLog`. Event ids and payloads are not recorded.
- `setTimeout`: the scheduling itself is not modelled. Its callback is `ExpireSession`, which a caller
  invokes.
- Clock, uuid and ISO-8601 strings: these are parameters and integers. The checkout URL is built from
  the session id, and the expiry string is an integer.
- IEEE floating-point rounding of prices, tax and totals: money is exact `real`.
- Quantities and stock counts are JavaScript numbers in the source and integers here. The add route's
  guard lets a fractional quantity such as 1.5 through, and the model cannot represent it.
- Metadata is `Record<string, any>` in the source. Here request and session metadata is a map from
  strings to strings, and item metadata is the category and tags that `convertCartToUCPItems`
  writes. Explicit `cartItems` that carry other metadata cannot be represented.
- Unicode `toLowerCase`: only ASCII `A`–`Z` are lowered.
- The seed catalog: it is not part of this model. Any initial product list is accepted.
- Nutrition facts and delivery and billing addresses: these fields carry no behaviour and are
  omitted from the records. `returnUrl` and `cancelUrl` are kept on the checkout request but are
  not stored on the session, as in the source.
- Object aliasing: `cart`, `session`, `order` and `product` objects that the source returns and
  mutates in place are values here. A caller holding an earlier reference would see later changes in
  the source, but not in the model. In particular `getCartWithDetails` puts the live catalog product
  into each line's `product` field, and a later `updateStock` changes that product's count in the
  source, while the model's priced line keeps the copy it was built with.
- Carts.CartService.AddItem: requires `quantity > 0`, the route's guard; the service's behaviour for
  zero or negative quantities is not modelled.
