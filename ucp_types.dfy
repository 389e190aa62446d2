/** The checkout, order and webhook records of the commerce protocol layer. */
module UcpTypes {
  import opened Wrappers
  import opened ProductTypes

  datatype SessionStatus = Pending | Active | Completed | Cancelled | Expired

  datatype OrderStatus =
    | PendingPayment | PaymentProcessing | Confirmed | Processing
    | Shipped | Delivered | Cancelled | Refunded

  datatype PaymentStatus = Pending | Processing | Completed | Failed | Refunded

  datatype FulfillmentStatus = Pending | Processing | Shipped | Delivered | Cancelled

  datatype EventType =
    | OrderCreated | OrderConfirmed | OrderCancelled
    | PaymentCompleted | PaymentFailed
    | ShipmentCreated | ShipmentInTransit | ShipmentDelivered
    | RefundProcessed

  /** Free-form metadata attached to a request, a session and an order. */
  type Metadata = map<string, string>

  /** The metadata a cart-derived checkout item carries: the product's category and tags. */
  datatype ItemMetadata = ItemMetadata(category: Category, tags: seq<string>)

  /** One priced item of a checkout session or order. */
  datatype UcpCartItem = UcpCartItem(
    productId: string,
    name: string,
    description: string,
    quantity: int,
    unitPrice: real,
    totalPrice: real,
    imageUrl: Option<string>,
    metadata: Option<ItemMetadata>)

  /** The body of a checkout-session request. */
  datatype CheckoutRequest = CheckoutRequest(
    cartItems: seq<UcpCartItem>,
    currency: Option<string>,
    returnUrl: Option<string>,
    cancelUrl: Option<string>,
    metadata: Option<Metadata>)

  /** What creating a session answers. */
  datatype CheckoutResponse = CheckoutResponse(sessionId: string, checkoutUrl: string, expiresAt: int)

  datatype CheckoutSession = CheckoutSession(
    sessionId: string,
    merchantId: string,
    status: SessionStatus,
    cartItems: seq<UcpCartItem>,
    subtotal: real,
    tax: real,
    shipping: real,
    total: real,
    currency: string,
    createdAt: int,
    expiresAt: int,
    metadata: Option<Metadata>)

  /** An order. The optional shipping and billing addresses are left out: no operation sets them. */
  datatype Order = Order(
    orderId: string,
    sessionId: string,
    merchantId: string,
    customerId: Option<string>,
    status: OrderStatus,
    items: seq<UcpCartItem>,
    subtotal: real,
    tax: real,
    shipping: real,
    total: real,
    currency: string,
    paymentStatus: PaymentStatus,
    fulfillmentStatus: FulfillmentStatus,
    createdAt: int,
    updatedAt: int,
    metadata: Option<Metadata>)

  /** A webhook notification: its type, the order it is about and when it was raised. */
  datatype WebhookEvent = WebhookEvent(eventType: EventType, orderId: string, timestamp: int)
}
