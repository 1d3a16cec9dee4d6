/**
 * The OpenActive / OpenBooking framework types that the order store reads,
 * reduced to the fields it actually reads. Every framework value the store
 * may find null is an `Option`.
 */
module OpenActive {
  import opened Wrappers

  /** The stages of the booking flow (quote without and with customer details, proposal, booking). */
  datatype FlowStage = C1 | C2 | P | B

  /** The broker type the booking flow reports; the context holds it as a nullable value. */
  datatype BrokerType = AgentBroker | NoBroker | ResellerBroker

  /** The components of an order id or an order item id. */
  datatype OrderIdComponents = OrderIdComponents(uuid: string, orderItemIdLong: Option<int>)

  datatype SellerIdComponents = SellerIdComponents(sellerIdLong: Option<int>)

  datatype Organization = Organization(name: string)

  datatype Customer = Customer(email: string)

  /** `Payment.Identifier` is a nullable string. */
  datatype Payment = Payment(identifier: Option<string>)

  /** A total with its currency code; the decimal price is an opaque integer here. */
  datatype PriceSpecification = PriceSpecification(price: Option<int>, priceCurrency: string)

  datatype OrderQuote = OrderQuote(totalPaymentDue: PriceSpecification)

  datatype Order = Order(totalPaymentDue: PriceSpecification)

  /** A lease handed back to the flow: it carries its expiry and nothing else. */
  datatype Lease = Lease(leaseExpires: int)

  /** The part of the store booking flow context that the order store reads. */
  datatype StoreBookingFlowContext = StoreBookingFlowContext(
    stage: FlowStage,
    orderId: OrderIdComponents,
    brokerRole: Option<BrokerType>,
    broker: Organization,
    sellerId: SellerIdComponents,
    customer: Customer,
    payment: Option<Payment>)
}
