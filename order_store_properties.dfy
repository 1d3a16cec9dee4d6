/**
 * Properties of the order store that relate several calls, or a call and an
 * independent description of what it should do.
 */
module OrderStoreProperties {
  import opened Wrappers
  import opened OpenActive
  import opened FakeDatabase
  import opened BookingSystem

  /** A currency other than GBP is refused at every flow stage, with no write. */
  lemma CurrencyCheckedBeforeStage(t: Tables, orderQuote: OrderQuote, context: StoreBookingFlowContext, now: int)
    requires !IsSupportedCurrency(orderQuote.totalPaymentDue.priceCurrency)
    ensures forall stage: FlowStage :: CreateLeaseOn(t, orderQuote, context.(stage := stage), now) == (UnsupportedCurrency, t)
  {
  }

  /** A lease that was created is stored with exactly the expiry it was returned with. */
  lemma CreatedLeaseIsStored(t: Tables, orderQuote: OrderQuote, context: StoreBookingFlowContext, now: int)
    requires LeaseInputsPresent(orderQuote, context)
    ensures var (outcome, t') := CreateLeaseOn(t, orderQuote, context, now);
      outcome.Ok? && outcome.value.Some? ==>
        && context.orderId.uuid in t'.leases
        && t'.leases[context.orderId.uuid].leaseExpires == outcome.value.value.leaseExpires == now + LeaseDuration
  {
  }

  /** Creation that fails, for any reason, leaves the tables as they were. */
  lemma FailedCreationChangesNothing(t: Tables, orderQuote: OrderQuote, order: Order,
                                     context: StoreBookingFlowContext, now: int)
    requires LeaseInputsPresent(orderQuote, context) && OrderInputsPresent(order, context)
    ensures !CreateLeaseOn(t, orderQuote, context, now).0.Ok? ==> CreateLeaseOn(t, orderQuote, context, now).1 == t
    ensures !CreateOrderOn(t, order, context).0.Ok? ==> CreateOrderOn(t, order, context).1 == t
  {
  }

  /** Retrying lease creation for an order id that now holds a lease is refused and changes nothing. */
  lemma LeaseRetryRejected(t: Tables, orderQuote: OrderQuote, context: StoreBookingFlowContext, now: int,
                           retryQuote: OrderQuote, retryContext: StoreBookingFlowContext, later: int)
    requires LeaseInputsPresent(orderQuote, context) && LeaseInputsPresent(retryQuote, retryContext)
    requires CreateLeaseOn(t, orderQuote, context, now).0 == Ok(Some(Lease(now + LeaseDuration)))
    requires retryContext.orderId.uuid == context.orderId.uuid
    requires IsSupportedCurrency(retryQuote.totalPaymentDue.priceCurrency) && IsLeasingStage(retryContext.stage)
    ensures var t' := CreateLeaseOn(t, orderQuote, context, now).1;
      CreateLeaseOn(t', retryQuote, retryContext, later) == (OrderAlreadyExists, t')
  {
  }

  /** Retrying order creation for an order id that now holds an order is refused and changes nothing. */
  lemma OrderRetryRejected(t: Tables, order: Order, context: StoreBookingFlowContext,
                           retryOrder: Order, retryContext: StoreBookingFlowContext)
    requires OrderInputsPresent(order, context) && OrderInputsPresent(retryOrder, retryContext)
    requires CreateOrderOn(t, order, context).0.Ok?
    requires retryContext.orderId.uuid == context.orderId.uuid
    requires IsSupportedCurrency(retryOrder.totalPaymentDue.priceCurrency)
    ensures var t' := CreateOrderOn(t, order, context).1;
      CreateOrderOn(t', retryOrder, retryContext) == (OrderAlreadyExists, t')
  {
  }

  /** Once an order is stored under an id, no lease can be created under it. */
  lemma OrderBlocksLease(t: Tables, order: Order, context: StoreBookingFlowContext,
                         orderQuote: OrderQuote, leaseContext: StoreBookingFlowContext, now: int)
    requires OrderInputsPresent(order, context) && LeaseInputsPresent(orderQuote, leaseContext)
    requires CreateOrderOn(t, order, context).0.Ok?
    requires leaseContext.orderId.uuid == context.orderId.uuid
    requires IsSupportedCurrency(orderQuote.totalPaymentDue.priceCurrency) && IsLeasingStage(leaseContext.stage)
    ensures var t' := CreateOrderOn(t, order, context).1;
      CreateLeaseOn(t', orderQuote, leaseContext, now) == (OrderAlreadyExists, t')
  {
  }

  /** A created order stores the payment identifier only when the context has a payment, and the total due. */
  lemma CreatedOrderRow(t: Tables, order: Order, context: StoreBookingFlowContext)
    requires OrderInputsPresent(order, context)
    requires CreateOrderOn(t, order, context).0.Ok?
    ensures var row := CreateOrderOn(t, order, context).1.orders[context.orderId.uuid];
      && (row.paymentIdentifier.Some? ==> context.payment.Some?)
      && (context.payment.Some? ==> row.paymentIdentifier == context.payment.value.identifier)
      && Some(row.totalOrderPrice) == order.totalPaymentDue.price
      && row.brokerRole == MapBrokerRole(context.brokerRole)
  {
  }

  /** A lease and an order created for the same context store the same broker role. */
  lemma BrokerRoleSharedByLeaseAndOrder(tLease: Tables, orderQuote: OrderQuote, tOrder: Tables, order: Order,
                                        context: StoreBookingFlowContext, now: int)
    requires LeaseInputsPresent(orderQuote, context) && OrderInputsPresent(order, context)
    requires CreateLeaseOn(tLease, orderQuote, context, now).0.Ok?
    requires CreateLeaseOn(tLease, orderQuote, context, now).0.value.Some?
    requires CreateOrderOn(tOrder, order, context).0.Ok?
    ensures context.orderId.uuid in CreateLeaseOn(tLease, orderQuote, context, now).1.leases
    ensures context.orderId.uuid in CreateOrderOn(tOrder, order, context).1.orders
    ensures CreateLeaseOn(tLease, orderQuote, context, now).1.leases[context.orderId.uuid].brokerRole
         == CreateOrderOn(tOrder, order, context).1.orders[context.orderId.uuid].brokerRole
  {
  }

  /** The flow's broker type that corresponds to a stored broker role. */
  function BrokerTypeOf(role: BrokerRole): BrokerType
  {
    match role
    case AgentBroker => BrokerType.AgentBroker
    case ResellerBroker => BrokerType.ResellerBroker
    case NoBroker => BrokerType.NoBroker
  }

  /** On a present broker type the mapping is a bijection, with `BrokerTypeOf` as its inverse. */
  lemma BrokerRoleRoundTrip(brokerType: BrokerType, role: BrokerRole)
    ensures BrokerTypeOf(MapBrokerRole(Some(brokerType))) == brokerType
    ensures MapBrokerRole(Some(BrokerTypeOf(role))) == role
  {
  }

  /** The ids passed on for cancellation are exactly the ids of the given items. */
  lemma CancelledIdsAreTheItemIds(orderItemIds: seq<OrderIdComponents>, x: int)
    requires AllItemIdsPresent(orderItemIds)
    ensures x in Elements(ItemIds(orderItemIds))
      <==> exists i :: 0 <= i < |orderItemIds| && orderItemIds[i].orderItemIdLong == Some(x)
  {
  }

  /** Deleting twice is the same as deleting once, whether or not the record existed. */
  lemma DeletionIdempotent(t: Tables, uuid: Uuid)
    ensures t.DeleteLease(uuid).DeleteLease(uuid) == t.DeleteLease(uuid)
    ensures t.DeleteOrder(uuid).DeleteOrder(uuid) == t.DeleteOrder(uuid)
    ensures uuid !in t.leases ==> t.DeleteLease(uuid) == t
    ensures t.Valid() && uuid !in t.orders ==> t.DeleteOrder(uuid) == t
    ensures t.Valid() ==> t.DeleteLease(uuid).Valid() && t.DeleteOrder(uuid).Valid()
  {
  }

  /** Lease deletion leaves orders and cancellations alone; order deletion leaves leases alone. */
  lemma DeletionsAreIndependent(t: Tables, uuid: Uuid)
    ensures t.DeleteLease(uuid).orders == t.orders && t.DeleteLease(uuid).cancelled == t.cancelled
    ensures t.DeleteOrder(uuid).leases == t.leases
  {
  }

  /**
   * A caller's view of the store: a lease taken at C2 in one unit of work and
   * committed makes a retry in a second unit of work fail, leaving the stored
   * lease as the first one wrote it.
   */
  method RetriedLeaseIsRefused(store: AcmeOrderStore, orderQuote: OrderQuote,
                               context: StoreBookingFlowContext, now: int, later: int)
    returns (first: Outcome<Option<Lease>>, second: Outcome<Option<Lease>>)
    requires context.orderId.uuid !in store.database.leases && context.orderId.uuid !in store.database.orders
    requires IsSupportedCurrency(orderQuote.totalPaymentDue.priceCurrency) && IsLeasingStage(context.stage)
    requires context.sellerId.sellerIdLong.Some?
    modifies store.database
    ensures first == Ok(Some(Lease(now + LeaseDuration)))
    ensures second == OrderAlreadyExists
    ensures store.database.leases == old(store.database.leases)[context.orderId.uuid := LeaseRowFor(context, now + LeaseDuration)]
  {
    var transaction := store.BeginOrderTransaction(context.stage);
    first := store.CreateLease(orderQuote, context, transaction, now);
    store.CompleteOrderTransaction(transaction);
    var retry := store.BeginOrderTransaction(context.stage);
    second := store.CreateLease(orderQuote, context, retry, later);
    store.RollbackOrderTransaction(retry);
  }
}
