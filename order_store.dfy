/**
 * The Acme order store: the persistence hooks of the booking flow for leases
 * and orders. The pure decisions (currency, stage gate, broker-role mapping,
 * item ids) are functions; `CreateLeaseOn` and `CreateOrderOn` state what a
 * lease or order creation does to the database contents, and the methods of
 * `AcmeOrderStore` are proved to do exactly that to the database objects.
 */
module BookingSystem {
  import opened Wrappers
  import opened OpenActive
  import opened FakeDatabase

  /** The only currency the store accepts. */
  const SupportedCurrency: string := "GBP"

  /** `DateTimeOffset` instants and spans are counted in ticks of 100 ns. */
  const TicksPerMinute: int := 600_000_000

  /** Leases are held for five minutes. */
  const LeaseDuration: int := 5 * TicksPerMinute

  /** The exceptions the store throws, as values; `Ok` is a normal return. */
  datatype Outcome<+T> = Ok(value: T) | UnsupportedCurrency | OrderAlreadyExists

  predicate IsSupportedCurrency(currency: string)
  {
    currency == SupportedCurrency
  }

  /** Leasing is only offered at stage C2. */
  predicate IsLeasingStage(stage: FlowStage)
  {
    stage == FlowStage.C2
  }

  /** The broker role recorded for a lease or an order; a missing broker type means no broker. */
  function MapBrokerRole(brokerType: Option<BrokerType>): (role: BrokerRole)
    ensures role == BrokerRole.AgentBroker <==> brokerType == Some(BrokerType.AgentBroker)
    ensures role == BrokerRole.ResellerBroker <==> brokerType == Some(BrokerType.ResellerBroker)
    ensures role == BrokerRole.NoBroker <==> brokerType.None? || brokerType.value.NoBroker?
  {
    if brokerType == Some(BrokerType.AgentBroker) then BrokerRole.AgentBroker
    else if brokerType == Some(BrokerType.ResellerBroker) then BrokerRole.ResellerBroker
    else BrokerRole.NoBroker
  }

  predicate AllItemIdsPresent(orderItemIds: seq<OrderIdComponents>)
  {
    forall i :: 0 <= i < |orderItemIds| ==> orderItemIds[i].orderItemIdLong.Some?
  }

  /** The long ids of the given order items, one for each, in the same order. */
  function ItemIds(orderItemIds: seq<OrderIdComponents>): (itemIds: seq<int>)
    requires AllItemIdsPresent(orderItemIds)
    ensures |itemIds| == |orderItemIds|
    ensures forall i :: 0 <= i < |orderItemIds| ==> itemIds[i] == orderItemIds[i].orderItemIdLong.value
  {
    if orderItemIds == [] then []
    else [orderItemIds[0].orderItemIdLong.value] + ItemIds(orderItemIds[1..])
  }

  /** `context.Payment?.Identifier`: null when there is no payment. */
  function PaymentIdentifier(payment: Option<Payment>): Option<string>
  {
    if payment.Some? then payment.value.identifier else None
  }

  /** The lease row the store asks the database to add. */
  function LeaseRowFor(context: StoreBookingFlowContext, leaseExpires: int): LeaseRow
    requires context.sellerId.sellerIdLong.Some?
  {
    LeaseRow(MapBrokerRole(context.brokerRole), context.broker.name,
             context.sellerId.sellerIdLong.value, context.customer.email, leaseExpires)
  }

  /** The order row the store asks the database to add. */
  function OrderRowFor(order: Order, context: StoreBookingFlowContext): OrderRow
    requires context.sellerId.sellerIdLong.Some? && order.totalPaymentDue.price.Some?
  {
    OrderRow(MapBrokerRole(context.brokerRole), context.broker.name,
             context.sellerId.sellerIdLong.value, context.customer.email,
             PaymentIdentifier(context.payment), order.totalPaymentDue.price.value)
  }

  /** The nullable values `CreateLease` dereferences are present where it dereferences them. */
  predicate LeaseInputsPresent(orderQuote: OrderQuote, context: StoreBookingFlowContext)
  {
    (IsSupportedCurrency(orderQuote.totalPaymentDue.priceCurrency) && IsLeasingStage(context.stage))
      ==> context.sellerId.sellerIdLong.Some?
  }

  /** The nullable values `CreateOrder` dereferences are present where it dereferences them. */
  predicate OrderInputsPresent(order: Order, context: StoreBookingFlowContext)
  {
    IsSupportedCurrency(order.totalPaymentDue.priceCurrency) ==>
      context.sellerId.sellerIdLong.Some? && order.totalPaymentDue.price.Some?
  }

  /**
   * What lease creation returns and leaves in the database contents `t`, at time `now`.
   * The currency is checked first, at every stage; then any stage but C2 gets no lease
   * and no write; at C2 a lease expiring five minutes from now is added, unless the
   * order id is already taken, which is an error that changes nothing.
   */
  function CreateLeaseOn(t: Tables, orderQuote: OrderQuote, context: StoreBookingFlowContext, now: int)
    : (res: (Outcome<Option<Lease>>, Tables))
    requires LeaseInputsPresent(orderQuote, context)
    ensures !IsSupportedCurrency(orderQuote.totalPaymentDue.priceCurrency) ==> res == (UnsupportedCurrency, t)
    ensures IsSupportedCurrency(orderQuote.totalPaymentDue.priceCurrency) && !IsLeasingStage(context.stage)
      ==> res == (Ok(None), t)
    ensures IsSupportedCurrency(orderQuote.totalPaymentDue.priceCurrency) && IsLeasingStage(context.stage)
      && t.Taken(context.orderId.uuid)
      ==> res == (OrderAlreadyExists, t)
    ensures IsSupportedCurrency(orderQuote.totalPaymentDue.priceCurrency) && IsLeasingStage(context.stage)
      && !t.Taken(context.orderId.uuid)
      ==> && res.0 == Ok(Some(Lease(now + LeaseDuration)))
          && res.1.leases == t.leases[context.orderId.uuid := LeaseRowFor(context, now + LeaseDuration)]
          && res.1.orders == t.orders && res.1.cancelled == t.cancelled
    ensures t.Valid() ==> res.1.Valid()
  {
    if !IsSupportedCurrency(orderQuote.totalPaymentDue.priceCurrency) then (UnsupportedCurrency, t)
    else if IsLeasingStage(context.stage) then
      var leaseExpires := now + LeaseDuration;
      var (added, t') := t.AddLease(context.orderId.uuid, LeaseRowFor(context, leaseExpires));
      if !added then (OrderAlreadyExists, t') else (Ok(Some(Lease(leaseExpires))), t')
    else (Ok(None), t)
  }

  /**
   * What order creation returns and leaves in the database contents `t`.
   * The currency is checked before any write; then the order row is added,
   * unless an order is already stored under the id, which is an error that
   * changes nothing.
   */
  function CreateOrderOn(t: Tables, order: Order, context: StoreBookingFlowContext)
    : (res: (Outcome<()>, Tables))
    requires OrderInputsPresent(order, context)
    ensures !IsSupportedCurrency(order.totalPaymentDue.priceCurrency) ==> res == (UnsupportedCurrency, t)
    ensures IsSupportedCurrency(order.totalPaymentDue.priceCurrency) && context.orderId.uuid in t.orders
      ==> res == (OrderAlreadyExists, t)
    ensures IsSupportedCurrency(order.totalPaymentDue.priceCurrency) && context.orderId.uuid !in t.orders
      ==> && res.0 == Ok(())
          && res.1.orders == t.orders[context.orderId.uuid := OrderRowFor(order, context)]
          && res.1.leases == t.leases && res.1.cancelled == t.cancelled
    ensures t.Valid() ==> res.1.Valid()
  {
    if !IsSupportedCurrency(order.totalPaymentDue.priceCurrency) then (UnsupportedCurrency, t)
    else
      var (added, t') := t.AddOrder(context.orderId.uuid, OrderRowFor(order, context));
      if !added then (OrderAlreadyExists, t') else (Ok(()), t')
  }

  /** The order store; `database` is the shared fake booking database it reaches directly. */
  class AcmeOrderStore {
    const database: Database

    constructor (database: Database)
      ensures this.database == database
    {
      this.database := database;
    }

    /** Starts customer cancellation of the given items; reports whether the order was found. */
    method CustomerCancelOrderItems(orderId: OrderIdComponents, orderItemIds: seq<OrderIdComponents>)
      returns (found: bool)
      requires AllItemIdsPresent(orderItemIds)
      modifies database
      ensures (found, database.State()) == old(database.State()).CancelOrderItem(orderId.uuid, ItemIds(orderItemIds))
      ensures database.cancelCalls == old(database.cancelCalls) + [CancelCall(orderId.uuid, ItemIds(orderItemIds), true)]
    {
      found := database.CancelOrderItem(orderId.uuid, ItemIds(orderItemIds), true);
    }

    /** Creates a lease through the transaction's database, at time `now`. */
    method CreateLease(orderQuote: OrderQuote, context: StoreBookingFlowContext,
                       databaseTransaction: DatabaseTransaction, now: int)
      returns (lease: Outcome<Option<Lease>>)
      requires LeaseInputsPresent(orderQuote, context)
      requires IsSupportedCurrency(orderQuote.totalPaymentDue.priceCurrency) && IsLeasingStage(context.stage)
        ==> databaseTransaction.database != null
      modifies databaseTransaction.database
      ensures databaseTransaction.database == null ==>
        lease == if IsSupportedCurrency(orderQuote.totalPaymentDue.priceCurrency) then Ok(None) else UnsupportedCurrency
      ensures databaseTransaction.database != null ==>
        && (lease, databaseTransaction.database.State())
           == CreateLeaseOn(old(databaseTransaction.database.State()), orderQuote, context, now)
        && databaseTransaction.database.cancelCalls == old(databaseTransaction.database.cancelCalls)
    {
      if !IsSupportedCurrency(orderQuote.totalPaymentDue.priceCurrency) {
        return UnsupportedCurrency;
      }
      if context.stage == FlowStage.C2 {
        var leaseExpires := now + LeaseDuration;
        var result := databaseTransaction.database.AddLease(
          context.orderId.uuid,
          MapBrokerRole(context.brokerRole),
          context.broker.name,
          context.sellerId.sellerIdLong.value,
          context.customer.email,
          leaseExpires);
        if !result {
          return OrderAlreadyExists;
        }
        return Ok(Some(Lease(leaseExpires)));
      } else {
        return Ok(None);
      }
    }

    /** Deletes the lease stored under the order id from the shared database, if any. */
    method DeleteLease(orderId: OrderIdComponents)
      modifies database
      ensures database.State() == old(database.State()).DeleteLease(orderId.uuid)
      ensures database.cancelCalls == old(database.cancelCalls)
    {
      database.DeleteLease(orderId.uuid);
    }

    /** Creates an order through the transaction's database. */
    method CreateOrder(order: Order, context: StoreBookingFlowContext, databaseTransaction: DatabaseTransaction)
      returns (outcome: Outcome<()>)
      requires OrderInputsPresent(order, context)
      requires IsSupportedCurrency(order.totalPaymentDue.priceCurrency) ==> databaseTransaction.database != null
      modifies databaseTransaction.database
      ensures databaseTransaction.database == null ==> outcome == UnsupportedCurrency
      ensures databaseTransaction.database != null ==>
        && (outcome, databaseTransaction.database.State())
           == CreateOrderOn(old(databaseTransaction.database.State()), order, context)
        && databaseTransaction.database.cancelCalls == old(databaseTransaction.database.cancelCalls)
    {
      if !IsSupportedCurrency(order.totalPaymentDue.priceCurrency) {
        return UnsupportedCurrency;
      }
      var result := databaseTransaction.database.AddOrder(
        context.orderId.uuid,
        MapBrokerRole(context.brokerRole),
        context.broker.name,
        context.sellerId.sellerIdLong.value,
        context.customer.email,
        PaymentIdentifier(context.payment),
        order.totalPaymentDue.price.value);
      if !result {
        return OrderAlreadyExists;
      }
      return Ok(());
    }

    /** Deletes the order stored under the order id from the shared database, if any. */
    method DeleteOrder(orderId: OrderIdComponents)
      modifies database
      ensures database.State() == old(database.State()).DeleteOrder(orderId.uuid)
      ensures database.cancelCalls == old(database.cancelCalls)
    {
      database.DeleteOrder(orderId.uuid);
    }

    /** Opens a fresh transaction over the shared database; the stage plays no part. */
    method BeginOrderTransaction(stage: FlowStage) returns (databaseTransaction: DatabaseTransaction)
      ensures fresh(databaseTransaction)
      ensures databaseTransaction.database == database && !databaseTransaction.committed
    {
      databaseTransaction := new DatabaseTransaction(database);
    }

    method CompleteOrderTransaction(databaseTransaction: DatabaseTransaction)
      modifies databaseTransaction
      ensures databaseTransaction.committed
      ensures databaseTransaction.database == old(databaseTransaction.database)
    {
      databaseTransaction.CommitTransaction();
    }

    /** Rolls back by clearing the transaction's database reference; nothing is committed or undone. */
    method RollbackOrderTransaction(databaseTransaction: DatabaseTransaction)
      modifies databaseTransaction
      ensures databaseTransaction.database == null
      ensures databaseTransaction.committed == old(databaseTransaction.committed)
      ensures unchanged(database)
    {
      databaseTransaction.database := null;
    }
  }
}
