/**
 * An abstract model of the fake booking database that the order store calls.
 * Only the boundary the store relies on is modelled: adding a lease or an order
 * reports `false` when the order id is already taken and then changes nothing;
 * deletion by id; cancellation of order items, reporting whether the order exists.
 */
module FakeDatabase {
  import opened Wrappers

  type Uuid = string

  /** The broker role as the database stores it. */
  datatype BrokerRole = AgentBroker | ResellerBroker | NoBroker

  datatype LeaseRow = LeaseRow(
    brokerRole: BrokerRole,
    brokerName: string,
    sellerId: int,
    customerEmail: string,
    leaseExpires: int)

  datatype OrderRow = OrderRow(
    brokerRole: BrokerRole,
    brokerName: string,
    sellerId: int,
    customerEmail: string,
    paymentIdentifier: Option<string>,
    totalOrderPrice: int)

  /** One cancellation request as the database received it. */
  datatype CancelCall = CancelCall(uuid: Uuid, orderItemIds: seq<int>, customerCancelled: bool)

  /** The set of elements of a sequence of item ids. */
  function Elements(s: seq<int>): set<int>
  {
    set i | i in s
  }

  /** The contents of the database: leases and orders keyed by order id, and the cancelled items of each order. */
  datatype Tables = Tables(
    leases: map<Uuid, LeaseRow>,
    orders: map<Uuid, OrderRow>,
    cancelled: map<Uuid, set<int>>)
  {
    /** Cancellations are only ever recorded against an order that exists. */
    predicate Valid()
    {
      cancelled.Keys <= orders.Keys
    }

    /** An order id is taken once a lease or an order is stored under it. */
    predicate Taken(uuid: Uuid)
    {
      uuid in leases || uuid in orders
    }

    function CancelledItems(uuid: Uuid): set<int>
    {
      if uuid in cancelled then cancelled[uuid] else {}
    }

    function AddLease(uuid: Uuid, row: LeaseRow): (bool, Tables)
    {
      if Taken(uuid) then (false, this)
      else (true, this.(leases := leases[uuid := row]))
    }

    function AddOrder(uuid: Uuid, row: OrderRow): (bool, Tables)
    {
      if uuid in orders then (false, this)
      else (true, this.(orders := orders[uuid := row]))
    }

    function DeleteLease(uuid: Uuid): Tables
    {
      this.(leases := leases - {uuid})
    }

    /** Deleting an order also drops the cancellation state of its items. */
    function DeleteOrder(uuid: Uuid): Tables
    {
      this.(orders := orders - {uuid}, cancelled := cancelled - {uuid})
    }

    /**
     * Marks the given items of an existing order as cancelled; for an order that
     * does not exist it reports `false` and changes nothing.
     */
    function CancelOrderItem(uuid: Uuid, orderItemIds: seq<int>): (res: (bool, Tables))
      ensures res.0 <==> uuid in orders
      ensures !res.0 ==> res.1 == this
      ensures res.1.leases == leases && res.1.orders == orders
      ensures res.0 ==> res.1.CancelledItems(uuid) == CancelledItems(uuid) + Elements(orderItemIds)
      ensures forall other :: other != uuid ==> res.1.CancelledItems(other) == CancelledItems(other)
      ensures Valid() ==> res.1.Valid()
    {
      if uuid !in orders then (false, this)
      else (true, this.(cancelled := cancelled[uuid := CancelledItems(uuid) + Elements(orderItemIds)]))
    }
  }

  /** The shared database object; its fields are the tables, updated in place. */
  class Database {
    var leases: map<Uuid, LeaseRow>
    var orders: map<Uuid, OrderRow>
    var cancelled: map<Uuid, set<int>>
    /** Every cancellation request received so far, in order. */
    ghost var cancelCalls: seq<CancelCall>

    function State(): Tables
      reads this
    {
      Tables(leases, orders, cancelled)
    }

    constructor ()
      ensures State() == Tables(map[], map[], map[]) && cancelCalls == []
    {
      leases, orders, cancelled := map[], map[], map[];
      cancelCalls := [];
    }

    method AddLease(uuid: Uuid, brokerRole: BrokerRole, brokerName: string, sellerId: int,
                    customerEmail: string, leaseExpires: int) returns (added: bool)
      modifies this
      ensures (added, State()) == old(State()).AddLease(uuid, LeaseRow(brokerRole, brokerName, sellerId, customerEmail, leaseExpires))
      ensures cancelCalls == old(cancelCalls)
    {
      added := !(uuid in leases || uuid in orders);
      if added {
        leases := leases[uuid := LeaseRow(brokerRole, brokerName, sellerId, customerEmail, leaseExpires)];
      }
    }

    method AddOrder(uuid: Uuid, brokerRole: BrokerRole, brokerName: string, sellerId: int,
                    customerEmail: string, paymentIdentifier: Option<string>, totalOrderPrice: int)
      returns (added: bool)
      modifies this
      ensures (added, State()) == old(State()).AddOrder(uuid, OrderRow(brokerRole, brokerName, sellerId, customerEmail, paymentIdentifier, totalOrderPrice))
      ensures cancelCalls == old(cancelCalls)
    {
      added := uuid !in orders;
      if added {
        orders := orders[uuid := OrderRow(brokerRole, brokerName, sellerId, customerEmail, paymentIdentifier, totalOrderPrice)];
      }
    }

    method DeleteLease(uuid: Uuid)
      modifies this
      ensures State() == old(State()).DeleteLease(uuid)
      ensures cancelCalls == old(cancelCalls)
    {
      leases := leases - {uuid};
    }

    method DeleteOrder(uuid: Uuid)
      modifies this
      ensures State() == old(State()).DeleteOrder(uuid)
      ensures cancelCalls == old(cancelCalls)
    {
      orders := orders - {uuid};
      cancelled := cancelled - {uuid};
    }

    method CancelOrderItem(uuid: Uuid, orderItemIds: seq<int>, customerCancelled: bool) returns (found: bool)
      modifies this
      ensures (found, State()) == old(State()).CancelOrderItem(uuid, orderItemIds)
      ensures cancelCalls == old(cancelCalls) + [CancelCall(uuid, orderItemIds, customerCancelled)]
    {
      cancelCalls := cancelCalls + [CancelCall(uuid, orderItemIds, customerCancelled)];
      found := uuid in orders;
      if found {
        var already := if uuid in cancelled then cancelled[uuid] else {};
        cancelled := cancelled[uuid := already + Elements(orderItemIds)];
      }
    }
  }

  /**
   * A unit of work over the database. Its database reference is nullable:
   * rollback clears it. Commit only marks the transaction committed; how the
   * database makes commit take effect is not part of this model.
   */
  class DatabaseTransaction {
    var database: Database?
    var committed: bool

    constructor (database: Database)
      ensures this.database == database && !committed
    {
      this.database := database;
      committed := false;
    }

    method CommitTransaction()
      modifies this
      ensures committed && database == old(database)
    {
      committed := true;
    }
  }
}
