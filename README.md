# Acme order store: a verified model

This project models `AcmeOrderStore`, the persistence hooks that the example
booking system of OpenActive.Server.NET plugs into the OpenBooking flow. The
store does four things:

- **Lease creation** at stage C2. It checks the currency, sets a five-minute
  expiry and turns a refusal from the database into "order already exists".
- **Order creation.** It checks the currency, records the broker role, the
  optional payment identifier and the total due, and turns a refusal from the
  database into "order already exists".
- **Deletion and cancellation.** It deletes leases and orders by order id, and
  asks the database to start customer cancellation of a list of order items.
- **Transaction lifecycle.** Begin opens a transaction over the shared
  database, complete commits it, and rollback clears the transaction's
  database reference.

Modules, one file each:

- `Wrappers` holds `Option`, which stands for C# null.
- `OpenActive` holds the framework values the store reads: flow stage, broker
  type, ids, price, payment, lease and the flow context. They are cut down to
  the fields that are actually read.
- `FakeDatabase` is an abstract model of the fake booking database. It has
  three parts:
  - `Tables`: the database contents as a value (leases and orders keyed by
    order id, and the cancelled item ids of each order), with one pure
    function per database operation.
  - `Database`: the shared database object. Its fields are those maps, and
    each method is proved to act as the matching `Tables` function.
  - `DatabaseTransaction`: a nullable database reference plus a committed
    flag.
- `BookingSystem` holds the store's pure decisions and the class
  `AcmeOrderStore`:
  - pure decisions: the currency check, the C2 gate, the broker-role mapping
    and the list of item ids;
  - `CreateLeaseOn` and `CreateOrderOn`: what a creation returns and what it
    leaves in the tables;
  - `AcmeOrderStore`: its methods are proved to do exactly what those
    functions say to the database objects.
- `OrderStoreProperties` holds lemmas that relate several calls, plus one
  caller-side method that puts together the class contracts: a lease, then a
  retry.

The thrown `OpenBookingException`s become values of
`Outcome<T> = Ok(value) | UnsupportedCurrency | OrderAlreadyExists`. A `null`
lease becomes `Ok(None)`. The clock `DateTimeOffset.Now` becomes the parameter
`now`, counted in ticks of 100 ns, so five minutes is `LeaseDuration`, i.e.
3 000 000 000 ticks.

## Behaviour worth noting

- Rollback does not undo writes. The code only sets
  `databaseTransaction.Database` to null (OrderStore.cs line 103). In the
  model, AddLease and AddOrder write straight to the database the
  transaction refers to. Rollback neither undoes those writes nor marks the
  transaction committed.
- Completing or rolling back a transaction that is already finished is not
  checked. The model accepts it too.
- The stored payment identifier is `context.Payment?.Identifier`, and
  `Identifier` can itself be null. So the stored identifier is present only
  when the context has a payment, and it then equals that payment's
  identifier. When `Identifier` is null, nothing is stored even though a
  payment exists.

## Model

| member | source | states |
|---|---|---|
| `BookingSystem.MapBrokerRole` | Examples/BookingSystem.AspNetFramework/SessionsStore/OrderStore.cs:40 | Total mapping: the stored role is AgentBroker exactly for an agent broker, ResellerBroker exactly for a reseller broker, and NoBroker exactly when the broker type is null or NoBroker. |
| `BookingSystem.ItemIds` | Examples/BookingSystem.AspNetFramework/SessionsStore/OrderStore.cs:20 | The ids passed to the database are the long item ids of `orderItemIds`, one each, in the same order and the same count. |
| `BookingSystem.CreateLeaseOn` | Examples/BookingSystem.AspNetFramework/SessionsStore/OrderStore.cs:23-58 | A non-GBP total is refused at every stage with no write. GBP at a stage other than C2 returns no lease and writes nothing. At C2, a taken order id gives `OrderAlreadyExists` and changes nothing. Otherwise it stores a lease row under the order id with expiry now + 5 minutes and returns a lease carrying only that expiry. It keeps the database invariant. |
| `BookingSystem.CreateOrderOn` | Examples/BookingSystem.AspNetFramework/SessionsStore/OrderStore.cs:66-83 | A non-GBP total is refused before any write. An order id that already holds an order gives `OrderAlreadyExists` and changes nothing. Otherwise it stores the order row (broker role, name, seller, email, payment identifier, total) and changes nothing else. It keeps the database invariant. |
| `FakeDatabase.Tables.CancelOrderItem` | Examples/BookingSystem.AspNetFramework/SessionsStore/OrderStore.cs:17-20 | Reports found exactly when the order exists. A missing order leaves everything unchanged. For an existing order, the cancelled items of that order become the old ones plus exactly the given ids, and nothing else changes. |
| `FakeDatabase.Database.AddLease` | Examples/BookingSystem.AspNetFramework/SessionsStore/OrderStore.cs:38-47 | Returns false when the order id is already taken by a lease or an order, and then changes nothing. Otherwise it adds the lease row. |
| `FakeDatabase.Database.AddOrder` | Examples/BookingSystem.AspNetFramework/SessionsStore/OrderStore.cs:73-82 | Returns false when an order is already stored under the id, and then changes nothing. Otherwise it adds the order row. |
| `FakeDatabase.Database.DeleteLease` | Examples/BookingSystem.AspNetFramework/SessionsStore/OrderStore.cs:63 | Removes the lease under the id, if there is one. |
| `FakeDatabase.Database.DeleteOrder` | Examples/BookingSystem.AspNetFramework/SessionsStore/OrderStore.cs:87 | Removes the order under the id and its cancellation state, if there is one. |
| `FakeDatabase.Database.CancelOrderItem` | Examples/BookingSystem.AspNetFramework/SessionsStore/OrderStore.cs:20 | Acts as `Tables.CancelOrderItem` and records the request (order id, item ids, customer flag) in the call history. |
| `FakeDatabase.DatabaseTransaction.constructor` | Examples/BookingSystem.AspNetFramework/SessionsStore/OrderStore.cs:93 | A new transaction refers to the given database and is not committed. |
| `FakeDatabase.DatabaseTransaction.CommitTransaction` | Examples/BookingSystem.AspNetFramework/SessionsStore/OrderStore.cs:98 | Marks the transaction committed and keeps its database reference. |
| `BookingSystem.AcmeOrderStore.constructor` | Examples/BookingSystem.AspNetFramework/SessionsStore/OrderStore.cs:12 | The store is bound to the one shared database. |
| `BookingSystem.AcmeOrderStore.CustomerCancelOrderItems` | Examples/BookingSystem.AspNetFramework/SessionsStore/OrderStore.cs:18-21 | Passes the order id, the item ids in order and the customer flag `true` to the database. Returns the database's found/not-found answer unchanged; a missing order is not an error. |
| `BookingSystem.AcmeOrderStore.CreateLease` | Examples/BookingSystem.AspNetFramework/SessionsStore/OrderStore.cs:23-58 | Returns and leaves in the transaction's database exactly what `CreateLeaseOn` gives for the old contents. It needs a database reference only where it writes (GBP at C2). |
| `BookingSystem.AcmeOrderStore.DeleteLease` | Examples/BookingSystem.AspNetFramework/SessionsStore/OrderStore.cs:60-64 | Deletes the lease by id in the shared database, outside any transaction; deleting a missing lease changes nothing. |
| `BookingSystem.AcmeOrderStore.CreateOrder` | Examples/BookingSystem.AspNetFramework/SessionsStore/OrderStore.cs:66-83 | Returns and leaves in the transaction's database exactly what `CreateOrderOn` gives for the old contents. It needs a database reference only where it writes (GBP). |
| `BookingSystem.AcmeOrderStore.DeleteOrder` | Examples/BookingSystem.AspNetFramework/SessionsStore/OrderStore.cs:85-88 | Deletes the order by id in the shared database, outside any transaction. |
| `BookingSystem.AcmeOrderStore.BeginOrderTransaction` | Examples/BookingSystem.AspNetFramework/SessionsStore/OrderStore.cs:91-94 | Ignores the stage. Returns a fresh, uncommitted transaction over the shared database. |
| `BookingSystem.AcmeOrderStore.CompleteOrderTransaction` | Examples/BookingSystem.AspNetFramework/SessionsStore/OrderStore.cs:96-99 | Commits the transaction. |
| `BookingSystem.AcmeOrderStore.RollbackOrderTransaction` | Examples/BookingSystem.AspNetFramework/SessionsStore/OrderStore.cs:101-104 | Only clears the transaction's database reference. It does not commit, and it leaves the database untouched. |
| `OrderStoreProperties.CurrencyCheckedBeforeStage` | Examples/BookingSystem.AspNetFramework/SessionsStore/OrderStore.cs:25-33 | A non-GBP quote is refused as unsupported currency at every flow stage, including stages other than C2, with no write. |
| `OrderStoreProperties.CreatedLeaseIsStored` | Examples/BookingSystem.AspNetFramework/SessionsStore/OrderStore.cs:36-52 | A created lease is stored under the order id with exactly the expiry it is returned with, now + 5 minutes. |
| `OrderStoreProperties.FailedCreationChangesNothing` | Examples/BookingSystem.AspNetFramework/SessionsStore/OrderStore.cs:25-82 | Whenever lease or order creation does not succeed (wrong currency or duplicate id), the tables are unchanged. |
| `OrderStoreProperties.LeaseRetryRejected` | Examples/BookingSystem.AspNetFramework/SessionsStore/OrderStore.cs:38-47 | After a lease is created, any later GBP lease request at C2 for the same order id gives `OrderAlreadyExists` and changes nothing. |
| `OrderStoreProperties.OrderRetryRejected` | Examples/BookingSystem.AspNetFramework/SessionsStore/OrderStore.cs:73-82 | After an order is created, any later GBP order for the same id gives `OrderAlreadyExists` and changes nothing. |
| `OrderStoreProperties.OrderBlocksLease` | Examples/BookingSystem.AspNetFramework/SessionsStore/OrderStore.cs:38-47 | Once an order exists under an id, a GBP lease request at C2 for that id gives `OrderAlreadyExists`. |
| `OrderStoreProperties.CreatedOrderRow` | Examples/BookingSystem.AspNetFramework/SessionsStore/OrderStore.cs:73-80 | The stored order has a payment identifier only if the context has a payment, and then it equals that payment's identifier. Its price is the order's total due, and its broker role is the mapped role. |
| `OrderStoreProperties.BrokerRoleSharedByLeaseAndOrder` | Examples/BookingSystem.AspNetFramework/SessionsStore/OrderStore.cs:40-75 | When both a lease and an order are created for the same context, the stored lease row and the stored order row carry the same broker role. |
| `OrderStoreProperties.BrokerRoleRoundTrip` | Examples/BookingSystem.AspNetFramework/SessionsStore/OrderStore.cs:40 | On a present broker type the mapping is a bijection onto the stored roles, with `BrokerTypeOf` as its inverse in both directions. |
| `OrderStoreProperties.CancelledIdsAreTheItemIds` | Examples/BookingSystem.AspNetFramework/SessionsStore/OrderStore.cs:20 | An id is marked for cancellation exactly when some given order item carries it. |
| `OrderStoreProperties.DeletionIdempotent` | Examples/BookingSystem.AspNetFramework/SessionsStore/OrderStore.cs:60-88 | Deleting a lease or an order twice is the same as deleting it once. Deleting a missing lease changes nothing. On contents that keep the invariant (cancellations only against existing orders), deleting a missing order changes nothing. Deletion keeps the invariant. |
| `OrderStoreProperties.DeletionsAreIndependent` | Examples/BookingSystem.AspNetFramework/SessionsStore/OrderStore.cs:60-88 | Deleting a lease leaves orders and cancellations alone. Deleting an order leaves leases alone. |
| `OrderStoreProperties.RetriedLeaseIsRefused` | Examples/BookingSystem.AspNetFramework/SessionsStore/OrderStore.cs:23-104 | A caller's view through the class contracts. A committed C2 lease returns now + 5 minutes. A retry in a new transaction gets `OrderAlreadyExists`, and the stored lease keeps the first row. |

## Left out

- The `orderIdTemplate` parameter of `CustomerCancelOrderItems` is not modelled, because the method never reads it.
- The clock is not modelled: `DateTimeOffset.Now` is the parameter `now`. An overflow of `DateTimeOffset` past its maximum is not modelled.
- The fake database's storage engine is not modelled, and neither is how its commit takes effect. Only the boundary the store relies on is modelled:
  - AddLease and AddOrder report `false` on a taken id and then change nothing. AddLease treats an id as taken when it holds a lease or an order, so no lease can be taken on an id that already holds an order. AddOrder treats it as taken only when it holds an order.
  - Cancellation marks item ids in a per-order set.
- The framework types are cut down to the fields the store reads, because the rest of them is serialisation detail. The `OrderStore<T>` base class that calls BeginOrderTransaction, CompleteOrderTransaction and RollbackOrderTransaction around each creation is not part of this model.
- Null dereferences are preconditions, not crash paths. Each applies only on the branch that dereferences it:
  - `.Value` of `SellerIdLong`, `Price` and `OrderItemIdLong`;
  - `databaseTransaction.Database`.

  `context.Broker`, `context.Customer` and `context.OrderId` are taken to be present.
- The 64-bit width of `long` ids is not modelled: seller and item ids are unbounded integers, and the store does no arithmetic on them.
- Decimal prices are opaque integers, because the store does no arithmetic on them.
- Concurrent calls are not modelled. Each hook is sequential code with no locking, and uniqueness under concurrent creation is left to the database.
