/** The order service's database layer: the `orders` and `order_items`
    tables, the order status values, CreateOrder and UpdateOrder. */
module OrderStore {
  import opened Wrappers
  import opened Transactions
  import opened GoInt

  const StatusPending: string := "pending"
  const StatusPaid: string := "paid"
  const StatusCanceled: string := "canceled"

  /** A cart line priced by the catalog (`DetailedCartItem`). */
  datatype DetailedCartItem = DetailedCartItem(productId: string, quantity: int, price: int, stock: int, priceId: string)

  /** A row of `orders`, keyed by its caller-generated id. */
  datatype OrderRow = OrderRow(
    userId: string,
    status: string,
    stripeTransactionId: Option<string>,
    totalPrice: int,
    createdAt: int,
    updatedAt: int)

  /** A row of `order_items`. */
  datatype OrderItemRow = OrderItemRow(
    id: string,
    orderId: string,
    productId: string,
    quantity: int,
    pricePerUnit: int,
    totalPrice: int,
    createdAt: int)

  /** Both tables; `orders.id` is the primary key. */
  datatype OrderTables = OrderTables(orders: map<string, OrderRow>, items: seq<OrderItemRow>)

  datatype OrderError = InsertOrderFailed | InsertItemFailed | UpdateFailed | NoRowUpdated

  /** The one statement of a CreateOrder call that the database rejects, if
      any; InsertItemFails(k) is the insert of the k-th item. */
  datatype CreateFault = NoCreateFault | CreateBeginFails | InsertOrderFails | InsertItemFails(index: nat) | CreateCommitFails

  /** The one step of an UpdateOrder call that the database rejects, if any;
      RowsAffectedFails is an error from reading the affected-row count. */
  datatype UpdateFault = NoUpdateFault | UpdateBeginFails | ExecFails | RowsAffectedFails | UpdateCommitFails

  /** Every order item belongs to an order: the foreign key of
      order_items.order_id on orders.id, which CreateOrder keeps by
      inserting the order before its items in one transaction. */
  ghost predicate Consistent(t: OrderTables) {
    forall i :: 0 <= i < |t.items| ==> t.items[i].orderId in t.orders
  }

  /** The order_items row CreateOrder writes for `item`; the line total is
      the int64 product of quantity and unit price. */
  function ItemRow(orderId: string, item: DetailedCartItem, id: string, now: int): OrderItemRow {
    OrderItemRow(id, orderId, item.productId, item.quantity, item.price, Int64(item.quantity * item.price), now)
  }

  /** The rows CreateOrder writes for `items`, one per item in order; the
      k-th takes the k-th generated uuid. */
  function ItemRows(orderId: string, items: seq<DetailedCartItem>, ids: nat -> string, now: int): seq<OrderItemRow>
  {
    if |items| == 0 then []
    else ItemRows(orderId, items[..|items| - 1], ids, now) + [ItemRow(orderId, items[|items| - 1], ids(|items| - 1), now)]
  }

  /** The item inserts all succeed. */
  predicate ItemsInserted(fault: CreateFault, count: nat) {
    !(fault.InsertItemFails? && fault.index < count)
  }

  /** What CreateOrder's callback computes on the transaction's working copy. */
  function CreateOrderBody(t: OrderTables, orderId: string, userId: string, items: seq<DetailedCartItem>, totalPrice: int,
                           now: int, ids: nat -> string, fault: CreateFault): Result<OrderTables, OrderError>
  {
    if orderId in t.orders || fault == InsertOrderFails then Failure(InsertOrderFailed)
    else if !ItemsInserted(fault, |items|) then Failure(InsertItemFailed)
    else Success(OrderTables(
      t.orders[orderId := OrderRow(userId, StatusPending, None, totalPrice, now, now)],
      t.items + ItemRows(orderId, items, ids, now)))
  }

  /** The whole CreateOrder call: its callback inside withTx. */
  function CreateOrderEffect(t: OrderTables, orderId: string, userId: string, items: seq<DetailedCartItem>, totalPrice: int,
                             now: int, ids: nat -> string, fault: CreateFault): TxRun<OrderTables, OrderError>
  {
    RunTx(t, fault != CreateBeginFails, CreateOrderBody(t, orderId, userId, items, totalPrice, now, ids, fault), fault != CreateCommitFails)
  }

  /** The `UPDATE orders SET status, stripe_transaction_id, updated_at WHERE id`
      statement on an existing row: that row takes the new values and every
      other row is left alone. */
  function SetStatus(orders: map<string, OrderRow>, orderId: string, status: string, txId: string, now: int): (r: map<string, OrderRow>)
    requires orderId in orders
    ensures r.Keys == orders.Keys
    ensures r[orderId].status == status && r[orderId].stripeTransactionId == Some(txId) && r[orderId].updatedAt == now
    ensures r[orderId].userId == orders[orderId].userId && r[orderId].totalPrice == orders[orderId].totalPrice
    ensures r[orderId].createdAt == orders[orderId].createdAt
    ensures forall k :: k in orders && k != orderId ==> r[k] == orders[k]
  {
    orders[orderId := orders[orderId].(status := status, stripeTransactionId := Some(txId), updatedAt := now)]
  }

  /** What UpdateOrder's callback computes; zero affected rows is an error. */
  function UpdateOrderBody(t: OrderTables, orderId: string, status: string, txId: string, now: int, fault: UpdateFault): Result<OrderTables, OrderError>
  {
    if fault == ExecFails then Failure(UpdateFailed)
    else if orderId !in t.orders || fault == RowsAffectedFails then Failure(NoRowUpdated)
    else Success(t.(orders := SetStatus(t.orders, orderId, status, txId, now)))
  }

  /** The whole UpdateOrder call: its callback inside withTx. */
  function UpdateOrderEffect(t: OrderTables, orderId: string, status: string, txId: string, now: int, fault: UpdateFault): TxRun<OrderTables, OrderError>
  {
    RunTx(t, fault != UpdateBeginFails, UpdateOrderBody(t, orderId, status, txId, now, fault), fault != UpdateCommitFails)
  }

  // ---------------------------------------------------------------------
  // Lemmas about the store's operations
  // ---------------------------------------------------------------------

  /** The item rows describe the items one by one, in input order: unit
      price is the item's price, the line total is quantity * price (as an
      int64), and all belong to the order. */
  lemma {:induction false} ItemRowsDescribeItems(orderId: string, items: seq<DetailedCartItem>, ids: nat -> string, now: int)
    ensures var rows := ItemRows(orderId, items, ids, now);
            && |rows| == |items|
            && forall i :: 0 <= i < |items| ==>
                 && rows[i].id == ids(i)
                 && rows[i].orderId == orderId
                 && rows[i].productId == items[i].productId
                 && rows[i].quantity == items[i].quantity
                 && rows[i].pricePerUnit == items[i].price
                 && rows[i].totalPrice == Int64(items[i].quantity * items[i].price)
                 && (InInt64(items[i].quantity * items[i].price) ==> rows[i].totalPrice == items[i].quantity * items[i].price)
                 && rows[i].createdAt == now
  {
    if |items| > 0 {
      var init := items[..|items| - 1];
      ItemRowsDescribeItems(orderId, init, ids, now);
      assert forall i :: 0 <= i < |init| ==> init[i] == items[i];
    }
  }

  /** CreateOrder succeeds exactly when the id is new and no statement fails. */
  lemma CreateOrderOutcome(t: OrderTables, orderId: string, userId: string, items: seq<DetailedCartItem>, totalPrice: int,
                           now: int, ids: nat -> string, fault: CreateFault)
    ensures CreateOrderEffect(t, orderId, userId, items, totalPrice, now, ids, fault).outcome.Pass? <==>
              orderId !in t.orders && (fault == NoCreateFault || (fault.InsertItemFails? && fault.index >= |items|))
  {
  }

  /** A created order is pending, has no transaction id yet and carries the
      supplied total (it is not recomputed from the items); its items are
      appended after all existing rows, and no existing order changes. */
  lemma CreateOrderAddsPendingOrder(t: OrderTables, orderId: string, userId: string, items: seq<DetailedCartItem>, totalPrice: int,
                                    now: int, ids: nat -> string, fault: CreateFault)
    requires CreateOrderEffect(t, orderId, userId, items, totalPrice, now, ids, fault).outcome.Pass?
    ensures var after := CreateOrderEffect(t, orderId, userId, items, totalPrice, now, ids, fault).after;
            && orderId !in t.orders
            && after.orders.Keys == t.orders.Keys + {orderId}
            && after.orders[orderId] == OrderRow(userId, StatusPending, None, totalPrice, now, now)
            && (forall k :: k in t.orders ==> after.orders[k] == t.orders[k])
            && |after.items| == |t.items| + |items|
            && after.items[..|t.items|] == t.items
            && after.items[|t.items|..] == ItemRows(orderId, items, ids, now)
  {
    var after := CreateOrderEffect(t, orderId, userId, items, totalPrice, now, ids, fault).after;
    ItemRowsDescribeItems(orderId, items, ids, now);
    assert after.items == t.items + ItemRows(orderId, items, ids, now);
  }

  /** A failed CreateOrder leaves neither the order nor any of its items. */
  lemma CreateOrderIsAtomic(t: OrderTables, orderId: string, userId: string, items: seq<DetailedCartItem>, totalPrice: int,
                            now: int, ids: nat -> string, fault: CreateFault)
    requires CreateOrderEffect(t, orderId, userId, items, totalPrice, now, ids, fault).outcome.Fail?
    ensures CreateOrderEffect(t, orderId, userId, items, totalPrice, now, ids, fault).after == t
  {
  }

  /** CreateOrder keeps every item attached to an order. */
  lemma CreateOrderPreservesConsistent(t: OrderTables, orderId: string, userId: string, items: seq<DetailedCartItem>, totalPrice: int,
                                       now: int, ids: nat -> string, fault: CreateFault)
    requires Consistent(t)
    ensures Consistent(CreateOrderEffect(t, orderId, userId, items, totalPrice, now, ids, fault).after)
  {
    ItemRowsDescribeItems(orderId, items, ids, now);
  }

  /** UpdateOrder succeeds exactly when the row exists and no step fails;
      an unknown id affects zero rows, is an error, and changes nothing. */
  lemma UpdateOrderOutcome(t: OrderTables, orderId: string, status: string, txId: string, now: int, fault: UpdateFault)
    ensures var run := UpdateOrderEffect(t, orderId, status, txId, now, fault);
            && (run.outcome.Pass? <==> orderId in t.orders && fault == NoUpdateFault)
            && (run.outcome.Pass? ==> run.after == t.(orders := SetStatus(t.orders, orderId, status, txId, now)))
            && (run.outcome.Fail? ==> run.after == t)
            && (orderId !in t.orders && fault != UpdateBeginFails && fault != ExecFails ==>
                  run.outcome == Fail(Aborted(NoRowUpdated)))
  {
  }

  /** UpdateOrder never touches order_items and keeps them attached. */
  lemma UpdateOrderPreservesConsistent(t: OrderTables, orderId: string, status: string, txId: string, now: int, fault: UpdateFault)
    requires Consistent(t)
    ensures var after := UpdateOrderEffect(t, orderId, status, txId, now, fault).after;
            after.items == t.items && Consistent(after)
  {
  }

  /** Of two updates of the same row the later one wins completely. */
  lemma LastUpdateWins(orders: map<string, OrderRow>, orderId: string, s1: string, tx1: string, now1: int, s2: string, tx2: string, now2: int)
    requires orderId in orders
    ensures SetStatus(SetStatus(orders, orderId, s1, tx1, now1), orderId, s2, tx2, now2) == SetStatus(orders, orderId, s2, tx2, now2)
  {
    var twice := SetStatus(SetStatus(orders, orderId, s1, tx1, now1), orderId, s2, tx2, now2);
    var once := SetStatus(orders, orderId, s2, tx2, now2);
    assert twice.Keys == once.Keys;
    assert forall k :: k in twice ==> twice[k] == once[k];
  }

  /** The update does not read the row's current status or transaction id:
      rows that differ only there are updated to the same result. */
  lemma UpdateIgnoresCurrentStatus(t: OrderTables, orderId: string, other: OrderRow, status: string, txId: string, now: int, fault: UpdateFault)
    requires orderId in t.orders
    requires other.userId == t.orders[orderId].userId && other.totalPrice == t.orders[orderId].totalPrice
    requires other.createdAt == t.orders[orderId].createdAt
    requires UpdateOrderEffect(t, orderId, status, txId, now, fault).outcome.Pass?
    ensures UpdateOrderEffect(t.(orders := t.orders[orderId := other]), orderId, status, txId, now, fault).after ==
            UpdateOrderEffect(t, orderId, status, txId, now, fault).after
  {
    var t2 := t.(orders := t.orders[orderId := other]);
    var a := SetStatus(t2.orders, orderId, status, txId, now);
    var b := SetStatus(t.orders, orderId, status, txId, now);
    assert a.Keys == b.Keys;
    assert forall k :: k in a ==> a[k] == b[k];
  }

  /** Applying the same UpdateOrder twice, for the same clock value and
      the same fault, leaves the same tables as once. */
  lemma UpdateOrderIdempotent(t: OrderTables, orderId: string, status: string, txId: string, now: int, fault: UpdateFault)
    ensures var once := UpdateOrderEffect(t, orderId, status, txId, now, fault).after;
            UpdateOrderEffect(once, orderId, status, txId, now, fault).after == once
  {
    var once := UpdateOrderEffect(t, orderId, status, txId, now, fault);
    if once.outcome.Pass? {
      LastUpdateWins(t.orders, orderId, status, txId, now, status, txId, now);
    }
  }

  /** The database behind one order service instance. */
  class Store {
    var orders: map<string, OrderRow>
    var orderItems: seq<OrderItemRow>

    constructor ()
      ensures orders == map[] && orderItems == []
      ensures Valid()
    {
      orders := map[];
      orderItems := [];
    }

    function Tables(): OrderTables
      reads this
    {
      OrderTables(orders, orderItems)
    }

    ghost predicate Valid()
      reads this
    {
      Consistent(Tables())
    }

    /** Inserts a pending order and one order_items row per item, in one
        transaction. `now` stands for the clock and `itemIds(k)` for the
        k-th uuid the call generates. */
    method CreateOrder(orderId: string, userId: string, items: seq<DetailedCartItem>, totalPrice: int,
                       now: int, itemIds: nat -> string, fault: CreateFault) returns (r: Outcome<TxError<OrderError>>)
      requires Valid()
      modifies this
      ensures Valid()
      ensures TxRun(r, Tables()) == CreateOrderEffect(old(Tables()), orderId, userId, items, totalPrice, now, itemIds, fault)
    {
      CreateOrderPreservesConsistent(Tables(), orderId, userId, items, totalPrice, now, itemIds, fault);
      if fault == CreateBeginFails {
        return Fail(BeginFailed);
      }
      // The transaction works on a copy that only a commit writes back.
      var txOrders, txItems := orders, orderItems;
      if orderId in txOrders || fault == InsertOrderFails {
        return Fail(Aborted(InsertOrderFailed));
      }
      txOrders := txOrders[orderId := OrderRow(userId, StatusPending, None, totalPrice, now, now)];
      var i := 0;
      while i < |items|
        invariant 0 <= i <= |items|
        invariant txItems == orderItems + ItemRows(orderId, items[..i], itemIds, now)
        invariant ItemsInserted(fault, i)
      {
        if fault == InsertItemFails(i) {
          return Fail(Aborted(InsertItemFailed));
        }
        assert items[..i + 1][..i] == items[..i];
        txItems := txItems + [ItemRow(orderId, items[i], itemIds(i), now)];
        i := i + 1;
      }
      assert items[..i] == items;
      if fault == CreateCommitFails {
        return Fail(CommitFailed);
      }
      orders, orderItems := txOrders, txItems;
      r := Pass;
    }

    /** Sets the status and payment transaction id of one order. */
    method UpdateOrder(orderId: string, status: string, stripeTransactionId: string, now: int, fault: UpdateFault)
      returns (r: Outcome<TxError<OrderError>>)
      requires Valid()
      modifies this
      ensures Valid()
      ensures TxRun(r, Tables()) == UpdateOrderEffect(old(Tables()), orderId, status, stripeTransactionId, now, fault)
    {
      if fault == UpdateBeginFails {
        return Fail(BeginFailed);
      }
      if fault == ExecFails {
        return Fail(Aborted(UpdateFailed));
      }
      var affected := if orderId in orders then 1 else 0;
      if affected == 0 || fault == RowsAffectedFails {
        return Fail(Aborted(NoRowUpdated));
      }
      var updated := SetStatus(orders, orderId, status, stripeTransactionId, now);
      if fault == UpdateCommitFails {
        return Fail(CommitFailed);
      }
      orders := updated;
      r := Pass;
    }
  }
}
