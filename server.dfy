/**
 The five request handlers, each one atomic step on the shared `orders` table.

 `OrderStore` holds the table's rows in insertion order and the next
 `AUTOINCREMENT` id; every handler that writes reassigns `rows`. Each handler's
 postcondition ties the new state to the statement functions of `Ledger`, so
 every lemma proved there about `Next` and `Run` holds of the store.
 */
module Server {
  import opened Orders
  import opened Requests
  import opened Ledger

  const OrderStored := "Order received and stored successfully"
  const OrderUpdated := "Order updated successfully"
  const RefundProcessed := "Refund request processed successfully"
  const RefundFailed := "Error processing refund request"

  class OrderStore {
    var rows: seq<Row>
    var nextId: nat
    /** False for the table `create_orders_table` creates, which has no refund columns. */
    const hasRefundColumns: bool

    function State(): Table
      reads this
    {
      Table(rows, nextId, hasRefundColumns)
    }

    ghost predicate Valid()
      reads this
    {
      Ledger.Valid(State())
    }

    /** A database file in which the `orders` table has just been created. */
    constructor (hasRefundColumns: bool)
      ensures Valid()
      ensures State() == Empty(hasRefundColumns)
    {
      rows := [];
      nextId := 1;
      this.hasRefundColumns := hasRefundColumns;
    }

    /**
     `POST /process-json`: appends one row built from the first item and the order
     fields; the id in the payload is read and dropped, the row gets `nextId`.
     */
    method ProcessJson(p: OrderPayload) returns (r: Result<string>)
      requires Valid()
      modifies this
      ensures Valid()
      ensures State() == Next(old(State()), Request.ProcessJson(p))
      ensures r.Ok? <==> OrderComplete(p)
      ensures r.Ok? ==> r.value == OrderStored
      ensures r.Raised? ==> r == Raised(ReadOrder(p).failure) && rows == old(rows) && nextId == old(nextId)
      ensures r.Ok? ==>
        && rows == old(rows) + [NewRow(old(nextId), ReadOrder(p).value)]
        && nextId == old(nextId) + 1
        && forall i :: 0 <= i < |old(rows)| ==> rows[i].id < rows[|old(rows)|].id
    {
      var order := ReadOrder(p);
      if order.Raised? {
        return Raised(order.failure);
      }
      rows := rows + [NewRow(nextId, order.value)];
      nextId := nextId + 1;
      NextKeepsValid(old(State()), Request.ProcessJson(p));
      r := Ok(OrderStored);
    }

    /**
     `GET /orders/<venue>`: fetches the new rows of `venue`, marks every one of them
     sent, and answers their summaries in table order.
     */
    method GetOrders(venue: string) returns (orderData: seq<OrderSummary>)
      requires Valid()
      modifies this
      ensures Valid()
      ensures State() == Next(old(State()), Request.GetOrders(venue))
      ensures rows == MarkSent(old(rows), venue) && nextId == old(nextId)
      ensures orderData == OrdersReply(old(State()), venue)
      ensures |orderData| == |Where(old(rows), venue, New)|
      ensures forall k :: 0 <= k < |orderData| ==> orderData[k].venue == venue
    {
      var orders := Where(rows, venue, New);
      rows := MarkSent(rows, venue);
      NextKeepsValid(old(State()), Request.GetOrders(venue));
      orderData := [];
      var i := 0;
      while i < |orders|
        invariant 0 <= i <= |orders|
        invariant |orderData| == i
        invariant forall k :: 0 <= k < i ==> orderData[k] == Summary(orders[k])
      {
        orderData := orderData + [Summary(orders[i])];
        i := i + 1;
      }
      forall k | 0 <= k < |orderData| ensures orderData[k].venue == venue {
        assert orders[k] in orders;
      }
    }

    /**
     `POST /orders/<order_id>/update`: the row with that id gets the fiscal id and
     status `done`, whatever its status was. An unknown id changes nothing and is
     still answered as a success; a form without `fiscal_id` fails before the update.
     */
    method UpdateOrder(orderId: int, fiscalId: Option<string>) returns (r: Result<string>)
      requires Valid()
      modifies this
      ensures Valid()
      ensures State() == Next(old(State()), Request.UpdateOrder(orderId, fiscalId))
      ensures nextId == old(nextId)
      ensures fiscalId.None? ==> r == Raised(MissingKey("fiscal_id")) && rows == old(rows)
      ensures fiscalId.Some? ==> r == Ok(OrderUpdated) && rows == Fiscalize(old(rows), orderId, fiscalId.value)
    {
      if fiscalId.None? {
        return Raised(MissingKey("fiscal_id"));
      }
      rows := Fiscalize(rows, orderId, fiscalId.value);
      NextKeepsValid(old(State()), Request.UpdateOrder(orderId, fiscalId));
      r := Ok(OrderUpdated);
    }

    /**
     `POST /refundroute`: where the refund columns exist, the row with that id becomes
     `pending refund print` and takes the refund fields. On the table `create_orders_table`
     makes, the update names columns that do not exist; the error is caught and answered
     with a failure text, and the table is unchanged.
     */
    method RefundRoute(p: RefundPayload) returns (r: Result<string>)
      requires Valid()
      modifies this
      ensures Valid()
      ensures State() == Next(old(State()), Request.RefundRoute(p))
      ensures nextId == old(nextId)
      ensures ReadRefund(p).Raised? ==> r == Raised(ReadRefund(p).failure) && rows == old(rows)
      ensures ReadRefund(p).Ok? && !hasRefundColumns ==> r == Ok(RefundFailed) && rows == old(rows)
      ensures ReadRefund(p).Ok? && hasRefundColumns ==>
        r == Ok(RefundProcessed) && rows == MarkRefundPending(old(rows), p.id.value, ReadRefund(p).value.refund)
    {
      var request := ReadRefund(p);
      if request.Raised? {
        return Raised(request.failure);
      }
      if !hasRefundColumns {
        return Ok(RefundFailed);
      }
      rows := MarkRefundPending(rows, request.value.id, request.value.refund);
      NextKeepsValid(old(State()), Request.RefundRoute(p));
      r := Ok(RefundProcessed);
    }

    /**
     `GET /orders/pending_refund/<venue>`: reads the rows of `venue` that are
     `refund sent` and changes nothing. No handler writes that status, so in a
     valid store the answer is always the empty list.
     */
    method GetPendingRefundOrders(venue: string) returns (r: Result<seq<RefundView>>)
      ensures r == PendingRefundsReply(State(), venue)
      ensures r.Ok? ==> forall k :: 0 <= k < |r.value| ==> r.value[k].order.venue == venue
      ensures Valid() ==> r == Ok([])
    {
      if Valid() {
        PendingRefundsEmpty(State(), venue);
      }
      var refundOrders := Where(rows, venue, RefundSent);
      var refundOrderData := [];
      var i := 0;
      while i < |refundOrders|
        invariant 0 <= i <= |refundOrders|
        invariant |refundOrderData| == i
        invariant i > 0 ==> hasRefundColumns
        invariant forall k :: 0 <= k < i ==> refundOrderData[k] == RefundViewOf(refundOrders[k])
      {
        if !hasRefundColumns {
          return Raised(ColumnOutOfRange(10));
        }
        refundOrderData := refundOrderData + [RefundViewOf(refundOrders[i])];
        i := i + 1;
      }
      assert refundOrderData == RefundViews(refundOrders);
      forall k | 0 <= k < |refundOrderData| ensures refundOrderData[k].order.venue == venue {
        assert refundOrders[k] in refundOrders;
      }
      r := Ok(refundOrderData);
    }
  }
}
