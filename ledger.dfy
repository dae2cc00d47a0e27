/**
 The `orders` table as a value, and each SQL statement of the handlers as a
 function on it.

 A table is its rows in insertion order, the id that `AUTOINCREMENT` hands out
 next, and whether the database has the refund columns at all. The table that
 `create_orders_table` makes has none, so `hasRefundColumns` is false for it.
 */
module Ledger {
  import opened Orders
  import opened Requests

  datatype Table = Table(rows: seq<Row>, nextId: nat, hasRefundColumns: bool)

  /** A freshly created table: no rows, and `AUTOINCREMENT` starts at 1. */
  function Empty(hasRefundColumns: bool): Table
  {
    Table([], 1, hasRefundColumns)
  }

  /** The filter `venue=? AND printing_status=?`. */
  predicate Selected(row: Row, venue: string, status: Status)
  {
    row.venue == venue && row.status == status
  }

  /** Ids grow in table order; in particular no id occurs twice. */
  predicate IdsIncreasing(rows: seq<Row>)
  {
    forall i, j :: 0 <= i < j < |rows| ==> rows[i].id < rows[j].id
  }

  /** The statuses some handler writes; `PendingRefundPrint` only where the refund update can succeed. */
  predicate Reachable(status: Status, hasRefundColumns: bool)
  {
    status == New || status == Sent || status == Done || (hasRefundColumns && status == PendingRefundPrint)
  }

  /** The invariant every handler keeps. */
  predicate Valid(t: Table)
  {
    && 1 <= t.nextId
    && IdsIncreasing(t.rows)
    && (forall i :: 0 <= i < |t.rows| ==> 1 <= t.rows[i].id < t.nextId)
    && (forall i :: 0 <= i < |t.rows| ==> Reachable(t.rows[i].status, t.hasRefundColumns))
    && (!t.hasRefundColumns ==> forall i :: 0 <= i < |t.rows| ==> t.rows[i].refund == None)
  }

  lemma EmptyIsValid(hasRefundColumns: bool)
    ensures Valid(Empty(hasRefundColumns))
  {
  }

  /** `SELECT * FROM orders WHERE venue=? AND printing_status=?`: the matching rows, in table order. */
  function Where(rows: seq<Row>, venue: string, status: Status): (r: seq<Row>)
    ensures |r| <= |rows|
    ensures forall x :: x in r <==> x in rows && Selected(x, venue, status)
    ensures IdsIncreasing(rows) ==> IdsIncreasing(r)
  {
    if rows == [] then []
    else
      var rest := Where(rows[1..], venue, status);
      assert rows == [rows[0]] + rows[1..];
      assert IdsIncreasing(rows) ==> forall x :: x in rest ==> rows[0].id < x.id by {
        if IdsIncreasing(rows) {
          forall x | x in rest ensures rows[0].id < x.id {
            assert x in rows[1..];
            var k :| 0 <= k < |rows[1..]| && rows[1..][k] == x;
            assert rows[k + 1] == x;
          }
        }
      }
      if Selected(rows[0], venue, status) then [rows[0]] + rest else rest
  }

  /** A `SELECT` that no row matches fetches nothing. */
  lemma {:induction false} NoneSelected(rows: seq<Row>, venue: string, status: Status)
    requires forall i :: 0 <= i < |rows| ==> !Selected(rows[i], venue, status)
    ensures Where(rows, venue, status) == []
  {
    if rows != [] {
      NoneSelected(rows[1..], venue, status);
    }
  }

  /** A `SELECT` fetches nothing exactly when no row matches its filter. */
  lemma WhereEmptyIff(rows: seq<Row>, venue: string, status: Status)
    ensures Where(rows, venue, status) == [] <==> forall i :: 0 <= i < |rows| ==> !Selected(rows[i], venue, status)
  {
    var w := Where(rows, venue, status);
    if forall i :: 0 <= i < |rows| ==> !Selected(rows[i], venue, status) {
      NoneSelected(rows, venue, status);
    } else {
      var i :| 0 <= i < |rows| && Selected(rows[i], venue, status);
      assert rows[i] in w;
    }
  }

  /**
   `UPDATE orders SET printing_status='sent' WHERE venue=? AND printing_status='new'`:
   the rows of `venue` that are new become sent, and nothing else changes.
   */
  function MarkSent(rows: seq<Row>, venue: string): (r: seq<Row>)
    ensures |r| == |rows|
    ensures forall i :: 0 <= i < |rows| ==> r[i].(status := rows[i].status) == rows[i]
    ensures forall i :: 0 <= i < |rows| && Selected(rows[i], venue, New) ==> r[i].status == Sent
    ensures forall i :: 0 <= i < |rows| && !Selected(rows[i], venue, New) ==> r[i] == rows[i]
  {
    if rows == [] then []
    else [if Selected(rows[0], venue, New) then rows[0].(status := Sent) else rows[0]] + MarkSent(rows[1..], venue)
  }

  /**
   `UPDATE orders SET fiscal_id=?, printing_status='done' WHERE id=?`, whatever the
   row's status was; an id that no row has changes nothing.
   */
  function Fiscalize(rows: seq<Row>, id: int, fiscalId: string): (r: seq<Row>)
    ensures |r| == |rows|
    ensures forall i :: 0 <= i < |rows| && rows[i].id == id ==> r[i] == rows[i].(fiscalId := fiscalId, status := Done)
    ensures forall i :: 0 <= i < |rows| && rows[i].id != id ==> r[i] == rows[i]
  {
    if rows == [] then []
    else
      [if rows[0].id == id then rows[0].(fiscalId := fiscalId, status := Done) else rows[0]]
      + Fiscalize(rows[1..], id, fiscalId)
  }

  /**
   `UPDATE orders SET printing_status='pending refund print', refund_amount=?, refund_reason=?,
   refund_date=? WHERE id=?`, on a database that has those columns.
   */
  function MarkRefundPending(rows: seq<Row>, id: int, refund: Refund): (r: seq<Row>)
    ensures |r| == |rows|
    ensures forall i :: 0 <= i < |rows| && rows[i].id == id ==>
      r[i] == rows[i].(status := PendingRefundPrint, refund := Some(refund))
    ensures forall i :: 0 <= i < |rows| && rows[i].id != id ==> r[i] == rows[i]
  {
    if rows == [] then []
    else
      [if rows[0].id == id then rows[0].(status := PendingRefundPrint, refund := Some(refund)) else rows[0]]
      + MarkRefundPending(rows[1..], id, refund)
  }

  /** The row `INSERT INTO orders` adds: status `new`, an empty fiscal id, NULL refund columns. */
  function NewRow(id: nat, o: NewOrder): (row: Row)
  {
    Row(id, o.name, o.price, o.quantity, o.isFood, o.time, o.venue, o.total, New, "", None)
  }

  /**
   `INSERT INTO orders`: the table grows by one row at the end, the rows before it
   are kept as they were, and the new row takes the id `AUTOINCREMENT` hands out.
   */
  function Insert(t: Table, o: NewOrder): (t': Table)
    ensures |t'.rows| == |t.rows| + 1 && t'.rows[..|t.rows|] == t.rows
    ensures t'.rows[|t.rows|] == NewRow(t.nextId, o) && t'.rows[|t.rows|].id == t.nextId
    ensures t'.nextId == t.nextId + 1 && t'.hasRefundColumns == t.hasRefundColumns
  {
    t.(rows := t.rows + [NewRow(t.nextId, o)], nextId := t.nextId + 1)
  }

  /** One request to the service, with the values the handler reads from it. */
  datatype Request =
    | ProcessJson(order: OrderPayload)
    | GetOrders(venue: string)
    | UpdateOrder(orderId: int, fiscalId: Option<string>)
    | RefundRoute(refund: RefundPayload)
    | GetPendingRefundOrders(venue: string)

  /** The table after one request has been handled. */
  function Next(t: Table, req: Request): (t': Table)
    ensures t'.hasRefundColumns == t.hasRefundColumns
    ensures req.ProcessJson? && OrderComplete(req.order) ==>
      |t'.rows| == |t.rows| + 1 && t'.nextId == t.nextId + 1
    ensures !(req.ProcessJson? && OrderComplete(req.order)) ==>
      |t'.rows| == |t.rows| && t'.nextId == t.nextId
    ensures req.ProcessJson? && !OrderComplete(req.order) ==> t' == t
    ensures req.UpdateOrder? && req.fiscalId.None? ==> t' == t
    ensures req.RefundRoute? && (ReadRefund(req.refund).Raised? || !t.hasRefundColumns) ==> t' == t
    ensures req.GetPendingRefundOrders? ==> t' == t
  {
    match req
    case ProcessJson(p) =>
      (match ReadOrder(p)
       case Ok(o) => Insert(t, o)
       case Raised(_) => t)
    case GetOrders(venue) => t.(rows := MarkSent(t.rows, venue))
    case UpdateOrder(id, fiscalId) =>
      (match fiscalId
       case Some(f) => t.(rows := Fiscalize(t.rows, id, f))
       case None => t)
    case RefundRoute(p) =>
      (match ReadRefund(p)
       case Ok(q) => if t.hasRefundColumns then t.(rows := MarkRefundPending(t.rows, q.id, q.refund)) else t
       case Raised(_) => t)
    case GetPendingRefundOrders(_) => t
  }

  /** The table after a sequence of requests, handled one at a time. */
  function Run(t: Table, reqs: seq<Request>): (t': Table)
    decreases |reqs|
  {
    if reqs == [] then t else Run(Next(t, reqs[0]), reqs[1..])
  }

  /** What `GET /orders/<venue>` answers: the summaries of the rows of `venue` that are new. */
  function OrdersReply(t: Table, venue: string): (r: seq<OrderSummary>)
    ensures |r| == |Where(t.rows, venue, New)|
    ensures forall k :: 0 <= k < |r| ==> r[k].venue == venue
    ensures forall i :: 0 <= i < |t.rows| && Selected(t.rows[i], venue, New) ==> Summary(t.rows[i]) in r
    ensures (forall i :: 0 <= i < |t.rows| ==> !Selected(t.rows[i], venue, New)) <==> r == []
  {
    var found := Where(t.rows, venue, New);
    WhereEmptyIff(t.rows, venue, New);
    assert forall k :: 0 <= k < |found| ==> found[k] in found;
    assert forall i :: 0 <= i < |t.rows| && Selected(t.rows[i], venue, New) ==>
      exists k :: 0 <= k < |found| && found[k] == t.rows[i] && Summaries(found)[k] == Summary(t.rows[i]);
    Summaries(found)
  }

  /**
   What `GET /orders/pending_refund/<venue>` answers. Building a reply row reads
   tuple positions up to 11; on the ten-column table position 10 does not exist.
   */
  function PendingRefundsReply(t: Table, venue: string): (r: Result<seq<RefundView>>)
    ensures r.Raised? <==>
      !t.hasRefundColumns && exists i :: 0 <= i < |t.rows| && Selected(t.rows[i], venue, RefundSent)
    ensures r.Raised? ==> r.failure == ColumnOutOfRange(10)
    ensures r.Ok? ==> |r.value| == |Where(t.rows, venue, RefundSent)|
    ensures r.Ok? ==> forall k :: 0 <= k < |r.value| ==> r.value[k].order.venue == venue
  {
    var found := Where(t.rows, venue, RefundSent);
    WhereEmptyIff(t.rows, venue, RefundSent);
    assert forall k :: 0 <= k < |found| ==> found[k] in found;
    if found != [] && !t.hasRefundColumns then Raised(ColumnOutOfRange(10))
    else Ok(RefundViews(found))
  }

  // ---------------------------------------------------------------------------
  // Properties of single requests
  // ---------------------------------------------------------------------------

  /**
   An accepted order is appended as one new row: status `new`, an empty fiscal id,
   the item columns from the first list element, and an id above every id in the table.
   A rejected payload leaves the table as it was.
   */
  lemma SubmitAppendsOneRow(t: Table, p: OrderPayload)
    requires Valid(t)
    ensures var t' := Next(t, ProcessJson(p));
      if OrderComplete(p) then
        && |t'.rows| == |t.rows| + 1
        && t'.rows[..|t.rows|] == t.rows
        && t'.nextId == t.nextId + 1
        && var row := t'.rows[|t.rows|];
        && var item := p.items.value[0];
        && row == NewRow(t.nextId, ReadOrder(p).value)
        && row.status == New && row.fiscalId == "" && row.refund == None
        && row.name == item.name.value && row.price == item.price.value
        && row.quantity == item.quantity.value && row.isFood == item.isFood.value
        && row.time == p.time.value && row.venue == p.venue.value && row.total == p.total.value
        && (forall i :: 0 <= i < |t.rows| ==> t.rows[i].id < row.id)
      else t' == t
  {
  }

  /**
   Polling a venue hands out each new row of that venue once: afterwards none of
   its rows is new, so the next poll answers nothing and changes nothing.
   */
  lemma {:induction false} AtMostOnceDelivery(t: Table, venue: string)
    ensures var t' := Next(t, GetOrders(venue));
      && Where(t'.rows, venue, New) == []
      && OrdersReply(t', venue) == []
      && Next(t', GetOrders(venue)) == t'
  {
    var t' := Next(t, GetOrders(venue));
    NoneSelected(t'.rows, venue, New);
    var again := MarkSent(t'.rows, venue);
    assert forall i :: 0 <= i < |again| ==> again[i] == t'.rows[i];
    assert again == t'.rows;
  }

  /** A poll that delivers a row marks exactly that row `sent`; rows of other venues are untouched. */
  lemma PollMarksDelivered(t: Table, venue: string, i: int)
    requires 0 <= i < |t.rows|
    ensures var row := Next(t, GetOrders(venue)).rows[i];
      && (t.rows[i] in Where(t.rows, venue, New) <==> t.rows[i].venue == venue && t.rows[i].status == New)
      && (t.rows[i].venue == venue && t.rows[i].status == New ==> row == t.rows[i].(status := Sent))
      && (t.rows[i].venue != venue ==> row == t.rows[i])
  {
  }

  /** Acknowledging twice with the same fiscal id is the same as acknowledging once. */
  lemma FiscalizeIdempotent(rows: seq<Row>, id: int, fiscalId: string)
    ensures Fiscalize(Fiscalize(rows, id, fiscalId), id, fiscalId) == Fiscalize(rows, id, fiscalId)
  {
  }

  /** An id that no row has: the update is a no-op and the handler still answers success. */
  lemma FiscalizeUnknownId(rows: seq<Row>, id: int, fiscalId: string)
    requires forall i :: 0 <= i < |rows| ==> rows[i].id != id
    ensures Fiscalize(rows, id, fiscalId) == rows
  {
  }

  /**
   A refund request on the table `create_orders_table` makes fails inside the
   database and leaves every row as it was, whatever the payload.
   */
  lemma RefundWithoutColumnsChangesNothing(t: Table, p: RefundPayload)
    requires !t.hasRefundColumns
    ensures Next(t, RefundRoute(p)) == t
  {
  }

  /**
   Where the refund columns exist, a refund request moves the order with that id
   to `pending refund print` whatever its status; it is no longer new for its venue,
   yet the pending-refund poll, which asks for `refund sent`, still does not list it.
   */
  lemma RefundedOrderNeverListed(t: Table, p: RefundPayload, i: int)
    requires Valid(t) && t.hasRefundColumns
    requires 0 <= i < |t.rows| && p.amount.Some? && p.reason.Some? && p.date.Some? && p.id == Some(t.rows[i].id)
    ensures var t' := Next(t, RefundRoute(p));
      && t'.rows[i].status == PendingRefundPrint
      && t'.rows[i] !in Where(t'.rows, t.rows[i].venue, New)
      && PendingRefundsReply(t', t.rows[i].venue) == Ok([])
  {
    NextKeepsValid(t, RefundRoute(p));
    PendingRefundsEmpty(Next(t, RefundRoute(p)), t.rows[i].venue);
  }

  // ---------------------------------------------------------------------------
  // The invariant and the lifecycle
  // ---------------------------------------------------------------------------

  /** Every handler keeps ids increasing and below `nextId`, and writes only reachable statuses. */
  lemma NextKeepsValid(t: Table, req: Request)
    requires Valid(t)
    ensures Valid(Next(t, req))
  {
    match req
    case ProcessJson(p) =>
      if ReadOrder(p).Ok? {
        InsertKeepsValid(t, ReadOrder(p).value);
      }
    case GetOrders(venue) =>
      MarkSentKeepsValid(t, venue);
    case UpdateOrder(id, fiscalId) =>
      if fiscalId.Some? {
        FiscalizeKeepsValid(t, id, fiscalId.value);
      }
    case RefundRoute(p) =>
      if ReadRefund(p).Ok? && t.hasRefundColumns {
        MarkRefundPendingKeepsValid(t, ReadRefund(p).value.id, ReadRefund(p).value.refund);
      }
    case GetPendingRefundOrders(_) =>
  }

  lemma InsertKeepsValid(t: Table, o: NewOrder)
    requires Valid(t)
    ensures Valid(Insert(t, o))
  {
    var t' := Insert(t, o);
    assert forall i :: 0 <= i < |t.rows| ==> t'.rows[i] == t.rows[i];
  }

  /** Only statuses change, from `new` to `sent`. */
  lemma MarkSentKeepsValid(t: Table, venue: string)
    requires Valid(t)
    ensures Valid(t.(rows := MarkSent(t.rows, venue)))
  {
    var r := MarkSent(t.rows, venue);
    assert forall i :: 0 <= i < |r| ==> r[i].id == t.rows[i].id && r[i].refund == t.rows[i].refund;
  }

  lemma FiscalizeKeepsValid(t: Table, id: int, fiscalId: string)
    requires Valid(t)
    ensures Valid(t.(rows := Fiscalize(t.rows, id, fiscalId)))
  {
    var r := Fiscalize(t.rows, id, fiscalId);
    assert forall i :: 0 <= i < |r| ==> r[i].id == t.rows[i].id && r[i].refund == t.rows[i].refund;
  }

  lemma MarkRefundPendingKeepsValid(t: Table, id: int, refund: Refund)
    requires Valid(t) && t.hasRefundColumns
    ensures Valid(t.(rows := MarkRefundPending(t.rows, id, refund)))
  {
    var r := MarkRefundPending(t.rows, id, refund);
    assert forall i :: 0 <= i < |r| ==> r[i].id == t.rows[i].id;
  }

  /**
   No handler removes a row, reorders rows or changes an id or the order data
   stored for it; only status, fiscal id and refund columns change.
   */
  lemma NextKeepsRows(t: Table, req: Request)
    ensures var t' := Next(t, req);
      && t'.hasRefundColumns == t.hasRefundColumns
      && |t.rows| <= |t'.rows|
      && forall i :: 0 <= i < |t.rows| ==>
           t'.rows[i].id == t.rows[i].id && Summary(t'.rows[i]) == Summary(t.rows[i])
  {
  }

  lemma {:induction false} RunKeepsValid(t: Table, reqs: seq<Request>)
    requires Valid(t)
    ensures Valid(Run(t, reqs))
    decreases |reqs|
  {
    if reqs != [] {
      NextKeepsValid(t, reqs[0]);
      RunKeepsValid(Next(t, reqs[0]), reqs[1..]);
    }
  }

  lemma {:induction false} RunKeepsRows(t: Table, reqs: seq<Request>)
    ensures var t' := Run(t, reqs);
      && t'.hasRefundColumns == t.hasRefundColumns
      && |t.rows| <= |t'.rows|
      && forall i :: 0 <= i < |t.rows| ==>
           t'.rows[i].id == t.rows[i].id && Summary(t'.rows[i]) == Summary(t.rows[i])
    decreases |reqs|
  {
    if reqs != [] {
      NextKeepsRows(t, reqs[0]);
      RunKeepsRows(Next(t, reqs[0]), reqs[1..]);
    }
  }

  /** In a valid table no row is `refund sent`, so the pending-refund poll answers an empty list. */
  lemma PendingRefundsEmpty(t: Table, venue: string)
    requires Valid(t)
    ensures Where(t.rows, venue, RefundSent) == []
    ensures PendingRefundsReply(t, venue) == Ok([])
  {
    NoneSelected(t.rows, venue, RefundSent);
    var w := Where(t.rows, venue, RefundSent);
    assert RefundViews(w) == [];
  }

  /**
   From a freshly created table, whatever requests arrive: ids stay unique, every
   status is `new`, `sent`, `done` or (only with refund columns) `pending refund print`,
   and the pending-refund poll always answers an empty list.
   */
  lemma ReachableStatuses(hasRefundColumns: bool, reqs: seq<Request>, venue: string)
    ensures var t := Run(Empty(hasRefundColumns), reqs);
      && IdsIncreasing(t.rows)
      && (forall i :: 0 <= i < |t.rows| ==> t.rows[i].status != RefundSent)
      && (!hasRefundColumns ==> forall i :: 0 <= i < |t.rows| ==> t.rows[i].status in {New, Sent, Done})
      && PendingRefundsReply(t, venue) == Ok([])
  {
    EmptyIsValid(hasRefundColumns);
    RunKeepsValid(Empty(hasRefundColumns), reqs);
    RunKeepsRows(Empty(hasRefundColumns), reqs);
    var t := Run(Empty(hasRefundColumns), reqs);
    assert Valid(t) && t.hasRefundColumns == hasRefundColumns;
    PendingRefundsEmpty(t, venue);
    forall i | 0 <= i < |t.rows|
      ensures t.rows[i].status != RefundSent
      ensures !hasRefundColumns ==> t.rows[i].status in {New, Sent, Done}
    {
      assert Reachable(t.rows[i].status, t.hasRefundColumns);
    }
  }

  /** The order of the lifecycle below, amounts in cents. */
  function CokeOrder(): (p: OrderPayload)
    ensures OrderComplete(p)
  {
    OrderPayload(Some([ItemPayload(Some("Coke"), Some(250), Some(1), Some("False"))]),
                 Some("12:00"), Some("bar1"), Some(950), Some(1))
  }

  function CokeRefund(): (p: RefundPayload)
    ensures ReadRefund(p).Ok?
  {
    RefundPayload(Some(1), Some(950), Some("spilled"), Some("12:30"))
  }

  /** Submitted for `bar1` on a fresh table, the order is delivered by the first poll and not by the second. */
  lemma OneOrderDelivered(hasRefundColumns: bool)
    ensures
      var t1 := Next(Empty(hasRefundColumns), ProcessJson(CokeOrder()));
      var t2 := Next(t1, GetOrders("bar1"));
      && Valid(t1) && Valid(t2)
      && OrdersReply(t1, "bar1") == [OrderSummary("Coke", 250, 1, "False", "12:00", "bar1", 950)]
      && OrdersReply(t2, "bar1") == []
      && t2.rows == [NewRow(1, NewOrder("Coke", 250, 1, "False", "12:00", "bar1", 950)).(status := Sent)]
  {
    var t0 := Empty(hasRefundColumns);
    var t1 := Next(t0, ProcessJson(CokeOrder()));
    assert t1.rows == [NewRow(1, NewOrder("Coke", 250, 1, "False", "12:00", "bar1", 950))];
    assert Where(t1.rows, "bar1", New) == t1.rows;
    EmptyIsValid(hasRefundColumns);
    NextKeepsValid(t0, ProcessJson(CokeOrder()));
    NextKeepsValid(t1, GetOrders("bar1"));
    AtMostOnceDelivery(t1, "bar1");
  }

  /**
   The lifecycle of one order: delivered once, acknowledged with a fiscal id,
   then refunded; the pending-refund poll never lists it.
   */
  lemma OneOrderLifecycle(hasRefundColumns: bool)
    ensures
      var t1 := Next(Empty(hasRefundColumns), ProcessJson(CokeOrder()));
      var t2 := Next(t1, GetOrders("bar1"));
      var t3 := Next(t2, UpdateOrder(1, Some("F-17")));
      var t4 := Next(t3, RefundRoute(CokeRefund()));
      && OrdersReply(t1, "bar1") == [OrderSummary("Coke", 250, 1, "False", "12:00", "bar1", 950)]
      && OrdersReply(t2, "bar1") == []
      && t2.rows[0].status == Sent
      && t3.rows[0].status == Done && t3.rows[0].fiscalId == "F-17"
      && (hasRefundColumns ==> t4.rows[0].status == PendingRefundPrint)
      && (!hasRefundColumns ==> t4 == t3)
      && PendingRefundsReply(t4, "bar1") == Ok([])
  {
    OneOrderDelivered(hasRefundColumns);
    var t1 := Next(Empty(hasRefundColumns), ProcessJson(CokeOrder()));
    var t2 := Next(t1, GetOrders("bar1"));
    var t3 := Next(t2, UpdateOrder(1, Some("F-17")));
    assert t3.rows == [t2.rows[0].(fiscalId := "F-17", status := Done)];
    FiscalizeKeepsValid(t2, 1, "F-17");
    var t4 := Next(t3, RefundRoute(CokeRefund()));
    NextKeepsValid(t3, RefundRoute(CokeRefund()));
    PendingRefundsEmpty(t4, "bar1");
  }
}
