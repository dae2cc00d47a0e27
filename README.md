# Order ledger of the point-of-sale relay

The service takes orders over HTTP and keeps them in one SQLite table, `orders`.
Venue printers poll it for new orders, fiscal devices acknowledge them with a
fiscal id, and refunds are requested and polled. Each order's `printing_status`
drives which endpoint sees it next: `new`, then `sent` when a venue poll
delivers it, then `done` when it is acknowledged. A refund request sets
`pending refund print`. The pending-refund poll asks for `refund sent`.

The model treats each handler as one atomic step on the table:

- `orders.dfy` (module `Orders`) holds the row, the status values, the reply
  dictionaries and the uncaught exceptions.
- `requests.dfy` (module `Requests`) holds the request bodies. Each key a
  handler reads is an `Option`, and a missing one raises `KeyError`. It also
  fixes the order in which the handlers read their keys.
- `ledger.dfy` (module `Ledger`) makes every SQL statement a function on the
  row sequence: `Where`, `MarkSent`, `Fiscalize`, `MarkRefundPending` and
  `Insert`. It defines `Next`, the table after one request, `Run` for a sequence
  of requests, and the invariant `Valid`. It also holds the lifecycle lemmas.
- `server.dfy` (module `Server`) holds the class `OrderStore`. It has the
  fields `rows` and `nextId`, and `nextId` plays the role of `AUTOINCREMENT`.
  Each of its five handler methods is proved to move the store exactly as
  `Next` does and to return the handler's reply. The two polls build their
  replies in loops, as the source does.

`hasRefundColumns` says whether the database has the `refund_amount`,
`refund_reason` and `refund_date` columns. The table that `create_orders_table`
creates does not have them. On that table the refund `UPDATE` raises
`sqlite3.Error`. The handler catches the error and answers
"Error processing refund request", and the table is unchanged. No handler ever
writes `refund sent`, so the pending-refund poll always answers `[]`. On the
created schema, `pending refund print` is unreachable as well.

## Model

| member | source | states |
|---|---|---|
| `Requests.ReadOrder` | server.py:43-50 | the request succeeds iff the first item's four keys and `Time`, `venue`, `total`, `id` are all present; the values come from the first list element; an empty list raises IndexError; each KeyError names a key that really is absent |
| `Requests.PayloadIdIgnored` | server.py:50-56 | the value of the payload's `id` makes no difference to what is inserted |
| `Requests.OnlyFirstItemRead` | server.py:43-46 | items after the first are dropped |
| `Requests.ReadRefund` | server.py:120-123 | the request succeeds iff `id`, `ammount`, `reason`, `date` are present, otherwise it raises KeyError on one of them |
| `Ledger.EmptyIsValid` | server.py:17-28 | a freshly created table satisfies the invariant |
| `Ledger.Where` | server.py:70-71 | the SELECT returns exactly the rows with that venue and status, no more rows than the table has, in table order (ids increasing) |
| `Ledger.NoneSelected` | server.py:70-71 | a SELECT that no row matches fetches nothing |
| `Ledger.WhereEmptyIff` | server.py:70-71 | a SELECT fetches nothing exactly when no row has that venue and status |
| `Ledger.MarkSent` | server.py:74 | every `new` row of the venue becomes `sent`; every other row is unchanged; no column but the status changes |
| `Ledger.Fiscalize` | server.py:103 | the row with that id gets the fiscal id and status `done` whatever its status was; every other row is unchanged |
| `Ledger.MarkRefundPending` | server.py:127 | the row with that id becomes `pending refund print` and stores the refund fields; every other row is unchanged |
| `Ledger.Insert` | server.py:53-56 | the INSERT appends one row at the end, keeps every earlier row, gives the new row the id `nextId` and advances `nextId` by one |
| `Ledger.Next` | server.py:36-165 | the table after one request: the schema never changes; only an accepted order adds a row and advances `nextId`; a rejected order, a form without `fiscal_id`, a refund with a missing key or without refund columns, and the pending-refund poll leave the table as it was |
| `Ledger.OrdersReply` | server.py:70-93 | the venue poll answers one summary per row of that venue that is `new`, every summary is of that venue, every such row is in it, and it is empty exactly when there is no such row |
| `Ledger.PendingRefundsReply` | server.py:142-165 | the pending-refund poll fails with the out-of-range tuple index 10 exactly when the table has no refund columns and some row of the venue is `refund sent`; otherwise it answers one entry per such row, all of that venue |
| `Ledger.SubmitAppendsOneRow` | server.py:43-56 | an accepted order appends exactly one row with status `new`, an empty fiscal id, name, price, quantity and isfood from the first item, Time, venue and total from the order, and an id above every earlier id; `nextId` advances by one; a rejected order changes nothing |
| `Ledger.AtMostOnceDelivery` | server.py:70-74 | after a venue poll no row of that venue is `new`, so a second poll answers `[]` and changes nothing |
| `Ledger.PollMarksDelivered` | server.py:70-89 | a row is delivered iff it has the venue and status `new`; a delivered row ends up `sent`; rows of other venues are untouched |
| `Ledger.FiscalizeIdempotent` | server.py:103 | acknowledging twice with the same fiscal id equals acknowledging once |
| `Ledger.FiscalizeUnknownId` | server.py:103 | an id that no row has leaves the table unchanged |
| `Ledger.RefundWithoutColumnsChangesNothing` | server.py:125-134 | on the created schema a refund request leaves the table unchanged, whatever the payload |
| `Ledger.RefundedOrderNeverListed` | server.py:127-142 | with refund columns, a refunded order becomes `pending refund print` and leaves its venue's new list, yet the pending-refund poll still answers `[]` |
| `Ledger.NextKeepsValid` | server.py:36-165 | every handler keeps ids increasing and below `nextId`, keeps statuses among the reachable ones and keeps refund columns NULL when they do not exist |
| `Ledger.InsertKeepsValid` | server.py:53-56 | the insert keeps the invariant: the new id is `nextId`, above all others |
| `Ledger.MarkSentKeepsValid` | server.py:74 | the venue poll update keeps the invariant |
| `Ledger.FiscalizeKeepsValid` | server.py:103 | the fiscal update keeps the invariant |
| `Ledger.MarkRefundPendingKeepsValid` | server.py:127 | the refund update keeps the invariant where the refund columns exist |
| `Ledger.NextKeepsRows` | server.py:36-165 | no handler removes or reorders rows, or changes an id or the stored order data, and none changes the schema |
| `Ledger.RunKeepsValid` | server.py:36-165 | the invariant holds after any sequence of requests |
| `Ledger.RunKeepsRows` | server.py:36-165 | after any sequence of requests every earlier row is still there with its id and order data |
| `Ledger.PendingRefundsEmpty` | server.py:142-165 | in a valid table no row is `refund sent`, so the pending-refund poll answers `[]` |
| `Ledger.ReachableStatuses` | server.py:56-142 | from a fresh table, after any requests: ids unique, no `refund sent`, only `new`/`sent`/`done` on the created schema, and the pending-refund poll answers `[]` |
| `Ledger.OneOrderDelivered` | server.py:37-93 | an order submitted for `bar1` on a fresh table is answered by the first poll of `bar1` with its summary, and by the second with `[]`; it is then `sent` |
| `Ledger.OneOrderLifecycle` | server.py:37-134 | one order goes through submit, first poll (delivered), second poll (`[]`), acknowledgement (`done` and the fiscal id) and refund; it is never listed as a pending refund |
| `Server.OrderStore.constructor` | server.py:13-33 | a new database has an empty table and the invariant holds |
| `Server.OrderStore.ProcessJson` | server.py:37-62 | the store moves as `Next` says; on success exactly one row is appended with id `nextId`, above every earlier id, and the acknowledgement text is returned; on a missing key or an empty item list the store is unchanged |
| `Server.OrderStore.GetOrders` | server.py:66-93 | answers the summaries of exactly the venue's rows that were `new` before the call, in table order, all of that venue; those rows become `sent`; the invariant is kept |
| `Server.OrderStore.UpdateOrder` | server.py:97-108 | sets fiscal id and `done` on the row with that id and answers success even for an unknown id; without `fiscal_id` it raises and changes nothing |
| `Server.OrderStore.RefundRoute` | server.py:115-134 | without refund columns it answers the error text and changes nothing; with them the row with that id becomes `pending refund print`; a missing key raises and changes nothing |
| `Server.OrderStore.GetPendingRefundOrders` | server.py:138-165 | changes nothing and answers exactly the pending-refund reply for the venue, which is `[]` whenever the store is valid |

## Left out

- Flask routing, `app.run`, `jsonify` and the HTTP status codes are not modelled. An uncaught exception is modelled as a `Raised` reply.
- A request body that is not JSON, or JSON values of unexpected types, are not modelled. Payload fields are typed, and only the presence of each key is modelled.
- The SQLite connection lifecycle is not modelled: `get_db`, `commit`, `close`, and the connection left open on the refund error path. Each handler is one atomic step.
- Concurrent pollers are not modelled. The `SELECT` and `UPDATE` of `get_orders` are two statements and could interleave with another request. The model is sequential.
- `price` and `total` are SQLite `REAL` values. They are only stored and copied, so an integer stand-in (`Orders.Real`) replaces them. Floating point is not modelled.
- `update_order` receives `order_id` as a URL string, and SQLite's integer affinity converts it when comparing it with `id`. The model takes the converted integer. A string that is not a number matches no row, which is the same as an unknown id.
- `AUTOINCREMENT` reaching the 64-bit limit is not modelled, because ids are unbounded.
- Requests.ReadOrder: Python's sqlite3 binds an integer only within signed 64 bits. The model does not capture the `OverflowError` that the INSERT raises for a larger `quantity`, `price` or `total`. That error is uncaught, and no row is stored. The model stores the unbounded value instead.
- Ledger.Insert: the same 64-bit limit on bound parameters is not modelled. Integers are unbounded in the model.
- Server.OrderStore.ProcessJson: answers success where the source would raise `OverflowError` for an integer field beyond 64 bits, for the reason above.
- Server.OrderStore.RefundRoute: where the refund columns exist, an `id` or `ammount` beyond 64 bits makes the UPDATE raise `OverflowError`. That error is not a `sqlite3.Error`, so it is not caught, and the table is unchanged. The model answers the success text and applies the update instead.
- Server.OrderStore.RefundRoute: the `print(e)` on the caught storage error writes to the log. The model does not model it, because it is output only and changes neither the table nor the reply.
- `create_orders_table` on an existing database file keeps the rows it finds there. The constructor models only a new file.
- Server.OrderStore.GetPendingRefundOrders: on a table with refund columns it builds each reply entry from the row's fields by name. The source builds it from tuple positions 8 to 11, and where those positions land depends on a column layout that is not part of this model. On the created schema, position 10 does not exist. That case is modelled as `ColumnOutOfRange(10)`. No reachable state has a matching row, so the loop body never runs.
