/**
 The rows of the `orders` table and the values the handlers reply with.

 The table's `printing_status` column is TEXT, but only the five strings below are
 ever compared against or written, so it is modelled as an enumeration; `Text`
 gives the string each value stands for.
 */
module Orders {

  /** Stand-in for SQLite `REAL` (price, total): these values are only stored and copied. */
  type Real = int

  datatype Option<+T> = None | Some(value: T)

  datatype Status = New | Sent | Done | PendingRefundPrint | RefundSent
  {
    /** The string stored in the `printing_status` column. */
    function Text(): string
    {
      match this
      case New => "new"
      case Sent => "sent"
      case Done => "done"
      case PendingRefundPrint => "pending refund print"
      case RefundSent => "refund sent"
    }
  }

  /** Refund metadata; only a database that has the refund columns can hold it. */
  datatype Refund = Refund(amount: Real, reason: string, date: string)

  /** One row of `orders`. `refund` is `None` while the refund columns are NULL (or absent). */
  datatype Row = Row(
    id: nat,
    name: string,
    price: Real,
    quantity: int,
    isFood: string,
    time: string,
    venue: string,
    total: Real,
    status: Status,
    fiscalId: string,
    refund: Option<Refund>)

  /** The dictionary `get_orders` builds per row: every column except id, status and fiscal id. */
  datatype OrderSummary = OrderSummary(
    name: string,
    price: Real,
    quantity: int,
    isFood: string,
    time: string,
    venue: string,
    total: Real)

  /** The dictionary `get_pending_refund_orders` builds per row. */
  datatype RefundView = RefundView(order: OrderSummary, refund: Option<Refund>, fiscalId: string)

  /** Exceptions a handler does not catch: the request fails and nothing is stored. */
  datatype Failure =
    | MissingKey(key: string)        // KeyError on a JSON or form key
    | EmptyItemList                  // IndexError on `order_data['name'][0]`
    | ColumnOutOfRange(index: nat)   // IndexError on a fetched row tuple

  datatype Result<+T> = Ok(value: T) | Raised(failure: Failure)

  function Summary(row: Row): OrderSummary
  {
    OrderSummary(row.name, row.price, row.quantity, row.isFood, row.time, row.venue, row.total)
  }

  function Summaries(rows: seq<Row>): seq<OrderSummary>
  {
    seq(|rows|, i requires 0 <= i < |rows| => Summary(rows[i]))
  }

  function RefundViewOf(row: Row): RefundView
  {
    RefundView(Summary(row), row.refund, row.fiscalId)
  }

  function RefundViews(rows: seq<Row>): seq<RefundView>
  {
    seq(|rows|, i requires 0 <= i < |rows| => RefundViewOf(rows[i]))
  }
}
