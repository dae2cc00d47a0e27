/**
 The request bodies the handlers read, and the order in which they read their keys.

 A JSON object is modelled by the keys the handlers look up, each an `Option`:
 `None` is a key that is absent, and reading it raises `KeyError`. The handlers
 read every key before they touch the table, so a missing key means the table
 is left as it was.
 */
module Requests {
  import opened Orders

  /** One element of the `name` list of a submitted order. */
  datatype ItemPayload = ItemPayload(
    name: Option<string>,
    price: Option<Real>,
    quantity: Option<int>,
    isFood: Option<string>)

  /** The JSON body of `POST /process-json`. */
  datatype OrderPayload = OrderPayload(
    items: Option<seq<ItemPayload>>,
    time: Option<string>,
    venue: Option<string>,
    total: Option<Real>,
    id: Option<int>)

  /** The JSON body of `POST /refundroute`. */
  datatype RefundPayload = RefundPayload(
    id: Option<int>,
    amount: Option<Real>,
    reason: Option<string>,
    date: Option<string>)

  /** The column values `process_json` inserts (the id and the status are not among them). */
  datatype NewOrder = NewOrder(
    name: string,
    price: Real,
    quantity: int,
    isFood: string,
    time: string,
    venue: string,
    total: Real)

  datatype RefundRequest = RefundRequest(id: int, refund: Refund)

  predicate ItemComplete(item: ItemPayload)
  {
    item.name.Some? && item.price.Some? && item.quantity.Some? && item.isFood.Some?
  }

  /** `order_data['name'][0]`, when the list is there and not empty. */
  function First(p: OrderPayload): Option<ItemPayload>
  {
    if p.items.Some? && |p.items.value| > 0 then Some(p.items.value[0]) else None
  }

  predicate OrderComplete(p: OrderPayload)
  {
    && p.items.Some? && |p.items.value| > 0 && ItemComplete(p.items.value[0])
    && p.time.Some? && p.venue.Some? && p.total.Some? && p.id.Some?
  }

  /**
   The key reads of `process_json`, in the order they happen: the first element
   of `name` and its four keys, then `Time`, `venue`, `total` and `id`. The `id`
   key must be present but its value is dropped.
   */
  function ReadOrder(p: OrderPayload): (r: Result<NewOrder>)
    ensures r.Ok? <==> OrderComplete(p)
    ensures r.Ok? ==>
      var item := p.items.value[0];
      && r.value.name == item.name.value && r.value.price == item.price.value
      && r.value.quantity == item.quantity.value && r.value.isFood == item.isFood.value
      && r.value.time == p.time.value && r.value.venue == p.venue.value
      && r.value.total == p.total.value
    ensures r == Raised(EmptyItemList) <==> p.items == Some([])
    ensures r == Raised(MissingKey("name")) <==> p.items.None? || (First(p).Some? && First(p).value.name.None?)
    ensures r == Raised(MissingKey("price")) ==> First(p).Some? && First(p).value.price.None?
    ensures r == Raised(MissingKey("quantity")) ==> First(p).Some? && First(p).value.quantity.None?
    ensures r == Raised(MissingKey("isfood")) ==> First(p).Some? && First(p).value.isFood.None?
    ensures r == Raised(MissingKey("Time")) ==> p.time.None?
    ensures r == Raised(MissingKey("venue")) ==> p.venue.None?
    ensures r == Raised(MissingKey("total")) ==> p.total.None?
    ensures r == Raised(MissingKey("id")) ==> p.id.None?
    ensures r.Raised? ==>
      || r.failure == EmptyItemList
      || (r.failure.MissingKey? && r.failure.key in {"name", "price", "quantity", "isfood", "Time", "venue", "total", "id"})
  {
    if p.items.None? then Raised(MissingKey("name"))
    else if |p.items.value| == 0 then Raised(EmptyItemList)
    else
      var item := p.items.value[0];
      if item.name.None? then Raised(MissingKey("name"))
      else if item.price.None? then Raised(MissingKey("price"))
      else if item.quantity.None? then Raised(MissingKey("quantity"))
      else if item.isFood.None? then Raised(MissingKey("isfood"))
      else if p.time.None? then Raised(MissingKey("Time"))
      else if p.venue.None? then Raised(MissingKey("venue"))
      else if p.total.None? then Raised(MissingKey("total"))
      else if p.id.None? then Raised(MissingKey("id"))
      else Ok(NewOrder(item.name.value, item.price.value, item.quantity.value, item.isFood.value,
                       p.time.value, p.venue.value, p.total.value))
  }

  /** The value of the payload's `id` never reaches the table. */
  lemma PayloadIdIgnored(p: OrderPayload, k: int, k': int)
    ensures ReadOrder(p.(id := Some(k))) == ReadOrder(p.(id := Some(k')))
  {
  }

  /** Items after the first one are dropped. */
  lemma OnlyFirstItemRead(p: OrderPayload, first: ItemPayload, rest: seq<ItemPayload>)
    ensures ReadOrder(p.(items := Some([first] + rest))) == ReadOrder(p.(items := Some([first])))
  {
    assert ([first] + rest)[0] == first;
  }

  /** The key reads of `refund_route`: `id`, `ammount`, `reason`, `date`. */
  function ReadRefund(p: RefundPayload): (r: Result<RefundRequest>)
    ensures r.Ok? <==> p.id.Some? && p.amount.Some? && p.reason.Some? && p.date.Some?
    ensures r.Ok? ==>
      r.value.id == p.id.value && r.value.refund == Refund(p.amount.value, p.reason.value, p.date.value)
    ensures r.Raised? ==> r.failure.MissingKey? && r.failure.key in {"id", "ammount", "reason", "date"}
  {
    if p.id.None? then Raised(MissingKey("id"))
    else if p.amount.None? then Raised(MissingKey("ammount"))
    else if p.reason.None? then Raised(MissingKey("reason"))
    else if p.date.None? then Raised(MissingKey("date"))
    else Ok(RefundRequest(p.id.value, Refund(p.amount.value, p.reason.value, p.date.value)))
  }
}
