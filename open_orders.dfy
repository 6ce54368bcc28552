/** Classification of the per-order entries of an `openOrders` frame, and the order
    built from an entry carrying the initial details (channels/open_orders.py). */
module OpenOrders {
  import opened Json
  import opened Streams
  import opened Order

  /** `is_partial_fill_update`: a fill report carries no status. */
  predicate IsPartialFillUpdate(m: map<string, Json>)
  {
    "status" !in m
  }

  /** `is_initial_details`: the first entry the exchange sends for a new order. */
  predicate IsInitialDetails(m: map<string, Json>)
  {
    HasString(m, "status", "pending")
  }

  predicate IsCloseMessage(m: map<string, Json>)
  {
    HasString(m, "status", "closed")
  }

  predicate IsCancelMessage(m: map<string, Json>)
  {
    HasString(m, "status", "canceled")
  }

  /** `is_final_message`: closed or canceled (a different notion of "final" from
      `IsFinalState`, which is about the order's own status). */
  predicate IsFinalMessage(m: map<string, Json>)
  {
    IsCloseMessage(m) || IsCancelMessage(m)
  }

  predicate IsOpenMessage(m: map<string, Json>)
  {
    HasString(m, "status", "open")
  }

  /** What each predicate accepts, and that they never overlap: a partial fill is none
      of the others, and an entry has at most one of the statuses. */
  lemma ClassificationSpec(m: map<string, Json>)
    ensures IsPartialFillUpdate(m) <==> "status" !in m
    ensures IsInitialDetails(m) <==> "status" in m && m["status"] == JStr("pending")
    ensures IsFinalMessage(m) <==> "status" in m && (m["status"] == JStr("closed") || m["status"] == JStr("canceled"))
    ensures IsOpenMessage(m) <==> "status" in m && m["status"] == JStr("open")
    ensures IsPartialFillUpdate(m) ==> !IsInitialDetails(m) && !IsOpenMessage(m) && !IsFinalMessage(m)
    ensures IsInitialDetails(m) ==> !IsOpenMessage(m) && !IsFinalMessage(m)
    ensures IsOpenMessage(m) ==> !IsFinalMessage(m)
    // the two notions of "final" disagree: an open entry is not a final message, yet
    // the open status is a final state
    ensures IsOpenMessage(m) ==> IsFinalState(Known(Open))
  {
  }

  /** `initial_details_to_order(message, order_id)`: the order as the initial details
      describe it. A missing `descr`, `descr.order`, `descr.price`, `vol` or `vol_exec`
      raises, and no order is built. */
  function InitialDetailsToOrder(message: map<string, Json>, orderId: Json): (r: Result<Order, Error>)
  {
    if "descr" !in message then Failure(Malformed)
    else
      var descr := message["descr"];
      match (Field(descr, "order"), Field(descr, "price"))
      case (Some(description), Some(price)) =>
        if "vol" in message && "vol_exec" in message then
          Success(NewOrder(orderId, Known(Pending), description)
                    .(price := price, volume := message["vol"], volumeExecuted := message["vol_exec"]))
        else Failure(Malformed)
      case _ => Failure(Malformed)
  }

  /** The fields of the built order come from the entry; the rest keep their defaults. */
  lemma InitialDetailsToOrderSpec(message: map<string, Json>, orderId: Json)
    ensures InitialDetailsToOrder(message, orderId).Success? <==>
              && "descr" in message
              && Field(message["descr"], "order").Some?
              && Field(message["descr"], "price").Some?
              && "vol" in message && "vol_exec" in message
    ensures InitialDetailsToOrder(message, orderId).Failure? ==>
              InitialDetailsToOrder(message, orderId).error == Malformed
    ensures InitialDetailsToOrder(message, orderId).Success? ==>
              var o := InitialDetailsToOrder(message, orderId).value;
              && o.orderId == orderId
              && o.status == Known(Pending) && !IsFinalState(o.status)
              && o.description == message["descr"].fields["order"]
              && o.price == message["descr"].fields["price"]
              && o.volume == message["vol"]
              && o.volumeExecuted == message["vol_exec"]
              && o.reference == JInt(0) && o.openTime == JStr("") && o.price2 == DefaultZero
  {
  }
}
