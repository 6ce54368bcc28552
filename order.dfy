/** The order record and its enumerations (events/models/order.py). */
module Order {
  import opened Json
  import opened Streams

  /** `OrderType`, as sent. */
  datatype OrderType = Market | Limit | StopLoss | TakeProfit | StopLossLimit | TakeProfitLimit | SettlePosition

  function OrderTypeValue(t: OrderType): (r: string)
  {
    match t
    case Market => "market"
    case Limit => "limit"
    case StopLoss => "stop-loss"
    case TakeProfit => "take-profit"
    case StopLossLimit => "stop-loss-limit"
    case TakeProfitLimit => "take-profit-limit"
    case SettlePosition => "settle-position"
  }

  datatype OrderSide = Buy | Sell

  function OrderSideValue(s: OrderSide): (r: string)
  {
    match s
    case Buy => "buy"
    case Sell => "sell"
  }

  /** `OrderStatus`: five values, and no `closed`. */
  datatype OrderStatus = Canceled | Submitted | Pending | Open | Blank

  function OrderStatusValue(s: OrderStatus): (r: string)
  {
    match s
    case Canceled => "canceled"
    case Submitted => "submitted"
    case Pending => "pending"
    case Open => "open"
    case Blank => "blank"
  }

  /** The enumerations' values are distinct, so each value names one member; no status
      is called `closed`. */
  lemma EnumValuesSpec()
    ensures forall a: OrderType, b: OrderType :: OrderTypeValue(a) == OrderTypeValue(b) ==> a == b
    ensures forall a: OrderSide, b: OrderSide :: OrderSideValue(a) == OrderSideValue(b) ==> a == b
    ensures forall a: OrderStatus, b: OrderStatus :: OrderStatusValue(a) == OrderStatusValue(b) ==> a == b
    ensures forall a: OrderStatus :: OrderStatusValue(a) != "closed"
  {
    forall a: OrderType, b: OrderType | OrderTypeValue(a) == OrderTypeValue(b)
      ensures a == b
    {
      assert OrderTypeValue(a)[..4] == OrderTypeValue(b)[..4];
      if |OrderTypeValue(a)| != |OrderTypeValue(b)| {
        assert false;
      }
    }
  }

  /** `OrderStatus(value)`: the member with that value; any other value raises a
      ValueError. */
  function ParseStatus(value: Json): (r: Option<OrderStatus>)
  {
    if value == JStr("canceled") then Some(Canceled)
    else if value == JStr("submitted") then Some(Submitted)
    else if value == JStr("pending") then Some(Pending)
    else if value == JStr("open") then Some(Open)
    else if value == JStr("blank") then Some(Blank)
    else None
  }

  /** Looking a status up by value inverts `OrderStatusValue`: exactly the five wire
      values are accepted, each for its own member. */
  lemma ParseStatusSpec(value: Json)
    ensures forall s: OrderStatus :: ParseStatus(value) == Some(s) <==> value == JStr(OrderStatusValue(s))
    ensures ParseStatus(value).None? <==> forall s: OrderStatus :: value != JStr(OrderStatusValue(s))
  {
  }

  /** The status field of an order: an enumeration member (set by the constructors of
      the model) or whatever value a frame carried (stored by an update as it came). */
  datatype Status = Known(status: OrderStatus) | Raw(value: Json)

  /** `is_final_state(status)`: membership in `[canceled, open]`. A raw value is never an
      enumeration member, so it is never final, even one spelling "open". */
  predicate IsFinalState(s: Status)
  {
    s == Known(Canceled) || s == Known(Open)
  }

  lemma IsFinalStateSpec(s: Status)
    ensures s.Known? ==> (IsFinalState(s) <==> s.status in {Canceled, Open})
    ensures s.Known? && s.status in {Submitted, Pending, Blank} ==> !IsFinalState(s)
    ensures s.Raw? ==> !IsFinalState(s)
  {
  }

  const DefaultZero: Json := JStr("0.00000000")

  /** The `Order` dataclass. Fields hold whatever value they were given. */
  datatype Order = Order(
    orderId: Json,
    status: Status,
    description: Json,
    reference: Json,
    openTime: Json,
    price: Json,
    price2: Json,
    volume: Json,
    volumeExecuted: Json)

  /** `Order(order_id=..., status=..., description=...)` with every other field defaulted. */
  function NewOrder(orderId: Json, status: Status, description: Json): (r: Order)
    ensures r.orderId == orderId && r.status == status && r.description == description
    ensures r.reference == JInt(0) && r.openTime == JStr("")
    ensures r.price == JStr("0.00000000") && r.price2 == JStr("0.00000000")
    ensures r.volume == JStr("0.00000000") && r.volumeExecuted == JStr("0.00000000")
  {
    Order(orderId, status, description, JInt(0), JStr(""), DefaultZero, DefaultZero, DefaultZero, DefaultZero)
  }

  /** The dataclass's field names, the only keywords `dataclasses.replace` accepts. */
  const FieldNames: set<string> :=
    {"order_id", "status", "description", "reference", "open_time", "price", "price2", "volume", "volume_executed"}

  /** The value of one field under its Python name. */
  function Get(o: Order, name: string): Json
    requires name in FieldNames && name != "status"
  {
    match name
    case "order_id" => o.orderId
    case "description" => o.description
    case "reference" => o.reference
    case "open_time" => o.openTime
    case "price" => o.price
    case "price2" => o.price2
    case "volume" => o.volume
    case "volume_executed" => o.volumeExecuted
  }

  /** `dataclasses.replace(existing, **updates)`: a new record with the named fields
      replaced; an unknown keyword raises a TypeError and nothing is built. A `status`
      update stores the given value as it is. */
  function Replace(existing: Order, updates: map<string, Json>): (r: Result<Order, Error>)
  {
    if !(updates.Keys <= FieldNames) then Failure(Malformed)   // TypeError: unexpected keyword argument
    else Success(Order(
      if "order_id" in updates then updates["order_id"] else existing.orderId,
      if "status" in updates then Raw(updates["status"]) else existing.status,
      if "description" in updates then updates["description"] else existing.description,
      if "reference" in updates then updates["reference"] else existing.reference,
      if "open_time" in updates then updates["open_time"] else existing.openTime,
      if "price" in updates then updates["price"] else existing.price,
      if "price2" in updates then updates["price2"] else existing.price2,
      if "volume" in updates then updates["volume"] else existing.volume,
      if "volume_executed" in updates then updates["volume_executed"] else existing.volumeExecuted))
  }

  /** `replace` fails exactly on an unknown keyword; otherwise every named field takes
      its new value and every other field carries over. */
  lemma ReplaceSpec(existing: Order, updates: map<string, Json>)
    ensures Replace(existing, updates).Success? <==> updates.Keys <= FieldNames
    ensures Replace(existing, updates).Success? ==>
              var r := Replace(existing, updates).value;
              && (forall name :: name in FieldNames && name != "status" ==>
                    Get(r, name) == if name in updates then updates[name] else Get(existing, name))
              && r.status == (if "status" in updates then Raw(updates["status"]) else existing.status)
  {
    if updates.Keys <= FieldNames {
      var r := Replace(existing, updates).value;
      forall name | name in FieldNames && name != "status"
        ensures Get(r, name) == if name in updates then updates[name] else Get(existing, name)
      {
        ReplaceField(existing, updates, name);
      }
    }
  }

  /** One field of a successful `replace`. */
  lemma ReplaceField(existing: Order, updates: map<string, Json>, name: string)
    requires updates.Keys <= FieldNames && name in FieldNames && name != "status"
    ensures Get(Replace(existing, updates).value, name) == if name in updates then updates[name] else Get(existing, name)
  {
    var r := Replace(existing, updates).value;
    if name == "order_id" {
      assert Get(r, name) == r.orderId;
    } else if name == "description" {
      assert Get(r, name) == r.description;
    } else if name == "reference" {
      assert Get(r, name) == r.reference;
    } else if name == "open_time" {
      assert Get(r, name) == r.openTime;
    } else if name == "price" {
      assert Get(r, name) == r.price;
    } else if name == "price2" {
      assert Get(r, name) == r.price2;
    } else if name == "volume" {
      assert Get(r, name) == r.volume;
    } else {
      assert name == "volume_executed";
    }
  }
}
