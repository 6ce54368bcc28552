/** The life of an added order (events/add_order.py): the acknowledgment becomes a
    submitted `Order`, the order's own entries are picked out of `openOrders` frames and
    folded into it, and the fold is cut by `take_while(is_final_state, inclusive=True)`. */
module AddOrder {
  import opened Json
  import opened Streams
  import opened Order
  import opened Websocket

  /** `_mapper_event_response_to_order`: the acknowledgment's `txid` and `descr`. */
  function AckToOrder(message: Json): (r: Result<Order, Error>)
  {
    match (Field(message, "txid"), Field(message, "descr"))
    case (Some(txid), Some(descr)) => Success(NewOrder(txid, Known(Submitted), descr))
    case _ => Failure(Malformed)
  }

  lemma AckToOrderSpec(message: Json)
    ensures AckToOrder(message).Success? <==> Field(message, "txid").Some? && Field(message, "descr").Some?
    ensures AckToOrder(message).Success? ==>
              var o := AckToOrder(message).value;
              && o.orderId == message.fields["txid"]
              && o.description == message.fields["descr"]
              && o.status == Known(Submitted) && !IsFinalState(o.status)
              && o == NewOrder(o.orderId, o.status, o.description)
  {
  }

  /** `t` occurs in `s` as a contiguous piece: Python's `t in s` on strings. */
  predicate IsSubstring(t: string, s: string)
  {
    exists i :: 0 <= i <= |s| && t <= s[i..]
  }

  /** What the order filter does with one frame: drop it, pass on the order's entry, or
      raise from outside its guarded block. */
  datatype Related = Drop | Emit(entry: Json) | Raise

  /** `_order_related_messages_only(order_id)` on one frame. The guarded test is
      `message[1] == "openOrders" and order_id in message[0][0]`; any failure in it drops
      the frame. The lookup `message[0][0][order_id]` that follows is outside the guard:
      - a dict is searched by key, and only a string id can be a JSON key (a list or
        dict id is unhashable, which the guard swallows);
      - a list is searched by equality, and the lookup then survives only for an
        integer id within range, counted from the end when negative;
      - a string can only be searched for a string, and indexing it by one raises.
      When `message[0]` is itself a non-empty string, `message[0][0]` is its first
      character, a one-character string, and the same last rule applies to it. */
  function OrderRelated(orderId: Json, message: Json): (r: Related)
  {
    if !(message.JList? && |message.items| >= 2 && message.items[1] == JStr("openOrders")) then Drop
    else if message.items[0].JStr? && |message.items[0].s| >= 1 then
      if orderId.JStr? && IsSubstring(orderId.s, message.items[0].s[..1]) then Raise else Drop
    else if !(message.items[0].JList? && |message.items[0].items| >= 1) then Drop
    else
      match message.items[0].items[0]
      case JObj(entries) => if orderId.JStr? && orderId.s in entries then Emit(entries[orderId.s]) else Drop
      case JList(xs) =>
        if orderId !in xs then Drop
        else if orderId.JInt? && -|xs| <= orderId.n < |xs| then
          Emit(xs[if orderId.n < 0 then orderId.n + |xs| else orderId.n])
        else Raise
      case JStr(text) => if orderId.JStr? && IsSubstring(orderId.s, text) then Raise else Drop
      case _ => Drop
  }

  /** For a string id (what Kraken sends as `txid`): an entry is passed on exactly when
      the frame is an `openOrders` frame whose first entry dict holds the id, and it is
      that dict's value; the filter raises exactly when that first entry is a list or a
      string holding the id, or when `message[0]` is a string whose first character
      holds the id. Frames of other channels are always dropped. */
  lemma OrderRelatedSpec(orderId: Json, message: Json)
    ensures orderId.JStr? ==>
              (OrderRelated(orderId, message).Emit? <==>
                 && message.JList? && |message.items| >= 2
                 && message.items[1] == JStr("openOrders")
                 && Index(message.items[0], 0).Some?
                 && Field(message.items[0].items[0], orderId.s).Some?)
    ensures orderId.JStr? && OrderRelated(orderId, message).Emit? ==>
              OrderRelated(orderId, message).entry == message.items[0].items[0].fields[orderId.s]
    ensures orderId.JStr? ==>
              (OrderRelated(orderId, message).Raise? <==>
                 && message.JList? && |message.items| >= 2
                 && message.items[1] == JStr("openOrders")
                 && ((&& Index(message.items[0], 0).Some?
                      && var first := message.items[0].items[0];
                         (first.JList? && orderId in first.items) || (first.JStr? && IsSubstring(orderId.s, first.s)))
                     || (&& message.items[0].JStr? && |message.items[0].s| >= 1
                         && IsSubstring(orderId.s, message.items[0].s[..1]))))
    // an id that is neither a string nor an integer never selects an entry
    ensures !orderId.JStr? && !orderId.JInt? ==> !OrderRelated(orderId, message).Emit?
    ensures !(message.JList? && |message.items| >= 2 && message.items[1] == JStr("openOrders")) ==>
              OrderRelated(orderId, message) == Drop
  {
  }

  /** The frame `["xyz", "openOrders"]`: `message[0][0]` is the string "x", which holds
      the id "x" and cannot be indexed by it, so the filter raises; the id "y" is not in
      "x", so the frame is dropped. */
  lemma StringFirstEntry()
    ensures OrderRelated(JStr("x"), JList([JStr("xyz"), JStr("openOrders")])) == Raise
    ensures OrderRelated(JStr("y"), JList([JStr("xyz"), JStr("openOrders")])) == Drop
  {
    assert "x" <= "xyz"[..1][0..];
    assert !IsSubstring("y", "xyz"[..1]) by {
      assert "xyz"[..1] == "x";
      forall i | 0 <= i <= 1 ensures !("y" <= "x"[i..]) {
        if i == 0 { assert "x"[0..][0] != "y"[0]; }
      }
    }
  }

  /** Whether a frame passes an entry on, as a predicate for `Filter`. */
  function PassesEntry(orderId: Json): Json -> bool
  {
    m => OrderRelated(orderId, m).Emit?
  }

  /** The entry a frame passes on (a placeholder for frames that pass nothing on), as a
      mapper for `Map`. */
  function EntryOf(orderId: Json): Json -> Json
  {
    m => match OrderRelated(orderId, m) case Emit(entry) => entry case _ => JNull
  }

  /** The position of the first frame that makes the filter raise, or the length. */
  function FirstRaise(orderId: Json, messages: seq<Json>): (k: nat)
    ensures k <= |messages|
    ensures forall i :: 0 <= i < k ==> !OrderRelated(orderId, messages[i]).Raise?
    ensures k < |messages| ==> OrderRelated(orderId, messages[k]).Raise?
  {
    if messages == [] || OrderRelated(orderId, messages[0]).Raise? then 0
    else 1 + FirstRaise(orderId, messages[1..])
  }

  /** The order filter over a stream: passes entries on in order, drops the rest, and
      forwards the upstream's error or completion. */
  function RelatedEntries(orderId: Json, messages: seq<Json>, end: End): (r: Stream<Json>)
    ensures |r.items| <= |messages|
    ensures r.end == end || r.end == Errored(Malformed)
  {
    if messages == [] then Stream([], end)
    else
      match OrderRelated(orderId, messages[0])
      case Drop => RelatedEntries(orderId, messages[1..], end)
      case Raise => Stream([], Errored(Malformed))
      case Emit(entry) =>
        var rest := RelatedEntries(orderId, messages[1..], end);
        Stream([entry] + rest.items, rest.end)
  }

  /** The filter is a filter-map cut at the first raising frame: its items are the
      entries of the frames before that one which pass an entry on, in order and with
      repetitions, and it ends with the error there, or as the upstream does when no
      frame raises. */
  lemma {:induction false} RelatedEntriesSpec(orderId: Json, messages: seq<Json>, end: End)
    ensures var k := FirstRaise(orderId, messages);
            var r := RelatedEntries(orderId, messages, end);
            && r.items == Map(Filter(messages[..k], PassesEntry(orderId)), EntryOf(orderId))
            && r.end == (if k < |messages| then Errored(Malformed) else end)
  {
    if messages != [] && !OrderRelated(orderId, messages[0]).Raise? {
      RelatedEntriesSpec(orderId, messages[1..], end);
      FilterMapStep(orderId, messages);
    }
  }

  /** One step of the filter-map: the first frame contributes its entry, if any, in
      front of what the rest contributes. */
  lemma FilterMapStep(orderId: Json, messages: seq<Json>)
    requires messages != [] && !OrderRelated(orderId, messages[0]).Raise?
    ensures var k := FirstRaise(orderId, messages);
            var kept := Map(Filter(messages[1..][..k - 1], PassesEntry(orderId)), EntryOf(orderId));
            Map(Filter(messages[..k], PassesEntry(orderId)), EntryOf(orderId))
              == (match OrderRelated(orderId, messages[0]) case Emit(entry) => [entry] + kept case _ => kept)
  {
    var k := FirstRaise(orderId, messages);
    var front := messages[..k];
    assert front[0] == messages[0] && front[1..] == messages[1..][..k - 1];
    var kept := Filter(messages[1..][..k - 1], PassesEntry(orderId));
    if OrderRelated(orderId, messages[0]).Emit? {
      assert Filter(front, PassesEntry(orderId)) == [messages[0]] + kept;
      MapAppend([messages[0]], kept, EntryOf(orderId));
    } else {
      assert Filter(front, PassesEntry(orderId)) == kept;
    }
  }

  /** The keyword arguments `update_order` builds from an entry, with the user
      reference under the given keyword. The status is absent: each variant below
      stores it its own way. */
  function UpdateKeywords(m: map<string, Json>, referenceKey: string): (u: map<string, Json>)
    requires "userref" in m
  {
    map[referenceKey := m["userref"]]
      + (if "vol" in m then map["volume" := m["vol"]] else map[])
      + (if "vol_exec" in m then map["volume_executed" := m["vol_exec"]] else map[])
      + (if "open_tm" in m then map["open_time" := m["open_tm"]] else map[])
  }

  /** An entry `update_order` can read: a dict holding `status` and `userref`. */
  predicate IsUpdateEntry(message: Json)
  {
    message.JObj? && "status" in message.fields && "userref" in message.fields
  }

  /** `update_order` AS WRITTEN: the entry's status is passed on as it came, and the
      user reference is passed to `dataclasses.replace` under the keyword
      `user_reference`, which is not a field of `Order`. */
  function UpdateOrderAsWritten(existing: Order, message: Json): (r: Result<Order, Error>)
  {
    if !IsUpdateEntry(message) then Failure(Malformed)
    else Replace(existing, UpdateKeywords(message.fields, "user_reference")["status" := message.fields["status"]])
  }

  /** As written, no update ever succeeds: every entry makes the fold raise. */
  lemma UpdateOrderAsWrittenAlwaysFails(existing: Order, message: Json)
    ensures UpdateOrderAsWritten(existing, message) == Failure(Malformed)
  {
    if IsUpdateEntry(message) {
      var updates := UpdateKeywords(message.fields, "user_reference")["status" := message.fields["status"]];
      assert "user_reference" in updates.Keys && "user_reference" !in FieldNames;
    }
  }

  /** `update_order` with only the keyword corrected: the status is still stored as
      the value the entry carried. */
  function UpdateOrderRawStatus(existing: Order, message: Json): (r: Result<Order, Error>)
  {
    if !IsUpdateEntry(message) then Failure(Malformed)
    else Replace(existing, UpdateKeywords(message.fields, "reference")["status" := message.fields["status"]])
  }

  /** A raw status is never final, so not even an entry saying "open" or "canceled"
      can end the lifecycle. */
  lemma RawStatusNeverFinal(existing: Order, message: Json)
    ensures UpdateOrderRawStatus(existing, message).Success? ==>
              && UpdateOrderRawStatus(existing, message).value.status == Raw(message.fields["status"])
              && !IsFinalState(UpdateOrderRawStatus(existing, message).value.status)
  {
    if IsUpdateEntry(message) {
      var updates := UpdateKeywords(message.fields, "reference")["status" := message.fields["status"]];
      assert updates.Keys <= FieldNames;
    }
  }

  /** `update_order` as intended: `userref` goes to the `reference` field and the
      status is looked up in `OrderStatus` (an unknown status raises a ValueError).
      `vol`, `vol_exec` and `open_tm` are applied when present. */
  function UpdateOrder(existing: Order, message: Json): (r: Result<Order, Error>)
  {
    if !IsUpdateEntry(message) then Failure(Malformed)
    else
      match ParseStatus(message.fields["status"])
      case None => Failure(Malformed)
      case Some(status) =>
        match Replace(existing, UpdateKeywords(message.fields, "reference"))
        case Failure(e) => Failure(e)
        case Success(o) => Success(o.(status := Known(status)))
  }

  /** The keywords of the corrected update are all fields of `Order`, and they are
      exactly the ones the entry asks for. */
  lemma UpdateKeywordsSpec(m: map<string, Json>)
    requires "userref" in m
    ensures var u := UpdateKeywords(m, "reference");
            && u.Keys <= FieldNames && "status" !in u
            && u["reference"] == m["userref"]
            && ("volume" in u <==> "vol" in m) && ("volume" in u ==> u["volume"] == m["vol"])
            && ("volume_executed" in u <==> "vol_exec" in m) && ("volume_executed" in u ==> u["volume_executed"] == m["vol_exec"])
            && ("open_time" in u <==> "open_tm" in m) && ("open_time" in u ==> u["open_time"] == m["open_tm"])
            && "order_id" !in u && "description" !in u && "price" !in u && "price2" !in u
  {
    var u0 := map["reference" := m["userref"]];
    var u1 := u0 + (if "vol" in m then map["volume" := m["vol"]] else map[]);
    var u2 := u1 + (if "vol_exec" in m then map["volume_executed" := m["vol_exec"]] else map[]);
    var u3 := u2 + (if "open_tm" in m then map["open_time" := m["open_tm"]] else map[]);
    assert u1.Keys <= FieldNames && u1["reference"] == m["userref"];
    assert ("volume" in u1 <==> "vol" in m) && ("volume" in u1 ==> u1["volume"] == m["vol"]);
    assert "volume_executed" !in u1 && "open_time" !in u1 && "status" !in u1;
    assert u2.Keys <= FieldNames && u2["reference"] == m["userref"];
    assert ("volume" in u2 <==> "vol" in m) && ("volume" in u2 ==> u2["volume"] == m["vol"]);
    assert ("volume_executed" in u2 <==> "vol_exec" in m) && ("volume_executed" in u2 ==> u2["volume_executed"] == m["vol_exec"]);
    assert "open_time" !in u2 && "status" !in u2;
    assert u3 == UpdateKeywords(m, "reference");
  }

  /** The update is a new value: the status is the member the entry names, and it is
      final exactly when the entry says "canceled" or "open"; the reference comes from
      the entry, the volumes and open time when the entry has them, and every other
      field carries over. Entries without status or userref, and unknown statuses,
      fail. */
  lemma UpdateOrderSpec(existing: Order, message: Json)
    ensures UpdateOrder(existing, message).Success? <==>
              IsUpdateEntry(message) && exists s: OrderStatus :: message.fields["status"] == JStr(OrderStatusValue(s))
    ensures UpdateOrder(existing, message).Failure? ==> UpdateOrder(existing, message).error == Malformed
    ensures UpdateOrder(existing, message).Success? ==>
              var o := UpdateOrder(existing, message).value;
              var m := message.fields;
              && o.status.Known? && m["status"] == JStr(OrderStatusValue(o.status.status))
              && (IsFinalState(o.status) <==> m["status"] == JStr("canceled") || m["status"] == JStr("open"))
              && o.reference == m["userref"]
              && o.volume == (if "vol" in m then m["vol"] else existing.volume)
              && o.volumeExecuted == (if "vol_exec" in m then m["vol_exec"] else existing.volumeExecuted)
              && o.openTime == (if "open_tm" in m then m["open_tm"] else existing.openTime)
              && o.orderId == existing.orderId && o.description == existing.description
              && o.price == existing.price && o.price2 == existing.price2
  {
    if IsUpdateEntry(message) {
      var m := message.fields;
      ParseStatusSpec(m["status"]);
      if ParseStatus(m["status"]).Some? {
        UpdateKeywordsSpec(m);
        assert OrderStatusValue(Canceled) == "canceled" && OrderStatusValue(Open) == "open";
      }
    }
  }

  /** The item before position `i` of a scan's output: the seed at position 0. */
  function Prev(seed: Order, items: seq<Order>, i: nat): Order
    requires i <= |items|
  {
    if i == 0 then seed else items[i - 1]
  }

  /** `operators.scan(update, order)`: every folded snapshot, in order; an entry the
      update rejects ends the stream with its error. */
  function Fold(update: (Order, Json) -> Result<Order, Error>, order: Order, entries: seq<Json>, end: End): (r: Stream<Order>)
    ensures |r.items| <= |entries|
    decreases |entries|
  {
    if entries == [] then Stream([], end)
    else
      match update(order, entries[0])
      case Failure(e) => Stream([], Errored(e))
      case Success(next) =>
        var rest := Fold(update, next, entries[1..], end);
        Stream([next] + rest.items, rest.end)
  }

  /** `r` is what a scan of `entries` from `seed` by `update` emits: one snapshot per
      entry, each the update of the previous snapshot (the seed first) by that entry,
      until an update fails, where the stream ends with that failure. When every
      update succeeds, it ends as the entries did. */
  predicate Scanned(update: (Order, Json) -> Result<Order, Error>, seed: Order, entries: seq<Json>, end: End, r: Stream<Order>)
  {
    && |r.items| <= |entries|
    && (forall i :: 0 <= i < |r.items| ==> update(Prev(seed, r.items, i), entries[i]) == Success(r.items[i]))
    && (|r.items| < |entries| ==>
          var failed := update(Prev(seed, r.items, |r.items|), entries[|r.items|]);
          failed.Failure? && r.end == Errored(failed.error))
    && (|r.items| == |entries| ==> r.end == end)
  }

  /** The scan emits exactly the snapshots `Scanned` describes. */
  lemma {:induction false} FoldSpec(update: (Order, Json) -> Result<Order, Error>, order: Order, entries: seq<Json>, end: End)
    ensures Scanned(update, order, entries, end, Fold(update, order, entries, end))
    decreases |entries|
  {
    if entries != [] && update(order, entries[0]).Success? {
      var next := update(order, entries[0]).value;
      FoldSpec(update, next, entries[1..], end);
      var rest := Fold(update, next, entries[1..], end);
      ScannedCons(update, order, next, entries, end, rest);
      assert Fold(update, order, entries, end) == Stream([next] + rest.items, rest.end);
    }
  }

  /** A successful first update followed by the scan of the rest from its result. */
  lemma ScannedCons(update: (Order, Json) -> Result<Order, Error>, order: Order, next: Order,
                    entries: seq<Json>, end: End, rest: Stream<Order>)
    requires entries != [] && update(order, entries[0]) == Success(next)
    requires Scanned(update, next, entries[1..], end, rest)
    ensures Scanned(update, order, entries, end, Stream([next] + rest.items, rest.end))
  {
    var items := [next] + rest.items;
    forall i | 0 <= i < |items|
      ensures update(Prev(order, items, i), entries[i]) == Success(items[i])
    {
      if i > 0 {
        assert Prev(order, items, i) == Prev(next, rest.items, i - 1);
        assert items[i] == rest.items[i - 1] && entries[i] == entries[1..][i - 1];
      }
    }
    var k := |items|;
    if k < |entries| {
      assert Prev(order, items, k) == Prev(next, rest.items, k - 1);
      assert entries[k] == entries[1..][k - 1];
    }
  }

  /** `take_while(keep, inclusive=True)`: the items up to and including the first one
      that fails `keep`, after which the stream completes. */
  function TakeWhileInclusive<T>(s: Stream<T>, keep: T -> bool): (r: Stream<T>)
    ensures |r.items| <= |s.items| && r.items == s.items[..|r.items|]
    decreases |s.items|
  {
    if s.items == [] then s
    else if !keep(s.items[0]) then Stream([s.items[0]], Completed)
    else
      var rest := TakeWhileInclusive(Stream(s.items[1..], s.end), keep);
      Stream([s.items[0]] + rest.items, rest.end)
  }

  /** Every item before the last one kept satisfies the predicate; the stream is cut at
      the first item that does not, or ends as the upstream did. */
  lemma {:induction false} TakeWhileInclusiveSpec<T>(s: Stream<T>, keep: T -> bool)
    ensures var r := TakeWhileInclusive(s, keep);
            && (forall i :: 0 <= i < |r.items| - 1 ==> keep(r.items[i]))
            && ((forall i :: 0 <= i < |s.items| ==> keep(s.items[i])) ==> r == s)
            && (!(forall i :: 0 <= i < |s.items| ==> keep(s.items[i])) ==>
                  r.end == Completed && |r.items| > 0 && !keep(r.items[|r.items| - 1]))
    decreases |s.items|
  {
    if s.items != [] && keep(s.items[0]) {
      var tail := Stream(s.items[1..], s.end);
      TakeWhileInclusiveSpec(tail, keep);
      AllKeptShift(s.items, keep);
      var rest := TakeWhileInclusive(tail, keep);
      var r := TakeWhileInclusive(s, keep);
      assert r == Stream([s.items[0]] + rest.items, rest.end);
      forall i | 1 <= i < |r.items| - 1 ensures keep(r.items[i]) {
        assert r.items[i] == rest.items[i - 1];
      }
    }
  }

  /** All items of a sequence whose first item is kept are kept iff all of its tail's are. */
  lemma AllKeptShift<T>(items: seq<T>, keep: T -> bool)
    requires items != [] && keep(items[0])
    ensures (forall i :: 0 <= i < |items[1..]| ==> keep(items[1..][i])) <==> (forall i :: 0 <= i < |items| ==> keep(items[i]))
  {
    forall i | 0 <= i < |items[1..]| ensures items[1..][i] == items[i + 1] { }
    if forall i :: 0 <= i < |items[1..]| ==> keep(items[1..][i]) {
      forall i | 0 <= i < |items| ensures keep(items[i]) {
        if i > 0 { assert items[i] == items[1..][i - 1]; }
      }
    }
  }

  /** The `take_while` predicate as written: `is_final_state(o.status)`. */
  function KeepWhileFinal(o: Order): bool
  {
    IsFinalState(o.status)
  }

  /** The `take_while` predicate as intended: keep going while the order is not final. */
  function KeepWhileNotFinal(o: Order): bool
  {
    !IsFinalState(o.status)
  }

  /** What `create_order_lifecycle` emits, for a given update and `take_while` predicate.
      `ack` is the acknowledgment that passed `response_ok`, if one came; `later` is what
      the frames stream delivers after it. No acknowledgment, or one that cannot be
      mapped, emits nothing: that error goes to a subscription without an error
      handler, not to the lifecycle's observer. Otherwise the submitted order comes
      first, and the order's own entries, picked out by its `order_id`, are folded. */
  function LifecycleOf(ack: Option<Json>, later: Stream<Json>,
                       update: (Order, Json) -> Result<Order, Error>, keep: Order -> bool): (r: Stream<Order>)
  {
    if ack.None? || AckToOrder(ack.value).Failure? then Stream([], Live)
    else
      var order := AckToOrder(ack.value).value;
      var related := RelatedEntries(order.orderId, later.items, later.end);
      var updates := TakeWhileInclusive(Fold(update, order, related.items, related.end), keep);
      Stream([order] + updates.items, updates.end)
  }

  /** `create_order_lifecycle` as written. */
  function LifecycleAsWritten(ack: Option<Json>, later: Stream<Json>): (r: Stream<Order>)
  {
    LifecycleOf(ack, later, UpdateOrderAsWritten, KeepWhileFinal)
  }

  /** As written, the lifecycle emits the submitted order and then fails as soon as the
      first entry of the order arrives; with no entry it ends as the filtered frames do. */
  lemma LifecycleAsWrittenErrors(ack: Option<Json>, later: Stream<Json>)
    requires ack.Some? && AckToOrder(ack.value).Success?
    ensures var order := AckToOrder(ack.value).value;
            var related := RelatedEntries(order.orderId, later.items, later.end);
            && (|related.items| > 0 ==> LifecycleAsWritten(ack, later) == Stream([order], Errored(Malformed)))
            && (|related.items| == 0 ==> LifecycleAsWritten(ack, later) == Stream([order], related.end))
  {
    var order := AckToOrder(ack.value).value;
    var related := RelatedEntries(order.orderId, later.items, later.end);
    if |related.items| > 0 {
      UpdateOrderAsWrittenAlwaysFails(order, related.items[0]);
    }
  }

  /** `create_order_lifecycle` as intended: the corrected update, cut after the first
      final order. */
  function Lifecycle(ack: Option<Json>, later: Stream<Json>): (r: Stream<Order>)
  {
    LifecycleOf(ack, later, UpdateOrder, KeepWhileNotFinal)
  }

  /** The submitted order comes first. What follows are the snapshots of the order's
      entries, folded in order, up to and including the first final one, where the
      lifecycle completes; every order before the last is not final. When no final
      order is reached, every snapshot is emitted and the lifecycle ends as the fold
      does. */
  lemma LifecycleSpec(ack: Option<Json>, later: Stream<Json>)
    ensures ack.None? || AckToOrder(ack.value).Failure? ==> Lifecycle(ack, later) == Stream([], Live)
    ensures ack.Some? && AckToOrder(ack.value).Success? ==>
              var r := Lifecycle(ack, later);
              var order := AckToOrder(ack.value).value;
              var related := RelatedEntries(order.orderId, later.items, later.end);
              var folded := Fold(UpdateOrder, order, related.items, related.end);
              && |r.items| >= 1
              && r.items[0] == order && r.items[0].status == Known(Submitted)
              && r.items[1..] == folded.items[..|r.items| - 1]
              && (forall i :: 0 <= i < |r.items| - 1 ==> !IsFinalState(r.items[i].status))
              && ((exists i :: 0 <= i < |folded.items| && IsFinalState(folded.items[i].status)) ==>
                    r.end == Completed && IsFinalState(r.items[|r.items| - 1].status))
              && ((forall i :: 0 <= i < |folded.items| ==> !IsFinalState(folded.items[i].status)) ==>
                    r.items[1..] == folded.items && r.end == folded.end)
  {
    if ack.Some? && AckToOrder(ack.value).Success? {
      var order := AckToOrder(ack.value).value;
      AckToOrderSpec(ack.value);
      var related := RelatedEntries(order.orderId, later.items, later.end);
      var folded := Fold(UpdateOrder, order, related.items, related.end);
      assert Lifecycle(ack, later) == Stream([order] + TakeWhileInclusive(folded, KeepWhileNotFinal).items,
                                             TakeWhileInclusive(folded, KeepWhileNotFinal).end);
      UntilFinal(order, folded);
    }
  }

  /** An order that is not final, followed by `take_while(not final, inclusive=True)`
      of a stream of orders. */
  lemma UntilFinal(order: Order, folded: Stream<Order>)
    requires !IsFinalState(order.status)
    ensures var taken := TakeWhileInclusive(folded, KeepWhileNotFinal);
            var r := Stream([order] + taken.items, taken.end);
            && r.items[1..] == folded.items[..|r.items| - 1]
            && (forall i :: 0 <= i < |r.items| - 1 ==> !IsFinalState(r.items[i].status))
            && ((exists i :: 0 <= i < |folded.items| && IsFinalState(folded.items[i].status)) ==>
                  r.end == Completed && IsFinalState(r.items[|r.items| - 1].status))
            && ((forall i :: 0 <= i < |folded.items| ==> !IsFinalState(folded.items[i].status)) ==>
                  r.items[1..] == folded.items && r.end == folded.end)
  {
    TakenAfter(order, folded, KeepWhileNotFinal);
  }

  /** `UntilFinal` for any predicate: a kept item followed by what `take_while` keeps. */
  lemma TakenAfter<T>(first: T, s: Stream<T>, keep: T -> bool)
    requires keep(first)
    ensures var taken := TakeWhileInclusive(s, keep);
            var r := Stream([first] + taken.items, taken.end);
            && r.items[1..] == s.items[..|r.items| - 1]
            && (forall i :: 0 <= i < |r.items| - 1 ==> keep(r.items[i]))
            && ((exists i :: 0 <= i < |s.items| && !keep(s.items[i])) ==>
                  r.end == Completed && !keep(r.items[|r.items| - 1]))
            && ((forall i :: 0 <= i < |s.items| ==> keep(s.items[i])) ==> r.items[1..] == s.items && r.end == s.end)
  {
    TakeWhileInclusiveSpec(s, keep);
    var taken := TakeWhileInclusive(s, keep);
    var r := Stream([first] + taken.items, taken.end);
    assert r.items[1..] == taken.items;
    forall i | 0 <= i < |r.items| - 1 ensures keep(r.items[i]) {
      if i > 0 {
        assert r.items[i] == taken.items[i - 1];
      }
    }
    if exists i :: 0 <= i < |s.items| && !keep(s.items[i]) {
      assert r.items[|r.items| - 1] == taken.items[|taken.items| - 1];
    }
  }

  /** The acknowledgment, frames and entries of an order that is accepted, goes pending
      and opens. They are reconstructed from the orders the repository's lifecycle test
      expects (submitted, then pending with volume 10, then open): the recorded feed
      that test replays is not part of this model. */
  const TestTxid := "OCI7RW-HMJJ2-WMMJBE"
  const TestDescription := JStr("buy 10.00000000 USDTUSD @ limit 0.9980")
  const TestAck := JObj(map["descr" := TestDescription, "event" := JStr("addOrderStatus"),
                            "reqid" := JInt(5), "status" := JStr("ok"), "txid" := JStr(TestTxid)])
  const PendingEntry := JObj(map["status" := JStr("pending"), "userref" := JInt(0), "vol" := JStr("10.00000000")])
  const OpenEntry := JObj(map["status" := JStr("open"), "userref" := JInt(0)])

  function OpenOrdersFrame(entry: Json): Json
  {
    JList([JList([JObj(map[TestTxid := entry])]), JStr("openOrders"), JObj(map["sequence" := JInt(1)])])
  }

  /** The submitted order of the test acknowledgment. */
  lemma TestAckOrder()
    ensures AckToOrder(TestAck) == Success(NewOrder(JStr(TestTxid), Known(Submitted), TestDescription))
  {
    assert Field(TestAck, "txid") == Some(JStr(TestTxid));
    assert Field(TestAck, "descr") == Some(TestDescription);
  }

  /** The order's two entries, as `RelatedEntries` picks them out of the feed. */
  lemma TestFeedEntries()
    ensures RelatedEntries(JStr(TestTxid), [OpenOrdersFrame(PendingEntry), OpenOrdersFrame(OpenEntry)], Live)
            == Stream([PendingEntry, OpenEntry], Live)
  {
    var feed := [OpenOrdersFrame(PendingEntry), OpenOrdersFrame(OpenEntry)];
    assert OrderRelated(JStr(TestTxid), feed[0]) == Emit(PendingEntry);
    assert OrderRelated(JStr(TestTxid), feed[1]) == Emit(OpenEntry);
    assert feed[1..][1..] == [];
    assert RelatedEntries(JStr(TestTxid), feed[1..], Live) == Stream([OpenEntry], Live);
  }

  /** The corrected update applied to the pending entry. */
  lemma PendingUpdate(existing: Order)
    ensures UpdateOrder(existing, PendingEntry)
            == Success(existing.(status := Known(Pending), reference := JInt(0), volume := JStr("10.00000000")))
  {
    assert ParseStatus(JStr("pending")) == Some(Pending);
    assert UpdateKeywords(PendingEntry.fields, "reference") == map["reference" := JInt(0), "volume" := JStr("10.00000000")];
  }

  /** The corrected update applied to the open entry. */
  lemma OpenUpdate(existing: Order)
    ensures UpdateOrder(existing, OpenEntry) == Success(existing.(status := Known(Open), reference := JInt(0)))
  {
    assert ParseStatus(JStr("open")) == Some(Open);
    assert UpdateKeywords(OpenEntry.fields, "reference") == map["reference" := JInt(0)];
  }

  /** Two successful updates fold into two snapshots. */
  lemma FoldTwo(update: (Order, Json) -> Result<Order, Error>, order: Order, first: Json, second: Json,
                next: Order, last: Order)
    requires update(order, first) == Success(next) && update(next, second) == Success(last)
    ensures Fold(update, order, [first, second], Live) == Stream([next, last], Live)
  {
    assert [first, second][1..] == [second];
    assert Fold(update, last, [], Live) == Stream([], Live);
    assert Fold(update, next, [second], Live) == Stream([last], Live);
  }

  /** `take_while(keep, inclusive=True)` on two items of a live stream. */
  lemma TakeWhileOfTwo<T>(a: T, b: T, keep: T -> bool)
    ensures !keep(a) ==> TakeWhileInclusive(Stream([a, b], Live), keep) == Stream([a], Completed)
    ensures keep(a) && !keep(b) ==> TakeWhileInclusive(Stream([a, b], Live), keep) == Stream([a, b], Completed)
  {
    assert [a, b][1..] == [b];
    if keep(a) && !keep(b) {
      assert TakeWhileInclusive(Stream([b], Live), keep) == Stream([b], Completed);
    }
  }

  /** The lifecycle assembled from its parts: the submitted order, then what
      `take_while` keeps of the fold of the related entries. */
  lemma LifecycleOfParts(ack: Option<Json>, later: Stream<Json>, update: (Order, Json) -> Result<Order, Error>,
                         keep: Order -> bool, order: Order, related: Stream<Json>, folded: Stream<Order>)
    requires ack.Some? && AckToOrder(ack.value) == Success(order)
    requires RelatedEntries(order.orderId, later.items, later.end) == related
    requires Fold(update, order, related.items, related.end) == folded
    ensures LifecycleOf(ack, later, update, keep)
         == Stream([order] + TakeWhileInclusive(folded, keep).items, TakeWhileInclusive(folded, keep).end)
  {
  }

  /** The corrected fold of the test feed's entries: pending, then open. */
  lemma TestFeedFold(order: Order, pending: Order, open: Order)
    requires pending == order.(status := Known(Pending), reference := JInt(0), volume := JStr("10.00000000"))
    requires open == pending.(status := Known(Open))
    ensures Fold(UpdateOrder, order, [PendingEntry, OpenEntry], Live) == Stream([pending, open], Live)
  {
    PendingUpdate(order);
    OpenUpdate(pending);
    assert open == pending.(status := Known(Open), reference := JInt(0));
    FoldTwo(UpdateOrder, order, PendingEntry, OpenEntry, pending, open);
  }

  /** With `take_while(is_final_state)` as written, even with the corrected update, the
      test feed's lifecycle stops at the pending order and never reports it open. */
  lemma FinalPredicateStopsAtPending()
    ensures var r := LifecycleOf(Some(TestAck), Stream([OpenOrdersFrame(PendingEntry), OpenOrdersFrame(OpenEntry)], Live),
                                 UpdateOrder, KeepWhileFinal);
            && |r.items| == 2 && r.items[1].status == Known(Pending) && r.end == Completed
  {
    var order := NewOrder(JStr(TestTxid), Known(Submitted), TestDescription);
    var pending := order.(status := Known(Pending), reference := JInt(0), volume := JStr("10.00000000"));
    var open := pending.(status := Known(Open));
    TestAckOrder();
    TestFeedEntries();
    TestFeedFold(order, pending, open);
    var folded := Stream([pending, open], Live);
    LifecycleOfParts(Some(TestAck), Stream([OpenOrdersFrame(PendingEntry), OpenOrdersFrame(OpenEntry)], Live),
                     UpdateOrder, KeepWhileFinal, order, Stream([PendingEntry, OpenEntry], Live), folded);
    assert !KeepWhileFinal(pending);
    TakeWhileOfTwo(pending, open, KeepWhileFinal);
  }

  /** As intended, the test feed's lifecycle is submitted, pending, open, and then
      completes. */
  lemma LifecycleTestFeed()
    ensures var r := Lifecycle(Some(TestAck), Stream([OpenOrdersFrame(PendingEntry), OpenOrdersFrame(OpenEntry)], Live));
            && |r.items| == 3 && r.end == Completed
            && r.items[0].status == Known(Submitted) && r.items[1].status == Known(Pending) && r.items[2].status == Known(Open)
            && r.items[1].volume == JStr("10.00000000") && r.items[2].volume == JStr("10.00000000")
            && r.items[2].orderId == JStr(TestTxid)
  {
    var order := NewOrder(JStr(TestTxid), Known(Submitted), TestDescription);
    var pending := order.(status := Known(Pending), reference := JInt(0), volume := JStr("10.00000000"));
    var open := pending.(status := Known(Open));
    TestAckOrder();
    TestFeedEntries();
    TestFeedFold(order, pending, open);
    var folded := Stream([pending, open], Live);
    LifecycleOfParts(Some(TestAck), Stream([OpenOrdersFrame(PendingEntry), OpenOrdersFrame(OpenEntry)], Live),
                     UpdateOrder, KeepWhileNotFinal, order, Stream([PendingEntry, OpenEntry], Live), folded);
    assert KeepWhileNotFinal(pending) && !KeepWhileNotFinal(open);
    TakeWhileOfTwo(pending, open, KeepWhileNotFinal);
    assert Lifecycle(Some(TestAck), Stream([OpenOrdersFrame(PendingEntry), OpenOrdersFrame(OpenEntry)], Live))
           == Stream([order, pending, open], Completed);
  }

  /** A subscription to `create_order_lifecycle((request, connection), messages)`. */
  class OrderLifecycle {
    const request: Payload
    const connection: EnhancedWebsocket

    constructor (request: Payload, connection: EnhancedWebsocket)
      ensures this.request == request && this.connection == connection
    {
      this.request := request;
      this.connection := connection;
    }

    /** Subscribing sends the request exactly once through the connection, the token
        written into the request itself first, and emits the corrected
        `Lifecycle(ack, later)`. A request the token cannot be written into is neither
        changed nor sent. */
    method Subscribe(ack: Option<Json>, later: Stream<Json>) returns (orders: Stream<Order>)
      requires request.subscription != null ==> "subscription" !in request.top
      modifies connection, request, request.subscription
      ensures orders == Lifecycle(ack, later)
      ensures WithToken(old(request.Contents()), connection.token).Success? ==>
                && request.Contents() == WithToken(old(request.Contents()), connection.token).value
                && connection.sent == old(connection.sent) + [JObj(WithToken(old(request.Contents()), connection.token).value)]
      ensures WithToken(old(request.Contents()), connection.token).Failure? ==>
                request.Contents() == old(request.Contents()) && connection.sent == old(connection.sent)
    {
      var _ := connection.SendJson(request);
      orders := Lifecycle(ack, later);
    }
  }
}
