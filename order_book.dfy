/** The order book channel (channels/order_book.py): the payload of a book frame, and
    the accumulator that applies price levels to the ask and bid sides in place and then
    keeps the best ten levels of each side. */
module OrderBook {
  import opened Json
  import opened Streams

  /** `to_order_book_payload(payload)`: the frame's `payload[1]`, with the entries of
      `payload[2]` merged into it when that is a dict (an update frame carries its ask
      and bid changes in two dicts). A frame too short to index raises an IndexError,
      and a `payload[1]` that is not a dict has no `update`. Any payload that is not a
      list is rejected here, a string included, which Python would index character by
      character; the channel filter passes only lists. */
  function ToOrderBookPayload(payload: Json): (r: Result<Json, Error>)
  {
    if !(payload.JList? && |payload.items| >= 3) then Failure(Malformed)
    else if payload.items[2].JObj? then
      if payload.items[1].JObj? then Success(JObj(payload.items[1].fields + payload.items[2].fields))
      else Failure(Malformed)
    else Success(payload.items[1])
  }

  lemma ToOrderBookPayloadSpec(payload: Json)
    ensures ToOrderBookPayload(payload).Failure? <==>
              !(payload.JList? && |payload.items| >= 3) || (payload.items[2].JObj? && !payload.items[1].JObj?)
    ensures ToOrderBookPayload(payload).Success? && !payload.items[2].JObj? ==>
              ToOrderBookPayload(payload).value == payload.items[1]
    ensures ToOrderBookPayload(payload).Success? && payload.items[2].JObj? ==>
              var merged := ToOrderBookPayload(payload).value;
              && merged.JObj?
              && merged.fields.Keys == payload.items[1].fields.Keys + payload.items[2].fields.Keys
              && (forall k :: k in payload.items[2].fields ==> merged.fields[k] == payload.items[2].fields[k])
              && (forall k :: k in payload.items[1].fields && k !in payload.items[2].fields ==>
                    merged.fields[k] == payload.items[1].fields[k])
  {
  }

  /** One price level, `[price, volume, timestamp, ...]` as received and
      `{price, volume, timestamp}` as stored under its price. */
  datatype Level = Level(price: string, volume: string, timestamp: string)

  /** A side of the book: a dict keyed by price, in its iteration order. The key of each
      entry is its level's price, so a side is a sequence of levels with distinct prices. */
  predicate Keyed(side: seq<Level>)
  {
    forall i, j :: 0 <= i < j < |side| ==> side[i].price != side[j].price
  }

  /** The position of the entry keyed by `price`, if any. */
  function IndexOf(side: seq<Level>, price: string): (r: int)
    ensures -1 <= r < |side|
    ensures r == -1 <==> forall i :: 0 <= i < |side| ==> side[i].price != price
    ensures r >= 0 ==> side[r].price == price && forall i :: 0 <= i < r ==> side[i].price != price
  {
    if side == [] then -1
    else if side[0].price == price then 0
    else
      var k := IndexOf(side[1..], price);
      if k == -1 then -1 else k + 1
  }

  /** `side.get(price)`. */
  function Lookup(side: seq<Level>, price: string): Option<Level>
  {
    var k := IndexOf(side, price);
    if k == -1 then None else Some(side[k])
  }

  /** On a keyed side, the entry under a price is the one level with that price. */
  lemma LookupSpec(side: seq<Level>, price: string)
    requires Keyed(side)
    ensures Lookup(side, price).None? <==> forall x :: x in side ==> x.price != price
    ensures forall x :: x in side && x.price == price ==> Lookup(side, price) == Some(x)
  {
    forall x | x in side && x.price == price
      ensures Lookup(side, price) == Some(x)
    {
      var i :| 0 <= i < |side| && side[i] == x;
      var k := IndexOf(side, price);
      assert k != -1;
      assert k == i;
    }
  }

  /** `side.update({price: level})`: overwrites in place, or appends a new key. */
  function Upsert(side: seq<Level>, level: Level): seq<Level>
  {
    var k := IndexOf(side, level.price);
    if k == -1 then side + [level] else side[k := level]
  }

  lemma UpsertSpec(side: seq<Level>, level: Level)
    requires Keyed(side)
    ensures Keyed(Upsert(side, level))
    ensures forall x :: x in Upsert(side, level) <==> x == level || (x in side && x.price != level.price)
  {
    var k := IndexOf(side, level.price);
    var r := Upsert(side, level);
    if k == -1 {
      assert forall i :: 0 <= i < |side| ==> r[i] == side[i];
      assert r[|side|] == level;
    } else {
      forall x | x in side && x.price != level.price ensures x in r {
        var i :| 0 <= i < |side| && side[i] == x;
        assert r[i] == x;
      }
      assert r[k] == level;
    }
  }

  /** `if price in side: side.pop(price)`. */
  function Remove(side: seq<Level>, price: string): seq<Level>
  {
    var k := IndexOf(side, price);
    if k == -1 then side else side[..k] + side[k + 1..]
  }

  lemma RemoveSpec(side: seq<Level>, price: string)
    requires Keyed(side)
    ensures Keyed(Remove(side, price))
    ensures forall x :: x in Remove(side, price) <==> x in side && x.price != price
  {
    var k := IndexOf(side, price);
    if k != -1 {
      var r := Remove(side, price);
      assert forall i :: 0 <= i < k ==> r[i] == side[i];
      assert forall i :: k <= i < |r| ==> r[i] == side[i + 1];
      forall i, j | 0 <= i < j < |r| ensures r[i].price != r[j].price {
        var i' := if i < k then i else i + 1;
        var j' := if j < k then j else j + 1;
        assert r[i] == side[i'] && r[j] == side[j'];
      }
      forall x | x in side && x.price != price ensures x in r {
        var i :| 0 <= i < |side| && side[i] == x;
        if i < k { assert r[i] == x; } else { assert i != k; assert r[i - 1] == x; }
      }
      forall x | x in r ensures x in side && x.price != price {
        var i :| 0 <= i < |r| && r[i] == x;
        var i' := if i < k then i else i + 1;
        assert r[i] == side[i'];
      }
    }
  }

  /** One iteration of the loop over a side's levels: a level whose volume parses to a
      non-zero number is stored under its price; a zero volume removes the price. */
  function ApplyLevel(side: seq<Level>, level: Level, parse: string -> real): seq<Level>
  {
    if parse(level.volume) != 0.0 then Upsert(side, level) else Remove(side, level.price)
  }

  /** The side after the loop has applied `levels` in order. */
  function ApplyLevels(side: seq<Level>, levels: seq<Level>, parse: string -> real): seq<Level>
    decreases |levels|
  {
    if levels == [] then side
    else ApplyLevel(ApplyLevels(side, levels[..|levels| - 1], parse), levels[|levels| - 1], parse)
  }

  /** One level touches only its own price, and the side stays keyed by price. */
  lemma ApplyLevelSpec(side: seq<Level>, level: Level, parse: string -> real, price: string)
    requires Keyed(side)
    ensures Keyed(ApplyLevel(side, level, parse))
    ensures Lookup(ApplyLevel(side, level, parse), price) ==
              if level.price == price then (if parse(level.volume) != 0.0 then Some(level) else None)
              else Lookup(side, price)
  {
    var r := ApplyLevel(side, level, parse);
    if parse(level.volume) != 0.0 {
      UpsertSpec(side, level);
    } else {
      RemoveSpec(side, level.price);
    }
    LookupSpec(side, price);
    LookupSpec(r, price);
  }

  /** After a batch of levels the side is still keyed by price. */
  lemma {:induction false} ApplyLevelsKeyed(side: seq<Level>, levels: seq<Level>, parse: string -> real)
    requires Keyed(side)
    ensures Keyed(ApplyLevels(side, levels, parse))
    decreases |levels|
  {
    if levels != [] {
      ApplyLevelsKeyed(side, levels[..|levels| - 1], parse);
      ApplyLevelSpec(ApplyLevels(side, levels[..|levels| - 1], parse), levels[|levels| - 1], parse, "");
    }
  }

  /** A price the batch of levels does not mention keeps its entry. */
  lemma {:induction false} ApplyLevelsUntouched(side: seq<Level>, levels: seq<Level>, parse: string -> real, price: string)
    requires Keyed(side)
    requires forall i :: 0 <= i < |levels| ==> levels[i].price != price
    ensures Lookup(ApplyLevels(side, levels, parse), price) == Lookup(side, price)
    decreases |levels|
  {
    if levels != [] {
      var n := |levels| - 1;
      var prefix := levels[..n];
      assert forall i :: 0 <= i < |prefix| ==> prefix[i] == levels[i];
      ApplyLevelsUntouched(side, prefix, parse, price);
      ApplyLevelsKeyed(side, prefix, parse);
      ApplyLevelSpec(ApplyLevels(side, prefix, parse), levels[n], parse, price);
    }
  }

  /** After a batch of levels, a price's entry is decided by the LAST level of the batch
      at that price: stored when its volume is non-zero, removed when it is zero. */
  lemma {:induction false} ApplyLevelsLastWrite(side: seq<Level>, levels: seq<Level>, parse: string -> real, k: nat)
    requires Keyed(side)
    requires k < |levels| && forall j :: k < j < |levels| ==> levels[j].price != levels[k].price
    ensures Lookup(ApplyLevels(side, levels, parse), levels[k].price) ==
              if parse(levels[k].volume) != 0.0 then Some(levels[k]) else None
    decreases |levels|
  {
    var n := |levels| - 1;
    var prefix := levels[..n];
    ApplyLevelsKeyed(side, prefix, parse);
    if k < n {
      assert forall j :: 0 <= j < |prefix| ==> prefix[j] == levels[j];
      ApplyLevelsLastWrite(side, prefix, parse, k);
    }
    ApplyLevelSpec(ApplyLevels(side, prefix, parse), levels[n], parse, levels[k].price);
  }

  /** `current.get(snapshotKey) or current.get(updateKey, [])`: a snapshot's list wins
      unless it is missing or empty. */
  function SelectLevels(current: map<string, seq<Level>>, snapshotKey: string, updateKey: string): (r: seq<Level>)
  {
    if snapshotKey in current && current[snapshotKey] != [] then current[snapshotKey]
    else if updateKey in current then current[updateKey]
    else []
  }

  lemma SelectLevelsSpec(current: map<string, seq<Level>>, snapshotKey: string, updateKey: string)
    ensures snapshotKey in current && current[snapshotKey] != [] ==>
              SelectLevels(current, snapshotKey, updateKey) == current[snapshotKey]
    ensures (snapshotKey !in current || current[snapshotKey] == []) && updateKey in current ==>
              SelectLevels(current, snapshotKey, updateKey) == current[updateKey]
    ensures (snapshotKey !in current || current[snapshotKey] == []) && updateKey !in current ==>
              SelectLevels(current, snapshotKey, updateKey) == []
  {
  }

  /** `a` ranks no worse than `b`: a lower price on the ask side (`ascending`), a higher
      one on the bid side, comparing prices as `float` parses them. */
  predicate RanksBefore(a: Level, b: Level, parse: string -> real, ascending: bool)
  {
    if ascending then parse(a.price) <= parse(b.price) else parse(a.price) >= parse(b.price)
  }

  /** The position of the first best-ranked level. */
  function BestIndex(side: seq<Level>, parse: string -> real, ascending: bool): (b: nat)
    requires |side| > 0
    ensures b < |side|
    ensures forall j :: 0 <= j < |side| ==> RanksBefore(side[b], side[j], parse, ascending)
  {
    if |side| == 1 then 0
    else
      var rest := BestIndex(side[1..], parse, ascending);
      if RanksBefore(side[0], side[1 + rest], parse, ascending) then 0 else 1 + rest
  }

  /** The side without its `b`-th entry. */
  function RemoveAt(side: seq<Level>, b: nat): (r: seq<Level>)
    requires b < |side|
    ensures |r| == |side| - 1
    ensures forall i :: 0 <= i < |r| ==> r[i] == if i < b then side[i] else side[i + 1]
  {
    side[..b] + side[b + 1..]
  }

  lemma RemoveAtSpec(side: seq<Level>, b: nat)
    requires Keyed(side) && b < |side|
    ensures Keyed(RemoveAt(side, b))
    ensures forall x :: x in RemoveAt(side, b) ==> x in side && x.price != side[b].price
    ensures forall x :: x in side && x != side[b] ==> x in RemoveAt(side, b)
  {
    RemoveAtKeyed(side, b);
    RemoveAtMembers(side, b);
  }

  lemma RemoveAtKeyed(side: seq<Level>, b: nat)
    requires Keyed(side) && b < |side|
    ensures Keyed(RemoveAt(side, b))
  {
    var r := RemoveAt(side, b);
    forall i, j | 0 <= i < j < |r| ensures r[i].price != r[j].price {
      var i' := if i < b then i else i + 1;
      var j' := if j < b then j else j + 1;
      assert r[i] == side[i'] && r[j] == side[j'];
    }
  }

  lemma RemoveAtMembers(side: seq<Level>, b: nat)
    requires Keyed(side) && b < |side|
    ensures forall x :: x in RemoveAt(side, b) ==> x in side && x.price != side[b].price
    ensures forall x :: x in side && x != side[b] ==> x in RemoveAt(side, b)
  {
    var r := RemoveAt(side, b);
    forall x | x in r ensures x in side && x.price != side[b].price {
      var i :| 0 <= i < |r| && r[i] == x;
      var i' := if i < b then i else i + 1;
      assert r[i] == side[i'];
    }
    forall x | x in side && x != side[b] ensures x in r {
      var i :| 0 <= i < |side| && side[i] == x;
      if i < b { assert r[i] == x; } else { assert r[i - 1] == x; }
    }
  }

  /** `sorted(side, key=price, reverse=not ascending)[:n]`: the best `n` levels in rank
      order. Each kept level ranks no worse than every level left out. */
  function TakeBest(side: seq<Level>, n: nat, parse: string -> real, ascending: bool): (r: seq<Level>)
    requires Keyed(side)
    ensures |r| == if n < |side| then n else |side|
    ensures forall x :: x in r ==> x in side
    ensures Keyed(r)
    ensures forall i, j :: 0 <= i < j < |r| ==> RanksBefore(r[i], r[j], parse, ascending)
    ensures forall x, y :: x in side && x !in r && y in r ==> RanksBefore(y, x, parse, ascending)
    decreases n
  {
    if n == 0 || side == [] then []
    else
      var b := BestIndex(side, parse, ascending);
      RemoveAtSpec(side, b);
      var rest := TakeBest(RemoveAt(side, b), n - 1, parse, ascending);
      TakeBestCons(side, b, rest, parse, ascending);
      [side[b]] + rest
  }

  /** The best level followed by the best of the others keeps the properties of
      `TakeBest`. */
  lemma TakeBestCons(side: seq<Level>, b: nat, rest: seq<Level>, parse: string -> real, ascending: bool)
    requires Keyed(side) && b < |side|
    requires forall j :: 0 <= j < |side| ==> RanksBefore(side[b], side[j], parse, ascending)
    requires forall x :: x in RemoveAt(side, b) ==> x in side && x.price != side[b].price
    requires forall x :: x in side && x != side[b] ==> x in RemoveAt(side, b)
    requires forall x :: x in rest ==> x in RemoveAt(side, b)
    requires Keyed(rest)
    requires forall i, j :: 0 <= i < j < |rest| ==> RanksBefore(rest[i], rest[j], parse, ascending)
    requires forall x, y :: x in RemoveAt(side, b) && x !in rest && y in rest ==> RanksBefore(y, x, parse, ascending)
    ensures forall x :: x in [side[b]] + rest ==> x in side
    ensures Keyed([side[b]] + rest)
    ensures forall i, j :: 0 <= i < j < |[side[b]] + rest| ==>
              RanksBefore(([side[b]] + rest)[i], ([side[b]] + rest)[j], parse, ascending)
    ensures forall x, y :: x in side && x !in [side[b]] + rest && y in [side[b]] + rest ==>
              RanksBefore(y, x, parse, ascending)
  {
    ConsKeyed(side[b], rest);
    ConsRanked(side, b, rest, parse, ascending);
  }

  /** Prices stay unique when a level whose price the others lack goes in front. */
  lemma ConsKeyed(best: Level, rest: seq<Level>)
    requires Keyed(rest) && forall x :: x in rest ==> x.price != best.price
    ensures Keyed([best] + rest)
  {
    var r := [best] + rest;
    forall i, j | 0 <= i < j < |r| ensures r[i].price != r[j].price {
      if i > 0 { assert r[i] == rest[i - 1]; }
      assert r[j] == rest[j - 1];
    }
  }

  /** Rank order is kept when the best level goes in front. */
  lemma ConsRanked(side: seq<Level>, b: nat, rest: seq<Level>, parse: string -> real, ascending: bool)
    requires b < |side|
    requires forall j :: 0 <= j < |side| ==> RanksBefore(side[b], side[j], parse, ascending)
    requires forall x :: x in rest ==> x in side
    requires forall i, j :: 0 <= i < j < |rest| ==> RanksBefore(rest[i], rest[j], parse, ascending)
    ensures forall i, j :: 0 <= i < j < |[side[b]] + rest| ==>
              RanksBefore(([side[b]] + rest)[i], ([side[b]] + rest)[j], parse, ascending)
  {
    var r := [side[b]] + rest;
    forall i, j | 0 <= i < j < |r| ensures RanksBefore(r[i], r[j], parse, ascending) {
      assert r[j] == rest[j - 1];
      if i == 0 {
        assert r[j] in side;
      } else {
        assert r[i] == rest[i - 1];
      }
    }
  }

  /** `BookPrice`: the two sides, updated in place by `accumulate_book_price`. */
  class BookPrice {
    var ask: seq<Level>
    var bid: seq<Level>

    constructor ()
      ensures ask == [] && bid == []
    {
      ask := [];
      bid := [];
    }

    predicate Valid()
      reads this
    {
      Keyed(ask) && Keyed(bid)
    }

    /** `accumulate_book_price(acc, current)`: applies the ask levels, then the bid
        levels, then keeps the ten lowest asks (ascending) and the ten highest bids
        (descending), and returns the same accumulator. */
    method Accumulate(current: map<string, seq<Level>>, parse: string -> real) returns (r: BookPrice)
      requires Valid()
      modifies this
      ensures r == this && Valid()
      ensures Keyed(ApplyLevels(old(ask), SelectLevels(current, "as", "a"), parse))
      ensures Keyed(ApplyLevels(old(bid), SelectLevels(current, "bs", "b"), parse))
      ensures ask == TakeBest(ApplyLevels(old(ask), SelectLevels(current, "as", "a"), parse), 10, parse, true)
      ensures bid == TakeBest(ApplyLevels(old(bid), SelectLevels(current, "bs", "b"), parse), 10, parse, false)
    {
      var askList := SelectLevels(current, "as", "a");
      var bidList := SelectLevels(current, "bs", "b");
      ghost var ask0 := ask;
      ghost var bid0 := bid;
      var i := 0;
      while i < |askList|
        invariant 0 <= i <= |askList|
        invariant ask == ApplyLevels(ask0, askList[..i], parse)
        invariant Keyed(ask) && bid == bid0
      {
        ApplyLevelSpec(ask, askList[i], parse, askList[i].price);
        assert askList[..i + 1][..i] == askList[..i];
        ask := ApplyLevel(ask, askList[i], parse);
        i := i + 1;
      }
      assert askList[..i] == askList;
      i := 0;
      while i < |bidList|
        invariant 0 <= i <= |bidList|
        invariant bid == ApplyLevels(bid0, bidList[..i], parse)
        invariant Keyed(bid) && ask == ApplyLevels(ask0, askList, parse)
      {
        ApplyLevelSpec(bid, bidList[i], parse, bidList[i].price);
        assert bidList[..i + 1][..i] == bidList[..i];
        bid := ApplyLevel(bid, bidList[i], parse);
        i := i + 1;
      }
      assert bidList[..i] == bidList;
      ask := TakeBest(ask, 10, parse, true);
      bid := TakeBest(bid, 10, parse, false);
      r := this;
    }
  }

  /** What the accumulator holds on one side after one frame: at most ten levels, each
      one stored by the loop, and no level at a price whose last level in the frame had
      a zero volume. */
  lemma AccumulatedSide(side: seq<Level>, levels: seq<Level>, parse: string -> real, ascending: bool, k: nat)
    requires Keyed(side)
    requires k < |levels| && forall j :: k < j < |levels| ==> levels[j].price != levels[k].price
    requires parse(levels[k].volume) == 0.0
    ensures Keyed(ApplyLevels(side, levels, parse))
    ensures var kept := TakeBest(ApplyLevels(side, levels, parse), 10, parse, ascending);
            && |kept| <= 10
            && forall x :: x in kept ==> x.price != levels[k].price
  {
    ApplyLevelsKeyed(side, levels, parse);
    var applied := ApplyLevels(side, levels, parse);
    ApplyLevelsLastWrite(side, levels, parse, k);
    LookupSpec(applied, levels[k].price);
  }
}
