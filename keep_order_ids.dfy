/** Collecting the ids seen on the ownTrades channel (operators/keep_order_ids.py): a
    scan that adds every key of every payload dict to one set, updated in place, and a
    `distinct_until_changed` on the set's size. */
module KeepOrderIds {
  import opened Json
  import opened Streams

  /** Every entry of a payload is a dict (anything else has no `keys()`). */
  predicate AllDicts(payload: seq<Json>)
  {
    forall i :: 0 <= i < |payload| ==> payload[i].JObj?
  }

  /** The keys of the payload's dicts. */
  function KeysOf(payload: seq<Json>): set<string>
    decreases |payload|
  {
    if payload == [] then {}
    else
      var last := payload[|payload| - 1];
      KeysOf(payload[..|payload| - 1]) + (if last.JObj? then last.fields.Keys else {})
  }

  lemma {:induction false} KeysOfSpec(payload: seq<Json>)
    ensures forall k :: k in KeysOf(payload) <==>
              exists i :: 0 <= i < |payload| && payload[i].JObj? && k in payload[i].fields
    decreases |payload|
  {
    if payload != [] {
      var n := |payload| - 1;
      KeysOfSpec(payload[..n]);
      assert forall i :: 0 <= i < n ==> payload[..n][i] == payload[i];
    }
  }

  /** The position of the first entry that is not a dict, `|payload|` if there is none. */
  function FirstNonDict(payload: seq<Json>): (r: nat)
    ensures r <= |payload| && AllDicts(payload[..r])
    ensures r < |payload| ==> !payload[r].JObj?
  {
    if payload == [] || !payload[0].JObj? then 0
    else
      var r := 1 + FirstNonDict(payload[1..]);
      assert forall i :: 1 <= i < r ==> payload[..r][i] == payload[1..][..r - 1][i - 1];
      r
  }

  /** Extending a prefix of dicts by one more dict. */
  lemma PrefixStep(x: seq<Json>, i: nat)
    requires i < |x| && AllDicts(x[..i]) && x[i].JObj?
    ensures AllDicts(x[..i + 1])
    ensures KeysOf(x[..i + 1]) == KeysOf(x[..i]) + x[i].fields.Keys
  {
    assert x[..i + 1][..i] == x[..i];
  }

  /** The accumulator of the scan: a Python set updated in place. */
  class OrderIdSet {
    var ids: set<string>

    constructor ()
      ensures ids == {}
    {
      ids := {};
    }

    /** `add_to_set(acc, x)`: adds the keys of each dict of `x`, in order, and returns
        the same set. An entry that is not a dict raises, after the keys of the dicts
        before it were added. */
    method AddToSet(x: seq<Json>) returns (r: Result<OrderIdSet, Error>)
      modifies this
      ensures r.Success? <==> AllDicts(x)
      ensures r.Success? ==> r.value == this && ids == old(ids) + KeysOf(x)
      ensures r.Failure? ==> r.error == Malformed && ids == old(ids) + KeysOf(x[..FirstNonDict(x)])
    {
      var i := 0;
      while i < |x|
        invariant 0 <= i <= |x|
        invariant AllDicts(x[..i])
        invariant ids == old(ids) + KeysOf(x[..i])
      {
        if !x[i].JObj? {
          return Failure(Malformed);
        }
        PrefixStep(x, i);
        ids := ids + x[i].fields.Keys;
        i := i + 1;
      }
      assert x[..i] == x;
      r := Success(this);
    }
  }

  /** `operators.scan(add_to_set, set())` observed as the successive contents of the
      accumulator; a payload that makes `add_to_set` raise ends the stream. */
  function Scan(acc: set<string>, payloads: seq<seq<Json>>, end: End): (r: Stream<set<string>>)
    ensures |r.items| <= |payloads|
    ensures forall i :: 0 <= i < |r.items| ==> acc <= r.items[i]
    decreases |payloads|
  {
    if payloads == [] then Stream([], end)
    else if !AllDicts(payloads[0]) then Stream([], Errored(Malformed))
    else
      var next := acc + KeysOf(payloads[0]);
      var rest := Scan(next, payloads[1..], end);
      Stream([next] + rest.items, rest.end)
  }

  /** The set only grows, and each snapshot holds the keys of the payload that made it. */
  lemma ScanSpec(acc: set<string>, payloads: seq<seq<Json>>, end: End)
    ensures var r := Scan(acc, payloads, end);
            && Growing(r.items)
            && (forall i :: 0 <= i < |r.items| ==> KeysOf(payloads[i]) <= r.items[i])
            && (AllDictsEach(payloads) ==> r == Stream(r.items, end) && |r.items| == |payloads|)
  {
    ScanGrowing(acc, payloads, end);
    ScanHoldsKeys(acc, payloads, end);
    if AllDictsEach(payloads) {
      ScanComplete(acc, payloads, end);
    }
  }

  lemma {:induction false} ScanGrowing(acc: set<string>, payloads: seq<seq<Json>>, end: End)
    ensures Growing(Scan(acc, payloads, end).items)
    decreases |payloads|
  {
    if payloads != [] && AllDicts(payloads[0]) {
      var next := acc + KeysOf(payloads[0]);
      ScanGrowing(next, payloads[1..], end);
      var r := Scan(acc, payloads, end).items;
      var rest := Scan(next, payloads[1..], end).items;
      assert r == [next] + rest;
      forall i, j | 0 <= i <= j < |r| ensures r[i] <= r[j] {
        if i == 0 {
          if j > 0 { assert r[j] == rest[j - 1]; }
        } else {
          assert r[i] == rest[i - 1] && r[j] == rest[j - 1];
        }
      }
    }
  }

  lemma {:induction false} ScanHoldsKeys(acc: set<string>, payloads: seq<seq<Json>>, end: End)
    ensures var r := Scan(acc, payloads, end).items;
            forall i :: 0 <= i < |r| ==> KeysOf(payloads[i]) <= r[i]
    decreases |payloads|
  {
    if payloads != [] && AllDicts(payloads[0]) {
      var next := acc + KeysOf(payloads[0]);
      ScanHoldsKeys(next, payloads[1..], end);
      var r := Scan(acc, payloads, end).items;
      var rest := Scan(next, payloads[1..], end).items;
      forall i | 0 <= i < |r| ensures KeysOf(payloads[i]) <= r[i] {
        if i > 0 {
          assert r[i] == rest[i - 1] && payloads[i] == payloads[1..][i - 1];
        }
      }
    }
  }

  lemma {:induction false} ScanComplete(acc: set<string>, payloads: seq<seq<Json>>, end: End)
    requires AllDictsEach(payloads)
    ensures Scan(acc, payloads, end).end == end
    ensures |Scan(acc, payloads, end).items| == |payloads|
    decreases |payloads|
  {
    if payloads != [] {
      assert AllDicts(payloads[0]);
      assert AllDictsEach(payloads[1..]) by {
        forall i | 0 <= i < |payloads[1..]| ensures AllDicts(payloads[1..][i]) {
          assert payloads[1..][i] == payloads[i + 1];
        }
      }
      ScanComplete(acc + KeysOf(payloads[0]), payloads[1..], end);
    }
  }

  /** Each snapshot contains every earlier one. */
  predicate Growing(items: seq<set<string>>)
  {
    forall i, j :: 0 <= i <= j < |items| ==> items[i] <= items[j]
  }

  predicate AllDictsEach(payloads: seq<seq<Json>>)
  {
    forall i :: 0 <= i < |payloads| ==> AllDicts(payloads[i])
  }

  /** `distinct_until_changed(key_mapper=len)`: emits a snapshot only when its size
      differs from the size of the last one emitted (`last`). */
  function DistinctBySize(items: seq<set<string>>, last: Option<nat>): (r: seq<set<string>>)
    ensures |r| <= |items|
    ensures forall x :: x in r ==> x in items
    decreases |items|
  {
    if items == [] then []
    else if last == Some(|items[0]|) then DistinctBySize(items[1..], last)
    else [items[0]] + DistinctBySize(items[1..], Some(|items[0]|))
  }

  lemma {:induction false} SubsetSize(a: set<string>, b: set<string>)
    requires a <= b
    ensures |a| <= |b|
    decreases |a|
  {
    if a != {} {
      var x :| x in a;
      SubsetSize(a - {x}, b - {x});
    }
  }

  /** A subset as large as its superset is the superset. */
  lemma SubsetSameSize(a: set<string>, b: set<string>)
    requires a <= b && |a| == |b|
    ensures a == b
  {
    if a != b {
      var x :| x in b && x !in a;
      SubsetSize(a, b - {x});
    }
  }

  /** Every change of size is emitted: a snapshot whose size differs from the one
      before it is always among the emitted ones, and so is the first snapshot unless
      its size is the one last emitted. */
  lemma {:induction false} DistinctBySizeEmitsChanges(items: seq<set<string>>, last: Option<nat>)
    ensures var r := DistinctBySize(items, last);
            && (forall i :: 0 < i < |items| && |items[i]| != |items[i - 1]| ==> items[i] in r)
            && (items != [] && last != Some(|items[0]|) ==> items[0] in r)
    decreases |items|
  {
    if items != [] {
      var tail := items[1..];
      DistinctBySizeEmitsChanges(tail, Some(|items[0]|));
      var rest := DistinctBySize(tail, Some(|items[0]|));
      var r := DistinctBySize(items, last);
      assert forall x :: x in rest ==> x in r;
      forall i | 0 < i < |items| && |items[i]| != |items[i - 1]| ensures items[i] in r {
        assert items[i] == tail[i - 1];
        if i > 1 {
          assert items[i - 1] == tail[i - 2];
        }
      }
    }
  }

  /** Snapshots that all have the size last emitted produce nothing. */
  lemma {:induction false} DistinctBySizeSteady(items: seq<set<string>>, size: nat)
    requires forall i :: 0 <= i < |items| ==> |items[i]| == size
    ensures DistinctBySize(items, Some(size)) == []
    decreases |items|
  {
    if items != [] {
      assert forall i :: 0 <= i < |items[1..]| ==> items[1..][i] == items[i + 1];
      DistinctBySizeSteady(items[1..], size);
    }
  }

  /** On growing snapshots, the emitted sizes strictly increase, the first snapshot is
      always emitted, and the last emitted one has the final size. */
  lemma {:induction false} DistinctBySizeSpec(items: seq<set<string>>, last: Option<nat>)
    requires Growing(items)
    requires last.Some? ==> forall i :: 0 <= i < |items| ==> last.value <= |items[i]|
    ensures var r := DistinctBySize(items, last);
            && (forall i, j :: 0 <= i < j < |r| ==> |r[i]| < |r[j]|)
            && (last.Some? ==> forall i :: 0 <= i < |r| ==> last.value < |r[i]|)
            && (last.None? && items != [] ==> r != [] && r[0] == items[0])
            && (items != [] && (last.None? || last.value != |items[|items| - 1]|) ==>
                  r != [] && |r[|r| - 1]| == |items[|items| - 1]|)
    decreases |items|
  {
    if items != [] {
      var tail := items[1..];
      assert forall i :: 0 <= i < |tail| ==> tail[i] == items[i + 1];
      forall i | 0 <= i < |tail| ensures |items[0]| <= |tail[i]| {
        SubsetSize(items[0], tail[i]);
      }
      if last == Some(|items[0]|) {
        DistinctBySizeSpec(tail, last);
      } else {
        DistinctBySizeSpec(tail, Some(|items[0]|));
        if last.Some? {
          assert last.value < |items[0]|;
        }
        if tail != [] && |items[|items| - 1]| == |items[0]| {
          var rest := DistinctBySize(tail, Some(|items[0]|));
          forall i | 0 <= i < |tail| ensures |tail[i]| == |items[0]| {
            SubsetSize(tail[i], items[|items| - 1]);
          }
          DistinctBySizeSteady(tail, |items[0]|);
        }
      }
    }
  }

  /** `reduce_order_ids()` applied to a stream of ownTrades payloads. */
  function ReduceOrderIds(payloads: seq<seq<Json>>, end: End): (r: Stream<set<string>>)
  {
    var s := Scan({}, payloads, end);
    Stream(DistinctBySize(s.items, None), s.end)
  }

  /** What subscribers of `reduce_order_ids()` see: snapshots of the scan that only grow
      in size; the first one always; every snapshot that grew; and, last, the final
      snapshot itself, which holds every id of every payload scanned. */
  lemma ReduceOrderIdsSpec(payloads: seq<seq<Json>>, end: End)
    ensures var r := ReduceOrderIds(payloads, end);
            var s := Scan({}, payloads, end);
            && r.end == s.end
            && (forall i :: 0 <= i < |r.items| ==> r.items[i] in s.items)
            && (forall i, j :: 0 <= i < j < |r.items| ==> |r.items[i]| < |r.items[j]|)
            && (forall i :: 0 < i < |s.items| && |s.items[i]| != |s.items[i - 1]| ==> s.items[i] in r.items)
            && (forall i :: 0 <= i < |s.items| ==> KeysOf(payloads[i]) <= s.items[i])
            && (s.items != [] ==>
                  && r.items != [] && r.items[0] == s.items[0]
                  && r.items[|r.items| - 1] == s.items[|s.items| - 1]
                  && forall i :: 0 <= i < |s.items| ==> KeysOf(payloads[i]) <= r.items[|r.items| - 1])
  {
    var s := Scan({}, payloads, end);
    assert ReduceOrderIds(payloads, end) == Stream(DistinctBySize(s.items, None), s.end);
    ScanSpec({}, payloads, end);
    SnapshotsSeen(payloads, s.items);
  }

  /** `ReduceOrderIdsSpec` for any growing snapshots that hold their payloads' ids. */
  lemma SnapshotsSeen(payloads: seq<seq<Json>>, items: seq<set<string>>)
    requires Growing(items) && |items| <= |payloads|
    requires forall i :: 0 <= i < |items| ==> KeysOf(payloads[i]) <= items[i]
    ensures var d := DistinctBySize(items, None);
            && (forall i :: 0 <= i < |d| ==> d[i] in items)
            && (forall i, j :: 0 <= i < j < |d| ==> |d[i]| < |d[j]|)
            && (forall i :: 0 < i < |items| && |items[i]| != |items[i - 1]| ==> items[i] in d)
            && (items != [] ==>
                  && d != [] && d[0] == items[0] && d[|d| - 1] == items[|items| - 1]
                  && forall i :: 0 <= i < |items| ==> KeysOf(payloads[i]) <= d[|d| - 1])
  {
    DistinctOfGrowing(items);
    if items != [] {
      HeldByFinal(payloads, items);
    }
  }

  /** In growing snapshots that each hold their payload's ids, the final one holds them all. */
  lemma HeldByFinal(payloads: seq<seq<Json>>, items: seq<set<string>>)
    requires Growing(items) && items != [] && |items| <= |payloads|
    requires forall i :: 0 <= i < |items| ==> KeysOf(payloads[i]) <= items[i]
    ensures forall i :: 0 <= i < |items| ==> KeysOf(payloads[i]) <= items[|items| - 1]
  {
    forall i | 0 <= i < |items| ensures KeysOf(payloads[i]) <= items[|items| - 1] {
      assert items[i] <= items[|items| - 1];
    }
  }

  /** `distinct_until_changed(len)` on growing snapshots, from the start: the emitted
      snapshots are snapshots of the input, strictly growing, every change of size among
      them, the first and the final snapshot included. */
  lemma DistinctOfGrowing(items: seq<set<string>>)
    requires Growing(items)
    ensures var d := DistinctBySize(items, None);
            && (forall i :: 0 <= i < |d| ==> d[i] in items)
            && (forall i, j :: 0 <= i < j < |d| ==> |d[i]| < |d[j]|)
            && (forall i :: 0 < i < |items| && |items[i]| != |items[i - 1]| ==> items[i] in d)
            && (items != [] ==> d != [] && d[0] == items[0] && d[|d| - 1] == items[|items| - 1])
  {
    DistinctBySizeSpec(items, None);
    DistinctBySizeEmitsChanges(items, None);
    if items != [] {
      LastEmittedIsFinal(items);
    }
  }

  /** On growing snapshots the last one emitted is the final snapshot itself. */
  lemma LastEmittedIsFinal(items: seq<set<string>>)
    requires Growing(items) && items != []
    requires var d := DistinctBySize(items, None);
             d != [] && |d[|d| - 1]| == |items[|items| - 1]|
    ensures var d := DistinctBySize(items, None);
            d != [] && d[|d| - 1] == items[|items| - 1]
  {
    var d := DistinctBySize(items, None);
    var x := d[|d| - 1];
    assert x in d;
    assert x in items;
    var j :| 0 <= j < |items| && items[j] == x;
    SubsetSameSize(x, items[|items| - 1]);
  }
}
