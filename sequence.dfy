/** The sequence guard of the private channels (messages/sequence.py): a private
    frame `[updates, channel, {"sequence": n}]` must carry the successor of its
    predecessor's sequence number, a synthetic sequence-0 frame opens every run,
    and a gap raises `InvalidSequence`, which a recovery wrapper turns into a
    recovery stream followed by a fresh subscription. */
module Sequence {
  import opened Json
  import opened Streams

  /** The synthetic first element `["", "", {"sequence": 0}]` prepended by `start_with`. */
  const Sentinel: Json := JList([JStr(""), JStr(""), JObj(map["sequence" := JInt(0)])])

  /** `message[2]['sequence']`, or None where that lookup raises. */
  function SequenceField(message: Json): Option<Json>
  {
    match Index(message, 2)
    case None => None
    case Some(meta) => Field(meta, "sequence")
  }

  /** The sequence number of a well-formed private frame. */
  function SeqNo(message: Json): Option<int>
  {
    match SequenceField(message)
    case Some(JInt(n)) => Some(n)
    case _ => None
  }

  /** `correct_sequence_or_throw((previous, current))`. */
  function CorrectSequenceOrThrow(previous: Json, current: Json): (r: Result<Json, Error>)
    // an accepted frame is passed on unchanged
    ensures r.Success? ==> r.value == current
  {
    match SequenceField(previous)
    case None => Failure(Malformed)
    case Some(p) =>
      if !p.JInt? then Failure(Malformed)  // `None + 1`, `"3" + 1`, ... raise a TypeError
      else
        var expected := p.n + 1;
        match SequenceField(current)
        case None => Failure(Malformed)
        case Some(actual) =>
          if expected == 1 then Success(current)
          else if actual == JInt(expected) then Success(current)
          else Failure(InvalidSequence)
  }

  /** What `correct_sequence_or_throw` decides. */
  lemma CorrectSequenceSpec(previous: Json, current: Json)
    // the only failures are a gap and a lookup that raises
    ensures CorrectSequenceOrThrow(previous, current).Failure? ==>
              CorrectSequenceOrThrow(previous, current).error in {InvalidSequence, Malformed}
    // after a predecessor with sequence 0 (the sentinel) any well-formed frame is accepted
    ensures SeqNo(previous) == Some(0) && SequenceField(current).Some? ==>
              CorrectSequenceOrThrow(previous, current) == Success(current)
    // otherwise a frame is accepted iff it carries the predecessor's number plus one
    ensures SeqNo(previous).Some? && SeqNo(previous) != Some(0) && SequenceField(current).Some? ==>
              (CorrectSequenceOrThrow(previous, current).Success? <==>
               SequenceField(current) == Some(JInt(SeqNo(previous).value + 1)))
    // a gap is reported only between two well-formed frames
    ensures CorrectSequenceOrThrow(previous, current) == Failure(InvalidSequence) ==>
              SeqNo(previous).Some? && SequenceField(current).Some?
  {
  }

  /** `pairwise()` followed by `map(correct_sequence_or_throw)` over the frames that
      follow `previous`; the first exception ends the stream. */
  function GuardFrom(previous: Json, items: seq<Json>, end: End): Stream<Json>
    decreases |items|
  {
    if items == [] then Stream([], end)
    else
      match CorrectSequenceOrThrow(previous, items[0])
      case Failure(e) => Stream([], Errored(e))
      case Success(m) =>
        var rest := GuardFrom(items[0], items[1..], end);
        Stream([m] + rest.items, rest.end)
  }

  /** `in_sequence()`: `start_with(Sentinel)`, `pairwise()`, `map(correct_sequence_or_throw)`. */
  function InSequence(upstream: Stream<Json>): Stream<Json>
  {
    GuardFrom(Sentinel, upstream.items, upstream.end)
  }

  /** The predecessor `pairwise` pairs with `items[i]`. */
  function PreviousOf(previous: Json, items: seq<Json>, i: nat): Json
    requires i < |items|
  {
    if i == 0 then previous else items[i - 1]
  }

  /** Every one of the first `n` frames is accepted against its predecessor. */
  predicate AcceptedUpTo(previous: Json, items: seq<Json>, n: nat)
    requires n <= |items|
  {
    forall i :: 0 <= i < n ==> CorrectSequenceOrThrow(PreviousOf(previous, items, i), items[i]).Success?
  }

  /** The frames after an accepted first frame are accepted against it. */
  lemma AcceptedTail(previous: Json, items: seq<Json>, n: nat)
    requires 0 < n <= |items| && AcceptedUpTo(previous, items, n)
    ensures CorrectSequenceOrThrow(previous, items[0]).Success?
    ensures AcceptedUpTo(items[0], items[1..], n - 1)
  {
    assert CorrectSequenceOrThrow(PreviousOf(previous, items, 0), items[0]).Success?;
    forall i | 0 <= i < n - 1
      ensures CorrectSequenceOrThrow(PreviousOf(items[0], items[1..], i), items[1..][i]).Success?
    {
      assert PreviousOf(items[0], items[1..], i) == PreviousOf(previous, items, i + 1);
    }
  }

  /** One step of the guard on an accepted frame. */
  lemma GuardStep(previous: Json, items: seq<Json>, end: End)
    requires items != [] && CorrectSequenceOrThrow(previous, items[0]).Success?
    ensures GuardFrom(previous, items, end).items == [items[0]] + GuardFrom(items[0], items[1..], end).items
    ensures GuardFrom(previous, items, end).end == GuardFrom(items[0], items[1..], end).end
  {
  }

  /** Whatever the guard emits is a prefix of its input, unchanged and in order. */
  lemma {:induction false} GuardEmitsPrefix(previous: Json, items: seq<Json>, end: End)
    ensures |GuardFrom(previous, items, end).items| <= |items|
    ensures GuardFrom(previous, items, end).items == items[..|GuardFrom(previous, items, end).items|]
    decreases |items|
  {
    if items != [] && CorrectSequenceOrThrow(previous, items[0]).Success? {
      GuardEmitsPrefix(items[0], items[1..], end);
    }
  }

  /** When every frame is accepted the guard is the identity, and in particular an
      upstream error or completion passes through unchanged. */
  lemma {:induction false} GuardAllAccepted(previous: Json, items: seq<Json>, end: End)
    requires AcceptedUpTo(previous, items, |items|)
    ensures GuardFrom(previous, items, end) == Stream(items, end)
    decreases |items|
  {
    if items != [] {
      AcceptedTail(previous, items, |items|);
      GuardAllAccepted(items[0], items[1..], end);
    }
  }

  /** On the first rejected frame the guard has emitted exactly the frames before it
      and ends with that frame's error; the offending frame is not emitted. */
  lemma {:induction false} GuardStopsAtFirstRejection(previous: Json, items: seq<Json>, end: End, k: nat)
    requires k < |items| && AcceptedUpTo(previous, items, k)
    requires CorrectSequenceOrThrow(PreviousOf(previous, items, k), items[k]).Failure?
    ensures GuardFrom(previous, items, end)
         == Stream(items[..k], Errored(CorrectSequenceOrThrow(PreviousOf(previous, items, k), items[k]).error))
    decreases k
  {
    if k == 0 {
      assert items[..0] == [];
    } else {
      var tail := items[1..];
      AcceptedTail(previous, items, k);
      assert PreviousOf(items[0], tail, k - 1) == PreviousOf(previous, items, k);
      GuardStopsAtFirstRejection(items[0], tail, end, k - 1);
      GuardStep(previous, items, end);
      assert [items[0]] + tail[..k - 1] == items[..k];
    }
  }

  /** Frames numbered start, start + 1, ... (any start: the first frame follows the
      sentinel) pass the guard unchanged, whatever the upstream's ending. */
  lemma ConsecutiveFramesPass(items: seq<Json>, start: int, end: End)
    requires forall i :: 0 <= i < |items| ==> SeqNo(items[i]) == Some(start + i)
    ensures InSequence(Stream(items, end)) == Stream(items, end)
  {
    forall i | 0 <= i < |items|
      ensures CorrectSequenceOrThrow(PreviousOf(Sentinel, items, i), items[i]).Success?
    {
      if i > 0 {
        assert SeqNo(items[i - 1]) == Some(start + i - 1);
      }
      CorrectSequenceSpec(PreviousOf(Sentinel, items, i), items[i]);
    }
    GuardAllAccepted(Sentinel, items, end);
  }

  /** A gap after a consecutive run: the run is emitted and `InvalidSequence` ends the
      stream before the offending frame. */
  lemma GapAfterConsecutiveRun(items: seq<Json>, start: int, k: nat, end: End)
    requires 0 < k < |items|
    requires forall i :: 0 <= i < k ==> SeqNo(items[i]) == Some(start + i)
    requires start + k - 1 != 0
    requires SeqNo(items[k]).Some? && SeqNo(items[k]) != Some(start + k)
    ensures InSequence(Stream(items, end)) == Stream(items[..k], Errored(InvalidSequence))
  {
    forall i | 0 <= i < k
      ensures CorrectSequenceOrThrow(PreviousOf(Sentinel, items, i), items[i]).Success?
    {
      if i > 0 {
        assert SeqNo(items[i - 1]) == Some(start + i - 1);
      }
      CorrectSequenceSpec(PreviousOf(Sentinel, items, i), items[i]);
    }
    assert SeqNo(items[k - 1]) == Some(start + k - 1);
    CorrectSequenceSpec(items[k - 1], items[k]);
    GuardStopsAtFirstRejection(Sentinel, items, end, k);
  }

  /** `repeat_on_invalid_sequence(recovery)`: `catch` replaces an `InvalidSequence`
      ending (compared by exact type) with the recovery stream, any other error is
      re-raised, and `repeat()` subscribes to the source again whenever the result
      completes. `runs` are the successive subscriptions to the source; `recovery` is
      one fixed stream, the same after every gap. */
  function RepeatOnInvalidSequence<T>(runs: seq<Stream<T>>, recovery: Stream<T>): Stream<T>
    decreases |runs|
  {
    if runs == [] then Stream([], Live)
    else
      var run := runs[0];
      match run.end
      case Live => run
      case Completed =>
        var rest := RepeatOnInvalidSequence(runs[1..], recovery);
        Stream(run.items + rest.items, rest.end)
      case Errored(e) =>
        if e != InvalidSequence then run
        else
          match recovery.end
          case Completed =>
            var rest := RepeatOnInvalidSequence(runs[1..], recovery);
            Stream(run.items + recovery.items + rest.items, rest.end)
          case _ => Stream(run.items + recovery.items, recovery.end)
  }

  /** A run after which `repeat` subscribes again (given a recovery that completes):
      one that completed, or one that a gap ended. */
  predicate Continues<T>(run: Stream<T>)
  {
    run.end == Completed || run.end == Errored(InvalidSequence)
  }

  /** The output of runs that each continue: a run ended by a gap is followed by the
      recovery's items. */
  function Recovered<T>(runs: seq<Stream<T>>, recovery: Stream<T>): seq<T>
  {
    if runs == [] then [] else RunOutput(runs[0], recovery) + Recovered(runs[1..], recovery)
  }

  /** One run's items, followed by the recovery's after a gap. */
  function RunOutput<T>(run: Stream<T>, recovery: Stream<T>): seq<T>
  {
    run.items + (if run.end == Errored(InvalidSequence) then recovery.items else [])
  }

  /** `repeat` after a run that continues. */
  lemma RepeatStep<T>(runs: seq<Stream<T>>, recovery: Stream<T>)
    requires runs != [] && recovery.end == Completed && Continues(runs[0])
    ensures RepeatOnInvalidSequence(runs, recovery)
         == Stream(RunOutput(runs[0], recovery) + RepeatOnInvalidSequence(runs[1..], recovery).items,
                   RepeatOnInvalidSequence(runs[1..], recovery).end)
  {
  }

  lemma RecoveredStep<T>(runs: seq<Stream<T>>, recovery: Stream<T>, k: nat)
    requires 0 < k <= |runs|
    ensures Recovered(runs[..k], recovery) == RunOutput(runs[0], recovery) + Recovered(runs[1..][..k - 1], recovery)
  {
    assert runs[1..][..k - 1] == runs[..k][1..];
    assert runs[..k][0] == runs[0];
  }

  /** run1 ++ [recovery] ++ run2 ++ [recovery] ++ ... : while the runs complete or end
      in a gap (each gap followed by a completing recovery), the output is their
      concatenation and the stream stays open; the first run that ends otherwise, with
      another error or not at all, ends the output the same way. */
  lemma {:induction false} RepeatConcatenatesRuns<T>(runs: seq<Stream<T>>, recovery: Stream<T>, k: nat)
    requires k <= |runs| && recovery.end == Completed
    requires forall i :: 0 <= i < k ==> Continues(runs[i])
    requires k < |runs| ==> !Continues(runs[k])
    ensures k < |runs| ==>
              RepeatOnInvalidSequence(runs, recovery) == Stream(Recovered(runs[..k], recovery) + runs[k].items, runs[k].end)
    ensures k == |runs| ==> RepeatOnInvalidSequence(runs, recovery) == Stream(Recovered(runs, recovery), Live)
    decreases k
  {
    if k == 0 {
      assert Recovered(runs[..0], recovery) == [];
    } else {
      RepeatStep(runs, recovery);
      RecoveredStep(runs, recovery, k);
      RepeatConcatenatesRuns(runs[1..], recovery, k - 1);
      if k == |runs| {
        assert runs[..k] == runs;
      } else {
        var head := RunOutput(runs[0], recovery);
        var mid := Recovered(runs[1..][..k - 1], recovery);
        assert head + (mid + runs[k].items) == (head + mid) + runs[k].items;
      }
    }
  }

  /** How many times the source is subscribed: `repeat` subscribes again after every
      run that continues, as long as the recovery after a gap completes. */
  function SubscribedRuns<T>(runs: seq<Stream<T>>, recovery: Stream<T>): (n: nat)
    ensures n <= |runs| && (runs != [] ==> n >= 1)
  {
    if runs == [] then 0
    else if runs[0].end == Completed || (runs[0].end == Errored(InvalidSequence) && recovery.end == Completed) then
      1 + SubscribedRuns(runs[1..], recovery)
    else 1
  }

  /** With a completing recovery, the runs subscribed are those that continue and the
      first one that does not; every subscribed run but the last continues. */
  lemma {:induction false} SubscribedRunsSpec<T>(runs: seq<Stream<T>>, recovery: Stream<T>, k: nat)
    requires k <= |runs| && recovery.end == Completed
    requires forall i :: 0 <= i < k ==> Continues(runs[i])
    requires k < |runs| ==> !Continues(runs[k])
    ensures SubscribedRuns(runs, recovery) == if k < |runs| then k + 1 else k
    decreases k
  {
    if k > 0 {
      SubscribedRunsSpec(runs[1..], recovery, k - 1);
    }
  }

  /** Every run restarts from a fresh baseline: the first frame of a re-subscription is
      accepted whatever its sequence number. */
  lemma FreshBaseline(upstream: Stream<Json>)
    requires |upstream.items| > 0 && SequenceField(upstream.items[0]).Some?
    ensures |InSequence(upstream).items| > 0 && InSequence(upstream).items[0] == upstream.items[0]
  {
    assert SeqNo(Sentinel) == Some(0);
    CorrectSequenceSpec(Sentinel, upstream.items[0]);
  }
}
