/** The reconnect-with-backoff operator (connection/reconnect.py): a loop that draws
    the next delay from the current iterator of the delay pattern, disposes the
    previous stability watch, waits, starts a new stability watch, subscribes to the
    source with its errors swallowed, and stops only once the source completes. When
    a stability watch completes, the iterator is replaced by a fresh one.

    Timers are discrete events here: `DelayElapsed` is the end of the wait,
    `Stabilized` the completion of the live stability watch. */
module Reconnect {

  /** `kraken_patterns()`: the n-th delay (in seconds) of a fresh iterator. */
  function KrakenPatterns(n: nat): real
  {
    if n < 2 then 0.0 else if n == 2 then 1.0 else 5.0
  }

  /** Where the `while not is_completed` loop stands. */
  datatype Phase =
    | Waiting   // a delay was drawn and its timer runs
    | Active    // subscribed to the source
    | Done      // the source completed; the loop has ended

  datatype Event<T> =
    | DelayElapsed
    | SourceNext(item: T)
    | SourceError
    | SourceCompleted
    | Stabilized

  /** `pos`: how many delays the current iterator has yielded; `delays`: every delay
      drawn so far; `attempts`: subscriptions to the source; `output`: what the
      subscriber has seen. */
  datatype State<T> = State(pos: nat, phase: Phase, watchLive: bool, delays: seq<real>, attempts: nat, output: seq<T>)

  /** Subscribing: the first iteration draws `pattern(0)` at once; the initial
      placeholder watch is disposed, so no watch is live. */
  function Start<T>(pattern: nat -> real): State<T>
  {
    State(1, Waiting, false, [pattern(0)], 0, [])
  }

  /** One event. An event that cannot happen in the current phase leaves the state alone. */
  function Step<T>(pattern: nat -> real, s: State<T>, e: Event<T>): State<T>
  {
    match e
    case DelayElapsed =>
      if s.phase == Waiting then s.(phase := Active, watchLive := true, attempts := s.attempts + 1) else s
    case SourceNext(x) =>
      if s.phase == Active then s.(output := s.output + [x]) else s
    case SourceError =>
      // caught into `empty`: the loop goes round, draws the next delay, disposes the watch
      if s.phase == Active then s.(phase := Waiting, pos := s.pos + 1, delays := s.delays + [pattern(s.pos)], watchLive := false)
      else s
    case SourceCompleted =>
      // `is_completed` ends the loop; the stability watch is not disposed
      if s.phase == Active then s.(phase := Done) else s
    case Stabilized =>
      // `reset_delay`: a fresh iterator
      if s.watchLive then s.(pos := 0, watchLive := false) else s
  }

  /** The `n` values a fresh iterator yields after its first `from`. */
  function Draws(pattern: nat -> real, from: nat, n: nat): (r: seq<real>)
    ensures |r| == n && forall i :: 0 <= i < n ==> r[i] == pattern(from + i)
  {
    seq(n, i requires 0 <= i < n => pattern(from + i))
  }

  function Run<T>(pattern: nat -> real, s: State<T>, events: seq<Event<T>>): State<T>
    decreases |events|
  {
    if events == [] then s else Run(pattern, Step(pattern, s, events[0]), events[1..])
  }

  /** Each attempt drew exactly one delay before subscribing, no watch runs while a
      delay is pending, and the iterator never yielded more than was drawn. */
  ghost predicate Inv<T>(s: State<T>)
  {
    && |s.delays| == s.attempts + (if s.phase == Waiting then 1 else 0)
    && (s.phase == Waiting ==> !s.watchLive)
    && s.pos <= |s.delays|
  }

  lemma {:induction false} RunKeepsInv<T>(pattern: nat -> real, s: State<T>, events: seq<Event<T>>)
    requires Inv(s)
    ensures Inv(Run(pattern, s, events))
    decreases |events|
  {
    if events != [] {
      RunKeepsInv(pattern, Step(pattern, s, events[0]), events[1..]);
    }
  }

  lemma StartInv<T>(pattern: nat -> real)
    ensures Inv(Start<T>(pattern))
    ensures Start<T>(pattern).delays == [pattern(0)]
  {
  }

  /** Between two resets, the delays drawn are the pattern's values in order: the
      iterator continues from where it stood. */
  lemma {:induction false} DelaysFollowPattern<T>(pattern: nat -> real, s: State<T>, events: seq<Event<T>>)
    requires forall i :: 0 <= i < |events| ==> !events[i].Stabilized?
    ensures Run(pattern, s, events).pos >= s.pos
    ensures Run(pattern, s, events).delays
         == s.delays + Draws(pattern, s.pos, Run(pattern, s, events).pos - s.pos)
    decreases |events|
  {
    if events != [] {
      var t := Step(pattern, s, events[0]);
      DelaysFollowPattern(pattern, t, events[1..]);
      var r := Run(pattern, t, events[1..]);
      if t.pos == s.pos + 1 {
        assert t.delays == s.delays + [pattern(s.pos)];
        assert Draws(pattern, s.pos, r.pos - s.pos) == [pattern(s.pos)] + Draws(pattern, t.pos, r.pos - t.pos);
      } else {
        assert t.delays == s.delays && t.pos == s.pos;
      }
    }
  }

  /** Repeated failures without stabilization: attempt n waits `pattern(n)`. */
  function Failures<T>(n: nat): seq<Event<T>>
  {
    if n == 0 then [] else Failures(n - 1) + [DelayElapsed, SourceError]
  }

  lemma {:induction false} FailuresNeverStabilize<T>(n: nat)
    ensures forall i :: 0 <= i < |Failures<T>(n)| ==> !Failures<T>(n)[i].Stabilized?
  {
    if n > 0 {
      FailuresNeverStabilize<T>(n - 1);
    }
  }

  lemma {:induction false} RunAppend<T>(pattern: nat -> real, s: State<T>, a: seq<Event<T>>, b: seq<Event<T>>)
    ensures Run(pattern, s, a + b) == Run(pattern, Run(pattern, s, a), b)
    decreases |a|
  {
    if a == [] {
      assert a + b == b;
    } else {
      assert (a + b)[1..] == a[1..] + b;
      RunAppend(pattern, Step(pattern, s, a[0]), a[1..], b);
    }
  }

  lemma {:induction false} FailuresDrawPattern<T>(pattern: nat -> real, n: nat)
    ensures Run(pattern, Start<T>(pattern), Failures(n)).delays == Draws(pattern, 0, n + 1)
    ensures Run(pattern, Start<T>(pattern), Failures(n)).phase == Waiting
    ensures Run(pattern, Start<T>(pattern), Failures(n)).attempts == n
  {
    if n == 0 {
      assert Start<T>(pattern).delays == Draws(pattern, 0, 1);
    } else {
      FailuresDrawPattern<T>(pattern, n - 1);
      var s := Run(pattern, Start<T>(pattern), Failures(n - 1));
      RunAppend(pattern, Start<T>(pattern), Failures(n - 1), [DelayElapsed, SourceError]);
      RunKeepsInv(pattern, Start<T>(pattern), Failures(n - 1));
      assert s.pos == n by {
        FailuresNeverStabilize<T>(n - 1);
        DelaysFollowPattern(pattern, Start<T>(pattern), Failures(n - 1));
        assert |s.delays| == 1 + (s.pos - 1);
      }
      assert Draws(pattern, 0, n + 1) == Draws(pattern, 0, n) + [pattern(n)];
    }
  }

  /** With Kraken's pattern and no stabilization, failures wait 0, 0, 1, 5, 5, ... */
  lemma {:induction false} KrakenBackoff<T>(n: nat)
    ensures var d := Run(KrakenPatterns, Start<T>(KrakenPatterns), Failures(n)).delays;
            |d| == n + 1 && forall i :: 0 <= i <= n ==> d[i] == (if i < 2 then 0.0 else if i == 2 then 1.0 else 5.0)
  {
    FailuresDrawPattern<T>(KrakenPatterns, n);
  }

  /** A completed stability watch makes the next failure wait `pattern(0)` again,
      then `pattern(1)`, ... */
  lemma {:induction false} StabilizedRestartsPattern<T>(pattern: nat -> real, s: State<T>, events: seq<Event<T>>)
    requires s.watchLive
    requires forall i :: 0 <= i < |events| ==> !events[i].Stabilized?
    ensures var r := Run(pattern, Step(pattern, s, Stabilized), events);
            r.delays == s.delays + Draws(pattern, 0, r.pos)
  {
    var t := Step(pattern, s, Stabilized);
    assert t.pos == 0 && t.delays == s.delays;
    DelaysFollowPattern(pattern, t, events);
  }

  /** Errors never end the loop: it ends only on a completion of the source. */
  lemma {:induction false} OnlyCompletionEnds<T>(pattern: nat -> real, s: State<T>, events: seq<Event<T>>)
    requires s.phase != Done
    requires forall i :: 0 <= i < |events| ==> !events[i].SourceCompleted?
    ensures Run(pattern, s, events).phase != Done
    decreases |events|
  {
    if events != [] {
      OnlyCompletionEnds(pattern, Step(pattern, s, events[0]), events[1..]);
    }
  }

  /** After completion there are no more delays, attempts or items. */
  lemma {:induction false} DoneIsFinal<T>(pattern: nat -> real, s: State<T>, events: seq<Event<T>>)
    requires s.phase == Done
    ensures var r := Run(pattern, s, events);
            r.phase == Done && r.delays == s.delays && r.attempts == s.attempts && r.output == s.output
    decreases |events|
  {
    if events != [] {
      DoneIsFinal(pattern, Step(pattern, s, events[0]), events[1..]);
    }
  }

  /** The operator's state as the source keeps it: nonlocal flags and the mutable
      cells `delays[0]` and `current_stable_subscription[0]`. */
  class Backoff<T> {
    const pattern: nat -> real
    var pos: nat
    var phase: Phase
    var watchLive: bool
    var delays: seq<real>
    var attempts: nat
    var output: seq<T>

    function Current(): State<T>
      reads this
    {
      State(pos, phase, watchLive, delays, attempts, output)
    }

    constructor (pattern: nat -> real)
      ensures this.pattern == pattern
      ensures Current() == Start(pattern)
    {
      this.pattern := pattern;
      pos := 1;
      phase := Waiting;
      watchLive := false;
      delays := [pattern(0)];
      attempts := 0;
      output := [];
    }

    method OnDelayElapsed()
      modifies this
      ensures Current() == Step(pattern, old(Current()), DelayElapsed)
    {
      if phase == Waiting {
        watchLive := true;   // a new stability watch
        phase := Active;     // subscribe to the source
        attempts := attempts + 1;
      }
    }

    method OnSourceNext(x: T)
      modifies this
      ensures Current() == Step(pattern, old(Current()), SourceNext(x))
    {
      if phase == Active {
        output := output + [x];
      }
    }

    method OnSourceError()
      modifies this
      ensures Current() == Step(pattern, old(Current()), SourceError)
    {
      if phase == Active {
        var delayBy := pattern(pos);   // next(delays[0])
        pos := pos + 1;
        watchLive := false;            // current_stable_subscription[0].dispose()
        delays := delays + [delayBy];
        phase := Waiting;
      }
    }

    method OnSourceCompleted()
      modifies this
      ensures Current() == Step(pattern, old(Current()), SourceCompleted)
    {
      if phase == Active {
        phase := Done;
      }
    }

    method OnStabilized()
      modifies this
      ensures Current() == Step(pattern, old(Current()), Stabilized)
    {
      if watchLive {
        pos := 0;   // delays[0] = delays_pattern()
        watchLive := false;
      }
    }
  }
}
