/** Finite observations of a reactive stream: the items delivered so far and how the
    stream ended. The operators of the client are modelled as functions on them. */
module Streams {
  import opened Json

  /** The exceptions that travel through the client's streams. */
  datatype Error =
    | InvalidSequence          // sequence gap on a private channel
    | Malformed                // a KeyError, IndexError or TypeError raised by a lookup
    | RequestResponseError(message: Json)
    | UnknownResponseType      // the plain Exception raised by _response_ok on a KeyError
    | Timeout
    | NoSocket
    | SocketClosed
    | Upstream(code: int)      // any other error raised by an upstream source

  /** `Live`: nothing terminated the stream within the observed prefix. */
  datatype End = Live | Completed | Errored(error: Error)

  datatype Stream<T> = Stream(items: seq<T>, end: End)

  /** `operators.filter(keep)`: keeps the items satisfying `keep`, in order, and the ending. */
  function Filter<T>(s: seq<T>, keep: T -> bool): (r: seq<T>)
    ensures |r| <= |s|
    ensures forall x :: x in r ==> x in s && keep(x)
    ensures forall x :: x in s && keep(x) ==> x in r
  {
    if s == [] then [] else (if keep(s[0]) then [s[0]] else []) + Filter(s[1..], keep)
  }

  /** `operators.map(f)`. */
  function Map<T, U>(s: seq<T>, f: T -> U): (r: seq<U>)
    ensures |r| == |s|
    ensures forall i :: 0 <= i < |s| ==> r[i] == f(s[i])
  {
    if s == [] then [] else [f(s[0])] + Map(s[1..], f)
  }

  /** Filter distributes over concatenation: the operator is order-preserving. */
  lemma {:induction false} FilterAppend<T>(a: seq<T>, b: seq<T>, keep: T -> bool)
    ensures Filter(a + b, keep) == Filter(a, keep) + Filter(b, keep)
  {
    if a == [] {
      assert a + b == b;
    } else {
      assert (a + b)[1..] == a[1..] + b;
      FilterAppend(a[1..], b, keep);
    }
  }

  /** Filtering with a predicate that holds of every item changes nothing. */
  lemma {:induction false} FilterAll<T>(s: seq<T>, keep: T -> bool)
    requires forall i :: 0 <= i < |s| ==> keep(s[i])
    ensures Filter(s, keep) == s
  {
    if s != [] {
      FilterAll(s[1..], keep);
    }
  }

  /** A filter that keeps nothing empties the stream. */
  lemma {:induction false} FilterNone<T>(s: seq<T>, keep: T -> bool)
    requires forall x :: x in s ==> !keep(x)
    ensures Filter(s, keep) == []
  {
    if s != [] {
      assert s[0] in s;
      FilterNone(s[1..], keep);
    }
  }

  /** Map distributes over concatenation. */
  lemma MapAppend<T, U>(a: seq<T>, b: seq<T>, f: T -> U)
    ensures Map(a + b, f) == Map(a, f) + Map(b, f)
  {
  }
}
