/** The channel-message filter (messages/filters/kind.py): channel frames are lists of
    at least three elements whose second-to-last element names the channel. */
module Kind {
  import opened Json
  import opened Streams

  /** `_is_channel_message(*channels)(x)`. */
  predicate IsChannelMessage(channels: seq<string>, x: Json)
  {
    x.JList? && |x.items| >= 3 && (|channels| > 0 ==> x.items[|x.items| - 2] in Map(channels, n => JStr(n)))
  }

  /** The decision, stated outright: non-lists and short lists are rejected; a list of
      three or more elements is accepted iff no names are given or its second-to-last
      element is one of them. */
  lemma IsChannelMessageSpec(channels: seq<string>, x: Json)
    ensures !x.JList? ==> !IsChannelMessage(channels, x)
    ensures x.JList? && |x.items| < 3 ==> !IsChannelMessage(channels, x)
    ensures x.JList? && |x.items| >= 3 ==>
              (IsChannelMessage(channels, x) <==>
               channels == [] || exists i :: 0 <= i < |channels| && x.items[|x.items| - 2] == JStr(channels[i]))
  {
    if x.JList? && |x.items| >= 3 && channels != [] {
      var names := Map(channels, n => JStr(n));
      if x.items[|x.items| - 2] in names {
        var i :| 0 <= i < |names| && names[i] == x.items[|x.items| - 2];
        assert x.items[|x.items| - 2] == JStr(channels[i]);
      }
      if exists i :: 0 <= i < |channels| && x.items[|x.items| - 2] == JStr(channels[i]) {
        var i :| 0 <= i < |channels| && x.items[|x.items| - 2] == JStr(channels[i]);
        assert names[i] == x.items[|x.items| - 2];
      }
    }
  }

  /** `keep_channel_messages(*channels)`: an order-preserving filter of the frames. */
  function KeepChannelMessages(channels: seq<string>, upstream: Stream<Json>): (r: Stream<Json>)
    ensures r.end == upstream.end
  {
    Stream(Filter(upstream.items, x => IsChannelMessage(channels, x)), upstream.end)
  }

  /** The filter keeps exactly the channel frames, unchanged and in their original order:
      it commutes with splitting the input, and keeps everything when all frames match. */
  lemma KeepChannelMessagesSpec(channels: seq<string>, a: seq<Json>, b: seq<Json>, end: End)
    ensures KeepChannelMessages(channels, Stream(a + b, end)).items
         == KeepChannelMessages(channels, Stream(a, end)).items + KeepChannelMessages(channels, Stream(b, end)).items
    ensures forall x :: x in KeepChannelMessages(channels, Stream(a, end)).items <==> x in a && IsChannelMessage(channels, x)
    ensures (forall i :: 0 <= i < |a| ==> IsChannelMessage(channels, a[i])) ==>
              KeepChannelMessages(channels, Stream(a, end)).items == a
  {
    FilterAppend(a, b, x => IsChannelMessage(channels, x));
    if forall i :: 0 <= i < |a| ==> IsChannelMessage(channels, a[i]) {
      FilterAll(a, x => IsChannelMessage(channels, x));
    }
  }
}
