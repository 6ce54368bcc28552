/** Channel subscription (channels/subscribe.py): the subscribe and unsubscribe frames
    of a channel, sent through a socket when a subscription starts and when it is
    disposed; the per-socket message pipeline; and the switch to a new pipeline (and a
    new subscription) whenever a new socket arrives. */
module Subscribe {
  import opened Json
  import opened Streams
  import opened Websocket
  import Kind
  import Sequence

  /** The private channels, which carry sequence numbers. */
  predicate IsPrivateChannel(channel: string)
  {
    channel == "ownTrades" || channel == "openOrders"
  }

  /** The inner subscription object: `{"name": channel}` updated with the extra
      arguments, which override earlier keys, `name` included. */
  function SubscriptionObject(channel: string, kwargs: map<string, Json>): map<string, Json>
  {
    map["name" := JStr(channel)] + kwargs
  }

  /** The top level of a frame without its subscription object; `pair` is only
      present for a non-empty pair. */
  function FrameTop(event: string, pair: string): map<string, Json>
  {
    map["event" := JStr(event)] + (if pair != "" then map["pair" := JList([JStr(pair)])] else map[])
  }

  function SubscribeFrame(channel: string, pair: string, kwargs: map<string, Json>): map<string, Json>
  {
    FrameTop("subscribe", pair)["subscription" := JObj(SubscriptionObject(channel, kwargs))]
  }

  /** The shallow copy with `event` replaced. */
  function UnsubscribeFrame(channel: string, pair: string, kwargs: map<string, Json>): map<string, Json>
  {
    FrameTop("unsubscribe", pair)["subscription" := JObj(SubscriptionObject(channel, kwargs))]
  }

  /** What the two frames contain. */
  lemma FramesSpec(channel: string, pair: string, kwargs: map<string, Json>)
    ensures var f := SubscribeFrame(channel, pair, kwargs);
            && f.Keys == {"event", "subscription"} + (if pair != "" then {"pair"} else {})
            && f["event"] == JStr("subscribe")
            && (pair != "" ==> f["pair"] == JList([JStr(pair)]))
            && f["subscription"].JObj?
            && f["subscription"].fields.Keys == {"name"} + kwargs.Keys
            && f["subscription"].fields["name"] == (if "name" in kwargs then kwargs["name"] else JStr(channel))
            && (forall k :: k in kwargs ==> f["subscription"].fields[k] == kwargs[k])
    // the unsubscribe frame differs from the subscribe frame in its event only
    ensures UnsubscribeFrame(channel, pair, kwargs) == SubscribeFrame(channel, pair, kwargs)["event" := JStr("unsubscribe")]
  {
    var top := FrameTop("subscribe", pair);
    assert top.Keys == {"event"} + (if pair != "" then {"pair"} else {});
    assert FrameTop("unsubscribe", pair) == top["event" := JStr("unsubscribe")];
  }

  /** The frame as it leaves through `socket`: with the socket's token, if private. */
  function Sent(socket: EnhancedWebsocket, frame: map<string, Json>): Json
  {
    match WithToken(frame, socket.token)
    case Success(f) => JObj(f)
    case Failure(_) => JObj(frame)
  }

  /** Through a private socket the token travels inside the subscription object of both
      frames, and the unsubscribe frame is still the subscribe frame with another event. */
  lemma SentFramesSpec(socket: EnhancedWebsocket, channel: string, pair: string, kwargs: map<string, Json>)
    ensures var s := Sent(socket, SubscribeFrame(channel, pair, kwargs));
            && s.JObj?
            && Sent(socket, UnsubscribeFrame(channel, pair, kwargs)) == JObj(s.fields["event" := JStr("unsubscribe")])
            && s.fields.Keys == SubscribeFrame(channel, pair, kwargs).Keys
            && (socket.IsPrivate() ==> Field(s.fields["subscription"], "token") == Some(JStr(socket.token)))
            && (!socket.IsPrivate() ==> s == JObj(SubscribeFrame(channel, pair, kwargs)))
  {
    FramesSpec(channel, pair, kwargs);
    WithTokenSpec(SubscribeFrame(channel, pair, kwargs), socket.token);
    var sub := SubscriptionObject(channel, kwargs);
    if socket.IsPrivate() {
      var t := sub["token" := JStr(socket.token)];
      assert UnsubscribeFrame(channel, pair, kwargs)["subscription" := JObj(t)]
          == SubscribeFrame(channel, pair, kwargs)["subscription" := JObj(t)]["event" := JStr("unsubscribe")];
    }
  }

  /** `channel_subscription(socket, channel, pair, subscription_kwargs)`: the two frames
      built once, sharing one subscription dict (the unsubscribe frame is a shallow copy). */
  class ChannelSubscription {
    const socket: EnhancedWebsocket
    const channel: string
    const pair: string
    const kwargs: map<string, Json>
    const subscription: Dict
    const subscribeMessage: Payload
    const unsubscribeMessage: Payload

    /** Both frames hold the same subscription dict, which holds the inner object and,
        once a private socket has sent either frame, the token. */
    ghost predicate Valid()
      reads this, subscription, subscribeMessage, unsubscribeMessage
    {
      && subscribeMessage.subscription == subscription
      && unsubscribeMessage.subscription == subscription
      && subscribeMessage != unsubscribeMessage
      && subscribeMessage.top == FrameTop("subscribe", pair)
      && unsubscribeMessage.top == FrameTop("unsubscribe", pair)
      && (subscription.fields == SubscriptionObject(channel, kwargs)
          || (socket.IsPrivate() && subscription.fields == SubscriptionObject(channel, kwargs)["token" := JStr(socket.token)]))
    }

    constructor (socket: EnhancedWebsocket, channel: string, pair: string, kwargs: map<string, Json>)
      ensures this.socket == socket && this.channel == channel && this.pair == pair && this.kwargs == kwargs
      ensures fresh(subscription) && fresh(subscribeMessage) && fresh(unsubscribeMessage)
      ensures Valid()
      ensures subscribeMessage.Contents() == SubscribeFrame(channel, pair, kwargs)
      ensures unsubscribeMessage.Contents() == UnsubscribeFrame(channel, pair, kwargs)
    {
      this.socket := socket;
      this.channel := channel;
      this.pair := pair;
      this.kwargs := kwargs;
      var inner := new Dict(SubscriptionObject(channel, kwargs));
      this.subscription := inner;
      this.subscribeMessage := new Payload(FrameTop("subscribe", pair), inner);
      this.unsubscribeMessage := new Payload(FrameTop("unsubscribe", pair), inner);
    }

    /** Sending one of the frames: whatever was sent before, the frame leaves with the
        socket's token exactly where the first send put it. A private socket writes
        its token into the shared subscription dict; a public one leaves it alone. */
    method SendFrame(message: Payload, event: string)
      requires Valid()
      requires message == subscribeMessage || message == unsubscribeMessage
      requires message.top == FrameTop(event, pair)
      modifies socket, message, subscription
      ensures Valid()
      ensures subscription.fields == if socket.IsPrivate() then old(subscription.fields)["token" := JStr(socket.token)]
                                     else old(subscription.fields)
      ensures socket.sent == old(socket.sent) + [Sent(socket, FrameTop(event, pair)["subscription" := JObj(SubscriptionObject(channel, kwargs))])]
    {
      var sub := SubscriptionObject(channel, kwargs);
      var frame := FrameTop(event, pair)["subscription" := JObj(sub)];
      assert "subscription" !in FrameTop(event, pair);
      ghost var before := message.Contents();
      ghost var f0 := subscription.fields;
      assert before["subscription"] == JObj(f0);
      if f0 != sub {
        assert before == WithToken(frame, socket.token).value;
        WithTokenIdempotent(frame, socket.token);
      }
      var r := socket.SendJson(message);
      assert r.Success?;
      assert message.Contents()["subscription"] == JObj(subscription.fields);
      if socket.IsPrivate() {
        assert WithToken(before, socket.token).value["subscription"] == JObj(f0["token" := JStr(socket.token)]);
        assert sub["token" := JStr(socket.token)]["token" := JStr(socket.token)] == sub["token" := JStr(socket.token)];
      }
    }

    /** The subscribe function of the operator: `on_enter()` sends the subscribe frame,
        then the upstream is subscribed; the returned composite disposable sends the
        unsubscribe frame when disposed. */
    method Subscribe() returns (h: Handle)
      requires Valid()
      modifies socket, subscribeMessage, subscription
      ensures Valid()
      ensures socket.sent == old(socket.sent) + [Sent(socket, SubscribeFrame(channel, pair, kwargs))]
      ensures fresh(h) && h.owner == this && !h.disposed
    {
      SendFrame(subscribeMessage, "subscribe");
      h := new Handle(this);
    }
  }

  /** The CompositeDisposable of one subscription: the upstream subscription and the
      `on_exit` action. Disposing it is idempotent. */
  class Handle {
    const owner: ChannelSubscription
    var disposed: bool

    constructor (owner: ChannelSubscription)
      ensures this.owner == owner && !disposed
    {
      this.owner := owner;
      disposed := false;
    }

    /** Sends the unsubscribe frame the first time only. */
    method Dispose()
      requires owner.Valid()
      modifies this, owner.socket, owner.unsubscribeMessage, owner.subscription
      ensures owner.Valid() && disposed
      ensures old(disposed) ==> owner.socket.sent == old(owner.socket.sent)
      ensures !old(disposed) ==> owner.socket.sent
                                 == old(owner.socket.sent) + [Sent(owner.socket, UnsubscribeFrame(owner.channel, owner.pair, owner.kwargs))]
    {
      if !disposed {
        disposed := true;
        owner.SendFrame(owner.unsubscribeMessage, "unsubscribe");
      }
    }
  }

  /** The objects a live per-socket subscription may change when it is disposed. */
  ghost function Footprint(h: Handle?): set<object>
    reads h
  {
    if h == null then {} else {h, h.owner.socket, h.owner.unsubscribeMessage, h.owner.subscription}
  }

  /** `subscribe_to_channel(messages, channel, pair, subscription_kwargs)` over the
      socket stream: `map(socket_to_channel_messages)` then `switch_latest()`, which
      disposes the previous per-socket subscription before subscribing the new one. */
  class ChannelSubscriber {
    const channel: string
    const pair: string
    const kwargs: map<string, Json>
    var current: Handle?

    constructor (channel: string, pair: string, kwargs: map<string, Json>)
      ensures this.channel == channel && this.pair == pair && this.kwargs == kwargs && current == null
    {
      this.channel := channel;
      this.pair := pair;
      this.kwargs := kwargs;
      current := null;
    }

    ghost predicate Valid()
      reads this, current, Footprint(current)
      reads if current == null then {} else {current.owner, current.owner.subscribeMessage}
    {
      current != null ==>
        && current.owner.Valid()
        && current.owner.channel == channel && current.owner.pair == pair && current.owner.kwargs == kwargs
    }

    /** A new socket: the previous subscription is disposed (its unsubscribe frame goes to
        the old socket, unless it was disposed already), then the subscribe frame of a
        fresh subscription goes to the new one. */
    method OnSocket(socket: EnhancedWebsocket)
      requires Valid()
      modifies this, socket, Footprint(current)
      ensures Valid() && current != null && fresh(current) && current.owner.socket == socket
      ensures old(current) != null ==> old(current).disposed
      ensures var sub := Sent(socket, SubscribeFrame(channel, pair, kwargs));
              if old(current == null || current.disposed) || old(current).owner.socket != socket
              then socket.sent == old(socket.sent) + [sub]
              else socket.sent == old(socket.sent) + [Sent(socket, UnsubscribeFrame(channel, pair, kwargs)), sub]
      ensures old(current != null && !current.disposed) && old(current).owner.socket != socket ==>
                var o := old(current).owner;
                o.socket.sent == old(o.socket.sent) + [Sent(o.socket, UnsubscribeFrame(o.channel, o.pair, o.kwargs))]
    {
      if current != null {
        current.Dispose();
      }
      var subscription := new ChannelSubscription(socket, channel, pair, kwargs);
      current := subscription.Subscribe();
    }
  }

  /** The messages of one socket's pipeline: the channel filter (with the pair passed
      as a second accepted name), and, for a private channel only, the sequence guard
      with gap recovery. `runs` are the successive subscriptions to the shared message
      stream; a public pipeline subscribes once. */
  function ChannelMessages(channel: string, pair: string, runs: seq<Stream<Json>>, recovery: Stream<Json>): Stream<Json>
  {
    if IsPrivateChannel(channel) then
      Sequence.RepeatOnInvalidSequence(GuardedRuns(channel, pair, runs), recovery)
    else if runs == [] then Stream([], Live)
    else Kind.KeepChannelMessages([channel, pair], runs[0])
  }

  /** Each run of a private pipeline, filtered to the channel and sequence-checked. */
  function GuardedRuns(channel: string, pair: string, runs: seq<Stream<Json>>): (r: seq<Stream<Json>>)
    ensures |r| == |runs|
  {
    if runs == [] then [] else [Guarded(channel, pair, runs[0])] + GuardedRuns(channel, pair, runs[1..])
  }

  function Guarded(channel: string, pair: string, run: Stream<Json>): Stream<Json>
  {
    Sequence.InSequence(Kind.KeepChannelMessages([channel, pair], run))
  }

  /** The frames sent over `n` subscriptions of a pipeline: each subscription sends
      the subscribe frame (`on_enter`); each one but the last was disposed when its run
      ended, which sends the unsubscribe frame (`on_exit`), and so was the last one
      when `lastEnded`. */
  function PipelineFrames(n: nat, lastEnded: bool, subscribe: Json, unsubscribe: Json): seq<Json>
  {
    if n == 0 then []
    else [subscribe] + (if n > 1 || lastEnded then [unsubscribe] else []) + PipelineFrames(n - 1, lastEnded, subscribe, unsubscribe)
  }

  /** Subscribe and unsubscribe frames alternate, starting with a subscribe frame, one
      subscribe frame per subscription. */
  lemma {:induction false} PipelineFramesAlternate(n: nat, lastEnded: bool, subscribe: Json, unsubscribe: Json)
    ensures var f := PipelineFrames(n, lastEnded, subscribe, unsubscribe);
            && |f| == (if n == 0 then 0 else if lastEnded then 2 * n else 2 * n - 1)
            && forall i :: 0 <= i < |f| ==> f[i] == if i % 2 == 0 then subscribe else unsubscribe
  {
    if n > 0 {
      PipelineFramesAlternate(n - 1, lastEnded, subscribe, unsubscribe);
      var f := PipelineFrames(n, lastEnded, subscribe, unsubscribe);
      var rest := PipelineFrames(n - 1, lastEnded, subscribe, unsubscribe);
      if n > 1 || lastEnded {
        assert f == [subscribe, unsubscribe] + rest;
        forall i | 2 <= i < |f| ensures f[i] == rest[i - 2] && (i % 2 == (i - 2) % 2) { }
      } else {
        assert f == [subscribe];
      }
    }
  }

  /** The frames a pipeline sends over the runs of the message stream it is subscribed
      to, `subscribe` and `unsubscribe` being its two frames. On a private channel a
      run ends at a gap (or when it completes), the subscription is disposed, and
      `repeat` subscribes the whole pipeline again, `channel_subscription` included. A
      public pipeline is subscribed once. After a last observed run that ends in a gap,
      `repeat` has already subscribed again and sent one more subscribe frame; these
      frames stop before it. */
  function FramesOverRuns(channel: string, pair: string, runs: seq<Stream<Json>>, recovery: Stream<Json>,
                          subscribe: Json, unsubscribe: Json): seq<Json>
  {
    if IsPrivateChannel(channel) then
      var guarded := GuardedRuns(channel, pair, runs);
      var n := Sequence.SubscribedRuns(guarded, recovery);
      PipelineFrames(n, n > 0 && guarded[n - 1].end != Live, subscribe, unsubscribe)
    else if runs == [] then []
    else PipelineFrames(1, runs[0].end != Live, subscribe, unsubscribe)
  }

  /** The frames one socket's pipeline sends through that socket. */
  function ChannelFrames(socket: EnhancedWebsocket, channel: string, pair: string, kwargs: map<string, Json>,
                         runs: seq<Stream<Json>>, recovery: Stream<Json>): seq<Json>
  {
    FramesOverRuns(channel, pair, runs, recovery,
                   Sent(socket, SubscribeFrame(channel, pair, kwargs)), Sent(socket, UnsubscribeFrame(channel, pair, kwargs)))
  }

  /** The count behind `PrivateChannelResubscribes`, for any two frames. */
  lemma ResubscribeCount(channel: string, pair: string, runs: seq<Stream<Json>>, recovery: Stream<Json>,
                         subscribe: Json, unsubscribe: Json, k: nat)
    requires IsPrivateChannel(channel) && recovery.end == Completed
    requires k <= |runs|
    requires forall i :: 0 <= i < k ==> Sequence.Continues(GuardedRuns(channel, pair, runs)[i])
    requires k < |runs| ==> !Sequence.Continues(GuardedRuns(channel, pair, runs)[k])
    ensures var f := FramesOverRuns(channel, pair, runs, recovery, subscribe, unsubscribe);
            && (forall i :: 0 <= i < |f| ==> f[i] == if i % 2 == 0 then subscribe else unsubscribe)
            && |f| == (if k == |runs| then 2 * k
                       else if GuardedRuns(channel, pair, runs)[k].end == Live then 2 * k + 1
                       else 2 * k + 2)
  {
    var guarded := GuardedRuns(channel, pair, runs);
    var n := Sequence.SubscribedRuns(guarded, recovery);
    assert FramesOverRuns(channel, pair, runs, recovery, subscribe, unsubscribe)
           == PipelineFrames(n, n > 0 && guarded[n - 1].end != Live, subscribe, unsubscribe);
    RunsFrames(guarded, recovery, subscribe, unsubscribe, k);
  }

  /** The frames of `n` subscriptions, `n` counted by `Sequence.SubscribedRuns`. */
  lemma RunsFrames(guarded: seq<Stream<Json>>, recovery: Stream<Json>, subscribe: Json, unsubscribe: Json, k: nat)
    requires recovery.end == Completed && k <= |guarded|
    requires forall i :: 0 <= i < k ==> Sequence.Continues(guarded[i])
    requires k < |guarded| ==> !Sequence.Continues(guarded[k])
    ensures var n := Sequence.SubscribedRuns(guarded, recovery);
            var f := PipelineFrames(n, n > 0 && guarded[n - 1].end != Live, subscribe, unsubscribe);
            && (forall i :: 0 <= i < |f| ==> f[i] == if i % 2 == 0 then subscribe else unsubscribe)
            && |f| == (if k == |guarded| then 2 * k else if guarded[k].end == Live then 2 * k + 1 else 2 * k + 2)
  {
    Sequence.SubscribedRunsSpec(guarded, recovery, k);
    var n := Sequence.SubscribedRuns(guarded, recovery);
    var lastEnded := n > 0 && guarded[n - 1].end != Live;
    PipelineFramesAlternate(n, lastEnded, subscribe, unsubscribe);
    if k == |guarded| && k > 0 {
      assert Sequence.Continues(guarded[k - 1]);
    }
  }

  /** Refreshing the subscription after a gap: on a private channel whose runs up to
      `k` complete or end in a gap (with a completing recovery), the socket receives
      subscribe, unsubscribe, subscribe, ... : once per run up to and including the
      first one that does not continue, with its unsubscribe frame once it has ended. */
  lemma PrivateChannelResubscribes(socket: EnhancedWebsocket, channel: string, pair: string, kwargs: map<string, Json>,
                                   runs: seq<Stream<Json>>, recovery: Stream<Json>, k: nat)
    requires IsPrivateChannel(channel) && recovery.end == Completed
    requires k <= |runs|
    requires forall i :: 0 <= i < k ==> Sequence.Continues(GuardedRuns(channel, pair, runs)[i])
    requires k < |runs| ==> !Sequence.Continues(GuardedRuns(channel, pair, runs)[k])
    ensures var f := ChannelFrames(socket, channel, pair, kwargs, runs, recovery);
            && (forall i :: 0 <= i < |f| ==>
                  f[i] == if i % 2 == 0 then Sent(socket, SubscribeFrame(channel, pair, kwargs))
                          else Sent(socket, UnsubscribeFrame(channel, pair, kwargs)))
            && |f| == (if k == |runs| then 2 * k
                       else if GuardedRuns(channel, pair, runs)[k].end == Live then 2 * k + 1
                       else 2 * k + 2)
  {
    ResubscribeCount(channel, pair, runs, recovery,
                     Sent(socket, SubscribeFrame(channel, pair, kwargs)), Sent(socket, UnsubscribeFrame(channel, pair, kwargs)), k);
  }

  /** A public pipeline subscribes once: the subscribe frame, and the unsubscribe frame
      once its run has ended. */
  lemma PublicChannelSubscribesOnce(socket: EnhancedWebsocket, channel: string, pair: string, kwargs: map<string, Json>,
                                    run: Stream<Json>, recovery: Stream<Json>)
    requires !IsPrivateChannel(channel)
    ensures ChannelFrames(socket, channel, pair, kwargs, [run], recovery)
            == [Sent(socket, SubscribeFrame(channel, pair, kwargs))]
               + (if run.end != Live then [Sent(socket, UnsubscribeFrame(channel, pair, kwargs))] else [])
  {
    var sub := Sent(socket, SubscribeFrame(channel, pair, kwargs));
    var unsub := Sent(socket, UnsubscribeFrame(channel, pair, kwargs));
    assert PipelineFrames(0, run.end != Live, sub, unsub) == [];
    assert FramesOverRuns(channel, pair, [run], recovery, sub, unsub) == PipelineFrames(1, run.end != Live, sub, unsub);
  }

  /** A public channel is never sequence-checked: every channel frame is delivered as it
      came, whatever sequence field it carries. */
  lemma PublicChannelUnguarded(channel: string, pair: string, run: Stream<Json>, recovery: Stream<Json>)
    requires !IsPrivateChannel(channel)
    requires forall i :: 0 <= i < |run.items| ==> Kind.IsChannelMessage([channel, pair], run.items[i])
    ensures ChannelMessages(channel, pair, [run], recovery) == run
  {
    Kind.KeepChannelMessagesSpec([channel, pair], run.items, [], run.end);
  }

  /** On a private channel a gap ends the run before the offending frame and the
      recovery stream follows. */
  lemma PrivateChannelGap(channel: string, pair: string, run: Stream<Json>, recovery: Stream<Json>, start: int, k: nat)
    requires IsPrivateChannel(channel) && recovery.end != Completed
    requires forall i :: 0 <= i < |run.items| ==> Kind.IsChannelMessage([channel, pair], run.items[i])
    requires 0 < k < |run.items| && start + k - 1 != 0
    requires forall i :: 0 <= i < k ==> Sequence.SeqNo(run.items[i]) == Some(start + i)
    requires Sequence.SeqNo(run.items[k]).Some? && Sequence.SeqNo(run.items[k]) != Some(start + k)
    ensures ChannelMessages(channel, pair, [run], recovery) == Stream(run.items[..k] + recovery.items, recovery.end)
  {
    Kind.KeepChannelMessagesSpec([channel, pair], run.items, [], run.end);
    assert run.items + [] == run.items;
    var kept := Kind.KeepChannelMessages([channel, pair], run);
    assert kept == run;
    Sequence.GapAfterConsecutiveRun(run.items, start, k, run.end);
    var guarded := Sequence.InSequence(kept);
    assert guarded == Stream(run.items[..k], Errored(InvalidSequence));
    assert GuardedRuns(channel, pair, [run]) == [guarded];
    GapThenRecovery(guarded, recovery);
  }

  /** One run ended by a gap, followed by a recovery that does not complete. */
  lemma GapThenRecovery(run: Stream<Json>, recovery: Stream<Json>)
    requires run.end == Errored(InvalidSequence) && recovery.end != Completed
    ensures Sequence.RepeatOnInvalidSequence([run], recovery) == Stream(run.items + recovery.items, recovery.end)
  {
  }

  /** The pair is passed to the filter as a second channel name: a frame whose
      second-to-last element is the pair passes whatever its channel. */
  lemma PairAcceptedAsName(channel: string, pair: string, x: Json)
    requires x.JList? && |x.items| >= 3 && x.items[|x.items| - 2] == JStr(pair)
    ensures Kind.IsChannelMessage([channel, pair], x)
  {
    Kind.IsChannelMessageSpec([channel, pair], x);
    assert x.items[|x.items| - 2] == JStr([channel, pair][1]);
  }
}
