/** Operators over the connection's bundles (connection/connection_operators.py). */
module ConnectionOperators {
  import opened Json
  import opened Streams
  import Status
  import opened Generic

  function IsStatusBundle<S>(b: Bundle<S>): bool
  {
    b.category == WebsocketStatus
  }

  function IsOpenedValue<S>(b: Bundle<S>): bool
  {
    b.value == JStr(Status.WebsocketOpened)
  }

  function SocketOf<S>(b: Bundle<S>): S
  {
    b.socket
  }

  /** `socket_status_only()`. */
  function SocketStatusOnly<S>(bundles: seq<Bundle<S>>): (r: seq<Bundle<S>>)
  {
    Filter(bundles, IsStatusBundle)
  }

  /** `socket_only()`. */
  function SocketOnly<S>(bundles: seq<Bundle<S>>): (r: seq<S>)
  {
    Map(bundles, SocketOf)
  }

  /** `connected_socket()`: status bundles, then OPENED ones, then their sockets. */
  function ConnectedSocket<S>(bundles: seq<Bundle<S>>): (r: seq<S>)
  {
    SocketOnly(Filter(SocketStatusOnly(bundles), IsOpenedValue))
  }

  /** The status filter keeps exactly the status bundles, in order; the socket map keeps
      length and order. */
  lemma SocketStatusOnlySpec<S>(bundles: seq<Bundle<S>>, more: seq<Bundle<S>>)
    ensures forall b :: b in SocketStatusOnly(bundles) <==> b in bundles && b.category == WebsocketStatus
    ensures SocketStatusOnly(bundles + more) == SocketStatusOnly(bundles) + SocketStatusOnly(more)
    ensures |SocketOnly(bundles)| == |bundles|
    ensures forall i :: 0 <= i < |bundles| ==> SocketOnly(bundles)[i] == bundles[i].socket
  {
    FilterAppend(bundles, more, IsStatusBundle);
  }

  /** A socket is emitted exactly for the status bundles whose value is OPENED, in order:
      CLOSED statuses, heartbeats and data messages never yield one. */
  lemma {:induction false} ConnectedSocketSpec<S>(bundles: seq<Bundle<S>>, more: seq<Bundle<S>>)
    ensures forall s :: s in ConnectedSocket(bundles) <==>
              exists b :: b in bundles && b.category == WebsocketStatus && b.value == JStr(Status.WebsocketOpened) && b.socket == s
    ensures ConnectedSocket(bundles + more) == ConnectedSocket(bundles) + ConnectedSocket(more)
    ensures (forall b :: b in bundles ==> b.category != WebsocketStatus || b.value == JStr(Status.WebsocketClosed)) ==>
              ConnectedSocket(bundles) == []
  {
    var kept := Filter(SocketStatusOnly(bundles), IsOpenedValue);
    forall s | s in ConnectedSocket(bundles)
      ensures exists b :: b in bundles && b.category == WebsocketStatus && b.value == JStr(Status.WebsocketOpened) && b.socket == s
    {
      var k :| 0 <= k < |kept| && ConnectedSocket(bundles)[k] == s;
      assert kept[k] in kept;
    }
    forall s | exists b :: b in bundles && b.category == WebsocketStatus && b.value == JStr(Status.WebsocketOpened) && b.socket == s
      ensures s in ConnectedSocket(bundles)
    {
      var b :| b in bundles && b.category == WebsocketStatus && b.value == JStr(Status.WebsocketOpened) && b.socket == s;
      assert b in kept;
      var k :| 0 <= k < |kept| && kept[k] == b;
      assert ConnectedSocket(bundles)[k] == s;
    }
    FilterAppend(bundles, more, IsStatusBundle);
    FilterAppend(SocketStatusOnly(bundles), SocketStatusOnly(more), IsOpenedValue);
    MapAppend(kept, Filter(SocketStatusOnly(more), IsOpenedValue), SocketOf);
    if forall b :: b in bundles ==> b.category != WebsocketStatus || b.value == JStr(Status.WebsocketClosed) {
      if kept != [] {
        assert kept[0] in kept;
      }
    }
  }

  /** On one connection's bundles, `connected_socket()` emits only that connection's
      socket, and emits it first when the connection opens first. */
  lemma ConnectedSocketOfConnection<S>(socket: S, events: seq<TransportEvent>, heartbeat: string)
    ensures forall s :: s in ConnectedSocket(Bundles(socket, events, heartbeat).items) ==> s == socket
    ensures events != [] && events[0].Opened? ==>
              var r := ConnectedSocket(Bundles(socket, events, heartbeat).items);
              r != [] && r[0] == socket
  {
    var bs := Bundles(socket, events, heartbeat).items;
    BundlesSpec(socket, events, heartbeat);
    ConnectedSocketSpec(bs, []);
    if events != [] && events[0].Opened? {
      var first := Bundle(socket, WebsocketStatus, JStr(Status.WebsocketOpened));
      var rest := Bundles(socket, events[1..], heartbeat).items;
      assert bs == [first] + rest;
      ConnectedSocketSpec([first], rest);
      assert ConnectedSocket([first]) == [socket];
    }
  }

  /** The older `connected_socket` of connection/status.py reads the status from the
      second element; on the connection's bundles that is the category, which is never
      the OPENED status, so it emits nothing. */
  lemma StatusConnectedSocketOnBundles<S>(socket: S, events: seq<TransportEvent>, heartbeat: string)
    ensures Status.ConnectedSocket(Map(Bundles(socket, events, heartbeat).items,
                                       (b: Bundle<S>) => (b.socket, JStr(b.category)))) == []
  {
    var bs := Bundles(socket, events, heartbeat).items;
    var pairs := Map(bs, (b: Bundle<S>) => (b.socket, JStr(b.category)));
    BundlesSpec(socket, events, heartbeat);
    forall x | x in pairs ensures !Status.IsOpened(x) {
      var i :| 0 <= i < |pairs| && pairs[i] == x;
      assert pairs[i].1 == JStr(bs[i].category);
    }
    FilterNone(pairs, Status.IsOpened);
  }
}
