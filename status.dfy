/** The socket status constants and the older `connected_socket` operator
    (connection/status.py), which reads the status from the second element of a pair. */
module Status {
  import opened Json
  import opened Streams

  const WebsocketOpened: string := "WEBSOCKET_OPENED"
  const WebsocketClosed: string := "WEBSOCKET_CLOSED"

  function IsOpened<S>(x: (S, Json)): bool
  {
    x.1 == JStr(WebsocketOpened)
  }

  function First<S>(x: (S, Json)): S
  {
    x.0
  }

  /** `connected_socket()`: keeps the items whose second element is the OPENED status
      and emits their first element. */
  function ConnectedSocket<S>(items: seq<(S, Json)>): (r: seq<S>)
  {
    Map(Filter(items, IsOpened), First)
  }

  /** A socket is emitted exactly for the OPENED items, in order, and a CLOSED item is
      never emitted. */
  lemma ConnectedSocketSpec<S>(items: seq<(S, Json)>, more: seq<(S, Json)>)
    ensures forall s :: s in ConnectedSocket(items) <==>
              exists i :: 0 <= i < |items| && items[i].1 == JStr(WebsocketOpened) && items[i].0 == s
    ensures ConnectedSocket(items + more) == ConnectedSocket(items) + ConnectedSocket(more)
    ensures (forall i :: 0 <= i < |items| ==> items[i].1 == JStr(WebsocketClosed)) ==> ConnectedSocket(items) == []
  {
    var kept := Filter(items, IsOpened);
    forall s | s in ConnectedSocket(items)
      ensures exists i :: 0 <= i < |items| && items[i].1 == JStr(WebsocketOpened) && items[i].0 == s
    {
      var k :| 0 <= k < |kept| && ConnectedSocket(items)[k] == s;
      assert kept[k] in kept;
    }
    forall s | exists i :: 0 <= i < |items| && items[i].1 == JStr(WebsocketOpened) && items[i].0 == s
      ensures s in ConnectedSocket(items)
    {
      var i :| 0 <= i < |items| && items[i].1 == JStr(WebsocketOpened) && items[i].0 == s;
      assert items[i] in kept;
      var k :| 0 <= k < |kept| && kept[k] == items[i];
      assert ConnectedSocket(items)[k] == s;
    }
    FilterAppend(items, more, IsOpened);
    MapAppend(Filter(items, IsOpened), Filter(more, IsOpened), First);
    if forall i :: 0 <= i < |items| ==> items[i].1 == JStr(WebsocketClosed) {
      if kept != [] {
        assert kept[0] in kept;
      }
    }
  }
}
