/** The connection itself (connection/generic.py): the URL it dials, and the bundles
    `(socket, category, payload)` its transport callbacks emit. The transport is a
    sequence of callback events. */
module Generic {
  import opened Json
  import opened Streams
  import opened Status

  const WebsocketStatus: string := "WEBSOCKET_STATUS"
  const WebsocketHeartbeat: string := "WEBSOCKET_HEARTBEAT"
  const WebsocketMessage: string := "WEBSOCKET_MESSAGE"

  /** The URL of `websocket_connection(token_generator)`: the authenticated endpoint
      exactly when a token generator is given. */
  function Url(hasTokenGenerator: bool): (r: string)
  {
    "wss://ws" + (if hasTokenGenerator then "-auth" else "") + ".kraken.com"
  }

  lemma UrlSpec(hasTokenGenerator: bool)
    ensures hasTokenGenerator <==> Url(hasTokenGenerator) == "wss://ws-auth.kraken.com"
    ensures !hasTokenGenerator <==> Url(hasTokenGenerator) == "wss://ws.kraken.com"
  {
    assert "wss://ws-auth.kraken.com"[8] != "wss://ws.kraken.com"[8];
  }

  /** `on_message(ws, message)`: the category and payload of a frame, given the raw
      text and its parsed value. A `systemStatus` event without `status` raises. */
  function OnMessage(raw: string, parsed: Json, heartbeat: string): (r: Result<(string, Json), Error>)
  {
    if raw == heartbeat then Success((WebsocketHeartbeat, parsed))
    else if parsed.JObj? && HasString(parsed.fields, "event", "systemStatus") then
      if "status" in parsed.fields then Success((WebsocketStatus, parsed.fields["status"]))
      else Failure(Malformed)
    else Success((WebsocketMessage, parsed))
  }

  lemma OnMessageSpec(raw: string, parsed: Json, heartbeat: string)
    ensures OnMessage(raw, parsed, heartbeat).Failure? <==>
              raw != heartbeat && parsed.JObj? && HasString(parsed.fields, "event", "systemStatus")
              && "status" !in parsed.fields
    ensures raw == heartbeat ==> OnMessage(raw, parsed, heartbeat) == Success((WebsocketHeartbeat, parsed))
    ensures OnMessage(raw, parsed, heartbeat).Success? && OnMessage(raw, parsed, heartbeat).value.0 == WebsocketStatus <==>
              raw != heartbeat && parsed.JObj? && HasString(parsed.fields, "event", "systemStatus")
              && "status" in parsed.fields
    ensures OnMessage(raw, parsed, heartbeat).Success? && OnMessage(raw, parsed, heartbeat).value.0 == WebsocketStatus ==>
              OnMessage(raw, parsed, heartbeat).value.1 == parsed.fields["status"]
    ensures OnMessage(raw, parsed, heartbeat).Success? && OnMessage(raw, parsed, heartbeat).value.0 == WebsocketMessage <==>
              raw != heartbeat && !(parsed.JObj? && HasString(parsed.fields, "event", "systemStatus"))
    ensures OnMessage(raw, parsed, heartbeat).Success? && OnMessage(raw, parsed, heartbeat).value.0 == WebsocketMessage ==>
              OnMessage(raw, parsed, heartbeat).value.1 == parsed
  {
  }

  /** A `WebsocketBundle`. */
  datatype Bundle<S> = Bundle(socket: S, category: string, value: Json)

  /** A transport callback: `on_open`, `on_message`, `on_error`, `on_close`. */
  datatype TransportEvent = Opened | Message(raw: string, parsed: Json) | Failed(error: Error) | Closed

  /** What the observer of the connection sees for the callbacks in order. On error or
      close a CLOSED status bundle comes first and then the error; nothing follows an
      error. An exception raised inside `on_message` is handed to `on_error` by the
      transport. */
  function Bundles<S>(socket: S, events: seq<TransportEvent>, heartbeat: string): (r: Stream<Bundle<S>>)
    ensures |r.items| <= |events|
  {
    if events == [] then Stream([], Live)
    else
      var closed := Bundle(socket, WebsocketStatus, JStr(WebsocketClosed));
      match events[0]
      case Failed(e) => Stream([closed], Errored(e))
      case Closed => Stream([closed], Errored(SocketClosed))
      case Opened =>
        var rest := Bundles(socket, events[1..], heartbeat);
        Stream([Bundle(socket, WebsocketStatus, JStr(WebsocketOpened))] + rest.items, rest.end)
      case Message(raw, parsed) =>
        match OnMessage(raw, parsed, heartbeat)
        case Failure(e) => Stream([closed], Errored(e))
        case Success(c) =>
          var rest := Bundles(socket, events[1..], heartbeat);
          Stream([Bundle(socket, c.0, c.1)] + rest.items, rest.end)
  }

  /** A callback that emits a bundle and lets the connection go on. */
  predicate Delivered(event: TransportEvent, heartbeat: string)
  {
    event.Opened? || (event.Message? && OnMessage(event.raw, event.parsed, heartbeat).Success?)
  }

  /** Every bundle carries the same socket wrapper and one of the three categories; the
      stream never completes, and when it fails its last bundle is the CLOSED status. */
  lemma {:induction false} BundlesSpec<S>(socket: S, events: seq<TransportEvent>, heartbeat: string)
    ensures var r := Bundles(socket, events, heartbeat);
            && (forall i :: 0 <= i < |r.items| ==> r.items[i].socket == socket)
            && (forall i :: 0 <= i < |r.items| ==>
                  r.items[i].category in {WebsocketStatus, WebsocketHeartbeat, WebsocketMessage})
            && r.end != Completed
            && (r.end.Errored? ==>
                  && |r.items| > 0
                  && r.items[|r.items| - 1] == Bundle(socket, WebsocketStatus, JStr(WebsocketClosed)))
            && (r.end == Live <==> forall i :: 0 <= i < |events| ==> Delivered(events[i], heartbeat))
  {
    if events != [] {
      var tail := events[1..];
      BundlesSpec(socket, tail, heartbeat);
      assert forall i :: 0 <= i < |tail| ==> tail[i] == events[i + 1];
      var r := Bundles(socket, events, heartbeat);
      var rest := Bundles(socket, tail, heartbeat);
      if Delivered(events[0], heartbeat) {
        assert r.items == [r.items[0]] + rest.items;
        assert forall i :: 1 <= i < |r.items| ==> r.items[i] == rest.items[i - 1];
        if events[0].Message? {
          OnMessageSpec(events[0].raw, events[0].parsed, heartbeat);
        }
      }
    }
  }
}
