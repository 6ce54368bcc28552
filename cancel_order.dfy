/** Cancelling orders (events/cancel_order.py): the factory remembers the latest
    socket, fills in a cancel request's defaults in place, and the returned lifecycle
    sends the request once when subscribed. The acknowledgment mapper and the order
    filter are the same code as in events/add_order.py and are modelled there. */
module CancelOrder {
  import opened Json
  import opened Streams
  import opened Websocket

  /** The value of `EventName.EVENT_CANCEL_ORDER`, Kraken's name for the request. */
  const CancelOrderEvent: string := "cancelOrder"

  /** Python's `not request.reqid`: true for `None` and for `0`. */
  predicate IsFalsyId(reqid: Option<int>)
  {
    reqid == None || reqid == Some(0)
  }

  /** The request fields after `cancel_order` fills in its defaults, `nextId` being the
      id the supply would hand out. */
  function Defaulted(event: string, reqid: Option<int>, nextId: nat): (r: (string, Option<int>))
  {
    (if event == "" then CancelOrderEvent else event, if IsFalsyId(reqid) then Some(nextId) else reqid)
  }

  /** A falsy event becomes `cancelOrder` and any other is kept; a falsy id is replaced
      by the next id and a non-zero one is kept. Filling in twice changes nothing more,
      unless the id drawn the first time was itself 0. */
  lemma DefaultedSpec(event: string, reqid: Option<int>, nextId: nat, laterId: nat)
    ensures Defaulted(event, reqid, nextId).0 != ""
    ensures event != "" ==> Defaulted(event, reqid, nextId).0 == event
    ensures event == "" ==> Defaulted(event, reqid, nextId).0 == "cancelOrder"
    ensures reqid.Some? && reqid.value != 0 ==> Defaulted(event, reqid, nextId).1 == reqid
    ensures IsFalsyId(reqid) ==> Defaulted(event, reqid, nextId).1 == Some(nextId)
    ensures nextId != 0 ==>
              var d := Defaulted(event, reqid, nextId);
              Defaulted(d.0, d.1, laterId) == d
  {
  }

  /** The 64-bit mask applied to each drawn uuid (`& (1 << 64) - 1`). */
  const IdBound: nat := 0x1_0000_0000_0000_0000

  /** The process-wide id iterator: the uuids it draws are a parameter, and each id is
      the low 64 bits of the next one. */
  class IdSupply {
    const uuids: nat -> nat
    var drawn: nat

    constructor (uuids: nat -> nat)
      ensures this.uuids == uuids && drawn == 0
    {
      this.uuids := uuids;
      drawn := 0;
    }

    /** The id `next(id_iterator)` would return now. */
    function Peek(): (id: nat)
      reads this
      ensures id < IdBound
    {
      uuids(drawn) % IdBound
    }

    method Next() returns (id: nat)
      modifies this
      ensures id == old(Peek()) && id < IdBound
      ensures drawn == old(drawn) + 1
    {
      id := uuids(drawn) % IdBound;
      drawn := drawn + 1;
    }
  }

  /** `CancelOrderRequest`, a mutable dataclass. `reqid` is `None` when absent. */
  class CancelOrderRequest {
    var txid: seq<string>
    var reqid: Option<int>
    var event: string

    constructor (txid: seq<string>, reqid: Option<int>, event: string)
      ensures this.txid == txid && this.reqid == reqid && this.event == event
    {
      this.txid := txid;
      this.reqid := reqid;
      this.event := event;
    }

    /** `dataclasses.asdict(request)`, as sent. */
    function AsDict(): (r: map<string, Json>)
      reads this
      ensures r.Keys == {"txid", "reqid", "event"} && "subscription" !in r
      ensures r["event"] == JStr(event)
      ensures r["reqid"] == (if reqid.Some? then JInt(reqid.value) else JNull)
      ensures r["txid"].JList? && |r["txid"].items| == |txid|
      ensures forall i :: 0 <= i < |txid| ==> r["txid"].items[i] == JStr(txid[i])
    {
      map["txid" := JList(Map(txid, (t: string) => JStr(t))),
          "reqid" := (if reqid.Some? then JInt(reqid.value) else JNull),
          "event" := JStr(event)]
    }
  }

  /** The strings of a list of JSON strings (anything else reads as ""). */
  function Texts(items: seq<Json>): (r: seq<string>)
    ensures |r| == |items|
  {
    if items == [] then [] else [if items[0].JStr? then items[0].s else ""] + Texts(items[1..])
  }

  /** Reading a cancel request back from the dict that is sent: the txids, the id
      (`null` for none) and the event; any other shape is not a cancel request. */
  function ReadCancelRequest(d: map<string, Json>): (r: Option<(seq<string>, Option<int>, string)>)
  {
    if !("txid" in d && "reqid" in d && "event" in d) then None
    else if !(d["txid"].JList? && d["event"].JStr? && (d["reqid"].JNull? || d["reqid"].JInt?)) then None
    else if exists i :: 0 <= i < |d["txid"].items| && !d["txid"].items[i].JStr? then None
    else Some((Texts(d["txid"].items), if d["reqid"].JInt? then Some(d["reqid"].n) else None, d["event"].s))
  }

  lemma {:induction false} TextsOfStrings(txid: seq<string>)
    ensures Texts(Map(txid, (t: string) => JStr(t))) == txid
  {
    if txid != [] {
      TextsOfStrings(txid[1..]);
      assert Map(txid, (t: string) => JStr(t))[1..] == Map(txid[1..], (t: string) => JStr(t));
    }
  }

  /** `dataclasses.asdict` loses nothing: the dict sent for a cancel request reads back
      as exactly its txids, id and event, and holds no other key. */
  lemma AsDictRoundTrip(request: CancelOrderRequest)
    ensures request.AsDict().Keys == {"txid", "reqid", "event"}
    ensures ReadCancelRequest(request.AsDict()) == Some((request.txid, request.reqid, request.event))
  {
    TextsOfStrings(request.txid);
  }

  /** The observable returned by `cancel_order`: the request and the connection that was
      current when `cancel_order` was called. */
  class CancelLifecycle {
    const request: CancelOrderRequest
    const connection: EnhancedWebsocket

    constructor (request: CancelOrderRequest, connection: EnhancedWebsocket)
      ensures this.request == request && this.connection == connection
    {
      this.request := request;
      this.connection := connection;
    }

    /** Subscribing sends the request's dict once; a private socket adds its token at
        the top level, since the dict has no subscription. */
    method Subscribe()
      modifies connection
      ensures connection.sent == old(connection.sent) + [JObj(WithToken(request.AsDict(), connection.token).value)]
      ensures connection.IsPrivate() ==>
                connection.sent[|connection.sent| - 1] == JObj(request.AsDict()["token" := JStr(connection.token)])
    {
      var payload := new Payload(request.AsDict(), null);
      var r := connection.SendJson(payload);
    }
  }

  /** `cancel_order_factory(socket, messages)`: keeps the latest socket (initially none)
      and returns `cancel_order`. */
  class CancelOrderFactory {
    var connection: EnhancedWebsocket?
    const ids: IdSupply

    constructor (ids: IdSupply)
      ensures connection == null && this.ids == ids
    {
      connection := null;
      this.ids := ids;
    }

    /** A socket (or `None`) emitted by the socket stream. */
    method OnSocket(socket: EnhancedWebsocket?)
      modifies this
      ensures connection == socket
    {
      connection := socket;
    }

    /** `cancel_order(request)`: fails with "No socket" and touches nothing when no
        socket is known; otherwise fills in the request's defaults in place, drawing an
        id only when one is needed, and binds the current socket. */
    method CancelOrder(request: CancelOrderRequest) returns (r: Result<CancelLifecycle, Error>)
      modifies request, ids
      ensures old(connection) == null ==>
                && r == Failure(NoSocket)
                && unchanged(request) && unchanged(ids)
      ensures old(connection) != null ==>
                && r.Success? && fresh(r.value)
                && r.value.request == request && r.value.connection == old(connection)
                && request.txid == old(request.txid)
                && (request.event, request.reqid) == Defaulted(old(request.event), old(request.reqid), old(ids.Peek()))
                && ids.drawn == old(ids.drawn) + (if IsFalsyId(old(request.reqid)) then 1 else 0)
    {
      if connection == null {
        return Failure(NoSocket);
      }
      var current := connection;
      if request.event == "" {
        request.event := CancelOrderEvent;
      }
      if IsFalsyId(request.reqid) {
        var id := ids.Next();
        request.reqid := Some(id);
      }
      var lifecycle := new CancelLifecycle(request, current);
      r := Success(lifecycle);
    }
  }
}
