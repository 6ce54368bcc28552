/** The socket wrapper (connection/enhanced_websocket.py): a private socket holds a
    token, and every outgoing payload gets that token written into it, in place,
    before the payload is serialised and sent. The transport is a log of sent values. */
module Websocket {
  import opened Json
  import opened Streams

  /** The value `send_json` leaves in a payload of the given contents. A private
      token goes inside the `subscription` object when the payload has one and at the
      top level otherwise; a `subscription` that is not an object cannot take an item
      assignment and raises a TypeError. */
  function WithToken(payload: map<string, Json>, token: string): (r: Result<map<string, Json>, Error>)
  {
    if token == "" then Success(payload)
    else if "subscription" in payload then
      match payload["subscription"]
      case JObj(inner) => Success(payload["subscription" := JObj(inner["token" := JStr(token)])])
      case _ => Failure(Malformed)
    else Success(payload["token" := JStr(token)])
  }

  /** Where the token ends up, and what is left alone. */
  lemma WithTokenSpec(payload: map<string, Json>, token: string)
    // a public socket sends the payload as it is
    ensures token == "" ==> WithToken(payload, token) == Success(payload)
    // the only failure is a private send of a payload whose subscription is not an object
    ensures WithToken(payload, token).Failure? <==>
              token != "" && "subscription" in payload && !payload["subscription"].JObj?
    // no key is added or removed at the top level except the top-level token
    ensures WithToken(payload, token).Success? ==>
              WithToken(payload, token).value.Keys
              == payload.Keys + (if token != "" && "subscription" !in payload then {"token"} else {})
    // with a subscription object the token is written inside it, and nothing else changes
    ensures token != "" && "subscription" in payload && payload["subscription"].JObj? ==>
              var r := WithToken(payload, token).value;
              && Field(r["subscription"], "token") == Some(JStr(token))
              && r["subscription"].fields.Keys == payload["subscription"].fields.Keys + {"token"}
              && (forall k :: k in payload && k != "subscription" ==> r[k] == payload[k])
              && (forall k :: k in payload["subscription"].fields && k != "token" ==>
                    r["subscription"].fields[k] == payload["subscription"].fields[k])
    // without one, at the top level, and nothing else changes
    ensures token != "" && "subscription" !in payload ==>
              var r := WithToken(payload, token).value;
              r["token"] == JStr(token) && forall k :: k in payload && k != "token" ==> r[k] == payload[k]
  {
  }

  /** Sending a payload a second time through the same socket writes nothing new: the
      token is already where it goes. */
  lemma {:induction false} WithTokenIdempotent(payload: map<string, Json>, token: string)
    requires WithToken(payload, token).Success?
    ensures WithToken(WithToken(payload, token).value, token) == WithToken(payload, token)
  {
    if token != "" && "subscription" in payload {
      var inner := payload["subscription"].fields;
      assert inner["token" := JStr(token)]["token" := JStr(token)] == inner["token" := JStr(token)];
      assert payload["subscription" := JObj(inner["token" := JStr(token)])]["subscription" := JObj(inner["token" := JStr(token)])]
          == payload["subscription" := JObj(inner["token" := JStr(token)])];
    } else if token != "" {
      assert payload["token" := JStr(token)]["token" := JStr(token)] == payload["token" := JStr(token)];
    }
  }

  /** A Python dict that is updated in place and may be shared between payloads. */
  class Dict {
    var fields: map<string, Json>

    constructor (fields: map<string, Json>)
      ensures this.fields == fields
    {
      this.fields := fields;
    }
  }

  /** A payload handed to `send_json`: its top-level entries and, when `subscription`
      is non-null, the dict object stored under the key "subscription" (held by
      reference, so two payloads can share it). */
  class Payload {
    var top: map<string, Json>
    const subscription: Dict?

    constructor (top: map<string, Json>, subscription: Dict?)
      requires subscription != null ==> "subscription" !in top
      ensures this.top == top && this.subscription == subscription
    {
      this.top := top;
      this.subscription := subscription;
    }

    /** The entries serialised when the payload is sent. */
    function Contents(): map<string, Json>
      reads this, subscription
    {
      if subscription == null then top else top["subscription" := JObj(subscription.fields)]
    }
  }

  class EnhancedWebsocket {
    const token: string
    /** Everything `socket.send` was given, in order. */
    var sent: seq<Json>

    constructor (token: string)
      ensures this.token == token && sent == []
    {
      this.token := token;
      sent := [];
    }

    /** `is_private`: `bool(self.token)`. */
    predicate IsPrivate()
    {
      token != ""
    }

    /** `send_json(payload)`: writes the token into the caller's dict (or into the
        dict under "subscription"), then sends the whole payload exactly once. */
    method SendJson(payload: Payload) returns (r: Result<Json, Error>)
      requires payload.subscription != null ==> "subscription" !in payload.top
      modifies this, payload, payload.subscription
      ensures r.Success? <==> WithToken(old(payload.Contents()), token).Success?
      ensures r.Failure? ==> r.error == WithToken(old(payload.Contents()), token).error
      ensures r.Success? ==> r.value == JObj(payload.Contents())
      ensures r.Success? ==> payload.Contents() == WithToken(old(payload.Contents()), token).value
      ensures r.Success? ==> sent == old(sent) + [JObj(payload.Contents())]
      ensures r.Failure? ==> sent == old(sent) && payload.Contents() == old(payload.Contents())
      // a shared subscription dict is the one updated in place; the top level is left alone
      ensures payload.subscription != null ==> payload.top == old(payload.top)
    {
      if IsPrivate() {
        if payload.subscription != null {
          payload.subscription.fields := payload.subscription.fields["token" := JStr(token)];
        } else if "subscription" in payload.top {
          match payload.top["subscription"]
          case JObj(inner) =>
            payload.top := payload.top["subscription" := JObj(inner["token" := JStr(token)])];
          case _ =>
            return Failure(Malformed);
        } else {
          payload.top := payload.top["token" := JStr(token)];
        }
      }
      sent := sent + [JObj(payload.Contents())];
      r := Success(JObj(payload.Contents()));
    }
  }
}
