/** Request/response correlation (events/request_response.py): a request is sent with
    an id, and the response stream is the first matching frame, or, for a subscription
    request, one matching frame per requested pair until none is pending; a timeout
    fails it. `_response_ok` interprets the status of a response. */
module RequestResponse {
  import opened Json
  import opened Streams

  /** A request is a subscription request iff its event type is `subscribe`. */
  predicate IsSubscriptionRequest(eventType: string)
  {
    eventType == "subscribe"
  }

  /** The `event` a matching response must carry: none (empty) without an event type,
      `subscriptionStatus` for a subscription and `<eventType>Status` otherwise. */
  function StatusEventType(eventType: string): (r: string)
    ensures eventType == "" <==> r == ""
    ensures IsSubscriptionRequest(eventType) ==> r == "subscriptionStatus"
    ensures eventType != "" && !IsSubscriptionRequest(eventType) ==> r == eventType + "Status"
  {
    if eventType == "" then ""
    else (if IsSubscriptionRequest(eventType) then "subscription" else eventType) + "Status"
  }

  /** `reqid or int(1e6 * time.time())`: the clock reading is a parameter. */
  function MessageId(reqid: int, clock: int): (r: int)
    ensures reqid != 0 ==> r == reqid
    ensures reqid == 0 ==> r == clock
  {
    if reqid != 0 then reqid else clock
  }

  /** `list(value['pair'])`, evaluated when the request of a subscription is built. A
      list is copied and a string gives its characters. A number or null raises; so
      does a dict here, whose keys Python would list in an order a map does not keep. */
  function PairList(value: map<string, Json>): (r: Option<seq<Json>>)
    ensures "pair" in value && value["pair"].JList? ==> r == Some(value["pair"].items)
    ensures "pair" !in value ==> r.None?
  {
    if "pair" !in value then None
    else match value["pair"]
      case JList(items) => Some(items)
      case JStr(s) => Some(seq(|s|, i requires 0 <= i < |s| => JStr([s[i]])))
      case _ => None
  }

  /** `correct_id(message)`: any lookup that raises counts as no match. */
  predicate CorrectId(eventType: string, value: map<string, Json>, messageId: int, pending: seq<Json>, message: Json)
  {
    var status := StatusEventType(eventType);
    && (status == "" || Field(message, "event") == Some(JStr(status)))
    && if IsSubscriptionRequest(eventType) then
         && Field(message, "subscription").Some?
         && Field(Field(message, "subscription").value, "name").Some?
         && "subscription" in value
         && Field(value["subscription"], "name") == Field(Field(message, "subscription").value, "name")
         && Field(message, "pair").Some?
         && Field(message, "pair").value in pending
       else
         Field(message, "reqid") == Some(JInt(messageId))
  }

  /** The id `trigger_event` writes into the request value is the id a plain request's
      response is matched by: a caller's non-zero `reqid` is kept (else the clock
      reading is used), and a response with the right status event is accepted exactly
      when it echoes the `reqid` that was sent. */
  lemma SentIdMatches(eventType: string, value: map<string, Json>, reqid: int, clock: int, message: Json)
    requires !IsSubscriptionRequest(eventType)
    ensures var sent := value["reqid" := JInt(MessageId(reqid, clock))];
            && (reqid != 0 ==> sent["reqid"] == JInt(reqid))
            && (reqid == 0 ==> sent["reqid"] == JInt(clock))
            && (message.JObj? && (eventType == "" || HasString(message.fields, "event", StatusEventType(eventType))) ==>
                  (CorrectId(eventType, sent, MessageId(reqid, clock), [], message) <==>
                     Field(message, "reqid") == Some(sent["reqid"])))
            && (CorrectId(eventType, sent, MessageId(reqid, clock), [], message) ==>
                  Field(message, "reqid") == Some(sent["reqid"]))
  {
  }

  /** What matches, stated outright: lists and other non-objects never match; a plain
      request is matched by its id (and, with an event type, its status event); a
      subscription response must name the requested subscription and a pending pair. */
  lemma CorrectIdSpec(eventType: string, value: map<string, Json>, messageId: int, pending: seq<Json>, message: Json)
    ensures !message.JObj? ==> !CorrectId(eventType, value, messageId, pending, message)
    ensures message.JObj? && eventType == "" ==>
              (CorrectId(eventType, value, messageId, pending, message) <==>
               "reqid" in message.fields && message.fields["reqid"] == JInt(messageId))
    ensures message.JObj? && eventType != "" && !IsSubscriptionRequest(eventType) ==>
              (CorrectId(eventType, value, messageId, pending, message) <==>
               HasString(message.fields, "event", eventType + "Status")
               && "reqid" in message.fields && message.fields["reqid"] == JInt(messageId))
    ensures CorrectId(eventType, value, messageId, pending, message) && IsSubscriptionRequest(eventType) ==>
              HasString(message.fields, "event", "subscriptionStatus")
              && "pair" in message.fields && message.fields["pair"] in pending
    ensures IsSubscriptionRequest(eventType) && pending == [] ==> !CorrectId(eventType, value, messageId, pending, message)
  {
  }

  /** A matching subscription response names one of the pending pairs. */
  lemma MatchedPairPending(eventType: string, value: map<string, Json>, messageId: int, pending: seq<Json>, message: Json)
    requires IsSubscriptionRequest(eventType) && CorrectId(eventType, value, messageId, pending, message)
    ensures message.JObj? && "pair" in message.fields && message.fields["pair"] in pending
  {
  }

  /** What the merged stream delivers: a frame of the message stream, the timeout, or
      an error raised by the message stream itself. */
  datatype Input = Frame(message: Json) | TimeoutFired | MessagesErrored(error: Error)

  /** The request as `trigger_event(value, reqid)` fixes it. */
  datatype Request = Request(eventType: string, value: map<string, Json>, messageId: int)

  /** `sub_channels`, the responses let through by the taker, and how the stream ended. */
  datatype State = State(pending: seq<Json>, emitted: seq<Json>, end: End)

  /** `sub_channels.remove(x)`: drops the first occurrence. */
  function RemoveFirst(s: seq<Json>, x: Json): (r: seq<Json>)
    requires x in s
    ensures multiset(r) == multiset(s) - multiset{x}
    ensures |r| == |s| - 1
  {
    if s[0] == x then
      assert s == [s[0]] + s[1..];
      s[1..]
    else
      assert s == [s[0]] + s[1..];
      [s[0]] + RemoveFirst(s[1..], x)
  }

  /** The first state: for a subscription, the pending pairs; otherwise nothing pending. */
  function Initial(pending: seq<Json>): State
  {
    State(pending, [], Live)
  }

  /** One input of the merged stream, through the filter, the `remove` side effect and the taker. */
  function Step(req: Request, s: State, input: Input): State
  {
    if s.end != Live then s
    else match input
      case TimeoutFired => s.(end := Errored(Timeout))
      case MessagesErrored(e) => s.(end := Errored(e))
      case Frame(m) =>
        if !CorrectId(req.eventType, req.value, req.messageId, s.pending, m) then s
        else if !IsSubscriptionRequest(req.eventType) then
          // take(1)
          s.(emitted := s.emitted + [m], end := Completed)
        else
          // do_action(remove), then take_while(pending non-empty, inclusive)
          var rest := RemoveFirst(s.pending, m.fields["pair"]);
          s.(pending := rest, emitted := s.emitted + [m], end := if rest == [] then Completed else Live)
  }

  function Run(req: Request, s: State, inputs: seq<Input>): State
    decreases |inputs|
  {
    if inputs == [] then s else Run(req, Step(req, s, inputs[0]), inputs[1..])
  }

  /** The pairs named by the responses of a subscription request. */
  function Pairs(responses: seq<Json>): multiset<Json>
  {
    if responses == [] then multiset{}
    else (match Field(responses[0], "pair") case Some(p) => multiset{p} case None => multiset{}) + Pairs(responses[1..])
  }

  lemma {:induction false} PairsAppend(a: seq<Json>, x: Json)
    ensures Pairs(a + [x]) == Pairs(a) + Pairs([x])
  {
    if a == [] {
      assert a + [x] == [x];
    } else {
      assert (a + [x])[1..] == a[1..] + [x];
      PairsAppend(a[1..], x);
    }
  }

  /** A plain request lets at most one response through, and completes with it. */
  lemma {:induction false} PlainRequestTakesOne(req: Request, inputs: seq<Input>)
    requires !IsSubscriptionRequest(req.eventType)
    ensures var r := Run(req, Initial([]), inputs);
            |r.emitted| <= 1 && (r.emitted != [] <==> r.end == Completed)
  {
    PlainRequestStep(req, Initial([]), inputs);
  }

  lemma {:induction false} PlainRequestStep(req: Request, s: State, inputs: seq<Input>)
    requires !IsSubscriptionRequest(req.eventType)
    requires |s.emitted| <= 1 && (s.emitted != [] <==> s.end == Completed)
    ensures var r := Run(req, s, inputs);
            |r.emitted| <= 1 && (r.emitted != [] <==> r.end == Completed)
    decreases |inputs|
  {
    if inputs != [] {
      PlainRequestStep(req, Step(req, s, inputs[0]), inputs[1..]);
    }
  }

  /** The response of a plain request is the first matching frame before any timeout. */
  lemma {:induction false} PlainRequestFirstMatch(req: Request, inputs: seq<Input>, k: nat)
    requires !IsSubscriptionRequest(req.eventType)
    requires k < |inputs| && inputs[k].Frame?
    requires CorrectId(req.eventType, req.value, req.messageId, [], inputs[k].message)
    requires forall i :: 0 <= i < k ==>
               inputs[i].Frame? && !CorrectId(req.eventType, req.value, req.messageId, [], inputs[i].message)
    ensures Run(req, Initial([]), inputs) == State([], [inputs[k].message], Completed)
    decreases k
  {
    if k == 0 {
      FinalStaysFinal(req, Step(req, Initial([]), inputs[0]), inputs[1..]);
    } else {
      PlainRequestFirstMatch(req, inputs[1..], k - 1);
    }
  }

  /** A timeout before any match fails the request with nothing emitted. */
  lemma {:induction false} TimeoutFirst(req: Request, pending: seq<Json>, inputs: seq<Input>, k: nat)
    requires k < |inputs| && inputs[k].TimeoutFired?
    requires forall i :: 0 <= i < k ==>
               inputs[i].Frame? && !CorrectId(req.eventType, req.value, req.messageId, pending, inputs[i].message)
    ensures Run(req, Initial(pending), inputs) == State(pending, [], Errored(Timeout))
    decreases k
  {
    if k == 0 {
      FinalStaysFinal(req, Step(req, Initial(pending), inputs[0]), inputs[1..]);
    } else {
      TimeoutFirst(req, pending, inputs[1..], k - 1);
    }
  }

  /** An error of the message stream before any match fails the request with that
      error and nothing emitted; a later timeout or response changes nothing. */
  lemma {:induction false} MessagesErrorFirst(req: Request, pending: seq<Json>, inputs: seq<Input>, k: nat)
    requires k < |inputs| && inputs[k].MessagesErrored?
    requires forall i :: 0 <= i < k ==>
               inputs[i].Frame? && !CorrectId(req.eventType, req.value, req.messageId, pending, inputs[i].message)
    ensures Run(req, Initial(pending), inputs) == State(pending, [], Errored(inputs[k].error))
    decreases k
  {
    if k == 0 {
      FinalStaysFinal(req, Step(req, Initial(pending), inputs[0]), inputs[1..]);
    } else {
      MessagesErrorFirst(req, pending, inputs[1..], k - 1);
    }
  }

  /** Once the stream has ended nothing changes. */
  lemma {:induction false} FinalStaysFinal(req: Request, s: State, inputs: seq<Input>)
    requires s.end != Live
    ensures Run(req, s, inputs) == s
    decreases |inputs|
  {
    if inputs != [] {
      FinalStaysFinal(req, s, inputs[1..]);
    }
  }

  /** The bookkeeping of a subscription request: every response takes its pair off the
      pending list, so the responses' pairs and the pairs still pending always make up the
      requested pairs; and the stream completes exactly when none is pending. */
  ghost predicate SubscriptionInv(requested: seq<Json>, s: State)
  {
    && (forall i :: 0 <= i < |s.emitted| ==> Field(s.emitted[i], "pair").Some?)
    && Pairs(s.emitted) + multiset(s.pending) == multiset(requested)
    && (s.end == Completed <==> s.pending == [] && s.emitted != [])
  }

  lemma {:induction false} SubscriptionStep(req: Request, requested: seq<Json>, s: State, inputs: seq<Input>)
    requires IsSubscriptionRequest(req.eventType)
    requires SubscriptionInv(requested, s)
    ensures SubscriptionInv(requested, Run(req, s, inputs))
    decreases |inputs|
  {
    if inputs != [] {
      SubscriptionStepOne(req, requested, s, inputs[0]);
      SubscriptionStep(req, requested, Step(req, s, inputs[0]), inputs[1..]);
    }
  }

  lemma SubscriptionStepOne(req: Request, requested: seq<Json>, s: State, input: Input)
    requires IsSubscriptionRequest(req.eventType)
    requires SubscriptionInv(requested, s)
    ensures SubscriptionInv(requested, Step(req, s, input))
  {
    if s.end == Live && input.Frame? && CorrectId(req.eventType, req.value, req.messageId, s.pending, input.message) {
      var m := input.message;
      var t := Step(req, s, input);
      MatchedPairPending(req.eventType, req.value, req.messageId, s.pending, m);
      PairsAppend(s.emitted, m);
      assert Pairs([m]) == multiset{m.fields["pair"]};
      assert forall i :: 0 <= i < |t.emitted| ==> Field(t.emitted[i], "pair").Some?;
    }
  }

  /** For a subscription request the responses' pairs and the pending pairs always
      partition the requested pairs, and the stream completes (inclusively, with the
      last response) once no pair is pending. */
  lemma SubscriptionBookkeeping(req: Request, requested: seq<Json>, inputs: seq<Input>)
    requires IsSubscriptionRequest(req.eventType)
    ensures var r := Run(req, Initial(requested), inputs);
            && Pairs(r.emitted) + multiset(r.pending) == multiset(requested)
            && |r.emitted| + |r.pending| == |requested|
            && (r.end == Completed <==> r.pending == [] && r.emitted != [])
  {
    SubscriptionStep(req, requested, Initial(requested), inputs);
    var r := Run(req, Initial(requested), inputs);
    PairsSize(r.emitted);
    assert |Pairs(r.emitted) + multiset(r.pending)| == |Pairs(r.emitted)| + |multiset(r.pending)|;
    assert |multiset(requested)| == |requested|;
  }

  lemma {:induction false} PairsSize(responses: seq<Json>)
    requires forall i :: 0 <= i < |responses| ==> Field(responses[i], "pair").Some?
    ensures |Pairs(responses)| == |responses|
  {
    if responses != [] {
      PairsSize(responses[1..]);
    }
  }

  /** `_response_ok(response, good_status, bad_status)`. */
  function ResponseOk(response: Json, good: string, bad: string): (r: Result<Json, Error>)
  {
    if !response.JObj? then Failure(Malformed)                 // `response['status']` raises a TypeError
    else if "status" !in response.fields then Failure(UnknownResponseType)
    else if response.fields["status"] == JStr(bad) then
      if "errorMessage" in response.fields then Failure(RequestResponseError(response.fields["errorMessage"]))
      else Failure(UnknownResponseType)
    else if response.fields["status"] == JStr(good) then Success(response)
    else Failure(RequestResponseError(JStr("Unknown status")))
  }

  /** The status interpretation, case by case. */
  lemma ResponseOkSpec(response: Json, good: string, bad: string)
    // the response is returned unchanged iff its status is the good one (and not also the bad one)
    ensures ResponseOk(response, good, bad).Success? <==>
              response.JObj? && HasString(response.fields, "status", good) && good != bad
    ensures ResponseOk(response, good, bad).Success? ==> ResponseOk(response, good, bad).value == response
    // the bad status raises its error message
    ensures response.JObj? && HasString(response.fields, "status", bad) && "errorMessage" in response.fields ==>
              ResponseOk(response, good, bad) == Failure(RequestResponseError(response.fields["errorMessage"]))
    // any other status raises "Unknown status"
    ensures response.JObj? && "status" in response.fields
            && response.fields["status"] != JStr(good) && response.fields["status"] != JStr(bad) ==>
              ResponseOk(response, good, bad) == Failure(RequestResponseError(JStr("Unknown status")))
    // a missing status, or a bad one without a message, is an unknown response type
    ensures response.JObj? && ("status" !in response.fields
            || (HasString(response.fields, "status", bad) && "errorMessage" !in response.fields)) ==>
              ResponseOk(response, good, bad) == Failure(UnknownResponseType)
  {
  }

  /** `response_ok()` as a map over the responses: the first failure ends the stream. */
  function CheckStatus(items: seq<Json>, end: End, good: string, bad: string): (r: Stream<Json>)
    ensures |r.items| <= |items| && r.items == items[..|r.items|]
    decreases |items|
  {
    if items == [] then Stream([], end)
    else match ResponseOk(items[0], good, bad)
      case Failure(e) => Stream([], Errored(e))
      case Success(v) =>
        var rest := CheckStatus(items[1..], end, good, bad);
        assert items == [items[0]] + items[1..];
        Stream([v] + rest.items, rest.end)
  }

  /** The position of the first response `_response_ok` rejects, or the length. */
  function FirstRejected(items: seq<Json>, good: string, bad: string): (k: nat)
    ensures k <= |items|
    ensures forall i :: 0 <= i < k ==> ResponseOk(items[i], good, bad).Success?
    ensures k < |items| ==> ResponseOk(items[k], good, bad).Failure?
  {
    if items == [] || ResponseOk(items[0], good, bad).Failure? then 0
    else 1 + FirstRejected(items[1..], good, bad)
  }

  /** `response_ok()` passes the responses before the first rejected one, unchanged, and
      ends with that response's error; when none is rejected it passes them all and ends
      as its upstream does. */
  lemma {:induction false} CheckStatusSpec(items: seq<Json>, end: End, good: string, bad: string)
    ensures var k := FirstRejected(items, good, bad);
            var r := CheckStatus(items, end, good, bad);
            && r.items == items[..k]
            && r.end == (if k < |items| then Errored(ResponseOk(items[k], good, bad).error) else end)
    decreases |items|
  {
    if items != [] && ResponseOk(items[0], good, bad).Success? {
      CheckStatusSpec(items[1..], end, good, bad);
      var k := FirstRejected(items, good, bad);
      assert items[..k] == [items[0]] + items[1..][..k - 1];
      assert k < |items| ==> items[k] == items[1..][k - 1];
    }
  }

  /** The response stream as the caller sees it. */
  function Response(req: Request, raiseOnStatus: bool, pending: seq<Json>, inputs: seq<Input>): Stream<Json>
  {
    var r := Run(req, Initial(pending), inputs);
    if raiseOnStatus then CheckStatus(r.emitted, r.end, "ok", "error") else Stream(r.emitted, r.end)
  }

  /** With `raise_on_status`, a subscription request never succeeds through the default
      `ok` status: Kraken answers `subscribed`, which `_response_ok` calls unknown. */
  lemma SubscribedIsUnknownStatus(response: map<string, Json>)
    requires HasString(response, "status", "subscribed")
    ensures ResponseOk(JObj(response), "ok", "error") == Failure(RequestResponseError(JStr("Unknown status")))
  {
  }

  /** `trigger_event(value, reqid)` and the subscription of its observable: the id is
      written into the request value before the value is sent, and for a subscription
      the pair list is copied when the request is built. The value is the trigger's own
      copy: the caller's dict is not shared with it. */
  class Trigger {
    const eventType: string
    const messageId: int
    /** Building the request raised. */
    const raised: bool
    /** The request value, which receives `reqid`. */
    var value: map<string, Json>
    /** What the sender observer received. */
    var sent: seq<map<string, Json>>
    var pending: seq<Json>
    var emitted: seq<Json>
    var end: End

    function Current(): State
      reads this
    {
      State(pending, emitted, end)
    }

    function Req(): Request
      reads this
    {
      Request(eventType, value, messageId)
    }

    /** Building the request: for a subscription request, `list(value['pair'])`
        raises when there is no usable `pair`, and no observable is returned. */
    constructor (eventType: string, value: map<string, Json>, reqid: int, clock: int)
      ensures this.eventType == eventType && this.value == value && sent == []
      ensures messageId == MessageId(reqid, clock)
      ensures raised <==> IsSubscriptionRequest(eventType) && PairList(value).None?
      ensures IsSubscriptionRequest(eventType) && !raised ==> Current() == Initial(PairList(value).value)
      ensures !IsSubscriptionRequest(eventType) ==> Current() == Initial([])
    {
      this.eventType := eventType;
      this.messageId := if reqid != 0 then reqid else clock;
      this.value := value;
      sent := [];
      pending := [];
      var failed := false;
      if IsSubscriptionRequest(eventType) {
        match PairList(value)
        case Some(pairs) => pending := pairs;
        case None => failed := true;
      }
      raised := failed;
      emitted := [];
      end := Live;
    }

    /** Subscribing: `value['reqid'] = message_id`, then `sender.on_next(value)`. */
    method Send()
      requires !raised
      modifies this
      ensures value == old(value)["reqid" := JInt(messageId)]
      ensures sent == old(sent) + [value]
      ensures Current() == old(Current())
    {
      value := value["reqid" := JInt(messageId)];
      sent := sent + [value];
    }

    method OnFrame(m: Json)
      modifies this
      ensures Current() == Step(old(Req()), old(Current()), Frame(m))
      ensures value == old(value) && sent == old(sent)
    {
      ghost var before := Current();
      var matched := end == Live && CorrectId(eventType, value, messageId, pending, m);
      if matched {
        emitted := emitted + [m];
        if !IsSubscriptionRequest(eventType) {
          end := Completed;
        } else {
          MatchedPairPending(eventType, value, messageId, pending, m);
          pending := RemoveFirst(pending, m.fields["pair"]);
          if pending == [] {
            end := Completed;
          }
          assert pending == RemoveFirst(before.pending, m.fields["pair"]);
        }
        assert emitted == before.emitted + [m];
      } else {
        assert Step(Req(), before, Frame(m)) == before;
      }
    }

    method OnTimeout()
      modifies this
      ensures Current() == Step(old(Req()), old(Current()), TimeoutFired)
      ensures value == old(value) && sent == old(sent)
    {
      if end == Live {
        end := Errored(Timeout);
      }
    }

    /** The message stream raised: the error passes the filter and the taker. */
    method OnMessagesError(e: Error)
      modifies this
      ensures Current() == Step(old(Req()), old(Current()), MessagesErrored(e))
      ensures value == old(value) && sent == old(sent)
    {
      if end == Live {
        end := Errored(e);
      }
    }
  }
}
