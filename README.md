# bittrade-kraken-websocket, modelled in Dafny

A model of the core of a reactive Python client for Kraken's websocket API. The client
opens public and private connections and reconnects with a back-off pattern. It classifies
every frame as a status, a heartbeat or a message. It subscribes to channels and guards
private channels with sequence numbers. It correlates requests with their responses, and
follows the lifecycle of added and cancelled orders. It also maintains a 10-level
order book and the set of order ids seen.

Observables become finite `Stream<T>` values in module `Streams`: a sequence of emitted
items and how the stream ended (`Live`, `Completed` or `Errored(e)`). Each reactive
operator becomes a function from the upstream stream to the downstream one. State that
the source updates in place becomes a class with fields:

- the back-off loop's flags and iterator;
- the request/response bookkeeping;
- the socket and the dicts it writes the token into;
- the subscription handles;
- the cancel-order factory and its request;
- the book accumulator;
- the order-id set.

Each such method is proved against a pure step function, and the properties are lemmas
about that function. JSON values are the datatype `Json.Json`.

Modules, one per source file:

| module | source |
|---|---|
| `Json` | the decoded JSON values |
| `Streams` | observables |
| `Sequence` | `messages/sequence.py` |
| `Reconnect` | `connection/reconnect.py` |
| `Kind` | `messages/filters/kind.py` |
| `Websocket` | `connection/enhanced_websocket.py` |
| `Subscribe` | `channels/subscribe.py` |
| `RequestResponse` | `events/request_response.py` |
| `Order` | `events/models/order.py` |
| `OpenOrders` | `channels/open_orders.py` |
| `AddOrder` | `events/add_order.py` |
| `CancelOrder` | `events/cancel_order.py` and `events/ids.py` |
| `OrderBook` | `channels/order_book.py` |
| `KeepOrderIds` | `operators/keep_order_ids.py` |
| `Status` | `connection/status.py` |
| `Generic` | `connection/generic.py` |
| `ConnectionOperators` | `connection/connection_operators.py` |

## Model

| member | source | states |
|---|---|---|
| Sequence.CorrectSequenceOrThrow | bittrade_kraken_websocket/messages/sequence.py:14-24 | an accepted frame is passed on unchanged |
| Sequence.CorrectSequenceSpec | bittrade_kraken_websocket/messages/sequence.py:14-24 | a predecessor numbered 0 accepts any next number; otherwise only previous + 1 is accepted, and anything else raises InvalidSequence |
| Sequence.GuardStep | bittrade_kraken_websocket/messages/sequence.py:27-32 | an accepted frame is emitted and becomes the predecessor of the next (pairwise) |
| Sequence.GuardEmitsPrefix | bittrade_kraken_websocket/messages/sequence.py:27-32 | the guard emits a prefix of its input, unchanged and in order |
| Sequence.GuardAllAccepted | bittrade_kraken_websocket/messages/sequence.py:27-32 | when every frame is accepted, the guard is the identity on the stream |
| Sequence.GuardStopsAtFirstRejection | bittrade_kraken_websocket/messages/sequence.py:27-32 | at the first rejected frame, exactly the frames before it are emitted and the stream errors with InvalidSequence |
| Sequence.ConsecutiveFramesPass | bittrade_kraken_websocket/messages/sequence.py:27-32 | frames numbered start, start+1, … pass in_sequence unchanged, whatever the start (start_with seeds sequence 0) |
| Sequence.GapAfterConsecutiveRun | bittrade_kraken_websocket/messages/sequence.py:27-32 | a gap after a consecutive run emits the run and then fails with InvalidSequence |
| Sequence.RepeatConcatenatesRuns | bittrade_kraken_websocket/messages/sequence.py:35-48 | catch+repeat yields run1, then the recovery after a gap, then run2, …, for as long as each run completes or ends in InvalidSequence (the stream stays open); the first run that ends otherwise, with another error or not at all, ends the output the same way |
| Sequence.SubscribedRunsSpec | bittrade_kraken_websocket/messages/sequence.py:35-48 | repeat subscribes the source once per run that completes or ends in a gap, plus once for the first run that does not |
| Sequence.FreshBaseline | bittrade_kraken_websocket/messages/sequence.py:27-32 | every re-subscription starts from a fresh baseline: its first frame is always accepted |
| Reconnect.StartInv | bittrade_kraken_websocket/connection/reconnect.py:62-80 | subscribing draws pattern(0) at once and establishes the loop invariant |
| Reconnect.RunKeepsInv | bittrade_kraken_websocket/connection/reconnect.py:62-98 | the loop invariant holds after any sequence of events: one delay per attempt, at most one stability watch |
| Reconnect.DelaysFollowPattern | bittrade_kraken_websocket/connection/reconnect.py:70-80 | between resets, the drawn delays are consecutive pattern values |
| Reconnect.FailuresNeverStabilize | bittrade_kraken_websocket/connection/reconnect.py:86-89 | the failure scenario holds no stabilization event |
| Reconnect.RunAppend | bittrade_kraken_websocket/connection/reconnect.py:62-89 | running a + b is running a, then b |
| Reconnect.FailuresDrawPattern | bittrade_kraken_websocket/connection/reconnect.py:62-89 | after n failures the delays are pattern(0..n), the loop waits again, and n attempts were made |
| Reconnect.KrakenBackoff | bittrade_kraken_websocket/connection/reconnect.py:16-21 | with kraken_patterns, repeated failures wait 0, 0, 1, 5, 5, … seconds |
| Reconnect.StabilizedRestartsPattern | bittrade_kraken_websocket/connection/reconnect.py:93-98 | after the stability watch completes, the next delays restart from pattern(0) |
| Reconnect.OnlyCompletionEnds | bittrade_kraken_websocket/connection/reconnect.py:70-89 | errors are swallowed (catch → empty): only the source's completion ends the loop |
| Reconnect.DoneIsFinal | bittrade_kraken_websocket/connection/reconnect.py:64-70 | after completion, no more delays, attempts or items |
| Reconnect.Backoff.constructor | bittrade_kraken_websocket/connection/reconnect.py:57-62 | the operator's initial state is Start(pattern) |
| Reconnect.Backoff.OnDelayElapsed | bittrade_kraken_websocket/connection/reconnect.py:78-86 | the back-off timer firing starts the watch and subscribes the source, as Step says |
| Reconnect.Backoff.OnSourceNext | bittrade_kraken_websocket/connection/reconnect.py:86-89 | an item of the source is passed through, as Step says |
| Reconnect.Backoff.OnSourceError | bittrade_kraken_websocket/connection/reconnect.py:70-88 | an error disposes the watch and draws the next delay, as Step says |
| Reconnect.Backoff.OnSourceCompleted | bittrade_kraken_websocket/connection/reconnect.py:66-70 | completion ends the loop, as Step says |
| Reconnect.Backoff.OnStabilized | bittrade_kraken_websocket/connection/reconnect.py:93-98 | stabilization replaces the iterator with a fresh one, as Step says |
| Kind.IsChannelMessageSpec | bittrade_kraken_websocket/messages/filters/kind.py:4-9 | only lists of length ≥ 3 pass; the second-to-last item must be one of the channels, or anything when no channel is given |
| Kind.KeepChannelMessages | bittrade_kraken_websocket/messages/filters/kind.py:12-13 | the filter ends exactly as its upstream does |
| Kind.KeepChannelMessagesSpec | bittrade_kraken_websocket/messages/filters/kind.py:12-13 | the filter keeps exactly the channel frames, in order, and distributes over concatenation |
| Websocket.WithTokenSpec | bittrade_kraken_websocket/connection/enhanced_websocket.py:24-31 | a public socket leaves the payload alone; a private one puts the token inside `subscription` when present, else at the top level; nothing else changes |
| Websocket.WithTokenIdempotent | bittrade_kraken_websocket/connection/enhanced_websocket.py:24-31 | adding the token twice is the same as adding it once |
| Websocket.Dict.constructor | bittrade_kraken_websocket/connection/enhanced_websocket.py:24-31 | a shared dict holds the given entries |
| Websocket.Payload.constructor | bittrade_kraken_websocket/connection/enhanced_websocket.py:24-31 | a payload is its top level plus, optionally, a shared subscription dict |
| Websocket.EnhancedWebsocket.constructor | bittrade_kraken_websocket/connection/enhanced_websocket.py:12-18 | a new socket has its token and has sent nothing |
| Websocket.EnhancedWebsocket.SendJson | bittrade_kraken_websocket/connection/enhanced_websocket.py:24-31 | writes the token into the caller's dict in place, sends exactly that dict once, and fails without sending when the subscription value is not a dict |
| Subscribe.FramesSpec | bittrade_kraken_websocket/channels/subscribe.py:18-31 | the subscribe frame has event, subscription {name, kwargs} and pair only when given; unsubscribe differs only in event |
| Subscribe.SentFramesSpec | bittrade_kraken_websocket/channels/subscribe.py:18-37 | through a private socket the token goes inside the subscription object of both frames |
| Subscribe.ChannelSubscription.constructor | bittrade_kraken_websocket/channels/subscribe.py:18-31 | both frames are built once and share one subscription dict |
| Subscribe.ChannelSubscription.SendFrame | bittrade_kraken_websocket/channels/subscribe.py:33-37 | sending either frame sends its contents with the token, even after the shared dict was already written; a private socket writes its token into the shared dict, a public one leaves it alone |
| Subscribe.ChannelSubscription.Subscribe | bittrade_kraken_websocket/channels/subscribe.py:39-47 | subscribing sends the subscribe frame once and returns a live handle |
| Subscribe.Handle.constructor | bittrade_kraken_websocket/channels/subscribe.py:42-45 | a new handle is not disposed |
| Subscribe.Handle.Dispose | bittrade_kraken_websocket/channels/subscribe.py:42-45 | the first dispose sends the unsubscribe frame; later ones send nothing |
| Subscribe.ChannelSubscriber.constructor | bittrade_kraken_websocket/channels/subscribe.py:52-71 | no socket subscription yet |
| Subscribe.ChannelSubscriber.OnSocket | bittrade_kraken_websocket/channels/subscribe.py:58-70 | switch_latest: the previous socket is unsubscribed and the new socket is sent its subscribe frame |
| Subscribe.PublicChannelUnguarded | bittrade_kraken_websocket/channels/subscribe.py:54-65 | public channels are not sequence-checked: channel frames pass unchanged |
| Subscribe.PrivateChannelGap | bittrade_kraken_websocket/channels/subscribe.py:54-65 | on a private channel a gap ends the run before the bad frame, and the recovery follows |
| Subscribe.PairAcceptedAsName | bittrade_kraken_websocket/channels/subscribe.py:60 | the pair is passed to the filter as a channel name, so a frame naming the pair there passes |
| Subscribe.PipelineFramesAlternate | bittrade_kraken_websocket/channels/subscribe.py:33-45 | over n subscriptions of the pipeline, subscribe and unsubscribe frames alternate, starting with subscribe, one unsubscribe per ended subscription |
| Subscribe.PrivateChannelResubscribes | bittrade_kraken_websocket/channels/subscribe.py:54-65 | on a private channel every run ended by a gap or completion disposes the subscription (unsubscribe) and repeat subscribes again (subscribe), so the socket receives subscribe, unsubscribe, subscribe, … once per run up to the first that does not continue |
| Subscribe.PublicChannelSubscribesOnce | bittrade_kraken_websocket/channels/subscribe.py:54-65 | a public channel is subscribed once: one subscribe frame, and one unsubscribe frame once the run has ended |
| RequestResponse.PairList | bittrade_kraken_websocket/events/request_response.py:27-30 | a list of pairs is copied and a string gives its characters; a missing pair key, a number, null or a dict gives nothing (raises) |
| RequestResponse.SentIdMatches | bittrade_kraken_websocket/events/request_response.py:19-65 | the reqid sent is the caller's when non-zero and the clock reading otherwise; with the right event, a response matches a plain request iff its reqid equals the one sent |
| RequestResponse.CorrectIdSpec | bittrade_kraken_websocket/events/request_response.py:32-41 | non-dicts never match; a plain request matches on reqid and event; a subscription matches on event and a pending pair; nothing pending means no match |
| RequestResponse.RemoveFirst | bittrade_kraken_websocket/events/request_response.py:45-48 | removing the pair takes exactly one occurrence off the pending list |
| RequestResponse.PairsAppend | bittrade_kraken_websocket/events/request_response.py:45-48 | the pairs answered distribute over appending a response |
| RequestResponse.PlainRequestTakesOne | bittrade_kraken_websocket/events/request_response.py:27-30 | a plain request lets at most one response through and completes with it |
| RequestResponse.PlainRequestStep | bittrade_kraken_websocket/events/request_response.py:27-30 | the at-most-one invariant of a plain request is kept by every input |
| RequestResponse.PlainRequestFirstMatch | bittrade_kraken_websocket/events/request_response.py:27-59 | the response is the first matching frame before any timeout |
| RequestResponse.TimeoutFirst | bittrade_kraken_websocket/events/request_response.py:50-59 | a timeout before any match fails the request with nothing emitted |
| RequestResponse.MessagesErrorFirst | bittrade_kraken_websocket/events/request_response.py:50-59 | an error of the messages stream before any match ends the response stream with that error and nothing emitted |
| RequestResponse.FinalStaysFinal | bittrade_kraken_websocket/events/request_response.py:27-59 | once ended, the response stream does not change |
| RequestResponse.SubscriptionStep | bittrade_kraken_websocket/events/request_response.py:27-48 | each response removes its pair from the pending pairs |
| RequestResponse.SubscriptionBookkeeping | bittrade_kraken_websocket/events/request_response.py:27-48 | pending pairs and the pairs answered always add up to the pairs requested, and the taker completes when none remain |
| RequestResponse.PairsSize | bittrade_kraken_websocket/events/request_response.py:45-48 | each response names one pair |
| RequestResponse.ResponseOkSpec | bittrade_kraken_websocket/events/request_response.py:77-101 | the good status passes the response unchanged; the bad status raises its errorMessage, or "Unknown response type" without one; a missing status raises "Unknown response type"; any other status raises "Unknown status"; a response that is not a dict raises |
| RequestResponse.CheckStatus | bittrade_kraken_websocket/events/request_response.py:104-105 | response_ok passes a prefix of the responses, unchanged |
| RequestResponse.CheckStatusSpec | bittrade_kraken_websocket/events/request_response.py:104-105 | response_ok passes exactly the responses before the first one it rejects and ends with that response's error; when it rejects none it passes them all and ends as its upstream does |
| RequestResponse.SubscribedIsUnknownStatus | bittrade_kraken_websocket/events/request_response.py:60-63 | with the default statuses, a "subscribed" answer counts as an unknown status |
| RequestResponse.Trigger.constructor | bittrade_kraken_websocket/events/request_response.py:19-41 | the message id is fixed at build time; a subscription without pairs raises; pending pairs are the requested ones |
| RequestResponse.Trigger.Send | bittrade_kraken_websocket/events/request_response.py:64-65 | reqid is written into the request value, which is then sent once; the bookkeeping does not change |
| RequestResponse.Trigger.OnFrame | bittrade_kraken_websocket/events/request_response.py:32-59 | a frame moves the bookkeeping as Step says; nothing is sent |
| RequestResponse.Trigger.OnTimeout | bittrade_kraken_websocket/events/request_response.py:50-59 | the timeout moves the bookkeeping as Step says |
| RequestResponse.Trigger.OnMessagesError | bittrade_kraken_websocket/events/request_response.py:50-59 | an error of the messages stream moves the bookkeeping as Step says |
| Order.EnumValuesSpec | bittrade_kraken_websocket/events/models/order.py:6-26 | each wire value of the order type, side and status enums names exactly one member, and no status is "closed" |
| Order.ParseStatusSpec | bittrade_kraken_websocket/events/models/order.py:21-26 | OrderStatus(value) gives the member whose wire value is value, and raises iff no member has it |
| Order.IsFinalStateSpec | bittrade_kraken_websocket/events/models/order.py:29-30 | final iff canceled or open; a raw status is never final |
| Order.ReplaceSpec | bittrade_kraken_websocket/events/models/order.py:35-45 | dataclasses.replace succeeds iff every keyword is a field name; named fields take the new values, the others carry over, and a replaced status is stored raw |
| OpenOrders.ClassificationSpec | bittrade_kraken_websocket/channels/open_orders.py:95-173 | what each status predicate accepts, and that they never overlap |
| OpenOrders.InitialDetailsToOrderSpec | bittrade_kraken_websocket/channels/open_orders.py:148-157 | the pending order built from descr.order, descr.price, vol and vol_exec; a missing field fails |
| AddOrder.AckToOrderSpec | bittrade_kraken_websocket/events/add_order.py:35-58 | succeeds iff the acknowledgment has txid and descr; the result is a submitted (not final) order with that txid and description and every other field defaulted |
| AddOrder.OrderRelatedSpec | bittrade_kraken_websocket/events/add_order.py:63-84 | only openOrders frames count; a dict entry is passed on (its value) iff it has the order id as a key; a list entry containing the id raises when the id is not an in-range index; a string entry containing the id raises, and so does a string `message[0]` whose first character contains it; anything else is dropped |
| AddOrder.StringFirstEntry | bittrade_kraken_websocket/events/add_order.py:68-74 | for the frame ["xyz", "openOrders"], the id "x" makes the filter raise and the id "y" drops the frame |
| AddOrder.RelatedEntries | bittrade_kraken_websocket/events/add_order.py:63-84 | the filter emits no more entries than it reads, and ends as its upstream does or with the raised error |
| AddOrder.RelatedEntriesSpec | bittrade_kraken_websocket/events/add_order.py:63-84 | the filter emits exactly the order's entries of the frames before the first one that raises; it errors there, and otherwise ends as its upstream does |
| AddOrder.UpdateOrderAsWrittenAlwaysFails | bittrade_kraken_websocket/events/add_order.py:87-101 | as written, every update fails, because `user_reference` is not a field of Order |
| AddOrder.RawStatusNeverFinal | bittrade_kraken_websocket/events/add_order.py:87-101 | with only the keyword corrected, an update stores the raw status string, which is never a final state |
| AddOrder.UpdateOrderSpec | bittrade_kraken_websocket/events/add_order.py:87-101 | the corrected update succeeds iff the entry is a dict with userref and a status naming an OrderStatus; the status is that member, final iff canceled or open; reference comes from userref, vol, vol_exec and open_tm when present, and every other field carries over |
| AddOrder.FoldSpec | bittrade_kraken_websocket/events/add_order.py:111 | scan emits, for each entry, the update of the previously emitted order (the seed first); it stops at the first failing update with its error, and otherwise ends as its upstream does |
| AddOrder.TakeWhileInclusive | bittrade_kraken_websocket/events/add_order.py:111-114 | take_while(inclusive) emits a prefix of its input |
| AddOrder.TakeWhileInclusiveSpec | bittrade_kraken_websocket/events/add_order.py:111-114 | every item but the last passes the test; when all pass the stream is unchanged, otherwise it completes on the first failure |
| AddOrder.LifecycleSpec | bittrade_kraken_websocket/events/add_order.py:103-124 | the first order is the submitted one and the rest a prefix of the folded updates; every order before the last is not final; the stream completes at the first final order, and when none is final all updates pass and it ends as the fold does |
| AddOrder.LifecycleAsWrittenErrors | bittrade_kraken_websocket/events/add_order.py:87-124 | as written, the lifecycle emits the submitted order and then errors at the first related entry |
| AddOrder.FinalPredicateStopsAtPending | bittrade_kraken_websocket/events/add_order.py:111-114 | with the corrected update but the take_while test as written, the test feed ends after the pending order |
| AddOrder.LifecycleTestFeed | tests/events/test_add_order.py:33-62 | on a feed reconstructed from the orders the test expects (a pending entry with volume 10, then an open one), the corrected lifecycle emits submitted, pending and open, with those volumes and the order id, and completes |
| AddOrder.OrderLifecycle.constructor | bittrade_kraken_websocket/events/add_order.py:103-124 | the lifecycle keeps its request and connection |
| AddOrder.OrderLifecycle.Subscribe | bittrade_kraken_websocket/events/add_order.py:103-124 | subscribing writes the token into the request (when it can), sends exactly that request once, and yields Lifecycle's orders; a request the token cannot go into is neither changed nor sent |
| CancelOrder.DefaultedSpec | bittrade_kraken_websocket/events/cancel_order.py:138-147 | a falsy event becomes cancelOrder; a falsy reqid takes the next id; other values are kept; filling in twice is filling in once |
| CancelOrder.IdSupply.constructor | bittrade_kraken_websocket/events/ids.py:6-8 | nothing drawn yet |
| CancelOrder.IdSupply.Peek | bittrade_kraken_websocket/events/ids.py:6-8 | ids are the uuid's low 64 bits |
| CancelOrder.IdSupply.Next | bittrade_kraken_websocket/events/ids.py:6-8 | next(id_iterator) returns the peeked id and advances by one |
| CancelOrder.CancelOrderRequest.constructor | bittrade_kraken_websocket/events/cancel_order.py:33-37 | the request holds its txids, reqid and event |
| CancelOrder.AsDictRoundTrip | bittrade_kraken_websocket/events/cancel_order.py:33-37 | asdict has exactly the keys txid, reqid and event, and reading them back gives the request's fields |
| CancelOrder.CancelLifecycle.constructor | bittrade_kraken_websocket/events/cancel_order.py:105-121 | the lifecycle keeps its request and connection |
| CancelOrder.CancelLifecycle.Subscribe | bittrade_kraken_websocket/events/cancel_order.py:105-121 | subscribing sends the request dict once; a private socket adds the token at the top level |
| CancelOrder.CancelOrderFactory.constructor | bittrade_kraken_websocket/events/cancel_order.py:124-149 | no socket yet |
| CancelOrder.CancelOrderFactory.OnSocket | bittrade_kraken_websocket/events/cancel_order.py:124-149 | remembers the latest socket |
| CancelOrder.CancelOrderFactory.CancelOrder | bittrade_kraken_websocket/events/cancel_order.py:138-147 | no socket fails and changes nothing; otherwise defaults are filled in place, an id is drawn only if needed, and the current socket is bound |
| OrderBook.ToOrderBookPayloadSpec | bittrade_kraken_websocket/channels/order_book.py:28-58 | fails iff the frame is not a list of at least 3 items, or its third item is a dict and its second is not; a dict third item is merged over the second, its keys winning; otherwise the second item is the payload |
| OrderBook.IndexOf | bittrade_kraken_websocket/channels/order_book.py:64-92 | finds the position of a price, if present |
| OrderBook.LookupSpec | bittrade_kraken_websocket/channels/order_book.py:64-92 | a price is found iff a level has it |
| OrderBook.UpsertSpec | bittrade_kraken_websocket/channels/order_book.py:64-92 | upserting sets the price's level and leaves every other price alone |
| OrderBook.RemoveSpec | bittrade_kraken_websocket/channels/order_book.py:64-92 | removing drops exactly that price |
| OrderBook.ApplyLevelSpec | bittrade_kraken_websocket/channels/order_book.py:64-92 | a zero volume removes the price; any other volume sets it |
| OrderBook.ApplyLevelsKeyed | bittrade_kraken_websocket/channels/order_book.py:64-92 | prices stay unique after applying updates |
| OrderBook.ApplyLevelsUntouched | bittrade_kraken_websocket/channels/order_book.py:64-92 | prices the updates do not name keep their level |
| OrderBook.ApplyLevelsLastWrite | bittrade_kraken_websocket/channels/order_book.py:64-92 | for a named price, the last update wins |
| OrderBook.SelectLevelsSpec | bittrade_kraken_websocket/channels/order_book.py:64-92 | a non-empty snapshot list wins; otherwise the update list; otherwise no levels |
| OrderBook.BestIndex | bittrade_kraken_websocket/channels/order_book.py:94-95 | finds a best-ranked level |
| OrderBook.RemoveAt | bittrade_kraken_websocket/channels/order_book.py:94-95 | removing one level shortens the side by one |
| OrderBook.RemoveAtSpec | bittrade_kraken_websocket/channels/order_book.py:94-95 | removing one level keeps every other level |
| OrderBook.TakeBest | bittrade_kraken_websocket/channels/order_book.py:94-95 | sort+slice keeps min(n, size) levels, sorted, each kept level ranking before every dropped one |
| OrderBook.BookPrice.constructor | bittrade_kraken_websocket/channels/order_book.py:60-62 | an empty book |
| OrderBook.BookPrice.Accumulate | bittrade_kraken_websocket/channels/order_book.py:60-97 | each side becomes the best 10 levels of the old side with the frame's updates applied; the same accumulator is returned |
| OrderBook.AccumulatedSide | bittrade_kraken_websocket/channels/order_book.py:60-97 | at most 10 levels are kept, and a price whose last update has zero volume is absent |
| KeepOrderIds.KeysOfSpec | bittrade_kraken_websocket/operators/keep_order_ids.py:6-9 | the ids collected are exactly the keys of the payload's dicts |
| KeepOrderIds.FirstNonDict | bittrade_kraken_websocket/operators/keep_order_ids.py:6-9 | finds the first entry that is not a dict |
| KeepOrderIds.OrderIdSet.constructor | bittrade_kraken_websocket/operators/keep_order_ids.py:16-18 | the scan starts from an empty set |
| KeepOrderIds.OrderIdSet.AddToSet | bittrade_kraken_websocket/operators/keep_order_ids.py:6-9 | adds every dict's keys in place; succeeds iff all entries are dicts; on failure the keys before the bad entry were added |
| KeepOrderIds.Scan | bittrade_kraken_websocket/operators/keep_order_ids.py:16-18 | every snapshot contains the seed |
| KeepOrderIds.ScanSpec | bittrade_kraken_websocket/operators/keep_order_ids.py:16-18 | snapshots only grow, each holds its payload's ids, and one snapshot per payload when all are well formed |
| KeepOrderIds.DistinctBySize | bittrade_kraken_websocket/operators/keep_order_ids.py:19 | emits a subset of the snapshots |
| KeepOrderIds.DistinctBySizeSteady | bittrade_kraken_websocket/operators/keep_order_ids.py:19 | snapshots of an unchanged size emit nothing |
| KeepOrderIds.DistinctBySizeSpec | bittrade_kraken_websocket/operators/keep_order_ids.py:19 | on growing snapshots, emitted sizes strictly increase, the first is always emitted, and the final size always is |
| KeepOrderIds.DistinctBySizeEmitsChanges | bittrade_kraken_websocket/operators/keep_order_ids.py:19 | every snapshot whose size differs from the one before it is emitted, and so is the first unless its size is the one last emitted |
| KeepOrderIds.ReduceOrderIdsSpec | bittrade_kraken_websocket/operators/keep_order_ids.py:11-20 | subscribers see snapshots of the scan in strictly growing size: the first one, every one that grew, and last the final snapshot itself, which holds every id of every payload scanned |
| Status.ConnectedSocketSpec | bittrade_kraken_websocket/connection/status.py:10-15 | exactly the sockets paired with WEBSOCKET_OPENED pass; distributes over concatenation; closed-only gives nothing |
| Generic.UrlSpec | bittrade_kraken_websocket/connection/generic.py:27-29 | the auth URL iff a token generator is given |
| Generic.OnMessageSpec | bittrade_kraken_websocket/connection/generic.py:46-56 | a heartbeat, a systemStatus (its status) or a message, each with its payload |
| Generic.Bundles | bittrade_kraken_websocket/connection/generic.py:32-56 | the connection emits no more bundles than there are callbacks |
| Generic.BundlesSpec | bittrade_kraken_websocket/connection/generic.py:32-56 | every bundle carries the socket and one of the three categories; the stream never completes; an error ends with a CLOSED bundle; it stays live iff every event is delivered |
| ConnectionOperators.SocketStatusOnlySpec | bittrade_kraken_websocket/connection/connection_operators.py:9-11 | exactly the status bundles pass, in order |
| ConnectionOperators.ConnectedSocketSpec | bittrade_kraken_websocket/connection/connection_operators.py:19-27 | exactly the sockets of OPENED status bundles pass, in order |
| ConnectionOperators.ConnectedSocketOfConnection | bittrade_kraken_websocket/connection/connection_operators.py:14-27 | one connection yields only its own socket, first when it opens |
| ConnectionOperators.StatusConnectedSocketOnBundles | bittrade_kraken_websocket/connection/status.py:10-15 | status.connected_socket never matches the category string of a bundle |

## Left out

- The transport itself: websocket-client, threads, schedulers and timers. Frames arrive as already-decoded `Json` values, and the clock, the uuids and the heartbeat test are parameters.
- orjson's parsing and serialisation. `send_json` is modelled as sending the dict value.
- The timeout merge in events/request_response.py is an input event `TimeoutFired`, not a timer.
- Floating point and `Decimal`: prices are ordered by a `parse: string -> real` parameter, and Decimal fields of orders are stored as the JSON values given.
- OrderBook: two price strings that denote the same number are separate keys. The order of levels with equal prices after the sort is not stated.
- OrderBook: the conversion of JSON book arrays into `Level` values is not modelled; updates arrive as `Level`s.
- OrderBook.ToOrderBookPayloadSpec: the in-place merge of the second payload dict into the shared message object is modelled as a value.
- KeepOrderIds.ReduceOrderIdsSpec: every emission is the same set object in the source. The model emits snapshots, so later mutation of emitted sets (aliasing) is not captured.
- KeepOrderIds.ReduceOrderIdsSpec: the scan's seed `set()` is created once per `reduce_order_ids()` call, and `add_to_set` mutates it, so every subscription to the returned operator shares that one set and a second subscription starts from the first one's ids. The model starts each subscription from the empty set.
- OrderBook.BookPrice.Accumulate: the scan's `BookPrice` seed is created once per `subscribe_order_book(...)` call (order_book.py:111), not at module level, and is shared by every subscription to that operator. Each accumulation is modelled from a given accumulator.
- OrderBook.ToOrderBookPayload: a payload that is not a list is rejected. A string of at least three characters would be indexed by Python and give `payload[1]`, a character; the channel filter passes only lists, so such a payload does not reach it.
- events/events.py is not part of this model: `EVENT_SUBSCRIBE` is taken as "subscribe" and `EVENT_CANCEL_ORDER` as "cancelOrder". channels/channels.py is not part of this model either: channel names are strings, and ownTrades and openOrders are private.
- messages/heartbeat.py is not part of this model: the heartbeat test is a parameter of `Generic.OnMessage`.
- `wait_for_response`, `retry_on_invalid_sequence` and `id_iterator` are used but not defined in the source (events/ids.py defines `id_generator`; `CancelOrder.IdSupply` models the iterator the import expects). The acknowledgment of an add-order request is a parameter, the cancel response path is not modelled, and the recovery stream of a sequence gap is a parameter.
- connection/generic.py:61 passes the token generator positionally, but `EnhancedWebsocket.__init__` takes `token` as a keyword-only argument (connection/enhanced_websocket.py:16), so building the connection raises TypeError as written. The model assumes the intended keyword call, with the socket's token as a parameter.
- A raised exception in `on_message` is routed to the close path: the stream ends with a CLOSED bundle and an error, as the websocket library does with callback errors.
- AddOrder.RelatedEntries: an exception in the order filter ends the order stream with `Errored(Malformed)`. Where the source's exception surfaces (producer or subscriber) is not modelled.
- The mapper and the order filter of events/cancel_order.py are textually the same as those of events/add_order.py. They are modelled once, as AddOrder.AckToOrder and AddOrder.OrderRelated.
- RequestResponse.PairList: a dict as the pair value raises in the model, where Python would list its keys. A `map` keeps no key order, so that list cannot be stated.
- RequestResponse.Step: when the messages or timeout stream completes without an error, the merge completes only once both have. Those completions are not inputs of the model, so a response stream left waiting stays `Live`.
- Subscribe.PrivateChannelResubscribes counts the subscribe and unsubscribe frames of the repeated pipeline over the observed runs. When the last observed run ends in a gap, `repeat` has already subscribed once more and sent one more subscribe frame; the count stops before that frame. The frames that the recovery stream itself sends, and where they fall relative to the unsubscribe frame, are not modelled: the recovery is a parameter.
- Reconnect.Backoff: the source creates the delays iterator, `_is_first` and the stable-subscription holder once per operator, so a second subscription carries on from the first one's state. The model starts each subscription from `Start(pattern)`.
- RequestResponse.Trigger.Send: the request value is a value field of the trigger, so the caller that passed the dict does not see the `reqid` written into it, as it would in the source.
- AddOrder.LifecycleTestFeed: the recorded feed addOrder_messages_feed.json that the repository's test replays is not part of this model. The feed is reconstructed from the orders the test expects.
- Sequence.RepeatOnInvalidSequence: the recovery is one fixed stream, used the same way after every gap. In the source, `do_this_first` is subscribed again at each repeat and may behave differently each time.
- Sequence: tests/messages/test_in_sequence.py:11-22 expects behaviour that the code does not have. The model follows messages/sequence.py.
- Subscribe: `share()` and reference counting of subscribers are not modelled; one subscriber is assumed.
- Logging is left out throughout.

## Findings

| source | as written | input that shows it | evidently intended | confidence | as-written member | corrected member |
|---|---|---|---|---|---|---|
| bittrade_kraken_websocket/events/add_order.py:90 | `dataclasses.replace` is called with `user_reference=`, which is not a field of `Order`, so it raises TypeError for every update, and the lifecycle errors at the first related entry | any openOrders entry for the order, e.g. `{"status": "open", "userref": 0}` | set `reference` from the entry's `userref` | not executed | AddOrder.UpdateOrderAsWritten (AddOrder.UpdateOrderAsWrittenAlwaysFails, AddOrder.LifecycleAsWrittenErrors) | AddOrder.UpdateOrder (AddOrder.UpdateOrderSpec) |
| bittrade_kraken_websocket/events/add_order.py:89 | the status is stored as the raw string from the message, which is never `OrderStatus.canceled` or `OrderStatus.open`, so `is_final_state` is false for every update | the entry `{"status": "open", "userref": 0}` | convert it with `OrderStatus(message['status'])`, as the repository's test expects `OrderStatus.pending` and `OrderStatus.open` | not executed | AddOrder.UpdateOrderRawStatus (AddOrder.RawStatusNeverFinal) | AddOrder.UpdateOrder (AddOrder.UpdateOrderSpec) |
| bittrade_kraken_websocket/events/add_order.py:113 | take_while keeps going while `is_final_state(o.status)` holds, so an inclusive take_while stops at the first order that is not final | the test feed of tests/events/test_add_order.py:33-62: it stops after the pending order instead of the open one | `not is_final_state(o.status)`: follow the order until it reaches a final state | not executed | AddOrder.KeepWhileFinal (AddOrder.FinalPredicateStopsAtPending) | AddOrder.KeepWhileNotFinal (AddOrder.LifecycleSpec, AddOrder.LifecycleTestFeed) |
