# rpc-chrome: a verified model of the channel-multiplexed request/reply protocol

`src/chrome.ts` layers a request/reply protocol over Chrome extension
messaging. A **Responder** listens on a *channel*. It keeps handler lists
per method name, plus a list of *universal* handlers that run for every
request. It answers each request with the result of the last handler that
ran, or with an error message if a handler throws. A **Requester** sends
`{type: "request", channel, method, args}` and turns the single reply into
the call's result, or into a thrown `Error in method <name>: <message>`.

This model covers that logic with the Chrome APIs and `async` removed:

- `wire.dfy` (module `Wire`): the untyped JavaScript values that cross the
  messaging boundary, and the JavaScript operators the source relies on
  (`typeof`, truthiness, `in`, `?.`, template-literal text). It also holds
  the three classifiers `belongsToChannelSimple`, `isRequest` and `isError`,
  and the two message shapes.
  `in` carries a precondition, because JavaScript throws on `in` against a
  non-object. The classifiers verifying against it is the proof that they
  never throw.
- `registry.dfy` (module `Registry`): `removeFromArray`, together with the
  `indexOf` search it performs. Both are proved against a reference
  definition that removes the first occurrence.
- `responder.dfy` (module `Responding`): the `Responder` class, with its
  `handlers` map and `universalHandlers` list as fields that its methods
  update in place. What a handler does is abstract. A function `run` gives
  the outcome of each invocation: `Ok(value)` or `Throw(thrown value)`.
  `handleRequest` returns what it sends and the ordered list of handler calls
  it made. It is proved equal to a left fold over the schedule "universal
  handlers, then named handlers". The ordering and precedence properties are
  lemmas about that fold.
- `requester.dfy` (module `Requesting`): `call`/`callTab` as the delivery
  they produce, the tab filter used for broadcasts, and the `.then` mapping
  from a reply to the call's result.
- `protocol.dfy` (module `Protocol`): the two sides composed, plus the two
  concrete ping scenarios.

Behaviour of the code worth knowing, all proved:

- A method whose list exists but is empty still gets a reply, because `[]`
  is truthy: `undefined` when there are no universal handlers
  (`EmptyListRepliesUndefined`), otherwise, when none of them throws, the
  last universal handler's result (`EmptyListRepliesLastUniversal`). Unsubscribing the last handler never
  deletes the list. So subscribing and then unsubscribing turns "no reply"
  into "reply `undefined`" (`EmptiedListStillReplies`).
- With no list for the method but some universal handler, the reply is the
  last universal handler's result (`UniversalAnswersUnknownMethod`).
- The cancel function returned by `subscribe` removes the *first* occurrence
  of the handler. If the same handler was subscribed twice, cancelling the
  second subscription removes the earlier copy (`RemoveAfterAppend`).
- A handler result that is itself error-shaped makes the caller reject
  (`Settle`).
- An error reply whose `message` is an object with its own `toString` field
  (or an array holding one) does not become "Error in method ...": building
  that text throws a TypeError, and the call rejects with it
  (`ToStringFieldRejectsWithTypeError`).

## Model

| member | source | states |
|---|---|---|
| `Wire.BelongsToChannelSimple` | src/chrome.ts:3-17 | never throws (every `in` is guarded); true exactly for an object that has both `channel` and `type` and whose `channel` is the given string; false for non-objects, `null` and objects missing either field |
| `Wire.IsRequest` | src/chrome.ts:19-27 | never throws; true exactly for an object with `type === "request"`, a string `method` and an array `args` |
| `Wire.IsError` | src/chrome.ts:30-36 | never throws; true exactly for an object with `type === "error"` and an `error` field, whatever that field's shape |
| `Wire.RequestIsNotError` | src/chrome.ts:19-36 | no message is both a request and an error |
| `Wire.RequestMessage` | src/chrome.ts:182-187 | the request a Requester builds is classified as a request (not an error); it belongs to its own channel and to no other; and it decodes back to the same method name and arguments |
| `Wire.ErrorMessage` | src/chrome.ts:115-122 | the error reply is classified as an error (not a request) on the Responder's channel, and carries the given message and stack under `error` |
| `Registry.RemoveAbsent` | src/chrome.ts:146-152 | removing an item that is absent leaves the list unchanged |
| `Registry.RemoveAt` | src/chrome.ts:146-152 | when the item's first occurrence is at `i`, the result is the elements before `i` followed by the elements after it, in the same order |
| `Registry.RemoveCounts` | src/chrome.ts:146-152 | the length drops by one exactly when the item was present, and the removed element is one copy of that item (multiset difference) |
| `Registry.RemoveAfterAppend` | src/chrome.ts:125-128 | cancelling right after a subscription restores the list if the handler was not already in it; otherwise the earlier copy is removed and the new one stays at the end |
| `Registry.IndexOf` | src/chrome.ts:147-148 | returns the first index holding the item, or -1 exactly when the item is absent |
| `Registry.RemoveFromArray` | src/chrome.ts:146-152 | the resulting list is the input with the first occurrence of the item removed |
| `Responding.Respond` | src/chrome.ts:99-111 | no reply exactly when the method has no list and the universal list is empty; an error reply names the Responder's channel |
| `Responding.FoldAppend` | src/chrome.ts:100-108 | awaiting two handler groups one after the other equals awaiting the first group, then continuing from its last result only if nothing threw; the calls made compose the same way |
| `Responding.FoldOkIffAllOk` | src/chrome.ts:100-113 | the handler loop ends normally exactly when no handler throws |
| `Responding.LastCallWins` | src/chrome.ts:101-108 | when nothing throws, every handler is called in order and the response is the last handler's result, or the initial `undefined` if no handler ran |
| `Responding.FirstThrowStops` | src/chrome.ts:100-113 | the first handler that throws decides the outcome, and no later handler is called |
| `Responding.RespondIsFold` | src/chrome.ts:99-123 | dispatch is one left fold over universal handlers followed by named handlers: silent when there is no list and no universal handler, otherwise a reply with the fold's result or an error reply with the first thrown value |
| `Responding.DispatchOrder` | src/chrome.ts:102-108 | when nothing throws, all universal handlers run in registration order, then all handlers for the method in registration order, and nothing else runs |
| `Responding.NamedHandlerWins` | src/chrome.ts:105-111 | with a non-empty list for the method, the reply is the last named handler's result, overriding every universal handler's result |
| `Responding.UniversalAnswersUnknownMethod` | src/chrome.ts:102-111 | with no list for the method but some universal handler, the reply is the last universal handler's result |
| `Responding.EmptyListRepliesUndefined` | src/chrome.ts:105-111 | a list that exists but is empty, with no universal handler, still yields a reply: `undefined` |
| `Responding.EmptyListRepliesLastUniversal` | src/chrome.ts:102-111 | a list that exists but is empty, beside some universal handler and no throw, yields a reply: the last universal handler's result |
| `Responding.ThrowBecomesErrorReply` | src/chrome.ts:113-123 | if the `k`-th scheduled handler is the first to throw, the reply is `{type: "error"}` on this channel with the thrown value's `message` and `stack`, and exactly the first `k+1` calls were made |
| `Responding.EmptiedListStillReplies` | src/chrome.ts:130-136 | subscribing a handler under a new name and unsubscribing it leaves an empty list behind; this turns "no reply" into "reply `undefined`" |
| `Responding.InheritedNameRepliesError` | src/chrome.ts:105-108 | as written: a request for a name inherited from `Object.prototype`, sent to an empty Responder, gets an error reply carrying the TypeError; the corrected dispatch sends no reply |
| `Responding.LookupAsWritten` | src/chrome.ts:105-106 | as written, the lookup finds a truthy non-list exactly for a name that has no own list and is inherited from `Object.prototype`; for every other name it agrees with the own-entries lookup |
| `Responding.RespondAsWritten` | src/chrome.ts:99-123 | as written, an inherited name without an own list only ever gets an error reply on the channel; every other name gets the same response as from `Respond` |
| `Responding.SubscribeAsWritten` | src/chrome.ts:125-128 | as written, `subscribe` throws exactly for an inherited name without an own list; otherwise it appends the handler to the name's list |
| `Responding.UnsubscribeAsWritten` | src/chrome.ts:130-136 | as written, `unsubscribe` throws exactly for an inherited name without an own list; otherwise it is a no-op without a list, or removes the first occurrence |
| `Responding.InheritedNameRegistryThrows` | src/chrome.ts:125-136 | as written, on an empty Responder, both subscribing and unsubscribing under an inherited name throw the TypeError |
| `Responding.AwaitEach` | src/chrome.ts:107-108 | the loop over one handler list returns the fold's outcome and exactly the calls the fold makes |
| `Responding.Responder.constructor` | src/chrome.ts:76-86 | a new Responder has the given channel, no handler lists and no universal handlers |
| `Responding.Responder.OnMessageEvent` | src/chrome.ts:92-98 | an off-channel message is ignored: the handler returns `undefined`, nothing is sent, no handler runs; an on-channel message returns `true`; it is dispatched only if it is a request, with the dispatch's reply and call list |
| `Responding.Responder.HandleRequest` | src/chrome.ts:99-124 | sends what `Respond` gives and calls exactly the handlers the fold over the schedule calls, in that order |
| `Responding.Responder.Subscribe` | src/chrome.ts:125-129 | appends the handler to the end of the name's list, creating the list if absent; every other list and the universal list are unchanged; returns a cancel capability for that name and handler |
| `Responding.Responder.Unsubscribe` | src/chrome.ts:130-136 | no-op when the name has no own list (the corrected lookup; as written an inherited name throws, see Findings); otherwise removes the handler's first occurrence from that list only; the list is never deleted |
| `Responding.Responder.SubscribeUniversal` | src/chrome.ts:137-141 | appends the handler to the universal list only |
| `Responding.Responder.UnsubscribeUniversal` | src/chrome.ts:142-144 | removes the handler's first occurrence from the universal list only |
| `Responding.Responder.Cancel` | src/chrome.ts:125-141 | the returned capability removes the first occurrence of the handler from the list it was pushed onto, and changes nothing else |
| `Requesting.Call` | src/chrome.ts:178-187 | a broadcast exactly when a query is set; otherwise sent to the runtime; the request is one that a Responder on the same channel, and only there, decodes as this method with these arguments |
| `Requesting.CallTab` | src/chrome.ts:197-207 | the same request, addressed to the given tab |
| `Requesting.IsInvalidTabId` | src/chrome.ts:55-57 | a tab is skipped exactly when it has no id, its id is 0 (falsy), or its id is `TAB_ID_NONE` |
| `Requesting.BroadcastTargets` | src/chrome.ts:165-177 | the tabs called are exactly the listed ids that are present, non-zero and not `TAB_ID_NONE` |
| `Wire.ToText` | src/chrome.ts:189 | `${v}` throws exactly for an object with its own `toString` field or an array holding such a value at any depth; a string is its own text; any other object is "[object Object]" |
| `Requesting.Reason` | src/chrome.ts:189 | a falsy remote message, including the empty string, becomes "Unknown error"; a non-empty string message is used as it is; the text fails exactly when the message's conversion throws |
| `Requesting.Settle` | src/chrome.ts:187-194 | resolves with the reply unchanged exactly when it is not error-shaped; an error-shaped reply fails with the conversion's TypeError exactly when its remote message has no text form, and otherwise rejects with "Error in method <name>: <reason>" and the remote stack |
| `Requesting.ToStringFieldRejectsWithTypeError` | src/chrome.ts:187-190 | an error reply whose message is `{toString: "x"}`, or an array holding it, makes the call fail with the TypeError instead of "Error in method ..." |
| `Requesting.CallResult` | src/chrome.ts:178-194 | a broadcast call resolves with `undefined` and never fails; a point-to-point call stays pending exactly when no reply comes; otherwise it settles as `Settle` says |
| `Protocol.CallRoundTrip` | src/chrome.ts:182-194 | a call reaches a same-channel Responder as the same method and arguments; silence keeps the call pending; an error reply rejects with the method name, remote reason and stack, or with the TypeError when the remote message has no text form; a reply that is not error-shaped resolves unchanged |
| `Protocol.ThrownErrorReachesCaller` | src/chrome.ts:113-123 | for any registry, universal list and handler behaviour: if the `k`-th scheduled handler is the first to throw an error with message `m` and stack `s`, the reply is the error reply with `m` and `s`, and the caller rejects with "Error in method <name>: m" ("Unknown error" when `m` is empty) and stack `s` |
| `Protocol.PingPong` | src/chrome.ts:99-111 | channel "ext", method "ping", one handler returning "pong": the reply and the call's result are "pong" |
| `Protocol.PingFails` | src/chrome.ts:113-123 | the "ping" handler throws `Error("fail")`: the reply is `{type: "error", channel: "ext", error: {message: "fail", stack}}` and the call rejects with "Error in method ping: fail" |

## Findings

| source | as written | input that shows it | evidently intended | confidence | as-written member | corrected member |
|---|---|---|---|---|---|---|
| src/chrome.ts:105-108 | `this.handlers` is a plain object `{}`. `this.handlers[msg.method]` also finds names inherited from `Object.prototype`, and those values are truthy but not iterable. `for..of` then throws a TypeError, which is sent back as an error reply | a request `{type: "request", channel, method: "toString", args: []}` to a Responder with no handlers | a name with no handler list of its own gets no reply | medium, not executed | `Responding.InheritedNameRepliesError` | `Responding.Respond` |
| src/chrome.ts:125-128 | the same inherited lookup in `subscribe`. It throws, because `||=` keeps the inherited value, which has no `push` | `subscribe("toString", h)` on a Responder with no handlers | any name can be subscribed | medium, not executed | `Responding.InheritedNameRegistryThrows` | `Responding.Responder.Subscribe` |
| src/chrome.ts:130-136 | the same inherited lookup in `unsubscribe`. It throws, because the value passes the `if (!handlers)` guard and has no `indexOf` | `unsubscribe("toString", h)` on a Responder with no handlers | unsubscribing a name without a list does nothing | medium, not executed | `Responding.InheritedNameRegistryThrows` | `Responding.Responder.Unsubscribe` |

The rest of the model uses the corrected lookup, which reads only the
registry's own entries (`OwnLookup`). `Responding.RespondAsWritten`,
`SubscribeAsWritten` and `UnsubscribeAsWritten` keep the lookup as written.
Their contracts show that they differ from the corrected operations only on
inherited names.

## Left out

- The constructor's listener registration (`chrome.runtime.onMessage` and, with `config.external`, `onMessageExternal`) is platform I/O. The model calls `OnMessageEvent` directly.
- `chrome.runtime.sendMessage`, `chrome.tabs.sendMessage` and `chrome.tabs.query` are platform I/O. A call is modelled as the `Delivery` it produces. The reply it gets back, and the tab ids a query returns, are parameters.
- `TAB_ID_NONE` is a platform constant, so it is the parameter `tabIdNone`.
- `async`/`await` scheduling is not modelled. Neither is interleaving across requests, nor a handler changing the registry during a dispatch. One dispatch is a sequential fold over the lists as they stood when it started.
- Handlers share `msg.args` by reference: universal handlers receive the array itself, and named handlers get its contents spread at the time of their call. A handler that mutates `args` therefore changes what later handlers receive. The model passes the same fixed `req.args` to every handler, so `DispatchOrder` and the other dispatch lemmas assume no handler mutates `args`.
- A `Subscription` records the name and the handler, but not the Responder that issued it. In the source, the cancel closure is bound to its own Responder's list. `Cancel` assumes it is called on the Responder that issued the subscription.
- Handler code is not modelled. `run` gives each invocation's outcome, and that outcome depends on nothing but the invocation. In particular, a handler subscribed twice under one name gives the same outcome on both calls.
- `console.error` logging in the `catch` has no effect on the reply.
- JSON serialisation by the transport is not modelled. For example, a `stack: undefined` field is dropped in transit. This does not change the caller's result, because `?.` reads a missing field and an `undefined` field the same way.
- Chrome's rejection when a listener keeps the reply slot open but never answers is modelled as the call staying `Pending`.
- `methodProxy` (`./proxy`) is not part of this model; neither are the TypeScript generic types.
- Numbers are integers. There is no NaN, no fractions and no `-0`, so truthiness is modelled for integers only. `${}` text matches JavaScript only for integers with magnitude below 10^21; JavaScript writes larger ones in exponent form (`1e+21`), while `DecimalText` writes every digit. Function values are not modelled, because messages arrive deserialised.
- `Requesting.BroadcastTargets`: states which ids are called, but not that they keep the query's order.
