/**
 The Requester: builds the request for a call, chooses where it goes
 (the extension runtime, one tab, or every tab a query selects), and maps
 the one reply it gets back to the call's result or failure.
 */
module Requesting {
  import opened Wire

  /** A Requester holds only its channel and an optional tab query
      (`undefined` when none was given). */
  datatype Requester = Requester(channel: string, queryInfo: Value)

  /** Where a call's request goes. */
  datatype Delivery =
    | Broadcast(queryInfo: Value, request: Value)  // to every tab the query finds, via callTab
    | ToRuntime(request: Value)                    // chrome.runtime.sendMessage
    | ToTab(tabId: int, request: Value)            // chrome.tabs.sendMessage

  /** `call(name, ...args)`: a broadcast exactly when a query is set; in
      both cases the request is one a Responder on the Requester's channel,
      and only there, takes as a call of `name` with `args`. */
  function Call(rq: Requester, name: string, args: seq<Value>): (d: Delivery)
    ensures d.Broadcast? <==> Truthy(rq.queryInfo)
    ensures d.Broadcast? ==> d.queryInfo == rq.queryInfo
    ensures !d.ToTab?
    ensures IsRequest(d.request) && RequestOf(d.request) == Request(name, args)
    ensures forall c :: BelongsToChannelSimple(d.request, c) <==> c == rq.channel
  {
    var request := RequestMessage(rq.channel, name, args);
    if Truthy(rq.queryInfo) then Broadcast(rq.queryInfo, request) else ToRuntime(request)
  }

  /** `callTab(tabId, name, ...args)`: the same request, addressed to one tab
      whether or not a query is set. */
  function CallTab(rq: Requester, tabId: int, name: string, args: seq<Value>): (d: Delivery)
    ensures d.ToTab? && d.tabId == tabId
    ensures IsRequest(d.request) && RequestOf(d.request) == Request(name, args)
    ensures forall c :: BelongsToChannelSimple(d.request, c) <==> c == rq.channel
  {
    ToTab(tabId, RequestMessage(rq.channel, name, args))
  }

  /** `isInvalidTabId(tabId)`: `!tabId || tabId === TAB_ID_NONE`, with the
      platform's `TAB_ID_NONE` passed in as `tabIdNone`. A tab is skipped
      exactly when it has no id, its id is 0, or its id is `TAB_ID_NONE`. */
  function IsInvalidTabId(tabId: Option<int>, tabIdNone: int): (r: bool)
    ensures r <==> tabId.None? || tabId.value == 0 || tabId.value == tabIdNone
  {
    var id := if tabId.None? then Undefined else Num(tabId.value);
    !Truthy(id) || id == Num(tabIdNone)
  }

  /** The tabs `broadcastToQueriedTabs` calls, in the order the query
      listed them: every valid id, and only those. */
  function BroadcastTargets(tabIds: seq<Option<int>>, tabIdNone: int): (targets: seq<int>)
    ensures |targets| <= |tabIds|
    ensures forall t :: t in targets ==> t != 0 && t != tabIdNone && Some(t) in tabIds
    ensures forall i :: 0 <= i < |tabIds| && !IsInvalidTabId(tabIds[i], tabIdNone) ==> tabIds[i].value in targets
  {
    if tabIds == [] then []
    else
      var rest := BroadcastTargets(tabIds[1..], tabIdNone);
      assert forall i :: 1 <= i < |tabIds| ==> tabIds[i] == tabIds[1..][i - 1];
      if IsInvalidTabId(tabIds[0], tabIdNone) then rest else [tabIds[0].value] + rest
  }

  /** The local error a failed call throws. */
  datatype CallError = CallError(message: string, stack: Value)

  /** How a call's promise settles once its reply is in: with a value, with
      the call's own error, or with the TypeError the `.then` callback throws
      while building that error's text. */
  datatype Settlement = Resolved(value: Value) | Rejected(error: CallError) | TextFailed

  /** `${message || "Unknown error"}`: a falsy remote message, the empty
      string included, falls back to "Unknown error"; a message whose text
      conversion throws gives `None`. */
  function Reason(message: Value): (t: Option<string>)
    ensures t.None? <==> TextThrows(message)
    ensures !Truthy(message) ==> t == Some("Unknown error")
    ensures message.Str? && message.s != "" ==> t == Some(message.s)
  {
    if Truthy(message) then ToText(message) else Some("Unknown error")
  }

  /** The `.then` step of `call`/`callTab`: an error-shaped reply rejects
      with "Error in method <name>: <reason>" and the remote stack, unless
      the remote message cannot be turned into text, in which case the
      TypeError of that conversion rejects the call; any other reply is the
      call's result, unchanged. */
  function Settle(name: string, response: Value): (r: Settlement)
    ensures r.Resolved? <==> !IsError(response)
    ensures r.Resolved? ==> r.value == response
    ensures r.TextFailed? <==> IsError(response) && TextThrows(Get(Get(response, "error"), "message"))
    ensures r.Rejected? ==>
              var remote := Get(response, "error");
              && r.error.message == "Error in method " + name + ": " + Reason(Get(remote, "message")).value
              && r.error.stack == Get(remote, "stack")
  {
    if IsError(response) then
      var remote := Get(response, "error");
      match Reason(Get(remote, "message"))
      case None => TextFailed
      case Some(reason) => Rejected(CallError("Error in method " + name + ": " + reason, Get(remote, "stack")))
    else Resolved(response)
  }

  /** An error reply whose remote message is an object with its own
      `toString` field, as JSON can carry it, does not produce "Error in
      method ...": the call fails with the TypeError of the conversion. */
  lemma ToStringFieldRejectsWithTypeError(name: string, channel: string, stack: Value)
    ensures Settle(name, ErrorMessage(channel, Obj(map["toString" := Str("x")]), stack)) == TextFailed
    ensures Settle(name, ErrorMessage(channel, Arr([Obj(map["toString" := Str("x")])]), stack)) == TextFailed
  {
    assert Obj(map["toString" := Str("x")]) in [Obj(map["toString" := Str("x")])];
  }

  /** The state of a call's promise. */
  datatype CallState = Pending | Settled(settlement: Settlement)

  /** What the caller sees, given the reply the transport hands back (`None`
      if the other side never answers): a broadcast resolves with
      `undefined` whatever happens, a call no one answers stays pending, and
      an answered call settles as `Settle` says. */
  function CallResult(d: Delivery, name: string, reply: Option<Value>): (s: CallState)
    ensures d.Broadcast? ==> s == Settled(Resolved(Undefined))
    ensures !d.Broadcast? ==> (s.Pending? <==> reply.None?)
    ensures !d.Broadcast? && reply.Some? ==> s == Settled(Settle(name, reply.value))
  {
    if d.Broadcast? then Settled(Resolved(Undefined))
    else match reply
      case None => Pending
      case Some(v) => Settled(Settle(name, v))
  }
}
