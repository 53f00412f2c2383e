/**
 Both sides together: a Requester's call delivered to a Responder on the same
 channel, and what the caller sees of the Responder's answer.
 */
module Protocol {
  import opened Wire
  import opened Responding
  import opened Requesting

  /** A point-to-point call answered by a Responder on the same channel: the
      request reaches the dispatch as the same method and arguments; silence
      leaves the call pending; an error reply rejects it with the method
      name, the remote message (or "Unknown error") and the remote stack, or
      with a TypeError when that message has no text form; any
      other reply that is not itself error-shaped resolves it unchanged. */
  lemma CallRoundTrip(channel: string, universal: seq<HandlerId>, handlers: map<string, seq<HandlerId>>,
                      run: Invocation -> Outcome, name: string, args: seq<Value>)
    ensures var delivery := Call(Requester(channel, Undefined), name, args);
            var msg := delivery.request;
            var d := Respond(channel, universal, handlers, Request(name, args), run);
            && delivery.ToRuntime?
            && BelongsToChannelSimple(msg, channel) && IsRequest(msg) && RequestOf(msg) == Request(name, args)
            && (d.NoReply? ==> CallResult(delivery, name, Sent(d)) == Pending)
            && (d.ErrorReply? && !TextThrows(d.message) ==>
                  CallResult(delivery, name, Sent(d))
                  == Settled(Rejected(CallError("Error in method " + name + ": " + Reason(d.message).value, d.stack))))
            && (d.ErrorReply? && TextThrows(d.message) ==> CallResult(delivery, name, Sent(d)) == Settled(TextFailed))
            && (d.Reply? && !IsError(d.payload) ==> CallResult(delivery, name, Sent(d)) == Settled(Resolved(d.payload)))
  {
    var d := Respond(channel, universal, handlers, Request(name, args), run);
    if d.ErrorReply? {
      var m := ErrorMessage(d.channel, d.message, d.stack);
      assert Get(Get(m, "error"), "message") == d.message;
    }
  }

  /** Whichever scheduled handler is the first to throw an error with
      message `message` and stack `stack`, the call of `name` rejects with
      "Error in method <name>: <message>", or "... Unknown error" when the
      message is empty, and with that stack. */
  lemma ThrownErrorReachesCaller(channel: string, universal: seq<HandlerId>, handlers: map<string, seq<HandlerId>>,
                                 name: string, args: seq<Value>, run: Invocation -> Outcome, k: nat,
                                 message: string, stack: Value)
    requires k < |Schedule(universal, handlers, Request(name, args))|
    requires AllOk(run, Schedule(universal, handlers, Request(name, args))[..k])
    requires run(Schedule(universal, handlers, Request(name, args))[k])
             == Throw(Obj(map["message" := Str(message), "stack" := stack]))
    ensures var d := Respond(channel, universal, handlers, Request(name, args), run);
            && d == ErrorReply(channel, Str(message), stack)
            && CallResult(ToRuntime(RequestMessage(channel, name, args)), name, Sent(d))
               == Settled(Rejected(CallError("Error in method " + name + ": "
                                             + (if message == "" then "Unknown error" else message), stack)))
  {
    ThrowBecomesErrorReply(channel, universal, handlers, Request(name, args), run, k);
    var m := ErrorMessage(channel, Str(message), stack);
    assert Get(Get(m, "error"), "message") == Str(message);
  }

  /** Channel "ext", `{type: "request", channel: "ext", method: "ping", args: []}`
      and one handler returning "pong": the reply, and the call's result, is
      "pong". */
  lemma PingPong(h: HandlerId)
    ensures var msg := RequestMessage("ext", "ping", []);
            var run := (c: Invocation) => Ok(Str("pong"));
            var d := Respond("ext", [], map["ping" := [h]], RequestOf(msg), run);
            && BelongsToChannelSimple(msg, "ext") && IsRequest(msg)
            && d == Reply(Str("pong"))
            && CallResult(ToRuntime(msg), "ping", Sent(d)) == Settled(Resolved(Str("pong")))
  {
    var run := (c: Invocation) => Ok(Str("pong"));
    NamedHandlerWins("ext", [], map["ping" := [h]], Request("ping", []), run);
  }

  /** Channel "ext", the handler for "ping" throws `Error("fail")` with stack
      `stack`: the reply is the error message on "ext" and the call rejects
      with "Error in method ping: fail". */
  lemma PingFails(h: HandlerId, stack: string)
    ensures var thrown := Obj(map["message" := Str("fail"), "stack" := Str(stack)]);
            var run := (c: Invocation) => Throw(thrown);
            var d := Respond("ext", [], map["ping" := [h]], Request("ping", []), run);
            && d == ErrorReply("ext", Str("fail"), Str(stack))
            && Sent(d) == Some(Obj(map["type" := Str("error"), "channel" := Str("ext"),
                                       "error" := Obj(map["message" := Str("fail"), "stack" := Str(stack)])]))
            && Settle("ping", Sent(d).value) == Rejected(CallError("Error in method ping: fail", Str(stack)))
  {
    var thrown := Obj(map["message" := Str("fail"), "stack" := Str(stack)]);
    var run := (c: Invocation) => Throw(thrown);
    assert Schedule([], map["ping" := [h]], Request("ping", []))[0] == NamedCall(h, []);
    ThrownErrorReachesCaller("ext", [], map["ping" := [h]], "ping", [], run, 0, "fail", Str(stack));
  }
}
