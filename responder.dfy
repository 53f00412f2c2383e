/**
 The Responder: a per-channel registry of named and universal handlers and
 the dispatch of one inbound request over them. A handler's code is not
 modelled; what calling it produces is given by a function `run` from the
 invocation to its outcome (the value it returns or resolves to, or the
 value it throws or rejects with).
 */
module Responding {
  import opened Wire
  import opened Registry

  /** A registered handler function, known only by its identity: `indexOf`
      and `===` compare functions by reference. */
  type HandlerId = nat

  /** One call of a handler during a dispatch. */
  datatype Invocation =
    | UniversalCall(handler: HandlerId, name: string, args: seq<Value>)  // handler(msg.method, msg.args)
    | NamedCall(handler: HandlerId, args: seq<Value>)                    // handler(...msg.args)

  /** What awaiting a handler's call produces. */
  datatype Outcome = Ok(value: Value) | Throw(error: Value)

  /** What `handleRequest` does with `sendResponse`: never calls it, calls it
      with the last handler's result, or calls it with an error message. */
  datatype Response =
    | NoReply
    | Reply(payload: Value)
    | ErrorReply(channel: string, message: Value, stack: Value)

  /** The capability `subscribe`/`subscribeUniversal` return: calling it
      removes that handler again from the list it was added to. */
  datatype Subscription =
    | NamedSubscription(name: string, handler: HandlerId)
    | UniversalSubscription(handler: HandlerId)

  /** The value handed to `sendResponse`, if it is called at all. */
  function Sent(d: Response): Option<Value>
  {
    match d
    case NoReply => None
    case Reply(v) => Some(v)
    case ErrorReply(channel, message, stack) => Some(ErrorMessage(channel, message, stack))
  }

  /** The reply built in the `catch` from the thrown value `e`:
      `(e as Error)?.message` and `(e as Error)?.stack`. */
  function Failed(channel: string, e: Value): Response
  {
    ErrorReply(channel, Get(e, "message"), Get(e, "stack"))
  }

  /** The handler list a name has, empty when it has none. */
  function ListOf(handlers: map<string, seq<HandlerId>>, name: string): seq<HandlerId>
  {
    if name in handlers then handlers[name] else []
  }

  function UniversalCalls(universal: seq<HandlerId>, req: Request): seq<Invocation>
  {
    seq(|universal|, i requires 0 <= i < |universal| => UniversalCall(universal[i], req.name, req.args))
  }

  function NamedCalls(list: seq<HandlerId>, args: seq<Value>): seq<Invocation>
  {
    seq(|list|, i requires 0 <= i < |list| => NamedCall(list[i], args))
  }

  /** Every call a dispatch of `req` would make if nothing threw: the
      universal handlers, then the handlers registered under its name, each
      list in registration order. */
  function Schedule(universal: seq<HandlerId>, handlers: map<string, seq<HandlerId>>, req: Request): seq<Invocation>
  {
    UniversalCalls(universal, req) + NamedCalls(ListOf(handlers, req.name), req.args)
  }

  /** The `response` variable after awaiting `calls` in order, starting from
      `response`: each result overwrites it, and the first throw ends the run. */
  function Fold(run: Invocation -> Outcome, calls: seq<Invocation>, response: Value): Outcome
    decreases |calls|
  {
    if calls == [] then Ok(response)
    else match run(calls[0])
      case Throw(e) => Throw(e)
      case Ok(v) => Fold(run, calls[1..], v)
  }

  /** The calls actually made while awaiting `calls`: all of them up to and
      including the first that throws. */
  function Ran(run: Invocation -> Outcome, calls: seq<Invocation>): seq<Invocation>
    decreases |calls|
  {
    if calls == [] then []
    else if run(calls[0]).Throw? then [calls[0]]
    else [calls[0]] + Ran(run, calls[1..])
  }

  ghost predicate AllOk(run: Invocation -> Outcome, calls: seq<Invocation>)
  {
    forall i :: 0 <= i < |calls| ==> run(calls[i]).Ok?
  }

  /** What `this.handlers[msg.method]` yields. */
  datatype Lookup =
    | Missing                       // undefined: falsy
    | Found(list: seq<HandlerId>)   // an array, truthy even when empty
    | NotAList(thrown: Value)       // truthy but not an array: using it as one throws `thrown`

  /** The lookup on a registry that holds only its own entries. */
  function OwnLookup(handlers: map<string, seq<HandlerId>>, name: string): Lookup
  {
    if name in handlers then Found(handlers[name]) else Missing
  }

  /** `handleRequest`, given what the lookup of the method's handlers gives:
      await the universal handlers, then the looked-up ones, and answer with
      the last result; with no list and no universal handler, stay silent;
      turn the first thrown value into an error reply. */
  function RespondTo(channel: string, universal: seq<HandlerId>, found: Lookup, req: Request,
                     run: Invocation -> Outcome): Response
  {
    match Fold(run, UniversalCalls(universal, req), Undefined)
    case Throw(e) => Failed(channel, e)
    case Ok(v) =>
      match found
      case Missing => if universal == [] then NoReply else Reply(v)
      case NotAList(e) => Failed(channel, e)
      case Found(list) =>
        match Fold(run, NamedCalls(list, req.args), v)
        case Ok(w) => Reply(w)
        case Throw(e) => Failed(channel, e)
  }

  /** The response a Responder on `channel` gives to `req`. No reply is sent
      exactly when the method has no handler list and there are no universal
      handlers; an error reply always names the Responder's channel. */
  function Respond(channel: string, universal: seq<HandlerId>, handlers: map<string, seq<HandlerId>>,
                   req: Request, run: Invocation -> Outcome): (d: Response)
    ensures d.NoReply? <==> req.name !in handlers && universal == []
    ensures d.ErrorReply? ==> d.channel == channel
  {
    RespondTo(channel, universal, OwnLookup(handlers, req.name), req, run)
  }

  /** Running `xs` then `ys` is running `xs`, and, if nothing in it threw,
      continuing with `ys` from its last result. */
  lemma {:induction false} FoldAppend(run: Invocation -> Outcome, xs: seq<Invocation>, ys: seq<Invocation>, r: Value)
    ensures Fold(run, xs + ys, r) == match Fold(run, xs, r)
                                     case Ok(v) => Fold(run, ys, v)
                                     case Throw(e) => Throw(e)
    ensures Ran(run, xs + ys) == if Fold(run, xs, r).Ok? then xs + Ran(run, ys) else Ran(run, xs)
    decreases |xs|
  {
    if xs == [] {
      assert xs + ys == ys;
    } else {
      assert (xs + ys)[0] == xs[0] && (xs + ys)[1..] == xs[1..] + ys;
      match run(xs[0])
      case Throw(e) =>
      case Ok(v) =>
        FoldAppend(run, xs[1..], ys, v);
        assert xs == [xs[0]] + xs[1..];
    }
  }

  /** A run ends normally exactly when no call in it throws. */
  lemma {:induction false} FoldOkIffAllOk(run: Invocation -> Outcome, calls: seq<Invocation>, r: Value)
    ensures Fold(run, calls, r).Ok? <==> AllOk(run, calls)
    decreases |calls|
  {
    if calls != [] {
      if run(calls[0]).Ok? {
        FoldOkIffAllOk(run, calls[1..], run(calls[0]).value);
        assert forall i :: 1 <= i < |calls| ==> calls[i] == calls[1..][i - 1];
      }
    }
  }

  /** Last handler wins: when nothing throws, every call is made, in order,
      and the result is that of the last call (or the starting value when
      there is none). */
  lemma {:induction false} LastCallWins(run: Invocation -> Outcome, calls: seq<Invocation>, r: Value)
    requires AllOk(run, calls)
    ensures Fold(run, calls, r) == if calls == [] then Ok(r) else run(calls[|calls| - 1])
    ensures Ran(run, calls) == calls
    decreases |calls|
  {
    if calls != [] {
      assert forall i :: 0 <= i < |calls[1..]| ==> calls[1..][i] == calls[i + 1];
      LastCallWins(run, calls[1..], run(calls[0]).value);
      assert calls == [calls[0]] + calls[1..];
    }
  }

  /** The first call that throws ends the run with its thrown value, and no
      later call is made. */
  lemma {:induction false} FirstThrowStops(run: Invocation -> Outcome, calls: seq<Invocation>, k: nat, r: Value)
    requires k < |calls| && AllOk(run, calls[..k]) && run(calls[k]).Throw?
    ensures Fold(run, calls, r) == run(calls[k])
    ensures Ran(run, calls) == calls[..k + 1]
    decreases k
  {
    if k > 0 {
      assert calls[..k][0] == calls[0];
      assert calls[1..][..k - 1] == calls[..k][1..];
      FirstThrowStops(run, calls[1..], k - 1, run(calls[0]).value);
      assert calls[..k + 1] == [calls[0]] + calls[1..][..k];
    }
  }

  /** Dispatch is one left fold over the schedule: universal handlers, then
      named ones. */
  lemma RespondIsFold(channel: string, universal: seq<HandlerId>, handlers: map<string, seq<HandlerId>>,
                      req: Request, run: Invocation -> Outcome)
    ensures Respond(channel, universal, handlers, req, run)
            == if req.name !in handlers && universal == [] then NoReply
               else match Fold(run, Schedule(universal, handlers, req), Undefined)
                    case Ok(v) => Reply(v)
                    case Throw(e) => Failed(channel, e)
  {
    FoldAppend(run, UniversalCalls(universal, req), NamedCalls(ListOf(handlers, req.name), req.args), Undefined);
  }

  /** Universal handlers run before named ones, each group in registration
      order, and when none throws all of them run. */
  lemma DispatchOrder(universal: seq<HandlerId>, handlers: map<string, seq<HandlerId>>, req: Request,
                      run: Invocation -> Outcome)
    requires AllOk(run, Schedule(universal, handlers, req))
    ensures var ran := Ran(run, Schedule(universal, handlers, req));
            && |ran| == |universal| + |ListOf(handlers, req.name)|
            && (forall i :: 0 <= i < |universal| ==> ran[i] == UniversalCall(universal[i], req.name, req.args))
            && (forall j :: 0 <= j < |ListOf(handlers, req.name)| ==>
                  ran[|universal| + j] == NamedCall(ListOf(handlers, req.name)[j], req.args))
  {
    LastCallWins(run, Schedule(universal, handlers, req), Undefined);
  }

  /** With a non-empty list for the method and no throw, the reply is what
      the last named handler returned, whatever the universal handlers did. */
  lemma NamedHandlerWins(channel: string, universal: seq<HandlerId>, handlers: map<string, seq<HandlerId>>,
                         req: Request, run: Invocation -> Outcome)
    requires req.name in handlers && handlers[req.name] != []
    requires AllOk(run, Schedule(universal, handlers, req))
    ensures var list := handlers[req.name];
            var d := Respond(channel, universal, handlers, req, run);
            d.Reply? && Ok(d.payload) == run(NamedCall(list[|list| - 1], req.args))
  {
    RespondIsFold(channel, universal, handlers, req, run);
    LastCallWins(run, Schedule(universal, handlers, req), Undefined);
  }

  /** With no list for the method but some universal handler, and no throw,
      the reply is what the last universal handler returned. */
  lemma UniversalAnswersUnknownMethod(channel: string, universal: seq<HandlerId>,
                                      handlers: map<string, seq<HandlerId>>, req: Request, run: Invocation -> Outcome)
    requires req.name !in handlers && universal != []
    requires AllOk(run, Schedule(universal, handlers, req))
    ensures var d := Respond(channel, universal, handlers, req, run);
            d.Reply? && Ok(d.payload) == run(UniversalCall(universal[|universal| - 1], req.name, req.args))
  {
    RespondIsFold(channel, universal, handlers, req, run);
    LastCallWins(run, Schedule(universal, handlers, req), Undefined);
  }

  /** A list that exists but is empty still answers, with `undefined`, when
      no universal handler changes the response. */
  lemma EmptyListRepliesUndefined(channel: string, handlers: map<string, seq<HandlerId>>, req: Request,
                                  run: Invocation -> Outcome)
    requires req.name in handlers && handlers[req.name] == []
    ensures Respond(channel, [], handlers, req, run) == Reply(Undefined)
  {
    assert UniversalCalls([], req) == [] && NamedCalls([], req.args) == [];
  }

  /** A list that exists but is empty, beside some universal handler and no
      throw: the reply is what the last universal handler returned. */
  lemma EmptyListRepliesLastUniversal(channel: string, universal: seq<HandlerId>,
                                      handlers: map<string, seq<HandlerId>>, req: Request, run: Invocation -> Outcome)
    requires req.name in handlers && handlers[req.name] == [] && universal != []
    requires AllOk(run, Schedule(universal, handlers, req))
    ensures var d := Respond(channel, universal, handlers, req, run);
            d.Reply? && Ok(d.payload) == run(UniversalCall(universal[|universal| - 1], req.name, req.args))
  {
    RespondIsFold(channel, universal, handlers, req, run);
    LastCallWins(run, Schedule(universal, handlers, req), Undefined);
  }

  /** The first handler that throws decides the reply: an error reply on the
      Responder's channel with the thrown value's message and stack, and no
      handler after it runs. */
  lemma ThrowBecomesErrorReply(channel: string, universal: seq<HandlerId>, handlers: map<string, seq<HandlerId>>,
                               req: Request, run: Invocation -> Outcome, k: nat)
    requires k < |Schedule(universal, handlers, req)|
    requires AllOk(run, Schedule(universal, handlers, req)[..k])
    requires run(Schedule(universal, handlers, req)[k]).Throw?
    ensures var e := run(Schedule(universal, handlers, req)[k]).error;
            Respond(channel, universal, handlers, req, run)
              == ErrorReply(channel, Get(e, "message"), Get(e, "stack"))
    ensures Ran(run, Schedule(universal, handlers, req)) == Schedule(universal, handlers, req)[..k + 1]
  {
    RespondIsFold(channel, universal, handlers, req, run);
    FirstThrowStops(run, Schedule(universal, handlers, req), k, Undefined);
  }

  /** Subscribing a handler to a method nobody answered and unsubscribing it
      again leaves an empty list behind, which answers `undefined` where there
      was no reply before. */
  lemma EmptiedListStillReplies(channel: string, handlers: map<string, seq<HandlerId>>, h: HandlerId,
                                req: Request, run: Invocation -> Outcome)
    requires req.name !in handlers
    ensures Respond(channel, [], handlers, req, run) == NoReply
    ensures var emptied := handlers[req.name := [h]][req.name := RemoveFirst([h], h)];
            Respond(channel, [], emptied, req, run) == Reply(Undefined)
  {
    var emptied := handlers[req.name := [h]][req.name := RemoveFirst([h], h)];
    assert emptied[req.name] == [];
    EmptyListRepliesUndefined(channel, emptied, req, run);
  }

  /** The names a plain object `{}` inherits from `Object.prototype`. */
  const InheritedNames: set<string> :=
    {"constructor", "__proto__", "toString", "toLocaleString", "valueOf", "hasOwnProperty",
     "isPrototypeOf", "propertyIsEnumerable", "__defineGetter__", "__defineSetter__",
     "__lookupGetter__", "__lookupSetter__"}

  /** The lookup as written: `this.handlers` is a plain object, so a name
      with no own list but inherited from `Object.prototype` finds a function
      (or the prototype object itself). That value is truthy, and using it as
      an array throws the host's TypeError `typeError`. */
  function LookupAsWritten(handlers: map<string, seq<HandlerId>>, name: string, typeError: Value): (l: Lookup)
    ensures l.NotAList? <==> name !in handlers && name in InheritedNames
    ensures l.NotAList? ==> l.thrown == typeError
    ensures !l.NotAList? ==> l == OwnLookup(handlers, name)
  {
    if name in handlers then Found(handlers[name])
    else if name in InheritedNames then NotAList(typeError)
    else Missing
  }

  /** `handleRequest` with the lookup as written: for an inherited name
      without an own list it never sends a plain reply, only an error reply;
      for every other name it answers as `Respond` does. */
  function RespondAsWritten(channel: string, universal: seq<HandlerId>, handlers: map<string, seq<HandlerId>>,
                            req: Request, run: Invocation -> Outcome, typeError: Value): (d: Response)
    ensures req.name !in handlers && req.name in InheritedNames ==> d.ErrorReply? && d.channel == channel
    ensures req.name in handlers || req.name !in InheritedNames ==> d == Respond(channel, universal, handlers, req, run)
  {
    RespondTo(channel, universal, LookupAsWritten(handlers, req.name, typeError), req, run)
  }

  /** As written, a request for an inherited name on an empty Responder gets
      an error reply carrying the TypeError, where no reply is meant. */
  lemma InheritedNameRepliesError(channel: string, req: Request, run: Invocation -> Outcome, typeError: Value)
    requires req.name in InheritedNames
    ensures RespondAsWritten(channel, [], map[], req, run, typeError)
            == ErrorReply(channel, Get(typeError, "message"), Get(typeError, "stack"))
    ensures Respond(channel, [], map[], req, run) == NoReply
  {
    assert UniversalCalls([], req) == [];
  }

  /** What a registry operation does to the handler lists, or what it throws. */
  datatype RegistryStep = Updated(handlers: map<string, seq<HandlerId>>) | Threw(error: Value)

  /** `subscribe` as written: `this.handlers[name] ||= []` keeps an inherited
      truthy value, and its `push` is not a function, so the call throws. */
  function SubscribeAsWritten(handlers: map<string, seq<HandlerId>>, name: string, handler: HandlerId,
                              typeError: Value): (s: RegistryStep)
    ensures s.Threw? <==> name !in handlers && name in InheritedNames
    ensures s.Updated? ==> s.handlers == handlers[name := ListOf(handlers, name) + [handler]]
  {
    match LookupAsWritten(handlers, name, typeError)
    case NotAList(e) => Threw(e)
    case Missing => Updated(handlers[name := [] + [handler]])   // ||= [], then push
    case Found(list) => Updated(handlers[name := list + [handler]])
  }

  /** `unsubscribe` as written: for an inherited name the truthy value passes
      the `if (!handlers)` guard, and `removeFromArray` calls its `indexOf`,
      which is not a function, so the call throws. */
  function UnsubscribeAsWritten(handlers: map<string, seq<HandlerId>>, name: string, handler: HandlerId,
                                typeError: Value): (s: RegistryStep)
    ensures s.Threw? <==> name !in handlers && name in InheritedNames
    ensures s.Updated? && name !in handlers ==> s.handlers == handlers
    ensures s.Updated? && name in handlers ==> s.handlers == handlers[name := RemoveFirst(handlers[name], handler)]
  {
    match LookupAsWritten(handlers, name, typeError)
    case NotAList(e) => Threw(e)
    case Missing => Updated(handlers)
    case Found(list) => Updated(handlers[name := RemoveFirst(list, handler)])
  }

  /** As written, on an empty Responder, subscribing or unsubscribing under an
      inherited name throws, where the corrected registry creates the list or
      does nothing. */
  lemma InheritedNameRegistryThrows(name: string, h: HandlerId, typeError: Value)
    requires name in InheritedNames
    ensures SubscribeAsWritten(map[], name, h, typeError) == Threw(typeError)
    ensures UnsubscribeAsWritten(map[], name, h, typeError) == Threw(typeError)
  {
  }

  /** The `for (let handler of ...) response = await handler(...)` loop of
      `handleRequest` over the calls of one handler list, from `response`
      equal to `start`: its outcome and the calls it made. */
  method AwaitEach(calls: seq<Invocation>, run: Invocation -> Outcome, start: Value)
    returns (outcome: Outcome, ran: seq<Invocation>)
    ensures outcome == Fold(run, calls, start)
    ensures ran == Ran(run, calls)
  {
    var response := start;
    ran := [];
    var i := 0;
    while i < |calls|
      invariant 0 <= i <= |calls|
      invariant ran == calls[..i]
      invariant Fold(run, calls[..i], start) == Ok(response)
    {
      assert calls[..i + 1] == calls[..i] + [calls[i]];
      FoldAppend(run, calls[..i], [calls[i]], start);
      ran := ran + [calls[i]];
      match run(calls[i])
      case Throw(e) =>
        FoldOkIffAllOk(run, calls[..i], start);
        FirstThrowStops(run, calls, i, start);
        return Throw(e), ran;
      case Ok(v) =>
        response := v;
      i := i + 1;
    }
    assert calls[..i] == calls;
    FoldAppend(run, calls, [], start);
    assert calls + [] == calls;
    outcome := Ok(response);
  }

  class Responder {
    const channel: string
    /** Handler lists by method name, in registration order. */
    var handlers: map<string, seq<HandlerId>>
    /** Handlers called for every request, in registration order. */
    var universalHandlers: seq<HandlerId>

    constructor (channel: string)
      ensures this.channel == channel
      ensures handlers == map[] && universalHandlers == []
    {
      this.channel := channel;
      handlers := map[];
      universalHandlers := [];
    }

    /** `onMessageEvent`: a message off this channel is left alone
        (`undefined`); one on it is claimed (`true`, keeping the reply slot
        open), and dispatched if it is a request. */
    method OnMessageEvent(msg: Value, run: Invocation -> Outcome) returns (result: Value, d: Response, ran: seq<Invocation>)
      ensures result == if BelongsToChannelSimple(msg, channel) then Bool(true) else Undefined
      ensures BelongsToChannelSimple(msg, channel) && IsRequest(msg) ==>
                d == Respond(channel, universalHandlers, handlers, RequestOf(msg), run)
                && ran == Ran(run, Schedule(universalHandlers, handlers, RequestOf(msg)))
      ensures !(BelongsToChannelSimple(msg, channel) && IsRequest(msg)) ==> d == NoReply && ran == []
    {
      if !BelongsToChannelSimple(msg, channel) {
        return Undefined, NoReply, [];
      }
      d, ran := NoReply, [];
      if IsRequest(msg) {
        d, ran := HandleRequest(RequestOf(msg), run);
      }
      result := Bool(true);
    }

    /** `handleRequest`: returns what is sent back and the handler calls made,
        in order. */
    method HandleRequest(req: Request, run: Invocation -> Outcome) returns (d: Response, ran: seq<Invocation>)
      ensures d == Respond(channel, universalHandlers, handlers, req, run)
      ensures ran == Ran(run, Schedule(universalHandlers, handlers, req))
    {
      ghost var ncalls := NamedCalls(ListOf(handlers, req.name), req.args);
      var outcome;
      outcome, ran := AwaitEach(UniversalCalls(universalHandlers, req), run, Undefined);
      FoldAppend(run, UniversalCalls(universalHandlers, req), ncalls, Undefined);
      if outcome.Throw? {
        return Failed(channel, outcome.error), ran;
      }
      var response := outcome.value;
      FoldAppend(run, UniversalCalls(universalHandlers, req), [], Undefined);
      assert UniversalCalls(universalHandlers, req) + [] == UniversalCalls(universalHandlers, req);
      if req.name in handlers {
        var named;
        outcome, named := AwaitEach(NamedCalls(handlers[req.name], req.args), run, response);
        ran := ran + named;
        if outcome.Throw? {
          return Failed(channel, outcome.error), ran;
        }
        response := outcome.value;
      } else {
        assert ncalls == [];
        if |universalHandlers| == 0 {
          return NoReply, ran;
        }
      }
      d := Reply(response);
    }

    /** `subscribe(name, handler)`: append to the name's list, creating it
        if absent; nothing else changes. */
    method Subscribe(name: string, handler: HandlerId) returns (sub: Subscription)
      modifies this
      ensures handlers == old(handlers)[name := ListOf(old(handlers), name) + [handler]]
      ensures universalHandlers == old(universalHandlers)
      ensures sub == NamedSubscription(name, handler)
    {
      var list := if name in handlers then handlers[name] else [];   // ||= []
      handlers := handlers[name := list + [handler]];
      sub := NamedSubscription(name, handler);
    }

    /** `unsubscribe(name, handler)`: drop the first occurrence of the
        handler from the name's list; a name without a list is left alone,
        and a list is never deleted. */
    method Unsubscribe(name: string, handler: HandlerId)
      modifies this
      ensures name !in old(handlers) ==> handlers == old(handlers)
      ensures name in old(handlers) ==> handlers == old(handlers)[name := RemoveFirst(old(handlers)[name], handler)]
      ensures universalHandlers == old(universalHandlers)
    {
      if name !in handlers {
        return;
      }
      var rest := RemoveFromArray(handlers[name], handler);
      handlers := handlers[name := rest];
    }

    /** `subscribeUniversal(handler)`: append to the universal list only. */
    method SubscribeUniversal(handler: HandlerId) returns (sub: Subscription)
      modifies this
      ensures universalHandlers == old(universalHandlers) + [handler]
      ensures handlers == old(handlers)
      ensures sub == UniversalSubscription(handler)
    {
      universalHandlers := universalHandlers + [handler];
      sub := UniversalSubscription(handler);
    }

    /** `unsubscribeUniversal(handler)`: drop its first occurrence from the
        universal list. */
    method UnsubscribeUniversal(handler: HandlerId)
      modifies this
      ensures universalHandlers == RemoveFirst(old(universalHandlers), handler)
      ensures handlers == old(handlers)
    {
      universalHandlers := RemoveFromArray(universalHandlers, handler);
    }

    /** Calling the function a subscription returned. It removes the handler
        from the very list it was pushed onto; that list stays the one
        registered under its name, since `||=` never replaces an existing
        list and unsubscribing never deletes one, so this is the
        corresponding unsubscribe. A `Subscription` records the name and the
        handler but not the Responder that issued it: it is to be cancelled on
        that same Responder. */
    method Cancel(sub: Subscription)
      modifies this
      ensures sub.UniversalSubscription? ==>
                universalHandlers == RemoveFirst(old(universalHandlers), sub.handler) && handlers == old(handlers)
      ensures sub.NamedSubscription? && sub.name in old(handlers) ==>
                handlers == old(handlers)[sub.name := RemoveFirst(old(handlers)[sub.name], sub.handler)]
                && universalHandlers == old(universalHandlers)
      ensures sub.NamedSubscription? && sub.name !in old(handlers) ==>
                handlers == old(handlers) && universalHandlers == old(universalHandlers)
    {
      match sub
      case NamedSubscription(name, handler) => Unsubscribe(name, handler);
      case UniversalSubscription(handler) => UnsubscribeUniversal(handler);
    }
  }
}
