/**
 The message model of the protocol: untyped JavaScript values as they cross
 the extension-messaging boundary, the JavaScript operators the classifiers
 use (`typeof`, truthiness, `in`, optional property access), the three total
 classifiers, and the two message shapes the protocol puts on the wire.
 */
module Wire {

  datatype Option<+T> = None | Some(value: T)

  /** A JavaScript value, as it arrives deserialised from a message. An
      `Obj` lists what the protocol's property reads (`channel`, `type`,
      `method`, `args`, `error`, `message`, `stack`) yield on that object;
      every field holds data, never a function. */
  datatype Value =
    | Undefined
    | Null
    | Bool(b: bool)
    | Num(n: int)
    | Str(s: string)
    | Arr(elems: seq<Value>)
    | Obj(fields: map<string, Value>)

  /** `typeof v`: `null` and arrays are objects too. */
  function TypeOf(v: Value): string
  {
    match v
    case Undefined => "undefined"
    case Bool(_) => "boolean"
    case Num(_) => "number"
    case Str(_) => "string"
    case Null | Arr(_) | Obj(_) => "object"
  }

  /** JavaScript truthiness: `!v` holds exactly when `!Truthy(v)`. */
  predicate Truthy(v: Value)
  {
    match v
    case Undefined | Null => false
    case Bool(b) => b
    case Num(n) => n != 0
    case Str(s) => s != ""
    case Arr(_) | Obj(_) => true
  }

  /** `key in v`. The operator throws a TypeError unless `v` is a non-null
      object, so every use must establish that first. */
  predicate In(key: string, v: Value)
    requires TypeOf(v) == "object" && Truthy(v)
  {
    v.Obj? && key in v.fields
  }

  /** `v?.key`: the field if `v` is an object holding it, otherwise
      `undefined` (also for `null`/`undefined`, thanks to `?.`, and for
      primitives and arrays, which have no such property). */
  function Get(v: Value, key: string): Value
  {
    if v.Obj? && key in v.fields then v.fields[key] else Undefined
  }

  /** `belongsToChannelSimple(message, channel)`: a guard that never throws
      and accepts exactly the objects carrying both a `channel` and a `type`
      field whose `channel` is the given string. */
  function BelongsToChannelSimple(message: Value, channel: string): (r: bool)
    ensures r <==> message.Obj? && "channel" in message.fields && "type" in message.fields
                   && message.fields["channel"] == Str(channel)
  {
    if TypeOf(message) != "object" then false
    else if !Truthy(message) then false
    else if !In("channel", message) then false
    else if !In("type", message) then false
    // `===` against a string is equality of string values
    else Get(message, "channel") == Str(channel)
  }

  /** `isRequest(message)`: `type === "request"`, a string `method` and an
      array `args`. */
  function IsRequest(message: Value): (r: bool)
    ensures r <==> message.Obj? && "type" in message.fields && message.fields["type"] == Str("request")
                   && "method" in message.fields && message.fields["method"].Str?
                   && "args" in message.fields && message.fields["args"].Arr?
  {
    if !Truthy(message) then false
    else
      (TypeOf(message) == "object" && In("type", message)
       && Get(message, "type") == Str("request")
       && In("method", message)
       && TypeOf(Get(message, "method")) == "string"
       && In("args", message)
       && Get(message, "args").Arr?)   // Array.isArray
  }

  /** `isError(message)`: `type === "error"` and an `error` field of any shape. */
  function IsError(message: Value): (r: bool)
    ensures r <==> message.Obj? && "type" in message.fields && message.fields["type"] == Str("error")
                   && "error" in message.fields
  {
    if !Truthy(message) then false
    else
      (TypeOf(message) == "object" && In("type", message)
       && Get(message, "type") == Str("error")
       && In("error", message))
  }

  /** A message's `type` decides between the two shapes: nothing is both. */
  lemma RequestIsNotError(message: Value)
    ensures !(IsRequest(message) && IsError(message))
  {
  }

  /** What a request carries once classified. */
  datatype Request = Request(name: string, args: seq<Value>)

  function RequestOf(message: Value): Request
    requires IsRequest(message)
  {
    Request(message.fields["method"].s, message.fields["args"].elems)
  }

  /** The request `{type: "request", channel, method, args}` a Requester
      sends: a Responder on the same channel accepts it as a request for
      the same method and arguments, and on any other channel ignores it. */
  function RequestMessage(channel: string, name: string, args: seq<Value>): (m: Value)
    ensures IsRequest(m) && !IsError(m)
    ensures forall c :: BelongsToChannelSimple(m, c) <==> c == channel
    ensures RequestOf(m) == Request(name, args)
  {
    Obj(map["type" := Str("request"), "channel" := Str(channel),
             "method" := Str(name), "args" := Arr(args)])
  }

  /** The reply `{type: "error", channel, error: {message, stack}}` a
      Responder sends when a handler throws: a Requester classifies it as an
      error and finds the message and stack under `error`. */
  function ErrorMessage(channel: string, message: Value, stack: Value): (m: Value)
    ensures IsError(m) && !IsRequest(m)
    ensures BelongsToChannelSimple(m, channel)
    ensures Get(Get(m, "error"), "message") == message && Get(Get(m, "error"), "stack") == stack
  {
    Obj(map["type" := Str("error"), "channel" := Str(channel),
             "error" := Obj(map["message" := message, "stack" := stack])])
  }

  /** When `${v}` throws a TypeError. An object with its own `toString`
      field holds data there, not a function; its `valueOf`, own or
      inherited, gives no primitive either, so the conversion fails. An array
      fails when one of its elements does. */
  predicate TextThrows(v: Value)
  {
    match v
    case Obj(fields) => "toString" in fields
    case Arr(elems) => exists e :: e in elems && TextThrows(e)
    case _ => false
  }

  /** The text `${v}` produces inside a template literal (`String(v)`), or
      `None` when the conversion throws. */
  function ToText(v: Value): (t: Option<string>)
    ensures t.None? <==> TextThrows(v)
    ensures v.Str? ==> t == Some(v.s)
    ensures v.Obj? && "toString" !in v.fields ==> t == Some("[object Object]")
    decreases v, 1
  {
    match v
    case Undefined => Some("undefined")
    case Null => Some("null")
    case Bool(b) => Some(if b then "true" else "false")
    case Num(n) => Some(DecimalText(n))
    case Str(s) => Some(s)
    case Arr(elems) => JoinText(elems)
    case Obj(fields) => if "toString" in fields then None else Some("[object Object]")
  }

  /** `Array.prototype.join(",")`, as `String` applies it to an array:
      `null` and `undefined` elements become empty text, and the first
      element whose conversion throws makes the whole join throw. */
  function JoinText(elems: seq<Value>): (t: Option<string>)
    ensures t.None? <==> exists e :: e in elems && TextThrows(e)
    decreases elems, 0
  {
    if elems == [] then Some("")
    else
      var first := if elems[0].Undefined? || elems[0].Null? then Some("") else ToText(elems[0]);
      assert forall e :: e in elems <==> e == elems[0] || e in elems[1..];
      if first.None? then assert elems[0] in elems && TextThrows(elems[0]); None
      else if |elems| == 1 then first
      else match JoinText(elems[1..])
        case None => None
        case Some(rest) => Some(first.value + "," + rest)
  }

  function DecimalText(n: int): string
  {
    if n < 0 then "-" + Digits(-n) else Digits(n)
  }

  function Digits(n: nat): string
    decreases n
  {
    if n < 10 then [DigitChar(n)] else Digits(n / 10) + [DigitChar(n % 10)]
  }

  function DigitChar(d: nat): char
    requires d < 10
  {
    "0123456789"[d]
  }
}
