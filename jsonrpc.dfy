/** The JSON-RPC 2.0 side of the transport, as pure functions: the checks a
    `register` listener applies to a popped request, the envelopes, the
    argument checks and params normalisation of `invoke`, and how the invoker
    reads a response. */
module JsonRpc {
  import opened Values

  const Version: string := "2.0"

  datatype Request = Request(id: string, methodName: string, params: seq<Value>)

  /** Why a `register` listener drops a popped item. Unreadable: the item is null,
      and destructuring it throws before any check runs. */
  datatype Drop = Unreadable | BadVersion | BadId | BadMethod | BadParams

  /** The request envelope `invoke` pushes. */
  function RequestEnvelope(id: string, methodName: string, params: seq<Value>): Value {
    Obj(map["id" := Str(id), "method" := Str(methodName), "params" := Arr(params), "jsonrpc" := Str(Version)])
  }

  /** The response envelope a handler's completion callback publishes; `id` is a
      fresh identifier, not the request's. */
  function ResponseEnvelope(error: Value, result: Value, id: string): Value {
    Obj(map["error" := error, "result" := result, "id" := Str(id), "jsonrpc" := Str(Version)])
  }

  /** The params field of a request; a missing one reads as the empty array. */
  function ParamsField(msg: Value): Value {
    var p := Get(msg, "params");
    if p.Undefined? then Arr([]) else p
  }

  /** The request shape this transport accepts: an object whose `jsonrpc` is
      "2.0", whose `id` and `method` are strings and whose `params`, if present,
      is an array. This is stricter than JSON-RPC 2.0, which also allows a
      numeric or null `id` and `params` given by name (an object). */
  ghost predicate WellFormed(msg: Value) {
    && msg.Obj?
    && "jsonrpc" in msg.fields && msg.fields["jsonrpc"] == Str("2.0")
    && "id" in msg.fields && msg.fields["id"].Str?
    && "method" in msg.fields && msg.fields["method"].Str?
    && ("params" in msg.fields ==> msg.fields["params"].Arr? || msg.fields["params"].Undefined?)
  }

  /** The checks of a `register` listener, in their order; the first that fails
      decides the drop. */
  function CheckRequest(msg: Value): (r: Result<Request, Drop>)
    ensures r.Ok? ==>
      && Get(msg, "id") == Str(r.value.id)
      && Get(msg, "method") == Str(r.value.methodName)
      && (Get(msg, "params") == Arr(r.value.params) || (Get(msg, "params").Undefined? && r.value.params == []))
    ensures r == Err(Unreadable) <==> IsNullish(msg)
    ensures r == Err(BadVersion) ==> Get(msg, "jsonrpc") != Str(Version)
    ensures r == Err(BadId) ==> Get(msg, "jsonrpc") == Str(Version) && !Get(msg, "id").Str?
    ensures r == Err(BadMethod) ==>
      Get(msg, "jsonrpc") == Str(Version) && Get(msg, "id").Str? && !Get(msg, "method").Str?
    ensures r == Err(BadParams) ==>
      && Get(msg, "jsonrpc") == Str(Version) && Get(msg, "id").Str? && Get(msg, "method").Str?
      && !Get(msg, "params").Arr? && !Get(msg, "params").Undefined?
  {
    if IsNullish(msg) then Err(Unreadable)
    else if Get(msg, "jsonrpc") != Str(Version) then Err(BadVersion)
    else if !Get(msg, "id").Str? then Err(BadId)
    else if !Get(msg, "method").Str? then Err(BadMethod)
    else if !ParamsField(msg).Arr? then Err(BadParams)
    else Ok(Request(Get(msg, "id").s, Get(msg, "method").s, ParamsField(msg).items))
  }

  /** The listener accepts exactly the requests of the accepted shape. */
  lemma AcceptsExactlyWellFormed(msg: Value)
    ensures CheckRequest(msg).Ok? <==> WellFormed(msg)
  {
  }

  /** What `invoke` pushes is accepted by the listener, which reads back the
      same id, method and params. */
  lemma RequestRoundTrip(id: string, methodName: string, params: seq<Value>)
    ensures CheckRequest(RequestEnvelope(id, methodName, params)) == Ok(Request(id, methodName, params))
  {
  }

  // ---------------------------------------------------------------------------
  // invoke

  datatype TypeError = BadChannelArg | BadMethodArg | BadParamsArg

  /** The params argument of `invoke` as the array sent: a function (taken as the
      callback) or undefined gives the empty array; a plain object, number,
      string or date is wrapped; an array is kept; anything else is a TypeError. */
  function NormaliseParams(params: Value): (r: Result<seq<Value>, TypeError>)
    ensures r.Err? <==> params.Null? || params.Bool? || params.Instance?
    ensures r.Err? ==> r.error == BadParamsArg
    ensures r.Ok? && params.Arr? ==> r.value == params.items
    ensures r.Ok? && !params.Arr? ==> r.value == if params.Func? || params.Undefined? then [] else [params]
  {
    if params.Func? || params.Undefined? then Ok([])
    else if params.Obj? || params.Num? || params.Str? || params.Date? then Ok([params])
    else if !params.Arr? then Err(BadParamsArg)
    else Ok(params.items)
  }

  /** An accepted `invoke` call. */
  datatype Invocation = Invocation(queue: string, methodName: string, params: seq<Value>, callback: Option<Value>)

  /** The argument checks of `invoke`, in their order. A function in the params
      position replaces the callback argument; a callback that is not a
      function is ignored. */
  function CheckInvoke(channel: Value, methodName: Value, params: Value, callback: Value): (r: Result<Invocation, TypeError>)
    ensures !channel.Str? ==> r == Err(BadChannelArg)
    ensures channel.Str? && !methodName.Str? ==> r == Err(BadMethodArg)
    ensures channel.Str? && methodName.Str? ==> (r.Ok? <==> NormaliseParams(params).Ok?)
    ensures channel.Str? && methodName.Str? && r.Err? ==> r == Err(BadParamsArg)
    ensures r.Ok? ==>
      && r.value.queue == channel.s && r.value.methodName == methodName.s
      && r.value.params == NormaliseParams(params).value
      && r.value.callback == if params.Func? then Some(params) else if callback.Func? then Some(callback) else None
  {
    if !channel.Str? then Err(BadChannelArg)
    else if !methodName.Str? then Err(BadMethodArg)
    else
      match NormaliseParams(params)
      case Err(e) => Err(e)
      case Ok(ps) =>
        var cb := if params.Func? then Some(params) else if callback.Func? then Some(callback) else None;
        Ok(Invocation(channel.s, methodName.s, ps, cb))
  }

  // ---------------------------------------------------------------------------
  // Reading a response

  /** How an invocation fails: with the error as received, or with a structured
      (Boom) error rebuilt from its status code, message and data. */
  datatype Failure = Plain(error: Value) | Structured(statusCode: Value, message: Value, data: Value)

  /** Threw: reading the response threw a TypeError, so the invocation never
      settles. */
  datatype Settlement = Resolved(result: Value) | Rejected(failure: Failure) | Threw

  /** A truthy error as the invoker rejects with it. An error tagged
      `isBoom === true` is rebuilt from `output.payload.statusCode`,
      `output.payload.message` and `data`; reading through a missing `output` or
      `payload` throws (None). */
  function Rebuild(error: Value): (r: Option<Failure>)
    ensures Get(error, "isBoom") != Bool(true) ==> r == Some(Plain(error))
    ensures r.None? <==>
      && Get(error, "isBoom") == Bool(true)
      && (IsNullish(Get(error, "output")) || IsNullish(Get(Get(error, "output"), "payload")))
    ensures Get(error, "isBoom") == Bool(true) && r.Some? ==>
      var payload := Get(Get(error, "output"), "payload");
      r == Some(Structured(Get(payload, "statusCode"), Get(payload, "message"), Get(error, "data")))
  {
    if Get(error, "isBoom") != Bool(true) then Some(Plain(error))
    else
      match Member(Get(error, "output"), "payload")
      case None => None
      case Some(payload) =>
        if IsNullish(payload) then None
        else Some(Structured(Get(payload, "statusCode"), Get(payload, "message"), Get(error, "data")))
  }

  /** The once-listener of `invoke`: a truthy `error` rejects, anything else
      resolves with `result`. A null response throws when destructured. */
  function Settle(response: Value): (r: Settlement)
    ensures r.Resolved? <==> !IsNullish(response) && !Truthy(Get(response, "error"))
    ensures r.Resolved? ==> r.result == Get(response, "result")
    ensures r.Rejected? ==> Truthy(Get(response, "error")) && Rebuild(Get(response, "error")) == Some(r.failure)
    ensures r == Threw <==>
      IsNullish(response) || (Truthy(Get(response, "error")) && Rebuild(Get(response, "error")).None?)
  {
    if IsNullish(response) then Threw
    else
      var error := Get(response, "error");
      if !Truthy(error) then Resolved(Get(response, "result"))
      else
        match Rebuild(error)
        case None => Threw
        case Some(f) => Rejected(f)
  }

  /** A result reported without an error reaches the invoker unchanged. */
  lemma ResultRoundTrip(error: Value, result: Value, id: string)
    requires !Truthy(error)
    ensures Settle(ResponseEnvelope(error, result, id)) == Resolved(result)
  {
  }

  /** An error that is not tagged as a Boom error reaches the invoker unchanged. */
  lemma PlainErrorRoundTrip(error: Value, result: Value, id: string)
    requires Truthy(error) && Get(error, "isBoom") != Bool(true)
    ensures Settle(ResponseEnvelope(error, result, id)) == Rejected(Plain(error))
  {
  }

  /** The JSON form of a Boom error with the given status code, message and data. */
  function BoomError(statusCode: int, message: string, data: Value): Value {
    var payload := Obj(map["statusCode" := Num(statusCode), "message" := Str(message)]);
    Obj(map["isBoom" := Bool(true), "output" := Obj(map["statusCode" := Num(statusCode), "payload" := payload]), "data" := data])
  }

  /** A Boom error a handler reports is rebuilt by the invoker with the same
      status code, message and data (a 404 stays a 404). */
  lemma BoomRoundTrip(statusCode: int, message: string, data: Value, result: Value, id: string)
    ensures Settle(ResponseEnvelope(BoomError(statusCode, message, data), result, id))
         == Rejected(Structured(Num(statusCode), Str(message), data))
  {
  }
}
