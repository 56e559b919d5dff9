/**
 * `Fetcher.middleware`: turns an inbound HTTP request into a request for
 * `single` (or an immediate 400), and the handler's completion into a response.
 * Express's `res` calls are modelled by the response record they would send.
 */
module Middleware {
  import opened JsValues
  import opened Strings
  import opened HandlerRegistry
  import opened Dispatcher

  /** The parts of an Express request the middleware reads. `path` excludes the
      query string; `self` is the request object passed on to handlers. */
  datatype HttpRequest = HttpRequest(verb: string, path: string, body: Value, self: Value)

  /** What a response carries: `.end()`, `.send(text)` or `.json(value)`. */
  datatype Payload = NoPayload | Text(text: Value) | Json(json: Value)

  /** A response: the status given to `res.status`, the headers given to
      `res.set` (if it was called), and the payload. */
  datatype Response = Response(status: Value, headers: Option<Value>, payload: Payload)

  /** The middleware's first step: answer at once, or forward a request. */
  datatype Step = Respond(response: Response) | Forward(request: Request)

  /** The whole middleware: answered at once, invoked a handler, or threw. */
  datatype Handled = Responded(response: Response) | Invoked(invocation: Invocation) | Threw(error: Error)

  /** `'/resource/'.length`: how much of a GET path is dropped unread. */
  const ResourcePrefixLength: nat := 10

  /** The request key the batch path reads and answers under. */
  const DefaultGuid := "g0"

  /** The two completion callbacks the middleware creates, told apart by identity. */
  const GetCallback: Value := Func(0)
  const BatchCallback: Value := Func(1)

  /** The params string of a GET path: the `;`-segments after the first, joined by `&`. */
  function GetParamString(path: string): string
  {
    Join(Split(Substr(path, ResourcePrefixLength), ';')[1..], '&')
  }

  /** The resource of a GET path: the first `;`-segment after the first ten characters. */
  function GetResource(path: string): string
  {
    Split(Substr(path, ResourcePrefixLength), ';')[0]
  }

  /** The request translation. `parse` stands for `qs.parse`. */
  function Translate(http: HttpRequest, parse: string -> map<string, Value>): Result<Step>
  {
    if http.verb == "GET" then
      Success(Forward(Request(
        http.self,
        Str(GetResource(http.path)),
        Str("read"),
        Obj(parse(GetParamString(http.path))),
        Undefined,
        EmptyObject,
        GetCallback)))
    else
      match Field(http.body, "requests")
      case Failure(e) => Failure(e)
      case Success(requests) =>
        if !Truthy(requests) || KeyCount(requests) == 0 then
          Success(Respond(Response(Num(400), None, NoPayload)))
        else
          var single := Get(requests, DefaultGuid);
          if Nullish(single) then
            Failure(TypeError("cannot read property 'resource' of " + (if single.Null? then "null" else "undefined")))
          else
            Success(Forward(Request(
              http.self,
              Get(single, "resource"),
              Get(single, "operation"),
              Get(single, "params"),
              Or(Get(single, "body"), EmptyObject),
              Get(single, "config"),
              BatchCallback)))
  }

  /** The response of a failed call, shared by both callbacks. */
  function ErrorResponse(err: Value): Response
    requires Truthy(err)
  {
    Response(Or(Get(err, "statusCode"), Num(400)), None, Text(Or(Get(err, "message"), Str("request failed"))))
  }

  /** The GET callback `(err, data, meta)`. */
  function GetCompletion(err: Value, data: Value, meta: Value): Response
  {
    if Truthy(err) then ErrorResponse(err)
    else
      var m := Or(meta, EmptyObject);
      var headers := Get(m, "headers");
      Response(Or(Get(m, "statusCode"), Num(200)), if Truthy(headers) then Some(headers) else None, Json(data))
  }

  /** The batch callback `(err, data, meta)`: the payload is wrapped as `{g0: {data: data}}`. */
  function BatchCompletion(err: Value, data: Value, meta: Value): Response
  {
    if Truthy(err) then ErrorResponse(err)
    else
      var m := Or(meta, EmptyObject);
      Response(Or(Get(m, "statusCode"), Num(200)), None, Json(Obj(map[DefaultGuid := Obj(map["data" := data])])))
  }

  /** The middleware: translate, then `Fetcher.single` on the request. */
  function Handle(fetchers: map<string, Handler>, http: HttpRequest, parse: string -> map<string, Value>): Handled
  {
    match Translate(http, parse)
    case Failure(e) => Threw(e)
    case Success(Respond(res)) => Responded(res)
    case Success(Forward(request)) =>
      match Dispatch(fetchers, request)
      case Failure(e) => Threw(e)
      case Success(inv) => Invoked(inv)
  }

  // ------------------------------------------------------------------
  // Properties of the translation
  // ------------------------------------------------------------------

  /** A GET request reads the resource named by the path: the first ten characters
      are dropped whatever they are, the resource is the text up to the first `;`,
      the params are parsed from the rest with each `;` turned into `&`, and the
      config is `{}`. */
  lemma TranslateGet(http: HttpRequest, parse: string -> map<string, Value>)
    requires http.verb == "GET"
    ensures var rest := Substr(http.path, ResourcePrefixLength);
      && Translate(http, parse).Success? && Translate(http, parse).value.Forward?
      && var request := Translate(http, parse).value.request;
      && request.resource.Str?
      && ';' !in request.resource.s
      && rest == request.resource.s + (if ';' in rest then [';'] + AfterFirst(rest, ';') else "")
      && request.operation == Str("read")
      && request.params == Obj(parse(Replace(AfterFirst(rest, ';'), ';', '&')))
      && request.config == EmptyObject
      && request.callback == GetCallback
  {
    var rest := Substr(http.path, ResourcePrefixLength);
    SplitFirst(rest, ';');
    SplitTailRejoin(rest, ';', '&');
  }

  /** A GET path with no `;` after its first ten characters names the resource
      outright and carries an empty params string. */
  lemma TranslateGetPlain(path: string)
    requires ';' !in Substr(path, ResourcePrefixLength)
    ensures GetResource(path) == Substr(path, ResourcePrefixLength)
    ensures GetParamString(path) == ""
  {
    var rest := Substr(path, ResourcePrefixLength);
    SplitHead(rest, ';');
    SplitTailJoin(rest, ';');
  }

  /** A non-GET request whose `requests` is missing, falsy or has no keys is
      answered 400 with no payload and reaches no handler; one with keys but no
      usable `g0` throws. */
  lemma TranslateBatchRejects(fetchers: map<string, Handler>, http: HttpRequest, parse: string -> map<string, Value>)
    requires http.verb != "GET" && !Nullish(http.body)
    ensures var requests := Get(http.body, "requests");
      && (!Truthy(requests) || KeyCount(requests) == 0 <==>
            Handle(fetchers, http, parse) == Responded(Response(Num(400), None, NoPayload)))
      && (Truthy(requests) && KeyCount(requests) > 0 && Nullish(Get(requests, DefaultGuid)) ==>
            Handle(fetchers, http, parse).Threw?)
  {
  }

  /** Otherwise the request is `requests.g0`, with the body defaulting to `{}`. */
  lemma TranslateBatch(http: HttpRequest, parse: string -> map<string, Value>)
    requires http.verb != "GET" && !Nullish(http.body)
    requires var requests := Get(http.body, "requests");
      Truthy(requests) && KeyCount(requests) > 0 && !Nullish(Get(requests, DefaultGuid))
    ensures var single := Get(Get(http.body, "requests"), DefaultGuid);
      Translate(http, parse) == Success(Forward(Request(
        http.self,
        Get(single, "resource"),
        Get(single, "operation"),
        Get(single, "params"),
        if Truthy(Get(single, "body")) then Get(single, "body") else Obj(map[]),
        Get(single, "config"),
        BatchCallback)))
  {
  }

  /** On error both callbacks answer with the error's status code, else 400, and
      its message, else 'request failed'. */
  lemma CompletionOnError(err: Value, data: Value, meta: Value)
    requires Truthy(err)
    ensures var status := if Truthy(Get(err, "statusCode")) then Get(err, "statusCode") else Num(400);
      var message := if Truthy(Get(err, "message")) then Get(err, "message") else Str("request failed");
      && GetCompletion(err, data, meta) == Response(status, None, Text(message))
      && BatchCompletion(err, data, meta) == Response(status, None, Text(message))
  {
  }

  /** On success the status is the meta's status code, else 200; the GET callback
      sets the meta's headers and sends the data bare, the batch callback sends
      `{g0: {data: data}}` and sets no headers. */
  lemma CompletionOnSuccess(err: Value, data: Value, meta: Value)
    requires !Truthy(err)
    ensures var m := if Truthy(meta) then meta else Obj(map[]);
      var status := if Truthy(Get(m, "statusCode")) then Get(m, "statusCode") else Num(200);
      && GetCompletion(err, data, meta).status == status
      && GetCompletion(err, data, meta).payload == Json(data)
      && GetCompletion(err, data, meta).headers
         == (if Truthy(Get(m, "headers")) then Some(Get(m, "headers")) else None)
      && BatchCompletion(err, data, meta) == Response(status, None, Json(Obj(map["g0" := Obj(map["data" := data])])))
  {
  }
}
