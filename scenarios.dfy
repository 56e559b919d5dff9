/**
 * Whole requests served by the mock handler: the middleware or a `Fetcher`
 * instance builds the call, `single` dispatches it, the mock answers through
 * the callback, and the callback builds the response.
 */
module Scenarios {
  import opened JsValues
  import opened Strings
  import opened HandlerRegistry
  import opened Dispatcher
  import opened Middleware
  import opened FakeFetcher
  import opened Client

  /** The status a successful response carries when the mock answered for `params`:
      the `meta.statusCode` param if truthy, else 200. */
  function MockStatus(params: map<string, Value>): Value
  {
    if "meta.statusCode" in params && Truthy(params["meta.statusCode"]) then params["meta.statusCode"] else Num(200)
  }

  /** The mock's metadata as the callbacks read it: `meta.statusCode` and
      `meta.headers` become `statusCode` and `headers`. */
  lemma MockMeta(params: map<string, Value>)
    ensures Get(Obj(ExtractMetaData(params)), "statusCode")
         == if "meta.statusCode" in params then params["meta.statusCode"] else Undefined
    ensures Get(Obj(ExtractMetaData(params)), "headers")
         == if "meta.headers" in params then params["meta.headers"] else Undefined
  {
    assert MetaPrefix + "statusCode" == "meta.statusCode";
    assert MetaPrefix + "headers" == "meta.headers";
  }

  /** Any request `single` dispatches to the mock comes back through the callback
      it ends up with (after the shim) as an echo of resource, params and config. */
  lemma DispatchToMock(fetchers: map<string, Handler>, request: Request)
    requires Name in fetchers && fetchers[Name] == Fake
    requires request.resource.Str? && HandlerKey(request.resource.s) == Name
    requires request.operation.Str? && request.operation.s in Methods
    requires EffectiveCallback(request.config, request.callback).Func?
    ensures var inv := Dispatch(fetchers, request);
      && inv.Success?
      && inv.value.handler == Fake
      && inv.value.op == request.operation.s
      && Invoke(inv.value.op, inv.value.args) == Success(CallbackCall(
           EffectiveCallback(request.config, request.callback),
           Null,
           Echo(request.operation.s, request.resource, request.params, EffectiveConfig(request.config)),
           Obj(MetaOf(request.params))))
  {
  }

  /** The batch callback's response to the mock's answer. */
  lemma BatchResponseFromMock(params: map<string, Value>, data: Value)
    ensures BatchCompletion(Null, data, Obj(ExtractMetaData(params)))
         == Response(MockStatus(params), None, Json(Obj(map["g0" := Obj(map["data" := data])])))
  {
    MockMeta(params);
  }

  /** The GET callback's response to the mock's answer. */
  lemma GetResponseFromMock(params: map<string, Value>, data: Value)
    ensures var headers := if "meta.headers" in params && Truthy(params["meta.headers"]) then Some(params["meta.headers"]) else None;
      GetCompletion(Null, data, Obj(ExtractMetaData(params))) == Response(MockStatus(params), headers, Json(data))
  {
    MockMeta(params);
  }

  /** A batch body holding one request under `g0` is forwarded as that request. */
  lemma BatchForwards(
    http: HttpRequest, parse: string -> map<string, Value>,
    resource: string, op: string, params: map<string, Value>, body: Value, config: Value)
    requires http.verb != "GET"
    requires http.body == Obj(map["requests" := Obj(map["g0" := Obj(map[
      "resource" := Str(resource), "operation" := Str(op), "params" := Obj(params),
      "body" := body, "config" := config])])])
    ensures Translate(http, parse)
         == Success(Forward(Request(http.self, Str(resource), Str(op), Obj(params), Or(body, EmptyObject), config, BatchCallback)))
  {
    var single := Obj(map[
      "resource" := Str(resource), "operation" := Str(op), "params" := Obj(params),
      "body" := body, "config" := config]);
    var requests := Obj(map["g0" := single]);
    assert Get(http.body, "requests") == requests;
    assert KeyCount(requests) == 1;
    assert Get(requests, DefaultGuid) == single;
    TranslateBatch(http, parse);
    assert Get(single, "resource") == Str(resource);
    assert Get(single, "operation") == Str(op);
    assert Get(single, "params") == Obj(params);
    assert Get(single, "body") == body;
    assert Get(single, "config") == config;
  }

  /** A batch request for `g0` reaches the mock, which echoes it with a null
      error, and the response is `{g0: {data: ...}}` with the status chosen by
      `meta.statusCode`. */
  lemma BatchThroughMock(
    fetchers: map<string, Handler>, http: HttpRequest, parse: string -> map<string, Value>,
    resource: string, op: string, params: map<string, Value>, body: Value, config: Value)
    requires Name in fetchers && fetchers[Name] == Fake
    requires HandlerKey(resource) == Name
    requires op in Methods && !config.Func?
    requires http.verb != "GET"
    requires http.body == Obj(map["requests" := Obj(map["g0" := Obj(map[
      "resource" := Str(resource), "operation" := Str(op), "params" := Obj(params),
      "body" := body, "config" := config])])])
    ensures var handled := Handle(fetchers, http, parse);
      var data := Echo(op, Str(resource), Obj(params), config);
      var meta := Obj(ExtractMetaData(params));
      && handled.Invoked?
      && handled.invocation.handler == Fake
      && Invoke(handled.invocation.op, handled.invocation.args) == Success(CallbackCall(BatchCallback, Null, data, meta))
      && BatchCompletion(Null, data, meta)
         == Response(MockStatus(params), None, Json(Obj(map["g0" := Obj(map["data" := data])])))
  {
    var request := Request(http.self, Str(resource), Str(op), Obj(params), Or(body, EmptyObject), config, BatchCallback);
    BatchForwards(http, parse, resource, op, params, body, config);
    DispatchToMock(fetchers, request);
    BatchResponseFromMock(params, Echo(op, Str(resource), Obj(params), config));
  }

  /** A GET request reaches the mock's `read` with config `{}` and the parsed
      params, and the response is the bare echo with the status chosen by
      `meta.statusCode` and the headers given by a truthy `meta.headers`. */
  lemma GetThroughMock(
    fetchers: map<string, Handler>, http: HttpRequest, parse: string -> map<string, Value>)
    requires Name in fetchers && fetchers[Name] == Fake
    requires http.verb == "GET"
    requires HandlerKey(GetResource(http.path)) == Name
    ensures var params := parse(GetParamString(http.path));
      var handled := Handle(fetchers, http, parse);
      var data := Echo("read", Str(GetResource(http.path)), Obj(params), EmptyObject);
      var meta := Obj(ExtractMetaData(params));
      var headers := if "meta.headers" in params && Truthy(params["meta.headers"]) then Some(params["meta.headers"]) else None;
      && handled.Invoked?
      && handled.invocation.op == "read"
      && Invoke(handled.invocation.op, handled.invocation.args) == Success(CallbackCall(GetCallback, Null, data, meta))
      && GetCompletion(Null, data, meta) == Response(MockStatus(params), headers, Json(data))
  {
    var params := parse(GetParamString(http.path));
    var request := Request(http.self, Str(GetResource(http.path)), Str("read"), Obj(params), Undefined, EmptyObject, GetCallback);
    assert Translate(http, parse) == Success(Forward(request));
    DispatchToMock(fetchers, request);
    GetResponseFromMock(params, Echo("read", Str(GetResource(http.path)), Obj(params), EmptyObject));
  }

  /** An operation the mock lacks, such as `delete`, is not validated: the call
      of a missing method throws and no callback runs. */
  lemma MissingOperationThrows(fetchers: map<string, Handler>, request: Request)
    requires Name in fetchers && fetchers[Name] == Fake
    requires request.resource.Str? && HandlerKey(request.resource.s) == Name
    requires request.operation == Str("delete")
    ensures Dispatch(fetchers, request).Failure? && Dispatch(fetchers, request).error.TypeError?
  {
  }

  /** A resource whose key names nothing registered throws out of the middleware
      instead of reaching the callback. */
  lemma UnknownResourceThrows(fetchers: map<string, Handler>, http: HttpRequest, parse: string -> map<string, Value>)
    requires http.verb == "GET"
    requires HandlerKey(GetResource(http.path)) !in fetchers
    ensures Handle(fetchers, http, parse) == Threw(FetcherNotFound)
  {
  }

  /** A fresh table with the mock registered, read through a `Fetcher` instance
      with the config left out: the callback moves into place and the mock
      answers it with an empty context. */
  method ReadThroughMock(resource: string, params: Value, callback: Value) returns (r: Result<Invocation>)
    requires HandlerKey(resource) == Name && callback.Func?
    ensures r.Success? && r.value.handler == Fake && r.value.op == "read"
    ensures Invoke(r.value.op, r.value.args)
         == Success(CallbackCall(callback, Null, Echo("read", Str(resource), params, EmptyObject), Obj(MetaOf(params))))
  {
    var registry := new Registry();
    var registered := registry.RegisterFetcher(Fake);
    var fetcher := new Fetcher(Undefined, registry);
    r := fetcher.Read(Str(resource), params, callback, Undefined);
  }

  /** `del` through a `Fetcher` instance reaches the mock's `del` method. */
  method DelThroughMock(resource: string, params: Value, config: Value, callback: Value) returns (r: Result<Invocation>)
    requires HandlerKey(resource) == Name && !config.Func? && callback.Func?
    ensures r.Success? && r.value.op == "del" && |r.value.args| == 5
    ensures Invoke(r.value.op, r.value.args)
         == Success(CallbackCall(callback, Null, Echo("del", Str(resource), params, config), Obj(MetaOf(params))))
  {
    var registry := new Registry();
    var registered := registry.RegisterFetcher(Fake);
    var fetcher := new Fetcher(Undefined, registry);
    r := fetcher.Del(Str(resource), params, config, callback);
  }
}
