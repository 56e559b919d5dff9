/**
 * `Fetcher.single`: resolves the handler of one request, normalises its
 * arguments, and invokes the handler's method for the operation. The invocation
 * is returned as a value; the handler's own behaviour is not part of this module.
 */
module Dispatcher {
  import opened JsValues
  import opened Strings
  import opened HandlerRegistry

  /** One request handed to `single`. `body` is undefined where the caller
      built no body; `config` may in fact be the callback. */
  datatype Request = Request(
    req: Value,
    resource: Value,
    operation: Value,
    params: Value,
    body: Value,
    config: Value,
    callback: Value)

  /** `fetcher[op].apply(fetcher, args)`: the registry key used, the handler
      found under it, the method name and the positional arguments. */
  datatype Invocation = Invocation(key: string, handler: Handler, op: string, args: seq<Value>)

  /** The registry key of a resource name: `resource.split('.')[0]`. */
  function HandlerKey(resource: string): (key: string)
    ensures '.' !in key
    ensures |key| <= |resource| && resource[..|key|] == key
    ensures '.' !in resource ==> key == resource
    ensures '.' in resource ==> |key| < |resource| && resource[|key|] == '.'
  {
    SplitHead(resource, '.');
    Split(resource, '.')[0]
  }

  /** The operations whose handler method takes a body. */
  predicate TakesBody(op: Value)
  {
    op == Str("create") || op == Str("update")
  }

  /** The config and callback after the shim: a function passed as `config` is
      the callback, and the config is then `{}`. */
  function EffectiveConfig(config: Value): Value
  {
    if config.Func? then EmptyObject else config
  }

  function EffectiveCallback(config: Value, callback: Value): Value
  {
    if config.Func? then config else callback
  }

  /** What `single` does, as a value: the error it throws, or the call it makes. */
  function Dispatch(fetchers: map<string, Handler>, request: Request): Result<Invocation>
  {
    if !request.resource.Str? then
      Failure(TypeError("resource.split is not a function"))
    else
      var key := HandlerKey(request.resource.s);
      match GetFetcher(fetchers, key)
      case Failure(e) => Failure(e)
      case Success(fetcher) =>
        var config := EffectiveConfig(request.config);
        var callback := EffectiveCallback(request.config, request.callback);
        var args :=
          if TakesBody(request.operation)
          then [request.req, request.resource, request.params, request.body, config, callback]
          else [request.req, request.resource, request.params, config, callback];
        if request.operation.Str? && request.operation.s in fetcher.methods then
          Success(Invocation(key, fetcher, request.operation.s, args))
        else
          Failure(TypeError("fetcher[op] is not a function"))
  }

  /** `Fetcher.single(request)`: reassigns config and callback for the shim and
      splices the body into the argument list at index 3 for create and update. */
  method Single(registry: Registry, request: Request) returns (r: Result<Invocation>)
    ensures r == Dispatch(registry.fetchers, request)
  {
    if !request.resource.Str? {
      return Failure(TypeError("resource.split is not a function"));
    }
    var key := Split(request.resource.s, '.')[0];
    var found := GetFetcher(registry.fetchers, key);
    if found.Failure? {
      return Failure(found.error);
    }
    var fetcher := found.value;
    var op := request.operation;
    var config := request.config;
    var callback := request.callback;
    if config.Func? {
      callback := config;
      config := EmptyObject;
    }
    var args := [request.req, request.resource, request.params, config, callback];
    if op == Str("create") || op == Str("update") {
      args := args[..3] + [request.body] + args[3..];
      assert args == [request.req, request.resource, request.params, request.body, config, callback];
    }
    if op.Str? && op.s in fetcher.methods {
      r := Success(Invocation(key, fetcher, op.s, args));
    } else {
      r := Failure(TypeError("fetcher[op] is not a function"));
    }
  }

  // ------------------------------------------------------------------
  // Properties of a dispatch
  // ------------------------------------------------------------------

  /** The handler is looked up by the text before the first `.` of the resource
      name; a failed lookup is thrown, so no handler and no callback sees it. */
  lemma DispatchResolvesByPrefix(fetchers: map<string, Handler>, request: Request)
    requires request.resource.Str?
    ensures var key := HandlerKey(request.resource.s);
      && (Dispatch(fetchers, request) == Failure(FetcherNotFound) <==> key == "" || key !in fetchers)
      && (Dispatch(fetchers, request).Success? ==>
            Dispatch(fetchers, request).value.key == key &&
            Dispatch(fetchers, request).value.handler == fetchers[key])
  {
    var key := HandlerKey(request.resource.s);
    GetFetcherFails(fetchers, key);
  }

  /** The argument list: for create and update exactly
      `[req, resource, params, body, config, callback]`, for any other operation
      exactly `[req, resource, params, config, callback]`, with the shim applied. */
  lemma DispatchArguments(fetchers: map<string, Handler>, request: Request)
    requires Dispatch(fetchers, request).Success?
    ensures var inv := Dispatch(fetchers, request).value;
      var config := if request.config.Func? then EmptyObject else request.config;
      var callback := if request.config.Func? then request.config else request.callback;
      && (request.operation in {Str("create"), Str("update")} ==>
            inv.args == [request.req, request.resource, request.params, request.body, config, callback])
      && (request.operation !in {Str("create"), Str("update")} ==>
            inv.args == [request.req, request.resource, request.params, config, callback])
  {
  }

  /** The shim: a function in the config position becomes the callback and the
      config becomes `{}`; otherwise both pass through unchanged. */
  lemma DispatchConfigShim(fetchers: map<string, Handler>, request: Request)
    requires Dispatch(fetchers, request).Success?
    ensures var args := Dispatch(fetchers, request).value.args;
      && (request.config.Func? ==> args[|args| - 2] == EmptyObject && args[|args| - 1] == request.config)
      && (!request.config.Func? ==> args[|args| - 2] == request.config && args[|args| - 1] == request.callback)
  {
  }

  /** Operations are not validated: any method name the handler carries is
      invoked, and any other, even `delete`, is a call of undefined. */
  lemma DispatchOperation(fetchers: map<string, Handler>, request: Request)
    requires request.resource.Str?
    requires GetFetcher(fetchers, HandlerKey(request.resource.s)).Success?
    ensures var fetcher := GetFetcher(fetchers, HandlerKey(request.resource.s)).value;
      && (Dispatch(fetchers, request).Success? <==> request.operation.Str? && request.operation.s in fetcher.methods)
      && (Dispatch(fetchers, request).Success? ==> Str(Dispatch(fetchers, request).value.op) == request.operation)
      && (Dispatch(fetchers, request).Failure? ==> Dispatch(fetchers, request).error.TypeError?)
  {
  }
}
