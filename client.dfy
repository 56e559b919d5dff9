/**
 * A `Fetcher` instance: per-request options and the four CRUD wrappers that
 * build a request record and hand it to `single`.
 */
module Client {
  import opened JsValues
  import opened HandlerRegistry
  import opened Dispatcher

  class Fetcher {
    /** The shared table behind `Fetcher.fetchers`. */
    const registry: Registry
    var options: Value
    var req: Value

    /** `new Fetcher(options)`: `options` defaults to `{}`, and `req` to
        `options.req`, itself defaulting to `{}`. */
    constructor (options: Value, registry: Registry)
      ensures this.registry == registry
      ensures this.options == (if Truthy(options) then options else EmptyObject)
      ensures this.req == (if Truthy(Get(this.options, "req")) then Get(this.options, "req") else EmptyObject)
      ensures Truthy(this.options) && Truthy(this.req)
    {
      var effective := Or(options, EmptyObject);
      this.registry := registry;
      this.options := effective;
      this.req := Or(Get(effective, "req"), EmptyObject);
    }

    /** `fetcher.read(resource, params, config, callback)`: a request with
        operation `read` and no body. */
    method Read(resource: Value, params: Value, config: Value, callback: Value) returns (r: Result<Invocation>)
      ensures r == Dispatch(registry.fetchers, Request(req, resource, Str("read"), params, Undefined, config, callback))
      ensures r.Success? ==> r.value.op == "read" && |r.value.args| == 5 && r.value.args[0] == req
    {
      r := Single(registry, Request(req, resource, Str("read"), params, Undefined, config, callback));
    }

    /** `fetcher.create(resource, params, body, config, callback)`. */
    method Create(resource: Value, params: Value, body: Value, config: Value, callback: Value) returns (r: Result<Invocation>)
      ensures r == Dispatch(registry.fetchers, Request(req, resource, Str("create"), params, body, config, callback))
      ensures r.Success? ==> r.value.op == "create" && |r.value.args| == 6 && r.value.args[3] == body
    {
      r := Single(registry, Request(req, resource, Str("create"), params, body, config, callback));
    }

    /** `fetcher.update(resource, params, body, config, callback)`. */
    method Update(resource: Value, params: Value, body: Value, config: Value, callback: Value) returns (r: Result<Invocation>)
      ensures r == Dispatch(registry.fetchers, Request(req, resource, Str("update"), params, body, config, callback))
      ensures r.Success? ==> r.value.op == "update" && |r.value.args| == 6 && r.value.args[3] == body
    {
      r := Single(registry, Request(req, resource, Str("update"), params, body, config, callback));
    }

    /** `fetcher.del(resource, params, config, callback)`: the operation sent is
        `del`, so only a handler with a `del` method can serve it. */
    method Del(resource: Value, params: Value, config: Value, callback: Value) returns (r: Result<Invocation>)
      ensures r == Dispatch(registry.fetchers, Request(req, resource, Str("del"), params, Undefined, config, callback))
      ensures r.Success? ==> r.value.op == "del" && "del" in r.value.handler.methods && |r.value.args| == 5
    {
      r := Single(registry, Request(req, resource, Str("del"), params, Undefined, config, callback));
    }
  }
}
