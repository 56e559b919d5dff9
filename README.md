# fetchr: handler registry and request dispatcher, modelled in Dafny

Fetchr lets code call `read`, `create`, `update` and `del` on a named
resource without knowing where the implementation lives. A process-wide
registry maps a handler ("fetcher") name to the handler object; `single`
takes one request, finds the handler by the part of the resource name
before the first `.`, lines up the arguments for the operation and calls the
handler's method. An Express middleware turns an HTTP request (a GET with the
resource in the path, or a batch body with one request under `g0`) into such
a request and turns the handler's callback into an HTTP response. The tests
use a mock handler that echoes its arguments back and derives response
metadata from `meta.`-prefixed params.

The Dafny model:

- `js_values.dfy` (`JsValues`): JavaScript values as a datatype, truthiness,
  `a || b`, property reads (a read on `null`/`undefined` throws), and the
  thrown errors as a `Result`.
- `strings.dfy` (`Strings`): `split` on one character, `join`, `substr`,
  and lemmas relating them (split then join is the identity, the first part
  is the text before the first separator, the remaining parts joined by `&`
  are the rest with `;` replaced by `&`).
- `registry.dfy` (`HandlerRegistry`): the table as a class `Registry` with a
  `map<string, Handler>` field that `RegisterFetcher` updates in place;
  `getFetcher` as the pure `GetFetcher`; the as-written lookup that also
  finds inherited `Object.prototype` members (see Findings).
- `dispatch.dfy` (`Dispatcher`): `single` as the method `Single`, which
  reassigns config and callback and splices the body into the argument list,
  proved equal to the function `Dispatch`; lemmas on the lookup key, the
  argument lists, the config shim and the missing operation check.
- `client.dfy` (`Client`): a `Fetcher` instance and its four CRUD wrappers.
- `middleware.dfy` (`Middleware`): the request translation, the two
  completion callbacks as functions from `(err, data, meta)` to a response
  record, and the whole middleware `Handle`.
- `fake_fetcher.dfy` (`FakeFetcher`): `extractMetaData` and the mock's four
  echo methods.
- `scenarios.dfy` (`Scenarios`): whole requests served by the mock, from
  the HTTP request or a `Fetcher` instance to the response.

A handler's invocation is returned as a value (key, handler, method name,
argument list). Only the mock handler's behaviour is modelled; the middleware's
callbacks are the functions `GetCompletion` and `BatchCompletion`, which the
model tells apart as the function values `GetCallback` and `BatchCallback`.
`qs.parse` is a parameter `parse: string -> map<string, Value>` of the
translation.

The model follows the code: the GET path reads only `req.path`, so the query
string is not merged into the params; a failed lookup, a non-string resource
and a missing method are thrown out of `single` rather than passed to the
callback; the operation is not checked against a fixed set; and `del` is sent
as `del`, not `delete`.

## Model

| member | source | states |
|---|---|---|
| `HandlerRegistry.Registry.constructor` | libs/fetcher.js:33 | the table starts empty and keyed by name |
| `HandlerRegistry.Registry.RegisterFetcher` | libs/fetcher.js:39-49 | a handler without a truthy name throws and leaves the table unchanged; otherwise the table becomes the old one with the handler stored under its name (overwriting), and stays keyed by name |
| `HandlerRegistry.RegisterThenGet` | libs/fetcher.js:39-62 | after storing `h`, `getFetcher(h.name)` returns `h`, every other name finds what it found before, and the keyed-by-name invariant is kept |
| `HandlerRegistry.LastWriterWins` | libs/fetcher.js:46 | registering twice under one name leaves the later handler |
| `HandlerRegistry.GetFetcherFails` | libs/fetcher.js:56-61 | `getFetcher` throws exactly when the name is empty or not in the table, always with the not-found error |
| `HandlerRegistry.GetFetcherReturnsRegistered` | libs/fetcher.js:56-62 | what `getFetcher` returns is in the table and, in a table keyed by name, has the name asked for |
| `HandlerRegistry.GetFetcherAsWritten` | libs/fetcher.js:56-62 | the as-written lookup agrees with the corrected one on every name that is not an `Object.prototype` member |
| `HandlerRegistry.GetFetcherAsWrittenFindsUnregistered` | libs/fetcher.js:58-61 | with nothing registered the as-written lookup returns the inherited `toString` while the corrected one throws |
| `HandlerRegistry.GetFetcherCorrected` | libs/fetcher.js:56-62 | the corrected lookup returns only the entry stored under the name, and the as-written one returns that same entry off the prototype members |
| `Strings.Split` | libs/fetcher.js:76 | `split` gives at least one part, no part holds the separator, and joining the parts with it gives back the string |
| `Strings.SplitHead` | libs/fetcher.js:155 | the first part of a split is the prefix before the first separator, or the whole string when there is none |
| `Strings.SplitTailRejoin` | libs/fetcher.js:76-81 | the parts after the first, joined with `&`, are the text after the first `;` with every `;` replaced by `&` |
| `Strings.Substr` | libs/fetcher.js:76 | `substr(start)` is the suffix from `start`, and empty when `start` is past the end |
| `Dispatcher.HandlerKey` | libs/fetcher.js:155 | the registry key holds no `.`, is a prefix of the resource name, is the whole name when it has no `.`, and is followed by the first `.` otherwise |
| `Dispatcher.Single` | libs/fetcher.js:153-177 | the in-place shim and splice produce exactly the dispatch `Dispatch` describes |
| `Dispatcher.DispatchResolvesByPrefix` | libs/fetcher.js:155 | the handler is the one stored under the key before the first `.`; the not-found error is thrown exactly when that key is empty or unregistered |
| `Dispatcher.DispatchArguments` | libs/fetcher.js:170-174 | for `create`/`update` the arguments are exactly `[req, resource, params, body, config, callback]`, for any other operation exactly `[req, resource, params, config, callback]` |
| `Dispatcher.DispatchConfigShim` | libs/fetcher.js:165-168 | a function passed as config becomes the callback and config becomes `{}`; otherwise both pass through |
| `Dispatcher.DispatchOperation` | libs/fetcher.js:176 | the call succeeds exactly when the handler has a method of that name, and otherwise throws a TypeError; the method called is the operation given |
| `Client.Fetcher.constructor` | libs/fetcher.js:28-31 | `options` defaults to `{}` and `req` to `options.req`, itself defaulting to `{}`; both are truthy |
| `Client.Fetcher.Read` | libs/fetcher.js:194-204 | `read` dispatches operation `read` with no body and the instance's `req` first, five arguments |
| `Client.Fetcher.Create` | libs/fetcher.js:216-227 | `create` dispatches operation `create` with the body at index 3, six arguments |
| `Client.Fetcher.Update` | libs/fetcher.js:239-250 | `update` dispatches operation `update` with the body at index 3, six arguments |
| `Client.Fetcher.Del` | libs/fetcher.js:261-271 | `del` dispatches operation `del` (not `delete`), so it succeeds only on a handler with a `del` method |
| `Middleware.TranslateGet` | libs/fetcher.js:75-82 | a GET drops the first ten characters of the path whatever they are; the resource is the text up to the first `;`, the operation `read`, the params the parse of the rest with `;` turned into `&`, the config `{}` |
| `Middleware.TranslateGetPlain` | libs/fetcher.js:76-81 | a GET path with no `;` names the resource outright and gives an empty params string |
| `Middleware.TranslateBatchRejects` | libs/fetcher.js:98-103 | a non-GET whose `requests` is falsy or has no keys is answered 400 with no payload and reaches no handler; one with keys but no `g0` throws |
| `Middleware.TranslateBatch` | libs/fetcher.js:105-113 | otherwise the request is `requests.g0`'s resource, operation, params and config, with the body defaulting to `{}` |
| `Middleware.CompletionOnError` | libs/fetcher.js:83-118 | on error both callbacks answer with `err.statusCode` or else 400 and `err.message` or else `'request failed'` |
| `Middleware.CompletionOnSuccess` | libs/fetcher.js:88-123 | on success the status is `meta.statusCode` or else 200; GET sets exactly the value of `meta.headers` when it is truthy and no headers otherwise, and sends the data bare; the batch path wraps it as `{g0: {data}}` |
| `FakeFetcher.ExtractMetaData` | tests/mock/fakeFetcher.js:8-25 | a name is in the result exactly when `meta.` + name is a param, with that param's value |
| `FakeFetcher.ExtractKeepsPrefixed` | tests/mock/fakeFetcher.js:14-19 | every `meta.`-prefixed key appears with its first five characters removed and its value unchanged |
| `FakeFetcher.ExtractDropsUnprefixed` | tests/mock/fakeFetcher.js:11-13 | every entry comes from a prefixed key; with no prefixed key the result is `{}` |
| `FakeFetcher.ExtractSize` | tests/mock/fakeFetcher.js:20-24 | the result has exactly one entry per prefixed key |
| `FakeFetcher.InvokeEchoes` | tests/mock/fakeFetcher.js:45-119 | each method calls its callback once with a null error, `operation` equal to its name, `args` echoing resource, params and context, and the params' metadata |
| `FakeFetcher.InvokeIgnoresBody` | tests/mock/fakeFetcher.js:67-98 | `create` and `update` answer the same whatever the body |
| `FakeFetcher.FakeRegistrable` | tests/mock/fakeFetcher.js:28 | the mock's name `fake_fetcher` is non-empty and registering it makes it found under that name |
| `Scenarios.MockMeta` | tests/mock/fakeFetcher.js:8-25 | the metadata's `statusCode` and `headers` are the `meta.statusCode` and `meta.headers` params |
| `Scenarios.DispatchToMock` | libs/fetcher.js:165-176 | any request dispatched to the mock comes back through the callback left by the shim, echoing resource, params and config |
| `Scenarios.BatchForwards` | libs/fetcher.js:105-113 | a batch body with one request under `g0` is forwarded as that request |
| `Scenarios.BatchResponseFromMock` | libs/fetcher.js:114-123 | the batch callback answers the mock with the status chosen by `meta.statusCode` and `{g0: {data}}` |
| `Scenarios.GetResponseFromMock` | libs/fetcher.js:83-95 | the GET callback answers the mock with the status chosen by `meta.statusCode`, the headers from `meta.headers`, and the bare data |
| `Scenarios.BatchThroughMock` | libs/fetcher.js:97-127 | a batch request reaches the mock, which echoes it through the batch callback, giving `{g0: {data}}` and the chosen status |
| `Scenarios.GetThroughMock` | libs/fetcher.js:75-96 | a GET reaches the mock's `read` with config `{}`, and the response is the bare echo with the chosen status and headers |
| `Scenarios.MissingOperationThrows` | libs/fetcher.js:176 | operation `delete` on the mock throws a TypeError and no callback runs |
| `Scenarios.UnknownResourceThrows` | libs/fetcher.js:155 | a GET for an unregistered key throws the not-found error out of the middleware |
| `Scenarios.ReadThroughMock` | libs/fetcher.js:194-204 | a fresh table with the mock registered, read through a `Fetcher` with config left out: the callback moves into place and the mock answers it with an empty context |
| `Scenarios.DelThroughMock` | libs/fetcher.js:261-271 | `del` through a `Fetcher` reaches the mock's `del` with five arguments and is echoed |

## Left out

- Express's `res.status().send/json/set/end` side effects: the response is a returned `Response` record.
- `qs.parse`: a parameter of the translation; its parsing is not modelled.
- JSON serialisation of responses: the payload is the value that would be serialised.
- `debug` logging (libs/fetcher.js:19, 47, 154).
- Asynchrony: whether a handler calls back at once or later, and handlers that never call back. A callback call is a returned `CallbackCall` value.
- Batching of several requests (libs/fetcher.js:128): not implemented in the source either.
- Real handlers other than the mock: only the mock's methods have modelled behaviour; for any other handler the model stops at the invocation.
- The `xhrPath` option: not read by this code.
- Numbers are integers: fractional numbers and `NaN` are not modelled.
- Handler names are strings, with every falsy name written as the empty string; a non-string name (converted to a property key by JavaScript) and a `null` handler (which throws a TypeError) are not modelled.
- Property reads on values other than objects (string indices, a function's `name`) give undefined in the model.
- Method lookup on a handler sees only the methods it carries: an operation such as `toString` that a handler inherits from `Object.prototype` is treated as missing.
- HandlerRegistry.Registry.RegisterFetcher: in the code, storing a handler named `__proto__` (libs/fetcher.js:46) runs the inherited `__proto__` setter, so the handler replaces the table's prototype instead of becoming an entry, and its own properties (say `read`) are then found by `getFetcher`; the model stores it as an ordinary entry under `__proto__`, and `GetFetcherAsWritten` likewise assumes the prototype is still `Object.prototype`.
- Dispatcher.Dispatch: uses the corrected lookup `GetFetcher`, so a resource whose key is an `Object.prototype` member (such as `toString.x`) fails with the not-found error here, while the code at libs/fetcher.js:56-61 returns the inherited member and `single` then throws a TypeError at libs/fetcher.js:176 (see Findings); the rows of `GetFetcherFails`, `DispatchResolvesByPrefix` and `UnknownResourceThrows` describe the corrected lookup.
- FakeFetcher.ExtractMetaData: a param named `meta.__proto__` is kept as an ordinary entry, while in JavaScript the assignment to `__proto__` would not add a key.

## Findings

| source | as written | input that shows it | evidently intended | confidence | as-written member | corrected member |
|---|---|---|---|---|---|---|
| libs/fetcher.js:58-61 | `!Fetcher.fetchers[name]` looks the name up on a plain object, so inherited `Object.prototype` members count as registered | `getFetcher('toString')` with nothing registered returns `Object.prototype.toString` instead of throwing 'Fetcher could not be found' | every name that was not registered throws | high; not executed | `HandlerRegistry.GetFetcherAsWrittenFindsUnregistered` | `HandlerRegistry.GetFetcherCorrected` |

Through `single`, the as-written lookup turns such a resource (say
`toString.x`) into a call of a method of `Object.prototype.toString`, which
throws a TypeError for the usual operations instead of the not-found error.
The rest of the model uses the corrected `GetFetcher`.
