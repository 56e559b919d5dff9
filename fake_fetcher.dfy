/**
 * The mock handler used by the fetcher's tests: each CRUD method answers
 * through its callback with an echo of its arguments, and with metadata taken
 * from the `meta.`-prefixed params.
 */
module FakeFetcher {
  import opened JsValues
  import opened HandlerRegistry

  /** The mock's `name`, under which it registers. */
  const Name: string := "fake_fetcher"

  /** The methods the mock carries. */
  const Methods: set<string> := {"read", "create", "update", "del"}

  /** The mock object itself. */
  const Fake: Handler := Handler(Name, Methods, 0)

  const MetaPrefix: string := "meta."

  /** `/^meta\./.test(key)`. */
  predicate IsMetaKey(key: string)
  {
    |key| >= |MetaPrefix| && key[..|MetaPrefix|] == MetaPrefix
  }

  /** The names the prefixed keys of `params` have once the prefix is removed. */
  function MetaNames(params: map<string, Value>): set<string>
  {
    set key | key in params && IsMetaKey(key) :: Strip(key)
  }

  /** `key.substring(5)` of a prefixed key. */
  function Strip(key: string): (name: string)
    requires IsMetaKey(key)
    ensures key == MetaPrefix + name
  {
    key[|MetaPrefix|..]
  }

  /** `extractMetaData(params)`: the params whose key starts with `meta.`, under
      their key with those five characters removed. */
  function ExtractMetaData(params: map<string, Value>): (meta: map<string, Value>)
    ensures forall k :: k in meta <==> MetaPrefix + k in params
    ensures forall k :: k in meta ==> meta[k] == params[MetaPrefix + k]
  {
    assert forall k :: MetaPrefix + k in params ==> IsMetaKey(MetaPrefix + k) && Strip(MetaPrefix + k) == k;
    map k | k in MetaNames(params) :: params[MetaPrefix + k]
  }

  /** `_.pairs(params)` keeps the own fields of an object and finds none in any
      other value. */
  function MetaOf(params: Value): map<string, Value>
  {
    if params.Obj? then ExtractMetaData(params.fields) else map[]
  }

  /** Each prefixed key appears with its first five characters removed and its
      value unchanged. */
  lemma ExtractKeepsPrefixed(params: map<string, Value>, key: string)
    requires key in params && IsMetaKey(key)
    ensures key[5..] in ExtractMetaData(params)
    ensures ExtractMetaData(params)[key[5..]] == params[key]
  {
    assert key == MetaPrefix + key[5..];
  }

  /** Every entry of the result comes from a prefixed key; an input with no
      prefixed key gives `{}`. */
  lemma ExtractDropsUnprefixed(params: map<string, Value>)
    ensures forall k :: k in ExtractMetaData(params) ==> IsMetaKey(MetaPrefix + k) && MetaPrefix + k in params
    ensures (forall key :: key in params ==> !IsMetaKey(key)) ==> ExtractMetaData(params) == map[]
  {
    var meta := ExtractMetaData(params);
    forall k | k in meta
      ensures IsMetaKey(MetaPrefix + k)
    {
      assert (MetaPrefix + k)[..|MetaPrefix|] == MetaPrefix;
    }
  }

  /** The prefixed keys of `params`. */
  ghost function MetaKeys(params: map<string, Value>): set<string>
  {
    set key | key in params && IsMetaKey(key)
  }

  /** Removing a common prefix is injective: the result has one entry per
      prefixed key of the input. */
  lemma ExtractSize(params: map<string, Value>)
    ensures |ExtractMetaData(params)| == |MetaKeys(params)|
  {
    var meta := ExtractMetaData(params);
    var keys := MetaKeys(params);
    assert meta.Keys == Stripped(keys) by {
      forall k | k in meta ensures k in Stripped(keys) {
        var key := MetaPrefix + k;
        assert key[..|MetaPrefix|] == MetaPrefix && Strip(key) == k;
      }
      forall k | k in Stripped(keys) ensures k in meta {
        var key :| key in keys && Strip(key) == k;
      }
    }
    StrippedSize(keys);
  }

  /** The names of a set of prefixed keys. */
  ghost function Stripped(keys: set<string>): set<string>
    requires forall key :: key in keys ==> IsMetaKey(key)
  {
    set key | key in keys :: Strip(key)
  }

  /** Distinct prefixed keys have distinct names. */
  lemma {:induction false} StrippedSize(keys: set<string>)
    requires forall key :: key in keys ==> IsMetaKey(key)
    ensures |Stripped(keys)| == |keys|
    decreases |keys|
  {
    if keys != {} {
      var key :| key in keys;
      var others := keys - {key};
      StrippedSize(others);
      assert Stripped(keys) == Stripped(others) + {Strip(key)};
      assert Strip(key) !in Stripped(others) by {
        forall other | other in others ensures Strip(other) != Strip(key) {
          assert other == MetaPrefix + Strip(other);
        }
      }
    }
  }

  // ------------------------------------------------------------------
  // The CRUD methods
  // ------------------------------------------------------------------

  /** One call of a callback with `(err, data, meta)`. */
  datatype CallbackCall = CallbackCall(callee: Value, err: Value, data: Value, meta: Value)

  /** A positional argument; a missing one is undefined. */
  function Arg(args: seq<Value>, i: nat): Value
  {
    if i < |args| then args[i] else Undefined
  }

  /** The data every method answers with. */
  function Echo(op: string, resource: Value, params: Value, context: Value): Value
  {
    Obj(map[
      "operation" := Str(op),
      "args" := Obj(map["resource" := resource, "params" := params, "context" := context])])
  }

  /** `Fake[op].apply(Fake, args)`: `read` and `del` take
      `(req, resource, params, context, callback)`, `create` and `update` take
      `(req, resource, params, body, context, callback)`; each calls `callback`
      once. Calling a non-function callback, or a method the mock lacks, throws. */
  function Invoke(op: string, args: seq<Value>): Result<CallbackCall>
  {
    if op !in Methods then Failure(TypeError("fetcher[op] is not a function"))
    else
      var withBody := op == "create" || op == "update";
      var resource := Arg(args, 1);
      var params := Arg(args, 2);
      var context := Arg(args, if withBody then 4 else 3);
      var callback := Arg(args, if withBody then 5 else 4);
      if !callback.Func? then Failure(TypeError("callback is not a function"))
      else Success(CallbackCall(callback, Null, Echo(op, resource, params, context), Obj(MetaOf(params))))
  }

  /** Each method calls its callback exactly once, with a null error, data whose
      `operation` is the method's name and whose `args` echo resource, params and
      context, and the params' metadata. */
  lemma InvokeEchoes(op: string, req: Value, resource: Value, params: Value, body: Value, context: Value, callback: Value)
    requires op in Methods && callback.Func?
    ensures var args := if op in {"create", "update"}
      then [req, resource, params, body, context, callback]
      else [req, resource, params, context, callback];
      var call := Invoke(op, args);
      && call.Success?
      && call.value.callee == callback
      && call.value.err == Null
      && Get(call.value.data, "operation") == Str(op)
      && Get(call.value.data, "args") == Obj(map["resource" := resource, "params" := params, "context" := context])
      && call.value.meta == Obj(MetaOf(params))
  {
  }

  /** `create` and `update` take a body but leave it out of what they answer. */
  lemma InvokeIgnoresBody(op: string, req: Value, resource: Value, params: Value, body1: Value, body2: Value, context: Value, callback: Value)
    requires op == "create" || op == "update"
    ensures Invoke(op, [req, resource, params, body1, context, callback])
         == Invoke(op, [req, resource, params, body2, context, callback])
  {
  }

  /** The mock can be registered, and is then found under its name. */
  lemma FakeRegistrable(fetchers: map<string, Handler>)
    ensures Fake.name != ""
    ensures GetFetcher(fetchers[Fake.name := Fake], Name) == Success(Fake)
  {
  }
}
