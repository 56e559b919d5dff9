/**
 * The process-wide handler registry of the fetcher (`Fetcher.fetchers`,
 * `registerFetcher`, `getFetcher`).
 */
module HandlerRegistry {
  import opened JsValues

  /** A registered handler (a "fetcher"): the name it declares, the names of the
      methods it carries, and an identity telling apart objects that are not the
      same. A falsy `name` is the empty string. */
  datatype Handler = Handler(name: string, methods: set<string>, identity: nat)

  /** Every entry is stored under the handler's own, non-empty name. */
  ghost predicate KeyedByName(fetchers: map<string, Handler>)
  {
    forall n :: n in fetchers ==> n != "" && fetchers[n].name == n
  }

  /** The corrected `getFetcher(name)`: the handler stored under `name`; throws
      when the name is empty or nothing is stored under it. The lookup as
      written, which also finds inherited members, is `GetFetcherAsWritten`. */
  function GetFetcher(fetchers: map<string, Handler>, name: string): Result<Handler>
  {
    if name == "" || name !in fetchers then Failure(FetcherNotFound)
    else Success(fetchers[name])
  }

  /** What `getFetcher` returns when nothing is registered under `name` can be
      an empty name or a missing key, and is then always the same error. */
  lemma GetFetcherFails(fetchers: map<string, Handler>, name: string)
    ensures GetFetcher(fetchers, name).Failure? <==> name == "" || name !in fetchers
    ensures GetFetcher(fetchers, name).Failure? ==> GetFetcher(fetchers, name).error == FetcherNotFound
  {
  }

  /** `getFetcher` never returns a handler that is not in the table, and in a
      table keyed by name it returns one whose own name is the one asked for. */
  lemma GetFetcherReturnsRegistered(fetchers: map<string, Handler>, name: string)
    requires KeyedByName(fetchers)
    ensures GetFetcher(fetchers, name).Success? ==>
      var h := GetFetcher(fetchers, name).value;
      h in fetchers.Values && h.name == name
  {
  }

  /** Storing `h` under its name: `h` is found under that name afterwards, every
      other name finds what it found before, and the table stays keyed by name. */
  lemma RegisterThenGet(fetchers: map<string, Handler>, h: Handler, name: string)
    requires h.name != ""
    ensures GetFetcher(fetchers[h.name := h], h.name) == Success(h)
    ensures name != h.name ==> GetFetcher(fetchers[h.name := h], name) == GetFetcher(fetchers, name)
    ensures KeyedByName(fetchers) ==> KeyedByName(fetchers[h.name := h])
  {
  }

  /** Registering two handlers under one name: the later one wins. */
  lemma LastWriterWins(fetchers: map<string, Handler>, h1: Handler, h2: Handler)
    requires h1.name != "" && h2.name == h1.name
    ensures GetFetcher(fetchers[h1.name := h1][h2.name := h2], h1.name) == Success(h2)
  {
  }

  /** The table and its two operations. */
  class Registry {
    var fetchers: map<string, Handler>

    ghost predicate Valid()
      reads this
    {
      KeyedByName(fetchers)
    }

    /** `Fetcher.fetchers = {}`. */
    constructor ()
      ensures Valid() && fetchers == map[]
    {
      fetchers := map[];
    }

    /** `registerFetcher(fetcher)`: throws, leaving the table alone, when the
        handler has no truthy name; otherwise stores it under its name,
        replacing whatever was stored there. */
    method RegisterFetcher(fetcher: Handler) returns (r: Outcome)
      requires Valid()
      modifies this
      ensures Valid()
      ensures fetcher.name == "" ==> r == Fail(FetcherNotDefined) && fetchers == old(fetchers)
      ensures fetcher.name != "" ==> r == Pass && fetchers == old(fetchers)[fetcher.name := fetcher]
    {
      var name := fetcher.name;
      if name == "" {
        return Fail(FetcherNotDefined);
      }
      fetchers := fetchers[name := fetcher];
      RegisterThenGet(old(fetchers), fetcher, name);
      r := Pass;
    }
  }

  // ------------------------------------------------------------------
  // getFetcher as written reads a property of a plain object, so it also
  // finds the members every object inherits from Object.prototype.
  // ------------------------------------------------------------------

  /** The properties every plain object inherits from Object.prototype. */
  const InheritedMembers: set<string> := {
    "constructor", "hasOwnProperty", "isPrototypeOf", "propertyIsEnumerable",
    "toLocaleString", "toString", "valueOf", "__proto__",
    "__defineGetter__", "__defineSetter__", "__lookupGetter__", "__lookupSetter__"
  }

  /** What `Fetcher.fetchers[name]` yields: an own entry, or an inherited member. */
  datatype Found = Registered(handler: Handler) | Inherited(member: string)

  /** `getFetcher` as written: `!name || !Fetcher.fetchers[name]` consults the
      prototype chain, so an inherited member counts as found. The table's
      prototype is taken to be Object.prototype: a handler registered under
      `__proto__` (which in JavaScript replaces that prototype rather than
      adding an entry) is not modelled here. */
  function GetFetcherAsWritten(fetchers: map<string, Handler>, name: string): (r: Result<Found>)
    ensures name !in InheritedMembers ==>
      r == match GetFetcher(fetchers, name)
           case Success(h) => Success(Registered(h))
           case Failure(e) => Failure(e)
  {
    if name == "" then Failure(FetcherNotFound)
    else if name in fetchers then Success(Registered(fetchers[name]))
    else if name in InheritedMembers then Success(Inherited(name))
    else Failure(FetcherNotFound)
  }

  /** With nothing registered, `getFetcher('toString')` returns
      Object.prototype.toString instead of throwing. */
  lemma GetFetcherAsWrittenFindsUnregistered()
    ensures GetFetcherAsWritten(map[], "toString") == Success(Inherited("toString"))
    ensures GetFetcher(map[], "toString") == Failure(FetcherNotFound)
  {
  }

  /** The two agree on every name outside Object.prototype, and the corrected one
      never returns something that was not registered. */
  lemma GetFetcherCorrected(fetchers: map<string, Handler>, name: string)
    ensures name !in InheritedMembers && GetFetcherAsWritten(fetchers, name).Success? ==>
      GetFetcherAsWritten(fetchers, name).value == Registered(GetFetcher(fetchers, name).value)
    ensures GetFetcher(fetchers, name).Success? ==> name in fetchers && GetFetcher(fetchers, name).value == fetchers[name]
  {
  }
}
