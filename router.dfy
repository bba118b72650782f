/**
 * The event router of `CharmAutoBase.__init__`: it walks a class dictionary in order, keeps the
 * entries that are plain functions whose names start with "_on_", and observes the event named
 * by the rest of the name with that function. An event name the framework does not know makes
 * the lookup raise `AttributeError`, and construction fails.
 */
module Router {
  import opened Results

  /** What `isinstance(item, types.FunctionType)` tells about a class dictionary entry. */
  datatype Kind = Function | Other

  /** One `(name, item)` pair of a class `__dict__`. */
  datatype Entry = Entry(name: string, kind: Kind)

  const HandlerPrefix: string := "_on_"

  predicate StartsWith(s: string, prefix: string) {
    |prefix| <= |s| && s[..|prefix|] == prefix
  }

  /** The router's filter: a function whose name starts with "_on_". */
  predicate IsHandler(e: Entry) {
    e.kind == Function && StartsWith(e.name, HandlerPrefix)
  }

  /** Python's `name[4:]`, which is empty for names of at most four characters. */
  function EventName(name: string): string {
    if |name| <= 4 then "" else name[4..]
  }

  /** A handler's name is the prefix followed by its event's name. */
  lemma HandlerName(e: Entry)
    requires IsHandler(e)
    ensures e.name == HandlerPrefix + EventName(e.name)
  {
  }

  /** Class dictionary keys are distinct. */
  predicate DistinctNames(entries: seq<Entry>) {
    forall i, j | 0 <= i < j < |entries| :: entries[i].name != entries[j].name
  }

  /** The events the handlers among `entries` are named after. */
  function HandlerEvents(entries: seq<Entry>): set<string> {
    set e | e in entries && IsHandler(e) :: EventName(e.name)
  }

  /**
   * The loop from `entries[0]` on, `bound` holding the observers registered so far (event name
   * to handler name); it stops with the missing event's name at the first unknown event.
   */
  function RouteFrom(entries: seq<Entry>, registry: set<string>, bound: map<string, string>)
    : Result<map<string, string>, string>
    decreases |entries|
  {
    if entries == [] then Ok(bound)
    else
      var e := entries[0];
      if !IsHandler(e) then RouteFrom(entries[1..], registry, bound)
      else if EventName(e.name) !in registry then Err(EventName(e.name))
      else RouteFrom(entries[1..], registry, bound[EventName(e.name) := e.name])
  }

  /** What construction yields: the observer bindings, or the event lookup that raised. */
  function Route(entries: seq<Entry>, registry: set<string>): Result<map<string, string>, string> {
    RouteFrom(entries, registry, map[])
  }

  /** The loop of `CharmAutoBase.__init__`, registering one observer per handler in order. */
  method ObserveHandlers(entries: seq<Entry>, registry: set<string>)
    returns (r: Result<map<string, string>, string>)
    ensures r == Route(entries, registry)
  {
    var bound: map<string, string> := map[];
    for i := 0 to |entries|
      invariant RouteFrom(entries[i..], registry, bound) == Route(entries, registry)
    {
      assert entries[i..][0] == entries[i] && entries[i..][1..] == entries[i + 1..];
      var e := entries[i];
      if IsHandler(e) {
        var event := EventName(e.name);
        if event !in registry {
          return Err(event);
        }
        bound := bound[event := e.name];
      }
    }
    assert entries[|entries|..] == [];
    return Ok(bound);
  }

  /** Construction succeeds exactly when every handler's event is known. */
  lemma {:induction false} RouteSucceedsIff(entries: seq<Entry>, registry: set<string>, bound: map<string, string>)
    ensures RouteFrom(entries, registry, bound).Ok? <==> HandlerEvents(entries) <= registry
    decreases |entries|
  {
    if entries != [] {
      RouteSucceedsIff(entries[1..], registry, if IsHandler(entries[0]) then bound[EventName(entries[0].name) := entries[0].name] else bound);
      HandlerEventsCons(entries);
    }
  }

  lemma HandlerEventsCons(entries: seq<Entry>)
    requires entries != []
    ensures HandlerEvents(entries) ==
      HandlerEvents(entries[1..]) + (if IsHandler(entries[0]) then {EventName(entries[0].name)} else {})
  {
    assert forall e :: e in entries <==> e == entries[0] || e in entries[1..] by {
      assert entries == [entries[0]] + entries[1..];
    }
  }

  /**
   * On success every handler's event is bound to that handler and nothing else is bound: the
   * keys are exactly the handlers' events (on top of what was bound before).
   */
  lemma {:induction false} RouteBindsHandlers(entries: seq<Entry>, registry: set<string>, bound: map<string, string>)
    requires DistinctNames(entries)
    requires RouteFrom(entries, registry, bound).Ok?
    ensures var m := RouteFrom(entries, registry, bound).value;
      && m.Keys == bound.Keys + HandlerEvents(entries)
      && (forall e | e in entries && IsHandler(e) :: m[EventName(e.name)] == e.name)
      && (forall k | k in bound && k !in HandlerEvents(entries) :: m[k] == bound[k])
    decreases |entries|
  {
    if entries != [] {
      var e := entries[0];
      var rest := entries[1..];
      var next := if IsHandler(e) then bound[EventName(e.name) := e.name] else bound;
      assert DistinctNames(rest) by {
        forall i, j | 0 <= i < j < |rest| ensures rest[i].name != rest[j].name {
          assert rest[i] == entries[i + 1] && rest[j] == entries[j + 1];
        }
      }
      RouteBindsHandlers(rest, registry, next);
      HandlerEventsCons(entries);
      if IsHandler(e) {
        // no later handler shares e's event, since it would then share e's name
        assert EventName(e.name) !in HandlerEvents(rest) by {
          if EventName(e.name) in HandlerEvents(rest) {
            var f :| f in rest && IsHandler(f) && EventName(f.name) == EventName(e.name);
            HandlerName(e);
            HandlerName(f);
          }
        }
      }
    }
  }

  /** On failure the error names the event of the first handler whose event is unknown. */
  lemma {:induction false} RouteFailsAtFirstUnknown(entries: seq<Entry>, registry: set<string>, bound: map<string, string>)
    requires RouteFrom(entries, registry, bound).Err?
    ensures exists i | 0 <= i < |entries| ::
      && IsHandler(entries[i])
      && EventName(entries[i].name) !in registry
      && RouteFrom(entries, registry, bound).error == EventName(entries[i].name)
      && HandlerEvents(entries[..i]) <= registry
    decreases |entries|
  {
    var e := entries[0];
    if IsHandler(e) && EventName(e.name) !in registry {
      assert entries[..0] == [];
      assert HandlerEvents(entries[..0]) == {};
    } else {
      var next := if IsHandler(e) then bound[EventName(e.name) := e.name] else bound;
      RouteFailsAtFirstUnknown(entries[1..], registry, next);
      var i :| 0 <= i < |entries[1..]| && IsHandler(entries[1..][i])
        && EventName(entries[1..][i].name) !in registry
        && RouteFrom(entries[1..], registry, next).error == EventName(entries[1..][i].name)
        && HandlerEvents(entries[1..][..i]) <= registry;
      assert entries[1..][i] == entries[i + 1];
      assert entries[..i + 1][1..] == entries[1..][..i];
      HandlerEventsCons(entries[..i + 1]);
    }
  }
}
