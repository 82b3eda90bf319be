/** models/tool_router.py: the pattern router. Its constructor instantiates the
 *  registered handlers whose service is present; `route` hands a call to the
 *  first handler whose pattern occurs in the tool name. */
module ToolRouting {
  import opened Values
  import opened Text
  import opened Tools
  import opened ToolHandlers

  /** Which of the three services the router was given (a missing one is None). */
  datatype Services = Services(serviceNow: bool, onPremBridge: bool, ragService: bool)

  /** `service_map.get(pattern)` is truthy. */
  predicate HasService(services: Services, pattern: string) {
    || (pattern == "servicenow" && services.serviceNow)
    || (pattern == "device" && services.onPremBridge)
    || (pattern == "search" && services.ragService)
  }

  /** The handlers dictionary after the constructor's loop has gone through
   *  `registry`, starting from `handlers`. */
  function Build(handlers: Entries, registry: Entries, services: Services): Entries
    decreases |registry|
  {
    if registry == [] then handlers
    else
      var next := if HasService(services, registry[0].0) then Put(handlers, registry[0].0, registry[0].1) else handlers;
      Build(next, registry[1..], services)
  }

  /** The patterns among `patterns` whose service is present, in order. */
  function Served(patterns: seq<string>, services: Services): seq<string>
    decreases |patterns|
  {
    if patterns == [] then []
    else (if HasService(services, patterns[0]) then [patterns[0]] else []) + Served(patterns[1..], services)
  }

  /** A pattern finds, in the built handlers, the registry's handler when its
   *  service is present and the registry has it, and otherwise what it found
   *  before the loop. */
  lemma {:induction false} BuildFindFrom(handlers: Entries, registry: Entries, services: Services, pattern: string)
    requires DistinctKeys(registry)
    ensures Find(Build(handlers, registry, services), pattern) ==
      if HasService(services, pattern) && pattern in Keys(registry) then Find(registry, pattern)
      else Find(handlers, pattern)
    decreases |registry|
  {
    if registry != [] {
      var next := if HasService(services, registry[0].0) then Put(handlers, registry[0].0, registry[0].1) else handlers;
      DistinctTail(registry);
      BuildFindFrom(next, registry[1..], services, pattern);
      PutFind(handlers, registry[0].0, registry[0].1, pattern);
      KeysCons(registry[0], registry[1..]);
      assert registry == [registry[0]] + registry[1..];
      if pattern == registry[0].0 {
        forall i | 0 <= i < |registry[1..]| ensures Keys(registry[1..])[i] != pattern {
          assert registry[1..][i] == registry[i + 1];
        }
      }
    }
  }

  /** The registry's tail has distinct keys, none of them the head's. */
  lemma DistinctTail(registry: Entries)
    requires registry != [] && DistinctKeys(registry)
    ensures DistinctKeys(registry[1..])
    ensures forall i | 0 <= i < |registry[1..]| :: registry[1..][i].0 != registry[0].0
  {
    var tail := registry[1..];
    forall i | 0 <= i < |tail| ensures tail[i] == registry[i + 1] {
    }
  }

  /** The served patterns of a list with one more pattern at the front. */
  lemma ServedCons(p: string, patterns: seq<string>, services: Services)
    ensures Served([p] + patterns, services) == (if HasService(services, p) then [p] else []) + Served(patterns, services)
  {
    assert ([p] + patterns)[1..] == patterns;
  }

  /** The loop adds the registry's served patterns after the keys it started
   *  with, in registry order, when none of them was a key already. */
  lemma {:induction false} BuildKeysFrom(handlers: Entries, registry: Entries, services: Services)
    requires DistinctKeys(registry)
    requires forall i | 0 <= i < |registry| :: registry[i].0 !in Keys(handlers)
    ensures Keys(Build(handlers, registry, services)) == Keys(handlers) + Served(Keys(registry), services)
    decreases |registry|
  {
    if registry == [] {
      assert Keys(registry) == [];
    } else {
      var key, tail := registry[0].0, registry[1..];
      var next := if HasService(services, key) then Put(handlers, key, registry[0].1) else handlers;
      var added := if HasService(services, key) then [key] else [];
      PutKeys(handlers, key, registry[0].1);
      assert Keys(next) == Keys(handlers) + added;
      DistinctTail(registry);
      forall i | 0 <= i < |tail| ensures tail[i].0 !in Keys(next) {
        assert tail[i] == registry[i + 1];
      }
      BuildKeysFrom(next, tail, services);
      KeysCons(registry[0], tail);
      assert registry == [registry[0]] + tail;
      calc {
        Keys(Build(handlers, registry, services));
        Keys(Build(next, tail, services));
        Keys(next) + Served(Keys(tail), services);
        (Keys(handlers) + added) + Served(Keys(tail), services);
        Keys(handlers) + (added + Served(Keys(tail), services));
        { ServedCons(key, Keys(tail), services); }
        Keys(handlers) + Served([key] + Keys(tail), services);
      }
    }
  }

  /** For any registry: the built handlers hold exactly the registry's entries
   *  whose service is present (a pattern finds its registry handler when its
   *  service is present and nothing otherwise), in registry order. */
  lemma BuildServed(registry: Entries, services: Services)
    requires DistinctKeys(registry)
    ensures forall pattern ::
      (Find(Build([], registry, services), pattern) ==
       if HasService(services, pattern) then Find(registry, pattern) else None)
    ensures Keys(Build([], registry, services)) == Served(Keys(registry), services)
  {
    forall pattern
      ensures Find(Build([], registry, services), pattern) ==
        if HasService(services, pattern) then Find(registry, pattern) else None
    {
      BuildFindFrom([], registry, services, pattern);
      FindMissing(registry, pattern);
    }
    BuildKeysFrom([], registry, services);
    assert Keys([]) == [];
  }

  /** The served patterns are among the given ones. */
  lemma {:induction false} ServedAmong(patterns: seq<string>, services: Services)
    ensures forall p | p in Served(patterns, services) :: p in patterns && HasService(services, p)
    decreases |patterns|
  {
    if patterns != [] {
      ServedAmong(patterns[1..], services);
    }
  }

  /** The guard `pattern in function_name or function_name.startswith(pattern)`. */
  predicate Matches(pattern: string, name: string) {
    Contains(name, pattern) || StartsWith(name, pattern)
  }

  /** The prefix test adds nothing: the guard is the substring test. */
  lemma MatchesIsContains(pattern: string, name: string)
    ensures Matches(pattern, name) <==> Contains(name, pattern)
  {
    if StartsWith(name, pattern) {
      PrefixIsSubstring(name, pattern);
    }
  }

  function NoHandler(name: string): Value {
    ErrorDict("No handler found for: " + name)
  }

  /** What `route` decides: the first matching handler's `handle`, or the error. */
  function FirstMatch(handlers: Entries, name: string, arguments: Value): Dispatch {
    if handlers == [] then Immediate(NoHandler(name))
    else if Matches(handlers[0].0, name) then Handle(handlers[0].1, name, arguments)
    else FirstMatch(handlers[1..], name, arguments)
  }

  /** The route in terms of positions: the call goes, with its name and
   *  arguments unchanged, to the handler at the first position whose pattern
   *  occurs in the name; when there is none, the result is the error. */
  lemma {:induction false} FirstMatchIsFirstPosition(handlers: Entries, name: string, arguments: Value)
    ensures (forall i | 0 <= i < |handlers| :: !Contains(name, handlers[i].0)) ==>
      FirstMatch(handlers, name, arguments) == Immediate(NoHandler(name))
    ensures forall i | 0 <= i < |handlers| && Contains(name, handlers[i].0) &&
                       (forall j | 0 <= j < i :: !Contains(name, handlers[j].0)) ::
      FirstMatch(handlers, name, arguments) == Handle(handlers[i].1, name, arguments)
  {
    if handlers != [] {
      MatchesIsContains(handlers[0].0, name);
      FirstMatchIsFirstPosition(handlers[1..], name, arguments);
      forall i | 0 <= i < |handlers| && Contains(name, handlers[i].0) &&
                 (forall j | 0 <= j < i :: !Contains(name, handlers[j].0))
        ensures FirstMatch(handlers, name, arguments) == Handle(handlers[i].1, name, arguments)
      {
        if i > 0 {
          assert handlers[1..][i - 1] == handlers[i];
          assert forall j | 0 <= j < i - 1 :: handlers[1..][j] == handlers[j + 1];
        }
      }
      if forall i | 0 <= i < |handlers| :: !Contains(name, handlers[i].0) {
        assert forall i | 0 <= i < |handlers| - 1 :: handlers[1..][i] == handlers[i + 1];
      }
    }
  }

  /** `ToolRouter`. */
  class ToolRouter {
    var handlers: Entries

    /** `__init__`: one handler per registry entry whose service is present,
     *  keyed and ordered as in the registry. */
    constructor (registry: HandlerRegistry, services: Services)
      ensures handlers == Build([], registry.entries, services)
    {
      var entries := registry.entries;
      var built: Entries := [];
      for i := 0 to |entries|
        invariant Build(built, entries[i..], services) == Build([], entries, services)
      {
        assert entries[i..][1..] == entries[i + 1..];
        if HasService(services, entries[i].0) {
          built := Put(built, entries[i].0, entries[i].1);
        }
      }
      assert entries[|entries|..] == [];
      handlers := built;
    }

    /** `route(function_name, arguments)`. */
    method Route(name: string, arguments: Value) returns (d: Dispatch)
      ensures d == FirstMatch(handlers, name, arguments)
    {
      var i := 0;
      while i < |handlers|
        invariant 0 <= i <= |handlers|
        invariant FirstMatch(handlers[i..], name, arguments) == FirstMatch(handlers, name, arguments)
      {
        assert handlers[i..][1..] == handlers[i + 1..];
        var (pattern, kind) := handlers[i];
        if Contains(name, pattern) || StartsWith(name, pattern) {
          return Handle(kind, name, arguments);
        }
        i := i + 1;
      }
      return Immediate(NoHandler(name));
    }
  }

  /** With every service present, the router keeps the three registered handlers
   *  in registry order. */
  lemma DefaultHandlers()
    ensures Build([], DefaultRegistry, Services(true, true, true)) == DefaultRegistry
  {
    var all := Services(true, true, true);
    var r := DefaultRegistry;
    assert Put([], r[0].0, r[0].1) == r[..1];
    assert Put(r[..1], r[1].0, r[1].1) == [r[0]] + Put([], r[1].0, r[1].1) == r[..2];
    assert Put(r[..2], r[2].0, r[2].1) == [r[0]] + Put(r[..2][1..], r[2].0, r[2].1);
    assert Put(r[..2][1..], r[2].0, r[2].1) == [r[1]] + Put([], r[2].0, r[2].1);
    assert Put(r[..2], r[2].0, r[2].1) == r;
    assert r[1..][1..] == r[2..];
    assert r[2..][1..] == [];
    calc {
      Build([], r, all);
      Build(r[..1], r[1..], all);
      Build(r[..2], r[2..], all);
      Build(r, [], all);
    }
  }

  /** A router built without the on-prem bridge has no device handler: device
   *  tools fall through to the error. */
  lemma NoBridgeNoDeviceHandler()
    ensures Build([], DefaultRegistry, Services(true, false, true)) ==
      [("servicenow", ServiceNowHandler), ("search", DocumentationHandler)]
  {
    var svc := Services(true, false, true);
    var r := DefaultRegistry;
    assert Put([], r[0].0, r[0].1) == r[..1];
    assert Put(r[..1], r[2].0, r[2].1) == [r[0]] + Put([], r[2].0, r[2].1);
    assert r[1..][1..] == r[2..];
    assert r[2..][1..] == [];
    calc {
      Build([], r, svc);
      Build(r[..1], r[1..], svc);
      Build(r[..1], r[2..], svc);
    }
  }

  /** `list_open_tickets` (advertised to the chat model and handled by
   *  `ServiceNowHandler`) contains none of the three patterns, so the default
   *  router answers it with the error and the ticket list is never fetched. */
  lemma ListOpenTicketsUnrouted(arguments: Value)
    ensures FirstMatch(DefaultRegistry, ListOpenTickets, arguments) == Immediate(NoHandler(ListOpenTickets))
    ensures Handle(ServiceNowHandler, ListOpenTickets, arguments) == Call(ListOpenTicketsCall)
  {
    NotContainsByChar(ListOpenTickets, "servicenow", 3);
    NotContainsByChar(ListOpenTickets, "device", 2);
    NotContainsByChar(ListOpenTickets, "search", 2);
    FirstMatchIsFirstPosition(DefaultRegistry, ListOpenTickets, arguments);
  }

  /** The default registry's patterns, none of which occurs in `list_open_tickets`. */
  lemma DefaultPatternsMiss()
    ensures DistinctKeys(DefaultRegistry)
    ensures Keys(DefaultRegistry) == ["servicenow", "device", "search"]
    ensures forall p | p in Keys(DefaultRegistry) :: !Contains(ListOpenTickets, p)
  {
    assert Keys(DefaultRegistry) == ["servicenow", "device", "search"];
    NotContainsByChar(ListOpenTickets, "servicenow", 3);
    NotContainsByChar(ListOpenTickets, "device", 2);
    NotContainsByChar(ListOpenTickets, "search", 2);
  }

  /** Whichever services the router is given, `list_open_tickets` gets the
   *  error: the handlers built are some of the three, none of whose patterns
   *  occurs in it. */
  lemma ListOpenTicketsUnroutedAnyServices(services: Services, arguments: Value)
    ensures FirstMatch(Build([], DefaultRegistry, services), ListOpenTickets, arguments) == Immediate(NoHandler(ListOpenTickets))
  {
    var built := Build([], DefaultRegistry, services);
    DefaultPatternsMiss();
    BuildServed(DefaultRegistry, services);
    ServedAmong(Keys(DefaultRegistry), services);
    forall i | 0 <= i < |built| ensures !Contains(ListOpenTickets, built[i].0) {
      assert Keys(built)[i] == built[i].0;
    }
    FirstMatchIsFirstPosition(built, ListOpenTickets, arguments);
  }
}
