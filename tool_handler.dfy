/** models/tool_handler.py: the three tool handlers and the class-level registry
 *  that `__init_subclass__` fills with one entry per handler class, keyed by the
 *  class's tool pattern. */
module ToolHandlers {
  import opened Values
  import opened Tools

  datatype HandlerKind = ServiceNowHandler | OnPremToolHandler | DocumentationHandler

  /** `handle(function_name, arguments)` of each handler. */
  function Handle(kind: HandlerKind, name: string, arguments: Value): (d: Dispatch)
    ensures kind == ServiceNowHandler ==> (d == Immediate(Null) <==> name !in ServiceNowToolNames)
    ensures kind == OnPremToolHandler ==>
      (name in DeviceTools ==> d == Call(ExecuteTool(name, arguments))) &&
      (name !in DeviceTools ==> d == Immediate(ErrorDict("Unknown tool: " + name)))
    ensures kind == DocumentationHandler ==>
      (name == SearchDocumentation ==> d == SearchCall(arguments)) &&
      (name != SearchDocumentation ==> d == Immediate(Null))
  {
    match kind
    case ServiceNowHandler =>
      (match TicketCall(name, arguments)
       case Some(d) => d
       case None => Immediate(Null))
    case OnPremToolHandler =>
      if name in DeviceTools then Call(ExecuteTool(name, arguments))
      else Immediate(ErrorDict("Unknown tool: " + name))
    case DocumentationHandler =>
      if name == SearchDocumentation then SearchCall(arguments) else Immediate(Null)
  }

  type Entries = seq<(string, HandlerKind)>

  function Keys(entries: Entries): (ks: seq<string>)
    ensures |ks| == |entries|
    ensures forall i | 0 <= i < |entries| :: ks[i] == entries[i].0
  {
    seq(|entries|, i requires 0 <= i < |entries| => entries[i].0)
  }

  /** The entry of `key`, if the dictionary has one. */
  function Find(entries: Entries, key: string): Option<HandlerKind> {
    if entries == [] then None
    else if entries[0].0 == key then Some(entries[0].1)
    else Find(entries[1..], key)
  }

  /** A key the dictionary does not hold finds nothing. */
  lemma {:induction false} FindMissing(entries: Entries, key: string)
    ensures key !in Keys(entries) ==> Find(entries, key) == None
  {
    if entries != [] {
      KeysCons(entries[0], entries[1..]);
      assert entries == [entries[0]] + entries[1..];
      FindMissing(entries[1..], key);
    }
  }

  /** `d[key] = value` on a dictionary kept as its entries in insertion order:
   *  an existing key keeps its place, a new key goes last. */
  function Put(entries: Entries, key: string, value: HandlerKind): Entries {
    if entries == [] then [(key, value)]
    else if entries[0].0 == key then [(key, value)] + entries[1..]
    else [entries[0]] + Put(entries[1..], key, value)
  }

  /** Assignment sets the key and leaves every other key as it was. */
  lemma {:induction false} PutFind(entries: Entries, key: string, value: HandlerKind, other: string)
    ensures Find(Put(entries, key, value), other) == if other == key then Some(value) else Find(entries, other)
  {
    if entries != [] && entries[0].0 != key {
      PutFind(entries[1..], key, value, other);
      assert Put(entries, key, value)[1..] == Put(entries[1..], key, value);
    }
  }

  /** Assignment keeps the order of the keys, adding a new key at the end. */
  lemma {:induction false} PutKeys(entries: Entries, key: string, value: HandlerKind)
    ensures Keys(Put(entries, key, value)) == if key in Keys(entries) then Keys(entries) else Keys(entries) + [key]
  {
    if entries == [] {
    } else if entries[0].0 == key {
      KeysCons((key, value), entries[1..]);
      KeysCons(entries[0], entries[1..]);
      assert entries == [entries[0]] + entries[1..];
    } else {
      PutKeys(entries[1..], key, value);
      KeysCons(entries[0], entries[1..]);
      KeysCons(entries[0], Put(entries[1..], key, value));
      assert entries == [entries[0]] + entries[1..];
    }
  }

  lemma KeysCons(e: (string, HandlerKind), rest: Entries)
    ensures Keys([e] + rest) == [e.0] + Keys(rest)
  {
    var l, r := Keys([e] + rest), [e.0] + Keys(rest);
    forall i | 0 <= i < |l| ensures l[i] == r[i] {
      if i > 0 {
        assert ([e] + rest)[i] == rest[i - 1];
      }
    }
    assert l == r;
  }

  /** No key occurs twice, as in any dictionary. */
  predicate DistinctKeys(entries: Entries) {
    forall i, j | 0 <= i < j < |entries| :: entries[i].0 != entries[j].0
  }

  /** Assignment keeps the keys distinct, so every registry has distinct keys. */
  lemma PutKeepsDistinct(entries: Entries, key: string, value: HandlerKind)
    requires DistinctKeys(entries)
    ensures DistinctKeys(Put(entries, key, value))
  {
    PutKeys(entries, key, value);
    var ks := Keys(Put(entries, key, value));
    assert forall i, j | 0 <= i < j < |ks| :: ks[i] != ks[j];
  }

  /** The registry after the three handler classes are defined, in definition order. */
  const DefaultRegistry: Entries :=
    [("servicenow", ServiceNowHandler), ("device", OnPremToolHandler), ("search", DocumentationHandler)]

  /** `AbstractToolHandler._handlers_registry`. */
  class HandlerRegistry {
    var entries: Entries

    constructor ()
      ensures entries == []
    {
      entries := [];
    }

    /** `__init_subclass__(cls, tool_pattern)`: defining a handler class registers it. */
    method Register(pattern: string, kind: HandlerKind)
      modifies this
      ensures entries == Put(old(entries), pattern, kind)
    {
      entries := Put(entries, pattern, kind);
    }
  }

  /** Loading models/tool_handler.py: the three classes register themselves in order. */
  method DefineHandlers() returns (registry: HandlerRegistry)
    ensures fresh(registry)
    ensures registry.entries == DefaultRegistry
  {
    registry := new HandlerRegistry();
    registry.Register("servicenow", ServiceNowHandler);
    registry.Register("device", OnPremToolHandler);
    assert Put([("servicenow", ServiceNowHandler)], "device", OnPremToolHandler)
        == [("servicenow", ServiceNowHandler)] + Put([], "device", OnPremToolHandler);
    registry.Register("search", DocumentationHandler);
    var two := [("servicenow", ServiceNowHandler), ("device", OnPremToolHandler)];
    assert Put(two, "search", DocumentationHandler) == [two[0]] + Put(two[1..], "search", DocumentationHandler);
    assert Put(two[1..], "search", DocumentationHandler) == [two[1]] + Put([], "search", DocumentationHandler);
  }
}
