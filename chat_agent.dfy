/** models/chat_agent.py: the text chat. Claude is a function from the
 *  conversation so far to its response, or to the error the call raised; the
 *  router is the pattern router of models/tool_router.py together with the
 *  backends, as a function from a tool name and input to its result, or to
 *  what it raised. */
module ChatAgents {
  import opened Values
  import Tools
  import ToolHandlers
  import ToolRouting
  import Documentation

  /** A tool definition as the configuration lists it. */
  datatype ToolSpec = ToolSpec(name: string, description: string, parameters: Value)

  /** A content block of a response. Only text blocks have a `text`. */
  datatype Block = Text(text: string) | ToolUse(id: string, name: string, input: Value) | Other(kind: string)

  datatype Response = Response(stopReason: string, content: seq<Block>)

  /** `self.client.messages.create(..., messages=messages, ...)`. */
  type Llm = seq<Value> -> Outcome<Response>

  /** `await self.router.route(tool_name, tool_input)`. */
  type Router = (string, Value) -> Outcome<Value>

  /** `{"message": ..., "conversation_history": ...}`. */
  datatype Reply = Reply(message: string, history: seq<Value>)

  // ---------------------------------------------------------------------------
  // Tool definitions.

  /** Lines 52-56: a definition in Claude's format. */
  function ClaudeTool(t: ToolSpec): (v: Value)
    ensures Index(v, "name") == Some(Str(t.name))
    ensures Index(v, "description") == Some(Str(t.description))
    ensures Index(v, "input_schema") == Some(t.parameters)
  {
    var rest := [("description", Str(t.description)), ("input_schema", t.parameters)];
    LookupCons("name", Str(t.name), rest, "description");
    LookupCons("name", Str(t.name), rest, "input_schema");
    LookupCons("description", Str(t.description), [("input_schema", t.parameters)], "input_schema");
    Obj([("name", Str(t.name))] + rest)
  }

  /** `_load_tools()` (lines 40-59) over the ServiceNow, on-prem and
   *  documentation definitions: one converted definition per tool, the
   *  ServiceNow ones first, then the on-prem ones, then the documentation one. */
  method LoadTools(serviceNow: seq<ToolSpec>, onPrem: seq<ToolSpec>, documentation: seq<ToolSpec>) returns (tools: seq<Value>)
    ensures |tools| == |serviceNow| + |onPrem| + |documentation|
    ensures forall i | 0 <= i < |serviceNow| :: tools[i] == ClaudeTool(serviceNow[i])
    ensures forall i | 0 <= i < |onPrem| :: tools[|serviceNow| + i] == ClaudeTool(onPrem[i])
    ensures forall i | 0 <= i < |documentation| :: tools[|serviceNow| + |onPrem| + i] == ClaudeTool(documentation[i])
  {
    var all := serviceNow + onPrem + documentation;
    tools := [];
    for i := 0 to |all|
      invariant |tools| == i && forall j | 0 <= j < i :: tools[j] == ClaudeTool(all[j])
    {
      tools := tools + [ClaudeTool(all[i])];
    }
  }

  // ---------------------------------------------------------------------------
  // Transcript pieces, each built block by block as the loops build them.

  function MessageOf(role: string, content: Value): Value {
    Obj([("role", Str(role)), ("content", content)])
  }

  function TextEntry(text: string): Value {
    Obj([("type", Str("text")), ("text", Str(text))])
  }

  function UseEntry(id: string, name: string, input: Value): Value {
    Obj([("type", Str("tool_use")), ("id", Str(id)), ("name", Str(name)), ("input", input)])
  }

  /** Lines 108-112. */
  function ResultEntry(id: string, result: Value): (v: Value)
    ensures Index(v, "tool_use_id") == Some(Str(id))
    ensures Index(v, "content") == Some(Str(JsonDumps(result)))
  {
    var rest := [("tool_use_id", Str(id)), ("content", Str(JsonDumps(result)))];
    LookupCons("type", Str("tool_result"), rest, "tool_use_id");
    LookupCons("type", Str("tool_result"), rest, "content");
    LookupCons("tool_use_id", Str(id), [("content", Str(JsonDumps(result)))], "content");
    Obj([("type", Str("tool_result"))] + rest)
  }

  /** What lines 89-118 put in `assistant_content` for each block. */
  function AssistantEntry(b: Block): seq<Value> {
    match b
    case ToolUse(id, name, input) => [UseEntry(id, name, input)]
    case Text(t) => [TextEntry(t)]
    case Other(_) => []
  }

  function Last<T>(s: seq<T>): T
    requires s != []
  {
    s[|s| - 1]
  }

  function AssistantContent(blocks: seq<Block>): seq<Value> {
    if blocks == [] then [] else AssistantContent(blocks[..|blocks| - 1]) + AssistantEntry(Last(blocks))
  }

  /** The tool calls among the blocks, in order. */
  function ToolUses(blocks: seq<Block>): (us: seq<Block>)
    ensures forall k | 0 <= k < |us| :: us[k].ToolUse?
  {
    if blocks == [] then []
    else ToolUses(blocks[..|blocks| - 1]) + if Last(blocks).ToolUse? then [Last(blocks)] else []
  }

  /** `tool_results` after the loop of lines 89-118, or what routing raised
   *  first. */
  function ToolResults(blocks: seq<Block>, route: Router): Outcome<seq<Value>> {
    if blocks == [] then Returned([])
    else
      match ToolResults(blocks[..|blocks| - 1], route)
      case Raised(e) => Raised(e)
      case Returned(rs) =>
        match Last(blocks)
        case ToolUse(id, name, input) =>
          (match route(name, input)
           case Raised(e) => Raised(e)
           case Returned(v) => Returned(rs + [ResultEntry(id, v)]))
        case Text(_) => Returned(rs)
        case Other(_) => Returned(rs)
  }

  /** The tool results are there exactly when every routed call returns:
   *  then one result per call, in the calls' order, each for that call's id
   *  and holding the JSON of that call's result. */
  lemma {:induction false} ToolResultsPerUse(blocks: seq<Block>, route: Router)
    ensures ToolResults(blocks, route).Returned? <==>
      forall k | 0 <= k < |ToolUses(blocks)| :: route(ToolUses(blocks)[k].name, ToolUses(blocks)[k].input).Returned?
    ensures ToolResults(blocks, route).Returned? ==>
      var r := ToolResults(blocks, route).value;
      |r| == |ToolUses(blocks)| && forall k | 0 <= k < |r| ::
        r[k] == ResultEntry(ToolUses(blocks)[k].id, route(ToolUses(blocks)[k].name, ToolUses(blocks)[k].input).value)
  {
    if blocks != [] {
      var earlier := blocks[..|blocks| - 1];
      ToolResultsPerUse(earlier, route);
      var uses, before := ToolUses(blocks), ToolUses(earlier);
      if Last(blocks).ToolUse? {
        assert uses == before + [Last(blocks)];
        assert uses[|before|] == Last(blocks);
      } else {
        assert uses == before + [];
      }
      assert forall k | 0 <= k < |before| :: uses[k] == before[k];
    }
  }

  /** `text_response`: the texts of the text blocks, run together. */
  function TextOf(blocks: seq<Block>): string {
    if blocks == [] then ""
    else TextOf(blocks[..|blocks| - 1]) + if Last(blocks).Text? then Last(blocks).text else ""
  }

  /** The serialisable content kept of a final response: its text blocks. */
  function TextContent(blocks: seq<Block>): seq<Value> {
    if blocks == [] then []
    else TextContent(blocks[..|blocks| - 1]) + if Last(blocks).Text? then [TextEntry(Last(blocks).text)] else []
  }

  /** The loop of lines 144-150 (and 168-174). */
  method CollectText(blocks: seq<Block>) returns (text: string, content: seq<Value>)
    ensures text == TextOf(blocks) && content == TextContent(blocks)
  {
    text, content := "", [];
    for i := 0 to |blocks|
      invariant text == TextOf(blocks[..i]) && content == TextContent(blocks[..i])
    {
      assert blocks[..i + 1][..i] == blocks[..i];
      if blocks[i].Text? {
        text := text + blocks[i].text;
        content := content + [TextEntry(blocks[i].text)];
      }
    }
    assert blocks[..|blocks|] == blocks;
  }

  /** The loop of lines 89-118: the assistant's content and the tool results. */
  method CallTools(blocks: seq<Block>, route: Router) returns (assistant: seq<Value>, results: Outcome<seq<Value>>)
    ensures results == ToolResults(blocks, route)
    ensures results.Returned? ==> assistant == AssistantContent(blocks)
  {
    assistant := [];
    var rs := [];
    for i := 0 to |blocks|
      invariant ToolResults(blocks[..i], route) == Returned(rs)
      invariant assistant == AssistantContent(blocks[..i])
    {
      OneBlockMore(blocks, i, route);
      match blocks[i] {
        case ToolUse(id, name, input) =>
          assistant := assistant + [UseEntry(id, name, input)];
          var result := route(name, input);
          if result.Raised? {
            FailureStays(blocks, i + 1, route);
            return assistant, Raised(result.message);
          }
          rs := rs + [ResultEntry(id, result.value)];
        case Text(t) =>
          assistant := assistant + [TextEntry(t)];
        case Other(_) =>
          assert assistant + [] == assistant;
      }
    }
    assert blocks[..|blocks|] == blocks;
    results := Returned(rs);
  }

  /** The specifications one block further into the response. */
  lemma OneBlockMore(blocks: seq<Block>, i: nat, route: Router)
    requires i < |blocks|
    ensures AssistantContent(blocks[..i + 1]) == AssistantContent(blocks[..i]) + AssistantEntry(blocks[i])
    ensures ToolResults(blocks[..i + 1], route) ==
      match ToolResults(blocks[..i], route)
      case Raised(e) => Raised(e)
      case Returned(rs) =>
        if blocks[i].ToolUse? then
          match route(blocks[i].name, blocks[i].input)
          case Raised(e) => Raised(e)
          case Returned(v) => Returned(rs + [ResultEntry(blocks[i].id, v)])
        else Returned(rs)
  {
    assert blocks[..i + 1][..i] == blocks[..i] && Last(blocks[..i + 1]) == blocks[i];
  }

  /** Once routing has raised, no later block changes the outcome. */
  lemma {:induction false} FailureStays(blocks: seq<Block>, i: nat, route: Router)
    requires i <= |blocks| && ToolResults(blocks[..i], route).Raised?
    ensures ToolResults(blocks, route) == ToolResults(blocks[..i], route)
    decreases |blocks| - i
  {
    if i < |blocks| {
      var earlier := blocks[..|blocks| - 1];
      assert earlier[..i] == blocks[..i];
      FailureStays(earlier, i, route);
      assert ToolResults(earlier, route).Raised?;
    } else {
      assert blocks[..i] == blocks;
    }
  }

  // ---------------------------------------------------------------------------
  // The conversation.

  /** What `_handle_response(response, messages)` returns or raises. */
  function HandleResponse(response: Response, messages: seq<Value>, llm: Llm, route: Router): Outcome<Reply> {
    if response.stopReason == "tool_use" then
      match ToolResults(response.content, route)
      case Raised(e) => Raised(e)
      case Returned(results) =>
        var asked := messages + [MessageOf("assistant", Arr(AssistantContent(response.content))),
                                 MessageOf("user", Arr(results))];
        match llm(asked)
        case Raised(e) => Raised(e)
        case Returned(final) =>
          Returned(Reply(TextOf(final.content), asked + [MessageOf("assistant", Arr(TextContent(final.content)))]))
    else
      Returned(Reply(TextOf(response.content), messages + [MessageOf("assistant", Arr(TextContent(response.content)))]))
  }

  /** `_handle_response` (lines 81-184). */
  method HandleResponseOf(response: Response, messages: seq<Value>, llm: Llm, route: Router) returns (r: Outcome<Reply>)
    ensures r == HandleResponse(response, messages, llm, route)
  {
    if response.stopReason == "tool_use" {
      var assistant, results := CallTools(response.content, route);
      if results.Raised? {
        return Raised(results.message);
      }
      var asked := messages + [MessageOf("assistant", Arr(assistant))];
      asked := asked + [MessageOf("user", Arr(results.value))];
      assert asked == messages + [MessageOf("assistant", Arr(AssistantContent(response.content))),
                                  MessageOf("user", Arr(results.value))];
      var final := llm(asked);
      if final.Raised? {
        return Raised(final.message);
      }
      var text, content := CollectText(final.value.content);
      return Returned(Reply(text, asked + [MessageOf("assistant", Arr(content))]));
    } else {
      var text, content := CollectText(response.content);
      return Returned(Reply(text, messages + [MessageOf("assistant", Arr(content))]));
    }
  }

  /** What `chat(message, conversation_history)` returns or raises. */
  function Chat(message: Value, history: Option<seq<Value>>, llm: Llm, route: Router): Outcome<Reply> {
    var messages := (if history.Some? then history.value else []) + [MessageOf("user", message)];
    match llm(messages)
    case Raised(e) => Raised(e)
    case Returned(response) => HandleResponse(response, messages, llm, route)
  }

  /** `chat` (lines 61-79). */
  method ChatOf(message: Value, history: Option<seq<Value>>, llm: Llm, route: Router) returns (r: Outcome<Reply>)
    ensures r == Chat(message, history, llm, route)
  {
    var earlier := if history.Some? then history.value else [];
    var messages := earlier + [MessageOf("user", message)];
    var response := llm(messages);
    if response.Raised? {
      return Raised(response.message);
    }
    r := HandleResponseOf(response.value, messages, llm, route);
  }

  // ---------------------------------------------------------------------------
  // Properties of the transcript.

  /** The history returned starts with the caller's history, unchanged, and
   *  the user's message; then comes exactly one assistant message for a
   *  direct answer, or three messages (assistant, user, assistant) when
   *  tools were called. */
  lemma ChatHistoryShape(message: Value, history: Option<seq<Value>>, llm: Llm, route: Router)
    requires Chat(message, history, llm, route).Returned?
    ensures var earlier := if history.Some? then history.value else [];
      var h := Chat(message, history, llm, route).value.history;
      var response := llm(earlier + [MessageOf("user", message)]).value;
      && |h| == |earlier| + 1 + (if response.stopReason == "tool_use" then 3 else 1)
      && h[..|earlier|] == earlier
      && h[|earlier|] == MessageOf("user", message)
      && (response.stopReason != "tool_use" ==> Chat(message, history, llm, route).value.message == TextOf(response.content))
  {
    var earlier := if history.Some? then history.value else [];
    var messages := earlier + [MessageOf("user", message)];
    var h := Chat(message, history, llm, route).value.history;
    assert h[..|messages|] == messages;
    assert h[..|earlier|] == messages[..|earlier|] == earlier;
  }

  /** The `tool_use` entries of a list of content entries, in order. */
  function UseEntries(vs: seq<Value>): seq<Value> {
    if vs == [] then []
    else UseEntries(vs[..|vs| - 1]) + if Index(Last(vs), "type") == Some(Str("tool_use")) then [Last(vs)] else []
  }

  lemma {:induction false} UseEntriesAppend(xs: seq<Value>, ys: seq<Value>)
    ensures UseEntries(xs + ys) == UseEntries(xs) + UseEntries(ys)
    decreases |ys|
  {
    if ys == [] {
      assert xs + ys == xs;
    } else {
      assert (xs + ys)[..|xs + ys| - 1] == xs + ys[..|ys| - 1];
      UseEntriesAppend(xs, ys[..|ys| - 1]);
    }
  }

  /** The assistant message lists the tool calls in the order they came, each
   *  as its own `tool_use` entry, text blocks kept between them. */
  lemma {:induction false} CallsListedInOrder(blocks: seq<Block>)
    ensures |UseEntries(AssistantContent(blocks))| == |ToolUses(blocks)|
    ensures forall k | 0 <= k < |ToolUses(blocks)| ::
      UseEntries(AssistantContent(blocks))[k] == UseEntry(ToolUses(blocks)[k].id, ToolUses(blocks)[k].name, ToolUses(blocks)[k].input)
  {
    if blocks != [] {
      var earlier := blocks[..|blocks| - 1];
      CallsListedInOrder(earlier);
      UseEntriesAppend(AssistantContent(earlier), AssistantEntry(Last(blocks)));
      match Last(blocks) {
        case ToolUse(id, name, input) =>
          assert [UseEntry(id, name, input)][..0] == [];
          assert UseEntries(AssistantEntry(Last(blocks))) == [UseEntry(id, name, input)];
        case Text(t) =>
          assert [TextEntry(t)][..0] == [];
          assert UseEntries(AssistantContent(blocks)) == UseEntries(AssistantContent(earlier));
        case Other(_) =>
          assert UseEntries(AssistantContent(blocks)) == UseEntries(AssistantContent(earlier));
      }
    }
  }

  /** The pairing Claude relies on: the k-th `tool_use` entry of the
   *  assistant message and the k-th `tool_result` of the user message carry
   *  the same id, and that result holds the JSON of that call's result. */
  lemma ResultsAnswerCalls(blocks: seq<Block>, route: Router)
    requires ToolResults(blocks, route).Returned?
    ensures |ToolResults(blocks, route).value| == |ToolUses(blocks)|
    ensures forall k | 0 <= k < |ToolUses(blocks)| :: route(ToolUses(blocks)[k].name, ToolUses(blocks)[k].input).Returned?
    ensures var uses := UseEntries(AssistantContent(blocks));
      var results := ToolResults(blocks, route).value;
      && |uses| == |results|
      && forall k | 0 <= k < |results| ::
           && Index(uses[k], "id") == Index(results[k], "tool_use_id")
           && Index(results[k], "content") == Some(Str(JsonDumps(route(ToolUses(blocks)[k].name, ToolUses(blocks)[k].input).value)))
  {
    ToolResultsPerUse(blocks, route);
    CallsListedInOrder(blocks);
    var uses := ToolUses(blocks);
    forall k | 0 <= k < |uses|
      ensures Index(UseEntry(uses[k].id, uses[k].name, uses[k].input), "id") == Some(Str(uses[k].id))
    {
      LookupCons("type", Str("tool_use"), [("id", Str(uses[k].id)), ("name", Str(uses[k].name)), ("input", uses[k].input)], "id");
    }
  }

  // ---------------------------------------------------------------------------
  // The router of line 16.

  /** `ToolRouter(servicenow, onprem_bridge, rag_service).route`: the first
   *  matching handler among those built from the registry for the services
   *  given, performed against the backends and the RAG search. */
  function PatternRouter(services: ToolRouting.Services, backend: Tools.BackendCall -> Outcome<Value>,
                         search: Documentation.Search): Router
  {
    (name: string, input: Value) =>
      Tools.Perform(ToolRouting.FirstMatch(ToolRouting.Build([], ToolHandlers.DefaultRegistry, services), name, input),
                    backend, search)
  }

  /** With the router the agent builds, whatever services it was given and
   *  whatever the backends answer, every `list_open_tickets` call Claude makes
   *  is answered with `{"error": "No handler found for: list_open_tickets"}`:
   *  the call returns that error, and when the results are there the result
   *  for that call holds it. */
  lemma ChatListOpenTicketsUnrouted(blocks: seq<Block>, services: ToolRouting.Services,
                                    backend: Tools.BackendCall -> Outcome<Value>, search: Documentation.Search, k: nat)
    requires k < |ToolUses(blocks)| && ToolUses(blocks)[k].name == Tools.ListOpenTickets
    ensures var use := ToolUses(blocks)[k];
      PatternRouter(services, backend, search)(use.name, use.input) == Returned(ToolRouting.NoHandler(Tools.ListOpenTickets))
    ensures var results := ToolResults(blocks, PatternRouter(services, backend, search));
      results.Returned? ==>
        k < |results.value| && results.value[k] == ResultEntry(ToolUses(blocks)[k].id, ToolRouting.NoHandler(Tools.ListOpenTickets))
  {
    ToolRouting.ListOpenTicketsUnroutedAnyServices(services, ToolUses(blocks)[k].input);
    ToolResultsPerUse(blocks, PatternRouter(services, backend, search));
  }
}
