/** models/chat_tool_router.py: routing by exact tool name. */
module ChatToolRouter {
  import opened Values
  import opened Text
  import opened Tools
  import ToolHandlers
  import ToolRouting

  function UnknownTool(name: string): Value {
    ErrorDict("Unknown tool: " + name)
  }

  /** `ChatToolRouter.route(function_name, arguments)`: each catalogued tool
   *  by its exact name; anything else is the unknown-tool error. */
  function Route(name: string, arguments: Value): (d: Dispatch)
    ensures name in ServiceNowToolNames ==> Some(d) == TicketCall(name, arguments)
    ensures name == SearchDocumentation ==> d == SearchCall(arguments)
    ensures name in DeviceTools ==> d == Call(ExecuteTool(name, arguments))
    ensures name !in Catalogue <==> d == Immediate(UnknownTool(name))
  {
    match TicketCall(name, arguments)
    case Some(d) => d
    case None =>
      if name == SearchDocumentation then SearchCall(arguments)
      else if name in DeviceTools then Call(ExecuteTool(name, arguments))
      else Immediate(UnknownTool(name))
  }

  /** Exact-name routing reaches every catalogued tool, `list_open_tickets`
   *  included, and agrees with the pattern router of models/tool_router.py
   *  (all services present) on the nine tools that router does reach. */
  lemma ExactRoutingReachesEveryTool(name: string, arguments: Value)
    requires name in Catalogue
    ensures name == ListOpenTickets ==> Route(name, arguments) == Call(ListOpenTicketsCall)
    ensures name != ListOpenTickets ==>
      Route(name, arguments) == ToolRouting.FirstMatch(ToolHandlers.DefaultRegistry, name, arguments)
  {
    if name in [QueryTicket, CreateTicket, UpdateTicket, CloseTicket] {
      TicketToolsMatchFirst(name, arguments);
    } else if name in DeviceTools {
      DeviceToolsMatchSecond(name, arguments);
    } else if name == SearchDocumentation {
      SearchMatchesThird(arguments);
    }
  }

  lemma TicketToolsMatchFirst(name: string, arguments: Value)
    requires name in [QueryTicket, CreateTicket, UpdateTicket, CloseTicket]
    ensures ToolRouting.FirstMatch(ToolHandlers.DefaultRegistry, name, arguments)
         == ToolHandlers.Handle(ToolHandlers.ServiceNowHandler, name, arguments)
  {
    if name == QueryTicket || name == CloseTicket {
      assert name[6..16] == "servicenow";
      ServiceNowMatchesFirst(name, 6, arguments);
    } else {
      assert name[7..17] == "servicenow";
      ServiceNowMatchesFirst(name, 7, arguments);
    }
  }

  lemma ServiceNowMatchesFirst(name: string, at: nat, arguments: Value)
    requires at + 10 <= |name| && name[at..at + 10] == "servicenow"
    ensures ToolRouting.FirstMatch(ToolHandlers.DefaultRegistry, name, arguments)
         == ToolHandlers.Handle(ToolHandlers.ServiceNowHandler, name, arguments)
  {
    assert OccursAt(name, "servicenow", at);
  }

  lemma DeviceToolsMatchSecond(name: string, arguments: Value)
    requires name in DeviceTools
    ensures ToolRouting.FirstMatch(ToolHandlers.DefaultRegistry, name, arguments)
         == ToolHandlers.Handle(ToolHandlers.OnPremToolHandler, name, arguments)
  {
    var r := ToolHandlers.DefaultRegistry;
    NotContainsByChar(name, "servicenow", 9);
    ToolRouting.MatchesIsContains("servicenow", name);
    assert OccursAt(name, "device", 4);
    assert r[1..][0] == ("device", ToolHandlers.OnPremToolHandler);
  }

  lemma SearchMatchesThird(arguments: Value)
    ensures ToolRouting.FirstMatch(ToolHandlers.DefaultRegistry, SearchDocumentation, arguments)
         == ToolHandlers.Handle(ToolHandlers.DocumentationHandler, SearchDocumentation, arguments)
  {
    var r := ToolHandlers.DefaultRegistry;
    var name := SearchDocumentation;
    NotContainsByChar(name, "servicenow", 3);
    NotContainsByChar(name, "device", 2);
    ToolRouting.MatchesIsContains("servicenow", name);
    ToolRouting.MatchesIsContains("device", name);
    assert OccursAt(name, "search", 0);
    assert r[1..][1..][0] == ("search", ToolHandlers.DocumentationHandler);
    assert ToolRouting.FirstMatch(r, name, arguments) == ToolRouting.FirstMatch(r[1..], name, arguments);
    assert ToolRouting.FirstMatch(r[1..], name, arguments) == ToolRouting.FirstMatch(r[1..][1..], name, arguments);
  }
}
