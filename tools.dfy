/** The tool catalogue the agents advertise and the calls a routed tool ends in.
 *  The ticket tools' argument handling is written out once here: it is the same
 *  if-chain in `ServiceNowHandler.handle` (models/tool_handler.py:17-41) and in
 *  `ChatToolRouter.route` (models/chat_tool_router.py:16-39). */
module Tools {
  import opened Values
  import Documentation

  const QueryTicket: string := "query_servicenow_ticket"
  const CreateTicket: string := "create_servicenow_ticket"
  const UpdateTicket: string := "update_servicenow_ticket"
  const ListOpenTickets: string := "list_open_tickets"
  const CloseTicket: string := "close_servicenow_ticket"
  const SearchDocumentation: string := "search_documentation"

  /** The on-prem device tools, as listed in the `in [...]` tests. */
  const DeviceTools: seq<string> := ["get_device_vlans", "get_device_cdp", "get_device_ntp", "get_device_spanning_tree"]

  /** The names of SERVICENOW_TOOLS, ONPREM_TOOLS and DOCUMENTATION_TOOLS, in the
   *  order the chat agent loads them. */
  const ServiceNowToolNames: seq<string> := [QueryTicket, CreateTicket, UpdateTicket, ListOpenTickets, CloseTicket]
  const Catalogue: seq<string> := ServiceNowToolNames + DeviceTools + [SearchDocumentation]

  /** A call into a backend service, with the arguments the router extracted. */
  datatype BackendCall =
    | GetTicketData(ticketNumber: Value)
    | CreateTicketCall(shortDescription: Value, description: Value, priority: Value)
    | UpdateTicketCall(ticketNumber: Value, workNotes: Value, state: Value)
    | CloseTicketCall(ticketNumber: Value, resolutionNotes: Value, closeCode: Value)
    | ListOpenTicketsCall
    | ExecuteTool(name: string, arguments: Value)

  /** What routing a tool call decides, before any backend runs. */
  datatype Dispatch =
    | Call(call: BackendCall)          // await the backend and return its result
    | SearchDocs(query: Value)         // the in-process `_search_documentation(query)`
    | Immediate(result: Value)         // return this value without calling anything
    | Fails(message: string)           // an exception raised while reading the arguments

  /** A call built from `arguments.get(...)` reads: on anything but a dictionary
   *  the first `.get` raises AttributeError. */
  function FromDict(arguments: Value, mk: seq<(string, Value)> -> BackendCall): (d: Dispatch)
    ensures arguments.Obj? <==> d.Call?
    ensures !arguments.Obj? ==> d == Fails(NoGetMessage(arguments))
  {
    if arguments.Obj? then Call(mk(arguments.fields)) else Fails(NoGetMessage(arguments))
  }

  /** The five ServiceNow branches; None for every other name. Missing keys read
   *  as None, except `priority` (default "3") and `close_code` (default "Solved"). */
  function TicketCall(name: string, arguments: Value): (r: Option<Dispatch>)
    ensures r.Some? <==> name in ServiceNowToolNames
    ensures name == ListOpenTickets ==> r == Some(Call(ListOpenTicketsCall))
    ensures name == CreateTicket && arguments.Obj? && Lookup(arguments.fields, "priority").None? ==>
      r.value.Call? && r.value.call.CreateTicketCall? && r.value.call.priority == Str("3")
    ensures name == CloseTicket && arguments.Obj? && Lookup(arguments.fields, "close_code").None? ==>
      r.value.Call? && r.value.call.CloseTicketCall? && r.value.call.closeCode == Str("Solved")
  {
    if name == QueryTicket then
      Some(FromDict(arguments, f => GetTicketData(GetOr(f, "ticket_number", Null))))
    else if name == CreateTicket then
      Some(FromDict(arguments, f => CreateTicketCall(GetOr(f, "short_description", Null),
                                                     GetOr(f, "description", Null),
                                                     GetOr(f, "priority", Str("3")))))
    else if name == UpdateTicket then
      Some(FromDict(arguments, f => UpdateTicketCall(GetOr(f, "ticket_number", Null),
                                                     GetOr(f, "work_notes", Null),
                                                     GetOr(f, "state", Null))))
    else if name == CloseTicket then
      Some(FromDict(arguments, f => CloseTicketCall(GetOr(f, "ticket_number", Null),
                                                    GetOr(f, "resolution_notes", Null),
                                                    GetOr(f, "close_code", Str("Solved")))))
    else if name == ListOpenTickets then
      Some(Call(ListOpenTicketsCall))
    else
      None
  }

  /** `arguments.get('query')` for the documentation search. */
  function SearchCall(arguments: Value): (d: Dispatch)
    ensures arguments.Obj? ==> d == SearchDocs(GetOr(arguments.fields, "query", Null))
    ensures !arguments.Obj? ==> d == Fails(NoGetMessage(arguments))
  {
    if arguments.Obj? then SearchDocs(GetOr(arguments.fields, "query", Null)) else Fails(NoGetMessage(arguments))
  }

  /** The result of a dispatch, given what each backend call returns or raises
   *  and what the RAG search returns or raises. The documentation search never
   *  raises: it catches its own exceptions. */
  function Perform(d: Dispatch, backend: BackendCall -> Outcome<Value>, search: Documentation.Search): (r: Outcome<Value>)
    ensures d.SearchDocs? || d.Immediate? ==> r.Returned?
    ensures d.Fails? ==> r == Raised(d.message)
    ensures d.Call? ==> r == backend(d.call)
  {
    match d
    case Call(c) => backend(c)
    case SearchDocs(q) => Returned(Documentation.Formatted(Documentation.HandlerFormat, search(q, Documentation.TopK)))
    case Immediate(v) => Returned(v)
    case Fails(m) => Raised(m)
  }
}
