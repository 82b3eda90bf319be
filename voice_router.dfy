/** models/voice/tool_call_router.py: the voice session's router, by exact
 *  name, for the two tools the voice agent offers. */
module VoiceRouting {
  import opened Values
  import opened Tools
  import ChatToolRouter

  class ToolCallRouter {
    /** Set at construction and rewritten by `VoiceAgent.change_llm`; routing never reads it. */
    var llmChoice: string

    /** `__init__` (lines 4-7). */
    constructor (llmChoice: string)
      ensures this.llmChoice == llmChoice
    {
      this.llmChoice := llmChoice;
    }

    /** `route(function_name, arguments)` (lines 9-21). The name is whatever
     *  the event carried, so it is a value and not only a string. The result
     *  depends on the name and the arguments alone. */
    function Route(name: Value, arguments: Value): (d: Dispatch)
      ensures name == Str(QueryTicket) ==>
        d == (if arguments.Obj? then Call(GetTicketData(GetOr(arguments.fields, "ticket_number", Null)))
              else Fails(NoGetMessage(arguments)))
      ensures name == Str("get_device_vlans") ==> d == Call(ExecuteTool("get_device_vlans", arguments))
      ensures name != Str(QueryTicket) && name != Str("get_device_vlans") ==>
        d == Immediate(ErrorDict("Unknown tool: " + PyStr(name)))
    {
      if name == Str(QueryTicket) then
        FromDict(arguments, f => GetTicketData(GetOr(f, "ticket_number", Null)))
      else if name == Str("get_device_vlans") then
        Call(ExecuteTool("get_device_vlans", arguments))
      else
        Immediate(ErrorDict("Unknown tool: " + PyStr(name)))
    }
  }

  /** Of the four device tools only `get_device_vlans` is routed by voice; the
   *  other three, and every ticket tool but the query, are unknown here. */
  lemma OnlyTwoToolsByVoice(router: ToolCallRouter, arguments: Value)
    ensures forall n | n in DeviceTools[1..] + [CreateTicket, UpdateTicket, ListOpenTickets, CloseTicket, SearchDocumentation] ::
      router.Route(Str(n), arguments) == Immediate(ErrorDict("Unknown tool: " + n))
  {
  }

  /** On its two tools, and on names outside the catalogue, the voice router
   *  decides exactly what the chat router of models/chat_tool_router.py does;
   *  it differs only on the eight catalogued tools it does not offer. */
  lemma AgreesWithChatRouter(router: ToolCallRouter, name: string, arguments: Value)
    requires name == QueryTicket || name == "get_device_vlans" || name !in Catalogue
    ensures router.Route(Str(name), arguments) == ChatToolRouter.Route(name, arguments)
  {
  }
}
