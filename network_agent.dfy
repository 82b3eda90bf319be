/** network_agent.py: the older agent, analysing with Claude directly. Its
 *  ticket bookkeeping is the one in `Tickets`, over a set of its own. */
module NetworkAgents {
  import opened Values
  import Tickets
  import ServiceNowAgent

  class NetworkAgent {
    const book: Tickets.TicketBook

    /** Lines 9-11: each agent starts with an empty set of its own. */
    constructor ()
      ensures fresh(book) && book.processed == {}
    {
      book := new Tickets.TicketBook();
    }

    /** `autonomous_loop()` over the listings its polls fetched. */
    method AutonomousLoop(listings: seq<Option<string>>, parse: Parser, analyze: Tickets.Analyzer, update: Tickets.Updater)
      returns (passes: seq<seq<Value>>)
      modifies book
      ensures (book.processed, passes) == Tickets.Job(old(book.processed), listings, parse, analyze, update)
    {
      passes := book.Poll(listings, parse, analyze, update);
    }
  }

  /** `query_ticket(ticket_number)` (lines 163-177): the decoded reply, as it
   *  is; the failure dictionary with the text of what was raised; and None,
   *  as the function falls off its end, when there was no content. */
  function QueryTicket(reply: ServiceNowAgent.Reply, parse: Parser): (r: Value)
    ensures reply.Returned? && reply.value.Some? && parse(reply.value.value).Returned? ==> r == parse(reply.value.value).value
    ensures reply.Returned? && reply.value.Some? && parse(reply.value.value).Raised? ==>
      r == ServiceNowAgent.Failure(Str(parse(reply.value.value).message))
    ensures reply.Raised? ==> r == ServiceNowAgent.Failure(Str(reply.message))
    ensures reply == Returned(None) ==> r == Null
  {
    match reply
    case Raised(e) => ServiceNowAgent.Failure(Str(e))
    case Returned(None) => Null
    case Returned(Some(text)) =>
      match parse(text)
      case Raised(e) => ServiceNowAgent.Failure(Str(e))
      case Returned(data) => data
  }

  /** The two lookups agree on whether a ticket was found: the newer one's
   *  `success` is truthy exactly when the older one returns a dictionary whose
   *  own `success` is, and both report a raised call alike. */
  lemma LookupsAgree(reply: ServiceNowAgent.Reply, parse: Parser)
    ensures var older := QueryTicket(reply, parse);
      var newer := ServiceNowAgent.QueryTicketByNumber(reply, parse);
      && (Truthy(Index(newer, "success").value) <==> older.Obj? && Truthy(GetOr(older.fields, "success", Null)))
      && (reply.Raised? ==> older == newer)
  {
    var older := QueryTicket(reply, parse);
    if reply.Returned? && reply.value.Some? && parse(reply.value.value).Returned? {
      assert older == parse(reply.value.value).value;
    } else if reply.Returned? && reply.value.Some? {
      assert Index(older, "success") == Some(Bool(false));
    } else if reply.Raised? {
      assert Index(older, "success") == Some(Bool(false));
    }
  }
}
