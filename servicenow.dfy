/** models/servicenow.py: the ServiceNow agent. Its ticket bookkeeping is the
 *  one in `Tickets`, over the set every instance shares; what is its own is
 *  answering a question with the ticket the question names. */
module ServiceNowAgent {
  import opened Values
  import opened Text
  import Tickets
  import LlmFactory

  const AssignmentGroupVariable := "SERVICENOW_ASSIGNMENT_GROUP_ID"
  const DefaultAssignmentGroup := "16eb774083b836101bf4ffd6feaad360"
  const ErrorPrefix := "Sorry, I encountered an error: "

  // ---------------------------------------------------------------------------
  // `re.search(r'INC\d+', question, re.IGNORECASE).group(0).upper()`

  /** The pattern matches at `p`: "INC" in either case, then a digit. */
  predicate MatchesAt(q: string, p: int) {
    && 0 <= p && p + 3 < |q|
    && UpperChar(q[p]) == 'I' && UpperChar(q[p + 1]) == 'N' && UpperChar(q[p + 2]) == 'C'
    && IsDigit(q[p + 3])
  }

  /** How many digits follow position `i`: `\d+` is greedy. */
  function DigitRun(q: string, i: nat): (n: nat)
    requires i <= |q|
    ensures i + n <= |q|
    ensures forall k | i <= k < i + n :: IsDigit(q[k])
    ensures i + n == |q| || !IsDigit(q[i + n])
    decreases |q| - i
  {
    if i < |q| && IsDigit(q[i]) then 1 + DigitRun(q, i + 1) else 0
  }

  /** The leftmost position from `p` on where the pattern matches. */
  function SearchFrom(q: string, p: nat): (r: Option<nat>)
    requires p <= |q|
    ensures r.Some? ==> p <= r.value && MatchesAt(q, r.value) && forall k | p <= k < r.value :: !MatchesAt(q, k)
    ensures r.None? ==> forall k | p <= k :: !MatchesAt(q, k)
    decreases |q| - p
  {
    if p == |q| then None
    else if MatchesAt(q, p) then Some(p)
    else SearchFrom(q, p + 1)
  }

  /** The match's text, upper-cased. */
  function MatchText(q: string, p: nat): string
    requires MatchesAt(q, p)
  {
    Upper(q[p .. p + 3 + DigitRun(q, p + 3)])
  }

  /** The ticket number a question names: its leftmost match, upper-cased;
   *  None when nothing matches. */
  function TicketNumber(q: string): (r: Option<string>)
    ensures r.None? <==> forall k :: !MatchesAt(q, k)
    ensures r.Some? ==> exists p | MatchesAt(q, p) :: (forall k | 0 <= k < p :: !MatchesAt(q, k)) && r.value == MatchText(q, p)
  {
    match SearchFrom(q, 0)
    case None => None
    case Some(p) => Some(MatchText(q, p))
  }

  /** A ticket number is "INC" followed by one digit or more, and nothing else. */
  lemma TicketNumberShape(q: string)
    requires TicketNumber(q).Some?
    ensures var n := TicketNumber(q).value;
      && |n| >= 4 && n[..3] == "INC"
      && forall k | 3 <= k < |n| :: IsDigit(n[k])
  {
    var p := SearchFrom(q, 0).value;
    var run := DigitRun(q, p + 3);
    var n := MatchText(q, p);
    assert |n| == 3 + run;
    assert forall k | 3 <= k < |n| :: n[k] == UpperChar(q[p + k]);
    assert n[0] == 'I' && n[1] == 'N' && n[2] == 'C';
  }

  /** The match ends at the last digit of its run: a question that names
   *  "inc0012a" names INC0012. */
  lemma TicketNumberExample()
    ensures TicketNumber("is inc0012a done") == Some("INC0012")
  {
    var q := "is inc0012a done";
    assert q[3] == 'i' && q[4] == 'n' && q[5] == 'c' && q[6] == '0';
    assert MatchesAt(q, 3);
    assert SearchFrom(q, 3) == Some(3);
    assert q[2] == ' ' && !MatchesAt(q, 2);
    assert q[1] == 's' && !MatchesAt(q, 1);
    assert q[0] == 'i' && q[1] == 's' && !MatchesAt(q, 0);
    assert SearchFrom(q, 0) == Some(3);
    assert q[10] == 'a' && DigitRun(q, 10) == 0;
    assert q[9] == '2' && DigitRun(q, 9) == 1;
    assert q[8] == '1' && DigitRun(q, 8) == 2;
    assert q[7] == '0' && DigitRun(q, 7) == 3;
    assert DigitRun(q, 6) == 4;
    assert q[3..10] == "inc0012";
    assert Upper("inc0012") == "INC0012";
  }

  // ---------------------------------------------------------------------------
  // `query_ticket_by_number`

  /** What `call_tool("get_incident_by_number", ...)` gave: the message it
   *  raised, None for an empty result or an empty content, else the first
   *  content item's text. */
  type Reply = Outcome<Option<string>>

  /** `{"success": False, "message": message}`. */
  function Failure(message: Value): (r: Value)
    ensures Index(r, "success") == Some(Bool(false)) && Index(r, "message") == Some(message)
  {
    LookupCons("success", Bool(false), [("message", message)], "message");
    Obj([("success", Bool(false)), ("message", message)])
  }

  /** `{"success": True, "ticket": ticket}`. */
  function Found(ticket: Value): (r: Value)
    ensures Index(r, "success") == Some(Bool(true)) && Index(r, "ticket") == Some(ticket)
  {
    LookupCons("success", Bool(true), [("ticket", ticket)], "ticket");
    Obj([("success", Bool(true)), ("ticket", ticket)])
  }

  /** The incident a reply holds: decoded, a dictionary, its `success` truthy. */
  predicate Finds(reply: Reply, parse: Parser) {
    && reply.Returned? && reply.value.Some?
    && parse(reply.value.value).Returned?
    && var data := parse(reply.value.value).value;
       data.Obj? && Truthy(GetOr(data.fields, "success", Null))
  }

  /** Lines 102-127: a dictionary whose `success` says whether the ticket was
   *  found. Found, it carries the reply's `incident` (an empty dictionary when
   *  there is none); otherwise the reply's `message` (by default "Ticket not
   *  found"), the text of the exception raised, or "No response". */
  function QueryTicketByNumber(reply: Reply, parse: Parser): (r: Value)
    ensures Index(r, "success").Some?
    ensures Truthy(Index(r, "success").value) <==> Finds(reply, parse)
    ensures Finds(reply, parse) ==>
      r == Found(GetOr(parse(reply.value.value).value.fields, "incident", Obj([])))
    ensures reply.Raised? ==> r == Failure(Str(reply.message))
    ensures reply == Returned(None) ==> r == Failure(Str("No response"))
    ensures reply.Returned? && reply.value.Some? && !Finds(reply, parse) ==>
      var decoded := parse(reply.value.value);
      r == Failure(if decoded.Raised? then Str(decoded.message)
                   else if !decoded.value.Obj? then Str(NoGetMessage(decoded.value))
                   else GetOr(decoded.value.fields, "message", Str("Ticket not found")))
  {
    match reply
    case Raised(e) => Failure(Str(e))
    case Returned(None) => Failure(Str("No response"))
    case Returned(Some(text)) =>
      match parse(text)
      case Raised(e) => Failure(Str(e))
      case Returned(data) =>
        if !data.Obj? then Failure(Str(NoGetMessage(data)))
        else if Truthy(GetOr(data.fields, "success", Null)) then Found(GetOr(data.fields, "incident", Obj([])))
        else Failure(GetOr(data.fields, "message", Str("Ticket not found")))
  }

  // ---------------------------------------------------------------------------
  // `ask_llm_with_context`

  /** The ticket summary put in front of the question: free-form text. */
  type Describe = (seq<(string, Value)>, string) -> string

  /** The LLM's answer to a prompt, through the chosen service. */
  type Asker = (LlmFactory.Service, string) -> Outcome<Value>

  /** The prompt for a question (lines 135-158): the question itself, unless
   *  it names a ticket that is found, then that ticket described with the
   *  question. A found `ticket` that is not a dictionary raises. */
  function Context(question: string, lookup: string -> Reply, parse: Parser, describe: Describe): (r: Outcome<string>)
    ensures TicketNumber(question).None? ==> r == Returned(question)
    ensures TicketNumber(question).Some? && !Finds(lookup(TicketNumber(question).value), parse) ==> r == Returned(question)
  {
    match TicketNumber(question)
    case None => Returned(question)
    case Some(number) =>
      var data := QueryTicketByNumber(lookup(number), parse);
      if !Truthy(GetOr(data.fields, "success", Null)) then Returned(question)
      else
        var ticket := GetOr(data.fields, "ticket", Obj([]));
        if ticket.Obj? then Returned(describe(ticket.fields, question))
        else Raised(NoGetMessage(ticket))
  }

  /** A found ticket is described from the `incident` its reply holds. */
  lemma ContextOfFoundTicket(question: string, lookup: string -> Reply, parse: Parser, describe: Describe)
    requires TicketNumber(question).Some?
    requires Finds(lookup(TicketNumber(question).value), parse)
    ensures var incident := GetOr(parse(lookup(TicketNumber(question).value).value.value).value.fields, "incident", Obj([]));
      && (incident.Obj? ==> Context(question, lookup, parse, describe) == Returned(describe(incident.fields, question)))
      && (!incident.Obj? ==> Context(question, lookup, parse, describe).Raised?)
  {
    var data := QueryTicketByNumber(lookup(TicketNumber(question).value), parse);
    var incident := GetOr(parse(lookup(TicketNumber(question).value).value.value).value.fields, "incident", Obj([]));
    assert data == Found(incident);
    assert GetOr(data.fields, "success", Null) == Bool(true);
    assert GetOr(data.fields, "ticket", Obj([])) == incident;
  }

  /** The agent, with `processed_tickets` the set all instances share. */
  class ServiceNow {
    const assignmentGroup: string
    var preferredLlm: Option<LlmFactory.Service>
    const book: Tickets.TicketBook

    /** Lines 9-11, with `shared` the class attribute of line 7. */
    constructor (shared: Tickets.TicketBook, env: map<string, string>)
      ensures assignmentGroup == if AssignmentGroupVariable in env then env[AssignmentGroupVariable] else DefaultAssignmentGroup
      ensures preferredLlm == None && book == shared
    {
      assignmentGroup := if AssignmentGroupVariable in env then env[AssignmentGroupVariable] else DefaultAssignmentGroup;
      preferredLlm := None;
      book := shared;
    }

    method SetPreferredLlm(llm: LlmFactory.Service)
      modifies this
      ensures preferredLlm == Some(llm)
    {
      preferredLlm := Some(llm);
    }

    /** `start_servicenow_job(llm)` over the listings its polls fetched: the
     *  service is chosen, then each pass analyses with it. */
    method StartJob(llm: LlmFactory.Service, listings: seq<Option<string>>, parse: Parser,
                    analyze: (LlmFactory.Service, Value) -> Value, update: Tickets.Updater)
      returns (passes: seq<seq<Value>>)
      modifies this, book
      ensures preferredLlm == Some(llm)
      ensures (book.processed, passes) == Tickets.Job(old(book.processed), listings, parse, t => analyze(llm, t), update)
    {
      SetPreferredLlm(llm);
      passes := book.Poll(listings, parse, t => analyze(llm, t), update);
    }

    /** `ask_llm_with_context(question)`: the answer to the prompt, or the
     *  apology carrying the error the LLM call raised (an unset service
     *  raises AttributeError). */
    function AskLlmWithContext(question: string, lookup: string -> Reply, parse: Parser, describe: Describe, ask: Asker)
      : (r: Outcome<Value>)
      reads this
      ensures Context(question, lookup, parse, describe).Raised? <==> r.Raised?
      ensures preferredLlm.None? && Context(question, lookup, parse, describe).Returned? ==>
        r == Returned(Str(ErrorPrefix + "'NoneType' object has no attribute 'ask'"))
      ensures preferredLlm.Some? && Context(question, lookup, parse, describe).Returned? ==>
        var answer := ask(preferredLlm.value, Context(question, lookup, parse, describe).value);
        r == Returned(if answer.Returned? then answer.value else Str(ErrorPrefix + answer.message))
    {
      match Context(question, lookup, parse, describe)
      case Raised(e) => Raised(e)
      case Returned(prompt) =>
        if preferredLlm.None? then Returned(Str(ErrorPrefix + "'NoneType' object has no attribute 'ask'"))
        else
          match ask(preferredLlm.value, prompt)
          case Returned(answer) => Returned(answer)
          case Raised(e) => Returned(Str(ErrorPrefix + e))
    }
  }

  /** Two agents built over the same set see each other's tickets. */
  method SharedBook(env: map<string, string>, ticket: Value, analyze: Tickets.Analyzer, update: Tickets.Updater)
    returns (first: ServiceNow, second: ServiceNow)
    requires ticket.Obj?
    ensures first.book == second.book
    ensures first.book.processed == if Tickets.Takes(ticket, analyze(ticket), Tickets.UpdateFor(ticket, analyze, update))
      then {GetOr(ticket.fields, "sys_id", Null)} else {}
  {
    var shared := new Tickets.TicketBook();
    first := new ServiceNow(shared, env);
    second := new ServiceNow(shared, env);
    var _ := second.book.ProcessTicket(ticket, analyze, update);
  }
}
