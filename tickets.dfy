/** The ticket bookkeeping that models/servicenow.py and network_agent.py
 *  share line for line: the set of tickets already taken, the filter that
 *  picks the new ones out of a listing, taking one ticket, and one pass of
 *  the polling loop. A ticket is the dictionary the listing holds; the
 *  analysis and the ownership update are the values the LLM and ServiceNow
 *  return (None when the call raised). */
module Tickets {
  import opened Values

  /** `t['sys_id']`, or None where it raises. */
  function SysId(t: Value): Option<Value> {
    Index(t, "sys_id")
  }

  /** A list or a dictionary cannot be looked up in a Python set. */
  predicate Hashable(v: Value) {
    !v.Arr? && !v.Obj?
  }

  predicate HasKey(t: Value) {
    SysId(t).Some? && Hashable(SysId(t).value)
  }

  /** `[t for t in tickets if t['sys_id'] not in processed]`, or the error the
   *  first ticket without a usable `sys_id` raises. */
  function NewTickets(tickets: seq<Value>, processed: set<Value>): (r: Outcome<seq<Value>>)
    ensures r.Returned? <==> forall i | 0 <= i < |tickets| :: HasKey(tickets[i])
  {
    if tickets == [] then Returned([])
    else
      var first := tickets[0];
      assert forall i | 0 <= i < |tickets[1..]| :: tickets[1..][i] == tickets[i + 1];
      match Subscript(first, "sys_id")
      case Raised(e) => Raised(e)
      case Returned(id) =>
        if !Hashable(id) then Raised("unhashable type: '" + TypeName(id) + "'")
        else match NewTickets(tickets[1..], processed)
        case Raised(e) => Raised(e)
        case Returned(rest) =>
          Returned(if id in processed then rest else [first] + rest)
  }

  /** The new tickets are exactly the listed ones whose `sys_id` is not yet
   *  processed. */
  lemma {:induction false} NewTicketsMembers(tickets: seq<Value>, processed: set<Value>)
    requires NewTickets(tickets, processed).Returned?
    ensures var r := NewTickets(tickets, processed).value;
      && |r| <= |tickets|
      && forall t :: t in r <==> t in tickets && SysId(t).Some? && SysId(t).value !in processed
  {
    if tickets != [] {
      var tail := tickets[1..];
      TailHasIds(tickets, processed);
      NewTicketsMembers(tail, processed);
      assert forall t :: t in tickets <==> t == tickets[0] || t in tail;
    }
  }

  /** The filter keeps the listing's order: filtering two listings one after
   *  the other is filtering their concatenation. */
  lemma {:induction false} NewTicketsAppend(xs: seq<Value>, ys: seq<Value>, processed: set<Value>)
    requires NewTickets(xs, processed).Returned? && NewTickets(ys, processed).Returned?
    ensures NewTickets(xs + ys, processed) == Returned(NewTickets(xs, processed).value + NewTickets(ys, processed).value)
  {
    var more := NewTickets(ys, processed).value;
    if xs == [] {
      assert xs + ys == ys && [] + more == more;
    } else {
      var tail := xs[1..];
      TailHasIds(xs, processed);
      NewTicketsAppend(tail, ys, processed);
      var zs := xs + ys;
      assert zs[0] == xs[0] && zs[1..] == tail + ys;
      var rest := NewTickets(tail, processed).value;
      var c := if SysId(xs[0]).value in processed then [] else [xs[0]];
      assert NewTickets(xs, processed) == Returned(c + rest) by {
        if SysId(xs[0]).value in processed {
          assert c + rest == rest;
        }
      }
      assert NewTickets(zs, processed) == Returned(c + (rest + more)) by {
        assert NewTickets(zs[1..], processed) == Returned(rest + more);
        if SysId(xs[0]).value in processed {
          assert c + (rest + more) == rest + more;
        }
      }
      assert c + (rest + more) == (c + rest) + more;
    }
  }

  lemma TailHasIds(xs: seq<Value>, processed: set<Value>)
    requires xs != [] && NewTickets(xs, processed).Returned?
    ensures HasKey(xs[0]) && NewTickets(xs[1..], processed).Returned?
  {
    var tail := xs[1..];
    forall i | 0 <= i < |tail| ensures HasKey(tail[i]) {
      assert tail[i] == xs[i + 1];
    }
  }

  /** Lines 65-86 of models/servicenow.py and 74-96 of network_agent.py: a
   *  ticket is taken when the analysis, its `sys_id` and the update result
   *  are all truthy. */
  predicate Takes(ticket: Value, analysis: Value, update: Value) {
    ticket.Obj? && Truthy(analysis) && Truthy(GetOr(ticket.fields, "sys_id", Null)) && Truthy(update)
  }

  /** The analysis of a ticket, and the result of the ownership update for a
   *  `sys_id` with that analysis; None for a call that raised. */
  type Analyzer = Value -> Value
  type Updater = (Value, Value) -> Value

  /** The update result `process_ticket` sees for a ticket. */
  function UpdateFor(ticket: Value, analyze: Analyzer, update: Updater): Value
    requires ticket.Obj?
  {
    update(GetOr(ticket.fields, "sys_id", Null), analyze(ticket))
  }

  /** The `sys_id`s a run over the new tickets takes, in order. */
  function Taken(tickets: seq<Value>, analyze: Analyzer, update: Updater): (ids: seq<Value>)
    requires forall t | t in tickets :: t.Obj?
    ensures |ids| <= |tickets|
  {
    if tickets == [] then []
    else
      var t := tickets[0];
      (if Takes(t, analyze(t), UpdateFor(t, analyze, update)) then [GetOr(t.fields, "sys_id", Null)] else [])
        + Taken(tickets[1..], analyze, update)
  }

  /** The tickets a listing's text holds, when it decodes to a dictionary
   *  whose `success` is truthy and that has `incidents`; None when the pass
   *  does nothing (no listing, a decode error, anything else). */
  function Listed(listing: Option<string>, parse: Parser): Option<seq<Value>> {
    if listing.None? then None
    else
      match parse(listing.value)
      case Raised(_) => None
      case Returned(response) =>
        if !response.Obj? then None
        else if !Truthy(GetOr(response.fields, "success", Null)) || Lookup(response.fields, "incidents").None? then None
        else
          match Lookup(response.fields, "incidents").value
          case Arr(tickets) => Some(tickets)
          case _ => None
  }

  /** One pass of the polling loop (lines 194-224 of models/servicenow.py,
   *  118-148 of network_agent.py): the new tickets are picked out once, then
   *  processed in order, so a `sys_id` listed twice is processed twice. */
  function Iteration(processed: set<Value>, listing: Option<string>, parse: Parser, analyze: Analyzer, update: Updater): (ids: seq<Value>) {
    match Listed(listing, parse)
    case None => []
    case Some(tickets) =>
      match NewTickets(tickets, processed)
      case Raised(_) => []
      case Returned(unseen) =>
        NewTicketsMembers(tickets, processed);
        Taken(unseen, analyze, update)
  }

  function Elements(ids: seq<Value>): (s: set<Value>)
    ensures forall x :: x in s <==> x in ids
  {
    set x | x in ids
  }

  lemma ElementsGrow(ids: seq<Value>, id: Value)
    ensures Elements(ids + [id]) == Elements(ids) + {id}
  {
    assert forall x :: x in ids + [id] <==> x in ids || x == id;
  }

  /** One ticket of the `for` loop, taken: its id joins those already taken. */
  lemma TakeStep(todo: seq<Value>, i: nat, analyze: Analyzer, update: Updater, ids: seq<Value>, whole: seq<Value>)
    requires i < |todo| && forall t | t in todo :: t.Obj?
    requires Takes(todo[i], analyze(todo[i]), UpdateFor(todo[i], analyze, update))
    requires ids + Taken(todo[i..], analyze, update) == whole
    ensures (ids + [GetOr(todo[i].fields, "sys_id", Null)]) + Taken(todo[i + 1..], analyze, update) == whole
  {
    TakenAt(todo, i, analyze, update);
    var id, rest := GetOr(todo[i].fields, "sys_id", Null), Taken(todo[i + 1..], analyze, update);
    assert (ids + [id]) + rest == ids + ([id] + rest);
  }

  /** One ticket of the `for` loop, not taken. */
  lemma PassStep(todo: seq<Value>, i: nat, analyze: Analyzer, update: Updater, ids: seq<Value>, whole: seq<Value>)
    requires i < |todo| && forall t | t in todo :: t.Obj?
    requires !Takes(todo[i], analyze(todo[i]), UpdateFor(todo[i], analyze, update))
    requires ids + Taken(todo[i..], analyze, update) == whole
    ensures ids + Taken(todo[i + 1..], analyze, update) == whole
  {
    TakenAt(todo, i, analyze, update);
    assert [] + Taken(todo[i + 1..], analyze, update) == Taken(todo[i + 1..], analyze, update);
  }

  lemma TakenAt(todo: seq<Value>, i: nat, analyze: Analyzer, update: Updater)
    requires i < |todo| && forall t | t in todo :: t.Obj?
    ensures Taken(todo[i..], analyze, update) ==
      (if Takes(todo[i], analyze(todo[i]), UpdateFor(todo[i], analyze, update)) then [GetOr(todo[i].fields, "sys_id", Null)] else [])
      + Taken(todo[i + 1..], analyze, update)
  {
    assert todo[i..][0] == todo[i] && todo[i..][1..] == todo[i + 1..];
  }

  /** What a pass adds are the ids of listed tickets that were not processed
   *  before and whose analysis and update succeeded. */
  lemma {:induction false} TakenAreNewAndSucceeded(tickets: seq<Value>, analyze: Analyzer, update: Updater, x: Value)
    requires forall t | t in tickets :: t.Obj?
    requires x in Taken(tickets, analyze, update)
    ensures exists t | t in tickets :: x == GetOr(t.fields, "sys_id", Null) && Takes(t, analyze(t), UpdateFor(t, analyze, update))
  {
    var t := tickets[0];
    if !(Takes(t, analyze(t), UpdateFor(t, analyze, update)) && x == GetOr(t.fields, "sys_id", Null)) {
      assert x in Taken(tickets[1..], analyze, update);
      TakenAreNewAndSucceeded(tickets[1..], analyze, update, x);
      var u :| u in tickets[1..] && x == GetOr(u.fields, "sys_id", Null) && Takes(u, analyze(u), UpdateFor(u, analyze, update));
      assert u in tickets;
    }
  }

  lemma IterationTakesOnlyNewTickets(processed: set<Value>, listing: Option<string>, parse: Parser,
                                     analyze: Analyzer, update: Updater, x: Value)
    requires x in Iteration(processed, listing, parse, analyze, update)
    ensures x !in processed
    ensures exists t | t in Listed(listing, parse).value ::
      && x == GetOr(t.fields, "sys_id", Null)
      && Takes(t, analyze(t), UpdateFor(t, analyze, update))
  {
    var tickets := Listed(listing, parse).value;
    var unseen := NewTickets(tickets, processed).value;
    NewTicketsMembers(tickets, processed);
    TakenAreNewAndSucceeded(unseen, analyze, update, x);
    var t :| t in unseen && x == GetOr(t.fields, "sys_id", Null) && Takes(t, analyze(t), UpdateFor(t, analyze, update));
    assert GetOr(t.fields, "sys_id", Null) == SysId(t).value;
  }

  /** Successive passes of the loop over the listings it fetched: the set the
   *  passes leave behind, and the ids each pass took. */
  function Job(processed: set<Value>, listings: seq<Option<string>>, parse: Parser, analyze: Analyzer, update: Updater)
    : (r: (set<Value>, seq<seq<Value>>))
    ensures |r.1| == |listings|
    decreases |listings|
  {
    if listings == [] then (processed, [])
    else
      var ids := Iteration(processed, listings[0], parse, analyze, update);
      var next := Job(processed + Elements(ids), listings[1..], parse, analyze, update);
      (next.0, [ids] + next.1)
  }

  /** A ticket taken in one pass was not processed before the job and is not
   *  taken again in any later pass. */
  lemma {:induction false} TakenOnce(processed: set<Value>, listings: seq<Option<string>>, parse: Parser,
                                     analyze: Analyzer, update: Updater, j: nat, x: Value)
    requires j < |listings|
    requires x in Job(processed, listings, parse, analyze, update).1[j]
    ensures x !in processed
    ensures forall i | 0 <= i < j :: x !in Job(processed, listings, parse, analyze, update).1[i]
    decreases j
  {
    var ids := Iteration(processed, listings[0], parse, analyze, update);
    var after := processed + Elements(ids);
    var next := Job(after, listings[1..], parse, analyze, update);
    var passes := Job(processed, listings, parse, analyze, update).1;
    assert passes == [ids] + next.1;
    if j == 0 {
      IterationTakesOnlyNewTickets(processed, listings[0], parse, analyze, update, x);
    } else {
      assert x in next.1[j - 1];
      TakenOnce(after, listings[1..], parse, analyze, update, j - 1, x);
      forall i | 0 <= i < j ensures x !in passes[i] {
        if i > 0 {
          assert passes[i] == next.1[i - 1];
        }
      }
    }
  }

  /** Every id any of the passes took. */
  function AllTaken(passes: seq<seq<Value>>): (s: set<Value>)
    ensures forall x :: x in s <==> exists j | 0 <= j < |passes| :: x in passes[j]
  {
    if passes == [] then {}
    else
      var rest := AllTaken(passes[1..]);
      assert forall j | 0 <= j < |passes[1..]| :: passes[1..][j] == passes[j + 1];
      Elements(passes[0]) + rest
  }

  /** The set a job leaves behind is what it started with and every id any
   *  pass took. */
  lemma {:induction false} JobRecordsEveryTaken(processed: set<Value>, listings: seq<Option<string>>, parse: Parser,
                                                analyze: Analyzer, update: Updater)
    ensures var r := Job(processed, listings, parse, analyze, update);
      r.0 == processed + AllTaken(r.1)
    decreases |listings|
  {
    if listings != [] {
      var ids := Iteration(processed, listings[0], parse, analyze, update);
      var after := processed + Elements(ids);
      var next := Job(after, listings[1..], parse, analyze, update);
      var r := Job(processed, listings, parse, analyze, update);
      assert r == (next.0, [ids] + next.1);
      JobRecordsEveryTaken(after, listings[1..], parse, analyze, update);
      assert r.1[0] == ids && r.1[1..] == next.1;
      assert AllTaken(r.1) == Elements(ids) + AllTaken(next.1);
    }
  }

  /** `processed_tickets`, with the two operations that use it. */
  class TicketBook {
    var processed: set<Value>

    constructor ()
      ensures processed == {}
    {
      processed := {};
    }

    /** `process_ticket(session, ticket)`: true, with the `sys_id` recorded,
     *  exactly when the ticket is taken; otherwise false and nothing changes. */
    method ProcessTicket(ticket: Value, analyze: Analyzer, update: Updater) returns (taken: bool)
      requires ticket.Obj?
      modifies this
      ensures taken <==> Takes(ticket, analyze(ticket), UpdateFor(ticket, analyze, update))
      ensures processed == if taken then old(processed) + {GetOr(ticket.fields, "sys_id", Null)} else old(processed)
    {
      var analysis := analyze(ticket);
      taken := false;
      if Truthy(analysis) {
        var sysId := GetOr(ticket.fields, "sys_id", Null);
        if Truthy(sysId) {
          var result := update(sysId, analysis);
          if Truthy(result) {
            processed := processed + {sysId};
            taken := true;
          }
        }
      }
    }

    /** One pass of the polling loop: the ids it takes, in order, all added to
     *  the set. */
    method RunIteration(listing: Option<string>, parse: Parser, analyze: Analyzer, update: Updater) returns (ids: seq<Value>)
      modifies this
      ensures ids == Iteration(old(processed), listing, parse, analyze, update)
      ensures processed == old(processed) + Elements(ids)
    {
      ids := [];
      var tickets := Listed(listing, parse);
      if tickets.None? {
        return;
      }
      var unseen := NewTickets(tickets.value, processed);
      if unseen.Raised? {
        return;
      }
      NewTicketsMembers(tickets.value, processed);
      ids := ProcessAll(unseen.value, analyze, update);
    }

    /** The polling loop over the listings it fetched, one pass each. */
    method Poll(listings: seq<Option<string>>, parse: Parser, analyze: Analyzer, update: Updater) returns (passes: seq<seq<Value>>)
      modifies this
      ensures (processed, passes) == Job(old(processed), listings, parse, analyze, update)
    {
      passes := [];
      assert listings[0..] == listings && [] + Job(processed, listings, parse, analyze, update).1 == Job(processed, listings, parse, analyze, update).1;
      for i := 0 to |listings|
        invariant Job(old(processed), listings, parse, analyze, update)
          == (Job(processed, listings[i..], parse, analyze, update).0, passes + Job(processed, listings[i..], parse, analyze, update).1)
      {
        assert listings[i..][0] == listings[i] && listings[i..][1..] == listings[i + 1..];
        ghost var next := Job(processed + Elements(Iteration(processed, listings[i], parse, analyze, update)), listings[i + 1..], parse, analyze, update);
        var ids := RunIteration(listings[i], parse, analyze, update);
        assert passes + ([ids] + next.1) == (passes + [ids]) + next.1;
        passes := passes + [ids];
      }
      assert listings[|listings|..] == [] && passes + [] == passes;
    }

    /** The `for ticket in new_tickets` loop. */
    method ProcessAll(todo: seq<Value>, analyze: Analyzer, update: Updater) returns (ids: seq<Value>)
      requires forall t | t in todo :: t.Obj?
      modifies this
      ensures ids == Taken(todo, analyze, update)
      ensures processed == old(processed) + Elements(ids)
    {
      ids := [];
      ghost var whole := Taken(todo, analyze, update);
      assert todo[0..] == todo && [] + whole == whole;
      for i := 0 to |todo|
        invariant ids + Taken(todo[i..], analyze, update) == whole
        invariant processed == old(processed) + Elements(ids)
      {
        var t := todo[i];
        ghost var before := ids;
        var taken := ProcessTicket(t, analyze, update);
        if taken {
          var id := GetOr(t.fields, "sys_id", Null);
          ids := ids + [id];
          TakeStep(todo, i, analyze, update, before, whole);
          ElementsGrow(before, id);
        } else {
          PassStep(todo, i, analyze, update, before, whole);
        }
      }
      assert todo[|todo|..] == [] && ids + [] == ids;
    }
  }
}
