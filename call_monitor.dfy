/** models/voice/call_monitor.py: the loop that watches a realtime call's
 *  socket for completed function calls, routes each one and sends its result
 *  back. The socket's messages are an input sequence; the messages sent back
 *  are the output. */
module CallMonitor {
  import opened Values
  import ResultSender
  import Tools
  import Documentation
  import VoiceRouting

  const ArgumentsDone: string := "response.function_call_arguments.done"

  /** How `monitor` ends: the socket closed, or an exception (caught at
   *  lines 30-35) stopped the loop. */
  datatype Ending = Closed | Failed(message: string)

  /** `await self.tool_router.route(name, arguments)`: its result, or what it raised. */
  type Router = (Value, Value) -> Outcome<Value>

  /** The voice router of models/voice/tool_call_router.py together with the
   *  backends it calls. */
  function VoiceRouter(router: VoiceRouting.ToolCallRouter, backend: Tools.BackendCall -> Outcome<Value>,
                       search: Documentation.Search): Router
  {
    (name, arguments) => Tools.Perform(router.Route(name, arguments), backend, search)
  }

  /** The result `_handle_tool_call` sends: the router's result, or
   *  `{"error": str(e)}` for an exception raised while decoding the arguments
   *  (missing arguments decode as "{}") or while routing. */
  function ToolCallResult(event: seq<(string, Value)>, parse: Parser, route: Router): (r: Value)
    ensures Loads(parse, GetOr(event, "arguments", Str("{}"))).Raised? ==>
      r == ErrorDict(Loads(parse, GetOr(event, "arguments", Str("{}"))).message)
    ensures Lookup(event, "arguments").None? && parse("{}") == Returned(Obj([])) ==>
      r == match route(GetOr(event, "name", Null), Obj([]))
           case Returned(v) => v
           case Raised(e) => ErrorDict(e)
  {
    match Loads(parse, GetOr(event, "arguments", Str("{}")))
    case Raised(e) => ErrorDict(e)
    case Returned(arguments) =>
      match route(GetOr(event, "name", Null), arguments)
      case Returned(v) => v
      case Raised(e) => ErrorDict(e)
  }

  /** `_handle_tool_call(ws, event)` (lines 37-55): exactly one message, for
   *  the event's own `call_id`, whether the call succeeded or not. */
  function HandleToolCall(event: seq<(string, Value)>, parse: Parser, route: Router): (m: Value)
    ensures ResultSender.IsResultFor(m, GetOr(event, "call_id", Null))
    ensures m == ResultSender.Send(GetOr(event, "call_id", Null), ToolCallResult(event, parse, route))
  {
    ResultSender.Send(GetOr(event, "call_id", Null), ToolCallResult(event, parse, route))
  }

  /** What one received message leads to. */
  datatype Step = Reply(reply: Value) | Skip | Stop(error: string)

  /** Lines 24-28: decode the message, and handle it if it is a completed call.
   *  A message that is not JSON, or not an object, raises and stops the loop. */
  function StepOf(raw: string, parse: Parser, route: Router): Step {
    match parse(raw)
    case Raised(e) => Stop(e)
    case Returned(event) =>
      if !event.Obj? then Stop(NoGetMessage(event))
      else if GetOr(event.fields, "type", Null) == Str(ArgumentsDone) then Reply(HandleToolCall(event.fields, parse, route))
      else Skip
  }

  /** The messages `monitor` sends for the socket's messages, and how it ends. */
  function Monitor(messages: seq<string>, parse: Parser, route: Router): (seq<Value>, Ending)
    decreases |messages|
  {
    if messages == [] then ([], Closed)
    else
      match StepOf(messages[0], parse, route)
      case Stop(e) => ([], Failed(e))
      case Skip => Monitor(messages[1..], parse, route)
      case Reply(m) => var (rest, ending) := Monitor(messages[1..], parse, route); ([m] + rest, ending)
  }

  /** `monitor(call_id)` (lines 13-35) over the messages the socket delivers. */
  method MonitorCall(messages: seq<string>, parse: Parser, route: Router) returns (sent: seq<Value>, ending: Ending)
    ensures (sent, ending) == Monitor(messages, parse, route)
  {
    sent := [];
    var i := 0;
    assert messages[0..] == messages;
    while i < |messages|
      invariant 0 <= i <= |messages|
      invariant sent + Monitor(messages[i..], parse, route).0 == Monitor(messages, parse, route).0
      invariant Monitor(messages[i..], parse, route).1 == Monitor(messages, parse, route).1
    {
      assert messages[i..][1..] == messages[i + 1..] && messages[i..][0] == messages[i];
      var event := parse(messages[i]);
      if event.Raised? {
        assert StepOf(messages[i], parse, route) == Stop(event.message);
        assert Monitor(messages[i..], parse, route) == ([], Failed(event.message));
        assert sent + [] == sent;
        return sent, Failed(event.message);
      }
      if !event.value.Obj? {
        assert Monitor(messages[i..], parse, route) == ([], Failed(NoGetMessage(event.value)));
        assert sent + [] == sent;
        return sent, Failed(NoGetMessage(event.value));
      }
      if GetOr(event.value.fields, "type", Null) == Str(ArgumentsDone) {
        var reply := HandleToolCall(event.value.fields, parse, route);
        assert sent + Monitor(messages[i..], parse, route).0 == (sent + [reply]) + Monitor(messages[i + 1..], parse, route).0;
        sent := sent + [reply];
      }
      i := i + 1;
    }
    assert messages[i..] == [];
    assert sent + [] == sent;
    return sent, Closed;
  }

  // ---------------------------------------------------------------------------
  // The monitor as a filter followed by a map.

  /** The completed-call events among decoded events, in arrival order. */
  function ToolCalls(events: seq<Value>): seq<seq<(string, Value)>> {
    if events == [] then []
    else if events[0].Obj? && GetOr(events[0].fields, "type", Null) == Str(ArgumentsDone) then
      [events[0].fields] + ToolCalls(events[1..])
    else ToolCalls(events[1..])
  }

  function Replies(calls: seq<seq<(string, Value)>>, parse: Parser, route: Router): (rs: seq<Value>)
    ensures |rs| == |calls|
    ensures forall k | 0 <= k < |calls| :: rs[k] == HandleToolCall(calls[k], parse, route)
  {
    if calls == [] then [] else [HandleToolCall(calls[0], parse, route)] + Replies(calls[1..], parse, route)
  }

  /** When every message decodes to an object, the monitor runs until the
   *  socket closes and sends one reply per completed call, in arrival order,
   *  each for that call's own `call_id`; every other event is ignored. */
  lemma {:induction false} OneReplyPerToolCall(messages: seq<string>, events: seq<Value>, parse: Parser, route: Router)
    requires |events| == |messages|
    requires forall i | 0 <= i < |messages| :: parse(messages[i]) == Returned(events[i]) && events[i].Obj?
    ensures Monitor(messages, parse, route) == (Replies(ToolCalls(events), parse, route), Closed)
    ensures var sent := Monitor(messages, parse, route).0;
      forall k | 0 <= k < |sent| :: ResultSender.IsResultFor(sent[k], GetOr(ToolCalls(events)[k], "call_id", Null))
  {
    if messages != [] {
      OneReplyPerToolCall(messages[1..], events[1..], parse, route);
      var calls := ToolCalls(events);
      if calls != [] && events[0].Obj? && GetOr(events[0].fields, "type", Null) == Str(ArgumentsDone) {
        assert calls[1..] == ToolCalls(events[1..]);
        assert Replies(calls, parse, route) == [HandleToolCall(calls[0], parse, route)] + Replies(calls[1..], parse, route);
      }
    }
  }

  /** The first message that fails stops the monitor: nothing after it is read,
   *  and what was sent before it stands. */
  lemma {:induction false} StopsAtFirstFailure(messages: seq<string>, j: nat, parse: Parser, route: Router)
    requires j < |messages| && StepOf(messages[j], parse, route).Stop?
    ensures Monitor(messages, parse, route) == Monitor(messages[..j + 1], parse, route)
    ensures Monitor(messages, parse, route).1.Failed? || exists i | 0 <= i < j :: StepOf(messages[i], parse, route).Stop?
  {
    if j > 0 {
      assert messages[..j + 1][1..] == messages[1..][..j];
      assert messages[1..][j - 1] == messages[j];
      StopsAtFirstFailure(messages[1..], j - 1, parse, route);
      if StepOf(messages[0], parse, route).Stop? {
        assert exists i | 0 <= i < j :: StepOf(messages[i], parse, route).Stop?;
      } else if !Monitor(messages, parse, route).1.Failed? {
        var i :| 0 <= i < j - 1 && StepOf(messages[1..][i], parse, route).Stop?;
        assert messages[1..][i] == messages[i + 1];
      }
    } else {
      assert messages[..1][0] == messages[0];
    }
  }
}
