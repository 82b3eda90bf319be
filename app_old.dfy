/** app_old.py: the first version of the relay, with the on-prem request queue
 *  held in two module globals and served over HTTP, and a call monitor that
 *  answers `get_device_vlans` through that queue and `ask_claude` through the
 *  network agent. The two globals behave as one `OnPremBridge.Bridge`. */
module AppOld {
  import opened Values
  import opened OnPremBridge
  import ResultSender
  import CallMonitor

  /** The JSON body of a queued request. The uuid text of the source is the
   *  decimal text of the counter here. */
  function RequestJson(r: Request): Value {
    Obj([("id", Str(NatToString(r.id))), ("tool", Str(r.tool)), ("params", r.params), ("timestamp", Str(r.timestamp))])
  }

  /** `GET /poll` (lines 38-43): the oldest request, removed from the queue, or null. */
  method Poll(relay: Bridge) returns (body: Value)
    modifies relay
    ensures old(relay.pending) == [] ==> body == Null && relay.pending == []
    ensures old(relay.pending) != [] ==>
      body == RequestJson(old(relay.pending)[0]) && relay.pending == old(relay.pending)[1..]
    ensures relay.responses == old(relay.responses) && relay.nextId == old(relay.nextId)
  {
    var r := relay.GetPendingRequest();
    body := if r.Some? then RequestJson(r.value) else Null;
  }

  /** `POST /submit_response` (lines 45-52): store the result under its id,
   *  replacing any earlier one, and acknowledge. */
  method SubmitResponse(relay: Bridge, id: nat, result: Value) returns (ack: Value)
    modifies relay
    ensures ack == Obj([("status", Str("received"))])
    ensures relay.responses == old(relay.responses)[id := result]
    ensures relay.pending == old(relay.pending) && relay.nextId == old(relay.nextId)
  {
    relay.SubmitResponse(id, result);
    ack := Obj([("status", Str("received"))]);
  }

  /** Whether the monitor can ask the network agent. `NetworkAgent`
   *  (network_agent.py) defines no `ask_claude_with_context`, so as written the
   *  call at line 187 raises AttributeError; `Answers` is the method the branch
   *  evidently means, given as what it returns or raises for a question. */
  datatype ClaudeBranch = MissingMethod | Answers(ask: Value -> Outcome<string>)

  const MissingMethodError: string := "'NetworkAgent' object has no attribute 'ask_claude_with_context'"

  /** A socket message, with the clock reading when it is handled and the
   *  poller's calls during each round of the wait it may start. */
  datatype Incoming = Incoming(raw: string, now: string, poller: seq<seq<PollerAction>>)

  datatype StepResult = StepResult(state: State, sent: seq<Value>, failure: Option<string>)

  const TimedOutText: string := "Sorry, request timed out"

  /** The output text of the VLAN branch for the outcome of the wait (lines 159-166). */
  function VlanText(w: WaitResult): string {
    if w.Arrived? then "VLANs: " + JsonDumps(w.result) else TimedOutText
  }

  /** The body of the `async for` loop (lines 130-199) for one message. */
  function Step(s: State, m: Incoming, parse: Parser, claude: ClaudeBranch): StepResult {
    match parse(m.raw)
    case Raised(e) => StepResult(s, [], Some(e))
    case Returned(event) =>
      if !event.Obj? then StepResult(s, [], Some(NoGetMessage(event)))
      else if GetOr(event.fields, "type", Str("")) != Str(CallMonitor.ArgumentsDone) then StepResult(s, [], None)
      else
        var name := GetOr(event.fields, "name", Str(""));
        var callId := GetOr(event.fields, "call_id", Null);
        match Loads(parse, GetOr(event.fields, "arguments", Str("{}")))
        case Raised(e) => StepResult(s, [], Some(e))
        case Returned(arguments) =>
          if name == Str("get_device_vlans") then
            if !arguments.Obj? then StepResult(s, [], Some(NoGetMessage(arguments)))
            else
              var params := Obj([("device_name", GetOr(arguments.fields, "device_name", Str("")))]);
              var (s1, id) := Enqueue(s, "get_device_vlans", params, m.now);
              var (s2, w) := Wait(s1, id, m.poller, 0);
              StepResult(s2, [ResultSender.Envelope(callId, VlanText(w))], None)
          else if name == Str("ask_claude") then
            if !arguments.Obj? then StepResult(s, [], Some(NoGetMessage(arguments)))
            else
              match claude
              case MissingMethod => StepResult(s, [], Some(MissingMethodError))
              case Answers(ask) =>
                match ask(GetOr(arguments.fields, "question", Str("")))
                case Raised(e) => StepResult(s, [], Some(e))
                case Returned(answer) => StepResult(s, [ResultSender.Envelope(callId, answer)], None)
          else StepResult(s, [], None)
  }

  /** `monitor_call` over the messages the socket delivers: the final queue
   *  state, the frames sent, and how the loop ended. */
  function Monitor(s: State, messages: seq<Incoming>, parse: Parser, claude: ClaudeBranch): (State, seq<Value>, CallMonitor.Ending)
    decreases |messages|
  {
    if messages == [] then (s, [], CallMonitor.Closed)
    else
      var r := Step(s, messages[0], parse, claude);
      match r.failure
      case Some(e) => (r.state, r.sent, CallMonitor.Failed(e))
      case None =>
        var (t, rest, ending) := Monitor(r.state, messages[1..], parse, claude);
        (t, r.sent + rest, ending)
  }

  /** `monitor_call(call_id)` (lines 118-204), run against the shared queue. */
  method MonitorCall(relay: Bridge, messages: seq<Incoming>, parse: Parser, claude: ClaudeBranch)
    returns (sent: seq<Value>, ending: CallMonitor.Ending)
    modifies relay
    ensures (relay.Snapshot(), sent, ending) == Monitor(old(relay.Snapshot()), messages, parse, claude)
  {
    sent := [];
    var i := 0;
    ghost var whole := Monitor(relay.Snapshot(), messages, parse, claude);
    assert messages[0..] == messages && [] + whole.1 == whole.1;
    while i < |messages|
      invariant 0 <= i <= |messages|
      invariant whole == Monitor(old(relay.Snapshot()), messages, parse, claude)
      invariant Resumes(relay.Snapshot(), messages[i..], parse, claude, sent, whole)
    {
      ghost var before := relay.Snapshot();
      ghost var rest := messages[i..];
      assert rest[0] == messages[i] && rest[1..] == messages[i + 1..];
      var out, failure := HandleMessage(relay, messages[i], parse, claude);
      if failure.Some? {
        StopStep(before, rest, parse, claude, sent, whole);
        sent := sent + out;
        ending := CallMonitor.Failed(failure.value);
        return;
      }
      GoOnStep(before, rest, parse, claude, sent, whole);
      sent := sent + out;
      i := i + 1;
    }
    Finished(relay.Snapshot(), messages[i..], parse, claude, sent, whole);
    ending := CallMonitor.Closed;
  }

  /** Where the loop stands: from state `s`, the messages `rest` still to come,
   *  after the frames `sent`, lead to the outcome `whole` of the whole call. */
  ghost predicate Resumes(s: State, rest: seq<Incoming>, parse: Parser, claude: ClaudeBranch,
                          sent: seq<Value>, whole: (State, seq<Value>, CallMonitor.Ending))
  {
    var m := Monitor(s, rest, parse, claude);
    whole == (m.0, sent + m.1, m.2)
  }

  lemma GoOnStep(s: State, rest: seq<Incoming>, parse: Parser, claude: ClaudeBranch,
                 sent: seq<Value>, whole: (State, seq<Value>, CallMonitor.Ending))
    requires rest != [] && Step(s, rest[0], parse, claude).failure.None?
    requires Resumes(s, rest, parse, claude, sent, whole)
    ensures Resumes(Step(s, rest[0], parse, claude).state, rest[1..], parse, claude,
                    sent + Step(s, rest[0], parse, claude).sent, whole)
  {
    var r := Step(s, rest[0], parse, claude);
    var m := Monitor(r.state, rest[1..], parse, claude);
    assert Monitor(s, rest, parse, claude) == (m.0, r.sent + m.1, m.2);
    assert sent + (r.sent + m.1) == (sent + r.sent) + m.1;
  }

  lemma StopStep(s: State, rest: seq<Incoming>, parse: Parser, claude: ClaudeBranch,
                 sent: seq<Value>, whole: (State, seq<Value>, CallMonitor.Ending))
    requires rest != [] && Step(s, rest[0], parse, claude).failure.Some?
    requires Resumes(s, rest, parse, claude, sent, whole)
    ensures var r := Step(s, rest[0], parse, claude);
      whole == (r.state, sent + r.sent, CallMonitor.Failed(r.failure.value))
  {
  }

  lemma Finished(s: State, rest: seq<Incoming>, parse: Parser, claude: ClaudeBranch,
                 sent: seq<Value>, whole: (State, seq<Value>, CallMonitor.Ending))
    requires rest == [] && Resumes(s, rest, parse, claude, sent, whole)
    ensures whole == (s, sent, CallMonitor.Closed)
  {
    assert sent + [] == sent;
  }

  /** One pass of the loop body, changing the shared queue in place. */
  method HandleMessage(relay: Bridge, m: Incoming, parse: Parser, claude: ClaudeBranch)
    returns (out: seq<Value>, failure: Option<string>)
    modifies relay
    ensures var r := Step(old(relay.Snapshot()), m, parse, claude);
      relay.Snapshot() == r.state && out == r.sent && failure == r.failure
  {
    out := [];
    failure := None;
    var event := parse(m.raw);
    if event.Raised? {
      failure := Some(event.message);
      return;
    }
    if !event.value.Obj? {
      failure := Some(NoGetMessage(event.value));
      return;
    }
    var fields := event.value.fields;
    if GetOr(fields, "type", Str("")) != Str(CallMonitor.ArgumentsDone) {
      return;
    }
    var name := GetOr(fields, "name", Str(""));
    var callId := GetOr(fields, "call_id", Null);
    var arguments := Loads(parse, GetOr(fields, "arguments", Str("{}")));
    if arguments.Raised? {
      failure := Some(arguments.message);
      return;
    }
    if name == Str("get_device_vlans") {
      if !arguments.value.Obj? {
        failure := Some(NoGetMessage(arguments.value));
        return;
      }
      var params := Obj([("device_name", GetOr(arguments.value.fields, "device_name", Str("")))]);
      var id := relay.Queue("get_device_vlans", params, m.now);
      var w := relay.AwaitResponse(id, m.poller);
      out := [ResultSender.Envelope(callId, VlanText(w))];
    } else if name == Str("ask_claude") {
      if !arguments.value.Obj? {
        failure := Some(NoGetMessage(arguments.value));
        return;
      }
      match claude {
        case MissingMethod =>
          failure := Some(MissingMethodError);
        case Answers(ask) =>
          var answer := ask(GetOr(arguments.value.fields, "question", Str("")));
          if answer.Raised? {
            failure := Some(answer.message);
          } else {
            out := [ResultSender.Envelope(callId, answer.value)];
          }
      }
    }
  }

  // ---------------------------------------------------------------------------
  // Properties of the monitor.

  /** `m` is a completed call of tool `name` whose arguments decode to a dictionary. */
  predicate IsCall(m: Incoming, parse: Parser, name: string, fields: seq<(string, Value)>,
                   arguments: seq<(string, Value)>)
  {
    && parse(m.raw) == Returned(Obj(fields))
    && GetOr(fields, "type", Str("")) == Str(CallMonitor.ArgumentsDone)
    && GetOr(fields, "name", Str("")) == Str(name)
    && Loads(parse, GetOr(fields, "arguments", Str("{}"))) == Returned(Obj(arguments))
  }

  /** The request a `get_device_vlans` call queues: the tool name, the device
   *  name (default ''), and the clock reading. */
  function VlanRequest(id: nat, arguments: seq<(string, Value)>, now: string): Request {
    Request(id, "get_device_vlans", Obj([("device_name", GetOr(arguments, "device_name", Str("")))]), now)
  }

  /** The bridge state once a `get_device_vlans` call has queued its request. */
  function VlanQueued(s: State, m: Incoming, arguments: seq<(string, Value)>): State {
    State(s.pending + [VlanRequest(s.nextId, arguments, m.now)], s.responses, s.nextId + 1)
  }

  /** Whatever the state and the poller's schedule: when no response for the
   *  new request's id is there during the 21 rounds the wait looks, the call
   *  answers "Sorry, request timed out", and the new state is exactly what the
   *  poller's rounds made of the state with the request queued at the tail. */
  lemma VlansTimesOut(s: State, m: Incoming, parse: Parser, claude: ClaudeBranch,
                      fields: seq<(string, Value)>, arguments: seq<(string, Value)>)
    requires IsCall(m, parse, "get_device_vlans", fields, arguments)
    requires forall k | 0 <= k <= TimeoutTicks + 1 ::
      s.nextId !in Replay(VlanQueued(s, m, arguments), m.poller, 0, k).responses
    ensures Step(s, m, parse, claude) == StepResult(
      Replay(VlanQueued(s, m, arguments), m.poller, 0, TimeoutTicks + 1),
      [ResultSender.Envelope(GetOr(fields, "call_id", Null), TimedOutText)], None)
  {
    var s1 := VlanQueued(s, m, arguments);
    WaitIsFirstArrival(s1, s.nextId, m.poller, 0);
  }

  /** Whatever the state and the poller's schedule: when the response for the
   *  new request's id first appears after round k of the 21, the call sends
   *  that response as "VLANs: " and its JSON, the new state is the one after
   *  those k rounds with that response taken out, and the response is one
   *  stored under the same id before the call or posted by the poller under
   *  it, never another request's. */
  lemma VlansAnswered(s: State, m: Incoming, parse: Parser, claude: ClaudeBranch,
                      fields: seq<(string, Value)>, arguments: seq<(string, Value)>, k: nat)
    requires IsCall(m, parse, "get_device_vlans", fields, arguments)
    requires k <= TimeoutTicks + 1
    requires FirstSeenAfter(VlanQueued(s, m, arguments), s.nextId, m.poller, 0, k)
    ensures var t := Replay(VlanQueued(s, m, arguments), m.poller, 0, k);
      && Step(s, m, parse, claude) == StepResult(t.(responses := t.responses - {s.nextId}),
           [ResultSender.Envelope(GetOr(fields, "call_id", Null), "VLANs: " + JsonDumps(t.responses[s.nextId]))], None)
      && s.nextId !in Step(s, m, parse, claude).state.responses
      && ((s.nextId in s.responses && s.responses[s.nextId] == t.responses[s.nextId])
          || Posted(m.poller, s.nextId, t.responses[s.nextId]))
  {
    var s1 := VlanQueued(s, m, arguments);
    var id := s.nextId;
    WaitIsFirstArrival(s1, id, m.poller, 0);
    if Wait(s1, id, m.poller, 0).1.TimedOut? {
      assert false;
    }
    var k' :| 0 <= k' <= TimeoutTicks + 1 && FirstSeenAfter(s1, id, m.poller, 0, k')
      && var t := Replay(s1, m.poller, 0, k');
         Wait(s1, id, m.poller, 0) == (t.(responses := t.responses - {id}), Arrived(t.responses[id]));
    if k' < k {
      assert false;
    } else if k < k' {
      assert false;
    }
    WaitNoCrossTalk(s1, id, m.poller);
  }

  /** Calls of any tool but the two the monitor knows produce nothing and
   *  change nothing. */
  lemma OtherToolsIgnored(s: State, m: Incoming, parse: Parser, claude: ClaudeBranch, name: string,
                          fields: seq<(string, Value)>, arguments: seq<(string, Value)>)
    requires IsCall(m, parse, name, fields, arguments)
    requires name != "get_device_vlans" && name != "ask_claude"
    ensures Step(s, m, parse, claude) == StepResult(s, [], None)
  {
  }

  /** Every frame the monitor sends is a `function_call_output` item, and no
   *  message leads to more than one. */
  lemma {:induction false} FramesAreResults(s: State, messages: seq<Incoming>, parse: Parser, claude: ClaudeBranch)
    ensures var sent := Monitor(s, messages, parse, claude).1;
      |sent| <= |messages| && forall k | 0 <= k < |sent| :: ResultSender.IsResult(sent[k])
    decreases |messages|
  {
    if messages != [] {
      var r := Step(s, messages[0], parse, claude);
      FramesAreResults(r.state, messages[1..], parse, claude);
    }
  }

  /** As written: an `ask_claude` call raises AttributeError, which ends the
   *  monitor; no later message of the call is handled, not even a VLAN query. */
  lemma AskClaudeEndsMonitoring(s: State, m: Incoming, rest: seq<Incoming>, parse: Parser,
                                fields: seq<(string, Value)>, arguments: seq<(string, Value)>)
    requires IsCall(m, parse, "ask_claude", fields, arguments)
    ensures Monitor(s, [m] + rest, parse, MissingMethod) == (s, [], CallMonitor.Failed(MissingMethodError))
  {
    assert ([m] + rest)[0] == m;
  }

  /** With the method the branch means: the answer is sent for the call's own
   *  `call_id`, and the monitor goes on with the next message. */
  lemma AskClaudeAnswered(s: State, m: Incoming, rest: seq<Incoming>, parse: Parser,
                          fields: seq<(string, Value)>, arguments: seq<(string, Value)>,
                          ask: Value -> Outcome<string>, answer: string)
    requires IsCall(m, parse, "ask_claude", fields, arguments)
    requires ask(GetOr(arguments, "question", Str(""))) == Returned(answer)
    ensures var (t, sent, ending) := Monitor(s, rest, parse, Answers(ask));
      Monitor(s, [m] + rest, parse, Answers(ask)) ==
        (t, [ResultSender.Envelope(GetOr(fields, "call_id", Null), answer)] + sent, ending)
  {
    assert ([m] + rest)[0] == m && ([m] + rest)[1..] == rest;
  }
}
