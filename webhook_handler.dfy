/** models/voice/webhook_handler.py: the decision taken for each webhook
 *  event. Accepting a call and starting a monitor thread for it are effects;
 *  here they are the actions the handler records, in the order it takes them. */
module Webhook {
  const IncomingCall: string := "realtime.call.incoming"

  /** The two attributes `handle` reads: `event.type` and `event.data.call_id`. */
  datatype Event = Event(kind: string, callId: string)

  datatype Action = Accept(callId: string) | StartMonitor(callId: string)

  /** `handle(event)` (lines 11-27), with `call_acceptor.accept` as `accept`.
   *  It reports an event as handled exactly when it is an incoming call,
   *  whether or not the call was accepted; it asks to accept only that call,
   *  before anything else, and monitors it only when the acceptor agreed. */
  function Handle(event: Event, accept: string -> bool): (r: (bool, seq<Action>))
    ensures r.0 <==> event.kind == IncomingCall
    ensures |r.1| <= 2 && forall a | a in r.1 :: a.callId == event.callId
    ensures Accept(event.callId) in r.1 <==> event.kind == IncomingCall
    ensures StartMonitor(event.callId) in r.1 <==> event.kind == IncomingCall && accept(event.callId)
    ensures r.1 != [] ==> r.1[0] == Accept(event.callId)
  {
    if event.kind == IncomingCall then
      (true, [Accept(event.callId)] + if accept(event.callId) then [StartMonitor(event.callId)] else [])
    else (false, [])
  }

  /** The actions for a sequence of events, one event after another. */
  function HandleAll(events: seq<Event>, accept: string -> bool): seq<Action> {
    if events == [] then [] else Handle(events[0], accept).1 + HandleAll(events[1..], accept)
  }

  /** The calls a sequence of actions starts monitors for, in order. */
  function Monitored(actions: seq<Action>): seq<string> {
    if actions == [] then []
    else (if actions[0].StartMonitor? then [actions[0].callId] else []) + Monitored(actions[1..])
  }

  /** The incoming calls among the events that the acceptor took, in order. */
  function AcceptedCalls(events: seq<Event>, accept: string -> bool): seq<string> {
    if events == [] then []
    else
      var first := if events[0].kind == IncomingCall && accept(events[0].callId) then [events[0].callId] else [];
      first + AcceptedCalls(events[1..], accept)
  }

  lemma {:induction false} MonitoredAppend(xs: seq<Action>, ys: seq<Action>)
    ensures Monitored(xs + ys) == Monitored(xs) + Monitored(ys)
  {
    if xs == [] {
      assert xs + ys == ys;
    } else {
      assert (xs + ys)[0] == xs[0] && (xs + ys)[1..] == xs[1..] + ys;
      MonitoredAppend(xs[1..], ys);
    }
  }

  /** Over a stream of webhooks, monitors are started for exactly the incoming
   *  calls that were accepted, once each time, in the order they came. */
  lemma {:induction false} MonitorsExactlyAcceptedCalls(events: seq<Event>, accept: string -> bool)
    ensures Monitored(HandleAll(events, accept)) == AcceptedCalls(events, accept)
  {
    if events != [] {
      MonitorsExactlyAcceptedCalls(events[1..], accept);
      MonitoredAppend(Handle(events[0], accept).1, HandleAll(events[1..], accept));
      var a := Handle(events[0], accept).1;
      if events[0].kind == IncomingCall {
        assert a[0] == Accept(events[0].callId) && a[1..] == if accept(events[0].callId) then [StartMonitor(events[0].callId)] else [];
        assert Monitored(a) == if accept(events[0].callId) then [events[0].callId] else [];
      }
    }
  }
}
