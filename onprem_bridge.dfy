/** The polled on-prem RPC bridge (models/onprem_bridge.py; app_old.py keeps the
 *  same queue and map as module globals). A dispatcher queues a request and
 *  sleeps in half-second rounds until a response for its id appears or ten
 *  seconds have passed; the on-prem poller, which cannot be called, takes the
 *  oldest request and later posts the result under the request's id.
 *
 *  The state is given twice: as the value `State` with a function per
 *  operation, on which the properties are proved, and as the class `Bridge`
 *  whose methods update the fields in place and are proved to follow those
 *  functions. Request ids (uuid4 in the source) come from a counter. What the
 *  poller does while a dispatcher sleeps is an input: one list of poller calls
 *  per round. */
module OnPremBridge {
  import opened Values

  /** The wait gives up once more than 10 seconds have passed, sleeping 0.5 s
   *  per round; time is counted in rounds, so it gives up after round 20. */
  const TimeoutTicks: nat := 20

  /** `{"id", "tool", "params", "timestamp"}`; the timestamp is opaque text. */
  datatype Request = Request(id: nat, tool: string, params: Value, timestamp: string)

  /** How a wait ends: the response for its id, or the timeout. */
  datatype WaitResult = Arrived(result: Value) | TimedOut

  /** One call the poller makes: take the oldest request, or post a result. */
  datatype PollerAction = Poll | Submit(id: nat, result: Value)

  /** The pending queue, the response map and the id counter. */
  datatype State = State(pending: seq<Request>, responses: map<nat, Value>, nextId: nat)

  /** What `execute_tool` returns on timeout. */
  const TimeoutError: Value := ErrorDict("Request timed out")

  /** Every queued id was issued by the counter, and the queue is ordered by
   *  id, that is, by creation. */
  ghost predicate WellFormed(s: State) {
    && (forall i | 0 <= i < |s.pending| :: s.pending[i].id < s.nextId)
    && (forall i, j | 0 <= i < j < |s.pending| :: s.pending[i].id < s.pending[j].id)
  }

  function Initial(): (s: State)
    ensures s.pending == [] && s.responses == map[] && WellFormed(s)
  {
    State([], map[], 0)
  }

  /** `get_pending_request` (lines 12-16): pop the oldest request, or None. */
  function Dequeue(s: State): (State, Option<Request>) {
    if s.pending == [] then (s, None) else (s.(pending := s.pending[1..]), Some(s.pending[0]))
  }

  /** `submit_response` (lines 18-20): store the result, replacing any earlier one. */
  function Store(s: State, id: nat, result: Value): State {
    s.(responses := s.responses[id := result])
  }

  /** Lines 25-34 of `execute_tool`: a fresh id and the request queued at the tail. */
  function Enqueue(s: State, tool: string, params: Value, timestamp: string): (State, nat) {
    (State(s.pending + [Request(s.nextId, tool, params, timestamp)], s.responses, s.nextId + 1), s.nextId)
  }

  function Act(s: State, a: PollerAction): State {
    match a
    case Poll => Dequeue(s).0
    case Submit(id, r) => Store(s, id, r)
  }

  /** The poller's calls during one round, in order. */
  function ActAll(s: State, actions: seq<PollerAction>): State
    decreases |actions|
  {
    if actions == [] then s else ActAll(Act(s, actions[0]), actions[1..])
  }

  /** The poller's calls during round `t` (none once the schedule runs out). */
  function Round(schedule: seq<seq<PollerAction>>, t: nat): seq<PollerAction> {
    if t < |schedule| then schedule[t] else []
  }

  /** The loop at lines 41-47, entered at round `elapsed`: it looks for its id
   *  first, then at the clock, then sleeps while the poller acts. */
  function Wait(s: State, id: nat, schedule: seq<seq<PollerAction>>, elapsed: nat): (State, WaitResult)
    decreases TimeoutTicks + 1 - elapsed
  {
    if id in s.responses then (s.(responses := s.responses - {id}), Arrived(s.responses[id]))
    else if elapsed > TimeoutTicks then (s, TimedOut)
    else Wait(ActAll(s, Round(schedule, elapsed)), id, schedule, elapsed + 1)
  }

  /** `execute_tool` (lines 23-47). */
  function Execute(s: State, tool: string, params: Value, timestamp: string,
                   schedule: seq<seq<PollerAction>>): (State, Value)
  {
    var (s1, id) := Enqueue(s, tool, params, timestamp);
    var (s2, w) := Wait(s1, id, schedule, 0);
    (s2, if w.Arrived? then w.result else TimeoutError)
  }

  // ---------------------------------------------------------------------------
  // An independent account of the wait: the state after k rounds of the poller,
  // and the first round at which the id has a response.

  /** The state after the poller's rounds `from`, ..., `from + k - 1`. */
  function Replay(s: State, schedule: seq<seq<PollerAction>>, from: nat, k: nat): State
    decreases k
  {
    if k == 0 then s else Replay(ActAll(s, Round(schedule, from)), schedule, from + 1, k - 1)
  }

  /** The response for `id` is there after k rounds and was not there before. */
  ghost predicate FirstSeenAfter(s: State, id: nat, schedule: seq<seq<PollerAction>>, from: nat, k: nat) {
    && id in Replay(s, schedule, from, k).responses
    && forall j | 0 <= j < k :: id !in Replay(s, schedule, from, j).responses
  }

  /** The wait takes the response exactly when one is there after at most
   *  21 rounds, and takes it at the first round at which it is there, removing
   *  only that key; otherwise it times out having changed nothing itself. */
  lemma {:induction false} WaitIsFirstArrival(s: State, id: nat, schedule: seq<seq<PollerAction>>, e: nat)
    requires e <= TimeoutTicks + 1
    ensures Wait(s, id, schedule, e).1.TimedOut? ==>
      && (forall k | 0 <= k <= TimeoutTicks + 1 - e :: id !in Replay(s, schedule, e, k).responses)
      && Wait(s, id, schedule, e).0 == Replay(s, schedule, e, TimeoutTicks + 1 - e)
    ensures Wait(s, id, schedule, e).1.Arrived? ==>
      exists k | 0 <= k <= TimeoutTicks + 1 - e ::
        && FirstSeenAfter(s, id, schedule, e, k)
        && var t := Replay(s, schedule, e, k);
           Wait(s, id, schedule, e) == (t.(responses := t.responses - {id}), Arrived(t.responses[id]))
    decreases TimeoutTicks + 1 - e
  {
    if id in s.responses {
      assert FirstSeenAfter(s, id, schedule, e, 0);
    } else if e > TimeoutTicks {
      assert Replay(s, schedule, e, 0) == s;
    } else {
      var s' := ActAll(s, Round(schedule, e));
      WaitIsFirstArrival(s', id, schedule, e + 1);
      forall k | 1 <= k <= TimeoutTicks + 1 - e
        ensures Replay(s, schedule, e, k) == Replay(s', schedule, e + 1, k - 1)
      {
      }
      if Wait(s, id, schedule, e).1.Arrived? {
        var k :| 0 <= k <= TimeoutTicks + 1 - (e + 1) && FirstSeenAfter(s', id, schedule, e + 1, k)
          && var t := Replay(s', schedule, e + 1, k);
             Wait(s', id, schedule, e + 1) == (t.(responses := t.responses - {id}), Arrived(t.responses[id]));
        assert Replay(s, schedule, e, k + 1) == Replay(s', schedule, e + 1, k);
        forall j | 0 <= j < k + 1 ensures id !in Replay(s, schedule, e, j).responses {
          if j > 0 {
            assert Replay(s, schedule, e, j) == Replay(s', schedule, e + 1, j - 1);
          }
        }
        assert FirstSeenAfter(s, id, schedule, e, k + 1);
      } else {
        forall k | 0 <= k <= TimeoutTicks + 1 - e ensures id !in Replay(s, schedule, e, k).responses {
          if k > 0 {
            assert Replay(s, schedule, e, k) == Replay(s', schedule, e + 1, k - 1);
          }
        }
      }
    }
  }

  // ---------------------------------------------------------------------------
  // No cross-talk: a response reaches only the dispatcher waiting for its id.

  /** The poller posts `result` under `id` somewhere in the schedule. */
  ghost predicate Posted(schedule: seq<seq<PollerAction>>, id: nat, result: Value) {
    exists t, j | 0 <= t < |schedule| && 0 <= j < |schedule[t]| :: schedule[t][j] == Submit(id, result)
  }

  /** A response present after the poller's rounds was there at the start or
   *  was posted by the poller under the same id. */
  lemma {:induction false} ActAllOrigin(s: State, actions: seq<PollerAction>, id: nat)
    requires id in ActAll(s, actions).responses
    ensures || (id in s.responses && ActAll(s, actions).responses[id] == s.responses[id])
            || exists j | 0 <= j < |actions| :: actions[j] == Submit(id, ActAll(s, actions).responses[id])
    decreases |actions|
  {
    if actions != [] {
      var s1 := Act(s, actions[0]);
      ActAllOrigin(s1, actions[1..], id);
      var v := ActAll(s, actions).responses[id];
      if exists j | 0 <= j < |actions[1..]| :: actions[1..][j] == Submit(id, v) {
        var j :| 0 <= j < |actions[1..]| && actions[1..][j] == Submit(id, v);
        assert actions[j + 1] == Submit(id, v);
      } else if actions[0] == Submit(id, v) {
      } else {
        assert id in s1.responses && s1.responses[id] == v;
      }
    }
  }

  lemma {:induction false} ReplayOrigin(s: State, schedule: seq<seq<PollerAction>>, from: nat, k: nat, id: nat)
    requires id in Replay(s, schedule, from, k).responses
    ensures || (id in s.responses && Replay(s, schedule, from, k).responses[id] == s.responses[id])
            || Posted(schedule, id, Replay(s, schedule, from, k).responses[id])
    decreases k
  {
    if k > 0 {
      var s1 := ActAll(s, Round(schedule, from));
      ReplayOrigin(s1, schedule, from + 1, k - 1, id);
      var v := Replay(s, schedule, from, k).responses[id];
      if id in s1.responses && s1.responses[id] == v {
        ActAllOrigin(s, Round(schedule, from), id);
        if exists j | 0 <= j < |Round(schedule, from)| :: Round(schedule, from)[j] == Submit(id, v) {
          var j :| 0 <= j < |Round(schedule, from)| && Round(schedule, from)[j] == Submit(id, v);
          assert from < |schedule| && schedule[from][j] == Submit(id, v);
        }
      }
    }
  }

  /** A dispatcher that is handed a response is handed one that was stored for
   *  its own id, before the wait or by the poller during it. */
  lemma WaitNoCrossTalk(s: State, id: nat, schedule: seq<seq<PollerAction>>)
    requires Wait(s, id, schedule, 0).1.Arrived?
    ensures var v := Wait(s, id, schedule, 0).1.result;
      (id in s.responses && s.responses[id] == v) || Posted(schedule, id, v)
  {
    WaitIsFirstArrival(s, id, schedule, 0);
    var k :| 0 <= k <= TimeoutTicks + 1 && FirstSeenAfter(s, id, schedule, 0, k)
      && var t := Replay(s, schedule, 0, k);
         Wait(s, id, schedule, 0) == (t.(responses := t.responses - {id}), Arrived(t.responses[id]));
    ReplayOrigin(s, schedule, 0, k, id);
  }

  /** `execute_tool` returns the timeout error or a result the poller posted
   *  for the id it issued, never a neighbour's, as long as no response was
   *  stored for that id before it was issued. */
  lemma ExecuteNoCrossTalk(s: State, tool: string, params: Value, timestamp: string,
                           schedule: seq<seq<PollerAction>>)
    requires s.nextId !in s.responses
    ensures var r := Execute(s, tool, params, timestamp, schedule).1;
      r == TimeoutError || Posted(schedule, s.nextId, r)
  {
    var (s1, id) := Enqueue(s, tool, params, timestamp);
    if Wait(s1, id, schedule, 0).1.Arrived? {
      WaitNoCrossTalk(s1, id, schedule);
    }
  }

  // ---------------------------------------------------------------------------
  // Timeout with nobody answering (the scenario of a poller that never posts).

  lemma {:induction false} WaitUnanswered(s: State, id: nat, e: nat)
    requires id !in s.responses
    ensures Wait(s, id, [], e) == (s, TimedOut)
    decreases TimeoutTicks + 1 - e
  {
    if e <= TimeoutTicks {
      assert ActAll(s, Round([], e)) == s;
      WaitUnanswered(s, id, e + 1);
    }
  }

  /** With no poller activity `execute_tool` times out, and its request stays in
   *  the queue while the response map is left as it was. */
  lemma ExecuteUnanswered(s: State, tool: string, params: Value, timestamp: string)
    requires s.nextId !in s.responses
    ensures Execute(s, tool, params, timestamp, []) ==
      (State(s.pending + [Request(s.nextId, tool, params, timestamp)], s.responses, s.nextId + 1), TimeoutError)
  {
    WaitUnanswered(Enqueue(s, tool, params, timestamp).0, s.nextId, 0);
  }

    /** A poller that polls once and answers during the first sleep: the wait
   *  returns that answer after one round, and the state is the polled queue
   *  with the response map as it was before. */
  lemma WaitAnsweredFirstRound(s: State, id: nat, result: Value)
    requires id !in s.responses
    ensures Wait(s, id, [[Poll, Submit(id, result)]], 0) == (Dequeue(s).0, Arrived(result))
  {
    var acts := [Poll, Submit(id, result)];
    assert acts[1..] == [Submit(id, result)] && acts[1..][1..] == [];
    var polled := Act(s, Poll);
    assert ActAll(s, acts) == ActAll(polled, [Submit(id, result)]);
    assert ActAll(polled, [Submit(id, result)]) == ActAll(Act(polled, Submit(id, result)), []);
    assert ActAll(s, acts) == Store(Dequeue(s).0, id, result);
    assert Store(Dequeue(s).0, id, result).responses - {id} == s.responses;
  }

  /** `execute_tool` answered by a poller that picks the request up and answers
   *  during the first sleep: the result is the answer, and the request and its
   *  response are both gone afterwards. */
  lemma ExecuteAnsweredFirstRound(s: State, tool: string, params: Value, timestamp: string, result: Value)
    requires s.nextId !in s.responses
    ensures var s1 := Enqueue(s, tool, params, timestamp).0;
      Execute(s, tool, params, timestamp, [[Poll, Submit(s.nextId, result)]]) ==
        (State(s1.pending[1..], s.responses, s.nextId + 1), result)
  {
    var s1 := Enqueue(s, tool, params, timestamp).0;
    WaitAnsweredFirstRound(s1, s.nextId, result);
  }

  // ---------------------------------------------------------------------------
  // FIFO order and fresh ids.

  lemma {:induction false} ActAllValid(s: State, actions: seq<PollerAction>)
    requires WellFormed(s)
    ensures WellFormed(ActAll(s, actions)) && ActAll(s, actions).nextId == s.nextId
    decreases |actions|
  {
    if actions != [] {
      ActAllValid(Act(s, actions[0]), actions[1..]);
    }
  }

  lemma {:induction false} WaitValid(s: State, id: nat, schedule: seq<seq<PollerAction>>, e: nat)
    requires WellFormed(s)
    ensures WellFormed(Wait(s, id, schedule, e).0) && Wait(s, id, schedule, e).0.nextId == s.nextId
    decreases TimeoutTicks + 1 - e
  {
    if id !in s.responses && e <= TimeoutTicks {
      ActAllValid(s, Round(schedule, e));
      WaitValid(ActAll(s, Round(schedule, e)), id, schedule, e + 1);
    }
  }

  /** A new request gets an id no queued request has, goes to the tail, and the
   *  queue stays ordered by creation. */
  lemma EnqueueFresh(s: State, tool: string, params: Value, timestamp: string)
    requires WellFormed(s)
    ensures var (s1, id) := Enqueue(s, tool, params, timestamp);
      && WellFormed(s1)
      && (forall i | 0 <= i < |s.pending| :: s.pending[i].id != id)
      && s1.pending == s.pending + [Request(id, tool, params, timestamp)]
  {
  }

  lemma ExecuteValid(s: State, tool: string, params: Value, timestamp: string,
                     schedule: seq<seq<PollerAction>>)
    requires WellFormed(s)
    ensures WellFormed(Execute(s, tool, params, timestamp, schedule).0)
  {
    EnqueueFresh(s, tool, params, timestamp);
    var (s1, id) := Enqueue(s, tool, params, timestamp);
    WaitValid(s1, id, schedule, 0);
  }

  /** n calls of `get_pending_request`: the requests handed out, and the state after. */
  function Drain(s: State, n: nat): (State, seq<Request>)
    decreases n
  {
    if n == 0 then (s, [])
    else
      match Dequeue(s).1
      case None => (s, [])
      case Some(r) => var (t, rs) := Drain(Dequeue(s).0, n - 1); (t, [r] + rs)
  }

  /** Polling hands requests out in queue order. */
  lemma {:induction false} DrainInOrder(s: State, n: nat)
    ensures Drain(s, n).1 == s.pending[..if n < |s.pending| then n else |s.pending|]
    decreases n
  {
    if n > 0 && s.pending != [] {
      DrainInOrder(Dequeue(s).0, n - 1);
      assert s.pending == [s.pending[0]] + s.pending[1..];
    }
  }

  /** Two requests queued one after the other reach the poller in that order,
   *  after everything queued before them. */
  lemma FifoOrder(s: State, t1: string, p1: Value, ts1: string, t2: string, p2: Value, ts2: string)
    ensures var (a, id1) := Enqueue(s, t1, p1, ts1);
      var (b, id2) := Enqueue(a, t2, p2, ts2);
      Drain(b, |s.pending| + 2).1 == s.pending + [Request(id1, t1, p1, ts1), Request(id2, t2, p2, ts2)]
  {
    var (a, id1) := Enqueue(s, t1, p1, ts1);
    var (b, id2) := Enqueue(a, t2, p2, ts2);
    DrainInOrder(b, |s.pending| + 2);
    assert b.pending == s.pending + [Request(id1, t1, p1, ts1), Request(id2, t2, p2, ts2)];
  }

  /** The bridge object: the queue, the response map and the id counter as
   *  fields updated in place. */
  class Bridge {
    var pending: seq<Request>
    var responses: map<nat, Value>
    var nextId: nat

    function Snapshot(): State
      reads this
    {
      State(pending, responses, nextId)
    }

    ghost predicate Valid()
      reads this
    {
      WellFormed(Snapshot())
    }

    /** `__init__` (lines 8-10): an empty queue and an empty map. */
    constructor ()
      ensures Snapshot() == Initial() && Valid()
    {
      pending := [];
      responses := map[];
      nextId := 0;
    }

    /** `get_pending_request` (lines 12-16). */
    method GetPendingRequest() returns (r: Option<Request>)
      modifies this
      ensures (Snapshot(), r) == Dequeue(old(Snapshot()))
      ensures old(pending) == [] ==> r == None && pending == []
      ensures old(pending) != [] ==> r == Some(old(pending)[0]) && pending == old(pending)[1..]
      ensures responses == old(responses) && nextId == old(nextId)
      ensures old(Valid()) ==> Valid()
    {
      if pending != [] {
        r := Some(pending[0]);
        pending := pending[1..];
      } else {
        r := None;
      }
    }

    /** `submit_response` (lines 18-20). */
    method SubmitResponse(id: nat, result: Value)
      modifies this
      ensures Snapshot() == Store(old(Snapshot()), id, result)
      ensures responses == old(responses)[id := result]
      ensures pending == old(pending) && nextId == old(nextId)
      ensures old(Valid()) ==> Valid()
    {
      responses := responses[id := result];
    }

    /** The poller's calls during one sleeping round. */
    method RunPoller(actions: seq<PollerAction>)
      modifies this
      ensures Snapshot() == ActAll(old(Snapshot()), actions)
    {
      var i := 0;
      while i < |actions|
        invariant 0 <= i <= |actions|
        invariant ActAll(Snapshot(), actions[i..]) == ActAll(old(Snapshot()), actions)
      {
        assert actions[i..] == [actions[i]] + actions[i + 1..];
        match actions[i] {
          case Poll =>
            var _ := GetPendingRequest();
          case Submit(id, result) =>
            SubmitResponse(id, result);
        }
        i := i + 1;
      }
    }

    /** The polling loop of lines 37-47: look for the id, check the clock, sleep. */
    method AwaitResponse(id: nat, schedule: seq<seq<PollerAction>>) returns (w: WaitResult)
      modifies this
      ensures (Snapshot(), w) == Wait(old(Snapshot()), id, schedule, 0)
    {
      var elapsed: nat := 0;
      while id !in responses
        invariant elapsed <= TimeoutTicks + 1
        invariant Wait(Snapshot(), id, schedule, elapsed) == Wait(old(Snapshot()), id, schedule, 0)
        decreases TimeoutTicks + 1 - elapsed
      {
        if elapsed > TimeoutTicks {
          w := TimedOut;
          return;
        }
        RunPoller(Round(schedule, elapsed));
        elapsed := elapsed + 1;
      }
      w := Arrived(responses[id]);
      responses := responses - {id};
    }

    /** Lines 25-34 of `execute_tool`: a fresh id, and the request at the tail. */
    method Queue(tool: string, params: Value, timestamp: string) returns (id: nat)
      modifies this
      ensures (Snapshot(), id) == Enqueue(old(Snapshot()), tool, params, timestamp)
      ensures pending == old(pending) + [Request(id, tool, params, timestamp)]
      ensures id == old(nextId) && nextId == id + 1 && responses == old(responses)
    {
      id := nextId;
      pending := pending + [Request(id, tool, params, timestamp)];
      nextId := nextId + 1;
    }

    /** `execute_tool` (lines 23-47). */
    method ExecuteTool(tool: string, params: Value, timestamp: string,
                       schedule: seq<seq<PollerAction>>) returns (result: Value)
      modifies this
      ensures (Snapshot(), result) == Execute(old(Snapshot()), tool, params, timestamp, schedule)
      ensures old(Valid()) ==> Valid()
    {
      ghost var s0 := Snapshot();
      var id := Queue(tool, params, timestamp);
      var w := AwaitResponse(id, schedule);
      result := if w.Arrived? then w.result else TimeoutError;
      if WellFormed(s0) {
        ExecuteValid(s0, tool, params, timestamp, schedule);
      }
    }
  }
}
