/** app.py: `handle_stream` relays audio between the telephony media stream
 *  and the realtime AI session with two loops, one per direction. Each loop is
 *  a sequence transformation here: the messages it receives, in order, to the
 *  messages it sends, in order, and how it ends. */
module MediaRelay {
  import opened Values

  /** What one decoded event leads to. */
  datatype Forward = Emit(message: Value) | Skip | Fail

  datatype Direction = FromPhone | FromAi

  /** How a loop ends: a falsy message (phone side only), the end of the
   *  socket's messages, or an exception that escapes the loop. */
  datatype Ending = Stopped | Ended | Crashed

  /** `{"type": "input_audio_buffer.append", "audio": payload}`. */
  function AudioAppend(payload: Value): (m: Value)
    ensures Index(m, "type") == Some(Str("input_audio_buffer.append"))
    ensures Index(m, "audio") == Some(payload)
  {
    LookupCons("type", Str("input_audio_buffer.append"), [("audio", payload)], "audio");
    Obj([("type", Str("input_audio_buffer.append")), ("audio", payload)])
  }

  /** `{'event': 'media', 'media': {'payload': delta}}`: no `streamSid`. */
  function MediaFrame(delta: Value): (m: Value)
    ensures Index(m, "event") == Some(Str("media"))
    ensures Index(m, "media") == Some(Obj([("payload", delta)]))
    ensures Index(m, "streamSid") == None
  {
    LookupCons("event", Str("media"), [("media", Obj([("payload", delta)]))], "media");
    LookupCons("event", Str("media"), [("media", Obj([("payload", delta)]))], "streamSid");
    LookupCons("media", Obj([("payload", delta)]), [], "streamSid");
    Obj([("event", Str("media")), ("media", Obj([("payload", delta)]))])
  }

  /** `data['media']['payload']`, or None where that raises. */
  function Payload(data: Value): Option<Value> {
    match Index(data, "media")
    case None => None
    case Some(media) => Index(media, "payload")
  }

  /** Lines 47-51: a `media` event becomes an append of its payload, unchanged;
   *  any other event (`start`, `stop`, ...) is dropped; `data['event']` or the
   *  payload lookup raising ends the loop. */
  function FromTelephony(data: Value): (f: Forward)
    ensures Index(data, "event") == Some(Str("media")) && Payload(data).Some? ==> f == Emit(AudioAppend(Payload(data).value))
    ensures Index(data, "event").Some? && Index(data, "event") != Some(Str("media")) ==> f == Skip
    ensures Index(data, "event").None? ==> f == Fail
  {
    match Index(data, "event")
    case None => Fail
    case Some(event) =>
      if event == Str("media") then
        match Payload(data)
        case None => Fail
        case Some(p) => Emit(AudioAppend(p))
      else Skip
  }

  /** Lines 57-61: an audio delta becomes a media frame with the delta as its
   *  payload; any other event type is dropped. */
  function FromAiSession(event: Value): (f: Forward)
    ensures Index(event, "type") == Some(Str("response.audio.delta")) && Index(event, "delta").Some? ==>
      f == Emit(MediaFrame(Index(event, "delta").value))
    ensures Index(event, "type").Some? && Index(event, "type") != Some(Str("response.audio.delta")) ==> f == Skip
    ensures Index(event, "type").None? ==> f == Fail
  {
    match Index(event, "type")
    case None => Fail
    case Some(t) =>
      if t == Str("response.audio.delta") then
        match Index(event, "delta")
        case None => Fail
        case Some(d) => Emit(MediaFrame(d))
      else Skip
  }

  /** One received message: `not msg` on the phone side, then `json.loads`,
   *  then the direction's translation. A message is None when `receive`
   *  returned nothing. */
  function Translate(dir: Direction, msg: Option<string>, parse: Parser): Forward {
    match msg
    case None => Fail
    case Some(text) =>
      match parse(text)
      case Raised(_) => Fail
      case Returned(v) => if dir == FromPhone then FromTelephony(v) else FromAiSession(v)
  }

  predicate StopsLoop(dir: Direction, msg: Option<string>) {
    dir == FromPhone && (msg.None? || msg == Some(""))
  }

  /** A loop over the messages received in one direction. */
  function Relay(dir: Direction, received: seq<Option<string>>, parse: Parser): (seq<Value>, Ending)
    decreases |received|
  {
    if received == [] then ([], Ended)
    else if StopsLoop(dir, received[0]) then ([], Stopped)
    else
      match Translate(dir, received[0], parse)
      case Fail => ([], Crashed)
      case Skip => Relay(dir, received[1..], parse)
      case Emit(m) => var (rest, e) := Relay(dir, received[1..], parse); ([m] + rest, e)
  }

  /** `twilio_to_chatgpt` (lines 41-51). */
  method TwilioToChatGpt(received: seq<Option<string>>, parse: Parser) returns (sent: seq<Value>, ending: Ending)
    ensures (sent, ending) == Relay(FromPhone, received, parse)
  {
    sent := [];
    var i := 0;
    assert received[0..] == received;
    while true
      invariant 0 <= i <= |received|
      invariant sent + Relay(FromPhone, received[i..], parse).0 == Relay(FromPhone, received, parse).0
      invariant Relay(FromPhone, received[i..], parse).1 == Relay(FromPhone, received, parse).1
      decreases |received| - i
    {
      if i == |received| {
        assert received[i..] == [] && sent + [] == sent;
        return sent, Ended;
      }
      assert received[i..][0] == received[i] && received[i..][1..] == received[i + 1..];
      var msg := received[i];
      if msg.None? || msg == Some("") {
        assert sent + [] == sent;
        return sent, Stopped;
      }
      var data := parse(msg.value);
      if data.Raised? {
        assert sent + [] == sent;
        return sent, Crashed;
      }
      match FromTelephony(data.value) {
        case Fail =>
          assert sent + [] == sent;
          return sent, Crashed;
        case Skip =>
        case Emit(m) =>
          assert sent + Relay(FromPhone, received[i..], parse).0 == (sent + [m]) + Relay(FromPhone, received[i + 1..], parse).0;
          sent := sent + [m];
      }
      i := i + 1;
    }
  }

  /** `chatgpt_to_twilio` (lines 54-61). */
  method ChatGptToTwilio(received: seq<string>, parse: Parser) returns (sent: seq<Value>, ending: Ending)
    ensures (sent, ending) == Relay(FromAi, Delivered(received), parse)
  {
    var msgs := Delivered(received);
    sent := [];
    assert msgs[0..] == msgs;
    for i := 0 to |received|
      invariant sent + Relay(FromAi, msgs[i..], parse).0 == Relay(FromAi, msgs, parse).0
      invariant Relay(FromAi, msgs[i..], parse).1 == Relay(FromAi, msgs, parse).1
    {
      assert msgs[i..][0] == Some(received[i]) && msgs[i..][1..] == msgs[i + 1..];
      var event := parse(received[i]);
      if event.Raised? {
        assert sent + [] == sent;
        return sent, Crashed;
      }
      match FromAiSession(event.value) {
        case Fail =>
          assert sent + [] == sent;
          return sent, Crashed;
        case Skip =>
        case Emit(m) =>
          assert sent + Relay(FromAi, msgs[i..], parse).0 == (sent + [m]) + Relay(FromAi, msgs[i + 1..], parse).0;
          sent := sent + [m];
      }
    }
    assert msgs[|received|..] == [] && sent + [] == sent;
    return sent, Ended;
  }

  /** The AI socket's messages, each delivered as text. */
  function Delivered(received: seq<string>): (msgs: seq<Option<string>>)
    ensures |msgs| == |received| && forall i | 0 <= i < |received| :: msgs[i] == Some(received[i])
  {
    seq(|received|, i requires 0 <= i < |received| => Some(received[i]))
  }

  // ---------------------------------------------------------------------------
  // Each direction as a filter-map in receipt order.

  /** The messages a sequence of translations sends, in order. */
  function Emitted(fs: seq<Forward>): seq<Value> {
    if fs == [] then [] else (if fs[0].Emit? then [fs[0].message] else []) + Emitted(fs[1..])
  }

  function Translations(dir: Direction, received: seq<Option<string>>, parse: Parser): (fs: seq<Forward>)
    ensures |fs| == |received|
    ensures forall i | 0 <= i < |received| :: fs[i] == Translate(dir, received[i], parse)
  {
    seq(|received|, i requires 0 <= i < |received| => Translate(dir, received[i], parse))
  }

  /** While no message stops or breaks the loop, what it sends is the
   *  translations of the messages with the dropped ones left out, in the order
   *  received, and the loop runs to the end of its input. */
  lemma {:induction false} RelayIsFilterMap(dir: Direction, received: seq<Option<string>>, parse: Parser)
    requires forall i | 0 <= i < |received| :: !StopsLoop(dir, received[i]) && !Translate(dir, received[i], parse).Fail?
    ensures Relay(dir, received, parse) == (Emitted(Translations(dir, received, parse)), Ended)
  {
    if received != [] {
      assert forall i | 0 <= i < |received[1..]| :: received[1..][i] == received[i + 1];
      RelayIsFilterMap(dir, received[1..], parse);
      var fs := Translations(dir, received, parse);
      assert fs[1..] == Translations(dir, received[1..], parse);
      assert !StopsLoop(dir, received[0]) && fs[0] == Translate(dir, received[0], parse);
      assert Emitted(fs) == (if fs[0].Emit? then [fs[0].message] else []) + Emitted(fs[1..]);
      match fs[0] {
        case Skip =>
          assert [] + Emitted(fs[1..]) == Emitted(fs[1..]);
        case Emit(m) =>
          assert Relay(dir, received, parse) == ([m] + Relay(dir, received[1..], parse).0, Relay(dir, received[1..], parse).1);
      }
    }
  }

  /** A message that stops or breaks the loop is the last one read: what
   *  comes after it never reaches the other side. */
  lemma {:induction false} NothingAfterTheStop(dir: Direction, received: seq<Option<string>>, j: nat, parse: Parser)
    requires j < |received|
    requires StopsLoop(dir, received[j]) || Translate(dir, received[j], parse).Fail?
    ensures Relay(dir, received, parse) == Relay(dir, received[..j + 1], parse)
  {
    if j > 0 {
      assert received[..j + 1][0] == received[0] && received[..j + 1][1..] == received[1..][..j];
      NothingAfterTheStop(dir, received[1..], j - 1, parse);
    } else {
      assert received[..1][0] == received[0];
    }
  }

  /** What is sent is never taken back: the messages sent for a prefix of the
   *  input are a prefix of those sent for the whole input. */
  lemma {:induction false} SentGrowsWithInput(dir: Direction, received: seq<Option<string>>, more: seq<Option<string>>, parse: Parser)
    requires Relay(dir, received, parse).1 == Ended
    ensures Relay(dir, received + more, parse).0 == Relay(dir, received, parse).0 + Relay(dir, more, parse).0
    ensures Relay(dir, received + more, parse).1 == Relay(dir, more, parse).1
  {
    if received != [] {
      var whole := received + more;
      assert whole[0] == received[0] && whole[1..] == received[1..] + more;
      RanOn(dir, received, parse);
      SentGrowsWithInput(dir, received[1..], more, parse);
      match Translate(dir, received[0], parse) {
        case Skip =>
          SkipStep(dir, received, parse);
          SkipStep(dir, whole, parse);
        case Emit(m) =>
          EmitStep(dir, received, m, parse);
          EmitStep(dir, whole, m, parse);
          var before, after := Relay(dir, received[1..], parse).0, Relay(dir, more, parse).0;
          assert [m] + (before + after) == ([m] + before) + after;
      }
    } else {
      assert received + more == more;
    }
  }

  /** A loop that reached the end of its input went past its first message. */
  lemma RanOn(dir: Direction, received: seq<Option<string>>, parse: Parser)
    requires received != [] && Relay(dir, received, parse).1 == Ended
    ensures !StopsLoop(dir, received[0]) && !Translate(dir, received[0], parse).Fail?
    ensures Relay(dir, received[1..], parse).1 == Ended
  {
  }

  lemma SkipStep(dir: Direction, received: seq<Option<string>>, parse: Parser)
    requires received != [] && !StopsLoop(dir, received[0]) && Translate(dir, received[0], parse) == Skip
    ensures Relay(dir, received, parse) == Relay(dir, received[1..], parse)
  {
  }

  lemma EmitStep(dir: Direction, received: seq<Option<string>>, m: Value, parse: Parser)
    requires received != [] && !StopsLoop(dir, received[0]) && Translate(dir, received[0], parse) == Emit(m)
    ensures Relay(dir, received, parse).0 == [m] + Relay(dir, received[1..], parse).0
    ensures Relay(dir, received, parse).1 == Relay(dir, received[1..], parse).1
  {
  }
}
