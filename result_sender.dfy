/** models/voice/result_sender.py: the `function_call_output` envelope that
 *  carries a tool result back to the realtime session. The same envelope, with
 *  an output text built by hand, is sent by `monitor_call` in app_old.py. */
module ResultSender {
  import opened Values

  const ItemCreate: string := "conversation.item.create"
  const FunctionCallOutput: string := "function_call_output"

  /** The envelope for one tool result, with the output already as text. */
  function Envelope(callId: Value, output: string): (m: Value)
    ensures IsResultFor(m, callId)
    ensures Item(m) == Some(Obj([("type", Str(FunctionCallOutput)), ("call_id", callId), ("output", Str(output))]))
  {
    var item := Obj([("type", Str(FunctionCallOutput)), ("call_id", callId), ("output", Str(output))]);
    var m := Obj([("type", Str(ItemCreate)), ("item", item)]);
    LookupCons("type", Str(ItemCreate), [("item", item)], "item");
    LookupCons("type", Str(FunctionCallOutput), [("call_id", callId), ("output", Str(output))], "call_id");
    m
  }

  function Item(m: Value): Option<Value> {
    Index(m, "item")
  }

  /** A `conversation.item.create` message whose item is a `function_call_output`. */
  predicate IsResult(m: Value) {
    && Index(m, "type") == Some(Str(ItemCreate))
    && Item(m).Some?
    && Index(Item(m).value, "type") == Some(Str(FunctionCallOutput))
  }

  /** Such a message for the call `callId`. */
  predicate IsResultFor(m: Value, callId: Value) {
    IsResult(m) && Index(Item(m).value, "call_id") == Some(callId)
  }

  /** The `output` field (line 13): a dictionary is JSON-encoded, anything
   *  else goes through `str()`, so a string result is sent as it is. */
  function Output(result: Value): (text: string)
    ensures result.Obj? ==> text == JsonDumps(result)
    ensures result.Str? ==> text == result.s
    ensures !result.Obj? && !result.Str? ==> text == Render(result, Python)
  {
    if result.Obj? then JsonDumps(result) else PyStr(result)
  }

  /** `send(ws, call_id, result)`: the one message it sends. */
  function Send(callId: Value, result: Value): (m: Value)
    ensures IsResultFor(m, callId)
    ensures Index(Item(m).value, "output") == Some(Str(Output(result)))
  {
    var m := Envelope(callId, Output(result));
    var rest := [("call_id", callId), ("output", Str(Output(result)))];
    LookupCons("type", Str(FunctionCallOutput), rest, "output");
    LookupCons("call_id", callId, [("output", Str(Output(result)))], "output");
    m
  }

  /** A dictionary result and its JSON text as a string result produce the
   *  same message: the receiver cannot tell them apart. */
  lemma DictAndItsTextAlike(callId: Value, fields: seq<(string, Value)>)
    ensures Send(callId, Obj(fields)) == Send(callId, Str(JsonDumps(Obj(fields))))
  {
  }
}
