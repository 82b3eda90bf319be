# A Dafny model of the chatgpt_relay core

The relay connects a phone call, a realtime voice model and a chat model to
three backends: ServiceNow tickets, on-premises network devices and a
document search index. This project models the logic that sits between those
parts and proves properties of it. The external services are inputs or opaque
functions.

- **On-prem bridge** (`onprem_bridge.dfy`, `app_old.dfy`). A FIFO queue of
  requests is polled by an on-premises agent. The agent posts results into a
  map keyed by request id. `execute_tool` waits for its own id, up to a
  timeout, and the old app's call monitor uses the same queue for its
  `get_device_vlans` branch. The bridge is a class whose methods are proved
  against a state-transition specification. Time is counted in polling rounds
  of exactly 0.5 s, so the 10 s timeout means the wait gives up after 21 sleeps. What
  the poller does during each round is an input schedule.
- **Tool routing** (`tools.dfy`, `tool_handler.dfy`, `tool_router.dfy`,
  `chat_tool_router.dfy`, `voice_router.dfy`).
  - The substring router dispatches to the first matching pattern, in
    registry order, over the handler registry.
  - The chat router and the voice router dispatch by exact name.
  - A route is a `Dispatch`: a backend call, a documentation search, an
    immediate value, or the error a lookup would raise.
- **Encoding and event loops** (`result_sender.dfy`, `call_monitor.dfy`,
  `media_relay.dfy`, `webhook_handler.dfy`).
  - These are the function-call-output envelope, the call monitor and the two
    audio relay loops of `handle_stream`.
  - The webhook decision is also here: accept the call, then start monitoring
    it.
  - Each loop is a method proved equal to a function from the messages
    received to the messages sent.
- **Documents and search** (`document_loader.dfy`, `rag_service.dfy`,
  `documentation.dfy`).
  - Overlapping-window chunking and chunk ids.
  - Vector building with metadata truncation, and upserts in batches of 100.
  - Mapping search matches to records, the empty-index auto-load decision, and
    result formatting.
- **Chat transcript** (`chat_agent.dfy`). Tool schemas are converted to
  Claude's format. A tool-use turn appends the assistant turn, one
  `tool_result` per `tool_use` in order, and the follow-up answer.
- **Tickets** (`tickets.dfy`, `servicenow.dfy`, `network_agent.dfy`).
  - The processed-ticket set, the new-ticket filter and taking ownership of a
    ticket.
  - The polling job over successive listings.
  - Extracting the INC number, normalising ticket lookups, and the
    question-with-context flow.
- **Small state** (`llm_factory.dfy`, `voice_agent.dfy`, `alert.dfy`). The LLM
  factory registry, the voice agent's LLM choice kept in sync with its router,
  and the alert list.

`values.dfy` models Python's JSON-like values. Dictionaries keep insertion
order, and lookups fail with the errors Python raises. `text.dfy` holds the
string predicates (substring, whitespace, digits, ASCII upper-casing).

Three behaviours of the code that the model keeps as written:
- The AI-to-phone relay sends media frames without a `streamSid`.
- The substring router has no handler for `list_open_tickets`.
- The old app's `ask_claude` branch calls a method that `NetworkAgent` does
  not have.

## Model

| member | source | states |
|---|---|---|
| OnPremBridge.Initial | models/onprem_bridge.py:8-10 | a new bridge has an empty queue and no responses, and is well formed |
| OnPremBridge.Bridge.constructor | models/onprem_bridge.py:8-10 | the object starts in that initial state |
| OnPremBridge.Bridge.GetPendingRequest | models/onprem_bridge.py:12-16 | non-empty queue: returns the oldest request and the rest keep their order; empty queue: None, nothing changes; responses untouched |
| OnPremBridge.Bridge.SubmitResponse | models/onprem_bridge.py:18-20 | `responses[id] := result`, overwriting an earlier one; queue and id counter unchanged |
| OnPremBridge.Bridge.Queue | models/onprem_bridge.py:25-34 | one request `{id, tool, params, timestamp}` appended at the tail, under a fresh id |
| OnPremBridge.EnqueueFresh | models/onprem_bridge.py:25-34 | the new id differs from every queued id, and the queue stays well formed |
| OnPremBridge.Bridge.AwaitResponse | models/onprem_bridge.py:37-47 | the polling loop's outcome and final state are those of the tick-bounded wait specification |
| OnPremBridge.Bridge.RunPoller | models/onprem_bridge.py:12-20 | a round of poller actions applies each poll and submit in order |
| OnPremBridge.Bridge.ExecuteTool | models/onprem_bridge.py:23-47 | result and new state are those of `Execute`; the bridge stays well formed |
| OnPremBridge.WaitIsFirstArrival | models/onprem_bridge.py:41-47 | a timed-out wait never saw its id in any round; an arrived one returns the value seen in the first round where the id was present, and removes only that key |
| OnPremBridge.ActAllOrigin | models/onprem_bridge.py:18-20 | a response present after a round was there before or was posted in that round |
| OnPremBridge.ReplayOrigin | models/onprem_bridge.py:41-44 | a response present after several rounds was there before or was posted by the schedule |
| OnPremBridge.WaitNoCrossTalk | models/onprem_bridge.py:41-47 | an arrived value was stored under the waiting id itself, not under any other id |
| OnPremBridge.ExecuteNoCrossTalk | models/onprem_bridge.py:23-47 | `execute_tool` returns the timeout error or a value that was posted for its own id |
| OnPremBridge.WaitUnanswered | models/onprem_bridge.py:41-43 | with no poller activity the wait times out and changes nothing |
| OnPremBridge.ExecuteUnanswered | models/onprem_bridge.py:38-43 | on timeout: `{"error": "Request timed out"}`, the request stays queued and the responses are untouched |
| OnPremBridge.WaitAnsweredFirstRound | models/onprem_bridge.py:41-47 | a response posted in the first round is returned and its key removed |
| OnPremBridge.ExecuteAnsweredFirstRound | models/onprem_bridge.py:41-47 | a request that is polled and answered at once gives the posted value, with the queue and the responses as before |
| OnPremBridge.ActAllValid | models/onprem_bridge.py:12-20 | polls and submits keep the queue well formed |
| OnPremBridge.WaitValid | models/onprem_bridge.py:41-47 | waiting keeps the queue well formed |
| OnPremBridge.ExecuteValid | models/onprem_bridge.py:23-47 | `execute_tool` keeps the queue well formed |
| OnPremBridge.DrainInOrder | models/onprem_bridge.py:14-15 | n polls hand out the first n queued requests, in queue order |
| OnPremBridge.FifoOrder | models/onprem_bridge.py:34 | two requests enqueued one after the other reach the poller in that order, after those already queued |
| AppOld.Poll | app_old.py:38-43 | `GET /poll` returns and removes the oldest request, or null on an empty queue |
| AppOld.SubmitResponse | app_old.py:45-52 | stores the result under its id, overwriting, and acknowledges `{"status": "received"}` |
| AppOld.HandleMessage | app_old.py:130-199 | one message of the monitor loop has the effect the step specification gives |
| AppOld.MonitorCall | app_old.py:118-204 | the monitor's sends, ending and queue state are those of the specification over the messages |
| AppOld.VlansTimesOut | app_old.py:141-166 | for any state and any poller schedule: a `get_device_vlans` call queues exactly one request at the tail, with `device_name` defaulting to '', and when no response for its id is there during the wait's 21 rounds it sends only "Sorry, request timed out", tagged with the call's `call_id`, the new state being what the poller's rounds made of the queued state (the wait itself changes nothing) |
| AppOld.VlansAnswered | app_old.py:141-178 | for any state and any poller schedule: when the response for the new id first appears after round k, the call sends only "VLANs: " + the JSON of that response, tagged with the call's `call_id`; the new state is the one after k rounds with that response popped, so the id no longer has a response; and the response was stored under that id before the call or posted by the poller under it |
| AppOld.OtherToolsIgnored | app_old.py:141-181 | any other function name sends nothing and changes nothing |
| AppOld.FramesAreResults | app_old.py:171-199 | every frame sent is a `function_call_output`, at most one per message |
| AppOld.AskClaudeEndsMonitoring | app_old.py:181-204 | as written, an `ask_claude` call raises at the missing method and ends monitoring without sending |
| AppOld.AskClaudeAnswered | app_old.py:181-199 | with the method the branch means, the answer is sent under the call's own `call_id` and monitoring continues |
| Tools.FromDict | models/tool_handler.py:17-41 | arguments that are not a dictionary raise the AttributeError of `.get` |
| Tools.TicketCall | models/tool_handler.py:17-45 | exactly the five ticket names dispatch, by exact name; a missing `priority` becomes '3' and a missing `close_code` becomes 'Solved' |
| Tools.SearchCall | models/tool_handler.py:66-69 | a search is made with the arguments' `query` |
| Tools.Perform | models/tool_handler.py:15-69 | calls go to the backend unchanged; immediate values and searches return; lookups that fail raise |
| ToolHandlers.Handle | models/tool_handler.py:15-69 | ServiceNow handler: None for any other name; device handler: the four device tools forwarded unchanged, else `{"error": "Unknown tool: <name>"}`; documentation handler: `search_documentation` only, else None |
| ToolHandlers.Keys | models/tool_handler.py:4-7 | the registry's patterns, in insertion order |
| ToolHandlers.PutFind | models/tool_handler.py:6-7 | after registering, the new pattern finds the new handler and the other patterns are unchanged |
| ToolHandlers.PutKeys | models/tool_handler.py:6-7 | registering a known pattern keeps its place in the order; a new one goes last |
| ToolHandlers.FindMissing | models/tool_handler.py:4-7 | a pattern the registry does not hold finds no handler |
| ToolHandlers.PutKeepsDistinct | models/tool_handler.py:4-7 | registering keeps the patterns distinct, as the registry is a dictionary |
| ToolHandlers.HandlerRegistry.constructor | models/tool_handler.py:4 | the registry starts empty |
| ToolHandlers.HandlerRegistry.Register | models/tool_handler.py:6-7 | `_handlers_registry[tool_pattern] = cls` |
| ToolHandlers.DefineHandlers | models/tool_handler.py:10-61 | defining the three classes registers servicenow, device, search, in that order |
| ToolRouting.MatchesIsContains | models/tool_router.py:29 | `startswith(p) or p in name` is the same test as `p in name` |
| ToolRouting.FirstMatchIsFirstPosition | models/tool_router.py:28-33 | the handler chosen is the first whose pattern is a substring of the name, and it gets the name and arguments unchanged; with none, `{"error": "No handler found for: <name>"}` |
| ToolRouting.BuildFindFrom | models/tool_router.py:19-22 | after the loop, a pattern finds the registry's handler when its service is truthy and the registry has it, and otherwise what it found before |
| ToolRouting.BuildKeysFrom | models/tool_router.py:19-22 | the loop appends the registry's patterns whose service is truthy, in registry order, after the keys it started with |
| ToolRouting.BuildServed | models/tool_router.py:10-22 | for any registry: a pattern finds its registry handler when its service is truthy and nothing otherwise, and the handlers' keys are the registry's patterns filtered by a truthy service, in registry order |
| ToolRouting.ToolRouter.constructor | models/tool_router.py:6-22 | the handlers are the result of the loop over the registry (characterised for every registry by BuildServed) |
| ToolRouting.ToolRouter.Route | models/tool_router.py:24-33 | the route is the first-match dispatch over the built handlers |
| ToolRouting.DefaultHandlers | models/tool_router.py:13-22 | with all three services present, the handlers follow the registry |
| ToolRouting.NoBridgeNoDeviceHandler | models/tool_router.py:13-22 | without an on-prem bridge there is no device handler |
| ToolRouting.ListOpenTicketsUnrouted | models/tool_router.py:33 | `list_open_tickets` matches no pattern and gets "No handler found", although the ServiceNow handler handles it |
| ToolRouting.ServedAmong | models/tool_router.py:19-22 | every pattern the loop keeps is a registry pattern whose service is truthy |
| ToolRouting.DefaultPatternsMiss | models/tool_router.py:28-29 | the registry's patterns are servicenow, device and search, distinct, and none occurs in `list_open_tickets` |
| ToolRouting.ListOpenTicketsUnroutedAnyServices | models/tool_router.py:6-33 | whichever services the router is built with, `list_open_tickets` gets "No handler found" |
| ChatToolRouter.Route | models/chat_tool_router.py:11-51 | exact names only: ticket tools with their defaults, the four device tools forwarded unchanged, search with the query; any other name gives `{"error": "Unknown tool: <name>"}` and never raises |
| ChatToolRouter.ExactRoutingReachesEveryTool | models/chat_tool_router.py:11-51 | every advertised tool is routed; apart from `list_open_tickets` the route agrees with the substring router |
| ChatToolRouter.TicketToolsMatchFirst | models/tool_router.py:28-30 | the four `*_servicenow_ticket` names reach the ServiceNow handler first |
| ChatToolRouter.DeviceToolsMatchSecond | models/tool_router.py:28-30 | the four device tools reach the device handler |
| ChatToolRouter.SearchMatchesThird | models/tool_router.py:28-30 | `search_documentation` reaches the documentation handler |
| VoiceRouting.ToolCallRouter.constructor | models/voice/tool_call_router.py:4-7 | the router keeps the LLM choice |
| VoiceRouting.ToolCallRouter.Route | models/voice/tool_call_router.py:9-21 | `query_servicenow_ticket` asks for `arguments.get('ticket_number')`, None when the key is missing; `get_device_vlans` is forwarded unchanged; anything else gives `{"error": "Unknown tool: <name>"}`; the LLM choice is not used |
| VoiceRouting.OnlyTwoToolsByVoice | models/voice/tool_call_router.py:20-21 | every other catalogue tool is unknown to the voice router |
| VoiceRouting.AgreesWithChatRouter | models/voice/tool_call_router.py:9-21 | on its two tools and on unknown names the voice router routes as the chat router does |
| ResultSender.Envelope | models/voice/result_sender.py:8-15 | a `conversation.item.create` holding a `function_call_output` item with the given `call_id` and output |
| ResultSender.Output | models/voice/result_sender.py:13 | a dictionary is sent as its JSON, a string as itself, anything else as its `str()` |
| ResultSender.Send | models/voice/result_sender.py:6-16 | one message, for that `call_id`, carrying the encoded result |
| ResultSender.DictAndItsTextAlike | models/voice/result_sender.py:13 | sending a dictionary or its JSON text gives the same message |
| CallMonitor.ToolCallResult | models/voice/call_monitor.py:39-55 | missing `arguments` default to '{}'; a decode or routing failure becomes `{"error": str(e)}` |
| CallMonitor.HandleToolCall | models/voice/call_monitor.py:37-55 | exactly one reply, tagged with the event's own `call_id` |
| CallMonitor.MonitorCall | models/voice/call_monitor.py:13-35 | what the loop sends and how it ends are those of the monitor specification |
| CallMonitor.Replies | models/voice/call_monitor.py:37-55 | one reply per tool-call event, in order |
| CallMonitor.OneReplyPerToolCall | models/voice/call_monitor.py:24-28 | over decodable events, the replies are exactly one per `response.function_call_arguments.done` event, in arrival order, and each carries its event's `call_id` |
| CallMonitor.StopsAtFirstFailure | models/voice/call_monitor.py:24-35 | a message that fails to decode ends the loop, and nothing after it is handled |
| MediaRelay.AudioAppend | app.py:48-51 | `{"type": "input_audio_buffer.append", "audio": payload}` |
| MediaRelay.MediaFrame | app.py:58-61 | `{"event": "media", "media": {"payload": delta}}`, with no `streamSid` |
| MediaRelay.FromTelephony | app.py:47-51 | a `media` event gives an append of its payload, unchanged; any other event gives nothing; a message without `event` raises |
| MediaRelay.FromAiSession | app.py:57-61 | a `response.audio.delta` event gives a media frame of its delta; any other type gives nothing |
| MediaRelay.TwilioToChatGpt | app.py:41-51 | the loop sends what the relay specification gives, and stops at the first falsy message |
| MediaRelay.ChatGptToTwilio | app.py:54-61 | the loop sends what the relay specification gives over the messages delivered |
| MediaRelay.Delivered | app.py:56 | each AI socket message reaches the loop as text, in order |
| MediaRelay.Translations | app.py:41-61 | the per-message translations, one per message, in order |
| MediaRelay.RelayIsFilterMap | app.py:41-61 | while nothing stops or breaks a loop, it sends the translations of its messages with the dropped ones left out, in receipt order |
| MediaRelay.NothingAfterTheStop | app.py:43-45 | nothing after the message that stops or breaks the loop is sent |
| MediaRelay.SentGrowsWithInput | app.py:41-61 | messages already sent are never taken back: a longer input extends the output |
| Webhook.Handle | models/voice/webhook_handler.py:11-27 | true exactly for `realtime.call.incoming`; accept is called with the event's own `call_id`, for incoming calls only; monitoring starts only when accept returned true, after it |
| Webhook.MonitoredAppend | models/voice/webhook_handler.py:18-23 | the calls monitored over two runs of events are those of each run, in order |
| Webhook.MonitorsExactlyAcceptedCalls | models/voice/webhook_handler.py:11-27 | over a sequence of events, exactly the incoming calls that were accepted are monitored, in order |
| VoiceAgents.VoiceAgent.constructor | models/voice_agent.py:9-20 | the preferred LLM is "OPENAI" and the router is built with it |
| VoiceAgents.VoiceAgent.HandleWebhook | models/voice_agent.py:22-24 | returns exactly the webhook handler's result |
| VoiceAgents.VoiceAgent.ChangeLlm | models/voice_agent.py:26-30 | both copies of the LLM choice take the new name and stay equal; the router object and its routing are unchanged |
| LlmFactory.Create | models/llm_factory.py:24-32 | each factory creates the service of its own kind |
| LlmFactory.Instance | models/llm_factory.py:15-22 | None for a name that is not registered; otherwise the registered factory's service |
| LlmFactory.Registry.constructor | models/llm_factory.py:6 | the registry starts empty |
| LlmFactory.Registry.Register | models/llm_factory.py:8-9 | registering a name overwrites it and leaves every other name's lookup unchanged |
| LlmFactory.Registry.GetLlmInstance | models/llm_factory.py:15-22 | `get_llm_instance` is the registry lookup |
| LlmFactory.DefineFactories | models/llm_factory.py:24-32 | the registry holds "OPENAI" and "Claude" |
| LlmFactory.DefinedNamesOnly | models/llm_factory.py:18 | exact, case-sensitive: "OPENAI" and "Claude" give their services, "openai" and "CLAUDE" give None |
| Alerts.Alert.constructor | models/alert.py:4-5 | a new alert list is empty |
| Alerts.Alert.AddAlert | models/alert.py:7-10 | the message is appended: one longer, last is the message, earlier alerts unchanged |
| DocumentLoading.DocumentLoader.constructor | models/document_loader.py:7-9 | the loader keeps its chunk size and overlap (500 and 50 by default) |
| DocumentLoading.SliceIsClamped | models/document_loader.py:24 | Python's clamped slice `text[start:end]`, never longer than `end - start` |
| DocumentLoading.WindowStartsAreMultiples | models/document_loader.py:20-33 | the window starts are 0, s, 2s, … below `len(text)`, with s = size − overlap, and they cover the text |
| DocumentLoading.WindowStartsAbove | models/document_loader.py:33 | the starts never go back |
| DocumentLoading.ChunksFromFiltered | models/document_loader.py:20-33 | the loop's chunks from a start on are the windows at the starts from there on, in order, with the blank ones left out |
| DocumentLoading.UnblankMembers | models/document_loader.py:26 | leaving out blank windows keeps exactly the windows that hold something besides whitespace |
| DocumentLoading.WindowsMembers | models/document_loader.py:23-31 | a chunk is among the windows at some starts exactly when its start is listed and it is the window at that start |
| DocumentLoading.ChunkMembers | models/document_loader.py:17-35 | each chunk's text is `text[start:start+size]`, its `end` is `start+size` unclamped, and blank windows are dropped |
| DocumentLoading.ChunksFromIncreasing | models/document_loader.py:20-33 | kept chunks are in increasing start order |
| DocumentLoading.ChunksIncreasing | models/document_loader.py:17-35 | `chunk_text` returns its chunks in increasing start order |
| DocumentLoading.StartBelow | models/document_loader.py:20-33 | every position of the text lies in the window of some start |
| DocumentLoading.NothingLost | models/document_loader.py:17-35 | every non-whitespace character of the text is in some chunk, at its own offset |
| DocumentLoading.DocumentLoader.ChunkText | models/document_loader.py:17-35 | the loop returns the chunk specification; its requires excludes only a non-empty text with `chunk_overlap >= chunk_size`, where the source's loop never ends (see ChunkTextNeverEnds and "## Findings") |
| DocumentLoading.ChunkTextNeverEnds | models/document_loader.py:20-33 | with `chunk_overlap >= chunk_size`, `start` stays at or below 0 after every pass, so on a non-empty text the guard `start < len(text)` always holds |
| DocumentLoading.FileDocuments | models/document_loader.py:49-57 | chunk i of a file gets id `<filename>_<i>`, `chunk_index` i and `source` filename |
| DocumentLoading.DocumentLoader.LoadAllDocuments | models/document_loader.py:37-60 | the nested loops return the document specification over the listed files |
| DocumentLoading.DocumentsFromTextFiles | models/document_loader.py:42-57 | every document comes from a listed `.txt` file, and its text is that file's chunk with the same index |
| DocumentLoading.TextFileDocuments | models/document_loader.py:42-57 | a non-`.txt` file gives no documents; a `.txt` file gives one per chunk, with indices 0..k−1 |
| RagService.Truncated | models/rag_service.py:85 | `text[:1000]`: the text itself when short, else its first 1000 characters |
| RagService.VectorOf | models/rag_service.py:79-89 | the vector has the document's id, the embedding of its text, the truncated text and the copied `source` and `chunk_index` |
| RagService.Vectors | models/rag_service.py:78-90 | one vector per document, in order |
| RagService.StoreDocuments | models/rag_service.py:73-99 | the upserts issued are the batches of the vectors |
| RagService.BatchesConcat | models/rag_service.py:93-96 | the batches concatenate back to the vector list |
| RagService.BatchSizes | models/rag_service.py:93-97 | each batch holds 1 to 100 vectors, all but the last exactly 100, and there are ⌈n/100⌉ of them |
| RagService.ResultsPerMatch | models/rag_service.py:113-119 | one `{text, source, score}` record per match, in order; a match without them raises |
| RagService.FirstFailureRaised | models/rag_service.py:113-119 | the error raised is that of the first bad match |
| RagService.Collect | models/rag_service.py:113-120 | the loop returns the record specification |
| RagService.Search | models/rag_service.py:101-122 | search embeds the query, asks the index and maps the matches |
| RagService.AutoLoadDocuments | models/rag_service.py:39-62 | no folder: nothing loaded; documents stored only when the folder gives some |
| RagService.CheckAndSetup | models/rag_service.py:24-37 | auto-load happens exactly when `total_vector_count`, defaulting to 0, is zero; a failing stats call is reported |
| Documentation.Entry | models/tool_handler.py:82-88 | an entry has the doc's source, content and score |
| Documentation.NothingFound | models/tool_handler.py:78-79 | `success: True` and the "not found" message, with no `results` |
| Documentation.Found | models/tool_handler.py:76-90 | `success: True` with the entries as `results` |
| Documentation.Entries | models/tool_handler.py:81-89 | one entry per doc, in order |
| Documentation.SearchWith | models/tool_handler.py:72-93 | empty results: the message; results: one entry per doc in order; an exception: `{"success": False, "error": str(e)}` |
| Documentation.ScoreFormatError | models/documentation_service.py:34 | `format(score, '.3f')` succeeds exactly for ints, floats and bools; anything else raises, with Python's message |
| Documentation.FirstScoreErrorIsFirst | models/documentation_service.py:28-34 | the loop raises exactly when some score does not format, and then with the exception of the first such document |
| Documentation.ServiceResultCases | models/documentation_service.py:11-45 | the reply is the common formatting with `relevance_score` exactly when the search raised or every score formats; otherwise `{"success": False, "error": <the first score's exception>}` |
| Documentation.SearchDocumentation | models/documentation_service.py:9-45 | the loop appends each entry and then formats its score; the reply is the service's result for `top_k=3`: the common formatting, or the failure of the first score that does not format |
| ChatAgents.ClaudeTool | models/chat_agent.py:52-56 | `name` and `description` copied, `input_schema` = `parameters` |
| ChatAgents.LoadTools | models/chat_agent.py:40-59 | one converted entry per tool, ServiceNow then on-prem then documentation, each in order |
| ChatAgents.ResultEntry | models/chat_agent.py:108-112 | a `tool_result` with the call's `tool_use_id` and the router result as JSON |
| ChatAgents.ToolUses | models/chat_agent.py:97-118 | the tool_use blocks of a response |
| ChatAgents.ToolResultsPerUse | models/chat_agent.py:89-118 | one result per tool use, in order, when every routed call returns |
| ChatAgents.CollectText | models/chat_agent.py:144-150 | the loop gathers the text blocks' text and content |
| ChatAgents.CallTools | models/chat_agent.py:89-118 | the loop gives the assistant content and the tool results of the specification |
| ChatAgents.FailureStays | models/chat_agent.py:89-118 | once a routed call raises, the later blocks do not change the outcome |
| ChatAgents.HandleResponseOf | models/chat_agent.py:81-184 | `_handle_response` gives the reply of the specification |
| ChatAgents.ChatOf | models/chat_agent.py:61-79 | `chat` gives the reply of the specification |
| ChatAgents.ChatHistoryShape | models/chat_agent.py:61-184 | the caller's history is kept as a prefix, then the user message, then three messages after a tool use or one after a direct answer, whose text is the reply |
| ChatAgents.UseEntriesAppend | models/chat_agent.py:97-118 | the tool_use entries of joined content are those of each part |
| ChatAgents.CallsListedInOrder | models/chat_agent.py:97-118 | the assistant turn lists each tool_use, in the response's order |
| ChatAgents.ResultsAnswerCalls | models/chat_agent.py:89-118 | the k-th tool_result answers the k-th tool_use, with its id and the JSON of its router result |
| ChatAgents.ChatListOpenTicketsUnrouted | models/chat_agent.py:16 | with the `ToolRouter` the agent builds, whatever its services and backends, a `list_open_tickets` tool_use is answered with "No handler found for: list_open_tickets", and its tool_result holds that error |
| Tickets.NewTickets | models/servicenow.py:205 | succeeds exactly when every listed ticket has a hashable `sys_id` |
| Tickets.NewTicketsMembers | models/servicenow.py:205 | the new tickets are exactly the listed ones whose `sys_id` is not processed, and no more than were listed |
| Tickets.NewTicketsAppend | network_agent.py:129 | the filter keeps the listing's order: filtering a concatenation concatenates the filtered parts |
| Tickets.TailHasIds | models/servicenow.py:205 | a listing that passes has its rest passing too |
| Tickets.Taken | models/servicenow.py:210-211 | at most one id taken per new ticket |
| Tickets.TakenAreNewAndSucceeded | models/servicenow.py:65-86 | each id taken belongs to a ticket whose analysis, `sys_id` and update were all truthy |
| Tickets.IterationTakesOnlyNewTickets | models/servicenow.py:197-211 | an id taken in a pass was not processed before, and belongs to a listed ticket that succeeded |
| Tickets.TakenOnce | network_agent.py:118-148 | a ticket taken in one pass of the job is not taken again in a later pass |
| Tickets.Elements | models/servicenow.py:81 | the set of ids a pass took: exactly its members |
| Tickets.Job | models/servicenow.py:190-226 | one recorded pass per poll, in order |
| Tickets.AllTaken | models/servicenow.py:81 | the ids taken over all passes |
| Tickets.JobRecordsEveryTaken | models/servicenow.py:81 | after the job the set is what it held before plus every id taken |
| Tickets.TicketBook.constructor | network_agent.py:11 | the set starts empty |
| Tickets.TicketBook.ProcessTicket | models/servicenow.py:65-86 | true, with the `sys_id` added, exactly when analysis, `sys_id` and update are all truthy (an analysis that raised is None); otherwise false and the set is unchanged; the older agent (network_agent.py:74-96) decides the same over its own set |
| Tickets.TicketBook.RunIteration | models/servicenow.py:194-224 | one pass takes the ids of the pass specification and adds them to the set |
| Tickets.TicketBook.ProcessAll | models/servicenow.py:210-211 | the loop over the new tickets takes them in order |
| Tickets.TicketBook.Poll | models/servicenow.py:190-226 | successive passes give the job specification |
| ServiceNowAgent.DigitRun | models/servicenow.py:135 | `\d+` is greedy: the run ends at the first non-digit |
| ServiceNowAgent.SearchFrom | models/servicenow.py:135 | the leftmost match position, or none anywhere |
| ServiceNowAgent.TicketNumber | models/servicenow.py:135-140 | None exactly when nothing matches; otherwise the leftmost match of "INC" in any case followed by digits, upper-cased |
| ServiceNowAgent.TicketNumberShape | models/servicenow.py:139-140 | a ticket number is "INC" then one digit or more |
| ServiceNowAgent.TicketNumberExample | models/servicenow.py:135-140 | "is inc0012a done" names INC0012 |
| ServiceNowAgent.Failure | models/servicenow.py:117-121 | `{"success": False, "message": …}` |
| ServiceNowAgent.Found | models/servicenow.py:111-116 | `{"success": True, "ticket": …}` |
| ServiceNowAgent.QueryTicketByNumber | models/servicenow.py:102-127 | success exactly when the reply decodes to a dictionary whose `success` is truthy, then with its `incident` or {}; otherwise its `message` or 'Ticket not found', the text of the error raised, or "No response" |
| ServiceNowAgent.Context | models/servicenow.py:135-158 | the prompt is the question unchanged when it names no ticket or the ticket is not found |
| ServiceNowAgent.ContextOfFoundTicket | models/servicenow.py:139-158 | a found ticket is described from the `incident` the reply holds |
| ServiceNowAgent.ServiceNow.constructor | models/servicenow.py:7-11 | all agents share one set; the assignment group comes from the environment with its default; no LLM chosen yet |
| ServiceNowAgent.ServiceNow.SetPreferredLlm | models/servicenow.py:13-14 | the chosen LLM is recorded |
| ServiceNowAgent.ServiceNow.StartJob | models/servicenow.py:170-226 | the LLM is chosen, then the job runs its passes with it over the shared set |
| ServiceNowAgent.ServiceNow.AskLlmWithContext | models/servicenow.py:129-168 | the LLM's answer to the prompt; an LLM error (including no LLM chosen) gives "Sorry, I encountered an error: …" |
| ServiceNowAgent.SharedBook | models/servicenow.py:7 | a ticket taken through one agent is in the set the other agent sees |
| NetworkAgents.NetworkAgent.constructor | network_agent.py:9-11 | each agent has a fresh, empty set of its own |
| NetworkAgents.NetworkAgent.AutonomousLoop | network_agent.py:98-150 | successive passes give the job specification over the agent's own set |
| NetworkAgents.QueryTicket | network_agent.py:163-177 | the decoded reply unchanged; `{"success": False, "message": str(e)}` on an error; None when there is no content |
| NetworkAgents.LookupsAgree | network_agent.py:171-173 | the two agents' lookups agree on whether the ticket was found, and report a raised call alike |

## Left out

- Flask routes, TwiML, the Twilio client and the alert endpoints: request parsing and library calls only.
- Threads, websockets, `asyncio.gather` and sleeping: each relay direction and each monitor is a transformation of the messages it receives, in order.
- Wall-clock time: the clock of the bridge's wait and of the old monitor's wait counts sleeps of exactly 0.5 s, so the test "more than 10 s" first holds after 21 sleeps; timestamps are inputs.
- OnPremBridge.Wait: a real sleep lasts at least 0.5 s plus the loop's overhead, so in practice the program times out after 20 sleeps; the model gives the poller one round more than the program would in practice.
- uuid4 request ids: a counter gives each request a fresh id.
- JSON decoding is an input function; JSON and `str()` rendering do not escape string contents.
- Floats are kept as their printed text: relevance scores are copied and, in the documentation service, formatted with `:.3f` (any int, float or bool formats; other values raise), `IsZero` reads "0.0" and "-0.0" as zero, and where floats are compared (a `sys_id` looked up in the set of taken tickets) two floats are equal only when their texts are.
- Tickets.NewTickets: `not in processed` is the model's value equality, while a Python set also identifies `1`, `1.0` and `True`, `0`, `0.0`, `-0.0` and `False`, and other numbers of equal value across int, float and bool; `sys_id`s of different numeric types but equal value count as different here.
- Tickets.NewTicketsMembers: "not processed" is the model's value equality, not Python's cross-type numeric equality (see Tickets.NewTickets above); the same holds for the set of Tickets.TicketBook.
- LLMs, the ServiceNow MCP session, Pinecone and the embedder are opaque functions; prompt text, ticket descriptions and work notes are opaque strings.
- Starting and failing the MCP session (`stdio_client`, `initialize`) is left out; only the tool call's reply is modelled.
- `models/jobs.py` is not part of this model, so `models/voice_call.py` and `routes/onprem_old.py` are left out.
- `models/agent.py`, `resources.py`, `models/llm_services.py`, `models/gitlab_service.py`, `models/voice/call_acceptor.py` and `static/chat.js`: wiring, SDK calls and UI.
- The tool schema files in `config/` and `models/tools.py`: only their tool names are used, as constants.
- The order of `os.listdir` is an input (the file list); reading a file is an input function that does not fail.
- Whitespace and digits are ASCII plus Latin-1 whitespace; Python's Unicode whitespace, `\d` over Unicode digits and case-insensitive matching beyond ASCII are not modelled.
- RagService.AutoLoadDocuments: the `auto_setup` flag is taken as set; `clear_index` and failures of the embedder or of an upsert are not modelled.
- RagService.Search: the index's answer is taken as its list of matches.
- Webhook.Handle: starting the monitor thread is a recorded action; the thread itself is the call monitor's model.
- Tickets.TicketBook.Poll: the loop never ends in the source; the model runs it over a finite sequence of polls.
- The messages printed, and the iteration counter that only feeds them.

## Findings

| source | as written | input that shows it | evidently intended | confidence | as-written member | corrected member |
|---|---|---|---|---|---|---|
| models/tool_router.py:24-33 | the pattern router has no pattern matching `list_open_tickets` and answers "No handler found", so the chat agent's call of it gets that error (ChatAgents.ChatListOpenTicketsUnrouted) | `route("list_open_tickets", {})` | route it to the ServiceNow handler, which handles it and which the chat agent advertises | not executed | ToolRouting.ListOpenTicketsUnrouted | ChatToolRouter.ExactRoutingReachesEveryTool |
| app_old.py:187 | the `ask_claude` branch calls `network_agent.ask_claude_with_context`, which `NetworkAgent` does not define; the AttributeError ends the monitor | a `response.function_call_arguments.done` event named `ask_claude` | answer the question and send the answer under the call's `call_id` | not executed | AppOld.AskClaudeEndsMonitoring | AppOld.AskClaudeAnswered |
| models/document_loader.py:22-33 | `start` grows by `chunk_size - chunk_overlap`, which is not positive when `chunk_overlap >= chunk_size`, so on a non-empty text `chunk_text` never returns | `DocumentLoader(chunk_size=50, chunk_overlap=50).chunk_text("a")` | a step that moves forward (`chunk_overlap < chunk_size`), as at the only construction, models/rag_service.py:50 (500 and 50) | not executed | DocumentLoading.ChunkTextNeverEnds | DocumentLoading.DocumentLoader.ChunkText |
