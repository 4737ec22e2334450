# Fraud dashboard core, modelled in Dafny

This project models the core of a credit-card fraud dashboard. It covers four areas of the system:

- **Backend gateway** (FastAPI). It authenticates a browser's WebSocket, closing it with code 4001 when the token is refused (an application code in the range of section 7.4.2 of RFC 6455), and runs one chat turn per client frame. Each turn echoes the user's message, shows a thinking indicator and relays the question to the agent service. The agent's Server-Sent Events stream comes back as progress frames, then an Agent answer or an error frame. The turn then persists the messages and announces a new conversation.
- **Backend repositories and statistics.** Transactions are filtered, paged, counted, created and deleted. Users and reports are stored. A statistics overview groups per-category figures and is cached under a time-to-live.
- **Agent service.** It turns the language model's stream chunks into typed updates, picks the final response and writes them as `event:`/`data:` frames. It also keeps a conversation's checkpointer, agent and history.
- **Browser frontend** (React). It renders the transaction list pager, formats agent messages (table sections and bold runs), validates the sign-up and sign-in forms, decodes the session token (the payload of a JSON Web Token, RFC 7519) and decides its expiry. It also keeps the notification list and the report selection, and runs the agent chat page.

Each core file becomes one Dafny module, in the form its source takes:

- **Pure code** becomes datatypes, functions and lemmas. Examples: the frame serialisers, the filter meaning, the pager, the status thresholds, the token decoding.
- **Code that changes state** becomes classes with `modifies` clauses and loops with invariants. Examples: the socket, the repositories, the cache, the notification provider, the forms, the chat page.
- Each such method is proved against a specification function, and the properties the code promises are lemmas about those functions.

Supporting modules model the pieces the code relies on:

- `Wrappers`: Option and Result.
- `Text`: splitting, joining, trimming, decimal digits, UTF-16 length.
- `JsonData` and `JsonParse`:
  - one JSON value type, printed as Python's `json.dumps` and JavaScript's `JSON.stringify` print it;
  - parsed as `json.loads` and `JSON.parse` parse it;
  - the round trip between printing and parsing is proved.
- `PyValues`: Python keyword binding and slicing.
- `JsValues`: JavaScript property reads, truthiness and number conversion.
- `Base64`: `atob`, following the forgiving-base64 decode of the WHATWG Infra standard, and the base64url writer of section 5 of RFC 4648.
- `UriCoding`: UTF-8 as in RFC 3629, and `decodeURIComponent`.
- `Sockets`: a WebSocket and the connection registry.
- `Store`: a journal of persistence calls.

Clocks, random identifiers, network answers, database failures and the language model are parameters of the operations that use them.

## Where the model follows the code rather than the documentation

- **Upstream `error` frame.** An `error` frame from the agent service does not end the turn with an Agent error frame. In the code (`backend/app/service/websocket_service.py:59-85`) it is handled like any other frame that is not `final_response`: it is recorded as a reasoning step and forwarded as a progress frame. The model does the same.
- **Stream without a final response.** A turn does not always end with a terminal frame. In the code, an upstream stream that closes without `final_response` ends the relay with no further frame and no answer. The model does the same.
- **Default timestamp.** `WebSocketMessage`'s timestamp default (`backend/app/schemas/websocket_schema.py:9`) is evaluated once, when the class is defined. A message built without a timestamp therefore carries that class-definition time (`classTime` in the model), not the time of the call.

## Files

| Dafny file | module | models |
|---|---|---|
| relay.dfy | Relay | backend/app/service/websocket_service.py (the SSE relay) |
| schema.dfy | Schema | backend/app/schemas/websocket_schema.py (frame dataclasses) |
| auth.dfy | Auth | backend/app/service/websocket_auth_service.py (socket authentication) |
| inbound.dfy | Inbound | the decoding, echo and thinking indicator of backend/app/routers/chat_router.py and backend/app/service/websocket_message_handler.py |
| chat_router.dfy | ChatRouter | backend/app/routers/chat_router.py (receive loop, send_message) |
| handler.dfy | Handler | backend/app/service/websocket_message_handler.py (one chat turn) |
| store.dfy | Store | the conversation and message persistence calls, as a journal |
| sockets.dfy | Sockets | the WebSocket and the connection registry the gateway uses |
| producer.dfy | Producer | agent-service/src/app/main.py (the SSE producer) |
| agents.dfy | Agents | agent-service/src/app/agents/agents.py (agent state, stream, history) |
| transactions.dfy | Transactions | backend/app/repositories/transaction_repo.py |
| stats.dfy | Stats | backend/app/routers/stats_router.py |
| stats_cache.dfy | StatsCache | backend/app/service/stats_cache_service.py, backend/app/repositories/stats_cache_repo.py |
| users.dfy | Users | backend/app/repositories/user_repo.py |
| list.dfy | Pagination | frontend/src/components/List.tsx |
| textformat.dfy | MessageFormat | frontend/src/components/TextFormat.tsx |
| transaction_info.dfy | TransactionStatus | frontend/src/components/TransactionInfo.tsx |
| personal.dfy | ReportSelection | frontend/src/pages/Personal.tsx |
| notifications.dfy | Notifications | frontend/src/context/NotificationContext.tsx, frontend/src/hooks/useNotification.ts |
| auth_token.dfy | SessionAuth | frontend/src/utils/auth.ts |
| forms.dfy | AuthForms | frontend/src/components/Register.tsx, frontend/src/components/Login.tsx |
| agent_chat.dfy | AgentPage | frontend/src/pages/Agent.tsx |
| wrappers.dfy, text.dfy, json.dfy, json_parse.dfy, python.dfy, js_values.dfy, base64.dfy, uri.dfy | Wrappers, Text, JsonData, JsonParse, PyValues, JsValues, Base64, UriCoding | the language and library behaviour the code relies on |

## Model

| member | source | states |
|---|---|---|
| Relay.RequestBodyFields | backend/app/service/websocket_service.py:49-50 | the request body holds exactly `query`, the user's message, and `thread_id`, the given thread |
| Relay.Relay | backend/app/service/websocket_service.py:13-103 | the request, posted with aiohttp's default total timeout of 300 seconds, is answered by the agent; the relay sends, in order, the wire texts of the frames its outcome for the agent's reply names (progress frames, then the Agent answer or one error frame), returns the answer, and leaves the socket's other state alone |
| Relay.ReadLine | backend/app/service/websocket_service.py:53-57 | one line is stripped, kept only when it starts with `data: `, and its rest decoded; the result is the line's decoded payload |
| Relay.DecodeAll | backend/app/service/websocket_service.py:53-57 | decoding every line and keeping the lines that decoded gives, in order, exactly the payloads of the reply; undecodable lines and `event:`/blank lines are skipped |
| Relay.MakeProgress | backend/app/service/websocket_service.py:71-77 | the progress frame for one payload is what the ProgressMessage constructor builds from its keywords, or nothing when that call raises |
| Relay.ForwardUpdate | backend/app/service/websocket_service.py:59-85 | one decoded payload either ends the relay (final answer, or failure) with the frames it sent, or sends its progress frame and carries on with one more reasoning step, as the reference outcome says |
| Relay.ForwardLines | backend/app/service/websocket_service.py:53-89 | the loop over the lines of a 200 reply sends exactly the frames of the reference outcome of its payloads, and stops as that outcome stops |
| Relay.StopAt | backend/app/service/websocket_service.py:59-85 | the index of the first payload that is not a dict or is the final_response; every payload before it is a dict of another type |
| Relay.CorrectedCollect | backend/app/service/websocket_service.py:59-89 | with the two stray keywords removed: one progress frame per payload up to and including the first final_response, one reasoning step per payload before it, then one Agent frame carrying those steps that is also the answer; with no final_response every payload is forwarded and there is no answer |
| Relay.CorrectedStop | backend/app/service/websocket_service.py:81-89 | a first payload that is a final_response or not a dict ends the relay at once |
| Relay.CorrectedStep | backend/app/service/websocket_service.py:59-78 | any other first payload is forwarded and recorded as a step, and the relay goes on with the rest |
| Relay.CorrectedProgress | backend/app/service/websocket_service.py:71-77 | without `tool_name` and `tool_args`, building the progress frame always succeeds, with progress_type the payload's type |
| Relay.AsWrittenProgressFails | backend/app/service/websocket_service.py:71-77 | as written, every ProgressMessage call raises, whatever the payload |
| Relay.AsWrittenRelay | backend/app/service/websocket_service.py:71-103 | as written, the relay never forwards a progress frame and never answers; a 200 reply with any decodable payload yields only the "Unexpected error:" frame |
| Relay.FourUpdatesExample | backend/app/service/websocket_service.py:59-85 | tool_call, tool_progress and tool_result updates followed by a final_response give four progress frames, then one Agent frame carrying three reasoning steps, which is the answer |
| Relay.NoFinalNoAnswer | backend/app/service/websocket_service.py:51-89 | a reply without a final_response yields no answer, and when the reply is not cut short only progress frames, one per payload |
| Relay.FailureSingleFrame | backend/app/service/websocket_service.py:90-103 | an unreachable service, a client error or a non-200 status each produce exactly one Agent frame, with the failure's text, and no answer |
| Schema.PostInit | backend/app/schemas/websocket_schema.py:11-13 | a None timestamp becomes the current time; any other timestamp is kept |
| Schema.ToDictFields | backend/app/schemas/websocket_schema.py:15-32 | to_dict has exactly the keys type, content, timestamp (and progress_type for a progress frame), each holding the field unchanged |
| Schema.ExtraNotSerialised | backend/app/schemas/websocket_schema.py:15-20 | attributes attached after construction, such as reasoning_steps, change neither the dictionary nor the wire text |
| Schema.FromToDict | backend/app/schemas/websocket_schema.py:15-32 | the dictionary reads back as the frame without its extra attributes |
| Schema.WireRoundTrip | backend/app/schemas/websocket_schema.py:15-32 | what the client receives decodes back to the frame's fields |
| Schema.MessageTimestamp | backend/app/schemas/websocket_schema.py:6-13 | a message built without a timestamp carries the time the class was created, an explicit None the current time, anything else itself |
| Schema.ProgressTypeDefault | backend/app/schemas/websocket_schema.py:22-24 | progress_type defaults to "unknown" |
| Schema.ProgressOf | backend/app/schemas/websocket_schema.py:22-24 | a progress frame built from type, content and progress_type keeps all three and carries the class-creation time |
| Schema.UndeclaredKeywordRejected | backend/app/schemas/websocket_schema.py:22-24 | a keyword that names no declared field makes construction of either frame class fail |
| PyValues.Bind | backend/app/service/websocket_message_handler.py:40 | binding keyword arguments succeeds iff every keyword names a parameter and every parameter is given or defaulted; each parameter then holds its keyword's value or its default, and a failure names the offending keyword or parameter |
| PyValues.LastElements | agent-service/src/app/agents/agents.py:46-47 | `xs[-limit:]` is the last `limit` elements, or all of them when there are fewer; a zero limit gives the whole sequence |
| JsonParse.EncodeParseRoundTrip | backend/app/service/websocket_service.py:57 | json.loads reads back what json.dumps or JSON.stringify writes, and JSON.parse likewise |
| JsonData.EncodePrintable | agent-service/src/app/main.py:75-78 | an encoded value holds only printable characters, so it never contains a line break |
| Inbound.InputMembers | backend/app/service/websocket_message_handler.py:15-24 | plain text has no members, a decoded dict has its own, and any other decoded value raises the AttributeError of `.get` |
| Inbound.PlainTextVerbatim | backend/app/service/websocket_message_handler.py:22-24 | text that is not JSON is the message, verbatim |
| Inbound.ContentOrRaw | backend/app/service/websocket_message_handler.py:17-19 | a JSON object's `content` member is the message, and without one the raw text is |
| Inbound.NonObjectRaises | backend/app/service/websocket_message_handler.py:17-19 | any other JSON value makes the turn raise |
| Inbound.EchoIsConstructor | backend/app/service/websocket_message_handler.py:27-28 | the echo is the User message frame stamped with the turn's time |
| Inbound.ThinkingIsConstructor | backend/app/service/websocket_message_handler.py:31-32 | the thinking indicator is an `initializing` progress frame stamped with the class-creation time |
| Auth.Decide | backend/app/service/websocket_auth_service.py:7-29 | the gate authenticates iff verification succeeded with a payload whose id equals the path's user id; a mismatch or a verification error rejects with a reason |
| Auth.Authenticate | backend/app/service/websocket_auth_service.py:7-29 | on rejection the socket is closed with 4001 and the reason, is not accepted and is sent nothing; on success it is accepted and registered, then sent exactly one auth_success frame |
| Auth.AuthSuccessIsConstructor | backend/app/service/websocket_auth_service.py:25-29 | the auth_success frame names the authenticated id |
| Auth.RejectionReason | backend/app/service/websocket_auth_service.py:14-19 | every close reason the gate gives starts with "Unauthorized: " |
| Sockets.WebSocket.ReceiveText | backend/app/routers/chat_router.py:101 | the next client frame is taken from the inbox, or none when the client has gone |
| Sockets.ConnectionManager.Connect | backend/app/routers/chat_router.py:97 | accepting the handshake registers the socket at the end of the active list |
| Sockets.ConnectionManager.Disconnect | backend/app/routers/chat_router.py:121-122 | every registration of the socket is forgotten and the others keep their order |
| Sockets.Without | backend/app/routers/chat_router.py:121-122 | the removed socket is absent and every other socket is kept |
| ChatRouter.OldRequestFields | backend/app/routers/chat_router.py:53-54 | the older relay's body holds only `query`, and the call has a 60-second timeout |
| ChatRouter.OldIsRelayWithoutTrace | backend/app/routers/chat_router.py:49-90 | the older relay sends the same frames in the same order as the corrected relay, only without reasoning steps: every dict payload, the final one included, as a progress frame, then the Agent frame |
| ChatRouter.SameWireAsRelay | backend/app/routers/chat_router.py:49-90 | for any reply, the client of the older relay receives exactly the texts the client of the corrected relay receives |
| ChatRouter.OldCollectCons | backend/app/routers/chat_router.py:58-76 | what one payload makes the older relay do: fail on a non-dict, answer on the final_response after forwarding it, otherwise forward it and go on |
| ChatRouter.OldForwardUpdate | backend/app/routers/chat_router.py:60-72 | the loop body for one payload sends the frames the reference outcome names for it |
| ChatRouter.OldForwardLines | backend/app/routers/chat_router.py:58-76 | the loop over the lines sends exactly the frames of the reference outcome and stops as it stops |
| ChatRouter.OldRelay | backend/app/routers/chat_router.py:49-90 | the older relay sends exactly the wire texts of the frames its outcome names for the agent's reply, including the one error frame for each failure |
| ChatRouter.ReadMessage | backend/app/routers/chat_router.py:102-108 | a client frame decodes as the handler's message rule says |
| ChatRouter.ServeTurn | backend/app/routers/chat_router.py:111-119 | one answered frame sends the User echo, the thinking indicator, then what the older relay sends |
| ChatRouter.AgentEndpoint | backend/app/routers/chat_router.py:94-123 | the socket is registered, client frames are answered one by one as the reference run says, and the loop ends either by disconnecting (which unregisters the socket) or by the first frame that raises |
| ChatRouter.TurnOpens | backend/app/routers/chat_router.py:111-116 | every answered frame starts with its User echo and the thinking indicator |
| ChatRouter.RunDisconnects | backend/app/routers/chat_router.py:99-122 | the loop ends by disconnecting iff every frame decodes, and then every frame was received and one more receive found none |
| ChatRouter.RunRaises | backend/app/routers/chat_router.py:99-108 | otherwise it stops at the first frame that raises, having received just up to it |
| ChatRouter.AsWrittenSendMessage | backend/app/routers/chat_router.py:125-128 | as written, every request raises UserCredentialsException("Invalid Token;") at the handler's first line, because the HTTPBearer credentials object, not the token text, is handed to verify_token; so it never stores and never answers |
| ChatRouter.SendMessage | backend/app/routers/chat_router.py:125-146 | intended: a failing token check raises before the store is touched; otherwise a falsy conversation id creates a conversation and uses its id, a truthy one is reused, the message is added and stored, and the response carries the user's email and name, the role and the content |
| Store.ChatStore.Record | backend/app/service/websocket_message_handler.py:44-83 | each persistence call is appended to the journal |
| Store.MessagesWithRoleConcat | backend/app/service/websocket_message_handler.py:58-80 | the messages persisted by two runs of calls, by role, are those of each run in order |
| Handler.Override | backend/app/service/websocket_message_handler.py:20-21 | a member present and truthy replaces the session value; otherwise the session value stays |
| Handler.ReadTurn | backend/app/service/websocket_message_handler.py:14-24 | the turn decodes iff the message does; plain text keeps the session's conversation and thread; a decoded dict overrides them with its truthy members |
| Handler.HandleTurn | backend/app/service/websocket_message_handler.py:12-83 | one turn sends and persists exactly what the reference turn says: nothing on disconnect, nothing after a frame that raises, otherwise echo, thinking, relay, conversation_started for a new conversation, then the persistence calls |
| Handler.Answer | backend/app/service/websocket_message_handler.py:27-83 | a decoded turn sends the echo and the thinking indicator before everything else |
| Handler.Relayed | backend/app/service/websocket_message_handler.py:35-83 | after the relay, the conversation is resolved, a new one announced, and the turn persisted, in that order |
| Handler.Persist | backend/app/service/websocket_message_handler.py:58-83 | the persistence calls follow the resolution exactly as the reference turn lists them |
| Handler.TitleCalls | backend/app/service/websocket_message_handler.py:63-69 | the title is stored only for a new conversation that is found and only when a title was produced |
| Handler.TurnFrameOrder | backend/app/service/websocket_message_handler.py:27-55 | a decoded turn sends the User echo, the thinking indicator, everything the relay sent, and, only for a new conversation and last, conversation_started with the resolved ids |
| Handler.ThreadOfTurn | backend/app/service/websocket_message_handler.py:35-37 | a turn is new iff its conversation id is falsy; a new turn relays with a minted `user_<id>_<seconds>` thread, any other with the thread in effect |
| Handler.MintThreadInjective | backend/app/service/websocket_message_handler.py:37 | minted thread ids differ for different users or different seconds |
| Handler.TitleOfResolution | backend/app/service/websocket_message_handler.py:43-44 | the conversation is resolved first, with the relay's thread and its title, or "New Conversation" when none was produced |
| Handler.UserMessagePersisted | backend/app/service/websocket_message_handler.py:58-61 | the user's message is persisted exactly once on every completed turn, whatever the relay returned |
| Handler.AgentMessagePersisted | backend/app/service/websocket_message_handler.py:72-83 | the agent's answer, with its reasoning steps, is persisted and last activity updated last, exactly when the relay returned a message with truthy content |
| Handler.TurnRoles | backend/app/service/websocket_message_handler.py:58-80 | the messages a turn persists are the user's, then the agent's when it answered, and nothing else |
| Handler.AsWrittenTitleCleared | backend/app/service/websocket_message_handler.py:63-69 | as written, a found new conversation has its title overwritten with None when the relay produced no title |
| Handler.AsWrittenRelayCall | backend/app/service/websocket_message_handler.py:40 | binding the handler's keywords to the relay's parameters fails at `user_id` |
| Handler.AsWrittenTurnRaises | backend/app/service/websocket_message_handler.py:27-40 | as written, every decoded turn sends the echo and the thinking indicator, then raises TypeError at the relay call, persisting nothing |
| Producer.ThreadIdOr | agent-service/src/app/main.py:68 | the thread is the request's thread_id, or "default" when it is missing or empty |
| Producer.AgentInput | agent-service/src/app/main.py:72 | the agent input is a single human message holding the query |
| Producer.Emitted | agent-service/src/app/main.py:70-91 | one `token` event per update, in order, then one `error` event when the stream raised |
| Producer.GenerateStream | agent-service/src/app/main.py:70-91 | each chunk is `event: <kind>\n` then `data: <json>\n\n` for the events in order |
| Producer.StreamAgentQuery | agent-service/src/app/main.py:63-100 | the chunks frame the agent's updates and its error, and the relay's line reader gets back exactly those updates followed by the error data |
| Producer.DataLinePayload | agent-service/src/app/main.py:75-78 | a data line has no line break and carries exactly its value |
| Producer.EventLinePayload | agent-service/src/app/main.py:75-78 | an event line carries no payload |
| Producer.FirstEvent | agent-service/src/app/main.py:75-78 | reading an event followed by more text gives the event's data first |
| Producer.EventsRoundTrip | agent-service/src/app/main.py:73-91 | the relay reading a body of events gets back their data, in order |
| Producer.StreamDecodes | agent-service/src/app/main.py:73-91 | a produced stream decodes to the updates, followed by the error data when the agent's stream raised |
| Agents.ConversationState.constructor | agent-service/src/app/agents/agents.py:41-44 | a fresh state holds only the system prompt |
| Agents.ConversationState.GetRecentMessages | agent-service/src/app/agents/agents.py:46-47 | the last `limit` messages, or all when there are fewer; zero gives all, a negative limit drops that many from the front |
| Agents.FreshWindow | agent-service/src/app/agents/agents.py:41-47 | a fresh state's window is the system prompt alone |
| Agents.CustomChunk | agent-service/src/app/agents/agents.py:545-551 | a custom chunk yields exactly one tool_progress update whose content is `str(chunk)` |
| Agents.AgentToolCalls | agent-service/src/app/agents/agents.py:556-570 | tool calls on the agent node's last message yield one tool_call each, in order, with name defaulting to unknown_tool and args to `{}` |
| Agents.ToolCallFields | agent-service/src/app/agents/agents.py:560-570 | a tool_call update carries the call's name and arguments with those defaults |
| Agents.AgentThinking | agent-service/src/app/agents/agents.py:571-576 | otherwise the agent node yields one agent_thinking update iff the content is non-empty |
| Agents.ToolNodeResults | agent-service/src/app/agents/agents.py:578-588 | the tools node yields one tool_result per message, in order, naming the message's tool |
| Agents.ChunkKinds | agent-service/src/app/agents/agents.py:533-588 | every update a chunk gives is tool_progress, tool_call, agent_thinking or tool_result |
| Agents.LastUpdatesIsLast | agent-service/src/app/agents/agents.py:500-501 | the last `updates` chunk of the stream, or none when there was none |
| Agents.NodeNamed | agent-service/src/app/agents/agents.py:508-510 | the node of that name, or none when no node has it |
| Agents.StreamEnds | agent-service/src/app/agents/agents.py:479-531 | the stream is never empty; without an exception it ends with exactly one final_response, otherwise with one error update and the AgentException; everything before is the chunks' progress updates, in order |
| Agents.FinalContent | agent-service/src/app/agents/agents.py:508-522 | the final response's content is the last agent message of the last updates chunk, or the no-data text |
| Agents.NoUpdatesNoData | agent-service/src/app/agents/agents.py:518-522 | a stream without updates chunks ends with the no-data response |
| Agents.StreamAfterCleanup | agent-service/src/app/agents/agents.py:125-139 | after cleanup the agent remains but the checkpointer is gone, so a query ends with the error update and raises |
| Agents.SetupError | agent-service/src/app/agents/agents.py:76-123 | setup fails iff a step raises, with a table error other than "already exists" tolerated |
| Agents.TransactionAgent.Setup | agent-service/src/app/agents/agents.py:76-123 | setup does nothing when already set up; a failure resets checkpointer, agent and context manager to None after exiting an entered context manager; success keeps all three |
| Agents.TransactionAgent.Cleanup | agent-service/src/app/agents/agents.py:125-139 | cleanup exits the context manager and drops the checkpointer, keeping the agent |
| Agents.TransactionAgent.StreamQuery | agent-service/src/app/agents/agents.py:479-531 | the updates yielded and the exception raised are those of the reference stream |
| Agents.TransactionAgent.GetConversationHistory | agent-service/src/app/agents/agents.py:141-184 | `[]` without a checkpointer, checkpoint or on error; otherwise the mapped entries of the last `limit` messages |
| Agents.HistoryOfMessages | agent-service/src/app/agents/agents.py:171-177 | entries map Human to user, AI to assistant and System to system, in order, and drop other kinds |
| Agents.GenerateTitle | agent-service/src/app/agents/agents.py:610-615 | the structured title, "New Conversation" when that title is None, and an AttributeError when there is no structured output |
| Transactions.PieceMeaning | backend/app/repositories/transaction_repo.py:38-69 | the condition one filter field adds to the statement admits a row exactly when that field's demand holds: truthy text and numbers, given booleans and dates, inclusive bounds |
| Transactions.QuadMeaning | backend/app/repositories/transaction_repo.py:38-69 | four consecutive fields' conditions together admit a row exactly when all four demands hold |
| Transactions.WhereMeansMatches | backend/app/repositories/transaction_repo.py:38-69 | the conjunction of all `.where` conditions admits a row if and only if the row meets every field of the filter |
| Transactions.BuildStatement | backend/app/repositories/transaction_repo.py:36-69 | building the statement field by field in the source's order yields conditions that admit exactly the rows the filter matches |
| Transactions.SurroundIsContains | backend/app/repositories/transaction_repo.py:41 | LIKE against `%x%` for an x without metacharacters holds if and only if x occurs in the text |
| Transactions.LowerSurround | backend/app/repositories/transaction_repo.py:41 | lower-casing commutes with the `%x%` pattern and keeps a plain value plain |
| Transactions.TextFilterIsSubstring | backend/app/repositories/transaction_repo.py:40-55 | an ILIKE text filter admits a row exactly when the column is set and contains the value, ignoring ASCII case |
| Transactions.FalsyFiltersIgnored | backend/app/repositories/transaction_repo.py:40-64 | a distance of 0, a minimum amount of 0.0 or an empty country filter nothing, as though absent |
| Transactions.GivenValuesFilter | backend/app/repositories/transaction_repo.py:50-69 | card_present, high_risk_merchant and is_fraud filter whenever given, False and 0 included, and then select exactly the rows with that value |
| Transactions.NoFilterAdmitsAll | backend/app/schemas/filter_schema.py:5-22 | the default filter, every field None, admits every row |
| Transactions.ExecuteSelects | backend/app/repositories/transaction_repo.py:72-73 | running a statement equivalent to a filter returns the stored rows the filter matches, in stored order |
| Transactions.Page | backend/app/repositories/transaction_repo.py:71 | offset/limit keeps the rows from position skip on, at most limit of them, in order |
| Transactions.CreateError | backend/app/repositories/transaction_repo.py:97-102 | a database error is reported as a duplicate exactly when its text, lower-cased, contains "duplicate key", with the duplicate name and message; otherwise as a DatabaseException whose name is the creation failure and whose message is the default "Transaction API Exception" |
| Transactions.DuplicateKeyIsDuplicate | backend/app/repositories/transaction_repo.py:99-100 | an error text starting with "duplicate key" is a duplicate-transaction error |
| Transactions.CountFrauds | backend/app/repositories/transaction_repo.py:21 | the fraud count is at most the number of rows |
| Transactions.FraudCountIsFraudSelection | backend/app/repositories/transaction_repo.py:21 | the fraud count equals the number of rows the filter `is_fraud == True` selects |
| Transactions.FindById | backend/app/repositories/transaction_repo.py:81-83 | a row with the given id is found if and only if one is stored, and what is found carries that id |
| Transactions.Without | backend/app/repositories/transaction_repo.py:108 | the delete statement leaves exactly the rows with another id |
| Transactions.WithoutOne | backend/app/repositories/transaction_repo.py:104-111 | with unique ids, deleting a stored id removes exactly one row, deleting an unknown id changes nothing, and ids stay unique |
| Transactions.TransactionRepository.GetTransactionCount | backend/app/repositories/transaction_repo.py:19-32 | the total is the number of rows and the fraud count the size of the is_fraud selection, never above the total |
| Transactions.TransactionRepository.GetAllTransactions | backend/app/repositories/transaction_repo.py:34-77 | the page (skip, limit) of the rows the filter matches, every one of them stored and matching; a failing query or a negative offset or limit raises the DatabaseException named after the read failure, with the default message |
| Transactions.AsWrittenDateBoundRaises | backend/app/repositories/transaction_repo.py:60-63 | as written, a read raises AttributeError exactly when a start_date or end_date is given, whatever the table holds; without a date bound it answers what the corrected read answers |
| Transactions.TransactionRepository.GetTransactionId | backend/app/repositories/transaction_repo.py:79-88 | the stored row with that id, None exactly when no stored row has it; a failing query raises the DatabaseException named after the lookup failure, with the default message |
| Transactions.TransactionRepository.CreateTransaction | backend/app/repositories/transaction_repo.py:90-102 | a new id is appended unless the database fails; a stored id is refused as a duplicate; any other failure raises what its text classifies to (a DatabaseException carries the creation failure as its name and the default message); a failure rolls back, leaving the rows unchanged, and ids stay unique |
| Transactions.TransactionRepository.DeleteTransaction | backend/app/repositories/transaction_repo.py:104-115 | a failing lookup raises its own DatabaseException uncaught; an unknown id answers None and changes nothing; a found row is removed and returned, leaving exactly the rows with another id, one fewer; a failing delete raises the deletion's DatabaseException with the rows unchanged |
| StatsCache.UpsertThenLookup | backend/app/repositories/stats_cache_repo.py:15-55 | after an upsert, a get on that key returns the upserted data and every other key reads as before |
| StatsCache.UpsertRows | backend/app/repositories/stats_cache_repo.py:33-51 | an existing row keeps its id and creation time, gets the data and updated_at = utcnow(); a new key adds one row with the next id and both timestamps from the column default |
| StatsCache.UpsertKeepsIds | backend/app/repositories/stats_cache_repo.py:41-51 | an upsert keeps row ids distinct and below the next id, which moves on only when a row is added |
| StatsCache.RemoveThenLookup | backend/app/repositories/stats_cache_repo.py:57-70 | after a delete the key reads as absent, other keys read as before, and a stored key's removal shrinks the table by one |
| StatsCache.StatsCacheRepository.GetCachedStats | backend/app/repositories/stats_cache_repo.py:15-23 | the row stored under the key, None when there is none or the read fails |
| StatsCache.StatsCacheRepository.UpsertCachedStats | backend/app/repositories/stats_cache_repo.py:25-55 | on success the table is the upsert of the old one and the stored row is returned; a failure rolls back and leaves the table as it was |
| StatsCache.StatsCacheRepository.DeleteCachedStats | backend/app/repositories/stats_cache_repo.py:57-70 | false and nothing changed for a missing key or a failed read; true and the key gone when the delete commits; a failed delete rolls back |
| StatsCache.RefreshedOverviewServed | backend/app/service/stats_cache_service.py:12-38 | after the overview is written, a later unforced request is served that data exactly while it is younger than the TTL, counted from utcnow() of an update or from the column default of a creation |
| StatsCache.ServedFromCacheCases | backend/app/service/stats_cache_service.py:30-38 | a forced refresh or a failed read never serves the cache, and a row updated now is served |
| StatsCache.Recompute | backend/app/service/stats_cache_service.py:51-122 | the recomputed overview is the per-category map of statistics over the service's dimensions, with exactly the service's categories as keys |
| StatsCache.StatsCacheService.GetStatsOverview | backend/app/service/stats_cache_service.py:19-49 | a fresh cached overview is returned untouched; otherwise the overview is recomputed, stored by upsert and returned, and a failed write is the error with the cache unchanged |
| StatsCache.StatsCacheService.RefreshCache | backend/app/service/stats_cache_service.py:124-126 | always recomputes and upserts the overview, or reports the failed write with the cache unchanged |
| Stats.KeywordFilter | backend/app/service/stats_cache_service.py:67-100 | a card_present keyword becomes the integer filter 1 or 0, and a weekend_transaction keyword, not a field of the filter, leaves it empty |
| Stats.KeyDeterminesFilter | backend/app/service/stats_cache_service.py:67-100 | filters built with one keyword under equal keys are equal, so a key never names two different statistics |
| Stats.CategoryMapKeys | backend/app/service/stats_cache_service.py:119-120 | a category's map has exactly one key per value it was built from |
| Stats.CategoryMapValues | backend/app/service/stats_cache_service.py:119-120 | each value's key maps to the statistics of the filter built from that value |
| Stats.FillEntries | backend/app/service/stats_cache_service.py:119-120 | zipping one category's entries into an empty map yields that category's map and touches no other category |
| Stats.PlanFill | backend/app/service/stats_cache_service.py:67-120 | zipping the whole plan gives every category its own map and leaves categories outside the plan as they were |
| Stats.OverviewMeaning | backend/app/service/stats_cache_service.py:108-120 | the response has exactly the planned categories as keys, each mapping every value to its statistics |
| Stats.AppendDimension | backend/app/service/stats_cache_service.py:67-100 | one category's loop appends, in order, one entry per value |
| Stats.FetchSequentially | backend/app/service/stats_cache_service.py:102-106 | the gathered results are, position by position, the statistics of the planned filters |
| Stats.Categorize | backend/app/service/stats_cache_service.py:119-120 | the zip loop stores each result under its category and key, as the fill of the plan |
| Stats.BuildOverview | backend/app/service/stats_cache_service.py:67-120 | the response built by loop, fetch and zip is the overview: the planned categories, each mapping every value to its statistics |
| Stats.SevenCategories | backend/app/service/stats_cache_service.py:108-117 | the service's seven dimensions have distinct categories, exactly the cached overview's |
| Stats.EightCategories | backend/app/routers/stats_router.py:248-257 | the router's eight dimensions have distinct categories, exactly the /overview response's |
| Stats.ComputeStatsOverview | backend/app/service/stats_cache_service.py:51-122 | the overview has the seven service categories, each mapping every distinct value to the statistics of its filter |
| Stats.GetStatsOverview | backend/app/routers/stats_router.py:184-262 | /overview answers the eight categories, card_present included, each mapping every value to the statistics of its filter |
| Stats.TwoValuedCategories | backend/app/routers/stats_router.py:201-239 | the high-risk and card-present maps hold true and false with their filters, and both weekend keys hold the unfiltered statistics |
| Stats.TextArgs | backend/app/service/stats_cache_service.py:67-85 | every distinct text value gives one argument per text category, the keys are those values, and each category's map is consistent |
| Stats.PositionalEndpointsFail | backend/app/routers/stats_router.py:41-119 | as written, /merchant_category, /device and /high_risk_merchant fail whenever there is a value, since pydantic refuses positional arguments |
| Stats.AsWrittenChannelIgnoresChannels | backend/app/routers/stats_router.py:81-99 | as written, /channel reads the device values: with no devices it answers an empty map although a channel exists, where the intended endpoint answers it |
| Stats.MerchantCategoryEndpointMeaning | backend/app/routers/stats_router.py:41-59 | intended /merchant_category maps each category to the statistics of the rows with that merchant_category |
| Stats.DeviceEndpointMeaning | backend/app/routers/stats_router.py:61-79 | intended /device maps each device to the statistics of the rows with that device |
| Stats.ChannelEndpointMeaning | backend/app/routers/stats_router.py:81-99 | intended /channel maps each channel to the statistics of the rows with that channel |
| Stats.CountriesEndpointMeaning | backend/app/routers/stats_router.py:21-39 | /countries has exactly the distinct countries as keys, each mapping to the statistics of the rows from that country |
| Stats.DistanceZeroIsUnfiltered | backend/app/routers/stats_router.py:121-140 | the distance value 0 is falsy and filters nothing, so its entry holds the statistics of all rows |
| Users.FindUser | backend/app/repositories/user_repo.py:21-27 | the row found carries the id, and None exactly when no row has it |
| Users.FindUserByEmail | backend/app/repositories/user_repo.py:29-35 | the row found carries the email, and None exactly when no row has it |
| Users.FindUniqueUser | backend/app/models/user_model.py:6-13 | with unique id and email columns, each lookup finds the one row with that key |
| Users.WithoutUser | backend/app/repositories/user_repo.py:74 | the delete statement leaves exactly the rows with another id |
| Users.WithoutOneUser | backend/app/repositories/user_repo.py:74-79 | with unique ids, deleting an existing id removes exactly one row |
| Users.WithoutNone | backend/app/repositories/user_repo.py:74-76 | deleting an id no row has keeps every row |
| Users.StoredRoundTrip | backend/app/models/user_model.py:6-13 | a set of attributes the table accepts is exactly the attributes of the row stored from it |
| Users.SetAttributesAt | backend/app/repositories/user_repo.py:61-63 | after the setattr loop a column holds the value of the last item naming it, or its old value when none does |
| Users.IgnoredKeysChangeNothing | backend/app/repositories/user_repo.py:62 | items whose keys name none of the user's five columns are skipped and change nothing (keys naming other attributes are treated as absent; see below) |
| Users.UpdatedRow | backend/app/repositories/user_repo.py:57-66 | the committed row holds, per column, the last value the update gives it, otherwise the loaded value |
| Users.NullIsRefused | backend/app/models/user_model.py:6-13 | a None assigned to any column cannot be committed, every column being NOT NULL |
| Users.AsWrittenCreateUserFails | backend/app/repositories/user_repo.py:47 | as written, the inserted object leaves the NOT NULL `confirmed` column NULL, so no user can ever be stored |
| Users.NewUserStored | backend/app/repositories/user_repo.py:45-51 | with `confirmed` defaulting to False, the stored row carries the drawn id and exactly the given email, name and password |
| Users.UserRepository.GetUser | backend/app/repositories/user_repo.py:21-27 | the row with that id or None, and the UserException exactly when the read fails |
| Users.UserRepository.GetUserByEmail | backend/app/repositories/user_repo.py:29-35 | the row with that email or None, and the UserException exactly when the read fails |
| Users.UserRepository.GetUsers | backend/app/repositories/user_repo.py:37-43 | the page (skip, limit) of the table, at most limit stored rows; the UserException for a failed read or a negative offset or limit |
| Users.UserRepository.CreateUser | backend/app/repositories/user_repo.py:45-55 | draws the next id; appends the new unconfirmed user unless the read fails or the id or email is taken, in which case it rolls back with the UserException and the table unchanged |
| Users.UserRepository.UpdateUser | backend/app/repositories/user_repo.py:57-70 | a missing user answers None and changes nothing; otherwise the row is replaced by the updated one when it can be stored with keys still unique, else the UserException with the table unchanged |
| Users.UserRepository.DeleteUser | backend/app/repositories/user_repo.py:72-83 | deletes the one row with that id; a missing id is UserNotFoundException and a failed statement the UserException, both leaving the table unchanged |
| Users.ReportsOf | backend/app/repositories/user_repo.py:100-105 | exactly the reports whose user_id is the user's |
| Users.Latest | backend/app/repositories/user_repo.py:118-122 | a stored report with the greatest creation time, None exactly for no reports |
| Users.FindReport | backend/app/repositories/user_repo.py:107-112 | the report found carries the id, and None exactly when no report has it |
| Users.LatestOfUser | backend/app/repositories/user_repo.py:114-122 | the user's latest report is theirs and no report of theirs is newer; None exactly when they have none |
| Users.ReportRepository.Create | backend/app/repositories/user_repo.py:88-98 | appends a report with the next id, the user, the current local time and the content; a database error propagates unwrapped and leaves the reports unchanged; the drawn id is consumed either way |
| Users.ReportRepository.GetByUserId | backend/app/repositories/user_repo.py:100-105 | exactly the stored reports of that user |
| Users.ReportRepository.GetById | backend/app/repositories/user_repo.py:107-112 | the stored report with that id, None exactly when there is none |
| Users.ReportRepository.GetLatestUserReport | backend/app/repositories/user_repo.py:114-122 | the user's stored report with the greatest creation time, None exactly when they have none |
| Users.ReportRepository.Delete | backend/app/repositories/user_repo.py:124-136 | removes the report with that id; a missing id or a failed statement raises a DatabaseException whose name says which and whose message is the default, with the reports unchanged |
| Pagination.CeilDiv | frontend/src/components/List.tsx:9 | Math.ceil(n / d) for a positive divisor: the least q with n <= d * q |
| Pagination.PageCount | frontend/src/components/List.tsx:9 | at least one page; for a positive total, the fewest pages of five that hold every item |
| Pagination.Clamp | frontend/src/components/List.tsx:11-13 | the effect leaves a page within the count alone and pulls a page beyond it back to the last page |
| Pagination.ItemCount | frontend/src/components/List.tsx:16-21 | a page shows between 0 and 5 items |
| Pagination.Items | frontend/src/components/List.tsx:16-21 | the placeholders of a page are 0, 1, ..., one per item shown |
| Pagination.ItemsThroughPages | frontend/src/components/List.tsx:16-21 | the first k pages together show min(total, 5k) items |
| Pagination.PagesHoldEveryItem | frontend/src/components/List.tsx:9-21 | the pages up to the page count show every item exactly once, a page beyond the count shows none, and every page within it shows at least one |
| Pagination.Range | frontend/src/components/List.tsx:25 | `Array.from` with `i + 1` gives the consecutive pages lo..hi |
| Pagination.Trio | frontend/src/components/List.tsx:23-34 | every page when there are at most five, otherwise three consecutive pages, all within 1..pageCount |
| Pagination.Buttons | frontend/src/components/List.tsx:54-85 | the numbered buttons start with the trio |
| Pagination.TrioIsRun | frontend/src/components/List.tsx:23-34 | the trio is 1..pageCount for up to five pages, else 1, 2, 3 near either end and the current page with its neighbours in between |
| Pagination.ButtonsAfterTrio | frontend/src/components/List.tsx:67-85 | after the trio come no buttons when it reaches the last page, the last page when it reaches the one before, and the last two pages otherwise |
| Pagination.ButtonsInOrder | frontend/src/components/List.tsx:54-85 | the buttons are distinct pages in increasing order, within 1..pageCount, at most five, and the last page always has one |
| Pagination.CurrentPageHasButton | frontend/src/components/List.tsx:23-85 | the current page always has a button, so the highlighted page is visible |
| Pagination.EllipsisMarksGap | frontend/src/components/List.tsx:36 | the ellipsis is shown exactly when pages are skipped between the trio and the next button |
| Pagination.LastPagesShowFirstTrio | frontend/src/components/List.tsx:30-32 | on the last two pages of nine the trio is 1, 2, 3, and the current page is reached through the last-page buttons |
| Pagination.Prev | frontend/src/components/List.tsx:48 | "previous" never goes below page 1 and otherwise steps back one page |
| Pagination.Next | frontend/src/components/List.tsx:88 | "next" never goes beyond the last page and otherwise steps forward one page |
| Pagination.Step | frontend/src/components/List.tsx:5-13 | only a change of the total changes the total |
| Pagination.StepKeepsPageInRange | frontend/src/components/List.tsx:11-88 | the page stays within 1..pageCount under every rendered button, previous, next and every change of the total |
| Pagination.InitialPagerValid | frontend/src/components/List.tsx:5-9 | the initial state, 42 items on page 1, is in range and has nine pages |
| MessageFormat.TableLineHasTwoBars | frontend/src/components/TextFormat.tsx:4-17 | a line is a table line exactly when it holds at least two bars; the `includes` test adds nothing |
| MessageFormat.Runs | frontend/src/components/TextFormat.tsx:15-46 | the lines are cut into runs, at most one per line, none for no lines, the last of the last line's kind |
| MessageFormat.RunsCoverLines | frontend/src/components/TextFormat.tsx:15-46 | the runs, concatenated, are the lines, in order |
| MessageFormat.RunsMaximal | frontend/src/components/TextFormat.tsx:19-45 | no run is empty, every line has its run's kind, and neighbouring runs differ in kind |
| MessageFormat.TableTextNotBlank | frontend/src/components/TextFormat.tsx:35-55 | a run of table lines never trims to nothing, so every table run becomes a section |
| MessageFormat.SectionIndices | frontend/src/components/TextFormat.tsx:23-58 | the section keys are 0, 1, 2, ... in order, so no two sections share one |
| MessageFormat.OneTableSectionPerRun | frontend/src/components/TextFormat.tsx:33-55 | every run of table lines becomes exactly one table section, in order, holding its lines joined and trimmed |
| MessageFormat.TextSectionsNotBlank | frontend/src/components/TextFormat.tsx:21-49 | no text section is blank |
| MessageFormat.FormatMessageContent | frontend/src/components/TextFormat.tsx:1-70 | one text block when no line is a table line, otherwise the sections of the content's runs |
| MessageFormat.ReadLineStep | frontend/src/components/TextFormat.tsx:15-46 | reading one line keeps the loop's variables in step with the runs of the lines read |
| MessageFormat.BuildSections | frontend/src/components/TextFormat.tsx:10-63 | the loop and the final push give exactly the sections of the runs of the lines |
| MessageFormat.CloseFrom | frontend/src/components/TextFormat.tsx:73 | the lazy `.*?\*\*` ends at the first `**` reached without crossing a line terminator |
| MessageFormat.FirstMatch | frontend/src/components/TextFormat.tsx:73 | the leftmost match of the bold pattern at or after a position; None when there is none |
| MessageFormat.BoldParts | frontend/src/components/TextFormat.tsx:73 | split with a capture group yields an odd number of parts |
| MessageFormat.BoldPartsRoundTrip | frontend/src/components/TextFormat.tsx:73 | the parts concatenate back to the content |
| MessageFormat.OddPartsAreMatches | frontend/src/components/TextFormat.tsx:73 | every odd part is a match of the bold pattern |
| MessageFormat.RenderPart | frontend/src/components/TextFormat.tsx:76-84 | a part is bold exactly when it starts and ends with `**`; a plain part renders unchanged, and a long enough bold part is its text in `**` |
| MessageFormat.FormatTextContent | frontend/src/components/TextFormat.tsx:71-87 | one span per part |
| MessageFormat.MatchesRenderBold | frontend/src/components/TextFormat.tsx:73-80 | every bold match renders as a bold span of its inner text |
| MessageFormat.UnmatchedStarsRenderBold | frontend/src/components/TextFormat.tsx:78-80 | a `**` pair across a line break is not a match yet renders bold, and a lone `**` renders as an empty bold span |
| TransactionStatus.StatusOf | frontend/src/components/TransactionInfo.tsx:9-17 | Processed exactly below 0.3, Under Review exactly from 0.3 up to 0.7, Blocked exactly from 0.7 on |
| TransactionStatus.StatusMonotone | frontend/src/components/TransactionInfo.tsx:9-17 | a higher fraud probability never gives a milder status |
| TransactionStatus.ColoursDistinct | frontend/src/components/TransactionInfo.tsx:7-44 | the three statuses have distinct labels and distinct colours |
| ReportSelection.Remove | frontend/src/pages/Personal.tsx:62 | deleting an id from the selection keeps every other id and drops that one |
| ReportSelection.ToggleFlips | frontend/src/pages/Personal.tsx:58-68 | a checkbox change flips that report's membership and leaves every other report's as it was |
| ReportSelection.ToggleDistinct | frontend/src/pages/Personal.tsx:58-68 | the selection stays a set: no id is selected twice |
| ReportSelection.ToggleTwice | frontend/src/pages/Personal.tsx:58-68 | changing the same checkbox twice restores the selected ids, and the selection itself when the id was not selected |
| ReportSelection.PersonalPage.constructor | frontend/src/pages/Personal.tsx:58-68 | the page starts with no reports and nothing selected |
| ReportSelection.PersonalPage.CheckboxChange | frontend/src/pages/Personal.tsx:58-68 | the selection becomes its toggle at that report; the reports are untouched and no id is selected twice |
| ReportSelection.PersonalPage.DeleteSelected | frontend/src/pages/Personal.tsx:70-94 | nothing happens with an empty selection; otherwise one delete request per selected id, then the reports are reloaded for a logged-in user and the selection cleared; a failure keeps both as they were |
| Notifications.Added | frontend/src/context/NotificationContext.tsx:23-29 | the new notification keeps the type, message and persistence given, takes the id, and has the given duration or 5000 ms |
| Notifications.WithoutId | frontend/src/context/NotificationContext.tsx:44 | removing by id keeps exactly the notifications with another id, in order |
| Notifications.WithoutUnknownId | frontend/src/context/NotificationContext.tsx:43-45 | removing an id no notification has changes nothing |
| Notifications.AddThenRemove | frontend/src/context/NotificationContext.tsx:23-45 | adding a notification with a fresh id and then removing that id restores the list |
| Notifications.NotificationCenter.constructor | frontend/src/context/NotificationContext.tsx:21 | the provider starts with no notifications and no timers |
| Notifications.NotificationCenter.AddNotification | frontend/src/context/NotificationContext.tsx:23-41 | appends the new notification, returns its id and schedules its removal after its duration exactly when it is not persistent |
| Notifications.NotificationCenter.RemoveNotification | frontend/src/context/NotificationContext.tsx:43-45 | the list loses exactly the notifications with that id; timers are untouched |
| Notifications.NotificationCenter.ClearAllNotifications | frontend/src/context/NotificationContext.tsx:47-49 | the list is emptied; scheduled timers still fire |
| Notifications.NotificationCenter.FireTimer | frontend/src/context/NotificationContext.tsx:35-37 | a timer that fires removes its notification's id from the list and is itself gone |
| Notifications.HelpersTagTheirKind | frontend/src/hooks/useNotification.ts:6-52 | each helper adds a notification of its own type with the message given, a duration defaulting to 5000 ms, and auto-dismissal |
| Notifications.AuthSuccessDefault | frontend/src/hooks/useNotification.ts:46-52 | showAuthSuccess without a message says "Successfully authenticated!" |
| Notifications.ProgressDurations | frontend/src/hooks/useNotification.ts:54-61 | a progress notification lasts 10000 ms by default; a persistent one is never dismissed and gets the 5000 ms default |
| Notifications.PersistentNeverScheduled | frontend/src/hooks/useNotification.ts:63-69 | a persistent notification is marked persistent and never scheduled for removal |
| Text.SplitLength | frontend/src/components/TextFormat.tsx:3-5 | `split` on a character gives one more part than the character's occurrences |
| Text.JoinSplit | frontend/src/components/TextFormat.tsx:3 | joining the parts of a split with the same character gives the string back |
| JsValues.Property | frontend/src/utils/auth.ts:63-64 | reading a property of null throws; of an object it is the last member with that key, or undefined |
| JsValues.StringToNumberRoundTrip | frontend/src/utils/auth.ts:25 | a number written as a string reads back as that number |
| JsValues.ToNumber | frontend/src/utils/auth.ts:24-25 | null compares as 0; undefined and an object compare as NaN |
| Base64.Atob | frontend/src/utils/auth.ts:9 | atob succeeds exactly when, whitespace and final padding removed, the text has no length of the form 4k + 1 and only alphabet characters |
| Base64.ToStandard | frontend/src/utils/auth.ts:7 | the replacement maps '-' to '+' and '_' to '/', character by character, keeping the length |
| Base64.AtobEncode | frontend/src/utils/auth.ts:9 | atob reads back the octets the unpadded standard encoder wrote |
| Base64.UrlSegmentRoundTrip | frontend/src/utils/auth.ts:6-9 | a base64url token segment, rewritten into the standard alphabet, decodes with atob to the octets it was written from |
| Base64.AtobForgiving | frontend/src/utils/auth.ts:9 | "YQ==" decodes to "a"; a lone character and a character outside the alphabet make atob throw |
| UriCoding.PercentByte | frontend/src/utils/auth.ts:11 | each octet becomes '%' and exactly two hexadecimal digits, a leading zero included |
| UriCoding.PercentEncode | frontend/src/utils/auth.ts:10-12 | the escaped text has three characters per octet |
| UriCoding.DecodeUtf8Escapes | frontend/src/utils/auth.ts:8-13 | decodeURIComponent of the escaped UTF-8 octets of a text is that text |
| UriCoding.InvalidUtf8Refused | frontend/src/utils/auth.ts:8-17 | a lone continuation octet, an overlong form and an encoded surrogate make decodeURIComponent throw |
| SessionAuth.DecodeJwt | frontend/src/utils/auth.ts:4-18 | a token without a dot has no payload segment and decodes to null |
| SessionAuth.PayloadSegment | frontend/src/utils/auth.ts:6 | the payload segment is the text between the first two dots |
| SessionAuth.DecodeJwtRoundTrip | frontend/src/utils/auth.ts:4-18 | the payload of a token written as header, base64url UTF-8 payload and signature decodes to what JSON.parse makes of the payload text, whatever the header and signature |
| SessionAuth.DecodeJwtOfPayload | frontend/src/utils/auth.ts:4-18 | a payload written by JSON.stringify decodes to itself |
| SessionAuth.IsTokenExpired | frontend/src/utils/auth.ts:20-26 | a token without a truthy payload is expired; an expired one with a payload has an `exp` before now |
| SessionAuth.ExpiryIsPermanent | frontend/src/utils/auth.ts:20-26 | a token expired at one time stays expired at every later time |
| SessionAuth.NoExpNeverExpires | frontend/src/utils/auth.ts:25 | a payload object without `exp` never expires, undefined comparing as NaN |
| SessionAuth.ExpiresAtExp | frontend/src/utils/auth.ts:20-26 | a token whose payload carries an integer `exp` is expired exactly when that second has passed |
| SessionAuth.Verify | frontend/src/utils/auth.ts:50-67 | the token is accepted exactly when the request answers ok with a JSON body that is not null |
| SessionAuth.LocalStorage.constructor | frontend/src/utils/auth.ts:29 | storage starts with the given item |
| SessionAuth.LocalStorage.IsUserLoggedIn | frontend/src/utils/auth.ts:28-38 | logged in exactly with a present, unexpired token; an expired token is removed, so afterwards no stored token is expired |
| SessionAuth.LocalStorage.GetCurrentUser | frontend/src/utils/auth.ts:40-44 | the decoded payload exactly for a present, unexpired token, and it is truthy; storage is untouched |
| SessionAuth.LocalStorage.VerifyTokenWithApi | frontend/src/utils/auth.ts:46-69 | no token: no request; otherwise a Bearer header with the token, and a rejected token is removed, an accepted one kept with the user the answer names |
| AuthForms.Fields | frontend/src/components/Register.tsx:152 | the fields a form validates on submit include the email and the password |
| AuthForms.FieldSet | frontend/src/components/Register.tsx:158-163 | the fields marked touched on submit are exactly the form's fields |
| AuthForms.WithValueMeaning | frontend/src/components/Register.tsx:113-121 | an input change sets that field's value and keeps every other field's |
| AuthForms.ValidateField | frontend/src/components/Register.tsx:88-111 | at most one error, on the field itself; none exactly when the field meets its rule, and none for a field the form does not have |
| AuthForms.NameMessages | frontend/src/components/Register.tsx:92-95 | a blank name is "required", a trimmed name under two characters "too short", and the login form never checks a name |
| AuthForms.EmailMessages | frontend/src/components/Register.tsx:96-99 | an empty email is "required" and one without a dot after the '@' "invalid", on either form |
| AuthForms.PasswordMessages | frontend/src/components/Register.tsx:100-107 | an empty password is "required"; registration alone demands eight characters and a confirmation |
| AuthForms.EmailShapeNecessary | frontend/src/components/Register.tsx:98 | an email the pattern accepts has no whitespace and exactly one '@' |
| AuthForms.EmailShapeSufficient | frontend/src/components/Register.tsx:98 | local@domain.tld with parts free of whitespace and '@' is accepted |
| AuthForms.EmailExamples | frontend/src/components/Register.tsx:98 | "a@b.c" is accepted; a leading space or a missing dot is refused |
| AuthForms.MergeFieldErrorMeaning | frontend/src/components/Register.tsx:123-129 | the field's error becomes the new one, or is removed when there is none; every other field's error is kept |
| AuthForms.AllErrorsMeaning | frontend/src/components/Register.tsx:149-156 | the submit errors hold exactly the fields that break their rule, each with its own message |
| AuthForms.PreCheck | frontend/src/components/Register.tsx:22-29 | RegisterUser goes on exactly when the passwords match and have at least eight UTF-16 units; a mismatch is reported first |
| AuthForms.NoFieldErrorsPassPreChecks | frontend/src/components/Register.tsx:22-107 | a registration without field errors always passes RegisterUser's own checks |
| AuthForms.RequestCarriesFields | frontend/src/components/Register.tsx:31-44 | the request body parses back to an object holding every field of the form with its value |
| AuthForms.RegisterResult | frontend/src/components/Register.tsx:21-74 | a failed request, a non-ok answer or an unparsable body is an error |
| AuthForms.LoginResult | frontend/src/components/Login.tsx:3-29 | a failed request, a non-ok answer or an unparsable body is an error; success always stores a token |
| AuthForms.ValidRegistrationIsSent | frontend/src/components/Register.tsx:147-190 | once the fields are valid, submitting a registration is exactly the request and its answer |
| AuthForms.ValidationErrorsListed | frontend/src/components/Register.tsx:47-53 | a 422 answer lists every validation message after "Validation error: ", joined by ", " |
| AuthForms.RegisterStoresAccessToken | frontend/src/components/Register.tsx:64-66 | a successful registration stores the token's access_token |
| AuthForms.LoginWithoutTokenStoresUndefined | frontend/src/components/Login.tsx:22 | a successful login answer without access_token stores the string "undefined" |
| AuthForms.AuthForm.constructor | frontend/src/components/Register.tsx:76-86 | the form starts empty, untouched, without errors, not loading |
| AuthForms.AuthForm.InputChange | frontend/src/components/Register.tsx:113-131 | the field takes the value; a touched field is revalidated and an untouched one keeps its errors; nothing else changes |
| AuthForms.AuthForm.Blur | frontend/src/components/Register.tsx:133-145 | the field becomes touched and its error is revalidated; the values are unchanged |
| AuthForms.AuthForm.CollectErrors | frontend/src/components/Register.tsx:149-156 | the loop over the form's fields collects exactly the errors of the fields that break their rule |
| AuthForms.AuthForm.Submit | frontend/src/components/Register.tsx:147-190 | every field is touched and the errors are those of all fields; with errors nothing is sent; otherwise the body is sent, a success navigates home and stores the token, a failure shows its message, and loading ends |
| AuthForms.AuthForm.Send | frontend/src/components/Register.tsx:168-189 | sends the body; success navigates home and stores any token; failure shows its message and keeps the stored token; loading ends |
| AgentPage.ReplaceEscapedNewlines | frontend/src/pages/Agent.tsx:50 | replacing the backslash-n pairs never lengthens the text and empties only the empty text |
| AgentPage.NoEscapedNewlineRemains | frontend/src/pages/Agent.tsx:50 | no backslash-n pair is left after the replacement |
| AgentPage.ReplaceUndoesEscape | frontend/src/pages/Agent.tsx:50 | escaping newlines as backslash-n, then replacing, restores a text that had no such pair |
| AgentPage.WithContent | frontend/src/pages/Agent.tsx:48-51 | the spread copy keeps every member but content in place and sets content |
| AgentPage.WithContentLookup | frontend/src/pages/Agent.tsx:48-51 | reading content from the copy gives the new content, any other key what the frame had |
| AgentPage.OnFrame | frontend/src/pages/Agent.tsx:37-54 | what is appended is always an object |
| AgentPage.AppendedMessage | frontend/src/pages/Agent.tsx:37-54 | an appended message comes from a frame that parsed to an object, is not a typing frame and has string content; it keeps every other field and holds the replaced content |
| AgentPage.ObjectFrameAppended | frontend/src/pages/Agent.tsx:37-54 | an object frame that is not typing and has string content is appended with the replaced content |
| AgentPage.AgentFrameAppended | frontend/src/pages/Agent.tsx:37-54 | the gateway's Agent frame is appended as the same message with its backslash-n pairs turned into newlines |
| AgentPage.ContentFrameRoundTrip | frontend/src/pages/Agent.tsx:83-87 | the frame sent parses back to an object whose only member is the content |
| AgentPage.ChatPage.constructor | frontend/src/pages/Agent.tsx:11-15 | the page starts with no messages, no typing indicator, an empty box and no socket |
| AgentPage.ChatPage.Connect | frontend/src/pages/Agent.tsx:71 | a socket now exists; the connection flag waits for onopen |
| AgentPage.ChatPage.OnOpen | frontend/src/pages/Agent.tsx:32-35 | the page is connected and nothing else changes |
| AgentPage.ChatPage.OnCloseOrError | frontend/src/pages/Agent.tsx:56-66 | the page is disconnected and nothing else changes |
| AgentPage.ChatPage.InputChange | frontend/src/pages/Agent.tsx:157 | the box holds the value typed and nothing else changes |
| AgentPage.ChatPage.OnMessage | frontend/src/pages/Agent.tsx:37-54 | a typing frame shows the indicator; a frame that fails before it changes nothing; any other frame hides the indicator and, when its content is text, appends the message |
| AgentPage.ChatPage.SendMessage | frontend/src/pages/Agent.tsx:80-94 | without text, a socket or a connection nothing is sent; otherwise the trimmed text goes out as a content frame and the box is cleared |
| Relay.AsWrittenCollect | backend/app/service/websocket_service.py:71-77 | as written, payloads end the relay at once with one "Unexpected error:" frame; no payloads leave it with nothing sent |
| Relay.Send | backend/app/service/websocket_service.py:78 | one frame goes out as the JSON text of its dict, appended to what the socket has sent; the rest of the socket is unchanged |
| Producer.EmittedData | agent-service/src/app/main.py:70-91 | the data of the emitted events are the updates, in order, then the error data when the stream raised |

## Left out

### Effects that are not modelled

- **Outside inputs are parameters.** These are network answers, database failures, clocks (`datetime.now`, `datetime.utcnow`, `Date.now`, the time a class is defined), random identifiers (`Math.random`), the language model's stream chunks and titles, and the SSE upstream. I/O itself is not modelled.
- **Concurrency and timers.**
  - The `asyncio.gather` calls of the per-category statistics endpoints (`backend/app/routers/stats_router.py:29-172`) are modelled as one map over the values, in order (the endpoint members such as `Stats.CountriesEndpointMeaning`). Their concurrency is not modelled.
  - `setTimeout` auto-dismissal is an explicit `FireTimer` step.
  - Polling intervals, socket reconnect timers and `asyncio.sleep` pacing are not modelled.
  - Closing the socket on unmount is not modelled.
- **Rendering and logging.** React rendering, state batching, styling and console or server logging are not modelled. `useNotifications` called outside its provider is not modelled.

### Numbers and text formats

- **Floating point.** Amounts, distances and fraud probabilities are `real`.
  - Floating-point rounding, `toFixed` and locale formatting are not modelled.
  - `Pagination` treats JavaScript's floating division in `Math.ceil(total / pageSize)` as exact.
- **JSON numbers and conversion.**
  - JSON numbers are integers. Fractions and exponents are not modelled, and text holding them does not parse (see `Inbound.MessageOf` and `Relay.PayloadOf` below for the branches this changes).
  - Only decimal integer strings convert to numbers (see `JsValues.ToNumber` below).
  - The message text of a `JSON.parse` `SyntaxError` is a parameter.
- **Python formatting.**
  - Python's `repr` escaping in an exception's text is not modelled. The agent's error text holds the message as given.
  - `json.dumps` turns the boolean keys of `/high_risk_merchant`'s answer into `"true"`/`"false"`; this is not modelled.

### Code outside the core

- **Conversation and message persistence.** `websocket_conversation_handle`, `update_last_activity`, `delete_conversation` and the message service and repository are recorded as calls in a journal (`Store`), with their results given from outside.
  - The message repository and service in the source are empty stubs.
  - The handler builds `MessageCreate(role=..., message=...)` while the schema declares `user_id`, `title`, `content` and `sent_at`; the journal records what the handler passes.
  - `backend/app/ws/connection_manager.py` is not part of this model. Connecting is taken to accept and record the socket.
- **Transactions and users.**
  - `update_transaction` (`backend/app/repositories/transaction_repo.py:117-125`) is not modelled.
  - `backend/app/models/transaction_model.py` declares none of `transaction_id`, `customer_id`, `merchant`, `merchant_category`, `card_type`, `high_risk_merchant` or `amount`, which the repository reads. Those reads would raise AttributeError as well. The model gives a row the columns that the agent service's copy of the table declares (`agent-service/src/app/database/transactions_db.py:17-45`). Only the date bounds, whose column neither declares under that name, are modelled as failing (see Findings).
  - The transaction service is a stub with an undefined import. Card masking and feature extraction are not modelled.
  - `TransactionDuplucateError` is imported but not declared in the exception module. It is modelled as a declared error kind.
  - `AnalysisRepository` in `backend/app/repositories/user_repo.py` is not modelled.
  - `Report` and `Analysis` are imported from a model module that does not declare them. The report columns (`id`, `user_id`, `created_at`, `report_content`) are taken from how the repository uses them.
- **Postgres sequences.** A sequence value is never rolled back, so `Users.UserRepository.CreateUser` and `Users.ReportRepository.Create` consume an id even when the insert fails.
- **Agent service.**
  - The agent's tools, the backend HTTP client they use and the agent-service SQLite store are not modelled.
  - LangGraph, AsyncPostgresSaver and the title model are not modelled. What they return is a parameter.
- **Chat router imports.** `backend/app/routers/chat_router.py:10` imports `ConversationCreate`, which `backend/app/schemas/message_schema.py` does not declare, so the module as written fails when it is imported. The model describes the router as though the import succeeded. `ConversationCreate` itself is not part of this model: the model passes the conversation id and the content it would carry.
- **Backend services and framework code.**
  - PyJWT decoding, bcrypt hashing, the authentication and user services, settings, database sessions and model loading are not modelled. The socket authenticator's token check is a parameter.
  - The REST routes for users, transactions and authentication are not modelled.
  - The exception classes and status-code tables, the prompt text, the ingestion and data scripts, and the MCP app are not modelled.
- **Frontend pieces.**
  - The dashboard, navigation, modal, layout, loading, statistics-card, chat-history, user-context and routing components are not modelled.
  - The list rows (`formatValue`) are not modelled.
  - `List.tsx` renders `TransactionInfo` without props. Only the status decision of `TransactionInfo.tsx` is modelled.
  - The report fetching and polling of `Personal.tsx` are not modelled. The report list is given.

### Deliberate approximations

- Transactions.ILike: folds case with an ASCII-only lower-casing. PostgreSQL's ILIKE also folds non-ASCII letters (such as "É" against "é"), and the model does not capture that.
- Transactions.TextFilterIsSubstring: states the substring meaning up to ASCII case only. A text filter whose value and column differ only in the case of non-ASCII letters matches in PostgreSQL, but not in the model.
- Users.UserRepository.UpdateUser: takes `hasattr(user, key)` to hold only for the five column names. The source also assigns keys naming other attributes of the object, such as the `conversations` relationship, `metadata`, `_sa_instance_state`, `__class__` or a method. The model treats such keys as absent. It does not capture what assigning them does, including the TypeError that `__class__` with a number raises outside the repository's handler.
- JsonData.Encode: writes every member of an object, duplicate keys included, as `json.dumps` and `JSON.stringify` do. Python's `json.loads` and `JSON.parse` keep one entry per key, with the last value at the first key's position. The model's parser keeps every member, so `JsonParse.EncodeParseRoundTrip` does not capture that collapse. The source builds its objects from dicts, whose keys are distinct.
- Inbound.MessageOf: reads a client frame whose JSON holds a fraction, an exponent, `NaN` or `Infinity` (such as `2.5`, `1e3` or `-0.5`) as plain text, because the model's parser refuses such numbers. The source's `json.loads` decodes a top-level one to a float. `message_data.get` then raises AttributeError, which `except json.JSONDecodeError` does not catch, so the turn raises before the echo. The model instead answers a whole turn with the text as the message: echo, relay and persistence. An object frame with such a number inside is likewise read as plain text, where the source would take its `content`.
- Relay.PayloadOf: skips a `data:` line whose JSON holds a fraction, an exponent, `NaN` or `Infinity` anywhere, such as tool arguments carrying an amount. The source's `json.loads` decodes such a line and acts on it. As written, the relay then ends with "Unexpected error:"; once corrected, it forwards the payload as a progress frame, or answers when it is the `final_response`. The model carries on with the next line instead. `Relay.DecodeAll` and the relay members built on it share this gap.
- JsonParse.Parse: refuses a `\u` escape that names a lone surrogate, such as `"\ud800"`, because a character of the model cannot hold one. Python's `json.loads` and `JSON.parse` accept such text. A stream line holding one is therefore skipped by the relay's decoding in the model, where the source would forward it.
- **Unset schema fields.** `weekend_transaction` is not a field of `TransactionFilter`, so pydantic drops it, and both weekend statistics are unfiltered. This is modelled as written.
- JsValues.ToNumber: converts only strings of decimal integer digits, with an optional sign and surrounding white space. Hexadecimal, fractional, exponent and `Infinity` strings are not converted.
- AgentPage.OnFrame: an Agent frame whose `content` is not a string makes the source throw a `TypeError` after it has cleared the typing indicator. The model stops at that point (`TypingCleared`) and does not model the exception itself.

## Findings

| source | as written | input that shows it | evidently intended | confidence | as-written member | corrected member |
|---|---|---|---|---|---|---|
| backend/app/service/websocket_service.py:71-77 | `ProgressMessage` is called with `tool_name` and `tool_args`, which are not fields of the dataclass, so every call raises `TypeError` | a 200 reply whose body holds one line `data: {"type": "tool_call", "message": "m"}` gives only the frame "Unexpected error:", with no progress frame and no answer | build the progress frame from type, content and progress_type only, forward each payload and answer at `final_response` | high, not executed | Relay.AsWrittenRelay | Relay.CorrectedCollect |
| backend/app/service/websocket_message_handler.py:40 | the relay is called with `user_id`, `user_name` and `is_new_conversation`, which it does not accept, and its one result is unpacked into two names | any decoded client message: after the echo and the thinking indicator the turn raises `TypeError` (unexpected keyword argument `user_id`) | call the relay with the socket, the message and the thread id, and take its answer and the generated title | high, not executed | Handler.AsWrittenTurnRaises | Handler.TurnFrameOrder |
| backend/app/service/websocket_message_handler.py:64-69 | a new conversation's title is set to `chat_title` even when no title was generated | a new conversation whose relay produced no title: the stored title "New Conversation" is overwritten with None | keep the stored title when no title was generated | medium, not executed | Handler.AsWrittenTitleCleared | Handler.TitleCalls |
| backend/app/routers/stats_router.py:46 | `TransactionFilter(x == y)` (here and at lines 66, 86 and 106) passes one boolean positionally; the pydantic model takes keyword arguments only | `/high_risk_merchant` (values True and False), or any category with at least one distinct value, fails | `TransactionFilter(merchant_category=value)` and its siblings: one statistics entry per value, filtered on it | high, not executed | Stats.PositionalEndpointsFail | Stats.MerchantCategoryEndpointMeaning |
| backend/app/routers/stats_router.py:83 | `/channel` reads the distinct values of the `device` column | no devices and one channel "web": the answer is an empty map | read the distinct `channel` values and map each to the statistics of its rows | high, not executed | Stats.AsWrittenChannelIgnoresChannels | Stats.ChannelEndpointMeaning |
| backend/app/repositories/user_repo.py:47 | the new `User` row is built from the sign-up data alone, leaving `confirmed` unset, but the column is NOT NULL with no default (`backend/app/models/user_model.py:13`) | any `UserCreate`: the insert is refused and `UserException` is raised | store new users with `confirmed` false | medium, not executed | Users.AsWrittenCreateUserFails | Users.NewUserStored |
| backend/app/repositories/transaction_repo.py:61 | the date bounds compare `Transaction.date` (here and at line 63), which the Transaction class does not declare; the AttributeError is not a `SQLAlchemyError`, so it escapes the handler | any filter with a `start_date` or an `end_date`, on any table: the read raises AttributeError instead of answering | bound the row's time column (`timestamp` in the agent service's copy of the table), with inclusive bounds | high, not executed | Transactions.AsWrittenDateBoundRaises | Transactions.TransactionRepository.GetAllTransactions |
| backend/app/routers/chat_router.py:128 | `verify_token` receives `token`, the HTTPBearer credentials object (`security = HTTPBearer()`, line 26), not its `credentials` text; PyJWT refuses it with DecodeError, which `verify_token` turns into UserCredentialsException("Invalid Token;"); the result would also be awaited although `verify_token` is a plain method, and the response leaves out the required `email` (lines 141-146) | any request, with any token: the handler raises "Invalid Token;" at its first line, before creating or storing anything | call `verify_token(token.credentials)` without `await`, as `backend/app/routers/auth_router.py:33` does, then create or reuse the conversation, store the message and answer with the user's email and name | high, not executed | ChatRouter.AsWrittenSendMessage | ChatRouter.SendMessage |
