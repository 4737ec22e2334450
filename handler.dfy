/** One turn of the per-socket chat handler (backend/app/service/websocket_message_handler.py):
    receive a client frame, decode it with the conversation and thread overrides, echo it,
    announce the agent, relay, resolve the conversation, announce a new conversation, and
    persist the user's message, the title and the agent's answer.

    The relay is given as a function of the message and the thread id that says what it
    sends, the agent message it returns and the title it returns; conversation resolution and
    the conversation lookup are given as functions too, since their code is not part of this
    model. Persistence is recorded in a ChatStore journal. */
module Handler {
  import opened Wrappers
  import opened Text
  import opened JsonData
  import opened PyValues
  import opened Schema
  import opened Sockets
  import opened Inbound
  import opened Store

  /** What the relay hands back to the handler: the texts it sent on the socket, the agent
      message (if any) and the chat title (None when it produced none). */
  datatype TurnReply = TurnReply(sent: seq<string>, answer: Option<Frame>, title: Json)

  /** What websocket_conversation_handle returns: the conversation id and its thread id. */
  datatype Resolved = Resolved(conversationId: Json, threadId: Json)

  /** The services and clocks one turn uses. `relay(message, thread)` is the relay's reply,
      `resolve(thread, conversation, user, title)` the conversation resolution, `found(id)`
      whether get_conversation_by_conversation_id finds a conversation; `now` stamps the echo,
      `seconds` is int(datetime.now().timestamp()) and `startedAt` stamps conversation_started. */
  datatype Env = Env(relay: (Json, Json) -> TurnReply, resolve: (Json, Json, int, Json) -> Resolved,
                     found: Json -> bool, now: string, seconds: int, startedAt: string, classTime: string)

  /** The message of a turn and the conversation and thread ids in effect for it. */
  datatype TurnInput = TurnInput(message: Json, conversationId: Json, threadId: Json)

  /** How a turn ends: normally, on a disconnect while receiving, or by raising. */
  datatype TurnEnd = Completed | Disconnected | Raised(error: string)

  /** Everything a turn does: the texts it sends, the persistence calls it makes, how it ends. */
  datatype TurnEffect = TurnEffect(sent: seq<string>, calls: seq<StoreCall>, end: TurnEnd)

  /** `message_data.get(key) or current`. */
  function Override(ms: seq<(string, Json)>, key: string, current: Json): (r: Json)
    ensures Lookup(ms, key).Some? && Truthy(Lookup(ms, key).value) ==> r == Lookup(ms, key).value
    ensures !(Lookup(ms, key).Some? && Truthy(Lookup(ms, key).value)) ==> r == current
  {
    var given := Get(ms, key);
    if Truthy(given) then given else current
  }

  /** Decoding a client frame: plain text is the message and keeps the session's ids; a JSON
      object gives its content (default: the raw text) and may override both ids; any other
      JSON value makes `.get` raise. */
  function ReadTurn(text: string, conversationId: Json, threadId: Json): (r: Result<TurnInput, string>)
    ensures r.Success? <==> MessageOf(text).Success?
    ensures r.Success? ==> r.value.message == MessageOf(text).value
    ensures r.Failure? ==> r.error == MessageOf(text).error
    ensures ReadInput(text).Plain? ==> r == Success(TurnInput(JStr(text), conversationId, threadId))
    ensures ReadInput(text).Decoded? && ReadInput(text).value.JObj? ==>
      var ms := ReadInput(text).value.members;
      r.Success? && r.value.conversationId == Override(ms, "conversation_id", conversationId)
      && r.value.threadId == Override(ms, "thread_id", threadId)
  {
    var input := ReadInput(text);
    match InputMembers(input)
    case Failure(e) => Failure(e)
    case Success(ms) =>
      if input.Plain? then Success(TurnInput(JStr(text), conversationId, threadId))
      else
        Success(TurnInput(GetOr(ms, "content", JStr(text)), Override(ms, "conversation_id", conversationId),
                          Override(ms, "thread_id", threadId)))
  }

  /** The thread id minted for a new conversation: f"user_{user_id}_{seconds}". */
  function MintThread(userId: int, seconds: int): string {
    "user_" + IntToString(userId) + "_" + IntToString(seconds)
  }

  /** The title the conversation is resolved with: the relay's title, or "New Conversation". */
  function SeedTitle(title: Json): Json {
    if Truthy(title) then title else JStr("New Conversation")
  }

  /** The conversation_started notice. */
  function Started(r: Resolved, at: string): Json {
    JObj([("type", JStr("conversation_started")), ("conversation_id", r.conversationId),
          ("thread_id", r.threadId), ("content", JStr("Started conversation " + Str(r.conversationId))),
          ("timestamp", JStr(at))])
  }

  /** The user's message as persisted: role "user". */
  function UserRecord(message: Json): Json {
    JObj([("role", JStr("user")), ("message", message)])
  }

  /** The agent's message as persisted: role "agent", its content and its reasoning steps
      (None when the message carries none). */
  function AgentRecord(answer: Frame): Json {
    JObj([("role", JStr("agent")), ("message", answer.content),
          ("reasoning_steps", if "reasoning_steps" in answer.extra then answer.extra["reasoning_steps"] else JNull)])
  }

  /** The title update for a new conversation that is found, as written: the relay's title is
      stored whatever it is, None included. */
  function AsWrittenTitleCalls(isNew: bool, found: bool, id: Json, title: Json): seq<StoreCall> {
    if isNew && found then [SaveTitle(id, title)] else []
  }

  /** The title update as its comment describes it: only when a title was produced. */
  function TitleCalls(isNew: bool, found: bool, id: Json, title: Json): (r: seq<StoreCall>)
    ensures r == [] || r == [SaveTitle(id, title)]
    ensures r != [] <==> isNew && found && Truthy(title)
  {
    if isNew && found && Truthy(title) then [SaveTitle(id, title)] else []
  }

  /** Persisting the agent's answer and touching the conversation, when the answer has content. */
  function AgentCalls(id: Json, answer: Option<Frame>): seq<StoreCall> {
    if answer.Some? && Truthy(answer.value.content) then [CreateMessage(id, AgentRecord(answer.value)), UpdateLastActivity(id)]
    else []
  }

  /** Whether the turn starts a new conversation, and the thread id it relays with. */
  function IsNew(t: TurnInput): bool { !Truthy(t.conversationId) }

  function RelayThread(t: TurnInput, userId: int, env: Env): Json {
    if IsNew(t) then JStr(MintThread(userId, env.seconds)) else t.threadId
  }

  /** The persistence calls of a decoded turn, once the relay has replied and the conversation
      is resolved. */
  function TurnCalls(t: TurnInput, thread: Json, userId: int, reply: TurnReply, resolved: Resolved, env: Env)
    : seq<StoreCall>
  {
    var id := resolved.conversationId;
    [ResolveConversation(thread, t.conversationId, userId, SeedTitle(reply.title)), CreateMessage(id, UserRecord(t.message))]
    + TitleCalls(IsNew(t), env.found(id), id, reply.title) + AgentCalls(id, reply.answer)
  }

  /** What a decoded turn does after the echo and the thinking indicator. */
  function AfterRelay(t: TurnInput, userId: int, env: Env): TurnEffect {
    var thread := RelayThread(t, userId, env);
    var reply := env.relay(t.message, thread);
    var resolved := env.resolve(thread, t.conversationId, userId, SeedTitle(reply.title));
    TurnEffect(reply.sent + (if IsNew(t) then [Dumps(Started(resolved, env.startedAt))] else []),
               TurnCalls(t, thread, userId, reply, resolved, env), Completed)
  }

  /** The effect of a frame once decoded. */
  function Decided(decoded: Result<TurnInput, string>, userId: int, env: Env): TurnEffect {
    match decoded
    case Failure(e) => TurnEffect([], [], Raised(e))
    case Success(t) =>
      var rest := AfterRelay(t, userId, env);
      TurnEffect([WireText(Echo(t.message, env.now)), WireText(Thinking(env.classTime))] + rest.sent, rest.calls, rest.end)
  }

  /** One turn: `received` is the client frame, or None when the client has gone. */
  function Turn(received: Option<string>, conversationId: Json, threadId: Json, userId: int, env: Env): TurnEffect {
    match received
    case None => TurnEffect([], [], Disconnected)
    case Some(text) => Decided(ReadTurn(text, conversationId, threadId), userId, env)
  }

  /** websocket_message_handler with the relay called as it expects (message, thread) and
      returning the agent message and a title. */
  method HandleTurn(ws: WebSocket, store: ChatStore, conversationId: Json, threadId: Json, userId: int, env: Env)
    returns (end: TurnEnd)
    modifies ws, store
    ensures var e := Turn(if old(ws.inbox) == [] then None else Some(old(ws.inbox)[0]), conversationId, threadId, userId, env);
      ws.sent == old(ws.sent) + e.sent && store.calls == old(store.calls) + e.calls && end == e.end
    ensures ws.inbox == if old(ws.inbox) == [] then [] else old(ws.inbox)[1..]
    ensures ws.accepted == old(ws.accepted) && ws.closed == old(ws.closed)
  {
    var received := ws.ReceiveText();
    if received.None? {
      return Disconnected;
    }
    var decoded := ReadTurn(received.value, conversationId, threadId);
    if decoded.Failure? {
      return Raised(decoded.error);
    }
    Answer(ws, store, decoded.value, userId, env);
    end := Completed;
  }

  /** Echo, thinking indicator, then the rest of the turn. */
  method Answer(ws: WebSocket, store: ChatStore, t: TurnInput, userId: int, env: Env)
    modifies ws, store
    ensures var e := Decided(Success(t), userId, env);
      ws.sent == old(ws.sent) + e.sent && store.calls == old(store.calls) + e.calls
    ensures ws.accepted == old(ws.accepted) && ws.closed == old(ws.closed) && ws.inbox == old(ws.inbox)
  {
    var echo := WireText(Echo(t.message, env.now));
    var thinking := WireText(Thinking(env.classTime));
    ws.SendText(echo);
    ws.SendText(thinking);
    ghost var sent1 := ws.sent;
    Relayed(ws, store, t, userId, env);
    ghost var rest := AfterRelay(t, userId, env);
    assert sent1 == old(ws.sent) + [echo, thinking];
    AppendAssoc(old(ws.sent), [echo, thinking], rest.sent);
  }

  /** Relay, resolve, announce a new conversation, persist. */
  method Relayed(ws: WebSocket, store: ChatStore, t: TurnInput, userId: int, env: Env)
    modifies ws, store
    ensures var e := AfterRelay(t, userId, env);
      ws.sent == old(ws.sent) + e.sent && store.calls == old(store.calls) + e.calls
    ensures ws.accepted == old(ws.accepted) && ws.closed == old(ws.closed) && ws.inbox == old(ws.inbox)
  {
    var isNew := !Truthy(t.conversationId);
    var thread := t.threadId;
    if isNew {
      thread := JStr(MintThread(userId, env.seconds));
    }
    var reply := env.relay(t.message, thread);
    SendAll(ws, reply.sent);
    var title := if Truthy(reply.title) then reply.title else JStr("New Conversation");
    var resolved := env.resolve(thread, t.conversationId, userId, title);
    store.Record(ResolveConversation(thread, t.conversationId, userId, title));
    if isNew {
      ws.SendText(Dumps(Started(resolved, env.startedAt)));
      AppendAssoc(old(ws.sent), reply.sent, [Dumps(Started(resolved, env.startedAt))]);
    }
    Persist(store, t, thread, userId, reply, resolved, env);
  }

  /** The user's message, the title, and the agent's answer with the activity update. */
  method Persist(store: ChatStore, t: TurnInput, thread: Json, userId: int, reply: TurnReply, resolved: Resolved, env: Env)
    modifies store
    requires |store.calls| > 0 && store.calls[|store.calls| - 1] == ResolveConversation(thread, t.conversationId, userId, SeedTitle(reply.title))
    ensures old(store.calls)[..|old(store.calls)| - 1] + TurnCalls(t, thread, userId, reply, resolved, env) == store.calls
  {
    ghost var before := store.calls[..|store.calls| - 1];
    assert store.calls == before + [ResolveConversation(thread, t.conversationId, userId, SeedTitle(reply.title))];
    var id := resolved.conversationId;
    store.Record(CreateMessage(id, UserRecord(t.message)));
    ghost var head := [ResolveConversation(thread, t.conversationId, userId, SeedTitle(reply.title)), CreateMessage(id, UserRecord(t.message))];
    AppendAssoc(before, [head[0]], [head[1]]);
    ghost var titles: seq<StoreCall> := [];
    if IsNew(t) && env.found(id) && Truthy(reply.title) {
      store.Record(SaveTitle(id, reply.title));
      titles := [SaveTitle(id, reply.title)];
    }
    AppendAssoc(before, head, titles);
    ghost var agent: seq<StoreCall> := [];
    if reply.answer.Some? && Truthy(reply.answer.value.content) {
      store.Record(CreateMessage(id, AgentRecord(reply.answer.value)));
      store.Record(UpdateLastActivity(id));
      agent := [CreateMessage(id, AgentRecord(reply.answer.value)), UpdateLastActivity(id)];
      AppendAssoc(before + (head + titles), [agent[0]], [agent[1]]);
    }
    AppendAssoc(before, head + titles, agent);
  }

  /** The relay's own sends, one text after another. */
  method SendAll(ws: WebSocket, texts: seq<string>)
    modifies ws
    ensures ws.sent == old(ws.sent) + texts
    ensures ws.accepted == old(ws.accepted) && ws.closed == old(ws.closed) && ws.inbox == old(ws.inbox)
  {
    var i := 0;
    while i < |texts|
      invariant 0 <= i <= |texts|
      invariant ws.sent == old(ws.sent) + texts[..i]
      invariant ws.accepted == old(ws.accepted) && ws.closed == old(ws.closed) && ws.inbox == old(ws.inbox)
    {
      ws.SendText(texts[i]);
      assert texts[..i + 1] == texts[..i] + [texts[i]];
      i := i + 1;
    }
    assert texts[..i] == texts;
  }

  /** Frame order of a decoded turn: the User echo, the thinking indicator, everything the relay
      sent, and last, only for a new conversation, conversation_started with the resolved ids. */
  lemma {:induction false} TurnFrameOrder(text: string, conversationId: Json, threadId: Json, userId: int, env: Env)
    requires ReadTurn(text, conversationId, threadId).Success?
    ensures var t := ReadTurn(text, conversationId, threadId).value;
      var thread := RelayThread(t, userId, env);
      var reply := env.relay(t.message, thread);
      var resolved := env.resolve(thread, t.conversationId, userId, SeedTitle(reply.title));
      var e := Turn(Some(text), conversationId, threadId, userId, env);
      e.end == Completed
      && |e.sent| == 2 + |reply.sent| + (if IsNew(t) then 1 else 0)
      && e.sent[0] == WireText(Echo(t.message, env.now)) && e.sent[1] == WireText(Thinking(env.classTime))
      && e.sent[2..2 + |reply.sent|] == reply.sent
      && (IsNew(t) ==> e.sent[|e.sent| - 1] == Dumps(Started(resolved, env.startedAt)))
  {
    var t := ReadTurn(text, conversationId, threadId).value;
    var rest := AfterRelay(t, userId, env);
    var head := [WireText(Echo(t.message, env.now)), WireText(Thinking(env.classTime))];
    var e := Turn(Some(text), conversationId, threadId, userId, env);
    assert e.sent == head + rest.sent;
    var reply := env.relay(t.message, RelayThread(t, userId, env));
    assert (head + rest.sent)[2..2 + |reply.sent|] == rest.sent[..|reply.sent|];
  }

  /** A turn is new exactly when the conversation id in effect is falsy; the relay and the
      resolution then get the minted thread id whatever thread id the client sent, and
      otherwise the thread id in effect. */
  lemma ThreadOfTurn(t: TurnInput, userId: int, env: Env)
    ensures IsNew(t) <==> !Truthy(t.conversationId)
    ensures IsNew(t) ==> RelayThread(t, userId, env) == JStr(MintThread(userId, env.seconds))
    ensures !IsNew(t) ==> RelayThread(t, userId, env) == t.threadId
  {
  }

  lemma {:induction false} IntToStringNoUnderscore(n: int)
    ensures forall i :: 0 <= i < |IntToString(n)| ==> IntToString(n)[i] != '_'
  {
    if n < 0 {
      var s := IntToString(n);
      assert forall i :: 1 <= i < |s| ==> s[i] == NatToString(-n)[i - 1];
    }
  }

  /** "user_" + a + "_" + x determines a and x when a has no underscore. */
  lemma {:induction false} SplitAtUnderscore(a: string, x: string, b: string, y: string)
    requires forall i :: 0 <= i < |a| ==> a[i] != '_'
    requires forall i :: 0 <= i < |b| ==> b[i] != '_'
    requires "user_" + a + "_" + x == "user_" + b + "_" + y
    ensures a == b && x == y
  {
    var m := "user_" + a + "_" + x;
    assert m[5 + |a|] == '_' && m[5 + |b|] == '_';
    assert a == m[5..5 + |a|] == b;
    assert x == m[6 + |a|..] == y;
  }

  /** Minted thread ids differ for different users or different seconds. */
  lemma MintThreadInjective(u1: int, s1: int, u2: int, s2: int)
    requires MintThread(u1, s1) == MintThread(u2, s2)
    ensures u1 == u2 && s1 == s2
  {
    IntToStringNoUnderscore(u1);
    IntToStringNoUnderscore(u2);
    SplitAtUnderscore(IntToString(u1), IntToString(s1), IntToString(u2), IntToString(s2));
    IntToStringInjective(u1, u2);
    IntToStringInjective(s1, s2);
  }

  /** The calls of a turn that persist messages, by role: the resolution and the user's message
      come first, then the title update, then the agent's answer. */
  lemma {:induction false} HeadRoles(r: StoreCall, id: Json, message: Json, role: string)
    requires !r.CreateMessage?
    ensures MessagesWithRole([r, CreateMessage(id, UserRecord(message))], role)
         == if role == "user" then [CreateMessage(id, UserRecord(message))] else []
  {
    var head := [r, CreateMessage(id, UserRecord(message))];
    assert head[1..] == [head[1]] && head[1..][1..] == [];
    LookupAt(UserRecord(message).members, 0);
  }

  lemma TitleRoles(isNew: bool, found: bool, id: Json, title: Json, role: string)
    ensures MessagesWithRole(TitleCalls(isNew, found, id, title), role) == []
  {
    var r := TitleCalls(isNew, found, id, title);
    if r != [] { assert r[1..] == []; }
  }

  lemma {:induction false} AgentRoles(id: Json, answer: Option<Frame>, role: string)
    ensures var cs := AgentCalls(id, answer);
      MessagesWithRole(cs, role)
      == if cs != [] && role == "agent" then [CreateMessage(id, AgentRecord(answer.value))] else []
  {
    var cs := AgentCalls(id, answer);
    if cs != [] {
      assert cs[1..] == [UpdateLastActivity(id)] && cs[1..][1..] == [];
      LookupAt(AgentRecord(answer.value).members, 0);
    }
  }

  lemma {:induction false} TurnRoles(t: TurnInput, thread: Json, userId: int, reply: TurnReply, resolved: Resolved,
                                     env: Env, role: string)
    ensures var id := resolved.conversationId;
      var agent := AgentCalls(id, reply.answer);
      MessagesWithRole(TurnCalls(t, thread, userId, reply, resolved, env), role)
      == (if role == "user" then [CreateMessage(id, UserRecord(t.message))] else [])
         + (if agent != [] && role == "agent" then [CreateMessage(id, AgentRecord(reply.answer.value))] else [])
  {
    var id := resolved.conversationId;
    var r := ResolveConversation(thread, t.conversationId, userId, SeedTitle(reply.title));
    var head := [r, CreateMessage(id, UserRecord(t.message))];
    var titles := TitleCalls(IsNew(t), env.found(id), id, reply.title);
    var agent := AgentCalls(id, reply.answer);
    MessagesWithRoleConcat(head + titles, agent, role);
    MessagesWithRoleConcat(head, titles, role);
    HeadRoles(r, id, t.message, role);
    TitleRoles(IsNew(t), env.found(id), id, reply.title, role);
    AgentRoles(id, reply.answer, role);
  }

  /** The user's message is persisted exactly once on every completed turn, whatever the relay
      returned. */
  lemma UserMessagePersisted(t: TurnInput, thread: Json, userId: int, reply: TurnReply, resolved: Resolved, env: Env)
    ensures MessagesWithRole(TurnCalls(t, thread, userId, reply, resolved, env), "user")
         == [CreateMessage(resolved.conversationId, UserRecord(t.message))]
  {
    TurnRoles(t, thread, userId, reply, resolved, env, "user");
  }

  /** The agent's answer is persisted, with its reasoning steps, and the conversation's activity
      updated last, exactly when the relay returned a message with truthy content. */
  lemma {:induction false} AgentMessagePersisted(t: TurnInput, thread: Json, userId: int, reply: TurnReply,
                                                 resolved: Resolved, env: Env)
    ensures var calls := TurnCalls(t, thread, userId, reply, resolved, env);
      var id := resolved.conversationId;
      var answered := reply.answer.Some? && Truthy(reply.answer.value.content);
      MessagesWithRole(calls, "agent") == (if answered then [CreateMessage(id, AgentRecord(reply.answer.value))] else [])
      && (answered ==> calls[|calls| - 1] == UpdateLastActivity(id))
      && (UpdateLastActivity(id) in calls <==> answered)
  {
    TurnRoles(t, thread, userId, reply, resolved, env, "agent");
    var id := resolved.conversationId;
    var titles := TitleCalls(IsNew(t), env.found(id), id, reply.title);
    var calls := TurnCalls(t, thread, userId, reply, resolved, env);
    if !(reply.answer.Some? && Truthy(reply.answer.value.content)) {
      assert titles == [] || titles == [SaveTitle(id, reply.title)];
      assert UpdateLastActivity(id) !in calls;
    }
  }

  /** The conversation is resolved, first of all calls, with the thread the relay used and the
      relay's title, or "New Conversation" when the relay produced a falsy title. */
  lemma TitleOfResolution(t: TurnInput, thread: Json, userId: int, reply: TurnReply, resolved: Resolved, env: Env)
    ensures var calls := TurnCalls(t, thread, userId, reply, resolved, env);
      calls[0] == ResolveConversation(thread, t.conversationId, userId,
                                      if Truthy(reply.title) then reply.title else JStr("New Conversation"))
      && Truthy(calls[0].title)
  {
  }

  /** As written, a new conversation that is found has its title stored even when the relay
      produced none: the title it was resolved with, "New Conversation", is replaced by None. */
  lemma AsWrittenTitleCleared(id: Json)
    ensures AsWrittenTitleCalls(true, true, id, JNull) == [SaveTitle(id, JNull)]
    ensures SeedTitle(JNull) == JStr("New Conversation")
    ensures TitleCalls(true, true, id, JNull) == []
  {
  }

  /** The parameters of query_agent_service_streaming in backend/app/service/websocket_service.py. */
  const RelayParameters: seq<string> := ["websocket", "user_message", "thread_id"]

  /** The keyword arguments the handler passes to it; the socket object is not a JSON value and
      stands as None here, since only the names matter to the binding. */
  function HandlerRelayKwargs(userId: int, message: Json, thread: Json, isNew: bool): seq<(string, Json)> {
    [("websocket", JNull), ("user_id", JInt(userId)), ("user_name", JStr("Daniel")), ("user_message", message),
     ("thread_id", thread), ("is_new_conversation", JBool(isNew))]
  }

  /** The turn as written: after the echo and the thinking indicator, the relay call is bound
      to the relay's parameters, and a binding error raises out of the turn. */
  function AsWrittenTurn(received: Option<string>, conversationId: Json, threadId: Json, userId: int, env: Env): TurnEffect {
    match received
    case None => TurnEffect([], [], Disconnected)
    case Some(text) =>
      match ReadTurn(text, conversationId, threadId)
      case Failure(e) => TurnEffect([], [], Raised(e))
      case Success(t) =>
        var head := [WireText(Echo(t.message, env.now)), WireText(Thinking(env.classTime))];
        match Bind(RelayParameters, map[], HandlerRelayKwargs(userId, t.message, RelayThread(t, userId, env), IsNew(t)))
        case Failure(err) => TurnEffect(head, [], Raised(CallErrorText("query_agent_service_streaming", err)))
        case Success(_) => Decided(Success(t), userId, env)
  }

  /** Binding the handler's keywords to the relay's parameters fails at user_id, the first
      keyword the relay does not declare. */
  lemma {:induction false} AsWrittenRelayCall(userId: int, message: Json, thread: Json, isNew: bool)
    ensures var r := Bind(RelayParameters, map[], HandlerRelayKwargs(userId, message, thread, isNew));
      r == Failure(UnexpectedKeyword("user_id"))
      && CallErrorText("query_agent_service_streaming", r.error)
         == "query_agent_service_streaming" + "() got an unexpected keyword argument '" + "user_id" + "'"
  {
    var kw := HandlerRelayKwargs(userId, message, thread, isNew);
    assert kw[0].0 in RelayParameters && kw[1].0 !in RelayParameters;
    assert FirstUnexpected(RelayParameters, kw[1..]) == Some("user_id");
  }

  /** As written, every decoded turn raises TypeError at the relay call: after the echo and the
      thinking indicator nothing is sent and nothing is persisted. */
  lemma {:induction false} AsWrittenTurnRaises(text: string, conversationId: Json, threadId: Json, userId: int, env: Env)
    requires ReadTurn(text, conversationId, threadId).Success?
    ensures var t := ReadTurn(text, conversationId, threadId).value;
      AsWrittenTurn(Some(text), conversationId, threadId, userId, env)
      == TurnEffect([WireText(Echo(t.message, env.now)), WireText(Thinking(env.classTime))], [],
                    Raised("query_agent_service_streaming" + "() got an unexpected keyword argument '" + "user_id" + "'"))
  {
    var t := ReadTurn(text, conversationId, threadId).value;
    AsWrittenRelayCall(userId, t.message, RelayThread(t, userId, env), IsNew(t));
  }
}
