/** The agent service's LangGraph agent (agent-service/src/app/agents/agents.py): the short
    conversation window, the checkpointer lifecycle, the classification of raw stream chunks
    into progress updates, the choice of the final response, the history read back from a
    checkpoint, and the fallback of the title generator. The language model, the checkpoint
    database and the tools are not modelled: what they deliver is a parameter. */
module Agents {
  import opened Wrappers
  import opened Text
  import opened JsonData
  import opened PyValues

  /** The LangChain message classes the agent deals with. */
  datatype Kind = HumanKind | AIKind | SystemKind | ToolKind

  /** A LangChain message. Every message has a `name` attribute (None unless set); only AI
      messages have a `tool_calls` attribute, a list of dicts. */
  datatype ChatMessage = ChatMessage(kind: Kind, content: Json, name: Json, toolCalls: seq<seq<(string, Json)>>)

  function HumanMessage(content: string): ChatMessage { ChatMessage(HumanKind, JStr(content), JNull, []) }

  function SystemMessage(content: string): ChatMessage { ChatMessage(SystemKind, JStr(content), JNull, []) }

  const DefaultRecentLimit: int := 10

  /** ConversationState: the messages of one conversation, starting with the system prompt. */
  class ConversationState {
    var messages: seq<ChatMessage>

    constructor(systemPrompt: string)
      ensures messages == [SystemMessage(systemPrompt)]
    {
      messages := [SystemMessage(systemPrompt)];
    }

    /** get_recent_messages: messages[-limit:]. A positive limit keeps the last `limit`
        messages (all of them when there are fewer); a zero limit keeps everything, and a
        negative one drops the first -limit messages. */
    function GetRecentMessages(limit: int): (r: seq<ChatMessage>)
      reads this
      ensures limit > 0 ==> |r| == (if limit < |messages| then limit else |messages|)
      ensures limit > 0 ==> r == messages[|messages| - |r|..]
      ensures limit == 0 ==> r == messages
      ensures limit < 0 ==> r == messages[if -limit < |messages| then -limit else |messages|..]
    {
      LastElements(messages, limit);
      SliceFrom(messages, -limit)
    }
  }

  /** In a fresh state any window with a non-negative limit is the system prompt alone. */
  lemma FreshWindow(state: ConversationState, systemPrompt: string, limit: int)
    requires state.messages == [SystemMessage(systemPrompt)] && limit >= 0
    ensures state.GetRecentMessages(limit) == [SystemMessage(systemPrompt)]
  {
  }

  // ---------------------------------------------------------------------------------------
  // Stream chunks and the updates made from them (_process_stream_chunk)

  /** What a graph node reported in an `updates` chunk: None, or a dict that may hold `messages`. */
  datatype Node = NodeNone | NodeDict(messages: Option<seq<ChatMessage>>)

  /** An `updates` chunk: a dict from node names to what each node reported (names are
      distinct, as in a dict), or something that is not a dict. */
  datatype UpdatesChunk = NodeMap(nodes: seq<(string, Node)>) | NotDict

  /** One item of agent.astream(..., stream_mode=["updates", "custom"]). */
  datatype StreamItem = Custom(payload: Json) | Updates(chunk: UpdatesChunk)

  /** The "type" of an update dict. */
  function UpdateType(u: Json): Json {
    if u.JObj? then Get(u.members, "type") else JNull
  }

  function ToolProgressUpdate(chunk: Json): Json {
    JObj([("type", JStr("tool_progress")), ("content", JStr(Str(chunk))),
          ("message", JStr("\U{1F4C4} Tool Update: " + Str(chunk)))])
  }

  function ToolCallUpdate(call: seq<(string, Json)>): Json {
    var name := GetOr(call, "name", JStr("unknown_tool"));
    var args := GetOr(call, "args", JObj([]));
    JObj([("type", JStr("tool_call")), ("tool_name", name), ("tool_args", args),
          ("message", JStr("\U{1F527} Executing tool: " + Str(name) + " with the following " + Str(args)))])
  }

  function ThinkingUpdate(content: Json): Json {
    JObj([("type", JStr("agent_thinking")), ("message", JStr("\U{1F914} " + Str(content)))])
  }

  function ToolResultUpdate(name: Json): Json {
    JObj([("type", JStr("tool_result")), ("tool_name", name), ("message", JStr("\U{2705} Tool " + Str(name) + " completed"))])
  }

  /** The updates for the `agent` node: one tool_call per call of the last message when it
      has calls, otherwise one agent_thinking when its content is non-empty. */
  function AgentNodeUpdates(messages: seq<ChatMessage>): seq<Json> {
    if messages == [] then []
    else
      var last := messages[|messages| - 1];
      if last.kind == AIKind && last.toolCalls != [] then
        seq(|last.toolCalls|, i requires 0 <= i < |last.toolCalls| => ToolCallUpdate(last.toolCalls[i]))
      else if Truthy(last.content) then [ThinkingUpdate(last.content)]
      else []
  }

  /** The updates for the `tools` node: one tool_result per message, since every LangChain
      message has a `name` attribute. */
  function ToolNodeUpdates(messages: seq<ChatMessage>): seq<Json> {
    seq(|messages|, i requires 0 <= i < |messages| => ToolResultUpdate(messages[i].name))
  }

  function NodeUpdates(nodes: seq<(string, Node)>): seq<Json> {
    if nodes == [] then []
    else
      var (name, node) := nodes[0];
      var here :=
        if name == "agent" && node.NodeDict? then AgentNodeUpdates(node.messages.GetOr([]))
        else if name == "tools" && node.NodeDict? then ToolNodeUpdates(node.messages.GetOr([]))
        else [];
      here + NodeUpdates(nodes[1..])
  }

  /** _process_stream_chunk. */
  function ProcessChunk(item: StreamItem): seq<Json> {
    match item
    case Custom(p) => [ToolProgressUpdate(p)]
    case Updates(NotDict) => []
    case Updates(NodeMap(nodes)) => NodeUpdates(nodes)
  }

  /** The kinds of update a chunk can give. */
  predicate ProgressKind(t: Json) {
    t == JStr("tool_progress") || t == JStr("tool_call") || t == JStr("agent_thinking") || t == JStr("tool_result")
  }

  lemma AgentNodeKinds(messages: seq<ChatMessage>)
    ensures forall u :: u in AgentNodeUpdates(messages) ==> UpdateType(u) == JStr("tool_call") || UpdateType(u) == JStr("agent_thinking")
  {
    forall u | u in AgentNodeUpdates(messages)
      ensures UpdateType(u) == JStr("tool_call") || UpdateType(u) == JStr("agent_thinking")
    {
      var last := messages[|messages| - 1];
      if last.kind == AIKind && last.toolCalls != [] {
        var i :| 0 <= i < |last.toolCalls| && u == ToolCallUpdate(last.toolCalls[i]);
        ToolCallUpdateType(last.toolCalls[i]);
      } else {
        assert u == ThinkingUpdate(last.content);
        ThinkingUpdateType(last.content);
      }
    }
  }

  lemma ToolCallUpdateType(call: seq<(string, Json)>)
    ensures UpdateType(ToolCallUpdate(call)) == JStr("tool_call")
  {
    LookupAt(ToolCallUpdate(call).members, 0);
  }

  lemma ThinkingUpdateType(content: Json)
    ensures UpdateType(ThinkingUpdate(content)) == JStr("agent_thinking")
  {
    LookupAt(ThinkingUpdate(content).members, 0);
  }

  lemma ToolNodeKinds(messages: seq<ChatMessage>)
    ensures forall u :: u in ToolNodeUpdates(messages) ==> UpdateType(u) == JStr("tool_result")
  {
    forall u | u in ToolNodeUpdates(messages) ensures UpdateType(u) == JStr("tool_result") {
      LookupAt(u.members, 0);
    }
  }

  lemma {:induction false} NodeKinds(nodes: seq<(string, Node)>)
    ensures forall u :: u in NodeUpdates(nodes) ==> ProgressKind(UpdateType(u))
  {
    if nodes != [] {
      var (name, node) := nodes[0];
      if node.NodeDict? {
        AgentNodeKinds(node.messages.GetOr([]));
        ToolNodeKinds(node.messages.GetOr([]));
      }
      NodeKinds(nodes[1..]);
    }
  }

  /** Every update made from a chunk is tool_progress, tool_call, agent_thinking or
      tool_result: never a final_response and never an error. */
  lemma ChunkKinds(item: StreamItem)
    ensures forall u :: u in ProcessChunk(item) ==> ProgressKind(UpdateType(u))
  {
    match item
    case Custom(p) => LookupAt(ToolProgressUpdate(p).members, 0);
    case Updates(NotDict) =>
    case Updates(NodeMap(nodes)) => NodeKinds(nodes);
  }

  /** A custom chunk gives exactly one tool_progress update whose content is str(chunk). */
  lemma CustomChunk(p: Json)
    ensures var us := ProcessChunk(Custom(p));
      |us| == 1 && UpdateType(us[0]) == JStr("tool_progress") && Get(us[0].members, "content") == JStr(Str(p))
  {
    LookupAt(ToolProgressUpdate(p).members, 0);
    LookupAt(ToolProgressUpdate(p).members, 1);
  }

  /** For the agent node whose last message carries tool calls: one tool_call per call, in
      order, naming the call (or "unknown_tool") with its args (or {}). */
  lemma AgentToolCalls(messages: seq<ChatMessage>)
    requires messages != [] && messages[|messages| - 1].kind == AIKind && messages[|messages| - 1].toolCalls != []
    ensures var calls := messages[|messages| - 1].toolCalls; var us := AgentNodeUpdates(messages);
      |us| == |calls|
      && forall i :: 0 <= i < |us| ==>
        UpdateType(us[i]) == JStr("tool_call")
        && Get(us[i].members, "tool_name") == GetOr(calls[i], "name", JStr("unknown_tool"))
        && Get(us[i].members, "tool_args") == GetOr(calls[i], "args", JObj([]))
  {
    var calls := messages[|messages| - 1].toolCalls;
    var us := AgentNodeUpdates(messages);
    forall i | 0 <= i < |us|
      ensures UpdateType(us[i]) == JStr("tool_call")
        && Get(us[i].members, "tool_name") == GetOr(calls[i], "name", JStr("unknown_tool"))
        && Get(us[i].members, "tool_args") == GetOr(calls[i], "args", JObj([]))
    {
      ToolCallFields(calls[i]);
    }
  }

  lemma ToolCallFields(call: seq<(string, Json)>)
    ensures var ms := ToolCallUpdate(call).members;
      Get(ms, "type") == JStr("tool_call")
      && Get(ms, "tool_name") == GetOr(call, "name", JStr("unknown_tool"))
      && Get(ms, "tool_args") == GetOr(call, "args", JObj([]))
  {
    var ms := ToolCallUpdate(call).members;
    LookupAt(ms, 0);
    LookupAt(ms, 1);
    LookupAt(ms, 2);
  }

  /** For the agent node whose last message carries no tool calls: one agent_thinking update
      exactly when its content is non-empty, and nothing otherwise. */
  lemma AgentThinking(messages: seq<ChatMessage>)
    requires messages != [] && !(messages[|messages| - 1].kind == AIKind && messages[|messages| - 1].toolCalls != [])
    ensures var content := messages[|messages| - 1].content; var us := AgentNodeUpdates(messages);
      (|us| == 1 <==> Truthy(content)) && (us == [] <==> !Truthy(content))
      && (us != [] ==> UpdateType(us[0]) == JStr("agent_thinking"))
  {
    var content := messages[|messages| - 1].content;
    if Truthy(content) {
      LookupAt(ThinkingUpdate(content).members, 0);
    }
  }

  /** For the tools node: one tool_result per message, in order, naming the message. */
  lemma ToolNodeResults(messages: seq<ChatMessage>)
    ensures var us := ToolNodeUpdates(messages);
      |us| == |messages|
      && forall i :: 0 <= i < |us| ==>
        UpdateType(us[i]) == JStr("tool_result") && Get(us[i].members, "tool_name") == messages[i].name
  {
    var us := ToolNodeUpdates(messages);
    forall i | 0 <= i < |us|
      ensures UpdateType(us[i]) == JStr("tool_result") && Get(us[i].members, "tool_name") == messages[i].name
    {
      LookupAt(us[i].members, 0);
      LookupAt(us[i].members, 1);
    }
  }

  // ---------------------------------------------------------------------------------------
  // The final response (_stream_query)

  const NoDataText: string := "No data is available at the moment for your query."

  function FinalResponse(content: Json): Json {
    JObj([("type", JStr("final_response")), ("content", content), ("message", JStr("\U{2728} Response ready"))])
  }

  function NoDataResponse(): Json {
    JObj([("type", JStr("final_response")), ("content", JStr(NoDataText)),
          ("message", JStr("\U{26A0}\U{FE0F} No response generated"))])
  }

  function ErrorUpdate(e: string): Json {
    JObj([("type", JStr("error")), ("content", JStr("Error: " + e)), ("message", JStr("\U{274C} An error occurred"))])
  }

  /** The text of the AttributeError raised when an attribute is read from None. */
  function NoAttribute(attr: string): string {
    "'NoneType' object has no attribute '" + attr + "'"
  }

  /** The last `updates` chunk of a stream: the value final_result holds once the loop is over. */
  function LastUpdates(items: seq<StreamItem>): Option<UpdatesChunk> {
    if items == [] then None
    else if items[|items| - 1].Updates? then Some(items[|items| - 1].chunk)
    else LastUpdates(items[..|items| - 1])
  }

  /** LastUpdates is none exactly when no chunk is an `updates` chunk, and otherwise the chunk
      of an `updates` item that no later `updates` item follows. */
  lemma {:induction false} LastUpdatesIsLast(items: seq<StreamItem>)
    ensures var r := LastUpdates(items);
      && (r.None? <==> forall j :: 0 <= j < |items| ==> !items[j].Updates?)
      && (r.Some? ==> exists j :: 0 <= j < |items| && items[j] == Updates(r.value)
                                && forall k :: j < k < |items| ==> !items[k].Updates?)
  {
    LastUpdatesNone(items);
    LastUpdatesSome(items);
  }

  lemma {:induction false} LastUpdatesNone(items: seq<StreamItem>)
    ensures LastUpdates(items).None? <==> forall j :: 0 <= j < |items| ==> !items[j].Updates?
  {
    if items != [] && !items[|items| - 1].Updates? {
      var init := items[..|items| - 1];
      LastUpdatesNone(init);
      assert forall j :: 0 <= j < |init| ==> init[j] == items[j];
    }
  }

  lemma {:induction false} LastUpdatesSome(items: seq<StreamItem>)
    ensures LastUpdates(items).Some? ==>
      exists j :: 0 <= j < |items| && items[j] == Updates(LastUpdates(items).value)
                && forall k :: j < k < |items| ==> !items[k].Updates?
  {
    if items != [] && LastUpdates(items).Some? {
      var n := |items| - 1;
      if items[n].Updates? {
        assert items[n] == Updates(LastUpdates(items).value);
      } else {
        var init := items[..n];
        LastUpdatesSome(init);
        var j :| 0 <= j < |init| && init[j] == Updates(LastUpdates(init).value)
                 && forall k :: j < k < |init| ==> !init[k].Updates?;
        assert items[j] == init[j];
        forall k | j < k < |items| ensures !items[k].Updates? {
          if k < n {
            assert items[k] == init[k];
          }
        }
      }
    }
  }

  /** The node a dict maps `name` to (the last pair wins, as when a dict is built from them). */
  function NodeNamed(nodes: seq<(string, Node)>, name: string): (r: Option<Node>)
    ensures r.Some? ==> exists i :: 0 <= i < |nodes| && nodes[i] == (name, r.value)
    ensures r.None? <==> forall i :: 0 <= i < |nodes| ==> nodes[i].0 != name
  {
    if nodes == [] then None
    else if nodes[|nodes| - 1].0 == name then Some(nodes[|nodes| - 1].1)
    else NodeNamed(nodes[..|nodes| - 1], name)
  }

  /** The update that ends a completed stream, chosen from the last `updates` chunk, or the
      text of the exception reading it raises. */
  function FinalOf(last: Option<UpdatesChunk>): Result<Json, string> {
    match last
    case Some(NodeMap(nodes)) =>
      (match NodeNamed(nodes, "agent")
       case None => Success(NoDataResponse())
       case Some(NodeNone) => Failure("'NoneType' object is not subscriptable")
       case Some(NodeDict(None)) => Failure("'messages'")
       case Some(NodeDict(Some(msgs))) =>
         if msgs == [] then Success(NoDataResponse()) else Success(FinalResponse(msgs[|msgs| - 1].content)))
    case _ => Success(NoDataResponse())
  }

  /** All updates made from the chunks, in order. */
  function Processed(items: seq<StreamItem>): seq<Json> {
    if items == [] then [] else Processed(items[..|items| - 1]) + ProcessChunk(items[|items| - 1])
  }

  /** What _stream_query yields, and the message of the AgentException it raises, if any. */
  datatype Streamed = Streamed(updates: seq<Json>, raised: Option<string>)

  /** The stream of a query: the updates of every chunk, then the final response; any
      exception instead ends it with one error update and then the AgentException. */
  function QueryStream(agentSet: bool, checkpointerSet: bool, items: seq<StreamItem>, failure: Option<string>): Streamed {
    if !agentSet then
      Streamed([ErrorUpdate(NoAttribute("astream"))], Some("Error: " + NoAttribute("astream")))
    else
      var outcome :=
        if failure.Some? then Failure(failure.value)
        else if !checkpointerSet then Failure(NoAttribute("alist"))
        else FinalOf(LastUpdates(items));
      match outcome
      case Success(f) => Streamed(Processed(items) + [f], None)
      case Failure(e) => Streamed(Processed(items) + [ErrorUpdate(e)], Some("Error: " + e))
  }

  lemma {:induction false} ProcessedKinds(items: seq<StreamItem>)
    ensures forall u :: u in Processed(items) ==> ProgressKind(UpdateType(u))
  {
    if items != [] {
      ProcessedKinds(items[..|items| - 1]);
      ChunkKinds(items[|items| - 1]);
    }
  }

  /** A stream ends with exactly one final_response, and nothing before it is one; a stream
      that raises yields an error update last, and no final_response at all. The updates of
      the chunks come first either way. */
  lemma StreamEnds(agentSet: bool, checkpointerSet: bool, items: seq<StreamItem>, failure: Option<string>)
    ensures var s := QueryStream(agentSet, checkpointerSet, items, failure);
      s.updates != []
      && (s.raised.None? ==> UpdateType(s.updates[|s.updates| - 1]) == JStr("final_response"))
      && (s.raised.Some? ==> s.updates[|s.updates| - 1] == ErrorUpdate(s.raised.value[|"Error: "|..])
                             && s.raised.value[..|"Error: "|] == "Error: ")
      && (forall i :: 0 <= i < |s.updates| - 1 ==> ProgressKind(UpdateType(s.updates[i])))
      && (agentSet ==> s.updates[..|s.updates| - 1] == Processed(items))
  {
    var s := QueryStream(agentSet, checkpointerSet, items, failure);
    if agentSet {
      ProcessedThenLast(s.updates, items, s.updates[|s.updates| - 1]);
      FinalOfIsFinal(LastUpdates(items));
    }
    if s.raised.Some? {
      ErrorPrefix(s.raised.value[|"Error: "|..]);
    }
  }

  /** The update a completed stream ends with is a final_response. */
  lemma FinalOfIsFinal(last: Option<UpdatesChunk>)
    ensures FinalOf(last).Success? ==> UpdateType(FinalOf(last).value) == JStr("final_response")
  {
    if FinalOf(last).Success? {
      LookupAt(FinalOf(last).value.members, 0);
    }
  }

  lemma ErrorPrefix(e: string)
    ensures ("Error: " + e)[|"Error: "|..] == e && ("Error: " + e)[..|"Error: "|] == "Error: "
  {
  }

  /** The chunks' updates followed by one more: everything before the last is progress. */
  lemma ProcessedThenLast(updates: seq<Json>, items: seq<StreamItem>, last: Json)
    requires updates == Processed(items) + [last]
    ensures updates[..|updates| - 1] == Processed(items)
    ensures forall i :: 0 <= i < |updates| - 1 ==> ProgressKind(UpdateType(updates[i]))
  {
    ProcessedKinds(items);
    assert updates[..|updates| - 1] == Processed(items);
    forall i | 0 <= i < |updates| - 1 ensures ProgressKind(UpdateType(updates[i])) {
      assert updates[i] in Processed(items);
    }
  }

  /** The content of the last message of the agent node, or the no-data text. */
  function AgentAnswer(last: Option<UpdatesChunk>): Json {
    match last
    case Some(NodeMap(nodes)) =>
      (match NodeNamed(nodes, "agent")
       case Some(NodeDict(Some(msgs))) => if msgs != [] then msgs[|msgs| - 1].content else JStr(NoDataText)
       case _ => JStr(NoDataText))
    case _ => JStr(NoDataText)
  }

  /** The content of the final response: the content of the last message of the agent node
      in the last `updates` chunk, or the no-data text when there is none. */
  lemma FinalContent(items: seq<StreamItem>)
    ensures var f := FinalOf(LastUpdates(items));
      f.Success? ==> f.value.JObj? && Get(f.value.members, "content") == AgentAnswer(LastUpdates(items))
  {
    var f := FinalOf(LastUpdates(items));
    if f.Success? {
      LookupAt(f.value.members, 1);
    }
  }

  /** Without a `final_response` source (no updates chunk at all) a completed stream still
      ends with the no-data response. */
  lemma NoUpdatesNoData(items: seq<StreamItem>)
    requires forall j :: 0 <= j < |items| ==> items[j].Custom?
    ensures QueryStream(true, true, items, None).updates == Processed(items) + [NoDataResponse()]
  {
    LastUpdatesIsLast(items);
    assert LastUpdates(items).None?;
  }

  // ---------------------------------------------------------------------------------------
  // The agent object: checkpointer lifecycle, streaming and history

  /** The latest checkpoint of a thread; `messages` is None when channel_values or its
      messages entry is missing. */
  datatype Checkpoint = Checkpoint(messages: Option<seq<ChatMessage>>)

  /** The first setup step that fails, in order: opening the saver, entering it, creating its
      tables (an error mentioning "already exists" is tolerated) and creating the agent. */
  function SetupError(cm: Result<nat, string>, entered: Result<nat, string>, tables: Option<string>,
                      created: Result<nat, string>): (r: Option<string>)
    ensures r.None? <==> cm.Success? && entered.Success? && created.Success?
                         && (tables.None? || Contains(tables.value, "already exists"))
  {
    if cm.Failure? then Some(cm.error)
    else if entered.Failure? then Some(entered.error)
    else if tables.Some? && !Contains(tables.value, "already exists") then tables
    else if created.Failure? then Some(created.error)
    else None
  }

  /** The role a history entry gives a message; tool messages are not part of the history. */
  function RoleOf(k: Kind): Option<string> {
    match k
    case HumanKind => Some("user")
    case AIKind => Some("assistant")
    case SystemKind => Some("system")
    case ToolKind => None
  }

  function Entry(m: ChatMessage): seq<Json> {
    match RoleOf(m.kind)
    case Some(role) => [JObj([("role", JStr(role)), ("content", m.content)])]
    case None => []
  }

  /** The history entries of some messages, in order. */
  function HistoryEntries(ms: seq<ChatMessage>): seq<Json> {
    if ms == [] then [] else HistoryEntries(ms[..|ms| - 1]) + Entry(ms[|ms| - 1])
  }

  class TransactionAgent {
    var checkpointer: Option<nat>
    var agent: Option<nat>
    var checkpointerCm: Option<nat>
    /** The context managers exited so far, in order. */
    var exits: seq<nat>

    /** A checkpointer is only ever held together with its context manager and the agent. */
    predicate Valid()
      reads this
    {
      checkpointer.Some? ==> checkpointerCm.Some? && agent.Some?
    }

    constructor()
      ensures Valid() && checkpointer.None? && agent.None? && checkpointerCm.None? && exits == []
    {
      checkpointer, agent, checkpointerCm, exits := None, None, None, [];
    }

    /** setup: nothing when a checkpointer is already there; otherwise open and enter the
        saver, create its tables and create the agent. When a step fails, the context manager
        (if one was opened) is exited, all three fields go back to None and the error is
        raised again. */
    method Setup(cm: Result<nat, string>, entered: Result<nat, string>, tables: Option<string>,
                 created: Result<nat, string>)
      returns (raised: Option<string>)
      requires Valid()
      modifies this
      ensures Valid()
      ensures old(checkpointer).Some? ==>
        raised.None? && checkpointer == old(checkpointer) && agent == old(agent)
        && checkpointerCm == old(checkpointerCm) && exits == old(exits)
      ensures old(checkpointer).None? ==> raised == SetupError(cm, entered, tables, created)
      ensures old(checkpointer).None? && raised.None? ==>
        checkpointer == Some(entered.value) && agent == Some(created.value)
        && checkpointerCm == Some(cm.value) && exits == old(exits)
      ensures old(checkpointer).None? && raised.Some? ==>
        checkpointer.None? && agent.None? && checkpointerCm.None?
        && exits == old(exits) + (if cm.Success? then [cm.value] else [])
    {
      raised := None;
      if checkpointer.Some? {
        return;
      }
      raised := SetupError(cm, entered, tables, created);
      if raised.None? {
        checkpointerCm := Some(cm.value);
        checkpointer := Some(entered.value);
        agent := Some(created.value);
      } else {
        if cm.Success? {
          exits := exits + [cm.value];
        }
        checkpointer, agent, checkpointerCm := None, None, None;
      }
    }

    /** cleanup: with a checkpointer, exit its context manager (when there is one) and drop
        both. The agent itself is kept. */
    method Cleanup()
      modifies this
      ensures checkpointer.None? && agent == old(agent)
      ensures old(checkpointer).Some? ==>
        checkpointerCm.None? && exits == old(exits) + (if old(checkpointerCm).Some? then [old(checkpointerCm).value] else [])
      ensures old(checkpointer).None? ==> checkpointerCm == old(checkpointerCm) && exits == old(exits)
    {
      if checkpointer.Some? {
        if checkpointerCm.Some? {
          exits := exits + [checkpointerCm.value];
          checkpointerCm := None;
        }
        checkpointer := None;
      }
    }

    /** _stream_query over the items agent.astream delivers before it ends or raises
        `failure`. */
    method StreamQuery(items: seq<StreamItem>, failure: Option<string>) returns (updates: seq<Json>, raised: Option<string>)
      ensures Streamed(updates, raised) == QueryStream(agent.Some?, checkpointer.Some?, items, failure)
    {
      if agent.None? {
        updates := [ErrorUpdate(NoAttribute("astream"))];
        raised := Some("Error: " + NoAttribute("astream"));
        return;
      }
      var finalResult: Option<UpdatesChunk> := None;
      updates := [];
      var i := 0;
      while i < |items|
        invariant 0 <= i <= |items|
        invariant updates == Processed(items[..i])
        invariant finalResult == LastUpdates(items[..i])
      {
        assert items[..i + 1][..i] == items[..i];
        updates := updates + ProcessChunk(items[i]);
        if items[i].Updates? {
          finalResult := Some(items[i].chunk);
        }
        i := i + 1;
      }
      assert items[..i] == items;
      var outcome: Result<Json, string>;
      if failure.Some? {
        outcome := Failure(failure.value);
      } else if checkpointer.None? {
        outcome := Failure(NoAttribute("alist"));
      } else {
        outcome := FinalOf(finalResult);
      }
      match outcome
      case Success(f) =>
        updates, raised := updates + [f], None;
      case Failure(e) =>
        updates, raised := updates + [ErrorUpdate(e)], Some("Error: " + e);
    }

    /** get_conversation_history: [] without a checkpointer, when reading the checkpoint fails
        or when there is none; otherwise one entry per human, AI or system message among the
        last `limit` messages, in order. */
    method GetConversationHistory(checkpoint: Result<Option<Checkpoint>, string>, limit: int)
      returns (history: seq<Json>)
      ensures checkpointer.None? || checkpoint.Failure? || checkpoint.value.None? ==> history == []
      ensures checkpointer.Some? && checkpoint.Success? && checkpoint.value.Some? ==>
        history == HistoryEntries(SliceFrom(checkpoint.value.value.messages.GetOr([]), -limit))
    {
      history := [];
      if checkpointer.None? || checkpoint.Failure? || checkpoint.value.None? {
        return;
      }
      var window := SliceFrom(checkpoint.value.value.messages.GetOr([]), -limit);
      var i := 0;
      while i < |window|
        invariant 0 <= i <= |window|
        invariant history == HistoryEntries(window[..i])
      {
        assert window[..i + 1][..i] == window[..i];
        var m := window[i];
        if m.kind == HumanKind {
          history := history + [JObj([("role", JStr("user")), ("content", m.content)])];
        } else if m.kind == AIKind {
          history := history + [JObj([("role", JStr("assistant")), ("content", m.content)])];
        } else if m.kind == SystemKind {
          history := history + [JObj([("role", JStr("system")), ("content", m.content)])];
        }
        i := i + 1;
      }
      assert window[..i] == window;
    }
  }

  /** Once cleaned up, the agent is still set but the checkpointer is not: a later query
      streams every chunk and then fails on the missing checkpointer. */
  lemma StreamAfterCleanup(items: seq<StreamItem>)
    ensures QueryStream(true, false, items, None)
         == Streamed(Processed(items) + [ErrorUpdate(NoAttribute("alist"))], Some("Error: " + NoAttribute("alist")))
  {
  }

  /** Each history entry has role user, assistant or system; the entries are the messages
      without the tool messages, each with its own content and in the same order. */
  lemma HistoryOfMessages(ms: seq<ChatMessage>)
    ensures var h := HistoryEntries(ms);
      |h| <= |ms|
      && (forall j :: 0 <= j < |h| ==>
            (h[j].JObj? && |h[j].members| == 2 && h[j].members[0].0 == "role"
             && h[j].members[0].1 in {JStr("user"), JStr("assistant"), JStr("system")}))
      && ((forall j :: 0 <= j < |ms| ==> ms[j].kind != ToolKind) ==>
            |h| == |ms| && forall j :: 0 <= j < |ms| ==>
              h[j] == JObj([("role", JStr(RoleOf(ms[j].kind).value)), ("content", ms[j].content)]))
  {
    HistoryRoles(ms);
    if forall j :: 0 <= j < |ms| ==> ms[j].kind != ToolKind {
      HistoryWithoutTools(ms);
    }
  }

  lemma {:induction false} HistoryRoles(ms: seq<ChatMessage>)
    ensures var h := HistoryEntries(ms);
      |h| <= |ms|
      && forall j :: 0 <= j < |h| ==>
           (h[j].JObj? && |h[j].members| == 2 && h[j].members[0].0 == "role"
            && h[j].members[0].1 in {JStr("user"), JStr("assistant"), JStr("system")})
  {
    if ms != [] {
      HistoryRoles(ms[..|ms| - 1]);
    }
  }

  lemma {:induction false} HistoryWithoutTools(ms: seq<ChatMessage>)
    requires forall j :: 0 <= j < |ms| ==> ms[j].kind != ToolKind
    ensures var h := HistoryEntries(ms);
      |h| == |ms| && forall j :: 0 <= j < |ms| ==>
        h[j] == JObj([("role", JStr(RoleOf(ms[j].kind).value)), ("content", ms[j].content)])
  {
    if ms != [] {
      var init := ms[..|ms| - 1];
      assert forall j :: 0 <= j < |init| ==> init[j] == ms[j];
      HistoryWithoutTools(init);
    }
  }

  // ---------------------------------------------------------------------------------------
  // TitleNLP

  /** TitleNLP._generate_title after the model call: the title of the structured response,
      "New Conversation" when that title is None, and an AttributeError when the response
      has no structured part at all. */
  function GenerateTitle(structured: Option<Option<string>>): (r: Result<string, string>)
    ensures structured.None? ==> r == Failure(NoAttribute("title"))
    ensures structured == Some(None) ==> r == Success("New Conversation")
    ensures structured.Some? && structured.value.Some? ==> r == Success(structured.value.value)
  {
    match structured
    case None => Failure(NoAttribute("title"))
    case Some(None) => Success("New Conversation")
    case Some(Some(t)) => Success(t)
  }
}
