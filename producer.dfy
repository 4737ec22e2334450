/** The agent service's streaming endpoint (stream_agent_query and generate_stream in
    agent-service/src/app/main.py): every update of the agent's stream goes out as one
    Server-Sent Event (section 9.2 of the WHATWG HTML Living Standard) named `token`, and an
    exception ends the stream with one event named `error`. The relay's line reader decodes
    such a body back into the updates. */
module Producer {
  import opened Wrappers
  import opened Text
  import opened JsonData
  import JsonParse
  import opened PyValues
  import opened Agents
  import opened Relay
  import opened Sockets

  /** The request body of /user_message/stream. */
  datatype QuerySchema = QuerySchema(query: string, threadId: Option<string>)

  /** The thread the query runs in: the request's thread_id, or "default" when it is missing
      or empty. */
  function ThreadIdOr(threadId: Option<string>): (t: string)
    ensures threadId.Some? && threadId.value != [] ==> t == threadId.value
    ensures threadId.None? || threadId.value == [] ==> t == "default"
  {
    if threadId.Some? && threadId.value != [] then threadId.value else "default"
  }

  /** The agent input: one human message holding the query. */
  function AgentInput(query: string): (msgs: seq<ChatMessage>)
    ensures |msgs| == 1 && msgs[0].kind == HumanKind && msgs[0].content == JStr(query)
  {
    [HumanMessage(query)]
  }

  function EventLine(event: string): string { "event: " + event }

  function DataLine(data: Json): string { "data: " + Dumps(data) }

  /** One event: its `event:` line, its `data:` line and the blank line that ends it. */
  function SseEvent(event: string, data: Json): string {
    EventLine(event) + "\n" + DataLine(data) + "\n\n"
  }

  /** The data of the error event. */
  function ErrorData(e: string): Json {
    JObj([("type", JStr("error")), ("content", JStr("Error: " + e)), ("message", JStr("An error occurred"))])
  }

  /** str() of an AgentException: its constructor passes (message, name) to Exception, so the
      text is the repr of that pair. */
  function AgentExceptionText(message: string): string {
    "(" + Repr(JStr(message)) + ", " + Repr(JStr("Agent Exception")) + ")"
  }

  /** The events of a stream, in order: one `token` event per update, then one `error` event
      when the agent's stream raised. */
  function Emitted(updates: seq<Json>, raised: Option<string>): (events: seq<(string, Json)>)
    ensures |events| == |updates| + (if raised.Some? then 1 else 0)
    ensures forall i :: 0 <= i < |updates| ==> events[i] == ("token", updates[i])
    ensures raised.Some? ==> events[|updates|] == ("error", ErrorData(raised.value))
  {
    seq(|updates|, i requires 0 <= i < |updates| => ("token", updates[i]))
    + (if raised.Some? then [("error", ErrorData(raised.value))] else [])
  }

  /** The body the chunks make once StreamingResponse has written them one after the other. */
  function Body(chunks: seq<string>): string {
    if chunks == [] then "" else chunks[0] + Body(chunks[1..])
  }

  /** generate_stream, given the updates the agent's stream yields and the text of the
      exception it raises after them, if any. */
  method GenerateStream(updates: seq<Json>, raised: Option<string>) returns (chunks: seq<string>)
    ensures var events := Emitted(updates, raised);
      |chunks| == |events| && forall i :: 0 <= i < |chunks| ==> chunks[i] == SseEvent(events[i].0, events[i].1)
  {
    chunks := [];
    var i := 0;
    while i < |updates|
      invariant 0 <= i <= |updates|
      invariant |chunks| == i
      invariant forall j :: 0 <= j < i ==> chunks[j] == SseEvent("token", updates[j])
    {
      chunks := chunks + [SseEvent("token", updates[i])];
      i := i + 1;
    }
    if raised.Some? {
      chunks := chunks + [SseEvent("error", ErrorData(raised.value))];
    }
  }

  /** stream_agent_query: the agent streams the query in its thread; the stream's updates
      and, after a failure, the error event go out in order, and the relay reading the body
      gets back exactly those updates followed by the error data. */
  method StreamAgentQuery(agent: TransactionAgent, request: QuerySchema,
                          astream: (seq<ChatMessage>, string) -> (seq<StreamItem>, Option<string>))
    returns (chunks: seq<string>)
    ensures var (items, failure) := astream(AgentInput(request.query), ThreadIdOr(request.threadId));
      var s := QueryStream(agent.agent.Some?, agent.checkpointer.Some?, items, failure);
      var events := Emitted(s.updates, if s.raised.Some? then Some(AgentExceptionText(s.raised.value)) else None);
      |chunks| == |events| && (forall i :: 0 <= i < |chunks| ==> chunks[i] == SseEvent(events[i].0, events[i].1))
      && Payloads(Lines(Body(chunks))) ==
           s.updates + (if s.raised.Some? then [ErrorData(AgentExceptionText(s.raised.value))] else [])
  {
    var thread := ThreadIdOr(request.threadId);
    var (items, failure) := astream(AgentInput(request.query), thread);
    var updates, raised := agent.StreamQuery(items, failure);
    var text := if raised.Some? then Some(AgentExceptionText(raised.value)) else None;
    chunks := GenerateStream(updates, text);
    StreamDecodes(updates, text, chunks);
  }

  // ---------------------------------------------------------------------------------------
  // Reading the body back

  /** The first occurrence of c is at k when s[k] is c and nothing before it is. */
  lemma {:induction false} FirstIndexAt(s: string, c: char, k: nat)
    requires k < |s| && s[k] == c && c !in s[..k]
    ensures FirstIndex(s, c) == k
  {
    if k > 0 {
      assert s[0] == s[..k][0];
      assert s[1..][..k - 1] == s[1..k];
      FirstIndexAt(s[1..], c, k - 1);
    }
  }

  /** Splitting at the first separator: a piece without it, then the rest. */
  lemma SplitCons(a: string, b: string, c: char)
    requires c !in a
    ensures Split(a + [c] + b, c) == [a] + Split(b, c)
  {
    var s := a + [c] + b;
    assert s[..|a|] == a && s[|a|] == c && s[|a| + 1..] == b;
    FirstIndexAt(s, c, |a|);
  }

  /** The lines of an event followed by more text. */
  lemma EventLines(l1: string, l2: string, rest: string)
    requires '\n' !in l1 && '\n' !in l2
    ensures Split(l1 + "\n" + l2 + "\n\n" + rest, '\n') == [l1, l2, ""] + Split(rest, '\n')
  {
    var nl := "\n";
    var x := l1 + nl;
    var b2 := "" + nl + rest;
    assert b2 == nl + rest;
    assert "\n\n" == nl + nl;
    AppendAssoc(x + l2, nl + nl, rest);
    AppendAssoc(x, l2, (nl + nl) + rest);
    AppendAssoc(nl, nl, rest);
    AppendAssoc(l2, nl, nl + rest);
    var b1 := l2 + nl + b2;
    assert l1 + "\n" + l2 + "\n\n" + rest == x + b1;
    var r := Split(rest, '\n');
    SplitCons("", rest, '\n');
    SplitCons(l2, b2, '\n');
    SplitCons(l1, b1, '\n');
    ConsThree(l1, l2, "", r);
  }

  lemma ConsThree(a: string, b: string, c: string, r: seq<string>)
    ensures [a] + ([b] + ([c] + r)) == [a, b, c] + r
  {
  }

  lemma NotPyWhitespace(c: char)
    requires JsonData.ClosesValue(c) || c == 'd' || c == 'e' || c == 'n' || c == 'r'
    ensures !PyWhitespace(c)
  {
  }

  /** An event line carries no payload and no line break. */
  lemma EventLinePayload(event: string)
    requires event == "token" || event == "error"
    ensures '\n' !in EventLine(event) && PayloadOf(EventLine(event)) == None
  {
    var l := EventLine(event);
    NotPyWhitespace(l[0]);
    NotPyWhitespace(l[|l| - 1]);
    TrimOfUnpadded(l, PyWhitespace);
    assert l[0] != DataPrefix[0];
  }

  /** The blank line that ends an event carries no payload. */
  lemma BlankPayload()
    ensures PayloadOf("") == None
  {
    assert |PyStrip("")| <= 0;
  }

  /** A data line carries exactly its value and no line break. */
  lemma DataLinePayload(data: Json)
    ensures '\n' !in DataLine(data) && PayloadOf(DataLine(data)) == Some(data)
  {
    var d := Dumps(data);
    EncodeEnds(data, Py);
    JsonParse.EncodeParseRoundTrip(data, Py);
    EncodePrintable(data, Py);
    DataLineUnbroken(d);
    DataPayload(d, data);
  }

  /** A line "data: " + d whose d ends with a value's last character carries what d parses to. */
  lemma DataPayload(d: string, data: Json)
    requires d != [] && ClosesValue(d[|d| - 1]) && JsonParse.Parse(d) == Some(data)
    ensures PayloadOf("data: " + d) == Some(data)
  {
    var l := "data: " + d;
    assert l[|l| - 1] == d[|d| - 1];
    NotPyWhitespace(l[0]);
    NotPyWhitespace(l[|l| - 1]);
    TrimOfUnpadded(l, PyWhitespace);
    assert l[..|DataPrefix|] == DataPrefix && l[|DataPrefix|..] == d;
  }

  lemma DataLineUnbroken(d: string)
    requires Printable(d, Py)
    ensures '\n' !in "data: " + d
  {
    var l := "data: " + d;
    forall k | 0 <= k < |l| ensures l[k] != '\n' {
      if k >= 6 { assert l[k] == d[k - 6]; }
    }
  }

  /** Three lines of which only the middle one carries a payload. */
  lemma MiddlePayload(l1: string, l2: string, l3: string, data: Json)
    requires PayloadOf(l1) == None && PayloadOf(l2) == Some(data) && PayloadOf(l3) == None
    ensures Payloads([l1, l2, l3]) == [data]
  {
    PayloadsStep([l1, l2, l3], 0);
    PayloadsStep([l1, l2, l3], 1);
    PayloadsStep([l1, l2, l3], 2);
  }

  /** The data of some events, in order. */
  function DataOf(events: seq<(string, Json)>): (r: seq<Json>)
    ensures |r| == |events| && forall i :: 0 <= i < |events| ==> r[i] == events[i].1
  {
    if events == [] then [] else [events[0].1] + DataOf(events[1..])
  }

  /** The relay reading one event followed by more text gets the event's data first. */
  lemma FirstEvent(event: string, data: Json, rest: string)
    requires event == "token" || event == "error"
    ensures Payloads(Lines(SseEvent(event, data) + rest)) == [data] + Payloads(Lines(rest))
  {
    var l1, l2 := EventLine(event), DataLine(data);
    EventLinePayload(event);
    DataLinePayload(data);
    BlankPayload();
    EventLines(l1, l2, rest);
    PayloadsConcat([l1, l2, ""], Lines(rest));
    MiddlePayload(l1, l2, "", data);
  }

  /** Round trip: the relay reading a body of events gets back their data, in order. */
  lemma {:induction false} EventsRoundTrip(chunks: seq<string>, events: seq<(string, Json)>)
    requires |chunks| == |events|
    requires forall i :: 0 <= i < |chunks| ==> chunks[i] == SseEvent(events[i].0, events[i].1)
    requires forall i :: 0 <= i < |events| ==> events[i].0 == "token" || events[i].0 == "error"
    ensures Payloads(Lines(Body(chunks))) == DataOf(events)
  {
    if chunks == [] {
      assert Lines("") == [""];
    } else {
      FirstEvent(events[0].0, events[0].1, Body(chunks[1..]));
      EventsRoundTrip(chunks[1..], events[1..]);
    }
  }

  /** A produced stream decodes to the updates, followed by the error data when the agent's
      stream raised. */
  lemma StreamDecodes(updates: seq<Json>, raised: Option<string>, chunks: seq<string>)
    requires var events := Emitted(updates, raised);
      |chunks| == |events| && forall i :: 0 <= i < |chunks| ==> chunks[i] == SseEvent(events[i].0, events[i].1)
    ensures Payloads(Lines(Body(chunks))) == updates + (if raised.Some? then [ErrorData(raised.value)] else [])
  {
    var events := Emitted(updates, raised);
    EventsRoundTrip(chunks, events);
    EmittedData(updates, raised);
  }

  /** The data of the events are the updates, then the error data. */
  lemma EmittedData(updates: seq<Json>, raised: Option<string>)
    ensures DataOf(Emitted(updates, raised)) == updates + (if raised.Some? then [ErrorData(raised.value)] else [])
  {
    var events := Emitted(updates, raised);
    var want := updates + (if raised.Some? then [ErrorData(raised.value)] else []);
    var got := DataOf(events);
    forall i | 0 <= i < |want| ensures got[i] == want[i] {
      if i < |updates| {
        assert events[i] == ("token", updates[i]);
      } else {
        assert events[i] == ("error", ErrorData(raised.value));
      }
    }
  }
}
