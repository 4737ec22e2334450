/** The agent chat page (frontend/src/pages/Agent.tsx): frames arriving on the agent socket
    either raise the typing indicator or are appended to the conversation with their escaped
    newlines turned into real ones, and the input box is sent as a `{content}` frame. */
module AgentPage {
  import opened Wrappers
  import opened Text
  import opened JsonData
  import JsonParse
  import opened JsValues

  /** True when s holds a backslash immediately followed by 'n' at i. */
  predicate EscapedNewlineAt(s: string, i: int) {
    0 <= i && i + 1 < |s| && s[i] == '\\' && s[i + 1] == 'n'
  }

  predicate HasEscapedNewline(s: string) {
    exists i :: 0 <= i < |s| && EscapedNewlineAt(s, i)
  }

  /** `s.replace(/\\n/g, '\n')`: each backslash-n pair, scanning left to right without
      overlap, becomes a newline. */
  function ReplaceEscapedNewlines(s: string): (r: string)
    ensures |r| <= |s|
    ensures r != [] && s != [] && s[0] != '\\' ==> r[0] == s[0]
    ensures r == [] <==> s == []
  {
    if s == [] then []
    else if |s| >= 2 && s[0] == '\\' && s[1] == 'n' then "\n" + ReplaceEscapedNewlines(s[2..])
    else [s[0]] + ReplaceEscapedNewlines(s[1..])
  }

  /** No backslash-n pair survives the rewrite. */
  lemma {:induction false} NoEscapedNewlineRemains(s: string)
    ensures !HasEscapedNewline(ReplaceEscapedNewlines(s))
    decreases |s|
  {
    var r := ReplaceEscapedNewlines(s);
    if s == [] {
    } else if |s| >= 2 && s[0] == '\\' && s[1] == 'n' {
      NoEscapedNewlineRemains(s[2..]);
      var t := ReplaceEscapedNewlines(s[2..]);
      assert r == "\n" + t;
      forall i | 0 <= i < |r| ensures !EscapedNewlineAt(r, i) {
        if i > 0 {
          assert !EscapedNewlineAt(t, i - 1);
        }
      }
    } else {
      NoEscapedNewlineRemains(s[1..]);
      var t := ReplaceEscapedNewlines(s[1..]);
      assert r == [s[0]] + t;
      forall i | 0 <= i < |r| ensures !EscapedNewlineAt(r, i) {
        if i > 0 {
          assert !EscapedNewlineAt(t, i - 1);
        }
      }
    }
  }

  /** The writer side: each newline written as a backslash and 'n'. */
  function EscapeNewlines(t: string): (r: string)
    ensures '\n' !in r
  {
    if t == [] then []
    else (if t[0] == '\n' then "\\n" else [t[0]]) + EscapeNewlines(t[1..])
  }

  lemma EscapeNewlinesHead(t: string)
    requires t != []
    ensures EscapeNewlines(t)[0] == (if t[0] == '\n' then '\\' else t[0])
  {
  }

  /** Rewriting undoes escaping for any text that holds no backslash-n pair of its own. */
  lemma {:induction false} ReplaceUndoesEscape(t: string)
    requires !HasEscapedNewline(t)
    ensures ReplaceEscapedNewlines(EscapeNewlines(t)) == t
    decreases |t|
  {
    if t != [] {
      var rest := t[1..];
      assert !HasEscapedNewline(rest) by {
        forall i | 0 <= i < |rest| ensures !EscapedNewlineAt(rest, i) {
          assert !EscapedNewlineAt(t, i + 1);
        }
      }
      ReplaceUndoesEscape(rest);
      var e := EscapeNewlines(rest);
      if t[0] == '\n' {
        assert EscapeNewlines(t) == "\\n" + e;
        assert ("\\n" + e)[2..] == e;
      } else {
        assert EscapeNewlines(t) == [t[0]] + e;
        assert ([t[0]] + e)[1..] == e;
        if t[0] == '\\' && e != [] {
          EscapeNewlinesHead(rest);
          assert !EscapedNewlineAt(t, 0);
          assert rest[0] != 'n';
        }
      }
    }
  }

  /** `{...message, content}`: every member named content gets the new value, the rest stay. */
  function WithContent(ms: seq<(string, Json)>, content: Json): (r: seq<(string, Json)>)
    ensures |r| == |ms|
    ensures forall k :: 0 <= k < |ms| ==> r[k].0 == ms[k].0
    ensures forall k :: 0 <= k < |ms| && ms[k].0 != "content" ==> r[k] == ms[k]
    ensures forall k :: 0 <= k < |ms| && ms[k].0 == "content" ==> r[k].1 == content
  {
    if ms == [] then []
    else
      var last := ms[|ms| - 1];
      WithContent(ms[..|ms| - 1], content) + [(last.0, if last.0 == "content" then content else last.1)]
  }

  /** After the spread, a lookup of content finds the new value and every other key the old one. */
  lemma {:induction false} WithContentLookup(ms: seq<(string, Json)>, content: Json, k: string)
    ensures Lookup(WithContent(ms, content), k) ==
      (if k == "content" && Lookup(ms, k).Some? then Some(content) else Lookup(ms, k))
    decreases |ms|
  {
    if ms != [] {
      var init := ms[..|ms| - 1];
      var r := WithContent(ms, content);
      assert r[..|r| - 1] == WithContent(init, content);
      WithContentLookup(init, content, k);
    }
  }

  /** What one incoming frame does to the page. */
  datatype FrameEffect =
    | Ignored            // JSON.parse or `message.type` threw: nothing changes
    | TypingShown        // a typing frame
    | TypingCleared      // typing cleared, then `message.content.replace` threw
    | Appended(message: Json)

  /** ws.onmessage for the text of one frame. */
  function OnFrame(data: string): (e: FrameEffect)
    ensures e.Appended? ==> e.message.JObj?
  {
    var parsed := JsonParse.Parse(data);
    if parsed.None? || parsed.value.JNull? then Ignored
    else
      var m := parsed.value;
      if Prop(Some(m), "type") == Some(JStr("typing")) then TypingShown
      else if m.JObj? && Lookup(m.members, "content").Some? && Lookup(m.members, "content").value.JStr? then
        var c := Lookup(m.members, "content").value.s;
        Appended(JObj(WithContent(m.members, JStr(ReplaceEscapedNewlines(c)))))
      else TypingCleared
  }

  /** An appended message keeps every field of the frame but content, whose text is the
      frame's with its backslash-n pairs turned into newlines; the typing frame is never
      appended. */
  lemma AppendedMessage(data: string, k: string)
    requires OnFrame(data).Appended?
    ensures var m := JsonParse.Parse(data).value;
      var out := OnFrame(data).message;
      && m.JObj? && Prop(Some(m), "type") != Some(JStr("typing"))
      && Lookup(m.members, "content").Some? && Lookup(m.members, "content").value.JStr?
      && Lookup(out.members, "content") == Some(JStr(ReplaceEscapedNewlines(Lookup(m.members, "content").value.s)))
      && (k != "content" ==> Lookup(out.members, k) == Lookup(m.members, k))
      && !HasEscapedNewline(Lookup(out.members, "content").value.s)
  {
    var m := JsonParse.Parse(data).value;
    var c := Lookup(m.members, "content").value.s;
    WithContentLookup(m.members, JStr(ReplaceEscapedNewlines(c)), "content");
    WithContentLookup(m.members, JStr(ReplaceEscapedNewlines(c)), k);
    NoEscapedNewlineRemains(c);
  }

  /** A frame that parses to an object whose content is a string, and whose type is not
      typing, is appended with that content rewritten. */
  lemma ObjectFrameAppended(data: string, ms: seq<(string, Json)>, c: string)
    requires JsonParse.Parse(data) == Some(JObj(ms))
    requires Lookup(ms, "type") != Some(JStr("typing")) && Lookup(ms, "content") == Some(JStr(c))
    ensures OnFrame(data) == Appended(JObj(WithContent(ms, JStr(ReplaceEscapedNewlines(c)))))
  {
  }

  /** The spread over the agent's two fields replaces only the second. */
  lemma WithContentOfAgentFrame(c: string, r: Json)
    ensures WithContent([("type", JStr("agent")), ("content", JStr(c))], r) == [("type", JStr("agent")), ("content", r)]
  {
    var ms := [("type", JStr("agent")), ("content", JStr(c))];
    assert ms[..1] == [("type", JStr("agent"))];
  }

  /** A frame the backend's agent writes as {"type": "agent", "content": c} is appended with
      the rewritten content. */
  lemma AgentFrameAppended(c: string)
    ensures OnFrame(Stringify(JObj([("type", JStr("agent")), ("content", JStr(c))])))
      == Appended(JObj([("type", JStr("agent")), ("content", JStr(ReplaceEscapedNewlines(c)))]))
  {
    var ms := [("type", JStr("agent")), ("content", JStr(c))];
    var data := Stringify(JObj(ms));
    JsonParse.EncodeParseRoundTrip(JObj(ms), Js);
    assert Lookup(ms, "content") == Some(JStr(c));
    assert Lookup(ms, "type") == Some(JStr("agent"));
    ObjectFrameAppended(data, ms, c);
    WithContentOfAgentFrame(c, JStr(ReplaceEscapedNewlines(c)));
  }

  /** The frame sendMessage writes. */
  function ContentFrame(text: string): string {
    Stringify(JObj([("content", JStr(text))]))
  }

  /** The backend reads the trimmed text back from the frame's content field. */
  lemma ContentFrameRoundTrip(text: string)
    ensures JsonParse.Parse(ContentFrame(text)) == Some(JObj([("content", JStr(text))]))
  {
    JsonParse.EncodeParseRoundTrip(JObj([("content", JStr(text))]), Js);
  }

  /** The page's state. `hasSocket` is `wsRef.current` being set; `sent` is what went out on it. */
  class ChatPage {
    var messages: seq<Json>
    var isTyping: bool
    var inputMessage: string
    var isConnected: bool
    var hasSocket: bool
    var sent: seq<string>

    constructor ()
      ensures messages == [] && !isTyping && inputMessage == [] && !isConnected && !hasSocket && sent == []
    {
      messages := [];
      isTyping := false;
      inputMessage := [];
      isConnected := false;
      hasSocket := false;
      sent := [];
    }

    /** connectWebSocket: a new socket is kept in wsRef; it is not open yet. */
    method Connect()
      modifies this
      ensures hasSocket && isConnected == old(isConnected)
      ensures messages == old(messages) && isTyping == old(isTyping) && inputMessage == old(inputMessage)
      ensures sent == old(sent)
    {
      hasSocket := true;
    }

    method OnOpen()
      modifies this
      ensures isConnected
      ensures messages == old(messages) && isTyping == old(isTyping) && inputMessage == old(inputMessage)
      ensures hasSocket == old(hasSocket) && sent == old(sent)
    {
      isConnected := true;
    }

    /** onclose and onerror; the reconnection three seconds later is a new Connect. */
    method OnCloseOrError()
      modifies this
      ensures !isConnected
      ensures messages == old(messages) && isTyping == old(isTyping) && inputMessage == old(inputMessage)
      ensures hasSocket == old(hasSocket) && sent == old(sent)
    {
      isConnected := false;
    }

    /** The textarea's onChange. */
    method InputChange(value: string)
      modifies this
      ensures inputMessage == value
      ensures messages == old(messages) && isTyping == old(isTyping) && isConnected == old(isConnected)
      ensures hasSocket == old(hasSocket) && sent == old(sent)
    {
      inputMessage := value;
    }

    /** ws.onmessage: the typing flag and the message list change as OnFrame says, and only
        at the end of the list. */
    method OnMessage(data: string)
      modifies this
      ensures OnFrame(data).Ignored? ==> messages == old(messages) && isTyping == old(isTyping)
      ensures OnFrame(data).TypingShown? ==> messages == old(messages) && isTyping
      ensures OnFrame(data).TypingCleared? ==> messages == old(messages) && !isTyping
      ensures OnFrame(data).Appended? ==> messages == old(messages) + [OnFrame(data).message] && !isTyping
      ensures inputMessage == old(inputMessage) && isConnected == old(isConnected)
      ensures hasSocket == old(hasSocket) && sent == old(sent)
    {
      match OnFrame(data) {
        case Ignored =>
        case TypingShown =>
          isTyping := true;
        case TypingCleared =>
          isTyping := false;
        case Appended(m) =>
          isTyping := false;
          messages := messages + [m];
      }
    }

    /** sendMessage: nothing without text, a socket and a connection; otherwise the trimmed
        text goes out as a content frame and the box is cleared. */
    method SendMessage() returns (frame: Option<string>)
      modifies this
      ensures JsTrim(old(inputMessage)) == [] || !hasSocket || !isConnected ==>
        frame.None? && inputMessage == old(inputMessage) && sent == old(sent)
      ensures JsTrim(old(inputMessage)) != [] && hasSocket && isConnected ==>
        && frame == Some(ContentFrame(JsTrim(old(inputMessage))))
        && sent == old(sent) + [frame.value] && inputMessage == []
      ensures messages == old(messages) && isTyping == old(isTyping)
      ensures isConnected == old(isConnected) && hasSocket == old(hasSocket)
    {
      if JsTrim(inputMessage) == [] || !hasSocket || !isConnected {
        return None;
      }
      frame := Some(ContentFrame(JsTrim(inputMessage)));
      sent := sent + [frame.value];
      inputMessage := [];
    }
  }
}
