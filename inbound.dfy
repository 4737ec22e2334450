/** What the backend does with one text frame from the chat client before relaying it: decode it
    as JSON or keep it as plain text, echo it as a User frame, and announce that the agent is
    starting (backend/app/routers/chat_router.py and backend/app/service/websocket_message_handler.py
    do this the same way). */
module Inbound {
  import opened Wrappers
  import opened JsonData
  import JsonParse
  import opened PyValues
  import opened Schema

  /** A client frame after json.loads: not JSON at all, or a decoded value. */
  datatype Input = Plain | Decoded(value: Json)

  function ReadInput(text: string): Input {
    match JsonParse.Parse(text)
    case None => Plain
    case Some(v) => Decoded(v)
  }

  /** The name Python gives the type of a decoded value. */
  function TypeName(v: Json): string {
    match v
    case JNull => "NoneType"
    case JBool(_) => "bool"
    case JInt(_) => "int"
    case JStr(_) => "str"
    case JArr(_) => "list"
    case JObj(_) => "dict"
  }

  /** The members of the decoded dict, or the AttributeError that `.get` raises on any other
      decoded value; plain text has no members. */
  function InputMembers(input: Input): (r: Result<seq<(string, Json)>, string>)
    ensures input.Plain? ==> r == Success([])
    ensures input.Decoded? && input.value.JObj? ==> r == Success(input.value.members)
    ensures input.Decoded? && !input.value.JObj? ==>
      r == Failure("'" + TypeName(input.value) + "' object has no attribute 'get'")
  {
    match input
    case Plain => Success([])
    case Decoded(v) =>
      if v.JObj? then Success(v.members)
      else Failure("'" + TypeName(v) + "' object has no attribute 'get'")
  }

  /** The user's message: the text itself when it is not JSON, otherwise
      message_data.get("content", text). */
  function MessageOf(text: string): Result<Json, string> {
    var input := ReadInput(text);
    match InputMembers(input)
    case Failure(e) => Failure(e)
    case Success(ms) => Success(if input.Plain? then JStr(text) else GetOr(ms, "content", JStr(text)))
  }

  /** Text that is not JSON is the message, verbatim. */
  lemma PlainTextVerbatim(text: string)
    requires JsonParse.Parse(text).None?
    ensures MessageOf(text) == Success(JStr(text))
  {
  }

  /** A JSON object's content member is the message; without one, the raw text is. */
  lemma ContentOrRaw(text: string, ms: seq<(string, Json)>)
    requires JsonParse.Parse(text) == Some(JObj(ms))
    ensures MessageOf(text) == Success(if Lookup(ms, "content").Some? then Lookup(ms, "content").value else JStr(text))
  {
  }

  /** Any other JSON value makes the turn raise. */
  lemma NonObjectRaises(text: string)
    requires JsonParse.Parse(text).Some? && !JsonParse.Parse(text).value.JObj?
    ensures MessageOf(text).Failure?
  {
  }

  /** The User echo: the message, stamped with the current time. */
  function Echo(message: Json, now: string): Frame {
    Message(JStr("User"), message, JStr(now), map[])
  }

  const ThinkingText: string := "\U{F0}\U{178}\U{A4}\U{201D} Agent is starting to analyze your request..."

  /** The thinking indicator; it carries no timestamp, so the class-creation time stamps it. */
  function Thinking(classTime: string): Frame {
    Progress(JStr("progress"), JStr(ThinkingText), JStr(classTime), JStr("initializing"), map[])
  }

  /** WebSocketMessage(type="User", content=message, timestamp=now) builds the echo. */
  lemma EchoIsConstructor(message: Json, now: string, classTime: string, later: string)
    ensures NewMessage([("type", JStr("User")), ("content", message), ("timestamp", JStr(now))], classTime, later)
         == Success(Echo(message, now))
  {
    var kw := [("type", JStr("User")), ("content", message), ("timestamp", JStr(now))];
    assert kw == [("type", JStr("User")), ("content", message)] + [("timestamp", JStr(now))];
    MessageTimestamp(JStr("User"), message, Some(JStr(now)), classTime, later);
  }

  /** ProgressMessage(type="progress", content=..., progress_type="initializing") builds the
      thinking indicator. */
  lemma ThinkingIsConstructor(classTime: string, now: string)
    ensures NewProgress([("type", JStr("progress")), ("content", JStr(ThinkingText)), ("progress_type", JStr("initializing"))],
                        classTime, now)
         == Success(Thinking(classTime))
  {
    ProgressOf(JStr("progress"), JStr(ThinkingText), JStr("initializing"), classTime, now);
  }
}
