/** The backend's relay from the agent service to a chat WebSocket (query_agent_service_streaming
    in backend/app/service/websocket_service.py). It posts the user's message, reads the
    text/event-stream reply line by line, forwards every decoded `data: ` payload as a progress
    frame, keeps a trace of reasoning steps, and ends on the first final_response with one
    Agent frame. Every failure on the way becomes one Agent frame carrying an error text. */
module Relay {
  import opened Wrappers
  import opened Text
  import opened JsonData
  import JsonParse
  import opened PyValues
  import opened Schema
  import opened Sockets

  /** How a call to the agent service failed: an aiohttp.ClientError, or any other exception. */
  datatype Failure = ClientError | OtherError

  /** The agent service's reply as the relay observes it. `broken` is a failure raised once the
      lines of `body` have been delivered (a dropped connection, a timeout). */
  datatype Upstream =
    | Unreachable(failure: Failure)
    | Reply(status: int, body: string, broken: Option<Failure>)

  /** A POST to /user_message/stream: its JSON body and its total timeout in seconds, if any. */
  datatype Request = Request(body: Json, timeoutSeconds: Option<nat>)

  /** The relay as written, whose ProgressMessage call also passes tool_name and tool_args, or
      the relay with those two keywords removed. */
  datatype Variant = AsWritten | Corrected

  /** Why the relay stopped: the lines ran out, a final_response was answered, or it failed. */
  datatype Stop = Exhausted | Answered(answer: Frame) | Failed

  /** The frames the relay sends, in order, and why it stopped. */
  datatype Outcome = Outcome(frames: seq<Frame>, stop: Stop)

  /** The relay returns its Agent answer, and None in every other case. */
  function AnswerOf(o: Outcome): Option<Frame> {
    if o.stop.Answered? then Some(o.stop.answer) else None
  }

  function Then(prefix: seq<Frame>, o: Outcome): Outcome {
    Outcome(prefix + o.frames, o.stop)
  }

  lemma ThenThen(a: seq<Frame>, b: seq<Frame>, o: Outcome)
    ensures Then(a, Then(b, o)) == Then(a + b, o)
  {
    assert a + (b + o.frames) == (a + b) + o.frames;
  }

  /** The request body: {"query": user_message, "thread_id": thread_id}. */
  function RequestBody(userMessage: Json, threadId: Json): Json {
    JObj([("query", userMessage), ("thread_id", threadId)])
  }

  /** The relay's ClientSession is built without a timeout, so aiohttp's default ClientTimeout
      applies: 300 seconds in total. */
  const DefaultTimeout: nat := 300

  lemma RequestBodyFields(userMessage: Json, threadId: Json)
    ensures Keys(RequestBody(userMessage, threadId).members) == ["query", "thread_id"]
    ensures Lookup(RequestBody(userMessage, threadId).members, "query") == Some(userMessage)
    ensures Lookup(RequestBody(userMessage, threadId).members, "thread_id") == Some(threadId)
  {
    var ms := RequestBody(userMessage, threadId).members;
    LookupAt(ms, 0);
    LookupAt(ms, 1);
  }

  const DataPrefix: string := "data: "

  /** The lines of a body, as `async for line in response.content` delivers them; a final empty
      piece after a trailing line break stands for no line and is ignored like a blank line. */
  function Lines(body: string): seq<string> { Split(body, '\n') }

  /** The payload of one line: the line is stripped, must start with "data: ", and the rest must
      decode as JSON; anything else is skipped. */
  function PayloadOf(line: string): Option<Json> {
    var l := PyStrip(line);
    if |l| >= |DataPrefix| && l[..|DataPrefix|] == DataPrefix then JsonParse.Parse(l[|DataPrefix|..]) else None
  }

  /** The decoded payloads of the lines, in order. */
  function Payloads(lines: seq<string>): seq<Json> {
    if lines == [] then [] else (match PayloadOf(lines[0]) case Some(v) => [v] case None => []) + Payloads(lines[1..])
  }

  lemma PayloadsStep(lines: seq<string>, i: nat)
    requires i < |lines|
    ensures Payloads(lines[i..]) ==
      (match PayloadOf(lines[i]) case Some(v) => [v] case None => []) + Payloads(lines[i + 1..])
  {
    assert lines[i..][0] == lines[i] && lines[i..][1..] == lines[i + 1..];
  }

  lemma PayloadsConcat(a: seq<string>, b: seq<string>)
    ensures Payloads(a + b) == Payloads(a) + Payloads(b)
  {
    if a == [] {
      assert a + b == b;
    } else {
      assert (a + b)[0] == a[0] && (a + b)[1..] == a[1..] + b;
      PayloadsConcat(a[1..], b);
    }
  }

  /** The members of a decoded dict; the relay only reads members of dicts. */
  function Fields(v: Json): seq<(string, Json)> {
    if v.JObj? then v.members else []
  }

  /** data.get("type") == "final_response". */
  predicate IsFinal(v: Json) {
    Get(Fields(v), "type") == JStr("final_response")
  }

  /** The reasoning step recorded for a payload that is not the final response. */
  function Step(v: Json): Json {
    var ms := Fields(v);
    JObj([("type", GetOr(ms, "type", JStr("unknown"))),
          ("content", GetOr(ms, "message", JStr(""))),
          ("tool_name", Get(ms, "tool_name")),
          ("tool_args", Get(ms, "tool_args")),
          ("timestamp", Get(ms, "timestamp"))])
  }

  /** The keyword arguments of the ProgressMessage call for a payload. */
  function ProgressKwargs(v: Json, variant: Variant): seq<(string, Json)> {
    var ms := Fields(v);
    [("type", JStr("progress")),
     ("content", GetOr(ms, "message", JStr("Processing..."))),
     ("progress_type", GetOr(ms, "type", JStr("unknown")))]
    + (if variant == AsWritten then [("tool_name", Get(ms, "tool_name")), ("tool_args", Get(ms, "tool_args"))] else [])
  }

  /** The progress frame forwarded for a payload: its message (default "Processing...") as
      content, its type (default "unknown") as progress_type. */
  function ProgressFor(v: Json, classTime: string): Frame {
    var ms := Fields(v);
    Progress(JStr("progress"), GetOr(ms, "message", JStr("Processing...")), JStr(classTime),
             GetOr(ms, "type", JStr("unknown")), map[])
  }

  /** The Agent frame for the final response, with the trace attached as reasoning_steps. */
  function Answer(v: Json, steps: seq<Json>, classTime: string): Frame {
    Message(JStr("Agent"), GetOr(Fields(v), "content", JStr("No response available")), JStr(classTime),
            map["reasoning_steps" := JArr(steps)])
  }

  function ErrorText(f: Failure): string {
    match f
    case ClientError => "Failed to connect to agent service. Please check if the service is running."
    case OtherError => "Unexpected error:"
  }

  function StatusText(status: int): string {
    "Agent service error: " + IntToString(status)
  }

  /** An Agent frame carrying an error text. */
  function ErrorFrame(text: string, classTime: string): Frame {
    Message(JStr("Agent"), JStr(text), JStr(classTime), map[])
  }

  /** The outcome of the ProgressMessage call for a payload: the frame, or None when the call
      raises. The call raises exactly when the stray keywords are passed (BuiltIsConstructor). */
  function Built(v: Json, variant: Variant, classTime: string): Option<Frame> {
    if variant == Corrected then Some(ProgressFor(v, classTime)) else None
  }

  lemma BuiltIsConstructor(v: Json, variant: Variant, classTime: string)
    ensures var r := NewProgress(ProgressKwargs(v, variant), classTime, classTime);
      Built(v, variant, classTime) == if r.Success? then Some(r.value) else None
  {
    if variant == Corrected {
      CorrectedProgress(v, classTime);
    } else {
      AsWrittenProgressFails(v, classTime);
    }
  }

  /** The relay's work on the decoded payloads, given the reasoning steps gathered so far. No
      timestamp is passed to the constructors, so the class-creation time stamps every frame. */
  function Collect(ps: seq<Json>, steps: seq<Json>, variant: Variant, classTime: string): Outcome {
    if ps == [] then Outcome([], Exhausted)
    else if !ps[0].JObj? then Outcome([ErrorFrame(ErrorText(OtherError), classTime)], Failed)
    else
      match Built(ps[0], variant, classTime)
      case None => Outcome([ErrorFrame(ErrorText(OtherError), classTime)], Failed)
      case Some(p) =>
        if IsFinal(ps[0]) then
          var a := Answer(ps[0], steps, classTime);
          Outcome([p, a], Answered(a))
        else
          Then([p], Collect(ps[1..], steps + [Step(ps[0])], variant, classTime))
  }

  /** Everything the relay sends for one reply of the agent service. */
  function RelayOutcome(up: Upstream, variant: Variant, classTime: string): Outcome {
    match up
    case Unreachable(f) => Outcome([ErrorFrame(ErrorText(f), classTime)], Failed)
    case Reply(status, body, broken) =>
      if status == 200 then
        var o := Collect(Payloads(Lines(body)), [], variant, classTime);
        if o.stop.Exhausted? && broken.Some? then Then(o.frames, Outcome([ErrorFrame(ErrorText(broken.value), classTime)], Failed))
        else o
      else if broken.Some? then Outcome([ErrorFrame(ErrorText(broken.value), classTime)], Failed)
      else Outcome([ErrorFrame(StatusText(status), classTime)], Failed)
  }

  /** What one payload does, read off Collect. */
  lemma CollectCons(v: Json, rest: seq<Json>, steps: seq<Json>, variant: Variant, classTime: string)
    ensures Collect([v] + rest, steps, variant, classTime) ==
      if !v.JObj? || Built(v, variant, classTime).None? then Outcome([ErrorFrame(ErrorText(OtherError), classTime)], Failed)
      else if IsFinal(v) then
        Outcome([Built(v, variant, classTime).value, Answer(v, steps, classTime)], Answered(Answer(v, steps, classTime)))
      else Then([Built(v, variant, classTime).value], Collect(rest, steps + [Step(v)], variant, classTime))
  {
    assert ([v] + rest)[0] == v && ([v] + rest)[1..] == rest;
  }

  /** The relay, step by step as the source performs it: the trace grows in place and frames are
      sent as the lines arrive. */
  method Relay(ws: WebSocket, userMessage: Json, threadId: Json, agent: Request -> Upstream,
               variant: Variant, classTime: string)
    returns (answer: Option<Frame>)
    modifies ws
    ensures var o := RelayOutcome(agent(Request(RequestBody(userMessage, threadId), Some(DefaultTimeout))), variant, classTime);
      ws.sent == old(ws.sent) + Wire(o.frames) && answer == AnswerOf(o)
    ensures ws.accepted == old(ws.accepted) && ws.closed == old(ws.closed) && ws.inbox == old(ws.inbox)
  {
    var up := agent(Request(RequestBody(userMessage, threadId), Some(DefaultTimeout)));
    ghost var o := RelayOutcome(up, variant, classTime);
    ghost var texts;
    match up
    case Unreachable(f) =>
      texts := Send(ws, ErrorFrame(ErrorText(f), classTime));
      answer := None;
    case Reply(status, body, broken) =>
      if status != 200 {
        var text := if broken.Some? then ErrorText(broken.value) else StatusText(status);
        texts := Send(ws, ErrorFrame(text, classTime));
        answer := None;
      } else {
        ghost var opts := DecodeAll(Lines(body));
        var stop;
        stop, texts := ForwardLines(ws, Lines(body), opts, variant, classTime);
        ghost var c := Collect(Payloads(Lines(body)), [], variant, classTime);
        if stop.Exhausted? && broken.Some? {
          var e := ErrorFrame(ErrorText(broken.value), classTime);
          ghost var more := Send(ws, e);
          CarriesConcat(texts, c.frames, more, [e]);
          AppendAssoc(old(ws.sent), texts, more);
          texts := texts + more;
        }
        answer := if stop.Answered? then Some(stop.answer) else None;
      }
    CarriesWire(texts, o.frames);
  }

  /** Sends one frame as json.dumps(frame.to_dict()). */
  method Send(ws: WebSocket, f: Frame) returns (ghost texts: seq<string>)
    modifies ws
    ensures ws.sent == old(ws.sent) + texts && Carries(texts, [f])
    ensures ws.accepted == old(ws.accepted) && ws.closed == old(ws.closed) && ws.inbox == old(ws.inbox)
  {
    ws.SendText(WireText(f));
    texts := [WireText(f)];
  }

  /** opts lists what each line decodes to, in order. The trigger keeps the decoding of a line
      out of any proof that does not itself mention it. */
  predicate DecodesTo(lines: seq<string>, opts: seq<Option<Json>>) {
    |opts| == |lines| && forall j {:trigger PayloadOf(lines[j])} :: 0 <= j < |lines| ==> opts[j] == PayloadOf(lines[j])
  }

  /** The payloads among decoded lines. */
  function Present(opts: seq<Option<Json>>): seq<Json> {
    if opts == [] then [] else (match opts[0] case Some(v) => [v] case None => []) + Present(opts[1..])
  }

  /** Decoding every line and keeping what decoded gives the payloads of the reply. */
  lemma {:induction false} DecodeAll(lines: seq<string>) returns (opts: seq<Option<Json>>)
    ensures DecodesTo(lines, opts) && Present(opts) == Payloads(lines)
  {
    if lines == [] {
      opts := [];
    } else {
      var rest := DecodeAll(lines[1..]);
      opts := [PayloadOf(lines[0])] + rest;
      forall j | 0 <= j < |lines|
        ensures opts[j] == PayloadOf(lines[j])
      {
        if j > 0 {
          assert lines[j] == lines[1..][j - 1];
          assert PayloadOf(lines[1..][j - 1]) == rest[j - 1];
        }
      }
      assert opts[0] == PayloadOf(lines[0]) && opts[1..] == rest;
    }
  }

  lemma PresentStep(opts: seq<Option<Json>>, i: nat)
    requires i < |opts|
    ensures Present(opts[i..]) == (match opts[i] case Some(v) => [v] case None => []) + Present(opts[i + 1..])
  {
    assert opts[i..][0] == opts[i] && opts[i..][1..] == opts[i + 1..];
  }

  /** line.decode().strip(), the "data: " test and json.loads for one line. */
  method ReadLine(lines: seq<string>, ghost opts: seq<Option<Json>>, i: nat) returns (payload: Option<Json>)
    requires DecodesTo(lines, opts) && i < |lines|
    ensures payload == opts[i]
  {
    assert opts[i] == PayloadOf(lines[i]);
    var l := PyStrip(lines[i]);
    if |l| >= |DataPrefix| && l[..|DataPrefix|] == DataPrefix {
      payload := JsonParse.Parse(l[|DataPrefix|..]);
    } else {
      payload := None;
    }
  }

  /** ProgressMessage(type=..., content=..., tool_name=..., tool_args=...) for one update, or
      None when the constructor raises. */
  method MakeProgress(v: Json, variant: Variant, classTime: string) returns (made: Option<Frame>)
    ensures made == Built(v, variant, classTime)
  {
    var r := NewProgress(ProgressKwargs(v, variant), classTime, classTime);
    BuiltIsConstructor(v, variant, classTime);
    made := if r.Success? then Some(r.value) else None;
  }

  /** The body of the loop for one decoded update: the frames it sends, and either how the relay
      stops or the reasoning steps it carries on with. */
  method ForwardUpdate(ws: WebSocket, v: Json, steps: seq<Json>, ghost rest: seq<Json>, variant: Variant, classTime: string)
    returns (done: Option<Stop>, steps': seq<Json>, ghost sent: seq<Frame>, ghost texts: seq<string>)
    modifies ws
    ensures ws.sent == old(ws.sent) + texts && Carries(texts, sent)
    ensures done.Some? ==> Collect([v] + rest, steps, variant, classTime) == Outcome(sent, done.value)
    ensures done.None? ==> Collect([v] + rest, steps, variant, classTime) == Then(sent, Collect(rest, steps', variant, classTime))
    ensures ws.accepted == old(ws.accepted) && ws.closed == old(ws.closed) && ws.inbox == old(ws.inbox)
  {
    CollectCons(v, rest, steps, variant, classTime);
    steps' := steps;
    if !v.JObj? {
      var e := ErrorFrame(ErrorText(OtherError), classTime);
      texts := Send(ws, e);
      return Some(Failed), steps', [e], texts;
    }
    var made := MakeProgress(v, variant, classTime);
    if made.None? {
      var e := ErrorFrame(ErrorText(OtherError), classTime);
      texts := Send(ws, e);
      return Some(Failed), steps', [e], texts;
    }
    var p := made.value;
    texts := Send(ws, p);
    if IsFinal(v) {
      var a := Answer(v, steps, classTime);
      ghost var more := Send(ws, a);
      CarriesConcat(texts, [p], more, [a]);
      assert [p] + [a] == [p, a];
      AppendAssoc(old(ws.sent), texts, more);
      return Some(Answered(a)), steps', [p, a], texts + more;
    }
    sent := [p];
    steps' := steps + [Step(v)];
    done := None;
  }

  /** The relay has sent `emitted` for the first i lines and has `steps` recorded. */
  predicate Resumes(opts: seq<Option<Json>>, i: nat, steps: seq<Json>, emitted: seq<Frame>, variant: Variant, classTime: string)
    requires i <= |opts|
  {
    Collect(Present(opts), [], variant, classTime) == Then(emitted, Collect(Present(opts[i..]), steps, variant, classTime))
  }

  /** One pass of the loop: line i is decoded and, when it holds an update, forwarded. */
  method ForwardLine(ws: WebSocket, lines: seq<string>, ghost opts: seq<Option<Json>>, i: nat, steps: seq<Json>,
                     ghost emitted: seq<Frame>, variant: Variant, classTime: string)
    returns (done: Option<Stop>, steps': seq<Json>, ghost sent: seq<Frame>, ghost more: seq<string>)
    requires DecodesTo(lines, opts) && i < |lines| && Resumes(opts, i, steps, emitted, variant, classTime)
    modifies ws
    ensures ws.sent == old(ws.sent) + more && Carries(more, sent)
    ensures done.Some? ==> Collect(Present(opts), [], variant, classTime) == Outcome(emitted + sent, done.value)
    ensures done.None? ==> Resumes(opts, i + 1, steps', emitted + sent, variant, classTime)
    ensures ws.accepted == old(ws.accepted) && ws.closed == old(ws.closed) && ws.inbox == old(ws.inbox)
  {
    PresentStep(opts, i);
    var payload := ReadLine(lines, opts, i);
    ghost var rest := Present(opts[i + 1..]);
    if payload.None? {
      assert Present(opts[i..]) == rest && emitted + [] == emitted;
      return None, steps, [], [];
    }
    assert Present(opts[i..]) == [payload.value] + rest;
    done, steps', sent, more := ForwardUpdate(ws, payload.value, steps, rest, variant, classTime);
    if done.None? {
      ThenThen(emitted, sent, Collect(rest, steps', variant, classTime));
    }
  }

  /** The loop over the reply's lines, for a reply with status 200. */
  method ForwardLines(ws: WebSocket, lines: seq<string>, ghost opts: seq<Option<Json>>, variant: Variant, classTime: string)
    returns (stop: Stop, ghost texts: seq<string>)
    requires DecodesTo(lines, opts)
    modifies ws
    ensures var o := Collect(Present(opts), [], variant, classTime);
      ws.sent == old(ws.sent) + texts && Carries(texts, o.frames) && stop == o.stop
    ensures ws.accepted == old(ws.accepted) && ws.closed == old(ws.closed) && ws.inbox == old(ws.inbox)
  {
    var steps: seq<Json> := [];
    ghost var emitted: seq<Frame> := [];
    texts := [];
    var i := 0;
    while i < |lines|
      invariant 0 <= i <= |lines|
      invariant ws.sent == old(ws.sent) + texts && Carries(texts, emitted)
      invariant Resumes(opts, i, steps, emitted, variant, classTime)
      invariant ws.accepted == old(ws.accepted) && ws.closed == old(ws.closed) && ws.inbox == old(ws.inbox)
    {
      var done;
      ghost var sent, more;
      done, steps, sent, more := ForwardLine(ws, lines, opts, i, steps, emitted, variant, classTime);
      CarriesConcat(texts, emitted, more, sent);
      AppendAssoc(old(ws.sent), texts, more);
      texts := texts + more;
      emitted := emitted + sent;
      if done.Some? {
        return done.value, texts;
      }
      i := i + 1;
    }
    assert opts[i..] == [];
    return Exhausted, texts;
  }

  /** Index of the first payload that ends the relay: one that is not a dict, or a final_response. */
  function StopAt(ps: seq<Json>): (k: nat)
    ensures k <= |ps|
    ensures forall j :: 0 <= j < k ==> ps[j].JObj? && !IsFinal(ps[j])
    ensures k < |ps| ==> !ps[k].JObj? || IsFinal(ps[k])
  {
    if ps == [] || !ps[0].JObj? || IsFinal(ps[0]) then 0
    else
      var k := StopAt(ps[1..]);
      assert forall j :: 1 <= j <= k ==> ps[j] == ps[1..][j - 1];
      1 + k
  }

  /** One progress frame per payload, in order. */
  function Progresses(ps: seq<Json>, classTime: string): (fs: seq<Frame>)
    ensures |fs| == |ps|
  {
    if ps == [] then [] else [ProgressFor(ps[0], classTime)] + Progresses(ps[1..], classTime)
  }

  /** One reasoning step per payload, in order. */
  function Steps(ps: seq<Json>): (ss: seq<Json>)
    ensures |ss| == |ps|
  {
    if ps == [] then [] else [Step(ps[0])] + Steps(ps[1..])
  }

  /** With the two stray keywords removed, constructing the progress frame always succeeds. */
  lemma CorrectedProgress(v: Json, classTime: string)
    ensures NewProgress(ProgressKwargs(v, Corrected), classTime, classTime) == Success(ProgressFor(v, classTime))
  {
    var ms := Fields(v);
    assert ProgressKwargs(v, Corrected)
        == [("type", JStr("progress")), ("content", GetOr(ms, "message", JStr("Processing..."))),
            ("progress_type", GetOr(ms, "type", JStr("unknown")))];
    ProgressOf(JStr("progress"), GetOr(ms, "message", JStr("Processing...")), GetOr(ms, "type", JStr("unknown")),
               classTime, classTime);
  }

  /** As written, every ProgressMessage call raises TypeError (tool_name is not a field), so the
      first payload, whatever it holds, ends the relay with the "Unexpected error:" frame. */
  lemma AsWrittenProgressFails(v: Json, classTime: string)
    ensures NewProgress(ProgressKwargs(v, AsWritten), classTime, classTime).Failure?
  {
    var kw := ProgressKwargs(v, AsWritten);
    UndeclaredKeywordRejected(kw, 3, classTime, classTime);
  }

  lemma AsWrittenCollect(ps: seq<Json>, steps: seq<Json>, classTime: string)
    ensures Collect(ps, steps, AsWritten, classTime)
         == if ps == [] then Outcome([], Exhausted) else Outcome([ErrorFrame(ErrorText(OtherError), classTime)], Failed)
  {
  }

  /** The relay as written never forwards a progress frame and never returns an answer: a reply
      with at least one decodable payload yields exactly the "Unexpected error:" frame. */
  lemma AsWrittenRelay(up: Upstream, classTime: string)
    ensures var o := RelayOutcome(up, AsWritten, classTime);
      AnswerOf(o).None? && |o.frames| <= 1 && forall j :: 0 <= j < |o.frames| ==> o.frames[j].Message?
    ensures up.Reply? && up.status == 200 && Payloads(Lines(up.body)) != [] ==>
      RelayOutcome(up, AsWritten, classTime).frames == [ErrorFrame("Unexpected error:", classTime)]
  {
    if up.Reply? && up.status == 200 {
      AsWrittenCollect(Payloads(Lines(up.body)), [], classTime);
    }
  }

  /** What the corrected relay does with payloads ps, given the steps recorded before them: one
      progress frame per payload up to and including the first final_response, a step for each
      payload before it, and then one Agent frame carrying those steps; a payload that is not a
      dict ends it with the "Unexpected error:" frame; without either, every payload is forwarded
      and the relay stops with nothing more. */
  function Expected(ps: seq<Json>, steps: seq<Json>, classTime: string): Outcome {
    var k := StopAt(ps);
    if k == |ps| then Outcome(Progresses(ps, classTime), Exhausted)
    else if !ps[k].JObj? then
      Outcome(Progresses(ps[..k], classTime) + [ErrorFrame(ErrorText(OtherError), classTime)], Failed)
    else
      var a := Answer(ps[k], steps + Steps(ps[..k]), classTime);
      Outcome(Progresses(ps[..k + 1], classTime) + [a], Answered(a))
  }

  predicate ClosedForm(ps: seq<Json>, steps: seq<Json>, classTime: string) {
    Collect(ps, steps, Corrected, classTime) == Expected(ps, steps, classTime)
  }

  lemma {:induction false} CorrectedCollect(ps: seq<Json>, steps: seq<Json>, classTime: string)
    ensures ClosedForm(ps, steps, classTime)
  {
    if ps != [] && ps[0].JObj? && !IsFinal(ps[0]) {
      CorrectedCollect(ps[1..], steps + [Step(ps[0])], classTime);
      CorrectedStep(ps, steps, classTime);
    } else if ps != [] {
      CorrectedStop(ps, steps, classTime);
    }
  }

  /** A first payload that is not a dict, or is the final_response, ends the relay at once. */
  lemma CorrectedStop(ps: seq<Json>, steps: seq<Json>, classTime: string)
    requires ps != [] && (!ps[0].JObj? || IsFinal(ps[0]))
    ensures ClosedForm(ps, steps, classTime)
  {
    var v, tail := ps[0], ps[1..];
    assert ps == [v] + tail;
    CollectCons(v, tail, steps, Corrected, classTime);
    assert ps[..0] == [] && steps + [] == steps;
    if v.JObj? {
      PrefixShift(ps, 0, classTime);
    }
  }

  /** Any other first payload is forwarded, and the relay goes on with the rest. */
  lemma CorrectedStep(ps: seq<Json>, steps: seq<Json>, classTime: string)
    requires ps != [] && ps[0].JObj? && !IsFinal(ps[0])
    requires ClosedForm(ps[1..], steps + [Step(ps[0])], classTime)
    ensures ClosedForm(ps, steps, classTime)
  {
    CollectForward(ps, steps, classTime);
    ExpectedCons(ps, steps, classTime);
  }

  lemma CollectForward(ps: seq<Json>, steps: seq<Json>, classTime: string)
    requires ps != [] && ps[0].JObj? && !IsFinal(ps[0])
    ensures Collect(ps, steps, Corrected, classTime)
         == Then([ProgressFor(ps[0], classTime)], Collect(ps[1..], steps + [Step(ps[0])], Corrected, classTime))
  {
  }

  /** The closed form of a payload that is forwarded is its progress frame, then the closed
      form of the rest with its step recorded. */
  lemma ExpectedCons(ps: seq<Json>, steps: seq<Json>, classTime: string)
    requires ps != [] && ps[0].JObj? && !IsFinal(ps[0])
    ensures Expected(ps, steps, classTime) == Then([ProgressFor(ps[0], classTime)], Expected(ps[1..], steps + [Step(ps[0])], classTime))
  {
    var tail := ps[1..];
    var k := StopAt(tail);
    if k == |tail| {
      ExpectedConsExhausted(ps, steps, classTime);
    } else if !tail[k].JObj? {
      ExpectedConsFailed(ps, steps, classTime);
    } else {
      ExpectedConsAnswered(ps, steps, classTime);
    }
  }

  lemma ExpectedConsExhausted(ps: seq<Json>, steps: seq<Json>, classTime: string)
    requires ps != [] && ps[0].JObj? && !IsFinal(ps[0]) && StopAt(ps[1..]) == |ps| - 1
    ensures Expected(ps, steps, classTime) == Then([ProgressFor(ps[0], classTime)], Expected(ps[1..], steps + [Step(ps[0])], classTime))
  {
    assert StopAt(ps) == |ps|;
  }

  lemma ExpectedConsFailed(ps: seq<Json>, steps: seq<Json>, classTime: string)
    requires ps != [] && ps[0].JObj? && !IsFinal(ps[0])
    requires StopAt(ps[1..]) < |ps| - 1 && !ps[1..][StopAt(ps[1..])].JObj?
    ensures Expected(ps, steps, classTime) == Then([ProgressFor(ps[0], classTime)], Expected(ps[1..], steps + [Step(ps[0])], classTime))
  {
    var tail := ps[1..];
    var k := StopAt(tail);
    assert StopAt(ps) == k + 1;
    PrefixShift(ps, k, classTime);
    var p, e := ProgressFor(ps[0], classTime), ErrorFrame(ErrorText(OtherError), classTime);
    assert [p] + (Progresses(tail[..k], classTime) + [e]) == ([p] + Progresses(tail[..k], classTime)) + [e];
  }

  lemma ExpectedConsAnswered(ps: seq<Json>, steps: seq<Json>, classTime: string)
    requires ps != [] && ps[0].JObj? && !IsFinal(ps[0])
    requires StopAt(ps[1..]) < |ps| - 1 && ps[1..][StopAt(ps[1..])].JObj?
    ensures Expected(ps, steps, classTime) == Then([ProgressFor(ps[0], classTime)], Expected(ps[1..], steps + [Step(ps[0])], classTime))
  {
    var tail := ps[1..];
    var k := StopAt(tail);
    assert StopAt(ps) == k + 1;
    assert ps[k + 1] == tail[k];
    PrefixShift(ps, k, classTime);
    PrefixShift(ps, k + 1, classTime);
    var p, x := ProgressFor(ps[0], classTime), Step(ps[0]);
    var st, pr := Steps(tail[..k]), Progresses(tail[..k + 1], classTime);
    SeqAssoc(steps, [x], st);
    var a := Answer(tail[k], steps + [x] + st, classTime);
    assert Expected(tail, steps + [x], classTime) == Outcome(pr + [a], Answered(a));
    SeqAssoc([p], pr, [a]);
    assert Expected(ps, steps, classTime) == Outcome([p] + pr + [a], Answered(a));
  }

  lemma SeqAssoc<T>(a: seq<T>, b: seq<T>, c: seq<T>)
    ensures a + b + c == a + (b + c)
  {
  }

  /** The first k + 1 payloads give the first payload's frame and step, then those of the next k. */
  lemma PrefixShift(ps: seq<Json>, k: nat, classTime: string)
    requires k < |ps|
    ensures Progresses(ps[..k + 1], classTime) == [ProgressFor(ps[0], classTime)] + Progresses(ps[1..][..k], classTime)
    ensures Steps(ps[..k + 1]) == [Step(ps[0])] + Steps(ps[1..][..k])
  {
    assert ps[..k + 1] == [ps[0]] + ps[1..][..k];
    ProgressesCons(ps[0], ps[1..][..k], classTime);
    StepsCons(ps[0], ps[1..][..k]);
  }

  lemma ProgressesCons(v: Json, rest: seq<Json>, classTime: string)
    ensures Progresses([v] + rest, classTime) == [ProgressFor(v, classTime)] + Progresses(rest, classTime)
  {
    assert ([v] + rest)[1..] == rest;
  }

  lemma StepsCons(v: Json, rest: seq<Json>)
    ensures Steps([v] + rest) == [Step(v)] + Steps(rest)
  {
    assert ([v] + rest)[1..] == rest;
  }

  /** A full turn's updates: tool_call, tool_progress and tool_result, then final_response. */
  const FourUpdates: seq<Json> := [JObj([("type", JStr("tool_call"))]), JObj([("type", JStr("tool_progress"))]),
                                   JObj([("type", JStr("tool_result"))]), JObj([("type", JStr("final_response"))])]

  /** The first three of these updates are relayed and the fourth stops the relay. */
  lemma FourUpdatesStop()
    ensures StopAt(FourUpdates) == 3 && FourUpdates[3].JObj? && IsFinal(FourUpdates[3])
  {
    var ps := FourUpdates;
    assert !IsFinal(ps[0]) && !IsFinal(ps[1]) && !IsFinal(ps[2]) && IsFinal(ps[3]);
    assert StopAt(ps[3..]) == 0;
    assert StopAt(ps[2..]) == 1 by { assert ps[2..][1..] == ps[3..]; }
    assert StopAt(ps[1..]) == 2 by { assert ps[1..][1..] == ps[2..]; }
  }

  /** The example of a full turn: the four updates give four progress frames, then one Agent
      frame whose trace has three steps. */
  lemma FourUpdatesExample(classTime: string)
    ensures var o := Collect(FourUpdates, [], Corrected, classTime);
      |o.frames| == 5 && (forall j :: 0 <= j < 4 ==> o.frames[j].Progress?)
      && o.frames[4].Message? && o.frames[4].kind == JStr("Agent")
      && "reasoning_steps" in o.frames[4].extra && o.frames[4].extra["reasoning_steps"].JArr? && |o.frames[4].extra["reasoning_steps"].items| == 3
      && o.stop == Answered(o.frames[4])
  {
    var ps := FourUpdates;
    FourUpdatesStop();
    CorrectedCollect(ps, [], classTime);
    assert ps[..4] == ps;
    ProgressesAt(ps, classTime);
    var a := Answer(ps[3], [] + Steps(ps[..3]), classTime);
    assert Collect(ps, [], Corrected, classTime) == Outcome(Progresses(ps, classTime) + [a], Answered(a));
  }

  /** The j-th progress frame is the one of the j-th payload. */
  lemma {:induction false} ProgressesAt(ps: seq<Json>, classTime: string)
    ensures forall j :: 0 <= j < |ps| ==> Progresses(ps, classTime)[j] == ProgressFor(ps[j], classTime)
  {
    if ps != [] {
      ProgressesAt(ps[1..], classTime);
    }
  }

  /** A reply that ends without a final_response yields no Agent answer: the relay returns None
      and, unless the reply failed, sends nothing but progress frames. */
  lemma NoFinalNoAnswer(up: Upstream, classTime: string)
    requires up.Reply? && up.status == 200
    requires forall j :: 0 <= j < |Payloads(Lines(up.body))| ==>
      Payloads(Lines(up.body))[j].JObj? && !IsFinal(Payloads(Lines(up.body))[j])
    ensures AnswerOf(RelayOutcome(up, Corrected, classTime)).None?
    ensures up.broken.None? ==>
      RelayOutcome(up, Corrected, classTime).frames == Progresses(Payloads(Lines(up.body)), classTime)
  {
    var ps := Payloads(Lines(up.body));
    CorrectedCollect(ps, [], classTime);
  }

  /** Every failure of the call produces exactly one frame, an Agent frame with the failure's text. */
  lemma FailureSingleFrame(up: Upstream, variant: Variant, classTime: string)
    requires up.Unreachable? || (up.Reply? && up.status != 200)
    ensures var o := RelayOutcome(up, variant, classTime);
      |o.frames| == 1 && o.frames[0].kind == JStr("Agent") && o.stop == Failed
      && o.frames[0].content == JStr(
        if up.Unreachable? then ErrorText(up.failure)
        else if up.broken.Some? then ErrorText(up.broken.value)
        else StatusText(up.status))
  {
  }
}
