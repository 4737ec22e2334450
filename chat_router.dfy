/** The chat router's own WebSocket endpoint (backend/app/routers/chat_router.py): an older inline
    copy of the relay, the receive loop that feeds it, and the create-or-reuse branch of
    send_message. */
module ChatRouter {
  import opened Wrappers
  import opened JsonData
  import opened PyValues
  import opened Schema
  import opened Sockets
  import opened Relay
  import opened Inbound
  import opened Store

  /** The older relay posts only the query, with a total timeout of 60 seconds. */
  function OldRequest(userMessage: Json): Request {
    Request(JObj([("query", userMessage)]), Some(60))
  }

  lemma OldRequestFields(userMessage: Json)
    ensures OldRequest(userMessage).timeoutSeconds == Some(60)
    ensures var b := OldRequest(userMessage).body;
      b.JObj? && Keys(b.members) == ["query"] && Lookup(b.members, "query") == Some(userMessage)
  {
    LookupAt(OldRequest(userMessage).body.members, 0);
  }

  /** The older relay's Agent frame: the final response's content, with no trace attached. */
  function FinalFrame(v: Json, classTime: string): Frame {
    Message(JStr("Agent"), GetOr(Fields(v), "content", JStr("No response available")), JStr(classTime), map[])
  }

  /** The older relay on decoded payloads: it forwards every dict payload, the final one included,
      as a progress frame and keeps no trace. */
  function OldCollect(ps: seq<Json>, classTime: string): Outcome {
    if ps == [] then Outcome([], Exhausted)
    else if !ps[0].JObj? then Outcome([ErrorFrame(ErrorText(OtherError), classTime)], Failed)
    else if IsFinal(ps[0]) then
      Outcome([ProgressFor(ps[0], classTime), FinalFrame(ps[0], classTime)], Answered(FinalFrame(ps[0], classTime)))
    else Then([ProgressFor(ps[0], classTime)], OldCollect(ps[1..], classTime))
  }

  /** Everything the older relay sends for one reply of the agent service. */
  function OldOutcome(up: Upstream, classTime: string): Outcome {
    match up
    case Unreachable(f) => Outcome([ErrorFrame(ErrorText(f), classTime)], Failed)
    case Reply(status, body, broken) =>
      if status == 200 then
        var o := OldCollect(Payloads(Lines(body)), classTime);
        if o.stop.Exhausted? && broken.Some? then Then(o.frames, Outcome([ErrorFrame(ErrorText(broken.value), classTime)], Failed))
        else o
      else if broken.Some? then Outcome([ErrorFrame(ErrorText(broken.value), classTime)], Failed)
      else Outcome([ErrorFrame(StatusText(status), classTime)], Failed)
  }

  /** Frames without the attributes assigned after construction. */
  function BareFrames(fs: seq<Frame>): (r: seq<Frame>)
    ensures |r| == |fs|
  {
    seq(|fs|, j requires 0 <= j < |fs| => fs[j].(extra := map[]))
  }

  function Bare(o: Outcome): Outcome {
    Outcome(BareFrames(o.frames), if o.stop.Answered? then Answered(o.stop.answer.(extra := map[])) else o.stop)
  }

  /** The older relay is the current relay, with its two stray keywords removed, minus the trace:
      the same frames in the same order, none of them carrying reasoning_steps. */
  lemma {:induction false} OldIsRelayWithoutTrace(ps: seq<Json>, steps: seq<Json>, classTime: string)
    ensures OldCollect(ps, classTime) == Bare(Collect(ps, steps, Corrected, classTime))
  {
    if ps != [] && ps[0].JObj? && !IsFinal(ps[0]) {
      OldIsRelayWithoutTrace(ps[1..], steps + [Step(ps[0])], classTime);
      OldForward(ps, steps, classTime);
    } else {
      OldStop(ps, steps, classTime);
    }
  }

  /** A forwarded payload: both relays send its progress frame and go on with the rest. */
  lemma OldForward(ps: seq<Json>, steps: seq<Json>, classTime: string)
    requires ps != [] && ps[0].JObj? && !IsFinal(ps[0])
    requires OldCollect(ps[1..], classTime) == Bare(Collect(ps[1..], steps + [Step(ps[0])], Corrected, classTime))
    ensures OldCollect(ps, classTime) == Bare(Collect(ps, steps, Corrected, classTime))
  {
    CollectForward(ps, steps, classTime);
    var p := ProgressFor(ps[0], classTime);
    BareThen(p, Collect(ps[1..], steps + [Step(ps[0])], Corrected, classTime));
  }

  lemma BareThen(p: Frame, o: Outcome)
    requires p.extra == map[]
    ensures Bare(Then([p], o)) == Then([p], Bare(o))
  {
    assert BareFrames([p] + o.frames) == [p] + BareFrames(o.frames);
  }

  /** An empty reply, a payload that is not a dict, or the final response: the same frames. */
  lemma OldStop(ps: seq<Json>, steps: seq<Json>, classTime: string)
    requires ps == [] || !ps[0].JObj? || IsFinal(ps[0])
    ensures OldCollect(ps, classTime) == Bare(Collect(ps, steps, Corrected, classTime))
  {
    if ps != [] && ps[0].JObj? {
      var p := ProgressFor(ps[0], classTime);
      assert p.(extra := map[]) == p;
      assert BareFrames([p, Answer(ps[0], steps, classTime)]) == [p, FinalFrame(ps[0], classTime)];
    } else if ps != [] {
      assert BareFrames([ErrorFrame(ErrorText(OtherError), classTime)]) == [ErrorFrame(ErrorText(OtherError), classTime)];
    }
  }

  lemma BareWire(fs: seq<Frame>)
    ensures Wire(BareFrames(fs)) == Wire(fs)
  {
    forall j | 0 <= j < |fs|
      ensures Wire(BareFrames(fs))[j] == Wire(fs)[j]
    {
      ExtraNotSerialised(fs[j], map[]);
    }
  }

  /** For the same reply, a client of the older relay receives exactly the texts a client of the
      corrected relay receives. */
  lemma SameWireAsRelay(up: Upstream, classTime: string)
    ensures Wire(OldOutcome(up, classTime).frames) == Wire(RelayOutcome(up, Corrected, classTime).frames)
  {
    if up.Reply? && up.status == 200 {
      var ps := Payloads(Lines(up.body));
      OldIsRelayWithoutTrace(ps, [], classTime);
      var o := Collect(ps, [], Corrected, classTime);
      BareWire(o.frames);
      if o.stop.Exhausted? && up.broken.Some? {
        var e := ErrorFrame(ErrorText(up.broken.value), classTime);
        WireConcat(BareFrames(o.frames), [e]);
        WireConcat(o.frames, [e]);
      }
    }
  }

  lemma OldCollectCons(v: Json, rest: seq<Json>, classTime: string)
    ensures OldCollect([v] + rest, classTime) ==
      if !v.JObj? then Outcome([ErrorFrame(ErrorText(OtherError), classTime)], Failed)
      else if IsFinal(v) then Outcome([ProgressFor(v, classTime), FinalFrame(v, classTime)], Answered(FinalFrame(v, classTime)))
      else Then([ProgressFor(v, classTime)], OldCollect(rest, classTime))
  {
    assert ([v] + rest)[0] == v && ([v] + rest)[1..] == rest;
  }

  /** The older relay's loop body for one decoded update. */
  method OldForwardUpdate(ws: WebSocket, v: Json, ghost rest: seq<Json>, classTime: string)
    returns (done: Option<Stop>, ghost sent: seq<Frame>, ghost texts: seq<string>)
    modifies ws
    ensures ws.sent == old(ws.sent) + texts && Carries(texts, sent)
    ensures done.Some? ==> OldCollect([v] + rest, classTime) == Outcome(sent, done.value)
    ensures done.None? ==> OldCollect([v] + rest, classTime) == Then(sent, OldCollect(rest, classTime))
    ensures ws.accepted == old(ws.accepted) && ws.closed == old(ws.closed) && ws.inbox == old(ws.inbox)
  {
    OldCollectCons(v, rest, classTime);
    if !v.JObj? {
      var e := ErrorFrame(ErrorText(OtherError), classTime);
      texts := Send(ws, e);
      return Some(Failed), [e], texts;
    }
    // The older call passes exactly type, content and progress_type.
    var made := MakeProgress(v, Corrected, classTime);
    var p := made.value;
    texts := Send(ws, p);
    if IsFinal(v) {
      var a := FinalFrame(v, classTime);
      ghost var more := Send(ws, a);
      CarriesConcat(texts, [p], more, [a]);
      assert [p] + [a] == [p, a];
      AppendAssoc(old(ws.sent), texts, more);
      return Some(Answered(a)), [p, a], texts + more;
    }
    sent := [p];
    done := None;
  }

  /** The older relay has sent `emitted` for the first i lines. */
  predicate OldResumes(opts: seq<Option<Json>>, i: nat, emitted: seq<Frame>, classTime: string)
    requires i <= |opts|
  {
    OldCollect(Present(opts), classTime) == Then(emitted, OldCollect(Present(opts[i..]), classTime))
  }

  method OldForwardLine(ws: WebSocket, lines: seq<string>, ghost opts: seq<Option<Json>>, i: nat,
                        ghost emitted: seq<Frame>, classTime: string)
    returns (done: Option<Stop>, ghost sent: seq<Frame>, ghost more: seq<string>)
    requires DecodesTo(lines, opts) && i < |lines| && OldResumes(opts, i, emitted, classTime)
    modifies ws
    ensures ws.sent == old(ws.sent) + more && Carries(more, sent)
    ensures done.Some? ==> OldCollect(Present(opts), classTime) == Outcome(emitted + sent, done.value)
    ensures done.None? ==> OldResumes(opts, i + 1, emitted + sent, classTime)
    ensures ws.accepted == old(ws.accepted) && ws.closed == old(ws.closed) && ws.inbox == old(ws.inbox)
  {
    PresentStep(opts, i);
    var payload := ReadLine(lines, opts, i);
    ghost var rest := Present(opts[i + 1..]);
    if payload.None? {
      assert Present(opts[i..]) == rest && emitted + [] == emitted;
      return None, [], [];
    }
    assert Present(opts[i..]) == [payload.value] + rest;
    done, sent, more := OldForwardUpdate(ws, payload.value, rest, classTime);
    if done.None? {
      ThenThen(emitted, sent, OldCollect(rest, classTime));
    }
  }

  method OldForwardLines(ws: WebSocket, lines: seq<string>, ghost opts: seq<Option<Json>>, classTime: string)
    returns (stop: Stop, ghost texts: seq<string>)
    requires DecodesTo(lines, opts)
    modifies ws
    ensures var o := OldCollect(Present(opts), classTime);
      ws.sent == old(ws.sent) + texts && Carries(texts, o.frames) && stop == o.stop
    ensures ws.accepted == old(ws.accepted) && ws.closed == old(ws.closed) && ws.inbox == old(ws.inbox)
  {
    ghost var emitted: seq<Frame> := [];
    texts := [];
    var i := 0;
    while i < |lines|
      invariant 0 <= i <= |lines|
      invariant ws.sent == old(ws.sent) + texts && Carries(texts, emitted)
      invariant OldResumes(opts, i, emitted, classTime)
      invariant ws.accepted == old(ws.accepted) && ws.closed == old(ws.closed) && ws.inbox == old(ws.inbox)
    {
      var done;
      ghost var sent, more;
      done, sent, more := OldForwardLine(ws, lines, opts, i, emitted, classTime);
      CarriesConcat(texts, emitted, more, sent);
      AppendAssoc(old(ws.sent), texts, more);
      texts := texts + more;
      emitted := emitted + sent;
      if done.Some? {
        return done.value, texts;
      }
      i := i + 1;
    }
    assert opts[i..] == [];
    return Exhausted, texts;
  }

  /** query_agent_service_streaming(websocket, user_message), the older relay. It returns nothing. */
  method OldRelay(ws: WebSocket, userMessage: Json, agent: Request -> Upstream, classTime: string)
    returns (ghost texts: seq<string>)
    modifies ws
    ensures ws.sent == old(ws.sent) + texts
    ensures Carries(texts, OldOutcome(old(agent(OldRequest(userMessage))), classTime).frames)
    ensures ws.accepted == old(ws.accepted) && ws.closed == old(ws.closed) && ws.inbox == old(ws.inbox)
  {
    var up := agent(OldRequest(userMessage));
    ghost var o := OldOutcome(up, classTime);
    match up
    case Unreachable(f) =>
      texts := Send(ws, ErrorFrame(ErrorText(f), classTime));
    case Reply(status, body, broken) =>
      if status != 200 {
        var text := if broken.Some? then ErrorText(broken.value) else StatusText(status);
        texts := Send(ws, ErrorFrame(text, classTime));
      } else {
        ghost var opts := DecodeAll(Lines(body));
        var stop;
        stop, texts := OldForwardLines(ws, Lines(body), opts, classTime);
        ghost var c := OldCollect(Payloads(Lines(body)), classTime);
        if stop.Exhausted? && broken.Some? {
          var e := ErrorFrame(ErrorText(broken.value), classTime);
          ghost var more := Send(ws, e);
          CarriesConcat(texts, c.frames, more, [e]);
          AppendAssoc(old(ws.sent), texts, more);
          texts := texts + more;
        }
      }
  }

  /** How the receive loop ends: the client went away, or a frame made the loop raise. */
  datatype LoopEnd = Disconnected | Raised(error: string)

  /** What the loop does with the client frames still to come, decoded as `msgs`: the frames it
      sends, how it ends, and how many client frames it receives. Turn n reads the clock as
      clock(n) and gets the agent service's reply agent(n, request). */
  datatype Session = Session(frames: seq<Frame>, end: LoopEnd, received: nat)

  function TurnFrames(message: Json, now: string, up: Upstream, classTime: string): seq<Frame> {
    [Echo(message, now), Thinking(classTime)] + OldOutcome(up, classTime).frames
  }

  function Run(msgs: seq<Result<Json, string>>, turn: nat, agent: (nat, Request) -> Upstream,
               clock: nat -> string, classTime: string): (s: Session)
    ensures s.received <= |msgs| + 1
  {
    if msgs == [] then Session([], Disconnected, 1)
    else match msgs[0]
      case Failure(e) => Session([], Raised(e), 1)
      case Success(m) =>
        var s := Run(msgs[1..], turn + 1, agent, clock, classTime);
        Session(TurnFrames(m, clock(turn), agent(turn, OldRequest(m)), classTime) + s.frames, s.end, 1 + s.received)
  }

  /** msgs lists what each client frame decodes to. */
  predicate DecodesInputs(inbox: seq<string>, msgs: seq<Result<Json, string>>) {
    |msgs| == |inbox| && forall j {:trigger MessageOf(inbox[j])} :: 0 <= j < |inbox| ==> msgs[j] == MessageOf(inbox[j])
  }

  lemma {:induction false} DecodeInputs(inbox: seq<string>) returns (msgs: seq<Result<Json, string>>)
    ensures DecodesInputs(inbox, msgs)
  {
    msgs := seq(|inbox|, j requires 0 <= j < |inbox| => MessageOf(inbox[j]));
    forall j | 0 <= j < |inbox|
      ensures msgs[j] == MessageOf(inbox[j])
    {
    }
  }

  method ReadMessage(text: string, ghost inbox: seq<string>, ghost msgs: seq<Result<Json, string>>, ghost i: nat)
    returns (r: Result<Json, string>)
    requires DecodesInputs(inbox, msgs) && i < |inbox| && inbox[i] == text
    ensures r == msgs[i]
  {
    assert msgs[i] == MessageOf(inbox[i]);
    r := MessageOf(text);
  }

  lemma RunStep(msgs: seq<Result<Json, string>>, i: nat, turn: nat, agent: (nat, Request) -> Upstream,
                clock: nat -> string, classTime: string)
    requires i < |msgs| && msgs[i].Success?
    ensures var s := Run(msgs[i + 1..], turn + 1, agent, clock, classTime); var m := msgs[i].value;
      Run(msgs[i..], turn, agent, clock, classTime)
      == Session(TurnFrames(m, clock(turn), agent(turn, OldRequest(m)), classTime) + s.frames, s.end, 1 + s.received)
  {
    assert msgs[i..][0] == msgs[i] && msgs[i..][1..] == msgs[i + 1..];
  }

  /** One answered client frame: the User echo, the thinking indicator, then the older relay. */
  method ServeTurn(ws: WebSocket, message: Json, now: string, agent: Request -> Upstream, classTime: string)
    returns (ghost texts: seq<string>)
    modifies ws
    ensures ws.sent == old(ws.sent) + texts
    ensures Carries(texts, TurnFrames(message, now, old(agent(OldRequest(message))), classTime))
    ensures ws.accepted == old(ws.accepted) && ws.closed == old(ws.closed) && ws.inbox == old(ws.inbox)
  {
    var echo := Echo(message, now);
    var thinking := Thinking(classTime);
    ghost var t1 := Send(ws, echo);
    ghost var t2 := Send(ws, thinking);
    AppendAssoc(old(ws.sent), t1, t2);
    CarriesConcat(t1, [echo], t2, [thinking]);
    assert [echo] + [thinking] == [echo, thinking];
    ghost var t3 := OldRelay(ws, message, agent, classTime);
    AppendAssoc(old(ws.sent), t1 + t2, t3);
    CarriesConcat(t1 + t2, [echo, thinking], t3, OldOutcome(old(agent(OldRequest(message))), classTime).frames);
    texts := t1 + t2 + t3;
  }

  /** agent_websocket_endpoint: register the socket, then answer client frames one by one until
      the client disconnects, which unregisters the socket, or a frame makes the loop raise. */
  method AgentEndpoint(manager: ConnectionManager, ws: WebSocket, agent: (nat, Request) -> Upstream,
                       clock: nat -> string, classTime: string)
    returns (end: LoopEnd, ghost msgs: seq<Result<Json, string>>)
    modifies manager, ws
    ensures DecodesInputs(old(ws.inbox), msgs)
    ensures var s := Run(msgs, 0, agent, clock, classTime);
      ws.sent == old(ws.sent) + Wire(s.frames) && end == s.end
      && ws.inbox == old(ws.inbox)[if s.received <= |old(ws.inbox)| then s.received else |old(ws.inbox)|..]
    ensures end.Disconnected? ==> manager.active == Without(old(manager.active) + [ws], ws)
    ensures end.Raised? ==> manager.active == old(manager.active) + [ws]
    ensures ws.accepted && ws.closed == old(ws.closed)
  {
    ghost var inbox := ws.inbox;
    msgs := DecodeInputs(inbox);
    manager.Connect(ws);
    ghost var texts: seq<string> := [];
    ghost var frames: seq<Frame> := [];
    var turn: nat := 0;
    ghost var total := Run(msgs, 0, agent, clock, classTime);
    while true
      invariant turn <= |inbox| && ws.inbox == inbox[turn..]
      invariant ws.sent == old(ws.sent) + texts && Carries(texts, frames)
      invariant var s := Run(msgs[turn..], turn, agent, clock, classTime);
        total == Session(frames + s.frames, s.end, turn + s.received)
      invariant manager.active == old(manager.active) + [ws]
      invariant ws.accepted && ws.closed == old(ws.closed)
      decreases |ws.inbox|
    {
      var input := ws.ReceiveText();
      if input.None? {
        manager.Disconnect(ws);
        assert msgs[turn..] == [] && frames + [] == frames;
        CarriesWire(texts, frames);
        return Disconnected, msgs;
      }
      var decoded := ReadMessage(input.value, inbox, msgs, turn);
      if decoded.Failure? {
        assert msgs[turn..][0] == msgs[turn] && frames + [] == frames;
        CarriesWire(texts, frames);
        return Raised(decoded.error), msgs;
      }
      var m := decoded.value;
      RunStep(msgs, turn, turn, agent, clock, classTime);
      ghost var more := ServeTurn(ws, m, clock(turn), r => agent(turn, r), classTime);
      ghost var turnFrames := TurnFrames(m, clock(turn), agent(turn, OldRequest(m)), classTime);
      CarriesConcat(texts, frames, more, turnFrames);
      AppendAssoc(old(ws.sent), texts, more);
      ghost var rest := Run(msgs[turn + 1..], turn + 1, agent, clock, classTime);
      AppendAssoc(frames, turnFrames, rest.frames);
      texts := texts + more;
      frames := frames + turnFrames;
      turn := turn + 1;
    }
  }

  /** The first two frames of every answered client frame are its User echo, stamped with that
      turn's clock, and the thinking indicator, before anything the relay sends. */
  lemma TurnOpens(msgs: seq<Result<Json, string>>, turn: nat, agent: (nat, Request) -> Upstream,
                  clock: nat -> string, classTime: string)
    requires msgs != [] && msgs[0].Success?
    ensures var s := Run(msgs, turn, agent, clock, classTime);
      |s.frames| >= 2 && s.frames[0] == Echo(msgs[0].value, clock(turn)) && s.frames[1] == Thinking(classTime)
  {
  }

  /** The loop ends by disconnecting exactly when every frame decodes, and then it has received
      every frame and one more receive found none. */
  lemma {:induction false} RunDisconnects(msgs: seq<Result<Json, string>>, turn: nat, agent: (nat, Request) -> Upstream,
                                          clock: nat -> string, classTime: string)
    ensures var s := Run(msgs, turn, agent, clock, classTime);
      (s.end.Disconnected? <==> forall j :: 0 <= j < |msgs| ==> msgs[j].Success?)
      && (s.end.Disconnected? ==> s.received == |msgs| + 1)
  {
    if msgs != [] && msgs[0].Success? {
      RunDisconnects(msgs[1..], turn + 1, agent, clock, classTime);
      assert forall j :: 1 <= j < |msgs| ==> msgs[j] == msgs[1..][j - 1];
    }
  }

  /** Otherwise the loop stops at the first frame that raises, having received it, and raises
      that frame's error. */
  lemma {:induction false} RunRaises(msgs: seq<Result<Json, string>>, turn: nat, agent: (nat, Request) -> Upstream,
                                     clock: nat -> string, classTime: string)
    ensures var s := Run(msgs, turn, agent, clock, classTime);
      s.end.Raised? ==> exists k :: 0 <= k < |msgs| && msgs[k] == Failure(s.end.error) && s.received == k + 1
                                    && forall j :: 0 <= j < k ==> msgs[j].Success?
  {
    if msgs != [] && msgs[0].Success? {
      RunRaises(msgs[1..], turn + 1, agent, clock, classTime);
      var s := Run(msgs[1..], turn + 1, agent, clock, classTime);
      if s.end.Raised? {
        var k :| 0 <= k < |msgs[1..]| && msgs[1..][k] == Failure(s.end.error) && s.received == k + 1
                 && forall j :: 0 <= j < k ==> msgs[1..][j].Success?;
        assert msgs[k + 1] == Failure(s.end.error);
        forall j | 0 <= j < k + 1
          ensures msgs[j].Success?
        {
          if j > 0 { assert msgs[j] == msgs[1..][j - 1]; }
        }
      }
    }
  }

  /** What send_message raises before it reaches the store: the token check's
      UserCredentialsException. */
  datatype SendError = UserCredentialsException(message: string)

  /** The message verify_token raises when PyJWT refuses the token. */
  const InvalidToken: string := "Invalid Token;"

  /** send_message as written. `token` is what the HTTPBearer dependency returns, a credentials
      object rather than the token text, and it is passed to verify_token as it is. PyJWT's
      decode refuses a token that is neither text nor bytes with DecodeError, an
      InvalidTokenError, which verify_token turns into UserCredentialsException("Invalid
      Token;"). So every request raises at the handler's first line, whatever it carries (the
      `await` of verify_token's result is never reached). The method has no modifies clause:
      the store is left as it was. */
  method AsWrittenSendMessage(store: ChatStore, conversationId: Json, content: Json, role: Json, now: string)
    returns (r: Result<ConversationResponse, SendError>)
    ensures r == Failure(UserCredentialsException(InvalidToken))
  {
    r := Failure(UserCredentialsException(InvalidToken));
  }

  /** send_message as evidently intended: the token text (`token.credentials`) is checked
      without `await`, and a failing check raises before the store is touched; a conversation is created when the given
      conversation_id is falsy, and the given id is reused otherwise; the message is then added
      under that id, and the response carries the token user's email and name, the role, the
      content and the time. `created` is the id the conversation service hands back. */
  method SendMessage(store: ChatStore, tokenCheck: Option<string>, conversationId: Json, content: Json, role: Json,
                     userEmail: Json, userName: Json, created: Json, now: string)
    returns (r: Result<ConversationResponse, SendError>, id: Json)
    modifies store
    ensures tokenCheck.Some? ==>
      r == Failure(UserCredentialsException(tokenCheck.value)) && store.calls == old(store.calls)
    ensures tokenCheck.None? && Truthy(conversationId) ==> id == conversationId
    ensures tokenCheck.None? && !Truthy(conversationId) ==> id == created
    ensures tokenCheck.None? ==>
      store.calls == old(store.calls)
        + (if Truthy(conversationId) then [] else [CreateConversation(conversationId, content)])
        + [AddMessageToConversation(content, id), CreateMessage(id, content)]
    ensures tokenCheck.None? ==> r == Success(ConversationResponse(userEmail, userName, role, content, now))
  {
    id := conversationId;
    if tokenCheck.Some? {
      return Failure(UserCredentialsException(tokenCheck.value)), id;
    }
    if !Truthy(conversationId) {
      id := created;
      store.Record(CreateConversation(conversationId, content));
    }
    store.Record(AddMessageToConversation(content, id));
    store.Record(CreateMessage(id, content));
    r := Success(ConversationResponse(userEmail, userName, role, content, now));
  }
}
