/** The gate in front of a chat WebSocket (backend/app/service/websocket_auth_service.py): the
    token is verified and its `id` compared with the user id of the path before the socket is
    accepted. A failure closes the socket with the private-use code 4001 (section 7.4.2 of
    RFC 6455) and sends nothing else. */
module Auth {
  import opened Wrappers
  import opened JsonData
  import opened PyValues
  import opened Schema
  import opened Sockets
  import opened Inbound

  const UnauthorizedCode: int := 4001
  const MismatchReason: string := "Unauthorized: User ID mismatch"

  /** How the gate ends: the socket was closed with a reason, or the user was authenticated
      with the id the token names. */
  datatype AuthResult = Rejected(reason: string) | Authenticated(id: Json)

  /** The gate's decision. `verified` is what verify_token returned, or the text of the
      exception it raised. */
  function Decide(verified: Result<Json, string>, userId: int): (r: AuthResult)
    ensures r.Authenticated? <==>
      verified.Success? && verified.value.JObj? && PyEqualsInt(Get(verified.value.members, "id"), userId)
    ensures r.Authenticated? ==> r.id == Get(verified.value.members, "id") && PyEqualsInt(r.id, userId)
    ensures verified.Failure? ==> r == Rejected("Unauthorized: " + verified.error)
    ensures verified.Success? && verified.value.JObj? && !PyEqualsInt(Get(verified.value.members, "id"), userId)
            ==> r == Rejected(MismatchReason)
  {
    match verified
    case Failure(e) => Rejected("Unauthorized: " + e)
    case Success(payload) =>
      if !payload.JObj? then
        // payload.get raises AttributeError inside the try, and the handler closes with its text.
        Rejected("Unauthorized: '" + TypeName(payload) + "' object has no attribute 'get'")
      else
        var id := Get(payload.members, "id");
        if PyEqualsInt(id, userId) then Authenticated(id) else Rejected(MismatchReason)
  }

  /** The auth_success frame. It is built without a timestamp, so it carries the class-creation
      time. */
  function AuthSuccess(id: Json, classTime: string): Frame {
    Message(JStr("auth_success"), JStr("Successfully authenticated user " + Str(id)), JStr(classTime), map[])
  }

  /** WebSocketMessage(type="auth_success", content=...) builds that frame. */
  lemma AuthSuccessIsConstructor(id: Json, classTime: string, now: string)
    ensures NewMessage([("type", JStr("auth_success")), ("content", JStr("Successfully authenticated user " + Str(id)))],
                       classTime, now)
         == Success(AuthSuccess(id, classTime))
  {
    var kw := [("type", JStr("auth_success")), ("content", JStr("Successfully authenticated user " + Str(id)))];
    assert kw == kw + [];
    MessageTimestamp(JStr("auth_success"), JStr("Successfully authenticated user " + Str(id)), None, classTime, now);
  }

  /** authenticate_websocket: close with 4001 on any failure, otherwise register (accept) the
      socket and then send exactly one auth_success frame. */
  method Authenticate(ws: WebSocket, manager: ConnectionManager, verified: Result<Json, string>, userId: int,
                      classTime: string)
    returns (r: AuthResult)
    modifies ws, manager
    ensures r == Decide(verified, userId)
    ensures r.Rejected? ==>
      ws.closed == Some((UnauthorizedCode, r.reason)) && ws.accepted == old(ws.accepted)
      && ws.sent == old(ws.sent) && manager.active == old(manager.active)
    ensures r.Authenticated? ==>
      ws.accepted && manager.active == old(manager.active) + [ws]
      && ws.sent == old(ws.sent) + [WireText(AuthSuccess(r.id, classTime))] && ws.closed == old(ws.closed)
    ensures ws.inbox == old(ws.inbox)
  {
    r := Decide(verified, userId);
    if r.Rejected? {
      ws.Close(UnauthorizedCode, r.reason);
      return;
    }
    manager.Connect(ws);
    ws.SendText(WireText(AuthSuccess(r.id, classTime)));
  }

  /** Every close reason the gate gives starts with "Unauthorized: ". */
  lemma RejectionReason(verified: Result<Json, string>, userId: int)
    ensures var r := Decide(verified, userId);
      r.Rejected? ==> |r.reason| >= |"Unauthorized: "| && r.reason[..|"Unauthorized: "|] == "Unauthorized: "
  {
    var p := "Unauthorized: ";
    match verified
    case Failure(e) =>
      StartsWith(p, e);
    case Success(payload) =>
      if !payload.JObj? {
        StartsWith(p, "'" + TypeName(payload) + "' object has no attribute 'get'");
      } else {
        assert MismatchReason == p + "User ID mismatch";
        StartsWith(p, "User ID mismatch");
      }
  }

  lemma StartsWith(p: string, rest: string)
    ensures |p + rest| >= |p| && (p + rest)[..|p|] == p
  {
  }
}
