/** The frontend's session token (frontend/src/utils/auth.ts): the payload of the JSON Web
    Token kept under 'access_token' in localStorage is decoded in the browser, its `exp` claim
    decides expiry, and an expired or rejected token is removed from storage. */
module SessionAuth {
  import opened Wrappers
  import opened Text
  import opened JsonData
  import JsonParse
  import opened JsValues
  import opened Base64
  import opened UriCoding

  /** decodeJWT(token); None is the null it returns when any step throws: no second segment,
      a segment atob refuses, octets that are not UTF-8, or text that is not JSON. */
  function DecodeJwt(token: string): (r: Option<Json>)
    ensures '.' !in token ==> r.None?
  {
    var parts := Split(token, '.');
    if |parts| < 2 then None
    else
      match Atob(ToStandard(parts[1]))
      case None => None
      case Some(bytes) =>
        match DecodeUriComponent(PercentEncode(bytes))
        case None => None
        case Some(text) => JsonParse.Parse(text)
  }

  /** A token as a server writes one: header, payload text in UTF-8 and base64url, signature. */
  function Jwt(header: string, payloadText: string, signature: string): string {
    header + "." + Base64.Encode(Utf8(payloadText), true) + "." + signature
  }

  lemma FirstIndexAfter(a: string, rest: string)
    requires '.' !in a
    ensures '.' in a + "." + rest && FirstIndex(a + "." + rest, '.') == |a|
  {
    var s := a + "." + rest;
    assert s[|a|] == '.' && s[..|a|] == a;
  }

  lemma SplitAfter(a: string, rest: string)
    requires '.' !in a
    ensures Split(a + "." + rest, '.') == [a] + Split(rest, '.')
  {
    FirstIndexAfter(a, rest);
    var s := a + "." + rest;
    assert s[..|a|] == a && s[|a| + 1..] == rest;
  }

  /** The payload segment is the one between the first two dots. */
  lemma {:induction false} PayloadSegment(header: string, segment: string, signature: string)
    requires '.' !in header && '.' !in segment
    ensures Split(header + "." + segment + "." + signature, '.')[1] == segment
  {
    assert header + "." + segment + "." + signature == header + "." + (segment + "." + signature);
    SplitAfter(header, segment + "." + signature);
    SplitAfter(segment, signature);
  }

  /** decodeJWT reads the payload text back from a token written by Jwt, and yields what
      JSON.parse makes of that text, whatever the header and signature hold. */
  lemma {:induction false} DecodeJwtRoundTrip(header: string, payloadText: string, signature: string)
    requires '.' !in header
    ensures DecodeJwt(Jwt(header, payloadText, signature)) == JsonParse.Parse(payloadText)
  {
    var bytes := Utf8(payloadText);
    var segment := Base64.Encode(bytes, true);
    assert '.' !in segment;
    PayloadSegment(header, segment, signature);
    UrlSegmentRoundTrip(bytes);
    DecodeUtf8Escapes(payloadText);
  }

  /** In particular a payload written by JSON.stringify is decoded to itself. */
  lemma DecodeJwtOfPayload(header: string, payload: Json, signature: string)
    requires '.' !in header
    ensures DecodeJwt(Jwt(header, Stringify(payload), signature)) == Some(payload)
  {
    DecodeJwtRoundTrip(header, Stringify(payload), signature);
    JsonParse.EncodeParseRoundTrip(payload, Js);
  }

  /** `payload.exp < Date.now() / 1000` for a payload that is not null: with integer seconds,
      the same as exp * 1000 < now in milliseconds. A NaN comparison is false. */
  function ExpBefore(payload: Json, nowMs: int): bool {
    match ToNumber(Prop(Some(payload), "exp"))
    case None => false
    case Some(e) => e * 1000 < nowMs
  }

  /** isTokenExpired(token) at time nowMs (milliseconds since the epoch). */
  function IsTokenExpired(token: string, nowMs: int): (r: bool)
    ensures !JsTruthy(DecodeJwt(token)) ==> r
    ensures r && JsTruthy(DecodeJwt(token)) ==> ExpBefore(DecodeJwt(token).value, nowMs)
  {
    var payload := DecodeJwt(token);
    if !JsTruthy(payload) then true else ExpBefore(payload.value, nowMs)
  }

  /** Once expired, a token stays expired. */
  lemma ExpiryIsPermanent(token: string, nowMs: int, laterMs: int)
    requires nowMs <= laterMs && IsTokenExpired(token, nowMs)
    ensures IsTokenExpired(token, laterMs)
  {
  }

  /** A token whose payload object has no `exp` claim never expires: undefined compares as NaN. */
  lemma NoExpNeverExpires(token: string, nowMs: int)
    requires DecodeJwt(token).Some? && DecodeJwt(token).value.JObj?
    requires Lookup(DecodeJwt(token).value.members, "exp").None?
    ensures !IsTokenExpired(token, nowMs)
  {
  }

  /** A token whose payload carries an integer `exp` expires exactly when that second has passed. */
  lemma ExpiresAtExp(header: string, members: seq<(string, Json)>, signature: string, exp: int, nowMs: int)
    requires '.' !in header
    requires Lookup(members, "exp") == Some(JInt(exp))
    ensures IsTokenExpired(Jwt(header, Stringify(JObj(members)), signature), nowMs) <==> exp * 1000 < nowMs
  {
    DecodeJwtOfPayload(header, JObj(members), signature);
  }

  /** `!token` on what localStorage.getItem returns: no item, or the empty string. */
  predicate HasToken(item: Option<string>) {
    item.Some? && item.value != []
  }

  /** What verify-token's answer means for the stored token. */
  datatype Verification = Rejected | Accepted(user: Option<Json>)

  /** The try block of verifyTokenWithAPI: a failed fetch, a non-ok status, a body that is not
      JSON, or a null body (reading `.user` of it throws) all reject; otherwise `data.user`,
      None standing for null or undefined. */
  function Verify(response: FetchOutcome): (v: Verification)
    ensures v.Accepted? <==> response.Responded? && response.ok && response.body.Success? && !response.body.value.JNull?
  {
    match response
    case FetchFailed(_) => Rejected
    case Responded(ok, body) =>
      if !ok then Rejected
      else match body
        case Failure(_) => Rejected
        case Success(data) =>
          match Property(data, "user")
          case Failure(_) => Rejected
          case Success(user) => Accepted(if user == Some(JNull) then None else user)
  }

  /** The browser's localStorage, reduced to the 'access_token' item. */
  class LocalStorage {
    var accessToken: Option<string>

    constructor (item: Option<string>)
      ensures accessToken == item
    {
      accessToken := item;
    }

    /** isUserLoggedIn at time nowMs; an expired token is removed. Afterwards no stored token
        is expired at nowMs. */
    method IsUserLoggedIn(nowMs: int) returns (loggedIn: bool)
      modifies this
      ensures loggedIn <==> HasToken(old(accessToken)) && !IsTokenExpired(old(accessToken).value, nowMs)
      ensures accessToken == (if HasToken(old(accessToken)) && IsTokenExpired(old(accessToken).value, nowMs)
                              then None else old(accessToken))
      ensures HasToken(accessToken) ==> !IsTokenExpired(accessToken.value, nowMs)
    {
      var token := accessToken;
      if !HasToken(token) {
        return false;
      }
      if IsTokenExpired(token.value, nowMs) {
        accessToken := None;
        return false;
      }
      return true;
    }

    /** getCurrentUser at time nowMs: the decoded payload of a present, unexpired token. It
        changes nothing, not even an expired token. */
    method GetCurrentUser(nowMs: int) returns (user: Option<Json>)
      ensures user.Some? <==> HasToken(accessToken) && !IsTokenExpired(accessToken.value, nowMs)
      ensures user.Some? ==> user == DecodeJwt(accessToken.value) && JsTruthy(user)
    {
      var token := accessToken;
      if !HasToken(token) || IsTokenExpired(token.value, nowMs) {
        return None;
      }
      return DecodeJwt(token.value);
    }

    /** verifyTokenWithAPI, given what the request to /auth/verify-token comes back with.
        Returns the Authorization header sent (None: no request) and the user; a rejected
        token is removed. */
    method VerifyTokenWithApi(response: FetchOutcome) returns (authorization: Option<string>, user: Option<Json>)
      modifies this
      ensures !HasToken(old(accessToken)) ==> authorization.None? && user.None? && accessToken == old(accessToken)
      ensures HasToken(old(accessToken)) ==> authorization == Some("Bearer " + old(accessToken).value)
      ensures HasToken(old(accessToken)) && Verify(response).Rejected? ==> accessToken.None? && user.None?
      ensures HasToken(old(accessToken)) && Verify(response).Accepted? ==>
        accessToken == old(accessToken) && user == Verify(response).user
    {
      var token := accessToken;
      if !HasToken(token) {
        return None, None;
      }
      authorization := Some("Bearer " + token.value);
      match Verify(response)
      case Rejected =>
        accessToken := None;
        user := None;
      case Accepted(u) =>
        user := u;
    }
  }
}
