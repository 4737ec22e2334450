/** The registration and login forms (frontend/src/components/Register.tsx and Login.tsx): each
    field is checked by validateField, the error map is updated as fields change and lose focus,
    and submitting checks every field and sends nothing while any of them is in error. */
module AuthForms {
  import opened Wrappers
  import opened Text
  import opened JsonData
  import JsonParse
  import opened JsValues
  import SessionAuth

  datatype FormKind = RegisterForm | LoginForm

  /** The inputs, by their `name` attribute. */
  datatype Field = Name | Email | Password | ConfirmPassword

  function FieldName(f: Field): string {
    match f
    case Name => "name"
    case Email => "email"
    case Password => "password"
    case ConfirmPassword => "confirm_password"
  }

  /** The keys of each form's formData, in the order Object.entries lists them. */
  function Fields(kind: FormKind): (fs: seq<Field>)
    ensures Password in fs && Email in fs
  {
    match kind
    case RegisterForm => [Name, Email, Password, ConfirmPassword]
    case LoginForm => [Email, Password]
  }

  /** The fields handleSubmit marks touched: every key of the form's formData. */
  function FieldSet(kind: FormKind): (r: set<Field>)
    ensures forall f :: f in r <==> f in Fields(kind)
  {
    match kind
    case RegisterForm => {Name, Email, Password, ConfirmPassword}
    case LoginForm => {Email, Password}
  }

  /** formData. The login form has no name or confirmation; those stay empty and unread. */
  datatype FormData = FormData(name: string, email: string, password: string, confirmPassword: string)

  const EmptyForm := FormData("", "", "", "")

  function Value(d: FormData, f: Field): string {
    match f
    case Name => d.name
    case Email => d.email
    case Password => d.password
    case ConfirmPassword => d.confirmPassword
  }

  /** `{...formData, [name]: value}`. */
  function WithValue(d: FormData, f: Field, v: string): FormData {
    match f
    case Name => d.(name := v)
    case Email => d.(email := v)
    case Password => d.(password := v)
    case ConfirmPassword => d.(confirmPassword := v)
  }

  /** An input change sets that field and keeps every other field. */
  lemma WithValueMeaning(d: FormData, f: Field, v: string)
    ensures Value(WithValue(d, f, v), f) == v
    ensures forall g :: g != f ==> Value(WithValue(d, f, v), g) == Value(d, g)
  {
  }

  const NameRequired := "Full name is required"
  const NameTooShort := "Name must be at least 2 characters"
  const EmailRequired := "Email is required"
  const EmailInvalid := "Please enter a valid email"
  const PasswordRequired := "Password is required"
  const PasswordTooShort := "Password must be at least 8 characters"
  const ConfirmRequired := "Please confirm your password"
  const PasswordsMismatch := "Passwords do not match"

  /** A part of an address as `[^\s@]+` matches it. */
  predicate EmailPart(p: string) {
    p != [] && forall k :: 0 <= k < |p| ==> !JsWhitespace(p[k]) && p[k] != '@'
  }

  /** `/^[^\s@]+@[^\s@]+\.[^\s@]+$/.test(v)`: local part, '@', domain, '.', last label; the
      domain may itself hold dots. */
  predicate EmailShaped(v: string) {
    exists i, j :: 0 < i < j < |v| - 1 && v[i] == '@' && v[j] == '.'
      && EmailPart(v[..i]) && EmailPart(v[i + 1..j]) && EmailPart(v[j + 1..])
  }

  /** A matching address has no whitespace anywhere and exactly one '@'. */
  lemma EmailShapeNecessary(v: string)
    requires EmailShaped(v)
    ensures forall k :: 0 <= k < |v| ==> !JsWhitespace(v[k])
    ensures exists i :: 0 <= i < |v| && v[i] == '@' && forall k :: 0 <= k < |v| && v[k] == '@' ==> k == i
  {
    var i, j :| 0 < i < j < |v| - 1 && v[i] == '@' && v[j] == '.'
      && EmailPart(v[..i]) && EmailPart(v[i + 1..j]) && EmailPart(v[j + 1..]);
    forall k | 0 <= k < |v| ensures !JsWhitespace(v[k]) && (v[k] == '@' ==> k == i) {
      if k < i {
        assert v[k] == v[..i][k];
      } else if i < k < j {
        assert v[k] == v[i + 1..j][k - i - 1];
      } else if k > j {
        assert v[k] == v[j + 1..][k - j - 1];
      }
    }
  }

  /** Any local part, domain and label free of whitespace and '@' make a matching address. */
  lemma EmailShapeSufficient(local: string, domain: string, tld: string)
    requires EmailPart(local) && EmailPart(domain) && EmailPart(tld)
    ensures EmailShaped(local + "@" + domain + "." + tld)
  {
    var v := local + "@" + domain + "." + tld;
    var i, j := |local|, |local| + 1 + |domain|;
    assert v[..i] == local && v[i + 1..j] == domain && v[j + 1..] == tld;
    assert v[i] == '@' && v[j] == '.';
  }

  /** The rule checks the untrimmed value: surrounding spaces make an address invalid. */
  lemma EmailExamples()
    ensures EmailShaped("a@b.c")
    ensures !EmailShaped(" a@b.c")
    ensures !EmailShaped("a@b")
  {
    EmailShapeSufficient("a", "b", "c");
    assert "a" + "@" + "b" + "." + "c" == "a@b.c";
    if EmailShaped(" a@b.c") {
      EmailShapeNecessary(" a@b.c");
      assert JsWhitespace(" a@b.c"[0]);
    }
  }

  lemma EmailShapedNotBlank(v: string)
    requires EmailShaped(v)
    ensures JsTrim(v) != []
  {
    EmailShapeNecessary(v);
    assert !JsWhitespace(v[0]);
  }

  /** An error map holding one message for one field. */
  function ErrorFor(f: Field, message: string): (r: map<Field, string>)
    ensures r.Keys == {f} && r[f] == message && r != map[]
  {
    var r := map[f := message];
    assert f in r;
    r
  }

  /** What each field must satisfy for its form, stated rule by rule. */
  predicate FieldOk(kind: FormKind, f: Field, value: string, password: string) {
    match f
    case Name => kind == RegisterForm ==> Utf16Length(JsTrim(value)) >= 2
    case Email => EmailShaped(value)
    case Password => if kind == RegisterForm then Utf16Length(value) >= 8 else value != []
    case ConfirmPassword => kind == RegisterForm ==> value != [] && value == password
  }

  /** validateField(name, value), with formData.password passed in: at most one error, keyed
      by the field, and none exactly when the field satisfies its rules. Fields the form does
      not check get none. */
  function ValidateField(kind: FormKind, f: Field, value: string, password: string): (r: map<Field, string>)
    ensures r.Keys <= {f}
    ensures r == map[] <==> FieldOk(kind, f, value, password)
    ensures f !in Fields(kind) ==> r == map[]
  {
    if Email == f && EmailShaped(value) then
      EmailShapedNotBlank(value);
      map[]
    else
      match f
      case Name =>
        if kind == LoginForm then map[]
        else if JsTrim(value) == [] then
          assert Utf16Length(JsTrim(value)) == 0;
          ErrorFor(Name, NameRequired)
        else if Utf16Length(JsTrim(value)) < 2 then ErrorFor(Name, NameTooShort)
        else map[]
      case Email =>
        if JsTrim(value) == [] then ErrorFor(Email, EmailRequired)
        else if !EmailShaped(value) then ErrorFor(Email, EmailInvalid)
        else map[]
      case Password =>
        if value == [] then ErrorFor(Password, PasswordRequired)
        else if kind == RegisterForm && Utf16Length(value) < 8 then ErrorFor(Password, PasswordTooShort)
        else map[]
      case ConfirmPassword =>
        if kind == LoginForm then map[]
        else if value == [] then ErrorFor(ConfirmPassword, ConfirmRequired)
        else if value != password then ErrorFor(ConfirmPassword, PasswordsMismatch)
        else map[]
  }

  /** The message of each rule, first rule first: a blank name is reported as missing rather
      than as too short. */
  lemma NameMessages(password: string)
    ensures ValidateField(RegisterForm, Name, " ", password) == ErrorFor(Name, NameRequired)
    ensures ValidateField(RegisterForm, Name, " x ", password) == ErrorFor(Name, NameTooShort)
    ensures ValidateField(LoginForm, Name, "", password) == map[]
  {
    assert JsWhitespace(" "[0]);
    assert !JsWhitespace("x"[0]);
    TrimPadded(" ", "x", " ", JsWhitespace);
    assert " " + "x" + " " == " x ";
  }

  /** An empty address is missing; one without a dot after the '@' is invalid. */
  lemma EmailMessages(kind: FormKind, password: string)
    ensures ValidateField(kind, Email, "", password) == ErrorFor(Email, EmailRequired)
    ensures ValidateField(kind, Email, "a@b", password) == ErrorFor(Email, EmailInvalid)
  {
    EmailExamples();
    assert JsTrim("a@b") != [] by {
      assert !JsWhitespace("a@b"[0]);
    }
  }

  /** Registration demands 8 characters, login only a non-empty password; the confirmation
      is checked only when registering. */
  lemma PasswordMessages(kind: FormKind, password: string)
    ensures ValidateField(kind, Password, "", password) == ErrorFor(Password, PasswordRequired)
    ensures ValidateField(RegisterForm, Password, "short", password) == ErrorFor(Password, PasswordTooShort)
    ensures ValidateField(LoginForm, Password, "short", password) == map[]
    ensures ValidateField(RegisterForm, ConfirmPassword, "", password) == ErrorFor(ConfirmPassword, ConfirmRequired)
    ensures ValidateField(LoginForm, ConfirmPassword, "", password) == map[]
  {
    assert Utf16Length("short") == 5;
  }

  /** The error-map update of handleInputChange and handleBlur:
      `{...prev, ...fieldError}`, then the field's key deleted when fieldError is empty. */
  function MergeFieldError(prev: map<Field, string>, f: Field, fieldError: map<Field, string>): map<Field, string> {
    var newErrors := prev + fieldError;
    if |fieldError.Keys| == 0 then newErrors - {f} else newErrors
  }

  lemma MergeFieldErrorMeaning(prev: map<Field, string>, f: Field, fieldError: map<Field, string>)
    requires fieldError.Keys <= {f}
    ensures var r := MergeFieldError(prev, f, fieldError);
      && (f in r <==> f in fieldError)
      && (f in r ==> r[f] == fieldError[f])
      && forall g :: g != f ==> (g in r <==> g in prev) && (g in r ==> r[g] == prev[g])
  {
  }

  /** allErrors after the forEach over fs: Object.assign of each field's errors in turn. A key is
      present exactly for a field that breaks its rules, with that field's own message. */
  function AllErrors(kind: FormKind, d: FormData, fs: seq<Field>): map<Field, string> {
    if fs == [] then map[]
    else
      var last := fs[|fs| - 1];
      AllErrors(kind, d, fs[..|fs| - 1]) + ValidateField(kind, last, Value(d, last), d.password)
  }

  lemma {:induction false} AllErrorsMeaning(kind: FormKind, d: FormData, fs: seq<Field>)
    ensures var r := AllErrors(kind, d, fs);
      && (forall f :: f in r <==> f in fs && !FieldOk(kind, f, Value(d, f), d.password))
      && (forall f :: f in r ==>
           (f in ValidateField(kind, f, Value(d, f), d.password) && r[f] == ValidateField(kind, f, Value(d, f), d.password)[f]))
  {
    AllErrorsKeys(kind, d, fs);
    AllErrorsValues(kind, d, fs);
  }

  /** The submit errors name exactly the listed fields that break their rule. */
  lemma {:induction false} AllErrorsKeys(kind: FormKind, d: FormData, fs: seq<Field>)
    ensures forall f :: f in AllErrors(kind, d, fs) <==> f in fs && !FieldOk(kind, f, Value(d, f), d.password)
  {
    if fs != [] {
      var init := fs[..|fs| - 1];
      AllErrorsKeys(kind, d, init);
      assert fs == init + [fs[|fs| - 1]];
    }
  }

  /** Each submit error is the message of that field's own check. */
  lemma {:induction false} AllErrorsValues(kind: FormKind, d: FormData, fs: seq<Field>)
    ensures var r := AllErrors(kind, d, fs);
      forall f :: f in r ==>
        (f in ValidateField(kind, f, Value(d, f), d.password) && r[f] == ValidateField(kind, f, Value(d, f), d.password)[f])
  {
    if fs != [] {
      AllErrorsValues(kind, d, fs[..|fs| - 1]);
    }
  }

  lemma AllErrorsSnoc(kind: FormKind, d: FormData, fs: seq<Field>, f: Field)
    ensures AllErrors(kind, d, fs + [f]) == AllErrors(kind, d, fs) + ValidateField(kind, f, Value(d, f), d.password)
  {
    assert (fs + [f])[..|fs|] == fs;
  }

  /** RegisterUser's own checks, before any request; None when both pass. */
  function PreCheck(d: FormData): (r: Option<string>)
    ensures r.None? <==> d.password == d.confirmPassword && Utf16Length(d.password) >= 8
    ensures d.password != d.confirmPassword ==> r == Some(PasswordsMismatch)
  {
    if d.password != d.confirmPassword then Some(PasswordsMismatch)
    else if Utf16Length(d.password) < 8 then Some("Password must be at least 8 characters long")
    else None
  }

  /** A registration form without field errors always passes RegisterUser's checks. */
  lemma NoFieldErrorsPassPreChecks(d: FormData)
    requires AllErrors(RegisterForm, d, Fields(RegisterForm)) == map[]
    ensures PreCheck(d).None?
  {
    assert Password !in AllErrors(RegisterForm, d, Fields(RegisterForm));
    assert ConfirmPassword !in AllErrors(RegisterForm, d, Fields(RegisterForm));
  }

  /** The request body: registerData (email, name, password, confirm_password) or loginData. */
  function RequestJson(kind: FormKind, d: FormData): Json {
    match kind
    case RegisterForm =>
      JObj([("email", JStr(d.email)), ("name", JStr(d.name)), ("password", JStr(d.password)),
            ("confirm_password", JStr(d.confirmPassword))])
    case LoginForm => JObj([("email", JStr(d.email)), ("password", JStr(d.password))])
  }

  function RequestBody(kind: FormKind, d: FormData): string {
    Stringify(RequestJson(kind, d))
  }

  /** The server reads the submitted fields back from the body. */
  lemma RequestParses(kind: FormKind, d: FormData)
    ensures JsonParse.Parse(RequestBody(kind, d)) == Some(RequestJson(kind, d))
  {
    JsonParse.EncodeParseRoundTrip(RequestJson(kind, d), Js);
  }

  /** Each field of the form is sent under its own name. */
  lemma RequestCarriesFields(kind: FormKind, d: FormData)
    ensures forall f :: f in Fields(kind) ==>
      Lookup(RequestJson(kind, d).members, FieldName(f)) == Some(JStr(Value(d, f)))
  {
    var ms := RequestJson(kind, d).members;
    forall f | f in Fields(kind) ensures Lookup(ms, FieldName(f)) == Some(JStr(Value(d, f))) {
      var k := if kind == LoginForm then (if f == Email then 0 else 1)
               else (match f case Email => 0 case Name => 1 case Password => 2 case ConfirmPassword => 3);
      assert ms[k] == (FieldName(f), JStr(Value(d, f)));
      LookupAt(ms, k);
    }
  }

  /** `err.msg` as join() writes it: null and undefined become empty strings; a null entry
      throws. */
  function MessageText(err: Json): Result<string, string> {
    match Property(err, "msg")
    case Failure(e) => Failure(e)
    case Success(m) => Success(if m.None? || m == Some(JNull) then "" else ToJsString(m.value))
  }

  /** The texts of `detail.map(err => err.msg)`, or the first error thrown. */
  function DetailMessages(items: seq<Json>): Result<seq<string>, string> {
    if items == [] then Success([])
    else
      match MessageText(items[0])
      case Failure(e) => Failure(e)
      case Success(text) =>
        match DetailMessages(items[1..])
        case Failure(e) => Failure(e)
        case Success(rest) => Success([text] + rest)
  }

  /** RegisterUser after its checks: the token to store (None: nothing stored) or the message
      of the error it throws. */
  function RegisterResult(response: FetchOutcome): (r: Result<Option<string>, string>)
    ensures !(response.Responded? && response.ok) ==> r.Failure?
  {
    match response
    case FetchFailed(m) => Failure(m)
    case Responded(ok, body) =>
      match body
      case Failure(m) => Failure(m)
      case Success(data) =>
        if !ok then
          match Property(data, "detail")
          case Failure(m) => Failure(m)
          case Success(detail) =>
            if detail.Some? && detail.value.JArr? then
              match DetailMessages(detail.value.items)
              case Failure(m) => Failure(m)
              case Success(msgs) => Failure("Validation error: " + JoinStrings(msgs, ", "))
            else if JsTruthy(detail) then Failure(ToJsString(detail.value))
            else Failure("Registration failed")
        else
          match Property(data, "token")
          case Failure(m) => Failure(m)
          case Success(token) =>
            var access := Prop(token, "access_token");
            if JsTruthy(token) && JsTruthy(access) then Success(Some(ToJsString(access.value)))
            else Success(None)
  }

  /** LoginUser: the token to store or the message of the error it throws. Whatever
      `data.access_token` is, it is stored as String() writes it. */
  function LoginResult(response: FetchOutcome): (r: Result<Option<string>, string>)
    ensures !(response.Responded? && response.ok) ==> r.Failure?
    ensures r.Success? ==> r.value.Some?
  {
    match response
    case FetchFailed(m) => Failure(m)
    case Responded(ok, body) =>
      match body
      case Failure(m) => Failure(m)
      case Success(data) =>
        if !ok then
          match Property(data, "detail")
          case Failure(m) => Failure(m)
          case Success(detail) =>
            if JsTruthy(detail) then Failure(ToJsString(detail.value)) else Failure("Login failed")
        else
          match Property(data, "access_token")
          case Failure(m) => Failure(m)
          case Success(access) => Success(Some(ToJsStringOrUndefined(access)))
  }

  /** The awaited call of handleSubmit: RegisterUser (its checks, then the request) or LoginUser. */
  function SubmitResult(kind: FormKind, d: FormData, response: FetchOutcome): Result<Option<string>, string> {
    match kind
    case RegisterForm => if PreCheck(d).Some? then Failure(PreCheck(d).value) else RegisterResult(response)
    case LoginForm => LoginResult(response)
  }

  /** Once the fields are valid, submitting a registration is the request and its answer. */
  lemma ValidRegistrationIsSent(d: FormData, response: FetchOutcome)
    requires AllErrors(RegisterForm, d, Fields(RegisterForm)) == map[]
    ensures SubmitResult(RegisterForm, d, response) == RegisterResult(response)
  {
    NoFieldErrorsPassPreChecks(d);
  }

  /** FastAPI's validation errors are listed after "Validation error: ". */
  lemma ValidationErrorsListed(a: string, b: string)
    ensures RegisterResult(Responded(false, Success(JObj([("detail", JArr([
      JObj([("msg", JStr(a))]), JObj([("msg", JStr(b))])]))])))) == Failure("Validation error: " + a + ", " + b)
  {
    var x, y := JObj([("msg", JStr(a))]), JObj([("msg", JStr(b))]);
    assert MessageText(x) == Success(a) && MessageText(y) == Success(b);
    assert [y][1..] == [] && [x, y][1..] == [y];
    assert DetailMessages([]) == Success([]);
    var r1 := DetailMessages([y]);
    assert r1.Success? && r1.value == [b];
    var r2 := DetailMessages([x, y]);
    assert r2.Success? && r2.value == [a, b];
    var data := JObj([("detail", JArr([x, y]))]);
    assert Property(data, "detail") == Success(Some(JArr([x, y])));
    assert JoinStrings([b], ", ") == b;
    assert "Validation error: " + JoinStrings([a, b], ", ") == "Validation error: " + a + ", " + b;
    assert JoinStrings([a, b], ", ") == a + ", " + b;
  }

  /** A registration answer holding token.access_token stores that token. */
  lemma RegisterStoresAccessToken(user: Json, t: string)
    requires t != []
    ensures RegisterResult(Responded(true, Success(JObj([("user", user), ("token",
      JObj([("access_token", JStr(t))]))])))) == Success(Some(t))
  {
  }

  /** A login answer without access_token stores the text "undefined". */
  lemma LoginWithoutTokenStoresUndefined()
    ensures LoginResult(Responded(true, Success(JObj([])))) == Success(Some("undefined"))
  {
  }

  /** What a sent submission leaves behind, given the state before it: the request body was
      sent and loading is over; success goes home, clears the error and stores a returned
      token; failure shows its message and changes nothing else. */
  predicate SentEffect(kind: FormKind, d: FormData, response: FetchOutcome,
                       navigatedBefore: bool, tokenBefore: Option<string>,
                       request: Option<string>, isLoading: bool, navigatedHome: bool,
                       error: Option<string>, token: Option<string>)
  {
    var result := SubmitResult(kind, d, response);
    && request == Some(RequestBody(kind, d)) && !isLoading
    && (result.Success? ==>
         navigatedHome && error.None? && token == (if result.value.Some? then result.value else tokenBefore))
    && (result.Failure? ==>
         error == Some(result.error) && navigatedHome == navigatedBefore && token == tokenBefore)
  }

  /** One form's state. */
  class AuthForm {
    const kind: FormKind
    var formData: FormData
    var touched: set<Field>
    var fieldErrors: map<Field, string>
    var error: Option<string>
    var isLoading: bool
    /** Set when the page is sent to "/" after a successful submit. */
    var navigatedHome: bool

    constructor (kind: FormKind)
      ensures this.kind == kind && formData == EmptyForm && touched == {} && fieldErrors == map[]
      ensures error == None && !isLoading && !navigatedHome
    {
      this.kind := kind;
      formData := EmptyForm;
      touched := {};
      fieldErrors := map[];
      error := None;
      isLoading := false;
      navigatedHome := false;
    }

    /** handleInputChange: the value is stored, and a touched field is checked again. */
    method InputChange(f: Field, value: string)
      modifies this
      ensures formData == WithValue(old(formData), f, value)
      ensures f in old(touched) ==>
        fieldErrors == MergeFieldError(old(fieldErrors), f, ValidateField(kind, f, value, old(formData).password))
      ensures f !in old(touched) ==> fieldErrors == old(fieldErrors)
      ensures touched == old(touched) && error == old(error) && isLoading == old(isLoading)
      ensures navigatedHome == old(navigatedHome)
    {
      var password := formData.password;
      formData := WithValue(formData, f, value);
      if f in touched {
        var fieldError := ValidateField(kind, f, value, password);
        fieldErrors := MergeFieldError(fieldErrors, f, fieldError);
      }
    }

    /** handleBlur: the field becomes touched and is checked. */
    method Blur(f: Field, value: string)
      modifies this
      ensures touched == old(touched) + {f}
      ensures fieldErrors == MergeFieldError(old(fieldErrors), f, ValidateField(kind, f, value, old(formData).password))
      ensures formData == old(formData) && error == old(error) && isLoading == old(isLoading)
      ensures navigatedHome == old(navigatedHome)
    {
      fieldErrors := MergeFieldError(fieldErrors, f, ValidateField(kind, f, value, formData.password));
      touched := touched + {f};
    }

    /** The forEach of handleSubmit: every field of the form checked, the errors gathered. */
    method CollectErrors() returns (allErrors: map<Field, string>)
      ensures allErrors == AllErrors(kind, formData, Fields(kind))
    {
      var fs := Fields(kind);
      allErrors := map[];
      for i := 0 to |fs|
        invariant allErrors == AllErrors(kind, formData, fs[..i])
      {
        AllErrorsSnoc(kind, formData, fs[..i], fs[i]);
        assert fs[..i + 1] == fs[..i] + [fs[i]];
        var fieldError := ValidateField(kind, fs[i], Value(formData, fs[i]), formData.password);
        allErrors := allErrors + fieldError;
      }
      assert fs[..|fs|] == fs;
    }

    /** handleSubmit, given the answer the request would get; `request` is the body sent, None
        when nothing is sent. isLoading is true only while the request is pending, so it is
        false again at the end. */
    method Submit(response: FetchOutcome, storage: SessionAuth.LocalStorage) returns (request: Option<string>)
      modifies this, storage
      ensures touched == FieldSet(kind)
      ensures fieldErrors == AllErrors(kind, formData, Fields(kind))
      ensures formData == old(formData)
      ensures fieldErrors != map[] ==>
        && request.None? && error == old(error) && isLoading == old(isLoading)
        && navigatedHome == old(navigatedHome) && storage.accessToken == old(storage.accessToken)
      ensures fieldErrors == map[] ==>
        SentEffect(kind, formData, response, old(navigatedHome), old(storage.accessToken),
                   request, isLoading, navigatedHome, error, storage.accessToken)
    {
      var d := formData;
      var allErrors := CollectErrors();
      touched := FieldSet(kind);
      fieldErrors := allErrors;
      // Object.keys(allErrors).length > 0
      if allErrors != map[] {
        return None;
      }
      if kind == RegisterForm {
        NoFieldErrorsPassPreChecks(d);
      }
      request := Send(response, storage);
    }

    /** The try block of handleSubmit once every field is valid. */
    method Send(response: FetchOutcome, storage: SessionAuth.LocalStorage) returns (request: Option<string>)
      requires kind == RegisterForm ==> PreCheck(formData).None?
      modifies this, storage
      ensures touched == old(touched) && fieldErrors == old(fieldErrors) && formData == old(formData)
      ensures SentEffect(kind, formData, response, old(navigatedHome), old(storage.accessToken),
                         request, isLoading, navigatedHome, error, storage.accessToken)
    {
      isLoading := true;
      error := None;
      request := Some(RequestBody(kind, formData));
      var result := SubmitResult(kind, formData, response);
      match result {
        case Success(token) =>
          if token.Some? {
            storage.accessToken := token;
          }
          navigatedHome := true;
        case Failure(message) =>
          error := Some(message);
      }
      isLoading := false;
    }
  }
}
