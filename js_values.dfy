/** How the frontend's JavaScript treats a value it got from JSON.parse: truthiness, property
    reads (undefined is None) and conversion to a string. */
module JsValues {
  import opened Wrappers
  import opened Text
  import opened JsonData

  /** JavaScript truthiness; None is `undefined`. Unlike Python, [] and {} are true. */
  predicate JsTruthy(v: Option<Json>) {
    match v
    case None => false
    case Some(JNull) => false
    case Some(JBool(b)) => b
    case Some(JInt(i)) => i != 0
    case Some(JStr(s)) => s != []
    case Some(JArr(_)) => true
    case Some(JObj(_)) => true
  }

  /** The TypeError V8 raises when a property of null is read. */
  function NullPropertyError(k: string): string {
    "Cannot read properties of null (reading '" + k + "')"
  }

  /** `v.k`: an object's own member (the last one of that name, as JSON.parse keeps it),
      undefined on other values, a TypeError on null. The property names read by the
      frontend are not built-in properties of strings, numbers or arrays. */
  function Property(v: Json, k: string): (r: Result<Option<Json>, string>)
    ensures r.Failure? <==> v.JNull?
    ensures v.JObj? ==> r == Success(Lookup(v.members, k))
  {
    match v
    case JNull => Failure(NullPropertyError(k))
    case JObj(ms) => Success(Lookup(ms, k))
    case _ => Success(None)
  }

  /** `a?.b` after a truthiness test: the property of a value known not to be null. */
  function Prop(v: Option<Json>, k: string): Option<Json> {
    match v
    case Some(JObj(ms)) => Lookup(ms, k)
    case _ => None
  }

  /** String(v) for a parsed value; Array.prototype.join writes null and undefined as "". */
  function ToJsString(v: Json): string {
    match v
    case JNull => "null"
    case JBool(b) => if b then "true" else "false"
    case JInt(i) => IntToString(i)
    case JStr(s) => s
    case JArr(items) => JoinItems(items, ",")
    case JObj(_) => "[object Object]"
  }

  function JoinItems(items: seq<Json>, sep: string): string
    decreases items
  {
    if items == [] then ""
    else
      var head := if items[0].JNull? then "" else ToJsString(items[0]);
      if |items| == 1 then head else head + sep + JoinItems(items[1..], sep)
  }

  /** String(undefined) is "undefined". */
  function ToJsStringOrUndefined(v: Option<Json>): string {
    match v
    case None => "undefined"
    case Some(x) => ToJsString(x)
  }

  /** parts.join(sep). */
  function JoinStrings(parts: seq<string>, sep: string): string {
    if parts == [] then []
    else if |parts| == 1 then parts[0]
    else parts[0] + sep + JoinStrings(parts[1..], sep)
  }

  predicate AllDigits(s: string) {
    forall i :: 0 <= i < |s| ==> IsDigit(s[i])
  }

  /** ToNumber on a string, for the integer literals this model's numbers cover: surrounding
      whitespace is ignored, the empty string is 0, an optional sign may lead the digits;
      None is NaN. */
  function StringToNumber(s: string): Option<int> {
    var t := JsTrim(s);
    if t == [] then Some(0)
    else if t[0] == '-' && |t| > 1 && AllDigits(t[1..]) then Some(0 - DigitsValue(t[1..]) as int)
    else if t[0] == '+' && |t| > 1 && AllDigits(t[1..]) then Some(DigitsValue(t[1..]))
    else if AllDigits(t) then Some(DigitsValue(t))
    else None
  }

  /** A number written by String(n) reads back as n. */
  lemma StringToNumberRoundTrip(n: int)
    ensures StringToNumber(IntToString(n)) == Some(n)
  {
    if n < 0 {
      NegativeRoundTrip(n);
    } else {
      NaturalRoundTrip(n);
    }
  }

  lemma NegativeRoundTrip(n: int)
    requires n < 0
    ensures StringToNumber(IntToString(n)) == Some(n)
  {
    DigitsValueOfNatToString(-n);
    SignedDigits(NatToString(-n));
  }

  /** A minus sign followed by digits reads as the negated value of the digits. */
  lemma SignedDigits(d: string)
    requires d != [] && AllDigits(d)
    ensures StringToNumber("-" + d) == Some(0 - DigitsValue(d))
  {
    var s := "-" + d;
    assert s[1..] == d;
    assert !JsWhitespace(s[|s| - 1]) by {
      assert s[|s| - 1] == d[|d| - 1];
      assert IsDigit(d[|d| - 1]);
    }
    TrimOfUnpadded(s, JsWhitespace);
  }

  lemma NaturalRoundTrip(n: nat)
    ensures StringToNumber(IntToString(n)) == Some(n)
  {
    var s := IntToString(n);
    assert !JsWhitespace(s[0]) && !JsWhitespace(s[|s| - 1]);
    TrimOfUnpadded(s, JsWhitespace);
    DigitsValueOfNatToString(n);
  }

  /** ToNumber of the value a relational comparison reads; None (NaN) makes `<` false.
      Arrays go through their string form, objects become NaN. */
  function ToNumber(v: Option<Json>): (r: Option<int>)
    ensures v == Some(JNull) ==> r == Some(0)
    ensures v.None? || (v.Some? && v.value.JObj?) ==> r.None?
  {
    match v
    case None => None
    case Some(JNull) => Some(0)
    case Some(JBool(b)) => Some(if b then 1 else 0)
    case Some(JInt(i)) => Some(i)
    case Some(JStr(s)) => StringToNumber(s)
    case Some(JArr(_)) => StringToNumber(ToJsString(v.value))
    case Some(JObj(_)) => None
  }

  /** What fetch() and response.json() give back: a response with its status and its parsed
      body (Failure holds the message of the SyntaxError), or the rejection of fetch itself. */
  datatype FetchOutcome =
    | Responded(ok: bool, body: Result<Json, string>)
    | FetchFailed(message: string)
}
