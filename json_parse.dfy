/** The JSON text grammar both sides accept (Python json.loads, JavaScript JSON.parse), restricted to
    integer numbers, and the proof that it reads back what either encoder writes. */
module JsonParse {
  import opened Text
  import opened Wrappers
  import opened JsonData

  /** The four whitespace characters JSON allows between tokens. */
  predicate JsonWs(c: char) { c == ' ' || c == '\t' || c == '\n' || c == '\r' }

  function SkipWs(s: string): (r: string)
    ensures |r| <= |s|
    ensures r == [] || !JsonWs(r[0])
  {
    if s != [] && JsonWs(s[0]) then SkipWs(s[1..]) else s
  }

  predicate IsHex(c: char) { '0' <= c <= '9' || 'a' <= c <= 'f' || 'A' <= c <= 'F' }

  function HexValue(c: char): (d: nat)
    requires IsHex(c)
    ensures d < 16
  {
    if '0' <= c <= '9' then c as int - '0' as int
    else if 'a' <= c <= 'f' then c as int - 'a' as int + 10
    else c as int - 'A' as int + 10
  }

  predicate Hex4At(s: string) {
    |s| >= 4 && IsHex(s[0]) && IsHex(s[1]) && IsHex(s[2]) && IsHex(s[3])
  }

  function Hex4Value(s: string): (n: nat)
    requires Hex4At(s)
    ensures n < 0x10000
  {
    HexValue(s[0]) * 0x1000 + HexValue(s[1]) * 0x100 + HexValue(s[2]) * 0x10 + HexValue(s[3])
  }

  /** The text after a backslash-u: four hex digits, and a second escape when the first names a
      high surrogate; the pair is combined into one character. A lone surrogate is refused. */
  function ParseUnicode(s: string): (r: Option<(char, string)>)
    ensures r.Some? ==> |r.value.1| < |s|
  {
    if !Hex4At(s) then None
    else
      var n := Hex4Value(s);
      if 0xD800 <= n <= 0xDBFF then
        if |s| >= 6 && s[4] == '\\' && s[5] == 'u' && Hex4At(s[6..]) then
          var m := Hex4Value(s[6..]);
          if 0xDC00 <= m <= 0xDFFF then
            Some(((0x10000 + (n - 0xD800) * 0x400 + (m - 0xDC00)) as char, s[10..]))
          else None
        else None
      else if 0xDC00 <= n <= 0xDFFF then None
      else Some((n as char, s[4..]))
  }

  /** The text after a backslash inside a string. */
  function ParseEscape(s: string): (r: Option<(char, string)>)
    ensures r.Some? ==> |r.value.1| < |s|
  {
    if s == [] then None
    else if s[0] == '"' then Some(('"', s[1..]))
    else if s[0] == '\\' then Some(('\\', s[1..]))
    else if s[0] == '/' then Some(('/', s[1..]))
    else if s[0] == 'b' then Some((8 as char, s[1..]))
    else if s[0] == 'f' then Some((12 as char, s[1..]))
    else if s[0] == 'n' then Some(('\n', s[1..]))
    else if s[0] == 'r' then Some(('\r', s[1..]))
    else if s[0] == 't' then Some(('\t', s[1..]))
    else if s[0] == 'u' then ParseUnicode(s[1..])
    else None
  }

  function Prepend(c: char, r: Option<(string, string)>): Option<(string, string)> {
    match r
    case None => None
    case Some((t, rest)) => Some(([c] + t, rest))
  }

  /** The characters of a string literal after its opening quote, up to and without the closing
      quote; a raw control character is an error. */
  function ParseChars(s: string): (r: Option<(string, string)>)
    ensures r.Some? ==> |r.value.1| < |s|
    decreases |s|
  {
    if s == [] then None
    else if s[0] == '"' then Some(([], s[1..]))
    else if s[0] == '\\' then
      match ParseEscape(s[1..])
      case None => None
      case Some((c, t)) => Prepend(c, ParseChars(t))
    else if s[0] as int < 0x20 then None
    else Prepend(s[0], ParseChars(s[1..]))
  }

  /** The longest prefix of decimal digits. */
  function DigitRun(s: string): (n: nat)
    ensures n <= |s|
    ensures forall i :: 0 <= i < n ==> IsDigit(s[i])
    ensures n == |s| || !IsDigit(s[n])
  {
    if s != [] && IsDigit(s[0]) then 1 + DigitRun(s[1..]) else 0
  }

  /** Digits of a non-negative integer: 0, or a digit run without a leading zero. A fraction or
      an exponent would make the number a float, which this model does not carry. */
  function ParseUnsigned(t: string): (r: Option<(nat, string)>)
    ensures r.Some? ==> |r.value.1| < |t|
  {
    var k := if t != [] && t[0] == '0' then 1 else DigitRun(t);
    if k == 0 then None
    else if k < |t| && (t[k] == '.' || t[k] == 'e' || t[k] == 'E') then None
    else Some((DigitsValue(t[..k]), t[k..]))
  }

  /** An integer: an optional minus sign, then its digits. */
  function ParseNumber(s: string): (r: Option<(int, string)>)
    ensures r.Some? ==> |r.value.1| < |s|
  {
    if s != [] && s[0] == '-' then
      match ParseUnsigned(s[1..])
      case None => None
      case Some((m, rest)) => Some((-(m as int), rest))
    else
      match ParseUnsigned(s)
      case None => None
      case Some((m, rest)) => Some((m as int, rest))
  }

  /** One of the words null, true, false. */
  function ParseWord(s: string, word: string, v: Json): (r: Option<(Json, string)>)
    requires word != []
    ensures r.Some? ==> |r.value.1| < |s|
  {
    if |s| >= |word| && s[..|word|] == word then Some((v, s[|word|..])) else None
  }

  /** A string value after its opening quote. */
  function ParseString(s: string): (r: Option<(Json, string)>)
    ensures r.Some? ==> |r.value.1| < |s|
  {
    match ParseChars(s)
    case None => None
    case Some((t, rest)) => Some((JStr(t), rest))
  }

  /** A value; the first character decides which kind. */
  function ParseValue(s: string): (r: Option<(Json, string)>)
    ensures r.Some? ==> |r.value.1| < |s|
    decreases |s|, 0
  {
    if s == [] then None
    else if s[0] == 'n' then ParseWord(s, "null", JNull)
    else if s[0] == 't' then ParseWord(s, "true", JBool(true))
    else if s[0] == 'f' then ParseWord(s, "false", JBool(false))
    else if s[0] == '"' then ParseString(s[1..])
    else if s[0] == '[' then ParseArray(s[1..])
    else if s[0] == '{' then ParseObject(s[1..])
    else
      match ParseNumber(s)
      case None => None
      case Some((n, rest)) => Some((JInt(n), rest))
  }

  /** An array after its opening bracket. */
  function ParseArray(s: string): (r: Option<(Json, string)>)
    ensures r.Some? ==> |r.value.1| < |s|
    decreases |s|, 2
  {
    var t := SkipWs(s);
    if t != [] && t[0] == ']' then Some((JArr([]), t[1..]))
    else
      match ParseItems(t)
      case None => None
      case Some((items, rest)) => Some((JArr(items), rest))
  }

  /** An object after its opening brace. */
  function ParseObject(s: string): (r: Option<(Json, string)>)
    ensures r.Some? ==> |r.value.1| < |s|
    decreases |s|, 3
  {
    var t := SkipWs(s);
    if t != [] && t[0] == '}' then Some((JObj([]), t[1..]))
    else
      match ParseMembers(t)
      case None => None
      case Some((ms, rest)) => Some((JObj(ms), rest))
  }

  /** Array elements up to and including the closing bracket. */
  function ParseItems(s: string): (r: Option<(seq<Json>, string)>)
    ensures r.Some? ==> |r.value.1| < |s|
    decreases |s|, 1
  {
    match ParseValue(s)
    case None => None
    case Some((v, rest)) =>
      var u := SkipWs(rest);
      if u != [] && u[0] == ']' then Some(([v], u[1..]))
      else if u != [] && u[0] == ',' then
        match ParseItems(SkipWs(u[1..]))
        case None => None
        case Some((more, rest')) => Some(([v] + more, rest'))
      else None
  }

  /** One member: a string key, a colon, a value. */
  function ParseMember(s: string): (r: Option<((string, Json), string)>)
    ensures r.Some? ==> |r.value.1| < |s|
    decreases |s|, 1
  {
    if s == [] || s[0] != '"' then None
    else
      match ParseChars(s[1..])
      case None => None
      case Some((k, r1)) =>
        var u := SkipWs(r1);
        if u == [] || u[0] != ':' then None
        else
          match ParseValue(SkipWs(u[1..]))
          case None => None
          case Some((v, r2)) => Some(((k, v), r2))
  }

  /** Object members up to and including the closing brace. */
  function ParseMembers(s: string): (r: Option<(seq<(string, Json)>, string)>)
    ensures r.Some? ==> |r.value.1| < |s|
    decreases |s|, 2
  {
    match ParseMember(s)
    case None => None
    case Some((m, r2)) =>
      var x := SkipWs(r2);
      if x != [] && x[0] == '}' then Some(([m], x[1..]))
      else if x != [] && x[0] == ',' then
        match ParseMembers(SkipWs(x[1..]))
        case None => None
        case Some((more, rest)) => Some(([m] + more, rest))
      else None
  }

  /** json.loads(s) / JSON.parse(s): one value with only whitespace around it. */
  function Parse(s: string): Option<Json> {
    match ParseValue(SkipWs(s))
    case None => None
    case Some((v, rest)) => if SkipWs(rest) == [] then Some(v) else None
  }

  /** What may follow a value inside a document: nothing, whitespace or a structural character. */
  predicate Delimiter(rest: string) {
    rest == [] || JsonWs(rest[0]) || rest[0] == ',' || rest[0] == ':' || rest[0] == ']' || rest[0] == '}'
  }

  lemma HexDigitRoundTrip(d: nat)
    requires d < 16
    ensures IsHex(HexDigit(d)) && HexValue(HexDigit(d)) == d
  {
  }

  lemma Hex4RoundTrip(n: nat, t: string)
    requires n < 0x10000
    ensures Hex4At(Hex4(n) + t) && Hex4Value(Hex4(n) + t) == n
  {
    var s := Hex4(n) + t;
    var r1 := n / 16;
    var r2 := r1 / 16;
    var r3 := r2 / 16;
    assert n == r1 * 16 + n % 16;
    assert r1 == r2 * 16 + r1 % 16;
    assert r2 == r3 * 16 + r2 % 16;
    HexDigitRoundTrip(r3);
    HexDigitRoundTrip(r2 % 16);
    HexDigitRoundTrip(r1 % 16);
    HexDigitRoundTrip(n % 16);
    assert s[0] == HexDigit(r3) && s[1] == HexDigit(r2 % 16);
    assert s[2] == HexDigit(r1 % 16) && s[3] == HexDigit(n % 16);
  }

  /** A backslash followed by an escape that reads as c continues the string after it. */
  lemma ParseCharsEscaped(u: string, c: char, t: string)
    requires ParseEscape(u) == Some((c, t))
    ensures ParseChars("\\" + u) == Prepend(c, ParseChars(t))
  {
    var s := "\\" + u;
    assert s[0] == '\\' && s[1..] == u;
  }

  lemma ParseCharsRaw(c: char, t: string)
    requires 0x20 <= c as int && c != '"' && c != '\\'
    ensures ParseChars([c] + t) == Prepend(c, ParseChars(t))
  {
    assert ([c] + t)[1..] == t;
  }

  /** A four-digit escape of a character outside the surrogate range. */
  lemma UnicodeEscapeRoundTrip(c: char, t: string)
    requires c as int < 0x10000
    ensures ParseEscape("u" + Hex4(c as int) + t) == Some((c, t))
  {
    var n := c as int;
    var h := Hex4(n) + t;
    assert ("u" + Hex4(n) + t)[1..] == h;
    Hex4RoundTrip(n, t);
    assert h[4..] == t;
  }

  /** Where the parts of two consecutive four-digit escapes sit. */
  lemma PairShape(hi: nat, lo: nat, t: string)
    requires hi < 0x10000 && lo < 0x10000
    ensures var u := Hex4(hi) + "\\u" + Hex4(lo) + t;
      Hex4At(u) && Hex4Value(u) == hi && |u| >= 10 && u[4] == '\\' && u[5] == 'u'
      && Hex4At(u[6..]) && Hex4Value(u[6..]) == lo && u[10..] == t
  {
    var u := Hex4(hi) + "\\u" + Hex4(lo) + t;
    assert u == Hex4(hi) + ("\\u" + Hex4(lo) + t);
    Hex4RoundTrip(hi, "\\u" + Hex4(lo) + t);
    assert u[6..] == Hex4(lo) + t;
    Hex4RoundTrip(lo, t);
  }

  lemma ParseUnicodePair(u: string, hi: nat, lo: nat)
    requires Hex4At(u) && Hex4Value(u) == hi && |u| >= 10 && u[4] == '\\' && u[5] == 'u'
    requires Hex4At(u[6..]) && Hex4Value(u[6..]) == lo
    requires 0xD800 <= hi <= 0xDBFF && 0xDC00 <= lo <= 0xDFFF
    ensures ParseUnicode(u) == Some(((0x10000 + (hi - 0xD800) * 0x400 + (lo - 0xDC00)) as char, u[10..]))
  {
  }

  /** The high and low surrogates of a character beyond U+FFFF recombine to it. */
  lemma SurrogateSplit(c: char)
    requires c as int >= 0x10000
    ensures var v := c as int - 0x10000;
      var hi, lo := 0xD800 + v / 0x400, 0xDC00 + v % 0x400;
      0xD800 <= hi <= 0xDBFF && 0xDC00 <= lo <= 0xDFFF
      && 0x10000 + (hi - 0xD800) * 0x400 + (lo - 0xDC00) == c as int
  {
    var v := c as int - 0x10000;
    var q, r := v / 0x400, v % 0x400;
    assert v == q * 0x400 + r && 0 <= r < 0x400;
  }

  /** The surrogate pair written for a character beyond U+FFFF. */
  lemma PairEscapeOf(c: char, hi: nat, lo: nat, t: string)
    requires 0xD800 <= hi <= 0xDBFF && 0xDC00 <= lo <= 0xDFFF
    requires 0x10000 + (hi - 0xD800) * 0x400 + (lo - 0xDC00) == c as int
    ensures ParseEscape("u" + Hex4(hi) + "\\u" + Hex4(lo) + t) == Some((c, t))
  {
    var u := Hex4(hi) + "\\u" + Hex4(lo) + t;
    LeadThen("u", Hex4(hi), "\\u", Hex4(lo), t);
    PairShape(hi, lo, t);
    ParseUnicodePair(u, hi, lo);
    ParseEscapeUnicode("u" + u);
  }

  /** One leading character, then four parts. */
  lemma LeadThen(a: string, b: string, c: string, d: string, e: string)
    requires |a| == 1
    ensures a + b + c + d + e == a + (b + c + d + e)
    ensures (a + (b + c + d + e))[0] == a[0] && (a + (b + c + d + e))[1..] == b + c + d + e
  {
  }

  lemma ParseEscapeUnicode(s: string)
    requires s != [] && s[0] == 'u'
    ensures ParseEscape(s) == ParseUnicode(s[1..])
  {
  }

  /** The two-character escapes: backslash and one letter. */
  lemma ShortEscapeRoundTrip(c: char, style: Style, t: string)
    requires c == '"' || c == '\\' || c == '\n' || c == '\r' || c == '\t' || c as int == 0x08 || c as int == 0x0C
    ensures ParseChars(EscapeChar(c, style) + t) == Prepend(c, ParseChars(t))
  {
    var e := EscapeChar(c, style);
    assert |e| == 2 && e[0] == '\\';
    var u := [e[1]] + t;
    assert e + t == "\\" + u;
    assert u[0] == e[1] && u[1..] == t;
    ParseCharsEscaped(u, c, t);
  }

  /** The six-character escape of a character below U+10000. */
  lemma HexEscapeRoundTrip(c: char, style: Style, t: string)
    requires c as int < 0x10000
    requires EscapeChar(c, style) == "\\u" + Hex4(c as int)
    ensures ParseChars(EscapeChar(c, style) + t) == Prepend(c, ParseChars(t))
  {
    var u := "u" + Hex4(c as int) + t;
    assert EscapeChar(c, style) + t == "\\" + u;
    UnicodeEscapeRoundTrip(c, t);
    ParseCharsEscaped(u, c, t);
  }

  /** The twelve-character surrogate-pair escape of a character beyond U+FFFF. */
  lemma AstralEscapeRoundTrip(c: char, t: string, hi: nat, lo: nat)
    requires 0xD800 <= hi <= 0xDBFF && 0xDC00 <= lo <= 0xDFFF
    requires 0x10000 + (hi - 0xD800) * 0x400 + (lo - 0xDC00) == c as int
    ensures ParseChars("\\u" + Hex4(hi) + "\\u" + Hex4(lo) + t) == Prepend(c, ParseChars(t))
  {
    SplitLead("\\u", Hex4(hi), "\\u", Hex4(lo), t);
    PairEscapeOf(c, hi, lo, t);
    ParseCharsEscaped("u" + Hex4(hi) + "\\u" + Hex4(lo) + t, c, t);
  }

  /** The first character of the first of five parts, and all the rest. */
  lemma SplitLead(a: string, b: string, c: string, d: string, e: string)
    requires |a| >= 1
    ensures a + b + c + d + e == [a[0]] + (a[1..] + b + c + d + e)
  {
    assert a == [a[0]] + a[1..];
  }

  /** A character written by either encoder reads back as that character, whatever follows. */
  lemma EscapeCharRoundTrip(c: char, style: Style, t: string)
    ensures ParseChars(EscapeChar(c, style) + t) == Prepend(c, ParseChars(t))
  {
    var n := c as int;
    if c == '"' || c == '\\' || c == '\n' || c == '\r' || c == '\t' || n == 0x08 || n == 0x0C {
      ShortEscapeRoundTrip(c, style, t);
    } else if n < 0x20 || (style == Py && 0x7E < n < 0x10000) {
      HexEscapeRoundTrip(c, style, t);
    } else if style == Js || n <= 0x7E {
      ParseCharsRaw(c, t);
    } else {
      var v := n - 0x10000;
      SurrogateSplit(c);
      var hi, lo := 0xD800 + v / 0x400, 0xDC00 + v % 0x400;
      assert EscapeChar(c, style) == "\\u" + Hex4(hi) + "\\u" + Hex4(lo);
      AstralEscapeRoundTrip(c, t, hi, lo);
    }
  }

  /** The escaped characters of a string, then the closing quote, read back as that string. */
  lemma {:induction false} EscapeStringRoundTrip(s: string, style: Style, rest: string)
    ensures ParseChars(EscapeString(s, style) + "\"" + rest) == Some((s, rest))
  {
    if s == [] {
      assert EscapeString(s, style) + "\"" + rest == "\"" + rest;
    } else {
      var tail := EscapeString(s[1..], style) + "\"" + rest;
      assert EscapeString(s, style) + "\"" + rest == EscapeChar(s[0], style) + tail;
      EscapeCharRoundTrip(s[0], style, tail);
      EscapeStringRoundTrip(s[1..], style, rest);
      assert [s[0]] + s[1..] == s;
    }
  }

  lemma {:induction false} DigitRunOf(d: string, rest: string)
    requires forall i :: 0 <= i < |d| ==> IsDigit(d[i])
    requires rest == [] || !IsDigit(rest[0])
    ensures DigitRun(d + rest) == |d|
  {
    if d != [] {
      Lead([d[0]], d[1..] + rest);
      assert d + rest == [d[0]] + (d[1..] + rest);
      DigitRunOf(d[1..], rest);
    } else {
      assert d + rest == rest;
    }
  }

  lemma UnsignedRoundTrip(m: nat, rest: string)
    requires Delimiter(rest)
    ensures ParseUnsigned(NatToString(m) + rest) == Some((m, rest))
  {
    var d := NatToString(m);
    var t := d + rest;
    if d[0] == '0' {
      assert |d| == 1;
    } else {
      DigitRunOf(d, rest);
    }
    assert t[..|d|] == d && t[|d|..] == rest;
    DigitsValueOfNatToString(m);
  }

  lemma NumberRoundTrip(i: int, rest: string)
    requires Delimiter(rest)
    ensures ParseNumber(IntToString(i) + rest) == Some((i, rest))
  {
    if i < 0 {
      NegativeRoundTrip(-i, rest);
      assert IntToString(i) == "-" + NatToString(-i);
    } else {
      var d := NatToString(i);
      assert IsDigit(d[0]);
      UnsignedRoundTrip(i, rest);
      assert (d + rest)[0] == d[0];
    }
  }

  lemma NegativeRoundTrip(m: nat, rest: string)
    requires Delimiter(rest) && m > 0
    ensures ParseNumber("-" + NatToString(m) + rest) == Some((-(m as int), rest))
  {
    Assoc3("-", NatToString(m), rest);
    Lead("-", NatToString(m) + rest);
    UnsignedRoundTrip(m, rest);
  }

  lemma SkipSep(sep: string, e: string, t: string)
    requires sep == ", " || sep == "," || sep == ": " || sep == ":"
    requires e != [] && !JsonWs(e[0])
    ensures SkipWs(sep[1..] + e + t) == e + t
  {
    if sep == ", " || sep == ": " {
      assert sep[1..] + e + t == " " + (e + t);
    } else {
      assert sep[1..] + e + t == e + t;
    }
  }

  /** The first character of a value selects its reader. */
  /** Which reader the first character of a value selects. */
  lemma ParseValueOpen(s: string)
    requires s != []
    ensures s[0] == '"' ==> ParseValue(s) == ParseString(s[1..])
    ensures s[0] == '[' ==> ParseValue(s) == ParseArray(s[1..])
    ensures s[0] == '{' ==> ParseValue(s) == ParseObject(s[1..])
  {
  }

  /** An opening bracket, a body, a closing bracket and what follows. */
  lemma Enclosed(open: string, body: string, close: string, rest: string)
    requires |open| == 1
    ensures var s := open + body + close + rest; s != [] && s[0] == open[0] && s[1..] == body + close + rest
  {
    assert open + body + close + rest == open + (body + close + rest);
  }

  lemma WordRoundTrip(v: Json, style: Style, rest: string)
    requires v.JNull? || v.JBool?
    ensures ParseValue(Encode(v, style) + rest) == Some((v, rest))
  {
    var s := Encode(v, style) + rest;
    if v.JNull? {
      assert s[0] == 'n' && s[..4] == "null" && s[4..] == rest;
    } else if v.b {
      assert s[0] == 't' && s[..4] == "true" && s[4..] == rest;
    } else {
      assert s[0] == 'f' && s[..5] == "false" && s[5..] == rest;
    }
  }

  lemma IntRoundTrip(i: int, rest: string)
    requires Delimiter(rest)
    ensures ParseValue(IntToString(i) + rest) == Some((JInt(i), rest))
  {
    var d := IntToString(i);
    assert d[0] == '-' || IsDigit(d[0]);
    assert (d + rest)[0] == d[0];
    NumberRoundTrip(i, rest);
  }

  lemma StringRoundTrip(str: string, style: Style, rest: string)
    ensures ParseValue(Quote(str, style) + rest) == Some((JStr(str), rest))
  {
    QuoteRoundTrip(str, style, rest);
    ParseValueOpen(Quote(str, style) + rest);
  }

  /** Reading what an encoder wrote gives back the value and leaves the rest untouched, as long as
      the rest starts where a value may end. */
  lemma {:induction false} ValueRoundTrip(v: Json, style: Style, rest: string)
    requires Delimiter(rest)
    ensures ParseValue(Encode(v, style) + rest) == Some((v, rest))
    decreases v, 3
  {
    match v
    case JNull => WordRoundTrip(v, style, rest);
    case JBool(_) => WordRoundTrip(v, style, rest);
    case JInt(i) => IntRoundTrip(i, rest);
    case JStr(str) => StringRoundTrip(str, style, rest);
    case JArr(items) => ArrayRoundTrip(items, style, rest);
    case JObj(ms) => ObjectRoundTrip(ms, style, rest);
  }

  /** An array or object whose first element starts right after the bracket. */
  lemma ParseArrayItems(body: string, items: seq<Json>, rest: string)
    requires body != [] && !JsonWs(body[0]) && body[0] != ']'
    requires ParseItems(body) == Some((items, rest))
    ensures ParseArray(body) == Some((JArr(items), rest))
  {
  }

  lemma ParseObjectMembers(body: string, ms: seq<(string, Json)>, rest: string)
    requires body != [] && body[0] == '"'
    requires ParseMembers(body) == Some((ms, rest))
    ensures ParseObject(body) == Some((JObj(ms), rest))
  {
  }

  lemma ParseEmpty(close: string, rest: string)
    requires close == "]" || close == "}"
    ensures close == "]" ==> ParseArray([] + close + rest) == Some((JArr([]), rest))
    ensures close == "}" ==> ParseObject([] + close + rest) == Some((JObj([]), rest))
  {
    assert [] + close + rest == close + rest;
    assert (close + rest)[1..] == rest;
  }

  lemma {:induction false} ArrayRoundTrip(items: seq<Json>, style: Style, rest: string)
    ensures ParseValue("[" + EncodeItems(items, style) + "]" + rest) == Some((JArr(items), rest))
    decreases items, 2
  {
    var e := EncodeItems(items, style);
    Enclosed("[", e, "]", rest);
    ParseValueOpen("[" + e + "]" + rest);
    if items == [] {
      ParseEmpty("]", rest);
    } else {
      ItemsRoundTrip(items, style, rest);
      EncodeItemsStart(items, style);
      assert (e + "]" + rest)[0] == e[0];
      ParseArrayItems(e + "]" + rest, items, rest);
    }
  }

  lemma {:induction false} ObjectRoundTrip(ms: seq<(string, Json)>, style: Style, rest: string)
    ensures ParseValue("{" + EncodeMembers(ms, style) + "}" + rest) == Some((JObj(ms), rest))
    decreases ms, 2
  {
    var e := EncodeMembers(ms, style);
    Enclosed("{", e, "}", rest);
    ParseValueOpen("{" + e + "}" + rest);
    if ms == [] {
      ParseEmpty("}", rest);
    } else {
      MembersRoundTrip(ms, style, rest);
      EncodeMembersStart(ms, style);
      assert (e + "}" + rest)[0] == e[0];
      ParseObjectMembers(e + "}" + rest, ms, rest);
    }
  }

  /** The reading steps of ParseItems, ParseMember and ParseMembers, independent of any encoder. */
  lemma ParseItemsLast(s: string, v: Json, rest: string)
    requires ParseValue(s) == Some((v, "]" + rest))
    ensures ParseItems(s) == Some(([v], rest))
  {
    assert ("]" + rest)[1..] == rest;
  }

  lemma ParseItemsNext(s: string, v: Json, r2: string, x: string, more: seq<Json>, rest: string)
    requires ParseValue(s) == Some((v, r2))
    requires r2 != [] && r2[0] == ',' && SkipWs(r2[1..]) == x
    requires ParseItems(x) == Some((more, rest))
    ensures ParseItems(s) == Some(([v] + more, rest))
  {
  }

  lemma ParseMembersLast(s: string, m: (string, Json), rest: string)
    requires ParseMember(s) == Some((m, "}" + rest))
    ensures ParseMembers(s) == Some(([m], rest))
  {
    assert ("}" + rest)[1..] == rest;
  }

  lemma ParseMembersNext(s: string, m: (string, Json), r2: string, x: string, more: seq<(string, Json)>, rest: string)
    requires ParseMember(s) == Some((m, r2))
    requires r2 != [] && r2[0] == ',' && SkipWs(r2[1..]) == x
    requires ParseMembers(x) == Some((more, rest))
    ensures ParseMembers(s) == Some(([m] + more, rest))
  {
  }

  lemma {:induction false} ItemsRoundTrip(items: seq<Json>, style: Style, rest: string)
    requires items != []
    ensures ParseItems(EncodeItems(items, style) + "]" + rest) == Some((items, rest))
    decreases items, 1
  {
    if |items| == 1 {
      ItemsRoundTripLast(items, style, rest);
    } else {
      ItemsRoundTripMore(items, style, rest);
    }
  }

  lemma {:induction false} ItemsRoundTripLast(items: seq<Json>, style: Style, rest: string)
    requires |items| == 1
    ensures ParseItems(EncodeItems(items, style) + "]" + rest) == Some((items, rest))
    decreases items, 0
  {
    var e := Encode(items[0], style);
    EncodeItemsOne(items, style);
    Assoc3(e, "]", rest);
    ValueRoundTrip(items[0], style, "]" + rest);
    ParseItemsLast(e + ("]" + rest), items[0], rest);
    assert [items[0]] == items;
  }

  lemma {:induction false} ItemsRoundTripMore(items: seq<Json>, style: Style, rest: string)
    requires |items| > 1
    ensures ParseItems(EncodeItems(items, style) + "]" + rest) == Some((items, rest))
    decreases items, 0
  {
    var e := Encode(items[0], style);
    var sep := ItemSep(style);
    var more := EncodeItems(items[1..], style);
    var x := more + "]" + rest;
    EncodeItemsMore(items, style);
    Assoc5(e, sep, more, "]", rest);
    ValueRoundTrip(items[0], style, sep + x);
    EncodeItemsStart(items[1..], style);
    Head3(more, "]", rest);
    ItemsRoundTrip(items[1..], style, rest);
    SepThen(sep, x);
    ParseItemsNext(e + (sep + x), items[0], sep + x, x, items[1..], rest);
    assert [items[0]] + items[1..] == items;
  }

  lemma EncodeItemsOne(items: seq<Json>, style: Style)
    requires |items| == 1
    ensures EncodeItems(items, style) == Encode(items[0], style)
  {
  }

  lemma EncodeItemsMore(items: seq<Json>, style: Style)
    requires |items| > 1
    ensures EncodeItems(items, style) == Encode(items[0], style) + ItemSep(style) + EncodeItems(items[1..], style)
  {
  }

  lemma Head3(a: string, b: string, c: string)
    requires a != []
    ensures (a + b + c)[0] == a[0]
  {
  }

  lemma Lead(a: string, t: string)
    requires |a| == 1
    ensures a + t != [] && (a + t)[0] == a[0] && (a + t)[1..] == t
  {
  }

  lemma Assoc3(a: string, b: string, c: string)
    ensures a + b + c == a + (b + c)
  {
  }

  lemma Assoc5(a: string, b: string, c: string, d: string, e: string)
    ensures a + b + c + d + e == a + (b + (c + d + e))
  {
  }

  /** A quoted string followed by anything reads back as that string. */
  lemma QuoteRoundTrip(k: string, style: Style, r1: string)
    ensures var s := Quote(k, style) + r1; s != [] && s[0] == '"' && ParseChars(s[1..]) == Some((k, r1))
  {
    var s := Quote(k, style) + r1;
    assert s == "\"" + (EscapeString(k, style) + "\"" + r1);
    assert s[1..] == EscapeString(k, style) + "\"" + r1;
    EscapeStringRoundTrip(k, style, r1);
  }

  lemma {:induction false} MemberRoundTrip(k: string, v: Json, style: Style, tail: string)
    requires tail != [] && (tail[0] == ',' || tail[0] == '}')
    ensures ParseMember(Quote(k, style) + (KeySep(style) + (Encode(v, style) + tail))) == Some(((k, v), tail))
    decreases v, 4
  {
    var e := Encode(v, style);
    var r1 := KeySep(style) + (e + tail);
    ValueRoundTrip(v, style, tail);
    EncodeEnds(v, style);
    QuoteRoundTrip(k, style, r1);
    assert (e + tail)[0] == e[0];
    SepThen(KeySep(style), e + tail);
    ParseMemberStep(Quote(k, style) + r1, k, r1, e + tail, v, tail);
  }

  /** A separator followed by a value: its first character, then the value once blanks are skipped. */
  lemma SepThen(sep: string, e: string)
    requires sep == ", " || sep == "," || sep == ": " || sep == ":"
    requires e != [] && !JsonWs(e[0])
    ensures var s := sep + e; s != [] && s[0] == sep[0] && SkipWs(s[1..]) == e
  {
    assert (sep + e)[1..] == sep[1..] + e + [];
    SkipSep(sep, e, []);
  }

  /** Reading a member: a key, then a colon, then the value after any blanks. */
  lemma ParseMemberStep(s: string, k: string, r1: string, w: string, v: Json, r2: string)
    requires s != [] && s[0] == '"' && ParseChars(s[1..]) == Some((k, r1))
    requires r1 != [] && r1[0] == ':' && SkipWs(r1[1..]) == w
    requires ParseValue(w) == Some((v, r2))
    ensures ParseMember(s) == Some(((k, v), r2))
  {
  }

  /** How the members are laid out: the first one, then either the closing brace or a separator
      and the others. */
  lemma EncodeMembersShape(ms: seq<(string, Json)>, style: Style, rest: string)
    requires ms != []
    ensures |ms| == 1 ==>
      EncodeMembers(ms, style) + "}" + rest
      == Quote(ms[0].0, style) + (KeySep(style) + (Encode(ms[0].1, style) + ("}" + rest)))
    ensures |ms| > 1 ==>
      EncodeMembers(ms, style) + "}" + rest
      == Quote(ms[0].0, style) + (KeySep(style) + (Encode(ms[0].1, style) + (ItemSep(style) + (EncodeMembers(ms[1..], style) + "}" + rest))))
  {
    var q, ks, e := Quote(ms[0].0, style), KeySep(style), Encode(ms[0].1, style);
    if |ms| == 1 {
      EncodeMembersOne(ms, style);
      Assoc4(q, ks, e, "}" + rest);
    } else {
      EncodeMembersMore(ms, style);
      Assoc7(q, ks, e, ItemSep(style), EncodeMembers(ms[1..], style), rest);
    }
  }

  lemma EncodeMembersOne(ms: seq<(string, Json)>, style: Style)
    requires |ms| == 1
    ensures EncodeMembers(ms, style) == Quote(ms[0].0, style) + KeySep(style) + Encode(ms[0].1, style)
  {
  }

  lemma EncodeMembersMore(ms: seq<(string, Json)>, style: Style)
    requires |ms| > 1
    ensures EncodeMembers(ms, style)
      == Quote(ms[0].0, style) + KeySep(style) + Encode(ms[0].1, style) + ItemSep(style) + EncodeMembers(ms[1..], style)
  {
  }

  /** Encoded members start with the quote of the first key. */
  lemma EncodeMembersStart(ms: seq<(string, Json)>, style: Style)
    requires ms != []
    ensures EncodeMembers(ms, style) != [] && EncodeMembers(ms, style)[0] == '"'
  {
    var q, ks, e := Quote(ms[0].0, style), KeySep(style), Encode(ms[0].1, style);
    assert q[0] == '"';
    if |ms| == 1 {
      EncodeMembersOne(ms, style);
    } else {
      EncodeMembersMore(ms, style);
    }
  }

  lemma Assoc4(a: string, b: string, c: string, d: string)
    ensures a + b + c + d == a + (b + (c + d))
  {
  }

  lemma Assoc7(q: string, ks: string, e: string, sep: string, more: string, rest: string)
    ensures q + ks + e + sep + more + "}" + rest == q + (ks + (e + (sep + (more + "}" + rest))))
  {
  }

  lemma {:induction false} MembersRoundTrip(ms: seq<(string, Json)>, style: Style, rest: string)
    requires ms != []
    ensures ParseMembers(EncodeMembers(ms, style) + "}" + rest) == Some((ms, rest))
    decreases ms, 1
  {
    if |ms| == 1 {
      MembersRoundTripLast(ms, style, rest);
    } else {
      MembersRoundTripMore(ms, style, rest);
    }
  }

  lemma {:induction false} MembersRoundTripLast(ms: seq<(string, Json)>, style: Style, rest: string)
    requires |ms| == 1
    ensures ParseMembers(EncodeMembers(ms, style) + "}" + rest) == Some((ms, rest))
    decreases ms, 0
  {
    assert ms[0] in ms && ms[0].1 < ms[0];
    var (k, v) := ms[0];
    EncodeMembersShape(ms, style, rest);
    MemberRoundTrip(k, v, style, "}" + rest);
    ParseMembersLast(Quote(k, style) + (KeySep(style) + (Encode(v, style) + ("}" + rest))), (k, v), rest);
    assert [(k, v)] == ms;
  }

  lemma {:induction false} MembersRoundTripMore(ms: seq<(string, Json)>, style: Style, rest: string)
    requires |ms| > 1
    ensures ParseMembers(EncodeMembers(ms, style) + "}" + rest) == Some((ms, rest))
    decreases ms, 0
  {
    assert ms[0] in ms && ms[0].1 < ms[0];
    var k, v := ms[0].0, ms[0].1;
    var sep := ItemSep(style);
    var more := EncodeMembers(ms[1..], style);
    var x := more + "}" + rest;
    EncodeMembersShape(ms, style, rest);
    MemberRoundTrip(k, v, style, sep + x);
    MembersRoundTrip(ms[1..], style, rest);
    EncodeMembersStart(ms[1..], style);
    Head3(more, "}", rest);
    SepThen(sep, x);
    ParseMembersNext(Quote(k, style) + (KeySep(style) + (Encode(v, style) + (sep + x))), ms[0], sep + x, x, ms[1..], rest);
    assert [ms[0]] + ms[1..] == ms;
  }

  /** A document holding one value and nothing after it. */
  lemma ParseWhole(s: string, v: Json)
    requires s != [] && !JsonWs(s[0])
    requires ParseValue(s) == Some((v, []))
    ensures Parse(s) == Some(v)
  {
  }

  /** json.loads(json.dumps(v)) == v, JSON.parse(JSON.stringify(v)) == v, and each side reads
      what the other writes. */
  lemma EncodeParseRoundTrip(v: Json, style: Style)
    ensures Parse(Encode(v, style)) == Some(v)
  {
    var e := Encode(v, style);
    EncodeEnds(v, style);
    ValueRoundTrip(v, style, []);
    assert e + [] == e;
    ParseWhole(e, v);
  }
}
