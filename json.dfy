/** JSON values as the backend (Python json) and the frontend (JSON.parse / JSON.stringify)
    exchange them, with the encoders of both sides. Numbers are integers only. */
module JsonData {
  import opened Text
  import opened Wrappers

  /** An object keeps its members in order, duplicates included, as they were written. */
  datatype Json =
    | JNull
    | JBool(b: bool)
    | JInt(i: int)
    | JStr(s: string)
    | JArr(items: seq<Json>)
    | JObj(members: seq<(string, Json)>)

  /** Python truthiness of a decoded value: None, False, 0, "", [] and {} are false. */
  predicate Truthy(v: Json) {
    match v
    case JNull => false
    case JBool(b) => b
    case JInt(i) => i != 0
    case JStr(s) => s != []
    case JArr(a) => a != []
    case JObj(m) => m != []
  }

  /** The value of the last member named k, as a decoded Python dict or JavaScript object holds it. */
  function Lookup(ms: seq<(string, Json)>, k: string): (r: Option<Json>)
    ensures r.Some? <==> exists i :: 0 <= i < |ms| && ms[i].0 == k
    ensures r.Some? ==> exists i :: 0 <= i < |ms| && ms[i] == (k, r.value)
  {
    if ms == [] then None
    else if ms[|ms| - 1].0 == k then Some(ms[|ms| - 1].1)
    else Lookup(ms[..|ms| - 1], k)
  }

  /** A member not overridden by a later one with the same name is what a lookup finds. */
  lemma {:induction false} LookupAt(ms: seq<(string, Json)>, i: nat)
    requires i < |ms| && forall j :: i < j < |ms| ==> ms[j].0 != ms[i].0
    ensures Lookup(ms, ms[i].0) == Some(ms[i].1)
  {
    if i < |ms| - 1 {
      LookupAt(ms[..|ms| - 1], i);
    }
  }

  /** d.get(k, default) on a dict. */
  function GetOr(ms: seq<(string, Json)>, k: string, default: Json): Json {
    Lookup(ms, k).GetOr(default)
  }

  /** d.get(k): None (null) when absent. */
  function Get(ms: seq<(string, Json)>, k: string): Json {
    GetOr(ms, k, JNull)
  }

  /** Python == between a decoded value and a Python int: True == 1 and False == 0 as well. */
  predicate PyEqualsInt(v: Json, n: int) {
    match v
    case JInt(i) => i == n
    case JBool(b) => (if b then 1 else 0) == n
    case _ => false
  }

  /** The two serialisers: Python json.dumps with its defaults, JavaScript JSON.stringify. */
  datatype Style = Py | Js

  /** A lower-case hexadecimal digit. */
  function HexDigit(d: nat): (c: char)
    requires d < 16
    ensures '0' <= c <= '9' || 'a' <= c <= 'f'
  {
    if d < 10 then ('0' as int + d) as char else ('a' as int + d - 10) as char
  }

  /** Four lower-case hexadecimal digits, as Python formats '\\u{0:04x}'. */
  function Hex4(n: nat): (h: string)
    requires n < 0x10000
    ensures |h| == 4
  {
    var r1 := n / 16;
    var r2 := r1 / 16;
    var r3 := r2 / 16;
    [HexDigit(r3), HexDigit(r2 % 16), HexDigit(r1 % 16), HexDigit(n % 16)]
  }

  /** The characters one string character is written as, between the quotes. */
  function EscapeChar(c: char, style: Style): (e: string)
    ensures e != []
  {
    var n := c as int;
    if c == '"' then "\\\""
    else if c == '\\' then "\\\\"
    else if c == '\n' then "\\n"
    else if c == '\r' then "\\r"
    else if c == '\t' then "\\t"
    else if n == 0x08 then "\\b"
    else if n == 0x0C then "\\f"
    else if n < 0x20 then "\\u" + Hex4(n)
    else if style == Js || n <= 0x7E then [c]
    else if n < 0x10000 then "\\u" + Hex4(n)
    else
      var v := n - 0x10000;
      "\\u" + Hex4(0xD800 + v / 0x400) + "\\u" + Hex4(0xDC00 + v % 0x400)
  }

  function EscapeString(s: string, style: Style): string {
    if s == [] then [] else EscapeChar(s[0], style) + EscapeString(s[1..], style)
  }

  function ItemSep(style: Style): string { if style == Py then ", " else "," }
  function KeySep(style: Style): string { if style == Py then ": " else ":" }

  function Quote(s: string, style: Style): string {
    "\"" + EscapeString(s, style) + "\""
  }

  /** json.dumps(v) (style Py) or JSON.stringify(v) (style Js). */
  function Encode(v: Json, style: Style): string
    decreases v
  {
    match v
    case JNull => "null"
    case JBool(b) => if b then "true" else "false"
    case JInt(i) => IntToString(i)
    case JStr(s) => Quote(s, style)
    case JArr(items) => "[" + EncodeItems(items, style) + "]"
    case JObj(ms) => "{" + EncodeMembers(ms, style) + "}"
  }

  function EncodeItems(items: seq<Json>, style: Style): string
    decreases items
  {
    if items == [] then []
    else if |items| == 1 then Encode(items[0], style)
    else Encode(items[0], style) + ItemSep(style) + EncodeItems(items[1..], style)
  }

  function EncodeMembers(ms: seq<(string, Json)>, style: Style): string
    decreases ms
  {
    if ms == [] then []
    else
      assert ms[0] in ms && ms[0].1 < ms[0];
      var m := Quote(ms[0].0, style) + KeySep(style) + Encode(ms[0].1, style);
      if |ms| == 1 then m else m + ItemSep(style) + EncodeMembers(ms[1..], style)
  }

  /** Python json.dumps with default arguments. */
  function Dumps(v: Json): string { Encode(v, Py) }

  /** JavaScript JSON.stringify. */
  function Stringify(v: Json): string { Encode(v, Js) }

  /** Characters an encoded value can start with. */
  predicate OpensValue(c: char) {
    c == 'n' || c == 't' || c == 'f' || c == '-' || IsDigit(c) || c == '"' || c == '[' || c == '{'
  }

  /** Characters an encoded value can end with. */
  predicate ClosesValue(c: char) {
    c == 'l' || c == 'e' || IsDigit(c) || c == '"' || c == ']' || c == '}'
  }

  /** An encoded value is never empty and neither starts nor ends with a separator or whitespace. */
  lemma EncodeEnds(v: Json, style: Style)
    ensures var e := Encode(v, style); e != [] && OpensValue(e[0]) && ClosesValue(e[|e| - 1])
  {
    match v
    case JNull =>
    case JBool(b) =>
    case JInt(i) => IntEnds(i);
    case JStr(t) =>
      assert Encode(v, style) == ['"'] + EscapeString(t, style) + ['"'];
      WrappedEnds('"', EscapeString(t, style), '"');
    case JArr(items) =>
      assert Encode(v, style) == ['['] + EncodeItems(items, style) + [']'];
      WrappedEnds('[', EncodeItems(items, style), ']');
    case JObj(ms) =>
      assert Encode(v, style) == ['{'] + EncodeMembers(ms, style) + ['}'];
      WrappedEnds('{', EncodeMembers(ms, style), '}');
  }

  /** A number is written with a sign or a digit first and a digit last. */
  lemma IntEnds(i: int)
    ensures var e := IntToString(i); e != [] && OpensValue(e[0]) && ClosesValue(e[|e| - 1])
  {
    if i < 0 {
      var d := NatToString(-i);
      assert IntToString(i) == "-" + d && IsDigit(d[|d| - 1]);
    }
  }

  lemma WrappedEnds(open: char, mid: string, close: char)
    ensures var e := [open] + mid + [close]; e != [] && e[0] == open && e[|e| - 1] == close
  {
  }

  lemma EncodeItemsStart(items: seq<Json>, style: Style)
    requires items != []
    ensures EncodeItems(items, style) != [] && OpensValue(EncodeItems(items, style)[0])
  {
    EncodeEnds(items[0], style);
    var e := Encode(items[0], style);
    if |items| > 1 {
      var sep, more := ItemSep(style), EncodeItems(items[1..], style);
      assert EncodeItems(items, style) == e + sep + more;
      assert (e + sep + more)[0] == e[0];
    }
  }

  /** No control character; in Python's output nothing beyond '~' either (ensure_ascii). */
  predicate Printable(s: string, style: Style) {
    forall i :: 0 <= i < |s| ==> 0x20 <= s[i] as int && (style == Py ==> s[i] as int <= 0x7E)
  }

  lemma PrintableConcat(a: string, b: string, style: Style)
    requires Printable(a, style) && Printable(b, style)
    ensures Printable(a + b, style)
  {
    forall i | 0 <= i < |a + b|
      ensures 0x20 <= (a + b)[i] as int && (style == Py ==> (a + b)[i] as int <= 0x7E)
    {
      if i >= |a| { assert (a + b)[i] == b[i - |a|]; }
    }
  }

  lemma EscapeCharPrintable(c: char, style: Style)
    ensures Printable(EscapeChar(c, style), style)
  {
    var n := c as int;
    if c == '"' || c == '\\' || c == '\n' || c == '\r' || c == '\t' || n == 0x08 || n == 0x0C {
      ShortEscapePrintable(c, style);
    } else if n < 0x20 {
      assert EscapeChar(c, style) == "\\u" + Hex4(n);
      UnicodeEscapePrintable(n, style);
    } else if style == Js || n <= 0x7E {
      assert EscapeChar(c, style) == [c];
    } else if n < 0x10000 {
      assert EscapeChar(c, style) == "\\u" + Hex4(n);
      UnicodeEscapePrintable(n, style);
    } else {
      SurrogatePairPrintable(c, style);
    }
  }

  lemma ShortEscapePrintable(c: char, style: Style)
    requires c == '"' || c == '\\' || c == '\n' || c == '\r' || c == '\t' || c as int == 0x08 || c as int == 0x0C
    ensures Printable(EscapeChar(c, style), style)
  {
    var e := EscapeChar(c, style);
    assert |e| == 2 && e[0] == '\\';
    assert e[1] in "\"\\nrtbf";
  }

  lemma SurrogatePairPrintable(c: char, style: Style)
    requires c as int >= 0x10000 && style == Py
    ensures Printable(EscapeChar(c, style), style)
  {
    SurrogateEscape(c, style);
    var v := c as int - 0x10000;
    EscapePairPrintable(0xD800 + v / 0x400, 0xDC00 + v % 0x400, style);
  }

  /** Two `\uXXXX` escapes in a row are printable. */
  lemma EscapePairPrintable(a: nat, b: nat, style: Style)
    requires a < 0x10000 && b < 0x10000
    ensures Printable("\\u" + Hex4(a) + "\\u" + Hex4(b), style)
  {
    UnicodeEscapePrintable(a, style);
    UnicodeEscapePrintable(b, style);
    PrintableConcat("\\u" + Hex4(a), "\\u" + Hex4(b), style);
    assert "\\u" + Hex4(a) + "\\u" + Hex4(b) == ("\\u" + Hex4(a)) + ("\\u" + Hex4(b));
  }

  /** A character above U+FFFF is written by Python as the escapes of its surrogate pair. */
  lemma SurrogateEscape(c: char, style: Style)
    requires c as int >= 0x10000 && style == Py
    ensures 0xD800 + (c as int - 0x10000) / 0x400 < 0x10000 && 0xDC00 + (c as int - 0x10000) % 0x400 < 0x10000
    ensures EscapeChar(c, style)
         == "\\u" + Hex4(0xD800 + (c as int - 0x10000) / 0x400) + "\\u" + Hex4(0xDC00 + (c as int - 0x10000) % 0x400)
  {
    SurrogateHalves(c as int - 0x10000);
  }

  /** Both halves of a surrogate pair are below U+10000. */
  lemma SurrogateHalves(v: int)
    requires 0 <= v < 0x100000
    ensures 0xD800 + v / 0x400 < 0x10000 && 0xDC00 + v % 0x400 < 0x10000
  {
  }

  /** A `\uXXXX` escape is printable. */
  lemma UnicodeEscapePrintable(n: nat, style: Style)
    requires n < 0x10000
    ensures Printable("\\u" + Hex4(n), style)
  {
    Hex4Printable(n, style);
    PrintableConcat("\\u", Hex4(n), style);
  }

  lemma Hex4Printable(n: nat, style: Style)
    requires n < 0x10000
    ensures Printable(Hex4(n), style)
  {
  }

  lemma {:induction false} EscapeStringPrintable(s: string, style: Style)
    ensures Printable(EscapeString(s, style), style)
  {
    if s != [] {
      EscapeCharPrintable(s[0], style);
      EscapeStringPrintable(s[1..], style);
      PrintableConcat(EscapeChar(s[0], style), EscapeString(s[1..], style), style);
    }
  }

  lemma QuotePrintable(s: string, style: Style)
    ensures Printable(Quote(s, style), style)
  {
    EscapeStringPrintable(s, style);
    PrintableConcat("\"", EscapeString(s, style), style);
    PrintableConcat("\"" + EscapeString(s, style), "\"", style);
  }

  /** Both encoders write only printable characters, so an encoded value never contains a line
      break, and Python's output is pure ASCII. */
  lemma {:induction false} EncodePrintable(v: Json, style: Style)
    ensures Printable(Encode(v, style), style)
    decreases v
  {
    match v
    case JNull =>
    case JBool(_) =>
    case JInt(i) =>
      if i < 0 {
        PrintableConcat("-", NatToString(-i), style);
      }
    case JStr(s) => QuotePrintable(s, style);
    case JArr(items) =>
      EncodeItemsPrintable(items, style);
      PrintableConcat("[", EncodeItems(items, style), style);
      PrintableConcat("[" + EncodeItems(items, style), "]", style);
    case JObj(ms) =>
      EncodeMembersPrintable(ms, style);
      PrintableConcat("{", EncodeMembers(ms, style), style);
      PrintableConcat("{" + EncodeMembers(ms, style), "}", style);
  }

  lemma {:induction false} EncodeItemsPrintable(items: seq<Json>, style: Style)
    ensures Printable(EncodeItems(items, style), style)
    decreases items
  {
    if items != [] {
      EncodePrintable(items[0], style);
      if |items| > 1 {
        EncodeItemsPrintable(items[1..], style);
        PrintableConcat(Encode(items[0], style), ItemSep(style), style);
        PrintableConcat(Encode(items[0], style) + ItemSep(style), EncodeItems(items[1..], style), style);
      }
    }
  }

  lemma {:induction false} EncodeMembersPrintable(ms: seq<(string, Json)>, style: Style)
    ensures Printable(EncodeMembers(ms, style), style)
    decreases ms
  {
    if ms != [] {
      assert ms[0] in ms && ms[0].1 < ms[0];
      var (k, v) := ms[0];
      QuotePrintable(k, style);
      EncodePrintable(v, style);
      PrintableConcat(Quote(k, style), KeySep(style), style);
      PrintableConcat(Quote(k, style) + KeySep(style), Encode(v, style), style);
      var m := Quote(k, style) + KeySep(style) + Encode(v, style);
      if |ms| > 1 {
        EncodeMembersPrintable(ms[1..], style);
        PrintableConcat(m, ItemSep(style), style);
        PrintableConcat(m + ItemSep(style), EncodeMembers(ms[1..], style), style);
      }
    }
  }
}
