/** UTF-8 (RFC 3629) and the percent-decoding of ECMAScript's decodeURIComponent, with the
    percent-encoding the frontend applies, octet by octet, to atob's output before decoding. */
module UriCoding {
  import opened Wrappers
  import opened JsonData
  import opened JsonParse
  import opened Base64

  /** The UTF-8 octets of one character: one for U+0000-U+007F, two up to U+07FF, three up to
      U+FFFF, four above. */
  function Utf8Char(c: char): (bs: seq<Byte>)
    ensures 1 <= |bs| <= 4
  {
    var n := c as int;
    if n < 0x80 then [n]
    else if n < 0x800 then [0xC0 + n / 64, 0x80 + n % 64]
    else if n < 0x10000 then [0xE0 + n / 4096, 0x80 + (n / 64) % 64, 0x80 + n % 64]
    else [0xF0 + n / 262144, 0x80 + (n / 4096) % 64, 0x80 + (n / 64) % 64, 0x80 + n % 64]
  }

  function Utf8(s: string): seq<Byte> {
    if s == [] then [] else Utf8Char(s[0]) + Utf8(s[1..])
  }

  /** The number of octets a lead octet announces (its leading one bits, or 1 for an ASCII
      octet); 0 for a continuation octet or more than four leading ones. */
  function LeadLength(b: Byte): (n: nat)
    ensures n <= 4
  {
    if b < 0x80 then 1 else if b < 0xC0 then 0 else if b < 0xE0 then 2 else if b < 0xF0 then 3
    else if b < 0xF8 then 4 else 0
  }

  predicate Continuation(b: Byte) { 0x80 <= b < 0xC0 }

  /** The character a multi-octet sequence encodes, None when it is not a valid UTF-8 encoding
      of one code point: overlong forms, surrogates and values above U+10FFFF are refused. */
  function CodePoint(o: seq<Byte>): (r: Option<char>)
    requires 2 <= |o| <= 4 && LeadLength(o[0]) == |o|
    requires forall k :: 1 <= k < |o| ==> Continuation(o[k])
  {
    var o0, o1 := o[0] as int, o[1] as int;
    if |o| == 2 then
      var v := (o0 - 0xC0) * 64 + (o1 - 0x80);
      if v < 0x80 then None else Some(v as char)
    else if |o| == 3 then
      var v := (o0 - 0xE0) * 4096 + (o1 - 0x80) * 64 + (o[2] as int - 0x80);
      if v < 0x800 || (0xD800 <= v < 0xE000) then None else Some(v as char)
    else
      var v := (o0 - 0xF0) * 262144 + (o1 - 0x80) * 4096 + (o[2] as int - 0x80) * 64 + (o[3] as int - 0x80);
      if v < 0x10000 || v >= 0x110000 then None else Some(v as char)
  }

  /** Decoding undoes encoding, character by character. */
  lemma CodePointOfUtf8(c: char)
    requires |Utf8Char(c)| >= 2
    ensures var o := Utf8Char(c);
      LeadLength(o[0]) == |o| && (forall k :: 1 <= k < |o| ==> Continuation(o[k]))
      && CodePoint(o) == Some(c)
  {
    var n := c as int;
    assert n == (n / 64) * 64 + n % 64;
    assert n / 64 == (n / 4096) * 64 + (n / 64) % 64;
    assert n / 4096 == (n / 262144) * 64 + (n / 4096) % 64;
  }

  /** `'%' + ('00' + b.toString(16)).slice(-2)`: toString(16) writes one digit below 16. */
  function ToHex(b: Byte): (h: string)
    ensures 1 <= |h| <= 2
  {
    if b < 16 then [HexDigit(b)] else [HexDigit(b / 16), HexDigit(b % 16)]
  }

  function PercentByte(b: Byte): (p: string)
    ensures |p| == 3 && p == ['%', HexDigit(b / 16), HexDigit(b % 16)]
  {
    var padded := "00" + ToHex(b);
    "%" + padded[|padded| - 2..]
  }

  /** The octets of atob's output, each written as a percent escape and joined. */
  function PercentEncode(bs: seq<Byte>): (s: string)
    ensures |s| == 3 * |bs|
  {
    if bs == [] then [] else PercentByte(bs[0]) + PercentEncode(bs[1..])
  }

  /** `%XX` at i: a percent sign and two hexadecimal digits. */
  predicate EscapeAt(s: string, i: nat) {
    i + 3 <= |s| && s[i] == '%' && IsHex(s[i + 1]) && IsHex(s[i + 2])
  }

  function EscapeValue(s: string, i: nat): Byte
    requires EscapeAt(s, i)
  {
    HexValue(s[i + 1]) * 16 + HexValue(s[i + 2])
  }

  /** The n octets written as escapes from the start of s. */
  function Octets(s: string, n: nat): (o: seq<Byte>)
    requires forall k :: 0 <= k < n ==> EscapeAt(s, 3 * k)
    ensures |o| == n && forall k :: 0 <= k < n ==> o[k] == EscapeValue(s, 3 * k)
  {
    seq(n, k requires 0 <= k < n => EscapeValue(s, 3 * k))
  }

  function Prepend(c: char, r: Option<string>): Option<string> {
    match r
    case None => None
    case Some(t) => Some([c] + t)
  }

  /** decodeURIComponent(s); None is the URIError it throws. Characters other than '%' are
      kept; an escape below 0x80 is one character; a lead escape must be followed by as many
      continuation escapes as it announces, together a valid UTF-8 encoding. */
  function DecodeUriComponent(s: string): (r: Option<string>)
    decreases |s|
  {
    if s == [] then Some([])
    else if s[0] != '%' then Prepend(s[0], DecodeUriComponent(s[1..]))
    else if !EscapeAt(s, 0) then None
    else
      var b := EscapeValue(s, 0);
      var n := LeadLength(b);
      if b < 0x80 then Prepend(b as char, DecodeUriComponent(s[3..]))
      else if n == 0 || 3 * n > |s| then None
      else if !(forall k :: 0 <= k < n ==> EscapeAt(s, 3 * k)) then None
      else if !(forall k :: 1 <= k < n ==> Continuation(EscapeValue(s, 3 * k))) then None
      else match CodePoint(Octets(s, n))
        case None => None
        case Some(c) => Prepend(c, DecodeUriComponent(s[3 * n..]))
  }

  lemma PercentByteValue(b: Byte, t: string)
    ensures EscapeAt(PercentByte(b) + t, 0) && EscapeValue(PercentByte(b) + t, 0) == b
  {
    HexDigitRoundTrip(b / 16);
    HexDigitRoundTrip(b % 16);
  }

  lemma {:induction false} PercentEncodeConcat(a: seq<Byte>, b: seq<Byte>)
    ensures PercentEncode(a + b) == PercentEncode(a) + PercentEncode(b)
  {
    if a != [] {
      assert (a + b)[1..] == a[1..] + b;
      PercentEncodeConcat(a[1..], b);
    } else {
      assert a + b == b;
    }
  }

  lemma {:induction false} EscapeAtIndex(bs: seq<Byte>, k: nat)
    requires k < |bs|
    ensures EscapeAt(PercentEncode(bs), 3 * k) && EscapeValue(PercentEncode(bs), 3 * k) == bs[k]
  {
    var rest := PercentEncode(bs[1..]);
    assert PercentEncode(bs) == PercentByte(bs[0]) + rest;
    if k == 0 {
      PercentByteValue(bs[0], rest);
    } else {
      EscapeAtIndex(bs[1..], k - 1);
      EscapeShift(PercentByte(bs[0]), rest, 3 * (k - 1));
    }
  }

  /** An escape keeps its value when three characters are put in front of it. */
  lemma EscapeShift(p: string, rest: string, i: nat)
    requires |p| == 3 && EscapeAt(rest, i)
    ensures EscapeAt(p + rest, i + 3) && EscapeValue(p + rest, i + 3) == EscapeValue(rest, i)
  {
    var s := p + rest;
    assert s[i + 3] == rest[i] && s[i + 4] == rest[i + 1] && s[i + 5] == rest[i + 2];
  }

  /** An escape keeps its value when anything is put after it. */
  lemma EscapeExtend(s: string, t: string, i: nat)
    requires EscapeAt(s, i)
    ensures EscapeAt(s + t, i) && EscapeValue(s + t, i) == EscapeValue(s, i)
  {
    var u := s + t;
    assert u[i] == s[i] && u[i + 1] == s[i + 1] && u[i + 2] == s[i + 2];
  }

  /** The escapes of a byte string, followed by anything, read back as those bytes. */
  lemma EscapesOf(bs: seq<Byte>, t: string)
    ensures forall k :: 0 <= k < |bs| ==>
      EscapeAt(PercentEncode(bs) + t, 3 * k) && EscapeValue(PercentEncode(bs) + t, 3 * k) == bs[k]
  {
    forall k | 0 <= k < |bs|
      ensures EscapeAt(PercentEncode(bs) + t, 3 * k) && EscapeValue(PercentEncode(bs) + t, 3 * k) == bs[k]
    {
      EscapeAtIndex(bs, k);
      EscapeExtend(PercentEncode(bs), t, 3 * k);
    }
  }

  /** One character's escapes are decoded to that character. */
  lemma DecodeOneChar(c: char, t: string)
    ensures DecodeUriComponent(PercentEncode(Utf8Char(c)) + t) == Prepend(c, DecodeUriComponent(t))
  {
    var o := Utf8Char(c);
    var s := PercentEncode(o) + t;
    EscapesOf(o, t);
    assert s[3 * |o|..] == t;
    if |o| == 1 {
      assert EscapeValue(s, 0) == c as int;
    } else {
      CodePointOfUtf8(c);
      assert Octets(s, |o|) == o;
    }
  }

  /** decodeURIComponent of the percent-escaped UTF-8 of a string is that string. */
  lemma {:induction false} DecodeUtf8Escapes(s: string)
    ensures DecodeUriComponent(PercentEncode(Utf8(s))) == Some(s)
  {
    if s != [] {
      DecodeUtf8Escapes(s[1..]);
      PercentEncodeConcat(Utf8Char(s[0]), Utf8(s[1..]));
      DecodeOneChar(s[0], PercentEncode(Utf8(s[1..])));
      assert [s[0]] + s[1..] == s;
    }
  }

  /** A lone continuation octet, an overlong two-octet form and an encoded surrogate are
      refused. */
  lemma InvalidUtf8Refused()
    ensures DecodeUriComponent(PercentEncode([0x80])) == None
    ensures DecodeUriComponent(PercentEncode([0xC0, 0x80])) == None
    ensures DecodeUriComponent(PercentEncode([0xED, 0xA0, 0x80])) == None
  {
    EscapesOf([0x80], []);
    EscapesOf([0xC0, 0x80], []);
    EscapesOf([0xED, 0xA0, 0x80], []);
    assert PercentEncode([0x80]) + [] == PercentEncode([0x80]);
    assert PercentEncode([0xC0, 0x80]) + [] == PercentEncode([0xC0, 0x80]);
    assert PercentEncode([0xED, 0xA0, 0x80]) + [] == PercentEncode([0xED, 0xA0, 0x80]);
    assert Octets(PercentEncode([0xC0, 0x80]), 2) == [0xC0, 0x80];
    assert Octets(PercentEncode([0xED, 0xA0, 0x80]), 3) == [0xED, 0xA0, 0x80];
  }
}
