/** Base64 as the browser's atob() decodes it (the forgiving-base64 decode of the WHATWG
    Infra standard, over the alphabet of section 4 of RFC 4648), and the unpadded base64url
    writer of section 5 of RFC 4648 that produces a JSON Web Token's segments. */
module Base64 {
  import opened Wrappers

  /** An octet; atob's "binary string" holds one per character, as its char code. */
  type Byte = b: int | 0 <= b < 256

  /** The 64 characters of the standard alphabet. */
  predicate InAlphabet(c: char) {
    'A' <= c <= 'Z' || 'a' <= c <= 'z' || '0' <= c <= '9' || c == '+' || c == '/'
  }

  /** The six bits a character of the standard alphabet stands for. */
  function SextetValue(c: char): (v: nat)
    requires InAlphabet(c)
    ensures v < 64
  {
    if 'A' <= c <= 'Z' then c as int - 'A' as int
    else if 'a' <= c <= 'z' then c as int - 'a' as int + 26
    else if '0' <= c <= '9' then c as int - '0' as int + 52
    else if c == '+' then 62
    else 63
  }

  /** The character for six bits: standard alphabet, or the URL-safe one with '-' and '_'. */
  function SextetChar(v: nat, url: bool): (c: char)
    requires v < 64
    ensures c != '.' && c != '='
    ensures !url ==> InAlphabet(c) && SextetValue(c) == v
  {
    if v < 26 then ('A' as int + v) as char
    else if v < 52 then ('a' as int + v - 26) as char
    else if v < 62 then ('0' as int + v - 52) as char
    else if v == 62 then (if url then '-' else '+')
    else (if url then '_' else '/')
  }

  /** The character map of `replace(/-/g, '+').replace(/_/g, '/')`. */
  function ToStandardChar(c: char): char {
    if c == '-' then '+' else if c == '_' then '/' else c
  }

  /** base64url text rewritten into the standard alphabet. */
  function ToStandard(s: string): (r: string)
    ensures |r| == |s|
    ensures forall k :: 0 <= k < |s| ==> r[k] == ToStandardChar(s[k])
  {
    if s == [] then [] else [ToStandardChar(s[0])] + ToStandard(s[1..])
  }

  /** The characters atob skips: ASCII whitespace. */
  predicate AsciiWhitespace(c: char) {
    c == '\t' || c == '\n' || c as int == 0x0C || c == '\r' || c == ' '
  }

  function RemoveWhitespace(s: string): (r: string)
    ensures |r| <= |s|
    ensures forall k :: 0 <= k < |r| ==> !AsciiWhitespace(r[k])
  {
    if s == [] then []
    else if AsciiWhitespace(s[0]) then RemoveWhitespace(s[1..])
    else [s[0]] + RemoveWhitespace(s[1..])
  }

  /** A length that is a multiple of four loses one or two trailing '='. */
  function StripPadding(d: string): string {
    if |d| % 4 == 0 && |d| >= 2 && d[|d| - 2..] == "==" then d[..|d| - 2]
    else if |d| % 4 == 0 && |d| >= 1 && d[|d| - 1] == '=' then d[..|d| - 1]
    else d
  }

  predicate AllInAlphabet(d: string) {
    forall k :: 0 <= k < |d| ==> InAlphabet(d[k])
  }

  /** The six-bit values of a string of the standard alphabet. */
  function Values(d: string): (r: seq<nat>)
    requires AllInAlphabet(d)
    ensures |r| == |d|
    ensures forall k :: 0 <= k < |d| ==> r[k] == SextetValue(d[k]) < 64
  {
    if d == [] then [] else [SextetValue(d[0])] + Values(d[1..])
  }

  predicate AllSextets(vs: seq<nat>) {
    forall k :: 0 <= k < |vs| ==> vs[k] < 64
  }

  /** Groups of four sextets give three octets; a final group of three gives two octets and
      one of two gives one; the bits left over are dropped. */
  function DecodeValues(vs: seq<nat>): (r: seq<Byte>)
    requires AllSextets(vs)
    decreases |vs|
  {
    if |vs| >= 4 then
      [vs[0] * 4 + vs[1] / 16, (vs[1] % 16) * 16 + vs[2] / 4, (vs[2] % 4) * 64 + vs[3]] + DecodeValues(vs[4..])
    else if |vs| == 3 then
      [vs[0] * 4 + vs[1] / 16, (vs[1] % 16) * 16 + vs[2] / 4]
    else if |vs| == 2 then
      [vs[0] * 4 + vs[1] / 16]
    else []
  }

  /** atob(s); None is the InvalidCharacterError it throws. */
  function Atob(s: string): (r: Option<seq<Byte>>)
    ensures r.Some? <==> var d := StripPadding(RemoveWhitespace(s)); |d| % 4 != 1 && AllInAlphabet(d)
  {
    var d := StripPadding(RemoveWhitespace(s));
    if |d| % 4 == 1 || !AllInAlphabet(d) then None else Some(DecodeValues(Values(d)))
  }

  /** The sextets of a byte string, three octets to four sextets, the last group unpadded. */
  function Sextets(bs: seq<Byte>): (r: seq<nat>)
    ensures AllSextets(r)
    ensures |r| % 4 != 1
    decreases |bs|
  {
    if |bs| >= 3 then
      [bs[0] / 4, (bs[0] % 4) * 16 + bs[1] / 16, (bs[1] % 16) * 4 + bs[2] / 64, bs[2] % 64] + Sextets(bs[3..])
    else if |bs| == 2 then
      [bs[0] / 4, (bs[0] % 4) * 16 + bs[1] / 16, (bs[1] % 16) * 4]
    else if |bs| == 1 then
      [bs[0] / 4, (bs[0] % 4) * 16]
    else []
  }

  /** The characters for a run of sextets. */
  function Chars(vs: seq<nat>, url: bool): (r: string)
    requires AllSextets(vs)
    ensures |r| == |vs|
    ensures forall k :: 0 <= k < |vs| ==> r[k] == SextetChar(vs[k], url)
  {
    if vs == [] then [] else [SextetChar(vs[0], url)] + Chars(vs[1..], url)
  }

  /** Unpadded base64 (url: base64url) of a byte string. */
  function Encode(bs: seq<Byte>, url: bool): (r: string)
    ensures |r| % 4 != 1
    ensures forall k :: 0 <= k < |r| ==> r[k] != '.' && r[k] != '=' && !AsciiWhitespace(r[k])
  {
    Chars(Sextets(bs), url)
  }

  lemma SextetToStandard(v: nat)
    requires v < 64
    ensures ToStandardChar(SextetChar(v, true)) == SextetChar(v, false)
  {
  }

  /** Rewriting base64url into the standard alphabet gives the standard encoding. */
  lemma ToStandardOfUrl(bs: seq<Byte>)
    ensures ToStandard(Encode(bs, true)) == Encode(bs, false)
  {
    var vs := Sextets(bs);
    forall k | 0 <= k < |vs| ensures ToStandard(Encode(bs, true))[k] == Encode(bs, false)[k] {
      SextetToStandard(vs[k]);
    }
  }

  /** Three octets survive encoding and decoding. */
  lemma TripleRoundTrip(b0: Byte, b1: Byte, b2: Byte)
    ensures (b0 / 4) * 4 + ((b0 % 4) * 16 + b1 / 16) / 16 == b0
    ensures (((b0 % 4) * 16 + b1 / 16) % 16) * 16 + ((b1 % 16) * 4 + b2 / 64) / 4 == b1
    ensures (((b1 % 16) * 4 + b2 / 64) % 4) * 64 + b2 % 64 == b2
  {
  }

  lemma WhitespaceFree(s: string)
    requires forall k :: 0 <= k < |s| ==> !AsciiWhitespace(s[k])
    ensures RemoveWhitespace(s) == s
  {
    if s != [] {
      WhitespaceFree(s[1..]);
    }
  }

  lemma {:induction false} DecodeSextetsOf(bs: seq<Byte>)
    ensures DecodeValues(Sextets(bs)) == bs
    decreases |bs|
  {
    var vs := Sextets(bs);
    if |bs| >= 3 {
      DecodeSextetsOf(bs[3..]);
      assert vs[4..] == Sextets(bs[3..]);
      TripleRoundTrip(bs[0], bs[1], bs[2]);
      assert bs == bs[..3] + bs[3..];
    } else if |bs| == 2 {
      TripleRoundTrip(bs[0], bs[1], 0);
    } else if |bs| == 1 {
      TripleRoundTrip(bs[0], 0, 0);
    }
  }

  /** atob reads back what the unpadded standard encoder writes. */
  lemma AtobEncode(bs: seq<Byte>)
    ensures Atob(Encode(bs, false)) == Some(bs)
  {
    var e := Encode(bs, false);
    WhitespaceFree(e);
    assert StripPadding(e) == e by {
      if |e| >= 1 {
        assert e[|e| - 1] != '=';
        if |e| >= 2 { assert e[|e| - 2..][1] == e[|e| - 1]; }
      }
    }
    var vs := Sextets(bs);
    assert Values(e) == vs;
    DecodeSextetsOf(bs);
  }

  /** A JSON Web Token segment, written in base64url and rewritten into the standard alphabet,
      decodes with atob to the octets it was written from. */
  lemma UrlSegmentRoundTrip(bs: seq<Byte>)
    ensures Atob(ToStandard(Encode(bs, true))) == Some(bs)
  {
    ToStandardOfUrl(bs);
    AtobEncode(bs);
  }

  /** atob's padding and whitespace tolerance: "YQ==" decodes to "a", a lone character or one outside the alphabet fails. */
  lemma AtobForgiving()
    ensures Atob("YQ==") == Some([0x61])
    ensures Atob("Y") == None
    ensures Atob("Y-") == None
  {
    WhitespaceFree("YQ==");
    assert "YQ=="[2..] == "==";
    assert StripPadding("YQ==") == "YQ";
    assert Values("YQ") == [24, 16];
    assert DecodeValues([24, 16]) == [0x61];
    WhitespaceFree("Y");
    WhitespaceFree("Y-");
    assert !InAlphabet("Y-"[1]);
  }
}
