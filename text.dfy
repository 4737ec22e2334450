/** String helpers shared by the backend (Python) and frontend (TypeScript) models:
    whitespace classes, strip/trim, single-character split and join, decimal integers. */
module Text {

  /** Characters for which Python's str.isspace() holds; these are what str.strip() removes. */
  predicate PyWhitespace(c: char) {
    var n := c as int;
    (0x09 <= n <= 0x0D) || (0x1C <= n <= 0x20) || n == 0x85 || n == 0xA0 || n == 0x1680
    || (0x2000 <= n <= 0x200A) || n == 0x2028 || n == 0x2029 || n == 0x202F || n == 0x205F || n == 0x3000
  }

  /** ECMAScript WhiteSpace and LineTerminator: what String.prototype.trim() removes and what \s matches. */
  predicate JsWhitespace(c: char) {
    var n := c as int;
    (0x09 <= n <= 0x0D) || n == 0x20 || n == 0xA0 || n == 0x1680 || (0x2000 <= n <= 0x200A)
    || n == 0x2028 || n == 0x2029 || n == 0x202F || n == 0x205F || n == 0x3000 || n == 0xFEFF
  }

  /** ECMAScript line terminators: the characters a regular-expression '.' does not match. */
  predicate JsLineTerminator(c: char) {
    c == '\n' || c == '\r' || c as int == 0x2028 || c as int == 0x2029
  }

  function TrimLeft(s: string, isWs: char -> bool): (r: string)
    ensures |r| <= |s|
  {
    if s != [] && isWs(s[0]) then TrimLeft(s[1..], isWs) else s
  }

  function TrimRight(s: string, isWs: char -> bool): (r: string)
    ensures |r| <= |s|
  {
    if s != [] && isWs(s[|s| - 1]) then TrimRight(s[..|s| - 1], isWs) else s
  }

  /** TrimLeft drops exactly the leading whitespace. */
  lemma {:induction false} TrimLeftSuffix(s: string, isWs: char -> bool)
    ensures var r := TrimLeft(s, isWs);
      r == s[|s| - |r|..] && (r != [] ==> !isWs(r[0]))
      && forall i :: 0 <= i < |s| - |r| ==> isWs(s[i])
  {
    if s != [] && isWs(s[0]) {
      TrimLeftSuffix(s[1..], isWs);
    }
  }

  /** TrimRight drops exactly the trailing whitespace. */
  lemma {:induction false} TrimRightPrefix(s: string, isWs: char -> bool)
    ensures var r := TrimRight(s, isWs);
      r == s[..|r|] && (r != [] ==> !isWs(r[|r| - 1]))
      && forall i :: |r| <= i < |s| ==> isWs(s[i])
  {
    if s != [] && isWs(s[|s| - 1]) {
      TrimRightPrefix(s[..|s| - 1], isWs);
    }
  }

  /** Both ends trimmed: the result is the slice of s between the first and last non-space character. */
  function Trim(s: string, isWs: char -> bool): (r: string)
    ensures Contains(s, r)
    ensures r != [] ==> !isWs(r[0]) && !isWs(r[|r| - 1])
    ensures r == [] <==> forall i :: 0 <= i < |s| ==> isWs(s[i])
  {
    var l := TrimLeft(s, isWs);
    var r := TrimRight(l, isWs);
    var k := |s| - |l|;
    TrimLeftSuffix(s, isWs);
    TrimRightPrefix(l, isWs);
    assert r == s[k..][..|r|] == s[k..k + |r|];
    assert OccursAt(r, s, k);
    assert r == [] ==> forall i :: 0 <= i < |s| ==> isWs(s[i]) by {
      if r == [] {
        assert l == [];
      }
    }
    assert r != [] ==> !isWs(s[k]) by {
      if r != [] { assert s[k] == r[0]; }
    }
    r
  }

  /** Python str.strip() with no argument. */
  function PyStrip(s: string): string { Trim(s, PyWhitespace) }

  /** JavaScript String.prototype.trim(). */
  function JsTrim(s: string): string { Trim(s, JsWhitespace) }

  lemma {:induction false} TrimOfUnpadded(s: string, isWs: char -> bool)
    requires s != [] && !isWs(s[0]) && !isWs(s[|s| - 1])
    ensures Trim(s, isWs) == s
  {
  }

  /** Trimming a string whose ends are not spaces, surrounded by spaces, gives it back. */
  lemma {:induction false} TrimPadded(pre: string, s: string, post: string, isWs: char -> bool)
    requires forall i :: 0 <= i < |pre| ==> isWs(pre[i])
    requires forall i :: 0 <= i < |post| ==> isWs(post[i])
    requires s != [] && !isWs(s[0]) && !isWs(s[|s| - 1])
    ensures Trim(pre + s + post, isWs) == s
  {
    TrimLeftPadded(pre, s + post, isWs);
    assert pre + s + post == pre + (s + post);
    TrimRightPadded(s, post, isWs);
  }

  lemma {:induction false} TrimLeftPadded(pre: string, s: string, isWs: char -> bool)
    requires forall i :: 0 <= i < |pre| ==> isWs(pre[i])
    requires s != [] && !isWs(s[0])
    ensures TrimLeft(pre + s, isWs) == s
  {
    if pre != [] {
      assert (pre + s)[1..] == pre[1..] + s;
      TrimLeftPadded(pre[1..], s, isWs);
    }
  }

  lemma {:induction false} TrimRightPadded(s: string, post: string, isWs: char -> bool)
    requires forall i :: 0 <= i < |post| ==> isWs(post[i])
    requires s != [] && !isWs(s[|s| - 1])
    ensures TrimRight(s + post, isWs) == s
  {
    if post != [] {
      assert (s + post)[..|s + post| - 1] == s + post[..|post| - 1];
      TrimRightPadded(s, post[..|post| - 1], isWs);
    }
  }

  /** True when p occurs in s at index i. */
  predicate OccursAt(p: string, s: string, i: int) {
    0 <= i && i + |p| <= |s| && s[i..i + |p|] == p
  }

  /** Substring test: Python `p in s`, JavaScript s.includes(p). */
  predicate Contains(s: string, p: string) {
    exists i | 0 <= i <= |s| - |p| :: OccursAt(p, s, i)
  }

  /** Number of occurrences of c in s. */
  function Count(s: string, c: char): (n: nat)
    ensures n <= |s|
    ensures n == 0 <==> c !in s
  {
    if s == [] then 0 else (if s[0] == c then 1 else 0) + Count(s[1..], c)
  }

  /** s.split(c) for a one-character separator (Python and JavaScript agree on this case). */
  function Split(s: string, c: char): (parts: seq<string>)
    ensures |parts| >= 1
    ensures forall k :: 0 <= k < |parts| ==> c !in parts[k]
    decreases |s|
  {
    if c in s then
      var i := FirstIndex(s, c);
      [s[..i]] + Split(s[i + 1..], c)
    else [s]
  }

  function FirstIndex(s: string, c: char): (i: nat)
    requires c in s
    ensures i < |s| && s[i] == c && c !in s[..i]
  {
    if s[0] == c then 0 else 1 + FirstIndex(s[1..], c)
  }

  /** parts.join(c). */
  function Join(parts: seq<string>, c: char): string {
    if parts == [] then []
    else if |parts| == 1 then parts[0]
    else parts[0] + [c] + Join(parts[1..], c)
  }

  lemma {:induction false} CountConcat(a: string, b: string, c: char)
    ensures Count(a + b, c) == Count(a, c) + Count(b, c)
  {
    if a != [] {
      assert (a + b)[0] == a[0] && (a + b)[1..] == a[1..] + b;
      CountConcat(a[1..], b, c);
    } else {
      assert a + b == b;
    }
  }

  /** Splitting on c gives one more part than there are c's. */
  lemma {:induction false} SplitLength(s: string, c: char)
    ensures |Split(s, c)| == Count(s, c) + 1
    decreases |s|
  {
    if c in s {
      var i := FirstIndex(s, c);
      assert s == s[..i] + [c] + s[i + 1..];
      CountConcat(s[..i] + [c], s[i + 1..], c);
      CountConcat(s[..i], [c], c);
      SplitLength(s[i + 1..], c);
    }
  }

  /** Joining the parts with the separator gives back the string. */
  lemma {:induction false} JoinSplit(s: string, c: char)
    ensures Join(Split(s, c), c) == s
    decreases |s|
  {
    if c in s {
      var i := FirstIndex(s, c);
      var p := Split(s[i + 1..], c);
      assert Split(s, c) == [s[..i]] + p;
      JoinCons(s[..i], p, c);
      JoinSplit(s[i + 1..], c);
      assert s == s[..i] + [c] + s[i + 1..];
    }
  }

  lemma JoinCons(a: string, p: seq<string>, c: char)
    requires p != []
    ensures Join([a] + p, c) == a + [c] + Join(p, c)
  {
    assert ([a] + p)[0] == a && ([a] + p)[1..] == p;
  }

  function DigitChar(d: nat): char
    requires d < 10
  {
    ['0', '1', '2', '3', '4', '5', '6', '7', '8', '9'][d]
  }

  predicate IsDigit(c: char) { '0' <= c <= '9' }

  function DigitValue(c: char): (d: nat)
    requires IsDigit(c)
    ensures d < 10 && DigitChar(d) == c
  {
    (c as int - '0' as int)
  }

  /** Decimal digits of n, most significant first, no leading zeros (Python str(n) for n >= 0). */
  function NatToString(n: nat): (s: string)
    ensures s != [] && forall i :: 0 <= i < |s| ==> IsDigit(s[i])
    ensures |s| > 1 ==> s[0] != '0'
  {
    if n < 10 then [DigitChar(n)] else NatToString(n / 10) + [DigitChar(n % 10)]
  }

  /** Python str(n) / f"{n}" for an int. */
  function IntToString(n: int): (s: string)
    ensures s != []
  {
    if n < 0 then "-" + NatToString(-n) else NatToString(n)
  }

  /** Value of a string of decimal digits. */
  function DigitsValue(s: string): nat
    requires forall i :: 0 <= i < |s| ==> IsDigit(s[i])
  {
    if s == [] then 0 else DigitsValue(s[..|s| - 1]) * 10 + DigitValue(s[|s| - 1])
  }

  lemma {:induction false} DigitsValueOfNatToString(n: nat)
    ensures DigitsValue(NatToString(n)) == n
  {
    if n >= 10 {
      var s := NatToString(n);
      assert s[..|s| - 1] == NatToString(n / 10);
      DigitsValueOfNatToString(n / 10);
    }
  }

  /** NatToString is injective, so names built from distinct numbers differ. */
  lemma NatToStringInjective(m: nat, n: nat)
    requires NatToString(m) == NatToString(n)
    ensures m == n
  {
    DigitsValueOfNatToString(m);
    DigitsValueOfNatToString(n);
  }

  lemma IntToStringInjective(m: int, n: int)
    requires IntToString(m) == IntToString(n)
    ensures m == n
  {
    var sm, sn := IntToString(m), IntToString(n);
    assert (m < 0) == (sm[0] == '-');
    assert (n < 0) == (sn[0] == '-');
    if m < 0 {
      assert NatToString(-m) == sm[1..] == sn[1..] == NatToString(-n);
      NatToStringInjective(-m, -n);
    } else {
      NatToStringInjective(m, n);
    }
  }

  /** JavaScript String.prototype.length: UTF-16 code units, two for a character above U+FFFF. */
  function Utf16Length(s: string): (n: nat)
    ensures |s| <= n <= 2 * |s|
  {
    if s == [] then 0 else (if s[0] as int > 0xFFFF then 2 else 1) + Utf16Length(s[1..])
  }

  lemma {:induction false} Utf16LengthConcat(a: string, b: string)
    ensures Utf16Length(a + b) == Utf16Length(a) + Utf16Length(b)
  {
    if a != [] {
      assert (a + b)[0] == a[0] && (a + b)[1..] == a[1..] + b;
      Utf16LengthConcat(a[1..], b);
    } else {
      assert a + b == b;
    }
  }

  /** ASCII case folding to lower case. */
  function AsciiLower(s: string): (r: string)
    ensures |r| == |s|
    ensures forall i :: 0 <= i < |s| ==> r[i] == if 'A' <= s[i] <= 'Z' then (s[i] as int + 32) as char else s[i]
  {
    if s == [] then [] else [if 'A' <= s[0] <= 'Z' then (s[0] as int + 32) as char else s[0]] + AsciiLower(s[1..])
  }
}
