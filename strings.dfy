/** The few JavaScript string operations the core relies on, over `seq<char>`:
    `includes`, `startsWith`, `trim` and the decimal rendering of a number in a
    template literal; and the UTF-16 code units JavaScript strings are made of. */
module Strings {
  import Types

  /** `s.startsWith(p)` */
  predicate StartsWith(s: string, p: string) {
    |p| <= |s| && s[..|p|] == p
  }

  /** `s.endsWith(p)` */
  predicate EndsWith(s: string, p: string) {
    |p| <= |s| && s[|s| - |p|..] == p
  }

  /** A text ends with its last piece. */
  lemma EndsWithConcat(a: string, b: string)
    ensures EndsWith(a + b, b)
  {
    assert (a + b)[|a + b| - |b|..] == b;
  }

  /** A text starts with its first piece. */
  lemma StartsWithConcat(a: string, b: string)
    ensures StartsWith(a + b, a)
  {
    assert (a + b)[..|a|] == a;
  }

  /** A prefix stays a prefix when the text grows at the end. */
  lemma StartsWithExtend(s: string, p: string, t: string)
    requires StartsWith(s, p)
    ensures StartsWith(s + t, p)
  {
    assert (s + t)[..|p|] == s[..|p|];
  }

  /** `p` sits in `s` at position `k`. */
  predicate MatchAt(s: string, p: string, k: int) {
    0 <= k <= |s| - |p| && s[k..k + |p|] == p
  }

  /** `s.includes(p)`: `p` starts at some position of `s`. */
  predicate Contains(s: string, p: string) {
    exists k :: 0 <= k <= |s| - |p| && MatchAt(s, p, k)
  }

  /** A text that starts with `p` contains it. */
  lemma StartsWithContains(s: string, p: string)
    requires StartsWith(s, p)
    ensures Contains(s, p)
  {
    assert MatchAt(s, p, 0);
  }

  /** Every text contains itself. */
  lemma ContainsSelf(p: string)
    ensures Contains(p, p)
  {
    assert p[..|p|] == p;
    StartsWithContains(p, p);
  }

  /** `p` occurs inside `a + p + b`. */
  lemma ContainsInfix(a: string, p: string, b: string)
    ensures Contains(a + p + b, p)
  {
    assert (a + p + b)[|a|..|a| + |p|] == p;
    assert MatchAt(a + p + b, p, |a|);
  }

  /** A text that contains `p` contains every character of `p`. */
  lemma ContainsHasChar(s: string, p: string, i: nat)
    requires i < |p| && Contains(s, p)
    ensures p[i] in s
  {
    var k :| 0 <= k <= |s| - |p| && MatchAt(s, p, k);
    assert s[k + i] == s[k..k + |p|][i] == p[i];
  }

  /** So a character of `p` missing from `s` rules the match out. */
  lemma MissingChar(s: string, p: string, i: nat)
    requires i < |p| && p[i] !in s
    ensures !Contains(s, p)
  {
    if Contains(s, p) {
      ContainsHasChar(s, p, i);
    }
  }

  /** The same, with the missing character stated position by position. */
  lemma Lacks(s: string, p: string, i: nat)
    requires i < |p| && forall k :: 0 <= k < |s| ==> s[k] != p[i]
    ensures !Contains(s, p)
  {
    MissingChar(s, p, i);
  }

  /** A text shorter than `p` cannot contain it. */
  lemma TooShort(s: string, p: string)
    requires |s| < |p|
    ensures !Contains(s, p)
  {
  }

  /** A match in either piece is a match in the whole. */
  lemma ContainsConcat(a: string, b: string, p: string)
    requires Contains(a, p) || Contains(b, p)
    ensures Contains(a + b, p)
  {
    if Contains(a, p) {
      var k :| 0 <= k <= |a| - |p| && MatchAt(a, p, k);
      assert (a + b)[k..k + |p|] == a[k..k + |p|];
      assert MatchAt(a + b, p, k);
    } else {
      var k :| 0 <= k <= |b| - |p| && MatchAt(b, p, k);
      assert (a + b)[|a| + k..|a| + k + |p|] == b[k..k + |p|];
      assert MatchAt(a + b, p, |a| + k);
    }
  }

  /** A match across the seam of `a + b` puts two adjacent characters of `p`
      on the last character of `a` and the first of `b`. */
  lemma StraddleChars(a: string, b: string, p: string, k: int)
    requires MatchAt(a + b, p, k) && k < |a| < k + |p|
    ensures a[|a| - 1] in p && b[0] in p
  {
    assert p[|a| - k - 1] == (a + b)[|a| - 1];
    assert p[|a| - k] == (a + b)[|a|];
  }

  /** `p` cannot straddle the seam of `a + b` when the last character of `a`
      or the first of `b` does not occur in `p`; so a text absent from both
      pieces is absent from the whole. */
  lemma AbsentFromBoth(a: string, b: string, p: string)
    requires |a| > 0 && |b| > 0
    requires a[|a| - 1] !in p || b[0] !in p
    requires !Contains(a, p) && !Contains(b, p)
    ensures !Contains(a + b, p)
  {
    if k :| 0 <= k <= |a + b| - |p| && MatchAt(a + b, p, k) {
      if k + |p| <= |a| {
        assert a[k..k + |p|] == (a + b)[k..k + |p|];
        assert MatchAt(a, p, k);
      } else if k >= |a| {
        assert b[k - |a|..k - |a| + |p|] == (a + b)[k..k + |p|];
        assert MatchAt(b, p, k - |a|);
      } else {
        StraddleChars(a, b, p, k);
        assert false;
      }
    }
  }

  function DigitChar(d: nat): (c: char)
    requires d < 10
    ensures IsDigit(c) && DigitValue(c) == d
  {
    ('0' as int + d) as char
  }

  predicate IsDigit(c: char) {
    '0' <= c <= '9'
  }

  function DigitValue(c: char): int {
    c as int - '0' as int
  }

  /** The decimal rendering of a non-negative integer inside a template literal. */
  function DecimalString(n: nat): (r: string)
    ensures |r| > 0
    ensures forall k :: 0 <= k < |r| ==> IsDigit(r[k])
  {
    if n < 10 then [DigitChar(n)] else DecimalString(n / 10) + [DigitChar(n % 10)]
  }

  /** The number a string of decimal digits spells. */
  function DecimalValue(s: string): int
    decreases |s|
  {
    if s == [] then 0 else 10 * DecimalValue(s[..|s| - 1]) + DigitValue(s[|s| - 1])
  }

  /** Reading back a rendered number gives the number: the rendering loses
      nothing. */
  lemma {:induction false} DecimalRoundTrip(n: nat)
    ensures DecimalValue(DecimalString(n)) == n
  {
    var r := DecimalString(n);
    if n < 10 {
      assert r[..0] == [];
    } else {
      DecimalRoundTrip(n / 10);
      assert r[..|r| - 1] == DecimalString(n / 10);
    }
  }

  /** The code points `String.prototype.trim` removes: the white space and line
      terminators of ECMAScript, which include the Unicode space separators. */
  predicate IsJsWhitespace(c: char) {
    c == '\t' || c == '\n' || c == '\U{B}' || c == '\U{C}' || c == '\r' || c == ' '
    || c == '\U{A0}' || c == '\U{1680}' || ('\U{2000}' <= c <= '\U{200A}')
    || c == '\U{2028}' || c == '\U{2029}' || c == '\U{202F}' || c == '\U{205F}'
    || c == '\U{3000}' || c == '\U{FEFF}'
  }

  function TrimStart(s: string): string
    decreases |s|
  {
    if |s| > 0 && IsJsWhitespace(s[0]) then TrimStart(s[1..]) else s
  }

  function TrimEnd(s: string): string
    decreases |s|
  {
    if |s| > 0 && IsJsWhitespace(s[|s| - 1]) then TrimEnd(s[..|s| - 1]) else s
  }

  /** `s.trim()` */
  function Trim(s: string): string {
    TrimEnd(TrimStart(s))
  }

  predicate AllWhitespace(s: string) {
    forall k :: 0 <= k < |s| ==> IsJsWhitespace(s[k])
  }

  lemma {:induction false} TrimStartEmpty(s: string)
    ensures TrimStart(s) == [] <==> AllWhitespace(s)
    decreases |s|
  {
    if |s| > 0 && IsJsWhitespace(s[0]) {
      TrimStartEmpty(s[1..]);
      assert forall k :: 1 <= k < |s| ==> s[k] == s[1..][k - 1];
    }
  }

  lemma {:induction false} TrimEndEmpty(s: string)
    ensures TrimEnd(s) == [] <==> AllWhitespace(s)
    decreases |s|
  {
    if |s| > 0 && IsJsWhitespace(s[|s| - 1]) {
      TrimEndEmpty(s[..|s| - 1]);
    }
  }

  /** `!s.trim()` holds exactly for texts made only of white space (the empty
      text included). */
  lemma TrimEmptyIffBlank(s: string)
    ensures Trim(s) == [] <==> AllWhitespace(s)
  {
    TrimStartEmpty(s);
    if TrimStart(s) == [] {
      TrimEndEmpty([]);
    } else {
      TrimEndEmpty(TrimStart(s));
      TrimStartKeepsFirst(s);
    }
  }

  /** What `TrimStart` leaves begins with a non-white character and is a suffix. */
  lemma {:induction false} TrimStartKeepsFirst(s: string)
    requires TrimStart(s) != []
    ensures !AllWhitespace(TrimStart(s))
    ensures !AllWhitespace(s)
    decreases |s|
  {
    if |s| > 0 && IsJsWhitespace(s[0]) {
      TrimStartKeepsFirst(s[1..]);
      assert exists k :: 0 <= k < |s[1..]| && !IsJsWhitespace(s[1..][k]);
      var k :| 0 <= k < |s[1..]| && !IsJsWhitespace(s[1..][k]);
      assert s[k + 1] == s[1..][k];
    } else {
      assert !IsJsWhitespace(TrimStart(s)[0]);
    }
  }

  /** A UTF-16 code unit: what `length` counts and `charAt` returns. */
  type CodeUnit = n: int | 0 <= n < 0x1_0000

  predicate IsHighSurrogate(u: CodeUnit) {
    0xD800 <= u < 0xDC00
  }

  predicate IsLowSurrogate(u: CodeUnit) {
    0xDC00 <= u < 0xE000
  }

  /** The code units of one character: the character itself below U+10000,
      otherwise a high surrogate followed by a low one. */
  function CharUnits(c: char): (u: seq<CodeUnit>)
    ensures c as int < 0x1_0000 ==> u == [c as int] && !IsHighSurrogate(u[0]) && !IsLowSurrogate(u[0])
    ensures c as int >= 0x1_0000 ==> |u| == 2 && IsHighSurrogate(u[0]) && IsLowSurrogate(u[1])
  {
    var n := c as int;
    if n < 0x1_0000 then [n]
    else [0xD800 + (n - 0x1_0000) / 0x400, 0xDC00 + (n - 0x1_0000) % 0x400]
  }

  /** A text as JavaScript holds it: the code units of its characters, in order. */
  function Utf16(s: string): (u: seq<CodeUnit>)
    ensures |s| <= |u| <= 2 * |s|
    decreases |s|
  {
    if s == [] then [] else CharUnits(s[0]) + Utf16(s[1..])
  }

  /** The text a sequence of code units spells, or `None` when it holds a
      surrogate that is not part of a high-low pair. */
  function FromUtf16(u: seq<CodeUnit>): Types.Option<string>
    decreases |u|
  {
    if u == [] then Types.Some([])
    else if IsHighSurrogate(u[0]) then
      if |u| >= 2 && IsLowSurrogate(u[1]) then
        match FromUtf16(u[2..])
        case None => Types.None
        case Some(rest) => Types.Some([(0x1_0000 + (u[0] as int - 0xD800) * 0x400 + (u[1] as int - 0xDC00)) as char] + rest)
      else Types.None
    else if IsLowSurrogate(u[0]) then Types.None
    else
      match FromUtf16(u[1..])
      case None => Types.None
      case Some(rest) => Types.Some([u[0] as char] + rest)
  }

  /** Encoding distributes over concatenation. */
  lemma {:induction false} Utf16Append(a: string, b: string)
    ensures Utf16(a + b) == Utf16(a) + Utf16(b)
    decreases |a|
  {
    if a == [] {
      assert a + b == b;
    } else {
      assert (a + b)[0] == a[0] && (a + b)[1..] == a[1..] + b;
      Utf16Append(a[1..], b);
    }
  }

  /** Decoding one character's units in front of a decodable rest. */
  lemma CharUnitsDecode(c: char, rest: seq<CodeUnit>, t: string)
    requires FromUtf16(rest) == Types.Some(t)
    ensures FromUtf16(CharUnits(c) + rest) == Types.Some([c] + t)
  {
    var u := CharUnits(c) + rest;
    if c as int < 0x1_0000 {
      assert u[1..] == rest;
    } else {
      assert u[2..] == rest;
      var n := c as int - 0x1_0000;
      assert u[0] as int - 0xD800 == n / 0x400 && u[1] as int - 0xDC00 == n % 0x400;
    }
  }

  /** Every text survives the trip through UTF-16. */
  lemma {:induction false} Utf16RoundTrip(s: string)
    ensures FromUtf16(Utf16(s)) == Types.Some(s)
    decreases |s|
  {
    if s != [] {
      Utf16RoundTrip(s[1..]);
      CharUnitsDecode(s[0], Utf16(s[1..]), s[1..]);
      assert [s[0]] + s[1..] == s;
    }
  }

  /** Encoded text followed by a lone high surrogate spells nothing. */
  lemma {:induction false} DanglingHigh(t: string, h: CodeUnit)
    requires IsHighSurrogate(h)
    ensures FromUtf16(Utf16(t) + [h]) == Types.None
    decreases |t|
  {
    if t != [] {
      DanglingHigh(t[1..], h);
      var u := Utf16(t) + [h];
      var rest := Utf16(t[1..]) + [h];
      assert u == CharUnits(t[0]) + rest;
      if t[0] as int < 0x1_0000 {
        assert u[1..] == rest;
      } else {
        assert u[2..] == rest;
      }
    }
  }
}
