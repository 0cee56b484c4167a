/** String helpers shared by the Python and JavaScript models: the part of
    Python's `str` and JavaScript's `String` that the core relies on
    (prefix and substring tests, `strip`, `lower`, `split`, `str(int)` and
    JavaScript's `parseInt(s, 10)`). Strings are sequences of characters. */
module Text {

  predicate StartsWith(s: string, p: string) {
    |p| <= |s| && s[..|p|] == p
  }

  predicate EndsWith(s: string, p: string) {
    |p| <= |s| && s[|s| - |p|..] == p
  }

  /** `t` occurs in `s` starting at index `i`. */
  predicate ContainsAt(s: string, t: string, i: int) {
    0 <= i && i + |t| <= |s| && s[i..i + |t|] == t
  }

  /** Python's `t in s` and JavaScript's `s.includes(t)`. */
  predicate Contains(s: string, t: string) {
    exists i :: 0 <= i <= |s| - |t| && ContainsAt(s, t, i)
  }

  lemma PrefixContained(s: string, t: string, u: string)
    requires Contains(s, t)
    ensures Contains(s + u, t)
  {
    var i :| 0 <= i <= |s| - |t| && ContainsAt(s, t, i);
    assert (s + u)[i..i + |t|] == s[i..i + |t|];
    assert ContainsAt(s + u, t, i);
  }

  lemma StartsWithConcat(a: string, b: string)
    ensures StartsWith(a + b, a)
  {
    assert (a + b)[..|a|] == a;
  }

  // ---------------------------------------------------------------------
  // Python `str.strip()` and `str.lower()`

  /** Python's `str.isspace()` on the ASCII and Latin-1 range. */
  predicate IsSpace(c: char) {
    var n := c as int;
    n == 32 || 9 <= n <= 13 || 28 <= n <= 31 || n == 0x85 || n == 0xA0
  }

  predicate AllSpace(s: string) {
    forall i :: 0 <= i < |s| ==> IsSpace(s[i])
  }

  function TrimStart(s: string): (r: string)
    ensures |r| <= |s| && r == s[|s| - |r|..]
    ensures AllSpace(s[..|s| - |r|])
    ensures r == [] || !IsSpace(r[0])
  {
    if |s| > 0 && IsSpace(s[0]) then
      var r := TrimStart(s[1..]);
      TrimStartStep(s, r);
      r
    else
      assert s[..0] == [];
      s
  }

  /** A suffix of `s[1..]` after white space is one of `s` when `s[0]` is
      white space too. */
  lemma TrimStartStep(s: string, r: string)
    requires |s| > 0 && IsSpace(s[0])
    requires |r| <= |s| - 1 && r == s[1..][|s| - 1 - |r|..] && AllSpace(s[1..][..|s| - 1 - |r|])
    ensures r == s[|s| - |r|..] && AllSpace(s[..|s| - |r|])
  {
    assert s[1..][|s| - 1 - |r|..] == s[|s| - |r|..];
    var pre := s[..|s| - |r|];
    forall i | 0 <= i < |pre|
      ensures IsSpace(pre[i])
    {
      if i > 0 {
        assert pre[i] == s[1..][..|s| - 1 - |r|][i - 1];
      }
    }
  }

  function TrimEnd(s: string): (r: string)
    ensures |r| <= |s| && r == s[..|r|]
    ensures AllSpace(s[|r|..])
    ensures r == [] || !IsSpace(r[|r| - 1])
  {
    if |s| > 0 && IsSpace(s[|s| - 1]) then
      var r := TrimEnd(s[..|s| - 1]);
      TrimEndStep(s, r);
      r
    else
      assert s[|s|..] == [];
      s
  }

  /** A prefix of `s[..|s| - 1]` before white space is one of `s` when the
      last character of `s` is white space too. */
  lemma TrimEndStep(s: string, r: string)
    requires |s| > 0 && IsSpace(s[|s| - 1])
    requires |r| <= |s| - 1 && r == s[..|s| - 1][..|r|] && AllSpace(s[..|s| - 1][|r|..])
    ensures r == s[..|r|] && AllSpace(s[|r|..])
  {
    assert s[..|s| - 1][..|r|] == s[..|r|];
    var post := s[|r|..];
    forall i | 0 <= i < |post|
      ensures IsSpace(post[i])
    {
      if i < |post| - 1 {
        assert post[i] == s[..|s| - 1][|r|..][i];
      }
    }
  }

  /** Python's `s.strip()`: leading and trailing whitespace removed. */
  function Strip(s: string): (r: string)
    ensures |r| <= |s|
    ensures r == [] || (!IsSpace(r[0]) && !IsSpace(r[|r| - 1]))
    ensures r == [] <==> AllSpace(s)
  {
    var t := TrimStart(s);
    var r := TrimEnd(t);
    assert t != [] ==> t[0] == s[|s| - |t|];
    assert r == [] ==> t[|r|..] == t;
    assert r == [] ==> s[..|s| - |t|] == s;
    assert r != [] ==> r[0] == t[0];
    r
  }

  function LowerChar(c: char): char {
    if 'A' <= c <= 'Z' then (c as int + 32) as char else c
  }

  /** Python's `s.lower()` on ASCII letters. */
  function Lower(s: string): (r: string)
    ensures |r| == |s| && forall i :: 0 <= i < |s| ==> r[i] == LowerChar(s[i])
  {
    seq(|s|, i requires 0 <= i < |s| => LowerChar(s[i]))
  }

  // ---------------------------------------------------------------------
  // `split` on a one-character separator (Python and JavaScript agree)

  /** Concatenation regrouped, as a ground fact for long proofs. */
  lemma ConcatAssoc<T>(a: seq<T>, b: seq<T>, c: seq<T>)
    ensures (a + b) + c == a + (b + c)
  {
  }

  function Last<T>(s: seq<T>): T
    requires |s| > 0
  {
    s[|s| - 1]
  }

  /** `s.split(sep)`: the pieces between separators; an empty string gives
      `[""]`. The last piece is the suffix of `s` after its last `sep`, or all
      of `s` when there is none. */
  function Split(s: string, sep: char): (parts: seq<string>)
    ensures |parts| >= 1
    ensures forall k :: 0 <= k < |parts| ==> sep !in parts[k]
    ensures EndsWith(s, Last(parts))
    ensures |Last(parts)| < |s| ==> s[|s| - |Last(parts)| - 1] == sep
  {
    if |s| == 0 then [""]
    else
      var init := Split(s[..|s| - 1], sep);
      var c := s[|s| - 1];
      if c == sep then
        SplitAtSeparator(s, sep, init);
        init + [""]
      else
        SplitExtendsPiece(s, sep, init);
        init[..|init| - 1] + [Last(init) + [c]]
  }

  /** A separator at the end of `s` starts a new, empty last piece. */
  lemma SplitAtSeparator(s: string, sep: char, init: seq<string>)
    requires |s| > 0 && s[|s| - 1] == sep && |init| >= 1
    requires forall k :: 0 <= k < |init| ==> sep !in init[k]
    ensures var parts := init + [""];
      (forall k :: 0 <= k < |parts| ==> sep !in parts[k])
      && EndsWith(s, Last(parts)) && (|Last(parts)| < |s| ==> s[|s| - |Last(parts)| - 1] == sep)
  {
    var parts := init + [""];
    forall k | 0 <= k < |parts|
      ensures sep !in parts[k]
    {
      if k < |init| {
        assert parts[k] == init[k];
      }
    }
  }

  /** Any other character at the end of `s` extends the last piece. */
  lemma SplitExtendsPiece(s: string, sep: char, init: seq<string>)
    requires |s| > 0 && s[|s| - 1] != sep && |init| >= 1
    requires forall k :: 0 <= k < |init| ==> sep !in init[k]
    requires EndsWith(s[..|s| - 1], Last(init))
    requires |Last(init)| < |s| - 1 ==> s[..|s| - 1][|s| - 1 - |Last(init)| - 1] == sep
    ensures var parts := init[..|init| - 1] + [Last(init) + [s[|s| - 1]]];
      (forall k :: 0 <= k < |parts| ==> sep !in parts[k])
      && EndsWith(s, Last(parts)) && (|Last(parts)| < |s| ==> s[|s| - |Last(parts)| - 1] == sep)
  {
    var prefix, c, piece := s[..|s| - 1], s[|s| - 1], Last(init);
    var parts := init[..|init| - 1] + [piece + [c]];
    forall k | 0 <= k < |parts|
      ensures sep !in parts[k]
    {
      if k < |init| - 1 {
        assert parts[k] == init[k];
      } else {
        assert parts[k] == piece + [c];
      }
    }
    assert s == prefix + [c];
    assert s[|s| - |piece| - 1..] == prefix[|prefix| - |piece|..] + [c];
  }

  // ---------------------------------------------------------------------
  // Decimal integers

  function DigitChar(d: nat): char
    requires d < 10
  {
    "0123456789"[d]
  }

  predicate IsDigit(c: char) { '0' <= c <= '9' }

  function DigitValue(c: char): nat
    requires IsDigit(c)
  {
    c as int - '0' as int
  }

  function NatToString(n: nat): (r: string)
    ensures |r| >= 1 && forall i :: 0 <= i < |r| ==> IsDigit(r[i])
  {
    if n < 10 then [DigitChar(n)] else NatToString(n / 10) + [DigitChar(n % 10)]
  }

  /** Python's `str(i)` (and JavaScript's template formatting) of an integer. */
  function IntToString(i: int): (r: string)
    ensures |r| >= 1
    ensures forall k :: 0 <= k < |r| ==> IsDigit(r[k]) || r[k] == '-'
  {
    if i < 0 then "-" + NatToString(-i) else NatToString(i)
  }

  /** The value of a run of decimal digits. */
  function DigitsValue(s: string): nat
    requires forall i :: 0 <= i < |s| ==> IsDigit(s[i])
  {
    if |s| == 0 then 0 else 10 * DigitsValue(s[..|s| - 1]) + DigitValue(s[|s| - 1])
  }

  lemma {:induction false} NatToStringValue(n: nat)
    ensures DigitsValue(NatToString(n)) == n
  {
    if n >= 10 {
      NatToStringValue(n / 10);
      var s := NatToString(n);
      assert s[..|s| - 1] == NatToString(n / 10);
    }
  }

  /** JavaScript's `StrWhiteSpaceChar`: white space and line terminators. */
  predicate IsJsSpace(c: char) {
    var n := c as int;
    9 <= n <= 13 || n == 32 || n == 0xA0 || n == 0x1680 || 0x2000 <= n <= 0x200A
    || n == 0x2028 || n == 0x2029 || n == 0x202F || n == 0x205F || n == 0x3000 || n == 0xFEFF
  }

  /** The longest prefix of `s` made of decimal digits. */
  function DigitPrefix(s: string): (r: string)
    ensures StartsWith(s, r) && forall i :: 0 <= i < |r| ==> IsDigit(r[i])
    ensures |r| < |s| ==> !IsDigit(s[|r|])
  {
    if |s| > 0 && IsDigit(s[0]) then [s[0]] + DigitPrefix(s[1..]) else []
  }

  lemma {:induction false} DigitPrefixOfDigits(s: string)
    requires forall i :: 0 <= i < |s| ==> IsDigit(s[i])
    ensures DigitPrefix(s) == s
  {
    if |s| > 0 {
      DigitPrefixOfDigits(s[1..]);
    }
  }

  /** JavaScript's `parseInt(s, 10)`: leading white space, an optional sign,
      then the longest run of digits; `None` stands for `NaN`. */
  function ParseIntJs(s: string): (r: Option<int>)
    ensures r.Some? ==> exists k :: 0 <= k < |s| && IsDigit(s[k])
  {
    var t := JsTrimStart(s);
    var neg := |t| > 0 && t[0] == '-';
    var u := if |t| > 0 && (t[0] == '-' || t[0] == '+') then t[1..] else t;
    var d := DigitPrefix(u);
    if |d| == 0 then None
    else
      assert IsDigit(s[|s| - |u|]) by { assert u[0] == d[0]; }
      Some(if neg then -(DigitsValue(d) as int) else DigitsValue(d))
  }

  function JsTrimStart(s: string): (r: string)
    ensures |r| <= |s| && r == s[|s| - |r|..]
  {
    if |s| > 0 && IsJsSpace(s[0]) then JsTrimStart(s[1..]) else s
  }

  /** `parseInt` reads back every non-negative integer that `IntToString` writes. */
  lemma ParseIntOfIntToString(n: nat)
    ensures ParseIntJs(IntToString(n)) == Some(n)
  {
    var s := NatToString(n);
    assert IsDigit(s[0]) && !IsJsSpace(s[0]);
    assert JsTrimStart(s) == s;
    assert s[0] != '-' && s[0] != '+';
    DigitPrefixOfDigits(s);
    NatToStringValue(n);
  }

  datatype Option<+T> = None | Some(value: T)
}
