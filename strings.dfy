/**
 * Text helpers with the meaning JavaScript gives them, restricted to what the
 * card code uses: `toLowerCase`/`toUpperCase` (ASCII letters only), `trim`,
 * `startsWith`, `indexOf`/`includes`, `replace` with a plain string or a
 * global pattern, and `String(n)` of an integer.
 */
module Strings {
  import opened Wrappers

  /** `toLowerCase` of one character; only the ASCII letters are mapped. */
  function LowerChar(c: char): char
  {
    if 'A' <= c <= 'Z' then (c as int + 32) as char else c
  }

  /** `toUpperCase` of one character; only the ASCII letters are mapped. */
  function UpperChar(c: char): char
  {
    if 'a' <= c <= 'z' then (c as int - 32) as char else c
  }

  function Lower(s: string): (r: string)
    ensures |r| == |s|
  {
    seq(|s|, i requires 0 <= i < |s| => LowerChar(s[i]))
  }

  predicate StartsWith(s: string, prefix: string)
  {
    |prefix| <= |s| && s[..|prefix|] == prefix
  }

  /** `t` occurs in `s` starting at position `i`. */
  predicate OccursAt(s: string, t: string, i: int)
  {
    0 <= i && i + |t| <= |s| && s[i..i + |t|] == t
  }

  /** `s.indexOf(t)`: the first position at which `t` occurs, None standing for -1. */
  function IndexOf(s: string, t: string): (r: Option<nat>)
    ensures r.Some? ==> OccursAt(s, t, r.value)
    ensures forall i :: 0 <= i && (r.None? || i < r.value) ==> !OccursAt(s, t, i)
    decreases |s|
  {
    if |s| < |t| then None
    else if s[..|t|] == t then Some(0)
    else
      var rest := IndexOf(s[1..], t);
      assert forall i :: 1 <= i && OccursAt(s, t, i) ==> OccursAt(s[1..], t, i - 1) by {
        forall i | 1 <= i && OccursAt(s, t, i) ensures OccursAt(s[1..], t, i - 1) {
          assert s[1..][i - 1..i - 1 + |t|] == s[i..i + |t|];
        }
      }
      match rest
      case None => None
      case Some(i) =>
        assert s[1..][i..i + |t|] == s[i + 1..i + 1 + |t|];
        Some(i + 1)
  }

  /** `s.includes(t)`. */
  predicate Contains(s: string, t: string)
  {
    IndexOf(s, t).Some?
  }

  /** The first occurrence is the one that no earlier occurrence precedes. */
  lemma {:induction false} IndexOfIs(s: string, t: string, k: nat)
    requires OccursAt(s, t, k)
    requires forall i :: 0 <= i < k ==> !OccursAt(s, t, i)
    ensures IndexOf(s, t) == Some(k)
  {
  }

  /** An occurrence of a non-empty `t` puts its first character in `s`. */
  lemma {:induction false} FirstCharOccurs(s: string, t: string, i: int)
    requires |t| > 0 && OccursAt(s, t, i)
    ensures t[0] in s
  {
    assert s[i] == s[i..i + |t|][0];
  }

  /** A string without the first character of `t` does not contain `t`. */
  lemma {:induction false} NotContainsWithoutFirstChar(s: string, t: string)
    requires |t| > 0 && t[0] !in s
    ensures !Contains(s, t)
  {
    if Contains(s, t) {
      FirstCharOccurs(s, t, IndexOf(s, t).value);
    }
  }

  /** A string that lacks some character of `t` does not contain `t`. */
  lemma {:induction false} NotContainsWithoutChar(s: string, t: string, j: nat)
    requires j < |t| && t[j] !in s
    ensures !Contains(s, t)
  {
    if Contains(s, t) {
      CharOccurs(s, t, IndexOf(s, t).value, j);
    }
  }

  lemma {:induction false} CharOccurs(s: string, t: string, i: int, j: nat)
    requires j < |t| && OccursAt(s, t, i)
    ensures t[j] in s
  {
    assert s[i + j] == s[i..i + |t|][j];
  }

  /** In `a + t + b`, where `a` lacks the first character of `t`, the first `t` is at `|a|`. */
  lemma {:induction false} IndexOfAfterPlain(a: string, t: string, b: string)
    requires |t| > 0 && t[0] !in a
    ensures IndexOf(a + t + b, t) == Some(|a|)
  {
    var s := a + t + b;
    assert s[|a|..|a| + |t|] == t;
    forall i | 0 <= i < |a| ensures !OccursAt(s, t, i) {
      assert s[i] == a[i];
      assert i + |t| <= |s| ==> s[i..i + |t|][0] == s[i];
    }
    IndexOfIs(s, t, |a|);
  }

  /** `s.replace(t, v)` with a plain-string pattern, taking `v` literally. */
  function ReplaceFirst(s: string, t: string, v: string): (r: string)
    ensures !Contains(s, t) ==> r == s
    ensures Contains(s, t) ==> |r| == |s| - |t| + |v|
  {
    match IndexOf(s, t)
    case None => s
    case Some(i) => s[..i] + v + s[i + |t|..]
  }

  /** `s.replace(/t/g, v)` for a pattern without special characters, taking `v` literally. */
  function ReplaceAll(s: string, t: string, v: string): (r: string)
    requires |t| > 0
    ensures !Contains(s, t) ==> r == s
    decreases |s|
  {
    match IndexOf(s, t)
    case None => s
    case Some(i) => s[..i] + v + ReplaceAll(s[i + |t|..], t, v)
  }

  /** Replacing the first `t` in `a + t + b`, where `a` lacks the first character of `t`. */
  lemma {:induction false} ReplaceFirstAfterPlain(a: string, t: string, b: string, v: string)
    requires |t| > 0 && t[0] !in a
    ensures ReplaceFirst(a + t + b, t, v) == a + v + b
  {
    IndexOfAfterPlain(a, t, b);
    var s := a + t + b;
    assert s[..|a|] == a;
    assert s[|a| + |t|..] == b;
  }

  /** Replacing every `t` in `a + t + b` replaces the first one and then continues in `b`. */
  lemma {:induction false} ReplaceAllAfterPlain(a: string, t: string, b: string, v: string)
    requires |t| > 0 && t[0] !in a
    ensures ReplaceAll(a + t + b, t, v) == a + v + ReplaceAll(b, t, v)
  {
    IndexOfAfterPlain(a, t, b);
    var s := a + t + b;
    assert s[..|a|] == a;
    assert s[|a| + |t|..] == b;
  }

  /** Replacing a whole string. */
  lemma {:induction false} ReplaceFirstWhole(t: string, v: string)
    requires |t| > 0
    ensures ReplaceFirst(t, t, v) == v
  {
    ReplaceFirstAfterPlain("", t, "", v);
    assert "" + t + "" == t && "" + v + "" == v;
  }

  lemma {:induction false} ReplaceFirstWithoutFirstChar(s: string, t: string, v: string)
    requires |t| > 0 && t[0] !in s
    ensures ReplaceFirst(s, t, v) == s
  {
    NotContainsWithoutFirstChar(s, t);
  }

  lemma {:induction false} ReplaceAllWithoutFirstChar(s: string, t: string, v: string)
    requires |t| > 0 && t[0] !in s
    ensures ReplaceAll(s, t, v) == s
  {
    NotContainsWithoutFirstChar(s, t);
  }

  /**
   * The characters `trim` removes: the JavaScript WhiteSpace and
   * LineTerminator code points.
   */
  predicate IsJsSpace(c: char)
  {
    ('\U{0009}' <= c <= '\U{000D}') || c == ' ' || c == '\U{00A0}' || c == '\U{1680}'
    || ('\U{2000}' <= c <= '\U{200A}') || c == '\U{2028}' || c == '\U{2029}' || c == '\U{202F}'
    || c == '\U{205F}' || c == '\U{3000}' || c == '\U{FEFF}'
  }

  /** `trimStart`: the suffix left after dropping the leading white space. */
  function TrimStart(s: string): (r: string)
    ensures |r| <= |s| && r == s[|s| - |r|..]
    ensures forall k :: 0 <= k < |s| - |r| ==> IsJsSpace(s[k])
    ensures r == [] || !IsJsSpace(r[0])
  {
    if s != [] && IsJsSpace(s[0]) then TrimStart(s[1..]) else s
  }

  /** `trimEnd`: the prefix left after dropping the trailing white space. */
  function TrimEnd(s: string): (r: string)
    ensures |r| <= |s| && r == s[..|r|]
    ensures forall k :: |r| <= k < |s| ==> IsJsSpace(s[k])
    ensures r == [] || !IsJsSpace(r[|r| - 1])
  {
    if s != [] && IsJsSpace(s[|s| - 1]) then TrimEnd(s[..|s| - 1]) else s
  }

  /** `r` is the part of `s` that starts at position `i`. */
  predicate SliceAt(s: string, r: string, i: int)
  {
    0 <= i && i + |r| <= |s| && s[i..i + |r|] == r
  }

  /** `r` is the part of `s` at position `i`, and all of `s` around it is white space. */
  predicate TrimmedAt(s: string, r: string, i: int)
  {
    SliceAt(s, r, i)
    && (forall k :: 0 <= k < i ==> IsJsSpace(s[k]))
    && (forall k :: i + |r| <= k < |s| ==> IsJsSpace(s[k]))
  }

  /** Cutting white space off the front of `s`, then off the back of what is left, leaves a slice trimmed at the cut. */
  lemma {:induction false} TrimmedAfterCuts(s: string, u: string, r: string)
    requires |u| <= |s| && u == s[|s| - |u|..]
    requires forall k :: 0 <= k < |s| - |u| ==> IsJsSpace(s[k])
    requires |r| <= |u| && r == u[..|r|]
    requires forall k :: |r| <= k < |u| ==> IsJsSpace(u[k])
    requires u == [] || !IsJsSpace(u[0])
    requires r == [] || !IsJsSpace(r[|r| - 1])
    ensures TrimmedAt(s, r, |s| - |u|)
    ensures r == [] || (!IsJsSpace(r[0]) && !IsJsSpace(r[|r| - 1]))
  {
    if r != [] {
      assert r[0] == u[0];
    }
    var i := |s| - |u|;
    forall k | i + |r| <= k < |s|
      ensures IsJsSpace(s[k])
    {
      assert s[k] == u[k - i];
    }
    assert s[i..i + |r|] == u[..|r|];
  }

  /** `trim`: a slice of `s` with no white space at either end, only white space cut off. */
  function Trim(s: string): (r: string)
    ensures exists i :: TrimmedAt(s, r, i)
    ensures r == [] || (!IsJsSpace(r[0]) && !IsJsSpace(r[|r| - 1]))
  {
    var u := TrimStart(s);
    var r := TrimEnd(u);
    TrimmedAfterCuts(s, u, r);
    assert TrimmedAt(s, r, |s| - |u|);
    r
  }

  predicate IsDigit(c: char)
  {
    '0' <= c <= '9'
  }

  function DigitChar(d: nat): (c: char)
    requires d < 10
    ensures IsDigit(c) && c as int - '0' as int == d
  {
    (48 + d) as char
  }

  /** The value of a string of decimal digits. */
  function DecimalValue(s: string): nat
    requires forall k :: 0 <= k < |s| ==> IsDigit(s[k])
  {
    if s == [] then 0
    else
      assert IsDigit(s[|s| - 1]);
      DecimalValue(s[..|s| - 1]) * 10 + (s[|s| - 1] as int - '0' as int)
  }

  /** `String(n)` of a natural number: its decimal digits, without leading zeros. */
  function NatToString(n: nat): (r: string)
    ensures |r| > 0 && forall k :: 0 <= k < |r| ==> IsDigit(r[k])
    ensures r[0] == '0' ==> n == 0 && r == "0"
    ensures DecimalValue(r) == n
  {
    if n < 10 then [DigitChar(n)]
    else
      var r := NatToString(n / 10) + [DigitChar(n % 10)];
      assert r[..|r| - 1] == NatToString(n / 10);
      r
  }

  /** `String(n)` of an integer: a minus sign for a negative one, then the digits of its magnitude. */
  function IntToString(n: int): (r: string)
    ensures |r| > 0
    ensures n < 0 <==> r[0] == '-'
    ensures var d := if n < 0 then 1 else 0;
      d < |r| && (forall k :: d <= k < |r| ==> IsDigit(r[k]))
      && DecimalValue(r[d..]) == (if n < 0 then -n else n)
      && (r[d] == '0' ==> r == "0")
  {
    if n < 0 then "-" + NatToString(-n) else NatToString(n)
  }
}
