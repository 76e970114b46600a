/**
 * Placeholder resolution as both renderers do it: a fixed list of
 * substitutions applied in order to the element's text, each one replacing
 * the first occurrence of its pattern (or every occurrence, for the rule
 * built from a global regular expression) by a value computed from the card.
 */
module Placeholders {
  import opened Strings

  /** Replace `pattern` by `value`, at every occurrence when `every`, else at the first. */
  datatype Rule = Rule(pattern: string, value: string, every: bool)

  predicate Usable(rules: seq<Rule>)
  {
    forall i :: 0 <= i < |rules| ==> |rules[i].pattern| > 0
  }

  /** `if (s.includes(p)) s = s.replace(p, v)`; the test changes nothing, since replacing an absent pattern is the identity. */
  function Apply(s: string, r: Rule): (t: string)
    requires |r.pattern| > 0
    ensures !Contains(s, r.pattern) ==> t == s
  {
    if r.every then ReplaceAll(s, r.pattern, r.value) else ReplaceFirst(s, r.pattern, r.value)
  }

  /** The rules applied one after the other, each to the result of the previous ones. */
  function ApplyRules(s: string, rules: seq<Rule>): string
    requires Usable(rules)
    decreases |rules|
  {
    if rules == [] then s else ApplyRules(Apply(s, rules[0]), rules[1..])
  }

  /** Text that contains none of the patterns comes out unchanged. */
  lemma {:induction false} ApplyRulesUnchanged(s: string, rules: seq<Rule>)
    requires Usable(rules)
    requires forall i :: 0 <= i < |rules| ==> !Contains(s, rules[i].pattern)
    ensures ApplyRules(s, rules) == s
    decreases |rules|
  {
    if rules != [] {
      assert Apply(s, rules[0]) == s;
      ApplyRulesUnchanged(s, rules[1..]);
    }
  }

  /** Applying a list of rules is applying its first part, then the rest. */
  lemma {:induction false} ApplyRulesAppend(s: string, r1: seq<Rule>, r2: seq<Rule>)
    requires Usable(r1) && Usable(r2)
    ensures Usable(r1 + r2)
    ensures ApplyRules(s, r1 + r2) == ApplyRules(ApplyRules(s, r1), r2)
    decreases |r1|
  {
    if r1 != [] {
      assert (r1 + r2)[1..] == r1[1..] + r2;
      ApplyRulesAppend(Apply(s, r1[0]), r1[1..], r2);
    } else {
      assert r1 + r2 == r2;
    }
  }

  /**
   * A `{{...}}` token: it opens with two braces, closes with two, and has no
   * other brace of either kind.
   */
  predicate Braced(p: string)
  {
    |p| >= 4 && p[0] == '{' && p[1] == '{' && p[|p| - 2] == '}' && p[|p| - 1] == '}'
    && (forall i :: 2 <= i < |p| ==> p[i] != '{')
    && (forall i :: 0 <= i < |p| - 2 ==> p[i] != '}')
  }

  /** The token `{{path}}`. */
  function Token(path: string): (p: string)
    ensures |p| == |path| + 4 && p[0] == '{'
    ensures p[2..|p| - 2] == path
  {
    var p := "{{" + path + "}}";
    assert p[2..|p| - 2] == path;
    p
  }

  /** A path without braces makes a braced token. */
  lemma {:induction false} TokenBraced(path: string)
    requires '{' !in path && '}' !in path
    ensures Braced(Token(path))
  {
    var p := Token(path);
    assert forall i :: 2 <= i < |p| - 2 ==> p[i] == path[i - 2];
  }

  /** The only token that occurs in `a + p + b`, with no brace in `a` or `b`, is `p`, at `|a|`. */
  lemma {:induction false} BracedOccursOnlyAsItself(a: string, p: string, b: string, q: string, k: int)
    requires Braced(p) && Braced(q)
    requires '{' !in a && '{' !in b
    requires OccursAt(a + p + b, q, k)
    ensures k == |a| && q == p
  {
    var s := a + p + b;
    assert forall i :: 0 <= i < |q| ==> q[i] == s[k + i];
    assert forall i :: 0 <= i < |a| ==> s[i] == a[i];
    assert forall i :: |a| <= i < |a| + |p| ==> s[i] == p[i - |a|];
    assert forall i :: |a| + |p| <= i < |s| ==> s[i] == b[i - |a| - |p|];
    assert k == |a|;
    var m := if |q| < |p| then |q| else |p|;
    assert q[m - 2] == s[|a| + m - 2] == p[m - 2];
    assert |q| == |p|;
    assert q == s[|a|..|a| + |q|] == p;
  }

  lemma {:induction false} BracedNotContained(a: string, p: string, b: string, q: string)
    requires Braced(p) && Braced(q) && p != q
    requires '{' !in a && '{' !in b
    ensures !Contains(a + p + b, q)
  {
    if Contains(a + p + b, q) {
      BracedOccursOnlyAsItself(a, p, b, q, IndexOf(a + p + b, q).value);
    }
  }

  /** Distinct tokens. */
  predicate DistinctTokens(rules: seq<Rule>)
  {
    (forall i :: 0 <= i < |rules| ==> Braced(rules[i].pattern))
    && (forall i, j :: 0 <= i < j < |rules| ==> rules[i].pattern != rules[j].pattern)
  }

  /**
   * With distinct tokens, text `a + token + b` whose only brace is the token's
   * becomes `a + value + b`, where the token's rule supplies a value without braces.
   */
  lemma {:induction false} SubstituteOne(a: string, b: string, rules: seq<Rule>, k: nat)
    requires DistinctTokens(rules) && k < |rules|
    requires '{' !in a && '{' !in b && '{' !in rules[k].value
    ensures Usable(rules)
    ensures ApplyRules(a + rules[k].pattern + b, rules) == a + rules[k].value + b
  {
    var p := rules[k].pattern;
    var s := a + p + b;
    var t := a + rules[k].value + b;
    assert rules == rules[..k] + ([rules[k]] + rules[k + 1..]);
    forall i | 0 <= i < k ensures !Contains(s, rules[..k][i].pattern) {
      BracedNotContained(a, p, b, rules[i].pattern);
    }
    ApplyRulesUnchanged(s, rules[..k]);
    ApplyRulesAppend(s, rules[..k], [rules[k]] + rules[k + 1..]);
    ApplyRulesAppend(s, [rules[k]], rules[k + 1..]);
    if rules[k].every {
      ReplaceAllAfterPlain(a, p, b, rules[k].value);
      ReplaceAllWithoutFirstChar(b, p, rules[k].value);
    } else {
      ReplaceFirstAfterPlain(a, p, b, rules[k].value);
    }
    assert ApplyRules(s, [rules[k]]) == t;
    assert '{' !in t;
    var rest := rules[k + 1..];
    forall i | 0 <= i < |rest| ensures !Contains(t, rest[i].pattern) {
      NotContainsWithoutFirstChar(t, rest[i].pattern);
    }
    ApplyRulesUnchanged(t, rest);
  }

  /**
   * With distinct tokens, text `a + token + m + token + b` whose only braces
   * are the two tokens', for a global rule, shows the value at both places.
   */
  lemma {:induction false} SubstituteEvery(a: string, m: string, b: string, rules: seq<Rule>, k: nat)
    requires DistinctTokens(rules) && k < |rules| && rules[k].every
    requires '{' !in a && '{' !in m && '{' !in b && '{' !in rules[k].value
    ensures Usable(rules)
    ensures ApplyRules(a + rules[k].pattern + m + rules[k].pattern + b, rules)
         == a + rules[k].value + m + rules[k].value + b
  {
    var p := rules[k].pattern;
    var v := rules[k].value;
    var s := a + p + (m + p + b);
    var t := a + v + (m + v + b);
    assert s == a + p + m + p + b;
    assert t == a + v + m + v + b;
    BracesOnlyFromPlain(b, p);
    BracesOnlyFromPrefixed(m, p, b);
    BracesOnlyFromPrefixed(a, p, m + p + b);
    var first := rules[..k];
    forall i | 0 <= i < |first| ensures !Contains(s, first[i].pattern) {
      OnlyTokenPresent(s, p, rules[i].pattern);
    }
    ApplyRulesUnchanged(s, first);
    ApplyRulesAt(s, rules, k);
    ReplaceAllAfterPlain(a, p, m + p + b, v);
    ReplaceAllAfterPlain(m, p, b, v);
    ReplaceAllWithoutFirstChar(b, p, v);
    assert Apply(s, rules[k]) == t;
    var rest := rules[k + 1..];
    forall i | 0 <= i < |rest| ensures !Contains(t, rest[i].pattern) {
      NotContainsWithoutFirstChar(t, rest[i].pattern);
    }
    ApplyRulesUnchanged(t, rest);
  }

  /**
   * With distinct tokens, text `a + token + m + token + b` whose only braces
   * are the two tokens', for a first-occurrence rule, shows the value at the
   * first place and leaves the second token as it is.
   */
  lemma {:induction false} SubstituteFirstOfTwo(a: string, m: string, b: string, rules: seq<Rule>, k: nat)
    requires DistinctTokens(rules) && k < |rules| && !rules[k].every
    requires '{' !in a && '{' !in m && '{' !in b && '{' !in rules[k].value
    ensures Usable(rules)
    ensures ApplyRules(a + rules[k].pattern + m + rules[k].pattern + b, rules)
         == a + rules[k].value + m + rules[k].pattern + b
  {
    var p := rules[k].pattern;
    var v := rules[k].value;
    var s := a + p + (m + p + b);
    var t := a + v + (m + p + b);
    assert s == a + p + m + p + b;
    assert t == a + v + m + p + b;
    assert t == (a + v + m) + p + b;
    BracesOnlyFromPlain(b, p);
    BracesOnlyFromPrefixed(m, p, b);
    BracesOnlyFromPrefixed(a, p, m + p + b);
    BracesOnlyFromPrefixed(a + v + m, p, b);
    OtherTokensUnchanged(s, p, rules[..k]);
    ApplyRulesAt(s, rules, k);
    ReplaceFirstAfterPlain(a, p, m + p + b, v);
    assert Apply(s, rules[k]) == t;
    OtherTokensUnchanged(t, p, rules[k + 1..]);
  }

  /** Where all braces belong to `p`, rules for other tokens change nothing. */
  lemma {:induction false} OtherTokensUnchanged(s: string, p: string, rules: seq<Rule>)
    requires Braced(p) && BracesOnlyFrom(s, p)
    requires forall i :: 0 <= i < |rules| ==> Braced(rules[i].pattern) && rules[i].pattern != p
    ensures Usable(rules)
    ensures ApplyRules(s, rules) == s
  {
    forall i | 0 <= i < |rules| ensures !Contains(s, rules[i].pattern) {
      OnlyTokenPresent(s, p, rules[i].pattern);
    }
    ApplyRulesUnchanged(s, rules);
  }

  /** Applying the rules is applying those before `k`, then rule `k`, then those after. */
  lemma {:induction false} ApplyRulesAt(s: string, rules: seq<Rule>, k: nat)
    requires Usable(rules) && k < |rules|
    ensures ApplyRules(s, rules) == ApplyRules(Apply(ApplyRules(s, rules[..k]), rules[k]), rules[k + 1..])
  {
    assert rules == rules[..k] + ([rules[k]] + rules[k + 1..]);
    ApplyRulesAppend(s, rules[..k], [rules[k]] + rules[k + 1..]);
    ApplyRulesAppend(ApplyRules(s, rules[..k]), [rules[k]], rules[k + 1..]);
  }

  /** One more rule applied. */
  lemma {:induction false} ApplyRulesStep(s: string, rules: seq<Rule>, k: nat)
    requires Usable(rules) && k < |rules|
    ensures ApplyRules(s, rules[..k + 1]) == Apply(ApplyRules(s, rules[..k]), rules[k])
  {
    assert rules[..k + 1][..k] == rules[..k];
    ApplyRulesAt(s, rules[..k + 1], k);
    assert rules[..k + 1][k + 1..] == [];
  }

  /**
   * A run of states, each the previous one with the next rule applied, ends
   * in the rules applied to the first state.
   */
  lemma {:induction false} ApplyRulesChain(states: seq<string>, rules: seq<Rule>)
    requires Usable(rules) && |states| == |rules| + 1
    requires forall k :: 0 <= k < |rules| ==> states[k + 1] == Apply(states[k], rules[k])
    ensures states[|rules|] == ApplyRules(states[0], rules)
    decreases |rules|
  {
    if rules != [] {
      assert states[1..][0] == states[1];
      ApplyRulesChain(states[1..], rules[1..]);
    }
  }

  /** Seven rules applied in turn. */
  lemma {:induction false} ApplyRulesSeven(s0: string, s1: string, s2: string, s3: string, s4: string, s5: string, s6: string,
                        s7: string, rules: seq<Rule>)
    requires Usable(rules) && |rules| == 7
    requires s1 == Apply(s0, rules[0]) && s2 == Apply(s1, rules[1]) && s3 == Apply(s2, rules[2])
    requires s4 == Apply(s3, rules[3]) && s5 == Apply(s4, rules[4]) && s6 == Apply(s5, rules[5])
    requires s7 == Apply(s6, rules[6])
    ensures s7 == ApplyRules(s0, rules)
  {
    ApplyRulesChain([s0, s1, s2, s3, s4, s5, s6, s7], rules);
  }

  /** `if (content.includes(pattern)) content = content.replace(pattern, value)`, the `replace` global when `every`. */
  method ReplaceIfPresent(content: string, pattern: string, value: string, every: bool) returns (r: string)
    requires |pattern| > 0
    ensures r == Apply(content, Rule(pattern, value, every))
    ensures !Contains(content, pattern) ==> r == content
  {
    r := content;
    if Contains(content, pattern) {
      r := if every then ReplaceAll(content, pattern, value) else ReplaceFirst(content, pattern, value);
    }
  }

  /** The rules from `k` on are rule `k`, then those after it. */
  lemma {:induction false} ApplyRulesFrom(s: string, rules: seq<Rule>, k: nat)
    requires Usable(rules) && k < |rules|
    ensures ApplyRules(s, rules[k..]) == ApplyRules(Apply(s, rules[k]), rules[k + 1..])
  {
    var rest := rules[k..];
    assert rest[0] == rules[k] && rest[1..] == rules[k + 1..];
  }

  lemma {:induction false} ApplyRulesPair(s: string, rules: seq<Rule>)
    requires Usable(rules) && |rules| == 2
    ensures ApplyRules(s, rules) == Apply(Apply(s, rules[0]), rules[1])
  {
    var u := Apply(s, rules[0]);
    var rest := rules[1..];
    assert rest[0] == rules[1] && rest[1..] == [];
    assert ApplyRules(s, rules) == ApplyRules(u, rest);
    assert ApplyRules(u, rest) == ApplyRules(Apply(u, rest[0]), []);
  }

  /** Every `{` of `s` opens, or is the second brace of, an occurrence of `p`. */
  predicate BracesOnlyFrom(s: string, p: string)
  {
    forall i {:trigger s[i]} :: 0 <= i < |s| && s[i] == '{' ==> OccursAt(s, p, i) || (i > 0 && OccursAt(s, p, i - 1))
  }

  /** In such a text no other token occurs. */
  lemma {:induction false} OnlyTokenPresent(s: string, p: string, q: string)
    requires Braced(p) && Braced(q) && p != q
    requires BracesOnlyFrom(s, p)
    ensures !Contains(s, q)
  {
    if Contains(s, q) {
      var k := IndexOf(s, q).value;
      assert s[k] == s[k..k + |q|][0] && s[k + 1] == s[k..k + |q|][1];
      TokenNotAt(s, p, q, k);
    }
  }

  lemma {:induction false} TokenNotAt(s: string, p: string, q: string, k: nat)
    requires Braced(p) && Braced(q)
    requires BracesOnlyFrom(s, p)
    requires OccursAt(s, q, k)
    ensures q == p
  {
    assert s[k] == s[k..k + |q|][0] == '{';
    assert s[k + 1] == s[k..k + |q|][1] == '{';
    assert OccursAt(s, p, k) || (k > 0 && OccursAt(s, p, k - 1));
    if OccursAt(s, p, k) {
      var m := if |q| < |p| then |q| else |p|;
      assert q[m - 2] == s[k + m - 2] == p[m - 2];
      assert |q| == |p|;
    }
  }

  lemma {:induction false} BracesOnlyFromPlain(y: string, p: string)
    requires '{' !in y
    ensures BracesOnlyFrom(y, p)
  {
  }

  /** Prefixing a brace-free text and one more token keeps the property. */
  lemma {:induction false} BracesOnlyFromPrefixed(x: string, p: string, y: string)
    requires Braced(p) && '{' !in x && BracesOnlyFrom(y, p)
    ensures BracesOnlyFrom(x + p + y, p)
  {
    var s := x + p + y;
    var o := |x| + |p|;
    BracesOfPrefix(x, p, y);
    forall i | 0 <= i < |s| && s[i] == '{'
      ensures OccursAt(s, p, i) || (i > 0 && OccursAt(s, p, i - 1))
    {
      if i >= o {
        BraceInSuffix(x + p, y, p, i - o);
      }
    }
  }

  /** In `x + p + y`, a brace before `y` is one of the two that open the token after `x`. */
  lemma {:induction false} BracesOfPrefix(x: string, p: string, y: string)
    requires Braced(p) && '{' !in x
    ensures OccursAt(x + p + y, p, |x|)
    ensures forall i :: 0 <= i < |x| + |p| && (x + p + y)[i] == '{' ==> i == |x| || i == |x| + 1
  {
    var s := x + p + y;
    assert s[|x|..|x| + |p|] == p;
    assert forall i :: 0 <= i < |x| ==> s[i] == x[i];
    assert forall i :: |x| <= i < |x| + |p| ==> s[i] == p[i - |x|];
  }

  /** A brace of `y` that belongs to an occurrence of `p` still does after a prefix. */
  lemma {:induction false} BraceInSuffix(a: string, y: string, p: string, j: int)
    requires BracesOnlyFrom(y, p) && 0 <= j < |y| && y[j] == '{'
    ensures var s, i := a + y, |a| + j;
      OccursAt(s, p, i) || (i > 0 && OccursAt(s, p, i - 1))
  {
    if OccursAt(y, p, j) {
      SuffixSlice(a, y, j, j + |p|);
    } else {
      SuffixSlice(a, y, j - 1, j - 1 + |p|);
    }
  }

  lemma {:induction false} SuffixSlice(a: string, y: string, lo: int, hi: int)
    requires 0 <= lo <= hi <= |y|
    ensures (a + y)[|a| + lo..|a| + hi] == y[lo..hi]
  {
    assert forall k :: 0 <= k < hi - lo ==> (a + y)[|a| + lo..|a| + hi][k] == y[lo..hi][k];
  }
}
