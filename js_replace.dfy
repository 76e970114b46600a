/**
 * `String.prototype.replace` as JavaScript defines it for a string pattern or
 * a global regular expression without capture groups: the replacement text
 * is not taken literally, but scanned for `$` patterns (section 22.1.3.19.1,
 * GetSubstitution, of ECMA-262). Both renderers pass player data as the
 * replacement, so a value containing `$$`, `$&`, `` $` `` or `$'` is shown
 * altered. The rest of the model uses the literal replacement of the
 * Strings module, which agrees with this one whenever the value has no `$`.
 */
module JsReplace {
  import opened Wrappers
  import opened Strings
  import opened Placeholders

  /**
   * The replacement text with its `$` patterns expanded, for a match `matched`
   * preceded by `before` and followed by `after`. `$n` and `$<` stay as they
   * are, there being no capture groups.
   */
  function Expand(tpl: string, matched: string, before: string, after: string): (r: string)
    ensures '$' !in tpl ==> r == tpl
    ensures |tpl| >= 2 && tpl[0] == '$' && tpl[1] == '$' ==> r == "$" + Expand(tpl[2..], matched, before, after)
    ensures |tpl| >= 2 && tpl[0] == '$' && tpl[1] == '&' ==> r == matched + Expand(tpl[2..], matched, before, after)
    ensures |tpl| >= 2 && tpl[0] == '$' && tpl[1] == '`' ==> r == before + Expand(tpl[2..], matched, before, after)
    ensures |tpl| >= 2 && tpl[0] == '$' && tpl[1] == '\'' ==> r == after + Expand(tpl[2..], matched, before, after)
    ensures tpl != [] && (tpl[0] != '$' || |tpl| == 1 || (tpl[1] != '$' && tpl[1] != '&' && tpl[1] != '`' && tpl[1] != '\'')) ==>
      r == [tpl[0]] + Expand(tpl[1..], matched, before, after)
    decreases |tpl|
  {
    if tpl == [] then []
    else if tpl[0] == '$' && |tpl| >= 2 && tpl[1] == '$' then "$" + Expand(tpl[2..], matched, before, after)
    else if tpl[0] == '$' && |tpl| >= 2 && tpl[1] == '&' then matched + Expand(tpl[2..], matched, before, after)
    else if tpl[0] == '$' && |tpl| >= 2 && tpl[1] == '`' then before + Expand(tpl[2..], matched, before, after)
    else if tpl[0] == '$' && |tpl| >= 2 && tpl[1] == '\'' then after + Expand(tpl[2..], matched, before, after)
    else
      assert '$' !in tpl ==> '$' !in tpl[1..];
      [tpl[0]] + Expand(tpl[1..], matched, before, after)
  }

  /** `s.replace(t, v)` as written: the first occurrence, with `v` expanded. */
  function JsReplaceFirst(s: string, t: string, v: string): (r: string)
    ensures !Contains(s, t) ==> r == s
  {
    match IndexOf(s, t)
    case None => s
    case Some(i) => s[..i] + Expand(v, t, s[..i], s[i + |t|..]) + s[i + |t|..]
  }

  /**
   * `s.replace(/t/g, v)` as written, on the part `rest` of the string not
   * yet scanned, `before` being the part already scanned: the `$` patterns
   * of each replacement refer to the whole string.
   */
  function JsReplaceAllFrom(before: string, rest: string, t: string, v: string): (r: string)
    requires |t| > 0
    ensures !Contains(rest, t) ==> r == rest
    ensures '$' !in v ==> r == ReplaceAll(rest, t, v)
    decreases |rest|
  {
    match IndexOf(rest, t)
    case None => rest
    case Some(i) =>
      var after := rest[i + |t|..];
      var expanded := Expand(v, t, before + rest[..i], after);
      var tail := JsReplaceAllFrom(before + rest[..i + |t|], after, t, v);
      assert '$' !in v ==> expanded == v && tail == ReplaceAll(after, t, v);
      assert '$' !in v ==> ReplaceAll(rest, t, v) == rest[..i] + v + ReplaceAll(after, t, v);
      rest[..i] + expanded + tail
  }

  /** `s.replace(/t/g, v)` as written; without `$` in the value it is the literal global replace. */
  function JsReplaceAll(s: string, t: string, v: string): (r: string)
    requires |t| > 0
    ensures !Contains(s, t) ==> r == s
    ensures '$' !in v ==> r == ReplaceAll(s, t, v)
  {
    JsReplaceAllFrom("", s, t, v)
  }

  /**
   * A list of placeholder rules applied as the renderers' code does, with
   * JavaScript's `replace`; when no value holds `$` this is the literal
   * resolution the rest of the model uses.
   */
  function JsApplyRules(s: string, rules: seq<Rule>): (r: string)
    requires Usable(rules)
    ensures (forall i :: 0 <= i < |rules| ==> '$' !in rules[i].value) ==> r == ApplyRules(s, rules)
    decreases |rules|
  {
    if rules == [] then s
    else
      var rule := rules[0];
      var next := if rule.every then JsReplaceAll(s, rule.pattern, rule.value) else JsReplaceFirst(s, rule.pattern, rule.value);
      if '$' !in rule.value then
        JsReplaceFirstLiteral(s, rule.pattern, rule.value);
        JsApplyRules(next, rules[1..])
      else JsApplyRules(next, rules[1..])
  }

  /** Without `$` in the value, the first-occurrence replace is the literal one. */
  lemma {:induction false} JsReplaceFirstLiteral(s: string, t: string, v: string)
    requires '$' !in v
    ensures JsReplaceFirst(s, t, v) == ReplaceFirst(s, t, v)
  {
  }

  /**
   * A player named `$&` keeps the name token on the exported card: the
   * pattern `$&` stands for the matched text, so the token replaces itself.
   */
  lemma {:induction false} NameTokenReplacesItself()
    ensures JsReplaceFirst("{{player.name}}", "{{player.name}}", "$&") == "{{player.name}}"
    ensures ReplaceFirst("{{player.name}}", "{{player.name}}", "$&") == "$&"
  {
    var t := "{{player.name}}";
    IndexOfAfterPlain("", t, "");
    assert "" + t + "" == t;
    assert Expand("$&", t, "", "") == t + Expand("", t, "", "");
  }

  /** Career highlights reading `$$5M` are shown as `$5M`. */
  lemma {:induction false} HighlightsLoseADollar()
    ensures JsReplaceFirst("{{customFields.careerHighlights}}", "{{customFields.careerHighlights}}", "$$5M")
         == "$5M"
  {
    var t := "{{customFields.careerHighlights}}";
    IndexOfAfterPlain("", t, "");
    assert "" + t + "" == t;
    assert Expand("$$5M", t, "", "") == "$" + Expand("5M", t, "", "");
    assert Expand("5M", t, "", "") == "5M";
  }
}
