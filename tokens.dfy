/**
 * The seven `{{...}}` tokens a text element may hold, and the values both
 * renderers put in their place.
 */
module Tokens {
  import opened Strings
  import opened CardModel
  import opened Placeholders

  const NameToken: string := Token("player.name")
  const TeamToken: string := Token("player.team")
  const PositionToken: string := Token("player.position")
  const JerseyToken: string := Token("player.jerseyNumber")
  const YearToken: string := Token("player.year")
  const ThrowsToken: string := Token("player.throws")
  const HighlightsToken: string := Token("customFields.careerHighlights")

  /**
   * The tokens in the order they are tried, each with its value; the
   * jersey token is replaced at every occurrence when `jerseyEvery`, the
   * others at the first.
   */
  function TokenRules(d: CardData, jerseyEvery: bool): (rules: seq<Rule>)
    ensures |rules| == 7 && Usable(rules)
    ensures forall i :: 0 <= i < 7 ==> rules[i].every == (jerseyEvery && i == 3)
  {
    [ Rule(NameToken, d.player.name, false),
      Rule(TeamToken, d.player.team, false),
      Rule(PositionToken, d.player.position, false),
      Rule(JerseyToken, JerseyText(d.player), jerseyEvery),
      Rule(YearToken, YearText(d.player), false),
      Rule(ThrowsToken, ThrowsText(d.player), false),
      Rule(HighlightsToken, HighlightsText(d), false) ]
  }

  /** The rules one by one. */
  lemma {:induction false} TokenRulesAt(d: CardData, jerseyEvery: bool)
    ensures var rules := TokenRules(d, jerseyEvery);
      rules[0] == Rule(NameToken, d.player.name, false)
      && rules[1] == Rule(TeamToken, d.player.team, false)
      && rules[2] == Rule(PositionToken, d.player.position, false)
      && rules[3] == Rule(JerseyToken, JerseyText(d.player), jerseyEvery)
      && rules[4] == Rule(YearToken, YearText(d.player), false)
      && rules[5] == Rule(ThrowsToken, ThrowsText(d.player), false)
      && rules[6] == Rule(HighlightsToken, HighlightsText(d), false)
  {
  }

  lemma {:induction false} PlayerPathsPlain()
    ensures forall c :: c in "player.name" || c in "player.team" || c in "player.position" ==> c != '{' && c != '}'
  {
  }

  lemma {:induction false} OtherPathsPlain()
    ensures forall c :: c in "player.jerseyNumber" || c in "player.year" || c in "player.throws" ==> c != '{' && c != '}'
  {
  }

  lemma {:induction false} HighlightsPathPlain()
    ensures '{' !in "customFields.careerHighlights" && '}' !in "customFields.careerHighlights"
  {
  }

  /** The tokens, in order. */
  const Patterns: seq<string> :=
    [NameToken, TeamToken, PositionToken, JerseyToken, YearToken, ThrowsToken, HighlightsToken]

  lemma {:induction false} PatternsOfRules(d: CardData, jerseyEvery: bool)
    ensures forall i :: 0 <= i < 7 ==> TokenRules(d, jerseyEvery)[i].pattern == Patterns[i]
  {
  }

  lemma {:induction false} PatternsBraced()
    ensures forall i :: 0 <= i < |Patterns| ==> Braced(Patterns[i])
  {
    PlayerPathsPlain();
    OtherPathsPlain();
    HighlightsPathPlain();
    TokenBraced("player.name");
    TokenBraced("player.team");
    TokenBraced("player.position");
    TokenBraced("player.jerseyNumber");
    TokenBraced("player.year");
    TokenBraced("player.throws");
    TokenBraced("customFields.careerHighlights");
  }

  lemma {:induction false} PatternsDistinct()
    ensures forall i, j :: 0 <= i < j < |Patterns| ==> Patterns[i] != Patterns[j]
  {
    var paths := ["player.name", "player.team", "player.position", "player.jerseyNumber",
                  "player.year", "player.throws", "customFields.careerHighlights"];
    assert forall i :: 0 <= i < 7 ==> Patterns[i] == Token(paths[i]);
    assert forall i, j :: 0 <= i < j < 7 ==> paths[i] != paths[j];
  }

  /** The seven tokens are braced and pairwise distinct. */
  lemma {:induction false} TokensDistinct(d: CardData, jerseyEvery: bool)
    ensures DistinctTokens(TokenRules(d, jerseyEvery))
  {
    PatternsOfRules(d, jerseyEvery);
    PatternsBraced();
    PatternsDistinct();
  }

  /** No token occurs in a text without `{`. */
  lemma {:induction false} NoTokenWithoutBrace(s: string, d: CardData, jerseyEvery: bool)
    requires '{' !in s
    ensures forall i :: 0 <= i < 7 ==> !Contains(s, TokenRules(d, jerseyEvery)[i].pattern)
  {
    var rules := TokenRules(d, jerseyEvery);
    forall i | 0 <= i < 7 ensures !Contains(s, rules[i].pattern) {
      NotContainsWithoutFirstChar(s, rules[i].pattern);
    }
  }
}
