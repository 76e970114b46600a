/**
 * The rendering service's template engine: the same layouts and card data
 * as the preview, turned into the markup of the exported card. The markup's
 * text and styles are not modelled; each element becomes the drawing
 * decision the engine takes for it.
 */
module TemplateEngine {
  import opened Wrappers
  import opened Strings
  import opened CardModel
  import opened Placeholders
  import opened StatTable
  import opened Tokens
  import EngineAbbrev

  datatype Side = Front | Back

  // Placeholder text

  /** The engine replaces the first occurrence of every token, the jersey token included, and knows no sentinels. */
  function Rules(d: CardData): (rules: seq<Rule>)
    ensures |rules| == 7 && Usable(rules)
    ensures forall i :: 0 <= i < 7 ==> !rules[i].every
  {
    TokenRules(d, false)
  }

  /** The text a text element exports: every token replaced once, and a text without `{` left alone. */
  function TextOf(content: string, d: CardData): (r: string)
    ensures '{' !in content ==> r == content
  {
    if '{' !in content then
      NoTokenWithoutBrace(content, d, false);
      ApplyRulesUnchanged(content, Rules(d));
      ApplyRules(content, Rules(d))
    else ApplyRules(content, Rules(d))
  }

  /** `generateTextElement`'s chain of `if (content.includes(...)) content = content.replace(...)`. */
  method GenerateText(elementContent: string, d: CardData) returns (content: string)
    ensures content == TextOf(elementContent, d)
  {
    var s1 := ReplaceIfPresent(elementContent, NameToken, d.player.name, false);
    var s2 := ReplaceIfPresent(s1, TeamToken, d.player.team, false);
    var s3 := ReplaceIfPresent(s2, PositionToken, d.player.position, false);
    var s4 := ReplaceIfPresent(s3, JerseyToken, JerseyText(d.player), false);
    var s5 := ReplaceIfPresent(s4, YearToken, YearText(d.player), false);
    var s6 := ReplaceIfPresent(s5, ThrowsToken, ThrowsText(d.player), false);
    content := ReplaceIfPresent(s6, HighlightsToken, HighlightsText(d), false);
    TokenRulesAt(d, false);
    ApplyRulesSeven(elementContent, s1, s2, s3, s4, s5, s6, content, Rules(d));
  }

  /** A text holding one token and no other brace shows that token's value in its place. */
  lemma {:induction false} TokenSubstituted(a: string, b: string, d: CardData, k: nat)
    requires k < 7
    requires '{' !in a && '{' !in b && '{' !in Rules(d)[k].value
    ensures TextOf(a + Rules(d)[k].pattern + b, d) == a + Rules(d)[k].value + b
  {
    TokensDistinct(d, false);
    SubstituteOne(a, b, Rules(d), k);
  }

  /** Only the first of two jersey tokens is replaced; the second is exported as written. */
  lemma {:induction false} JerseyFirstOnly(a: string, m: string, b: string, d: CardData)
    requires '{' !in a && '{' !in m && '{' !in b && '{' !in JerseyText(d.player)
    ensures TextOf(a + JerseyToken + m + JerseyToken + b, d)
         == a + JerseyText(d.player) + m + JerseyToken + b
  {
    TokensDistinct(d, false);
    TokenRulesAt(d, false);
    SubstituteFirstOfTwo(a, m, b, Rules(d), 3);
  }

  // Elements

  /** `generateImageElement`'s source: the element's own unless empty or holding `{{`, else the card's, else the player's. */
  function ImageSrc(src: string, d: CardData): (r: string)
    ensures src != "" && !Contains(src, "{{") ==> r == src
    ensures (src == "" || Contains(src, "{{")) ==> r == OrString(d.imageUrl, d.player.imageUrl)
  {
    if src != "" && !Contains(src, "{{") then src else OrString(d.imageUrl, OrString(d.player.imageUrl, ""))
  }

  /** `generateStatElement`: nothing when the value is empty, the year included. */
  function StatText(statKey: string, name: string, format: string, d: CardData): (r: Option<string>)
    ensures r.None? <==> Missing(StatValueOf(d, statKey))
    ensures r.Some? ==> r.value == StatContent(statKey, name, format, StatValueOf(d, statKey))
    ensures statKey == "year" ==> (r.None? <==> d.player.year.None?)
  {
    var value := StatValueOf(d, statKey);
    if Missing(value) then None else Some(StatContent(statKey, name, format, value))
  }

  /** What one shown element becomes: None stands for the empty markup of an unknown type or an empty stat. */
  function GenerateElement(e: Element, d: CardData): (r: Option<Drawn>)
    ensures r.Some? ==> r.value.element == e && r.value.z == ZOf(e)
    ensures e.body.Unknown? ==> r.None?
    ensures e.body.Text? || e.body.Image? || e.body.Rectangle? ==> r.Some?
    ensures e.body.Text? ==> r.value.content == Words(TextOf(e.body.content, d))
    ensures e.body.Image? ==> r.value.content == Picture(ImageSrc(e.body.src, d))
    ensures e.body.Rectangle? ==> r.value.content == RectangleBox(e.body.fill, e.body.borderColor, e.body.borderWidth)
    ensures e.body.Stat? ==> (r.Some? <==> StatText(e.body.statKey, e.body.name, e.body.format, d).Some?)
    ensures e.body.Stat? && r.Some? ==> r.value.content == Words(StatText(e.body.statKey, e.body.name, e.body.format, d).value)
  {
    match e.body
    case Text(content) => Some(Drawn(e, ZOf(e), Words(TextOf(content, d))))
    case Image(src) => Some(Drawn(e, ZOf(e), Picture(ImageSrc(src, d))))
    case Stat(statKey, name, format) =>
      var s := StatText(statKey, name, format, d);
      if s.None? then None else Some(Drawn(e, ZOf(e), Words(s.value)))
    case Rectangle(fill, borderColor, borderWidth) => Some(Drawn(e, ZOf(e), RectangleBox(fill, borderColor, borderWidth)))
    case Unknown(_) => None
  }

  /** The elements whose `visible` is truthy, in order. */
  function ShownOnly(es: seq<Element>): (r: seq<Element>)
    ensures |r| <= |es|
    ensures forall i :: 0 <= i < |r| ==> Shown(r[i]) && r[i] in es
    ensures forall i :: 0 <= i < |es| && Shown(es[i]) ==> es[i] in r
    ensures |es| == 1 ==> r == (if Shown(es[0]) then es else [])
  {
    if es == [] then [] else (if Shown(es[0]) then [es[0]] else []) + ShownOnly(es[1..])
  }

  /** The filter keeps list order: the shown elements of a concatenation are those of each part, in turn. */
  lemma {:induction false} ShownOnlyAppend(a: seq<Element>, b: seq<Element>)
    ensures ShownOnly(a + b) == ShownOnly(a) + ShownOnly(b)
    decreases |a|
  {
    if a == [] {
      assert a + b == b;
    } else {
      assert (a + b)[0] == a[0];
      assert (a + b)[1..] == a[1..] + b;
      ShownOnlyAppend(a[1..], b);
    }
  }

  /** `elements.filter(el => el.visible).map(...)`: one entry per shown element. */
  function Items(es: seq<Element>, d: CardData): (r: seq<Option<Drawn>>)
    ensures |r| == |ShownOnly(es)|
    ensures forall i :: 0 <= i < |r| ==> r[i] == GenerateElement(ShownOnly(es)[i], d)
  {
    var shown := ShownOnly(es);
    seq(|shown|, i requires 0 <= i < |shown| => GenerateElement(shown[i], d))
  }

  // Cards

  /** `generateCardHTML`'s variant test: border fields, or the green background. */
  predicate Bordered(l: Layout)
  {
    l.borderWidth.Some? || l.innerPadding.Some? || l.backgroundColor == "#3f7f4f"
  }

  /** The bordered front: the photo without validation, name and position always shown. */
  function FramedFront(l: Layout, d: CardData): (f: Face<Option<Drawn>>)
    ensures f.Framed? && f.name.Some? && f.position.Some?
    ensures f.photo == OrString(d.imageUrl, PhotoSrc(FindPhoto(l.elements)))
    ensures d.player.name != "" ==> f.name == Some(d.player.name)
    ensures d.player.name == "" ==> f.name == Some("Player Name")
    ensures d.player.position != "" ==> f.position == Some(d.player.position)
    ensures d.player.position == "" ==> f.position == Some("POSITION")
  {
    Framed(OrNumber(l.borderWidth, 12.0), OrNumber(l.innerPadding, 6.0),
           OrString(l.backgroundColor, "#3f7f4f"), OrString(l.innerBackgroundColor, "#FFFFFF"),
           OrString(d.imageUrl, OrString(PhotoSrc(FindPhoto(l.elements)), "")),
           Some(OrString(d.player.name, "Player Name")), Some(OrString(d.player.position, "POSITION")))
  }

  /** The background: the layout's own, or when it has none the side's card image. */
  function Background(l: Layout, side: Side, d: CardData): (s: string)
    ensures l.backgroundImage != "" ==> s == l.backgroundImage
    ensures l.backgroundImage == "" && side == Front ==> s == d.imageUrl
    ensures l.backgroundImage == "" && side == Back ==> s == d.backImageUrl
  {
    if l.backgroundImage != "" then l.backgroundImage
    else if side == Front then d.imageUrl
    else d.backImageUrl
  }

  /** What `generateCardHTML` produces for one side. */
  function GenerateCard(l: Layout, side: Side, d: CardData): (f: Face<Option<Drawn>>)
    ensures f.Framed? <==> Bordered(l) && side == Front
    ensures f.Framed? ==> f == FramedFront(l, d)
    ensures f.Plain? ==> f.backgroundImage == Background(l, side, d) && f.backgroundColor == OrString(l.backgroundColor, "#FFFFFF")
    ensures f.Plain? ==> f.items == Items(
      if Bordered(l) && side == Back then WithStatTable(l.elements, d, EngineAbbrev.Entries) else l.elements, d)
  {
    if Bordered(l) && side == Front then FramedFront(l, d)
    else
      var es := if Bordered(l) && side == Back then WithStatTable(l.elements, d, EngineAbbrev.Entries) else l.elements;
      Plain(OrString(l.backgroundColor, "#FFFFFF"), Background(l, side, d), Items(es, d))
  }

  /** `generateCardHTML` statement by statement. */
  method GenerateCardSide(l: Layout, side: Side, d: CardData) returns (face: Face<Option<Drawn>>)
    ensures face == GenerateCard(l, side, d)
  {
    var isBordered := l.borderWidth.Some? || l.innerPadding.Some? || l.backgroundColor == "#3f7f4f";
    if isBordered && side == Front {
      return FramedFront(l, d);
    }
    var elementsList := l.elements;
    if isBordered && side == Back {
      elementsList := AddStatTable(elementsList, d, EngineAbbrev.Entries);
    }
    var elements := Items(elementsList, d);
    var backgroundImage := l.backgroundImage;
    if side == Front && backgroundImage == "" && d.imageUrl != "" {
      backgroundImage := d.imageUrl;
    }
    if side == Back && backgroundImage == "" && d.backImageUrl != "" {
      backgroundImage := d.backImageUrl;
    }
    face := Plain(OrString(l.backgroundColor, "#FFFFFF"), backgroundImage, elements);
  }

  /** `generateHTML`: both sides of the template. */
  function GenerateHTML(front: Layout, back: Layout, d: CardData): (r: (Face<Option<Drawn>>, Face<Option<Drawn>>))
    ensures r.0.Framed? <==> Bordered(front)
    ensures r.1.Plain? && r.1.items == GenerateCard(back, Back, d).items
    ensures r.0 == GenerateCard(front, Front, d) && r.1 == GenerateCard(back, Back, d)
  {
    (GenerateCard(front, Front, d), GenerateCard(back, Back, d))
  }

  // Properties of the engine

  /** An image element is always exported, even with an empty source. */
  lemma {:induction false} ImagesAlwaysExported(e: Element, d: CardData)
    requires e.body.Image?
    ensures GenerateElement(e, d).Some? && GenerateElement(e, d).value.content.Picture?
  {
  }

  /** A year stat of a player without a year is left out. */
  lemma {:induction false} MissingYearNotExported(e: Element, d: CardData)
    requires e.body.Stat? && e.body.statKey == "year" && d.player.year.None?
    ensures GenerateElement(e, d).None?
  {
  }

  /** The bordered back carries the table whenever a stat has a value. */
  lemma {:induction false} GreenBackGetsTable(l: Layout, d: CardData)
    requires l.backgroundColor == "#3f7f4f"
    ensures GenerateCard(l, Back, d).Plain?
    ensures GenerateCard(l, Back, d).items == Items(WithStatTable(l.elements, d, EngineAbbrev.Entries), d)
  {
  }
}
