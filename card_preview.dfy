/**
 * The live preview of a card (`CardPreview`): how a template's two layouts
 * and the card data become what the builder page shows.
 */
module CardPreview {
  import opened Wrappers
  import opened Strings
  import opened CardModel
  import opened Placeholders
  import opened StatTable
  import opened Tokens
  import StatsCalculator

  /** A template's `frontJson`/`backJson`: missing, an object, or JSON text with what `JSON.parse` makes of it. */
  datatype LayoutJson = Absent | Object(layout: Layout) | JsonText(parsed: Option<Layout>)

  datatype Template = Template(id: string, name: string, frontJson: LayoutJson, backJson: LayoutJson)

  datatype Side = Front | Back

  /**
   * The layout a side is drawn from. Text that fails to parse falls back to
   * `template.frontJson || {}`, a string or `{}`, neither of which defines a
   * layout field.
   */
  function ParseLayout(j: LayoutJson): (l: Layout)
    ensures j.Object? ==> l == j.layout
    ensures j.JsonText? && j.parsed.Some? ==> l == j.parsed.value
    ensures j.Absent? || (j.JsonText? && j.parsed.None?) ==> l == EmptyLayout
  {
    match j
    case Absent => EmptyLayout
    case Object(l) => l
    case JsonText(None) => EmptyLayout
    case JsonText(Some(l)) => l
  }

  // Placeholder text

  const TeamPositionSentinel: string := "Team \U{2022} Position"

  /** The value the "Team • Position" sentinel becomes. */
  function TeamPosition(p: Player): (s: string)
    ensures p.team != "" && p.position != "" ==> s == p.team + " \U{2022} " + p.position
    ensures p.team != "" && p.position == "" ==> s == p.team
    ensures p.team == "" && p.position != "" ==> s == p.position
    ensures p.team == "" && p.position == "" ==> s == TeamPositionSentinel
  {
    if p.team != "" && p.position != "" then p.team + " \U{2022} " + p.position
    else OrString(p.team, OrString(p.position, TeamPositionSentinel))
  }

  /** The two legacy sentinels, tried after the tokens. */
  function SentinelRules(d: CardData): (rules: seq<Rule>)
    ensures |rules| == 2 && Usable(rules)
  {
    [ Rule("Player Name", OrString(d.player.name, "Player Name"), false),
      Rule(TeamPositionSentinel, TeamPosition(d.player), false) ]
  }

  /** The preview replaces every jersey token, then the sentinels. */
  function Rules(d: CardData): (rules: seq<Rule>)
    ensures |rules| == 9 && Usable(rules)
  {
    TokenRules(d, true) + SentinelRules(d)
  }

  /**
   * The text a text element shows: the tokens are resolved first, then the
   * sentinels; a text with neither is left alone.
   */
  function TextOf(content: string, d: CardData): (r: string)
    ensures r == ApplyRules(ApplyRules(content, TokenRules(d, true)), SentinelRules(d))
    ensures '{' !in content && !Contains(content, "Player Name") && !Contains(content, TeamPositionSentinel) ==> r == content
  {
    ApplyRulesAppend(content, TokenRules(d, true), SentinelRules(d));
    if '{' !in content && !Contains(content, "Player Name") && !Contains(content, TeamPositionSentinel) then
      NoTokenWithoutBrace(content, d, true);
      ApplyRulesUnchanged(content, TokenRules(d, true));
      NoSentinelUnchanged(content, d);
      ApplyRules(content, Rules(d))
    else ApplyRules(content, Rules(d))
  }

  /** `renderTextElement`'s chain of `if (content.includes(...)) content = content.replace(...)`. */
  method ResolveText(elementContent: string, d: CardData) returns (content: string)
    ensures content == TextOf(elementContent, d)
  {
    content := ResolveTokens(elementContent, d);
    ApplyRulesAppend(elementContent, TokenRules(d, true), SentinelRules(d));
    content := ResolveSentinels(content, d);
  }

  /** The seven tokens; the jersey token through a global regular expression. */
  method ResolveTokens(elementContent: string, d: CardData) returns (content: string)
    ensures content == ApplyRules(elementContent, TokenRules(d, true))
  {
    var s1 := ReplaceIfPresent(elementContent, NameToken, d.player.name, false);
    var s2 := ReplaceIfPresent(s1, TeamToken, d.player.team, false);
    var s3 := ReplaceIfPresent(s2, PositionToken, d.player.position, false);
    var jerseyNum := JerseyText(d.player);
    var s4 := ReplaceIfPresent(s3, JerseyToken, jerseyNum, true);
    var s5 := ReplaceIfPresent(s4, YearToken, YearText(d.player), false);
    var s6 := ReplaceIfPresent(s5, ThrowsToken, ThrowsText(d.player), false);
    content := ReplaceIfPresent(s6, HighlightsToken, HighlightsText(d), false);
    TokenRulesAt(d, true);
    ApplyRulesSeven(elementContent, s1, s2, s3, s4, s5, s6, content, TokenRules(d, true));
  }

  /** The two sentinels. */
  method ResolveSentinels(text: string, d: CardData) returns (content: string)
    ensures content == ApplyRules(text, SentinelRules(d))
  {
    var s1 := ReplaceIfPresent(text, "Player Name", OrString(d.player.name, "Player Name"), false);
    var team := d.player.team;
    var position := d.player.position;
    var teamPosition := if team != "" && position != "" then team + " \U{2022} " + position
      else OrString(team, OrString(position, TeamPositionSentinel));
    content := ReplaceIfPresent(s1, TeamPositionSentinel, teamPosition, false);
    ApplyRulesPair(text, SentinelRules(d));
  }

  /** Text without sentinels passes the sentinel rules unchanged. */
  lemma {:induction false} NoSentinelUnchanged(t: string, d: CardData)
    requires !Contains(t, "Player Name") && !Contains(t, TeamPositionSentinel)
    ensures ApplyRules(t, SentinelRules(d)) == t
  {
    ApplyRulesUnchanged(t, SentinelRules(d));
  }

  /**
   * A text holding one token and no other brace shows that token's value in
   * its place, provided the result does not spell a sentinel.
   */
  lemma {:induction false} TokenSubstituted(a: string, b: string, d: CardData, k: nat)
    requires k < 7
    requires '{' !in a && '{' !in b && '{' !in TokenRules(d, true)[k].value
    requires !Contains(a + TokenRules(d, true)[k].value + b, "Player Name")
    requires !Contains(a + TokenRules(d, true)[k].value + b, TeamPositionSentinel)
    ensures TextOf(a + TokenRules(d, true)[k].pattern + b, d) == a + TokenRules(d, true)[k].value + b
  {
    var tokens := TokenRules(d, true);
    TokensDistinct(d, true);
    SubstituteOne(a, b, tokens, k);
    ApplyRulesAppend(a + tokens[k].pattern + b, tokens, SentinelRules(d));
    NoSentinelUnchanged(a + tokens[k].value + b, d);
  }

  /** Every jersey token is replaced: two of them both show the number. */
  lemma {:induction false} JerseyEveryOccurrence(a: string, m: string, b: string, d: CardData)
    requires '{' !in a && '{' !in m && '{' !in b && '{' !in JerseyText(d.player)
    requires !Contains(a + JerseyText(d.player) + m + JerseyText(d.player) + b, "Player Name")
    requires !Contains(a + JerseyText(d.player) + m + JerseyText(d.player) + b, TeamPositionSentinel)
    ensures TextOf(a + JerseyToken + m + JerseyToken + b, d)
         == a + JerseyText(d.player) + m + JerseyText(d.player) + b
  {
    var v := JerseyText(d.player);
    var tokens := TokenRules(d, true);
    var s := a + JerseyToken + m + JerseyToken + b;
    var t := a + v + m + v + b;
    TokensDistinct(d, true);
    TokenRulesAt(d, true);
    SubstituteEvery(a, m, b, tokens, 3);
    assert ApplyRules(s, tokens) == t;
    ApplyRulesAppend(s, tokens, SentinelRules(d));
    NoSentinelUnchanged(t, d);
  }

  /** "Player Name" becomes the player's name, and stays when there is none. */
  lemma {:induction false} PlayerNameSentinel(d: CardData)
    requires !Contains(OrString(d.player.name, "Player Name"), TeamPositionSentinel)
    ensures d.player.name != "" ==> TextOf("Player Name", d) == d.player.name
    ensures d.player.name == "" ==> TextOf("Player Name", d) == "Player Name"
  {
    var s := "Player Name";
    var v := OrString(d.player.name, "Player Name");
    var sentinels := SentinelRules(d);
    SentinelsPlain();
    NoTokenWithoutBrace(s, d, true);
    ApplyRulesUnchanged(s, TokenRules(d, true));
    ApplyRulesAppend(s, TokenRules(d, true), sentinels);
    ReplaceFirstWhole(s, v);
    ApplyRulesPair(s, sentinels);
  }

  /** "Team • Position" becomes "team • position", or whichever is present, or stays. */
  lemma {:induction false} TeamPositionSentinelResolved(d: CardData)
    ensures TextOf(TeamPositionSentinel, d) == TeamPosition(d.player)
  {
    var s := TeamPositionSentinel;
    var sentinels := SentinelRules(d);
    SentinelsPlain();
    NoTokenWithoutBrace(s, d, true);
    ApplyRulesUnchanged(s, TokenRules(d, true));
    ApplyRulesAppend(s, TokenRules(d, true), sentinels);
    ReplaceFirstWhole(s, TeamPosition(d.player));
    ApplyRulesPair(s, sentinels);
  }

  /** Neither sentinel holds a brace, and the second does not contain the first. */
  lemma {:induction false} SentinelsPlain()
    ensures '{' !in "Player Name" && '{' !in TeamPositionSentinel
    ensures !Contains(TeamPositionSentinel, "Player Name")
  {
    SentinelsBraceless();
    NotContainsWithoutChar(TeamPositionSentinel, "Player Name", 1);
  }

  lemma {:induction false} SentinelsBraceless()
    ensures '{' !in "Player Name" && '{' !in TeamPositionSentinel
  {
  }

  // Images

  /** A source the preview accepts: after trimming, it starts with `http://`, `https://`, `data:` or `/`. */
  predicate ValidUrl(u: string)
  {
    StartsWith(u, "http://") || StartsWith(u, "https://") || StartsWith(u, "data:") || StartsWith(u, "/")
  }

  /** A non-empty candidate, trimmed, if it is accepted. */
  function Accept(candidate: string): (r: Option<string>)
    ensures r.Some? ==> candidate != "" && r.value == Trim(candidate) && ValidUrl(r.value)
    ensures r.None? ==> candidate == "" || !ValidUrl(Trim(candidate))
  {
    if candidate != "" && ValidUrl(Trim(candidate)) then Some(Trim(candidate)) else None
  }

  /**
   * The source an image element shows: its own `src` unless empty, holding
   * `{{` or rejected, else the card's image URL if accepted, else nothing.
   */
  function ImageSource(src: string, imageUrl: string): (r: Option<string>)
    ensures r.Some? ==> ValidUrl(r.value)
    ensures !Contains(src, "{{") && Accept(src).Some? ==> r == Accept(src)
    ensures (Contains(src, "{{") || Accept(src).None?) ==> r == Accept(imageUrl)
  {
    if !Contains(src, "{{") && Accept(src).Some? then Accept(src) else Accept(imageUrl)
  }

  /** A valid source is never empty. */
  lemma {:induction false} ValidUrlNonEmpty(u: string)
    ensures ValidUrl(u) ==> u != ""
  {
  }

  /** `const url = candidate.trim(); if (<valid>) src = url`, starting from `src = ''`. */
  method TrimmedIfValid(candidate: string) returns (src: string)
    requires candidate != ""
    ensures src == Accept(candidate).UnwrapOr("")
  {
    src := "";
    var url := Trim(candidate);
    if ValidUrl(url) {
      src := url;
    }
  }

  /** `renderImageElement`'s reassignments of `src`. */
  method ChooseImageSource(elementSrc: string, imageUrl: string) returns (src: string)
    ensures src == ImageSource(elementSrc, imageUrl).UnwrapOr("")
  {
    src := "";
    if elementSrc != "" && !Contains(elementSrc, "{{") {
      src := TrimmedIfValid(elementSrc);
    }
    if src == "" && imageUrl != "" {
      src := TrimmedIfValid(imageUrl);
    }
    ValidUrlNonEmpty(Trim(elementSrc));
  }

  // Stats

  /** `renderStatElement`: the content shown, or nothing when the value is empty and the key is not `year`. */
  function StatText(statKey: string, name: string, format: string, d: CardData): (r: Option<string>)
    ensures statKey == "year" ==> r == Some(StatContent(statKey, name, format, YearValue(d.player)))
    ensures statKey != "year" ==> (r.None? <==> Missing(Lookup(d.stats, statKey)))
    ensures statKey != "year" && r.Some? ==> r.value == StatContent(statKey, name, format, Lookup(d.stats, statKey))
  {
    var value := StatValueOf(d, statKey);
    var content := StatContent(statKey, name, format, value);
    if Missing(value) && statKey != "year" then None else Some(content)
  }

  // Elements and cards

  /** The check `renderImageElement` makes before drawing, from the raw template. */
  predicate ImageCheck(t: Template)
  {
    (t.frontJson.Object? && (t.frontJson.layout.borderWidth.Some? || t.frontJson.layout.innerPadding.Some?))
    || Contains(Lower(t.name), "donruss") || Contains(t.id, "donruss")
  }

  /** `renderElement`: nothing for a falsy `visible`, else the element's own renderer. */
  function RenderElement(e: Element, side: Side, t: Template, d: CardData): (r: Option<Drawn>)
    ensures !Shown(e) ==> r.None?
    ensures r.Some? ==> r.value.element == e && r.value.z == ZOf(e)
    ensures e.body.Unknown? ==> r.None?
    ensures Shown(e) && e.body.Text? ==> r == Some(Drawn(e, ZOf(e), Words(TextOf(e.body.content, d))))
    ensures Shown(e) && e.body.Stat? ==>
      (r.Some? <==> StatText(e.body.statKey, e.body.name, e.body.format, d).Some?)
    ensures Shown(e) && e.body.Stat? && r.Some? ==>
      r.value.content == Words(StatText(e.body.statKey, e.body.name, e.body.format, d).value)
    ensures e.body.Image? && ImageCheck(t) && side == Front ==> r.None?
    ensures Shown(e) && e.body.Image? && !(ImageCheck(t) && side == Front) ==>
      (r.None? <==> ImageSource(e.body.src, d.imageUrl).None?)
    ensures Shown(e) && e.body.Image? && r.Some? ==> r.value.content == Picture(ImageSource(e.body.src, d.imageUrl).value)
    ensures Shown(e) && e.body.Rectangle? ==>
      r == Some(Drawn(e, ZOf(e), RectangleBox(e.body.fill, e.body.borderColor, e.body.borderWidth)))
  {
    if !Shown(e) then None
    else match e.body
      case Text(content) => Some(Drawn(e, ZOf(e), Words(TextOf(content, d))))
      case Image(src) =>
        if ImageCheck(t) && side == Front then None
        else
          var s := ImageSource(src, d.imageUrl);
          if s.None? then None else Some(Drawn(e, ZOf(e), Picture(s.value)))
      case Stat(statKey, name, format) =>
        var s := StatText(statKey, name, format, d);
        if s.None? then None else Some(Drawn(e, ZOf(e), Words(s.value)))
      case Rectangle(fill, borderColor, borderWidth) => Some(Drawn(e, ZOf(e), RectangleBox(fill, borderColor, borderWidth)))
      case Unknown(_) => None
  }

  /** `elements.filter(el => el.visible !== false).map(renderElement).filter(el => el !== null)`. */
  function RenderAll(es: seq<Element>, side: Side, t: Template, d: CardData): (r: seq<Drawn>)
    ensures |r| <= |es|
    ensures forall i :: 0 <= i < |r| ==> Shown(r[i].element) && r[i].element in es
  {
    if es == [] then []
    else
      var first := if es[0].visible != Some(false) then RenderElement(es[0], side, t, d) else None;
      (if first.Some? then [first.value] else []) + RenderAll(es[1..], side, t, d)
  }

  /**
   * The `visible !== false` pre-filter adds nothing to `renderElement`'s own
   * test: one element renders to exactly what `renderElement` gives it.
   */
  lemma {:induction false} RenderAllOne(e: Element, side: Side, t: Template, d: CardData)
    ensures RenderAll([e], side, t, d)
         == (if RenderElement(e, side, t, d).Some? then [RenderElement(e, side, t, d).value] else [])
  {
    assert [e][1..] == [];
  }

  /** Rendering a list renders its parts in order: nothing is dropped, added or moved. */
  lemma {:induction false} RenderAllAppend(a: seq<Element>, b: seq<Element>, side: Side, t: Template, d: CardData)
    ensures RenderAll(a + b, side, t, d) == RenderAll(a, side, t, d) + RenderAll(b, side, t, d)
    decreases |a|
  {
    if a == [] {
      assert a + b == b;
    } else {
      assert (a + b)[0] == a[0];
      assert (a + b)[1..] == a[1..] + b;
      RenderAllAppend(a[1..], b, side, t, d);
    }
  }

  /** `renderCard`'s variant test. */
  predicate Bordered(l: Layout, t: Template)
  {
    l.borderWidth.Some? || l.innerPadding.Some? || Contains(Lower(t.name), "donruss")
    || Contains(t.id, "donruss") || t.id == "donruss-1991-style"
  }

  /** The photo of the bordered front: the card's image URL, else the photo element's `src`, each only if accepted. */
  function FramedPhoto(imageUrl: string, photoSrc: string): (s: string)
    ensures s != "" ==> ValidUrl(s) && (s == Trim(imageUrl) || s == Trim(photoSrc))
    ensures Accept(imageUrl).Some? ==> s == Accept(imageUrl).value
  {
    match Accept(imageUrl)
    case Some(u) => u
    case None => match Accept(photoSrc) case Some(u) => u case None => ""
  }

  /** The bordered front: name and position are shown only when the layout has those elements. */
  function FramedFront(l: Layout, d: CardData): (f: Face<Drawn>)
    ensures f.Framed? && f.photo == FramedPhoto(d.imageUrl, PhotoSrc(FindPhoto(l.elements)))
    ensures f.name.Some? <==> FindId(l.elements, "player-name").Some?
    ensures f.position.Some? <==> FindId(l.elements, "player-position").Some?
    ensures f.name.Some? ==> f.name.value != ""
    ensures f.position.Some? ==> f.position.value != ""
    ensures f.name.Some? ==> f.name.value == (if d.player.name != "" then d.player.name else "Player Name")
    ensures f.position.Some? ==> f.position.value == (if d.player.position != "" then d.player.position else "POSITION")
  {
    Framed(OrNumber(l.borderWidth, 12.0), OrNumber(l.innerPadding, 6.0),
           OrString(l.backgroundColor, "#3f7f4f"), OrString(l.innerBackgroundColor, "#FFFFFF"),
           FramedPhoto(d.imageUrl, PhotoSrc(FindPhoto(l.elements))),
           if FindId(l.elements, "player-name").Some? then Some(OrString(d.player.name, "Player Name")) else None,
           if FindId(l.elements, "player-position").Some? then Some(OrString(d.player.position, "POSITION")) else None)
  }

  /** The background image: the layout's, replaced by the side's card image when that is accepted. */
  function Background(l: Layout, side: Side, d: CardData): (s: string)
    ensures side == Front ==> s == Accept(d.imageUrl).UnwrapOr(l.backgroundImage)
    ensures side == Back ==> s == Accept(d.backImageUrl).UnwrapOr(l.backgroundImage)
  {
    match side
    case Front => Accept(d.imageUrl).UnwrapOr(l.backgroundImage)
    case Back => Accept(d.backImageUrl).UnwrapOr(l.backgroundImage)
  }

  /** What `renderCard` draws for one side. */
  function RenderCard(l: Layout, side: Side, t: Template, d: CardData): (f: Face<Drawn>)
    ensures f.Framed? <==> Bordered(l, t) && side == Front
    ensures f.Plain? ==> f.backgroundImage == Background(l, side, d) && f.backgroundColor == OrString(l.backgroundColor, "#FFFFFF")
    ensures f.Framed? ==> f == FramedFront(l, d)
    ensures f.Plain? ==> f.items == RenderAll(
      if Bordered(l, t) && side == Back then WithStatTable(l.elements, d, StatsCalculator.FrontendTable) else l.elements,
      side, t, d)
  {
    var bordered := Bordered(l, t);
    if bordered && side == Front then FramedFront(l, d)
    else
      var filtered := if bordered && side == Front
        then Filter(l.elements, (e: Element) => !e.body.Image? || e.id != "player-photo")
        else l.elements;
      var es := if bordered && side == Back then WithStatTable(filtered, d, StatsCalculator.FrontendTable) else filtered;
      Plain(OrString(l.backgroundColor, "#FFFFFF"), Background(l, side, d), RenderAll(es, side, t, d))
  }

  function Filter(es: seq<Element>, keep: Element -> bool): (r: seq<Element>)
    ensures |r| <= |es|
  {
    if es == [] then [] else (if keep(es[0]) then [es[0]] else []) + Filter(es[1..], keep)
  }

  /** The bordered front's photo source, reassigned as `renderCard` does. */
  method ChoosePhoto(imageUrl: string, photoElement: Option<Element>) returns (photoSrc: string)
    ensures photoSrc == FramedPhoto(imageUrl, PhotoSrc(photoElement))
  {
    photoSrc := "";
    if imageUrl != "" {
      photoSrc := TrimmedIfValid(imageUrl);
    }
    if photoSrc == "" && PhotoSrc(photoElement) != "" {
      photoSrc := TrimmedIfValid(PhotoSrc(photoElement));
    }
    ValidUrlNonEmpty(Trim(imageUrl));
  }

  /** `let backgroundImage = layout.backgroundImage`, replaced by the side's trimmed card image when valid. */
  method ChooseBackground(l: Layout, side: Side, d: CardData) returns (backgroundImage: string)
    ensures backgroundImage == Background(l, side, d)
  {
    backgroundImage := l.backgroundImage;
    var candidate := if side == Front then d.imageUrl else d.backImageUrl;
    if candidate != "" {
      var url := TrimmedIfValid(candidate);
      if url != "" {
        backgroundImage := url;
      }
    }
    ValidUrlNonEmpty(Trim(candidate));
  }

  /** `renderCard` statement by statement. */
  method RenderSide(l: Layout, side: Side, t: Template, d: CardData) returns (face: Face<Drawn>)
    ensures face == RenderCard(l, side, t, d)
  {
    var isBordered := l.borderWidth.Some? || l.innerPadding.Some? || Contains(Lower(t.name), "donruss")
      || Contains(t.id, "donruss") || t.id == "donruss-1991-style";
    assert isBordered == Bordered(l, t);
    if isBordered && side == Front {
      face := RenderFramed(l, d);
    } else {
      face := RenderPlain(l, side, t, d, isBordered);
    }
  }

  /** The bordered front. */
  method RenderFramed(l: Layout, d: CardData) returns (face: Face<Drawn>)
    ensures face == FramedFront(l, d)
  {
    var photoSrc := ChoosePhoto(d.imageUrl, FindPhoto(l.elements));
    var nameElement := FindId(l.elements, "player-name");
    var positionElement := FindId(l.elements, "player-position");
    face := Framed(OrNumber(l.borderWidth, 12.0), OrNumber(l.innerPadding, 6.0),
      OrString(l.backgroundColor, "#3f7f4f"), OrString(l.innerBackgroundColor, "#FFFFFF"), photoSrc,
      if nameElement.Some? then Some(OrString(d.player.name, "Player Name")) else None,
      if positionElement.Some? then Some(OrString(d.player.position, "POSITION")) else None);
  }

  /** Every other side: the elements, with the stats table on a bordered back, and the background. */
  method RenderPlain(l: Layout, side: Side, t: Template, d: CardData, isBordered: bool) returns (face: Face<Drawn>)
    requires isBordered == Bordered(l, t) && !(isBordered && side == Front)
    ensures face == RenderCard(l, side, t, d)
  {
    // The filter of front images applies only to a bordered front, which never gets here.
    var filteredElements := l.elements;
    if isBordered && side == Back {
      filteredElements := AddStatTable(filteredElements, d, StatsCalculator.FrontendTable);
    }
    var elements := RenderAll(filteredElements, side, t, d);
    var backgroundImage := ChooseBackground(l, side, d);
    face := Plain(OrString(l.backgroundColor, "#FFFFFF"), backgroundImage, elements);
  }

  /** The whole preview: a placeholder without a template, else both sides. */
  datatype View = SelectTemplate | Sides(front: Face<Drawn>, back: Face<Drawn>)

  function Preview(template: Option<Template>, d: CardData): (v: View)
    ensures template.None? <==> v.SelectTemplate?
    ensures v.Sides? ==> v.back.Plain?
    ensures template.Some? ==>
      v == Sides(RenderCard(ParseLayout(template.value.frontJson), Front, template.value, d),
                 RenderCard(ParseLayout(template.value.backJson), Back, template.value, d))
  {
    match template
    case None => SelectTemplate
    case Some(t) => Sides(RenderCard(ParseLayout(t.frontJson), Front, t, d),
                          RenderCard(ParseLayout(t.backJson), Back, t, d))
  }

  // Properties of the preview

  /** The `id === 'donruss-1991-style'` test adds nothing to the id test before it. */
  lemma {:induction false} DonrussIdTestRedundant(l: Layout, t: Template)
    ensures Bordered(l, t) <==>
      (l.borderWidth.Some? || l.innerPadding.Some? || Contains(Lower(t.name), "donruss") || Contains(t.id, "donruss"))
  {
    if t.id == "donruss-1991-style" {
      IndexOfAfterPlain("", "donruss", "-1991-style");
      assert "" + "donruss" + "-1991-style" == t.id;
    }
  }

  /**
   * `renderImageElement`'s own bordered check never hides an image: whenever
   * it holds, the preview's front has taken the bordered branch, which draws
   * no element.
   */
  lemma {:induction false} ImageCheckUnreachable(t: Template, d: CardData)
    ensures ImageCheck(t) ==> Preview(Some(t), d).front.Framed?
  {
  }

  /** In the same way the filter of front images on a bordered card never runs. */
  lemma {:induction false} FrontFilterUnreachable(l: Layout, t: Template, d: CardData)
    ensures RenderCard(l, Front, t, d).Plain? ==> !Bordered(l, t)
  {
  }

  /** A `year` stat is shown even with no year, reading "undefined". */
  lemma {:induction false} YearNeverSuppressed(name: string, format: string, d: CardData)
    requires d.player.year.None? && format == "value-only"
    ensures StatText("year", name, format, d) == Some("undefined")
  {
  }

  /** A stat element whose value is missing draws nothing. */
  lemma {:induction false} MissingStatNotDrawn(e: Element, side: Side, t: Template, d: CardData)
    requires e.body.Stat? && e.body.statKey != "year" && Missing(Lookup(d.stats, e.body.statKey))
    ensures RenderElement(e, side, t, d).None?
  {
  }
}
