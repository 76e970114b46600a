/**
 * The preview and the rendering service resolve the same layouts with two
 * copies of one pipeline. These lemmas state where the copies agree and
 * exhibit, for each place where they do not, the inputs on which the
 * preview and the exported card differ.
 */
module Agreement {
  import opened Wrappers
  import opened Strings
  import opened CardModel
  import opened Placeholders
  import opened Tokens
  import opened AbbrevLookup
  import opened StatTable
  import P = CardPreview
  import E = TemplateEngine
  import EngineAbbrev
  import StatsCalculator
  import JsReplace

  // Visibility

  /** An element whose `visible` is not truthy is drawn by neither renderer. */
  lemma {:induction false} HiddenDrawnByNeither(e: Element, side: P.Side, t: P.Template, d: CardData)
    requires !Shown(e)
    ensures P.RenderAll([e], side, t, d) == []
    ensures E.Items([e], d) == []
  {
    assert [e][1..] == [];
  }

  // Text

  /** A text holding a single token, the jersey token included, reads the same on both cards. */
  lemma {:induction false} SingleTokenAgrees(a: string, b: string, d: CardData, k: nat)
    requires k < 7
    requires '{' !in a && '{' !in b && '{' !in TokenRules(d, false)[k].value
    requires !Contains(a + TokenRules(d, false)[k].value + b, "Player Name")
    requires !Contains(a + TokenRules(d, false)[k].value + b, P.TeamPositionSentinel)
    ensures P.TextOf(a + Patterns[k] + b, d) == E.TextOf(a + Patterns[k] + b, d)
    ensures E.TextOf(a + Patterns[k] + b, d) == a + TokenRules(d, false)[k].value + b
  {
    TokenRulesAt(d, true);
    TokenRulesAt(d, false);
    PatternsOfRules(d, true);
    PatternsOfRules(d, false);
    P.TokenSubstituted(a, b, d, k);
    E.TokenSubstituted(a, b, d, k);
  }

  /**
   * Two jersey tokens: the preview shows the number twice, the exported card
   * shows it once and keeps the second token as written.
   */
  lemma {:induction false} JerseyDiverges(a: string, m: string, b: string, d: CardData)
    requires '{' !in a && '{' !in m && '{' !in b && '{' !in JerseyText(d.player)
    requires !Contains(a + JerseyText(d.player) + m + JerseyText(d.player) + b, "Player Name")
    requires !Contains(a + JerseyText(d.player) + m + JerseyText(d.player) + b, P.TeamPositionSentinel)
    ensures P.TextOf(a + JerseyToken + m + JerseyToken + b, d) == a + JerseyText(d.player) + m + JerseyText(d.player) + b
    ensures E.TextOf(a + JerseyToken + m + JerseyToken + b, d) == a + JerseyText(d.player) + m + JerseyToken + b
    ensures P.TextOf(a + JerseyToken + m + JerseyToken + b, d) != E.TextOf(a + JerseyToken + m + JerseyToken + b, d)
  {
    P.JerseyEveryOccurrence(a, m, b, d);
    E.JerseyFirstOnly(a, m, b, d);
    var v := JerseyText(d.player);
    var exported := a + v + m + JerseyToken + b;
    assert exported[|a + v + m|] == JerseyToken[0] == '{';
    assert '{' !in a + v + m + v + b;
  }

  /** The legacy sentinels are resolved by the preview only; the exported card shows them as written. */
  lemma {:induction false} SentinelsOnlyInPreview(d: CardData)
    ensures P.TextOf(P.TeamPositionSentinel, d) == P.TeamPosition(d.player)
    ensures E.TextOf(P.TeamPositionSentinel, d) == P.TeamPositionSentinel
    ensures E.TextOf("Player Name", d) == "Player Name"
  {
    P.TeamPositionSentinelResolved(d);
    P.SentinelsPlain();
    NoTokenWithoutBrace(P.TeamPositionSentinel, d, false);
    ApplyRulesUnchanged(P.TeamPositionSentinel, E.Rules(d));
    NoTokenWithoutBrace("Player Name", d, false);
    ApplyRulesUnchanged("Player Name", E.Rules(d));
  }

  // Stats

  /** The two stat resolvers agree on every element except a `year` stat of a player without a year. */
  lemma {:induction false} StatTextAgrees(statKey: string, name: string, format: string, d: CardData)
    ensures P.StatText(statKey, name, format, d) == E.StatText(statKey, name, format, d)
        <==> !(statKey == "year" && d.player.year.None?)
  {
  }

  /** That element: the preview shows "undefined", the exported card nothing. */
  lemma {:induction false} MissingYearDiverges(e: Element, side: P.Side, t: P.Template, d: CardData)
    requires Shown(e) && e.body.Stat? && e.body.statKey == "year" && e.body.format == "value-only"
    requires d.player.year.None?
    ensures P.RenderElement(e, side, t, d) == Some(Drawn(e, ZOf(e), Words("undefined")))
    ensures E.GenerateElement(e, d).None?
  {
  }

  /** Rectangles are drawn alike. */
  lemma {:induction false} RectanglesAgree(e: Element, side: P.Side, t: P.Template, d: CardData)
    requires Shown(e) && e.body.Rectangle?
    ensures P.RenderElement(e, side, t, d) == E.GenerateElement(e, d)
    ensures E.GenerateElement(e, d).Some?
  {
  }

  // Images

  /** A source that is valid, already trimmed and free of `{{` is shown by both renderers. */
  lemma {:induction false} CleanImageAgrees(e: Element, side: P.Side, t: P.Template, d: CardData)
    requires Shown(e) && e.body.Image? && !(P.ImageCheck(t) && side == P.Front)
    requires P.ValidUrl(e.body.src) && Trim(e.body.src) == e.body.src && !Contains(e.body.src, "{{")
    ensures P.RenderElement(e, side, t, d) == E.GenerateElement(e, d)
    ensures E.GenerateElement(e, d) == Some(Drawn(e, ZOf(e), Picture(e.body.src)))
  {
    var src := e.body.src;
    P.ValidUrlNonEmpty(src);
    assert P.Accept(src) == Some(src);
    assert P.ImageSource(src, d.imageUrl) == Some(src);
    assert E.ImageSrc(src, d) == src;
  }

  /** A source the preview rejects, with no acceptable card image, is still exported. */
  lemma {:induction false} RejectedImageExported(e: Element, side: P.Side, t: P.Template, d: CardData)
    requires Shown(e) && e.body.Image? && e.body.src != "" && !Contains(e.body.src, "{{")
    requires P.Accept(e.body.src).None? && P.Accept(d.imageUrl).None?
    ensures P.RenderElement(e, side, t, d).None?
    ensures E.GenerateElement(e, d) == Some(Drawn(e, ZOf(e), Picture(e.body.src)))
  {
  }

  // Backgrounds

  /** The preview lets an accepted card image override the layout's background; the engine never does. */
  lemma {:induction false} BackgroundOverrideDiverges(l: Layout, d: CardData)
    requires l.backgroundImage != "" && P.Accept(d.imageUrl).Some?
    ensures P.Background(l, P.Front, d) == Trim(d.imageUrl)
    ensures E.Background(l, E.Front, d) == l.backgroundImage
  {
  }

  /** Without a layout background, a clean card image becomes the background of both. */
  lemma {:induction false} BackgroundFallbackAgrees(l: Layout, d: CardData)
    requires l.backgroundImage == "" && P.Accept(d.backImageUrl) == Some(d.backImageUrl)
    ensures P.Background(l, P.Back, d) == E.Background(l, E.Back, d) == d.backImageUrl
  {
  }

  /** Without a layout background, a rejected card image is used by the engine only. */
  lemma {:induction false} RejectedBackgroundExported(l: Layout, d: CardData)
    requires l.backgroundImage == "" && P.Accept(d.imageUrl).None?
    ensures P.Background(l, P.Front, d) == ""
    ensures E.Background(l, E.Front, d) == d.imageUrl
  {
  }

  // The bordered variant

  /**
   * Border fields make both renderers choose the bordered variant; without
   * them the preview looks at the template's name and id, the engine at the
   * background colour.
   */
  lemma {:induction false} DetectionSignals(l: Layout, t: P.Template)
    ensures l.borderWidth.Some? || l.innerPadding.Some? ==> P.Bordered(l, t) && E.Bordered(l)
    ensures l.borderWidth.None? && l.innerPadding.None? ==>
      (P.Bordered(l, t) <==> Contains(Lower(t.name), "donruss") || Contains(t.id, "donruss"))
    ensures l.borderWidth.None? && l.innerPadding.None? ==>
      (E.Bordered(l) <==> l.backgroundColor == "#3f7f4f")
  {
    P.DonrussIdTestRedundant(l, t);
  }

  /** A green layout of a template not named Donruss is bordered on the exported card only. */
  lemma {:induction false} GreenLayoutDiverges(l: Layout, t: P.Template, d: CardData)
    requires l.borderWidth.None? && l.innerPadding.None? && l.backgroundColor == "#3f7f4f"
    requires !Contains(Lower(t.name), "donruss") && !Contains(t.id, "donruss")
    ensures P.RenderCard(l, P.Front, t, d).Plain?
    ensures E.GenerateCard(l, E.Front, d).Framed?
  {
    DetectionSignals(l, t);
  }

  /** A layout without the `player-name` element: the bordered front shows the name on the exported card only. */
  lemma {:induction false} FramedNameDiverges(l: Layout, t: P.Template, d: CardData)
    requires P.Bordered(l, t) && E.Bordered(l)
    requires FindId(l.elements, "player-name").None?
    ensures P.RenderCard(l, P.Front, t, d).Framed? && P.RenderCard(l, P.Front, t, d).name.None?
    ensures E.GenerateCard(l, E.Front, d).name == Some(OrString(d.player.name, "Player Name"))
  {
  }

  /** The bordered front's photo: the same card image is shown by both when it is clean. */
  lemma {:induction false} FramedPhotoAgrees(l: Layout, t: P.Template, d: CardData)
    requires P.Bordered(l, t) && E.Bordered(l)
    requires P.Accept(d.imageUrl) == Some(d.imageUrl)
    ensures P.RenderCard(l, P.Front, t, d) == P.FramedFront(l, d)
    ensures E.GenerateCard(l, E.Front, d) == E.FramedFront(l, d)
    ensures P.FramedFront(l, d).photo == E.FramedFront(l, d).photo == d.imageUrl
  {
  }

  // The stat table

  /** A `hitByPitch` column is headed "HBP" on the exported card and "hitByPitch" in the preview. */
  lemma {:induction false} HitByPitchHeaderDiverges(keys: seq<string>, i: nat, font: int)
    requires i < |keys| && keys[i] == "hitByPitch"
    ensures HeaderAt(keys, i, EngineAbbrev.Entries, font).body == Text("HBP")
    ensures HeaderAt(keys, i, StatsCalculator.FrontendTable, font).body == Text("hitByPitch")
  {
    EngineAbbrev.ExampleExportHeader();
    StatsCalculator.FrontendLacksKey("hitByPitch");
  }

  /**
   * For card data whose substituted values hold no `$`, the preview's text is
   * exactly what its chain of JavaScript `replace` calls produces.
   */
  lemma {:induction false} PreviewTextAsWritten(content: string, d: CardData)
    requires forall i :: 0 <= i < |P.Rules(d)| ==> '$' !in P.Rules(d)[i].value
    ensures P.TextOf(content, d) == JsReplace.JsApplyRules(content, P.Rules(d))
  {
  }

  /** The same for the exported text. */
  lemma {:induction false} ExportTextAsWritten(content: string, d: CardData)
    requires forall i :: 0 <= i < |E.Rules(d)| ==> '$' !in E.Rules(d)[i].value
    ensures E.TextOf(content, d) == JsReplace.JsApplyRules(content, E.Rules(d))
  {
  }
}
