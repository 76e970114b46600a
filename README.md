# CardMaker layout resolution, in Dafny

CardMaker lets a user design a sports trading card from a template. A
template holds two JSON layouts, a front and a back. Each layout lists
positioned elements: text, image, stat and rectangle. A card holds the
player's data and the stats the user picked.

This model covers the pipeline that turns a template and a card into what
is drawn. It has two renderers, and each has its own copy of that pipeline:

- **The builder's live preview** (`CardPreview`, fed by the builder page in
  module `Builder`).
- **The rendering service's HTML generator** (`TemplateEngine`), used for the
  exported file.

Both renderers take these steps:

- Replace `{{…}}` placeholders in text.
- Choose image sources.
- Resolve stat values.
- Draw the bordered "Donruss" variant: a fixed framed front and a generated
  stats table on the back (module `StatTable`).

The stats table takes its headers from a stat-abbreviation table. There are
two such tables: the frontend's, built from the stat definitions
(`StatsCalculator`), and the rendering service's (`EngineAbbrev`). Both use
the same lookup (`AbbrevLookup`).

Module `Agreement` proves where the two renderers agree. Where they do not,
it exhibits an input on which the preview and the exported card differ.

The backend side models:

- The export route and the export service, which fetch a card, parse its
  JSON and call the rendering service (`ExportRoute`, `ExportService`,
  `RendererCall`).
- How templates are listed and their ownership rules, in both the Express
  routes and the NestJS service (`TemplatesRoute`, `TemplatesService`).
- The ownership rules of cards (`CardsService`).

Modelling choices:

- Each renderer's statement-by-statement code is a `method` proved equal to
  a specification function. The properties are lemmas about those
  functions.
- The builder's stat selection is a class whose `Toggle` method changes it
  in place.
- PUT on a template assigns the fields of a fetched document object, so the
  document is a class too.
- The database, the rendering service's reply, the HTTP client's error and
  the clock become parameters.

`Strings` models the JavaScript string operations the code uses. These are
`includes`, `indexOf`, `replace`, `trim`, `toLowerCase` and `String(n)`.
`Placeholders` and `Tokens` model the placeholder rules.

## Model

| member | source | states |
|---|---|---|
| CardPreview.ParseLayout | frontend/components/CardPreview.tsx:36-55 | An object layout is used as is, JSON text as parsed; a missing layout or text that does not parse reads as the empty layout |
| CardPreview.TeamPosition | frontend/components/CardPreview.tsx:102-110 | The "Team • Position" sentinel becomes "team • position", the one that is present, or stays when both are empty |
| CardPreview.ResolveText | frontend/components/CardPreview.tsx:75-110 | The text element's chain of conditional replacements yields the seven token rules followed by the two sentinel rules |
| CardPreview.Rules | frontend/components/CardPreview.tsx:75-110 | Nine rules, every pattern non-empty: the seven tokens, then the two sentinels |
| CardPreview.ResolveTokens | frontend/components/CardPreview.tsx:75-101 | The seven `includes`/`replace` steps are the token rules applied in order, the jersey token globally |
| CardPreview.ResolveSentinels | frontend/components/CardPreview.tsx:102-110 | The two sentinel steps are the sentinel rules applied in order |
| CardPreview.TextOf | frontend/components/CardPreview.tsx:75-110 | The text shown: the token rules, then the sentinel rules; text with no brace and neither sentinel is shown as written |
| CardPreview.NoSentinelUnchanged | frontend/components/CardPreview.tsx:102-110 | Text holding neither sentinel passes the sentinel rules unchanged |
| CardPreview.TokenSubstituted | frontend/components/CardPreview.tsx:75-110 | A text with one token and no other brace shows that token's value in its place |
| CardPreview.JerseyEveryOccurrence | frontend/components/CardPreview.tsx:87-91 | Both of two jersey tokens are replaced by the jersey number |
| CardPreview.PlayerNameSentinel | frontend/components/CardPreview.tsx:102-106 | "Player Name" becomes the player's name, and stays when the player has none |
| CardPreview.TeamPositionSentinelResolved | frontend/components/CardPreview.tsx:107-110 | The "Team • Position" sentinel resolves to the team/position text |
| CardPreview.Accept | frontend/components/CardPreview.tsx:155-166 | A non-empty candidate is accepted, trimmed, exactly when its trimmed form starts with http://, https://, data: or / |
| CardPreview.ImageSource | frontend/components/CardPreview.tsx:155-169 | An image shows its own accepted src unless it holds `{{`, else the accepted card image URL; the result is always a valid URL |
| CardPreview.ValidUrlNonEmpty | frontend/components/CardPreview.tsx:155-169 | An accepted source is never empty |
| CardPreview.TrimmedIfValid | frontend/components/CardPreview.tsx:157-160 | The trim-and-test assignment leaves the accepted URL, or "" |
| CardPreview.ChooseImageSource | frontend/components/CardPreview.tsx:155-169 | The sequence of `src` reassignments yields the image source, "" when none is accepted |
| CardPreview.StatText | frontend/components/CardPreview.tsx:195-217 | A year stat is always shown; any other stat is hidden exactly when its value is missing, else shown with its label as the format says |
| CardPreview.RenderElement | frontend/components/CardPreview.tsx:57-72 | A falsy `visible` or an unknown type draws nothing; text draws its resolved words; a stat draws exactly when it has a text, which it shows; an image is hidden on a checked front and otherwise drawn exactly when it has a source, which it shows; a rectangle draws its box; all at `zIndex || 1` |
| CardPreview.RenderAll | frontend/components/CardPreview.tsx:549-552 | Every drawn element is visible and comes from the layout; at most one per element |
| CardPreview.RenderAllOne | frontend/components/CardPreview.tsx:549-552 | A one-element layout draws that element exactly when it is drawn on its own |
| CardPreview.RenderAllAppend | frontend/components/CardPreview.tsx:549-552 | Drawing two lists one after the other draws the first's elements, then the second's: the layout order is kept |
| CardPreview.FramedPhoto | frontend/components/CardPreview.tsx:288-301 | The framed photo is the accepted card image URL, else the accepted photo element src; a non-empty photo is always a valid trimmed URL |
| CardPreview.FramedFront | frontend/components/CardPreview.tsx:275-408 | The bordered front shows a name or a position exactly when the layout has the `player-name` or `player-position` element; the name shown is the player's name, or "Player Name" when it is empty, and the position the player's position, or "POSITION" |
| CardPreview.Background | frontend/components/CardPreview.tsx:555-570 | The side's accepted card image replaces the layout's background image |
| CardPreview.RenderCard | frontend/components/CardPreview.tsx:265-591 | A side is framed exactly when it is the front of a bordered template, and then it is the fixed framed front; otherwise it has the layout background colour or white, the chosen background, and draws the layout elements, with the stats table added on a bordered back |
| CardPreview.ChoosePhoto | frontend/components/CardPreview.tsx:288-301 | The photo source reassignments yield the framed photo |
| CardPreview.ChooseBackground | frontend/components/CardPreview.tsx:555-570 | The background reassignments yield the background |
| CardPreview.RenderSide | frontend/components/CardPreview.tsx:265-591 | `renderCard`, statement by statement, draws what the specification of a side says |
| CardPreview.RenderFramed | frontend/components/CardPreview.tsx:275-408 | The bordered-front branch draws the framed front |
| CardPreview.RenderPlain | frontend/components/CardPreview.tsx:410-591 | The other branch draws the elements, with the stats table on a bordered back, and the background |
| CardPreview.Preview | frontend/components/CardPreview.tsx:27-33 | A placeholder exactly when there is no template; otherwise the front and back are the card rendered from the template's front and back layouts; the back is never the framed variant |
| CardPreview.DonrussIdTestRedundant | frontend/components/CardPreview.tsx:267-272 | The extra `id === 'donruss-1991-style'` test never changes the variant decision |
| CardPreview.ImageCheckUnreachable | frontend/components/CardPreview.tsx:145-153 | Whenever the image renderer's own Donruss check fires, the front is the framed variant, so that check never runs |
| CardPreview.FrontFilterUnreachable | frontend/components/CardPreview.tsx:412-414 | The filter of front images on a bordered card is never reached |
| CardPreview.YearNeverSuppressed | frontend/components/CardPreview.tsx:215-217 | A year stat with no year still shows, reading "undefined" |
| CardPreview.MissingStatNotDrawn | frontend/components/CardPreview.tsx:215-217 | A stat other than year whose value is missing draws nothing |
| TemplateEngine.Rules | rendering-service/src/template-engine.ts:260-285 | Seven usable rules, every one replacing only the first occurrence |
| TemplateEngine.GenerateText | rendering-service/src/template-engine.ts:260-285 | The chain of conditional replacements yields the rules applied in order |
| TemplateEngine.TextOf | rendering-service/src/template-engine.ts:260-285 | The text generated: the engine's rules applied in order; text with no brace is kept as written |
| TemplateEngine.TokenSubstituted | rendering-service/src/template-engine.ts:260-285 | A text with one token and no other brace shows that token's value in its place |
| TemplateEngine.JerseyFirstOnly | rendering-service/src/template-engine.ts:273-275 | Of two jersey tokens only the first is replaced |
| TemplateEngine.ImageSrc | rendering-service/src/template-engine.ts:311-315 | An image's own src unless empty or holding `{{`, else the card's image URL, else the player's |
| TemplateEngine.StatText | rendering-service/src/template-engine.ts:329-352 | A stat is omitted exactly when its value is missing, the year included, so a year stat is omitted exactly when there is no year |
| TemplateEngine.GenerateElement | rendering-service/src/template-engine.ts:212-228 | Text, image and rectangle elements always produce output, showing the resolved words, the chosen source and the box; a stat produces output exactly when it has a text, which it shows; unknown types never do; output is the element at `zIndex || 1` |
| TemplateEngine.ShownOnly | rendering-service/src/template-engine.ts:212-213 | Only elements whose `visible` is truthy, and every one of them; a one-element list is kept exactly when its element is shown |
| TemplateEngine.ShownOnlyAppend | rendering-service/src/template-engine.ts:212-213 | Filtering two lists one after the other keeps the first's shown elements, then the second's: the order is kept |
| TemplateEngine.Items | rendering-service/src/template-engine.ts:212-228 | One generated entry per shown element, in order |
| TemplateEngine.FramedFront | rendering-service/src/template-engine.ts:49-74 | The bordered front always shows a name, the player's or "Player Name" when it is empty, and a position, the player's or "POSITION"; the photo is the card image URL else the photo element src, unvalidated |
| TemplateEngine.Background | rendering-service/src/template-engine.ts:231-238 | The layout's own background image; only without one, the side's card image |
| TemplateEngine.GenerateCardSide | rendering-service/src/template-engine.ts:44-238 | `generateCardHTML`, statement by statement, produces what the specification of a side says |
| TemplateEngine.GenerateCard | rendering-service/src/template-engine.ts:44-238 | A side is framed exactly when its layout is bordered and it is the front, and then it is the fixed framed front; otherwise it has the layout background colour or white, the chosen background, and the output of the shown elements, with the stats table added on a bordered back |
| TemplateEngine.GenerateHTML | rendering-service/src/template-engine.ts:4-39 | The two sides are the front layout rendered as a front and the back layout as a back, for the same card; the front is framed exactly when its layout is bordered; the back is never the framed variant |
| TemplateEngine.ImagesAlwaysExported | rendering-service/src/template-engine.ts:311-315 | An image element is always exported, even with an empty source |
| TemplateEngine.MissingYearNotExported | rendering-service/src/template-engine.ts:343-345 | A year stat of a player without a year is left out |
| TemplateEngine.GreenBackGetsTable | rendering-service/src/template-engine.ts:44-47 | A green background alone makes the back carry the stats table |
| Placeholders.Apply | frontend/components/CardPreview.tsx:75-101 | Replacing an absent pattern is the identity, so the `includes` test in front of every replace is redundant |
| Placeholders.ReplaceIfPresent | rendering-service/src/template-engine.ts:260-285 | The guarded replace is the rule's application, and leaves text without the pattern unchanged |
| Placeholders.ApplyRulesUnchanged | rendering-service/src/template-engine.ts:260-285 | Text containing none of the patterns comes out unchanged |
| Placeholders.ApplyRulesAppend | rendering-service/src/template-engine.ts:260-285 | Applying two lists of rules is applying the first, then the second |
| Placeholders.TokenBraced | rendering-service/src/template-engine.ts:260-285 | A path without braces makes a `{{…}}` token |
| Placeholders.BracedNotContained | rendering-service/src/template-engine.ts:260-285 | A text whose only braces are one token contains no other token |
| Placeholders.SubstituteOne | rendering-service/src/template-engine.ts:260-285 | With distinct tokens, a text holding one token gets exactly that token's value and nothing else changes |
| Placeholders.SubstituteEvery | frontend/components/CardPreview.tsx:87-91 | A global rule replaces both of two occurrences |
| Placeholders.SubstituteFirstOfTwo | rendering-service/src/template-engine.ts:273-275 | A first-occurrence rule replaces the first of two occurrences and keeps the second |
| Placeholders.OtherTokensUnchanged | rendering-service/src/template-engine.ts:260-285 | Where all braces belong to one token, rules for the other tokens change nothing |
| Tokens.TokenRules | frontend/components/CardPreview.tsx:75-101 | Seven usable rules; the jersey rule is global exactly in the preview's variant |
| Tokens.TokensDistinct | rendering-service/src/template-engine.ts:260-285 | The seven tokens are braced and pairwise distinct |
| Tokens.NoTokenWithoutBrace | rendering-service/src/template-engine.ts:260-285 | No token occurs in a text without `{` |
| CardModel.ZOf | frontend/components/CardPreview.tsx:126 | `zIndex || 1`: the element's own z-index when non-zero, 1 when it is missing or zero |
| CardModel.OrNumber | rendering-service/src/template-engine.ts:386 | `x || d` on a number: x unless missing or zero |
| CardModel.OrString | frontend/components/CardPreview.tsx:207 | `s || d` on a string: s unless empty |
| CardModel.Lookup | frontend/components/CardPreview.tsx:202-204 | A value found is stored under the key; undefined when no entry has the key |
| CardModel.YearValue | frontend/components/CardPreview.tsx:199-200 | The player's year as a number, undefined exactly when absent |
| CardModel.JerseyText | frontend/components/CardPreview.tsx:89 | "" without a jersey; a number's decimal text; a jersey stored as text is that text |
| CardModel.YearText | frontend/components/CardPreview.tsx:93 | "" exactly when the player has no year; a present year's decimal text otherwise |
| CardModel.ThrowsText | frontend/components/CardPreview.tsx:95-98 | Same length as the input, with the first letter upper-cased and the rest kept |
| CardModel.HighlightsText | frontend/components/CardPreview.tsx:99-101 | The career highlights when there are any; "No highlights available" when they are missing or empty |
| CardModel.StatContent | frontend/components/CardPreview.tsx:207-212 | "value-only" shows the value; every other format shows "label: value", the label defaulting to the key |
| CardModel.StatValueOf | rendering-service/src/template-engine.ts:329-340 | `year` reads the player's year; any other key reads exactly its stored value when that is neither null nor undefined, and '' when it is |
| CardModel.RectangleBox | frontend/components/CardPreview.tsx:246-262 | Fill defaults to white; the border exists exactly when a border colour is set, `borderWidth || 1` wide |
| CardModel.FindId | frontend/components/CardPreview.tsx:284-285 | The first element with the id, or None when no element has it |
| CardModel.FindPhoto | frontend/components/CardPreview.tsx:283 | The first element that is `player-photo` or an image, or None when there is none |
| StatTable.LiveKeys | frontend/components/CardPreview.tsx:419-423 | Exactly the keys that have a value other than undefined, null or '', at most one per entry; a single entry gives its key exactly when its value is live |
| StatTable.LiveKeysAppend | frontend/components/CardPreview.tsx:419-423 | The live keys of two lists one after the other are the first's, then the second's: the stats' order is kept |
| StatTable.MaxLength | frontend/components/CardPreview.tsx:447-450 | At least 4 and at least every key's abbreviation length |
| StatTable.MaxLengthAttained | frontend/components/CardPreview.tsx:447-450 | The maximum is 4 or the length of some key's abbreviation |
| StatTable.ColSpacing | frontend/components/CardPreview.tsx:429-441 | Positive; up to ten stats share the 510-pixel width evenly, and from ten on the spacing is 51 |
| StatTable.ColWidth | frontend/components/CardPreview.tsx:442 | 95% of the spacing, so positive and narrower than it |
| StatTable.ColumnX | frontend/components/CardPreview.tsx:469-475 | Column i starts at 210 plus i spacings, never left of 210 |
| StatTable.HeaderFontSize | frontend/components/CardPreview.tsx:457-462 | The larger of 12 and 90% of the size the longest abbreviation allows, rounded down |
| StatTable.ValueFontSize | frontend/components/CardPreview.tsx:457-463 | The larger of 14 and the size the longest abbreviation allows, rounded down |
| StatTable.CollectLiveKeys | frontend/components/CardPreview.tsx:419-423 | The filtering loop collects the live keys |
| StatTable.LongestAbbreviation | frontend/components/CardPreview.tsx:447-450 | The maximising loop computes the maximum length |
| StatTable.PushHeaders | frontend/components/CardPreview.tsx:474-492 | The header `forEach` appends one header per key to what was there |
| StatTable.PushValues | frontend/components/CardPreview.tsx:495-514 | The value `forEach` appends one value per key to what was there |
| StatTable.FindTitleIndex | frontend/components/CardPreview.tsx:536-545 | The search loop finds the first `stats-title` element |
| StatTable.BuildTable | frontend/components/CardPreview.tsx:465-533 | The table-building statements produce the table's elements |
| StatTable.TableElements | frontend/components/CardPreview.tsx:465-533 | Two elements per live key, plus the year label when the year is truthy |
| StatTable.SpliceAfterTitle | frontend/components/CardPreview.tsx:536-545 | The splice inserts the table after the first title, or appends it |
| StatTable.Splice | frontend/components/CardPreview.tsx:536-545 | The block sits at the insertion point, with the authored elements before and after it unchanged |
| StatTable.AddStatTable | frontend/components/CardPreview.tsx:418-546 | The bordered-back branch gives the element list with the table added |
| StatTable.WithStatTable | frontend/components/CardPreview.tsx:418-546 | Without live stats the list is unchanged; otherwise the table's elements are inserted at the insertion point, with the authored elements before and after it unchanged |
| StatTable.FindTitle | rendering-service/src/template-engine.ts:199-208 | The index of a `stats-title` element with none before it; None when there is none |
| StatTable.FontSizesBounded | frontend/components/CardPreview.tsx:451-463 | Headers are 12 or 13 px and values 14 or 15 px, whatever the abbreviations |
| StatTable.FontSizesExact | rendering-service/src/template-engine.ts:110-126 | Abbreviations of up to 4 characters give 13/15; any longer one gives 12/14 |
| StatTable.ColumnsFit | frontend/components/CardPreview.tsx:429-442 | With at most ten stats the columns do not overlap and end before x = 720 |
| StatTable.ColumnsOverflow | rendering-service/src/template-engine.ts:92-105 | With more than ten stats the spacing stays 51, and the columns from the eleventh on start at or past 720 |
| StatTable.NoLiveStatsNoTable | frontend/components/CardPreview.tsx:419-423 | Without live stats the element list is left as it is |
| StatTable.TableLength | frontend/components/CardPreview.tsx:465-533 | The table has two elements per live key, plus one when the year is truthy |
| StatTable.TableHeaders | frontend/components/CardPreview.tsx:474-492 | The headers come first, in key order, each showing its key's abbreviation |
| StatTable.TableValues | frontend/components/CardPreview.tsx:495-514 | The values follow, in key order, each the bare value of its key |
| StatTable.TableYearLabel | frontend/components/CardPreview.tsx:517-533 | A truthy year adds its label last |
| StatTable.TableElementsMarked | rendering-service/src/template-engine.ts:137-196 | Every added element is visible, at z-index 10, with an id starting `dynamic-stat-` |
| StatTable.SpliceKeepsAuthored | frontend/components/CardPreview.tsx:536-545 | The authored elements keep their order around the inserted block |
| StatTable.InsertionAfterFirstTitle | rendering-service/src/template-engine.ts:199-208 | The block goes right after the first `stats-title` |
| StatTable.SpliceWithoutTitleAppends | rendering-service/src/template-engine.ts:205-207 | Without a `stats-title` the block is appended |
| AbbrevLookup.FindKey | rendering-service/src/stat-abbreviations.ts:83-85 | The first entry with exactly that key |
| AbbrevLookup.Get | rendering-service/src/stat-abbreviations.ts:83 | Defined exactly when some entry has the key, with that entry's value |
| AbbrevLookup.FindLower | rendering-service/src/stat-abbreviations.ts:87-93 | The first entry whose lower-cased key matches |
| AbbrevLookup.Abbreviation | rendering-service/src/stat-abbreviations.ts:81-97 | The key itself, or the value of an entry equal to it ignoring case |
| AbbrevLookup.GetStatAbbreviation | frontend/lib/stats-calculator.ts:235-251 | The exact read, then the case-insensitive loop with early return, then the key, compute the abbreviation |
| AbbrevLookup.AbbreviationFallback | rendering-service/src/stat-abbreviations.ts:96 | A key matching no entry even ignoring case comes back unchanged |
| AbbrevLookup.AbbreviationExact | rendering-service/src/stat-abbreviations.ts:83-85 | A uniquely stored key with a non-empty value gets that value |
| AbbrevLookup.AbbreviationFirstCaseInsensitive | rendering-service/src/stat-abbreviations.ts:87-93 | With no usable exact match, the first entry matching ignoring case wins |
| AbbrevLookup.AbbreviationOfMatch | rendering-service/src/stat-abbreviations.ts:81-97 | In a case-consistent table, any entry matching ignoring case gives the answer |
| AbbrevLookup.AbbreviationIgnoresCase | rendering-service/src/stat-abbreviations.ts:81-97 | In a case-consistent table, two spellings differing only in case get the same abbreviation |
| AbbrevLookup.AbbreviationNonEmpty | rendering-service/src/stat-abbreviations.ts:81-97 | Without empty values in the table, a non-empty key never yields "" |
| EngineAbbrev.TableCaseConsistent | rendering-service/src/stat-abbreviations.ts:4-79 | Entries of the service's table whose keys are equal ignoring case have equal abbreviations |
| EngineAbbrev.TableValuesNonEmpty | rendering-service/src/stat-abbreviations.ts:4-79 | No abbreviation in the table is empty |
| EngineAbbrev.ExactKeyGetsItsValue | rendering-service/src/stat-abbreviations.ts:81-97 | Every key of the table gets its own abbreviation |
| EngineAbbrev.SpellingsAgree | rendering-service/src/stat-abbreviations.ts:81-97 | Any two spellings of a table key that differ in case get that key's abbreviation |
| EngineAbbrev.GetStatAbbreviation | rendering-service/src/stat-abbreviations.ts:81-97 | The rendering service's lookup over its own table |
| EngineAbbrev.NonEmptyKeyNonEmptyAbbreviation | rendering-service/src/stat-abbreviations.ts:81-97 | A non-empty key always gets a non-empty header |
| EngineAbbrev.ExampleUpperCase | rendering-service/src/stat-abbreviations.ts:87-93 | "HITS" is headed "H" |
| EngineAbbrev.ExampleExportHeader | rendering-service/src/stat-abbreviations.ts:4-79 | "hitByPitch" is headed "HBP" |
| EngineAbbrev.ExampleFallback | rendering-service/src/stat-abbreviations.ts:96 | "OPS" comes back as "OPS" |
| StatsCalculator.CalculateOffensiveStats | frontend/lib/stats-calculator.ts:55-98 | Inputs are kept; total bases, AVG, SLG, OBP and OPS are each set by their formula exactly under their guard, and kept otherwise |
| StatsCalculator.CalculatePitchingStats | frontend/lib/stats-calculator.ts:100-139 | Inputs are kept; ERA, WHIP, K/9, BB/9, H/9 and W% are each set by their formula exactly under their guard |
| StatsCalculator.AbbrevsOf | frontend/lib/stats-calculator.ts:186-192 | One (key, abbreviation) entry per definition, in declaration order |
| StatsCalculator.Assign | frontend/lib/stats-calculator.ts:184-232 | A property write adds at most one entry |
| StatsCalculator.Spread | frontend/lib/stats-calculator.ts:184-192 | Spreading no entries keeps the object; otherwise it gains at most one entry per spread entry |
| StatsCalculator.GetAfterAssign | frontend/lib/stats-calculator.ts:184-232 | After a write the key reads as the new value and every other key as before |
| StatsCalculator.LastValue | frontend/lib/stats-calculator.ts:184-232 | Defined exactly when some written entry has the key, with that entry's value |
| StatsCalculator.GetAfterSpread | frontend/lib/stats-calculator.ts:184-232 | Reading a spread object: the last write of the key wins, else the original value |
| StatsCalculator.SpreadEntriesFrom | frontend/lib/stats-calculator.ts:184-232 | Every entry of a spread object was in the original or was written |
| StatsCalculator.SpreadOrderIrrelevant | frontend/lib/stats-calculator.ts:186-192 | Two spreads that agree on shared keys may be done in either order |
| StatsCalculator.FrontendEntriesWritten | frontend/lib/stats-calculator.ts:184-232 | Every entry of the merged object was written by a definition or a variation |
| StatsCalculator.WrittenEntriesCaseConsistent | frontend/lib/stats-calculator.ts:184-232 | Everything written has one abbreviation per key ignoring case |
| StatsCalculator.FrontendTableCaseConsistent | frontend/lib/stats-calculator.ts:184-232 | So is the merged object |
| StatsCalculator.FrontendHasWrittenKey | frontend/lib/stats-calculator.ts:184-232 | Every written key can be read back from the merged object |
| StatsCalculator.GetStatAbbreviation | frontend/lib/stats-calculator.ts:235-251 | The frontend's lookup over the merged object |
| StatsCalculator.FrontendAbbreviationOfWritten | frontend/lib/stats-calculator.ts:235-251 | Any written key, in any spelling, gets the abbreviation written for it |
| StatsCalculator.FrontendAbbreviationOfUnknown | frontend/lib/stats-calculator.ts:248-250 | A key nothing written matches, even ignoring case, comes back unchanged |
| StatsCalculator.DefinitionsAgree | frontend/lib/stats-calculator.ts:142-181 | Keys both definition lists declare carry the same abbreviation in each |
| StatsCalculator.DefinitionSpreadOrderIrrelevant | frontend/lib/stats-calculator.ts:186-192 | The merged object reads the same whichever definition list is spread first |
| StatsCalculator.UnsignedKeyMissing | frontend/lib/stats-calculator.ts:235-251 | A key of a shape no written key has comes back unchanged |
| StatsCalculator.FrontendLacksKey | frontend/lib/stats-calculator.ts:184-232 | hitByPitch, sacrificeFlies, plateAppearances, hitBatters and wildPitches have no frontend abbreviation |
| Agreement.HiddenDrawnByNeither | rendering-service/src/template-engine.ts:212-213 | An element whose `visible` is not truthy is drawn by neither renderer |
| Agreement.SingleTokenAgrees | rendering-service/src/template-engine.ts:260-285 | A text holding one token, the jersey token included, resolves to the same text in both renderers (as text; the export's HTML reading of `<`, `&` or `"` is not modelled) |
| Agreement.JerseyDiverges | frontend/components/CardPreview.tsx:87-91 | With two jersey tokens the preview replaces both and the exported card only the first |
| Agreement.SentinelsOnlyInPreview | frontend/components/CardPreview.tsx:102-110 | The legacy sentinels are resolved by the preview only |
| Agreement.StatTextAgrees | rendering-service/src/template-engine.ts:329-352 | The two stat resolvers give the same text on every key other than year (as text, before the export inserts it into HTML) |
| Agreement.MissingYearDiverges | frontend/components/CardPreview.tsx:215-217 | A year stat without a year: the preview shows "undefined", the export nothing |
| Agreement.RectanglesAgree | rendering-service/src/template-engine.ts:378-392 | Shown rectangles are drawn alike |
| Agreement.CleanImageAgrees | rendering-service/src/template-engine.ts:311-315 | A valid, trimmed source without `{{` is chosen by both renderers (the same string; the export inserts it into HTML unescaped) |
| Agreement.RejectedImageExported | frontend/components/CardPreview.tsx:155-169 | A source the preview rejects, with no acceptable card image, is still exported |
| Agreement.BackgroundOverrideDiverges | frontend/components/CardPreview.tsx:555-570 | An accepted card image overrides the layout background in the preview only |
| Agreement.BackgroundFallbackAgrees | rendering-service/src/template-engine.ts:231-238 | Without a layout background, a clean back image is the background of both |
| Agreement.RejectedBackgroundExported | rendering-service/src/template-engine.ts:231-238 | Without a layout background, a rejected card image is used by the export only |
| Agreement.DetectionSignals | rendering-service/src/template-engine.ts:44-47 | Border fields make both renderers bordered; otherwise the preview looks at the name and id, the engine at the green background |
| Agreement.GreenLayoutDiverges | rendering-service/src/template-engine.ts:44-47 | A green layout of a template not named Donruss has a framed front on the export only |
| Agreement.FramedNameDiverges | rendering-service/src/template-engine.ts:59-60 | Without a `player-name` element the framed front shows a name on the export only |
| Agreement.FramedPhotoAgrees | rendering-service/src/template-engine.ts:58 | A clean card image is the framed photo source chosen by both (the same string) |
| Agreement.HitByPitchHeaderDiverges | rendering-service/src/template-engine.ts:137-155 | A hitByPitch column is headed "HBP" on the export and "hitByPitch" in the preview |
| Agreement.PreviewTextAsWritten | frontend/components/CardPreview.tsx:75-110 | For data whose values hold no `$`, the preview's text is what its chain of JavaScript `replace` calls gives |
| Agreement.ExportTextAsWritten | rendering-service/src/template-engine.ts:260-285 | The same for the exported text |
| Builder.Without | frontend/app/builder/page.tsx:91-106 | Removing a key keeps exactly the other keys without duplicates; in a duplicate-free selection it cuts the key out at its position, the keys before and after keeping their order |
| Builder.Toggled | frontend/app/builder/page.tsx:91-106 | A present key is removed as `Without` removes it, the others keeping their order; a new one is appended while fewer than ten are selected, refused at ten; none duplicated and never more than ten |
| Builder.ToggleTwice | frontend/app/builder/page.tsx:91-106 | Toggling a new key twice with room for it gives back the same selection |
| Builder.StatSelection.constructor | frontend/app/builder/page.tsx:22 | The selection starts empty |
| Builder.StatSelection.Toggle | frontend/app/builder/page.tsx:91-106 | The selection becomes its toggled value; the call reports a refusal exactly for a new key at ten |
| Builder.SelectedKeys | frontend/app/builder/page.tsx:121-126 | Exactly the selected keys with a calculated value that is not missing, without duplicates when the selection has none; a single key is kept exactly when its value is present |
| Builder.SelectedKeysAppend | frontend/app/builder/page.tsx:121-126 | The kept keys of two selections one after the other are the first's, then the second's: the selection order is kept |
| Builder.SelectedStats | frontend/app/builder/page.tsx:121-126 | One entry per kept key, the i-th for the i-th kept key, with its calculated value, which is never missing |
| Builder.TableColumnsAreSelection | frontend/app/builder/page.tsx:605-610 | The saved card's table has one column per selected stat with a value, in selection order |
| Builder.SelectionFitsTable | frontend/app/builder/page.tsx:98-102 | A selection the page allows gives at most ten columns, which all fit the stats panel |
| Builder.DigitRun | frontend/app/builder/page.tsx:134 | The longest prefix of decimal digits |
| Builder.HexRun | frontend/app/builder/page.tsx:134 | The longest prefix of hexadecimal digits |
| Builder.ParseInt | frontend/app/builder/page.tsx:134 | Blank text gives NaN; text starting with a digit 1-9 gives a non-negative number; a leading minus gives a number no greater than zero |
| Builder.ParseIntOfShown | frontend/app/builder/page.tsx:134 | A number written out, followed by a non-digit, parses back to that number |
| Builder.ParseIntRoundTrip | frontend/app/builder/page.tsx:134 | `parseInt(String(n)) == n` |
| Builder.JerseyInput | frontend/app/builder/page.tsx:133-135 | A jersey is kept only as a non-zero parsed number, else dropped |
| Builder.JerseyShown | frontend/app/builder/page.tsx:600-603 | A typed non-zero number is shown as typed, without leading zeros or trailing text |
| Builder.ZeroJerseyDropped | frontend/app/builder/page.tsx:133-135 | A typed zero is dropped like an empty entry |
| Builder.YearInput | frontend/app/builder/page.tsx:338 | A parsed non-zero year is kept, else the current year |
| Builder.ThrowsInput | frontend/app/builder/page.tsx:136 | Absent exactly when empty, else kept |
| Builder.EditHighlights | frontend/app/builder/page.tsx:390-401 | An edit of up to 140 UTF-16 code units is taken, a longer one refused, so the field never exceeds 140 code units |
| Builder.Utf16Length | frontend/app/builder/page.tsx:392 | JavaScript's `length`: between one and two units per character, exactly one per character when every character is in the Basic Multilingual Plane |
| Builder.AstralCharCountsTwice | frontend/app/builder/page.tsx:392 | A character outside the Basic Multilingual Plane counts as two units |
| Builder.NormalizedCard | frontend/app/builder/page.tsx:128-140 | The saved card, built by the same expression the preview is given at page.tsx:600-614: name, team, position, throws, highlights and image as typed, the year as parsed, a jersey only as a non-zero number, no back image, and the i-th stat is the i-th selected key that has a value, with that value |
| Builder.Save | frontend/app/builder/page.tsx:108-140 | Saved exactly when a template and a player name are present, each refusal with its own message |
| Builder.FindDonruss | frontend/app/builder/page.tsx:61 | The first template whose id or lower-cased name contains "donruss" |
| Builder.IsDonruss | frontend/app/builder/page.tsx:61 | A template matches exactly when its id, or its lower-cased name, contains "donruss" |
| Builder.DefaultSelection | frontend/app/builder/page.tsx:55-68 | The query's template, else the current selection, else some listed template |
| Builder.DefaultPicksFirstDonruss | frontend/app/builder/page.tsx:60-63 | With nothing selected, the first Donruss template is chosen |
| Builder.DefaultWithoutDonruss | frontend/app/builder/page.tsx:64-65 | Without a Donruss template, the first template is chosen |
| Builder.DefaultSelectionIdempotent | frontend/app/builder/page.tsx:55-68 | Re-running the effect changes nothing |
| Builder.DonrussDefaultIsBordered | frontend/components/CardPreview.tsx:267-272 | A template chosen for its Donruss name or id is drawn bordered, whatever its layout |
| Strings.ReplaceFirst | rendering-service/src/template-engine.ts:260-285 | The literal first-occurrence replace: text without the pattern is unchanged, otherwise the length changes by the value's length minus the pattern's |
| Strings.ReplaceAll | frontend/components/CardPreview.tsx:87-91 | The literal global replace: text without the pattern is unchanged |
| Strings.IndexOf | frontend/components/CardPreview.tsx:75-101 | The first position at which the pattern occurs, None when it does not |
| Strings.ReplaceFirstAfterPlain | rendering-service/src/template-engine.ts:260-285 | Replacing the first occurrence in `a + t + b`, where `a` cannot start `t`, gives `a + v + b` |
| Strings.ReplaceAllAfterPlain | frontend/components/CardPreview.tsx:87-91 | A global replace replaces the first occurrence and continues after it |
| Strings.TrimStart | frontend/components/CardPreview.tsx:157 | A suffix with exactly the leading white space dropped |
| Strings.TrimEnd | frontend/components/CardPreview.tsx:157 | A prefix with exactly the trailing white space dropped |
| Strings.Trim | frontend/components/CardPreview.tsx:157 | A slice of the input with no white space at either end, only white space cut off |
| Strings.NatToString | frontend/components/CardPreview.tsx:89 | Decimal digits without leading zeros (a leading 0 only in "0"), reading back as the number |
| Strings.IntToString | frontend/components/CardPreview.tsx:89 | Starts with "-" exactly for negative numbers; after the sign come only decimal digits, reading back as the magnitude, with no leading zero except for 0 itself |
| Strings.Lower | rendering-service/src/stat-abbreviations.ts:87 | Same length as the input |
| JsReplace.Expand | frontend/components/CardPreview.tsx:75-101 | The replacement pattern as JavaScript expands it: `$$` gives `$`, `$&` the match, `` $` `` the text before it, `$'` the text after it, any other character itself; a value without `$` is used as it is |
| JsReplace.JsReplaceFirst | rendering-service/src/template-engine.ts:260-285 | JavaScript's `replace` with a string value: text without the pattern is unchanged |
| JsReplace.JsReplaceFirstLiteral | rendering-service/src/template-engine.ts:260-285 | Without `$` in the value, JavaScript's first-occurrence replace is the literal one |
| JsReplace.JsReplaceAll | frontend/components/CardPreview.tsx:87-91 | `replace(/…/g, v)` as JavaScript defines it; a text without the pattern is unchanged, and without `$` in the value it is the literal global replace |
| JsReplace.JsReplaceAllFrom | frontend/components/CardPreview.tsx:87-91 | The global replace from a given point: text after it without the pattern is left as it is, and with a value free of `$` it is the literal global replace of that text |
| JsReplace.JsApplyRules | frontend/components/CardPreview.tsx:75-110 | The chain of JavaScript `replace` calls; when no value holds `$` it is the literal substitution of the rules in order |
| JsReplace.NameTokenReplacesItself | rendering-service/src/template-engine.ts:260-262 | A player named `$&` is shown as the name token itself |
| JsReplace.HighlightsLoseADollar | rendering-service/src/template-engine.ts:284 | Career highlights reading `$$5M` are shown as `$5M` |
| Backend.Decode | backend/src/export/export.service.ts:100-124 | A stored object is used as is; a stored string is what `JSON.parse` makes of it |
| RendererCall.ErrorMessage | backend/src/routes/export.js:104-105 | The body's message, else its error, else the fallback; a missing or unreadable body gives the fallback |
| RendererCall.ContentType | backend/src/routes/export.js:150-157 | The content type of png, jpeg and pdf, else application/octet-stream |
| RendererCall.Classify | backend/src/routes/export.js:110-137 | Timeout, connection refused or host not found, other error code, error reply, or generic, checked in that order |
| RendererCall.CannotConnectMessage | backend/src/routes/export.js:117-119 | The refused-connection message names the rendering service's address |
| RendererCall.NetworkMessage | backend/src/routes/export.js:122-124 | The network-error message starts "Network error: " |
| RendererCall.ServiceErrorMessage | backend/src/routes/export.js:127-133 | The error-reply message starts "Rendering service error: " and carries the service's message right after it |
| RendererCall.GenericMessage | backend/src/routes/export.js:136 | The generic message starts "Rendering failed: " and carries the error's message |
| RendererCall.MessagesDistinct | backend/src/routes/export.js:110-137 | The five kinds of client error never share a message |
| ExportRoute.FormatOf | backend/src/routes/export.js:15-19 | The format query, png when missing |
| ExportRoute.ValidFormat | backend/src/routes/export.js:17-19 | A format is accepted exactly when it has a content type of its own: png, jpeg or pdf |
| ExportRoute.Normalize | backend/src/routes/export.js:46-65 | Both sides get the larger width and height, missing or zero counting as 630 by 880; nothing else changes |
| ExportRoute.NormalizeNoSmaller | backend/src/routes/export.js:46-65 | Neither side shrinks |
| ExportRoute.NormalizeIdempotent | backend/src/routes/export.js:46-65 | Normalising twice is normalising once |
| ExportRoute.BuildRequest | backend/src/routes/export.js:32-83 | Posted: the parsed card data and the normalised layouts; the outer 500 when the template is gone or a column does not parse |
| ExportRoute.ReplyResponse | backend/src/routes/export.js:86-108 | A file exactly for a success whose content type (header, else the format's) is not JSON; every other reply is a 500 with the service's message |
| ExportRoute.ClientErrorResponse | backend/src/routes/export.js:110-139 | Always a 500, with the message for the kind of client error |
| ExportRoute.ExportCard | backend/src/routes/export.js:12-148 | 400 for a bad format, 404 for no card, 403 for another user's card, before anything is posted; for the owner, a request is posted exactly when it can be built, and is that request, else the build's 500; the answer is the reply's response or the client error's; a file only for a successful non-JSON reply; posted sides are the same size |
| ExportRoute.JsonSuccessIsError | backend/src/routes/export.js:90-94 | A success with a JSON content type is always an error, never a file |
| ExportRoute.FileTypeDefaultsToFormat | backend/src/routes/export.js:87 | Without a content-type header the file takes the format's type |
| ExportRoute.Filename | backend/src/routes/export.js:98 | The file is named `card-<card id>-<time>.<format>` |
| ExportService.FetchCardWithTemplate | backend/src/export/export.service.ts:77-98 | The card only for its owner and with a template; a missing card and another user's card give the same not-found error |
| ExportService.ParseCardData | backend/src/export/export.service.ts:100-124 | The three parsed columns, or the first parse error as an internal error |
| ExportService.HandleClientError | backend/src/export/export.service.ts:194-232 | Always an internal error, with the message for the kind of client error |
| ExportService.RenderCard | backend/src/export/export.service.ts:126-192 | The reply's bytes exactly for a successful non-JSON reply; every other outcome is an internal error with the service's message |
| ExportService.ExportCard | backend/src/export/export.service.ts:37-75 | A missing, foreign or template-less card, or a column that does not parse, fails with its error before anything is posted; otherwise the parsed layouts and card data as stored are posted, and the export succeeds exactly when the rendering call does, failing with its error otherwise; a success is the reply's bytes with the format's content type and file name |
| ExportService.StrangerSeesNotFound | backend/src/export/export.service.ts:83-89 | Another user's card: the route answers 403, the service reports the card missing |
| ExportService.OnlyRouteNormalizes | backend/src/routes/export.js:46-65 | The route posts equal-sized sides, the service the layouts as stored |
| ExportService.ContentTypeSources | backend/src/export/export.service.ts:59 | The route's file carries the reply's content type, the service's the format's |
| ExportService.UnreadableErrorBody | backend/src/export/export.service.ts:171-176 | An error reply whose body is not JSON: the route reports a failed render, the service the status |
| TemplatesService.Filter | backend/src/templates/templates.service.ts:11-20 | Exactly the visible templates, each as often as stored |
| TemplatesService.Visible | backend/src/templates/templates.service.ts:11-20 | A signed-in caller sees their own templates and, when defaults are included, the defaults; a caller without an id sees only the defaults when they are included, and everything otherwise |
| TemplatesService.Insert | backend/src/templates/templates.service.ts:24-27 | Insertion into a sorted listing keeps it sorted and adds the one template |
| TemplatesService.Before | backend/src/templates/templates.service.ts:24-27 | A default never comes after a non-default; among equals the newer comes first |
| TemplatesService.Sort | backend/src/templates/templates.service.ts:24-27 | A permutation, with defaults first and then the newest first |
| TemplatesService.FindAll | backend/src/templates/templates.service.ts:10-29 | Exactly the visible templates, each as often as stored, in the listing order |
| TemplatesService.OwnTemplatesListed | backend/src/templates/templates.service.ts:13-17 | A signed-in caller's own templates are always listed |
| TemplatesService.ExcludedDefaultsHidden | backend/src/templates/templates.service.ts:16 | Excluding defaults hides every template the caller does not own |
| TemplatesService.AnonymousSeesAll | backend/src/templates/templates.service.ts:18-20 | A caller without an id who excludes defaults is shown every template |
| TemplatesService.DefaultsFirst | backend/src/templates/templates.service.ts:25 | No default template is listed after one that is not |
| TemplatesService.FindOne | backend/src/templates/templates.service.ts:31-41 | The stored template, or not found |
| TemplatesService.Create | backend/src/templates/templates.service.ts:43-53 | A new non-default template under the new id, owned by the caller, with the sent name, description and both layouts and the creation time; no other template changes |
| TemplatesService.Patch | backend/src/templates/templates.service.ts:67-75 | Each sent field overwrites the template's; id, owner, default flag and creation time are kept |
| TemplatesService.PatchIdempotent | backend/src/templates/templates.service.ts:67-75 | Sending the same fields twice changes nothing the second time |
| TemplatesService.EmptyPatchIsIdentity | backend/src/templates/templates.service.ts:67-75 | Sending no field leaves the template as it is |
| TemplatesService.Update | backend/src/templates/templates.service.ts:55-76 | Only the owner may update, a default one included; other callers get the default or the permission refusal |
| TemplatesService.Remove | backend/src/templates/templates.service.ts:78-92 | Defaults are never removed; other templates only by their owner |
| TemplatesService.OwnedDefaultUpdatableNotRemovable | backend/src/templates/templates.service.ts:59-87 | The owner of a default template may update it but not remove it |
| TemplatesService.CreatorControls | backend/src/templates/templates.service.ts:43-92 | A template's creator, and only the creator, may update and remove it |
| TemplatesService.UpdateKeepsOrderKey | backend/src/templates/templates.service.ts:67-75 | An update changes neither who sees a template nor its place in the listing |
| TemplatesRoute.IncludeDefaults | backend/src/routes/templates.js:10 | Defaults are included unless the query is exactly "false" |
| TemplatesRoute.List | backend/src/routes/templates.js:8-41 | Exactly the visible templates, in the service's listing order |
| TemplatesRoute.UnauthenticatedListing | backend/src/server.js:49 | Mounted without sign-in: `includeDefaults=false` lists every template, otherwise exactly the defaults |
| TemplatesRoute.Get | backend/src/routes/templates.js:44-70 | The template, or 404 for a missing or malformed id |
| TemplatesRoute.Post | backend/src/routes/templates.js:73-104 | 400 without name, front or back; otherwise a 201 with a new non-default template owned by the caller |
| TemplatesRoute.Delete | backend/src/routes/templates.js:153-177 | Deleted exactly when not a default and owned by the caller or by nobody |
| TemplatesRoute.OwnerlessDeletableByAnyone | backend/src/routes/templates.js:164-166 | An ownerless non-default template: the route lets anyone delete it, the service nobody |
| TemplatesRoute.OwnedDeleteAgrees | backend/src/routes/templates.js:153-177 | On their own non-default template, the route and the service delete alike |
| TemplatesRoute.TemplateDocument.Record | backend/src/routes/templates.js:111 | The document's record has the document's id, owner and default flag |
| TemplatesRoute.TemplateDocument.constructor | backend/src/routes/templates.js:111 | The document loaded from a stored record is that record |
| TemplatesRoute.TemplateDocument.Assign | backend/src/routes/templates.js:125-128 | The guarded assignments apply the service's patch to the document in place |
| TemplatesRoute.Put | backend/src/routes/templates.js:107-150 | 404, the default refusal, then the permission refusal, each leaving the document unchanged; otherwise the patched document, returned |
| TemplatesRoute.OwnedDefaultOnlyServiceUpdates | backend/src/routes/templates.js:117-119 | The owner of a default template: the service updates it, PUT does not |
| TemplatesRoute.UpdateRulesCompared | backend/src/routes/templates.js:121-123 | PUT allows what the service refuses exactly for ownerless non-default templates |
| CardsService.OwnedBy | backend/src/cards/cards.service.ts:13 | Exactly the user's cards, each as often as stored |
| CardsService.Insert | backend/src/cards/cards.service.ts:23-25 | Insertion keeps the newest-first order and adds the one card |
| CardsService.NewestFirst | backend/src/cards/cards.service.ts:23-25 | Each card is at least as new as the one after it; an empty or one-card listing qualifies |
| CardsService.Sort | backend/src/cards/cards.service.ts:23-25 | A permutation, newest first |
| CardsService.FindAll | backend/src/cards/cards.service.ts:11-27 | Exactly the user's cards, newest first |
| CardsService.ListingIsPrivate | backend/src/cards/cards.service.ts:11-27 | No one is shown another user's card |
| CardsService.FindOne | backend/src/cards/cards.service.ts:29-46 | Not found for a missing card, forbidden for another user's, else the card |
| CardsService.Create | backend/src/cards/cards.service.ts:48-74 | Refused exactly when the template does not exist; otherwise a new card owned by the caller |
| CardsService.Update | backend/src/cards/cards.service.ts:76-106 | The ownership refusal, then the missing new template; otherwise the sent fields written and nothing else changed |
| CardsService.Remove | backend/src/cards/cards.service.ts:108-114 | The ownership refusal, otherwise the card is gone |
| CardsService.Duplicate | backend/src/cards/cards.service.ts:116-135 | The ownership refusal, otherwise a new card of the caller with the same template and data |
| CardsService.StrangerRefused | backend/src/cards/cards.service.ts:41-43 | Every operation on another user's card is refused with the same permission error |
| CardsService.DuplicateReadsBack | backend/src/cards/cards.service.ts:116-135 | A duplicate reads back with the original's template and data, and the original is untouched |
| CardsService.UpdateReadsBack | backend/src/cards/cards.service.ts:76-106 | An update reads back with the sent fields |
| CardsService.SavedCardStored | frontend/app/builder/page.tsx:108-140 | What the builder saves is stored as `NormalizedCard` of the form, the data its preview is given, owned by the user who saved it |

## Left out

- HTML escaping is not modelled. The preview's JSX escapes card text, while the engine interpolates text, name, position and image sources into its markup unescaped (`rendering-service/src/template-engine.ts:65`, 68-69, 308, 326, 375). Card data holding `<`, `&` or `"` therefore shows literally in the preview but is read as markup on the exported card, for example a name `<b>A</b>` prints a bold A. The `Agreement` lemmas compare the resolved strings, so their agreement holds only for text without those characters.
- Rendering itself is not modelled: CSS, the markup, fonts, the preview scale, and the headless browser that turns HTML into PNG, JPEG or PDF. Each element becomes a drawing decision (words, a picture or a box) at its z-index.
- Style fields that are only copied into styles are left out. These are colour, font family, alignment and shadows.
- Numbers are mathematical reals. `toFixed` rounding, number formatting (a number is carried as the text JavaScript shows for it) and NaN or Infinity are not modelled.
- `toLowerCase` and `toUpperCase` map only the ASCII letters.
- `trim` uses ASCII white space plus a few common Unicode spaces, not the full Unicode list.
- JSON objects are records with absent fields as empty strings or `None`. Key order, `null` fields and unknown properties are not modelled. Nor are the property names every JavaScript object inherits from `Object.prototype` (`constructor`, `toString`, `hasOwnProperty`, ...): in the source, `statAbbreviations[statKey]` (stat-abbreviations.ts:83-84, stats-calculator.ts:237-238) and `cardData.stats?.[statKey]` (CardPreview.tsx:202-203, template-engine.ts:337-338) give a function for such a key. In the model, `AbbrevLookup.FindKey`, `AbbrevLookup.Abbreviation`, `CardModel.Lookup` and `CardModel.StatValueOf` find only the entries actually stored, so a key like `constructor` is treated as absent.
- A parse failure is carried as a parsed value of `None`, not as text that failed to parse.
- The database, HTTP, the rendering service, the clock and `alert` are left out. Their results are parameters: the stored row, the reply or error, the current year or time.
- The error objects' extra fields are not modelled. These are the `error: error.message` of the 500 replies and the log lines.
- The 500 branches that only a failing database call or `save` can reach are left out.
- The service's non-HTTP-client "Rendering failed: …" wrap is left out. The model has no exception apart from the HTTP-client error.
- Ids are strings. Mongo and Prisma id generation is a fresh-id parameter.
- A missing `req.user` on the authenticated endpoints cannot happen behind their guard, so it is not modelled.
- `backend/src/server.js:49` mounts the template routes without sign-in, so the listing never sees a user. The model lists with the caller's id as "".
- `$` patterns in `replace` values are modelled only in `JsReplace`. The renderers use the literal replacement, as recorded under Findings.
- The seed files, the asset and user routes, the controllers and the authentication middleware are not part of this model.
- CardModel.Lookup: a stats object has one entry per key. The model takes the first entry under a key and does not state that keys are unique.
- Strings.ReplaceFirst: its own contract gives only the no-match case and the length; what it replaces is stated by Strings.ReplaceFirstAfterPlain.
- Strings.ReplaceAll: its own contract gives only the no-match case; what it replaces is stated by Strings.ReplaceAllAfterPlain.
- JsReplace.JsReplaceFirst: its own contract gives only the no-match case; its `$` expansion is stated by JsReplace.NameTokenReplacesItself and JsReplace.HighlightsLoseADollar.
- CardPreview.Rules: it states the count and that every pattern is non-empty; the rules themselves are in CardPreview.ResolveText.
- Strings.Lower: it states only the length. Case mapping is ASCII only.
- StatsCalculator.Assign: it states only the size. What a write reads back as is stated by `StatsCalculator.GetAfterAssign`.
- Builder.DefaultSelection: the Donruss-first choice among templates is stated by the lemmas beside it, not in its own contract.
- RendererCall.Classify: axios 1.x gives a 5xx reply the code `ERR_BAD_RESPONSE`, so `backend/src/routes/export.js:122` catches it as a network error; the error-reply branch is reached only by an error that has a response and no code. The model follows the order of the checks and takes the code as an input, without deriving it from the status.
- ExportRoute.ExportCard: the answer is stated as ReplyResponse or ClientErrorResponse, so it leaves unstated what those two leave unstated (the next two lines).
- ExportRoute.ReplyResponse: the contract gives no message for a success reply typed as JSON, nor for an error reply whose body is not JSON; it states only that both are 500 errors.
- ExportRoute.ClientErrorResponse: the contract gives no message for an error reply the client reports as an error (the service-error case); it states only that the answer is a 500 error.

## Findings

| source | as written | input that shows it | evidently intended | confidence | as-written member | corrected member |
|---|---|---|---|---|---|---|
| rendering-service/src/template-engine.ts:260-285 | `content.replace(token, value)` with a string value, so `$&`, `$$`, `` $` `` and `$'` in the player's data are expanded by JavaScript | A player named `$&` shows the literal `{{player.name}}`; highlights `$$5M` show `$5M` | The card data is shown literally | not executed | JsReplace.NameTokenReplacesItself | Strings.ReplaceFirstAfterPlain |
| frontend/components/CardPreview.tsx:75-101 | The same string-value `replace` in the preview, global for the jersey token | Highlights `$$5M` show `$5M` in the preview too | The card data is shown literally | not executed | JsReplace.HighlightsLoseADollar | Placeholders.SubstituteOne |
