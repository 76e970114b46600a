/**
 * The values both layout renderers work on: a card layout (the parsed
 * `frontJson`/`backJson` of a template), the card's data, and the drawing
 * decisions a renderer takes for each element. Style fields that are only
 * copied into CSS (font family, colour, alignment, shadows) are not part of
 * the model.
 */
module CardModel {
  import opened Wrappers
  import opened Strings

  /** What an element's `type` selects, with the fields that type reads. */
  datatype Body =
    | Text(content: string)
    | Image(src: string)
    | Stat(statKey: string, name: string, format: string)
    | Rectangle(fill: string, borderColor: string, borderWidth: Option<real>)
      /** A `type` other than the four above. */
    | Unknown(typeName: string)

  /**
   * One entry of a layout's `elements`. Absent strings are "", absent numbers
   * None; `name` is the element's `label`.
   */
  datatype Element = Element(
    id: string,
    visible: Option<bool>,
    x: real,
    y: real,
    width: Option<real>,
    zIndex: Option<real>,
    fontSize: Option<real>,
    body: Body)

  /** `element.visible` is truthy. */
  predicate Shown(e: Element)
  {
    e.visible == Some(true)
  }

  /** `element.zIndex || 1`. */
  function ZOf(e: Element): (z: real)
    ensures z != 0.0
    ensures e.zIndex.Some? && e.zIndex.value != 0.0 ==> z == e.zIndex.value
    ensures e.zIndex.None? || e.zIndex.value == 0.0 ==> z == 1.0
  {
    if e.zIndex.Some? && e.zIndex.value != 0.0 then e.zIndex.value else 1.0
  }

  /** `x || d` for an optional number. */
  function OrNumber(x: Option<real>, d: real): (r: real)
    ensures x.Some? && x.value != 0.0 ==> r == x.value
    ensures x.None? || x.value == 0.0 ==> r == d
  {
    if x.Some? && x.value != 0.0 then x.value else d
  }

  /** `s || d` for a string. */
  function OrString(s: string, d: string): (r: string)
    ensures s != "" ==> r == s
    ensures s == "" ==> r == d
  {
    if s != "" then s else d
  }

  /** A card layout; the border fields mark the bordered ("Donruss") variant. */
  datatype Layout = Layout(
    width: Option<real>,
    height: Option<real>,
    backgroundColor: string,
    backgroundImage: string,
    borderWidth: Option<real>,
    innerPadding: Option<real>,
    innerBackgroundColor: string,
    elements: seq<Element>)

  /** The layout read from `{}`: no field defined. */
  const EmptyLayout: Layout := Layout(None, None, "", "", None, None, "", [])

  datatype Jersey = JerseyNumber(n: int) | JerseyString(s: string)

  datatype Player = Player(
    name: string,
    team: string,
    position: string,
    jerseyNumber: Option<Jersey>,
    year: Option<int>,
    throws: string,
    imageUrl: string)

  /**
   * A stat's value as stored in `cardData.stats`. A number is carried as the
   * text JavaScript shows for it.
   */
  datatype StatValue = Num(shown: string) | Str(s: string) | Null | Undefined

  /** `${value}`. */
  function ShowValue(v: StatValue): string
  {
    match v
    case Num(shown) => shown
    case Str(s) => s
    case Null => "null"
    case Undefined => "undefined"
  }

  /** The stats object, as its entries in insertion order. */
  type StatsObject = seq<(string, StatValue)>

  datatype CardData = CardData(
    player: Player,
    stats: StatsObject,
    imageUrl: string,
    backImageUrl: string,
    highlights: string)

  /** `stats[key]`: the first entry under `key`, `undefined` when there is none. */
  function Lookup(stats: StatsObject, key: string): (v: StatValue)
    ensures v != Undefined ==> exists i :: 0 <= i < |stats| && stats[i] == (key, v)
    ensures (forall i :: 0 <= i < |stats| ==> stats[i].0 != key) ==> v == Undefined
  {
    if stats == [] then Undefined
    else if stats[0].0 == key then stats[0].1
    else Lookup(stats[1..], key)
  }

  /** A value the renderers treat as missing: undefined, null or ''. */
  predicate Missing(v: StatValue)
  {
    v == Undefined || v == Null || v == Str("")
  }

  /** `player.year` as a stat value: a number, or undefined. */
  function YearValue(p: Player): (v: StatValue)
    ensures p.year.None? <==> v == Undefined
    ensures p.year.Some? ==> v == Num(IntToString(p.year.value))
  {
    match p.year
    case None => Undefined
    case Some(y) => Num(IntToString(y))
  }

  /** `player.year` is truthy: present and not 0. */
  predicate YearTruthy(p: Player)
  {
    p.year.Some? && p.year.value != 0
  }

  /** `jerseyNumber?.toString() || ''`. */
  function JerseyText(p: Player): (s: string)
    ensures p.jerseyNumber.None? ==> s == ""
    ensures p.jerseyNumber.Some? && p.jerseyNumber.value.JerseyNumber? ==> s == IntToString(p.jerseyNumber.value.n)
    ensures p.jerseyNumber.Some? && p.jerseyNumber.value.JerseyString? ==> s == p.jerseyNumber.value.s
  {
    match p.jerseyNumber
    case None => ""
    case Some(JerseyNumber(n)) => IntToString(n)
    case Some(JerseyString(t)) => t
  }

  /** `year?.toString() || ''`. */
  function YearText(p: Player): (s: string)
    ensures p.year.None? <==> s == ""
    ensures p.year.Some? ==> s == IntToString(p.year.value)
  {
    match p.year
    case None => ""
    case Some(y) => IntToString(y)
  }

  /** `throws ? throws.charAt(0).toUpperCase() + throws.slice(1) : ''`. */
  function ThrowsText(p: Player): (s: string)
    ensures |s| == |p.throws|
    ensures s != "" ==> s[0] == UpperChar(p.throws[0]) && s[1..] == p.throws[1..]
  {
    if p.throws == "" then "" else [UpperChar(p.throws[0])] + p.throws[1..]
  }

  /** `careerHighlights || 'No highlights available'`. */
  function HighlightsText(d: CardData): (s: string)
    ensures s != ""
    ensures d.highlights != "" ==> s == d.highlights
    ensures d.highlights == "" ==> s == "No highlights available"
  {
    OrString(d.highlights, "No highlights available")
  }

  /** The text a stat element shows once its value is found. */
  function StatContent(statKey: string, name: string, format: string, value: StatValue): (s: string)
    ensures format == "value-only" ==> s == ShowValue(value)
    ensures format != "value-only" ==> s == OrString(name, statKey) + ": " + ShowValue(value)
  {
    var shownLabel := OrString(name, statKey);
    if format == "label-value" then shownLabel + ": " + ShowValue(value)
    else if format == "value-only" then ShowValue(value)
    else shownLabel + ": " + ShowValue(value)
  }

  /** The stat value both renderers read: `player.year` for `year`, else `stats[key]` with null/undefined as ''. */
  function StatValueOf(d: CardData, statKey: string): (v: StatValue)
    ensures statKey == "year" ==> v == YearValue(d.player)
    ensures statKey != "year" && v != Str("") ==> v == Lookup(d.stats, statKey) && v != Undefined && v != Null
    ensures statKey != "year" && Lookup(d.stats, statKey) != Undefined && Lookup(d.stats, statKey) != Null ==>
      v == Lookup(d.stats, statKey)
    ensures statKey != "year" && (Lookup(d.stats, statKey) == Undefined || Lookup(d.stats, statKey) == Null) ==>
      v == Str("")
  {
    if statKey == "year" then YearValue(d.player)
    else
      var v := Lookup(d.stats, statKey);
      if v == Undefined || v == Null then Str("") else v
  }

  /** A rectangle's border: `borderWidth || 1` wide in `borderColor`. */
  datatype Border = Border(width: real, color: string)

  /** What a renderer decided to draw for one element. */
  datatype Content =
    | Words(text: string)
    | Picture(src: string)
    | Box(fill: string, border: Option<Border>)

  datatype Drawn = Drawn(element: Element, z: real, content: Content)

  /** The border decision for a rectangle, the same in both renderers. */
  function RectangleBox(fill: string, borderColor: string, borderWidth: Option<real>): (c: Content)
    ensures c.Box? && c.fill == OrString(fill, "#FFFFFF")
    ensures c.border.Some? <==> borderColor != ""
    ensures c.border.Some? ==> c.border.value == Border(OrNumber(borderWidth, 1.0), borderColor)
  {
    Box(OrString(fill, "#FFFFFF"),
        if borderColor != "" then Some(Border(OrNumber(borderWidth, 1.0), borderColor)) else None)
  }

  /**
   * A rendered card side: either the fixed bordered-front structure, or the
   * generic card with its background and its items in list order.
   */
  datatype Face<T> =
    | Framed(
        borderWidth: real,
        innerPadding: real,
        backgroundColor: string,
        innerBackgroundColor: string,
        photo: string,
        name: Option<string>,
        position: Option<string>)
    | Plain(backgroundColor: string, backgroundImage: string, items: seq<T>)

  /** The first element with the given id. */
  function FindId(es: seq<Element>, id: string): (r: Option<Element>)
    ensures r.Some? ==> r.value in es && r.value.id == id
    ensures r.Some? ==> exists i :: 0 <= i < |es| && es[i] == r.value && forall j :: 0 <= j < i ==> es[j].id != id
    ensures r.None? ==> forall i :: 0 <= i < |es| ==> es[i].id != id
  {
    if es == [] then None
    else if es[0].id == id then Some(es[0])
    else FindId(es[1..], id)
  }

  /** `elements.find(el => el.id === 'player-photo' || el.type === 'image')`. */
  function FindPhoto(es: seq<Element>): (r: Option<Element>)
    ensures r.Some? ==> r.value in es && (r.value.id == "player-photo" || r.value.body.Image?)
    ensures r.Some? ==>
      exists i :: 0 <= i < |es| && es[i] == r.value && forall j :: 0 <= j < i ==> es[j].id != "player-photo" && !es[j].body.Image?
    ensures r.None? ==> forall i :: 0 <= i < |es| ==> es[i].id != "player-photo" && !es[i].body.Image?
  {
    if es == [] then None
    else if es[0].id == "player-photo" || es[0].body.Image? then Some(es[0])
    else FindPhoto(es[1..])
  }

  /** `photoElement?.src`, "" for a non-image element. */
  function PhotoSrc(photo: Option<Element>): string
  {
    if photo.Some? && photo.value.body.Image? then photo.value.body.src else ""
  }
}
