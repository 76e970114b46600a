/**
 * The stat table both renderers add to a bordered back: one header and one
 * value element per live stat, laid out in columns across the fixed stats
 * panel, an optional year label, all spliced in after the `stats-title`
 * element. The two renderers run the same code over their own abbreviation
 * table, which is a parameter here.
 */
module StatTable {
  import opened Wrappers
  import opened Strings
  import opened AbbrevLookup
  import opened CardModel

  /** The stats panel: x 140, width 600, with 20 of padding and a 50 wide year column. */
  const RectX: real := 140.0
  const RectWidth: real := 600.0
  const Padding: real := 20.0
  const YearColumnWidth: real := 50.0
  const MaxStats: nat := 10
  const AvailableWidth: real := RectWidth - Padding * 2.0 - YearColumnWidth
  const TableStartX: real := RectX + Padding + YearColumnWidth
  const HeaderRowY: real := 230.0
  const DataRowY: real := 230.0 + 25.0
  const TableZ: real := 10.0

  /** The keys whose value is not undefined, null or '', in entry order. */
  function LiveKeys(stats: StatsObject): (keys: seq<string>)
    ensures |keys| <= |stats|
    ensures forall k :: k in keys <==> exists i :: 0 <= i < |stats| && stats[i].0 == k && !Missing(stats[i].1)
    ensures |stats| == 1 ==> keys == (if Missing(stats[0].1) then [] else [stats[0].0])
    decreases |stats|
  {
    if stats == [] then []
    else
      var init := LiveKeys(stats[..|stats| - 1]);
      var last := stats[|stats| - 1];
      assert forall i :: 0 <= i < |stats| - 1 ==> stats[..|stats| - 1][i] == stats[i];
      if Missing(last.1) then init else init + [last.0]
  }

  /**
   * The columns follow entry order: the live keys of two runs of entries are
   * those of the first run followed by those of the second.
   */
  lemma {:induction false} LiveKeysAppend(a: StatsObject, b: StatsObject)
    ensures LiveKeys(a + b) == LiveKeys(a) + LiveKeys(b)
    decreases |b|
  {
    if b == [] {
      assert a + b == a;
    } else {
      var b' := b[..|b| - 1];
      assert (a + b)[..|a + b| - 1] == a + b';
      assert (a + b)[|a + b| - 1] == b[|b| - 1];
      LiveKeysAppend(a, b');
    }
  }

  /** `Math.min(n, maxStats)` columns share the available width. */
  function ColSpacing(n: nat): (c: real)
    requires n >= 1
    ensures c > 0.0
    ensures n <= MaxStats ==> c * n as real == AvailableWidth
    ensures n >= MaxStats ==> c == 51.0
  {
    AvailableWidth / (if n < MaxStats then n else MaxStats) as real
  }

  /** Each column takes 95% of its slot, leaving the rest as a gap. */
  function ColWidth(n: nat): (w: real)
    requires n >= 1
    ensures 0.0 < w < ColSpacing(n)
    ensures w == ColSpacing(n) * 0.95
  {
    ColSpacing(n) * 0.95
  }

  /** Column i starts at 210 + i * 510 / min(n, 10). */
  function ColumnX(i: nat, n: nat): (x: real)
    requires n >= 1
    ensures x >= TableStartX && TableStartX == 210.0
    ensures n <= MaxStats ==> x == 210.0 + i as real * 510.0 / n as real
    ensures n >= MaxStats ==> x == 210.0 + i as real * 51.0
  {
    TableStartX + i as real * ColSpacing(n)
  }

  /**
   * `Math.max(...keys.map(k => getStatAbbreviation(k).length), 4)`. Lengths
   * are counted in characters where JavaScript counts UTF-16 units; every
   * abbreviation in both tables is ASCII, so the two agree on them, and
   * differ only for a key outside the table written with astral characters.
   */
  function MaxLength(keys: seq<string>, table: Table): (m: nat)
    ensures m >= 4
    ensures forall i :: 0 <= i < |keys| ==> |Abbreviation(table, keys[i])| <= m
    decreases |keys|
  {
    if keys == [] then 4
    else
      var init := MaxLength(keys[..|keys| - 1], table);
      var last := |Abbreviation(table, keys[|keys| - 1])|;
      assert forall i :: 0 <= i < |keys| - 1 ==> keys[..|keys| - 1][i] == keys[i];
      if last > init then last else init
  }

  /** The width is set by one of the abbreviations, unless all are shorter than 4. */
  lemma {:induction false} MaxLengthAttained(keys: seq<string>, table: Table)
    ensures MaxLength(keys, table) == 4
      || exists i :: 0 <= i < |keys| && MaxLength(keys, table) == |Abbreviation(table, keys[i])|
    decreases |keys|
  {
    if keys != [] {
      var front := keys[..|keys| - 1];
      MaxLengthAttained(front, table);
      var m := MaxLength(keys, table);
      if m != 4 && m != |Abbreviation(table, keys[|keys| - 1])| {
        var j :| 0 <= j < |front| && m == |Abbreviation(table, front[j])|;
        assert keys[j] == front[j];
      }
    }
  }

  function Min(a: real, b: real): real
  {
    if a < b then a else b
  }

  /** The largest font the columns allow, for abbreviations of up to `len` characters. */
  function MaxFontSize(len: nat): real
    requires len >= 4
  {
    var colWidthForMax := (AvailableWidth / MaxStats as real) * 0.95;
    var estimatedCharWidth := len as real * 0.6;
    var calculated := (colWidthForMax / estimatedCharWidth) * 0.85;
    Min(Min(calculated, 18.0), (AvailableWidth / MaxStats as real) * 0.3)
  }

  /** `Math.max(12, Math.floor(maxFontSize * 0.9))`. */
  function HeaderFontSize(len: nat): (f: int)
    requires len >= 4
    ensures f >= 12 && f >= (MaxFontSize(len) * 0.9).Floor
    ensures f == 12 || f == (MaxFontSize(len) * 0.9).Floor
  {
    var f := (MaxFontSize(len) * 0.9).Floor;
    if f < 12 then 12 else f
  }

  /** `Math.max(14, Math.floor(maxFontSize))`. */
  function ValueFontSize(len: nat): (f: int)
    requires len >= 4
    ensures f >= 14 && f >= MaxFontSize(len).Floor
    ensures f == 14 || f == MaxFontSize(len).Floor
  {
    var f := MaxFontSize(len).Floor;
    if f < 14 then 14 else f
  }

  function HeaderAt(keys: seq<string>, i: nat, table: Table, font: int): Element
    requires i < |keys|
  {
    Element("dynamic-stat-header-" + keys[i], Some(true), ColumnX(i, |keys|), HeaderRowY,
            Some(ColWidth(|keys|)), Some(TableZ), Some(font as real), Text(Abbreviation(table, keys[i])))
  }

  function ValueAt(keys: seq<string>, i: nat, font: int): Element
    requires i < |keys|
  {
    Element("dynamic-stat-value-" + keys[i], Some(true), ColumnX(i, |keys|), DataRowY,
            Some(ColWidth(|keys|)), Some(TableZ), Some(font as real), Stat(keys[i], "", "value-only"))
  }

  function YearLabel(year: int, font: int): Element
  {
    Element("dynamic-stat-year-label", Some(true), RectX + Padding, DataRowY,
            Some(YearColumnWidth), Some(TableZ), Some(font as real), Text(IntToString(year)))
  }

  /** The year label, when there is one. */
  function YearPart(player: Player, font: int): (ys: seq<Element>)
    ensures |ys| == if YearTruthy(player) then 1 else 0
    ensures YearTruthy(player) ==> ys[0] == YearLabel(player.year.value, font)
  {
    if YearTruthy(player) then [YearLabel(player.year.value, font)] else []
  }

  function Headers(keys: seq<string>, table: Table, font: int): (hs: seq<Element>)
    ensures |hs| == |keys|
  {
    seq(|keys|, i requires 0 <= i < |keys| => HeaderAt(keys, i, table, font))
  }

  function Values(keys: seq<string>, font: int): (vs: seq<Element>)
    ensures |vs| == |keys|
  {
    seq(|keys|, i requires 0 <= i < |keys| => ValueAt(keys, i, font))
  }

  /** The elements the table adds, in the order they are pushed. */
  function TableElements(keys: seq<string>, player: Player, table: Table): (t: seq<Element>)
    requires |keys| >= 1
    ensures |t| == 2 * |keys| + (if YearTruthy(player) then 1 else 0)
  {
    var len := MaxLength(keys, table);
    Headers(keys, table, HeaderFontSize(len)) + Values(keys, ValueFontSize(len)) + YearPart(player, ValueFontSize(len))
  }

  /** The index of the first `stats-title` element. */
  function FindTitle(es: seq<Element>): (r: Option<nat>)
    ensures r.Some? ==> r.value < |es| && es[r.value].id == "stats-title"
    ensures forall j :: 0 <= j < |es| && (r.None? || j < r.value) ==> es[j].id != "stats-title"
  {
    if es == [] then None
    else if es[0].id == "stats-title" then Some(0)
    else match FindTitle(es[1..])
      case None => None
      case Some(i) => Some(i + 1)
  }

  lemma {:induction false} FindTitleIs(es: seq<Element>, t: nat)
    requires t < |es| && es[t].id == "stats-title"
    requires forall j :: 0 <= j < t ==> es[j].id != "stats-title"
    ensures FindTitle(es) == Some(t)
  {
  }

  /** The extra elements go right after the first `stats-title`, or at the end. */
  function Splice(es: seq<Element>, extra: seq<Element>): (r: seq<Element>)
    ensures var p := InsertionPoint(es);
      |r| == |es| + |extra| && r[..p] == es[..p] && r[p..p + |extra|] == extra && r[p + |extra|..] == es[p..]
  {
    match FindTitle(es)
    case Some(t) => es[..t + 1] + extra + es[t + 1..]
    case None => es + extra
  }

  /** The element list of a bordered back once the table is added (unchanged without live stats). */
  function WithStatTable(es: seq<Element>, d: CardData, table: Table): (r: seq<Element>)
    ensures LiveKeys(d.stats) == [] ==> r == es
    ensures LiveKeys(d.stats) != [] ==>
      |r| == |es| + 2 * |LiveKeys(d.stats)| + (if YearTruthy(d.player) then 1 else 0)
      && r[..InsertionPoint(es)] == es[..InsertionPoint(es)]
      && r[InsertionPoint(es) + |r| - |es|..] == es[InsertionPoint(es)..]
    ensures LiveKeys(d.stats) != [] ==>
      |r| == |es| + |TableElements(LiveKeys(d.stats), d.player, table)|
      && r[InsertionPoint(es)..InsertionPoint(es) + |r| - |es|] == TableElements(LiveKeys(d.stats), d.player, table)
  {
    var keys := LiveKeys(d.stats);
    if keys == [] then es else Splice(es, TableElements(keys, d.player, table))
  }

  /** `Object.keys(stats).filter(...)`. */
  method CollectLiveKeys(stats: StatsObject) returns (keys: seq<string>)
    ensures keys == LiveKeys(stats)
  {
    keys := [];
    var i := 0;
    while i < |stats|
      invariant 0 <= i <= |stats|
      invariant keys == LiveKeys(stats[..i])
    {
      assert stats[..i + 1][..i] == stats[..i];
      if !Missing(stats[i].1) {
        keys := keys + [stats[i].0];
      }
      i := i + 1;
    }
    assert stats[..|stats|] == stats;
  }

  /** The longest abbreviation among the keys, at least 4. */
  method LongestAbbreviation(keys: seq<string>, table: Table) returns (maxLen: nat)
    ensures maxLen == MaxLength(keys, table)
  {
    maxLen := 4;
    var i := 0;
    while i < |keys|
      invariant 0 <= i <= |keys|
      invariant maxLen == MaxLength(keys[..i], table)
    {
      assert keys[..i + 1][..i] == keys[..i];
      var abbrev := GetStatAbbreviation(table, keys[i]);
      if |abbrev| > maxLen {
        maxLen := |abbrev|;
      }
      i := i + 1;
    }
    assert keys[..|keys|] == keys;
  }

  /** The header-row `forEach`, pushing onto `dynamicStats`. */
  method PushHeaders(dynamicStats: seq<Element>, keys: seq<string>, table: Table, headerFont: int)
    returns (r: seq<Element>)
    requires |keys| >= 1
    ensures r == dynamicStats + Headers(keys, table, headerFont)
  {
    var n := |keys|;
    r := dynamicStats;
    var i := 0;
    while i < n
      invariant 0 <= i <= n
      invariant r == dynamicStats + Headers(keys, table, headerFont)[..i]
    {
      var abbrev := GetStatAbbreviation(table, keys[i]);
      var header := Element("dynamic-stat-header-" + keys[i], Some(true),
        TableStartX + i as real * ColSpacing(n), HeaderRowY, Some(ColSpacing(n) * 0.95), Some(TableZ),
        Some(headerFont as real), Text(abbrev));
      assert header == HeaderAt(keys, i, table, headerFont);
      r := r + [header];
      assert Headers(keys, table, headerFont)[..i + 1] == Headers(keys, table, headerFont)[..i] + [header];
      i := i + 1;
    }
    assert Headers(keys, table, headerFont)[..n] == Headers(keys, table, headerFont);
  }

  /** The data-row `forEach`. */
  method PushValues(dynamicStats: seq<Element>, keys: seq<string>, valueFont: int)
    returns (r: seq<Element>)
    requires |keys| >= 1
    ensures r == dynamicStats + Values(keys, valueFont)
  {
    var n := |keys|;
    r := dynamicStats;
    var i := 0;
    while i < n
      invariant 0 <= i <= n
      invariant r == dynamicStats + Values(keys, valueFont)[..i]
    {
      var value := Element("dynamic-stat-value-" + keys[i], Some(true),
        TableStartX + i as real * ColSpacing(n), DataRowY, Some(ColSpacing(n) * 0.95), Some(TableZ),
        Some(valueFont as real), Stat(keys[i], "", "value-only"));
      assert value == ValueAt(keys, i, valueFont);
      r := r + [value];
      assert Values(keys, valueFont)[..i + 1] == Values(keys, valueFont)[..i] + [value];
      i := i + 1;
    }
    assert Values(keys, valueFont)[..n] == Values(keys, valueFont);
  }

  /** `findIndex(el => el.id === 'stats-title')`. */
  method FindTitleIndex(es: seq<Element>) returns (r: Option<nat>)
    ensures r == FindTitle(es)
  {
    var t := 0;
    while t < |es| && es[t].id != "stats-title"
      invariant 0 <= t <= |es|
      invariant forall j :: 0 <= j < t ==> es[j].id != "stats-title"
    {
      t := t + 1;
    }
    if t < |es| {
      FindTitleIs(es, t);
      r := Some(t);
    } else {
      r := None;
    }
  }

  /** The two `forEach` loops and the optional year label, building `dynamicStats`. */
  method BuildTable(keys: seq<string>, player: Player, table: Table) returns (dynamicStats: seq<Element>)
    requires |keys| >= 1
    ensures dynamicStats == TableElements(keys, player, table)
  {
    var maxLen := LongestAbbreviation(keys, table);
    var headerFont := HeaderFontSize(maxLen);
    var valueFont := ValueFontSize(maxLen);
    var hs := PushHeaders([], keys, table, headerFont);
    var vs := PushValues(hs, keys, valueFont);
    assert vs == Headers(keys, table, headerFont) + Values(keys, valueFont);
    var year := YearPart(player, valueFont);
    dynamicStats := vs + year;
    TableParts(keys, player, table);
  }

  /** Insert after the first `stats-title`, or append. */
  method SpliceAfterTitle(es: seq<Element>, dynamicStats: seq<Element>) returns (r: seq<Element>)
    ensures r == Splice(es, dynamicStats)
  {
    var title := FindTitleIndex(es);
    if title.Some? {
      r := es[..title.value + 1] + dynamicStats + es[title.value + 1..];
    } else {
      r := es + dynamicStats;
    }
  }

  /** The statements of the bordered-back branch. */
  method AddStatTable(es: seq<Element>, d: CardData, table: Table) returns (r: seq<Element>)
    ensures r == WithStatTable(es, d, table)
  {
    var keys := CollectLiveKeys(d.stats);
    if |keys| == 0 {
      return es;
    }
    var dynamicStats := BuildTable(keys, d.player, table);
    r := SpliceAfterTitle(es, dynamicStats);
  }

  /** Whatever the abbreviations, headers are 12 or 13 and values 14 or 15 pixels. */
  lemma {:induction false} FontSizesBounded(len: nat)
    requires len >= 4
    ensures 12 <= HeaderFontSize(len) <= 13
    ensures 14 <= ValueFontSize(len) <= 15
  {
    var m := MaxFontSize(len);
    assert m <= 15.3;
    assert (m * 0.9).Floor <= 13 by {
      assert m * 0.9 <= 13.77;
    }
    assert m.Floor <= 15;
  }

  /** Abbreviations of at most 4 characters give 13 and 15; any longer one gives 12 and 14. */
  lemma {:induction false} FontSizesExact(len: nat)
    requires len >= 4
    ensures len == 4 ==> HeaderFontSize(len) == 13 && ValueFontSize(len) == 15
    ensures len >= 5 ==> HeaderFontSize(len) == 12 && ValueFontSize(len) == 14
  {
    var w := len as real * 0.6;
    var calculated := (51.0 * 0.95 / w) * 0.85;
    assert MaxFontSize(len) == Min(Min(calculated, 18.0), 15.3);
    if len == 4 {
      assert calculated > 15.3;
      assert MaxFontSize(len) == 15.3;
    } else {
      assert w >= 3.0;
      assert 51.0 * 0.95 / w <= 51.0 * 0.95 / 3.0;
      assert calculated <= 13.7275;
      assert MaxFontSize(len) <= 13.7275;
      assert (MaxFontSize(len) * 0.9).Floor <= 12;
      assert MaxFontSize(len).Floor <= 13;
    }
  }

  /** With at most ten stats the columns stay apart and end before x = 720. */
  lemma {:induction false} ColumnsFit(n: nat, i: nat)
    requires 1 <= n <= MaxStats && i < n
    ensures ColumnX(i, n) + ColWidth(n) < TableStartX + AvailableWidth
    ensures i + 1 < n ==> ColumnX(i, n) + ColWidth(n) < ColumnX(i + 1, n)
    ensures TableStartX + AvailableWidth == 720.0
  {
    var c := ColSpacing(n);
    assert c * n as real == 510.0;
    assert c > 0.0;
    assert (i as real + 0.95) * c <= (n as real - 0.05) * c;
  }

  /** With more than ten stats the spacing stays at 51, so columns from the eleventh on start at or past 720. */
  lemma {:induction false} ColumnsOverflow(n: nat, i: nat)
    requires n > MaxStats && MaxStats <= i < n
    ensures ColSpacing(n) == 51.0
    ensures ColumnX(i, n) >= 720.0
  {
  }

  /** Without live stats the element list is left as it is. */
  lemma {:induction false} NoLiveStatsNoTable(es: seq<Element>, d: CardData, table: Table)
    requires forall i :: 0 <= i < |d.stats| ==> Missing(d.stats[i].1)
    ensures WithStatTable(es, d, table) == es
  {
    LiveKeysNone(d.stats);
  }

  lemma {:induction false} LiveKeysNone(stats: StatsObject)
    requires forall i :: 0 <= i < |stats| ==> Missing(stats[i].1)
    ensures LiveKeys(stats) == []
    decreases |stats|
  {
    if stats != [] {
      LiveKeysNone(stats[..|stats| - 1]);
    }
  }

  /** The table holds a header and a value per live key, and the year label exactly when the year is truthy. */
  lemma {:induction false} TableLength(keys: seq<string>, player: Player, table: Table)
    requires |keys| >= 1
    ensures |TableElements(keys, player, table)| == 2 * |keys| + (if YearTruthy(player) then 1 else 0)
  {
    TableParts(keys, player, table);
  }

  /** The headers come first, one per live key in key order, each showing the key's abbreviation. */
  lemma {:induction false} TableHeaders(keys: seq<string>, player: Player, table: Table)
    requires |keys| >= 1
    ensures var t := TableElements(keys, player, table);
      forall i :: 0 <= i < |keys| ==>
        t[i].id == "dynamic-stat-header-" + keys[i] && t[i].body == Text(Abbreviation(table, keys[i]))
  {
    var len := MaxLength(keys, table);
    var hs, vs := Headers(keys, table, HeaderFontSize(len)), Values(keys, ValueFontSize(len));
    TableParts(keys, player, table);
    ConcatParts(hs, vs, YearPart(player, ValueFontSize(len)));
    HeadersShape(keys, table, HeaderFontSize(len));
  }

  /** The values follow, one per live key in key order, each the key's bare value. */
  lemma {:induction false} TableValues(keys: seq<string>, player: Player, table: Table)
    requires |keys| >= 1
    ensures var t := TableElements(keys, player, table);
      forall i :: 0 <= i < |keys| ==>
        t[|keys| + i].id == "dynamic-stat-value-" + keys[i] && t[|keys| + i].body == Stat(keys[i], "", "value-only")
  {
    var len := MaxLength(keys, table);
    TableParts(keys, player, table);
    ValuesAfter(Headers(keys, table, HeaderFontSize(len)), keys, ValueFontSize(len), YearPart(player, ValueFontSize(len)));
  }

  /** Value rows placed after one element per key keep their keys' order. */
  lemma {:induction false} ValuesAfter(hs: seq<Element>, keys: seq<string>, font: int, ys: seq<Element>)
    requires |hs| == |keys|
    ensures var t := hs + Values(keys, font) + ys;
      forall i :: 0 <= i < |keys| ==>
        t[|keys| + i].id == "dynamic-stat-value-" + keys[i] && t[|keys| + i].body == Stat(keys[i], "", "value-only")
  {
    var vs := Values(keys, font);
    var t := hs + vs + ys;
    ConcatParts(hs, vs, ys);
    ValuesShape(keys, font);
    forall i | 0 <= i < |keys|
      ensures t[|keys| + i].id == "dynamic-stat-value-" + keys[i] && t[|keys| + i].body == Stat(keys[i], "", "value-only")
    {
      var j := |hs| + i;
      assert t[j] == vs[j - |hs|];
    }
  }

  /** A truthy year adds its label last. */
  lemma {:induction false} TableYearLabel(keys: seq<string>, player: Player, table: Table)
    requires |keys| >= 1 && YearTruthy(player)
    ensures var t := TableElements(keys, player, table);
      |t| == 2 * |keys| + 1
      && t[2 * |keys|].id == "dynamic-stat-year-label" && t[2 * |keys|].body == Text(IntToString(player.year.value))
  {
    var len := MaxLength(keys, table);
    var hs, vs := Headers(keys, table, HeaderFontSize(len)), Values(keys, ValueFontSize(len));
    var t := TableElements(keys, player, table);
    TableParts(keys, player, table);
    ConcatParts(hs, vs, YearPart(player, ValueFontSize(len)));
    assert t[2 * |keys|] == YearPart(player, ValueFontSize(len))[0];
  }

  /** The table's elements are the headers, the values and the optional year label, in that order. */
  lemma {:induction false} TableParts(keys: seq<string>, player: Player, table: Table)
    requires |keys| >= 1
    ensures var len := MaxLength(keys, table);
      TableElements(keys, player, table)
      == Headers(keys, table, HeaderFontSize(len)) + Values(keys, ValueFontSize(len)) + YearPart(player, ValueFontSize(len))
  {
  }

  lemma {:induction false} HeadersShape(keys: seq<string>, table: Table, font: int)
    ensures forall i :: 0 <= i < |keys| ==>
      Headers(keys, table, font)[i].id == "dynamic-stat-header-" + keys[i]
      && Headers(keys, table, font)[i].body == Text(Abbreviation(table, keys[i]))
  {
  }

  lemma {:induction false} ValuesShape(keys: seq<string>, font: int)
    ensures forall i :: 0 <= i < |keys| ==>
      Values(keys, font)[i].id == "dynamic-stat-value-" + keys[i]
      && Values(keys, font)[i].body == Stat(keys[i], "", "value-only")
  {
  }

  /** Where each part of a three-part concatenation lands. */
  lemma {:induction false} ConcatParts(a: seq<Element>, b: seq<Element>, c: seq<Element>)
    ensures forall i :: 0 <= i < |a| ==> (a + b + c)[i] == a[i]
    ensures forall i :: |a| <= i < |a| + |b| ==> (a + b + c)[i] == b[i - |a|]
    ensures forall i :: |a| + |b| <= i < |a| + |b| + |c| ==> (a + b + c)[i] == c[i - |a| - |b|]
  {
  }

  predicate Marked(e: Element)
  {
    Shown(e) && e.zIndex == Some(TableZ) && StartsWith(e.id, "dynamic-stat-")
  }

  lemma {:induction false} HeadersMarked(keys: seq<string>, table: Table, font: int)
    ensures forall i :: 0 <= i < |keys| ==> Marked(Headers(keys, table, font)[i])
  {
    forall i | 0 <= i < |keys| ensures Marked(Headers(keys, table, font)[i]) {
      assert Headers(keys, table, font)[i].id[..13] == "dynamic-stat-";
    }
  }

  lemma {:induction false} ValuesMarked(keys: seq<string>, font: int)
    ensures forall i :: 0 <= i < |keys| ==> Marked(Values(keys, font)[i])
  {
    forall i | 0 <= i < |keys| ensures Marked(Values(keys, font)[i]) {
      assert Values(keys, font)[i].id[..13] == "dynamic-stat-";
    }
  }

  /** Every added element is visible, at z-index 10, with an id starting `dynamic-stat-`. */
  lemma {:induction false} TableElementsMarked(keys: seq<string>, player: Player, table: Table)
    requires |keys| >= 1
    ensures var t := TableElements(keys, player, table);
      forall i :: 0 <= i < |t| ==> Marked(t[i])
  {
    var len := MaxLength(keys, table);
    var hs := Headers(keys, table, HeaderFontSize(len));
    var vs := Values(keys, ValueFontSize(len));
    var ys: seq<Element> := if YearTruthy(player) then [YearLabel(player.year.value, ValueFontSize(len))] else [];
    HeadersMarked(keys, table, HeaderFontSize(len));
    ValuesMarked(keys, ValueFontSize(len));
    assert forall i :: 0 <= i < |ys| ==> Marked(ys[i]) by {
      assert "dynamic-stat-year-label"[..13] == "dynamic-stat-";
    }
    assert TableElements(keys, player, table) == hs + vs + ys;
    ConcatMarked(hs, vs);
    ConcatMarked(hs + vs, ys);
  }

  lemma {:induction false} ConcatMarked(a: seq<Element>, b: seq<Element>)
    requires forall i :: 0 <= i < |a| ==> Marked(a[i])
    requires forall i :: 0 <= i < |b| ==> Marked(b[i])
    ensures forall i :: 0 <= i < |a + b| ==> Marked((a + b)[i])
  {
    forall i | 0 <= i < |a + b|
      ensures Marked((a + b)[i])
    {
      if i >= |a| {
        assert (a + b)[i] == b[i - |a|];
      }
    }
  }

  /** Where the table goes: just after the first `stats-title`, or at the end. */
  function InsertionPoint(es: seq<Element>): (p: nat)
    ensures p <= |es|
  {
    match FindTitle(es)
    case Some(t) => t + 1
    case None => |es|
  }

  /**
   * The added block sits at the insertion point, and taking it out gives back
   * the authored elements in their order.
   */
  lemma {:induction false} SpliceKeepsAuthored(es: seq<Element>, extra: seq<Element>)
    ensures var r, p := Splice(es, extra), InsertionPoint(es);
      |r| == |es| + |extra|
      && r[p..p + |extra|] == extra
      && r[..p] + r[p + |extra|..] == es
  {
    var r, p := Splice(es, extra), InsertionPoint(es);
    assert r == es[..p] + extra + es[p..];
    assert r[..p] == es[..p];
    assert r[p + |extra|..] == es[p..];
    assert es[..p] + es[p..] == es;
  }

  /** An insertion point inside the list, or after a title, is just after the first `stats-title`. */
  lemma {:induction false} InsertionAfterFirstTitle(es: seq<Element>)
    ensures var p := InsertionPoint(es);
      (p < |es| || (p > 0 && es[p - 1].id == "stats-title")) ==>
        p > 0 && es[p - 1].id == "stats-title" && forall j :: 0 <= j < p - 1 ==> es[j].id != "stats-title"
  {
  }

  /** Without a `stats-title` the block goes at the end. */
  lemma {:induction false} SpliceWithoutTitleAppends(es: seq<Element>, extra: seq<Element>)
    ensures (forall j :: 0 <= j < |es| ==> es[j].id != "stats-title") ==> Splice(es, extra) == es + extra
  {
    if forall j :: 0 <= j < |es| ==> es[j].id != "stats-title" {
      assert FindTitle(es).None?;
    }
  }
}
