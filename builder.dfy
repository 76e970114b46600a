/**
 * The card builder page: the bounded stat selection, the card data it hands
 * to the preview and to save, the checks made before saving, and the choice
 * of the template selected by default.
 */
module Builder {
  import opened Wrappers
  import opened Strings
  import opened CardModel
  import opened StatTable
  import P = CardPreview

  // The stat selection

  /** At most this many stats can be selected for a card. */
  const MaxSelectedStats: nat := 10

  predicate NoDuplicates(s: seq<string>)
  {
    forall i, j :: 0 <= i < j < |s| ==> s[i] != s[j]
  }

  lemma {:induction false} NoDuplicatesTail(s: seq<string>)
    requires s != [] && NoDuplicates(s)
    ensures s[0] !in s[1..] && NoDuplicates(s[1..])
  {
    forall j | 0 <= j < |s[1..]| ensures s[1..][j] != s[0] {
      assert s[1..][j] == s[j + 1];
    }
  }

  lemma {:induction false} NoDuplicatesCons(x: string, r: seq<string>)
    requires x !in r && NoDuplicates(r)
    ensures NoDuplicates([x] + r)
  {
    forall i, j | 0 <= i < j < |[x] + r| ensures ([x] + r)[i] != ([x] + r)[j] {
      assert ([x] + r)[j] == r[j - 1];
      if i > 0 {
        assert ([x] + r)[i] == r[i - 1];
      }
    }
  }

  /** The position of the first occurrence of `key` in `s`. */
  function Position(s: seq<string>, key: string): (i: nat)
    requires key in s
    ensures i < |s| && s[i] == key && key !in s[..i]
  {
    if s[0] == key then 0
    else
      var j := Position(s[1..], key);
      assert s[..j + 1] == [s[0]] + s[1..][..j];
      j + 1
  }

  /** Dropping position `j + 1` of `s` keeps its head and drops position `j` of its tail. */
  lemma {:induction false} RemoveAfterHead(s: seq<string>, j: nat)
    requires j + 1 < |s|
    ensures s[..j + 1] + s[j + 2..] == [s[0]] + (s[1..][..j] + s[1..][j + 1..])
  {
    assert s[..j + 1] == [s[0]] + s[1..][..j];
    assert s[j + 2..] == s[1..][j + 1..];
  }

  /** `Set.prototype.delete`: the key removed, the other keys in insertion order. */
  function Without(s: seq<string>, key: string): (r: seq<string>)
    ensures forall x :: x in r <==> x in s && x != key
    ensures |r| <= |s|
    ensures key !in s ==> r == s
    ensures NoDuplicates(s) ==> NoDuplicates(r)
    ensures NoDuplicates(s) && key in s ==> |r| == |s| - 1
    ensures NoDuplicates(s) && key in s ==> r == s[..Position(s, key)] + s[Position(s, key) + 1..]
  {
    if s == [] then []
    else
      var rest := Without(s[1..], key);
      assert s == [s[0]] + s[1..];
      if s[0] == key then
        if NoDuplicates(s) then
          NoDuplicatesTail(s);
          assert s[..0] + s[1..] == s[1..];
          rest
        else rest
      else
        if NoDuplicates(s) then
          NoDuplicatesTail(s);
          NoDuplicatesCons(s[0], rest);
          if key in s then
            RemoveAfterHead(s, Position(s[1..], key));
            [s[0]] + rest
          else [s[0]] + rest
        else [s[0]] + rest
  }

  /** The selection after `toggleStatSelection(key)`. */
  function Toggled(s: seq<string>, key: string): (r: seq<string>)
    ensures key in s ==> key !in r && forall x :: x != key ==> (x in r <==> x in s)
    ensures key in s ==> r == Without(s, key)
    ensures key !in s && |s| < MaxSelectedStats ==> r == s + [key]
    ensures key !in s && |s| >= MaxSelectedStats ==> r == s
    ensures NoDuplicates(s) && |s| <= MaxSelectedStats ==> NoDuplicates(r) && |r| <= MaxSelectedStats
  {
    if key in s then Without(s, key)
    else if |s| < MaxSelectedStats then s + [key]
    else s
  }

  /** Toggling a key twice from a selection with room for it gives back the same selection. */
  lemma {:induction false} ToggleTwice(s: seq<string>, key: string)
    requires key !in s && |s| < MaxSelectedStats
    ensures Toggled(Toggled(s, key), key) == s
  {
    WithoutLast(s, key);
  }

  lemma {:induction false} WithoutLast(s: seq<string>, key: string)
    requires key !in s
    ensures Without(s + [key], key) == s
  {
    if s == [] {
      assert [] + [key] == [key];
      assert [key][1..] == [];
    } else {
      assert (s + [key])[0] == s[0];
      assert (s + [key])[1..] == s[1..] + [key];
      WithoutLast(s[1..], key);
      assert s == [s[0]] + s[1..];
    }
  }

  /** The page's selection; a JavaScript `Set` keeps its keys in insertion order. */
  class StatSelection {
    var selected: seq<string>

    ghost predicate Valid()
      reads this
    {
      NoDuplicates(selected) && |selected| <= MaxSelectedStats
    }

    constructor ()
      ensures selected == [] && Valid()
    {
      selected := [];
    }

    /**
     * `toggleStatSelection`: removes a selected key, adds a new one while
     * fewer than ten are selected, and otherwise refuses (the alert).
     */
    method Toggle(statKey: string) returns (refused: bool)
      requires Valid()
      modifies this
      ensures Valid()
      ensures selected == Toggled(old(selected), statKey)
      ensures refused <==> statKey !in old(selected) && |old(selected)| >= MaxSelectedStats
    {
      refused := false;
      if statKey in selected {
        selected := Without(selected, statKey);
      } else {
        if |selected| < MaxSelectedStats {
          selected := selected + [statKey];
        } else {
          refused := true;
        }
      }
    }
  }

  // The stats sent with the card

  /** The selected keys whose calculated value is not undefined, null or '', in selection order. */
  function SelectedKeys(selected: seq<string>, calculated: map<string, StatValue>): (r: seq<string>)
    ensures |r| <= |selected|
    ensures forall k :: k in r <==> k in selected && k in calculated && !Missing(calculated[k])
    ensures NoDuplicates(selected) ==> NoDuplicates(r)
    ensures |selected| == 1 ==>
      r == (if selected[0] in calculated && !Missing(calculated[selected[0]]) then selected else [])
  {
    if selected == [] then []
    else
      var rest := SelectedKeys(selected[1..], calculated);
      assert selected == [selected[0]] + selected[1..];
      var k := selected[0];
      if k in calculated && !Missing(calculated[k]) then
        if NoDuplicates(selected) then
          NoDuplicatesTail(selected);
          NoDuplicatesCons(k, rest);
          [k] + rest
        else [k] + rest
      else rest
  }

  /** `Object.fromEntries(...)` of those keys with their values. */
  function SelectedStats(selected: seq<string>, calculated: map<string, StatValue>): (stats: StatsObject)
    ensures |stats| == |SelectedKeys(selected, calculated)|
    ensures forall i :: 0 <= i < |stats| ==>
      stats[i].0 in selected && stats[i].0 in calculated && stats[i].1 == calculated[stats[i].0] && !Missing(stats[i].1)
    ensures forall i :: 0 <= i < |stats| ==> stats[i].0 == SelectedKeys(selected, calculated)[i]
  {
    var keys := SelectedKeys(selected, calculated);
    seq(|keys|, i requires 0 <= i < |keys| => (keys[i], calculated[keys[i]]))
  }

  /**
   * The filter keeps selection order: the live keys of a selection split in
   * two are those of the first part followed by those of the second.
   */
  lemma {:induction false} SelectedKeysAppend(a: seq<string>, b: seq<string>, calculated: map<string, StatValue>)
    ensures SelectedKeys(a + b, calculated) == SelectedKeys(a, calculated) + SelectedKeys(b, calculated)
    decreases |a|
  {
    if a == [] {
      assert a + b == b;
    } else {
      assert (a + b)[0] == a[0];
      assert (a + b)[1..] == a[1..] + b;
      SelectedKeysAppend(a[1..], b, calculated);
    }
  }

  /** Every entry of a stats object is live: its live keys are all of its keys. */
  lemma {:induction false} LiveKeysAllLive(stats: StatsObject)
    requires forall i :: 0 <= i < |stats| ==> !Missing(stats[i].1)
    ensures LiveKeys(stats) == seq(|stats|, i requires 0 <= i < |stats| => stats[i].0)
    decreases |stats|
  {
    if stats != [] {
      var init := stats[..|stats| - 1];
      LiveKeysAllLive(init);
      assert seq(|stats|, i requires 0 <= i < |stats| => stats[i].0)
          == seq(|init|, i requires 0 <= i < |init| => init[i].0) + [stats[|stats| - 1].0];
    }
  }

  /** The stat table of the saved card has one column per selected stat with a value, in selection order. */
  lemma {:induction false} TableColumnsAreSelection(selected: seq<string>, calculated: map<string, StatValue>)
    ensures LiveKeys(SelectedStats(selected, calculated)) == SelectedKeys(selected, calculated)
  {
    var stats := SelectedStats(selected, calculated);
    LiveKeysAllLive(stats);
    assert seq(|stats|, i requires 0 <= i < |stats| => stats[i].0) == SelectedKeys(selected, calculated);
  }

  /** With a valid selection the table never has more than ten columns, so they all fit the stats panel. */
  lemma {:induction false} SelectionFitsTable(s: StatSelection, calculated: map<string, StatValue>, i: nat)
    requires s.Valid()
    requires i < |SelectedKeys(s.selected, calculated)|
    ensures var n := |LiveKeys(SelectedStats(s.selected, calculated))|;
      1 <= n <= MaxStats && ColumnX(i, n) + ColWidth(n) < 720.0
  {
    TableColumnsAreSelection(s.selected, calculated);
    ColumnsFit(|SelectedKeys(s.selected, calculated)|, i);
  }

  // Parsing the typed numbers

  /** The leading decimal digits of `s`. */
  function DigitRun(s: string): (r: string)
    ensures |r| <= |s| && r == s[..|r|]
    ensures forall k :: 0 <= k < |r| ==> IsDigit(r[k])
    ensures |r| == |s| || !IsDigit(s[|r|])
  {
    if s != [] && IsDigit(s[0]) then [s[0]] + DigitRun(s[1..]) else []
  }

  predicate IsHexDigit(c: char)
  {
    IsDigit(c) || 'a' <= c <= 'f' || 'A' <= c <= 'F'
  }

  function HexDigitValue(c: char): (v: nat)
    requires IsHexDigit(c)
    ensures v < 16
  {
    if IsDigit(c) then c as int - '0' as int
    else if 'a' <= c <= 'f' then c as int - 'a' as int + 10
    else c as int - 'A' as int + 10
  }

  /** The leading hexadecimal digits of `s`. */
  function HexRun(s: string): (r: string)
    ensures |r| <= |s| && r == s[..|r|]
    ensures forall k :: 0 <= k < |r| ==> IsHexDigit(r[k])
    ensures |r| == |s| || !IsHexDigit(s[|r|])
  {
    if s != [] && IsHexDigit(s[0]) then [s[0]] + HexRun(s[1..]) else []
  }

  function HexValue(s: string): nat
    requires forall k :: 0 <= k < |s| ==> IsHexDigit(s[k])
  {
    if s == [] then 0
    else
      assert IsHexDigit(s[|s| - 1]);
      HexValue(s[..|s| - 1]) * 16 + HexDigitValue(s[|s| - 1])
  }

  /** The digits after the sign: hexadecimal after `0x` or `0X`, else decimal, None when there are none. */
  function ParseUnsigned(body: string): (r: Option<nat>)
  {
    if |body| >= 2 && body[0] == '0' && (body[1] == 'x' || body[1] == 'X') then
      var h := HexRun(body[2..]);
      if h == [] then None else Some(HexValue(h))
    else
      var ds := DigitRun(body);
      if ds == [] then None else Some(DecimalValue(ds))
  }

  /**
   * `parseInt(s)` without a radix, None standing for NaN: leading white space
   * is skipped, a sign is read, a `0x` or `0X` prefix selects base 16, and
   * the digits are read up to the first character that is not one.
   */
  function ParseInt(s: string): (r: Option<int>)
    ensures TrimStart(s) == [] ==> r.None?
    ensures TrimStart(s) != [] && '1' <= TrimStart(s)[0] <= '9' ==> r.Some? && r.value >= 0
    ensures TrimStart(s) != [] && TrimStart(s)[0] == '-' && r.Some? ==> r.value <= 0
  {
    ParseSigned(TrimStart(s))
  }

  /** The sign and digits of a string without leading white space. */
  function ParseSigned(t: string): (r: Option<int>)
  {
    if t != [] && t[0] == '-' then
      match ParseUnsigned(t[1..])
      case None => None
      case Some(m) => Some(-(m as int))
    else if t != [] && t[0] == '+' then
      match ParseUnsigned(t[1..])
      case None => None
      case Some(m) => Some(m as int)
    else
      match ParseUnsigned(t)
      case None => None
      case Some(m) => Some(m as int)
  }

  lemma {:induction false} DigitRunOfDigits(a: string, rest: string)
    requires forall k :: 0 <= k < |a| ==> IsDigit(a[k])
    requires rest == [] || !IsDigit(rest[0])
    ensures DigitRun(a + rest) == a
  {
    if a != [] {
      assert (a + rest)[0] == a[0];
      assert (a + rest)[1..] == a[1..] + rest;
      DigitRunOfDigits(a[1..], rest);
      assert a == [a[0]] + a[1..];
    } else {
      assert a + rest == rest;
    }
  }

  lemma {:induction false} TrimStartUnchanged(s: string)
    requires s != [] && !IsJsSpace(s[0])
    ensures TrimStart(s) == s
  {
  }

  lemma {:induction false} ParseUnsignedOfShown(m: nat, rest: string)
    requires rest == [] || (!IsDigit(rest[0]) && rest[0] != 'x' && rest[0] != 'X')
    ensures ParseUnsigned(NatToString(m) + rest) == Some(m)
  {
    var digits := NatToString(m);
    var body := digits + rest;
    assert body[0] == digits[0];
    if |body| >= 2 && body[0] == '0' {
      assert m == 0 && digits == "0";
      assert body[1] == rest[0];
    }
    DigitRunOfDigits(digits, rest);
  }

  /** A number written out and followed by a non-digit reads back as that number: parsing stops at the first non-digit. */
  lemma {:induction false} ParseIntOfShown(n: int, rest: string)
    requires rest == [] || (!IsDigit(rest[0]) && rest[0] != 'x' && rest[0] != 'X')
    ensures ParseInt(IntToString(n) + rest) == Some(n)
  {
    var s := IntToString(n) + rest;
    assert s[0] == IntToString(n)[0];
    TrimStartUnchanged(s);
    if n < 0 {
      NegativeShown(n, rest);
    } else {
      var u := NatToString(n) + rest;
      ParseUnsignedOfShown(n, rest);
      assert s == u;
      assert s[0] != '-' && s[0] != '+';
    }
  }

  lemma {:induction false} NegativeShown(n: int, rest: string)
    requires n < 0
    requires rest == [] || (!IsDigit(rest[0]) && rest[0] != 'x' && rest[0] != 'X')
    ensures ParseSigned(IntToString(n) + rest) == Some(n)
  {
    var m: nat := -n;
    ParseUnsignedOfShown(m, rest);
    MinusShown(n, rest);
    SignedOfNegated(IntToString(n) + rest, m);
  }

  /** A negative number is written as a minus sign and then the digits of its magnitude. */
  lemma {:induction false} MinusShown(n: int, rest: string)
    requires n < 0
    ensures var s := IntToString(n) + rest; s != [] && s[0] == '-' && s[1..] == NatToString(-n) + rest
  {
    var d := NatToString(-n);
    assert IntToString(n) == "-" + d;
    assert (IntToString(n) + rest)[1..] == d + rest;
  }

  /** A minus sign before an unsigned number negates it. */
  lemma {:induction false} SignedOfNegated(s: string, m: nat)
    requires s != [] && s[0] == '-' && ParseUnsigned(s[1..]) == Some(m)
    ensures ParseSigned(s) == Some(-(m as int))
  {
  }

  lemma {:induction false} ParseIntRoundTrip(n: int)
    ensures ParseInt(IntToString(n)) == Some(n)
  {
    ParseIntOfShown(n, "");
    assert IntToString(n) + "" == IntToString(n);
  }

  /**
   * `jerseyNumber ? parseInt(String(jerseyNumber)) || undefined : undefined`:
   * empty, unparsable and zero entries all become undefined.
   */
  function JerseyInput(typed: string): (r: Option<Jersey>)
    ensures r.Some? ==> typed != "" && r.value.JerseyNumber? && ParseInt(typed) == Some(r.value.n) && r.value.n != 0
    ensures r.None? ==> typed == "" || ParseInt(typed).None? || ParseInt(typed) == Some(0)
  {
    if typed == "" then None
    else match ParseInt(typed)
      case Some(n) => if n != 0 then Some(JerseyNumber(n)) else None
      case None => None
  }

  /** A typed non-zero number is shown on the card as typed, without leading zeros or trailing text. */
  lemma {:induction false} JerseyShown(n: int, rest: string)
    requires n != 0
    requires rest == [] || (!IsDigit(rest[0]) && rest[0] != 'x' && rest[0] != 'X')
    ensures JerseyInput(IntToString(n) + rest) == Some(JerseyNumber(n))
  {
    ParseIntOfShown(n, rest);
  }

  /** A typed zero is dropped like an empty entry. */
  lemma {:induction false} ZeroJerseyDropped()
    ensures JerseyInput("0") == None
  {
    ParseIntRoundTrip(0);
    assert IntToString(0) == "0";
  }

  /** `parseInt(value) || new Date().getFullYear()`, the clock's year being a parameter. */
  function YearInput(typed: string, currentYear: int): (y: int)
    ensures ParseInt(typed).Some? && ParseInt(typed).value != 0 ==> y == ParseInt(typed).value
    ensures ParseInt(typed).None? || ParseInt(typed) == Some(0) ==> y == currentYear
  {
    match ParseInt(typed)
    case Some(n) => if n != 0 then n else currentYear
    case None => currentYear
  }

  /** `throws || undefined`. */
  function ThrowsInput(throws: string): (r: Option<string>)
    ensures r.None? <==> throws == ""
    ensures r.Some? ==> r.value == throws
  {
    if throws == "" then None else Some(throws)
  }

  /** `text.length <= 140` guards the career highlights field. */
  const MaxHighlights: nat := 140

  /**
   * `String.prototype.length`: UTF-16 code units, two for a character
   * outside the Basic Multilingual Plane.
   */
  function Utf16Length(s: string): (n: nat)
    ensures |s| <= n <= 2 * |s|
    ensures (forall k :: 0 <= k < |s| ==> s[k] as int < 0x1_0000) ==> n == |s|
  {
    if s == [] then 0
    else (if s[0] as int < 0x1_0000 then 1 else 2) + Utf16Length(s[1..])
  }

  /** One character outside the Basic Multilingual Plane counts twice. */
  lemma {:induction false} AstralCharCountsTwice(c: char)
    requires c as int >= 0x1_0000
    ensures Utf16Length([c]) == 2
  {
    assert [c][1..] == [];
  }

  function EditHighlights(current: string, text: string): (r: string)
    ensures Utf16Length(text) <= MaxHighlights ==> r == text
    ensures Utf16Length(text) > MaxHighlights ==> r == current
    ensures Utf16Length(current) <= MaxHighlights ==> Utf16Length(r) <= MaxHighlights
  {
    if Utf16Length(text) <= MaxHighlights then text else current
  }

  // The card handed to the preview and to save

  /** The builder's form; the year starts as the current year and stays a number. */
  datatype Form = Form(
    name: string,
    team: string,
    position: string,
    jerseyNumber: string,
    year: int,
    throws: string,
    imageUrl: string,
    careerHighlights: string)

  /**
   * The card data, built by the same expression for the preview and for
   * save: the jersey number parsed, empty `throws` dropped, and only the
   * selected stats with a value.
   */
  function NormalizedCard(f: Form, selected: seq<string>, calculated: map<string, StatValue>): (d: CardData)
    ensures d.player.name == f.name && d.player.year == Some(f.year)
    ensures d.player.team == f.team && d.player.position == f.position && d.player.throws == f.throws
    ensures d.player.jerseyNumber == JerseyInput(f.jerseyNumber) && d.player.imageUrl == ""
    ensures |d.stats| == |SelectedKeys(selected, calculated)|
    ensures forall i :: 0 <= i < |d.stats| ==>
      d.stats[i].0 == SelectedKeys(selected, calculated)[i] && d.stats[i].1 == calculated[d.stats[i].0]
    ensures d.player.jerseyNumber.Some? ==> d.player.jerseyNumber.value.JerseyNumber? && d.player.jerseyNumber.value.n != 0
    ensures forall i :: 0 <= i < |d.stats| ==> d.stats[i].0 in selected && !Missing(d.stats[i].1)
    ensures d.highlights == f.careerHighlights && d.imageUrl == f.imageUrl && d.backImageUrl == ""
  {
    CardData(
      Player(f.name, f.team, f.position, JerseyInput(f.jerseyNumber), Some(f.year),
             ThrowsInput(f.throws).UnwrapOr(""), ""),
      SelectedStats(selected, calculated), f.imageUrl, "", f.careerHighlights)
  }

  /** What save sends: the selected template's id and the card data. */
  datatype CreateCard = CreateCard(templateId: string, cardDataJson: CardData)

  /** `handleSave`'s checks, in order, before the request is made. */
  function Save(selectedTemplate: string, f: Form, selected: seq<string>, calculated: map<string, StatValue>): (r: Result<CreateCard, string>)
    ensures r.Ok? <==> selectedTemplate != "" && f.name != ""
    ensures selectedTemplate == "" ==> r == Err("Please select a template")
    ensures selectedTemplate != "" && f.name == "" ==> r == Err("Please enter a player name")
    ensures r.Ok? ==> r.value.templateId == selectedTemplate && r.value.cardDataJson.player.name != ""
    ensures r.Ok? ==> |r.value.cardDataJson.stats| <= |selected|
  {
    if selectedTemplate == "" then Err("Please select a template")
    else if f.name == "" then Err("Please enter a player name")
    else Ok(CreateCard(selectedTemplate, NormalizedCard(f, selected, calculated)))
  }

  // The default template

  /** The fields of a listed template the builder looks at. */
  datatype TemplateSummary = TemplateSummary(id: string, name: string)

  /** The id is searched as it is, the name lower-cased. */
  predicate IsDonruss(t: TemplateSummary)
    ensures Contains(t.id, "donruss") ==> IsDonruss(t)
    ensures Contains(Lower(t.name), "donruss") ==> IsDonruss(t)
    ensures IsDonruss(t) ==> Contains(t.id, "donruss") || Contains(Lower(t.name), "donruss")
  {
    Contains(t.id, "donruss") || Contains(Lower(t.name), "donruss")
  }

  /** `templates.find(...)` of the first Donruss template. */
  function FindDonruss(ts: seq<TemplateSummary>): (r: Option<nat>)
    ensures r.Some? ==> r.value < |ts| && IsDonruss(ts[r.value])
    ensures forall j :: 0 <= j < |ts| && (r.None? || j < r.value) ==> !IsDonruss(ts[j])
  {
    if ts == [] then None
    else if IsDonruss(ts[0]) then Some(0)
    else match FindDonruss(ts[1..])
      case None => None
      case Some(i) => Some(i + 1)
  }

  /**
   * The selection after the default-selection effect: the `template` query
   * parameter wins once templates are loaded; otherwise an empty selection
   * becomes the first Donruss template, else the first template.
   */
  function DefaultSelection(ts: seq<TemplateSummary>, query: string, selected: string): (r: string)
    ensures ts == [] ==> r == selected
    ensures ts != [] && query != "" ==> r == query
    ensures ts != [] && query == "" && selected != "" ==> r == selected
    ensures ts != [] && query == "" && selected == "" ==> exists i :: 0 <= i < |ts| && r == ts[i].id
  {
    if query != "" && |ts| > 0 then query
    else if |ts| > 0 && selected == "" then
      match FindDonruss(ts)
      case Some(i) => ts[i].id
      case None => ts[0].id
    else selected
  }

  /** With nothing selected and no query, the first Donruss template is chosen, else the first template. */
  lemma {:induction false} DefaultPicksFirstDonruss(ts: seq<TemplateSummary>, i: nat)
    requires i < |ts| && IsDonruss(ts[i])
    requires forall j :: 0 <= j < i ==> !IsDonruss(ts[j])
    ensures DefaultSelection(ts, "", "") == ts[i].id
  {
  }

  lemma {:induction false} DefaultWithoutDonruss(ts: seq<TemplateSummary>)
    requires ts != [] && forall j :: 0 <= j < |ts| ==> !IsDonruss(ts[j])
    ensures DefaultSelection(ts, "", "") == ts[0].id
  {
  }

  /** Re-running the effect changes nothing. */
  lemma {:induction false} DefaultSelectionIdempotent(ts: seq<TemplateSummary>, query: string, selected: string)
    ensures DefaultSelection(ts, query, DefaultSelection(ts, query, selected)) == DefaultSelection(ts, query, selected)
  {
  }

  /** A template chosen for its Donruss name or id is drawn by the preview in the bordered variant, whatever its layout. */
  lemma {:induction false} DonrussDefaultIsBordered(ts: seq<TemplateSummary>, i: nat, t: P.Template, l: Layout)
    requires i < |ts| && IsDonruss(ts[i]) && t.id == ts[i].id && t.name == ts[i].name
    ensures P.Bordered(l, t)
  {
  }
}
