/**
 * The frontend's baseball statistics helpers (frontend/lib/stats-calculator.ts):
 * the two derived-stat calculators, the display definitions, the merged
 * abbreviation object built with object spreads, and its lookup.
 */
module StatsCalculator {
  import opened Wrappers
  import opened Strings
  import opened AbbrevLookup

  /**
   * A partial stats object: a field is defined exactly when its key is
   * present. Values are exact rationals; `toFixed` rounding is not modelled.
   */
  type Stats = map<string, real>

  /** `stats.k || 0`. */
  function Or0(s: Stats, k: string): real
  {
    if k in s then s[k] else 0.0
  }

  /** `stats.k && stats.k > 0`. */
  predicate Positive(s: Stats, k: string)
  {
    k in s && s[k] > 0.0
  }

  /** Field `k` of `c` is defined, and equal, exactly as in `s`. */
  predicate Kept(s: Stats, c: Stats, k: string)
  {
    (k in c <==> k in s) && (k in s ==> c[k] == s[k])
  }

  const OffensiveDerived: set<string> :=
    {"battingAverage", "totalBases", "sluggingPercentage", "onBasePercentage", "onBasePlusSlugging"}

  const PitchingDerived: set<string> :=
    {"era", "whip", "strikeoutsPer9", "walksPer9", "hitsPer9", "winPercentage"}

  /** Hits plus walks plus hit-by-pitch, absent counts taken as 0. */
  function TimesOnBase(s: Stats): real
  {
    Or0(s, "hits") + Or0(s, "walks") + Or0(s, "hitByPitch")
  }

  /** The on-base denominator used when plate appearances are missing. */
  function AtBatDenominator(s: Stats): real
    requires "atBats" in s
  {
    s["atBats"] + Or0(s, "walks") + Or0(s, "hitByPitch") + Or0(s, "sacrificeFlies")
  }

  /**
   * `calculateOffensiveStats`: copies the input and recomputes the derived
   * fields whose inputs are present, one after the other, so that slugging
   * sees the new total bases and OPS sees the new OBP and slugging.
   */
  method CalculateOffensiveStats(stats: Stats) returns (c: Stats)
    ensures forall k :: k !in OffensiveDerived ==> Kept(stats, c, k)
    ensures "totalBases" in c <==> "hits" in stats || "totalBases" in stats
    ensures "hits" in stats ==>
      c["totalBases"] == stats["hits"] + Or0(stats, "doubles") + 2.0 * Or0(stats, "triples") + 3.0 * Or0(stats, "homeRuns")
    ensures "hits" !in stats ==> Kept(stats, c, "totalBases")
    ensures if Positive(stats, "atBats") && "hits" in stats
      then "battingAverage" in c && c["battingAverage"] == stats["hits"] / stats["atBats"]
      else Kept(stats, c, "battingAverage")
    ensures if Positive(stats, "atBats") && "totalBases" in c
      then "sluggingPercentage" in c && c["sluggingPercentage"] == c["totalBases"] / stats["atBats"]
      else Kept(stats, c, "sluggingPercentage")
    ensures if Positive(stats, "plateAppearances")
      then "onBasePercentage" in c && c["onBasePercentage"] == TimesOnBase(stats) / stats["plateAppearances"]
      else if Positive(stats, "atBats") && AtBatDenominator(stats) > 0.0
      then "onBasePercentage" in c && c["onBasePercentage"] == TimesOnBase(stats) / AtBatDenominator(stats)
      else Kept(stats, c, "onBasePercentage")
    ensures if "onBasePercentage" in c && "sluggingPercentage" in c
      then "onBasePlusSlugging" in c && c["onBasePlusSlugging"] == c["onBasePercentage"] + c["sluggingPercentage"]
      else Kept(stats, c, "onBasePlusSlugging")
  {
    c := stats;
    if Positive(c, "atBats") && "hits" in c {
      c := c["battingAverage" := c["hits"] / c["atBats"]];
    }
    if "hits" in c {
      var doubles := Or0(c, "doubles");
      var triples := Or0(c, "triples");
      var homeRuns := Or0(c, "homeRuns");
      var singles := c["hits"] - doubles - triples - homeRuns;
      c := c["totalBases" := singles + doubles * 2.0 + triples * 3.0 + homeRuns * 4.0];
    }
    if Positive(c, "atBats") && "totalBases" in c {
      c := c["sluggingPercentage" := c["totalBases"] / c["atBats"]];
    }
    if Positive(c, "plateAppearances") {
      var numerator := Or0(c, "hits") + Or0(c, "walks") + Or0(c, "hitByPitch");
      c := c["onBasePercentage" := numerator / c["plateAppearances"]];
    } else if Positive(c, "atBats") {
      var numerator := Or0(c, "hits") + Or0(c, "walks") + Or0(c, "hitByPitch");
      var denominator := c["atBats"] + Or0(c, "walks") + Or0(c, "hitByPitch") + Or0(c, "sacrificeFlies");
      if denominator > 0.0 {
        c := c["onBasePercentage" := numerator / denominator];
      }
    }
    if "onBasePercentage" in c && "sluggingPercentage" in c {
      c := c["onBasePlusSlugging" := c["onBasePercentage"] + c["sluggingPercentage"]];
    }
  }

  /** `calculatePitchingStats`: copies the input and recomputes the rate stats. */
  method CalculatePitchingStats(stats: Stats) returns (c: Stats)
    ensures forall k :: k !in PitchingDerived ==> Kept(stats, c, k)
    ensures if Positive(stats, "inningsPitched") && "earnedRuns" in stats
      then "era" in c && c["era"] == stats["earnedRuns"] * 9.0 / stats["inningsPitched"]
      else Kept(stats, c, "era")
    ensures if Positive(stats, "inningsPitched")
      then "whip" in c && c["whip"] == (Or0(stats, "walks") + Or0(stats, "hits")) / stats["inningsPitched"]
      else Kept(stats, c, "whip")
    ensures if Positive(stats, "inningsPitched") && "strikeouts" in stats
      then "strikeoutsPer9" in c && c["strikeoutsPer9"] == stats["strikeouts"] * 9.0 / stats["inningsPitched"]
      else Kept(stats, c, "strikeoutsPer9")
    ensures if Positive(stats, "inningsPitched") && "walks" in stats
      then "walksPer9" in c && c["walksPer9"] == stats["walks"] * 9.0 / stats["inningsPitched"]
      else Kept(stats, c, "walksPer9")
    ensures if Positive(stats, "inningsPitched") && "hits" in stats
      then "hitsPer9" in c && c["hitsPer9"] == stats["hits"] * 9.0 / stats["inningsPitched"]
      else Kept(stats, c, "hitsPer9")
    ensures if "wins" in stats && "losses" in stats && stats["wins"] + stats["losses"] > 0.0
      then "winPercentage" in c && c["winPercentage"] == stats["wins"] / (stats["wins"] + stats["losses"])
      else Kept(stats, c, "winPercentage")
  {
    c := stats;
    if Positive(c, "inningsPitched") && "earnedRuns" in c {
      c := c["era" := c["earnedRuns"] * 9.0 / c["inningsPitched"]];
    }
    if Positive(c, "inningsPitched") {
      var walks := Or0(c, "walks");
      var hits := Or0(c, "hits");
      c := c["whip" := (walks + hits) / c["inningsPitched"]];
    }
    if Positive(c, "inningsPitched") && "strikeouts" in c {
      c := c["strikeoutsPer9" := c["strikeouts"] * 9.0 / c["inningsPitched"]];
    }
    if Positive(c, "inningsPitched") && "walks" in c {
      c := c["walksPer9" := c["walks"] * 9.0 / c["inningsPitched"]];
    }
    if Positive(c, "inningsPitched") && "hits" in c {
      c := c["hitsPer9" := c["hits"] * 9.0 / c["inningsPitched"]];
    }
    if "wins" in c && "losses" in c {
      var totalGames := c["wins"] + c["losses"];
      if totalGames > 0.0 {
        c := c["winPercentage" := c["wins"] / totalGames];
      }
    }
  }

  datatype Category = Basic | Calculated

  /** One entry of a definitions table: the label (`name`) and abbreviation shown for a stat key. */
  datatype StatDef = StatDef(name: string, abbrev: string, category: Category)

  type Definitions = seq<(string, StatDef)>

  /** `offensiveStatDefinitions`, in declaration order. */
  const OffensiveDefinitions: Definitions := [
    ("atBats", StatDef("At Bats", "AB", Basic)),
    ("hits", StatDef("Hits", "H", Basic)),
    ("runs", StatDef("Runs", "R", Basic)),
    ("doubles", StatDef("Doubles", "2B", Basic)),
    ("triples", StatDef("Triples", "3B", Basic)),
    ("homeRuns", StatDef("Home Runs", "HR", Basic)),
    ("runsBattedIn", StatDef("RBI", "RBI", Basic)),
    ("stolenBases", StatDef("Stolen Bases", "SB", Basic)),
    ("walks", StatDef("Walks", "BB", Basic)),
    ("strikeouts", StatDef("Strikeouts", "SO", Basic)),
    ("battingAverage", StatDef("Batting Average", "AVG", Calculated)),
    ("onBasePercentage", StatDef("On-Base %", "OBP", Calculated)),
    ("sluggingPercentage", StatDef("Slugging %", "SLG", Calculated)),
    ("onBasePlusSlugging", StatDef("OPS", "OPS", Calculated)),
    ("totalBases", StatDef("Total Bases", "TB", Calculated))
  ]

  /** `pitchingStatDefinitions`, in declaration order. */
  const PitchingDefinitions: Definitions := [
    ("wins", StatDef("Wins", "W", Basic)),
    ("losses", StatDef("Losses", "L", Basic)),
    ("games", StatDef("Games", "G", Basic)),
    ("gamesStarted", StatDef("Games Started", "GS", Basic)),
    ("completeGames", StatDef("Complete Games", "CG", Basic)),
    ("shutouts", StatDef("Shutouts", "SHO", Basic)),
    ("saves", StatDef("Saves", "SV", Basic)),
    ("inningsPitched", StatDef("Innings Pitched", "IP", Basic)),
    ("hits", StatDef("Hits Allowed", "H", Basic)),
    ("runs", StatDef("Runs Allowed", "R", Basic)),
    ("earnedRuns", StatDef("Earned Runs", "ER", Basic)),
    ("walks", StatDef("Walks", "BB", Basic)),
    ("strikeouts", StatDef("Strikeouts", "SO", Basic)),
    ("homeRuns", StatDef("Home Runs Allowed", "HR", Basic)),
    ("era", StatDef("ERA", "ERA", Calculated)),
    ("whip", StatDef("WHIP", "WHIP", Calculated)),
    ("strikeoutsPer9", StatDef("K/9", "K/9", Calculated)),
    ("walksPer9", StatDef("BB/9", "BB/9", Calculated)),
    ("hitsPer9", StatDef("H/9", "H/9", Calculated)),
    ("winPercentage", StatDef("Win %", "W%", Calculated))
  ]

  /** The literal variations listed after the two spreads, in two parts. */
  const Variations0: Table := [
    ("runsBattedIn", "RBI"),
    ("runsbattedin", "RBI"),
    ("RunsBattedIn", "RBI"),
    ("homeRuns", "HR"),
    ("HomeRuns", "HR"),
    ("homeruns", "HR"),
    ("atBats", "AB"),
    ("AtBats", "AB"),
    ("atbats", "AB"),
    ("battingAverage", "AVG"),
    ("BattingAverage", "AVG"),
    ("onBasePercentage", "OBP"),
    ("OnBasePercentage", "OBP"),
    ("sluggingPercentage", "SLG"),
    ("SluggingPercentage", "SLG"),
    ("onBasePlusSlugging", "OPS"),
    ("OnBasePlusSlugging", "OPS"),
    ("stolenBases", "SB"),
    ("StolenBases", "SB")
  ]

  const Variations1: Table := [
    ("stolenbases", "SB"),
    ("totalBases", "TB"),
    ("TotalBases", "TB"),
    ("gamesStarted", "GS"),
    ("GamesStarted", "GS"),
    ("completeGames", "CG"),
    ("CompleteGames", "CG"),
    ("inningsPitched", "IP"),
    ("InningsPitched", "IP"),
    ("earnedRuns", "ER"),
    ("EarnedRuns", "ER"),
    ("strikeoutsPer9", "K/9"),
    ("StrikeoutsPer9", "K/9"),
    ("walksPer9", "BB/9"),
    ("WalksPer9", "BB/9"),
    ("hitsPer9", "H/9"),
    ("HitsPer9", "H/9"),
    ("winPercentage", "W%"),
    ("WinPercentage", "W%")
  ]

  const Variations: Table := Variations0 + Variations1

  /** `Object.fromEntries(Object.entries(defs).map(([key, def]) => [key, def.abbrev]))`. */
  function AbbrevsOf(defs: Definitions): (t: Table)
    ensures |t| == |defs|
    ensures forall i :: 0 <= i < |defs| ==> t[i] == (defs[i].0, defs[i].1.abbrev)
  {
    seq(|defs|, i requires 0 <= i < |defs| => (defs[i].0, defs[i].1.abbrev))
  }

  /**
   * One property write `obj[k] = v` as a spread or an object literal performs
   * it: an existing key keeps its position and takes the new value, a new key
   * goes last.
   */
  function Assign(obj: Table, k: string, v: string): (r: Table)
    ensures |r| == |obj| || |r| == |obj| + 1
  {
    match FindKey(obj, k)
    case Some(i) => obj[i := (k, v)]
    case None => obj + [(k, v)]
  }

  /** After the write, the key reads as the new value and every other key as before. */
  lemma {:induction false} GetAfterAssign(obj: Table, k: string, v: string, k': string)
    ensures Get(Assign(obj, k, v), k') == if k' == k then Some(v) else Get(obj, k')
  {
    var r := Assign(obj, k, v);
    match FindKey(obj, k)
    case Some(i) =>
      if k' == k {
        FindKeyIs(r, k, i);
      } else if FindKey(obj, k').Some? {
        FindKeyIs(r, k', FindKey(obj, k').value);
      }
    case None =>
      if k' == k {
        FindKeyIs(r, k, |obj|);
      } else if FindKey(obj, k').Some? {
        FindKeyIs(r, k', FindKey(obj, k').value);
      }
  }

  /** A write keeps the other entries and adds or replaces only the written one. */
  lemma {:induction false} AssignEntriesFrom(obj: Table, k: string, v: string)
    ensures forall i :: 0 <= i < |Assign(obj, k, v)| ==> Assign(obj, k, v)[i] in obj || Assign(obj, k, v)[i] == (k, v)
  {
  }

  /** `{...obj, ...entries}`: the entries written one after the other. */
  function Spread(obj: Table, entries: Table): (r: Table)
    ensures entries == [] ==> r == obj
    ensures |obj| <= |r| <= |obj| + |entries|
    decreases |entries|
  {
    if entries == [] then obj
    else Spread(Assign(obj, entries[0].0, entries[0].1), entries[1..])
  }

  /** The value of the last entry with key `k`: the one an object built from `entries` keeps. */
  function LastValue(entries: Table, k: string): (r: Option<string>)
    ensures r.Some? <==> exists i :: 0 <= i < |entries| && entries[i].0 == k
    ensures r.Some? ==> exists i :: 0 <= i < |entries| && entries[i] == (k, r.value)
  {
    if entries == [] then None
    else match LastValue(entries[1..], k)
      case Some(v) =>
        var i :| 0 <= i < |entries[1..]| && entries[1..][i] == (k, v);
        assert entries[i + 1] == (k, v);
        Some(v)
      case None =>
        assert forall i :: 1 <= i < |entries| ==> entries[i] == entries[1..][i - 1];
        if entries[0].0 == k then Some(entries[0].1) else None
  }

  /** Reading a spread object: the last write of the key wins, else the original value. */
  lemma {:induction false} GetAfterSpread(obj: Table, entries: Table, k: string)
    ensures Get(Spread(obj, entries), k) ==
      if LastValue(entries, k).Some? then LastValue(entries, k) else Get(obj, k)
    decreases |entries|
  {
    if entries != [] {
      GetAfterSpread(Assign(obj, entries[0].0, entries[0].1), entries[1..], k);
      GetAfterAssign(obj, entries[0].0, entries[0].1, k);
    }
  }

  /** Every entry of a spread object was in the original object or among the written entries. */
  lemma {:induction false} SpreadEntriesFrom(obj: Table, entries: Table)
    ensures forall i :: 0 <= i < |Spread(obj, entries)| ==> Spread(obj, entries)[i] in obj + entries
    decreases |entries|
  {
    if entries != [] {
      var next := Assign(obj, entries[0].0, entries[0].1);
      SpreadEntriesFrom(next, entries[1..]);
      AssignEntriesFrom(obj, entries[0].0, entries[0].1);
      forall i | 0 <= i < |Spread(obj, entries)| ensures Spread(obj, entries)[i] in obj + entries {
        var e := Spread(obj, entries)[i];
        assert e in next + entries[1..];
        if e in next {
          var j :| 0 <= j < |next| && next[j] == e;
          assert e in obj || e == entries[0];
        }
      }
    }
  }

  /**
   * Two written lists that agree on every key they share give the same
   * object contents in either order.
   */
  lemma {:induction false} SpreadOrderIrrelevant(obj: Table, a: Table, b: Table, k: string)
    requires forall key :: LastValue(a, key).Some? && LastValue(b, key).Some? ==> LastValue(a, key) == LastValue(b, key)
    ensures Get(Spread(Spread(obj, a), b), k) == Get(Spread(Spread(obj, b), a), k)
  {
    GetAfterSpread(Spread(obj, a), b, k);
    GetAfterSpread(obj, a, k);
    GetAfterSpread(Spread(obj, b), a, k);
    GetAfterSpread(obj, b, k);
  }

  const OffensiveAbbrevs: Table := AbbrevsOf(OffensiveDefinitions)
  const PitchingAbbrevs: Table := AbbrevsOf(PitchingDefinitions)

  /** The merged `statAbbreviations` object of the frontend. */
  const FrontendTable: Table := Spread(Spread(Spread([], OffensiveAbbrevs), PitchingAbbrevs), Variations)

  /** Everything that was written into the merged object, in writing order. */
  const WrittenEntries: Table := OffensiveAbbrevs + PitchingAbbrevs + Variations

  lemma {:induction false} FrontendEntriesWritten()
    ensures forall i :: 0 <= i < |FrontendTable| ==> FrontendTable[i] in WrittenEntries
  {
    var t1 := Spread([], OffensiveAbbrevs);
    var t2 := Spread(t1, PitchingAbbrevs);
    SpreadEntriesFrom([], OffensiveAbbrevs);
    SpreadEntriesFrom(t1, PitchingAbbrevs);
    SpreadEntriesFrom(t2, Variations);
    forall i | 0 <= i < |FrontendTable| ensures FrontendTable[i] in WrittenEntries {
      var e := FrontendTable[i];
      assert e in t2 + Variations;
      if e in t2 {
        assert e in t1 + PitchingAbbrevs;
      }
    }
  }

  /**
   * Proof device for case consistency, as for the rendering service's table:
   * the 30 different lower-cased keys written into the merged object differ in
   * their length, first letter or last letter.
   */
  ghost function AbbrevBySignature(len: int, first: char, last: char): string
  {
    if len == 6 && first == 'a' && last == 's' then "AB"
    else if len == 4 && first == 'h' && last == 's' then "H"
    else if len == 4 && first == 'r' && last == 's' then "R"
    else if len == 7 && first == 'd' && last == 's' then "2B"
    else if len == 7 && first == 't' && last == 's' then "3B"
    else if len == 8 && first == 'h' && last == 's' then "HR"
    else if len == 12 && first == 'r' && last == 'n' then "RBI"
    else if len == 11 && first == 's' && last == 's' then "SB"
    else if len == 5 && first == 'w' && last == 's' then "BB"
    else if len == 10 && first == 's' && last == 's' then "SO"
    else if len == 14 && first == 'b' && last == 'e' then "AVG"
    else if len == 16 && first == 'o' && last == 'e' then "OBP"
    else if len == 18 && first == 's' && last == 'e' then "SLG"
    else if len == 18 && first == 'o' && last == 'g' then "OPS"
    else if len == 10 && first == 't' && last == 's' then "TB"
    else if len == 4 && first == 'w' && last == 's' then "W"
    else if len == 6 && first == 'l' && last == 's' then "L"
    else if len == 5 && first == 'g' && last == 's' then "G"
    else if len == 12 && first == 'g' && last == 'd' then "GS"
    else if len == 13 && first == 'c' && last == 's' then "CG"
    else if len == 8 && first == 's' && last == 's' then "SHO"
    else if len == 5 && first == 's' && last == 's' then "SV"
    else if len == 14 && first == 'i' && last == 'd' then "IP"
    else if len == 10 && first == 'e' && last == 's' then "ER"
    else if len == 3 && first == 'e' && last == 'a' then "ERA"
    else if len == 4 && first == 'w' && last == 'p' then "WHIP"
    else if len == 14 && first == 's' && last == '9' then "K/9"
    else if len == 9 && first == 'w' && last == '9' then "BB/9"
    else if len == 8 && first == 'h' && last == '9' then "H/9"
    else if len == 13 && first == 'w' && last == 'e' then "W%"
    else ""
  }

  ghost function Signature(key: string): string
    requires key != ""
  {
    AbbrevBySignature(|key|, LowerChar(key[0]), LowerChar(key[|key| - 1]))
  }

  /** Each entry's abbreviation is the one its key's shape determines. */
  ghost predicate SignedTable(t: Table)
  {
    forall i :: 0 <= i < |t| ==> t[i].0 != "" && Signature(t[i].0) == t[i].1
  }

  predicate NoEmptyAbbreviation(t: Table)
  {
    forall i :: 0 <= i < |t| ==> t[i].1 != ""
  }

  lemma {:induction false} SignedConcat(a: Table, b: Table)
    ensures SignedTable(a) && SignedTable(b) ==> SignedTable(a + b)
    ensures NoEmptyAbbreviation(a) && NoEmptyAbbreviation(b) ==> NoEmptyAbbreviation(a + b)
  {
    forall i | |a| <= i < |a + b|
      ensures (a + b)[i] == b[i - |a|]
    {
    }
  }

  lemma {:induction false} SignaturesOfWritten()
    ensures SignedTable(WrittenEntries) && NoEmptyAbbreviation(WrittenEntries)
  {
    SignaturesOfOffensiveAbbrevs();
    SignaturesOfPitchingAbbrevs();
    SignaturesOfVariations0();
    SignaturesOfVariations1();
    assert NoEmptyAbbreviation(OffensiveAbbrevs) && NoEmptyAbbreviation(PitchingAbbrevs);
    assert NoEmptyAbbreviation(Variations0) && NoEmptyAbbreviation(Variations1);
    SignedConcat(Variations0, Variations1);
    SignedConcat(OffensiveAbbrevs, PitchingAbbrevs);
    SignedConcat(OffensiveAbbrevs + PitchingAbbrevs, Variations);
  }

  lemma {:induction false} SignaturesOfOffensiveAbbrevs()
    ensures SignedTable(OffensiveAbbrevs)
  {
  }

  lemma {:induction false} SignaturesOfPitchingAbbrevs()
    ensures SignedTable(PitchingAbbrevs)
  {
  }

  lemma {:induction false} SignaturesOfVariations0()
    ensures SignedTable(Variations0)
  {
  }

  lemma {:induction false} SignaturesOfVariations1()
    ensures SignedTable(Variations1)
  {
  }

  /** Everything written into the merged object is case-consistent. */
  lemma {:induction false} WrittenEntriesCaseConsistent()
    ensures CaseConsistent(WrittenEntries)
  {
    SignaturesOfWritten();
    var w := WrittenEntries;
    forall i, j | 0 <= i < |w| && 0 <= j < |w| && Lower(w[i].0) == Lower(w[j].0)
      ensures w[i].1 == w[j].1
    {
      var a, b := w[i].0, w[j].0;
      assert Signature(a) == w[i].1 && Signature(b) == w[j].1;
      assert Lower(a)[0] == LowerChar(a[0]) && Lower(b)[0] == LowerChar(b[0]);
      assert Lower(a)[|a| - 1] == LowerChar(a[|a| - 1]) && Lower(b)[|b| - 1] == LowerChar(b[|b| - 1]);
    }
  }

  lemma {:induction false} FrontendTableCaseConsistent()
    ensures CaseConsistent(FrontendTable)
  {
    FrontendEntriesWritten();
    WrittenEntriesCaseConsistent();
    var t := FrontendTable;
    forall i, j | 0 <= i < |t| && 0 <= j < |t| && Lower(t[i].0) == Lower(t[j].0)
      ensures t[i].1 == t[j].1
    {
      var a :| 0 <= a < |WrittenEntries| && WrittenEntries[a] == t[i];
      var b :| 0 <= b < |WrittenEntries| && WrittenEntries[b] == t[j];
    }
  }

  /** Every key written into the merged object can be read back from it. */
  lemma {:induction false} FrontendHasWrittenKey(i: nat)
    requires i < |WrittenEntries|
    ensures Get(FrontendTable, WrittenEntries[i].0).Some?
  {
    var k := WrittenEntries[i].0;
    var t1 := Spread([], OffensiveAbbrevs);
    var t2 := Spread(t1, PitchingAbbrevs);
    GetAfterSpread([], OffensiveAbbrevs, k);
    GetAfterSpread(t1, PitchingAbbrevs, k);
    GetAfterSpread(t2, Variations, k);
    if i < |OffensiveAbbrevs| {
      assert OffensiveAbbrevs[i].0 == k;
    } else if i < |OffensiveAbbrevs| + |PitchingAbbrevs| {
      assert PitchingAbbrevs[i - |OffensiveAbbrevs|].0 == k;
    } else {
      assert Variations[i - |OffensiveAbbrevs| - |PitchingAbbrevs|].0 == k;
    }
  }

  /** `getStatAbbreviation` in the frontend, over the merged object. */
  method GetStatAbbreviation(statKey: string) returns (r: string)
    ensures r == Abbreviation(FrontendTable, statKey)
  {
    r := AbbrevLookup.GetStatAbbreviation(FrontendTable, statKey);
  }

  /** Any key written into the merged object, in any spelling, gets the abbreviation written for it. */
  lemma {:induction false} FrontendAbbreviationOfWritten(key: string, i: nat)
    requires i < |WrittenEntries| && Lower(WrittenEntries[i].0) == Lower(key)
    ensures Abbreviation(FrontendTable, key) == WrittenEntries[i].1
  {
    FrontendHasWrittenKey(i);
    FrontendEntriesWritten();
    FrontendTableCaseConsistent();
    WrittenEntriesCaseConsistent();
    var m :| 0 <= m < |FrontendTable| && FrontendTable[m].0 == WrittenEntries[i].0;
    var j :| 0 <= j < |WrittenEntries| && WrittenEntries[j] == FrontendTable[m];
    AbbreviationOfMatch(FrontendTable, key, m);
  }

  /** A key that nothing written matches, even ignoring case, comes back unchanged. */
  lemma {:induction false} FrontendAbbreviationOfUnknown(key: string)
    requires forall i :: 0 <= i < |WrittenEntries| ==> Lower(WrittenEntries[i].0) != Lower(key)
    ensures Abbreviation(FrontendTable, key) == key
  {
    FrontendEntriesWritten();
    forall m | 0 <= m < |FrontendTable| ensures Lower(FrontendTable[m].0) != Lower(key) {
      var j :| 0 <= j < |WrittenEntries| && WrittenEntries[j] == FrontendTable[m];
    }
    AbbreviationFallback(FrontendTable, key);
  }

  /** The keys both definitions tables declare carry the same abbreviation in each. */
  lemma {:induction false} DefinitionsAgree()
    ensures forall i, j ::
      (0 <= i < |OffensiveDefinitions| && 0 <= j < |PitchingDefinitions| &&
       OffensiveDefinitions[i].0 == PitchingDefinitions[j].0) ==>
      OffensiveDefinitions[i].1.abbrev == PitchingDefinitions[j].1.abbrev
  {
  }

  /** So the merged object reads the same whichever definitions table is spread first. */
  lemma {:induction false} DefinitionSpreadOrderIrrelevant(k: string)
    ensures Get(Spread(Spread([], OffensiveAbbrevs), PitchingAbbrevs), k)
         == Get(Spread(Spread([], PitchingAbbrevs), OffensiveAbbrevs), k)
  {
    DefinitionsAgree();
    forall key | LastValue(OffensiveAbbrevs, key).Some? && LastValue(PitchingAbbrevs, key).Some?
      ensures LastValue(OffensiveAbbrevs, key) == LastValue(PitchingAbbrevs, key)
    {
      var i :| 0 <= i < |OffensiveAbbrevs| && OffensiveAbbrevs[i] == (key, LastValue(OffensiveAbbrevs, key).value);
      var j :| 0 <= j < |PitchingAbbrevs| && PitchingAbbrevs[j] == (key, LastValue(PitchingAbbrevs, key).value);
    }
    SpreadOrderIrrelevant([], OffensiveAbbrevs, PitchingAbbrevs, k);
  }

  /** A key whose shape no written key has is missing from the merged object. */
  lemma {:induction false} UnsignedKeyMissing(key: string)
    requires key != "" && Signature(key) == ""
    ensures Abbreviation(FrontendTable, key) == key
  {
    SignaturesOfWritten();
    var w := WrittenEntries;
    forall i | 0 <= i < |w| ensures Lower(w[i].0) != Lower(key) {
      SignatureDistinguishes(w[i].0, key);
    }
    FrontendAbbreviationOfUnknown(key);
  }

  /** Keys of different shapes differ even ignoring case. */
  lemma {:induction false} SignatureDistinguishes(a: string, key: string)
    requires a != "" && key != "" && Signature(a) != Signature(key)
    ensures Lower(a) != Lower(key)
  {
    assert |Lower(a)| == |a| && |Lower(key)| == |key|;
    assert Lower(a)[0] == LowerChar(a[0]) && Lower(key)[0] == LowerChar(key[0]);
    assert Lower(a)[|a| - 1] == LowerChar(a[|a| - 1]) && Lower(key)[|key| - 1] == LowerChar(key[|key| - 1]);
  }

  /**
   * The stats the merged object never mentions: the frontend shows the key
   * itself as their header, where the rendering service's table has an
   * abbreviation for each.
   */
  lemma {:induction false} FrontendLacksKey(key: string)
    requires key in {"hitByPitch", "sacrificeFlies", "plateAppearances", "hitBatters", "wildPitches"}
    ensures Abbreviation(FrontendTable, key) == key
  {
    UnsignedKeyMissing(key);
  }
}
