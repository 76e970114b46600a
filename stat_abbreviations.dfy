/**
 * The rendering service's abbreviation table and its lookup
 * (rendering-service/src/stat-abbreviations.ts).
 */
module EngineAbbrev {
  import opened Strings
  import opened AbbrevLookup

  // The 69 entries of `statAbbreviations`, in declaration order, in four parts.
  const Part0: Table := [
    ("atBats", "AB"),
    ("hits", "H"),
    ("runs", "R"),
    ("doubles", "2B"),
    ("triples", "3B"),
    ("homeRuns", "HR"),
    ("runsBattedIn", "RBI"),
    ("stolenBases", "SB"),
    ("walks", "BB"),
    ("strikeouts", "SO"),
    ("battingAverage", "AVG"),
    ("onBasePercentage", "OBP"),
    ("sluggingPercentage", "SLG"),
    ("onBasePlusSlugging", "OPS"),
    ("totalBases", "TB"),
    ("hitByPitch", "HBP"),
    ("sacrificeFlies", "SF"),
    ("plateAppearances", "PA")
  ]
  const Part1: Table := [
    ("wins", "W"),
    ("losses", "L"),
    ("games", "G"),
    ("gamesStarted", "GS"),
    ("completeGames", "CG"),
    ("shutouts", "SHO"),
    ("saves", "SV"),
    ("inningsPitched", "IP"),
    ("earnedRuns", "ER"),
    ("era", "ERA"),
    ("whip", "WHIP"),
    ("strikeoutsPer9", "K/9"),
    ("walksPer9", "BB/9"),
    ("hitsPer9", "H/9"),
    ("winPercentage", "W%"),
    ("hitBatters", "HBP"),
    ("wildPitches", "WP"),
    ("runsbattedin", "RBI")
  ]
  const Part2: Table := [
    ("RunsBattedIn", "RBI"),
    ("homeruns", "HR"),
    ("HomeRuns", "HR"),
    ("atbats", "AB"),
    ("AtBats", "AB"),
    ("battingaverage", "AVG"),
    ("BattingAverage", "AVG"),
    ("onbasepercentage", "OBP"),
    ("OnBasePercentage", "OBP"),
    ("sluggingpercentage", "SLG"),
    ("SluggingPercentage", "SLG"),
    ("onbaseplusslugging", "OPS"),
    ("OnBasePlusSlugging", "OPS"),
    ("stolenbases", "SB"),
    ("StolenBases", "SB"),
    ("totalbases", "TB"),
    ("TotalBases", "TB"),
    ("gamesstarted", "GS")
  ]
  const Part3: Table := [
    ("GamesStarted", "GS"),
    ("completegames", "CG"),
    ("CompleteGames", "CG"),
    ("inningspitched", "IP"),
    ("InningsPitched", "IP"),
    ("earnedruns", "ER"),
    ("EarnedRuns", "ER"),
    ("strikeoutsper9", "K/9"),
    ("StrikeoutsPer9", "K/9"),
    ("walksper9", "BB/9"),
    ("WalksPer9", "BB/9"),
    ("hitsper9", "H/9"),
    ("HitsPer9", "H/9"),
    ("winpercentage", "W%"),
    ("WinPercentage", "W%")
  ]

  const Entries: Table := Part0 + Part1 + Part2 + Part3

  /**
   * Proof device for case consistency: the 35 different lower-cased keys of
   * the table already differ in their length, first letter or last letter, so
   * an abbreviation can be read off those three.
   */
  ghost function AbbrevBySignature(len: int, first: char, last: char): string
  {
    if len == 6 && first == 'a' && last == 's' then "AB"
    else if len == 4 && first == 'h' && last == 's' then "H"
    else if len == 4 && first == 'r' && last == 's' then "R"
    else if len == 7 && first == 'd' && last == 's' then "2B"
    else if len == 7 && first == 't' && last == 's' then "3B"
    else if len == 8 && first == 'h' && last == 's' then "HR"
    else if len == 12 && first == 'r' && last == 'n' then "RBI"
    else if len == 11 && first == 's' && last == 's' then "SB"
    else if len == 5 && first == 'w' && last == 's' then "BB"
    else if len == 10 && first == 's' && last == 's' then "SO"
    else if len == 14 && first == 'b' && last == 'e' then "AVG"
    else if len == 16 && first == 'o' && last == 'e' then "OBP"
    else if len == 18 && first == 's' && last == 'e' then "SLG"
    else if len == 18 && first == 'o' && last == 'g' then "OPS"
    else if len == 10 && first == 't' && last == 's' then "TB"
    else if len == 10 && first == 'h' && last == 'h' then "HBP"
    else if len == 14 && first == 's' && last == 's' then "SF"
    else if len == 16 && first == 'p' && last == 's' then "PA"
    else if len == 4 && first == 'w' && last == 's' then "W"
    else if len == 6 && first == 'l' && last == 's' then "L"
    else if len == 5 && first == 'g' && last == 's' then "G"
    else if len == 12 && first == 'g' && last == 'd' then "GS"
    else if len == 13 && first == 'c' && last == 's' then "CG"
    else if len == 8 && first == 's' && last == 's' then "SHO"
    else if len == 5 && first == 's' && last == 's' then "SV"
    else if len == 14 && first == 'i' && last == 'd' then "IP"
    else if len == 10 && first == 'e' && last == 's' then "ER"
    else if len == 3 && first == 'e' && last == 'a' then "ERA"
    else if len == 4 && first == 'w' && last == 'p' then "WHIP"
    else if len == 14 && first == 's' && last == '9' then "K/9"
    else if len == 9 && first == 'w' && last == '9' then "BB/9"
    else if len == 8 && first == 'h' && last == '9' then "H/9"
    else if len == 13 && first == 'w' && last == 'e' then "W%"
    else if len == 10 && first == 'h' && last == 's' then "HBP"
    else if len == 11 && first == 'w' && last == 's' then "WP"
    else ""
  }

  ghost function Signature(key: string): string
    requires key != ""
  {
    AbbrevBySignature(|key|, LowerChar(key[0]), LowerChar(key[|key| - 1]))
  }

  lemma {:induction false} SignaturesOfPart0()
    ensures forall i :: 0 <= i < |Part0| ==> Part0[i].0 != "" && Signature(Part0[i].0) == Part0[i].1
  {
  }

  lemma {:induction false} SignaturesOfPart1()
    ensures forall i :: 0 <= i < |Part1| ==> Part1[i].0 != "" && Signature(Part1[i].0) == Part1[i].1
  {
  }

  lemma {:induction false} SignaturesOfPart2()
    ensures forall i :: 0 <= i < |Part2| ==> Part2[i].0 != "" && Signature(Part2[i].0) == Part2[i].1
  {
  }

  lemma {:induction false} SignaturesOfPart3()
    ensures forall i :: 0 <= i < |Part3| ==> Part3[i].0 != "" && Signature(Part3[i].0) == Part3[i].1
  {
  }

  /** Entries whose keys are equal ignoring case carry the same abbreviation. */
  lemma {:induction false} TableCaseConsistent()
    ensures CaseConsistent(Entries)
  {
    SignaturesOfPart0();
    SignaturesOfPart1();
    SignaturesOfPart2();
    SignaturesOfPart3();
    forall i, j | 0 <= i < |Entries| && 0 <= j < |Entries| && Lower(Entries[i].0) == Lower(Entries[j].0)
      ensures Entries[i].1 == Entries[j].1
    {
      var a, b := Entries[i].0, Entries[j].0;
      assert Signature(a) == Entries[i].1 && Signature(b) == Entries[j].1;
      assert Lower(a)[0] == LowerChar(a[0]) && Lower(b)[0] == LowerChar(b[0]);
      assert Lower(a)[|a| - 1] == LowerChar(a[|a| - 1]) && Lower(b)[|b| - 1] == LowerChar(b[|b| - 1]);
    }
  }

  lemma {:induction false} TableValuesNonEmpty()
    ensures ValuesNonEmpty(Entries)
  {
  }

  /** A key of the table, written exactly, gets its own abbreviation. */
  lemma {:induction false} ExactKeyGetsItsValue(i: nat)
    requires i < |Entries|
    ensures Abbreviation(Entries, Entries[i].0) == Entries[i].1
  {
    TableCaseConsistent();
    AbbreviationOfMatch(Entries, Entries[i].0, i);
  }

  /** Two spellings of a key that differ only in case get the same abbreviation. */
  lemma {:induction false} SpellingsAgree(k1: string, k2: string, i: nat)
    requires Lower(k1) == Lower(k2)
    requires i < |Entries| && Lower(Entries[i].0) == Lower(k1)
    ensures Abbreviation(Entries, k1) == Abbreviation(Entries, k2) == Entries[i].1
  {
    TableCaseConsistent();
    AbbreviationIgnoresCase(Entries, k1, k2, i);
  }

  /** `getStatAbbreviation` in the rendering service. */
  method GetStatAbbreviation(key: string) returns (r: string)
    ensures r == Abbreviation(Entries, key)
  {
    r := AbbrevLookup.GetStatAbbreviation(Entries, key);
  }

  /** A non-empty key always yields a non-empty header. */
  lemma {:induction false} NonEmptyKeyNonEmptyAbbreviation(key: string)
    requires key != ""
    ensures Abbreviation(Entries, key) != ""
  {
    TableValuesNonEmpty();
    AbbreviationNonEmpty(Entries, key);
  }

  lemma {:induction false} ExampleUpperCase()
    ensures Abbreviation(Entries, "HITS") == "H"
  {
    assert Lower("HITS") == Lower("hits");
    SpellingsAgree("HITS", "hits", 1);
  }

  lemma {:induction false} ExampleExportHeader()
    ensures Abbreviation(Entries, "hitByPitch") == "HBP"
  {
    ExactKeyGetsItsValue(15);
  }

  lemma {:induction false} ExampleFallback()
    ensures Abbreviation(Entries, "OPS") == "OPS"
  {
    forall i | 0 <= i < |Entries| ensures Lower(Entries[i].0) != Lower("OPS") {
      var k := Entries[i].0;
      assert |k| != 3 || LowerChar(k[0]) != 'o';
      assert |k| == 3 ==> Lower(k)[0] == LowerChar(k[0]) && Lower("OPS")[0] == 'o';
    }
    AbbreviationFallback(Entries, "OPS");
  }
}
