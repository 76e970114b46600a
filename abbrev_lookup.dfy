/**
 * The stat-key to abbreviation lookup. The rendering service and the frontend
 * each have a copy of `getStatAbbreviation` with the same body over their own
 * table, so both are this module applied to a different table.
 */
module AbbrevLookup {
  import opened Wrappers
  import opened Strings

  /** A string-keyed object, as its entries in `Object.entries` order. */
  type Table = seq<(string, string)>

  /** The first entry whose key is exactly `key`: the entry a property read finds. */
  function FindKey(t: Table, key: string): (r: Option<nat>)
    ensures r.Some? ==> r.value < |t| && t[r.value].0 == key
    ensures forall j :: 0 <= j < |t| && (r.None? || j < r.value) ==> t[j].0 != key
  {
    if t == [] then None
    else if t[0].0 == key then Some(0)
    else match FindKey(t[1..], key)
      case None => None
      case Some(i) => Some(i + 1)
  }

  /** The first exact match is the one that no earlier match precedes. */
  lemma {:induction false} FindKeyIs(t: Table, key: string, j: nat)
    requires j < |t| && t[j].0 == key
    requires forall m :: 0 <= m < j ==> t[m].0 != key
    ensures FindKey(t, key) == Some(j)
  {
  }

  /** `table[key]`, None standing for `undefined`. */
  function Get(t: Table, key: string): (r: Option<string>)
    ensures r.Some? <==> exists i :: 0 <= i < |t| && t[i].0 == key
    ensures r.Some? ==> exists i :: 0 <= i < |t| && t[i] == (key, r.value)
  {
    match FindKey(t, key)
    case None => None
    case Some(i) => Some(t[i].1)
  }

  /** The first entry whose lower-cased key equals `lowerKey`. */
  function FindLower(t: Table, lowerKey: string): (r: Option<nat>)
    ensures r.Some? ==> r.value < |t| && Lower(t[r.value].0) == lowerKey
    ensures forall j :: 0 <= j < |t| && (r.None? || j < r.value) ==> Lower(t[j].0) != lowerKey
  {
    if t == [] then None
    else if Lower(t[0].0) == lowerKey then Some(0)
    else match FindLower(t[1..], lowerKey)
      case None => None
      case Some(i) => Some(i + 1)
  }

  /**
   * What `getStatAbbreviation` returns: the value under exactly `key` when it
   * is truthy, else the value of the first entry equal to `key` ignoring case,
   * else `key` itself.
   */
  function Abbreviation(t: Table, key: string): (r: string)
    ensures r == key || exists i :: 0 <= i < |t| && Lower(t[i].0) == Lower(key) && r == t[i].1
  {
    var exact := Get(t, key);
    if exact.Some? && exact.value != "" then exact.value
    else
      match FindLower(t, Lower(key))
      case Some(i) => t[i].1
      case None => key
  }

  /** The exact property read, then the case-insensitive scan with early return, then the key. */
  method GetStatAbbreviation(t: Table, key: string) returns (r: string)
    ensures r == Abbreviation(t, key)
  {
    var exact := Get(t, key);
    if exact.Some? && exact.value != "" {
      return exact.value;
    }
    var lowerKey := Lower(key);
    var i := 0;
    while i < |t|
      invariant 0 <= i <= |t|
      invariant forall j :: 0 <= j < i ==> Lower(t[j].0) != lowerKey
    {
      if Lower(t[i].0) == lowerKey {
        assert FindLower(t, lowerKey) == Some(i);
        return t[i].1;
      }
      i := i + 1;
    }
    return key;
  }

  /** Entries whose keys are equal ignoring case have equal values. */
  predicate CaseConsistent(t: Table)
  {
    forall i, j :: 0 <= i < |t| && 0 <= j < |t| && Lower(t[i].0) == Lower(t[j].0) ==> t[i].1 == t[j].1
  }

  predicate ValuesNonEmpty(t: Table)
  {
    forall i :: 0 <= i < |t| ==> t[i].1 != ""
  }

  /** A key that matches no entry even ignoring case comes back unchanged. */
  lemma {:induction false} AbbreviationFallback(t: Table, key: string)
    requires forall i :: 0 <= i < |t| ==> Lower(t[i].0) != Lower(key)
    ensures Abbreviation(t, key) == key
  {
  }

  /** A key stored exactly with a non-empty value gets that value. */
  lemma {:induction false} AbbreviationExact(t: Table, i: nat)
    requires i < |t| && t[i].1 != ""
    requires forall j :: 0 <= j < |t| && j != i ==> t[j].0 != t[i].0
    ensures Abbreviation(t, t[i].0) == t[i].1
  {
    assert FindKey(t, t[i].0) == Some(i);
  }

  /**
   * Without a non-empty exact entry, the first entry matching ignoring case
   * decides, in table order.
   */
  lemma {:induction false} AbbreviationFirstCaseInsensitive(t: Table, key: string, i: nat)
    requires Get(t, key).None? || Get(t, key) == Some("")
    requires i < |t| && Lower(t[i].0) == Lower(key)
    requires forall j :: 0 <= j < i ==> Lower(t[j].0) != Lower(key)
    ensures Abbreviation(t, key) == t[i].1
  {
    assert FindLower(t, Lower(key)) == Some(i);
  }

  /** In a case-consistent table any entry matching the key ignoring case gives the answer. */
  lemma {:induction false} AbbreviationOfMatch(t: Table, key: string, i: nat)
    requires CaseConsistent(t)
    requires i < |t| && Lower(t[i].0) == Lower(key)
    ensures Abbreviation(t, key) == t[i].1
  {
    var exact := Get(t, key);
    if exact.Some? && exact.value != "" {
      var k := FindKey(t, key).value;
      assert Lower(t[k].0) == Lower(key);
    } else {
      var k := FindLower(t, Lower(key)).value;
    }
  }

  /** So two keys that differ only in case get the same abbreviation, once either matches. */
  lemma {:induction false} AbbreviationIgnoresCase(t: Table, k1: string, k2: string, i: nat)
    requires CaseConsistent(t)
    requires Lower(k1) == Lower(k2)
    requires i < |t| && Lower(t[i].0) == Lower(k1)
    ensures Abbreviation(t, k1) == Abbreviation(t, k2) == t[i].1
  {
    AbbreviationOfMatch(t, k1, i);
    AbbreviationOfMatch(t, k2, i);
  }

  /** With no empty value in the table, a non-empty key never yields the empty string. */
  lemma {:induction false} AbbreviationNonEmpty(t: Table, key: string)
    requires ValuesNonEmpty(t) && key != ""
    ensures Abbreviation(t, key) != ""
  {
  }
}
