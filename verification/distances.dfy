/**
 * The static country-to-distance table and its lookup
 * (src/lib/distance-calculator.ts): road distances in kilometres from the
 * home market, keyed by Swedish and English country names.
 */
module Distances {
  import opened Types
  import opened Strings
  import opened JsObjects

  /** Nordic countries (src/lib/distance-calculator.ts:4-12). */
  const Nordics: seq<(string, nat)> := [
    ("Sverige", 0),
    ("Sweden", 0),
    ("Norge", 500),
    ("Norway", 500),
    ("Danmark", 600),
    ("Denmark", 600),
    ("Finland", 500),
    ("Island", 3000),
    ("Iceland", 3000)
  ]

  /** Western Europe (src/lib/distance-calculator.ts:15-28). */
  const WesternEurope: seq<(string, nat)> := [
    ("Frankrike", 1800),
    ("France", 1800),
    ("Tyskland", 1200),
    ("Germany", 1200),
    ("Belgien", 1400),
    ("Belgium", 1400),
    ("Nederländerna", 1300),
    ("Netherlands", 1300),
    ("Luxemburg", 1500),
    ("Luxembourg", 1500),
    ("Schweiz", 1800),
    ("Switzerland", 1800),
    ("Österrike", 1600),
    ("Austria", 1600)
  ]

  /** Southern Europe (src/lib/distance-calculator.ts:31-37). */
  const SouthernEurope: seq<(string, nat)> := [
    ("Italien", 2200),
    ("Italy", 2200),
    ("Spanien", 2800),
    ("Spain", 2800),
    ("Portugal", 3200),
    ("Greece", 3000),
    ("Grekland", 3000)
  ]

  /** Eastern Europe (src/lib/distance-calculator.ts:40-53). */
  const EasternEurope: seq<(string, nat)> := [
    ("Polen", 900),
    ("Poland", 900),
    ("Tjeckien", 1200),
    ("Czech Republic", 1200),
    ("Ungern", 1500),
    ("Hungary", 1500),
    ("Rumänien", 2000),
    ("Romania", 2000),
    ("Bulgarien", 2200),
    ("Bulgaria", 2200),
    ("Slovenien", 1700),
    ("Slovenia", 1700),
    ("Kroatien", 1900),
    ("Croatia", 1900)
  ]

  /** The United Kingdom and Ireland (src/lib/distance-calculator.ts:56-63). */
  const BritishIsles: seq<(string, nat)> := [
    ("Storbritannien", 1800),
    ("United Kingdom", 1800),
    ("UK", 1800),
    ("England", 1800),
    ("Skottland", 2000),
    ("Scotland", 2000),
    ("Irland", 2200),
    ("Ireland", 2200)
  ]

  /** The Americas (src/lib/distance-calculator.ts:66-75). */
  const Americas: seq<(string, nat)> := [
    ("USA", 8000),
    ("United States", 8000),
    ("Kanada", 7500),
    ("Canada", 7500),
    ("Mexiko", 10000),
    ("Mexico", 10000),
    ("Argentina", 12000),
    ("Chile", 13000),
    ("Brasilien", 10000),
    ("Brazil", 10000)
  ]

  /** Africa (src/lib/distance-calculator.ts:78-81). */
  const Africa: seq<(string, nat)> := [
    ("Sydafrika", 11000),
    ("South Africa", 11000),
    ("Marocko", 4000),
    ("Morocco", 4000)
  ]

  /** Asia and Oceania (src/lib/distance-calculator.ts:84-92). */
  const AsiaOceania: seq<(string, nat)> := [
    ("Australien", 15000),
    ("Australia", 15000),
    ("Nya Zeeland", 18000),
    ("New Zealand", 18000),
    ("Japan", 9000),
    ("Kina", 8000),
    ("China", 8000),
    ("Indien", 7000),
    ("India", 7000)
  ]

  /** The Middle East (src/lib/distance-calculator.ts:95-99). */
  const MiddleEast: seq<(string, nat)> := [
    ("Israel", 4000),
    ("Libanon", 4000),
    ("Lebanon", 4000),
    ("Turkiet", 3000),
    ("Turkey", 3000)
  ]

  /** The two "unknown country" entries (src/lib/distance-calculator.ts:102-103). */
  const Fallback: seq<(string, nat)> := [
    ("Unknown", 2000),
    ("Okänt", 2000)
  ]
  /** Every entry naming a real country. */
  const Known: seq<(string, nat)> :=
    Nordics + WesternEurope + SouthernEurope + EasternEurope + BritishIsles
    + Americas + Africa + AsiaOceania + MiddleEast

  /** The whole table, in the insertion order of the object literal. */
  const Table: seq<(string, nat)> := Known + Fallback

  /** The distance given to a country the table does not know. */
  const DefaultDistance: nat := 2000

  /** The largest distance in the table (New Zealand). */
  const MaxDistance: nat := 18000

  /** The two fallback keys that are not offered as countries. */
  const UnknownKeys: set<string> := {"Unknown", "Okänt"}

  predicate ValuesAtMost(entries: seq<(string, nat)>, bound: nat) {
    forall i :: 0 <= i < |entries| ==> entries[i].1 <= bound
  }

  /** No key of `entries` lower-cases to `lowered`. */
  predicate Absent(entries: seq<(string, nat)>, lowered: string) {
    forall i :: 0 <= i < |entries| ==> Lower(entries[i].0) != lowered
  }

  /** Entry `i` is the first whose key is `key`. */
  predicate FirstKeyAt(entries: seq<(string, nat)>, key: string, i: int) {
    0 <= i < |entries| && entries[i].0 == key && forall j :: 0 <= j < i ==> entries[j].0 != key
  }

  /** Entry `i` is the first whose lower-cased key is `lowered`. */
  predicate FirstFoldedAt(entries: seq<(string, nat)>, lowered: string, i: int) {
    0 <= i < |entries| && Lower(entries[i].0) == lowered && forall j :: 0 <= j < i ==> Lower(entries[j].0) != lowered
  }

  lemma TableValuesBounded()
    ensures ValuesAtMost(Table, MaxDistance)
  {
    assert ValuesAtMost(Nordics, MaxDistance);
    assert ValuesAtMost(WesternEurope, MaxDistance);
    assert ValuesAtMost(SouthernEurope, MaxDistance);
    assert ValuesAtMost(EasternEurope, MaxDistance);
    assert ValuesAtMost(BritishIsles, MaxDistance);
    assert ValuesAtMost(Americas, MaxDistance);
    assert ValuesAtMost(Africa, MaxDistance);
    assert ValuesAtMost(AsiaOceania, MaxDistance);
    assert ValuesAtMost(MiddleEast, MaxDistance);
    assert ValuesAtMost(Known, MaxDistance);
    assert ValuesAtMost(Fallback, MaxDistance);
  }

  /** No key of `entries` is exactly `key`. */
  predicate Missing(entries: seq<(string, nat)>, key: string) {
    forall i :: 0 <= i < |entries| ==> entries[i].0 != key
  }

  /** Every key of `entries` differs from `key` in length or first letter. */
  predicate ShapeDiffers(entries: seq<(string, nat)>, key: string) {
    forall i :: 0 <= i < |entries| ==> |entries[i].0| != |key| || (|key| > 0 && entries[i].0[0] != key[0])
  }

  /** Every lower-cased key of `entries` differs from `lowered` in length or first letter. */
  predicate FoldedShapeDiffers(entries: seq<(string, nat)>, lowered: string) {
    forall i :: 0 <= i < |entries| ==> |entries[i].0| != |lowered| || (|lowered| > 0 && LowerChar(entries[i].0[0]) != lowered[0])
  }

  lemma AbsentByShape(entries: seq<(string, nat)>, lowered: string)
    requires FoldedShapeDiffers(entries, lowered)
    ensures Absent(entries, lowered)
  {
    forall i | 0 <= i < |entries| ensures Lower(entries[i].0) != lowered {
      if |entries[i].0| == |lowered| {
        assert Lower(entries[i].0)[0] != lowered[0];
      }
    }
  }

  /** A key that no country entry has, by the shape test, region by region. */
  lemma MissingFromKnown(key: string)
    requires ShapeDiffers(Nordics, key) && ShapeDiffers(WesternEurope, key)
    requires ShapeDiffers(SouthernEurope, key) && ShapeDiffers(EasternEurope, key)
    requires ShapeDiffers(BritishIsles, key) && ShapeDiffers(Americas, key)
    requires ShapeDiffers(Africa, key) && ShapeDiffers(AsiaOceania, key)
    requires ShapeDiffers(MiddleEast, key)
    ensures Missing(Known, key)
  {
  }

  /** A name that no key matches, not even ignoring case, by the shape test, region by region. */
  lemma AbsentFromTable(lowered: string)
    requires FoldedShapeDiffers(Nordics, lowered) && FoldedShapeDiffers(WesternEurope, lowered)
    requires FoldedShapeDiffers(SouthernEurope, lowered) && FoldedShapeDiffers(EasternEurope, lowered)
    requires FoldedShapeDiffers(BritishIsles, lowered) && FoldedShapeDiffers(Americas, lowered)
    requires FoldedShapeDiffers(Africa, lowered) && FoldedShapeDiffers(AsiaOceania, lowered)
    requires FoldedShapeDiffers(MiddleEast, lowered) && FoldedShapeDiffers(Fallback, lowered)
    ensures Absent(Table, lowered)
  {
    AbsentByShape(Nordics, lowered);
    AbsentByShape(WesternEurope, lowered);
    AbsentByShape(SouthernEurope, lowered);
    AbsentByShape(EasternEurope, lowered);
    AbsentByShape(BritishIsles, lowered);
    AbsentByShape(Americas, lowered);
    AbsentByShape(Africa, lowered);
    AbsentByShape(AsiaOceania, lowered);
    AbsentByShape(MiddleEast, lowered);
    AbsentByShape(Fallback, lowered);
  }

  /** The value of an exact key of `entries`, else of the first key equal
      to `country` ignoring case, else `default`. */
  function Resolve(entries: seq<(string, nat)>, country: string, default: nat): (km: nat)
    ensures km == default || exists i :: 0 <= i < |entries| && entries[i].1 == km
    ensures forall i :: FirstKeyAt(entries, country, i) ==> km == entries[i].1
    ensures (forall j :: 0 <= j < |entries| ==> entries[j].0 != country) ==>
      forall i :: FirstFoldedAt(entries, Lower(country), i) ==> km == entries[i].1
    ensures Absent(entries, Lower(country)) ==> km == default
  {
    match OwnValue(entries, country)
    case Some(v) => v
    case None =>
      var i := FoldedKeyIndex(entries, Lower(country));
      if i < |entries| then entries[i].1 else default
  }

  /** `getDistanceFromSweden`: total, and never beyond the farthest entry. */
  function Distance(country: string): (km: nat)
    ensures km <= MaxDistance
  {
    TableValuesBounded();
    Resolve(Table, country, DefaultDistance)
  }

  /** `getCountryList`: every key but the two fallback keys, in table order. */
  function CountryList(): (names: seq<string>)
    ensures forall c :: c in names <==> c !in UnknownKeys && exists i :: 0 <= i < |Table| && Table[i].0 == c
  {
    KeysExcept(Table, UnknownKeys)
  }

  /** Neither fallback key is a country. */
  lemma FallbackKeysExcluded()
    ensures KeysExcept(Fallback, UnknownKeys) == []
  {
    assert KeysExcept(Fallback[1..], UnknownKeys) == [];
  }

  /** The English fallback key names no real country. */
  lemma UnknownKeyNotKnown()
    ensures Missing(Known, "Unknown")
  {
    MissingFromKnown("Unknown");
  }

  /** The Swedish fallback key names no real country. */
  lemma SentinelKeyNotKnown()
    ensures Missing(Known, "Okänt")
  {
    MissingFromKnown("Okänt");
  }

  /** No real-country key is a fallback key. */
  lemma KnownKeysKept()
    ensures KeysExcept(Known, UnknownKeys) == Keys(Known)
  {
    UnknownKeyNotKnown();
    SentinelKeyNotKnown();
    KeysExceptNoneExcluded(Known, UnknownKeys);
  }

  /** The country list is exactly the keys of the real-country entries, in
      table order: all keys but the last two. */
  lemma CountryListIsKnownKeys()
    ensures CountryList() == Keys(Known)
    ensures |CountryList()| == |Table| - 2
  {
    KeysExceptAppend(Known, Fallback, UnknownKeys);
    FallbackKeysExcluded();
    KnownKeysKept();
  }

  /** An exact key is found before any case-insensitive comparison. */
  lemma SwedenIsHome()
    ensures Distance("Sverige") == 0 && Distance("Sweden") == 0
  {
    assert Table[0] == Known[0] == Nordics[0];
    assert Table[1] == Known[1] == Nordics[1];
    assert FirstKeyAt(Table, "Sverige", 0);
    assert FirstKeyAt(Table, "Sweden", 1);
  }

  /** A name differing only in case from a key resolves like the key. */
  lemma LowerCaseSwedenIsHome()
    ensures Distance("sverige") == 0
  {
    MissingFromKnown("sverige");
    assert Missing(Table, "sverige");
    assert Table[0] == Nordics[0];
    assert Lower("Sverige") == "sverige";
    assert FirstFoldedAt(Table, "sverige", 0);
  }

  /** The Swedish and English names of a country resolve alike. */
  lemma AliasesAgree()
    ensures Distance("Frankrike") == Distance("France") == 1800
  {
    assert FirstKeyAt(Table, "Frankrike", |Nordics|);
    assert FirstKeyAt(Table, "France", |Nordics| + 1);
  }

  /** The normaliser's sentinel country gets the default through its own entry. */
  lemma SentinelGetsDefault()
    ensures Distance("Okänt") == DefaultDistance
  {
    SentinelKeyNotKnown();
    assert Table[|Known| + 1] == Fallback[1];
    assert FirstKeyAt(Table, "Okänt", |Known| + 1);
  }

  /** Every name that no key matches, not even ignoring case, gets the default. */
  lemma UnknownCountryGetsDefault(country: string)
    requires Absent(Table, Lower(country))
    ensures Distance(country) == DefaultDistance
  {
  }

  /** "Atlantis" is such a name. */
  lemma AtlantisGetsDefault()
    ensures Absent(Table, Lower("Atlantis"))
    ensures Distance("Atlantis") == DefaultDistance
  {
    assert Lower("Atlantis") == "atlantis";
    AbsentFromTable("atlantis");
    UnknownCountryGetsDefault("Atlantis");
  }

  /** What the first line of `getDistanceFromSweden` finds: a number, or a
      member inherited from Object.prototype, since the test
      `DISTANCES_TO_SWEDEN[country] !== undefined` also passes for those. */
  datatype Reading = Km(km: nat) | PrototypeMember(name: string)

  /** `getDistanceFromSweden` as written: an inherited member such as
      `constructor` is returned in place of a distance, and every other
      name resolves as in `Distance`. */
  function DistanceAsWritten(country: string): (r: Reading)
    ensures r.PrototypeMember? <==> Missing(Table, country) && country in PrototypeNames
    ensures r.Km? ==> r.km == Distance(country)
  {
    match Get(Table, country)
    case Inherited(name) => PrototypeMember(name)
    case _ => Km(Distance(country))
  }

  /** A country typed as "constructor" yields a function instead of a
      distance as written. */
  lemma ConstructorIsNotADistance()
    ensures DistanceAsWritten("constructor").PrototypeMember?
  {
    MissingFromKnown("constructor");
    assert Missing(Table, "constructor");
  }

  /** Looked up among the table's own keys only, a name that is merely an
      inherited member of a plain object gets the default distance. */
  lemma ConstructorGetsDefault()
    ensures Distance("constructor") == DefaultDistance
  {
    assert Lower("constructor") == "constructor";
    AbsentFromTable("constructor");
  }
}
