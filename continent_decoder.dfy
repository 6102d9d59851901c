/** `ContinentDecoder` (Services/NodesService/ContinentDecoder/ContinentDecoder.swift)
    with `Continent` and `CountryExtra`: a table from upper-cased ISO
    alpha-2 country codes to continent codes, filled once from a bundled
    list, and the lookup that reads a continent from it. */
module ContinentDecoders {
  import opened Wrappers
  import opened Text

  datatype Continent = Africa | SouthAmerica | NorthAmerica | Asia | Europe | Oceania | Antarctica

  /** The `String` raw values. */
  function RawValue(c: Continent): string {
    match c
    case Africa => "AF"
    case SouthAmerica => "SA"
    case NorthAmerica => "NA"
    case Asia => "AS"
    case Europe => "EU"
    case Oceania => "OC"
    case Antarctica => "AN"
  }

  const RawValues: set<string> := {"AF", "SA", "NA", "AS", "EU", "OC", "AN"}

  /** `Continent(rawValue:)`. */
  function ContinentFromRaw(s: string): (r: Option<Continent>)
    ensures r.Some? <==> s in RawValues
    ensures r.Some? ==> RawValue(r.value) == s
  {
    if s == "AF" then Some(Africa)
    else if s == "SA" then Some(SouthAmerica)
    else if s == "NA" then Some(NorthAmerica)
    else if s == "AS" then Some(Asia)
    else if s == "EU" then Some(Europe)
    else if s == "OC" then Some(Oceania)
    else if s == "AN" then Some(Antarctica)
    else None
  }

  lemma ContinentRawRoundTrip(c: Continent)
    ensures ContinentFromRaw(RawValue(c)) == Some(c)
  {
  }

  /** One entry of the bundled `continents.json`. */
  datatype CountryExtra = CountryExtra(
    alpha2: string,
    capital: Option<string>,
    area: Option<string>,
    population: Option<string>,
    continent: string)

  /** The table the filling loop leaves after the given entries: each entry
      writes its continent under its upper-cased code, so a later entry for
      the same code overwrites an earlier one. */
  function CountryTable(entries: seq<CountryExtra>): map<string, string> {
    if entries == [] then map[]
    else
      var last := entries[|entries| - 1];
      CountryTable(entries[..|entries| - 1])[Uppercase(last.alpha2) := last.continent]
  }

  /** The codes in the table are exactly the upper-cased codes of the
      entries, and each maps to the continent of the last entry with that
      code. */
  lemma {:induction false} CountryTableSpec(entries: seq<CountryExtra>)
    ensures forall k :: k in CountryTable(entries) <==> exists i :: 0 <= i < |entries| && Uppercase(entries[i].alpha2) == k
    ensures forall i :: 0 <= i < |entries| && LastFor(entries, i) ==>
      CountryTable(entries)[Uppercase(entries[i].alpha2)] == entries[i].continent
  {
    if entries != [] {
      var n := |entries| - 1;
      var init := entries[..n];
      CountryTableSpec(init);
      forall k ensures k in CountryTable(entries) <==> exists i :: 0 <= i < |entries| && Uppercase(entries[i].alpha2) == k {
        if k in CountryTable(init) {
          var i :| 0 <= i < |init| && Uppercase(init[i].alpha2) == k;
          assert entries[i] == init[i];
        }
        if exists i :: 0 <= i < |entries| && Uppercase(entries[i].alpha2) == k {
          var i :| 0 <= i < |entries| && Uppercase(entries[i].alpha2) == k;
          if i < n {
            assert init[i] == entries[i];
          }
        }
      }
      forall i | 0 <= i < |entries| && LastFor(entries, i)
        ensures CountryTable(entries)[Uppercase(entries[i].alpha2)] == entries[i].continent
      {
        if i < n {
          assert init[i] == entries[i];
          assert LastFor(init, i);
        }
      }
    }
  }

  /** Entry `i` is the last one with its upper-cased code. */
  predicate LastFor(entries: seq<CountryExtra>, i: nat)
    requires i < |entries|
  {
    forall j :: i < j < |entries| ==> Uppercase(entries[j].alpha2) != Uppercase(entries[i].alpha2)
  }

  class ContinentDecoder {
    var countryCodeToContinent: map<string, string>

    /** `init()`. The bundled list is a parameter: `None` stands for a
        missing resource, an unreadable file or a list that does not
        decode, all of which leave the table empty. */
    constructor (resource: Option<seq<CountryExtra>>)
      ensures resource.None? ==> countryCodeToContinent == map[]
      ensures resource.Some? ==> countryCodeToContinent == CountryTable(resource.value)
    {
      countryCodeToContinent := map[];
      new;
      if resource.Some? {
        var countriesExtra := resource.value;
        for i := 0 to |countriesExtra|
          invariant countryCodeToContinent == CountryTable(countriesExtra[..i])
        {
          var countryExtra := countriesExtra[i];
          var countryCode := Uppercase(countryExtra.alpha2);
          countryCodeToContinent := countryCodeToContinent[countryCode := countryExtra.continent];
          assert countriesExtra[..i + 1][..i] == countriesExtra[..i];
        }
        assert countriesExtra[..|countriesExtra|] == countriesExtra;
      }
    }

    /** `getContinent(for:)`: the continent stored under the upper-cased
        code, when there is one and it is a known continent code. */
    function GetContinent(countryCode: string): (r: Option<Continent>)
      reads this
      ensures r.Some? <==> Uppercase(countryCode) in countryCodeToContinent
                           && countryCodeToContinent[Uppercase(countryCode)] in RawValues
      ensures r.Some? ==> RawValue(r.value) == countryCodeToContinent[Uppercase(countryCode)]
    {
      var continentCode := if Uppercase(countryCode) in countryCodeToContinent
        then Some(countryCodeToContinent[Uppercase(countryCode)]) else None;
      ContinentFromRaw(continentCode.GetOr(""))
    }
  }

  /** The lookup ignores the case of the code. */
  lemma GetContinentIgnoresCase(d: ContinentDecoder, countryCode: string)
    ensures d.GetContinent(countryCode) == d.GetContinent(Uppercase(countryCode))
  {
    UppercaseIdempotent(countryCode);
  }

  /** The last entry for a code is what the table holds under it. */
  lemma TableHoldsLast(entries: seq<CountryExtra>, i: nat)
    requires i < |entries| && LastFor(entries, i)
    ensures Uppercase(entries[i].alpha2) in CountryTable(entries)
    ensures CountryTable(entries)[Uppercase(entries[i].alpha2)] == entries[i].continent
  {
    CountryTableSpec(entries);
  }

  /** A code no entry has is not in the table. */
  lemma TableLacksUnlisted(entries: seq<CountryExtra>, key: string)
    requires forall i :: 0 <= i < |entries| ==> Uppercase(entries[i].alpha2) != key
    ensures key !in CountryTable(entries)
  {
    CountryTableSpec(entries);
  }

  lemma LookupLast(d: ContinentDecoder, entries: seq<CountryExtra>, countryCode: string, i: nat)
    requires d.countryCodeToContinent == CountryTable(entries)
    requires i < |entries| && LastFor(entries, i) && Uppercase(entries[i].alpha2) == Uppercase(countryCode)
    ensures d.GetContinent(countryCode) == ContinentFromRaw(entries[i].continent)
  {
    TableHoldsLast(entries, i);
  }

  /** Looked up under any spelling of its code, the last entry for a country
      gives its continent, and a code no entry has gives nothing. */
  lemma LookupAfterInit(d: ContinentDecoder, entries: seq<CountryExtra>, countryCode: string)
    requires d.countryCodeToContinent == CountryTable(entries)
    ensures forall i :: 0 <= i < |entries| && LastFor(entries, i) && Uppercase(entries[i].alpha2) == Uppercase(countryCode) ==>
      d.GetContinent(countryCode) == ContinentFromRaw(entries[i].continent)
    ensures (forall i :: 0 <= i < |entries| ==> Uppercase(entries[i].alpha2) != Uppercase(countryCode)) ==>
      d.GetContinent(countryCode) == None
  {
    var key := Uppercase(countryCode);
    forall i | 0 <= i < |entries| && LastFor(entries, i) && Uppercase(entries[i].alpha2) == key
      ensures d.GetContinent(countryCode) == ContinentFromRaw(entries[i].continent)
    {
      LookupLast(d, entries, countryCode, i);
    }
    if forall i :: 0 <= i < |entries| ==> Uppercase(entries[i].alpha2) != key {
      TableLacksUnlisted(entries, key);
    }
  }
}
