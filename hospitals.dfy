/** The hospital record both hospital screens list, and their search filter. */
module Hospitals {
  import opened Wrappers
  import opened Text
  import opened Seqs

  datatype Coord = Coord(lat: real, lon: real)

  /** `kind` is the web record's `type` field; the mobile record has none. */
  datatype Hospital = Hospital(
    id: string,
    name: string,
    address: string,
    phone: Option<string>,
    distance: real,
    lat: real,
    lon: real,
    kind: Option<string>)

  /** Where both screens search when the device cannot tell where it is (Delhi). */
  const DEFAULT_LOCATION: Coord := Coord(28.6139, 77.209)

  function DistanceOf(h: Hospital): real {
    h.distance
  }

  /** The query occurs in the name or in the address, ignoring case. */
  predicate MatchesQuery(h: Hospital, query: string) {
    ContainsIgnoringCase(h.name, query) || ContainsIgnoringCase(h.address, query)
  }

  /** `filteredHospitals`: the hospitals the search box lets through. */
  function FilterHospitals(hospitals: seq<Hospital>, query: string): seq<Hospital> {
    Filter(hospitals, h => MatchesQuery(h, query))
  }

  /**
   * The search keeps every matching hospital, as often as it is listed, and
   * nothing else; filtering a concatenation filters each part, so the
   * listed order is kept.
   */
  lemma SearchFilterExact(hospitals: seq<Hospital>, query: string, front: seq<Hospital>, back: seq<Hospital>)
    requires hospitals == front + back
    ensures forall h :: multiset(FilterHospitals(hospitals, query))[h]
                        == if MatchesQuery(h, query) then multiset(hospitals)[h] else 0
    ensures FilterHospitals(hospitals, query) == FilterHospitals(front, query) + FilterHospitals(back, query)
  {
    FilterCounts(hospitals, h => MatchesQuery(h, query));
    FilterConcat(front, back, h => MatchesQuery(h, query));
  }

  /** With an empty search box every hospital is shown. */
  lemma EmptyQueryShowsAll(hospitals: seq<Hospital>)
    ensures FilterHospitals(hospitals, "") == hospitals
  {
    forall i | 0 <= i < |hospitals|
      ensures MatchesQuery(hospitals[i], "")
    {
      ContainsEmpty(Lower(hospitals[i].name));
    }
    FilterIdentity(hospitals, h => MatchesQuery(h, ""));
  }
}
