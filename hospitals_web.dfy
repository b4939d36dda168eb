/**
 * The web "Nearby Hospitals" page: turning Overpass elements into hospital
 * records, keeping the 20 nearest usable ones, the six-entry sample list
 * used when no live data is available, and the page state the search
 * updates.
 */
module NearbyHospitalsPage {
  import opened Wrappers
  import opened Text
  import opened Seqs
  import opened Hospitals

  /**
   * One element of the Overpass reply. A node carries `lat`/`lon` itself, a
   * way or relation its `center`; absent keys of `tags` are absent tags.
   * `id` is the element id already rendered as a string.
   */
  datatype Element = Element(
    id: string,
    lat: Option<real>,
    lon: Option<real>,
    center: Option<Coord>,
    tags: map<string, string>)

  /** The distance in km, already rounded to two decimals, from the search location to a point. */
  type DistanceFn = (Coord, Coord) -> real

  const MAX_DISTANCE_KM: real := 50.0
  const MAX_RESULTS: nat := 20
  const ADDRESS_KEYS: seq<string> := ["addr:housenumber", "addr:street", "addr:suburb", "addr:city", "addr:state"]
  const NO_ADDRESS := "Address not available"

  function Tag(tags: map<string, string>, key: string): Option<string> {
    if key in tags then Some(tags[key]) else None
  }

  /** `a || b || 0` on optional numbers: a missing or zero value falls through. */
  function NumberOr(a: Option<real>, b: Option<real>): (r: real)
    ensures r != 0.0 ==> (a.Some? && r == a.value) || (b.Some? && r == b.value)
    ensures a.Some? && a.value != 0.0 ==> r == a.value
    ensures r == 0.0 <==> (a.None? || a.value == 0.0) && (b.None? || b.value == 0.0)
  {
    if a.Some? && a.value != 0.0 then a.value
    else if b.Some? && b.value != 0.0 then b.value
    else 0.0
  }

  function ResolvedLat(e: Element): real {
    NumberOr(e.lat, if e.center.Some? then Some(e.center.value.lat) else None)
  }

  function ResolvedLon(e: Element): real {
    NumberOr(e.lon, if e.center.Some? then Some(e.center.value.lon) else None)
  }

  /** The generic names given to elements without a usable name tag. */
  predicate IsGenericName(name: string) {
    name == "Hospital" || name == "Clinic"
  }

  /** `name`, else `name:en`, else `healthcare:speciality`, else "Clinic"/"Hospital" by amenity. */
  function HospitalName(tags: map<string, string>): string {
    var named := Or(Or(Tag(tags, "name"), Tag(tags, "name:en")), Tag(tags, "healthcare:speciality"));
    if Truthy(named) then named.value
    else if Tag(tags, "amenity") == Some("clinic") then "Clinic"
    else "Hospital"
  }

  /** The name is the first non-empty tag of the chain, and a generic name only when none is. */
  lemma HospitalNameChain(tags: map<string, string>)
    ensures HospitalName(tags) != ""
    ensures Truthy(Tag(tags, "name")) ==> HospitalName(tags) == tags["name"]
    ensures !Truthy(Tag(tags, "name")) && Truthy(Tag(tags, "name:en"))
            ==> HospitalName(tags) == tags["name:en"]
    ensures !Truthy(Tag(tags, "name")) && !Truthy(Tag(tags, "name:en")) && Truthy(Tag(tags, "healthcare:speciality"))
            ==> HospitalName(tags) == tags["healthcare:speciality"]
    ensures !Truthy(Tag(tags, "name")) && !Truthy(Tag(tags, "name:en")) && !Truthy(Tag(tags, "healthcare:speciality"))
            ==> HospitalName(tags) == (if Tag(tags, "amenity") == Some("clinic") then "Clinic" else "Hospital")
  {
  }

  /** Each key's tag text, "" where the tag is absent (`tags?.[key]`, with undefined as ""). */
  function TagTexts(tags: map<string, string>, keys: seq<string>): seq<string> {
    seq(|keys|, i requires 0 <= i < |keys| => if keys[i] in tags then tags[keys[i]] else "")
  }

  /** `Boolean` on a string: truthy when non-empty. */
  predicate IsPresent(s: string) {
    s != ""
  }

  /** The values of the keys that are present and non-empty, in key order (`filter(Boolean)`). */
  function PresentValues(tags: map<string, string>, keys: seq<string>): (r: seq<string>)
    ensures |r| <= |keys|
    ensures forall i :: 0 <= i < |r| ==> r[i] != ""
    ensures r == [] <==> forall k :: k in keys ==> !Truthy(Tag(tags, k))
  {
    if keys == [] then []
    else if Truthy(Tag(tags, keys[0])) then [tags[keys[0]]] + PresentValues(tags, keys[1..])
    else
      assert forall k :: k in keys ==> k == keys[0] || k in keys[1..];
      PresentValues(tags, keys[1..])
  }

  /** PresentValues is the source's `[tags?.[k] for each key].filter(Boolean)`. */
  lemma {:induction false} PresentValuesSpec(tags: map<string, string>, keys: seq<string>)
    ensures PresentValues(tags, keys) == Filter(TagTexts(tags, keys), IsPresent)
  {
    if keys != [] {
      PresentValuesSpec(tags, keys[1..]);
      assert TagTexts(tags, keys)[1..] == TagTexts(tags, keys[1..]);
    }
  }

  /** The present address parts joined with ", ", else `addr:full`, else a fixed text. */
  function Address(tags: map<string, string>): string {
    var joined := Join(PresentValues(tags, ADDRESS_KEYS), ", ");
    if joined != "" then joined
    else if Truthy(Tag(tags, "addr:full")) then tags["addr:full"]
    else NO_ADDRESS
  }

  /** The address is never empty; it falls back to `addr:full` only when no part is present. */
  lemma AddressSpec(tags: map<string, string>)
    ensures Address(tags) != ""
    ensures (exists k :: k in ADDRESS_KEYS && Truthy(Tag(tags, k)))
            ==> Address(tags) == Join(PresentValues(tags, ADDRESS_KEYS), ", ")
    ensures (forall k :: k in ADDRESS_KEYS ==> !Truthy(Tag(tags, k)))
            ==> Address(tags) == (if Truthy(Tag(tags, "addr:full")) then tags["addr:full"] else NO_ADDRESS)
  {
    JoinEmpty(PresentValues(tags, ADDRESS_KEYS), ", ");
  }

  /** `phone || contact:phone`, which may stay undefined. */
  function Phone(tags: map<string, string>): (r: Option<string>)
    ensures Truthy(Tag(tags, "phone")) ==> r == Some(tags["phone"])
    ensures !Truthy(Tag(tags, "phone")) ==> r == Tag(tags, "contact:phone")
  {
    Or(Tag(tags, "phone"), Tag(tags, "contact:phone"))
  }

  /** `amenity || healthcare || "hospital"`. */
  function Kind(tags: map<string, string>): (r: string)
    ensures r != ""
    ensures Truthy(Tag(tags, "amenity")) ==> r == tags["amenity"]
    ensures !Truthy(Tag(tags, "amenity")) && Truthy(Tag(tags, "healthcare")) ==> r == tags["healthcare"]
    ensures !Truthy(Tag(tags, "amenity")) && !Truthy(Tag(tags, "healthcare")) ==> r == "hospital"
  {
    Or(Or(Tag(tags, "amenity"), Tag(tags, "healthcare")), Some("hospital")).value
  }

  /** One element as a hospital record, or None when it has no usable position. */
  function Normalize(location: Coord, e: Element, distance: DistanceFn): (r: Option<Hospital>)
    ensures r.None? <==> ResolvedLat(e) == 0.0 || ResolvedLon(e) == 0.0
    ensures r.Some? ==> r.value.id == e.id && r.value.lat != 0.0 && r.value.lon != 0.0
    ensures r.Some? ==> r.value.distance == distance(location, Coord(r.value.lat, r.value.lon))
    ensures r.Some? ==> r.value.name != "" && r.value.address != ""
    ensures r.Some? ==> r.value.kind.Some? && r.value.kind.value != ""
    ensures r.Some? ==> r.value == Hospital(
              id := e.id, name := HospitalName(e.tags), address := Address(e.tags), phone := Phone(e.tags),
              distance := distance(location, Coord(ResolvedLat(e), ResolvedLon(e))),
              lat := ResolvedLat(e), lon := ResolvedLon(e), kind := Some(Kind(e.tags)))
  {
    var lat := ResolvedLat(e);
    var lon := ResolvedLon(e);
    if lat == 0.0 || lon == 0.0 then None
    else
      HospitalNameChain(e.tags);
      AddressSpec(e.tags);
      Some(Hospital(
        id := e.id,
        name := HospitalName(e.tags),
        address := Address(e.tags),
        phone := Phone(e.tags),
        distance := distance(location, Coord(lat, lon)),
        lat := lat,
        lon := lon,
        kind := Some(Kind(e.tags))))
  }

  /** The records of the elements that have a position, in reply order. */
  function Normalized(location: Coord, elements: seq<Element>, distance: DistanceFn): (r: seq<Hospital>)
    ensures |r| <= |elements|
  {
    if elements == [] then []
    else
      var rest := Normalized(location, elements[1..], distance);
      match Normalize(location, elements[0], distance)
      case Some(h) => [h] + rest
      case None => rest
  }

  /** Every record comes from an element of the reply, and every element with a position yields its record. */
  lemma {:induction false} NormalizedSpec(location: Coord, elements: seq<Element>, distance: DistanceFn)
    ensures forall h :: h in Normalized(location, elements, distance)
                        ==> exists e :: e in elements && Normalize(location, e, distance) == Some(h)
    ensures forall e :: e in elements && Normalize(location, e, distance).Some?
                        ==> Normalize(location, e, distance).value in Normalized(location, elements, distance)
  {
    if elements != [] {
      NormalizedSpec(location, elements[1..], distance);
      assert forall e :: e in elements[1..] ==> e in elements;
      assert forall e :: e in elements ==> e == elements[0] || e in elements[1..];
    }
  }

  /** Normalizing a reply in two parts gives the two parts' records one after the other. */
  lemma {:induction false} NormalizedConcat(location: Coord, a: seq<Element>, b: seq<Element>, distance: DistanceFn)
    ensures Normalized(location, a + b, distance) == Normalized(location, a, distance) + Normalized(location, b, distance)
  {
    if a == [] {
      assert a + b == b;
    } else {
      assert (a + b)[1..] == a[1..] + b;
      NormalizedConcat(location, a[1..], b, distance);
    }
  }

  /** A record the page lists: named, and at most 50 km away. */
  predicate Usable(h: Hospital) {
    !IsGenericName(h.name) && h.distance <= MAX_DISTANCE_KM
  }

  function Candidates(location: Coord, elements: seq<Element>, distance: DistanceFn): seq<Hospital> {
    Filter(Normalized(location, elements, distance), Usable)
  }

  /** `fetchFromOverpass` after the reply arrived: filter, sort by distance, keep 20. */
  function LiveHospitals(location: Coord, elements: seq<Element>, distance: DistanceFn): seq<Hospital> {
    Take(SortBy(Candidates(location, elements, distance), DistanceOf), MAX_RESULTS)
  }

  /**
   * The live list is sorted by distance, holds at most 20 named hospitals
   * within 50 km, each made from an element of the reply, and is as long as
   * it can be; no usable hospital left out is nearer than one kept, and no
   * hospital is listed more often than the reply yields it.
   */
  lemma LiveHospitalsSpec(location: Coord, elements: seq<Element>, distance: DistanceFn)
    ensures var r := LiveHospitals(location, elements, distance);
      && SortedBy(r, DistanceOf)
      && |r| <= MAX_RESULTS
      && |r| == (if |Candidates(location, elements, distance)| < MAX_RESULTS
                 then |Candidates(location, elements, distance)| else MAX_RESULTS)
      && (forall h :: h in r ==> h.distance <= MAX_DISTANCE_KM && !IsGenericName(h.name))
      && (forall h :: h in r ==> exists e :: e in elements && Normalize(location, e, distance) == Some(h))
      && (forall h, c :: h in r && c in Candidates(location, elements, distance) && c !in r
            ==> h.distance <= c.distance)
      && multiset(r) <= multiset(Candidates(location, elements, distance))
  {
    NormalizedSpec(location, elements, distance);
    var c := Candidates(location, elements, distance);
    var sorted := SortBy(c, DistanceOf);
    TakeOfSorted(sorted, MAX_RESULTS, DistanceOf);
    forall h | h in Take(sorted, MAX_RESULTS)
      ensures h in c
    {
      assert h in multiset(sorted);
    }
    forall x | x in c
      ensures x in sorted
    {
      assert x in multiset(sorted);
    }
    TakeSubMultiset(sorted, MAX_RESULTS);
  }

  // ---------------------------------------------------------------------
  // Sample hospitals shown when no live data is available
  // ---------------------------------------------------------------------

  datatype BaseHospital = BaseHospital(name: string, addressSuffix: string, phone: string, offset: Coord)

  const BASE_HOSPITALS: seq<BaseHospital> := [
    BaseHospital("City General Hospital", "Main Street, City Center", "+91-11-12345678", Coord(0.01, 0.01)),
    BaseHospital("Emergency Medical Center", "Hospital Road, Medical District", "+91-11-87654321", Coord(0.02, -0.01)),
    BaseHospital("Metro Heart Institute", "Cardiac Care Avenue", "+91-11-11111111", Coord(-0.015, 0.02)),
    BaseHospital("Community Health Center", "Healthcare Boulevard", "+91-11-22222222", Coord(0.025, 0.015)),
    BaseHospital("Regional Medical College", "University Campus", "+91-11-33333333", Coord(-0.02, -0.02)),
    BaseHospital("Trauma Care Center", "Emergency Services Road", "+91-11-44444444", Coord(0.03, -0.015))
  ]

  function FallbackId(index: nat): string {
    "fallback-" + NatToString(index)
  }

  /** The sample hospital made from the base entry at `index`, placed at its offset from the location. */
  function FallbackEntry(location: Coord, index: nat, distance: DistanceFn): Hospital
    requires index < |BASE_HOSPITALS|
  {
    var base := BASE_HOSPITALS[index];
    var at := Coord(location.lat + base.offset.lat, location.lon + base.offset.lon);
    Hospital(
      id := FallbackId(index),
      name := base.name,
      address := base.addressSuffix,
      phone := Some(base.phone),
      distance := distance(location, at),
      lat := at.lat,
      lon := at.lon,
      kind := Some("hospital"))
  }

  function UnsortedFallback(location: Coord, distance: DistanceFn): (r: seq<Hospital>)
    ensures |r| == |BASE_HOSPITALS|
  {
    seq(|BASE_HOSPITALS|, i requires 0 <= i < |BASE_HOSPITALS| => FallbackEntry(location, i, distance))
  }

  /** `getFallbackHospitals`: the six sample hospitals, nearest first. */
  function FallbackHospitals(location: Coord, distance: DistanceFn): seq<Hospital> {
    SortBy(UnsortedFallback(location, distance), DistanceOf)
  }

  /**
   * Exactly six hospitals of type "hospital", nearest first; each is the
   * base entry whose position gave its id, and every id "fallback-0" …
   * "fallback-5" occurs.
   */
  lemma FallbackSpec(location: Coord, distance: DistanceFn)
    ensures var r := FallbackHospitals(location, distance);
      && |r| == 6
      && SortedBy(r, DistanceOf)
      && (forall h :: h in r ==> h.kind == Some("hospital"))
      && (forall h :: h in r ==> exists i :: 0 <= i < 6 && h == FallbackEntry(location, i, distance)
                                             && h.id == "fallback-" + NatToString(i))
      && (forall i :: 0 <= i < 6 ==> FallbackEntry(location, i, distance) in r)
  {
    var u := UnsortedFallback(location, distance);
    var r := FallbackHospitals(location, distance);
    forall h | h in r
      ensures exists i :: 0 <= i < 6 && h == FallbackEntry(location, i, distance)
    {
      assert h in multiset(u);
      var i :| 0 <= i < |u| && u[i] == h;
    }
    forall i | 0 <= i < 6
      ensures FallbackEntry(location, i, distance) in r
    {
      assert u[i] in multiset(r);
    }
  }

  // ---------------------------------------------------------------------
  // The page
  // ---------------------------------------------------------------------

  /** What the Overpass request produced: the elements, or a failure of the request or its JSON. */
  datatype OverpassReply = Elements(elements: seq<Element>) | RequestFailed

  /** What the browser's geolocation answered. */
  datatype Position = Located(coord: Coord) | LocationError | Unsupported

  const SAMPLE_DATA_NOTICE := "Using sample hospital data. Real hospital data may not be available in your area."
  const FETCH_FAILED_NOTICE := "Unable to fetch real-time hospital data. Showing sample hospitals."
  const LOCATION_NOTICE := "Unable to get your location. Using default location (Delhi)."
  const UNSUPPORTED_NOTICE := "Geolocation is not supported by this browser."

  datatype SearchResult = SearchResult(hospitals: seq<Hospital>, error: Option<string>)

  /** The list and the message a search at `location` leaves behind. */
  function SearchOutcome(location: Coord, reply: OverpassReply, distance: DistanceFn): SearchResult {
    match reply
    case Elements(es) =>
      var live := LiveHospitals(location, es, distance);
      if |live| > 0 then SearchResult(live, None)
      else SearchResult(FallbackHospitals(location, distance), Some(SAMPLE_DATA_NOTICE))
    case RequestFailed =>
      SearchResult(FallbackHospitals(location, distance), Some(FETCH_FAILED_NOTICE))
  }

  /**
   * A non-empty live list replaces the hospitals without a message; an
   * empty one or a failed request installs the sample list with a message.
   * Either way the list is non-empty and sorted by distance.
   */
  lemma SearchOutcomeSpec(location: Coord, reply: OverpassReply, distance: DistanceFn)
    ensures var out := SearchOutcome(location, reply, distance);
      && ((reply.Elements? && LiveHospitals(location, reply.elements, distance) != [])
          ==> out == SearchResult(LiveHospitals(location, reply.elements, distance), None))
      && ((reply.RequestFailed? || LiveHospitals(location, reply.elements, distance) == [])
          ==> out.hospitals == FallbackHospitals(location, distance) && out.error.Some?)
      && out.hospitals != []
      && SortedBy(out.hospitals, DistanceOf)
  {
    FallbackSpec(location, distance);
    if reply.Elements? {
      LiveHospitalsSpec(location, reply.elements, distance);
    }
  }

  /** The geolocation notice is never what a search leaves behind. */
  lemma LocationNoticeLost(location: Coord, reply: OverpassReply, distance: DistanceFn)
    ensures SearchOutcome(location, reply, distance).error != Some(LOCATION_NOTICE)
    ensures SearchOutcome(location, reply, distance).error != Some(UNSUPPORTED_NOTICE)
  {
  }

  /** The message shown after locating: the search's own, else the geolocation notice. */
  function LocateMessage(position: Position, searchError: Option<string>): (r: Option<string>)
    ensures !position.Located? ==> r.Some?
    ensures searchError.Some? ==> r == searchError
    ensures position.LocationError? && searchError.None? ==> r == Some(LOCATION_NOTICE)
  {
    if searchError.Some? then searchError
    else match position
      case Located(_) => None
      case LocationError => Some(LOCATION_NOTICE)
      case Unsupported => Some(UNSUPPORTED_NOTICE)
  }

  function SearchLocation(position: Position): Coord {
    if position.Located? then position.coord else DEFAULT_LOCATION
  }

  class Page {
    var hospitals: seq<Hospital>
    var loading: bool
    var userLocation: Option<Coord>
    var searchQuery: string
    var error: Option<string>

    constructor ()
      ensures hospitals == [] && !loading && userLocation == None && searchQuery == "" && error == None
    {
      hospitals := [];
      loading := false;
      userLocation := None;
      searchQuery := "";
      error := None;
    }

    /** `filteredHospitals`. */
    function FilteredHospitals(): seq<Hospital>
      reads this
    {
      FilterHospitals(hospitals, searchQuery)
    }

    /** The synchronous start of `searchNearbyHospitals`, before the request is awaited. */
    method BeginSearch()
      modifies this
      ensures loading && error == None
      ensures hospitals == old(hospitals) && userLocation == old(userLocation) && searchQuery == old(searchQuery)
    {
      loading := true;
      error := None;
    }

    /** The rest of `searchNearbyHospitals`, once the Overpass reply is in. */
    method FinishSearch(location: Coord, reply: OverpassReply, distance: DistanceFn)
      requires loading && error == None
      modifies this
      ensures SearchResult(hospitals, error) == SearchOutcome(location, reply, distance)
      ensures !loading
      ensures userLocation == old(userLocation) && searchQuery == old(searchQuery)
    {
      match reply {
        case Elements(es) =>
          var live := LiveHospitals(location, es, distance);
          if |live| > 0 {
            hospitals := live;
          } else {
            hospitals := FallbackHospitals(location, distance);
            error := Some(SAMPLE_DATA_NOTICE);
          }
        case RequestFailed =>
          hospitals := FallbackHospitals(location, distance);
          error := Some(FETCH_FAILED_NOTICE);
      }
      loading := false;
    }

    method SearchNearbyHospitals(location: Coord, reply: OverpassReply, distance: DistanceFn)
      modifies this
      ensures SearchResult(hospitals, error) == SearchOutcome(location, reply, distance)
      ensures !loading
      ensures userLocation == old(userLocation) && searchQuery == old(searchQuery)
    {
      BeginSearch();
      FinishSearch(location, reply, distance);
    }

    /**
     * `getCurrentLocation` as the page has it: the geolocation notice is set
     * and then cleared by the search that follows, so it never shows.
     */
    method GetCurrentLocationAsWritten(position: Position, reply: OverpassReply, distance: DistanceFn)
      modifies this
      ensures userLocation == Some(SearchLocation(position))
      ensures SearchResult(hospitals, error) == SearchOutcome(SearchLocation(position), reply, distance)
      ensures error != Some(LOCATION_NOTICE) && error != Some(UNSUPPORTED_NOTICE)
      ensures !loading && searchQuery == old(searchQuery)
    {
      error := None;
      match position {
        case Located(c) =>
          userLocation := Some(c);
        case LocationError =>
          error := Some(LOCATION_NOTICE);
          userLocation := Some(DEFAULT_LOCATION);
        case Unsupported =>
          error := Some(UNSUPPORTED_NOTICE);
          userLocation := Some(DEFAULT_LOCATION);
      }
      SearchNearbyHospitals(SearchLocation(position), reply, distance);
      LocationNoticeLost(SearchLocation(position), reply, distance);
    }

    /**
     * `getCurrentLocation` with the geolocation notice kept when the search
     * leaves no message of its own.
     */
    method GetCurrentLocation(position: Position, reply: OverpassReply, distance: DistanceFn)
      modifies this
      ensures userLocation == Some(SearchLocation(position))
      ensures hospitals == SearchOutcome(SearchLocation(position), reply, distance).hospitals
      ensures error == LocateMessage(position, SearchOutcome(SearchLocation(position), reply, distance).error)
      ensures !loading && searchQuery == old(searchQuery)
    {
      var location := SearchLocation(position);
      userLocation := Some(location);
      SearchNearbyHospitals(location, reply, distance);
      error := LocateMessage(position, error);
    }

    method SetSearchQuery(query: string)
      modifies this`searchQuery
      ensures searchQuery == query
    {
      searchQuery := query;
    }
  }
}
