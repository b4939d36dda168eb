/** The mobile "Nearby Hospitals" screen: a fixed three-entry list placed around the search location. */
module NearbyHospitalsScreen {
  import opened Wrappers
  import opened Seqs
  import opened Hospitals

  function MockHospital(location: Coord, id: string, name: string, address: string, phone: string,
                        distance: real, dLat: real, dLon: real): Hospital
  {
    Hospital(id, name, address, Some(phone), distance, location.lat + dLat, location.lon + dLon, None)
  }

  /** The list `searchNearbyHospitals` installs. */
  function MockHospitals(location: Coord): seq<Hospital> {
    [ MockHospital(location, "1", "City General Hospital", "Main Street, City Center", "+91-11-12345678", 1.2, 0.01, 0.01),
      MockHospital(location, "2", "Emergency Medical Center", "Hospital Road, Medical District", "+91-11-87654321", 2.5, 0.02, 0.02),
      MockHospital(location, "3", "Metro Heart Institute", "Cardiac Care Avenue", "+91-11-11111111", 3.1, -0.01, -0.01) ]
  }

  /**
   * Three hospitals with ids "1", "2", "3", nearest first at 1.2, 2.5 and
   * 3.1 km, offset from the location by +0.01/+0.01, +0.02/+0.02 and
   * -0.01/-0.01.
   */
  lemma MockHospitalsSpec(location: Coord)
    ensures var r := MockHospitals(location);
      && |r| == 3
      && r[0].id == "1" && r[1].id == "2" && r[2].id == "3"
      && r[0].distance == 1.2 && r[1].distance == 2.5 && r[2].distance == 3.1
      && SortedBy(r, DistanceOf)
      && r[0].lat == location.lat + 0.01 && r[0].lon == location.lon + 0.01
      && r[1].lat == location.lat + 0.02 && r[1].lon == location.lon + 0.02
      && r[2].lat == location.lat - 0.01 && r[2].lon == location.lon - 0.01
  {
  }

  class Screen {
    var hospitals: seq<Hospital>
    var loading: bool
    var searchQuery: string
    var userLocation: Option<Coord>

    constructor ()
      ensures hospitals == [] && !loading && searchQuery == "" && userLocation == None
    {
      hospitals := [];
      loading := false;
      searchQuery := "";
      userLocation := None;
    }

    /** `filteredHospitals`. */
    function FilteredHospitals(): seq<Hospital>
      reads this
    {
      FilterHospitals(hospitals, searchQuery)
    }

    /** `searchNearbyHospitals`: nothing in it awaits or throws, so it runs to the end. */
    method SearchNearbyHospitals(location: Coord)
      modifies this
      ensures hospitals == MockHospitals(location) && !loading
      ensures userLocation == old(userLocation) && searchQuery == old(searchQuery)
    {
      loading := true;
      hospitals := MockHospitals(location);
      loading := false;
    }

    /** `getCurrentLocation`: `position` is None when the geolocation call reports an error. */
    method GetCurrentLocation(position: Option<Coord>)
      modifies this
      ensures userLocation == Some(position.GetOr(DEFAULT_LOCATION))
      ensures hospitals == MockHospitals(position.GetOr(DEFAULT_LOCATION)) && !loading
      ensures searchQuery == old(searchQuery)
    {
      var location := position.GetOr(DEFAULT_LOCATION);
      userLocation := Some(location);
      SearchNearbyHospitals(location);
    }

    /** On Android, locating waits for the permission; a refusal leaves the screen as it was. */
    method RequestLocationPermission(android: bool, granted: bool, position: Option<Coord>)
      modifies this
      ensures android && !granted ==> hospitals == old(hospitals) && userLocation == old(userLocation)
                                      && loading == old(loading)
      ensures !android || granted ==> userLocation == Some(position.GetOr(DEFAULT_LOCATION))
                                      && hospitals == MockHospitals(position.GetOr(DEFAULT_LOCATION))
      ensures searchQuery == old(searchQuery)
    {
      if !android || granted {
        GetCurrentLocation(position);
      }
    }

    method SetSearchQuery(query: string)
      modifies this`searchQuery
      ensures searchQuery == query
    {
      searchQuery := query;
    }
  }
}
