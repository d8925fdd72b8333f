/**
  The hospital locator's state machine (HospitalLocationSection.tsx): the
  search that picks between fetched facilities and the built-in table, the
  re-filter effect that derives the shown list, live tracking with its watch
  handle, the one-shot location request, and the browser callbacks that feed
  positions and failures back in.

  Each handler runs to completion: the awaits inside a search are not
  interleaved with other handlers. What the browser and the network answer
  (geolocation support, a watch handle, a position or its error code, the
  network location, the geocoder's verdict, the facilities found nearby) is
  passed in as a parameter.
*/
module Locator {
  import opened Wrappers
  import opened Text
  import opened Seqs
  import opened Profile
  import opened Facilities

  /** What `geocodeLocation` gives: a position, no match (`null`), or an exception. */
  datatype GeocodeOutcome = Located(at: Coordinates) | NoMatch | GeocodeFailed

  /** The error codes of the Geolocation API, and any other failure. */
  datatype PositionError = PermissionDenied | PositionUnavailable | Timeout | OtherFailure

  /** The messages the panel's error line can show. */
  datatype Notice =
    | NotSupported | LocationNotFound | LookupUnavailable
    | TrackingLost | TrackingFallback | NetworkLocation
    | PositionFailed(error: PositionError)

  /** The text of each message. */
  function NoticeText(n: Notice): string
  {
    match n
    case NotSupported => "Geolocation is not supported in this browser."
    case LocationNotFound => "Could not find that location. Showing general results."
    case LookupUnavailable => "Unable to fetch location information right now. Showing default recommendations."
    case TrackingLost => "Unable to keep tracking your location."
    case TrackingFallback => "Live tracking failed. Using approximate location from network."
    case NetworkLocation => "Using approximate location from network."
    case PositionFailed(PermissionDenied) => "Location permission denied. Please enable location services."
    case PositionFailed(PositionUnavailable) => "Location information is unavailable."
    case PositionFailed(Timeout) => "The request to get user location timed out."
    case PositionFailed(OtherFailure) => "Unable to access your location."
  }

  // --------------------------------------------------------------- search

  /** A search consults the geocoder only when asked to and when the location text is not blank. */
  predicate Geocodes(searchQuery: string, skipGeocoding: bool)
  {
    !skipGeocoding && Trim(searchQuery) != []
  }

  /**
    Where a search looks: the geocoded position, else `locationOverride ??
    userLocation`; `None` when there is none or the geocoder failed, in which
    case the search falls back on the default location.
  */
  function SearchLocation(
    searchQuery: string, userLocation: Option<Coordinates>, locationOverride: Option<Coordinates>,
    skipGeocoding: bool, geocode: GeocodeOutcome): Option<Coordinates>
  {
    if Geocodes(searchQuery, skipGeocoding) && geocode.GeocodeFailed? then None
    else if Geocodes(searchQuery, skipGeocoding) && geocode.Located? then Some(geocode.at)
    else if locationOverride.Some? then locationOverride
    else userLocation
  }

  /** Where a search's results come from: the facilities fetched nearby, or the built-in table measured from a location. */
  datatype ResultSource = Nearby | Table(at: Coordinates)

  /** `dynamicHospitals.length > 0 ? dynamicHospitals : getRecommendedHospitals(at)`. */
  function NearbyOr(at: Coordinates, fetched: seq<Hospital>): ResultSource
  {
    if |fetched| > 0 then Nearby else Table(at)
  }

  /** The list a result source stands for. */
  function ResultsFrom(
    source: ResultSource, fetched: seq<Hospital>, db: seq<Hospital>, dist: DistanceFn,
    emergencyOnly: bool, specialtyFilter: string, user: UserProfile): seq<Hospital>
  {
    match source
    case Nearby => fetched
    case Table(at) => RecommendedHospitals(db, at, dist, emergencyOnly, specialtyFilter, user)
  }

  /** What one search decides: where its results come from, the user location and the error line. */
  datatype SearchOutcome = SearchOutcome(source: ResultSource, userLocation: Option<Coordinates>, error: Option<Notice>)

  /**
    `searchHospitals`: the facilities fetched near the location it looks at
    when there are any, otherwise the built-in table measured from that
    location, or from the default location when it has none.
  */
  function SearchResult(
    searchQuery: string, userLocation: Option<Coordinates>, locationOverride: Option<Coordinates>,
    skipGeocoding: bool, geocode: GeocodeOutcome, fetched: seq<Hospital>): SearchOutcome
  {
    var geocodes := Geocodes(searchQuery, skipGeocoding);
    var at := SearchLocation(searchQuery, userLocation, locationOverride, skipGeocoding, geocode);
    var source := if at.Some? then NearbyOr(at.value, fetched) else Table(DefaultLocation);
    var error :=
      if geocodes && geocode.GeocodeFailed? then Some(LookupUnavailable)
      else if geocodes && geocode.NoMatch? then Some(LocationNotFound)
      else None;
    SearchOutcome(source, if geocodes && geocode.Located? then Some(geocode.at) else userLocation, error)
  }

  /**
    A search's results come from the facilities fetched nearby exactly when it
    has a location and something was fetched there; otherwise from the table,
    measured from its location or the default one. Only a blank-free query
    that the geocoder fails on, or does not find, leaves a notice, and only a
    geocoded position replaces the user location.
  */
  lemma SearchResultFacts(
    searchQuery: string, userLocation: Option<Coordinates>, locationOverride: Option<Coordinates>,
    skipGeocoding: bool, geocode: GeocodeOutcome, fetched: seq<Hospital>)
    ensures var r := SearchResult(searchQuery, userLocation, locationOverride, skipGeocoding, geocode, fetched);
      && (r.source == Nearby <==> SearchLocation(searchQuery, userLocation, locationOverride, skipGeocoding, geocode).Some? && |fetched| > 0)
      && (r.source.Table? ==> r.source.at == SearchLocation(searchQuery, userLocation, locationOverride, skipGeocoding, geocode).GetOr(DefaultLocation))
      && (r.error == Some(LookupUnavailable) <==> Geocodes(searchQuery, skipGeocoding) && geocode.GeocodeFailed?)
      && (r.error == Some(LocationNotFound) <==> Geocodes(searchQuery, skipGeocoding) && geocode.NoMatch?)
      && (!(Geocodes(searchQuery, skipGeocoding) && (geocode.GeocodeFailed? || geocode.NoMatch?)) ==> r.error == None)
      && (r.userLocation != userLocation ==> Geocodes(searchQuery, skipGeocoding) && geocode.Located? && r.userLocation == Some(geocode.at))
  {
  }

  /**
    After any search, the re-filter effect, which measures from the user
    location the search leaves (or the default one), shows exactly the
    facilities of the chosen list that pass the filters: the fetched ones, or
    the built-in ones when the search fell back, wherever the fallback measured
    them from.
  */
  lemma SearchShowsCandidates(
    db: seq<Hospital>, dist: DistanceFn, user: UserProfile, emergencyOnly: bool, specialtyFilter: string,
    searchQuery: string, userLocation: Option<Coordinates>, locationOverride: Option<Coordinates>,
    skipGeocoding: bool, geocode: GeocodeOutcome, fetched: seq<Hospital>)
    ensures var out := SearchResult(searchQuery, userLocation, locationOverride, skipGeocoding, geocode, fetched);
      var at := SearchLocation(searchQuery, userLocation, locationOverride, skipGeocoding, geocode);
      var loc := out.userLocation.GetOr(DefaultLocation);
      var raw := ResultsFrom(out.source, fetched, db, dist, emergencyOnly, specialtyFilter, user);
      var shown := DisplayedHospitals(raw, loc, dist, emergencyOnly, specialtyFilter);
      && (at.Some? && fetched != [] ==>
            multiset(shown) == multiset(Candidates(fetched, loc, dist, emergencyOnly, specialtyFilter)))
      && (at.None? || fetched == [] ==>
            multiset(shown) == multiset(Candidates(db, loc, dist, emergencyOnly, specialtyFilter)))
  {
    var out := SearchResult(searchQuery, userLocation, locationOverride, skipGeocoding, geocode, fetched);
    var at := SearchLocation(searchQuery, userLocation, locationOverride, skipGeocoding, geocode);
    var loc := out.userLocation.GetOr(DefaultLocation);
    if at.None? || fetched == [] {
      RefilterRecommended(db, at.GetOr(DefaultLocation), loc, dist, emergencyOnly, specialtyFilter, user);
    }
  }

  // ------------------------------------------------- the emergency toggle

  /**
    The list shown after a click on the emergency toggle, as written: the
    search the click starts was created before the toggle took effect and
    fetches with the old setting, while the re-filter effect uses the new one.
  */
  function ToggleShownAsWritten(
    db: seq<Hospital>, dist: DistanceFn, user: UserProfile, wasEmergencyOnly: bool, specialtyFilter: string,
    searchQuery: string, userLocation: Option<Coordinates>, geocode: GeocodeOutcome, fetched: seq<Hospital>): seq<Hospital>
  {
    var out := SearchResult(searchQuery, userLocation, None, false, geocode, fetched);
    var raw := ResultsFrom(out.source, fetched, db, dist, wasEmergencyOnly, specialtyFilter, user);
    DisplayedHospitals(raw, out.userLocation.GetOr(DefaultLocation), dist, !wasEmergencyOnly, specialtyFilter)
  }

  /**
    Turning emergency-only off, with no location and no keyword, shows only
    emergency facilities: every record of the table without emergency
    services passes the filters now in force but is not shown.
  */
  lemma StaleToggleHidesFacilities(db: seq<Hospital>, dist: DistanceFn, user: UserProfile, i: nat)
    requires i < |db| && !db[i].emergencyServices
    ensures var shown := ToggleShownAsWritten(db, dist, user, true, "", "", None, NoMatch, []);
      var hidden := WithDistances(db, DefaultLocation, dist)[i];
      && hidden in Candidates(db, DefaultLocation, dist, false, "")
      && hidden !in shown
      && forall j :: 0 <= j < |shown| ==> shown[j].emergencyServices
  {
    var raw := RecommendedHospitals(db, DefaultLocation, dist, true, "", user);
    assert Trim("") == [];
    assert ToggleShownAsWritten(db, dist, user, true, "", "", None, NoMatch, [])
      == DisplayedHospitals(raw, DefaultLocation, dist, false, "");
    RefilterWithoutEmergency(db, DefaultLocation, dist, "", user);
    CandidatesSound(db, DefaultLocation, dist, false, "");
  }

  /** With the built-in table, the Women's Health Center is one facility the stale toggle hides. */
  lemma StaleToggleHidesWomensHealthCenter(dist: DistanceFn, user: UserProfile)
    ensures var shown := ToggleShownAsWritten(Seed, dist, user, true, "", "", None, NoMatch, []);
      var hidden := WithDistances(Seed, DefaultLocation, dist)[1];
      && hidden.name == "Women's Health Center"
      && hidden in Candidates(Seed, DefaultLocation, dist, false, "")
      && hidden !in shown
  {
    assert !Seed[1].emergencyServices && Seed[1].name == "Women's Health Center";
    StaleToggleHidesFacilities(Seed, dist, user, 1);
  }

  // ---------------------------------------------------------- the panel

  /** Every piece of the panel's state except the derived list. */
  datatype PanelState = PanelState(
    searchQuery: string, specialtyFilter: string, emergencyOnly: bool,
    rawHospitals: seq<Hospital>, isSearching: bool, userLocation: Option<Coordinates>,
    locationError: Option<Notice>, isLocating: bool, isLiveTracking: bool,
    liveWatchId: Option<nat>, activeWatches: set<nat>, mounted: bool)

  /** `HospitalLocationSection` for one user: its state, the watch it holds and its handlers. */
  class LocatorPanel {
    const user: UserProfile
    const dist: DistanceFn
    /** `hospitalsDatabase`. */
    const db: seq<Hospital>
    /** `navigator.geolocation` exists. */
    const geolocationSupported: bool

    var searchQuery: string
    var specialtyFilter: string
    var emergencyOnly: bool
    /** The list the last search fetched. */
    var rawHospitals: seq<Hospital>
    var isSearching: bool
    var userLocation: Option<Coordinates>
    /** The error line, `null` when empty. */
    var locationError: Option<Notice>
    var isLocating: bool
    var isLiveTracking: bool
    /** The `liveWatchId` ref: the handle of the position watch this panel started. */
    var liveWatchId: Option<nat>
    /** The position watches the browser is running for this panel. */
    var activeWatches: set<nat>
    var mounted: bool

    function State(): PanelState
      reads this
    {
      PanelState(searchQuery, specialtyFilter, emergencyOnly, rawHospitals, isSearching, userLocation,
        locationError, isLocating, isLiveTracking, liveWatchId, activeWatches, mounted)
    }

    /**
      `hospitals`, the list on screen: the re-filter effect recomputes it
      whenever the fetched list, the filters or the user location change, so
      it is a function of those four: the fetched list measured from
      `userLocation || defaultLocation`, filtered and sorted.
    */
    function Shown(): seq<Hospital>
      reads this
    {
      DisplayedHospitals(rawHospitals, userLocation.GetOr(DefaultLocation), dist, emergencyOnly, specialtyFilter)
    }

    /**
      The tracking flag agrees with the watch handle, and the browser runs
      exactly the watch the handle names while the panel is mounted.
    */
    ghost predicate Valid()
      reads this
    {
      && (isLiveTracking <==> liveWatchId.Some?)
      && activeWatches == (if mounted && liveWatchId.Some? then {liveWatchId.value} else {})
    }

    /** The first render: empty fields and lists, no location, no watch. */
    constructor(user: UserProfile, dist: DistanceFn, geolocationSupported: bool)
      ensures Valid()
      ensures this.user == user && this.dist == dist && this.geolocationSupported == geolocationSupported
      ensures db == Seed
      ensures State() == PanelState("", "", false, [], false, None, None, false, false, None, {}, true)
    {
      this.user := user;
      this.dist := dist;
      this.geolocationSupported := geolocationSupported;
      db := Seed;
      searchQuery := "";
      specialtyFilter := "";
      emergencyOnly := false;
      rawHospitals := [];
      isSearching := false;
      userLocation := None;
      locationError := None;
      isLocating := false;
      isLiveTracking := false;
      liveWatchId := None;
      activeWatches := {};
      mounted := true;
    }

    /** Typing in the specialty box: the shown list is re-filtered, nothing is fetched. */
    method SetSpecialtyFilter(text: string)
      requires Valid() && mounted
      modifies this
      ensures Valid()
      ensures State() == old(State()).(specialtyFilter := text)
    {
      specialtyFilter := text;
    }

    /** Typing in the location box: nothing else changes until a search. */
    method SetSearchQuery(text: string)
      requires Valid() && mounted
      modifies this
      ensures Valid()
      ensures State() == old(State()).(searchQuery := text)
    {
      searchQuery := text;
    }

    /**
      `searchHospitals(locationOverride, { skipGeocoding, silent })`, from the
      moment it is called to the moment it settles: the error line is cleared,
      the geocoder may move the user location and set a notice, the fetched
      list is replaced as `SearchResult` decides, and a non-silent search
      ends with the spinner off.
    */
    method SearchHospitals(
      locationOverride: Option<Coordinates>, skipGeocoding: bool, silent: bool,
      geocode: GeocodeOutcome, fetched: seq<Hospital>)
      requires Valid() && mounted
      modifies this
      ensures Valid()
      ensures var out := SearchResult(old(searchQuery), old(userLocation), locationOverride, skipGeocoding, geocode, fetched);
        State() == old(State()).(
          rawHospitals := ResultsFrom(out.source, fetched, db, dist, old(emergencyOnly), old(specialtyFilter), user),
          userLocation := out.userLocation, locationError := out.error,
          isSearching := if silent then old(isSearching) else false)
    {
      var out := SearchResult(searchQuery, userLocation, locationOverride, skipGeocoding, geocode, fetched);
      var results := ResultsFrom(out.source, fetched, db, dist, emergencyOnly, specialtyFilter, user);
      Settle(out, results, silent);
    }

    /**
      The state updates once a search's awaits resolve: the new list, the
      user location and error line it decided on, and, unless silent, the
      spinner turned off (it was on only while the search was pending).
    */
    method Settle(out: SearchOutcome, results: seq<Hospital>, silent: bool)
      requires Valid() && mounted
      modifies this
      ensures Valid()
      ensures State() == old(State()).(rawHospitals := results, userLocation := out.userLocation,
        locationError := out.error, isSearching := if silent then old(isSearching) else false)
    {
      userLocation, locationError, rawHospitals, isSearching :=
        out.userLocation, out.error, results, if silent then isSearching else false;
    }

    /**
      A click on the emergency toggle: the setting flips and a search runs with
      the new setting (as written, the search still sees the old one; see
      `ToggleShownAsWritten`).
    */
    method ToggleEmergencyOnly(geocode: GeocodeOutcome, fetched: seq<Hospital>)
      requires Valid() && mounted
      modifies this
      ensures Valid()
      ensures var out := SearchResult(old(searchQuery), old(userLocation), None, false, geocode, fetched);
        State() == old(State()).(
          emergencyOnly := !old(emergencyOnly),
          rawHospitals := ResultsFrom(out.source, fetched, db, dist, !old(emergencyOnly), old(specialtyFilter), user),
          userLocation := out.userLocation, locationError := out.error, isSearching := false)
    {
      emergencyOnly := !emergencyOnly;
      SearchHospitals(None, false, false, geocode, fetched);
    }

    /** `stopLiveLocationTracking`: clears the watch if there is one; stopping twice is the same as stopping once. */
    method StopLiveTracking()
      requires Valid() && mounted
      modifies this
      ensures Valid()
      ensures State() == old(State()).(isLiveTracking := false, liveWatchId := None, activeWatches := {})
    {
      if liveWatchId.Some? {
        activeWatches := activeWatches - {liveWatchId.value};
        liveWatchId := None;
      }
      isLiveTracking := false;
    }

    /**
      `startLiveLocationTracking`: nothing while tracking already; an error
      without geolocation; otherwise the error is cleared and the watch the
      browser opens (`watchId`) becomes the panel's one watch.
    */
    method StartLiveTracking(watchId: nat)
      requires Valid() && mounted
      modifies this
      ensures Valid()
      ensures old(isLiveTracking) ==> State() == old(State())
      ensures !old(isLiveTracking) && !geolocationSupported ==>
        State() == old(State()).(locationError := Some(NotSupported))
      ensures !old(isLiveTracking) && geolocationSupported ==>
        State() == old(State()).(locationError := None, isLiveTracking := true,
          liveWatchId := Some(watchId), activeWatches := {watchId})
    {
      if isLiveTracking {
        return;
      }
      if !geolocationSupported {
        locationError := Some(NotSupported);
        return;
      }
      locationError := None;
      liveWatchId := Some(watchId);
      activeWatches := {watchId};
      isLiveTracking := true;
    }

    /** The live-tracking button: stops when tracking, starts otherwise. */
    method ToggleLiveTracking(watchId: nat)
      requires Valid() && mounted
      modifies this
      ensures Valid()
      ensures old(isLiveTracking) ==> !isLiveTracking && activeWatches == {}
      ensures !old(isLiveTracking) && geolocationSupported ==> isLiveTracking && activeWatches == {watchId}
      ensures !old(isLiveTracking) && !geolocationSupported ==> !isLiveTracking && locationError == Some(NotSupported)
    {
      if isLiveTracking {
        StopLiveTracking();
      } else {
        StartLiveTracking(watchId);
      }
    }

    /** A position from the live watch: it becomes the user location and a silent search runs there. */
    method OnWatchPosition(at: Coordinates, fetched: seq<Hospital>)
      requires Valid() && mounted && isLiveTracking
      modifies this
      ensures Valid()
      ensures State() == old(State()).(userLocation := Some(at), locationError := None,
        rawHospitals := ResultsFrom(NearbyOr(at, fetched), fetched, db, dist, emergencyOnly, specialtyFilter, user))
    {
      userLocation := Some(at);
      SearchHospitals(Some(at), true, true, NoMatch, fetched);
    }

    /**
      The live watch fails: tracking stops, and a silent search runs at the
      network location (`ip`), which becomes the user location, or else at the
      default location. The search clears the error line, so neither tracking
      message survives the handler.
    */
    method OnWatchError(ip: Option<Coordinates>, fetched: seq<Hospital>)
      requires Valid() && mounted && isLiveTracking
      modifies this
      ensures Valid()
      ensures State() == old(State()).(isLiveTracking := false, liveWatchId := None, activeWatches := {},
        locationError := None, userLocation := if ip.Some? then ip else old(userLocation),
        rawHospitals := ResultsFrom(NearbyOr(ip.GetOr(DefaultLocation), fetched), fetched,
          db, dist, emergencyOnly, specialtyFilter, user))
    {
      locationError := Some(TrackingLost);
      StopLiveTracking();
      if ip.Some? {
        userLocation := ip;
        locationError := Some(TrackingFallback);
        SearchHospitals(ip, true, true, NoMatch, fetched);
        return;
      }
      SearchHospitals(Some(DefaultLocation), true, true, NoMatch, fetched);
    }

    /**
      `requestCurrentLocation`: stops live tracking first; without geolocation
      an error; otherwise the locating spinner turns on and the error clears.
    */
    method RequestCurrentLocation()
      requires Valid() && mounted
      modifies this
      ensures Valid()
      ensures !geolocationSupported ==>
        State() == old(State()).(isLiveTracking := false, liveWatchId := None, activeWatches := {},
          locationError := Some(NotSupported))
      ensures geolocationSupported ==>
        State() == old(State()).(isLiveTracking := false, liveWatchId := None, activeWatches := {},
          isLocating := true, locationError := None)
    {
      if isLiveTracking {
        StopLiveTracking();
      }
      if !geolocationSupported {
        locationError := Some(NotSupported);
        return;
      }
      isLocating := true;
      locationError := None;
    }

    /** The one-shot request finds the position: it becomes the user location and a search runs there. */
    method OnLocated(at: Coordinates, fetched: seq<Hospital>)
      requires Valid() && mounted
      modifies this
      ensures Valid()
      ensures State() == old(State()).(userLocation := Some(at), isLocating := false, locationError := None,
        isSearching := false,
        rawHospitals := ResultsFrom(NearbyOr(at, fetched), fetched, db, dist, emergencyOnly, specialtyFilter, user))
    {
      userLocation := Some(at);
      isLocating := false;
      SearchHospitals(Some(at), true, false, NoMatch, fetched);
    }

    /**
      The one-shot request fails. With a network location the panel searches
      there, and that search clears the notice just set. Without one, the
      error code's message is set, and when no user location is known a search
      runs at the default location, which clears that message again.
    */
    method OnLocateError(error: PositionError, ip: Option<Coordinates>, fetched: seq<Hospital>)
      requires Valid() && mounted
      modifies this
      ensures Valid()
      ensures ip.Some? ==>
        State() == old(State()).(userLocation := ip, isLocating := false, locationError := None,
          isSearching := false,
          rawHospitals := ResultsFrom(NearbyOr(ip.value, fetched), fetched, db, dist, emergencyOnly, specialtyFilter, user))
      ensures ip.None? && old(userLocation).Some? ==>
        State() == old(State()).(isLocating := false, locationError := Some(PositionFailed(error)))
      ensures ip.None? && old(userLocation).None? ==>
        State() == old(State()).(isLocating := false, locationError := None, isSearching := false,
          rawHospitals := ResultsFrom(NearbyOr(DefaultLocation, fetched), fetched, db, dist, emergencyOnly, specialtyFilter, user))
    {
      if ip.Some? {
        userLocation := ip;
        isLocating := false;
        locationError := Some(NetworkLocation);
        SearchHospitals(ip, true, false, NoMatch, fetched);
        return;
      }
      isLocating := false;
      locationError := Some(PositionFailed(error));
      if userLocation.None? {
        SearchHospitals(Some(DefaultLocation), true, false, NoMatch, fetched);
      }
    }

    /** The unmount clean-up: the browser drops the watch, but the handle is left in place. */
    method Unmount()
      requires Valid() && mounted
      modifies this
      ensures Valid()
      ensures State() == old(State()).(activeWatches := {}, mounted := false)
    {
      if liveWatchId.Some? {
        activeWatches := activeWatches - {liveWatchId.value};
      }
      mounted := false;
    }
  }
}
