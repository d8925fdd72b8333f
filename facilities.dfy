/**
  The hospital locator's ranking pipeline (HospitalLocationSection.tsx):
  distances from a reference location, the emergency-only and keyword filters,
  the stable sort by distance, and the two profile-driven partitions that
  `getRecommendedHospitals` applies after the sort. The list actually shown is
  produced by the re-filter effect, which repeats the filters and the sort but
  not the partitions.

  Distances are natural numbers of tenths of a mile: the source rounds every
  haversine distance with `toFixed(1)`. The haversine formula itself is a
  black-box function of the two coordinates.
*/
module Facilities {
  import opened Wrappers
  import opened Text
  import opened Seqs
  import opened Profile

  datatype Coordinates = Coordinates(lat: real, lng: real)

  datatype FacilityType = GeneralHospital | SpecialtyClinic | EmergencyCare | UrgentCare

  /** The `type` string a facility carries. */
  function TypeName(t: FacilityType): string
  {
    match t
    case GeneralHospital => "General Hospital"
    case SpecialtyClinic => "Specialty Clinic"
    case EmergencyCare => "Emergency Care"
    case UrgentCare => "Urgent Care"
  }

  datatype Hospital = Hospital(
    id: string,
    name: string,
    kind: FacilityType,
    distance: nat,            // tenths of a mile
    rating: real,
    address: string,
    phone: string,
    specialties: seq<string>,
    emergencyServices: bool,
    operatingHours: string,
    estimatedWaitTime: string,
    acceptsInsurance: bool,
    coordinates: Coordinates)

  /** The rounded haversine distance, in tenths of a mile, from the first point to the second. */
  type DistanceFn = (Coordinates, Coordinates) -> nat

  /**
    `hospitalsDatabase`, the built-in table the recommendations fall back on.
    The record with id '5' is listed twice.
  */
  const Seed: seq<Hospital> := [
    Hospital("1", "City General Hospital", GeneralHospital, 23, 4.2, "123 Main Street", "(555) 123-4567",
      ["Emergency", "Cardiology", "Surgery", "Obstetrics"], true, "24/7", "45 minutes", true,
      Coordinates(37.77986, -122.42905)),
    Hospital("2", "Women's Health Center", SpecialtyClinic, 18, 4.7, "456 Oak Avenue", "(555) 234-5678",
      ["Obstetrics", "Gynecology", "Maternal Care"], false, "8 AM - 6 PM", "20 minutes", true,
      Coordinates(37.76892, -122.42274)),
    Hospital("3", "QuickCare Urgent Care", UrgentCare, 9, 4.0, "789 Elm Street", "(555) 345-6789",
      ["Urgent Care", "Minor Injuries", "Flu Treatment"], false, "7 AM - 10 PM", "15 minutes", true,
      Coordinates(37.76652, -122.43244)),
    Hospital("4", "Heart & Vascular Institute", SpecialtyClinic, 31, 4.8, "321 Pine Road", "(555) 456-7890",
      ["Cardiology", "Vascular Surgery", "Heart Surgery"], true, "6 AM - 8 PM", "30 minutes", true,
      Coordinates(37.78421, -122.40865)),
    Hospital("5", "Metro Emergency Hospital", EmergencyCare, 42, 3.9, "654 Cedar Boulevard", "(555) 567-8901",
      ["Emergency", "Trauma", "Critical Care"], true, "24/7", "60 minutes", true,
      Coordinates(37.76574, -122.45224)),
    Hospital("5", "Metro Emergency Hospital", EmergencyCare, 42, 3.9, "654 Cedar Boulevard", "(555) 567-8901",
      ["Emergency", "Trauma", "Critical Care"], true, "24/7", "60 minutes", true,
      Coordinates(37.76574, -122.45224)),
    Hospital("6", "City Eye Clinic", SpecialtyClinic, 15, 4.5, "101 Vision Way", "(555) 111-2222",
      ["Ophthalmology", "Eye Surgery", "Vision Care"], false, "9 AM - 5 PM", "10 minutes", true,
      Coordinates(37.77000, -122.44000)),
    Hospital("7", "Dermatology & Skin Care Center", SpecialtyClinic, 28, 4.6, "202 Skin Lane", "(555) 333-4444",
      ["Dermatology", "Skin Care", "Cosmetic Surgery"], false, "8 AM - 4 PM", "15 minutes", true,
      Coordinates(37.76000, -122.41000))]

  /** `defaultLocation`. */
  const DefaultLocation := Coordinates(37.77986, -122.42905)

  /** The default location is where the first record of the built-in table stands. */
  lemma DefaultLocationIsFirstSeed()
    ensures |Seed| == 8 && DefaultLocation == Seed[0].coordinates
  {
  }

  /** `locationOverride ?? userLocation ?? defaultLocation`. */
  function ResolveLocation(locationOverride: Option<Coordinates>, userLocation: Option<Coordinates>): Coordinates
  {
    locationOverride.GetOr(userLocation.GetOr(DefaultLocation))
  }

  /** Each facility with its distance recomputed from `from`; nothing else changes. */
  function WithDistances(hs: seq<Hospital>, from: Coordinates, dist: DistanceFn): (r: seq<Hospital>)
    ensures |r| == |hs|
    ensures forall i :: 0 <= i < |hs| ==> r[i] == hs[i].(distance := dist(from, hs[i].coordinates))
    ensures forall i :: 0 <= i < |r| ==> r[i].distance == dist(from, r[i].coordinates)
  {
    if hs == [] then [] else [hs[0].(distance := dist(from, hs[0].coordinates))] + WithDistances(hs[1..], from, dist)
  }

  // ------------------------------------------------------------ filters

  predicate OffersEmergency(h: Hospital) { h.emergencyServices }

  /** The name, the type or some specialty contains `term`, all compared in lower case. */
  predicate Matches(h: Hospital, term: string)
  {
    || Contains(Lower(h.name), term)
    || Contains(Lower(TypeName(h.kind)), term)
    || exists sp | sp in h.specialties :: Contains(Lower(sp), term)
  }

  /** Every facility of `hs` matches `term`. */
  predicate AllMatch(hs: seq<Hospital>, term: string)
  {
    forall i :: 0 <= i < |hs| ==> Matches(hs[i], term)
  }

  function MatchesTerm(term: string): Hospital -> bool
  {
    (h: Hospital) => Matches(h, term)
  }

  /** The search term the keyword filter uses: the filter text lowered and trimmed. */
  function FilterTerm(specialtyFilter: string): string
  {
    Trim(Lower(specialtyFilter))
  }

  /** With `emergencyOnly`, keeps the facilities that offer emergency services; otherwise keeps all. */
  function EmergencyFilter(hs: seq<Hospital>, emergencyOnly: bool): seq<Hospital>
  {
    if emergencyOnly then Filter(hs, OffersEmergency) else hs
  }

  /** The emergency filter drops only facilities without emergency services, and only when asked to. */
  lemma EmergencyFilterSound(hs: seq<Hospital>, emergencyOnly: bool)
    ensures var r := EmergencyFilter(hs, emergencyOnly);
      && (!emergencyOnly ==> r == hs)
      && (emergencyOnly ==> forall i :: 0 <= i < |r| ==> r[i].emergencyServices)
      && multiset(r) <= multiset(hs)
  {
    FilterSound(hs, OffersEmergency);
  }

  /**
    A filter text that is not blank keeps the facilities matching its term; a
    blank or white-space-only text keeps all.
  */
  function SpecialtyFilter(hs: seq<Hospital>, specialtyFilter: string): seq<Hospital>
  {
    if Trim(specialtyFilter) != [] then Filter(hs, MatchesTerm(FilterTerm(specialtyFilter))) else hs
  }

  /** The keyword filter keeps everything for a blank text, and otherwise only facilities matching the term. */
  lemma SpecialtyFilterSound(hs: seq<Hospital>, specialtyFilter: string)
    ensures var r := SpecialtyFilter(hs, specialtyFilter);
      && (IsBlank(specialtyFilter) ==> r == hs)
      && (!IsBlank(specialtyFilter) ==> AllMatch(r, FilterTerm(specialtyFilter)))
      && multiset(r) <= multiset(hs)
  {
    TrimEmptyIffBlank(specialtyFilter);
    FilterSound(hs, MatchesTerm(FilterTerm(specialtyFilter)));
  }

  /**
    The list both pipelines sort: distances from `from`, then the emergency
    filter, then the keyword filter.
  */
  function Candidates(hs: seq<Hospital>, from: Coordinates, dist: DistanceFn, emergencyOnly: bool, specialtyFilter: string): (r: seq<Hospital>)
  {
    SpecialtyFilter(EmergencyFilter(WithDistances(hs, from, dist), emergencyOnly), specialtyFilter)
  }

  /** The candidates are drawn from the measured table, each with its distance from `from`. */
  lemma CandidatesMeasured(hs: seq<Hospital>, from: Coordinates, dist: DistanceFn, emergencyOnly: bool, specialtyFilter: string)
    ensures var r := Candidates(hs, from, dist, emergencyOnly, specialtyFilter);
      && |r| <= |hs|
      && multiset(r) <= multiset(WithDistances(hs, from, dist))
      && (forall i :: 0 <= i < |r| ==> r[i].distance == dist(from, r[i].coordinates))
  {
    var w := WithDistances(hs, from, dist);
    var e := EmergencyFilter(w, emergencyOnly);
    var r := SpecialtyFilter(e, specialtyFilter);
    assert multiset(r) <= multiset(w) by {
      EmergencyFilterSound(w, emergencyOnly);
      SpecialtyFilterSound(e, specialtyFilter);
    }
    assert forall i :: 0 <= i < |r| ==> r[i].distance == dist(from, r[i].coordinates) by {
      SubMultisetKeeps(r, w, DistanceFrom(from, dist));
    }
  }

  /** Every candidate passes the filters in force; with none in force, every facility is a candidate. */
  lemma CandidatesSound(hs: seq<Hospital>, from: Coordinates, dist: DistanceFn, emergencyOnly: bool, specialtyFilter: string)
    ensures var r := Candidates(hs, from, dist, emergencyOnly, specialtyFilter);
      && (emergencyOnly ==> forall i :: 0 <= i < |r| ==> r[i].emergencyServices)
      && (!IsBlank(specialtyFilter) ==> AllMatch(r, FilterTerm(specialtyFilter)))
      && (!emergencyOnly && IsBlank(specialtyFilter) ==> r == WithDistances(hs, from, dist))
  {
    var w := WithDistances(hs, from, dist);
    var e := EmergencyFilter(w, emergencyOnly);
    var r := SpecialtyFilter(e, specialtyFilter);
    EmergencyFilterSound(w, emergencyOnly);
    SpecialtyFilterSound(e, specialtyFilter);
    if emergencyOnly {
      SubMultisetKeeps(r, e, OffersEmergency);
    }
  }

  /** The facility's distance is the one from `from`. */
  function DistanceFrom(from: Coordinates, dist: DistanceFn): Hospital -> bool
  {
    (h: Hospital) => h.distance == dist(from, h.coordinates)
  }


  // ---------------------------------------------------------------- sort

  predicate SortedByDistance(s: seq<Hospital>)
  {
    forall i, j :: 0 <= i < j < |s| ==> s[i].distance <= s[j].distance
  }

  /** Inserts `x` before the first element that is not nearer than it. */
  function Insert(x: Hospital, s: seq<Hospital>): (r: seq<Hospital>)
    requires SortedByDistance(s)
    ensures SortedByDistance(r)
    ensures multiset(r) == multiset(s) + multiset{x}
    ensures |r| == |s| + 1 && (r[0] == x || (s != [] && r[0] == s[0]))
  {
    if s == [] || x.distance <= s[0].distance then [x] + s
    else
      assert s == [s[0]] + s[1..];
      [s[0]] + Insert(x, s[1..])
  }

  /**
    `filtered.sort((a, b) => a.distance - b.distance)`: the engine's sort is
    stable, modelled as insertion sort.
  */
  function SortByDistance(s: seq<Hospital>): (r: seq<Hospital>)
    ensures SortedByDistance(r)
    ensures multiset(r) == multiset(s)
  {
    if s == [] then []
    else
      assert s == [s[0]] + s[1..];
      Insert(s[0], SortByDistance(s[1..]))
  }

  function AtDistance(k: nat): Hospital -> bool
  {
    (h: Hospital) => h.distance == k
  }

  lemma {:induction false} InsertStable(x: Hospital, s: seq<Hospital>, k: nat)
    requires SortedByDistance(s)
    ensures Filter(Insert(x, s), AtDistance(k))
      == if x.distance == k then [x] + Filter(s, AtDistance(k)) else Filter(s, AtDistance(k))
  {
    if s == [] || x.distance <= s[0].distance {
      assert Insert(x, s) == [x] + s;
      FilterCons(x, s, AtDistance(k));
    } else {
      InsertStable(x, s[1..], k);
      InsertStableStep(x, s, k);
    }
  }

  /** The step of InsertStable where `x` goes past the nearer head of `s`. */
  lemma InsertStableStep(x: Hospital, s: seq<Hospital>, k: nat)
    requires SortedByDistance(s) && s != [] && s[0].distance < x.distance
    requires Filter(Insert(x, s[1..]), AtDistance(k))
      == if x.distance == k then [x] + Filter(s[1..], AtDistance(k)) else Filter(s[1..], AtDistance(k))
    ensures Filter(Insert(x, s), AtDistance(k))
      == if x.distance == k then [x] + Filter(s, AtDistance(k)) else Filter(s, AtDistance(k))
  {
    var p, t := AtDistance(k), s[1..];
    assert Insert(x, s) == [s[0]] + Insert(x, t);
    FilterCons(s[0], Insert(x, t), p);
    if x.distance == k {
      assert !p(s[0]);
    } else if p(s[0]) {
      calc {
        Filter(Insert(x, s), p);
        [s[0]] + Filter(Insert(x, t), p);
        [s[0]] + Filter(t, p);
        Filter(s, p);
      }
    }
  }

  /** The sort is stable: the facilities at any one distance keep their input order. */
  lemma {:induction false} SortStable(s: seq<Hospital>, k: nat)
    ensures Filter(SortByDistance(s), AtDistance(k)) == Filter(s, AtDistance(k))
  {
    if s != [] {
      SortStable(s[1..], k);
      InsertStable(s[0], SortByDistance(s[1..]), k);
      FilterCons(s[0], s[1..], AtDistance(k));
      assert s == [s[0]] + s[1..];
    }
  }

  /** A facility no farther than anything in a sorted list can go in front of it. */
  lemma SortedCons(x: Hospital, t: seq<Hospital>)
    requires SortedByDistance(t)
    requires forall i :: 0 <= i < |t| ==> x.distance <= t[i].distance
    ensures SortedByDistance([x] + t)
  {
    forall i, j | 0 <= i < j < |[x] + t| ensures ([x] + t)[i].distance <= ([x] + t)[j].distance {
      if i > 0 {
        assert ([x] + t)[i] == t[i - 1];
      }
      assert ([x] + t)[j] == t[j - 1];
    }
  }

  /** The head of a sorted list is no farther than anything drawn from its tail. */
  lemma HeadNearest(s: seq<Hospital>, rest: seq<Hospital>)
    requires SortedByDistance(s) && s != []
    requires multiset(rest) <= multiset(s[1..])
    ensures forall i :: 0 <= i < |rest| ==> s[0].distance <= rest[i].distance
  {
    forall i | 0 <= i < |rest| ensures s[0].distance <= rest[i].distance {
      assert rest[i] in multiset(s[1..]);
      var j :| 0 <= j < |s[1..]| && s[1..][j] == rest[i];
      assert s[j + 1] == rest[i];
    }
  }

  /** Whatever a filter keeps of a list sorted by distance is still sorted by distance. */
  lemma {:induction false} FilterKeepsSorted(s: seq<Hospital>, p: Hospital -> bool)
    requires SortedByDistance(s)
    ensures SortedByDistance(Filter(s, p))
  {
    if s != [] {
      var t := s[1..];
      assert s == [s[0]] + t;
      FilterKeepsSorted(t, p);
      FilterSound(t, p);
      FilterCons(s[0], t, p);
      if p(s[0]) {
        HeadNearest(s, Filter(t, p));
        SortedCons(s[0], Filter(t, p));
      }
    }
  }

  // ------------------------------------------------------- profile order

  /** The facility lists 'Obstetrics' or 'Maternal Care' among its specialties. */
  predicate ServesPregnancy(h: Hospital)
  {
    "Obstetrics" in h.specialties || "Maternal Care" in h.specialties
  }

  predicate ServesCardiac(h: Hospital)
  {
    "Cardiology" in h.specialties
  }

  predicate HasCardiacCondition(user: UserProfile)
  {
    "Heart Disease" in user.medicalConditions || "Hypertension" in user.medicalConditions
  }

  /**
    The two successive stable partitions: maternity care first for a pregnant
    user, then cardiology first for a user with heart disease or hypertension.
  */
  function ProfilePriority(s: seq<Hospital>, user: UserProfile): seq<Hospital>
  {
    var maternityFirst := if user.isPregnant then Partition(s, ServesPregnancy) else s;
    if HasCardiacCondition(user) then Partition(maternityFirst, ServesCardiac) else maternityFirst
  }

  /**
    The profile order is a permutation: cardiology comes first for a cardiac
    condition, maternity care first for a pregnant user without one, and a
    user with neither keeps the distance order.
  */
  lemma ProfilePrioritySound(s: seq<Hospital>, user: UserProfile)
    ensures var r := ProfilePriority(s, user);
      && multiset(r) == multiset(s)
      && (HasCardiacCondition(user) ==>
            forall i, j :: 0 <= i < j < |r| && ServesCardiac(r[j]) ==> ServesCardiac(r[i]))
      && (user.isPregnant && !HasCardiacCondition(user) ==>
            forall i, j :: 0 <= i < j < |r| && ServesPregnancy(r[j]) ==> ServesPregnancy(r[i]))
      && (!user.isPregnant && !HasCardiacCondition(user) ==> r == s)
  {
    var maternityFirst := if user.isPregnant then Partition(s, ServesPregnancy) else s;
    PartitionSound(s, ServesPregnancy);
    PartitionSound(maternityFirst, ServesCardiac);
  }

  /**
    `getRecommendedHospitals`: the seed table with distances from the resolved
    location, filtered, sorted by distance, then re-ordered for the profile.
  */
  function RecommendedHospitals(
    db: seq<Hospital>, location: Coordinates, dist: DistanceFn,
    emergencyOnly: bool, specialtyFilter: string, user: UserProfile): seq<Hospital>
  {
    ProfilePriority(SortByDistance(Candidates(db, location, dist, emergencyOnly, specialtyFilter)), user)
  }

  /**
    The recommendation is a permutation of the sorted candidates, so every
    filter guarantee carries over and nothing is dropped or duplicated.
  */
  lemma RecommendedIsPermutation(
    db: seq<Hospital>, location: Coordinates, dist: DistanceFn,
    emergencyOnly: bool, specialtyFilter: string, user: UserProfile)
    ensures var c := Candidates(db, location, dist, emergencyOnly, specialtyFilter);
      var r := RecommendedHospitals(db, location, dist, emergencyOnly, specialtyFilter, user);
      multiset(r) == multiset(c) && |r| == |c|
  {
    var c := Candidates(db, location, dist, emergencyOnly, specialtyFilter);
    var r := RecommendedHospitals(db, location, dist, emergencyOnly, specialtyFilter, user);
    ProfilePrioritySound(SortByDistance(c), user);
    assert |multiset(r)| == |multiset(c)|;
  }

  /** Every recommended facility passes the filters in force, and there are no more of them than in the table. */
  lemma RecommendedPassesFilters(
    db: seq<Hospital>, location: Coordinates, dist: DistanceFn,
    emergencyOnly: bool, specialtyFilter: string, user: UserProfile)
    ensures var r := RecommendedHospitals(db, location, dist, emergencyOnly, specialtyFilter, user);
      && |r| <= |db|
      && (forall i :: 0 <= i < |r| ==> r[i].distance == dist(location, r[i].coordinates))
      && (emergencyOnly ==> forall i :: 0 <= i < |r| ==> r[i].emergencyServices)
      && (!IsBlank(specialtyFilter) ==> AllMatch(r, FilterTerm(specialtyFilter)))
  {
    var c := Candidates(db, location, dist, emergencyOnly, specialtyFilter);
    var r := RecommendedHospitals(db, location, dist, emergencyOnly, specialtyFilter, user);
    CandidatesMeasured(db, location, dist, emergencyOnly, specialtyFilter);
    CandidatesSound(db, location, dist, emergencyOnly, specialtyFilter);
    RecommendedIsPermutation(db, location, dist, emergencyOnly, specialtyFilter, user);
    SubMultisetKeeps(r, c, DistanceFrom(location, dist));
    if emergencyOnly {
      SubMultisetKeeps(r, c, OffersEmergency);
    }
    if !IsBlank(specialtyFilter) {
      SubMultisetKeeps(r, c, MatchesTerm(FilterTerm(specialtyFilter)));
    }
  }


  /** For a pregnant user with no cardiac condition: maternity facilities first, each group sorted by distance. */
  lemma RecommendedForPregnancy(
    db: seq<Hospital>, location: Coordinates, dist: DistanceFn,
    emergencyOnly: bool, specialtyFilter: string, user: UserProfile)
    requires user.isPregnant && !HasCardiacCondition(user)
    ensures var s := SortByDistance(Candidates(db, location, dist, emergencyOnly, specialtyFilter));
      var r := RecommendedHospitals(db, location, dist, emergencyOnly, specialtyFilter, user);
      && r == Filter(s, ServesPregnancy) + Filter(s, Not(ServesPregnancy))
      && SortedByDistance(Filter(s, ServesPregnancy))
      && SortedByDistance(Filter(s, Not(ServesPregnancy)))
  {
    var s := SortByDistance(Candidates(db, location, dist, emergencyOnly, specialtyFilter));
    FilterKeepsSorted(s, ServesPregnancy);
    FilterKeepsSorted(s, Not(ServesPregnancy));
  }

  /** For a user with a cardiac condition who is not pregnant: cardiology first, each group sorted by distance. */
  lemma RecommendedForCardiac(
    db: seq<Hospital>, location: Coordinates, dist: DistanceFn,
    emergencyOnly: bool, specialtyFilter: string, user: UserProfile)
    requires !user.isPregnant && HasCardiacCondition(user)
    ensures var s := SortByDistance(Candidates(db, location, dist, emergencyOnly, specialtyFilter));
      var r := RecommendedHospitals(db, location, dist, emergencyOnly, specialtyFilter, user);
      && r == Filter(s, ServesCardiac) + Filter(s, Not(ServesCardiac))
      && SortedByDistance(Filter(s, ServesCardiac))
      && SortedByDistance(Filter(s, Not(ServesCardiac)))
  {
    var s := SortByDistance(Candidates(db, location, dist, emergencyOnly, specialtyFilter));
    FilterKeepsSorted(s, ServesCardiac);
    FilterKeepsSorted(s, Not(ServesCardiac));
  }

  /**
    For a pregnant user with a cardiac condition the two partitions compound:
    cardiology before the rest, maternity first inside each of those groups, and
    each of the four blocks in distance order.
  */
  lemma RecommendedForPregnancyAndCardiac(
    db: seq<Hospital>, location: Coordinates, dist: DistanceFn,
    emergencyOnly: bool, specialtyFilter: string, user: UserProfile)
    requires user.isPregnant && HasCardiacCondition(user)
    ensures var s := SortByDistance(Candidates(db, location, dist, emergencyOnly, specialtyFilter));
      var r := RecommendedHospitals(db, location, dist, emergencyOnly, specialtyFilter, user);
      var m, n := Filter(s, ServesPregnancy), Filter(s, Not(ServesPregnancy));
      && r == Filter(m, ServesCardiac) + Filter(n, ServesCardiac)
            + Filter(m, Not(ServesCardiac)) + Filter(n, Not(ServesCardiac))
      && SortedByDistance(Filter(m, ServesCardiac))
      && SortedByDistance(Filter(n, ServesCardiac))
      && SortedByDistance(Filter(m, Not(ServesCardiac)))
      && SortedByDistance(Filter(n, Not(ServesCardiac)))
  {
    var s := SortByDistance(Candidates(db, location, dist, emergencyOnly, specialtyFilter));
    var m, n := Filter(s, ServesPregnancy), Filter(s, Not(ServesPregnancy));
    assert RecommendedHospitals(db, location, dist, emergencyOnly, specialtyFilter, user)
      == Partition(m + n, ServesCardiac);
    PartitionConcat(m, n, ServesCardiac);
    FilterKeepsSorted(s, ServesPregnancy);
    FilterKeepsSorted(s, Not(ServesPregnancy));
    FilterKeepsSorted(m, ServesCardiac);
    FilterKeepsSorted(n, ServesCardiac);
    FilterKeepsSorted(m, Not(ServesCardiac));
    FilterKeepsSorted(n, Not(ServesCardiac));
  }

  /** Partitioning two lists laid end to end splits each of them. */
  lemma PartitionConcat(m: seq<Hospital>, n: seq<Hospital>, p: Hospital -> bool)
    ensures Partition(m + n, p) == Filter(m, p) + Filter(n, p) + Filter(m, Not(p)) + Filter(n, Not(p))
  {
    FilterConcat(m, n, p);
    FilterConcat(m, n, Not(p));
  }

  /**
    Running the filters again, from the same location, over a list that already
    passed them changes nothing.
  */
  lemma CandidatesFixed(r: seq<Hospital>, from: Coordinates, dist: DistanceFn, emergencyOnly: bool, specialtyFilter: string)
    requires forall i :: 0 <= i < |r| ==> r[i].distance == dist(from, r[i].coordinates)
    requires emergencyOnly ==> forall i :: 0 <= i < |r| ==> r[i].emergencyServices
    requires !IsBlank(specialtyFilter) ==> AllMatch(r, FilterTerm(specialtyFilter))
    ensures Candidates(r, from, dist, emergencyOnly, specialtyFilter) == r
  {
    assert WithDistances(r, from, dist) == r;
    if emergencyOnly {
      FilterAll(r, OffersEmergency);
    }
    TrimEmptyIffBlank(specialtyFilter);
    if !IsBlank(specialtyFilter) {
      FilterAll(r, MatchesTerm(FilterTerm(specialtyFilter)));
    }
  }

  /** Measuring twice keeps only the second measurement. */
  lemma MeasureTwice(hs: seq<Hospital>, first: Coordinates, from: Coordinates, dist: DistanceFn)
    ensures WithDistances(WithDistances(hs, first, dist), from, dist) == WithDistances(hs, from, dist)
  {
  }

  /** Measuring distributes over lists laid end to end. */
  lemma MeasureConcat(a: seq<Hospital>, b: seq<Hospital>, from: Coordinates, dist: DistanceFn)
    ensures WithDistances(a + b, from, dist) == WithDistances(a, from, dist) + WithDistances(b, from, dist)
  {
    assert |WithDistances(a + b, from, dist)| == |a| + |b|;
  }

  /** Taking one facility out of a list takes its measured copy out of the measured list. */
  lemma MeasureWithout(y: seq<Hospital>, j: nat, from: Coordinates, dist: DistanceFn)
    requires j < |y|
    ensures multiset(WithDistances(y, from, dist))
      == multiset{y[j].(distance := dist(from, y[j].coordinates))} + multiset(WithDistances(y[..j] + y[j + 1..], from, dist))
  {
    assert y == y[..j] + [y[j]] + y[j + 1..];
    MeasureConcat(y[..j] + [y[j]], y[j + 1..], from, dist);
    MeasureConcat(y[..j], [y[j]], from, dist);
    MeasureConcat(y[..j], y[j + 1..], from, dist);
  }

  /** Two lists holding the same facilities still do once the first one's head is taken out of each. */
  lemma PermutationWithout(x: seq<Hospital>, y: seq<Hospital>, j: nat)
    requires multiset(x) == multiset(y) && x != [] && j < |y| && y[j] == x[0]
    ensures multiset(x[1..]) == multiset(y[..j] + y[j + 1..])
  {
    var e, rest := x[0], y[..j] + y[j + 1..];
    assert multiset(x) == multiset(x[1..]) + multiset{e} by {
      assert x == [e] + x[1..];
    }
    assert multiset(y) == multiset(rest) + multiset{e} by {
      assert y == y[..j] + [e] + y[j + 1..];
    }
    forall v ensures multiset(x[1..])[v] == multiset(rest)[v] {
      assert (multiset(x[1..]) + multiset{e})[v] == (multiset(rest) + multiset{e})[v];
    }
  }


  /** Measuring two lists holding the same facilities gives lists holding the same measured facilities. */
  lemma {:induction false} MeasurePermutes(x: seq<Hospital>, y: seq<Hospital>, from: Coordinates, dist: DistanceFn)
    requires multiset(x) == multiset(y)
    ensures multiset(WithDistances(x, from, dist)) == multiset(WithDistances(y, from, dist))
    decreases |x|
  {
    if x == [] {
      assert |multiset(y)| == 0;
    } else {
      assert x[0] in multiset(y);
      var j :| 0 <= j < |y| && y[j] == x[0];
      PermutationWithout(x, y, j);
      MeasurePermutes(x[1..], y[..j] + y[j + 1..], from, dist);
      MeasureWithout(y, j, from, dist);
      MeasureWithout(x, 0, from, dist);
      assert x[..0] + x[1..] == x[1..];
    }
  }

  /** A test that does not read the distance gives the same verdict before and after measuring. */
  ghost predicate IgnoresDistance(p: Hospital -> bool)
  {
    forall h: Hospital, d: nat :: p(h.(distance := d)) == p(h)
  }

  /** Filtering by such a test, then measuring, is measuring, then filtering. */
  lemma {:induction false} MeasureFilter(hs: seq<Hospital>, p: Hospital -> bool, from: Coordinates, dist: DistanceFn)
    requires IgnoresDistance(p)
    ensures WithDistances(Filter(hs, p), from, dist) == Filter(WithDistances(hs, from, dist), p)
  {
    if hs != [] {
      MeasureFilter(hs[1..], p, from, dist);
      var m := WithDistances(hs, from, dist);
      assert m[0] == hs[0].(distance := dist(from, hs[0].coordinates));
      assert m[1..] == WithDistances(hs[1..], from, dist);
      if p(hs[0]) {
        MeasureConcat([hs[0]], Filter(hs[1..], p), from, dist);
      }
    }
  }

  /** The emergency filter does not read the distance, so it commutes with measuring. */
  lemma EmergencyMeasured(hs: seq<Hospital>, from: Coordinates, dist: DistanceFn, emergencyOnly: bool)
    ensures WithDistances(EmergencyFilter(hs, emergencyOnly), from, dist)
      == EmergencyFilter(WithDistances(hs, from, dist), emergencyOnly)
  {
    if emergencyOnly {
      assert IgnoresDistance(OffersEmergency);
      MeasureFilter(hs, OffersEmergency, from, dist);
    }
  }

  /** The keyword filter does not read the distance, so it commutes with measuring. */
  lemma SpecialtyMeasured(hs: seq<Hospital>, from: Coordinates, dist: DistanceFn, specialtyFilter: string)
    ensures WithDistances(SpecialtyFilter(hs, specialtyFilter), from, dist)
      == SpecialtyFilter(WithDistances(hs, from, dist), specialtyFilter)
  {
    if Trim(specialtyFilter) != [] {
      var term := FilterTerm(specialtyFilter);
      assert IgnoresDistance(MatchesTerm(term)) by {
        forall h: Hospital, d: nat ensures MatchesTerm(term)(h.(distance := d)) == MatchesTerm(term)(h) {
          var g := h.(distance := d);
          assert g.name == h.name && g.kind == h.kind && g.specialties == h.specialties;
        }
      }
      MeasureFilter(hs, MatchesTerm(term), from, dist);
    }
  }

  /** Measuring the candidates found from one location again from another gives the candidates found from the other. */
  lemma MeasureCandidates(
    hs: seq<Hospital>, first: Coordinates, from: Coordinates, dist: DistanceFn, emergencyOnly: bool, specialtyFilter: string)
    ensures WithDistances(Candidates(hs, first, dist, emergencyOnly, specialtyFilter), from, dist)
      == Candidates(hs, from, dist, emergencyOnly, specialtyFilter)
  {
    var w := WithDistances(hs, first, dist);
    var e := EmergencyFilter(w, emergencyOnly);
    SpecialtyMeasured(e, from, dist, specialtyFilter);
    EmergencyMeasured(w, from, dist, emergencyOnly);
    MeasureTwice(hs, first, from, dist);
  }

  /** Filtering the candidates again from the same location changes nothing. */
  lemma CandidatesIdempotent(hs: seq<Hospital>, from: Coordinates, dist: DistanceFn, emergencyOnly: bool, specialtyFilter: string)
    ensures var c := Candidates(hs, from, dist, emergencyOnly, specialtyFilter);
      Candidates(c, from, dist, emergencyOnly, specialtyFilter) == c
  {
    var c := Candidates(hs, from, dist, emergencyOnly, specialtyFilter);
    CandidatesMeasured(hs, from, dist, emergencyOnly, specialtyFilter);
    CandidatesSound(hs, from, dist, emergencyOnly, specialtyFilter);
    CandidatesFixed(c, from, dist, emergencyOnly, specialtyFilter);
  }

  /**
    Re-filtering, from any location, facilities already measured and filtered
    from another gives exactly the facilities filtered from the new location:
    the filters do not read the distance, and measuring again overwrites it.
  */
  lemma CandidatesRemeasured(
    hs: seq<Hospital>, first: Coordinates, from: Coordinates, dist: DistanceFn, emergencyOnly: bool, specialtyFilter: string)
    ensures Candidates(Candidates(hs, first, dist, emergencyOnly, specialtyFilter), from, dist, emergencyOnly, specialtyFilter)
      == Candidates(hs, from, dist, emergencyOnly, specialtyFilter)
  {
    MeasureCandidates(hs, first, from, dist, emergencyOnly, specialtyFilter);
    MeasureCandidates(hs, from, from, dist, emergencyOnly, specialtyFilter);
    CandidatesIdempotent(hs, from, dist, emergencyOnly, specialtyFilter);
  }

  /** Filtering two lists holding the same facilities by one test gives lists holding the same facilities. */
  lemma FilterPermutes(x: seq<Hospital>, y: seq<Hospital>, p: Hospital -> bool)
    requires multiset(x) == multiset(y)
    ensures multiset(Filter(x, p)) == multiset(Filter(y, p))
  {
    FilterCounts(x, p);
    FilterCounts(y, p);
  }

  /** Filtering two lists holding the same facilities gives lists holding the same facilities. */
  lemma CandidatesPermute(
    x: seq<Hospital>, y: seq<Hospital>, from: Coordinates, dist: DistanceFn, emergencyOnly: bool, specialtyFilter: string)
    requires multiset(x) == multiset(y)
    ensures multiset(Candidates(x, from, dist, emergencyOnly, specialtyFilter))
      == multiset(Candidates(y, from, dist, emergencyOnly, specialtyFilter))
  {
    MeasurePermutes(x, y, from, dist);
    var ex := EmergencyFilter(WithDistances(x, from, dist), emergencyOnly);
    var ey := EmergencyFilter(WithDistances(y, from, dist), emergencyOnly);
    FilterPermutes(WithDistances(x, from, dist), WithDistances(y, from, dist), OffersEmergency);
    assert multiset(ex) == multiset(ey);
    FilterPermutes(ex, ey, MatchesTerm(FilterTerm(specialtyFilter)));
  }

  /**
    The re-filter effect over a recommendation fetched from `fetchedAt` and
    measured again from `location`, with the same filters, shows exactly the
    facilities the table yields from `location`, none dropped or added.
  */
  lemma RefilterRecommended(
    db: seq<Hospital>, fetchedAt: Coordinates, location: Coordinates, dist: DistanceFn,
    emergencyOnly: bool, specialtyFilter: string, user: UserProfile)
    ensures var r := RecommendedHospitals(db, fetchedAt, dist, emergencyOnly, specialtyFilter, user);
      multiset(DisplayedHospitals(r, location, dist, emergencyOnly, specialtyFilter))
        == multiset(Candidates(db, location, dist, emergencyOnly, specialtyFilter))
  {
    var c := Candidates(db, fetchedAt, dist, emergencyOnly, specialtyFilter);
    var r := RecommendedHospitals(db, fetchedAt, dist, emergencyOnly, specialtyFilter, user);
    RecommendedIsPermutation(db, fetchedAt, dist, emergencyOnly, specialtyFilter, user);
    CandidatesPermute(r, c, location, dist, emergencyOnly, specialtyFilter);
    CandidatesRemeasured(db, fetchedAt, location, dist, emergencyOnly, specialtyFilter);
  }

  /**
    The re-filter effect: the fetched list with distances from the current
    location, filtered and sorted, with no profile re-ordering.
  */
  function DisplayedHospitals(
    raw: seq<Hospital>, location: Coordinates, dist: DistanceFn,
    emergencyOnly: bool, specialtyFilter: string): seq<Hospital>
  {
    SortByDistance(Candidates(raw, location, dist, emergencyOnly, specialtyFilter))
  }
  /**
    When the emergency-only setting is switched off but the list was fetched
    with it on, the re-filtered list still holds only emergency facilities.
  */
  lemma RefilterWithoutEmergency(
    db: seq<Hospital>, location: Coordinates, dist: DistanceFn, specialtyFilter: string, user: UserProfile)
    ensures var raw := RecommendedHospitals(db, location, dist, true, specialtyFilter, user);
      var shown := DisplayedHospitals(raw, location, dist, false, specialtyFilter);
      forall j :: 0 <= j < |shown| ==> shown[j].emergencyServices
  {
    var raw := RecommendedHospitals(db, location, dist, true, specialtyFilter, user);
    RecommendedPassesFilters(db, location, dist, true, specialtyFilter, user);
    CandidatesFixed(raw, location, dist, false, specialtyFilter);
    SubMultisetKeeps(DisplayedHospitals(raw, location, dist, false, specialtyFilter), raw, OffersEmergency);
  }

}
