/**
  How the hospital locator turns the map elements an Overpass query returns
  into facility records (`fetchNearbyHospitals` and `inferSpecialties` in
  HospitalLocationSection.tsx): the facility type, the emergency flag, the
  first phone number present, the text fields with their defaults, and the
  specialty list inferred from the name and the tags.

  The query itself and the HTTP exchange are not modelled: the elements are an
  input. The random rating, wait time and mock phone number are inputs too.
*/
module Overpass {
  import opened Wrappers
  import opened Text
  import opened Seqs
  import opened Facilities

  /** An element's `tags` object; a tag that is not set is a missing key. */
  type Tags = map<string, string>

  /** `tags[key]` is truthy: set and not the empty string. */
  predicate HasTag(tags: Tags, key: string)
  {
    key in tags && tags[key] != ""
  }

  /** `tags[key] === value`. */
  predicate TagIs(tags: Tags, key: string, value: string)
  {
    key in tags && tags[key] == value
  }

  /** `tags[key] || fallback`. */
  function TagOr(tags: Tags, key: string, fallback: string): string
  {
    if HasTag(tags, key) then tags[key] else fallback
  }

  predicate EmergencyTagged(tags: Tags)
  {
    TagIs(tags, "emergency", "yes")
  }

  // ------------------------------------------------------ classification

  /**
    The facility type: a hospital amenity is a general hospital, a doctors or
    dentist amenity a specialty clinic, anything else tagged `emergency=yes`
    emergency care, and everything else a specialty clinic.
  */
  function ClassifyType(tags: Tags): (t: FacilityType)
    ensures t == GeneralHospital <==> TagIs(tags, "amenity", "hospital")
    ensures t == EmergencyCare <==>
      EmergencyTagged(tags) && !TagIs(tags, "amenity", "hospital")
      && !TagIs(tags, "amenity", "doctors") && !TagIs(tags, "amenity", "dentist")
    ensures t != UrgentCare
  {
    if TagIs(tags, "amenity", "hospital") then GeneralHospital
    else if TagIs(tags, "amenity", "doctors") then SpecialtyClinic
    else if TagIs(tags, "amenity", "dentist") then SpecialtyClinic
    else if EmergencyTagged(tags) then EmergencyCare
    else SpecialtyClinic
  }

  /** `isEmergency`: tagged `emergency=yes`, or classified as a general hospital. */
  function IsEmergency(tags: Tags): (b: bool)
  {
    EmergencyTagged(tags) || ClassifyType(tags) == GeneralHospital
  }

  /**
    The emergency flag depends on the tags alone: every hospital amenity and
    every element tagged `emergency=yes` has it, and nothing else; in
    particular every facility classified as emergency care has it.
  */
  lemma EmergencyClassification(tags: Tags)
    ensures IsEmergency(tags) <==> EmergencyTagged(tags) || TagIs(tags, "amenity", "hospital")
    ensures ClassifyType(tags) == EmergencyCare ==> IsEmergency(tags)
    ensures !IsEmergency(tags) ==> ClassifyType(tags) == SpecialtyClinic
  {
  }

  /** The tags looked up for a phone number, in order of preference. */
  const PhoneKeys: seq<string> := ["phone", "contact:phone", "contact:mobile"]

  /** `tags[keys[0]] || tags[keys[1]] || … || fallback`: the first key whose tag is truthy. */
  function FirstTag(tags: Tags, keys: seq<string>, fallback: string): (r: string)
    ensures (forall i :: 0 <= i < |keys| ==> !HasTag(tags, keys[i])) ==> r == fallback
    ensures forall i :: 0 <= i < |keys| && HasTag(tags, keys[i]) ==>
      (forall j :: 0 <= j < i ==> !HasTag(tags, keys[j])) ==> r == tags[keys[i]]
  {
    if keys == [] then fallback
    else if HasTag(tags, keys[0]) then tags[keys[0]]
    else FirstTag(tags, keys[1..], fallback)
  }

  /** The phone number shown: the first of `phone`, `contact:phone` and `contact:mobile` set, else the mock number. */
  function PickPhone(tags: Tags, mockPhone: string): string
  {
    FirstTag(tags, PhoneKeys, mockPhone)
  }

  /** Each phone source wins exactly when every source before it is missing. */
  lemma PickPhoneOrder(tags: Tags, mockPhone: string)
    ensures HasTag(tags, "phone") ==> PickPhone(tags, mockPhone) == tags["phone"]
    ensures !HasTag(tags, "phone") && HasTag(tags, "contact:phone") ==>
      PickPhone(tags, mockPhone) == tags["contact:phone"]
    ensures !HasTag(tags, "phone") && !HasTag(tags, "contact:phone") && HasTag(tags, "contact:mobile") ==>
      PickPhone(tags, mockPhone) == tags["contact:mobile"]
    ensures !HasTag(tags, "phone") && !HasTag(tags, "contact:phone") && !HasTag(tags, "contact:mobile") ==>
      PickPhone(tags, mockPhone) == mockPhone
  {
    var ks := PhoneKeys;
    assert ks[0] == "phone" && ks[1] == "contact:phone" && ks[2] == "contact:mobile";
  }

  // ------------------------------------------------------------ specialties

  /** The specialties `inferSpecialties` can name. */
  datatype Specialty =
    | GeneralPractice | Emergency | Ophthalmology | VisionCare | Dermatology | SkinCare
    | Dentistry | Cardiology | Obstetrics | Gynecology | Orthopedics | Pediatrics

  /** The string each specialty is added as. */
  function Label(sp: Specialty): string
  {
    match sp
    case GeneralPractice => "General Practice"
    case Emergency => "Emergency"
    case Ophthalmology => "Ophthalmology"
    case VisionCare => "Vision Care"
    case Dermatology => "Dermatology"
    case SkinCare => "Skin Care"
    case Dentistry => "Dentistry"
    case Cardiology => "Cardiology"
    case Obstetrics => "Obstetrics"
    case Gynecology => "Gynecology"
    case Orthopedics => "Orthopedics"
    case Pediatrics => "Pediatrics"
  }

  /** The labels are pairwise different, so a specialty can be recovered from its label. */
  lemma LabelInjective(a: Specialty, b: Specialty)
    ensures Label(a) == Label(b) ==> a == b
  {
  }

  /** `lowerName.includes(w)` for some word `w` of `words`. */
  predicate MentionsAny(lowerName: string, words: seq<string>)
  {
    exists i :: 0 <= i < |words| && Contains(lowerName, words[i])
  }

  /** Which branches of `inferSpecialties` fire, in source order. */
  datatype Signals = Signals(
    general: bool, emergency: bool, eye: bool, skin: bool, dental: bool,
    heart: bool, women: bool, ortho: bool, child: bool)

  /**
    The branch conditions, from the lower-cased name, the lower-cased `amenity`
    and `healthcare` tags (empty when unset) and the `emergency` tag.
  */
  function SignalsOf(name: string, tags: Tags): (g: Signals)
    ensures g.emergency ==> g.general
  {
    var lowerName := Lower(name);
    var lowerType := Lower(TagOr(tags, "amenity", ""));
    var healthcare := Lower(TagOr(tags, "healthcare", ""));
    Signals(
      general := Contains(lowerName, "hospital") || lowerType == "hospital" || EmergencyTagged(tags),
      emergency := EmergencyTagged(tags),
      eye := MentionsAny(lowerName, ["eye", "vision", "retina", "lasik"]) || healthcare == "ophthalmology",
      skin := MentionsAny(lowerName, ["skin", "derma", "cutaneous"]) || healthcare == "dermatology",
      dental := MentionsAny(lowerName, ["dental", "dentist", "tooth", "orthodont"])
        || lowerType == "dentist" || healthcare == "dentist",
      heart := MentionsAny(lowerName, ["heart", "cardio", "vascular"]),
      women := MentionsAny(lowerName, ["women", "maternity", "obgyn", "birth"]),
      ortho := MentionsAny(lowerName, ["ortho", "bone", "joint", "spine"]),
      child := MentionsAny(lowerName, ["pediatric", "child", "kid"]))
  }

  /** Some keyword branch fires. */
  predicate AnySignal(g: Signals)
  {
    g.general || g.eye || g.skin || g.dental || g.heart || g.women || g.ortho || g.child
  }

  /** Every specialty, in the order the branches of `inferSpecialties` add them. */
  const AddOrder: seq<Specialty> := [
    GeneralPractice, Emergency, Ophthalmology, VisionCare, Dermatology, SkinCare,
    Dentistry, Cardiology, Obstetrics, Gynecology, Orthopedics, Pediatrics]

  /** The branch that adds `sp` fires (and, for 'Emergency', the enclosing general branch too). */
  function Fires(g: Signals): Specialty -> bool
  {
    (sp: Specialty) =>
      match sp
      case GeneralPractice => g.general
      case Emergency => g.general && g.emergency
      case Ophthalmology | VisionCare => g.eye
      case Dermatology | SkinCare => g.skin
      case Dentistry => g.dental
      case Cardiology => g.heart
      case Obstetrics | Gynecology => g.women
      case Orthopedics => g.ortho
      case Pediatrics => g.child
  }

  /** The position of each specialty in `AddOrder`. */
  function Rank(sp: Specialty): nat
  {
    match sp
    case GeneralPractice => 0 case Emergency => 1 case Ophthalmology => 2 case VisionCare => 3
    case Dermatology => 4 case SkinCare => 5 case Dentistry => 6 case Cardiology => 7
    case Obstetrics => 8 case Gynecology => 9 case Orthopedics => 10 case Pediatrics => 11
  }

  lemma AddOrderDistinct()
    ensures Distinct(AddOrder)
  {
    var all := AddOrder;
    assert forall i :: 0 <= i < |all| ==> Rank(all[i]) == i by {
      assert Rank(all[0]) == 0 && Rank(all[1]) == 1 && Rank(all[2]) == 2 && Rank(all[3]) == 3;
      assert Rank(all[4]) == 4 && Rank(all[5]) == 5 && Rank(all[6]) == 6 && Rank(all[7]) == 7;
      assert Rank(all[8]) == 8 && Rank(all[9]) == 9 && Rank(all[10]) == 10 && Rank(all[11]) == 11;
    }
  }

  lemma AddOrderComplete(sp: Specialty)
    ensures sp in AddOrder
  {
    var all := AddOrder;
    match sp
    case GeneralPractice => assert all[0] == sp;
    case Emergency => assert all[1] == sp;
    case Ophthalmology => assert all[2] == sp;
    case VisionCare => assert all[3] == sp;
    case Dermatology => assert all[4] == sp;
    case SkinCare => assert all[5] == sp;
    case Dentistry => assert all[6] == sp;
    case Cardiology => assert all[7] == sp;
    case Obstetrics => assert all[8] == sp;
    case Gynecology => assert all[9] == sp;
    case Orthopedics => assert all[10] == sp;
    case Pediatrics => assert all[11] == sp;
  }

  /**
    The keyword branches of `inferSpecialties`. The branches add different
    labels and each branch adds its labels in a fixed order, so the
    insertion-ordered `Set` they fill is the list of specialties whose branch
    fires, in `AddOrder`.
  */
  function KeywordSpecialties(g: Signals): seq<Specialty>
  {
    Filter(AddOrder, Fires(g))
  }

  /** Each specialty is added once, exactly when its branch fires; nothing is added when no branch fires. */
  lemma KeywordSpecialtiesFacts(g: Signals)
    ensures Distinct(KeywordSpecialties(g))
    ensures forall sp :: sp in KeywordSpecialties(g) <==> Fires(g)(sp)
    ensures KeywordSpecialties(g) == [] <==> !AnySignal(g)
  {
    AddOrderDistinct();
    FilterDistinct(AddOrder, Fires(g));
    KeywordMembers(g);
    KeywordEmpty(g);
  }

  lemma KeywordEmpty(g: Signals)
    ensures KeywordSpecialties(g) == [] <==> !AnySignal(g)
  {
    KeywordNonEmpty(g);
    KeywordOnlyWhenFiring(g);
  }

  lemma KeywordNonEmpty(g: Signals)
    ensures AnySignal(g) ==> KeywordSpecialties(g) != []
  {
    if AnySignal(g) {
      var sp :=
        if g.general then GeneralPractice else if g.eye then Ophthalmology
        else if g.skin then Dermatology else if g.dental then Dentistry
        else if g.heart then Cardiology else if g.women then Obstetrics
        else if g.ortho then Orthopedics else Pediatrics;
      KeywordMember(g, sp);
    }
  }

  lemma KeywordOnlyWhenFiring(g: Signals)
    ensures KeywordSpecialties(g) != [] ==> AnySignal(g)
  {
    var r := KeywordSpecialties(g);
    if r != [] {
      FilterSound(AddOrder, Fires(g));
      FiresSome(g, r[0]);
    }
  }

  /** A specialty is added only when some keyword branch fires. */
  lemma FiresSome(g: Signals, sp: Specialty)
    requires Fires(g)(sp)
    ensures AnySignal(g)
  {
  }

  lemma KeywordMembers(g: Signals)
    ensures forall sp :: sp in KeywordSpecialties(g) <==> Fires(g)(sp)
  {
    var r := KeywordSpecialties(g);
    FilterSound(AddOrder, Fires(g));
    forall sp | Fires(g)(sp) ensures sp in r {
      KeywordMember(g, sp);
    }
  }

  lemma KeywordMember(g: Signals, sp: Specialty)
    requires Fires(g)(sp)
    ensures sp in KeywordSpecialties(g)
  {
    AddOrderComplete(sp);
    var i :| 0 <= i < |AddOrder| && AddOrder[i] == sp;
    FilterKeeps(AddOrder, Fires(g), i);
  }

  /** The labels of a list of specialties, in order. */
  function Labels(s: seq<Specialty>): (r: seq<string>)
    ensures |r| == |s|
    ensures forall i :: 0 <= i < |s| ==> r[i] == Label(s[i])
  {
    if s == [] then [] else [Label(s[0])] + Labels(s[1..])
  }

  /** Distinct specialties have distinct labels, and a label is listed exactly when its specialty is. */
  lemma LabelsFaithful(s: seq<Specialty>)
    ensures Distinct(s) ==> Distinct(Labels(s))
    ensures forall sp :: Label(sp) in Labels(s) <==> sp in s
  {
    var r := Labels(s);
    forall i, j | 0 <= i < |s| && 0 <= j < |s| && r[i] == r[j] ensures s[i] == s[j] {
      LabelInjective(s[i], s[j]);
    }
    forall sp | Label(sp) in r ensures sp in s {
      var i :| 0 <= i < |r| && r[i] == Label(sp);
      LabelInjective(s[i], sp);
    }
  }

  /**
    `inferSpecialties(name, tags)`: the specialties the branch conditions point
    to, each once, in the order first added; 'General Practice' when none does.
  */
  function InferSpecialties(name: string, tags: Tags): seq<string>
  {
    var found := KeywordSpecialties(SignalsOf(name, tags));
    Labels(if found == [] then [GeneralPractice] else found)
  }

  /**
    The inferred list is never empty and never repeats a specialty; the name
    alone decides 'Cardiology'; `emergency=yes` gives both 'General Practice'
    and 'Emergency', and nothing else gives 'Emergency'.
  */
  lemma InferSpecialtiesFacts(name: string, tags: Tags)
    ensures var r := InferSpecialties(name, tags);
      && |r| > 0
      && Distinct(r)
      && ("Cardiology" in r <==> MentionsAny(Lower(name), ["heart", "cardio", "vascular"]))
      && (EmergencyTagged(tags) ==> "General Practice" in r && "Emergency" in r)
      && ("Emergency" in r <==> EmergencyTagged(tags))
  {
    var found := KeywordSpecialties(SignalsOf(name, tags));
    var chosen := if found == [] then [GeneralPractice] else found;
    KeywordSpecialtiesFacts(SignalsOf(name, tags));
    LabelsFaithful(chosen);
    assert Label(Cardiology) == "Cardiology" && Label(Emergency) == "Emergency";
    assert Label(GeneralPractice) == "General Practice";
  }

  // ------------------------------------------------------------ records

  /** One element of the Overpass answer: its id, tags, own position and, for ways and relations, a centre. */
  datatype Element = Element(id: nat, tags: Tags, lat: real, lon: real, center: Option<Coordinates>)

  /** The random draws made for one element: the rating, the wait in minutes and the mock phone number. */
  datatype Draw = Draw(rating: real, waitMinutes: nat, mockPhone: string)

  /** `addr:street` followed by a space and `addr:housenumber` (or nothing), else a placeholder. */
  function Address(tags: Tags): string
  {
    if HasTag(tags, "addr:street") then tags["addr:street"] + " " + TagOr(tags, "addr:housenumber", "")
    else "Address details unavailable"
  }

  /** The record `fetchNearbyHospitals` builds from one element. */
  function ToHospital(e: Element, d: Draw): Hospital
  {
    var name := TagOr(e.tags, "name", "Unnamed Medical Facility");
    var at := if e.center.Some? then e.center.value else Coordinates(e.lat, e.lon);
    Hospital(
      NatToString(e.id), name, ClassifyType(e.tags), 0, d.rating, Address(e.tags),
      PickPhone(e.tags, d.mockPhone), InferSpecialties(name, e.tags), IsEmergency(e.tags),
      TagOr(e.tags, "opening_hours", "24/7"), NatToString(d.waitMinutes) + " minutes", true, at)
  }

  /**
    A fetched record has no distance yet, is never urgent care, carries the
    emergency flag exactly when the tags call for it, has an id that reads back
    as the element's numeric id, a name and at least one specialty.
  */
  lemma ToHospitalFacts(e: Element, d: Draw)
    ensures var h := ToHospital(e, d);
      && h.distance == 0 && h.acceptsInsurance
      && h.kind != UrgentCare
      && (h.emergencyServices <==> EmergencyTagged(e.tags) || TagIs(e.tags, "amenity", "hospital"))
      && ParseInt(h.id) == Some(e.id as int)
      && |h.name| > 0
      && |h.specialties| > 0
  {
    ParseIntOfNatToString(e.id);
    InferSpecialtiesFacts(TagOr(e.tags, "name", "Unnamed Medical Facility"), e.tags);
  }

  /**
    `fetchNearbyHospitals`: one record per element of the answer, in the order
    of the answer, and no record at all when the request fails.
  */
  function NearbyHospitals(answer: Option<seq<Element>>, draws: seq<Draw>): (r: seq<Hospital>)
    requires answer.Some? ==> |draws| == |answer.value|
    ensures answer.None? ==> r == []
    ensures answer.Some? ==> |r| == |answer.value|
  {
    if answer.None? then []
    else seq(|answer.value|, i requires 0 <= i < |answer.value| => ToHospital(answer.value[i], draws[i]))
  }

  /**
    Every fetched record is the one its element gives, still without a
    distance, and its id reads back as that element's id.
  */
  lemma NearbyHospitalsFacts(elements: seq<Element>, draws: seq<Draw>)
    requires |draws| == |elements|
    ensures var r := NearbyHospitals(Some(elements), draws);
      forall i :: 0 <= i < |r| ==>
        r[i].distance == 0 && ParseInt(r[i].id) == Some(elements[i].id as int)
        && |r[i].specialties| > 0 && r[i].kind != UrgentCare
  {
    var r := NearbyHospitals(Some(elements), draws);
    forall i | 0 <= i < |r|
      ensures r[i].distance == 0 && ParseInt(r[i].id) == Some(elements[i].id as int)
      ensures |r[i].specialties| > 0 && r[i].kind != UrgentCare
    {
      ToHospitalFacts(elements[i], draws[i]);
    }
  }
}
