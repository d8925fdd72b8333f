/**
  The medicine panel (TabletRecommendationSection.tsx): a keyword chain that
  picks at most one indication from the symptom text, a safety filter over the
  user's profile, the pregnancy-safe badge a recommendation card shows, the
  stand-alone contraindication helper, and the search handler that refuses a
  blank symptom.
*/
module Medications {
  import opened Wrappers
  import opened Text
  import opened Seqs
  import opened Profile

  datatype Medication = Medication(
    id: string, name: string, dosage: string, frequency: string, indication: string,
    suitableFor: seq<string>, contraindications: seq<string>, sideEffects: seq<string>, category: string)

  const Acetaminophen := Medication("1", "Acetaminophen (Tylenol)", "500-1000mg", "Every 6-8 hours",
    "Pain relief, fever reduction", ["adults", "children", "pregnant"], ["liver disease"],
    ["Nausea", "Liver damage (overdose)"], "Pain Relief")

  const Ibuprofen := Medication("2", "Ibuprofen (Advil)", "200-400mg", "Every 6-8 hours",
    "Pain relief, inflammation, fever", ["adults"], ["pregnancy", "heart disease", "stomach ulcers"],
    ["Stomach upset", "Dizziness"], "Pain Relief")

  const Loratadine := Medication("3", "Loratadine (Claritin)", "10mg", "Once daily",
    "Allergies, hay fever", ["adults", "children"], ["severe liver disease"],
    ["Drowsiness", "Dry mouth"], "Allergies")

  const PrenatalVitamins := Medication("4", "Prenatal Vitamins", "1 tablet", "Once daily",
    "Pregnancy nutrition support", ["pregnant"], [],
    ["Nausea", "Constipation"], "Vitamins")

  /** `medicationDatabase`, the four built-in entries. */
  const Catalog: seq<Medication> := [Acetaminophen, Ibuprofen, Loratadine, PrenatalVitamins]

  // ------------------------------------------------------ the symptom chain

  /** The indications the keyword chain can ask for. */
  datatype Indication = Pain | Fever | Allergy | Pregnancy

  /** The word an indication text must contain, once lowered, to serve the indication. */
  function IndicationWord(k: Indication): string
  {
    match k
    case Pain => "pain"
    case Fever => "fever"
    case Allergy => "allerg"
    case Pregnancy => "pregnancy"
  }

  /** The symptom text mentions pain or a headache. */
  predicate MentionsPain(s: string) { Contains(s, "pain") || Contains(s, "headache") }

  /** The symptom text mentions an allergy or sneezing. */
  predicate MentionsAllergy(s: string) { Contains(s, "allergy") || Contains(s, "sneez") }

  /** The symptom text mentions a pregnancy or nutrition. */
  predicate MentionsPregnancy(s: string) { Contains(s, "pregnant") || Contains(s, "nutrition") }

  /**
    The first branch of the keyword chain that the lowered symptom satisfies,
    or `None` when it satisfies none and no symptom filter applies.
  */
  function SymptomIndication(symptom: string): Option<Indication>
  {
    var s := Lower(symptom);
    if MentionsPain(s) then Some(Pain)
    else if Contains(s, "fever") then Some(Fever)
    else if MentionsAllergy(s) then Some(Allergy)
    else if MentionsPregnancy(s) then Some(Pregnancy)
    else None
  }

  /** The chain is tried in order: each indication is chosen exactly when its keywords match and no earlier ones do. */
  lemma SymptomIndicationFirstMatch(symptom: string)
    ensures var s := Lower(symptom);
      && (SymptomIndication(symptom) == Some(Pain) <==> MentionsPain(s))
      && (SymptomIndication(symptom) == Some(Fever) <==> !MentionsPain(s) && Contains(s, "fever"))
      && (SymptomIndication(symptom) == Some(Allergy) <==>
            !MentionsPain(s) && !Contains(s, "fever") && MentionsAllergy(s))
      && (SymptomIndication(symptom) == Some(Pregnancy) <==>
            !MentionsPain(s) && !Contains(s, "fever") && !MentionsAllergy(s) && MentionsPregnancy(s))
      && (SymptomIndication(symptom) == None <==>
            !MentionsPain(s) && !Contains(s, "fever") && !MentionsAllergy(s) && !MentionsPregnancy(s))
  {
  }

  /** The medication's indication text, lowered, mentions the indication's word. */
  predicate Serves(k: Indication, m: Medication)
  {
    Contains(Lower(m.indication), IndicationWord(k))
  }

  /** `med => med.indication.toLowerCase().includes(word)`. */
  function Serving(k: Indication): Medication -> bool
  {
    m => Serves(k, m)
  }

  /** A medication passes the symptom filter: any one does when the chain found no indication. */
  predicate MatchesSymptom(symptom: string, m: Medication)
  {
    match SymptomIndication(symptom)
    case None => true
    case Some(k) => Serves(k, m)
  }

  /** The symptom filter: the entries serving the chosen indication, or every entry. */
  function SymptomFilter(db: seq<Medication>, symptom: string): seq<Medication>
  {
    match SymptomIndication(symptom)
    case None => db
    case Some(k) => Filter(db, Serving(k))
  }

  // ------------------------------------------------------ the profile filter

  /** `userData.isPregnant ? 'pregnant' : 'adults'`. */
  function ProfileTag(user: UserProfile): string
  {
    if user.isPregnant then "pregnant" else "adults"
  }

  /** One condition, lowered, contains one contraindication, lowered. */
  predicate Mentions(condition: string, contra: string)
  {
    Contains(Lower(condition), Lower(contra))
  }

  /**
    `hasContraindication`: some contraindication is mentioned by some medical
    condition, both tried from the front as the nested `some` calls do.
  */
  predicate HasContraindication(m: Medication, user: UserProfile)
  {
    Any(m.contraindications, (contra: string) => Any(user.medicalConditions, (condition: string) => Mentions(condition, contra)))
  }

  /** A contraindication `a` and a condition `b` such that the condition mentions the contraindication. */
  predicate Contraindicated(m: Medication, user: UserProfile)
  {
    exists a, b :: 0 <= a < |m.contraindications| && 0 <= b < |user.medicalConditions|
      && Mentions(user.medicalConditions[b], m.contraindications[a])
  }

  /** The nested `some` is the existence of a mentioning pair; the reverse containment is never tested. */
  lemma HasContraindicationIff(m: Medication, user: UserProfile)
    ensures HasContraindication(m, user) <==> Contraindicated(m, user)
  {
    var inner := (contra: string) => Any(user.medicalConditions, (condition: string) => Mentions(condition, contra));
    AnyIff(m.contraindications, inner);
    forall a | 0 <= a < |m.contraindications|
      ensures inner(m.contraindications[a]) <==>
        exists b :: 0 <= b < |user.medicalConditions| && Mentions(user.medicalConditions[b], m.contraindications[a])
    {
      var contra := m.contraindications[a];
      AnyIff(user.medicalConditions, (condition: string) => Mentions(condition, contra));
    }
  }

  /**
    The profile test of `getMedicationRecommendations`: `suitableFor` holds
    the profile tag or `'adults'` (so a pregnant user is admitted by an
    `'adults'` entry), a pregnant user is refused an entry listing exactly
    `'pregnancy'`, and no contraindication may be mentioned by a condition.
  */
  predicate ProfileSafe(m: Medication, user: UserProfile)
  {
    if ProfileTag(user) !in m.suitableFor && "adults" !in m.suitableFor then false
    else if user.isPregnant && "pregnancy" in m.contraindications then false
    else !HasContraindication(m, user)
  }

  /** The profile test as a filter callback. */
  function SafeFor(user: UserProfile): Medication -> bool
  {
    m => ProfileSafe(m, user)
  }

  /** `getMedicationRecommendations(symptom)`: the symptom filter, then the profile filter. */
  function Recommendations(db: seq<Medication>, symptom: string, user: UserProfile): seq<Medication>
  {
    Filter(SymptomFilter(db, symptom), SafeFor(user))
  }

  /** Both tests at once. */
  function Acceptable(symptom: string, user: UserProfile): Medication -> bool
  {
    m => MatchesSymptom(symptom, m) && ProfileSafe(m, user)
  }

  /**
    The recommendations are exactly the entries of the database that pass
    both tests, in database order: one filter with both tests gives the same list.
  */
  lemma RecommendationsAreFiltered(db: seq<Medication>, symptom: string, user: UserProfile)
    ensures Recommendations(db, symptom, user) == Filter(db, Acceptable(symptom, user))
  {
    match SymptomIndication(symptom)
    case None =>
      FilterSame(db, SafeFor(user), Acceptable(symptom, user));
    case Some(k) =>
      FilterFilter(db, Serving(k), SafeFor(user), Acceptable(symptom, user));
  }

  /** What every recommendation satisfies, stated without the filters. */
  predicate Recommendable(symptom: string, user: UserProfile, m: Medication)
  {
    && (SymptomIndication(symptom).Some? ==> Serves(SymptomIndication(symptom).value, m))
    && (ProfileTag(user) in m.suitableFor || "adults" in m.suitableFor)
    && (user.isPregnant ==> "pregnancy" !in m.contraindications)
    && !Contraindicated(m, user)
  }

  /** Every recommendation serves the chosen indication, suits the profile and is not contraindicated. */
  lemma RecommendationsSound(db: seq<Medication>, symptom: string, user: UserProfile)
    ensures var r := Recommendations(db, symptom, user);
      forall i :: 0 <= i < |r| ==> Recommendable(symptom, user, r[i])
  {
    var r := Recommendations(db, symptom, user);
    RecommendationsAreFiltered(db, symptom, user);
    FilterSound(db, Acceptable(symptom, user));
    forall i | 0 <= i < |r| ensures Recommendable(symptom, user, r[i]) {
      HasContraindicationIff(r[i], user);
    }
  }

  /** Every entry that satisfies both tests is recommended. */
  lemma RecommendationsComplete(db: seq<Medication>, symptom: string, user: UserProfile, i: nat)
    requires i < |db| && Recommendable(symptom, user, db[i])
    ensures db[i] in Recommendations(db, symptom, user)
  {
    HasContraindicationIff(db[i], user);
    RecommendationsAreFiltered(db, symptom, user);
    FilterKeeps(db, Acceptable(symptom, user), i);
  }

  /** A symptom that mentions pain or a headache yields only pain relief, whatever else it mentions. */
  lemma PainTakesPriority(db: seq<Medication>, symptom: string, user: UserProfile)
    requires MentionsPain(Lower(symptom))
    ensures var r := Recommendations(db, symptom, user);
      forall i :: 0 <= i < |r| ==> Contains(Lower(r[i].indication), "pain")
  {
    RecommendationsSound(db, symptom, user);
  }

  /** A symptom the chain does not recognise filters nothing: only the profile test applies. */
  lemma UnrecognisedSymptomKeepsAll(db: seq<Medication>, symptom: string, user: UserProfile)
    requires SymptomIndication(symptom).None?
    ensures Recommendations(db, symptom, user) == Filter(db, SafeFor(user))
  {
  }

  // ------------------------------------------------------------- the badges

  /** `isPregnancySafe`: the user is pregnant and the entry lists `'pregnant'`. */
  predicate IsPregnancySafe(m: Medication, user: UserProfile)
  {
    user.isPregnant && "pregnant" in m.suitableFor
  }

  /**
    The badge is never shown to a user who is not pregnant, and an entry it is
    shown on passes the suitability part of the profile test.
  */
  lemma PregnancySafeBadge(m: Medication, user: UserProfile)
    ensures !user.isPregnant ==> !IsPregnancySafe(m, user)
    ensures IsPregnancySafe(m, user) ==> ProfileTag(user) in m.suitableFor
  {
  }

  /**
    The stand-alone `hasContraindication` helper, which uses the same nested
    test as the profile filter, is false on every recommended entry.
  */
  lemma RecommendationsPassHelper(db: seq<Medication>, symptom: string, user: UserProfile)
    ensures var r := Recommendations(db, symptom, user);
      forall i :: 0 <= i < |r| ==> !HasContraindication(r[i], user)
  {
    var r := Recommendations(db, symptom, user);
    RecommendationsSound(db, symptom, user);
    forall i | 0 <= i < |r| ensures !HasContraindication(r[i], user) {
      HasContraindicationIff(r[i], user);
    }
  }

  // ----------------------------------------------- the built-in entries

  /** Ibuprofen is never recommended to a pregnant user, although its `'adults'` tag admits a pregnant user. */
  lemma IbuprofenWithheldInPregnancy(symptom: string, user: UserProfile)
    requires user.isPregnant
    ensures "adults" in Ibuprofen.suitableFor
    ensures Ibuprofen !in Recommendations(Catalog, symptom, user)
  {
    assert Ibuprofen.suitableFor[0] == "adults";
    assert Ibuprofen.contraindications[0] == "pregnancy";
    RecommendationsSound(Catalog, symptom, user);
  }

  /** A condition never mentions a contraindication longer than itself. */
  lemma LongerNotMentioned(condition: string, contra: string)
    requires |condition| < |contra|
    ensures !Mentions(condition, contra)
  {
    var c := Lower(condition);
    forall i | 0 <= i <= |c| ensures !(Lower(contra) <= c[i..]) {
      assert |c[i..]| < |Lower(contra)|;
    }
  }

  /** A condition written in lower case mentions itself as a contraindication. */
  lemma LowercaseMentionsItself(condition: string)
    requires forall i :: 0 <= i < |condition| ==> !IsUpper(condition[i])
    ensures Mentions(condition, condition)
  {
    assert Lower(condition) == condition;
    assert Lower(condition) <= Lower(condition)[0..];
  }

  /** A user whose condition reads "liver disease" is refused Acetaminophen, whose contraindication is "liver disease". */
  lemma AcetaminophenWithheldForLiverDisease()
    ensures HasContraindication(Acetaminophen, UserProfile(false, ["liver disease"]))
  {
    var user := UserProfile(false, ["liver disease"]);
    assert Contraindicated(Acetaminophen, user) by {
      LowercaseMentionsItself("liver disease");
      assert Mentions(user.medicalConditions[0], Acetaminophen.contraindications[0]);
    }
    HasContraindicationIff(Acetaminophen, user);
  }

  /**
    The contraindication test only looks for the contraindication inside the
    condition: the same user is still offered Loratadine, whose
    contraindication "severe liver disease" contains the condition.
  */
  lemma LoratadineOfferedForLiverDisease()
    ensures !HasContraindication(Loratadine, UserProfile(false, ["liver disease"]))
    ensures ProfileSafe(Loratadine, UserProfile(false, ["liver disease"]))
  {
    var user := UserProfile(false, ["liver disease"]);
    assert !Contraindicated(Loratadine, user) by {
      LongerNotMentioned("liver disease", "severe liver disease");
    }
    HasContraindicationIff(Loratadine, user);
    assert Loratadine.suitableFor[0] == "adults";
  }

  // -------------------------------------------------------------- the panel

  /** `TabletRecommendationSection` for one user. */
  class MedicinePanel {
    const user: UserProfile
    const db: seq<Medication>
    var symptom: string
    var recommendations: seq<Medication>
    var isSearching: bool

    /** The first render: no symptom, no recommendations. */
    constructor(user: UserProfile)
      ensures this.user == user && db == Catalog
      ensures symptom == "" && recommendations == [] && !isSearching
    {
      this.user := user;
      db := Catalog;
      symptom := "";
      recommendations := [];
      isSearching := false;
    }

    /** Typing in the symptom box. */
    method SetSymptom(text: string)
      modifies this
      ensures symptom == text && recommendations == old(recommendations) && isSearching == old(isSearching)
    {
      symptom := text;
    }

    /**
      `handleSearch`, with the delayed update run to completion: a blank
      symptom changes nothing; otherwise the recommendations for the symptom
      replace the list and the spinner ends off.
    */
    method HandleSearch()
      modifies this
      ensures symptom == old(symptom)
      ensures IsBlank(symptom) ==> recommendations == old(recommendations) && isSearching == old(isSearching)
      ensures !IsBlank(symptom) ==> recommendations == Recommendations(db, symptom, user) && !isSearching
    {
      TrimEmptyIffBlank(symptom);
      if Trim(symptom) == [] {
        return;
      }
      isSearching := true;
      recommendations := Recommendations(db, symptom, user);
      isSearching := false;
    }
  }
}
