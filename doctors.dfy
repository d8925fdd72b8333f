/**
  The doctor booking panel (DoctorBookingSection.tsx): the specialty the
  profile suggests, the search that lists doctors of the chosen or suggested
  specialty, and the booking that records an appointment and takes the slot
  off the doctor's list.
*/
module Doctors {
  import opened Seqs
  import opened Profile

  /** How a doctor consults. */
  datatype ConsultMode = InPerson | Video | Both

  /** How a booked appointment takes place. */
  datatype VisitKind = InPersonVisit | VideoVisit

  datatype BookingStatus = Confirmed | Pending

  datatype Doctor = Doctor(
    id: string, name: string, specialty: string, rating: real, experience: nat, location: string,
    availableSlots: seq<string>, consultationFee: nat, image: string, languages: seq<string>,
    consultationType: seq<ConsultMode>)

  datatype Booking = Booking(
    doctorId: string, doctorName: string, date: string, time: string, kind: VisitKind, status: BookingStatus)

  const Johnson := Doctor("1", "Dr. Sarah Johnson", "General Medicine", 4.8, 12, "Downtown Medical Center",
    ["09:00 AM", "10:30 AM", "02:00 PM", "03:30 PM"], 150, "/api/placeholder/100/100",
    ["English", "Spanish"], [InPerson, Video])

  const Chen := Doctor("2", "Dr. Michael Chen", "Cardiology", 4.9, 18, "Heart Care Clinic",
    ["08:00 AM", "11:00 AM", "01:00 PM"], 250, "/api/placeholder/100/100",
    ["English", "Mandarin"], [InPerson, Video])

  const Rodriguez := Doctor("3", "Dr. Emily Rodriguez", "Obstetrics & Gynecology", 4.7, 15, "Women's Health Center",
    ["09:30 AM", "11:30 AM", "02:30 PM", "04:00 PM"], 200, "/api/placeholder/100/100",
    ["English", "Spanish"], [InPerson, Video])

  const Wilson := Doctor("4", "Dr. James Wilson", "Psychiatry", 4.6, 10, "Mental Health Associates",
    ["10:00 AM", "12:00 PM", "03:00 PM", "05:00 PM"], 180, "/api/placeholder/100/100",
    ["English"], [Video, InPerson])

  /** `doctorsDatabase`. */
  const Roster: seq<Doctor> := [Johnson, Chen, Rodriguez, Wilson]

  /** The specialties the select box offers. */
  const Specialties: seq<string> := [
    "General Medicine", "Cardiology", "Obstetrics & Gynecology", "Psychiatry",
    "Dermatology", "Orthopedics", "Pediatrics", "Endocrinology"]

  // --------------------------------------------------- the suggested specialty

  /** The condition that calls for a cardiologist. */
  predicate HasHeartCondition(user: UserProfile)
  {
    "Hypertension" in user.medicalConditions || "Heart Disease" in user.medicalConditions
  }

  /**
    `getRecommendedSpecialty`: pregnancy first, then diabetes, then a heart
    condition, then depression or anxiety, else general medicine. Conditions
    are matched as exact list elements.
  */
  function RecommendedSpecialty(user: UserProfile): string
  {
    if user.isPregnant then "Obstetrics & Gynecology"
    else if "Diabetes" in user.medicalConditions then "Endocrinology"
    else if HasHeartCondition(user) then "Cardiology"
    else if "Depression/Anxiety" in user.medicalConditions then "Psychiatry"
    else "General Medicine"
  }

  /**
    The chain is tried in order: each specialty is suggested exactly when its
    test passes and no earlier one does, and the suggestion is always one of
    the specialties the select box offers.
  */
  lemma RecommendedSpecialtyChain(user: UserProfile)
    ensures var r := RecommendedSpecialty(user);
      var diabetes := "Diabetes" in user.medicalConditions;
      var mood := "Depression/Anxiety" in user.medicalConditions;
      && r in Specialties
      && (r == "Obstetrics & Gynecology" <==> user.isPregnant)
      && (r == "Endocrinology" <==> !user.isPregnant && diabetes)
      && (r == "Cardiology" <==> !user.isPregnant && !diabetes && HasHeartCondition(user))
      && (r == "Psychiatry" <==> !user.isPregnant && !diabetes && !HasHeartCondition(user) && mood)
      && (r == "General Medicine" <==> !user.isPregnant && !diabetes && !HasHeartCondition(user) && !mood)
  {
    assert Specialties[0] == "General Medicine" && Specialties[1] == "Cardiology";
    assert Specialties[2] == "Obstetrics & Gynecology" && Specialties[3] == "Psychiatry";
    assert Specialties[7] == "Endocrinology";
  }

  // ----------------------------------------------------------------- search

  /** `doctor => doctor.specialty === specialty`. */
  function OfSpecialty(specialty: string): Doctor -> bool
  {
    (d: Doctor) => d.specialty == specialty
  }

  /** `doctor => doctor.specialty === recommended || doctor.specialty === 'General Medicine'`. */
  function OfSpecialtyOrGeneral(recommended: string): Doctor -> bool
  {
    (d: Doctor) => d.specialty == recommended || d.specialty == "General Medicine"
  }

  /**
    The list `searchDoctors` shows: the doctors of the selected specialty, or,
    with nothing selected, those of the suggested specialty and the general
    practitioners.
  */
  function DoctorSearch(db: seq<Doctor>, selectedSpecialty: string, user: UserProfile): seq<Doctor>
  {
    if selectedSpecialty != "" then Filter(db, OfSpecialty(selectedSpecialty))
    else Filter(db, OfSpecialtyOrGeneral(RecommendedSpecialty(user)))
  }

  /** The doctor is listed for the selection and the profile. */
  predicate Listed(selectedSpecialty: string, user: UserProfile, d: Doctor)
  {
    if selectedSpecialty != "" then d.specialty == selectedSpecialty
    else d.specialty == RecommendedSpecialty(user) || d.specialty == "General Medicine"
  }

  /**
    The search lists exactly the doctors of the roster it is given that fit
    the selection, each once and in roster order: every listed doctor fits,
    every fitting doctor is listed, and the list picks the fitting doctors'
    positions in the roster in increasing order.
  */
  lemma DoctorSearchExact(db: seq<Doctor>, selectedSpecialty: string, user: UserProfile)
    ensures var r := DoctorSearch(db, selectedSpecialty, user);
      && (forall i :: 0 <= i < |r| ==> Listed(selectedSpecialty, user, r[i]))
      && (forall i :: 0 <= i < |db| && Listed(selectedSpecialty, user, db[i]) ==> db[i] in r)
      && KeptInOrder(db, (d: Doctor) => Listed(selectedSpecialty, user, d), r)
  {
    var p := if selectedSpecialty != "" then OfSpecialty(selectedSpecialty)
      else OfSpecialtyOrGeneral(RecommendedSpecialty(user));
    var listed := (d: Doctor) => Listed(selectedSpecialty, user, d);
    assert forall d :: p(d) == listed(d);
    assert DoctorSearch(db, selectedSpecialty, user) == Filter(db, p);
    FilterSound(db, p);
    forall i | 0 <= i < |db| && Listed(selectedSpecialty, user, db[i])
      ensures db[i] in Filter(db, p)
    {
      FilterKeeps(db, p, i);
    }
    FilterInOrder(db, p);
    KeptInOrderSame(db, p, listed, Filter(db, p));
  }

  /** A pregnant user who has selected nothing is shown the general practitioner and the gynaecologist of the roster. */
  lemma PregnantUserSeesObstetrics(user: UserProfile)
    requires user.isPregnant
    ensures DoctorSearch(Roster, "", user) == [Johnson, Rodriguez]
  {
    var p := OfSpecialtyOrGeneral("Obstetrics & Gynecology");
    assert p(Johnson) && !p(Chen) && p(Rodriguez) && !p(Wilson);
    FilterCons(Johnson, [Chen, Rodriguez, Wilson], p);
    FilterCons(Chen, [Rodriguez, Wilson], p);
    FilterCons(Rodriguez, [Wilson], p);
    FilterCons(Wilson, [], p);
    assert Roster == [Johnson] + [Chen, Rodriguez, Wilson];
    assert [Chen, Rodriguez, Wilson] == [Chen] + [Rodriguez, Wilson];
    assert [Rodriguez, Wilson] == [Rodriguez] + [Wilson];
    assert [Wilson] == [Wilson] + [];
  }

  // ---------------------------------------------------------------- booking

  /** Every doctor with the booked doctor's id loses the slot; the others are left as they are. */
  function WithoutSlot(doctors: seq<Doctor>, id: string, slot: string): seq<Doctor>
  {
    seq(|doctors|, i requires 0 <= i < |doctors| =>
      if doctors[i].id == id
      then doctors[i].(availableSlots := Filter(doctors[i].availableSlots, OtherThan(slot)))
      else doctors[i])
  }

  /**
    After a booking the list has the same length; a doctor with the booked id
    keeps every other field and every other slot, in order and as often as
    before, and no longer offers the slot; every other doctor is unchanged.
  */
  lemma WithoutSlotEffect(doctors: seq<Doctor>, id: string, slot: string)
    ensures var r := WithoutSlot(doctors, id, slot);
      && |r| == |doctors|
      && forall i :: 0 <= i < |r| ==>
        if doctors[i].id == id then
          && r[i] == doctors[i].(availableSlots := r[i].availableSlots)
          && multiset(r[i].availableSlots) == multiset(doctors[i].availableSlots)[slot := 0]
          && KeptInOrder(doctors[i].availableSlots, OtherThan(slot), r[i].availableSlots)
        else r[i] == doctors[i]
  {
    var r := WithoutSlot(doctors, id, slot);
    forall i | 0 <= i < |r| && doctors[i].id == id
      ensures multiset(r[i].availableSlots) == multiset(doctors[i].availableSlots)[slot := 0]
      ensures KeptInOrder(doctors[i].availableSlots, OtherThan(slot), r[i].availableSlots)
    {
      FilterOutCounts(doctors[i].availableSlots, slot);
      FilterInOrder(doctors[i].availableSlots, OtherThan(slot));
    }
  }

  /** The booking's date: the date picked, or today's when none is. */
  function BookingDate(selectedDate: string, today: string): string
  {
    if selectedDate != "" then selectedDate else today
  }

  // ------------------------------------------------------------------ panel

  /** `DoctorBookingSection` for one user. */
  class BookingPanel {
    const user: UserProfile
    /** `doctorsDatabase`. */
    const db: seq<Doctor>
    var selectedSpecialty: string
    var selectedDate: string
    var doctors: seq<Doctor>
    var bookings: seq<Booking>
    var isSearching: bool

    /** The first render, with the search it starts on mount run to completion. */
    constructor(user: UserProfile)
      ensures this.user == user && db == Roster
      ensures selectedSpecialty == "" && selectedDate == "" && bookings == [] && !isSearching
      ensures doctors == DoctorSearch(Roster, "", user)
    {
      this.user := user;
      db := Roster;
      selectedSpecialty := "";
      selectedDate := "";
      bookings := [];
      doctors := DoctorSearch(Roster, "", user);
      isSearching := false;
    }

    /** Picking a specialty in the select box. */
    method SelectSpecialty(specialty: string)
      modifies this
      ensures selectedSpecialty == specialty
      ensures selectedDate == old(selectedDate) && doctors == old(doctors) && bookings == old(bookings)
      ensures isSearching == old(isSearching)
    {
      selectedSpecialty := specialty;
    }

    /** Picking a date. */
    method SelectDate(date: string)
      modifies this
      ensures selectedDate == date
      ensures selectedSpecialty == old(selectedSpecialty) && doctors == old(doctors) && bookings == old(bookings)
      ensures isSearching == old(isSearching)
    {
      selectedDate := date;
    }

    /**
      `searchDoctors`, with the delayed update run to completion: the list is
      rebuilt from the roster, so slots taken by earlier bookings reappear.
    */
    method SearchDoctors()
      modifies this
      ensures doctors == DoctorSearch(db, selectedSpecialty, user) && !isSearching
      ensures selectedSpecialty == old(selectedSpecialty) && selectedDate == old(selectedDate)
      ensures bookings == old(bookings)
    {
      isSearching := true;
      doctors := DoctorSearch(db, selectedSpecialty, user);
      isSearching := false;
    }

    /**
      `bookAppointment(doctor, slot, kind)`: one confirmed booking is appended
      for the doctor, the slot and the date picked (or `today`), and the slot
      is taken off the list of every listed doctor with that id.
    */
    method BookAppointment(doctor: Doctor, slot: string, kind: VisitKind, today: string)
      modifies this
      ensures bookings == old(bookings) + [Booking(doctor.id, doctor.name, BookingDate(selectedDate, today), slot, kind, Confirmed)]
      ensures doctors == WithoutSlot(old(doctors), doctor.id, slot)
      ensures selectedSpecialty == old(selectedSpecialty) && selectedDate == old(selectedDate)
      ensures isSearching == old(isSearching)
    {
      var booking := Booking(doctor.id, doctor.name, BookingDate(selectedDate, today), slot, kind, Confirmed);
      bookings := bookings + [booking];
      doctors := WithoutSlot(doctors, doctor.id, slot);
    }
  }
}
