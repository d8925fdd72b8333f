# Healthcare assistant dashboard: a Dafny model

This project models the logic of the healthcare dashboard's four
interactive panels. Each is modelled as a Dafny module, and the properties
the panels promise are proved with Dafny.

- **Hospital locator** (`Facilities`, `Overpass`, `Locator`).
  - Distances come from the user's location. Two filters apply: emergency-only and a free-text keyword.
  - The list is sorted stably by distance. Then come the two profile reorderings: maternity care first for a pregnant user, and cardiology first for heart disease or hypertension.
  - The re-filter effect derives the displayed list from the fetched one.
  - Map elements are classified by type, emergency flag, phone number and inferred specialties.
  - A search chooses between fetched facilities and the built-in table.
  - The panel's state machine covers live tracking with its watch handle, the one-shot location request and the browser callbacks.
- **Medicine panel** (`Medications`).
  - The symptom keyword chain picks at most one indication. The profile filter checks suitability, pregnancy and contraindications.
  - The pregnancy-safe badge, the stand-alone contraindication helper, and the search handler, which ignores a blank symptom.
- **Doctor booking** (`Doctors`).
  - The suggested specialty and the doctor search.
  - A booking appends a confirmed appointment and removes the slot from the listed doctor.
- **Intake form** (`Intake`).
  - Validation of age, name, email and phone, with their messages.
  - The country pickers re-check a number's length.
  - The condition checkboxes, the three-step counter, the gate on the Next button, and the dialling-code prefix added on the final submit.

Each panel's state is a class with `modifies` clauses on its handlers. The
ranking, filtering and validation logic is functions on values, with lemmas
about them.

Shared modules:
- `Wrappers` has `Option`.
- `Text` has ASCII lower-casing, substring search, ECMAScript white space and `trim`, `parseInt`, and decimal rendering.
- `Seqs` has `filter` (which keeps the passing elements in order), a two-way partition and `some`.
- `Profile` has the user profile the panels receive.

The built-in hospital table keeps its duplicate record (id '5' twice), as
the component does.

## Model

| member | source | states |
|---|---|---|
| Text.ParseInt | src/components/AuthPage.tsx:153-154 | `parseInt(s, 10)` gives no number exactly when, after leading white space and an optional sign, no digit follows |
| Text.ParseIntOfNatToString | src/components/AuthPage.tsx:281-282 | a number written in decimal parses back to itself |
| Text.TrimEmptyIffBlank | src/components/dashboard/TabletRecommendationSection.tsx:125 | `trim()` leaves nothing exactly when the text is all white space |
| Seqs.FilterSound | src/components/dashboard/HospitalLocationSection.tsx:242-256 | everything a filter keeps passes its test and comes from its input |
| Seqs.FilterInOrder | src/components/dashboard/DoctorBookingSection.tsx:128-138 | a filter keeps exactly the passing elements, each at its own position in the input and in increasing order of position |
| Seqs.FilterCounts | src/components/dashboard/HospitalLocationSection.tsx:242-256 | a filter keeps every copy of each passing value and no copy of any other |
| Seqs.FilterOutCounts | src/components/AuthPage.tsx:253 | filtering out one value removes every copy of it and keeps every other value as often as before |
| Seqs.PartitionSound | src/components/dashboard/HospitalLocationSection.tsx:262-276 | "matching, then the rest" is a permutation with every matching element first |
| Seqs.AnyIff | src/components/dashboard/TabletRecommendationSection.tsx:108-112 | `some` holds exactly when some element passes |
| Facilities.WithDistances | src/components/dashboard/HospitalLocationSection.tsx:229-234 | one record per facility, with every field kept except the distance, which is measured from the given location |
| Facilities.EmergencyFilterSound | src/components/dashboard/HospitalLocationSection.tsx:241-244 | with emergency-only set, exactly the facilities with emergency services remain; otherwise all of them |
| Facilities.SpecialtyFilterSound | src/components/dashboard/HospitalLocationSection.tsx:246-256 | a blank keyword keeps all; otherwise exactly the facilities whose lower-cased name, type or some specialty contains the lowered, trimmed keyword |
| Facilities.CandidatesMeasured | src/components/dashboard/HospitalLocationSection.tsx:236-256 | the filtered facilities are drawn from the measured table, no more of them than in the table, each with its distance from the location |
| Facilities.CandidatesSound | src/components/dashboard/HospitalLocationSection.tsx:236-256 | every candidate passes the filters in force; with no filter in force, every facility is a candidate |
| Facilities.Insert | src/components/dashboard/HospitalLocationSection.tsx:259 | inserting into a list sorted by distance keeps it sorted and adds exactly that facility |
| Facilities.SortByDistance | src/components/dashboard/HospitalLocationSection.tsx:259 | the sorted list is in non-decreasing distance and is a permutation of its input |
| Facilities.SortStable | src/components/dashboard/HospitalLocationSection.tsx:259 | the sort is stable: the facilities at any one distance keep their input order |
| Facilities.FilterKeepsSorted | src/components/dashboard/HospitalLocationSection.tsx:263-274 | each group a partition takes from the sorted list is still sorted by distance |
| Facilities.ProfilePrioritySound | src/components/dashboard/HospitalLocationSection.tsx:261-276 | the profile reorderings are a permutation: cardiology first for heart disease or hypertension; maternity care first for a pregnant user without either; order unchanged otherwise |
| Facilities.RecommendedIsPermutation | src/components/dashboard/HospitalLocationSection.tsx:236-279 | the recommendation is a permutation of the filtered facilities |
| Facilities.RecommendedPassesFilters | src/components/dashboard/HospitalLocationSection.tsx:236-279 | every recommended facility passes the filters in force and is measured from the location; there are no more of them than in the table |
| Facilities.RecommendedForPregnancy | src/components/dashboard/HospitalLocationSection.tsx:258-270 | for a pregnant user without a cardiac condition: maternity facilities, then the rest, each group in distance order |
| Facilities.RecommendedForCardiac | src/components/dashboard/HospitalLocationSection.tsx:271-276 | for a user with heart disease or hypertension who is not pregnant: cardiology facilities, then the rest, each group in distance order |
| Facilities.RecommendedForPregnancyAndCardiac | src/components/dashboard/HospitalLocationSection.tsx:258-276 | for a pregnant user with a cardiac condition: the cardiology groups first (maternity before the rest within each); each of the four blocks is in distance order |
| Facilities.CandidatesFixed | src/components/dashboard/HospitalLocationSection.tsx:472-503 | re-filtering a list already measured from the location and already passing the filters leaves it unchanged |
| Facilities.MeasurePermutes | src/components/dashboard/HospitalLocationSection.tsx:476-479 | measuring two lists that hold the same facilities gives two lists that hold the same measured facilities |
| Facilities.MeasureFilter | src/components/dashboard/HospitalLocationSection.tsx:476-497 | a filter that does not read the distance gives the same list whether it runs before or after measuring |
| Facilities.FilterPermutes | src/components/dashboard/HospitalLocationSection.tsx:483-497 | filtering two lists that hold the same facilities gives two lists that hold the same facilities |
| Facilities.CandidatesRemeasured | src/components/dashboard/HospitalLocationSection.tsx:472-503 | facilities measured and filtered from one location, then measured and filtered again from another, are exactly the facilities filtered from the second |
| Facilities.RefilterRecommended | src/components/dashboard/HospitalLocationSection.tsx:472-503 | re-filtering a recommendation fetched from any location, measured from any location, with the same filters, shows exactly the facilities the table yields from the second location, none dropped or added |
| Facilities.RefilterWithoutEmergency | src/components/dashboard/HospitalLocationSection.tsx:483-485 | a list fetched with emergency-only, re-filtered without it, still holds only emergency facilities |
| Overpass.ClassifyType | src/components/dashboard/HospitalLocationSection.tsx:371-376 | an element is a general hospital exactly when tagged `amenity=hospital`; it is emergency care exactly when tagged `emergency=yes` and not a hospital, doctors or dentist; it is never urgent care |
| Overpass.EmergencyClassification | src/components/dashboard/HospitalLocationSection.tsx:378 | the emergency flag is `emergency=yes` or a hospital; emergency care implies the flag; without the flag the type is specialty clinic |
| Overpass.FirstTag | src/components/dashboard/HospitalLocationSection.tsx:385 | the first key whose tag is set wins; the fallback is used only when none is set |
| Overpass.PickPhoneOrder | src/components/dashboard/HospitalLocationSection.tsx:384-385 | `phone`, then `contact:phone`, then `contact:mobile`, then the mock number, each only when all before it are missing |
| Overpass.KeywordSpecialtiesFacts | src/components/dashboard/HospitalLocationSection.tsx:300-342 | each specialty is added once, exactly when its branch fires; nothing is added when no branch fires |
| Overpass.Labels | src/components/dashboard/HospitalLocationSection.tsx:349 | one name per specialty, in order |
| Overpass.LabelsFaithful | src/components/dashboard/HospitalLocationSection.tsx:349 | distinct specialties give distinct names, and a name is listed exactly when its specialty is |
| Overpass.InferSpecialtiesFacts | src/components/dashboard/HospitalLocationSection.tsx:294-350 | the list is never empty and never repeats; 'Cardiology' is there exactly when the name mentions heart, cardio or vascular; 'Emergency' is there exactly when tagged `emergency=yes`, and then so is 'General Practice' |
| Overpass.ToHospitalFacts | src/components/dashboard/HospitalLocationSection.tsx:369-402 | a fetched record has distance 0, accepts insurance, is never urgent care, carries the emergency flag exactly as the tags say, has an id that parses back to the element's id, a name and at least one specialty |
| Overpass.NearbyHospitals | src/components/dashboard/HospitalLocationSection.tsx:352-407 | one record per element, in answer order; no records when the request fails |
| Overpass.NearbyHospitalsFacts | src/components/dashboard/HospitalLocationSection.tsx:369-402 | every fetched record has distance 0, an id that parses to its element's id, at least one specialty, and no urgent-care type |
| Locator.SearchResultFacts | src/components/dashboard/HospitalLocationSection.tsx:421-469 | results come from the fetched facilities exactly when there is a location and something was fetched there; otherwise from the table, measured from that location or the default; the geocoder's failure or miss sets its notice, and only a geocoded position moves the user location |
| Locator.SearchShowsCandidates | src/components/dashboard/HospitalLocationSection.tsx:443-503 | after any search, the displayed list, measured from the user location the search leaves (or the default), is exactly the chosen source's facilities that pass the filters, even when the table fallback measured from elsewhere |
| Locator.StaleToggleHidesFacilities | src/components/dashboard/HospitalLocationSection.tsx:747-749 | turning emergency-only off with no location and no keyword hides every non-emergency facility, although each passes the new filters |
| Locator.StaleToggleHidesWomensHealthCenter | src/components/dashboard/HospitalLocationSection.tsx:105-119 | the Women's Health Center is one facility hidden that way |
| Locator.LocatorPanel.constructor | src/components/dashboard/HospitalLocationSection.tsx:65-77 | empty fields and lists, no location, no error, no watch, mounted |
| Locator.LocatorPanel.SetSpecialtyFilter | src/components/dashboard/HospitalLocationSection.tsx:666 | only the keyword changes |
| Locator.LocatorPanel.SetSearchQuery | src/components/dashboard/HospitalLocationSection.tsx:675 | only the location text changes |
| Locator.LocatorPanel.SearchHospitals | src/components/dashboard/HospitalLocationSection.tsx:421-469 | the fetched list, user location and error line become what the search decides; a non-silent search ends with the spinner off; nothing else changes and the watch invariant holds |
| Locator.LocatorPanel.Settle | src/components/dashboard/HospitalLocationSection.tsx:458-468 | the settled search's updates, and nothing else |
| Locator.LocatorPanel.ToggleEmergencyOnly | src/components/dashboard/HospitalLocationSection.tsx:747-749 | the setting flips and the search runs with the new setting (the corrected behaviour; see Findings) |
| Locator.LocatorPanel.StopLiveTracking | src/components/dashboard/HospitalLocationSection.tsx:516-522 | no handle, no running watch, tracking off; nothing else changes |
| Locator.LocatorPanel.StartLiveTracking | src/components/dashboard/HospitalLocationSection.tsx:524-565 | no change while tracking; without geolocation only the error is set; otherwise the new watch is the one watch, the error cleared and tracking on |
| Locator.LocatorPanel.ToggleLiveTracking | src/components/dashboard/HospitalLocationSection.tsx:700 | tracking stops when on, and starts (or reports no geolocation) when off |
| Locator.LocatorPanel.OnWatchPosition | src/components/dashboard/HospitalLocationSection.tsx:533-540 | the position becomes the user location and the silent search's results are stored |
| Locator.LocatorPanel.OnWatchError | src/components/dashboard/HospitalLocationSection.tsx:541-555 | tracking stops; a silent search runs at the network location (which becomes the user location) or the default; the error line ends cleared |
| Locator.LocatorPanel.RequestCurrentLocation | src/components/dashboard/HospitalLocationSection.tsx:567-578 | live tracking stops; without geolocation an error, otherwise the locating spinner turns on and the error clears |
| Locator.LocatorPanel.OnLocated | src/components/dashboard/HospitalLocationSection.tsx:580-590 | the position becomes the user location, the spinner stops and the search's results are stored |
| Locator.LocatorPanel.OnLocateError | src/components/dashboard/HospitalLocationSection.tsx:591-623 | a network location is searched; otherwise the error code's message is set, and when no location is known a default search runs (clearing it again) |
| Locator.LocatorPanel.Unmount | src/components/dashboard/HospitalLocationSection.tsx:637-643 | the browser drops the watch; the handle stays |
| Medications.SymptomIndicationFirstMatch | src/components/dashboard/TabletRecommendationSection.tsx:88-97 | each indication is chosen exactly when its keywords match and no earlier branch's do; none when no branch matches |
| Medications.HasContraindicationIff | src/components/dashboard/TabletRecommendationSection.tsx:108-112 | the nested `some` holds exactly when some lowered condition contains some lowered contraindication |
| Medications.RecommendationsAreFiltered | src/components/dashboard/TabletRecommendationSection.tsx:84-122 | the symptom filter followed by the profile filter equals one filter with both tests, in catalogue order |
| Medications.RecommendationsSound | src/components/dashboard/TabletRecommendationSection.tsx:84-122 | every recommendation serves the chosen indication, is tagged for the profile or adults, is not marked 'pregnancy' for a pregnant user, and no condition mentions any of its contraindications |
| Medications.RecommendationsComplete | src/components/dashboard/TabletRecommendationSection.tsx:84-122 | every catalogue entry meeting those conditions is recommended |
| Medications.PainTakesPriority | src/components/dashboard/TabletRecommendationSection.tsx:89-90 | a symptom mentioning pain or a headache yields only pain relief, whatever else it mentions |
| Medications.UnrecognisedSymptomKeepsAll | src/components/dashboard/TabletRecommendationSection.tsx:86-97 | an unrecognised symptom applies only the profile filter |
| Medications.PregnancySafeBadge | src/components/dashboard/TabletRecommendationSection.tsx:135-137 | the badge never shows for a user who is not pregnant, and where it shows the entry is tagged for the profile |
| Medications.RecommendationsPassHelper | src/components/dashboard/TabletRecommendationSection.tsx:139-145 | the stand-alone contraindication helper is false on every recommendation |
| Medications.IbuprofenWithheldInPregnancy | src/components/dashboard/TabletRecommendationSection.tsx:50-60 | Ibuprofen is tagged 'adults' yet never recommended to a pregnant user |
| Medications.AcetaminophenWithheldForLiverDisease | src/components/dashboard/TabletRecommendationSection.tsx:39-48 | the condition "liver disease" contraindicates Acetaminophen |
| Medications.LoratadineOfferedForLiverDisease | src/components/dashboard/TabletRecommendationSection.tsx:61-70 | the same user is still offered Loratadine, whose contraindication "severe liver disease" contains the condition rather than the reverse |
| Medications.MedicinePanel.constructor | src/components/dashboard/TabletRecommendationSection.tsx:31-82 | no symptom, no recommendations, the four-entry catalogue |
| Medications.MedicinePanel.SetSymptom | src/components/dashboard/TabletRecommendationSection.tsx:178 | only the symptom changes |
| Medications.MedicinePanel.HandleSearch | src/components/dashboard/TabletRecommendationSection.tsx:124-133 | a blank symptom changes nothing; otherwise the recommendations for the symptom replace the list and the spinner ends off |
| Doctors.RecommendedSpecialtyChain | src/components/dashboard/DoctorBookingSection.tsx:117-123 | the suggestion is one of the eight offered specialties; each is suggested exactly when its test passes and no earlier one does |
| Doctors.DoctorSearchExact | src/components/dashboard/DoctorBookingSection.tsx:125-143 | the listed doctors are exactly the roster's doctors of the selected specialty, or with none selected those of the suggested specialty plus general medicine, each once and in roster order |
| Doctors.PregnantUserSeesObstetrics | src/components/dashboard/DoctorBookingSection.tsx:51-104 | with nothing selected, a pregnant user is shown Dr. Johnson and Dr. Rodriguez, in that order |
| Doctors.WithoutSlotEffect | src/components/dashboard/DoctorBookingSection.tsx:157-162 | same length; a doctor with the booked id loses every copy of that slot and keeps every other slot, as often as before and in order, and every other field; every other doctor is unchanged |
| Doctors.BookingPanel.constructor | src/components/dashboard/DoctorBookingSection.tsx:165-168 | the mount search has run: the suggested doctors for the profile, nothing selected, no bookings |
| Doctors.BookingPanel.SelectSpecialty | src/components/dashboard/DoctorBookingSection.tsx:189 | only the selection changes; the list waits for a search |
| Doctors.BookingPanel.SelectDate | src/components/dashboard/DoctorBookingSection.tsx:208 | only the date changes |
| Doctors.BookingPanel.SearchDoctors | src/components/dashboard/DoctorBookingSection.tsx:125-143 | the list is rebuilt from the roster (booked slots reappear), the spinner ends off, and bookings are kept |
| Doctors.BookingPanel.BookAppointment | src/components/dashboard/DoctorBookingSection.tsx:145-163 | one confirmed booking is appended with the picked date or today, and the slot leaves the listed doctor with that id |
| Intake.ErrorTextEmptyIff | src/components/AuthPage.tsx:286-290 | an error line is empty, so does not block Next, exactly when it holds no error |
| Intake.AgeOfNumber | src/components/AuthPage.tsx:152-159 | an age typed as a number is accepted exactly when it is from 1 to 120 |
| Intake.NameErrorIff | src/components/AuthPage.tsx:227-234 | the name error is set exactly when some character is neither an ASCII letter nor white space |
| Intake.IndexOf | src/components/AuthPage.tsx:238 | the first `@`, and none before it |
| Intake.EmailCheckSound | src/components/AuthPage.tsx:237-244 | an address the scan accepts has the pattern's form: `a@b.c` with non-empty parts free of white space and `@` |
| Intake.EmailCheckOfParts | src/components/AuthPage.tsx:238 | a string cut as `a@b.c` at given positions, with the parts free of white space and `@`, passes the scan |
| Intake.EmailCheckComplete | src/components/AuthPage.tsx:237-244 | every address of that form passes the scan |
| Intake.EmailCheckIff | src/components/AuthPage.tsx:237-244 | the scan accepts exactly the pattern's language |
| Intake.LengthCheckIff | src/components/AuthPage.tsx:188-196 | too short exactly below the country's length, too long exactly above it, otherwise no error |
| Intake.PhoneInputErrorCases | src/components/AuthPage.tsx:180-224 | digits short of the length ask for that many, too many are refused, the right number or nothing clears the error, and non-digits are refused |
| Intake.DigitsCheckIff | src/components/AuthPage.tsx:130-143 | the re-check passes exactly an empty number, or a digit-only one of the country's length |
| Intake.LettersPassCountryChange | src/components/AuthPage.tsx:106-117 | ten letters, refused when typed, lose their error when India is picked, and Next is enabled with letters for a phone, breaking the gate; the digit re-check keeps the error |
| Intake.FindCountry | src/components/AuthPage.tsx:199 | a found country has the code and is on the list; none is found exactly when no entry has the code |
| Intake.ClearRemovesAll | src/components/AuthPage.tsx:247-254 | clearing a box removes every copy of the condition and keeps the others as often as before and in order |
| Intake.TickThenClear | src/components/AuthPage.tsx:247-254 | ticking then clearing an unlisted condition restores the list |
| Intake.GateAfterTyping | src/components/AuthPage.tsx:180-224 | after the own phone is typed, Next on step 2 (lines 287-288) is enabled only for digits of the country's length |
| Intake.GateAfterCountryChange | src/components/AuthPage.tsx:106-117 | after the own phone's country changes, with the digit re-check, Next on step 2 is enabled only for digits of the new country's length (the corrected behaviour; see Findings) |
| Intake.Formatted | src/components/AuthPage.tsx:261-265 | each number is its dialling code followed by the number typed, so the code strips back off; the other fields are unchanged |
| Intake.IntakeForm.constructor | src/components/AuthPage.tsx:37-88 | the saved data, with the emergency code defaulting to +91; no errors; India for every number; step 1 |
| Intake.IntakeForm.ChangeText | src/components/AuthPage.tsx:150-245 | the typed value is stored (even a non-digit phone) and that field's check alone sets its error; after the own phone is typed, Next on step 2 needs digits of the country's length |
| Intake.IntakeForm.ChangeNumber | src/components/AuthPage.tsx:180-224 | a phone field keeps the value; its error follows the phone rule, against the stored emergency code's country or, failing that, the emergency country state |
| Intake.IntakeForm.SetPregnant | src/components/AuthPage.tsx:161-168 | only the pregnancy flag changes |
| Intake.IntakeForm.ChangeCountry | src/components/AuthPage.tsx:102-148 | the picked country replaces the line's country and the stored number is re-checked for length and digits, so Next on step 2 then needs digits of the new length (the corrected behaviour for the own line; see Findings) |
| Intake.IntakeForm.PickEmergencyCountry | src/components/AuthPage.tsx:569-585 | the menu's country and the stored code change; a stored number is re-checked for length, and with none stored the error line is kept |
| Intake.IntakeForm.EmergencyContactInput | src/components/AuthPage.tsx:600-616 | digits are stored and length-checked against the menu's country; other input changes nothing |
| Intake.IntakeForm.ChangeCondition | src/components/AuthPage.tsx:247-254 | ticking appends the condition; clearing filters out every copy |
| Intake.IntakeForm.Submit | src/components/AuthPage.tsx:256-277 | before step 3 the step advances by one; at step 3 the prefixed data is handed over; the step stays within 1..3 |
| Intake.IntakeForm.Previous | src/components/AuthPage.tsx:635 | one step back, never below step 1 |

## Left out

- Network requests (geocoder, Overpass, network location) and the browser's geolocation answers are parameters of the handlers. The request text and the JSON decoding are not part of this model.
- Handler interleaving: each handler, including its awaits and `setTimeout` delays, runs to completion. Interleavings that React or the browser allow are not modelled. The one stale closure modelled is the emergency toggle's.
- Locator handlers require the panel to be mounted. Callbacks arriving after unmount are not modelled.
- The haversine formula and its `toFixed(1)` rounding: distances are a black-box function returning tenths of a mile.
- The random rating, wait time and mock phone number are inputs (`Draw`). Their ranges are not stated.
- The map, the directions and call links, and all rendering other than the derived lists are not part of this model.
- The locator's mount effect (it calls `requestCurrentLocation`) is the host calling `RequestCurrentLocation` after the constructor.
- The displayed hospital list is the derived `Shown()`, not a stored field, because the re-filter effect recomputes it on every change it depends on.
- Country flags, the unused `medicalConditionsList`, authentication metadata saving, navigation and the "skip if already filled" redirect.
- JavaScript type coercions in `handleInputChange` (a boolean into a text field, or text into the condition list): `ChangeText` accepts only the six text fields.
- The intake form's `Submit` does not require `CanProceed()`, because the handler does not check it. The disabled Next button is stated separately by `CanProceedAt` and `PhoneGateHolds`.
- `parseInt` is modelled on decimal digits with leading ECMAScript white space and one optional sign. Other radices, `Infinity` and number precision are not modelled.
- Case mapping is ASCII-only; the source's `toLowerCase` maps all of Unicode.
- Text lengths count Unicode scalar values. JavaScript's `.length` and `/^\d*$/` count UTF-16 code units, so phone lengths and the Next gate differ for characters outside the Basic Multilingual Plane.
- `ChangeCountry(…, EmergencyPhone)` and `ChangeText(EmergencyContact, …)` model code that the page never reaches. The page calls `handleCountryChange` only for the own phone (AuthPage.tsx:495), and the emergency number uses its own inline handlers, modelled as `PickEmergencyCountry` and `EmergencyContactInput`.
- Locator.LocatorPanel.ToggleLiveTracking: states the tracking flag, the watch set and the error, not the whole new state. `StopLiveTracking` and `StartLiveTracking`, which it calls, state the whole state.

## Findings

| source | as written | input that shows it | evidently intended | confidence | as-written member | corrected member |
|---|---|---|---|---|---|---|
| src/components/dashboard/HospitalLocationSection.tsx:747-749 | the toggle's click handler starts a search that still reads the old emergency setting; the search falls back on the built-in table filtered with that old setting, and the re-filter effect then applies the new one | emergency-only on, no location, blank keyword, toggle off: only emergency facilities are shown, and the Women's Health Center is missing | the search uses the new setting, so the list shows every facility passing the new filters | not executed | Locator.StaleToggleHidesFacilities | Locator.LocatorPanel.ToggleEmergencyOnly |
| src/components/AuthPage.tsx:106-117 | changing the own phone's country re-checks the stored number's length only, although typing stores non-digit numbers too (with an error) | type `abcdefghij` as the phone, then pick India: the error clears and step 2's Next is enabled | re-check for digits as well, as the emergency line's re-check does | not executed | Intake.LettersPassCountryChange | Intake.IntakeForm.ChangeCountry |
