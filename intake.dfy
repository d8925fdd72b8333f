/**
  The three-step intake form (AuthPage.tsx): the field validators and the
  messages they leave, the country pickers that re-check a phone number's
  length, the medical-condition checkboxes, the step counter with its
  Previous and Next buttons, the gate on Next, and the number formatting done
  on the final submit.
*/
module Intake {
  import opened Wrappers
  import opened Text
  import opened Seqs

  /** A dialling code with the number of digits a local number has. */
  datatype Country = Country(code: string, name: string, length: nat)

  const India := Country("+91", "India", 10)

  /** `countryCodes`, in menu order. */
  const CountryCodes: seq<Country> := [
    India, Country("+1", "USA/Canada", 10), Country("+44", "UK", 10), Country("+81", "Japan", 10),
    Country("+86", "China", 11), Country("+33", "France", 9), Country("+49", "Germany", 10),
    Country("+971", "UAE", 9), Country("+65", "Singapore", 8), Country("+60", "Malaysia", 9),
    Country("+61", "Australia", 9)]

  /** `totalSteps`. */
  const TotalSteps := 3

  datatype FormData = FormData(
    name: string, age: string, gender: string, email: string, phone: string, isPregnant: bool,
    medicalConditions: seq<string>, emergencyContact: string, emergencyCountry: string)

  // ------------------------------------------------------------ messages

  /** What an error line can hold; `NoError` is the empty string. */
  datatype FieldError =
    | NoError | InvalidAge | InvalidName | InvalidEmail | OnlyNumbers
    | TooShort(expected: nat, country: string)
    | TooLong(expected: nat, country: string)

  /** The text of each message. */
  function ErrorText(e: FieldError): string
  {
    match e
    case NoError => ""
    case InvalidAge => "Please enter a valid age between 1 and 120"
    case InvalidName => "Name can only contain letters and spaces"
    case InvalidEmail => "Please enter a valid email address"
    case OnlyNumbers => "Only numbers are allowed"
    case TooShort(n, country) => "Phone number should be " + NatToString(n) + " digits for " + country
    case TooLong(n, country) => "Phone number should not exceed " + NatToString(n) + " digits for " + country
  }

  /** An error line is empty, so falsy, exactly when it holds no error. */
  lemma ErrorTextEmptyIff(e: FieldError)
    ensures ErrorText(e) == "" <==> e == NoError
  {
    match e
    case TooShort(n, country) =>
      assert |ErrorText(e)| >= |"Phone number should be "|;
    case TooLong(n, country) =>
      assert |ErrorText(e)| >= |"Phone number should not exceed "|;
    case _ =>
  }

  // ------------------------------------------------------------------ age

  /** `parseInt(age, 10)` is a number from 1 to 120. */
  predicate AgeValid(age: string)
  {
    var n := ParseInt(age);
    n.Some? && 1 <= n.value <= 120
  }

  function AgeError(age: string): FieldError
  {
    if AgeValid(age) then NoError else InvalidAge
  }

  /** A number of years typed as digits is accepted exactly when it is between 1 and 120. */
  lemma AgeOfNumber(years: nat)
    ensures AgeValid(NatToString(years)) <==> 1 <= years <= 120
    ensures AgeError(NatToString(years)) == NoError <==> 1 <= years <= 120
  {
    ParseIntOfNatToString(years);
  }

  // ----------------------------------------------------------------- name

  /** `/^[A-Za-z\s]+$/`. */
  predicate NameChars(s: string)
  {
    |s| > 0 && forall i :: 0 <= i < |s| ==> IsAsciiLetter(s[i]) || IsWhitespace(s[i])
  }

  function NameError(name: string): FieldError
  {
    if name != "" && !NameChars(name) then InvalidName else NoError
  }

  /** The name error is set exactly when the name is not empty and holds a character that is neither a letter nor white space. */
  lemma NameErrorIff(name: string)
    ensures NameError(name) == InvalidName <==>
      exists i :: 0 <= i < |name| && !IsAsciiLetter(name[i]) && !IsWhitespace(name[i])
    ensures NameError(name) != InvalidName ==> NameError(name) == NoError
  {
  }

  // ---------------------------------------------------------------- email

  /** `[^\s@]`. */
  predicate Plain(c: char) { !IsWhitespace(c) && c != '@' }

  /** Every character of `s[lo..hi]` is `[^\s@]`. */
  predicate PlainBetween(s: string, lo: nat, hi: nat)
    requires lo <= hi <= |s|
  {
    forall i :: lo <= i < hi ==> Plain(s[i])
  }

  /** The position of the first `c` in `s`. */
  function IndexOf(s: string, c: char): (r: Option<nat>)
    ensures r.Some? ==> r.value < |s| && s[r.value] == c && c !in s[..r.value]
    ensures r.None? ==> c !in s
  {
    if s == [] then None
    else if s[0] == c then Some(0)
    else match IndexOf(s[1..], c)
      case None => None
      case Some(k) => Some(k + 1)
  }

  /**
    `/^[^\s@]+@[^\s@]+\.[^\s@]+$/.test(s)`, decided by a scan: the first `@`
    has something before it, and what follows it is free of white space and
    `@`, at least three characters long, and has a dot neither first nor last.
  */
  predicate EmailCheck(s: string)
  {
    match IndexOf(s, '@')
    case None => false
    case Some(at) =>
      && at > 0 && PlainBetween(s, 0, at)
      && |s| - at - 1 >= 3 && PlainBetween(s, at + 1, |s|) && '.' in s[at + 2..|s| - 1]
  }

  /** The language of the pattern: `a@b.c` with `a`, `b` and `c` non-empty runs of `[^\s@]`. */
  ghost predicate EmailShaped(s: string)
  {
    exists at, dot :: 0 < at && at + 1 < dot < |s| - 1 && s[at] == '@' && s[dot] == '.'
      && PlainBetween(s, 0, at) && PlainBetween(s, at + 1, dot) && PlainBetween(s, dot + 1, |s|)
  }

  /** What the scan accepts has the pattern's form. */
  lemma EmailCheckSound(s: string)
    requires EmailCheck(s)
    ensures EmailShaped(s)
  {
    var at := IndexOf(s, '@').value;
    var k :| 0 <= k < |s[at + 2..|s| - 1]| && s[at + 2..|s| - 1][k] == '.';
    var dot := at + 2 + k;
    assert s[dot] == '.';
    assert PlainBetween(s, at + 1, dot) && PlainBetween(s, dot + 1, |s|);
  }

  /** An `@` with nothing but `[^\s@]` before it is the first `@`. */
  lemma FirstAt(s: string, at: nat)
    requires at < |s| && s[at] == '@' && PlainBetween(s, 0, at)
    ensures IndexOf(s, '@') == Some(at)
  {
    assert '@' in s;
  }

  /** A string cut as `a@b.c` at the given positions passes the scan. */
  lemma EmailCheckOfParts(s: string, at: nat, dot: nat)
    requires 0 < at && at + 1 < dot < |s| - 1 && s[at] == '@' && s[dot] == '.'
    requires PlainBetween(s, 0, at) && PlainBetween(s, at + 1, dot) && PlainBetween(s, dot + 1, |s|)
    ensures EmailCheck(s)
  {
    FirstAt(s, at);
    assert PlainBetween(s, at + 1, |s|) by {
      assert Plain(s[dot]);
    }
    assert '.' in s[at + 2..|s| - 1] by {
      assert s[at + 2..|s| - 1][dot - at - 2] == '.';
    }
  }

  /** Everything of the pattern's form passes the scan. */
  lemma EmailCheckComplete(s: string)
    requires EmailShaped(s)
    ensures EmailCheck(s)
  {
    var at, dot :| 0 < at && at + 1 < dot < |s| - 1 && s[at] == '@' && s[dot] == '.'
      && PlainBetween(s, 0, at) && PlainBetween(s, at + 1, dot) && PlainBetween(s, dot + 1, |s|);
    EmailCheckOfParts(s, at, dot);
  }

  /** The scan accepts exactly the strings of the pattern's form. */
  lemma EmailCheckIff(s: string)
    ensures EmailCheck(s) <==> EmailShaped(s)
  {
    if EmailCheck(s) {
      EmailCheckSound(s);
    }
    if EmailShaped(s) {
      EmailCheckComplete(s);
    }
  }

  function EmailError(email: string): FieldError
  {
    if email != "" && !EmailCheck(email) then InvalidEmail else NoError
  }

  // ---------------------------------------------------------------- phones

  /** The length check every phone field uses: too short, too long, or fine (empty counts as fine). */
  function LengthCheck(number: string, country: Country): FieldError
  {
    if 0 < |number| < country.length then TooShort(country.length, country.name)
    else if |number| > country.length then TooLong(country.length, country.name)
    else NoError
  }

  /** The length check, then the digits-only check. */
  function DigitsCheck(number: string, country: Country): FieldError
  {
    if LengthCheck(number, country) != NoError then LengthCheck(number, country)
    else if !AllDigits(number) then OnlyNumbers
    else NoError
  }

  /** A number passes the length check exactly when it is empty or has the country's length. */
  lemma LengthCheckIff(number: string, country: Country)
    ensures LengthCheck(number, country) == NoError <==> number == "" || |number| == country.length
    ensures LengthCheck(number, country).TooShort? <==> 0 < |number| < country.length
    ensures LengthCheck(number, country).TooLong? <==> |number| > country.length
  {
  }

  /** The error `handleInputChange` leaves on a phone field after a keystroke. */
  function PhoneInputError(value: string, country: Country): FieldError
  {
    if value == "" || AllDigits(value) then DigitsCheck(value, country) else OnlyNumbers
  }

  /**
    Typing in a phone field: digits short of the country's length ask for that
    many digits, too many are refused, the right number or nothing clears the
    error, and anything else than digits is refused as such.
  */
  lemma PhoneInputErrorCases(value: string, country: Country)
    ensures AllDigits(value) && 0 < |value| < country.length ==>
      PhoneInputError(value, country) == TooShort(country.length, country.name)
    ensures AllDigits(value) && |value| > country.length ==>
      PhoneInputError(value, country) == TooLong(country.length, country.name)
    ensures AllDigits(value) && (value == "" || |value| == country.length) ==>
      PhoneInputError(value, country) == NoError
    ensures !AllDigits(value) ==> PhoneInputError(value, country) == OnlyNumbers
  {
  }

  /** A number passes the digit check exactly when it is empty, or all digits of the country's length. */
  lemma DigitsCheckIff(number: string, country: Country)
    ensures DigitsCheck(number, country) == NoError <==>
      number == "" || (AllDigits(number) && |number| == country.length)
  {
    LengthCheckIff(number, country);
  }

  /**
    The re-check of the own number when its country changes, as written: the
    length only, so a stored number that is not digits can lose its error.
  */
  function PhoneRecheckAsWritten(phone: string, country: Country): FieldError
  {
    if phone != "" then
      if |phone| < country.length then TooShort(country.length, country.name)
      else if |phone| > country.length then TooLong(country.length, country.name)
      else NoError
    else NoError
  }

  /**
    Ten letters typed as the phone number are stored with the digits-only
    error; picking India then clears that error, and the second step's Next
    button is enabled with letters for a phone number. The re-check of the
    emergency line, which also tests for digits, keeps the error.
  */
  lemma LettersPassCountryChange()
    ensures var phone := "abcdefghij";
      var s := IntakeState(FormData("", "", "", "a@b.co", phone, false, [], "", "+91"),
        NoError, NoError, NoError, PhoneRecheckAsWritten(phone, India), NoError, India, India, India, 2, None);
      && !AllDigits(phone)
      && PhoneInputError(phone, India) == OnlyNumbers
      && PhoneRecheckAsWritten(phone, India) == NoError
      && CanProceedAt(s)
      && !PhoneGateHolds(s)
      && DigitsCheck(phone, India) == OnlyNumbers
  {
    var phone := "abcdefghij";
    assert !IsDigit(phone[0]);
  }

  /** `countryCodes.find(c => c.code === code)`. */
  function FindCountry(countries: seq<Country>, code: string): (r: Option<Country>)
    ensures r.Some? ==> r.value.code == code && r.value in countries
    ensures r.None? <==> forall i :: 0 <= i < |countries| ==> countries[i].code != code
  {
    if countries == [] then None
    else if countries[0].code == code then Some(countries[0])
    else FindCountry(countries[1..], code)
  }

  // ------------------------------------------------------------ conditions

  /** The conditions after a checkbox is ticked (`checked`) or cleared. */
  function ToggleCondition(conditions: seq<string>, condition: string, checked: bool): seq<string>
  {
    if checked then conditions + [condition] else Filter(conditions, OtherThan(condition))
  }

  /** Clearing a checkbox removes every copy of the condition and keeps every other one, as many times as before and in order. */
  lemma ClearRemovesAll(conditions: seq<string>, condition: string)
    ensures multiset(ToggleCondition(conditions, condition, false)) == multiset(conditions)[condition := 0]
    ensures KeptInOrder(conditions, OtherThan(condition), ToggleCondition(conditions, condition, false))
  {
    FilterOutCounts(conditions, condition);
    FilterInOrder(conditions, OtherThan(condition));
  }

  /** Ticking then clearing a condition that was not listed gives back the list as it was. */
  lemma TickThenClear(conditions: seq<string>, condition: string)
    requires condition !in conditions
    ensures ToggleCondition(ToggleCondition(conditions, condition, true), condition, false) == conditions
  {
    FilterConcat(conditions, [condition], OtherThan(condition));
    FilterAll(conditions, OtherThan(condition));
    FilterCons(condition, [], OtherThan(condition));
  }

  // ---------------------------------------------------------- submission

  /** `formattedData`: both numbers prefixed with their dialling codes. */
  function Formatted(form: FormData, phoneCountry: Country, emergencyPhoneCountry: Country): (r: FormData)
    ensures |r.phone| == |phoneCountry.code| + |form.phone|
    ensures |r.emergencyContact| == |emergencyPhoneCountry.code| + |form.emergencyContact|
    ensures r.phone[..|phoneCountry.code|] == phoneCountry.code && r.phone[|phoneCountry.code|..] == form.phone
    ensures r.emergencyContact[..|emergencyPhoneCountry.code|] == emergencyPhoneCountry.code
    ensures r.emergencyContact[|emergencyPhoneCountry.code|..] == form.emergencyContact
    ensures r.(phone := form.phone, emergencyContact := form.emergencyContact) == form
  {
    form.(phone := phoneCountry.code + form.phone,
          emergencyContact := emergencyPhoneCountry.code + form.emergencyContact)
  }

  /** The text fields `handleInputChange` stores. */
  datatype TextField = Name | Age | Gender | Email | Phone | EmergencyContact

  function WithText(form: FormData, field: TextField, value: string): FormData
  {
    match field
    case Name => form.(name := value)
    case Age => form.(age := value)
    case Gender => form.(gender := value)
    case Email => form.(email := value)
    case Phone => form.(phone := value)
    case EmergencyContact => form.(emergencyContact := value)
  }

  /** Which number a country picker serves. */
  datatype PhoneLine = OwnPhone | EmergencyPhone

  /** Every piece of the form's state. */
  datatype IntakeState = IntakeState(
    form: FormData, nameError: FieldError, ageError: FieldError, emailError: FieldError,
    phoneError: FieldError, emergencyContactError: FieldError,
    phoneCountry: Country, emergencyPhoneCountry: Country, emergencyCountry: Country,
    currentStep: int, completed: Option<FormData>)

  /** `canProceed` on a state: what the Next button demands at each step. */
  predicate CanProceedAt(s: IntakeState)
  {
    match s.currentStep
    case 1 =>
      s.form.name != "" && s.form.age != "" && s.form.gender != ""
      && s.nameError == NoError && s.ageError == NoError && AgeValid(s.form.age)
    case 2 =>
      s.form.email != "" && |s.form.phone| == s.phoneCountry.length
      && s.emailError == NoError && s.phoneError == NoError
    case 3 =>
      |s.form.emergencyContact| == s.emergencyPhoneCountry.length && s.emergencyContactError == NoError
    case _ => false
  }

  /**
    What the second step's Next button is meant to guarantee about the own
    number: once it is enabled, the number is all digits and of its
    country's length.
  */
  predicate PhoneGateHolds(s: IntakeState)
  {
    s.currentStep == 2 && CanProceedAt(s) ==> AllDigits(s.form.phone) && |s.form.phone| == s.phoneCountry.length
  }

  /** After the own number is typed, Next on the second step is enabled only for digits of the country's length. */
  lemma GateAfterTyping(s: IntakeState, value: string)
    ensures PhoneGateHolds(s.(form := s.form.(phone := value), phoneError := PhoneInputError(value, s.phoneCountry)))
  {
    DigitsCheckIff(value, s.phoneCountry);
  }

  /**
    After the own number's country changes, with the digit re-check, Next on
    the second step is enabled only for digits of the new country's length.
  */
  lemma GateAfterCountryChange(s: IntakeState, country: Country)
    ensures PhoneGateHolds(s.(phoneCountry := country, phoneError := DigitsCheck(s.form.phone, country)))
  {
    DigitsCheckIff(s.form.phone, country);
  }

  // ---------------------------------------------------------------- the form

  /** `AuthPage`'s form. */
  class IntakeForm {
    var form: FormData
    var nameError: FieldError
    var ageError: FieldError
    var emailError: FieldError
    var phoneError: FieldError
    var emergencyContactError: FieldError
    var phoneCountry: Country
    var emergencyPhoneCountry: Country
    /** The `emergencyCountry` state, set only by `handleCountryChange` for the emergency line. */
    var emergencyCountry: Country
    var currentStep: int
    /** The data handed to `onComplete`, once the last step is submitted. */
    var completed: Option<FormData>

    function State(): IntakeState
      reads this
    {
      IntakeState(form, nameError, ageError, emailError, phoneError, emergencyContactError,
        phoneCountry, emergencyPhoneCountry, emergencyCountry, currentStep, completed)
    }

    /** The step counter stays on one of the three steps. */
    ghost predicate Valid()
      reads this
    {
      1 <= currentStep <= TotalSteps
    }

    /** `canProceed()`. */
    predicate CanProceed()
      reads this
    {
      CanProceedAt(State())
    }

    /**
      The first render, from what the account already holds (`saved`; an
      empty emergency code falls back to `'+91'`): no errors, India for every
      number, step 1.
    */
    constructor(saved: FormData)
      ensures Valid()
      ensures State() == IntakeState(
        saved.(emergencyCountry := if saved.emergencyCountry == "" then "+91" else saved.emergencyCountry),
        NoError, NoError, NoError, NoError, NoError, India, India, India, 1, None)
    {
      form := saved.(emergencyCountry := if saved.emergencyCountry == "" then "+91" else saved.emergencyCountry);
      nameError, ageError, emailError, phoneError, emergencyContactError := NoError, NoError, NoError, NoError, NoError;
      phoneCountry, emergencyPhoneCountry, emergencyCountry := India, India, India;
      currentStep := 1;
      completed := None;
    }

    /**
      `handleInputChange(field, value)` for a text field: the value is stored
      (a phone value even when it is not digits), and the field's own check
      sets its error line.
    */
    method ChangeText(field: TextField, value: string)
      requires Valid()
      modifies this
      ensures Valid()
      ensures field == Name ==> State() == old(State()).(form := old(form).(name := value), nameError := NameError(value))
      ensures field == Age ==> State() == old(State()).(form := old(form).(age := value), ageError := AgeError(value))
      ensures field == Gender ==> State() == old(State()).(form := old(form).(gender := value))
      ensures field == Email ==> State() == old(State()).(form := old(form).(email := value), emailError := EmailError(value))
      ensures field == Phone ==>
        State() == old(State()).(form := old(form).(phone := value), phoneError := PhoneInputError(value, old(phoneCountry)))
      ensures field == EmergencyContact ==>
        State() == old(State()).(form := old(form).(emergencyContact := value),
          emergencyContactError := PhoneInputError(value,
            FindCountry(CountryCodes, old(form).emergencyCountry).GetOr(old(emergencyCountry))))
      ensures field == Phone ==> PhoneGateHolds(State())
    {
      if field == Age {
        ageError := AgeError(value);
      }
      if field == Phone || field == EmergencyContact {
        ChangeNumber(field == Phone, value);
        return;
      }
      form := WithText(form, field, value);
      if field == Name {
        nameError := NameError(value);
      }
      if field == Email {
        emailError := EmailError(value);
      }
    }

    /**
      The phone branch of `handleInputChange`: the value is stored first; an
      empty or all-digit value is then checked for length against the line's
      country (for the emergency line, the country whose code is stored, else
      the `emergencyCountry` state), and anything else is refused.
    */
    method ChangeNumber(own: bool, value: string)
      requires Valid()
      modifies this
      ensures Valid()
      ensures own ==> PhoneGateHolds(State())
      ensures own ==>
        State() == old(State()).(form := old(form).(phone := value), phoneError := PhoneInputError(value, old(phoneCountry)))
      ensures !own ==>
        State() == old(State()).(form := old(form).(emergencyContact := value),
          emergencyContactError := PhoneInputError(value,
            FindCountry(CountryCodes, old(form).emergencyCountry).GetOr(old(emergencyCountry))))
    {
      GateAfterTyping(State(), value);
      var emergencyCode := form.emergencyCountry;
      form := if own then form.(phone := value) else form.(emergencyContact := value);
      if value == "" || AllDigits(value) {
        if own {
          phoneError := DigitsCheck(value, phoneCountry);
        } else {
          var current := FindCountry(CountryCodes, emergencyCode).GetOr(emergencyCountry);
          emergencyContactError := DigitsCheck(value, current);
        }
      } else if own {
        phoneError := OnlyNumbers;
      } else {
        emergencyContactError := OnlyNumbers;
      }
    }

    /** `handleInputChange('isPregnant', checked)`. */
    method SetPregnant(checked: bool)
      requires Valid()
      modifies this
      ensures Valid()
      ensures State() == old(State()).(form := old(form).(isPregnant := checked))
    {
      form := form.(isPregnant := checked);
    }

    /**
      `handleCountryChange(country, line)`. For the own number the country is
      replaced and the stored number re-checked; for the emergency line the
      `emergencyCountry` state and the stored code change, and the stored
      number is re-checked. Both re-checks test length and digits (the own
      line's re-check as written tests length only: `PhoneRecheckAsWritten`).
    */
    method ChangeCountry(country: Country, line: PhoneLine)
      requires Valid()
      modifies this
      ensures Valid()
      ensures line == OwnPhone ==>
        State() == old(State()).(phoneCountry := country, phoneError := DigitsCheck(old(form).phone, country))
      ensures line == EmergencyPhone ==>
        State() == old(State()).(emergencyCountry := country, form := old(form).(emergencyCountry := country.code),
          emergencyContactError := DigitsCheck(old(form).emergencyContact, country))
      ensures line == OwnPhone ==> PhoneGateHolds(State())
    {
      GateAfterCountryChange(State(), country);
      if line == OwnPhone {
        phoneCountry := country;
        if form.phone != "" {
          phoneError := DigitsCheck(form.phone, country);
        } else {
          phoneError := NoError;
        }
      } else {
        emergencyCountry := country;
        var prev := form;
        form := prev.(emergencyCountry := country.code);
        if prev.emergencyContact != "" {
          emergencyContactError := DigitsCheck(prev.emergencyContact, country);
        } else {
          emergencyContactError := NoError;
        }
      }
    }

    /**
      A pick in the emergency number's country menu: the menu's country and
      the stored code change; a stored number is re-checked for length, and
      with none stored the error line is left as it was.
    */
    method PickEmergencyCountry(country: Country)
      requires Valid()
      modifies this
      ensures Valid()
      ensures old(form).emergencyContact != "" ==>
        State() == old(State()).(emergencyPhoneCountry := country, form := old(form).(emergencyCountry := country.code),
          emergencyContactError := LengthCheck(old(form).emergencyContact, country))
      ensures old(form).emergencyContact == "" ==>
        State() == old(State()).(emergencyPhoneCountry := country, form := old(form).(emergencyCountry := country.code))
    {
      emergencyPhoneCountry := country;
      var number := form.emergencyContact;
      form := form.(emergencyCountry := country.code);
      if number != "" {
        emergencyContactError := LengthCheck(number, country);
      }
    }

    /**
      Typing in the emergency number box: digits (or nothing) are stored and
      checked against the menu's country; anything else is ignored, leaving
      the number and the error line as they were.
    */
    method EmergencyContactInput(value: string)
      requires Valid()
      modifies this
      ensures Valid()
      ensures AllDigits(value) ==>
        State() == old(State()).(form := old(form).(emergencyContact := value),
          emergencyContactError := LengthCheck(value, old(emergencyPhoneCountry)))
      ensures !AllDigits(value) ==> State() == old(State())
    {
      if value == "" || AllDigits(value) {
        form := form.(emergencyContact := value);
        emergencyContactError := LengthCheck(value, emergencyPhoneCountry);
      }
    }

    /** `handleMedicalConditionChange(condition, checked)`. */
    method ChangeCondition(condition: string, checked: bool)
      requires Valid()
      modifies this
      ensures Valid()
      ensures State() == old(State()).(form := old(form).(
        medicalConditions := ToggleCondition(old(form).medicalConditions, condition, checked)))
    {
      form := form.(medicalConditions := ToggleCondition(form.medicalConditions, condition, checked));
    }

    /**
      `handleSubmit`: before the last step it moves one step on; on the last
      step it hands over the data with both numbers prefixed by their codes.
    */
    method Submit()
      requires Valid()
      modifies this
      ensures Valid()
      ensures old(currentStep) < TotalSteps ==> State() == old(State()).(currentStep := old(currentStep) + 1)
      ensures old(currentStep) == TotalSteps ==>
        State() == old(State()).(completed := Some(Formatted(old(form), old(phoneCountry), old(emergencyPhoneCountry))))
    {
      if currentStep < TotalSteps {
        currentStep := currentStep + 1;
      } else {
        completed := Some(Formatted(form, phoneCountry, emergencyPhoneCountry));
      }
    }

    /** The Previous button: one step back, never before the first. */
    method Previous()
      requires Valid()
      modifies this
      ensures Valid()
      ensures State() == old(State()).(currentStep := if old(currentStep) > 1 then old(currentStep) - 1 else 1)
    {
      currentStep := if currentStep - 1 > 1 then currentStep - 1 else 1;
    }
  }
}
