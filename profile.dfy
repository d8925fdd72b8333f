/**
  The part of the signed-in user's profile that the dashboard panels read: the
  pregnancy flag and the list of medical conditions ticked on the intake form.
  The panels never change it.
*/
module Profile {

  datatype UserProfile = UserProfile(isPregnant: bool, medicalConditions: seq<string>)
}
