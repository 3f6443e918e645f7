/** The change-password form's submit check over its three fields. The form
    only reports the outcome; no password is stored or compared with a
    stored one. */
module Password {

  datatype Outcome = AllFieldsRequired | Mismatch | Changed

  /** The message the form shows for each outcome. */
  function Message(o: Outcome): string
  {
    match o
    case AllFieldsRequired => "All fields are required."
    case Mismatch => "New password and confirm password do not match."
    case Changed => "Password changed successfully!"
  }

  /** handleSubmit: a field counts as missing when it is the empty string
      (the only falsy string); a field of spaces is present. */
  function Validate(oldPass: string, newPass: string, confirmPass: string): (r: Outcome)
    ensures r == AllFieldsRequired <==> oldPass == [] || newPass == [] || confirmPass == []
    ensures r == Mismatch <==> oldPass != [] && newPass != [] && confirmPass != [] && newPass != confirmPass
    ensures r == Changed <==> oldPass != [] && newPass != [] && newPass == confirmPass
  {
    if oldPass == "" || newPass == "" || confirmPass == "" then AllFieldsRequired
    else if newPass != confirmPass then Mismatch
    else Changed
  }

  /** A missing field is reported even when the other two also disagree. */
  lemma RequiredTakesPrecedence(oldPass: string, newPass: string, confirmPass: string)
    requires newPass != confirmPass && (oldPass == [] || newPass == [] || confirmPass == [])
    ensures Validate(oldPass, newPass, confirmPass) == AllFieldsRequired
  {
  }

  /** The old password matters only through being empty or not: any two
      non-empty old passwords give the same outcome, including the new
      password itself. */
  lemma OldPasswordOnlyPresence(old1: string, old2: string, newPass: string, confirmPass: string)
    requires (old1 == []) == (old2 == [])
    ensures Validate(old1, newPass, confirmPass) == Validate(old2, newPass, confirmPass)
  {
  }

  /** Reusing the old password as the new one is accepted. */
  lemma SamePasswordAccepted(p: string)
    requires p != []
    ensures Validate(p, p, p) == Changed
  {
  }

  /** The three messages are distinct, so the user can tell the outcomes apart. */
  lemma MessagesDistinct(a: Outcome, b: Outcome)
    requires a != b
    ensures Message(a) != Message(b)
  {
    assert |Message(AllFieldsRequired)| == 24;
    assert |Message(Mismatch)| == 47;
    assert |Message(Changed)| == 30;
  }
}
