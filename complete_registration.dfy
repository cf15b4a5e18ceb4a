/** The registration-completion page (`pages/CompleteRegistration.tsx`):
    the form seeded from the signed-in user, the required-field check, and
    the mutation that sends the form and merges the returned user. The
    backend call is an oracle that yields the updated user or nothing. */
module CompleteRegistration {
  import opened Common
  import opened ClientTypes
  import opened AuthContext
  import opened ProtectedRoute

  /** `CompleteRegistrationDto` as the form holds it. */
  datatype RegistrationForm = RegistrationForm(
    firstName: string,
    lastName: string,
    phone: string,
    city: string,
    category: Option<Num>,
    sidePreference: Option<Side>)

  const DefaultCategory := 8

  /** The form's first state: each text field from the user or "", the
      category from the user when truthy and 8 otherwise, the side as the
      user has it. */
  function InitialForm(user: Option<User>): (f: RegistrationForm)
    ensures user.None? ==> f == RegistrationForm("", "", "", "", Some(Finite(DefaultCategory)), None)
    ensures user.Some? ==>
      && f.firstName == user.value.firstName && f.lastName == user.value.lastName
      && f.phone == OrElse(user.value.phone, "") && f.city == OrElse(user.value.city, "")
      && f.sidePreference == user.value.sidePreference
    ensures f.category.Some?
    ensures user.Some? && NumTruthy(user.value.category) ==> f.category == user.value.category
  {
    match user
    case None => RegistrationForm("", "", "", "", Some(Finite(DefaultCategory)), None)
    case Some(u) =>
      RegistrationForm(u.firstName, u.lastName, OrElse(u.phone, ""), OrElse(u.city, ""),
                       if NumTruthy(u.category) then u.category else Some(Finite(DefaultCategory)),
                       u.sidePreference)
  }

  /** The required-field check of `handleSubmit`. */
  predicate SubmitAllowed(f: RegistrationForm) {
    f.firstName != "" && f.lastName != "" && f.phone != "" && f.city != "" && f.category.Some?
  }

  /** The form as a patch of the user: every one of its fields present. */
  function FormPatch(f: RegistrationForm): (p: UserPatch)
    ensures p.id.None? && p.email.None? && p.isUserVerified.None? && p.profilePictureUrl.None?
  {
    UserPatch(None, None, Some(f.firstName), Some(f.lastName), Some(Some(f.phone)), None,
              Some(f.category), Some(Some(f.city)), Some(f.sidePreference), None)
  }

  /** A form that passes the check completes the registration of any user it
      is applied to. */
  lemma AcceptedFormCompletes(u: User, f: RegistrationForm)
    requires SubmitAllowed(f)
    ensures !RegistrationIncomplete(Merge(u, FormPatch(f)))
    ensures !NeedsRegistrationOf(Some(Merge(u, FormPatch(f))))
  {
    CompletingPatch(u, FormPatch(f));
  }

  /** A user whose registration is complete and who has both names finds a
      form that passes the check as it is. */
  lemma RegisteredUserMaySubmit(u: User)
    requires !RegistrationIncomplete(u) && u.firstName != "" && u.lastName != ""
    ensures SubmitAllowed(InitialForm(Some(u)))
  {
  }

  datatype TextField = FirstName | LastName | Phone | City

  /** Where `handleSubmit` ends: its alert, the mutation's error, or the
      navigation of `onSuccess`. */
  datatype Outcome = Blocked | Failed | Navigated(to: string)

  class RegistrationPage {
    var form: RegistrationForm

    constructor (user: Option<User>)
      ensures form == InitialForm(user)
    {
      form := InitialForm(user);
    }

    /** The text inputs' `onChange`. */
    method SetText(field: TextField, value: string)
      modifies this
      ensures form == match field
        case FirstName => old(form).(firstName := value)
        case LastName => old(form).(lastName := value)
        case Phone => old(form).(phone := value)
        case City => old(form).(city := value)
    {
      match field
      case FirstName => form := form.(firstName := value);
      case LastName => form := form.(lastName := value);
      case Phone => form := form.(phone := value);
      case City => form := form.(city := value);
    }

    /** The category input's `onChange`: `parseInt` of the text, NaN
        included. */
    method SetCategory(text: string)
      modifies this
      ensures form == old(form).(category := Some(ParseNum(text)))
    {
      form := form.(category := Some(ParseNum(text)));
    }

    /** The side radio buttons' `onChange`. */
    method SetSide(side: Side)
      modifies this
      ensures form == old(form).(sidePreference := Some(side))
    {
      form := form.(sidePreference := Some(side));
    }

    /** `handleSubmit`, the mutation and its `onSuccess`: the check, then the
        token and the user are needed, then the returned user replaces the
        signed-in one and the page goes to /app. */
    method HandleSubmit(auth: AuthState, complete: (string, RegistrationForm, string) -> Option<User>)
      returns (r: Outcome)
      requires auth.Persisted()
      modifies auth
      ensures auth.Persisted()
      ensures !SubmitAllowed(form) ==> r == Blocked
      ensures SubmitAllowed(form) && (!HasText(old(auth.storage), TokenKey) || old(auth.user).None?) ==> r == Failed
      ensures !r.Navigated? ==> auth.user == old(auth.user) && auth.storage == old(auth.storage)
      ensures r.Navigated? <==>
        && SubmitAllowed(form) && HasText(old(auth.storage), TokenKey) && old(auth.user).Some?
        && complete(old(auth.user).value.id, form, old(auth.storage)[TokenKey].text).Some?
      ensures r.Navigated? ==>
        var updated := complete(old(auth.user).value.id, form, old(auth.storage)[TokenKey].text).value;
        && auth.user == Some(updated)
        && auth.storage == old(auth.storage)[UserKey := StoredUser(updated)]
        && r.to == AppPath
      ensures auth.isLoading == old(auth.isLoading)
    {
      if !SubmitAllowed(form) {
        return Blocked;
      }
      if !HasText(auth.storage, TokenKey) || auth.user.None? {
        return Failed;
      }
      var updated := complete(auth.user.value.id, form, auth.storage[TokenKey].text);
      if updated.None? {
        return Failed;
      }
      MergeWhole(auth.user.value, updated.value);
      auth.UpdateUser(PatchOfUser(updated.value));
      r := Navigated(AppPath);
    }
  }
}
