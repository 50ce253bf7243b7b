/** The sign-up page (app/signup/page.tsx): a two-step form whose handlers update the
    page's state fields. Step 1 picks a role, step 2 takes the details; submitting
    validates locally, then asks the authentication service to create the account,
    records the profile and redirects to the role's dashboard.

    The answer of the authentication service and the success of the profile insert are
    inputs of the submit handler; the requests made and the profile rows written are
    kept as fields. */
module SignupPage {
  import opened Outcomes
  import opened JsText

  datatype Role = Hr | Candidate

  /** What the authentication service answers to a sign-up: an error (possibly without a
      message), or success with or without a user record. */
  datatype SignUpOutcome = SignUpError(message: Option<string>) | SignedUp(userId: Option<string>)

  datatype SignUpRequest = SignUpRequest(email: string, password: string, fullName: string, role: Role)

  datatype ProfileRow = ProfileRow(id: string, fullName: string, email: string, role: Role)

  const RoleRequiredToContinue := "Please select a role to continue"
  const RoleRequired := "Please select a role"
  const PasswordsDiffer := "Passwords do not match"
  const PasswordTooShort := "Password must be at least 6 characters"
  const SignUpFailed := "Failed to create account"

  /** The local checks of the submit handler, in order: a role is chosen, the two
      passwords agree, the password is at least 6 long, in the UTF-16 code units of
      JavaScript's `length`. The result is the message of the first check that fails. */
  function Validation(role: Option<Role>, password: string, confirmPassword: string)
    : (r: Option<string>)
    ensures role.None? ==> r == Some(RoleRequired)
    ensures role.Some? && password != confirmPassword ==> r == Some(PasswordsDiffer)
    ensures (role.Some? && password == confirmPassword && Utf16Length(password) < 6) ==> r == Some(PasswordTooShort)
    ensures r.None? <==> role.Some? && password == confirmPassword && Utf16Length(password) >= 6
  {
    if role.None? then Some(RoleRequired)
    else if password != confirmPassword then Some(PasswordsDiffer)
    else if Utf16Length(password) < 6 then Some(PasswordTooShort)
    else None
  }

  /** A matching password of six characters of the Basic Multilingual Plane passes, and one
      of five does not. */
  lemma SixCharactersSuffice(role: Role, password: string)
    requires forall i :: 0 <= i < |password| ==> password[i] as int <= 0xFFFF
    ensures |password| == 6 ==> Validation(Some(role), password, password).None?
    ensures |password| == 5 ==> Validation(Some(role), password, password) == Some(PasswordTooShort)
  {
    Utf16LengthOfBmp(password);
  }

  /** Three characters beyond the Basic Multilingual Plane (emoji, say) are six code units
      long, so a password of three of them passes the length check. */
  lemma ThreeAstralCharactersSuffice(role: Role, password: string)
    requires |password| == 3 && forall i :: 0 <= i < |password| ==> password[i] as int > 0xFFFF
    ensures Validation(Some(role), password, password).None?
  {
    Utf16LengthOfAstral(password);
  }

  /** The dashboard a new account is sent to. */
  function DashboardFor(role: Role): (path: string)
    ensures path == "/hr/dashboard" <==> role.Hr?
    ensures path == "/candidate/dashboard" <==> role.Candidate?
  {
    var hr, candidate := "/hr/dashboard", "/candidate/dashboard";
    assert hr[1] != candidate[1];
    if role.Hr? then hr else candidate
  }

  class SignupForm {
    var step: int
    var role: Option<Role>
    var fullName: string
    var email: string
    var password: string
    var confirmPassword: string
    var isLoading: bool
    var error: string
    /** The sign-up requests sent to the authentication service, in order. */
    var signUpRequests: seq<SignUpRequest>
    /** The profile rows written, in order. */
    var profiles: seq<ProfileRow>
    /** Where the router was sent, if anywhere. */
    var redirect: Option<string>

    predicate Valid()
      reads this
    {
      step == 1 || step == 2
    }

    constructor ()
      ensures Valid() && step == 1 && role.None?
      ensures fullName == "" && email == "" && password == "" && confirmPassword == ""
      ensures !isLoading && error == ""
      ensures signUpRequests == [] && profiles == [] && redirect.None?
    {
      step, role := 1, None;
      fullName, email, password, confirmPassword := "", "", "", "";
      isLoading, error := false, "";
      signUpRequests, profiles, redirect := [], [], None;
    }

    /** Clicking one of the two role cards. */
    method SelectRole(r: Role)
      requires Valid()
      modifies this`role
      ensures Valid() && role == Some(r)
    {
      role := Some(r);
    }

    /** Typing into the detail fields. */
    method EditDetails(newFullName: string, newEmail: string, newPassword: string,
                       newConfirmPassword: string)
      requires Valid()
      modifies this`fullName, this`email, this`password, this`confirmPassword
      ensures Valid()
      ensures fullName == newFullName && email == newEmail
      ensures password == newPassword && confirmPassword == newConfirmPassword
    {
      fullName, email, password, confirmPassword := newFullName, newEmail, newPassword,
                                                     newConfirmPassword;
    }

    /** `handleNext`: with a role, go to step 2 and clear the error; without one, stay
      on the same step and ask for a role. */
    method HandleNext()
      requires Valid()
      modifies this`step, this`error
      ensures Valid()
      ensures role.Some? ==> step == 2 && error == ""
      ensures role.None? ==> step == old(step) && error == RoleRequiredToContinue
    {
      if role.Some? {
        step := 2;
        error := "";
      } else {
        error := RoleRequiredToContinue;
      }
    }

    /** `handleBack`: back to step 1 with the error cleared; the role is kept. */
    method HandleBack()
      requires Valid()
      modifies this`step, this`error
      ensures Valid() && step == 1 && error == ""
    {
      step := 1;
      error := "";
    }

    /** `handleSignup`. A failed local check shows its message and sends nothing. Otherwise
        one sign-up request is sent; an error shows its message (or a default one); a
        success writes the profile row when a user record came back and the insert works,
        and redirects to the role's dashboard whether or not the insert worked. The page
        is no longer loading at the end of every path. */
    method HandleSignup(outcome: SignUpOutcome, profileInsertFails: bool)
      requires Valid()
      modifies this`isLoading, this`error, this`signUpRequests, this`profiles, this`redirect
      ensures Valid() && !isLoading
      ensures Validation(role, password, confirmPassword).Some? ==>
        && error == Validation(role, password, confirmPassword).value
        && signUpRequests == old(signUpRequests) && profiles == old(profiles)
        && redirect == old(redirect)
      ensures Validation(role, password, confirmPassword).None? ==>
        && signUpRequests == old(signUpRequests) + [SignUpRequest(email, password, fullName, role.value)]
        && (outcome.SignUpError? ==>
              error == TextOr(outcome.message, SignUpFailed)
              && profiles == old(profiles) && redirect == old(redirect))
        && (outcome.SignedUp? ==>
              && error == ""
              && redirect == Some(DashboardFor(role.value))
              && profiles == old(profiles) +
                   (if outcome.userId.Some? && !profileInsertFails
                    then [ProfileRow(outcome.userId.value, fullName, email, role.value)] else []))
    {
      isLoading := true;
      error := "";
      var invalid := Validation(role, password, confirmPassword);
      if invalid.Some? {
        error := invalid.value;
        isLoading := false;
        return;
      }
      signUpRequests := signUpRequests + [SignUpRequest(email, password, fullName, role.value)];
      match outcome {
        case SignUpError(message) =>
          error := TextOr(message, SignUpFailed);
        case SignedUp(userId) =>
          if userId.Some? && !profileInsertFails {
            profiles := profiles + [ProfileRow(userId.value, fullName, email, role.value)];
          }
          redirect := Some(DashboardFor(role.value));
      }
      isLoading := false;
    }
  }
}
