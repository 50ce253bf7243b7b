/** Shared authentication helpers (lib/auth-utils.ts): the signed-in user's profile, its
    role, and the dashboard each role lands on.

    The signed-in user and the `profiles` lookup are inputs: `signedIn` is the user id the
    authentication service reports, `lookup` what the profile query returns for an id
    (`None` for no row, or for a failed query, whose error the helper ignores). */
module AuthUtils {
  import opened Outcomes
  import UserProfileMenu
  import SignupPage

  datatype Profile = Profile(id: string, role: Option<string>)

  const HrDashboardPath := "/hr/dashboard"
  const CandidateDashboardPath := "/candidate/dashboard"
  const FallbackDashboardPath := "/dashboard"

  /** `getUserProfile()`: nothing without a signed-in user, otherwise the stored row. */
  function UserProfile(signedIn: Option<string>, lookup: string -> Option<Profile>)
    : (p: Option<Profile>)
    ensures signedIn.None? ==> p.None?
    ensures signedIn.Some? ==> p == lookup(signedIn.value)
  {
    if signedIn.None? then None else lookup(signedIn.value)
  }

  /** `getUserRole()`: the profile's role, or nothing when there is no profile or its role
      is empty or missing. */
  function UserRole(signedIn: Option<string>, lookup: string -> Option<Profile>)
    : (role: Option<string>)
    ensures role.Some? ==> role.value != ""
    ensures role.Some? <==>
      UserProfile(signedIn, lookup).Some? && TruthyText(UserProfile(signedIn, lookup).value.role)
    ensures role.Some? ==> role == UserProfile(signedIn, lookup).value.role
  {
    var p := UserProfile(signedIn, lookup);
    if p.Some? && TruthyText(p.value.role) then p.value.role else None
  }

  /** Nobody signed in has no role. */
  lemma SignedOutHasNoRole(lookup: string -> Option<Profile>)
    ensures UserRole(None, lookup).None?
  {
  }

  /** `getDashboardPath(role)`. */
  function DashboardPath(role: Option<string>): (path: string)
    ensures role == Some("hr") ==> path == HrDashboardPath
    ensures role == Some("candidate") ==> path == CandidateDashboardPath
    ensures role != Some("hr") && role != Some("candidate") ==> path == FallbackDashboardPath
  {
    if role == Some("hr") then HrDashboardPath
    else if role == Some("candidate") then CandidateDashboardPath
    else FallbackDashboardPath
  }

  /** The three destinations are distinct, so the dashboard path tells the role apart. */
  lemma DashboardPathDecodes(role: Option<string>)
    ensures DashboardPath(role) == HrDashboardPath <==> role == Some("hr")
    ensures DashboardPath(role) == CandidateDashboardPath <==> role == Some("candidate")
  {
    assert HrDashboardPath[1] != CandidateDashboardPath[1];
    assert |FallbackDashboardPath| != |HrDashboardPath|;
    assert |FallbackDashboardPath| != |CandidateDashboardPath|;
  }

  /** For the two real roles, the helper, the avatar menu and the sign-up redirect agree. */
  lemma DashboardsAgree(role: SignupPage.Role)
    ensures var name := if role.Hr? then "hr" else "candidate";
      && DashboardPath(Some(name)) == UserProfileMenu.DashboardPath(Some(name))
      && DashboardPath(Some(name)) == SignupPage.DashboardFor(role)
  {
  }

  /** For any other role, or none, they part: the helper sends the user to the generic
      dashboard while the avatar menu sends them to the candidate's. */
  lemma DashboardsDisagreeOtherwise(role: Option<string>)
    requires role != Some("hr") && role != Some("candidate")
    ensures DashboardPath(role) == FallbackDashboardPath
    ensures UserProfileMenu.DashboardPath(role) == UserProfileMenu.CandidateDashboardPath
    ensures DashboardPath(role) != UserProfileMenu.DashboardPath(role)
  {
    assert |FallbackDashboardPath| != |UserProfileMenu.CandidateDashboardPath|;
  }
}
