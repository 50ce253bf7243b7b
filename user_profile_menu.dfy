/** The avatar menu (components/user-profile-menu.tsx): the initials shown in the avatar,
    the role badge, and where the profile and dashboard entries lead. All of it is a
    function of the signed-in user's record. */
module UserProfileMenu {
  import opened Outcomes
  import opened JsText

  const HrProfilePath := "/hr/profile"
  const CandidateProfilePath := "/candidate/profile"
  const HrDashboardPath := "/hr/dashboard"
  const CandidateDashboardPath := "/candidate/dashboard"
  /** The badge texts exactly as the component's source spells them: the UTF-8 bytes of a
      necktie (U+1F454) and of a direct hit (U+1F3AF) read back as Windows-1252 text, so
      four characters stand where one emoji was meant. */
  const HrBadge := "\U{00F0}\U{0178}\U{2018}\U{201D} HR"
  const CandidateBadge := "\U{00F0}\U{0178}\U{017D}\U{00AF} Candidate"
  const UserBadge := "User"

  /** `getInitials(name)`. Without a name: the first letter of the e-mail address, or "U"
      when there is no address. With one: the first letters of the first two pieces
      between spaces, or of the name itself when it has no space. */
  function Initials(name: Option<string>, email: Option<string>): (r: string)
    ensures |r| <= 2
    ensures !TruthyText(name) && !TruthyText(email) ==> r == "U"
    ensures !TruthyText(name) && TruthyText(email) ==> r == [UpperChar(email.value[0])]
    ensures TruthyText(name) && ' ' !in name.value ==> r == [UpperChar(name.value[0])]
  {
    if !TruthyText(name) then
      var first := ToUpper(FirstChar(if email.Some? then email.value else ""));
      if first != "" then first else "U"
    else
      var parts := Split(name.value, ' ');
      if |parts| >= 2 then ToUpper(FirstChar(parts[0]) + FirstChar(parts[1]))
      else ToUpper(FirstChar(name.value))
  }

  /** The first piece of a split starts with the string's first character, unless that
      character is the separator. */
  lemma FirstPieceStart(s: string, sep: char)
    requires s != [] && s[0] != sep
    ensures var parts := Split(s, sep); parts[0] != [] && parts[0][0] == s[0]
  {
    var i := IndexOf(s, sep);
    if i != -1 {
      assert i != 0;
      assert s[..i][0] == s[0];
    }
  }

  /** A first and a last name give the two capital initials. */
  lemma TwoPartInitials(first: string, last: string, email: Option<string>)
    requires first != [] && last != [] && ' ' !in first && last[0] != ' '
    ensures Initials(Some(first + " " + last), email) == [UpperChar(first[0]), UpperChar(last[0])]
  {
    var parts := Split(first + " " + last, ' ');
    SplitFirstPiece(first, ' ', last);
    FirstPieceStart(last, ' ');
    assert parts[0] == first && parts[1] == Split(last, ' ')[0];
    assert FirstChar(parts[0]) + FirstChar(parts[1]) == [first[0], last[0]];
  }

  /** A name that starts with a space and has nothing else gives no initials at all: its
      first two pieces are both empty. */
  lemma BlankNameHasNoInitials(email: Option<string>)
    ensures Initials(Some("  "), email) == ""
  {
    var parts := Split("  ", ' ');
    assert IndexOf("  ", ' ') == 0;
    assert parts[0] == "";
    assert IndexOf(" ", ' ') == 0;
    assert parts[1] == "";
  }

  /** `getRoleBadge(role)`. */
  function RoleBadge(role: Option<string>): (badge: string)
    ensures role == Some("hr") ==> badge == HrBadge
    ensures role == Some("candidate") ==> badge == CandidateBadge
    ensures role != Some("hr") && role != Some("candidate") ==> badge == UserBadge
  {
    if role == Some("hr") then HrBadge
    else if role == Some("candidate") then CandidateBadge
    else UserBadge
  }

  /** The badge under the name (`{user.role && ...}`): shown only for a non-empty role, and
      then "User" exactly when the role is neither "hr" nor "candidate". */
  function ShownBadge(role: Option<string>): (badge: Option<string>)
    ensures badge.Some? <==> TruthyText(role)
    ensures badge == Some(UserBadge) <==> TruthyText(role) && role != Some("hr") && role != Some("candidate")
  {
    if TruthyText(role) then Some(RoleBadge(role)) else None
  }

  /** Where the Profile entry leads. */
  function ProfilePath(role: Option<string>): (path: string)
    ensures path == HrProfilePath <==> role == Some("hr")
    ensures path == CandidateProfilePath <==> role != Some("hr")
  {
    assert HrProfilePath[1] != CandidateProfilePath[1];
    if role == Some("hr") then HrProfilePath else CandidateProfilePath
  }

  /** Where the Dashboard entry leads. */
  function DashboardPath(role: Option<string>): (path: string)
    ensures path == HrDashboardPath <==> role == Some("hr")
    ensures path == CandidateDashboardPath <==> role != Some("hr")
  {
    assert HrDashboardPath[1] != CandidateDashboardPath[1];
    if role == Some("hr") then HrDashboardPath else CandidateDashboardPath
  }

  /** The two entries always lead to the same side of the application. */
  lemma EntriesAgree(role: Option<string>)
    ensures (ProfilePath(role) == HrProfilePath) == (DashboardPath(role) == HrDashboardPath)
  {
  }
}
