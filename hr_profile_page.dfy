/** The HR user's profile page (app/hr/profile/page.tsx): a form loaded from the profile
    row and saved back, three counters about the user's tests, and a completion gauge over
    four of the form fields.

    The backend's answers are inputs of the handler that awaits them; the writes, alerts
    and redirects are kept as fields. */
module HrProfilePage {
  import opened Outcomes
  import opened JsText
  import opened JsNumber
  import opened Counting

  /** A row of the `profiles` table as the page reads it; `None` is SQL `null`. */
  datatype StoredProfile = StoredProfile(
    role: Option<string>,
    fullName: Option<string>,
    phone: Option<string>,
    company: Option<string>,
    industry: Option<string>,
    title: Option<string>,
    location: Option<string>,
    bio: Option<string>,
    linkedinUrl: Option<string>)

  /** The editable fields; the save handler writes exactly these (and the update time). */
  datatype Form = Form(
    fullName: string,
    phone: string,
    company: string,
    industry: string,
    title: string,
    location: string,
    bio: string,
    linkedinUrl: string)

  datatype Stats = Stats(testsCreated: int, totalCandidates: nat, activeTests: int)

  const LoginPath := "/login"
  const CandidateProfilePath := "/candidate/profile"
  const NotAuthenticated := "User not authenticated"
  const UpdateFailedPrefix := "Failed to update profile: "
  const UnknownError := "Unknown error"

  /** The form filled from a stored profile: missing fields become "". */
  function FormOf(p: StoredProfile): Form {
    Form(TextOr(p.fullName, ""), TextOr(p.phone, ""), TextOr(p.company, ""),
         TextOr(p.industry, ""), TextOr(p.title, ""), TextOr(p.location, ""),
         TextOr(p.bio, ""), TextOr(p.linkedinUrl, ""))
  }

  /** A stored text column survives loading unchanged; `null` becomes "". */
  lemma LoadKeepsStoredText(p: StoredProfile)
    ensures var f := FormOf(p);
      && (p.fullName.Some? ==> f.fullName == p.fullName.value)
      && (p.company.Some? ==> f.company == p.company.value)
      && (p.industry.Some? ==> f.industry == p.industry.value)
      && (p.phone.Some? ==> f.phone == p.phone.value)
      && (p.fullName.None? ==> f.fullName == "") && (p.company.None? ==> f.company == "")
  {
  }

  /** A field counts as filled when it is not blank once trimmed (`f && f.trim()`). */
  predicate Filled(field: string) {
    Trim(field) != ""
  }

  /** How many of the fields are filled. */
  function FilledCount(fields: seq<string>): (n: nat)
    ensures n <= |fields|
  {
    if fields == [] then 0
    else (if Filled(fields[0]) then 1 else 0) + FilledCount(fields[1..])
  }

  /** All the fields count exactly when every one of them is filled. */
  lemma {:induction false} AllFilledIffFull(fields: seq<string>)
    ensures FilledCount(fields) == |fields| <==> forall i :: 0 <= i < |fields| ==> Filled(fields[i])
  {
    if fields != [] {
      AllFilledIffFull(fields[1..]);
      if forall i :: 0 <= i < |fields| ==> Filled(fields[i]) {
        forall i | 0 <= i < |fields| - 1 ensures Filled(fields[1..][i]) {
          assert fields[1..][i] == fields[i + 1];
        }
      }
      if FilledCount(fields) == |fields| {
        assert Filled(fields[0]) && FilledCount(fields[1..]) == |fields| - 1;
        forall i | 0 <= i < |fields| ensures Filled(fields[i]) {
          if i > 0 {
            assert fields[i] == fields[1..][i - 1];
          }
        }
      }
    }
  }

  /** None of the fields counts exactly when every one of them is blank. */
  lemma {:induction false} NoneFilledIffZero(fields: seq<string>)
    ensures FilledCount(fields) == 0 <==> forall i :: 0 <= i < |fields| ==> !Filled(fields[i])
  {
    if fields != [] {
      NoneFilledIffZero(fields[1..]);
      if forall i :: 0 <= i < |fields| ==> !Filled(fields[i]) {
        forall i | 0 <= i < |fields| - 1 ensures !Filled(fields[1..][i]) {
          assert fields[1..][i] == fields[i + 1];
        }
      }
      if FilledCount(fields) == 0 {
        assert !Filled(fields[0]) && FilledCount(fields[1..]) == 0;
        forall i | 0 <= i < |fields| ensures !Filled(fields[i]) {
          if i > 0 {
            assert fields[i] == fields[1..][i - 1];
          }
        }
      }
    }
  }

  /** The four fields the gauge looks at. */
  function GaugeFields(f: Form): seq<string> {
    [f.fullName, f.phone, f.company, f.industry]
  }

  /** `Math.round` of a number that is already an integer gives it back. */
  lemma RoundOfInteger(n: int)
    ensures Round(Finite(n as real)) == Finite(n as real)
  {
    var r := Round(Finite(n as real));
    assert r.value.Floor == n;
  }

  /** A quarter of a hundred per filled field, with no rounding needed. */
  lemma QuarterSteps(completed: nat)
    ensures Round(Scale(Divide(completed, 4), 100.0)) == Finite((25 * completed) as real)
  {
    var x := completed as real / 4.0;
    assert Divide(completed, 4) == Finite(x);
    assert x * 100.0 == (25 * completed) as real;
    RoundOfInteger(25 * completed);
  }

  /** `Math.round((completed / 4) * 100)`: a quarter of the gauge for each filled field.
      The divisions involved (by 4, then times 100) are exact in binary floating point
      too, so the value is one of 0, 25, 50, 75 and 100. */
  function CompletionPercentage(f: Form): (p: Number)
    ensures p == Finite((25 * FilledCount(GaugeFields(f))) as real)
    ensures p.Finite? && (p.value == 0.0 || p.value == 25.0 || p.value == 50.0 || p.value == 75.0 || p.value == 100.0)
  {
    var fields := GaugeFields(f);
    var completed := FilledCount(fields);
    assert |fields| == 4;
    QuarterSteps(completed);
    QuarterValues(completed);
    Round(Scale(Divide(completed, |fields|), 100.0))
  }

  /** A quarter of a hundred for each of at most four fields. */
  lemma QuarterValues(completed: nat)
    requires completed <= 4
    ensures var v := (25 * completed) as real;
      v == 0.0 || v == 25.0 || v == 50.0 || v == 75.0 || v == 100.0
  {
  }

  /** The "complete your profile" hint: shown while the gauge is below 100. */
  predicate HintShown(f: Form) {
    var p := CompletionPercentage(f);
    p.Finite? && p.value < 100.0
  }

  /** The hint is shown exactly while fewer than four gauge fields are filled. */
  lemma HintWhileUnfilled(f: Form)
    ensures HintShown(f) <==> FilledCount(GaugeFields(f)) < 4
  {
  }

  lemma AllFourFilled(f: Form)
    ensures FilledCount(GaugeFields(f)) == 4 <==>
      (Filled(f.fullName) && Filled(f.phone) && Filled(f.company) && Filled(f.industry))
  {
    FilledCountCons(f.industry, []);
    FilledCountCons(f.company, [f.industry]);
    FilledCountCons(f.phone, [f.company, f.industry]);
    FilledCountCons(f.fullName, [f.phone, f.company, f.industry]);
  }

  /** One field in front adds one to the count when it is filled. */
  lemma FilledCountCons(field: string, rest: seq<string>)
    ensures FilledCount([field] + rest) == (if Filled(field) then 1 else 0) + FilledCount(rest)
  {
    assert ([field] + rest)[1..] == rest;
  }

  /** The hint is shown exactly when one of the four gauge fields is blank. */
  lemma HintIffBlankField(f: Form)
    ensures HintShown(f) <==>
      !Filled(f.fullName) || !Filled(f.phone) || !Filled(f.company) || !Filled(f.industry)
  {
    HintWhileUnfilled(f);
    AllFourFilled(f);
  }

  /** The number of distinct candidates among the assignments of the user's tests; no
      assignments are asked for when the user has no test. A missing list counts as empty. */
  function UniqueCandidates(testIds: Option<seq<string>>, assignments: Option<seq<string>>)
    : (n: nat)
    ensures |SeqOr(testIds, [])| == 0 ==> n == 0
    ensures |SeqOr(testIds, [])| > 0 ==> n <= |SeqOr(assignments, [])|
    ensures |SeqOr(testIds, [])| > 0 ==>
      (n == |SeqOr(assignments, [])| <==> NoDup(SeqOr(assignments, [])))
    ensures |SeqOr(testIds, [])| > 0 ==> n == |Elements(SeqOr(assignments, []))|
    ensures |SeqOr(testIds, [])| > 0 ==> n == |Distinct(SeqOr(assignments, []))|
  {
    if |SeqOr(testIds, [])| > 0 then
      var candidates := SeqOr(assignments, []);
      ElementsSize(candidates);
      ElementsSize(Distinct(candidates));
      |Elements(candidates)|
    else 0
  }

  /** Two assignments of the same candidate count once. */
  lemma RepeatCandidateCountsOnce(tests: seq<string>, a: string, b: string)
    requires |tests| > 0 && a != b
    ensures UniqueCandidates(Some(tests), Some([a, b, a])) == 2
  {
    assert Elements([a, b, a]) == {a, b};
  }

  /** The counters shown: null counts show as 0. */
  function StatsOf(testsCount: Option<int>, activeCount: Option<int>,
                   testIds: Option<seq<string>>, assignments: Option<seq<string>>): (s: Stats)
    ensures testsCount.None? ==> s.testsCreated == 0
    ensures activeCount.None? ==> s.activeTests == 0
    ensures testsCount.Some? ==> s.testsCreated == testsCount.value
    ensures activeCount.Some? ==> s.activeTests == activeCount.value
    ensures s.totalCandidates == UniqueCandidates(testIds, assignments)
  {
    Stats(IntOr(testsCount, 0), UniqueCandidates(testIds, assignments), IntOr(activeCount, 0))
  }

  class HrProfile {
    var user: Option<string>
    var profile: Option<StoredProfile>
    var loading: bool
    var editing: bool
    var saving: bool
    var stats: Stats
    /** The form fields, each of which the page keeps as its own piece of state. */
    var form: Form
    var redirect: Option<string>
    var alerts: seq<string>
    /** The profile-row updates written by the save handler, in order. */
    var updates: seq<Form>

    constructor ()
      ensures user.None? && profile.None? && loading && !editing && !saving
      ensures stats == Stats(0, 0, 0) && form == Form("", "", "", "", "", "", "", "")
      ensures redirect.None? && alerts == [] && updates == []
    {
      user, profile := None, None;
      loading, editing, saving := true, false, false;
      stats := Stats(0, 0, 0);
      form := Form("", "", "", "", "", "", "", "");
      redirect, alerts, updates := None, [], [];
    }

    /** `loadProfile`. Without a signed-in user the page goes to the login page; when the
        profile query fails nothing is loaded; a profile that is not an HR user's sends the
        page to the candidate profile. Otherwise the form is filled from the row. Loading
        ends on every path. */
    method LoadProfile(signedIn: Option<string>, row: Option<StoredProfile>)
      modifies this`user, this`profile, this`loading, this`redirect, this`form
      ensures !loading
      ensures signedIn.None? ==> redirect == Some(LoginPath)
      ensures (signedIn.Some? && row.Some? && row.value.role != Some("hr")) ==>
        redirect == Some(CandidateProfilePath)
      ensures (signedIn.None? || row.None? || row.value.role != Some("hr")) ==>
        user == old(user) && profile == old(profile) && form == old(form)
      ensures (signedIn.Some? && row.None?) ==> redirect == old(redirect)
      ensures (signedIn.Some? && row.Some? && row.value.role == Some("hr")) ==>
        && user == signedIn && profile == row && form == FormOf(row.value)
        && redirect == old(redirect)
    {
      if signedIn.None? {
        redirect := Some(LoginPath);
      } else if row.Some? {
        if row.value.role != Some("hr") {
          redirect := Some(CandidateProfilePath);
        } else {
          user := signedIn;
          profile := row;
          form := FormOf(row.value);
        }
      }
      loading := false;
    }

    /** `loadStats`: without a signed-in user nothing changes; otherwise the three
        counters are replaced. */
    method LoadStats(signedIn: Option<string>, testsCount: Option<int>, activeCount: Option<int>,
                     testIds: Option<seq<string>>, assignments: Option<seq<string>>)
      modifies this`stats
      ensures signedIn.None? ==> stats == old(stats)
      ensures signedIn.Some? ==> stats == StatsOf(testsCount, activeCount, testIds, assignments)
    {
      if signedIn.Some? {
        stats := StatsOf(testsCount, activeCount, testIds, assignments);
      }
    }

    /** `handleSaveProfile`. Without a user only an alert is shown. Otherwise the form is
        written to the profile row; on success editing ends, on failure an alert gives the
        error's message (or "Unknown error" for a thrown value that is not an `Error`).
        `failure` is `None` when the update succeeds. The reload that follows a success is
        `LoadProfile`. */
    method HandleSaveProfile(failure: Option<Option<string>>)
      modifies this`saving, this`editing, this`alerts, this`updates
      ensures user.None? ==>
        alerts == old(alerts) + [NotAuthenticated] && updates == old(updates)
        && saving == old(saving) && editing == old(editing)
      ensures user.Some? && failure.None? ==>
        updates == old(updates) + [form] && alerts == old(alerts) && !editing && !saving
      ensures user.Some? && failure.Some? ==>
        updates == old(updates) && editing == old(editing) && !saving
        && alerts == old(alerts) + [UpdateFailedPrefix + (if failure.value.Some? then failure.value.value else UnknownError)]
    {
      if user.None? {
        alerts := alerts + [NotAuthenticated];
        return;
      }
      saving := true;
      if failure.None? {
        updates := updates + [form];
        editing := false;
      } else {
        var message := if failure.value.Some? then failure.value.value else UnknownError;
        alerts := alerts + [UpdateFailedPrefix + message];
      }
      saving := false;
    }

    /** Typing into the form. */
    method EditForm(f: Form)
      modifies this`form
      ensures form == f
    {
      form := f;
    }
  }
}
