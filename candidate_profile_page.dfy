/** The candidate's profile page (app/candidate/profile/page.tsx): a form loaded from the
    candidate's profile row, edited in place (including a list of skills), saved back, and
    a CV file uploaded to and downloaded from storage.

    Every backend answer (the signed-in user, the profile row, whether a write or an
    upload fails, the current time) is an input of the handler that awaits it; the writes
    the page makes, the alerts it shows and where it redirects are kept as fields. */
module CandidateProfilePage {
  import opened Outcomes
  import opened JsText
  import opened JsNumber
  import opened Counting

  /** A row of the `profiles` table as the page reads it; `None` is SQL `null`. */
  datatype StoredProfile = StoredProfile(
    role: Option<string>,
    fullName: Option<string>,
    phone: Option<string>,
    title: Option<string>,
    location: Option<string>,
    experienceYears: Option<int>,
    bio: Option<string>,
    linkedinUrl: Option<string>,
    githubUrl: Option<string>,
    portfolioUrl: Option<string>,
    skills: Option<seq<string>>,
    cvUrl: Option<string>)

  /** The editable fields of the page. */
  datatype Form = Form(
    fullName: string,
    phone: string,
    title: string,
    location: string,
    experienceYears: string,
    bio: string,
    linkedinUrl: string,
    githubUrl: string,
    portfolioUrl: string,
    skills: seq<string>)

  /** The fields the save handler writes to the profile row (the update time left aside). */
  datatype ProfileUpdate = ProfileUpdate(
    fullName: string,
    phone: string,
    title: string,
    location: string,
    experienceYears: Option<Number>,
    bio: string,
    linkedinUrl: string,
    githubUrl: string,
    portfolioUrl: string,
    skills: seq<string>)

  const LoginPath := "/login"
  const HrProfilePath := "/hr/profile"
  const NotAuthenticated := "User not authenticated"
  const UpdateFailedPrefix := "Failed to update profile: "
  const UnknownError := "Unknown error"
  const SelectFileFirst := "Please select a file and ensure you are logged in"
  const UploadFailed := "Failed to upload CV"
  const DownloadFailed := "Failed to download CV"

  /** The experience field as loaded: the number's decimal text, or empty when unset. A
      stored 0 still shows as "0", because the text "0" is truthy. */
  function ExperienceText(years: Option<int>): string {
    if years.Some? then DecimalString(years.value) else ""
  }

  /** The experience field as saved: `null` for an empty field, otherwise `parseInt` of the
      text (NaN when the text does not start with a number). */
  function SavedExperience(text: string): (v: Option<Number>)
    ensures v.None? <==> text == ""
  {
    if text == "" then None else Some(ParseInt(text))
  }

  /** Loading a number of years and saving the field unchanged writes the same number back,
      and an unset value stays unset. */
  lemma ExperienceRoundTrip(years: Option<int>)
    ensures SavedExperience(ExperienceText(years)) ==
            (if years.Some? then Some(Finite(years.value as real)) else None)
  {
    if years.Some? {
      ParseIntOfDecimalString(years.value);
    }
  }

  /** The form filled from a stored profile: missing text fields become "", missing
      skills become the empty list. */
  function FormOf(p: StoredProfile): Form {
    Form(TextOr(p.fullName, ""), TextOr(p.phone, ""), TextOr(p.title, ""),
         TextOr(p.location, ""), ExperienceText(p.experienceYears), TextOr(p.bio, ""),
         TextOr(p.linkedinUrl, ""), TextOr(p.githubUrl, ""), TextOr(p.portfolioUrl, ""),
         SeqOr(p.skills, []))
  }

  /** The row update the save handler sends for a form. */
  function UpdateOf(f: Form): ProfileUpdate {
    ProfileUpdate(f.fullName, f.phone, f.title, f.location, SavedExperience(f.experienceYears),
                  f.bio, f.linkedinUrl, f.githubUrl, f.portfolioUrl, f.skills)
  }

  /** A text column written back after loading: the stored text when there was one,
      "" when it was null. */
  predicate WritesBack(stored: Option<string>, written: string) {
    (stored.Some? ==> written == stored.value) && (stored.None? ==> written == "")
  }

  /** Loading a profile and saving it without edits writes back every stored value; only
      nulls change, text ones to "" and the skills to the empty list. */
  lemma SaveAfterLoad(p: StoredProfile)
    ensures var u := UpdateOf(FormOf(p));
      && WritesBack(p.fullName, u.fullName) && WritesBack(p.phone, u.phone)
      && WritesBack(p.title, u.title) && WritesBack(p.location, u.location)
      && WritesBack(p.bio, u.bio) && WritesBack(p.linkedinUrl, u.linkedinUrl)
      && WritesBack(p.githubUrl, u.githubUrl) && WritesBack(p.portfolioUrl, u.portfolioUrl)
      && u.experienceYears == (if p.experienceYears.Some? then Some(Finite(p.experienceYears.value as real)) else None)
      && u.skills == (if p.skills.Some? then p.skills.value else [])
  {
    ExperienceRoundTrip(p.experienceYears);
  }

  /** Whether `addSkill` takes the typed text: it is not blank and, once trimmed, not
      already in the list. */
  predicate Accepts(skills: seq<string>, input: string) {
    Trim(input) != "" && Trim(input) !in skills
  }

  /** The skills list after `addSkill`. */
  function SkillsAfterAdd(skills: seq<string>, input: string): (r: seq<string>)
    ensures skills <= r && |r| <= |skills| + 1
    ensures |r| == |skills| + 1 <==> Accepts(skills, input)
    ensures forall i :: |skills| <= i < |r| ==> r[i] == Trim(input)
    ensures Trim(input) != "" ==> Trim(input) in r
    ensures NoDup(skills) ==> NoDup(r)
  {
    if Accepts(skills, input) then skills + [Trim(input)] else skills
  }

  /** Adding the same text a second time changes nothing. */
  lemma AddSkillIdempotent(skills: seq<string>, input: string)
    ensures SkillsAfterAdd(SkillsAfterAdd(skills, input), input) == SkillsAfterAdd(skills, input)
  {
  }

  /** The skills list after `removeSkill(x)`: every entry equal to `x` is dropped, the
      others keep their order. */
  function Without(skills: seq<string>, x: string): (r: seq<string>)
    ensures |r| <= |skills|
  {
    if skills == [] then []
    else (if skills[0] == x then [] else [skills[0]]) + Without(skills[1..], x)
  }

  /** Exactly the entries different from the removed skill remain. */
  lemma {:induction false} WithoutMembers(skills: seq<string>, x: string)
    ensures forall y :: y in Without(skills, x) <==> y in skills && y != x
  {
    if skills != [] {
      WithoutMembers(skills[1..], x);
      assert skills == [skills[0]] + skills[1..];
    }
  }

  /** Removing a skill that is not in the list leaves the list as it was. */
  lemma {:induction false} WithoutAbsent(skills: seq<string>, x: string)
    requires x !in skills
    ensures Without(skills, x) == skills
  {
    if skills != [] {
      WithoutAbsent(skills[1..], x);
      assert skills == [skills[0]] + skills[1..];
    }
  }

  /** Removal works piece by piece, which is what keeps the order of what remains. */
  lemma {:induction false} WithoutAppend(a: seq<string>, b: seq<string>, x: string)
    ensures Without(a + b, x) == Without(a, x) + Without(b, x)
  {
    if a != [] {
      assert (a + b)[1..] == a[1..] + b;
      WithoutAppend(a[1..], b, x);
    } else {
      assert a + b == b;
    }
  }

  /** Removing a skill that was just added restores the list. */
  lemma RemoveUndoesAdd(skills: seq<string>, input: string)
    requires Accepts(skills, input)
    ensures Without(SkillsAfterAdd(skills, input), Trim(input)) == skills
  {
    WithoutAppend(skills, [Trim(input)], Trim(input));
    WithoutAbsent(skills, Trim(input));
    assert Without([Trim(input)], Trim(input)) == [] + Without([], Trim(input));
  }

  /** The last '.'-separated piece of a file name (`name.split('.').pop()`). */
  function Extension(fileName: string): (ext: string)
    ensures '.' !in ext
    ensures '.' !in fileName ==> ext == fileName
  {
    var parts := Split(fileName, '.');
    SplitPiecesClean(fileName, '.');
    SplitCount(fileName, '.');
    parts[|parts| - 1]
  }

  /** Splitting after a last separator: the pieces of the front, then the tail. */
  lemma {:induction false} SplitAfterLast(front: string, sep: char, tail: string)
    requires sep !in tail
    ensures Split(front + [sep] + tail, sep) == Split(front, sep) + [tail]
    decreases |front|
  {
    if sep in front {
      IndexOfFirst(front, sep);
      var j := IndexOf(front, sep);
      var head, rest := front[..j], front[j + 1..];
      Around(front, j);
      SplitAfterLast(rest, sep, tail);
      SplitBeforeLast(head, rest, sep, tail);
    } else {
      SplitFirstPiece(front, sep, tail);
      SplitClean(tail, sep);
      SplitClean(front, sep);
    }
  }

  /** A first piece in front of the separator leaves the property for what follows it
      intact. */
  lemma SplitBeforeLast(head: string, rest: string, sep: char, tail: string)
    requires sep !in head
    requires Split(rest + [sep] + tail, sep) == Split(rest, sep) + [tail]
    ensures Split(head + [sep] + rest + [sep] + tail, sep) == Split(head + [sep] + rest, sep) + [tail]
  {
    SplitTwoSeparators(head, rest, sep, tail);
    SplitFirstPiece(head, sep, rest);
    AppendLast(head, Split(rest, sep), tail);
  }

  lemma AppendLast(first: string, middle: seq<string>, last: string)
    ensures [first] + (middle + [last]) == ([first] + middle) + [last]
  {
  }

  /** With two separators ahead, the first piece is split off before the second. */
  lemma SplitTwoSeparators(head: string, rest: string, sep: char, tail: string)
    requires sep !in head
    ensures Split(head + [sep] + rest + [sep] + tail, sep) == [head] + Split(rest + [sep] + tail, sep)
  {
    Regroup(head, [sep], rest, [sep], tail);
    SplitFirstPiece(head, sep, rest + [sep] + tail);
  }

  lemma Regroup(a: string, b: string, c: string, d: string, e: string)
    ensures a + b + c + d + e == a + b + (c + d + e)
  {
  }

  /** The extension is what follows the last dot. */
  lemma ExtensionAfterLastDot(base: string, ext: string)
    requires '.' !in ext
    ensures Extension(base + "." + ext) == ext
  {
    assert base + "." + ext == base + ['.'] + ext;
    SplitAfterLast(base, '.', ext);
  }

  /** The storage path of an uploaded CV: `<uid>/<uid>-<timestamp>.<extension>`. */
  function CvPath(userId: string, timestamp: nat, fileName: string): string {
    userId + "/" + userId + "-" + DecimalString(timestamp) + "." + Extension(fileName)
  }

  /** The uploaded file keeps its extension, and the path sits in the user's own folder. */
  lemma CvPathKeepsExtension(userId: string, timestamp: nat, base: string, ext: string)
    requires '.' !in ext
    ensures Extension(CvPath(userId, timestamp, base + "." + ext)) == ext
    ensures StartsWith(CvPath(userId, timestamp, base + "." + ext), userId + "/")
  {
    ExtensionAfterLastDot(base, ext);
    var front := userId + "/" + userId + "-" + DecimalString(timestamp);
    assert CvPath(userId, timestamp, base + "." + ext) == front + "." + ext;
    ExtensionAfterLastDot(front, ext);
  }

  /** `s.replace(/\s+/g, '-')`: every maximal run of whitespace becomes one hyphen. */
  function HyphenateWhitespace(s: string): (r: string)
    ensures |r| <= |s|
    decreases |s|
  {
    if s == [] then []
    else if IsWhitespace(s[0]) then
      "-" + HyphenateWhitespace(TrimStart(s[1..]))
    else [s[0]] + HyphenateWhitespace(s[1..])
  }

  /** No whitespace is left once the runs are replaced. */
  lemma {:induction false} HyphenateRemovesWhitespace(s: string)
    ensures forall i :: 0 <= i < |HyphenateWhitespace(s)| ==> !IsWhitespace(HyphenateWhitespace(s)[i])
    decreases |s|
  {
    if s != [] {
      var r := HyphenateWhitespace(s);
      var t := if IsWhitespace(s[0]) then TrimStart(s[1..]) else s[1..];
      HyphenateRemovesWhitespace(t);
      assert r == [r[0]] + HyphenateWhitespace(t);
      forall i | 1 <= i < |r| ensures !IsWhitespace(r[i]) {
        assert r[i] == HyphenateWhitespace(t)[i - 1];
      }
    }
  }

  /** Text without whitespace is left as it is. */
  lemma {:induction false} HyphenateKeepsPlain(s: string)
    requires forall i :: 0 <= i < |s| ==> !IsWhitespace(s[i])
    ensures HyphenateWhitespace(s) == s
    decreases |s|
  {
    if s != [] {
      assert !IsWhitespace(s[0]);
      HyphenateKeepsPlain(s[1..]);
      assert s == [s[0]] + s[1..];
    }
  }

  lemma {:induction false} TrimStartAfterRun(w: string, b: string)
    requires AllWhitespace(w)
    requires b == [] || !IsWhitespace(b[0])
    ensures TrimStart(w + b) == b
    decreases |w|
  {
    if w != [] {
      assert (w + b)[1..] == w[1..] + b;
      TrimStartAfterRun(w[1..], b);
    } else {
      assert w + b == b;
    }
  }

  /** A run of whitespace between a word and the rest turns into a single hyphen. */
  lemma {:induction false} HyphenateRun(word: string, run: string, rest: string)
    requires forall i :: 0 <= i < |word| ==> !IsWhitespace(word[i])
    requires run != [] && AllWhitespace(run)
    requires rest == [] || !IsWhitespace(rest[0])
    ensures HyphenateWhitespace(word + run + rest) == word + "-" + HyphenateWhitespace(rest)
    decreases |word|
  {
    if word == [] {
      assert word + run + rest == run + rest;
      assert word + "-" + HyphenateWhitespace(rest) == "-" + HyphenateWhitespace(rest);
      HyphenateRunStart(run, rest);
    } else {
      var h := HyphenateWhitespace(rest);
      HyphenateRun(word[1..], run, rest);
      ConsRegroup(word, run, rest);
      HyphenateCons(word[0], word[1..] + run + rest);
      ConsRegroup(word, "-", h);
    }
  }

  /** A run of whitespace at the start becomes one hyphen. */
  lemma HyphenateRunStart(run: string, rest: string)
    requires run != [] && AllWhitespace(run)
    requires rest == [] || !IsWhitespace(rest[0])
    ensures HyphenateWhitespace(run + rest) == "-" + HyphenateWhitespace(rest)
  {
    assert (run + rest)[0] == run[0];
    assert (run + rest)[1..] == run[1..] + rest;
    TrimStartAfterRun(run[1..], rest);
  }

  /** A character that is not whitespace is kept. */
  lemma HyphenateCons(c: char, t: string)
    requires !IsWhitespace(c)
    ensures HyphenateWhitespace([c] + t) == [c] + HyphenateWhitespace(t)
  {
    assert ([c] + t)[1..] == t;
  }

  lemma ConsRegroup(w: string, x: string, y: string)
    requires w != []
    ensures w + x + y == [w[0]] + (w[1..] + x + y)
  {
  }

  /** The name the CV is downloaded under; the download fails when the profile has no
      full name (the `replace` call throws on `null`). */
  function DownloadName(fullName: Option<string>): (name: Option<string>)
    ensures name.Some? <==> fullName.Some?
    ensures name.Some? ==> StartsWith(name.value, "CV-") && EndsWith(name.value, ".pdf")
    ensures name.Some? ==> name.value == "CV-" + HyphenateWhitespace(fullName.value) + ".pdf"
  {
    if fullName.None? then None
    else Some("CV-" + HyphenateWhitespace(fullName.value) + ".pdf")
  }

  /** A full name without whitespace is used as it is. */
  lemma DownloadNameOfWord(name: string)
    requires forall i :: 0 <= i < |name| ==> !IsWhitespace(name[i])
    ensures DownloadName(Some(name)) == Some("CV-" + name + ".pdf")
  {
    HyphenateKeepsPlain(name);
  }

  /** Two words separated by a run of whitespace get one hyphen between them. */
  lemma DownloadNameOfTwoWords(first: string, run: string, last: string)
    requires forall i :: 0 <= i < |first| ==> !IsWhitespace(first[i])
    requires run != [] && AllWhitespace(run)
    requires forall i :: 0 <= i < |last| ==> !IsWhitespace(last[i])
    ensures DownloadName(Some(first + run + last)) == Some("CV-" + (first + "-" + last) + ".pdf")
  {
    HyphenateTwoWords(first, run, last);
  }

  lemma HyphenateTwoWords(first: string, run: string, last: string)
    requires forall i :: 0 <= i < |first| ==> !IsWhitespace(first[i])
    requires run != [] && AllWhitespace(run)
    requires forall i :: 0 <= i < |last| ==> !IsWhitespace(last[i])
    ensures HyphenateWhitespace(first + run + last) == first + "-" + last
  {
    assert last == [] || !IsWhitespace(last[0]);
    HyphenateRun(first, run, last);
    HyphenateKeepsPlain(last);
  }

  class CandidateProfile {
    var user: Option<string>
    var profile: Option<StoredProfile>
    var loading: bool
    var editing: bool
    var saving: bool
    var uploading: bool
    /** The name of the chosen CV file, if one is chosen. */
    var cvFile: Option<string>
    var cvPreviewUrl: Option<string>
    /** The form fields, each of which the page keeps as its own piece of state. */
    var form: Form
    var newSkill: string
    /** Where the router was sent last, if anywhere. */
    var redirect: Option<string>
    /** The alerts shown, in order. */
    var alerts: seq<string>
    /** The profile-row updates written by the save handler, in order. */
    var updates: seq<ProfileUpdate>
    /** The storage paths uploaded to, and the CV paths written to the profile row. */
    var uploads: seq<string>
    var cvUrlWrites: seq<string>
    /** The names CVs were downloaded under. */
    var downloads: seq<string>

    constructor ()
      ensures user.None? && profile.None? && loading && !editing && !saving && !uploading
      ensures cvFile.None? && cvPreviewUrl.None?
      ensures form == Form("", "", "", "", "", "", "", "", "", []) && newSkill == ""
      ensures redirect.None? && alerts == [] && updates == [] && uploads == []
      ensures cvUrlWrites == [] && downloads == []
    {
      user, profile := None, None;
      loading, editing, saving, uploading := true, false, false, false;
      cvFile, cvPreviewUrl := None, None;
      form, newSkill := Form("", "", "", "", "", "", "", "", "", []), "";
      redirect, alerts, updates, uploads, cvUrlWrites, downloads := None, [], [], [], [], [];
    }

    /** `loadProfile`. Without a signed-in user the page goes to the login page; when the
        profile query fails nothing is loaded; a profile that is not a candidate's sends
        the page to the HR profile. Otherwise the form is filled from the row, and the CV
        preview link is set when the row names a CV and a signed link comes back. Loading
        ends on every path. */
    method LoadProfile(signedIn: Option<string>, row: Option<StoredProfile>, signedUrl: Option<string>)
      modifies this`user, this`profile, this`loading, this`redirect, this`cvPreviewUrl
      modifies this`form
      ensures !loading
      ensures signedIn.None? ==> redirect == Some(LoginPath)
      ensures (signedIn.Some? && row.Some? && row.value.role != Some("candidate")) ==>
        redirect == Some(HrProfilePath)
      ensures (signedIn.None? || row.None? || row.value.role != Some("candidate")) ==>
        && user == old(user) && profile == old(profile) && form == old(form)
        && cvPreviewUrl == old(cvPreviewUrl)
      ensures (signedIn.Some? && row.None?) ==> redirect == old(redirect)
      ensures (signedIn.Some? && row.Some? && row.value.role == Some("candidate")) ==>
        && user == signedIn && profile == row && form == FormOf(row.value)
        && redirect == old(redirect)
        && cvPreviewUrl == (if TruthyText(row.value.cvUrl) && signedUrl.Some? then signedUrl
                            else old(cvPreviewUrl))
    {
      if signedIn.None? {
        redirect := Some(LoginPath);
      } else if row.Some? {
        var p := row.value;
        if p.role != Some("candidate") {
          redirect := Some(HrProfilePath);
        } else {
          user := signedIn;
          profile := row;
          form := FormOf(p);
          if TruthyText(p.cvUrl) && signedUrl.Some? {
            cvPreviewUrl := signedUrl;
          }
        }
      }
      loading := false;
    }

    /** `handleSaveProfile`. Without a user only an alert is shown. Otherwise the form is
        written to the profile row; on success editing ends, on failure an alert gives the
        error's message (or "Unknown error" for a thrown value that is not an `Error`).
        `failure` is `None` when the update succeeds. The reload that follows a success is
        `LoadProfile`. */
    method HandleSaveProfile(failure: Option<Option<string>>)
      modifies this`saving, this`editing, this`alerts, this`updates
      ensures user.None? ==>
        alerts == old(alerts) + [NotAuthenticated] && updates == old(updates)
        && saving == old(saving) && editing == old(editing)
      ensures user.Some? && failure.None? ==>
        updates == old(updates) + [UpdateOf(form)] && alerts == old(alerts)
        && !editing && !saving
      ensures user.Some? && failure.Some? ==>
        updates == old(updates) && editing == old(editing) && !saving
        && alerts == old(alerts) + [UpdateFailedPrefix + (if failure.value.Some? then failure.value.value else UnknownError)]
    {
      if user.None? {
        alerts := alerts + [NotAuthenticated];
        return;
      }
      saving := true;
      if failure.None? {
        updates := updates + [UpdateOf(form)];
        editing := false;
      } else {
        var message := if failure.value.Some? then failure.value.value else UnknownError;
        alerts := alerts + [UpdateFailedPrefix + message];
      }
      saving := false;
    }

    /** `handleCvUpload`. Without a chosen file or a user only an alert is shown. Otherwise
        the file goes to `CvPath`; when the upload works the path is written to the
        profile row, and when that works too the chosen file is cleared. Either failure
        shows one alert. */
    method HandleCvUpload(timestamp: nat, uploadFails: bool, updateFails: bool)
      modifies this`uploading, this`alerts, this`uploads, this`cvUrlWrites, this`cvFile
      ensures old(cvFile).None? || user.None? ==>
        alerts == old(alerts) + [SelectFileFirst] && uploads == old(uploads)
        && cvUrlWrites == old(cvUrlWrites) && cvFile == old(cvFile) && uploading == old(uploading)
      ensures old(cvFile).Some? && user.Some? ==>
        var path := CvPath(user.value, timestamp, old(cvFile).value);
        && !uploading
        && uploads == old(uploads) + (if uploadFails then [] else [path])
        && cvUrlWrites == old(cvUrlWrites) + (if uploadFails || updateFails then [] else [path])
        && cvFile == (if uploadFails || updateFails then old(cvFile) else None)
        && alerts == old(alerts) + (if uploadFails || updateFails then [UploadFailed] else [])
    {
      if cvFile.None? || user.None? {
        alerts := alerts + [SelectFileFirst];
        return;
      }
      uploading := true;
      var path := CvPath(user.value, timestamp, cvFile.value);
      if uploadFails {
        alerts := alerts + [UploadFailed];
      } else {
        uploads := uploads + [path];
        if updateFails {
          alerts := alerts + [UploadFailed];
        } else {
          cvUrlWrites := cvUrlWrites + [path];
          cvFile := None;
        }
      }
      uploading := false;
    }

    /** `handleDownloadCv`: nothing happens without a stored CV; otherwise the file is
        downloaded under `DownloadName`, and a failed download or a missing full name
        shows an alert. */
    method HandleDownloadCv(downloadFails: bool)
      modifies this`alerts, this`downloads
      ensures (profile.None? || !TruthyText(profile.value.cvUrl)) ==>
        alerts == old(alerts) && downloads == old(downloads)
      ensures (profile.Some? && TruthyText(profile.value.cvUrl)) ==>
        var name := DownloadName(profile.value.fullName);
        && (downloadFails || name.None? ==>
              alerts == old(alerts) + [DownloadFailed] && downloads == old(downloads))
        && (!downloadFails && name.Some? ==>
              alerts == old(alerts) && downloads == old(downloads) + [name.value])
    {
      if profile.None? || !TruthyText(profile.value.cvUrl) {
        return;
      }
      var name := DownloadName(profile.value.fullName);
      if downloadFails || name.None? {
        alerts := alerts + [DownloadFailed];
      } else {
        downloads := downloads + [name.value];
      }
    }

    /** Typing into the new-skill input. */
    method SetNewSkill(text: string)
      modifies this`newSkill
      ensures newSkill == text
    {
      newSkill := text;
    }

    /** Choosing a CV file, or clearing the choice, by its name. */
    method ChooseCvFile(fileName: Option<string>)
      modifies this`cvFile
      ensures cvFile == fileName
    {
      cvFile := fileName;
    }

    /** `addSkill`: an accepted skill is appended and the input cleared; otherwise neither
        the list nor the input changes. A list without duplicates stays so. */
    method AddSkill()
      modifies this`form, this`newSkill
      ensures form == old(form).(skills := SkillsAfterAdd(old(form.skills), old(newSkill)))
      ensures newSkill == (if Accepts(old(form.skills), old(newSkill)) then "" else old(newSkill))
      ensures NoDup(old(form.skills)) ==> NoDup(form.skills)
    {
      if Accepts(form.skills, newSkill) {
        form := form.(skills := form.skills + [Trim(newSkill)]);
        newSkill := "";
      }
    }

    /** `removeSkill`. */
    method RemoveSkill(skill: string)
      modifies this`form
      ensures form == old(form).(skills := Without(old(form.skills), skill))
      ensures skill !in form.skills
    {
      WithoutMembers(form.skills, skill);
      form := form.(skills := Without(form.skills, skill));
    }
  }
}
