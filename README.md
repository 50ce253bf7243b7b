# RecruitlyAI core, modelled in Dafny

RecruitlyAI is a recruiting web application. HR users generate technical assessments with a
generative-AI model, candidates take them, and the model analyses the results. This project
models the logic at the core of the application and proves properties of it:

- **The AI client** (`GeminiClient`):
  - the retry-with-backoff wrapper put around every model call;
  - the cleaning and parsing of the model's text output.
- **Test generation** (`TestGenerator`):
  - the normalisation of the questions the model returns;
  - the locally computed metadata: total points, duration estimate and topic histogram;
  - the allowed question types, and the selection of additional questions.
- **Candidate analysis** (`CandidateAnalyzer`):
  - the locally computed score and percentile;
  - the defaults put on the model's analysis;
  - the per-topic aggregation and the incorrect-answer list the prompt is built from;
  - the quick-feedback shortcut.
- **The two API routes** (`AnalyzeResultsRoute`, `GenerateTestRoute`):
  - the checks they run in order with early returns;
  - the grading of stored answers;
  - the rows they write, including the rollback of a test whose questions cannot be saved.
- **The pages and helpers**:
  - the two-step sign-up form (`SignupPage`);
  - the candidate profile page with its skills list, CV path and download name (`CandidateProfilePage`);
  - the HR profile page with its completion gauge and candidate count (`HrProfilePage`);
  - the avatar menu (`UserProfileMenu`);
  - the shared authentication helpers (`AuthUtils`).

The model follows the program's shape:

- **Pure computations** are functions with contracts, plus lemmas about them.
- **Loops that fill a dictionary or record in place** are methods with loop invariants, proved
  against a specification function:
  - the topic histogram (`TestGenerator.TopicDistribution`);
  - the per-topic counters (`CandidateAnalyzer.TopicPerformance`);
  - the retry recursion (`GeminiClient.RetryWithBackoff`).
- **Each page** is a class whose fields are the page's state. Its event handlers are methods
  that state the new state.
- **Everything the code awaits is an input of the member that awaits it.** This covers:
  - the model endpoint, as an oracle `fn(k)` for the outcome of the k-th call;
  - `JSON.parse`, as an oracle returning `None` when it throws;
  - the session and the database lookups;
  - whether a write or an upload fails.
- **Waits, alerts, redirects and rows written** are recorded as out-parameters or fields.

Three helper modules hold the JavaScript semantics the core depends on:

- `JsText`:
  - `String.prototype.trim`, `split` and `indexOf`;
  - `toUpperCase` on ASCII;
  - `length` in UTF-16 code units (`Utf16Length`);
  - decimal printing.
- `JsNumber`:
  - IEEE-style division, so that x/0 is ±Infinity and 0/0 is NaN;
  - `Math.round`, and `parseInt`.
- `Outcomes`:
  - JavaScript truthiness of optional values;
  - `Completion`, which is how a call ends: `Normal(value)` or `Threw(message)`.

`Counting` holds the multiset counting used by the histograms.

Two behaviours of the code are worth stating:

- **Parse errors.** A parse failure carries the fixed message
  "Failed to parse AI response as JSON". It does not carry the offending text
  (lib/ai/gemini-client.ts:158-161).
- **Empty tests.** The analysis of a test worth 0 points is not excluded: the score is NaN
  and the percentile 10 (`CandidateAnalyzer.NoPointsTest`). JavaScript does not throw on a
  division by zero, and the analysis route passes `total_points || 0`.

Some behaviours of the code as written are stated as lemmas:

- **File name without a dot.** The whole name is used as the CV's extension
  (`CandidateProfilePage.Extension`).
- **Blank name of two spaces.** It gives empty initials
  (`UserProfileMenu.BlankNameHasNoInitials`).
- **Unknown roles.** For a role that is neither "hr" nor "candidate", `getDashboardPath`
  answers "/dashboard". The avatar menu sends the same user to the candidate dashboard
  (`AuthUtils.DashboardsDisagreeOtherwise`).
- **Missing detailed feedback.** The detailed feedback falls back to the model's summary,
  not to the summary's default (`CandidateAnalyzer.EmptyAnalysisDefaults`).

## Model

| member | source | states |
|---|---|---|
| GeminiClient.RetryWithBackoff | lib/ai/gemini-client.ts:121-142 | the loop makes exactly the calls, performs exactly the waits and ends exactly as the wrapper's recursion `Retry` does |
| GeminiClient.FirstCallReturns | lib/ai/gemini-client.ts:126-127 | a call that returns ends the run with its value after one call and no wait |
| GeminiClient.OtherErrorRethrown | lib/ai/gemini-client.ts:134-140 | an error whose message contains neither "429" nor "quota" is rethrown after one call without waiting; an error without a message counts as such |
| GeminiClient.NoBudgetRethrows | lib/ai/gemini-client.ts:129-131 | with budget 0 any error is rethrown unchanged after one call, a rate-limit error included |
| GeminiClient.RateLimitWaitsAndRetries | lib/ai/gemini-client.ts:134-137 | a rate-limit error with budget r > 0 waits the current delay, then runs again with budget r - 1 and twice the delay |
| GeminiClient.RetryCalls | lib/ai/gemini-client.ts:121-141 | a run makes between 1 and retries + 1 calls; every call but the last hit the rate limit; the run ends as its last call did |
| GeminiClient.RetryWaits | lib/ai/gemini-client.ts:134-137 | a run waits once before each call but the first, and the i-th wait is delay × 2^i |
| GeminiClient.DefaultSchedule | lib/ai/gemini-client.ts:121-138 | with the defaults (3, 1000) there are at most 4 calls, and the waits are a prefix of 1000, 2000, 4000 ms |
| GeminiClient.RecoversAfterRateLimits | lib/ai/gemini-client.ts:126-137 | n ≤ retries rate-limit errors followed by a success return that value after n + 1 calls and n waits |
| GeminiClient.SucceedsOnThirdAttempt | lib/ai/gemini-client.ts:121-137 | two rate-limit errors, then a success: the third call's value, after waits of 1000 and 2000 ms |
| GeminiClient.Status429IsRateLimited | lib/ai/gemini-client.ts:105 | the error the transport throws for HTTP status 429 is classified as a rate-limit error, whatever the body |
| GeminiClient.RemoveMarkers | lib/ai/gemini-client.ts:152 | the global marker removal never lengthens the text, and leaves text without the marker unchanged |
| GeminiClient.RemoveMarkersSkipsChar | lib/ai/gemini-client.ts:152 | a character that cannot start the marker is kept, and removal continues after it |
| GeminiClient.RemoveMarkersSkipsClean | lib/ai/gemini-client.ts:152 | text free of the marker's first character passes through, and removal continues after it |
| GeminiClient.RemoveLeadingMarker | lib/ai/gemini-client.ts:152 | a leading marker goes together with the one newline after it |
| GeminiClient.StripClosingFence | lib/ai/gemini-client.ts:152 | the text is the result followed by exactly the closing fence removed (with or without its newline), or unchanged when it has no closing fence |
| GeminiClient.ClosingFenceRemoved | lib/ai/gemini-client.ts:152 | a closing fence at the end is removed and nothing else is |
| GeminiClient.ParseAIResponse | lib/ai/gemini-client.ts:147-162 | success iff the parser accepts the cleaned text, with its value; every failure is the one error "Failed to parse AI response as JSON" |
| GeminiClient.UnfencedTextUnchanged | lib/ai/gemini-client.ts:150-157 | trimmed text that does not open with ``` reaches the parser as it is |
| GeminiClient.FencedTextTrimmed | lib/ai/gemini-client.ts:150 | text that starts and ends with a backtick is unchanged by the trimming |
| GeminiClient.JsonFenceStripped | lib/ai/gemini-client.ts:151-152 | a payload without backticks inside a ```json fence reaches the parser as exactly the payload |
| GeminiClient.PlainFenceStripped | lib/ai/gemini-client.ts:153-154 | the same payload inside a plain ``` fence reaches the parser as exactly the payload |
| GeminiClient.JsonFenceUnmarked | lib/ai/gemini-client.ts:151-152 | inside a ```json fence the marker removal drops the opening line and keeps the payload and the closing fence |
| GeminiClient.PlainFenceUnmarked | lib/ai/gemini-client.ts:153-154 | inside a plain ``` fence the marker removal drops both fences and keeps the payload |
| GeminiClient.FenceStylesAgree | lib/ai/gemini-client.ts:150-157 | both fence styles around the same payload parse the same |
| TestGenerator.NormaliseQuestion | lib/ai/test-generator.ts:55-62 | falsy type, difficulty, topic or points, and missing options, take "multiple_choice", "medium", "General", 10 and []; question, correct answer and explanation are copied |
| TestGenerator.NormalisedFieldsTruthy | lib/ai/test-generator.ts:56-62 | no defaulted field of a normalised question is falsy |
| TestGenerator.NormaliseIdempotent | lib/ai/test-generator.ts:54-63 | normalising a normalised question changes nothing |
| TestGenerator.Normalise | lib/ai/test-generator.ts:54-63 | one normalised question per returned question, same length and order; a missing list gives none |
| TestGenerator.SumPointsAppend | lib/ai/test-generator.ts:66 | the total of two lists put together is the sum of their totals |
| TestGenerator.SumPointsUniform | lib/ai/test-generator.ts:66 | questions of equal points total that value times their number |
| TestGenerator.DefaultPointsTotal | lib/ai/test-generator.ts:62-66 | when the model gives no points, the total is 10 per question |
| TestGenerator.TopicDistribution | lib/ai/test-generator.ts:69-72 | the histogram's keys are exactly the topics, each value is its topic's count, and the values add up to the number of questions |
| TestGenerator.GenerateTest | lib/ai/test-generator.ts:42-82 | the calls and waits are those of the retry wrapper with its defaults; wrapper and parse errors pass through; otherwise the test built from the normalised questions |
| TestGenerator.GeneratedMetadata | lib/ai/test-generator.ts:66-81 | the duration estimate is 2 minutes per question, and the topic histogram counts every question once under its topic |
| TestGenerator.QuestionTypes | lib/ai/test-generator.ts:104-106 | the list starts with multiple choice and true/false, then has "code" iff asked for and "essay" iff asked for, in that order |
| TestGenerator.QuotedTexts | lib/ai/test-generator.ts:172 | at most five existing question texts are quoted: the first ones, in order |
| TestGenerator.SelectAdditional | lib/ai/test-generator.ts:185 | an array answer is returned as it is; otherwise its `questions` field, or []; no defaults are applied |
| TestGenerator.GenerateAdditionalQuestions | lib/ai/test-generator.ts:161-186 | the retry wrapper, then the parse, then the selection; errors pass through |
| CandidateAnalyzer.EstimatePercentile | lib/ai/candidate-analyzer.ts:200-208 | each output 95/85/70/55/40/25/10 is given iff the score reaches its inclusive threshold 90/80/70/60/50/40 and not the next one; NaN gets 10 |
| CandidateAnalyzer.PercentileMonotone | lib/ai/candidate-analyzer.ts:200-208 | a higher score never gets a lower percentile |
| CandidateAnalyzer.ScoreOfPositiveTotal | lib/ai/candidate-analyzer.ts:71 | with a positive total, score × total = 100 × earned |
| CandidateAnalyzer.ScoreIgnoresModel | lib/ai/candidate-analyzer.ts:71-76 | score and percentile are computed from the points only; two model answers give the same ones |
| CandidateAnalyzer.FullMarks | lib/ai/candidate-analyzer.ts:71-83 | earned = total > 0 gives score 100 and percentile 95, and readiness 100 when the model gives none |
| CandidateAnalyzer.HalfMarks | lib/ai/candidate-analyzer.ts:71-72 | 20 of 40 points give score 50 and percentile 40 |
| CandidateAnalyzer.NoPointsTest | lib/ai/candidate-analyzer.ts:71-83 | 0 of 0 points give a NaN score, percentile 10 and a NaN readiness by default |
| CandidateAnalyzer.EmptyAnalysisDefaults | lib/ai/candidate-analyzer.ts:77-83 | an empty analysis gets empty lists, "Analysis completed.", an empty detailed feedback, "intermediate" and the rounded score |
| CandidateAnalyzer.ModelTextKept | lib/ai/candidate-analyzer.ts:80-83 | every non-empty text field of the model is kept; the detailed feedback falls back to the summary |
| CandidateAnalyzer.AnalyzeCandidatePerformance | lib/ai/candidate-analyzer.ts:60-85 | the retry wrapper with its defaults, then the parse, then the assembly; errors pass through |
| CandidateAnalyzer.StatsOfAbsent | lib/ai/candidate-analyzer.ts:111-118 | a topic with no answer has all counters at zero |
| CandidateAnalyzer.PerformanceAppend | lib/ai/candidate-analyzer.ts:110-123 | one answer creates its topic's entry at zero when new, then counts itself in; other entries are untouched |
| CandidateAnalyzer.TopicPerformance | lib/ai/candidate-analyzer.ts:110-123 | the loop builds exactly the per-topic record `Performance` of the answers |
| CandidateAnalyzer.StatsCount | lib/ai/candidate-analyzer.ts:119-122 | a topic's total is its number of answers, and its correct count never exceeds it |
| CandidateAnalyzer.TopicTotalsSum | lib/ai/candidate-analyzer.ts:110-123 | over all topics, the totals add up to the number of answers |
| CandidateAnalyzer.IncorrectAnswers | lib/ai/candidate-analyzer.ts:132-133 | the filtered list is never longer than the answers |
| CandidateAnalyzer.IncorrectMembers | lib/ai/candidate-analyzer.ts:132-133 | exactly the answers not marked correct are listed |
| CandidateAnalyzer.IncorrectAnswersSnoc | lib/ai/candidate-analyzer.ts:132-133 | one more answer at the end is kept, after the others, exactly when it is incorrect |
| CandidateAnalyzer.IncorrectAnswersAppend | lib/ai/candidate-analyzer.ts:132-133 | the filter distributes over concatenation, so the listed answers keep their order and multiplicity |
| CandidateAnalyzer.AllCorrectLine | lib/ai/candidate-analyzer.ts:151 | the fixed "all answers were correct" line is used iff every answer is correct |
| CandidateAnalyzer.GenerateQuickFeedback | lib/ai/candidate-analyzer.ts:213-236 | a correct answer gets "Correct! Well done." with no call and no wait; otherwise the model's text trimmed, errors passing through |
| AnalyzeResultsRoute.ExtractTopic | app/api/ai/analyze-results/route.ts:272-282 | the trimmed text before the first colon when that colon is at index 1..29 in UTF-16 code units, "General" otherwise; the topic is shorter than 30 characters and has no colon |
| AnalyzeResultsRoute.TopicOfHeading | app/api/ai/analyze-results/route.ts:276-278 | an explanation opening with a heading shorter than 30 code units and a colon is filed under the trimmed heading |
| AnalyzeResultsRoute.AstralHeadingIsGeneral | app/api/ai/analyze-results/route.ts:276-277 | a heading of 15 characters beyond the Basic Multilingual Plane puts the colon at code unit 30, so the explanation is filed under "General" |
| AnalyzeResultsRoute.TopicWithoutColon | app/api/ai/analyze-results/route.ts:276-281 | an explanation without a colon is filed under "General" |
| AnalyzeResultsRoute.IsCorrectIffEqual | app/api/ai/analyze-results/route.ts:115-118 | in both branches (JSON comparison for lists, strict equality otherwise) an answer is correct iff a correct answer is stored and the answer equals it, so nothing is correct against a null correct answer |
| AnalyzeResultsRoute.ListOrderMatters | app/api/ai/analyze-results/route.ts:115-117 | the comparison of lists depends on the order |
| AnalyzeResultsRoute.Difficulty | app/api/ai/analyze-results/route.ts:129-130 | "easy" iff points ≤ 5, "medium" iff 5 < points ≤ 10, "hard" iff points > 10 |
| AnalyzeResultsRoute.GradeAnswers | app/api/ai/analyze-results/route.ts:113-132 | one graded answer per question in order: the question's text and correct answer, the submission or "", correct iff the stored correct answer is present and equal to it, the points earned only when correct, the topic and difficulty |
| AnalyzeResultsRoute.EarnedWithinAvailable | app/api/ai/analyze-results/route.ts:127-138 | with non-negative points, 0 ≤ earned ≤ available, with equality when every answer is correct |
| AnalyzeResultsRoute.EarnedBounded | app/api/ai/analyze-results/route.ts:113-138 | the same for the graded questions of a result |
| AnalyzeResultsRoute.SavedMatchesResponse | app/api/ai/analyze-results/route.ts:150-178 | what is saved is what is returned; the stored score keeps a non-zero one, else the rounded overall score; an error saves nothing and gives 500 with a message |
| AnalyzeResultsRoute.Post | app/api/ai/analyze-results/route.ts:16-189 | 401, then 500 with the error's message for a body that cannot be parsed, then 400, 404 and 403 in that order; a stored object is returned as cached with no model call; a failed question query gives 500; otherwise the analysis step |
| AnalyzeResultsRoute.Get | app/api/ai/analyze-results/route.ts:195-267 | the same checks up to access; any truthy stored analysis is returned as cached, otherwise "not yet generated"; no model call |
| GenerateTestRoute.Rejection | app/api/ai/generate-test/route.ts:22-73 | 401, then 403 for a caller who is not HR, then 400 for a missing field, then 400 for a count outside 1..50; none iff every check passes |
| GenerateTestRoute.Refusal | app/api/ai/generate-test/route.ts:22-158 | a parsed body gets `Rejection`; a body that cannot be parsed is always refused: 401 or 403 first, otherwise 500 with the error's message |
| GenerateTestRoute.SkillsAsList | app/api/ai/generate-test/route.ts:79 | a list of skills is kept; a single value is wrapped into a one-element list |
| GenerateTestRoute.AcceptedParams | app/api/ai/generate-test/route.ts:42-85 | an accepted body gives a job title, a description, at least one skill and a count in 1..50; left-out fields take "medium", 10, false and false |
| GenerateTestRoute.TestRow | app/api/ai/generate-test/route.ts:92-103 | title given or "<job title> Assessment"; description given or "AI-generated assessment for <job title> position"; passing score given or 70; duration given when non-zero or the estimate; total points from the metadata; AI-generated and not published |
| GenerateTestRoute.QuestionRows | app/api/ai/generate-test/route.ts:116-125 | one row per question, in order, pointing at the test, with order index equal to its position and the question's fields |
| GenerateTestRoute.RowPointsMatchTotal | app/api/ai/generate-test/route.ts:100-125 | the points of the saved question rows add up to the test row's total |
| GenerateTestRoute.Database.InsertTest | app/api/ai/generate-test/route.ts:90-105 | the row is stored under an id not in use, and nothing else changes |
| GenerateTestRoute.Database.DeleteTest | app/api/ai/generate-test/route.ts:134 | the test row is removed and the questions are untouched |
| GenerateTestRoute.Database.InsertQuestions | app/api/ai/generate-test/route.ts:127-129 | the rows are appended to the questions table and the tests are untouched |
| GenerateTestRoute.SaveGenerated | app/api/ai/generate-test/route.ts:88-151 | a failed test insert gives "Failed to save test to database", a failed question insert "Failed to save questions to database", both with 500 and both tables as they were (the rollback included); otherwise the test row under a fresh id and its question rows are stored and the response reports the row's title and description, the question count and the metadata |
| GenerateTestRoute.Post | app/api/ai/generate-test/route.ts:12-161 | a refused request (`Refusal`) changes nothing; a failed generation (model call or parse) gives 500 with its message, or "Failed to generate test. Please try again." when it has none, and changes nothing; a failed test insert or question insert gives its own 500 message; every failure leaves both tables as they were; success happens exactly when the request passes, generation yields a test and both inserts succeed, and stores that test's row and question rows, answering with the row's title and description, the question count and the metadata |
| SignupPage.Validation | app/signup/page.tsx:48-64 | the first failing check in order (role, matching passwords, length ≥ 6 in UTF-16 code units) gives its message; none iff all pass |
| SignupPage.SixCharactersSuffice | app/signup/page.tsx:60-64 | a matching password of 6 characters of the Basic Multilingual Plane passes; one of 5 is too short |
| SignupPage.ThreeAstralCharactersSuffice | app/signup/page.tsx:60-64 | a matching password of 3 characters beyond the Basic Multilingual Plane is 6 code units long and passes |
| SignupPage.DashboardFor | app/signup/page.tsx:98 | "/hr/dashboard" iff the role is HR, "/candidate/dashboard" iff it is candidate |
| SignupPage.SignupForm.constructor | app/signup/page.tsx:18-25 | step 1, no role, empty fields and error, not loading |
| SignupPage.SignupForm.SelectRole | app/signup/page.tsx:162 | the chosen role is set |
| SignupPage.SignupForm.EditDetails | app/signup/page.tsx:283-331 | the four detail fields take the typed values |
| SignupPage.SignupForm.HandleNext | app/signup/page.tsx:29-36 | with a role: step 2 and no error; without: same step and "Please select a role to continue" |
| SignupPage.SignupForm.HandleBack | app/signup/page.tsx:38-41 | step 1 and no error |
| SignupPage.SignupForm.HandleSignup | app/signup/page.tsx:43-106 | a failed check shows its message and sends nothing; otherwise one request; an error shows its message or "Failed to create account"; success writes the profile unless the insert fails and redirects anyway; never loading at the end |
| CandidateProfilePage.SavedExperience | app/candidate/profile/page.tsx:118 | null exactly when the field is empty, `parseInt` of it otherwise |
| CandidateProfilePage.ExperienceRoundTrip | app/candidate/profile/page.tsx:118 | a loaded number of years saved unchanged is written back as the same number, and an unset value stays null |
| CandidateProfilePage.SaveAfterLoad | app/candidate/profile/page.tsx:73-123 | loading a row and saving without edits writes back every stored value; null text becomes "" and null skills [] |
| CandidateProfilePage.SkillsAfterAdd | app/candidate/profile/page.tsx:217-222 | the list grows by exactly the trimmed input iff it is non-blank and new, and is otherwise unchanged; a duplicate-free list stays so |
| CandidateProfilePage.AddSkillIdempotent | app/candidate/profile/page.tsx:218 | adding the same text twice equals adding it once |
| CandidateProfilePage.Without | app/candidate/profile/page.tsx:224-226 | removing a skill never lengthens the list |
| CandidateProfilePage.WithoutMembers | app/candidate/profile/page.tsx:224-226 | exactly the entries different from the removed skill remain |
| CandidateProfilePage.WithoutAbsent | app/candidate/profile/page.tsx:224-226 | removing a skill that is not in the list leaves it unchanged |
| CandidateProfilePage.WithoutAppend | app/candidate/profile/page.tsx:225 | removal works piece by piece, so the remaining entries keep their order |
| CandidateProfilePage.RemoveUndoesAdd | app/candidate/profile/page.tsx:217-226 | removing a skill just added restores the list |
| CandidateProfilePage.Extension | app/candidate/profile/page.tsx:156 | the extension has no dot, and a name without a dot is its own extension |
| CandidateProfilePage.SplitAfterLast | app/candidate/profile/page.tsx:156 | splitting at a last separator gives the pieces before it, then the tail |
| CandidateProfilePage.ExtensionAfterLastDot | app/candidate/profile/page.tsx:156 | the extension is what follows the last dot |
| CandidateProfilePage.CvPathKeepsExtension | app/candidate/profile/page.tsx:156-158 | the storage path keeps the file's extension and lies in the user's own folder |
| CandidateProfilePage.HyphenateWhitespace | app/candidate/profile/page.tsx:206 | the result is never longer than the name |
| CandidateProfilePage.HyphenateRemovesWhitespace | app/candidate/profile/page.tsx:206 | no whitespace is left in the result |
| CandidateProfilePage.HyphenateKeepsPlain | app/candidate/profile/page.tsx:206 | a name without whitespace is left unchanged |
| CandidateProfilePage.HyphenateRun | app/candidate/profile/page.tsx:206 | a run of whitespace after a word becomes one hyphen |
| CandidateProfilePage.DownloadName | app/candidate/profile/page.tsx:206 | a name exists iff the full name does; it is "CV-", the full name with its whitespace runs hyphenated, then ".pdf" |
| CandidateProfilePage.DownloadNameOfWord | app/candidate/profile/page.tsx:206 | a full name without whitespace gives "CV-<name>.pdf" |
| CandidateProfilePage.HyphenateTwoWords | app/candidate/profile/page.tsx:206 | two words around a run of whitespace become the words joined by one hyphen |
| CandidateProfilePage.DownloadNameOfTwoWords | app/candidate/profile/page.tsx:206 | two words around a run of whitespace give "CV-<first>-<last>.pdf" |
| CandidateProfilePage.CandidateProfile.constructor | app/candidate/profile/page.tsx:18-38 | loading, nothing chosen, empty form and input, nothing written |
| CandidateProfilePage.CandidateProfile.LoadProfile | app/candidate/profile/page.tsx:47-100 | no user goes to "/login"; a non-candidate goes to "/hr/profile"; a failed query loads nothing; otherwise the form is filled and the preview link set; loading ends on every path |
| CandidateProfilePage.CandidateProfile.HandleSaveProfile | app/candidate/profile/page.tsx:102-145 | no user: one alert only; otherwise the form's update is written and editing ends, or the failure's message is alerted |
| CandidateProfilePage.CandidateProfile.HandleCvUpload | app/candidate/profile/page.tsx:147-190 | no file or user: one alert only; otherwise the upload goes to the CV path, then the path is saved, then the choice is cleared; either failure gives one alert |
| CandidateProfilePage.CandidateProfile.HandleDownloadCv | app/candidate/profile/page.tsx:192-215 | nothing without a stored CV; otherwise the download under the download name, or one alert when it fails or there is no name |
| CandidateProfilePage.CandidateProfile.SetNewSkill | app/candidate/profile/page.tsx:483 | the input takes the typed text |
| CandidateProfilePage.CandidateProfile.ChooseCvFile | app/candidate/profile/page.tsx:612 | the chosen file is set or cleared |
| CandidateProfilePage.CandidateProfile.AddSkill | app/candidate/profile/page.tsx:217-222 | the skills become `SkillsAfterAdd`, the input is cleared iff the skill was accepted, the rest of the form is unchanged, and no duplicate appears |
| CandidateProfilePage.CandidateProfile.RemoveSkill | app/candidate/profile/page.tsx:224-226 | the skills become `Without`, so the skill is gone; the rest of the form is unchanged |
| HrProfilePage.LoadKeepsStoredText | app/hr/profile/page.tsx:73-80 | a stored text column loads unchanged, and null loads as "" |
| HrProfilePage.FilledCount | app/hr/profile/page.tsx:502 | never more than the number of fields |
| HrProfilePage.AllFilledIffFull | app/hr/profile/page.tsx:502 | the count equals the number of fields iff every field is non-blank once trimmed |
| HrProfilePage.NoneFilledIffZero | app/hr/profile/page.tsx:502 | the count is zero iff every field is blank once trimmed |
| HrProfilePage.FilledCountCons | app/hr/profile/page.tsx:502 | a field in front adds one exactly when it is filled |
| HrProfilePage.RoundOfInteger | app/hr/profile/page.tsx:503 | `Math.round` of an integer gives it back |
| HrProfilePage.QuarterSteps | app/hr/profile/page.tsx:503 | round(c / 4 × 100) = 25 × c |
| HrProfilePage.CompletionPercentage | app/hr/profile/page.tsx:501-503 | 25 per filled field of the four, so always one of 0, 25, 50, 75, 100 |
| HrProfilePage.HintWhileUnfilled | app/hr/profile/page.tsx:521 | the hint is shown iff fewer than four fields are filled |
| HrProfilePage.AllFourFilled | app/hr/profile/page.tsx:501-502 | all four count as filled iff each of name, phone, company and industry is non-blank |
| HrProfilePage.HintIffBlankField | app/hr/profile/page.tsx:501-521 | the hint is shown iff one of the four fields is blank |
| HrProfilePage.UniqueCandidates | app/hr/profile/page.tsx:113-125 | 0 without tests; otherwise the number of distinct candidate ids (the size of their set, and the length of the list of them without repeats), at most the number of assignments, and equal to it iff no candidate repeats |
| HrProfilePage.RepeatCandidateCountsOnce | app/hr/profile/page.tsx:124 | two assignments of one candidate count once |
| HrProfilePage.StatsOf | app/hr/profile/page.tsx:127-131 | null counts show as 0, others as they are |
| HrProfilePage.HrProfile.constructor | app/hr/profile/page.tsx:18-37 | loading, zero counters, empty form, nothing written |
| HrProfilePage.HrProfile.LoadProfile | app/hr/profile/page.tsx:47-86 | no user goes to "/login"; a non-HR profile goes to "/candidate/profile"; a failed query loads nothing; otherwise the form is filled; loading ends on every path |
| HrProfilePage.HrProfile.LoadStats | app/hr/profile/page.tsx:88-135 | no user: counters unchanged; otherwise the counters are `StatsOf` the query results |
| HrProfilePage.HrProfile.HandleSaveProfile | app/hr/profile/page.tsx:137-178 | no user: one alert only; otherwise the form is written and editing ends, or the failure's message is alerted |
| HrProfilePage.HrProfile.EditForm | app/hr/profile/page.tsx:238-368 | the form takes the typed values |
| UserProfileMenu.Initials | components/user-profile-menu.tsx:48-55 | at most two characters, with upper case on ASCII letters only; without a name the e-mail's first letter capitalised or "U"; a name without a space gives its first letter capitalised |
| UserProfileMenu.FirstPieceStart | components/user-profile-menu.tsx:50 | the first piece of a split starts with the text's first character when that is not the separator |
| UserProfileMenu.TwoPartInitials | components/user-profile-menu.tsx:50-53 | a first and a last name give their two first letters, capitalised |
| UserProfileMenu.BlankNameHasNoInitials | components/user-profile-menu.tsx:50-53 | a name of two spaces gives empty initials |
| UserProfileMenu.RoleBadge | components/user-profile-menu.tsx:57-61 | the HR badge for "hr", the Candidate badge for "candidate", "User" otherwise; the badge texts are the characters the source file holds |
| UserProfileMenu.ShownBadge | components/user-profile-menu.tsx:83-89 | a badge is shown iff the role is non-empty, and it reads "User" exactly when that role is neither "hr" nor "candidate" |
| UserProfileMenu.ProfilePath | components/user-profile-menu.tsx:38-41 | "/hr/profile" iff the role is "hr", "/candidate/profile" for any other or no role |
| UserProfileMenu.DashboardPath | components/user-profile-menu.tsx:43-46 | "/hr/dashboard" iff the role is "hr", "/candidate/dashboard" for any other or no role |
| UserProfileMenu.EntriesAgree | components/user-profile-menu.tsx:38-46 | both entries lead to the same side of the application |
| AuthUtils.UserProfile | lib/auth-utils.ts:4-20 | nothing without a signed-in user, otherwise the stored row |
| AuthUtils.UserRole | lib/auth-utils.ts:22-25 | a role iff there is a profile whose role is non-empty, and then that role |
| AuthUtils.SignedOutHasNoRole | lib/auth-utils.ts:9-11 | nobody signed in has no role |
| AuthUtils.DashboardPath | lib/auth-utils.ts:27-31 | "/hr/dashboard" for "hr", "/candidate/dashboard" for "candidate", "/dashboard" otherwise |
| AuthUtils.DashboardPathDecodes | lib/auth-utils.ts:27-31 | the path tells the role apart: HR's path iff "hr", the candidate's iff "candidate" |
| AuthUtils.DashboardsAgree | lib/auth-utils.ts:28-29 | for the two real roles the helper, the avatar menu and the sign-up redirect agree |
| AuthUtils.DashboardsDisagreeOtherwise | lib/auth-utils.ts:30 | for any other role the helper's "/dashboard" differs from the menu's candidate dashboard |

## Left out

- **The model endpoint.** The HTTP request in `generateContent` and the generation profiles'
  temperatures are left out. The endpoint is the oracle `fn`; only the message of its status
  error is modelled. The same goes for the "invalid response format" error.
- **Prompt wording.** The text of the prompt templates is free text and is left out. So is
  `toFixed(1)` formatting of numbers in them, and the time-efficiency ratio and
  `actualDuration`, which come from dates. Only the structure that reaches the prompt is
  modelled: the question types, the five quoted texts, the per-topic counters and the list
  of incorrect answers.
- **The prompt-only defaults.** The analysis route's "Candidate", "Position" and 60-minute
  defaults reach only the prompt, so they are left out.
- **`generateLearningPath`.** It is the same retry-then-parse pipeline, with no logic of its
  own beyond its prompt. The pipeline is modelled once, in `GenerateTest`,
  `AnalyzeCandidatePerformance` and `GenerateAdditionalQuestions`.
- **JSON.** `JSON.parse` is an uninterpreted oracle. Parsed values of the wrong type (points
  given as a string, say) and JSON `null` fields are not modelled: a missing field is `None`.
  Comparing two answers with `JSON.stringify` is modelled as equality of the values, which
  it is for strings and lists of strings. The request body of the two POST routes is taken
  as the outcome of `request.json()`: a body that cannot be parsed (or a `null` body, whose
  destructuring throws) is `Threw(message)`, and the route's `catch` answers 500 with that
  message.
- **Floating point.** Numbers are exact reals plus NaN and ±Infinity. The rounding of finite
  quotients and negative zero are not modelled.
- **`toUpperCase`.** It is modelled on ASCII letters only.
- **String length.** Strings are sequences of Unicode scalar values. The two places where
  the code compares a length or an index with a number, the password check and
  `extractTopic`, count UTF-16 code units through `Utf16Length`. A lone surrogate cannot be
  represented.
- UserProfileMenu.Initials: `charAt(0)` of a name or address whose first character lies
  beyond the Basic Multilingual Plane gives a lone surrogate in the source, but the whole
  character in the model. `toUpperCase` of a non-ASCII letter is left unchanged by the
  model, where the source maps it, sometimes to two letters ("ß" gives "SS", so "ß ß"
  gives four letters). The bound of at most two letters holds only for the model.
- **The database and storage.** Every Supabase call is an input:
  - the session;
  - a lookup that returns a row or nothing;
  - a flag saying whether a write or an upload fails.

  The rollback delete of the generate-test route is taken to succeed. The analysis route's
  failed save is ignored, as in the code. Timestamps (`updated_at`, `Date.now()`) are
  integers given by the caller, or left out.
- **Sign-up errors.** A network error thrown by `signUp` is treated like an error the service
  returns, since both land in the same `catch`.
- CandidateProfilePage.CandidateProfile.HandleSaveProfile: the reload after a successful
  write (`await loadProfile()`) is not part of the method; it is `LoadProfile`, run next.
- CandidateProfilePage.CandidateProfile.HandleCvUpload: the same reload after a successful
  upload is left to `LoadProfile`.
- HrProfilePage.HrProfile.HandleSaveProfile: the same reload after a successful save is left
  to `LoadProfile`.
- TestGenerator.TopicDistribution: a topic named after an `Object.prototype` member is
  counted like any other topic. The source counts into a plain `{}`, where such a name reads
  an inherited value: "constructor" turns its entry into text, and "__proto__" never becomes
  a key. The model takes topics not to be such names.
- CandidateAnalyzer.TopicPerformance: for the same reason, a topic named after an
  `Object.prototype` member gets no entry of its own in the source, and its counters are
  added to the inherited object instead. The model gives it an entry like any other topic.
- **Object key order.** JavaScript's ordering of an object's keys is not modelled: the topic
  histogram is a map. Its sum is taken over the topics in first-occurrence order.
- **Rendering and event wiring.** React rendering, animation and markup are left out. So are
  the edit and cancel toggles of the profile pages, `router.refresh()`, `console` logging,
  and the sign-out entry of the avatar menu.
- **Out-of-scope files.** The landing page, the dashboards, the header and the design tokens
  hold no logic beyond static markup and redirects, so they are left out.
