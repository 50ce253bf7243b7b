/** The analysis route (app/api/ai/analyze-results/route.ts): grading the stored answers
    against the questions, the topic taken from an explanation, the access rule, and the
    POST and GET handlers with their early returns.

    The database and the session are oracles: the signed-in user's id (`None` when there
    is no session), a lookup of a test result by id, a lookup of a profile's role by user
    id, and a lookup of a test's questions (`None` when the query fails). */
module AnalyzeResultsRoute {
  import opened Outcomes
  import opened JsText
  import opened JsNumber
  import GeminiClient
  import TestGenerator
  import CandidateAnalyzer

  type Answer = TestGenerator.Answer

  const GeneralTopic := "General"

  /** `extractTopic`: the trimmed text before the first colon when that colon is at an
      index from 1 to 29, counted in UTF-16 code units as JavaScript counts it, and
      "General" for everything else (no explanation, an empty
      one, no colon, or a colon too early or too late). */
  function ExtractTopic(explanation: Option<string>): (topic: string)
    ensures !TruthyText(explanation) ==> topic == GeneralTopic
    ensures TruthyText(explanation) ==>
      var k := IndexOf(explanation.value, ':');
      topic == if 0 < k && Utf16Length(explanation.value[..k]) < 30
               then Trim(explanation.value[..k]) else GeneralTopic
    ensures |topic| < 30 && ':' !in topic
  {
    if !TruthyText(explanation) then GeneralTopic
    else
      var e := explanation.value;
      var k := IndexOf(e, ':');
      if 0 < k && Utf16Length(e[..k]) < 30 then
        var t := Trim(e[..k]);
        IndexOfFirst(e, ':');
        TrimKeepsAbsent(e[..k], ':');
        t
      else GeneralTopic
  }

  /** An explanation that opens with a short heading and a colon is filed under that heading. */
  lemma TopicOfHeading(heading: string, rest: string)
    requires heading != [] && Utf16Length(heading) < 30 && ':' !in heading
    ensures ExtractTopic(Some(heading + ":" + rest)) == Trim(heading)
  {
    IndexOfAfterClean(heading, ':', rest);
    assert (heading + ":" + rest)[..|heading|] == heading;
  }

  /** A heading of fifteen characters beyond the Basic Multilingual Plane (emoji, say) is
      thirty code units long, so its colon sits at index 30 and the explanation is filed
      under "General", though the heading has only fifteen characters. */
  lemma AstralHeadingIsGeneral(heading: string, rest: string)
    requires |heading| == 15 && forall i :: 0 <= i < |heading| ==> heading[i] as int > 0xFFFF
    ensures ExtractTopic(Some(heading + ":" + rest)) == GeneralTopic
  {
    assert ':' !in heading by {
      forall i | 0 <= i < |heading| ensures heading[i] != ':' { }
    }
    IndexOfAfterClean(heading, ':', rest);
    assert (heading + ":" + rest)[..|heading|] == heading;
    Utf16LengthOfAstral(heading);
  }

  /** An explanation without a colon is filed under "General". */
  lemma TopicWithoutColon(e: string)
    requires ':' !in e
    ensures ExtractTopic(Some(e)) == GeneralTopic
  {
  }

  /** A question row of the database. Its correct answer is null (`None`) when the model
      gave none, since the generated question is saved with the field as it came. */
  datatype QuestionRow = QuestionRow(id: string, questionText: string, correctAnswer: Option<Answer>,
                                     points: int, explanation: Option<string>)

  /** `answers[q.id] || ""`: the submitted answer, or the empty string when there is none
      (a stored empty string is falsy and also gives the empty string). */
  function Submitted(answers: map<string, Answer>, id: string): Answer {
    if id in answers then answers[id] else TestGenerator.Single("")
  }

  /** The correctness test: against a list, the two JSON texts are compared (which, for
      strings and lists of strings, is equality of the values, in order); against a
      string, strict equality, which a list never meets; against a null correct answer,
      strict equality too, which the submitted answer (a string or a list, "" at least)
      never meets. */
  function IsCorrect(candidate: Answer, correct: Option<Answer>): bool {
    match correct
    case None => false
    case Some(Multi(_)) => candidate == correct.value
    case Some(Single(s)) => candidate.Single? && candidate.text == s
  }

  /** In every case an answer is correct exactly when a correct answer is stored and the
      answer equals it; so nothing is correct against a null correct answer. */
  lemma IsCorrectIffEqual(candidate: Answer, correct: Option<Answer>)
    ensures IsCorrect(candidate, correct) <==> correct == Some(candidate)
  {
  }

  /** The comparison of lists is order-sensitive. */
  lemma ListOrderMatters()
    ensures !IsCorrect(TestGenerator.Multi(["a", "b"]), Some(TestGenerator.Multi(["b", "a"])))
  {
    assert TestGenerator.Multi(["a", "b"]).items[0] != TestGenerator.Multi(["b", "a"]).items[0];
  }

  /** The difficulty label read off the points. */
  function Difficulty(points: int): (d: string)
    ensures d == "easy" <==> points <= 5
    ensures d == "medium" <==> 5 < points <= 10
    ensures d == "hard" <==> 10 < points
  {
    if points <= 5 then "easy" else if points <= 10 then "medium" else "hard"
  }

  /** The `CandidateAnswer` built for one question. */
  function Grade(q: QuestionRow, answers: map<string, Answer>): CandidateAnalyzer.CandidateAnswer {
    var candidate := Submitted(answers, q.id);
    var ok := IsCorrect(candidate, q.correctAnswer);
    CandidateAnalyzer.CandidateAnswer(q.id, q.questionText, candidate, q.correctAnswer, ok,
                                      q.points, if ok then q.points else 0,
                                      ExtractTopic(q.explanation), Difficulty(q.points))
  }

  /** `questions.map(...)`: one graded answer per question, in question order. */
  function GradeAnswers(questions: seq<QuestionRow>, answers: map<string, Answer>)
    : (graded: seq<CandidateAnalyzer.CandidateAnswer>)
    ensures |graded| == |questions|
    ensures forall i :: 0 <= i < |questions| ==>
      var q, a := questions[i], graded[i];
      && a.questionId == q.id && a.points == q.points
      && a.question == q.questionText && a.correctAnswer == q.correctAnswer
      && a.candidateAnswer == Submitted(answers, q.id)
      && (a.isCorrect <==> q.correctAnswer == Some(Submitted(answers, q.id)))
      && a.earnedPoints == (if a.isCorrect then q.points else 0)
      && a.topic == ExtractTopic(q.explanation)
      && a.difficulty == Difficulty(q.points)
  {
    seq(|questions|, i requires 0 <= i < |questions| => Grade(questions[i], answers))
  }

  /** `candidateAnswers.reduce((sum, a) => sum + a.earnedPoints, 0)`. */
  function TotalEarned(graded: seq<CandidateAnalyzer.CandidateAnswer>): int {
    if graded == [] then 0
    else TotalEarned(graded[..|graded| - 1]) + graded[|graded| - 1].earnedPoints
  }

  /** The points available over the graded answers, added up. */
  function TotalAvailable(graded: seq<CandidateAnalyzer.CandidateAnswer>): int {
    if graded == [] then 0
    else TotalAvailable(graded[..|graded| - 1]) + graded[|graded| - 1].points
  }

  /** Each answer earns its points when correct and nothing otherwise. */
  predicate EarnsByCorrectness(a: CandidateAnalyzer.CandidateAnswer) {
    a.earnedPoints == if a.isCorrect then a.points else 0
  }

  /** With non-negative points, the points earned are between 0 and the points available,
      and reach them when every answer is correct. */
  lemma {:induction false} EarnedWithinAvailable(graded: seq<CandidateAnalyzer.CandidateAnswer>)
    requires forall i :: 0 <= i < |graded| ==> graded[i].points >= 0 && EarnsByCorrectness(graded[i])
    ensures 0 <= TotalEarned(graded) <= TotalAvailable(graded)
    ensures (forall i :: 0 <= i < |graded| ==> graded[i].isCorrect)
            ==> TotalEarned(graded) == TotalAvailable(graded)
  {
    if graded != [] {
      EarnedWithinAvailable(graded[..|graded| - 1]);
    }
  }

  /** For graded questions with non-negative points: the total earned is at most the
      total of the points, and equal to it when every submitted answer is right. */
  lemma EarnedBounded(questions: seq<QuestionRow>, answers: map<string, Answer>)
    requires forall i :: 0 <= i < |questions| ==> questions[i].points >= 0
    ensures var graded := GradeAnswers(questions, answers);
      && 0 <= TotalEarned(graded) <= TotalAvailable(graded)
      && ((forall i :: 0 <= i < |questions| ==>
             questions[i].correctAnswer == Some(Submitted(answers, questions[i].id)))
          ==> TotalEarned(graded) == TotalAvailable(graded))
  {
    EarnedWithinAvailable(GradeAnswers(questions, answers));
  }

  /** Access to a result: HR users, and the candidate the result belongs to. */
  predicate MayAccess(role: Option<string>, candidateId: string, userId: string) {
    role == Some("hr") || candidateId == userId
  }

  /** What is stored in a result's `ai_analysis` column. */
  datatype StoredAnalysis = NotStored | AsObject(analysis: CandidateAnalyzer.AnalysisResult)
                          | AsText(text: string)

  /** A test-result row, with the fields of its test that the route reads. */
  datatype TestResultRow = TestResultRow(
    candidateId: string,
    testId: string,
    aiAnalysis: StoredAnalysis,
    answers: Option<map<string, Answer>>,
    score: Option<int>,
    testTotalPoints: Option<int>)

  datatype Response =
    | Failure(status: int, error: string)
    | Found(cached: bool, analysis: StoredAnalysis)
    | NotYetGenerated

  /** What the POST handler writes back to the result row. */
  datatype SavedAnalysis = SavedAnalysis(analysis: CandidateAnalyzer.AnalysisResult, score: Number)

  const Unauthorized := Failure(401, "Unauthorized")
  const ResultNotFound := Failure(404, "Test result not found")
  const DefaultAnalysisError := "Failed to analyze test results. Please try again."

  /** `testResult.score || Math.round(analysis.overallScore)`. */
  function StoredScore(existing: Option<int>, overall: Number): Number {
    if TruthyInt(existing) then Finite(existing.value as real) else Round(overall)
  }

  /** `testResult.answers || {}`. */
  function AnswersOr(answers: Option<map<string, Answer>>): map<string, Answer> {
    if answers.Some? then answers.value else map[]
  }

  /** The POST handler gets past every check to the analysis: signed in, an id, the row
      found, access granted, nothing stored as an object, and the questions fetched. */
  predicate ReachesAnalysis(userId: Option<string>, request: Completion<Option<string>>,
                            fetchResult: string -> Option<TestResultRow>,
                            roleOf: string -> Option<string>,
                            fetchQuestions: string -> Option<seq<QuestionRow>>) {
    && userId.Some? && request.Normal? && TruthyText(request.value)
    && fetchResult(request.value.value).Some?
    && var row := fetchResult(request.value.value).value;
    && MayAccess(roleOf(userId.value), row.candidateId, userId.value)
    && !row.aiAnalysis.AsObject?
    && fetchQuestions(row.testId).Some?
  }

  /** How the POST handler ends once it reaches the analysis: the response, what it saves,
      and the number of model calls. */
  datatype PostOutcome = PostOutcome(response: Response, saved: Option<SavedAnalysis>, calls: nat)

  /** The analysis step of the POST handler: grade the answers, run the analysis over the
      points earned and the test's points (0 when missing), and save and return it; an
      error becomes 500 with its message or the default one. */
  function AnalysisOutcome(row: TestResultRow, questions: seq<QuestionRow>,
                           fn: nat -> Completion<string>,
                           parse: string -> Option<CandidateAnalyzer.RawAnalysis>): PostOutcome {
    var graded := GradeAnswers(questions, AnswersOr(row.answers));
    var run := GeminiClient.Retry(fn, 0, GeminiClient.DefaultRetries, GeminiClient.DefaultDelay);
    if run.result.Threw? then
      PostOutcome(Failure(500, TextOr(run.result.message, DefaultAnalysisError)), None, run.calls)
    else
      match GeminiClient.ParseAIResponse(parse, run.result.value)
      case Threw(m) => PostOutcome(Failure(500, TextOr(m, DefaultAnalysisError)), None, run.calls)
      case Normal(raw) =>
        var analysis := CandidateAnalyzer.AssembleAnalysis(raw, TotalEarned(graded),
                                                           IntOr(row.testTotalPoints, 0));
        PostOutcome(Found(false, AsObject(analysis)),
                    Some(SavedAnalysis(analysis, StoredScore(row.score, analysis.overallScore))),
                    run.calls)
  }

  /** What is saved is what is returned, with the score kept when the row already has a
      non-zero one and the rounded overall score otherwise; nothing is saved on an error. */
  lemma SavedMatchesResponse(row: TestResultRow, questions: seq<QuestionRow>,
                             fn: nat -> Completion<string>,
                             parse: string -> Option<CandidateAnalyzer.RawAnalysis>)
    ensures var out := AnalysisOutcome(row, questions, fn, parse);
      && (out.saved.Some? <==> out.response.Found?)
      && (out.saved.Some? ==>
            && out.response == Found(false, AsObject(out.saved.value.analysis))
            && (TruthyInt(row.score) ==> out.saved.value.score == Finite(row.score.value as real))
            && (!TruthyInt(row.score) ==> out.saved.value.score == Round(out.saved.value.analysis.overallScore)))
      && (out.response.Failure? ==> out.response.status == 500 && out.response.error != "")
  {
  }

  /** The POST handler. `request` is how `request.json()` ends, with the `testResultId` it
      holds; a body that cannot be parsed throws into the handler's `catch`, which answers
      500 with the error's message. The checks run in order: no session gives 401, an
      unreadable body 500, no id 400, no result 404, no access 403; an object already
      stored is returned as cached without calling the model; a failed question query
      gives 500. Otherwise the analysis step runs. */
  method Post(userId: Option<string>, request: Completion<Option<string>>,
              fetchResult: string -> Option<TestResultRow>,
              roleOf: string -> Option<string>,
              fetchQuestions: string -> Option<seq<QuestionRow>>,
              fn: nat -> Completion<string>, parse: string -> Option<CandidateAnalyzer.RawAnalysis>)
    returns (response: Response, saved: Option<SavedAnalysis>, calls: nat)
    ensures userId.None? ==> response == Unauthorized
    ensures (userId.Some? && request.Threw?)
        ==> response == Failure(500, TextOr(request.message, DefaultAnalysisError))
    ensures (userId.Some? && request.Normal? && !TruthyText(request.value))
        ==> response == Failure(400, "Missing required field: testResultId")
    ensures (userId.Some? && request.Normal? && TruthyText(request.value)
             && fetchResult(request.value.value).None?)
        ==> response == ResultNotFound
    ensures (userId.Some? && request.Normal? && TruthyText(request.value)
             && fetchResult(request.value.value).Some?)
        ==> var row := fetchResult(request.value.value).value;
            var allowed := MayAccess(roleOf(userId.value), row.candidateId, userId.value);
            && (!allowed ==> response == Failure(403, "You do not have permission to analyze this test result"))
            && ((allowed && row.aiAnalysis.AsObject?) ==> response == Found(true, row.aiAnalysis))
            && ((allowed && !row.aiAnalysis.AsObject? && fetchQuestions(row.testId).None?)
                  ==> response == Failure(500, "Failed to fetch test questions"))
    ensures !ReachesAnalysis(userId, request, fetchResult, roleOf, fetchQuestions)
        ==> saved.None? && calls == 0
    ensures ReachesAnalysis(userId, request, fetchResult, roleOf, fetchQuestions)
        ==> var row := fetchResult(request.value.value).value;
            PostOutcome(response, saved, calls)
              == AnalysisOutcome(row, fetchQuestions(row.testId).value, fn, parse)
  {
    saved, calls := None, 0;
    if userId.None? {
      return Unauthorized, saved, calls;
    }
    if request.Threw? {
      return Failure(500, TextOr(request.message, DefaultAnalysisError)), saved, calls;
    }
    var testResultId := request.value;
    if !TruthyText(testResultId) {
      return Failure(400, "Missing required field: testResultId"), saved, calls;
    }
    var found := fetchResult(testResultId.value);
    if found.None? {
      return ResultNotFound, saved, calls;
    }
    var row := found.value;
    if !MayAccess(roleOf(userId.value), row.candidateId, userId.value) {
      return Failure(403, "You do not have permission to analyze this test result"), saved, calls;
    }
    if row.aiAnalysis.AsObject? {
      return Found(true, row.aiAnalysis), saved, calls;
    }
    var questions := fetchQuestions(row.testId);
    if questions.None? {
      return Failure(500, "Failed to fetch test questions"), saved, calls;
    }
    var graded := GradeAnswers(questions.value, AnswersOr(row.answers));
    var result, waits;
    result, calls, waits := CandidateAnalyzer.AnalyzeCandidatePerformance(
      fn, parse, TotalEarned(graded), IntOr(row.testTotalPoints, 0));
    if result.Threw? {
      return Failure(500, TextOr(result.message, DefaultAnalysisError)), saved, calls;
    }
    var analysis := result.value;
    saved := Some(SavedAnalysis(analysis, StoredScore(row.score, analysis.overallScore)));
    response := Found(false, AsObject(analysis));
  }

  /** JavaScript truthiness of a stored analysis: any object, or a non-empty text. */
  predicate StoredTruthy(stored: StoredAnalysis) {
    stored.AsObject? || (stored.AsText? && stored.text != "")
  }

  /** The GET handler: the same checks as POST up to access; then whatever truthy value is
      stored is returned as cached, and otherwise the analysis is reported as not yet
      generated. It never calls the model. */
  method Get(userId: Option<string>, testResultId: Option<string>,
             fetchResult: string -> Option<TestResultRow>,
             roleOf: string -> Option<string>)
    returns (response: Response)
    ensures userId.None? ==> response == Unauthorized
    ensures (userId.Some? && !TruthyText(testResultId))
        ==> response == Failure(400, "Missing required parameter: testResultId")
    ensures (userId.Some? && TruthyText(testResultId) && fetchResult(testResultId.value).None?)
        ==> response == ResultNotFound
    ensures (userId.Some? && TruthyText(testResultId) && fetchResult(testResultId.value).Some?)
        ==> var row := fetchResult(testResultId.value).value;
            var allowed := MayAccess(roleOf(userId.value), row.candidateId, userId.value);
            && (!allowed ==> response == Failure(403, "You do not have permission to view this analysis"))
            && (allowed ==> response == if StoredTruthy(row.aiAnalysis) then Found(true, row.aiAnalysis)
                                        else NotYetGenerated)
  {
    if userId.None? {
      return Unauthorized;
    }
    if !TruthyText(testResultId) {
      return Failure(400, "Missing required parameter: testResultId");
    }
    var found := fetchResult(testResultId.value);
    if found.None? {
      return ResultNotFound;
    }
    var row := found.value;
    if !MayAccess(roleOf(userId.value), row.candidateId, userId.value) {
      return Failure(403, "You do not have permission to view this analysis");
    }
    if StoredTruthy(row.aiAnalysis) {
      return Found(true, row.aiAnalysis);
    }
    response := NotYetGenerated;
  }
}
