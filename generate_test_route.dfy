/** The test-generation route (app/api/ai/generate-test/route.ts): the request body and its
    defaults, the checks run before generating, and the rows written for the new test and
    its questions, with the test row removed again when the questions cannot be saved.

    The session, the profile lookup and the success of each database insert are inputs;
    the database's two tables are the fields of a `Database` object. */
module GenerateTestRoute {
  import opened Outcomes
  import GeminiClient
  import TestGenerator

  /** `skills` as sent: a list, or a single value that is not a list. */
  datatype SkillsField = SkillList(items: seq<string>) | SkillText(text: string)

  /** The request body; `None` marks a field the body leaves out. */
  datatype RequestBody = RequestBody(
    jobTitle: Option<string>,
    jobDescription: Option<string>,
    skills: Option<SkillsField>,
    difficulty: Option<string>,
    questionCount: Option<int>,
    topics: Option<seq<string>>,
    includeCode: Option<bool>,
    includeEssay: Option<bool>,
    testTitle: Option<string>,
    testDescription: Option<string>,
    duration: Option<int>,
    passingScore: Option<int>)

  /** A destructuring default: it applies only when the field is left out. */
  function Default<T>(v: Option<T>, d: T): T {
    if v.Some? then v.value else d
  }

  const DefaultDifficulty := "medium"
  const DefaultQuestionCount := 10
  const DefaultPassingScore := 70

  /** The question count after its default. */
  function QuestionCount(body: RequestBody): int {
    Default(body.questionCount, DefaultQuestionCount)
  }

  /** `!skills || skills.length === 0` fails: skills are present and non-empty. */
  predicate SkillsGiven(skills: Option<SkillsField>) {
    skills.Some? &&
    match skills.value
    case SkillList(items) => |items| > 0
    case SkillText(text) => text != ""
  }

  /** The required fields are present and non-empty. */
  predicate RequiredPresent(body: RequestBody) {
    TruthyText(body.jobTitle) && TruthyText(body.jobDescription) && SkillsGiven(body.skills)
  }

  datatype Response =
    | Failure(status: int, error: string)
    | Created(id: nat, title: string, description: string, questionCount: nat,
              totalPoints: int, estimatedDuration: int, topicDistribution: map<string, nat>,
              questions: seq<TestGenerator.TestQuestion>)

  const Unauthorized := Failure(401, "Unauthorized")
  const NotHr := Failure(403, "Only HR users can generate tests")
  const MissingFields := Failure(400, "Missing required fields: jobTitle, jobDescription, skills")
  const BadCount := Failure(400, "Question count must be between 1 and 50")

  /** The checks before generation, in order: no session (401), a caller who is not HR
      (403), a missing required field (400), a question count outside 1..50 after its
      default (400). The result is the first failure, or `None` when all pass. */
  function Rejection(userId: Option<string>, role: Option<string>, body: RequestBody)
    : (r: Option<Response>)
    ensures userId.None? ==> r == Some(Unauthorized)
    ensures userId.Some? && role != Some("hr") ==> r == Some(NotHr)
    ensures (userId.Some? && role == Some("hr") && !RequiredPresent(body)) ==> r == Some(MissingFields)
    ensures (userId.Some? && role == Some("hr") && RequiredPresent(body)
             && !(1 <= QuestionCount(body) <= 50)) ==> r == Some(BadCount)
    ensures r.None? <==> userId.Some? && role == Some("hr") && RequiredPresent(body)
                         && 1 <= QuestionCount(body) <= 50
  {
    if userId.None? then Some(Unauthorized)
    else if role != Some("hr") then Some(NotHr)
    else if !RequiredPresent(body) then Some(MissingFields)
    else if QuestionCount(body) < 1 || QuestionCount(body) > 50 then Some(BadCount)
    else None
  }

  /** The same checks with the body as `request.json()` leaves it: a body that cannot be
      parsed throws, after the session and role checks, into the handler's `catch`, which
      answers 500 with the error's message. */
  function Refusal(userId: Option<string>, role: Option<string>, request: Completion<RequestBody>)
    : (r: Option<Response>)
    ensures request.Normal? ==> r == Rejection(userId, role, request.value)
    ensures request.Threw? ==> r.Some?
    ensures request.Threw? && userId.None? ==> r == Some(Unauthorized)
    ensures request.Threw? && userId.Some? && role != Some("hr") ==> r == Some(NotHr)
    ensures request.Threw? && userId.Some? && role == Some("hr")
      ==> r == Some(Failure(500, TextOr(request.message, DefaultGenerationError)))
  {
    if userId.None? then Some(Unauthorized)
    else if role != Some("hr") then Some(NotHr)
    else if request.Threw? then Some(Failure(500, TextOr(request.message, DefaultGenerationError)))
    else Rejection(userId, role, request.value)
  }

  /** The parameters handed to the generator. */
  datatype GenerateParams = GenerateParams(
    jobTitle: string, jobDescription: string, skills: seq<string>, difficulty: string,
    questionCount: int, topics: Option<seq<string>>, includeCode: bool, includeEssay: bool)

  /** `Array.isArray(skills) ? skills : [skills]`. */
  function SkillsAsList(skills: SkillsField): (list: seq<string>)
    ensures skills.SkillList? ==> list == skills.items
    ensures skills.SkillText? ==> list == [skills.text]
  {
    match skills
    case SkillList(items) => items
    case SkillText(text) => [text]
  }

  function Params(body: RequestBody): GenerateParams
    requires RequiredPresent(body)
  {
    GenerateParams(body.jobTitle.value, body.jobDescription.value, SkillsAsList(body.skills.value),
                   Default(body.difficulty, DefaultDifficulty), QuestionCount(body), body.topics,
                   Default(body.includeCode, false), Default(body.includeEssay, false))
  }

  /** A body that passes the checks yields parameters with a job title, a job
      description, at least one skill and a question count in 1..50; the optional fields
      take their defaults only when they are left out. */
  lemma AcceptedParams(userId: Option<string>, role: Option<string>, body: RequestBody)
    requires Rejection(userId, role, body).None?
    ensures var p := Params(body);
      && p.jobTitle != "" && p.jobDescription != "" && |p.skills| >= 1
      && 1 <= p.questionCount <= 50
      && (body.difficulty.None? ==> p.difficulty == DefaultDifficulty)
      && (body.difficulty.Some? ==> p.difficulty == body.difficulty.value)
      && (body.questionCount.None? ==> p.questionCount == DefaultQuestionCount)
      && (body.includeCode.None? ==> !p.includeCode)
      && (body.includeEssay.None? ==> !p.includeEssay)
  {
  }

  /** A row of the `tests` table. */
  datatype TestRecord = TestRecord(createdBy: string, title: string, description: string,
                                   durationMinutes: int, passingScore: int, totalPoints: int,
                                   aiGenerated: bool, isPublished: bool)

  /** A row of the `questions` table. */
  datatype QuestionRecord = QuestionRecord(
    testId: nat, questionText: Option<string>, questionType: string, options: seq<string>,
    correctAnswer: Option<TestGenerator.Answer>, explanation: Option<string>, points: int,
    orderIndex: nat)

  /** The test row: the given title or "<job title> Assessment", the given description or
      the generated one, the given duration when non-zero or the estimate, the passing
      score (70 when left out), the generated total, created by AI and not published. */
  function TestRow(userId: string, body: RequestBody, test: TestGenerator.GeneratedTest): (row: TestRecord)
    requires TruthyText(body.jobTitle)
    ensures row.title == if TruthyText(body.testTitle) then body.testTitle.value
                         else body.jobTitle.value + " Assessment"
    ensures row.durationMinutes == if TruthyInt(body.duration) then body.duration.value
                                   else test.metadata.estimatedDuration
    ensures row.description == if TruthyText(body.testDescription) then body.testDescription.value
                               else "AI-generated assessment for " + body.jobTitle.value + " position"
    ensures body.passingScore.None? ==> row.passingScore == DefaultPassingScore
    ensures body.passingScore.Some? ==> row.passingScore == body.passingScore.value
    ensures row.totalPoints == test.metadata.totalPoints
    ensures row.aiGenerated && !row.isPublished && row.createdBy == userId
  {
    var jobTitle := body.jobTitle.value;
    TestRecord(userId,
               TextOr(body.testTitle, jobTitle + " Assessment"),
               TextOr(body.testDescription, "AI-generated assessment for " + jobTitle + " position"),
               IntOr(body.duration, test.metadata.estimatedDuration),
               Default(body.passingScore, DefaultPassingScore),
               test.metadata.totalPoints,
               true, false)
  }

  /** `generatedTest.questions.map((q, index) => ...)`: one row per question, in order,
      pointing at the test and numbered by its position. */
  function QuestionRows(testId: nat, qs: seq<TestGenerator.TestQuestion>): (rows: seq<QuestionRecord>)
    ensures |rows| == |qs|
    ensures forall i :: 0 <= i < |qs| ==>
      && rows[i].testId == testId && rows[i].orderIndex == i
      && rows[i].questionText == qs[i].question && rows[i].questionType == qs[i].kind
      && rows[i].options == qs[i].options && rows[i].correctAnswer == qs[i].correctAnswer
      && rows[i].explanation == qs[i].explanation && rows[i].points == qs[i].points
  {
    seq(|qs|, i requires 0 <= i < |qs| =>
      QuestionRecord(testId, qs[i].question, qs[i].kind, qs[i].options, qs[i].correctAnswer,
                     qs[i].explanation, qs[i].points, i))
  }

  function SumRowPoints(rows: seq<QuestionRecord>): int {
    if rows == [] then 0 else SumRowPoints(rows[..|rows| - 1]) + rows[|rows| - 1].points
  }

  /** The points of the saved question rows add up to the test row's total. */
  lemma {:induction false} RowPointsMatchTotal(testId: nat, qs: seq<TestGenerator.TestQuestion>)
    ensures SumRowPoints(QuestionRows(testId, qs)) == TestGenerator.SumPoints(qs)
  {
    if qs != [] {
      var init := qs[..|qs| - 1];
      assert QuestionRows(testId, qs)[..|qs| - 1] == QuestionRows(testId, init);
      RowPointsMatchTotal(testId, init);
    }
  }

  /** The two tables the route writes. */
  class Database {
    var tests: map<nat, TestRecord>
    var questions: seq<QuestionRecord>
    var nextTestId: nat

    /** Every test id in use was issued before `nextTestId`. */
    predicate Valid()
      reads this
    {
      forall id :: id in tests ==> id < nextTestId
    }

    constructor ()
      ensures Valid() && tests == map[] && questions == []
    {
      tests, questions, nextTestId := map[], [], 0;
    }

    /** Inserts a test row under a fresh id. */
    method InsertTest(row: TestRecord) returns (id: nat)
      requires Valid()
      modifies this
      ensures Valid()
      ensures id !in old(tests) && tests == old(tests)[id := row]
      ensures questions == old(questions)
    {
      id := nextTestId;
      tests := tests[id := row];
      nextTestId := nextTestId + 1;
    }

    /** Deletes a test row. */
    method DeleteTest(id: nat)
      requires Valid()
      modifies this
      ensures Valid()
      ensures tests == old(tests) - {id} && questions == old(questions)
      ensures nextTestId == old(nextTestId)
    {
      tests := tests - {id};
    }

    /** Inserts question rows at the end of the table. */
    method InsertQuestions(rows: seq<QuestionRecord>)
      requires Valid()
      modifies this
      ensures Valid()
      ensures questions == old(questions) + rows && tests == old(tests)
      ensures nextTestId == old(nextTestId)
    {
      questions := questions + rows;
    }
  }

  const DefaultGenerationError := "Failed to generate test. Please try again."
  const TestSaveFailed := Failure(500, "Failed to save test to database")
  const QuestionsSaveFailed := Failure(500, "Failed to save questions to database")

  /** The writes of the handler once a test is generated: the test row, then its question
      rows. A failed test insert writes nothing; a failed question insert deletes the test
      row again. Either way the tables end as they were and the response is a 500. */
  method SaveGenerated(db: Database, userId: string, body: RequestBody,
                       test: TestGenerator.GeneratedTest,
                       testInsertFails: bool, questionsInsertFails: bool)
    returns (response: Response)
    requires db.Valid() && TruthyText(body.jobTitle)
    modifies db
    ensures db.Valid()
    ensures testInsertFails ==> response == TestSaveFailed
    ensures !testInsertFails && questionsInsertFails ==> response == QuestionsSaveFailed
    ensures response.Failure? ==> db.tests == old(db.tests) && db.questions == old(db.questions)
    ensures response.Created? <==> !testInsertFails && !questionsInsertFails
    ensures response.Created? ==>
      && response.id !in old(db.tests)
      && db.tests == old(db.tests)[response.id := TestRow(userId, body, test)]
      && response.title == TestRow(userId, body, test).title
      && response.description == TestRow(userId, body, test).description
      && db.questions == old(db.questions) + QuestionRows(response.id, test.questions)
      && response.questionCount == |test.questions|
      && response.totalPoints == test.metadata.totalPoints
      && response.estimatedDuration == test.metadata.estimatedDuration
      && response.topicDistribution == test.metadata.topicDistribution
      && response.questions == test.questions
  {
    var row := TestRow(userId, body, test);
    if testInsertFails {
      return TestSaveFailed;
    }
    var id := db.InsertTest(row);
    var rows := QuestionRows(id, test.questions);
    if questionsInsertFails {
      db.DeleteTest(id);
      assert db.tests == old(db.tests);
      return QuestionsSaveFailed;
    }
    db.InsertQuestions(rows);
    response := Created(id, row.title, row.description, |test.questions|,
                        test.metadata.totalPoints, test.metadata.estimatedDuration,
                        test.metadata.topicDistribution, test.questions);
  }

  /** How the generation step ends for the model's answers: the generated test, or the
      error of the model call (`Retry`) or of the parse (`ParseAIResponse`). */
  function Generation(fn: nat -> Completion<string>, parse: string -> Option<TestGenerator.TestResponse>)
    : Completion<TestGenerator.GeneratedTest>
  {
    var run := GeminiClient.Retry(fn, 0, GeminiClient.DefaultRetries, GeminiClient.DefaultDelay);
    if run.result.Threw? then Threw(run.result.message)
    else
      match GeminiClient.ParseAIResponse(parse, run.result.value)
      case Threw(m) => Threw(m)
      case Normal(response) => Normal(TestGenerator.TestFromResponse(response))
  }

  /** The POST handler. A refused request, an unreadable body included (`Refusal`), changes
      nothing. An error of the generation gives 500 with its message, or the fixed text when
      it has none. Otherwise `SaveGenerated` writes the test and its questions, or leaves
      both tables as they were and gives its 500. */
  method Post(db: Database, userId: Option<string>, role: Option<string>,
              request: Completion<RequestBody>,
              fn: nat -> Completion<string>, parse: string -> Option<TestGenerator.TestResponse>,
              testInsertFails: bool, questionsInsertFails: bool)
    returns (response: Response)
    requires db.Valid()
    modifies db
    ensures db.Valid()
    ensures Refusal(userId, role, request).Some? ==>
      response == Refusal(userId, role, request).value && unchanged(db)
    ensures Refusal(userId, role, request).None? && Generation(fn, parse).Threw? ==>
      && response == Failure(500, TextOr(Generation(fn, parse).message, DefaultGenerationError))
      && unchanged(db)
    ensures Refusal(userId, role, request).None? && Generation(fn, parse).Normal? ==>
      && (testInsertFails ==> response == TestSaveFailed)
      && (!testInsertFails && questionsInsertFails ==> response == QuestionsSaveFailed)
    ensures Refusal(userId, role, request).None? && response.Failure? ==> response.status == 500
    ensures response.Failure? ==> db.tests == old(db.tests) && db.questions == old(db.questions)
    ensures response.Created? <==>
      Refusal(userId, role, request).None? && Generation(fn, parse).Normal?
      && !testInsertFails && !questionsInsertFails
    ensures response.Created? ==>
      var test := Generation(fn, parse).value;
      && response.id !in old(db.tests)
      && db.tests == old(db.tests)[response.id := TestRow(userId.value, request.value, test)]
      && response.title == TestRow(userId.value, request.value, test).title
      && response.description == TestRow(userId.value, request.value, test).description
      && db.questions == old(db.questions) + QuestionRows(response.id, test.questions)
      && response.questionCount == |test.questions|
      && response.totalPoints == test.metadata.totalPoints
      && response.estimatedDuration == test.metadata.estimatedDuration
      && response.topicDistribution == test.metadata.topicDistribution
      && response.questions == test.questions
  {
    var rejected := Refusal(userId, role, request);
    if rejected.Some? {
      return rejected.value;
    }
    var generated, calls, waits := TestGenerator.GenerateTest(fn, parse);
    assert generated == Generation(fn, parse);
    if generated.Threw? {
      return Failure(500, TextOr(generated.message, DefaultGenerationError));
    }
    response := SaveGenerated(db, userId.value, request.value, generated.value, testInsertFails,
                              questionsInsertFails);
  }
}
