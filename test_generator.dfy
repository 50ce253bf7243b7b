/** Test generation around the AI model (lib/ai/test-generator.ts): the normalisation of
    the questions the model returns, the metadata computed over them, the list of allowed
    question types, and the selection of additional questions. */
module TestGenerator {
  import opened Outcomes
  import opened Counting
  import GeminiClient

  /** A correct answer: one string, or a list of strings. */
  datatype Answer = Single(text: string) | Multi(items: seq<string>)

  /** A question as the model returned it; `None` marks a missing field. */
  datatype RawQuestion = RawQuestion(
    question: Option<string>,
    kind: Option<string>,
    options: Option<seq<string>>,
    correctAnswer: Option<Answer>,
    explanation: Option<string>,
    difficulty: Option<string>,
    topic: Option<string>,
    points: Option<int>)

  /** A question after normalisation: the defaulted fields are always present. */
  datatype TestQuestion = TestQuestion(
    question: Option<string>,
    kind: string,
    options: seq<string>,
    correctAnswer: Option<Answer>,
    explanation: Option<string>,
    difficulty: string,
    topic: string,
    points: int)

  /** The object the model's text parses to; its `questions` field may be missing. */
  datatype TestResponse = TestResponse(questions: Option<seq<RawQuestion>>)

  datatype Metadata = Metadata(totalPoints: int, estimatedDuration: int,
                               topicDistribution: map<string, nat>)

  datatype GeneratedTest = GeneratedTest(questions: seq<TestQuestion>, metadata: Metadata)

  const DefaultKind := "multiple_choice"
  const DefaultDifficulty := "medium"
  const DefaultTopic := "General"
  const DefaultPoints := 10

  /** The per-question mapping of `generateTest`: a falsy kind, options, difficulty, topic
      or points field takes its default; question, correct answer and explanation are
      copied as they are. */
  function NormaliseQuestion(q: RawQuestion): (n: TestQuestion)
    ensures n.question == q.question && n.correctAnswer == q.correctAnswer
         && n.explanation == q.explanation
    ensures n.kind == (if TruthyText(q.kind) then q.kind.value else DefaultKind)
    ensures n.options == (if q.options.Some? then q.options.value else [])
    ensures n.difficulty == (if TruthyText(q.difficulty) then q.difficulty.value else DefaultDifficulty)
    ensures n.topic == (if TruthyText(q.topic) then q.topic.value else DefaultTopic)
    ensures n.points == (if TruthyInt(q.points) then q.points.value else DefaultPoints)
  {
    TestQuestion(q.question, TextOr(q.kind, DefaultKind), SeqOr(q.options, []),
                 q.correctAnswer, q.explanation, TextOr(q.difficulty, DefaultDifficulty),
                 TextOr(q.topic, DefaultTopic), IntOr(q.points, DefaultPoints))
  }

  /** A normalised question read back as a raw one, every field present. */
  function Embed(n: TestQuestion): RawQuestion {
    RawQuestion(n.question, Some(n.kind), Some(n.options), n.correctAnswer, n.explanation,
                Some(n.difficulty), Some(n.topic), Some(n.points))
  }

  /** No defaulted field of a normalised question is falsy. */
  lemma NormalisedFieldsTruthy(q: RawQuestion)
    ensures var n := NormaliseQuestion(q);
      n.kind != "" && n.difficulty != "" && n.topic != "" && n.points != 0
  {
  }

  /** Normalising a normalised question changes nothing. */
  lemma NormaliseIdempotent(q: RawQuestion)
    ensures NormaliseQuestion(Embed(NormaliseQuestion(q))) == NormaliseQuestion(q)
  {
    NormalisedFieldsTruthy(q);
  }

  /** `(parsed.questions || []).map(...)`: one normalised question per returned question,
      in the same order; a missing list gives no question. */
  function Normalise(response: TestResponse): (qs: seq<TestQuestion>)
    ensures response.questions.None? ==> qs == []
    ensures response.questions.Some? ==> |qs| == |response.questions.value|
    ensures response.questions.Some? ==> forall i :: 0 <= i < |qs| ==>
      qs[i] == NormaliseQuestion(response.questions.value[i])
  {
    var raw := SeqOr(response.questions, []);
    seq(|raw|, i requires 0 <= i < |raw| => NormaliseQuestion(raw[i]))
  }

  /** `questions.reduce((sum, q) => sum + q.points, 0)`. */
  function SumPoints(qs: seq<TestQuestion>): int {
    if qs == [] then 0 else SumPoints(qs[..|qs| - 1]) + qs[|qs| - 1].points
  }

  /** The total of two lists of questions put together is the sum of their totals. */
  lemma {:induction false} SumPointsAppend(a: seq<TestQuestion>, b: seq<TestQuestion>)
    ensures SumPoints(a + b) == SumPoints(a) + SumPoints(b)
    decreases |b|
  {
    if b == [] {
      assert a + b == a;
    } else {
      var b' := b[..|b| - 1];
      assert (a + b)[..|a + b| - 1] == a + b';
      SumPointsAppend(a, b');
    }
  }

  /** When every question carries the same number of points, the total is that number
      times the number of questions. */
  lemma {:induction false} SumPointsUniform(qs: seq<TestQuestion>, p: int)
    requires forall i :: 0 <= i < |qs| ==> qs[i].points == p
    ensures SumPoints(qs) == p * |qs|
  {
    if qs != [] {
      SumPointsUniform(qs[..|qs| - 1], p);
    }
  }

  /** When the model gives no question a points value, the total is 10 per question. */
  lemma DefaultPointsTotal(response: TestResponse)
    requires response.questions.Some?
    requires forall i :: 0 <= i < |response.questions.value| ==>
      !TruthyInt(response.questions.value[i].points)
    ensures SumPoints(Normalise(response)) == DefaultPoints * |response.questions.value|
  {
    SumPointsUniform(Normalise(response), DefaultPoints);
  }

  /** The topics of the questions, in order. */
  function Topics(qs: seq<TestQuestion>): seq<string> {
    seq(|qs|, i requires 0 <= i < |qs| => qs[i].topic)
  }

  /** The `forEach` that fills `topicDistribution`: every question adds one to the entry
      of its topic. The keys are exactly the topics, each value is its topic's number of
      questions, and the values add up to the number of questions. */
  method TopicDistribution(qs: seq<TestQuestion>) returns (dist: map<string, nat>)
    ensures dist == Histogram(Topics(qs))
    ensures dist.Keys == Elements(Topics(qs))
    ensures forall t :: t in dist ==> dist[t] == Count(Topics(qs), t)
    ensures SumOver(Distinct(Topics(qs)), dist) == |qs|
  {
    dist := map[];
    var i := 0;
    while i < |qs|
      invariant 0 <= i <= |qs|
      invariant dist == Histogram(Topics(qs)[..i])
    {
      var t := qs[i].topic;
      assert Topics(qs)[..i + 1] == Topics(qs)[..i] + [t];
      HistogramAppend(Topics(qs)[..i], t);
      dist := dist[t := (if t in dist then dist[t] else 0) + 1];
      i := i + 1;
    }
    assert Topics(qs)[..i] == Topics(qs);
    HistogramTotal(Topics(qs));
  }

  /** The result `generateTest` builds from a parsed response. */
  function TestFromResponse(response: TestResponse): GeneratedTest {
    var qs := Normalise(response);
    GeneratedTest(qs, Metadata(SumPoints(qs), 2 * |qs|, Histogram(Topics(qs))))
  }

  /** `generateTest`: one call through the retry wrapper with its defaults, the parse of
      the text, then normalisation and metadata. Any error of the wrapper or of the parse
      is passed on unchanged. */
  method GenerateTest(fn: nat -> Completion<string>, parse: string -> Option<TestResponse>)
    returns (result: Completion<GeneratedTest>, calls: nat, waits: seq<nat>)
    ensures var run := GeminiClient.Retry(fn, 0, GeminiClient.DefaultRetries, GeminiClient.DefaultDelay);
      && calls == run.calls && waits == run.waits
      && (run.result.Threw? ==> result == Threw(run.result.message))
      && (run.result.Normal? ==>
            match GeminiClient.ParseAIResponse(parse, run.result.value)
            case Threw(m) => result == Threw(m)
            case Normal(response) => result == Normal(TestFromResponse(response)))
  {
    var text;
    text, calls, waits := GeminiClient.RetryWithBackoff(fn, GeminiClient.DefaultRetries,
                                                        GeminiClient.DefaultDelay);
    if text.Threw? {
      return Threw(text.message), calls, waits;
    }
    var parsed := GeminiClient.ParseAIResponse(parse, text.value);
    if parsed.Threw? {
      return Threw(parsed.message), calls, waits;
    }
    var qs := Normalise(parsed.value);
    var dist := TopicDistribution(qs);
    result := Normal(GeneratedTest(qs, Metadata(SumPoints(qs), 2 * |qs|, dist)));
  }

  /** The metadata of a generated test: two minutes per question, and a topic histogram
      whose keys are the questions' topics, whose values are their numbers of questions
      and whose values add up to the number of questions. */
  lemma GeneratedMetadata(response: TestResponse)
    ensures var t := TestFromResponse(response);
      && t.metadata.estimatedDuration == 2 * |t.questions|
      && t.metadata.topicDistribution.Keys == Elements(Topics(t.questions))
      && (forall topic :: topic in t.metadata.topicDistribution ==>
            t.metadata.topicDistribution[topic] == Count(Topics(t.questions), topic))
      && SumOver(Distinct(Topics(t.questions)), t.metadata.topicDistribution) == |t.questions|
  {
    HistogramTotal(Topics(TestFromResponse(response).questions));
  }

  /** The question types offered in the prompt: multiple choice and true/false, then
      code when asked for, then essay when asked for. */
  method QuestionTypes(includeCode: bool, includeEssay: bool) returns (types: seq<string>)
    ensures |types| >= 2 && types[..2] == ["multiple_choice", "true_false"]
    ensures "code" in types <==> includeCode
    ensures "essay" in types <==> includeEssay
    ensures types == ["multiple_choice", "true_false"]
                     + (if includeCode then ["code"] else [])
                     + (if includeEssay then ["essay"] else [])
  {
    types := ["multiple_choice", "true_false"];
    if includeCode {
      types := types + ["code"];
    }
    if includeEssay {
      types := types + ["essay"];
    }
  }

  /** `existingQuestionTexts.slice(0, 5)`: the first five question texts, or all of them
      when there are fewer. */
  function QuotedTexts(existing: seq<TestQuestion>): (r: seq<Option<string>>)
    ensures |r| == if |existing| < 5 then |existing| else 5
    ensures forall i :: 0 <= i < |r| ==> r[i] == existing[i].question
  {
    var n := if |existing| < 5 then |existing| else 5;
    seq(n, i requires 0 <= i < n => existing[i].question)
  }

  /** What the model's text for additional questions parses to: an array of questions,
      or an object whose `questions` field may be missing. */
  datatype AdditionalResponse = AsArray(items: seq<RawQuestion>)
                              | AsObject(questions: Option<seq<RawQuestion>>)

  /** `Array.isArray(parsed) ? parsed : parsed.questions || []`: the questions exactly
      as returned, without normalisation. */
  function SelectAdditional(parsed: AdditionalResponse): (r: seq<RawQuestion>)
    ensures parsed.AsArray? ==> r == parsed.items
    ensures parsed.AsObject? && parsed.questions.Some? ==> r == parsed.questions.value
    ensures parsed.AsObject? && parsed.questions.None? ==> r == []
  {
    match parsed
    case AsArray(items) => items
    case AsObject(questions) => SeqOr(questions, [])
  }

  /** `generateAdditionalQuestions`: the retry wrapper with its defaults, the parse, then
      the selection; errors are passed on unchanged. */
  method GenerateAdditionalQuestions(fn: nat -> Completion<string>,
                                     parse: string -> Option<AdditionalResponse>)
    returns (result: Completion<seq<RawQuestion>>, calls: nat, waits: seq<nat>)
    ensures var run := GeminiClient.Retry(fn, 0, GeminiClient.DefaultRetries, GeminiClient.DefaultDelay);
      && calls == run.calls && waits == run.waits
      && (run.result.Threw? ==> result == Threw(run.result.message))
      && (run.result.Normal? ==>
            match GeminiClient.ParseAIResponse(parse, run.result.value)
            case Threw(m) => result == Threw(m)
            case Normal(parsed) => result == Normal(SelectAdditional(parsed)))
  {
    var text;
    text, calls, waits := GeminiClient.RetryWithBackoff(fn, GeminiClient.DefaultRetries,
                                                        GeminiClient.DefaultDelay);
    if text.Threw? {
      return Threw(text.message), calls, waits;
    }
    var parsed := GeminiClient.ParseAIResponse(parse, text.value);
    if parsed.Threw? {
      return Threw(parsed.message), calls, waits;
    }
    result := Normal(SelectAdditional(parsed.value));
  }
}
