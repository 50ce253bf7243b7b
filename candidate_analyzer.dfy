/** Candidate analysis (lib/ai/candidate-analyzer.ts): the score and percentile computed
    from the points, the defaults put on the model's analysis, the per-topic aggregation
    and the incorrect-answer list that go into the prompt, and the quick-feedback shortcut. */
module CandidateAnalyzer {
  import opened Outcomes
  import opened JsText
  import opened JsNumber
  import opened Counting
  import GeminiClient
  import TestGenerator

  /** One graded answer, as the analysis route builds it. The stored correct answer may be
      null (`None`): question rows keep a missing `correct_answer` as it is. */
  datatype CandidateAnswer = CandidateAnswer(
    questionId: string,
    question: string,
    candidateAnswer: TestGenerator.Answer,
    correctAnswer: Option<TestGenerator.Answer>,
    isCorrect: bool,
    points: int,
    earnedPoints: int,
    topic: string,
    difficulty: string)

  /** `estimatePercentile`: a step function of the score with inclusive thresholds
      90, 80, 70, 60, 50, 40 and values 95, 85, 70, 55, 40, 25, and 10 below them all
      (NaN included, since every comparison with NaN is false). */
  function EstimatePercentile(score: Number): (p: int)
    ensures p == 95 <==> AtLeast(score, 90.0)
    ensures p == 85 <==> AtLeast(score, 80.0) && !AtLeast(score, 90.0)
    ensures p == 70 <==> AtLeast(score, 70.0) && !AtLeast(score, 80.0)
    ensures p == 55 <==> AtLeast(score, 60.0) && !AtLeast(score, 70.0)
    ensures p == 40 <==> AtLeast(score, 50.0) && !AtLeast(score, 60.0)
    ensures p == 25 <==> AtLeast(score, 40.0) && !AtLeast(score, 50.0)
    ensures p == 10 <==> !AtLeast(score, 40.0)
  {
    if AtLeast(score, 90.0) then 95
    else if AtLeast(score, 80.0) then 85
    else if AtLeast(score, 70.0) then 70
    else if AtLeast(score, 60.0) then 55
    else if AtLeast(score, 50.0) then 40
    else if AtLeast(score, 40.0) then 25
    else 10
  }

  /** A higher finite score never gets a lower percentile. */
  lemma PercentileMonotone(a: real, b: real)
    requires a <= b
    ensures EstimatePercentile(Finite(a)) <= EstimatePercentile(Finite(b))
  {
  }

  /** `(earnedPoints / totalPoints) * 100`. */
  function ScorePercentage(earned: int, total: int): Number {
    Scale(Divide(earned, total), 100.0)
  }

  /** With a positive total the score is the exact percentage of points earned. */
  lemma ScoreOfPositiveTotal(earned: int, total: int)
    requires total > 0
    ensures ScorePercentage(earned, total).Finite?
    ensures ScorePercentage(earned, total).value * total as real == 100.0 * earned as real
  {
    var q := Divide(earned, total);
    assert q.value * total as real == earned as real;
    calc {
      ScorePercentage(earned, total).value * total as real;
      (q.value * 100.0) * total as real;
      100.0 * (q.value * total as real);
    }
  }

  datatype Strength = Strength(topic: string, score: int, description: string)
  datatype Weakness = Weakness(topic: string, score: int, description: string,
                               improvementSuggestions: seq<string>)
  datatype Recommendation = Recommendation(priority: string, category: string, title: string,
                                           description: string, resources: seq<string>)

  /** The analysis as the model returned it; `None` marks a missing field. The model's own
      `overallScore` and `percentile` are read into the record but never used. */
  datatype RawAnalysis = RawAnalysis(
    overallScore: Option<int>,
    percentile: Option<int>,
    strengths: Option<seq<Strength>>,
    weaknesses: Option<seq<Weakness>>,
    recommendations: Option<seq<Recommendation>>,
    summary: Option<string>,
    detailedFeedback: Option<string>,
    estimatedSkillLevel: Option<string>,
    readinessScore: Option<int>)

  datatype AnalysisResult = AnalysisResult(
    overallScore: Number,
    percentile: int,
    strengths: seq<Strength>,
    weaknesses: seq<Weakness>,
    recommendations: seq<Recommendation>,
    summary: string,
    detailedFeedback: string,
    estimatedSkillLevel: string,
    readinessScore: Number)

  const DefaultSummary := "Analysis completed."
  const DefaultSkillLevel := "intermediate"

  /** The result `analyzeCandidatePerformance` assembles from the parsed analysis and the
      points. */
  function AssembleAnalysis(raw: RawAnalysis, earned: int, total: int): AnalysisResult {
    var score := ScorePercentage(earned, total);
    AnalysisResult(
      score,
      EstimatePercentile(score),
      SeqOr(raw.strengths, []),
      SeqOr(raw.weaknesses, []),
      SeqOr(raw.recommendations, []),
      TextOr(raw.summary, DefaultSummary),
      TextOr(raw.detailedFeedback, TextOr(raw.summary, "")),
      TextOr(raw.estimatedSkillLevel, DefaultSkillLevel),
      if TruthyInt(raw.readinessScore) then Finite(raw.readinessScore.value as real)
      else Round(score))
  }

  /** Score and percentile come from the points alone, whatever the model said. */
  lemma ScoreIgnoresModel(raw1: RawAnalysis, raw2: RawAnalysis, earned: int, total: int)
    ensures var a1, a2 := AssembleAnalysis(raw1, earned, total), AssembleAnalysis(raw2, earned, total);
      a1.overallScore == a2.overallScore && a1.percentile == a2.percentile
      && a1.overallScore == ScorePercentage(earned, total)
      && a1.percentile == EstimatePercentile(ScorePercentage(earned, total))
  {
  }

  /** Full marks on a test with points give a score of 100 and the top percentile, and a
      readiness of 100 when the model gives none. */
  lemma FullMarks(raw: RawAnalysis, total: int)
    requires total > 0
    ensures var a := AssembleAnalysis(raw, total, total);
      && a.overallScore == Finite(100.0)
      && a.percentile == 95
      && (!TruthyInt(raw.readinessScore) ==> a.readinessScore == Finite(100.0))
  {
    ScoreOfPositiveTotal(total, total);
  }

  /** Half the points of a test (20 of 40) give a score of 50 and the 40th percentile. */
  lemma HalfMarks(raw: RawAnalysis)
    ensures var a := AssembleAnalysis(raw, 20, 40);
      a.overallScore == Finite(50.0) && a.percentile == 40
  {
    ScoreOfPositiveTotal(20, 40);
  }

  /** A test worth no points gives NaN as the score (0 / 0), hence the bottom percentile
      and a NaN readiness when the model gives none. */
  lemma NoPointsTest(raw: RawAnalysis)
    ensures var a := AssembleAnalysis(raw, 0, 0);
      && a.overallScore == NaN
      && a.percentile == 10
      && (!TruthyInt(raw.readinessScore) ==> a.readinessScore == NaN)
  {
  }

  /** The text fields when the model supplies nothing: the summary gets its default, but
      the detailed feedback falls back to the model's (missing) summary and so is empty. */
  lemma EmptyAnalysisDefaults(earned: int, total: int)
    ensures var a := AssembleAnalysis(RawAnalysis(None, None, None, None, None, None, None, None, None),
                                      earned, total);
      && a.strengths == [] && a.weaknesses == [] && a.recommendations == []
      && a.summary == DefaultSummary && a.detailedFeedback == ""
      && a.estimatedSkillLevel == DefaultSkillLevel
      && a.readinessScore == Round(ScorePercentage(earned, total))
  {
  }

  /** Every text field of the analysis is the model's value when that is non-empty. */
  lemma ModelTextKept(raw: RawAnalysis, earned: int, total: int)
    ensures var a := AssembleAnalysis(raw, earned, total);
      && (TruthyText(raw.summary) ==> a.summary == raw.summary.value)
      && (TruthyText(raw.detailedFeedback) ==> a.detailedFeedback == raw.detailedFeedback.value)
      && ((!TruthyText(raw.detailedFeedback) && TruthyText(raw.summary))
            ==> a.detailedFeedback == raw.summary.value)
      && (TruthyText(raw.estimatedSkillLevel) ==> a.estimatedSkillLevel == raw.estimatedSkillLevel.value)
      && (TruthyInt(raw.readinessScore) ==> a.readinessScore == Finite(raw.readinessScore.value as real))
  {
  }

  /** `analyzeCandidatePerformance`: the retry wrapper with its defaults, the parse, then
      the assembly; errors are passed on unchanged. */
  method AnalyzeCandidatePerformance(fn: nat -> Completion<string>,
                                     parse: string -> Option<RawAnalysis>,
                                     earned: int, total: int)
    returns (result: Completion<AnalysisResult>, calls: nat, waits: seq<nat>)
    ensures var run := GeminiClient.Retry(fn, 0, GeminiClient.DefaultRetries, GeminiClient.DefaultDelay);
      && calls == run.calls && waits == run.waits
      && (run.result.Threw? ==> result == Threw(run.result.message))
      && (run.result.Normal? ==>
            match GeminiClient.ParseAIResponse(parse, run.result.value)
            case Threw(m) => result == Threw(m)
            case Normal(raw) => result == Normal(AssembleAnalysis(raw, earned, total)))
  {
    var text;
    text, calls, waits := GeminiClient.RetryWithBackoff(fn, GeminiClient.DefaultRetries,
                                                        GeminiClient.DefaultDelay);
    if text.Threw? {
      return Threw(text.message), calls, waits;
    }
    var parsed := GeminiClient.ParseAIResponse(parse, text.value);
    if parsed.Threw? {
      return Threw(parsed.message), calls, waits;
    }
    result := Normal(AssembleAnalysis(parsed.value, earned, total));
  }

  /** The counters kept per topic while the prompt is built. */
  datatype TopicStats = TopicStats(correct: nat, total: nat, points: int, maxPoints: int)

  const NoStats := TopicStats(0, 0, 0, 0)

  /** What one answer adds to the counters of its topic. */
  function Tally(s: TopicStats, a: CandidateAnswer): TopicStats {
    TopicStats(s.correct + (if a.isCorrect then 1 else 0), s.total + 1,
               s.points + a.earnedPoints, s.maxPoints + a.points)
  }

  function AnswerTopics(answers: seq<CandidateAnswer>): seq<string> {
    seq(|answers|, i requires 0 <= i < |answers| => answers[i].topic)
  }

  /** The counters of `topic` over the answers, in order. */
  function StatsOf(answers: seq<CandidateAnswer>, topic: string): TopicStats {
    if answers == [] then NoStats
    else
      var prev := StatsOf(answers[..|answers| - 1], topic);
      if answers[|answers| - 1].topic == topic then Tally(prev, answers[|answers| - 1]) else prev
  }

  /** The whole `topicPerformance` record: an entry per topic that occurs. */
  function Performance(answers: seq<CandidateAnswer>): map<string, TopicStats> {
    map t | t in Elements(AnswerTopics(answers)) :: StatsOf(answers, t)
  }

  lemma AnswerTopicsAppend(answers: seq<CandidateAnswer>, a: CandidateAnswer)
    ensures AnswerTopics(answers + [a]) == AnswerTopics(answers) + [a.topic]
  {
  }

  lemma {:induction false} StatsOfAbsent(answers: seq<CandidateAnswer>, topic: string)
    requires topic !in AnswerTopics(answers)
    ensures StatsOf(answers, topic) == NoStats
  {
    if answers != [] {
      var init := answers[..|answers| - 1];
      AnswerTopicsAppend(init, answers[|answers| - 1]);
      assert answers == init + [answers[|answers| - 1]];
      StatsOfAbsent(init, topic);
    }
  }

  /** The per-answer update of the `forEach`: create the entry at zero when the topic is
      new, then count the answer in. */
  lemma PerformanceAppend(answers: seq<CandidateAnswer>, a: CandidateAnswer)
    ensures var m := Performance(answers);
      Performance(answers + [a]) == m[a.topic := Tally(if a.topic in m then m[a.topic] else NoStats, a)]
  {
    var m, m' := Performance(answers), Performance(answers + [a]);
    AnswerTopicsAppend(answers, a);
    assert (answers + [a])[..|answers|] == answers;
    assert Elements(AnswerTopics(answers + [a])) == Elements(AnswerTopics(answers)) + {a.topic};
    if a.topic !in m {
      StatsOfAbsent(answers, a.topic);
    }
  }

  /** The `forEach` that fills `topicPerformance`, entry by entry. */
  method TopicPerformance(answers: seq<CandidateAnswer>) returns (perf: map<string, TopicStats>)
    ensures perf == Performance(answers)
  {
    perf := map[];
    var i := 0;
    while i < |answers|
      invariant 0 <= i <= |answers|
      invariant perf == Performance(answers[..i])
    {
      var a := answers[i];
      assert answers[..i + 1] == answers[..i] + [a];
      PerformanceAppend(answers[..i], a);
      if a.topic !in perf {
        perf := perf[a.topic := NoStats];
      }
      perf := perf[a.topic := Tally(perf[a.topic], a)];
      i := i + 1;
    }
    assert answers[..i] == answers;
  }

  /** A topic's `total` is its number of answers, and `correct` never exceeds it. */
  lemma {:induction false} StatsCount(answers: seq<CandidateAnswer>, topic: string)
    ensures StatsOf(answers, topic).total == Count(AnswerTopics(answers), topic)
    ensures StatsOf(answers, topic).correct <= StatsOf(answers, topic).total
  {
    if answers != [] {
      var init := answers[..|answers| - 1];
      assert answers == init + [answers[|answers| - 1]];
      AnswerTopicsAppend(init, answers[|answers| - 1]);
      CountAppend(AnswerTopics(init), answers[|answers| - 1].topic, topic);
      StatsCount(init, topic);
    }
  }

  /** The `total` counters of the listed topics, added up. */
  function SumTotals(keys: seq<string>, m: map<string, TopicStats>): nat
    requires forall k :: k in keys ==> k in m
  {
    if keys == [] then 0 else SumTotals(keys[..|keys| - 1], m) + m[keys[|keys| - 1]].total
  }

  lemma {:induction false} SumTotalsCounts(keys: seq<string>, answers: seq<CandidateAnswer>)
    requires forall k :: k in keys ==> k in Performance(answers)
    ensures SumTotals(keys, Performance(answers)) == SumCounts(keys, AnswerTopics(answers))
  {
    if keys != [] {
      SumTotalsCounts(keys[..|keys| - 1], answers);
      StatsCount(answers, keys[|keys| - 1]);
    }
  }

  /** Over all topics, in the order they first appear, the `total` counters add up to the
      number of answers: every answer is counted under exactly one topic. */
  lemma TopicTotalsSum(answers: seq<CandidateAnswer>)
    ensures var topics := Distinct(AnswerTopics(answers));
      (forall k :: k in topics ==> k in Performance(answers))
      && SumTotals(topics, Performance(answers)) == |answers|
  {
    var s := AnswerTopics(answers);
    var topics := Distinct(s);
    forall k | k in topics ensures k in Performance(answers) && k in s {
      assert k in Elements(topics);
    }
    forall x | x in s ensures x in topics {
      assert x in Elements(s);
    }
    SumTotalsCounts(topics, answers);
    SumCountsCovering(topics, s);
  }

  /** `answers.filter((a) => !a.isCorrect)`. */
  function IncorrectAnswers(answers: seq<CandidateAnswer>): (r: seq<CandidateAnswer>)
    ensures |r| <= |answers|
  {
    if answers == [] then []
    else
      var init := answers[..|answers| - 1];
      var last := answers[|answers| - 1];
      assert answers == init + [last];
      IncorrectAnswers(init) + (if last.isCorrect then [] else [last])
  }

  /** The filter works piece by piece: the incorrect answers keep their order and each
      occurrence is kept once. */
  lemma {:induction false} IncorrectAnswersAppend(a: seq<CandidateAnswer>, b: seq<CandidateAnswer>)
    ensures IncorrectAnswers(a + b) == IncorrectAnswers(a) + IncorrectAnswers(b)
    decreases |b|
  {
    if b == [] {
      assert a + b == a;
    } else {
      var init, last := b[..|b| - 1], b[|b| - 1];
      var kept := if last.isCorrect then [] else [last];
      assert b == init + [last];
      calc {
        IncorrectAnswers(a + b);
        { SnocRegroup(a, init, last); }
        IncorrectAnswers((a + init) + [last]);
        { IncorrectAnswersSnoc(a + init, last); }
        IncorrectAnswers(a + init) + kept;
        { IncorrectAnswersAppend(a, init); }
        (IncorrectAnswers(a) + IncorrectAnswers(init)) + kept;
        IncorrectAnswers(a) + (IncorrectAnswers(init) + kept);
        { IncorrectAnswersSnoc(init, last); }
        IncorrectAnswers(a) + IncorrectAnswers(b);
      }
    }
  }

  lemma SnocRegroup<T>(a: seq<T>, init: seq<T>, last: T)
    ensures a + (init + [last]) == (a + init) + [last]
  {
  }

  /** One more answer at the end is kept exactly when it is incorrect. */
  lemma IncorrectAnswersSnoc(s: seq<CandidateAnswer>, x: CandidateAnswer)
    ensures IncorrectAnswers(s + [x]) == IncorrectAnswers(s) + if x.isCorrect then [] else [x]
  {
    assert (s + [x])[..|s|] == s;
  }

  /** Exactly the incorrect answers are kept. */
  lemma {:induction false} IncorrectMembers(answers: seq<CandidateAnswer>)
    ensures forall a :: a in IncorrectAnswers(answers) <==> a in answers && !a.isCorrect
  {
    if answers != [] {
      var init, last := answers[..|answers| - 1], answers[|answers| - 1];
      assert answers == init + [last];
      IncorrectMembers(init);
      IncorrectAnswersSnoc(init, last);
    }
  }

  /** The prompt uses the fixed "all answers were correct" line exactly when every answer
      is correct. */
  lemma AllCorrectLine(answers: seq<CandidateAnswer>)
    ensures IncorrectAnswers(answers) == [] <==> forall a :: a in answers ==> a.isCorrect
  {
    IncorrectMembers(answers);
    if IncorrectAnswers(answers) != [] {
      assert IncorrectAnswers(answers)[0] in IncorrectAnswers(answers);
    }
  }

  const CorrectFeedback := "Correct! Well done."

  /** `generateQuickFeedback`: a correct answer is praised without calling the model;
      otherwise the model's text, through the retry wrapper with its defaults, trimmed. */
  method GenerateQuickFeedback(isCorrect: bool, fn: nat -> Completion<string>)
    returns (feedback: Completion<string>, calls: nat, waits: seq<nat>)
    ensures isCorrect ==> feedback == Normal(CorrectFeedback) && calls == 0 && waits == []
    ensures !isCorrect ==>
      var run := GeminiClient.Retry(fn, 0, GeminiClient.DefaultRetries, GeminiClient.DefaultDelay);
      && calls == run.calls && waits == run.waits
      && (run.result.Threw? ==> feedback == Threw(run.result.message))
      && (run.result.Normal? ==> feedback == Normal(Trim(run.result.value)))
    ensures feedback.Normal? ==> Trimmed(feedback.value)
  {
    if isCorrect {
      return Normal(CorrectFeedback), 0, [];
    }
    var text;
    text, calls, waits := GeminiClient.RetryWithBackoff(fn, GeminiClient.DefaultRetries,
                                                        GeminiClient.DefaultDelay);
    if text.Threw? {
      return Threw(text.message), calls, waits;
    }
    feedback := Normal(Trim(text.value));
  }
}
