/**
 * How the AI gateway turns a provider's reply into an analysis or coaching result:
 * structured JSON is taken over, free text goes through the heuristic extractors, and
 * fixed defaults cover the rest. Also the fixed replies of the Ollama and mock providers.
 */
module Interpreter {
  import opened Wrappers
  import opened Text
  import opened Extraction
  import A = AnalysisModel
  import C = CoachingModel

  /**
   * How `JSON.parse` reads a reply: not JSON at all; the literal `null`; a JSON value
   * without the field the parser looks for (a truthy `scores` or `personalizedFeedback`);
   * or a JSON value with it, decoded into the result's shape.
   */
  datatype JsonText<T> = NotJson | JsonNull | JsonOther | JsonWith(value: T)

  const HuggingFace := "huggingface"

  // ---------------------------------------------------------------- analysis

  const OpeningWords: seq<string> := ["opening", "greeting"]
  const UnderstandingWords: seq<string> := ["understanding", "comprehension"]
  const ResolutionWords: seq<string> := ["resolution", "solution"]
  const OverallWords: seq<string> := ["overall", "total", "score"]
  const SatisfactionWords: seq<string> := ["satisfaction", "happy", "pleased"]
  const StrengthWords: seq<string> := ["strength", "good", "positive", "well"]
  const ImprovementWords: seq<string> := ["improve", "better", "weakness", "issue"]
  const InsightWords: seq<string> := ["insight", "observation", "note", "important"]

  /** The number read after the keywords is absent, or no greater than 100. */
  predicate ReadsAsPercentage(text: string, words: seq<string>) {
    var v := ExtractNumericValue(text, words);
    v.None? || v.value <= 100
  }

  /**
   * A score read from the text as the extractors' callers do: the number after the
   * keywords, or the fallback when there is none or it is 0. With a fallback that is a
   * percentage, the score is one exactly when the number read is.
   */
  function ReadScore(text: string, words: seq<string>, fallback: int): (r: int)
    ensures r == fallback || (ExtractNumericValue(text, words).Some? && r == ExtractNumericValue(text, words).value)
    ensures ExtractNumericValue(text, words).None? ==> r == fallback
    ensures ExtractNumericValue(text, words) == Some(0) ==> r == fallback
    ensures ExtractNumericValue(text, words).Some? && ExtractNumericValue(text, words).value != 0 ==>
              r == ExtractNumericValue(text, words).value
    ensures 0 <= fallback <= 100 ==> (0 <= r <= 100 <==> ReadsAsPercentage(text, words))
  {
    ScoreOr(ExtractNumericValue(text, words), fallback)
  }

  /** The criteria every analysis lists for the call opening and for issue understanding. */
  const OpeningCriteria: seq<string> := ["Greeting", "Introduction", "Purpose"]
  const UnderstandingCriteria: seq<string> := ["Active listening", "Question asking", "Issue identification"]

  const DefaultScores: A.Scores :=
    A.Scores(
      A.AreaScore(80, "Standard call opening evaluation", OpeningCriteria),
      A.AreaScore(70, "Issue comprehension assessment", UnderstandingCriteria),
      A.SentimentScores("positive", "neutral", "professional", "Default sentiment analysis"),
      A.Csat(4, 75, ["Professional service"], "Default satisfaction prediction"),
      A.Resolution(75, true, true, "Default resolution assessment"))
  const DefaultStrengths: seq<string> := ["Professional communication", "Efficient handling"]
  const DefaultImprovements: seq<string> := ["Response time", "Proactive communication"]
  const DefaultInsights: seq<string> := ["Default analysis generated", "Professional interaction maintained"]

  /** The analysis every failed interpretation falls back to, tagged with the given provider. */
  function DefaultAnalysis(provider: string): (r: A.AnalysisResult)
    ensures r.provider == provider
    ensures A.ResultValid(r)
    ensures r.scores.sentiment.agentSentiment == "positive" && r.scores.sentiment.customerSentiment == "neutral"
  {
    A.CommonLabels();
    A.LabelledScoresValid(DefaultScores);
    A.AnalysisResult(DefaultScores, 75, DefaultStrengths, DefaultImprovements, DefaultInsights, provider)
  }


  /** Every sentiment produced is one of the three names the Analysis schema admits. */
  lemma SentimentAdmitted(s: Sentiment)
    ensures SentimentName(s) in A.Sentiments
  {
    A.CommonLabels();
  }

  /**
   * The scores part of `extractAnalysisFromText`: each area score is the number found
   * after its keywords, or its fallback (80, 70, 75) when none is found or it is 0; both
   * sentiments come from the same keyword heuristic; CSAT is fixed at 4 with confidence
   * 75. They satisfy the schema exactly when none of the three numbers exceeds 100.
   */
  function ExtractScoresFromText(text: string): (s: A.Scores)
    ensures s.callOpening.score == ReadScore(text, OpeningWords, 80)
    ensures s.issueUnderstanding.score == ReadScore(text, UnderstandingWords, 70)
    ensures s.resolutionQuality.score == ReadScore(text, ResolutionWords, 75)
    ensures s.sentiment.agentSentiment == s.sentiment.customerSentiment
    ensures A.ScoresValid(s) <==>
              ReadsAsPercentage(text, OpeningWords) && ReadsAsPercentage(text, UnderstandingWords) && ReadsAsPercentage(text, ResolutionWords)
  {
    SentimentIgnoresTargetAndCase(text, "agent", "customer");
    var opening := ReadScore(text, OpeningWords, 80);
    var understanding := ReadScore(text, UnderstandingWords, 70);
    var resolution := ReadScore(text, ResolutionWords, 75);
    assert A.Percentage(opening) <==> ReadsAsPercentage(text, OpeningWords);
    assert A.Percentage(understanding) <==> ReadsAsPercentage(text, UnderstandingWords);
    assert A.Percentage(resolution) <==> ReadsAsPercentage(text, ResolutionWords);
    TextScores(opening, understanding, resolution, ExtractSentiment(text, "agent"), ExtractSentiment(text, "customer"),
               ListItems(text, SatisfactionWords))
  }

  /** The scores record `extractAnalysisFromText` builds from the values it read. */
  function TextScores(opening: int, understanding: int, resolution: int, agent: Sentiment, customer: Sentiment,
                      indicators: seq<string>): (s: A.Scores)
    ensures s.callOpening.score == opening && s.issueUnderstanding.score == understanding
    ensures s.resolutionQuality.score == resolution
    ensures s.sentiment.agentSentiment == SentimentName(agent) && s.sentiment.customerSentiment == SentimentName(customer)
    ensures A.ScoresValid(s) <==> A.Percentage(opening) && A.Percentage(understanding) && A.Percentage(resolution)
  {
    SentimentAdmitted(agent);
    SentimentAdmitted(customer);
    A.CommonLabels();
    var s := A.Scores(
      A.AreaScore(opening, "Analysis extracted from text response", OpeningCriteria),
      A.AreaScore(understanding, "Issue comprehension assessment from text", UnderstandingCriteria),
      A.SentimentScores(SentimentName(agent), SentimentName(customer), "professional", "Sentiment analysis from text"),
      A.Csat(4, 75, indicators, "Customer satisfaction analysis from text"),
      A.Resolution(resolution, true, true, "Resolution quality assessment from text"));
    A.LabelledScoresValid(s);
    s
  }

  /**
   * `extractAnalysisFromText`: the scores above, the overall score read after its
   * keywords (fallback 75), and the three lists from the list extractor. The result is
   * storable exactly when none of the four numbers read from the text exceeds 100.
   */
  function ExtractAnalysisFromText(text: string): (r: A.AnalysisResult)
    ensures r.provider == HuggingFace
    ensures r.scores == ExtractScoresFromText(text)
    ensures r.overallScore == ReadScore(text, OverallWords, 75)
    ensures r.strengths == ListItems(text, StrengthWords)
    ensures r.improvementAreas == ListItems(text, ImprovementWords)
    ensures r.keyInsights == ListItems(text, InsightWords)
    ensures A.ResultValid(r) <==>
              && ReadsAsPercentage(text, OpeningWords) && ReadsAsPercentage(text, UnderstandingWords)
              && ReadsAsPercentage(text, ResolutionWords) && ReadsAsPercentage(text, OverallWords)
  {
    var overall := ReadScore(text, OverallWords, 75);
    assert A.Percentage(overall) <==> ReadsAsPercentage(text, OverallWords);
    A.AnalysisResult(
      ExtractScoresFromText(text),
      overall,
      ListItems(text, StrengthWords),
      ListItems(text, ImprovementWords),
      ListItems(text, InsightWords),
      HuggingFace)
  }

  /**
   * `parseHuggingFaceAnalysis` on generated text. JSON with scores is taken over with the
   * provider overwritten; text that is not JSON, or is `null`, is mined by the extractors;
   * any other JSON reaches a call to a helper the service does not define, and the
   * resulting error yields the default analysis.
   */
  function ParseAnalysis(text: string, json: JsonText<A.AnalysisResult>): (r: A.AnalysisResult)
    ensures r.provider == HuggingFace
    ensures json.JsonWith? ==> r.(provider := json.value.provider) == json.value
    ensures json == JsonOther ==> r == DefaultAnalysis(HuggingFace) && A.ResultValid(r)
    ensures json == NotJson || json == JsonNull ==> r == ExtractAnalysisFromText(text)
  {
    match json
    case JsonWith(v) => v.(provider := HuggingFace)
    case JsonOther => DefaultAnalysis(HuggingFace)
    case _ => ExtractAnalysisFromText(text)
  }

  /** A structured reply is storable exactly when the decoded result is; the provider tag plays no part. */
  lemma StructuredAnalysisValidity(text: string, v: A.AnalysisResult)
    ensures A.ResultValid(ParseAnalysis(text, JsonWith(v))) <==> A.ResultValid(v)
  {
  }

  /**
   * What the analysis stage hands on: a result in the Analysis record's shape, or the
   * Ollama reply, whose scores are bare numbers and which carries no overall score.
   */
  datatype AnalysisReply = Shaped(result: A.AnalysisResult) | FlatScores(provider: string)

  /** The reply can be stored as an Analysis record. */
  predicate Storable(reply: AnalysisReply) {
    reply.Shaped? && A.ResultValid(reply.result)
  }

  /** `parseOllamaResponse(response, 'analysis')`: a fixed flat reply, whatever the model said. */
  function OllamaAnalysis(response: string): (r: AnalysisReply)
    ensures r.FlatScores? && r.provider == "ollama"
    ensures !Storable(r)
  {
    FlatScores("ollama")
  }

  /** The Ollama analysis does not depend on the model's text. */
  lemma OllamaAnalysisIgnoresText(r1: string, r2: string)
    ensures OllamaAnalysis(r1) == OllamaAnalysis(r2)
  {
  }

  const MockTranscript: string :=
    "Hello, thank you for calling our customer service. "
    + "I'm Sarah, how can I help you today? "
    + "Well, I'm having trouble with my recent order. "
    + "It was supposed to arrive yesterday but I haven't received it yet. "
    + "I'm sorry to hear about that. "
    + "Let me look up your order information. "
    + "Can you please provide me with your order number? "
    + "Sure, it's ORDER-12345. "
    + "Thank you. "
    + "I can see your order here. "
    + "It looks like there was a delay at our shipping facility, but your package is now out for delivery and should arrive today by 6 PM. "
    + "That's great news! "
    + "Is there anything else I can help you with? "
    + "No, that's all. "
    + "Thank you for your help. "
    + "You're welcome! "
    + "Have a great day!"

  /** The mock transcript is not empty. */
  lemma MockTranscriptNonEmpty()
    ensures |MockTranscript| > 0
  {
  }

  const MockStrengths: seq<string> :=
    ["Polite and professional greeting", "Clear communication throughout the call",
     "Efficient problem resolution", "Empathetic response to customer concern"]
  const MockImprovements: seq<string> :=
    ["Could have proactively offered tracking information", "Missed opportunity to explain shipping delay reasons",
     "Could have offered compensation for the inconvenience"]
  const MockInsights: seq<string> :=
    ["Customer was initially frustrated but became satisfied", "Agent maintained professionalism throughout",
     "Resolution was efficient and effective"]
  const MockScores: A.Scores :=
    A.Scores(
      A.AreaScore(90, "Professional greeting with clear identification", OpeningCriteria),
      A.AreaScore(80, "Good listening skills and clarifying questions", UnderstandingCriteria),
      A.SentimentScores("positive", "neutral", "professional", "Maintained professional tone throughout"),
      A.Csat(4, 85, ["Issue resolved", "Professional service", "Quick response"], "Customer likely satisfied with resolution"),
      A.Resolution(85, true, true, "Issue resolved on first contact"))

  /** `mockAnalysis`: a fixed, storable analysis tagged "mock". */
  function MockAnalysis(): (r: A.AnalysisResult)
    ensures r.provider == "mock"
    ensures A.ResultValid(r)
    ensures r.overallScore == 85
  {
    A.CommonLabels();
    A.LabelledScoresValid(MockScores);
    A.AnalysisResult(MockScores, 85, MockStrengths, MockImprovements, MockInsights, "mock")
  }


  // ---------------------------------------------------------------- coaching

  const PriorityWords: seq<string> := ["priority", "focus", "important", "key"]
  const ActionWords: seq<string> := ["action", "do", "practice", "work on"]
  const SummaryFallback := "Coaching analysis completed using open-source AI"

  /** The first 500 characters of the text, followed by "..." when anything was cut. */
  function Truncated(text: string): (r: string)
    ensures |text| <= 500 ==> r == text
    ensures |text| > 500 ==> |r| == 503 && r[..500] == text[..500] && r[500..] == "..."
    ensures r == [] <==> text == []
  {
    if |text| > 500 then text[..500] + "..." else text
  }

  /** An empty plan: no resources and no quiz questions. */
  function EmptyPlanQuiz(): C.Quiz {
    C.Quiz([], Some(80), Some(5))
  }

  /**
   * `extractCoachingFromText`: the summary is the first long sentence or a fixed
   * sentence, the detailed feedback is the text cut to 500 characters, the lists come
   * from the list extractor; one placeholder article and no quiz questions. It is
   * storable exactly when the text is not empty.
   */
  function ExtractCoachingFromText(text: string): (r: C.CoachingResult)
    ensures r.provider == HuggingFace
    ensures r.feedback.summary != ""
    ensures r.feedback.detailedFeedback == Truncated(text)
    ensures 1 <= |r.feedback.priorityAreas| <= 3 && 1 <= |r.feedback.actionItems| <= 3
    ensures |r.resources.articles| == 1 && r.resources.videos == [] && r.resources.callExamples == []
    ensures r.quiz.questions == [] && C.PassingScore(r.quiz) == 80 && C.EstimatedTime(r.quiz) == 5
    ensures C.ResultValid(r) <==> text != ""
  {
    ListItemsShape(text, PriorityWords);
    ListItemsShape(text, ActionWords);
    var summary := match ExtractSummary(text) case Some(s) => s case None => SummaryFallback;
    C.CoachingResult(
      C.Feedback(summary, Truncated(text), ListItems(text, PriorityWords), ListItems(text, ActionWords)),
      C.Resources([C.Article("AI-Generated Learning Resource", "Open-source AI coaching recommendations", "#", "coaching", 5)], [], []),
      EmptyPlanQuiz(),
      HuggingFace)
  }

  /** `getDefaultCoaching`: two priority areas, two action items, no resources, no questions. */
  function DefaultCoaching(provider: string): (r: C.CoachingResult)
    ensures r.provider == provider
    ensures C.ResultValid(r)
    ensures r.resources == C.Resources([], [], []) && r.quiz.questions == []
  {
    C.CoachingResult(
      C.Feedback("Coaching analysis completed using " + provider + " open-source models",
                 "Generated coaching recommendations based on AI analysis",
                 ["Communication skills", "Customer service excellence"],
                 ["Review call handling procedures", "Practice empathy techniques"]),
      C.Resources([], [], []),
      EmptyPlanQuiz(),
      provider)
  }

  /**
   * `parseHuggingFaceCoaching` on generated text. JSON with a personalised feedback is
   * taken over with the provider overwritten; every other reply, `null` and JSON without
   * that field included, is mined by the extractors. The default plan is never reached.
   */
  function ParseCoaching(text: string, json: JsonText<C.CoachingResult>): (r: C.CoachingResult)
    ensures r.provider == HuggingFace
    ensures json.JsonWith? ==> r.(provider := json.value.provider) == json.value
    ensures !json.JsonWith? ==> r == ExtractCoachingFromText(text)
    ensures !json.JsonWith? ==> (C.ResultValid(r) <==> text != "")
  {
    match json
    case JsonWith(v) => v.(provider := HuggingFace)
    case _ => ExtractCoachingFromText(text)
  }

  /**
   * `parseOllamaResponse(response, 'coaching')`: fixed feedback around the model's raw
   * text, no resources, no questions; storable exactly when the model returned some text.
   */
  function OllamaCoaching(response: string): (r: C.CoachingResult)
    ensures r.provider == "ollama"
    ensures r.feedback.detailedFeedback == response
    ensures r.resources == C.Resources([], [], []) && r.quiz.questions == []
    ensures C.ResultValid(r) <==> response != ""
  {
    C.CoachingResult(
      C.Feedback("Coaching generated using local Ollama model", response, ["Communication improvement"], ["Practice scenarios"]),
      C.Resources([], [], []),
      EmptyPlanQuiz(),
      "ollama")
  }
}
