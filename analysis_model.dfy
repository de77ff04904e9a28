/**
 * The Analysis document: the quality assessment of one transcribed call, with the
 * ranges and enumerations its schema enforces when it is saved.
 */
module AnalysisModel {

  datatype AreaScore = AreaScore(score: int, feedback: string, criteria: seq<string>)

  datatype SentimentScores = SentimentScores(agentSentiment: string, customerSentiment: string, overallTone: string, feedback: string)

  datatype Csat = Csat(predictedScore: int, confidence: int, indicators: seq<string>, feedback: string)

  datatype Resolution = Resolution(score: int, isResolved: bool, fcr: bool, feedback: string)

  datatype Scores = Scores(
    callOpening: AreaScore,
    issueUnderstanding: AreaScore,
    sentiment: SentimentScores,
    csat: Csat,
    resolutionQuality: Resolution)

  /** What an AI provider returns for the analysis stage, in the shape the Analysis record stores. */
  datatype AnalysisResult = AnalysisResult(
    scores: Scores,
    overallScore: int,
    strengths: seq<string>,
    improvementAreas: seq<string>,
    keyInsights: seq<string>,
    provider: string)

  /** The stored record; `callId` is unique among all analyses. */
  datatype Analysis = Analysis(
    id: nat,
    callId: nat,
    userId: nat,
    scores: Scores,
    overallScore: int,
    strengths: seq<string>,
    improvementAreas: seq<string>,
    keyInsights: seq<string>,
    analyzedAt: int,
    analysisVersion: string,
    processingTime: int)

  const Sentiments: seq<string> := ["positive", "neutral", "negative"]

  const Tones: seq<string> := ["professional", "friendly", "neutral", "tense", "hostile"]

  const CurrentVersion := "1.0"

  predicate Percentage(n: int) {
    0 <= n <= 100
  }

  /** The schema's constraints on the nested scores. */
  predicate ScoresValid(s: Scores) {
    && Percentage(s.callOpening.score)
    && Percentage(s.issueUnderstanding.score)
    && Percentage(s.resolutionQuality.score)
    && s.sentiment.agentSentiment in Sentiments
    && s.sentiment.customerSentiment in Sentiments
    && s.sentiment.overallTone in Tones
    && 1 <= s.csat.predictedScore <= 5
    && Percentage(s.csat.confidence)
  }

  /** The labels the services use most are admitted. */
  lemma CommonLabels()
    ensures "positive" in Sentiments && "neutral" in Sentiments && "negative" in Sentiments
    ensures "professional" in Tones
  {
    assert Sentiments[0] == "positive" && Sentiments[1] == "neutral" && Sentiments[2] == "negative";
    assert Tones[0] == "professional";
  }

  /** Once the labels and the satisfaction prediction are admitted, only the three area scores decide. */
  lemma LabelledScoresValid(s: Scores)
    requires s.sentiment.agentSentiment in Sentiments && s.sentiment.customerSentiment in Sentiments
    requires s.sentiment.overallTone in Tones
    requires 1 <= s.csat.predictedScore <= 5 && Percentage(s.csat.confidence)
    ensures ScoresValid(s) <==>
              Percentage(s.callOpening.score) && Percentage(s.issueUnderstanding.score) && Percentage(s.resolutionQuality.score)
  {
  }

  /** What saving an Analysis checks. */
  predicate Valid(a: Analysis) {
    ScoresValid(a.scores) && Percentage(a.overallScore)
  }

  /** An AI result that would be stored without a validation error. */
  predicate ResultValid(r: AnalysisResult) {
    ScoresValid(r.scores) && Percentage(r.overallScore)
  }

  /**
   * The record the analysis stage builds from a result: scores, overall score and the
   * three lists are copied, the provider tag is dropped, the version takes its default.
   */
  function NewAnalysis(id: nat, callId: nat, userId: nat, r: AnalysisResult, analyzedAt: int, processingTime: int): (a: Analysis)
    ensures a.id == id && a.callId == callId && a.userId == userId
    ensures a.scores == r.scores && a.overallScore == r.overallScore
    ensures a.strengths == r.strengths && a.improvementAreas == r.improvementAreas && a.keyInsights == r.keyInsights
    ensures a.analysisVersion == CurrentVersion
    ensures Valid(a) <==> ResultValid(r)
  {
    Analysis(id, callId, userId, r.scores, r.overallScore, r.strengths, r.improvementAreas, r.keyInsights,
             analyzedAt, CurrentVersion, processingTime)
  }
}
