/**
 * The Coaching document: a learning plan generated from one analysis, together with
 * the learner's progress through it.
 */
module CoachingModel {
  import opened Wrappers

  datatype Feedback = Feedback(summary: string, detailedFeedback: string, priorityAreas: seq<string>, actionItems: seq<string>)

  datatype Article = Article(title: string, description: string, url: string, category: string, estimatedReadTime: int)

  datatype Video = Video(title: string, description: string, url: string, duration: int, category: string)

  datatype CallExample = CallExample(title: string, description: string, category: string,
                                     openingScore: int, understandingScore: int, resolutionScore: int)

  datatype Resources = Resources(articles: seq<Article>, videos: seq<Video>, callExamples: seq<CallExample>)

  /** A quiz question; a missing correct answer or difficulty is `None`. */
  datatype Question = Question(id: string, question: string, qtype: string, options: seq<string>,
                               correctAnswer: Option<string>, difficulty: Option<string>, category: string)

  /** A quiz; a missing passing score or estimated time is `None` and reads as the schema default. */
  datatype Quiz = Quiz(questions: seq<Question>, passingScore: Option<int>, estimatedTime: Option<int>)

  /** What an AI provider returns for the coaching stage. */
  datatype CoachingResult = CoachingResult(feedback: Feedback, resources: Resources, quiz: Quiz, provider: string)

  datatype Criteria = Criteria(readArticles: bool, watchVideos: bool, reviewCallExamples: bool, passQuiz: bool, overallProgress: int)

  datatype ScoredAnswer = ScoredAnswer(questionId: string, answer: Option<string>, isCorrect: bool)

  datatype QuizAttempt = QuizAttempt(attemptDate: int, score: int, answers: seq<ScoredAnswer>)

  datatype Progress = Progress(
    articlesRead: seq<string>,
    videosWatched: seq<string>,
    callExamplesReviewed: seq<string>,
    quizAttempts: seq<QuizAttempt>,
    bestQuizScore: int,
    isCompleted: bool,
    completedAt: Option<int>)

  /** The stored record; `analysisId` is unique among all coaching plans. */
  datatype Coaching = Coaching(
    analysisId: nat,
    callId: nat,
    userId: nat,
    feedback: Feedback,
    resources: Resources,
    quiz: Quiz,
    criteria: Criteria,
    progress: Progress,
    createdAt: int,
    updatedAt: int)

  const QuestionTypes: seq<string> := ["multiple-choice", "true-false", "scenario"]

  const Difficulties: seq<string> := ["easy", "medium", "hard"]

  const DefaultDifficulty := "medium"

  const DefaultPassingScore := 80

  const DefaultEstimatedTime := 10

  function Difficulty(q: Question): string {
    q.difficulty.GetOr(DefaultDifficulty)
  }

  function PassingScore(q: Quiz): int {
    q.passingScore.GetOr(DefaultPassingScore)
  }

  function EstimatedTime(q: Quiz): int {
    q.estimatedTime.GetOr(DefaultEstimatedTime)
  }

  /** A question without a difficulty reads as medium, which the enumeration admits. */
  lemma DefaultsAreAdmitted(q: Question, z: Quiz)
    ensures q.difficulty == None ==> Difficulty(q) == "medium" && Difficulty(q) in Difficulties
    ensures z.passingScore == None ==> PassingScore(z) == 80
    ensures z.estimatedTime == None ==> EstimatedTime(z) == 10
  {
  }

  predicate QuestionValid(q: Question) {
    q.qtype in QuestionTypes && q.question != "" && Difficulty(q) in Difficulties
  }

  /** What saving a Coaching checks. */
  predicate Valid(c: Coaching) {
    && c.feedback.summary != ""
    && c.feedback.detailedFeedback != ""
    && (forall i :: 0 <= i < |c.quiz.questions| ==> QuestionValid(c.quiz.questions[i]))
    && 0 <= c.criteria.overallProgress <= 100
  }

  /** A result whose plan would be stored without a validation error. */
  predicate ResultValid(r: CoachingResult) {
    && r.feedback.summary != ""
    && r.feedback.detailedFeedback != ""
    && (forall i :: 0 <= i < |r.quiz.questions| ==> QuestionValid(r.quiz.questions[i]))
  }

  const InitialCriteria := Criteria(false, false, false, false, 0)

  const InitialProgress := Progress([], [], [], [], 0, false, None)

  /**
   * The plan the coaching stage builds from a result: feedback, resources and quiz are
   * copied, every completion flag is false, progress is 0, no resource is done and no
   * attempt is recorded.
   */
  function NewCoaching(analysisId: nat, callId: nat, userId: nat, r: CoachingResult, now: int): (c: Coaching)
    ensures c.analysisId == analysisId && c.callId == callId && c.userId == userId
    ensures c.feedback == r.feedback && c.resources == r.resources && c.quiz == r.quiz
    ensures !c.criteria.readArticles && !c.criteria.watchVideos && !c.criteria.reviewCallExamples && !c.criteria.passQuiz
    ensures c.criteria.overallProgress == 0
    ensures c.progress.articlesRead == [] && c.progress.videosWatched == [] && c.progress.callExamplesReviewed == []
    ensures c.progress.quizAttempts == [] && c.progress.bestQuizScore == 0 && !c.progress.isCompleted
    ensures Valid(c) <==> ResultValid(r)
  {
    Coaching(analysisId, callId, userId, r.feedback, r.resources, r.quiz, InitialCriteria, InitialProgress, now, now)
  }

  /** The pre-save hook: every save stamps `updatedAt` and changes nothing else. */
  function Stamped(c: Coaching, now: int): (s: Coaching)
    ensures s.updatedAt == now
    ensures s.(updatedAt := c.updatedAt) == c
  {
    c.(updatedAt := now)
  }
}
