/**
 * The rule-based coaching plan the mock provider builds from an analysis: the four
 * assessed areas are split into weak and strong ones, and every weak area contributes its
 * own action items, reading, videos, call examples and quiz question.
 */
module CoachingRules {
  import opened Wrappers
  import opened Text
  import A = AnalysisModel
  import C = CoachingModel

  /** The four areas the plan is organised around, in the order they are examined. */
  datatype Area = CallOpening | IssueUnderstanding | ResolutionQuality | CustomerSatisfaction

  const AllAreas: seq<Area> := [CallOpening, IssueUnderstanding, ResolutionQuality, CustomerSatisfaction]

  function AreaName(a: Area): string {
    match a
    case CallOpening => "Call Opening"
    case IssueUnderstanding => "Issue Understanding"
    case ResolutionQuality => "Resolution Quality"
    case CustomerSatisfaction => "Customer Satisfaction"
  }

  /** An area is weak when its score is under 80, or, for customer satisfaction, when the predicted CSAT is under 4. */
  predicate IsLow(a: Area, s: A.Scores) {
    match a
    case CallOpening => s.callOpening.score < 80
    case IssueUnderstanding => s.issueUnderstanding.score < 80
    case ResolutionQuality => s.resolutionQuality.score < 80
    case CustomerSatisfaction => s.csat.predictedScore < 4
  }

  /** What every area of `areas` that is weak (or, with `low` false, strong) contributes, in order. */
  function Collect<T>(areas: seq<Area>, s: A.Scores, low: bool, f: Area -> seq<T>): (r: seq<T>)
    ensures areas == [] ==> r == []
  {
    if areas == [] then []
    else (if IsLow(areas[0], s) == low then f(areas[0]) else []) + Collect(areas[1..], s, low, f)
  }

  /** What one area contributes to a collection. */
  function Part<T>(a: Area, s: A.Scores, low: bool, f: Area -> seq<T>): seq<T> {
    if IsLow(a, s) == low then f(a) else []
  }

  /** A collection over all areas is the four areas' contributions in order. */
  lemma CollectAll<T>(s: A.Scores, low: bool, f: Area -> seq<T>)
    ensures Collect(AllAreas, s, low, f)
            == Part(CallOpening, s, low, f) + Part(IssueUnderstanding, s, low, f)
               + Part(ResolutionQuality, s, low, f) + Part(CustomerSatisfaction, s, low, f)
  {
    var t := AllAreas;
    assert t[1..][1..][1..][1..] == [];
    calc {
      Collect(t, s, low, f);
      Part(t[0], s, low, f) + Collect(t[1..], s, low, f);
      Part(t[0], s, low, f) + (Part(t[1], s, low, f) + Collect(t[1..][1..], s, low, f));
      Part(t[0], s, low, f) + (Part(t[1], s, low, f) + (Part(t[2], s, low, f) + Collect(t[1..][1..][1..], s, low, f)));
      Part(t[0], s, low, f) + (Part(t[1], s, low, f) + (Part(t[2], s, low, f) + (Part(t[3], s, low, f) + [])));
    }
  }

  function Single(a: Area): seq<Area> {
    [a]
  }

  /** The weak areas, in the order they are examined. */
  function LowAreas(s: A.Scores): (low: seq<Area>)
    ensures forall a :: a in low <==> IsLow(a, s)
  {
    var r := Collect(AllAreas, s, true, Single);
    CollectMembers(AllAreas, s, true);
    r
  }

  /** The strong areas, in the order they are examined. */
  function HighAreas(s: A.Scores): (high: seq<Area>)
    ensures forall a :: a in high <==> !IsLow(a, s)
  {
    var r := Collect(AllAreas, s, false, Single);
    CollectMembers(AllAreas, s, false);
    r
  }

  /** The areas collected are the areas of the list whose weakness matches `low`. */
  lemma {:induction false} CollectMembers(areas: seq<Area>, s: A.Scores, low: bool)
    ensures forall a :: a in Collect(areas, s, low, Single) <==> a in areas && IsLow(a, s) == low
  {
    if areas != [] {
      CollectMembers(areas[1..], s, low);
      assert forall a :: a in areas <==> a == areas[0] || a in areas[1..];
    }
  }

  /** When every area contributes `n` entries, the collection holds `n` entries per collected area. */
  lemma {:induction false} CollectLength<T>(areas: seq<Area>, s: A.Scores, low: bool, f: Area -> seq<T>, n: nat)
    requires forall a :: |f(a)| == n
    ensures |Collect(areas, s, low, f)| == n * |Collect(areas, s, low, Single)|
  {
    if areas != [] {
      CollectLength(areas[1..], s, low, f, n);
      var k := |Collect(areas[1..], s, low, Single)|;
      var here := if IsLow(areas[0], s) == low then 1 else 0;
      assert |Collect(areas, s, low, Single)| == here + k;
      assert |Collect(areas, s, low, f)| == n * here + n * k by {
        assert |f(areas[0])| == n;
      }
      Distribute(n, here, k);
    }
  }

  lemma Distribute(n: int, x: int, y: int)
    ensures n * x + n * y == n * (x + y)
  {
  }

  /** Every area is either weak or strong: the two lists together hold the four areas. */
  lemma {:induction false} AreasPartition(s: A.Scores)
    ensures |LowAreas(s)| + |HighAreas(s)| == 4
  {
    CollectPartition(AllAreas, s);
  }

  lemma {:induction false} CollectPartition(areas: seq<Area>, s: A.Scores)
    ensures |Collect(areas, s, true, Single)| + |Collect(areas, s, false, Single)| == |areas|
  {
    if areas != [] {
      CollectPartition(areas[1..], s);
    }
  }

  function Names(areas: seq<Area>): (r: seq<string>)
    ensures |r| == |areas|
    ensures forall i :: 0 <= i < |areas| ==> r[i] == AreaName(areas[i])
  {
    if areas == [] then [] else [AreaName(areas[0])] + Names(areas[1..])
  }

  // ---------------------------------------------------------------- action items

  const OpeningActions: seq<string> :=
    ["Practice professional greetings and clear introduction techniques",
     "Review company greeting standards and personalization methods"]
  const UnderstandingActions: seq<string> :=
    ["Develop active listening skills and clarifying question techniques",
     "Practice paraphrasing customer concerns to confirm understanding"]
  const ResolutionActions: seq<string> :=
    ["Study problem-solving frameworks and solution verification methods",
     "Practice explaining solutions clearly and confirming customer satisfaction"]
  const SatisfactionActions: seq<string> :=
    ["Focus on empathy and emotional intelligence in customer interactions",
     "Learn techniques for managing difficult conversations and expectations"]

  function AreaActions(a: Area): (r: seq<string>)
    ensures |r| == 2
  {
    match a
    case CallOpening => OpeningActions
    case IssueUnderstanding => UnderstandingActions
    case ResolutionQuality => ResolutionActions
    case CustomerSatisfaction => SatisfactionActions
  }

  const GeneralActions: seq<string> :=
    ["Review this call recording to identify specific moments for improvement",
     "Practice scenarios similar to this call type with a colleague or supervisor"]

  /** `generateActionItems`: two items per weak area, in area order, then the two general items. */
  function ActionItems(s: A.Scores): (r: seq<string>)
    ensures |r| == 2 * |LowAreas(s)| + 2
    ensures r[|r| - 2..] == GeneralActions
  {
    CollectLength(AllAreas, s, true, AreaActions, 2);
    Collect(AllAreas, s, true, AreaActions) + GeneralActions
  }

  // ---------------------------------------------------------------- resources

  const OpeningArticle := C.Article("Mastering the Perfect Call Opening",
    "Learn how to create memorable first impressions that set the tone for successful customer interactions",
    "#", "call opening", 6)
  const ListeningArticle := C.Article("Active Listening Techniques for Customer Service",
    "Develop advanced listening skills to better understand and address customer needs",
    "#", "listening skills", 8)
  const ProblemSolvingArticle := C.Article("Problem-Solving Frameworks for Customer Service",
    "Structured approaches to identifying, analyzing, and resolving customer issues",
    "#", "problem solving", 10)
  const LoyaltyArticle := C.Article("Building Customer Loyalty Through Service Excellence",
    "Techniques for exceeding customer expectations and creating positive experiences",
    "#", "customer satisfaction", 7)

  function AreaArticles(a: Area): (r: seq<C.Article>)
    ensures |r| == 1
  {
    match a
    case CallOpening => [OpeningArticle]
    case IssueUnderstanding => [ListeningArticle]
    case ResolutionQuality => [ProblemSolvingArticle]
    case CustomerSatisfaction => [LoyaltyArticle]
  }

  const GeneralArticle := C.Article("Customer Service Best Practices Guide",
                                    "Comprehensive overview of customer service excellence principles",
                                    "#", "general", 12)

  const QuestioningVideo := C.Video("Effective Questioning Strategies",
    "Learn how to ask the right questions to quickly identify customer issues",
    "#", 480, "communication skills")
  const UpsetCustomersVideo := C.Video("Handling Upset Customers with Confidence",
    "De-escalation techniques and empathy strategies for challenging conversations",
    "#", 360, "conflict resolution")
  const ResolutionExample := C.CallExample("Complex Issue Resolution Example",
    "See how experienced agents handle multi-step problem resolution",
    "problem resolution", 88, 92, 95)

  /** Only issue understanding and customer satisfaction come with a video. */
  function AreaVideos(a: Area): (r: seq<C.Video>)
    ensures |r| <= 1
    ensures r != [] <==> a == IssueUnderstanding || a == CustomerSatisfaction
  {
    match a
    case IssueUnderstanding => [QuestioningVideo]
    case CustomerSatisfaction => [UpsetCustomersVideo]
    case _ => []
  }

  /** Only resolution quality comes with a call example. */
  function AreaExamples(a: Area): (r: seq<C.CallExample>)
    ensures r != [] <==> a == ResolutionQuality
  {
    match a
    case ResolutionQuality => [ResolutionExample]
    case _ => []
  }

  /**
   * `generateRecommendedResources`: one article per weak area followed by the general
   * guide, a video for weak issue understanding and for weak customer satisfaction, and
   * a call example for weak resolution quality.
   */
  function RecommendedResources(s: A.Scores): (r: C.Resources)
    ensures |r.articles| == |LowAreas(s)| + 1
    ensures r.articles[|r.articles| - 1] == GeneralArticle
    ensures |r.videos| == (if IsLow(IssueUnderstanding, s) then 1 else 0) + (if IsLow(CustomerSatisfaction, s) then 1 else 0)
    ensures |r.callExamples| == if IsLow(ResolutionQuality, s) then 1 else 0
  {
    CollectLength(AllAreas, s, true, AreaArticles, 1);
    CollectAll(s, true, AreaVideos);
    CollectAll(s, true, AreaExamples);
    C.Resources(Collect(AllAreas, s, true, AreaArticles) + [GeneralArticle],
                Collect(AllAreas, s, true, AreaVideos),
                Collect(AllAreas, s, true, AreaExamples))
  }

  // ---------------------------------------------------------------- quiz

  const OpeningOptions: seq<string> := ["Greeting, company name, agent name, offer to help", "Just say hello and ask what they need",
                                         "Company name only", "Ask for their account number immediately"]
  const ParaphraseOptions: seq<string> := ["Never, it wastes time", "Only if you didn't understand",
                                           "After gathering all the details to confirm understanding", "At the end of the call"]
  const ClosingOptions: seq<string> := ["Ask if there's anything else you can help with", "Confirm the solution meets their needs",
                                        "Provide next steps if applicable", "All of the above"]
  const EmpathyOptions: seq<string> := ["Say 'I understand' repeatedly", "Acknowledge their feelings and validate their concerns",
                                        "Offer immediate solutions without listening", "Transfer them to a supervisor"]
  const GoalOptions: seq<string> := ["To end the call as quickly as possible", "To resolve the customer's issue and ensure satisfaction",
                                     "To sell additional products", "To gather customer information"]

  const OpeningQuestion := C.Question("q1", "What are the essential elements of a professional call opening?",
    "multiple-choice", OpeningOptions, Some(OpeningOptions[0]), Some("easy"), "call opening")
  const ParaphraseQuestion := C.Question("q2", "When should you paraphrase a customer's concern?",
    "multiple-choice", ParaphraseOptions, Some(ParaphraseOptions[2]), Some("medium"), "active listening")
  const ClosingQuestion := C.Question("q3", "What should you do before ending a call?",
    "multiple-choice", ClosingOptions, Some(ClosingOptions[3]), Some("easy"), "call closure")
  const EmpathyQuestion := C.Question("q4", "How can you show empathy during a customer call?",
    "multiple-choice", EmpathyOptions, Some(EmpathyOptions[1]), Some("medium"), "empathy")
  const GeneralQuestion := C.Question("q5", "What is the primary goal of every customer service interaction?",
    "multiple-choice", GoalOptions, Some(GoalOptions[1]), Some("easy"), "customer service fundamentals")

  function AreaQuestion(a: Area): (r: seq<C.Question>)
    ensures |r| == 1
  {
    match a
    case CallOpening => [OpeningQuestion]
    case IssueUnderstanding => [ParaphraseQuestion]
    case ResolutionQuality => [ClosingQuestion]
    case CustomerSatisfaction => [EmpathyQuestion]
  }

  /** A well-formed question: the schema admits it and its correct answer is one of its options. */
  predicate Answerable(q: C.Question) {
    C.QuestionValid(q) && q.correctAnswer.Some? && q.correctAnswer.value in q.options
  }

  lemma AreaQuestionAnswerable(a: Area)
    ensures forall q :: q in AreaQuestion(a) ==> Answerable(q)
  {
  }

  /** Every question collected from well-formed questions is well-formed. */
  lemma {:induction false} CollectAnswerable(areas: seq<Area>, s: A.Scores)
    ensures forall q :: q in Collect(areas, s, true, AreaQuestion) ==> Answerable(q)
  {
    if areas != [] {
      CollectAnswerable(areas[1..], s);
      AreaQuestionAnswerable(areas[0]);
    }
  }

  /**
   * `generateCoachingQuiz`: one question per weak area, then the general question; the
   * passing score is 80 and the estimated time two minutes a question, at least five.
   * Every question is admitted by the schema and its correct answer is one of its options.
   */
  function CoachingQuiz(s: A.Scores): (q: C.Quiz)
    ensures |q.questions| == |LowAreas(s)| + 1
    ensures q.questions[|q.questions| - 1] == GeneralQuestion
    ensures forall i :: 0 <= i < |q.questions| ==> Answerable(q.questions[i])
    ensures C.PassingScore(q) == 80
    ensures C.EstimatedTime(q) >= 5 && C.EstimatedTime(q) >= 2 * |q.questions|
    ensures C.EstimatedTime(q) == 5 || C.EstimatedTime(q) == 2 * |q.questions|
  {
    CollectLength(AllAreas, s, true, AreaQuestion, 1);
    CollectAnswerable(AllAreas, s);
    var questions := Collect(AllAreas, s, true, AreaQuestion) + [GeneralQuestion];
    assert forall i :: 0 <= i < |questions| - 1 ==> questions[i] in Collect(AllAreas, s, true, AreaQuestion);
    var time := if 2 * |questions| > 5 then 2 * |questions| else 5;
    C.Quiz(questions, Some(80), Some(time))
  }

  // ---------------------------------------------------------------- feedback

  const ExcellentSummary := "Excellent performance! You demonstrated strong customer service skills with minor areas for enhancement."
  const GoodSummary := "Good performance with clear opportunities for improvement in key areas."
  const WeakSummary := "This call shows potential but requires significant improvement in multiple areas."
  const DefaultPriorities: seq<string> := ["Consistency", "Advanced Techniques"]

  const ExcellentOpening := "Your call achieved an overall score of "
  const ExcellentStrengths := "%. You excelled in "
  const ExcellentFocus := ". Continue building on these strengths while focusing on "
  const ExcellentFallback := "maintaining consistency"
  const ScoredOpening := "Your call scored "
  const GoodStrengths := "%. You showed competence in "
  const GoodFocus := ". Focus on improving "
  const GoodClosing := " to enhance overall customer experience."
  const WeakPriorities := "%. Priority areas for development include "
  const WeakClosing := ". Consider reviewing fundamental customer service techniques."

  /** The feedback for an excellent call: the score, the strong areas, then the weak ones or consistency. */
  function ExcellentFeedback(score: string, low: seq<string>, high: seq<string>): (r: string)
    ensures ExcellentOpening + score + ExcellentStrengths <= r
    ensures Contains(r, Join(high, ", "))
    ensures |low| > 0 ==> Contains(r, Join(low, ", "))
    ensures |low| == 0 ==> Contains(r, ExcellentFallback)
  {
    var head := ExcellentOpening + score + ExcellentStrengths;
    var jh := Join(high, ", ");
    var focus := if |low| > 0 then Join(low, ", ") else ExcellentFallback;
    ContainsInserts(head, jh, ExcellentFocus, focus, ".");
    head + jh + ExcellentFocus + focus + "."
  }

  /** The feedback for a good call: the score, the strong areas, then the weak areas to improve. */
  function GoodFeedback(score: string, low: seq<string>, high: seq<string>): (r: string)
    ensures ScoredOpening + score + GoodStrengths <= r
    ensures Contains(r, Join(high, ", ")) && Contains(r, Join(low, ", "))
  {
    var head := ScoredOpening + score + GoodStrengths;
    var jh := Join(high, ", ");
    var jl := Join(low, ", ");
    ContainsInserts(head, jh, GoodFocus, jl, GoodClosing);
    head + jh + GoodFocus + jl + GoodClosing
  }

  /** The feedback for a weak call: the score, then the weak areas as priorities. */
  function WeakFeedback(score: string, low: seq<string>): (r: string)
    ensures ScoredOpening + score + WeakPriorities <= r
    ensures Contains(r, Join(low, ", "))
  {
    var head := ScoredOpening + score + WeakPriorities;
    ContainsMiddle(head, Join(low, ", "), WeakClosing);
    head + Join(low, ", ") + WeakClosing
  }

  /**
   * The detailed feedback text for the score band the overall score falls in: it opens
   * with the band's sentence and the score, and names the strong areas (except below 70)
   * and the weak areas (except for an excellent call without any).
   */
  function DetailedFeedback(overall: int, low: seq<string>, high: seq<string>): (r: string)
    ensures r != ""
    ensures overall >= 85 ==> ExcellentOpening + IntToString(overall) + ExcellentStrengths <= r
    ensures 70 <= overall < 85 ==> ScoredOpening + IntToString(overall) + GoodStrengths <= r
    ensures overall < 70 ==> ScoredOpening + IntToString(overall) + WeakPriorities <= r
    ensures overall >= 70 ==> Contains(r, Join(high, ", "))
    ensures overall < 85 || |low| > 0 ==> Contains(r, Join(low, ", "))
    ensures overall >= 85 && |low| == 0 ==> Contains(r, ExcellentFallback)
  {
    var score := IntToString(overall);
    if overall >= 85 then ExcellentFeedback(score, low, high)
    else if overall >= 70 then GoodFeedback(score, low, high)
    else WeakFeedback(score, low)
  }

  /**
   * `generatePersonalizedFeedback`: the summary follows the band of the overall score
   * (85 and up, 70 and up, below); the priority areas are the weak areas, or two general
   * themes when there is none.
   */
  function PersonalizedFeedback(a: A.Analysis): (f: C.Feedback)
    ensures a.overallScore >= 85 ==> f.summary == ExcellentSummary
    ensures 70 <= a.overallScore < 85 ==> f.summary == GoodSummary
    ensures a.overallScore < 70 ==> f.summary == WeakSummary
    ensures f.summary != "" && f.detailedFeedback != ""
    ensures LowAreas(a.scores) != [] ==> f.priorityAreas == Names(LowAreas(a.scores))
    ensures LowAreas(a.scores) == [] ==> f.priorityAreas == DefaultPriorities
    ensures |f.actionItems| == 2 * |LowAreas(a.scores)| + 2
  {
    var low := Names(LowAreas(a.scores));
    var high := Names(HighAreas(a.scores));
    var summary := if a.overallScore >= 85 then ExcellentSummary
                   else if a.overallScore >= 70 then GoodSummary
                   else WeakSummary;
    C.Feedback(summary, DetailedFeedback(a.overallScore, low, high),
               if |low| > 0 then low else DefaultPriorities,
               ActionItems(a.scores))
  }

  /**
   * `generateDetailedCoaching`: feedback, resources and quiz built from the same split
   * into weak and strong areas. The plan is always storable.
   */
  function DetailedCoaching(a: A.Analysis, provider: string): (r: C.CoachingResult)
    ensures r.provider == provider
    ensures C.ResultValid(r)
  {
    var q := CoachingQuiz(a.scores);
    assert forall i :: 0 <= i < |q.questions| ==> C.QuestionValid(q.questions[i]);
    C.CoachingResult(PersonalizedFeedback(a), RecommendedResources(a.scores), q, provider)
  }

  /** The plan has as many questions as articles, one per weak area plus the general one, and two action items per question. */
  lemma DetailedCoachingSizes(a: A.Analysis, provider: string)
    ensures var r := DetailedCoaching(a, provider);
            && |r.quiz.questions| == |r.resources.articles| == |LowAreas(a.scores)| + 1
            && |r.feedback.actionItems| == 2 * |r.quiz.questions|
  {
  }

  /** Nothing is collected when no area is weak. */
  lemma {:induction false} CollectNothing<T>(areas: seq<Area>, s: A.Scores, f: Area -> seq<T>)
    requires forall a :: !IsLow(a, s)
    ensures Collect(areas, s, true, f) == []
  {
    if areas != [] {
      CollectNothing(areas[1..], s, f);
    }
  }

  /** An analysis strong in every area gets the minimal plan: the general article, no video, no example, one question. */
  lemma StrongCallGetsMinimalPlan(a: A.Analysis, provider: string)
    requires forall area :: !IsLow(area, a.scores)
    ensures var r := DetailedCoaching(a, provider);
            && r.resources.articles == [GeneralArticle]
            && r.resources.videos == [] && r.resources.callExamples == []
            && r.quiz.questions == [GeneralQuestion]
            && r.feedback.priorityAreas == DefaultPriorities
            && r.feedback.actionItems == GeneralActions
  {
    CollectNothing(AllAreas, a.scores, Single);
    CollectNothing(AllAreas, a.scores, AreaArticles);
    CollectNothing(AllAreas, a.scores, AreaVideos);
    CollectNothing(AllAreas, a.scores, AreaExamples);
    CollectNothing(AllAreas, a.scores, AreaQuestion);
    CollectNothing(AllAreas, a.scores, AreaActions);
  }
}
