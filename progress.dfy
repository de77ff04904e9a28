/**
 * The learner's side of a coaching plan: marking a recommended resource as done and
 * submitting quiz answers. Both handlers load the stored plan, update it in place and
 * save it; `CoachingDocument` is that loaded document. `Math.round` of a non-negative
 * ratio is computed exactly with integers.
 */
module CoachingProgress {
  import opened Wrappers
  import C = CoachingModel

  /** The three kinds of resource a progress update names. */
  datatype ResourceKind = ArticleKind | VideoKind | CallExampleKind

  /** One submitted answer; an answer field left out is `None`. */
  datatype Answer = Answer(questionId: string, answer: Option<string>)

  predicate NoDup<T(==)>(s: seq<T>) {
    forall i, j :: 0 <= i < j < |s| ==> s[i] != s[j]
  }

  /** `if (!list.includes(id)) list.push(id)`. */
  function AddOnce(list: seq<string>, id: string): (r: seq<string>)
    ensures forall x :: x in r <==> x in list || x == id
    ensures |r| == if id in list then |list| else |list| + 1
    ensures r[..|list|] == list
    ensures NoDup(list) ==> NoDup(r)
  {
    if id in list then list else list + [id]
  }

  /** `Math.round(p / q)` for `p >= 0`, `q > 0`: the nearest integer, halves rounded up. */
  function RoundDiv(p: nat, q: nat): (r: nat)
    requires q > 0
    ensures 2 * q * r <= 2 * p + q < 2 * q * (r + 1)
  {
    var r := (2 * p + q) / (2 * q);
    DivBounds(2 * p + q, 2 * q);
    r
  }

  lemma DivBounds(a: nat, b: nat)
    requires b > 0
    ensures b * (a / b) <= a < b * (a / b + 1)
  {
  }

  /**
   * `Math.round(completed / total * 70 + (best >= passing ? 30 : 0))`, the resource term
   * being 0 when no resource is recommended.
   */
  function OverallProgress(completed: nat, total: nat, best: int, passing: int): int {
    (if total > 0 then RoundDiv(70 * completed, total) else 0) + (if best >= passing then 30 else 0)
  }

  /** With no more resources done than recommended, progress stays in the schema's 0..100, and reaches 100 when all is done. */
  lemma {:induction false} ProgressWithinBounds(completed: nat, total: nat, best: int, passing: int)
    requires completed <= total
    ensures 0 <= OverallProgress(completed, total, best, passing) <= 100
    ensures total > 0 && completed == total && best >= passing ==> OverallProgress(completed, total, best, passing) == 100
  {
    if total > 0 {
      var r := RoundDiv(70 * completed, total);
      assert 2 * total * r <= 140 * completed + total;
      assert 140 * completed + total <= 141 * total;
      MulLeftBound(2 * total, r, 71);
      if completed == total {
        MulLeftBound(2 * total, 69, r);
      }
    }
  }

  /** Cancelling a positive factor: `k * a < k * b` forces `a < b`. */
  lemma MulLeftBound(k: int, a: int, b: int)
    requires k > 0 && k * a < k * b
    ensures a < b
  {
  }

  /** Seven of ten resources done and a passing best score give 49 + 30 = 79. */
  lemma ProgressExample()
    ensures OverallProgress(7, 10, 85, 80) == 79
    ensures OverallProgress(0, 0, 85, 80) == 30
  {
  }

  // ---------------------------------------------------------------- scoring

  /** `questions.find(q => q.id === id)`. */
  function FindQuestion(qs: seq<C.Question>, id: string): (r: Option<C.Question>)
    ensures r.None? <==> forall i :: 0 <= i < |qs| ==> qs[i].id != id
    ensures r.Some? ==> exists i :: 0 <= i < |qs| && qs[i] == r.value && r.value.id == id
                                    && forall j :: 0 <= j < i ==> qs[j].id != id
  {
    if qs == [] then None
    else if qs[0].id == id then
      Some(qs[0])
    else
      var r := FindQuestion(qs[1..], id);
      assert forall i :: 1 <= i < |qs| ==> qs[i] == qs[1..][i - 1];
      r
  }

  /** An answer is right when its question exists and the stored correct answer equals it exactly. */
  predicate IsCorrect(qs: seq<C.Question>, a: Answer) {
    var q := FindQuestion(qs, a.questionId);
    q.Some? && q.value.correctAnswer == a.answer
  }

  function ScoreAnswer(qs: seq<C.Question>, a: Answer): C.ScoredAnswer {
    C.ScoredAnswer(a.questionId, a.answer, IsCorrect(qs, a))
  }

  /** The recorded answers: one per submitted answer, in order, each marked right or wrong. */
  function ScoredAnswers(qs: seq<C.Question>, answers: seq<Answer>): (r: seq<C.ScoredAnswer>)
    ensures |r| == |answers|
    ensures forall i :: 0 <= i < |answers| ==>
              (r[i].questionId == answers[i].questionId && r[i].answer == answers[i].answer
               && (r[i].isCorrect <==> IsCorrect(qs, answers[i])))
  {
    seq(|answers|, i requires 0 <= i < |answers| => ScoreAnswer(qs, answers[i]))
  }

  /** The number of right answers, each repetition counted. */
  function CorrectCount(qs: seq<C.Question>, answers: seq<Answer>): (n: nat)
    ensures n <= |answers|
    ensures n == 0 <==> forall i :: 0 <= i < |answers| ==> !IsCorrect(qs, answers[i])
    decreases |answers|
  {
    if answers == [] then 0
    else
      var init := answers[..|answers| - 1];
      assert forall i :: 0 <= i < |init| ==> init[i] == answers[i];
      CorrectCount(qs, init) + if IsCorrect(qs, answers[|answers| - 1]) then 1 else 0
  }

  /** `Math.round(correct / n * 100)` for a quiz of `n > 0` questions. */
  function QuizScore(correct: nat, n: nat): nat
    requires n > 0
  {
    RoundDiv(100 * correct, n)
  }

  /** One more answer adds its scored record and, when right, one to the count. */
  lemma ScoringStep(qs: seq<C.Question>, answers: seq<Answer>, i: nat)
    requires i < |answers|
    ensures ScoredAnswers(qs, answers[..i + 1]) == ScoredAnswers(qs, answers[..i]) + [ScoreAnswer(qs, answers[i])]
    ensures CorrectCount(qs, answers[..i + 1]) == CorrectCount(qs, answers[..i]) + if IsCorrect(qs, answers[i]) then 1 else 0
  {
    assert answers[..i + 1][..i] == answers[..i];
  }

  /** Scoring the answers: a counter incremented inside the map over the answers. */
  method ScoreAnswers(qs: seq<C.Question>, answers: seq<Answer>) returns (scored: seq<C.ScoredAnswer>, correct: nat)
    ensures scored == ScoredAnswers(qs, answers)
    ensures correct == CorrectCount(qs, answers)
  {
    scored := [];
    correct := 0;
    var i := 0;
    assert answers[..0] == [];
    while i < |answers|
      invariant 0 <= i <= |answers|
      invariant scored == ScoredAnswers(qs, answers[..i])
      invariant correct == CorrectCount(qs, answers[..i])
    {
      ScoringStep(qs, answers, i);
      var q := FindQuestion(qs, answers[i].questionId);
      var isCorrect := q.Some? && q.value.correctAnswer == answers[i].answer;
      if isCorrect {
        correct := correct + 1;
      }
      assert isCorrect == IsCorrect(qs, answers[i]);
      assert correct == CorrectCount(qs, answers[..i + 1]);
      scored := scored + [C.ScoredAnswer(answers[i].questionId, answers[i].answer, isCorrect)];
      assert scored == ScoredAnswers(qs, answers[..i + 1]);
      i := i + 1;
    }
    assert answers[..i] == answers;
  }

  /** Four right answers out of five questions score 80; all right score 100; none right score 0. */
  lemma ScoreExamples()
    ensures QuizScore(4, 5) == 80
    ensures QuizScore(5, 5) == 100
    ensures QuizScore(0, 5) == 0
    ensures QuizScore(2, 3) == 67
  {
  }

  /** With at most one answer per question the score is a percentage. */
  lemma {:induction false} ScoreIsPercentage(qs: seq<C.Question>, answers: seq<Answer>)
    requires 0 < |qs| && |answers| <= |qs|
    ensures QuizScore(CorrectCount(qs, answers), |qs|) <= 100
  {
    var n := |qs|;
    var c := CorrectCount(qs, answers);
    var r := QuizScore(c, n);
    assert 2 * n * r <= 200 * c + n;
    assert 200 * c + n <= 201 * n;
    MulLeftBound(2 * n, r, 101);
  }

  /** Repeated answers to one question each count: answering a one-question quiz right twice scores 200. */
  lemma RepeatedAnswersExceed100(q: C.Question)
    requires q.correctAnswer == Some("Yes")
    ensures CorrectCount([q], [Answer(q.id, Some("Yes")), Answer(q.id, Some("Yes"))]) == 2
    ensures QuizScore(2, 1) == 200
  {
    var answers := [Answer(q.id, Some("Yes")), Answer(q.id, Some("Yes"))];
    assert answers[..1][..0] == [];
    assert IsCorrect([q], answers[0]);
  }

  /** A question stored without a correct answer is matched by an answer that leaves its answer out. */
  lemma OmittedAnswerMatchesMissingKey(q: C.Question)
    requires q.correctAnswer == None
    ensures IsCorrect([q], Answer(q.id, None))
    ensures !IsCorrect([q], Answer(q.id, Some("")))
  {
  }

  // ---------------------------------------------------------------- the loaded plan

  /** Titles name resources in progress lists (the client sends a resource's title as its id). */
  function Titles<R>(rs: seq<R>, title: R -> string): (t: seq<string>)
    ensures |t| == |rs|
    ensures forall i :: 0 <= i < |rs| ==> t[i] == title(rs[i])
  {
    seq(|rs|, i requires 0 <= i < |rs| => title(rs[i]))
  }

  /** The set of a sequence's elements. */
  function Elements<T>(s: seq<T>): set<T> {
    set x | x in s
  }

  lemma {:induction false} ElementsBound<T>(s: seq<T>)
    ensures |Elements(s)| <= |s|
    ensures NoDup(s) ==> |Elements(s)| == |s|
    decreases |s|
  {
    if s != [] {
      var init := s[..|s| - 1];
      var last := s[|s| - 1];
      ElementsBound(init);
      assert Elements(s) == Elements(init) + {last};
      if NoDup(s) {
        assert NoDup(init);
        assert last !in Elements(init);
      }
    }
  }

  /** A duplicate-free list drawn from `pool` is no longer than `pool`. */
  lemma {:induction false} DistinctDrawBound(xs: seq<string>, pool: seq<string>)
    requires NoDup(xs)
    requires forall x :: x in xs ==> x in pool
    ensures |xs| <= |pool|
  {
    ElementsBound(xs);
    ElementsBound(pool);
    assert Elements(xs) <= Elements(pool);
    SubsetCard(Elements(xs), Elements(pool));
  }

  lemma {:induction false} SubsetCard(a: set<string>, b: set<string>)
    requires a <= b
    ensures |a| <= |b|
  {
    assert b == a + (b - a);
  }

  /** The completion criteria a progress update sets, and the progress it computes. */
  function CriteriaAfterUpdate(old_: C.Criteria, rs: C.Resources, read: seq<string>, watched: seq<string>,
                               reviewed: seq<string>, best: int, passing: int): (c: C.Criteria)
    ensures c.passQuiz == old_.passQuiz
    ensures c.readArticles <==> |read| == |rs.articles|
    ensures c.watchVideos <==> |watched| == |rs.videos|
    ensures c.reviewCallExamples <==> |reviewed| == |rs.callExamples|
    ensures c.overallProgress == OverallProgress(|read| + |watched| + |reviewed|,
                                                 |rs.articles| + |rs.videos| + |rs.callExamples|, best, passing)
  {
    old_.(overallProgress := OverallProgress(|read| + |watched| + |reviewed|,
                                             |rs.articles| + |rs.videos| + |rs.callExamples|, best, passing),
          readArticles := |read| == |rs.articles|,
          watchVideos := |watched| == |rs.videos|,
          reviewCallExamples := |reviewed| == |rs.callExamples|)
  }

  /**
   * When every progress list is duplicate-free and holds only titles of resources the plan
   * recommends, the computed progress passes the schema's 0..100 check.
   */
  lemma {:induction false} ListedResourcesKeepProgressValid(rs: C.Resources, read: seq<string>, watched: seq<string>,
                                                            reviewed: seq<string>, best: int, passing: int, old_: C.Criteria)
    requires NoDup(read) && NoDup(watched) && NoDup(reviewed)
    requires forall x :: x in read ==> x in Titles(rs.articles, (r: C.Article) => r.title)
    requires forall x :: x in watched ==> x in Titles(rs.videos, (r: C.Video) => r.title)
    requires forall x :: x in reviewed ==> x in Titles(rs.callExamples, (r: C.CallExample) => r.title)
    ensures 0 <= CriteriaAfterUpdate(old_, rs, read, watched, reviewed, best, passing).overallProgress <= 100
  {
    DistinctDrawBound(read, Titles(rs.articles, (r: C.Article) => r.title));
    DistinctDrawBound(watched, Titles(rs.videos, (r: C.Video) => r.title));
    DistinctDrawBound(reviewed, Titles(rs.callExamples, (r: C.CallExample) => r.title));
    ProgressWithinBounds(|read| + |watched| + |reviewed|, |rs.articles| + |rs.videos| + |rs.callExamples|, best, passing);
  }

  /**
   * Ids are not checked against the plan: two unknown articles marked read on a plan with
   * one article give progress 140, which the schema refuses to save.
   */
  lemma UnlistedIdsBreakProgress(a: C.Article, old_: C.Criteria)
    ensures CriteriaAfterUpdate(old_, C.Resources([a], [], []), ["x", "y"], [], [], 0, 80).overallProgress == 140
  {
  }

  /**
   * The plan after a progress update: the id joins the list of its kind unless already
   * there, the three resource flags and the overall progress are recomputed from the
   * lists, and nothing else changes.
   */
  function Updated(c: C.Coaching, kind: ResourceKind, resourceId: string): (u: C.Coaching)
    ensures u.progress.articlesRead ==
              if kind == ArticleKind then AddOnce(c.progress.articlesRead, resourceId) else c.progress.articlesRead
    ensures u.progress.videosWatched ==
              if kind == VideoKind then AddOnce(c.progress.videosWatched, resourceId) else c.progress.videosWatched
    ensures u.progress.callExamplesReviewed ==
              if kind == CallExampleKind then AddOnce(c.progress.callExamplesReviewed, resourceId) else c.progress.callExamplesReviewed
    ensures u.criteria == CriteriaAfterUpdate(c.criteria, c.resources, u.progress.articlesRead, u.progress.videosWatched,
                                              u.progress.callExamplesReviewed, c.progress.bestQuizScore, C.PassingScore(c.quiz))
    ensures u.progress.(articlesRead := c.progress.articlesRead, videosWatched := c.progress.videosWatched,
                        callExamplesReviewed := c.progress.callExamplesReviewed) == c.progress
    ensures u.(progress := c.progress, criteria := c.criteria) == c
  {
    var p := c.progress;
    var read := if kind == ArticleKind then AddOnce(p.articlesRead, resourceId) else p.articlesRead;
    var watched := if kind == VideoKind then AddOnce(p.videosWatched, resourceId) else p.videosWatched;
    var reviewed := if kind == CallExampleKind then AddOnce(p.callExamplesReviewed, resourceId) else p.callExamplesReviewed;
    c.(progress := p.(articlesRead := read, videosWatched := watched, callExamplesReviewed := reviewed),
       criteria := CriteriaAfterUpdate(c.criteria, c.resources, read, watched, reviewed, p.bestQuizScore, C.PassingScore(c.quiz)))
  }

  /** Marking the same resource twice is the same as marking it once. */
  lemma {:induction false} UpdateIsIdempotent(c: C.Coaching, kind: ResourceKind, resourceId: string)
    ensures Updated(Updated(c, kind, resourceId), kind, resourceId) == Updated(c, kind, resourceId)
  {
    var u := Updated(c, kind, resourceId);
    var v := Updated(u, kind, resourceId);
    assert v.progress == u.progress;
  }

  /** The progress lists stay duplicate-free under updates. */
  lemma UpdateKeepsListsDistinct(c: C.Coaching, kind: ResourceKind, resourceId: string)
    requires NoDup(c.progress.articlesRead) && NoDup(c.progress.videosWatched) && NoDup(c.progress.callExamplesReviewed)
    ensures var u := Updated(c, kind, resourceId);
            NoDup(u.progress.articlesRead) && NoDup(u.progress.videosWatched) && NoDup(u.progress.callExamplesReviewed)
  {
  }

  /** The score of a submission, or `None` (NaN) for a quiz without questions. */
  function SubmissionScore(c: C.Coaching, answers: seq<Answer>): (s: Option<nat>)
    ensures s.None? <==> |c.quiz.questions| == 0
  {
    if |c.quiz.questions| == 0 then None
    else Some(QuizScore(CorrectCount(c.quiz.questions, answers), |c.quiz.questions|))
  }

  /** All four completion flags hold. */
  predicate AllCriteria(k: C.Criteria) {
    k.readArticles && k.watchVideos && k.reviewCallExamples && k.passQuiz
  }

  /**
   * The plan after a quiz submission with a score: exactly one attempt is appended, the
   * best score becomes the larger of the old best and this score, the pass flag follows
   * this attempt alone, and the plan is completed (progress 100, completion time now) the
   * first time all four flags hold; completion is never undone and the resource lists
   * are untouched.
   */
  function Submitted(c: C.Coaching, answers: seq<Answer>, now: int): (u: C.Coaching)
    requires |c.quiz.questions| > 0
    ensures var score := SubmissionScore(c, answers).value;
            && u.progress.quizAttempts == c.progress.quizAttempts + [C.QuizAttempt(now, score, ScoredAnswers(c.quiz.questions, answers))]
            && u.progress.bestQuizScore >= c.progress.bestQuizScore && u.progress.bestQuizScore >= score
            && (u.progress.bestQuizScore == c.progress.bestQuizScore || u.progress.bestQuizScore == score)
            && (u.criteria.passQuiz <==> score >= C.PassingScore(c.quiz))
    ensures u.criteria.(passQuiz := c.criteria.passQuiz, overallProgress := c.criteria.overallProgress) == c.criteria
    ensures !c.progress.isCompleted && AllCriteria(u.criteria) ==>
              u.progress.isCompleted && u.progress.completedAt == Some(now) && u.criteria.overallProgress == 100
    ensures !(!c.progress.isCompleted && AllCriteria(u.criteria)) ==>
              u.progress.isCompleted == c.progress.isCompleted && u.progress.completedAt == c.progress.completedAt
              && u.criteria.overallProgress == c.criteria.overallProgress
    ensures c.progress.isCompleted ==> u.progress.isCompleted
    ensures u.progress.articlesRead == c.progress.articlesRead && u.progress.videosWatched == c.progress.videosWatched
    ensures u.progress.callExamplesReviewed == c.progress.callExamplesReviewed
    ensures u.(progress := c.progress, criteria := c.criteria) == c
  {
    var qs := c.quiz.questions;
    var score := QuizScore(CorrectCount(qs, answers), |qs|);
    var p := c.progress;
    var attempts := p.quizAttempts + [C.QuizAttempt(now, score, ScoredAnswers(qs, answers))];
    var best := if score > p.bestQuizScore then score else p.bestQuizScore;
    var k := c.criteria.(passQuiz := score >= C.PassingScore(c.quiz));
    if AllCriteria(k) && !p.isCompleted then
      c.(progress := p.(quizAttempts := attempts, bestQuizScore := best, isCompleted := true, completedAt := Some(now)),
         criteria := k.(overallProgress := 100))
    else
      c.(progress := p.(quizAttempts := attempts, bestQuizScore := best), criteria := k)
  }

  /** A plan whose resources are all done is completed by a passing submission, and then shows 100. */
  lemma {:induction false} PassingSubmissionCompletes(c: C.Coaching, answers: seq<Answer>, now: int)
    requires |c.quiz.questions| > 0 && !c.progress.isCompleted
    requires c.criteria.readArticles && c.criteria.watchVideos && c.criteria.reviewCallExamples
    requires SubmissionScore(c, answers).value >= C.PassingScore(c.quiz)
    ensures Submitted(c, answers, now).progress.isCompleted
    ensures Submitted(c, answers, now).criteria.overallProgress == 100
  {
  }

  /** A Coaching document loaded for update: the stored plan and the fields the handlers rewrite. */
  class CoachingDocument {
    const plan: C.Coaching
    var articlesRead: seq<string>
    var videosWatched: seq<string>
    var callExamplesReviewed: seq<string>
    var quizAttempts: seq<C.QuizAttempt>
    var bestQuizScore: int
    var isCompleted: bool
    var completedAt: Option<int>
    var criteria: C.Criteria

    /** The document as it would be saved. */
    function Document(): C.Coaching
      reads this
    {
      plan.(criteria := criteria,
            progress := C.Progress(articlesRead, videosWatched, callExamplesReviewed, quizAttempts,
                                   bestQuizScore, isCompleted, completedAt))
    }

    constructor Load(c: C.Coaching)
      ensures plan == c && Document() == c
    {
      plan := c;
      articlesRead := c.progress.articlesRead;
      videosWatched := c.progress.videosWatched;
      callExamplesReviewed := c.progress.callExamplesReviewed;
      quizAttempts := c.progress.quizAttempts;
      bestQuizScore := c.progress.bestQuizScore;
      isCompleted := c.progress.isCompleted;
      completedAt := c.progress.completedAt;
      criteria := c.criteria;
    }

    /** The progress-update handler's changes to the loaded document. */
    method UpdateProgress(kind: ResourceKind, resourceId: string)
      modifies this
      ensures Document() == Updated(old(Document()), kind, resourceId)
    {
      match kind {
        case ArticleKind =>
          if resourceId !in articlesRead {
            articlesRead := articlesRead + [resourceId];
          }
        case VideoKind =>
          if resourceId !in videosWatched {
            videosWatched := videosWatched + [resourceId];
          }
        case CallExampleKind =>
          if resourceId !in callExamplesReviewed {
            callExamplesReviewed := callExamplesReviewed + [resourceId];
          }
      }
      UpdateCriteria();
    }

    /** The recomputation that ends a progress update. */
    method UpdateCriteria()
      modifies this
      ensures criteria == CriteriaAfterUpdate(old(criteria), plan.resources, articlesRead, videosWatched,
                                              callExamplesReviewed, bestQuizScore, C.PassingScore(plan.quiz))
      ensures articlesRead == old(articlesRead) && videosWatched == old(videosWatched)
      ensures callExamplesReviewed == old(callExamplesReviewed)
      ensures quizAttempts == old(quizAttempts) && bestQuizScore == old(bestQuizScore)
      ensures isCompleted == old(isCompleted) && completedAt == old(completedAt)
    {
      var rs := plan.resources;
      var total := |rs.articles| + |rs.videos| + |rs.callExamples|;
      var completed := |articlesRead| + |videosWatched| + |callExamplesReviewed|;
      var resourceProgress := if total > 0 then RoundDiv(70 * completed, total) else 0;
      var quizProgress := if bestQuizScore >= C.PassingScore(plan.quiz) then 30 else 0;
      criteria := criteria.(overallProgress := resourceProgress + quizProgress);
      criteria := criteria.(readArticles := |articlesRead| == |rs.articles|);
      criteria := criteria.(watchVideos := |videosWatched| == |rs.videos|);
      criteria := criteria.(reviewCallExamples := |callExamplesReviewed| == |rs.callExamples|);
    }

    /**
     * The quiz-submission handler's changes to the loaded document. A quiz without
     * questions scores NaN, which the save refuses, so nothing is kept (`None`).
     */
    method SubmitQuiz(answers: seq<Answer>, now: int) returns (score: Option<nat>)
      modifies this
      ensures score == SubmissionScore(old(Document()), answers)
      ensures score.None? ==> unchanged(this)
      ensures score.Some? ==> Document() == Submitted(old(Document()), answers, now)
    {
      var qs := plan.quiz.questions;
      if |qs| == 0 {
        return None;
      }
      var scored, correct := ScoreAnswers(qs, answers);
      var s := QuizScore(correct, |qs|);
      quizAttempts := quizAttempts + [C.QuizAttempt(now, s, scored)];
      bestQuizScore := if s > bestQuizScore then s else bestQuizScore;
      criteria := criteria.(passQuiz := s >= C.PassingScore(plan.quiz));
      var allDone := criteria.readArticles && criteria.watchVideos && criteria.reviewCallExamples && criteria.passQuiz;
      if allDone && !isCompleted {
        isCompleted := true;
        completedAt := Some(now);
        criteria := criteria.(overallProgress := 100);
      }
      score := Some(s);
    }
  }
}
