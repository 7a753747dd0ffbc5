/**
 * A lesson in progress: paging through its content, answering its questions
 * once, scoring them, the result tier, and the completion record kept for
 * the lesson.
 */
module LessonDetail {
  import opened Wrappers
  import opened Models
  import opened Lessons

  // ---------------------------------------------------------------- scoring

  /** Every selection names one of its question's answers. */
  predicate SelectionsInRange(questions: seq<Question>, selected: map<int, int>) {
    forall i :: 0 <= i < |questions| && questions[i].id in selected ==>
      0 <= selected[questions[i].id] < |questions[i].answers|
  }

  /** Whether the answer selected for `q` is marked correct; no selection is not. */
  predicate AnsweredCorrectly(q: Question, selected: map<int, int>) {
    q.id in selected && 0 <= selected[q.id] < |q.answers| && q.answers[selected[q.id]].isCorrect
  }

  /** The number of questions whose selected answer is correct. */
  function QuestionsCorrect(questions: seq<Question>, selected: map<int, int>): (n: int)
    requires SelectionsInRange(questions, selected)
    ensures 0 <= n <= |questions|
  {
    if questions == [] then 0
    else
      var init := questions[..|questions| - 1];
      assert SelectionsInRange(init, selected) by {
        forall i | 0 <= i < |init| && init[i].id in selected
          ensures 0 <= selected[init[i].id] < |init[i].answers|
        {
          assert init[i] == questions[i];
        }
      }
      QuestionsCorrect(init, selected) + (if AnsweredCorrectly(questions[|questions| - 1], selected) then 1 else 0)
  }

  /** A full score means every question was answered correctly, and a zero score that none was. */
  lemma {:induction false} QuestionsCorrectExtremes(questions: seq<Question>, selected: map<int, int>)
    requires SelectionsInRange(questions, selected)
    ensures QuestionsCorrect(questions, selected) == |questions| <==>
      forall i :: 0 <= i < |questions| ==> AnsweredCorrectly(questions[i], selected)
    ensures QuestionsCorrect(questions, selected) == 0 <==>
      forall i :: 0 <= i < |questions| ==> !AnsweredCorrectly(questions[i], selected)
  {
    if questions != [] {
      var init := questions[..|questions| - 1];
      assert forall i :: 0 <= i < |init| ==> init[i] == questions[i];
      assert SelectionsInRange(init, selected);
      QuestionsCorrectExtremes(init, selected);
    }
  }

  /** The result screen's tier. */
  datatype QuizTier = Pass | HalfPass | Fail

  /**
   * The tier for a score: pass when every answer is right, half pass from two
   * thirds on, fail below. With no questions the division yields NaN for a
   * zero score and infinity for a positive one.
   */
  function Tier(questionsCorrect: int, totalQuestions: nat): QuizTier {
    if totalQuestions == 0 then (if questionsCorrect > 0 then HalfPass else Fail)
    else
      var fractionCorrect := questionsCorrect as real / totalQuestions as real;
      if fractionCorrect == 1.0 then Pass
      else if fractionCorrect >= 2.0 / 3.0 then HalfPass
      else Fail
  }

  /**
   * For a score within the question count, the tier is pass exactly on a
   * full score, half pass exactly when at least two thirds but not all are
   * right, and fail below two thirds; a lesson without questions fails.
   */
  lemma TierThresholds(questionsCorrect: int, totalQuestions: nat)
    requires 0 <= questionsCorrect <= totalQuestions
    ensures totalQuestions == 0 ==> Tier(questionsCorrect, totalQuestions) == Fail
    ensures totalQuestions > 0 ==>
      && (Tier(questionsCorrect, totalQuestions) == Pass <==> questionsCorrect == totalQuestions)
      && (Tier(questionsCorrect, totalQuestions) == HalfPass <==>
            questionsCorrect < totalQuestions && 3 * questionsCorrect >= 2 * totalQuestions)
      && (Tier(questionsCorrect, totalQuestions) == Fail <==> 3 * questionsCorrect < 2 * totalQuestions)
  {
    if totalQuestions > 0 {
      var c, t := questionsCorrect as real, totalQuestions as real;
      RatioAtLeast(c, t, 1.0);
      RatioAtLeast(c, t, 2.0 / 3.0);
    }
  }

  /** A ratio reaches (or stays within) `k` exactly when the numerator does against `k` times the denominator. */
  lemma RatioAtLeast(c: real, t: real, k: real)
    requires t > 0.0
    ensures c / t >= k <==> c >= k * t
    ensures c / t <= k <==> c <= k * t
  {
    var f := c / t;
    assert f * t == c;
    if f >= k {
      assert (f - k) * t >= 0.0;
    } else {
      assert (k - f) * t > 0.0;
    }
    if f <= k {
      assert (k - f) * t >= 0.0;
    } else {
      assert (f - k) * t > 0.0;
    }
  }

  // ------------------------------------------------------ completion record

  /** The position of the first record for `id`, if any. */
  function FirstRecordIndex(records: seq<CompletedLesson>, id: int): Option<nat> {
    FirstIndexWhere(records, (c: CompletedLesson) => c.lessonId == id)
  }

  /**
   * The records after a finished attempt: an existing record is raised to
   * all-correct on a perfect attempt, otherwise left alone; with no record one
   * is added, all-correct exactly when the attempt was perfect.
   */
  function Upsert(records: seq<CompletedLesson>, id: int, title: string, perfect: bool): seq<CompletedLesson> {
    match FirstRecordIndex(records, id)
    case Some(k) =>
      if perfect && !records[k].allQuestionsCorrect then records[k := records[k].(allQuestionsCorrect := true)]
      else records
    case None => records + [CompletedLesson(id, title, perfect)]
  }

  /** Changing a record without changing its id leaves the first match where it was. */
  lemma FirstRecordIndexSameIds(records: seq<CompletedLesson>, records': seq<CompletedLesson>, id: int)
    requires |records'| >= |records|
    requires forall k :: 0 <= k < |records| ==> records'[k].lessonId == records[k].lessonId
    requires FirstRecordIndex(records, id).Some?
    ensures FirstRecordIndex(records', id) == FirstRecordIndex(records, id)
  {
    var k := FirstRecordIndex(records, id).value;
    var r := FirstRecordIndex(records', id);
    assert records'[k].lessonId == id;
  }

  /**
   * With no record for the id, exactly one is added at the end, marked
   * all-correct iff the attempt was perfect. With one, nothing is added; its
   * flag becomes true on a perfect attempt and is never cleared. No other
   * record changes.
   */
  lemma UpsertEffect(records: seq<CompletedLesson>, id: int, title: string, perfect: bool)
    ensures var r := Upsert(records, id, title, perfect);
      && (FirstRecordIndex(records, id).None? ==>
            r == records + [CompletedLesson(id, title, perfect)])
      && (FirstRecordIndex(records, id).Some? ==>
            var k := FirstRecordIndex(records, id).value;
            && |r| == |records|
            && r[k] == records[k].(allQuestionsCorrect := records[k].allQuestionsCorrect || perfect)
            && forall j :: 0 <= j < |records| && j != k ==> r[j] == records[j])
  {}

  /** Saving keeps at most one record per lesson. */
  lemma UpsertKeepsUnique(records: seq<CompletedLesson>, id: int, title: string, perfect: bool)
    requires UniqueLessonIds(records)
    ensures UniqueLessonIds(Upsert(records, id, title, perfect))
  {
    var r := Upsert(records, id, title, perfect);
    if FirstRecordIndex(records, id).None? {
      forall i, j | 0 <= i < j < |r| ensures r[i].lessonId != r[j].lessonId {
        if j == |records| {
          assert r[i] == records[i];
        } else {
          assert r[i] == records[i] && r[j] == records[j];
        }
      }
    }
  }

  /** Saving twice is saving once: the result screen's Next and its Close both save. */
  lemma UpsertIdempotent(records: seq<CompletedLesson>, id: int, title: string, perfect: bool)
    ensures Upsert(Upsert(records, id, title, perfect), id, title, perfect) == Upsert(records, id, title, perfect)
  {
    var once := Upsert(records, id, title, perfect);
    match FirstRecordIndex(records, id)
    case Some(k) =>
      FirstRecordIndexSameIds(records, once, id);
    case None =>
      var r := FirstRecordIndex(once, id);
      assert once[|records|].lessonId == id;
      assert r == Some(|records|);
  }

  /** Saving never takes the all-correct mark away from any record. */
  lemma UpsertNeverDowngrades(records: seq<CompletedLesson>, id: int, title: string, perfect: bool)
    ensures |Upsert(records, id, title, perfect)| >= |records|
    ensures forall j :: 0 <= j < |records| ==>
      Upsert(records, id, title, perfect)[j].lessonId == records[j].lessonId
      && (records[j].allQuestionsCorrect ==> Upsert(records, id, title, perfect)[j].allQuestionsCorrect)
  {
    UpsertEffect(records, id, title, perfect);
  }

  // ----------------------------------------------------------- the session

  /** The ids of the questions, as a set. */
  function QuestionIds(questions: seq<Question>): (ids: set<int>)
    ensures forall id :: id in ids <==> exists i :: 0 <= i < |questions| && questions[i].id == id
  {
    if questions == [] then {}
    else
      var init := questions[..|questions| - 1];
      var ids := QuestionIds(init);
      assert forall i :: 0 <= i < |init| ==> init[i] == questions[i];
      ids + {questions[|questions| - 1].id}
  }

  /** Whether no two questions share an id. */
  predicate DistinctQuestionIds(questions: seq<Question>) {
    forall i, j :: 0 <= i < j < |questions| ==> questions[i].id != questions[j].id
  }

  /** Distinct ids make as many ids as questions. */
  lemma {:induction false} QuestionIdsCount(questions: seq<Question>)
    requires DistinctQuestionIds(questions)
    ensures |QuestionIds(questions)| == |questions|
  {
    if questions != [] {
      var init := questions[..|questions| - 1];
      var last := questions[|questions| - 1];
      assert DistinctQuestionIds(init);
      QuestionIdsCount(init);
      assert last.id !in QuestionIds(init);
    }
  }

  /** A subset as large as its superset is the superset. */
  lemma SubsetOfSameSize(a: set<int>, b: set<int>)
    requires a <= b && |a| == |b|
    ensures a == b
  {
    var rest := b - a;
    assert b == a + rest;
    assert a * rest == {};
    assert |b| == |a| + |rest|;
  }

  /** The state of the lesson screen. Selections are keyed by question id. */
  class LessonSession {
    const lesson: Lesson
    var selectedAnswer: map<int, int>
    var answerSubmitted: bool
    var currentPageIndex: int
    var showQuestions: bool
    var showLessonComplete: bool
    var showCloseAlert: bool
    var questionsCorrect: int

    /**
     * The page index stays on a page (or on 0 for a lesson without pages),
     * selections belong to the lesson's questions and name one of their
     * answers, and the score is within the question count.
     */
    ghost predicate Valid()
      reads this
    {
      && 0 <= currentPageIndex
      && (currentPageIndex == 0 || currentPageIndex < |lesson.pages|)
      && DistinctQuestionIds(lesson.questions)
      && selectedAnswer.Keys <= QuestionIds(lesson.questions)
      && SelectionsInRange(lesson.questions, selectedAnswer)
      && 0 <= questionsCorrect <= |lesson.questions|
    }

    /** Opens a lesson whose questions have distinct ids on its first page. */
    constructor (lesson: Lesson)
      requires DistinctQuestionIds(lesson.questions)
      ensures Valid()
      ensures this.lesson == lesson
      ensures selectedAnswer == map[] && !answerSubmitted && currentPageIndex == 0
      ensures !showQuestions && !showLessonComplete && !showCloseAlert && questionsCorrect == 0
    {
      this.lesson := lesson;
      selectedAnswer := map[];
      answerSubmitted := false;
      currentPageIndex := 0;
      showQuestions := false;
      showLessonComplete := false;
      showCloseAlert := false;
      questionsCorrect := 0;
    }

    /** The back button: one page back, or the leave-lesson dialog on the first page. */
    method PageBack()
      requires Valid()
      modifies this`currentPageIndex, this`showCloseAlert
      ensures Valid()
      ensures old(currentPageIndex) > 0 ==>
        currentPageIndex == old(currentPageIndex) - 1 && showCloseAlert == old(showCloseAlert)
      ensures old(currentPageIndex) == 0 ==> currentPageIndex == 0 && showCloseAlert
    {
      if currentPageIndex > 0 {
        currentPageIndex := currentPageIndex - 1;
      } else if currentPageIndex == 0 {
        showCloseAlert := true;
      }
    }

    /** The forward button: one page on, or the questions from the last page. */
    method PageForward()
      requires Valid()
      modifies this`currentPageIndex, this`showQuestions
      ensures Valid()
      ensures old(currentPageIndex) < |lesson.pages| - 1 ==>
        currentPageIndex == old(currentPageIndex) + 1 && showQuestions == old(showQuestions)
      ensures old(currentPageIndex) >= |lesson.pages| - 1 ==>
        currentPageIndex == old(currentPageIndex) && showQuestions
    {
      if currentPageIndex < |lesson.pages| - 1 {
        currentPageIndex := currentPageIndex + 1;
      } else {
        showQuestions := true;
      }
    }

    /** Taps answer `index` of question `i`; a no-op once the answers are submitted. */
    method SelectAnswer(i: nat, index: int)
      requires Valid()
      requires i < |lesson.questions| && 0 <= index < |lesson.questions[i].answers|
      modifies this`selectedAnswer
      ensures Valid()
      ensures selectedAnswer ==
        if old(answerSubmitted) then old(selectedAnswer)
        else old(selectedAnswer)[lesson.questions[i].id := index]
    {
      if !answerSubmitted {
        selectedAnswer := selectedAnswer[lesson.questions[i].id := index];
      }
    }

    /** Whether the Submit/Next button is enabled. */
    predicate SubmitEnabled()
      reads this
    {
      |selectedAnswer| == |lesson.questions|
    }

    /** The Submit/Next button is enabled exactly when every question has a selection. */
    lemma SubmitEnabledMeansAllAnswered()
      requires Valid()
      ensures SubmitEnabled() <==> forall i :: 0 <= i < |lesson.questions| ==> lesson.questions[i].id in selectedAnswer
    {
      var ids := QuestionIds(lesson.questions);
      QuestionIdsCount(lesson.questions);
      if SubmitEnabled() {
        assert |selectedAnswer.Keys| == |selectedAnswer|;
        SubsetOfSameSize(selectedAnswer.Keys, ids);
      }
      if forall i :: 0 <= i < |lesson.questions| ==> lesson.questions[i].id in selectedAnswer {
        assert ids <= selectedAnswer.Keys;
        assert selectedAnswer.Keys == ids;
      }
    }

    /** Files the attempt in the completion records. */
    method SaveCompletedLesson(store: Store)
      requires Valid() && store.Valid()
      modifies store`completedLessons
      ensures store.Valid()
      ensures store.completedLessons ==
        Upsert(old(store.completedLessons), lesson.id, lesson.title, questionsCorrect == |lesson.questions|)
    {
      UpsertKeepsUnique(store.completedLessons, lesson.id, lesson.title, questionsCorrect == |lesson.questions|);
      match FirstRecordIndex(store.completedLessons, lesson.id)
      case Some(k) =>
        if questionsCorrect == |lesson.questions| && !store.completedLessons[k].allQuestionsCorrect {
          store.completedLessons := store.completedLessons[k := store.completedLessons[k].(allQuestionsCorrect := true)];
        }
      case None =>
        var gotAllQuestionsCorrect := questionsCorrect == |lesson.questions|;
        var newLesson := CompletedLesson(lesson.id, lesson.title, gotAllQuestionsCorrect);
        store.completedLessons := store.completedLessons + [newLesson];
    }

    /**
     * The Submit/Next button, enabled once every question has a selection.
     * Submit scores the answers and freezes them; Next saves the attempt and
     * shows the result screen.
     */
    method Submit(store: Store)
      requires Valid() && store.Valid() && SubmitEnabled()
      modifies this`questionsCorrect, this`answerSubmitted, this`showLessonComplete, store`completedLessons
      ensures Valid() && store.Valid()
      ensures !old(answerSubmitted) ==>
        && questionsCorrect == QuestionsCorrect(lesson.questions, selectedAnswer)
        && answerSubmitted
        && showLessonComplete == old(showLessonComplete)
        && store.completedLessons == old(store.completedLessons)
      ensures old(answerSubmitted) ==>
        && questionsCorrect == old(questionsCorrect)
        && answerSubmitted
        && showLessonComplete
        && store.completedLessons ==
             Upsert(old(store.completedLessons), lesson.id, lesson.title, questionsCorrect == |lesson.questions|)
    {
      if !answerSubmitted {
        questionsCorrect := QuestionsCorrect(lesson.questions, selectedAnswer);
        answerSubmitted := true;
      } else {
        SaveCompletedLesson(store);
        showLessonComplete := true;
      }
    }

    /** The result screen's Close: saves the attempt again and marks this week's lesson done. */
    method Close(store: Store, flags: Flags)
      requires Valid() && store.Valid()
      modifies store`completedLessons, flags`completedLessonThisWeek
      ensures store.Valid()
      ensures store.completedLessons ==
        Upsert(old(store.completedLessons), lesson.id, lesson.title, questionsCorrect == |lesson.questions|)
      ensures flags.completedLessonThisWeek
    {
      SaveCompletedLesson(store);
      flags.completedLessonThisWeek := true;
    }
  }
}
