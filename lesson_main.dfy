/**
 * The lesson list: the sections flattened into one reading order, the rule
 * that unlocks lessons one at a time, and the status icon beside each entry.
 */
module LessonMain {
  import opened Wrappers
  import opened Models
  import opened Lessons

  // ------------------------------------------------------------ flattening

  /** Every section's lessons, sections in order and lessons in order within each. */
  function AllLessons(sections: seq<LessonSection>): (r: seq<Lesson>)
    ensures |sections| == 1 ==> r == sections[0].lessons
  {
    if sections == [] then []
    else AllLessons(sections[..|sections| - 1]) + sections[|sections| - 1].lessons
  }

  /** Flattening respects concatenation: the lessons of `a + b` are those of `a`, then those of `b`. */
  lemma {:induction false} AllLessonsAppend(a: seq<LessonSection>, b: seq<LessonSection>)
    ensures AllLessons(a + b) == AllLessons(a) + AllLessons(b)
    decreases |b|
  {
    if b == [] {
      assert a + b == a;
    } else {
      var b' := b[..|b| - 1];
      assert (a + b)[..|a + b| - 1] == a + b';
      AllLessonsAppend(a, b');
      assert AllLessons(b) == AllLessons(b') + b[|b| - 1].lessons;
    }
  }

  /** A lesson is listed exactly when some section holds it. */
  lemma {:induction false} InAllLessons(sections: seq<LessonSection>, lesson: Lesson)
    ensures lesson in AllLessons(sections) <==> exists s :: s in sections && lesson in s.lessons
  {
    if sections != [] {
      var init := sections[..|sections| - 1];
      InAllLessons(init, lesson);
      assert sections == init + [sections[|sections| - 1]];
    }
  }

  // ------------------------------------------------------------- unlocking

  /** Whether some completion record carries `id`. */
  predicate HasRecord(completed: seq<CompletedLesson>, id: int) {
    exists k :: 0 <= k < |completed| && completed[k].lessonId == id
  }

  /** The first completion record for `id`, if any. */
  function FirstRecord(completed: seq<CompletedLesson>, id: int): (r: Option<CompletedLesson>)
    ensures r.Some? ==> r.value in completed && r.value.lessonId == id
    ensures r.None? <==> !HasRecord(completed, id)
  {
    match FirstIndexWhere(completed, (c: CompletedLesson) => c.lessonId == id)
    case Some(k) => Some(completed[k])
    case None => None
  }

  /** The first position in `lessons` holding a lesson with this id, if any. */
  function FirstIndex(lessons: seq<Lesson>, id: int): Option<nat> {
    FirstIndexWhere(lessons, (l: Lesson) => l.id == id)
  }

  /** The search loop: whether each of the first `n` lessons has a record. */
  function PriorRecorded(lessons: seq<Lesson>, n: nat, completed: seq<CompletedLesson>): bool
    requires n <= |lessons|
  {
    if n == 0 then true
    else PriorRecorded(lessons, n - 1, completed) && HasRecord(completed, lessons[n - 1].id)
  }

  /**
   * Whether the lesson may be opened. A record decides by itself: a perfect
   * run locks the lesson, an imperfect one leaves it open for a retry.
   * Without a record the lesson must be listed; the first listed lesson is
   * open, and any other is open once every earlier lesson has a record.
   */
  function IsLessonEnabled(lesson: Lesson, allLessons: seq<Lesson>, completed: seq<CompletedLesson>): bool {
    match FirstRecord(completed, lesson.id)
    case Some(record) => !record.allQuestionsCorrect
    case None =>
      match FirstIndex(allLessons, lesson.id)
      case None => false
      case Some(currentIndex) => currentIndex == 0 || PriorRecorded(allLessons, currentIndex, completed)
  }

  /** The search loop finds a missing record exactly when one of the first `n` lessons lacks one. */
  lemma {:induction false} PriorRecordedMeans(lessons: seq<Lesson>, n: nat, completed: seq<CompletedLesson>)
    requires n <= |lessons|
    ensures PriorRecorded(lessons, n, completed) <==> forall j :: 0 <= j < n ==> HasRecord(completed, lessons[j].id)
  {
    if n > 0 {
      PriorRecordedMeans(lessons, n - 1, completed);
    }
  }

  /**
   * With at most one record per lesson, a recorded lesson is open exactly
   * when its record is not all-correct.
   */
  lemma RecordDecides(lesson: Lesson, allLessons: seq<Lesson>, completed: seq<CompletedLesson>, k: nat)
    requires UniqueLessonIds(completed)
    requires k < |completed| && completed[k].lessonId == lesson.id
    ensures IsLessonEnabled(lesson, allLessons, completed) <==> !completed[k].allQuestionsCorrect
  {
    var r := FirstRecord(completed, lesson.id);
    assert r.Some?;
    var i :| 0 <= i < |completed| && completed[i] == r.value;
    assert i == k;
  }

  /**
   * An unrecorded lesson is open exactly when it is listed and every lesson
   * listed before its first occurrence has a record, whatever that record's score.
   */
  lemma UnrecordedEnabled(lesson: Lesson, allLessons: seq<Lesson>, completed: seq<CompletedLesson>)
    requires !HasRecord(completed, lesson.id)
    ensures IsLessonEnabled(lesson, allLessons, completed) <==>
      exists i :: 0 <= i < |allLessons| && allLessons[i].id == lesson.id
        && (forall j :: 0 <= j < i ==> allLessons[j].id != lesson.id)
        && (forall j :: 0 <= j < i ==> HasRecord(completed, allLessons[j].id))
  {
    match FirstIndex(allLessons, lesson.id)
    case None =>
    case Some(i) =>
      PriorRecordedMeans(allLessons, i, completed);
      forall i' | 0 <= i' < |allLessons| && allLessons[i'].id == lesson.id
        && (forall j :: 0 <= j < i' ==> allLessons[j].id != lesson.id)
        ensures i' == i
      {}
  }

  /** The first listed lesson is open until it is passed with every answer right. */
  lemma FirstLessonOpen(allLessons: seq<Lesson>, completed: seq<CompletedLesson>)
    requires allLessons != []
    requires !HasRecord(completed, allLessons[0].id)
    ensures IsLessonEnabled(allLessons[0], allLessons, completed)
  {
    assert FirstIndex(allLessons, allLessons[0].id) == Some(0);
  }

  /** Whether no two listed lessons share an id. */
  predicate DistinctIds(lessons: seq<Lesson>) {
    forall i, j :: 0 <= i < j < |lessons| ==> lessons[i].id != lessons[j].id
  }

  /**
   * Lessons unlock one at a time: among the lessons without a record, exactly
   * the earliest one in reading order is open.
   */
  lemma OnlyNextLessonOpen(allLessons: seq<Lesson>, completed: seq<CompletedLesson>, i: nat)
    requires DistinctIds(allLessons)
    requires i < |allLessons| && !HasRecord(completed, allLessons[i].id)
    ensures IsLessonEnabled(allLessons[i], allLessons, completed) <==>
      forall j :: 0 <= j < i ==> HasRecord(completed, allLessons[j].id)
  {
    assert FirstIndex(allLessons, allLessons[i].id) == Some(i);
    PriorRecordedMeans(allLessons, i, completed);
  }

  /** A lesson that is not listed opens only through an imperfect record. */
  lemma UnlistedLessonLocked(lesson: Lesson, allLessons: seq<Lesson>, completed: seq<CompletedLesson>)
    requires forall k :: 0 <= k < |allLessons| ==> allLessons[k].id != lesson.id
    ensures IsLessonEnabled(lesson, allLessons, completed) <==>
      FirstRecord(completed, lesson.id).Some? && !FirstRecord(completed, lesson.id).value.allQuestionsCorrect
  {}

  // ------------------------------------------------------------ list status

  /** The icon shown at the end of a list entry. */
  datatype StatusIcon = Checkmark | Exclamation | Padlock | NoIcon

  /** Whether some record with this title was passed with every answer right. */
  predicate CompletedByTitle(completed: seq<CompletedLesson>, title: string) {
    exists k :: 0 <= k < |completed| && completed[k].title == title && completed[k].allQuestionsCorrect
  }

  /** Whether some record with this title was passed with a wrong answer. */
  predicate AnswersWrongByTitle(completed: seq<CompletedLesson>, title: string) {
    exists k :: 0 <= k < |completed| && completed[k].title == title && !completed[k].allQuestionsCorrect
  }

  /** The status icon: checkmark when passed, exclamation when passed imperfectly, padlock when locked. */
  function Icon(title: string, isEnabled: bool, completed: seq<CompletedLesson>): StatusIcon {
    if CompletedByTitle(completed, title) then Checkmark
    else if AnswersWrongByTitle(completed, title) then Exclamation
    else if !isEnabled then Padlock
    else NoIcon
  }

  /** Whether the entry shows the disclosure chevron. */
  predicate ShowsChevron(title: string, isEnabled: bool, completed: seq<CompletedLesson>) {
    isEnabled || AnswersWrongByTitle(completed, title)
  }

  /**
   * When titles identify lessons and each lesson has at most one record, the
   * list entry agrees with the unlocking rule: a perfectly passed lesson shows
   * the checkmark and is locked, an imperfect one shows the exclamation mark
   * and stays open, an unrecorded locked one shows the padlock, an unrecorded
   * open one shows no icon; the chevron appears exactly on open lessons.
   */
  lemma IconMatchesUnlocking(lesson: Lesson, allLessons: seq<Lesson>, completed: seq<CompletedLesson>)
    requires UniqueLessonIds(completed)
    requires forall k :: 0 <= k < |completed| ==> (completed[k].title == lesson.title <==> completed[k].lessonId == lesson.id)
    ensures var enabled := IsLessonEnabled(lesson, allLessons, completed);
      && (Icon(lesson.title, enabled, completed) == Checkmark <==> HasRecord(completed, lesson.id) && !enabled)
      && (Icon(lesson.title, enabled, completed) == Exclamation <==> HasRecord(completed, lesson.id) && enabled)
      && (Icon(lesson.title, enabled, completed) == Padlock <==> !HasRecord(completed, lesson.id) && !enabled)
      && (Icon(lesson.title, enabled, completed) == NoIcon <==> !HasRecord(completed, lesson.id) && enabled)
      && (ShowsChevron(lesson.title, enabled, completed) <==> enabled)
  {
    if HasRecord(completed, lesson.id) {
      var k :| 0 <= k < |completed| && completed[k].lessonId == lesson.id;
      RecordDecides(lesson, allLessons, completed, k);
      forall k' | 0 <= k' < |completed| && completed[k'].title == lesson.title
        ensures k' == k
      {}
    }
  }
}
