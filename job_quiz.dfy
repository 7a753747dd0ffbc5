/**
 * The weekly job quiz: three questions drawn from the shuffled bank, the
 * submit-then-next answering flow, the promotion points awarded for the score,
 * and the closing message.
 */
module JobQuiz {
  import opened Wrappers
  import opened Models
  import opened Questions

  /** A quiz asks at most this many questions. */
  const QuestionsPerQuiz := 3

  // ------------------------------------------------------- promotion points

  /** The least integer not below `x`. */
  function Ceil(x: real): (c: int)
    ensures c as real - 1.0 < x <= c as real
  {
    -((-x).Floor)
  }

  /** The level bonus: 0.2 per level, rounded up. */
  function LevelBonus(level: int): int {
    Ceil(level as real * 0.2)
  }

  /** Points for a score: 5, 10 or 15 plus the level bonus for 1, 2 or 3 correct answers, else none. */
  function Award(correct: int, level: int): int {
    if correct == 1 then 5 + LevelBonus(level)
    else if correct == 2 then 10 + LevelBonus(level)
    else if correct == 3 then 15 + LevelBonus(level)
    else 0
  }

  /** Progress after a quiz: the award added, then capped at the maximum. */
  function AwardedProgress(progress: int, correct: int): int {
    var raised := progress + Award(correct, PromotionLevel(progress));
    if raised > MaxProgress then MaxProgress else raised
  }

  /** Every level from 1 to 5 earns a bonus of exactly one point; level 0 earns none. */
  lemma LevelBonusValues(level: int)
    requires 0 <= level <= 5
    ensures LevelBonus(level) == (if level == 0 then 0 else 1)
  {
    var x := level as real * 0.2;
    assert 0.0 <= x <= 1.0;
    if level > 0 {
      assert x > 0.0;
    }
  }

  /**
   * A quiz never lowers progress at or below the maximum and never lifts it past it;
   * a score outside 1..3 only applies the cap; more correct answers never earn
   * less.
   */
  lemma AwardedProgressBounds(progress: int, correct: int, better: int)
    requires progress <= MaxProgress
    requires correct <= better <= QuestionsPerQuiz
    ensures progress <= AwardedProgress(progress, correct) <= MaxProgress
    ensures correct !in {1, 2, 3} ==> AwardedProgress(progress, correct) == progress
    ensures 0 <= correct ==> AwardedProgress(progress, correct) <= AwardedProgress(progress, better)
  {
    LevelBonusValues(PromotionLevel(progress));
  }

  /** A perfect quiz at level 0 reaches level 1 from 10 points on, and never skips a level there. */
  lemma PerfectQuizFromNewbie(progress: int)
    requires 10 <= progress < 25
    ensures PromotionLevel(AwardedProgress(progress, 3)) == 1
  {
    LevelBonusValues(0);
  }

  /**
   * Awards the points for `correctQuestions` to the first job record, if
   * there is one; the cap applies even when nothing is awarded.
   */
  method AwardPromotionPoints(job: Job?, correctQuestions: int)
    modifies job
    ensures job != null ==> job.progress == AwardedProgress(old(job.progress), correctQuestions)
  {
    if job != null {
      var promotionModifier := job.Level() as real * 0.2;
      if correctQuestions == 1 {
        job.progress := job.progress + 5 + Ceil(promotionModifier);
      } else if correctQuestions == 2 {
        job.progress := job.progress + 10 + Ceil(promotionModifier);
      } else if correctQuestions == 3 {
        job.progress := job.progress + 15 + Ceil(promotionModifier);
      }
      if job.progress > MaxProgress {
        job.progress := MaxProgress;
      }
    }
  }

  // ---------------------------------------------------------- closing text

  function EndOfQuizText(correct: int): string {
    if correct == 0 then "Better Luck Next Time!"
    else if correct == 1 then "Good Job!"
    else if correct == 2 then "Great Job!"
    else "Amazing Job!"
  }

  /** Scores of 0, 1, 2 and 3 each get their own message. */
  lemma EndOfQuizTextDistinguishesScores(a: int, b: int)
    requires 0 <= a <= QuestionsPerQuiz && 0 <= b <= QuestionsPerQuiz
    ensures EndOfQuizText(a) == EndOfQuizText(b) <==> a == b
  {
    if a != b {
      assert EndOfQuizText(a)[..4] != EndOfQuizText(b)[..4] || |EndOfQuizText(a)| != |EndOfQuizText(b)|;
    }
  }

  // -------------------------------------------------------------- the quiz

  /** The quiz screen's state. Selected answers are keyed by question id. */
  class QuizSession {
    var questions: seq<JobQuizQuestion>
    var selectedAnswers: map<int, int>
    var currentQuestionIndex: int
    var correctQuestions: int
    var isAnswerSubmitted: bool

    /** The number of questions the quiz will ask. */
    function Asked(): nat
      reads this
    {
      if |questions| < QuestionsPerQuiz then |questions| else QuestionsPerQuiz
    }

    /** The score never exceeds the questions answered, which never exceed those asked. */
    ghost predicate Valid()
      reads this
    {
      0 <= correctQuestions <= currentQuestionIndex <= Asked()
    }

    /** A question is on screen (otherwise the finished screen is). */
    predicate Showing()
      reads this
    {
      currentQuestionIndex < |questions| && currentQuestionIndex < QuestionsPerQuiz
    }

    /** Whether the selection for `q` is its correct answer; no selection is wrong. */
    function IsAnswerCorrect(q: JobQuizQuestion): bool
      reads this
    {
      q.id in selectedAnswers && selectedAnswers[q.id] == q.correctAnswerIndex
    }

    /** Opens the quiz on the bank shuffled with `draws`. */
    constructor (bank: seq<JobQuizQuestion>, draws: seq<nat>)
      requires ValidDraws(|bank|, draws)
      ensures Valid()
      ensures questions == Shuffled(bank, draws)
      ensures selectedAnswers == map[] && currentQuestionIndex == 0 && correctQuestions == 0 && !isAnswerSubmitted
    {
      questions := Shuffled(bank, draws);
      selectedAnswers := map[];
      currentQuestionIndex := 0;
      correctQuestions := 0;
      isAnswerSubmitted := false;
    }

    /** Taps answer `index` of the question on screen; answer buttons are disabled after submitting. */
    method SelectAnswer(index: int)
      requires Valid() && Showing()
      modifies this`selectedAnswers
      ensures Valid()
      ensures selectedAnswers ==
        if isAnswerSubmitted then old(selectedAnswers)
        else old(selectedAnswers)[questions[currentQuestionIndex].id := index]
    {
      if !isAnswerSubmitted {
        var question := questions[currentQuestionIndex];
        selectedAnswers := selectedAnswers[question.id := index];
      }
    }

    /**
     * Taps the Submit/Next button, which is disabled while the question on
     * screen has no selection. Submit reveals the answer; Next scores the
     * question and moves on.
     */
    method PressNext()
      requires Valid() && Showing()
      modifies this`currentQuestionIndex, this`correctQuestions, this`isAnswerSubmitted
      ensures Valid()
      ensures var q := questions[old(currentQuestionIndex)];
        if q.id !in selectedAnswers then
          && currentQuestionIndex == old(currentQuestionIndex)
          && correctQuestions == old(correctQuestions)
          && isAnswerSubmitted == old(isAnswerSubmitted)
        else if old(isAnswerSubmitted) then
          && currentQuestionIndex == old(currentQuestionIndex) + 1
          && correctQuestions == old(correctQuestions) + (if IsAnswerCorrect(q) then 1 else 0)
          && !isAnswerSubmitted
        else
          && currentQuestionIndex == old(currentQuestionIndex)
          && correctQuestions == old(correctQuestions)
          && isAnswerSubmitted
    {
      var question := questions[currentQuestionIndex];
      if question.id !in selectedAnswers {
        return;
      }
      if isAnswerSubmitted {
        if IsAnswerCorrect(question) {
          correctQuestions := correctQuestions + 1;
        }
        currentQuestionIndex := currentQuestionIndex + 1;
        isAnswerSubmitted := false;
      } else {
        isAnswerSubmitted := true;
      }
    }

    /** Closes the finished quiz: awards the points and marks this week's quiz done. */
    method Close(job: Job?, flags: Flags)
      requires Valid() && !Showing()
      modifies job, flags`doneThisWeeksQuiz
      ensures job != null ==> job.progress == AwardedProgress(old(job.progress), correctQuestions)
      ensures flags.doneThisWeeksQuiz
    {
      AwardPromotionPoints(job, correctQuestions);
      flags.doneThisWeeksQuiz := true;
    }
  }
}
