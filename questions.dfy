/**
 * The job-quiz question bank. Each question shuffles its answers once, when it
 * is built, and remembers where the correct answer went. Swift's `shuffled()`
 * is the forward Fisher-Yates shuffle; its random offsets are passed in as
 * `draws`, the k-th draw lying in [0, n - k).
 */
module Questions {
  import opened Wrappers

  // ------------------------------------------------------------- shuffling

  /** `s` with the elements at `i` and `j` exchanged. */
  function Swap<T>(s: seq<T>, i: nat, j: nat): (r: seq<T>)
    requires i < |s| && j < |s|
    ensures |r| == |s|
    ensures r[i] == s[j] && r[j] == s[i]
    ensures forall k :: 0 <= k < |s| && k != i && k != j ==> r[k] == s[k]
  {
    s[i := s[j]][j := s[i]]
  }

  /** Draws a Fisher-Yates shuffle of `n` elements can use. */
  predicate ValidDraws(n: nat, draws: seq<nat>) {
    |draws| == (if n == 0 then 0 else n - 1) && forall k :: 0 <= k < |draws| ==> draws[k] < n - k
  }

  /** The shuffle's steps from position `i` on: swap position `i` with position `i + draws[i]`. */
  function ShuffleFrom<T>(s: seq<T>, draws: seq<nat>, i: nat): seq<T>
    requires ValidDraws(|s|, draws)
    requires i <= |s|
    decreases |s| - i
  {
    if i + 1 >= |s| then s
    else
      var t := Swap(s, i, i + draws[i]);
      ShuffleFrom(t, draws, i + 1)
  }

  /** Swift's `shuffled()` with the given draws. */
  function Shuffled<T>(s: seq<T>, draws: seq<nat>): seq<T>
    requires ValidDraws(|s|, draws)
  {
    ShuffleFrom(s, draws, 0)
  }

  lemma SwapPermutes<T>(s: seq<T>, i: nat, j: nat)
    requires i < |s| && j < |s|
    ensures multiset(Swap(s, i, j)) == multiset(s)
  {
    if i != j {
      var t := s[i := s[j]];
      assert multiset(t) == multiset(s) - multiset{s[i]} + multiset{s[j]};
      assert multiset(t[j := s[i]]) == multiset(t) - multiset{t[j]} + multiset{s[i]};
    }
  }

  /** A shuffle rearranges its input: same length, same elements with the same multiplicities. */
  lemma {:induction false} ShufflePermutes<T>(s: seq<T>, draws: seq<nat>, i: nat)
    requires ValidDraws(|s|, draws)
    requires i <= |s|
    ensures |ShuffleFrom(s, draws, i)| == |s|
    ensures multiset(ShuffleFrom(s, draws, i)) == multiset(s)
    decreases |s| - i
  {
    if i + 1 < |s| {
      var t := Swap(s, i, i + draws[i]);
      SwapPermutes(s, i, i + draws[i]);
      ShufflePermutes(t, draws, i + 1);
    }
  }

  // ------------------------------------------------------------ questions

  /** An answer tagged with its position in the original list. */
  datatype Tagged = Tagged(offset: nat, element: string)

  /** Swift's `enumerated()`. */
  function Enumerate(answers: seq<string>): (r: seq<Tagged>)
    ensures |r| == |answers|
    ensures forall k :: 0 <= k < |r| ==> r[k] == Tagged(k, answers[k])
  {
    seq(|answers|, k requires 0 <= k < |answers| => Tagged(k, answers[k]))
  }

  /** The answers of tagged pairs, in order: Swift's `map { $0.element }`. */
  function Elements(ts: seq<Tagged>): (r: seq<string>)
    ensures |r| == |ts|
    ensures forall k :: 0 <= k < |ts| ==> r[k] == ts[k].element
  {
    seq(|ts|, k requires 0 <= k < |ts| => ts[k].element)
  }

  /** The first position whose tag is `offset`, if any. */
  function FirstIndexOfOffset(ts: seq<Tagged>, offset: nat): Option<nat> {
    FirstIndexWhere(ts, (t: Tagged) => t.offset == offset)
  }

  /** A quiz question with its answers in display order. */
  datatype JobQuizQuestion = JobQuizQuestion(
    id: int,
    text: string,
    originalAnswers: seq<string>,
    answers: seq<string>,
    correctAnswerIndex: nat)

  /** Taking the answers out of a shuffled enumeration is shuffling the answers themselves. */
  lemma {:induction false} ElementsCommute(ts: seq<Tagged>, draws: seq<nat>, i: nat)
    requires ValidDraws(|ts|, draws)
    requires i <= |ts|
    ensures Elements(ShuffleFrom(ts, draws, i)) == ShuffleFrom(Elements(ts), draws, i)
    decreases |ts| - i
  {
    if i + 1 < |ts| {
      var t := Swap(ts, i, i + draws[i]);
      assert Elements(t) == Swap(Elements(ts), i, i + draws[i]);
      ElementsCommute(t, draws, i + 1);
    }
  }

  /**
   * Builds a question: the answers are shuffled with `draws`, and the correct
   * index follows the correct answer to its new place. The source force-unwraps
   * that position, so the given index must name one of the answers.
   */
  function MakeQuestion(id: int, text: string, answers: seq<string>, correctAnswerIndex: nat, draws: seq<nat>)
    : (q: JobQuizQuestion)
    requires correctAnswerIndex < |answers|
    requires ValidDraws(|answers|, draws)
    ensures q.originalAnswers == answers && q.text == text && q.id == id
    ensures |q.answers| == |answers| && multiset(q.answers) == multiset(answers)
    ensures q.correctAnswerIndex < |q.answers|
    ensures q.answers[q.correctAnswerIndex] == answers[correctAnswerIndex]
  {
    var shuffled := Shuffled(Enumerate(answers), draws);
    CorrectAnswerFollows(answers, correctAnswerIndex, draws);
    JobQuizQuestion(id, text, answers, Elements(shuffled), FirstIndexOfOffset(shuffled, correctAnswerIndex).value)
  }

  /**
   * In a shuffled enumeration the answers come out shuffled, and the first
   * entry tagged with the correct offset exists and holds the correct answer.
   */
  lemma CorrectAnswerFollows(answers: seq<string>, correctAnswerIndex: nat, draws: seq<nat>)
    requires correctAnswerIndex < |answers|
    requires ValidDraws(|answers|, draws)
    ensures var shuffled := Shuffled(Enumerate(answers), draws);
      && Elements(shuffled) == Shuffled(answers, draws)
      && |Shuffled(answers, draws)| == |answers|
      && multiset(Shuffled(answers, draws)) == multiset(answers)
      && FirstIndexOfOffset(shuffled, correctAnswerIndex).Some?
      && shuffled[FirstIndexOfOffset(shuffled, correctAnswerIndex).value].element == answers[correctAnswerIndex]
  {
    var enumerated := Enumerate(answers);
    var shuffled := Shuffled(enumerated, draws);
    ShufflePermutes(enumerated, draws, 0);
    ElementsCommute(enumerated, draws, 0);
    assert Elements(enumerated) == answers;
    ShufflePermutes(answers, draws, 0);
    assert enumerated[correctAnswerIndex] in multiset(shuffled);
    var k :| 0 <= k < |shuffled| && shuffled[k] == enumerated[correctAnswerIndex];
    var found := FirstIndexOfOffset(shuffled, correctAnswerIndex);
    assert found.Some?;
    assert shuffled[found.value] in multiset(enumerated);
  }

  // --------------------------------------------------------------- the bank

  /** The number of answers every bank question offers. */
  const AnswersPerQuestion := 4

  /** The correct answer's index in each of the bank's 25 questions, in bank order. */
  const BankCorrectIndices: seq<nat> :=
    [2, 0, 1, 1, 0, 1, 0, 0, 1, 2, 1, 0, 1, 1, 1, 0, 1, 1, 0, 1, 3, 1, 1, 1, 0]

  /** Every one of the bank's 25 questions names a correct index among its four answers. */
  lemma BankWellFormed()
    ensures |BankCorrectIndices| == 25
    ensures forall k :: 0 <= k < |BankCorrectIndices| ==> BankCorrectIndices[k] < AnswersPerQuestion
  {}

  /**
   * Building any bank question from four answers meets `MakeQuestion`'s
   * precondition, so the force-unwrap never traps, and the built question
   * still marks the answer the bank names as correct.
   */
  lemma BankQuestionBuilds(k: nat, id: int, text: string, answers: seq<string>, draws: seq<nat>)
    requires k < |BankCorrectIndices| && |answers| == AnswersPerQuestion
    requires ValidDraws(|answers|, draws)
    ensures BankCorrectIndices[k] < |answers|
    ensures var q := MakeQuestion(id, text, answers, BankCorrectIndices[k], draws);
      q.answers[q.correctAnswerIndex] == answers[BankCorrectIndices[k]]
  {
    BankWellFormed();
  }
}
