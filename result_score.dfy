/** Grading a submitted quiz in the browser (`frontend/src/features/result/utils.ts`):
    counting the answers that match, the rounded percentage, and the
    message shown for it.  `Math.round` of the floating-point quotient is
    modelled as exact round-half-up on integers. */
module ResultScore {
  import opened QuizEntities

  /** A submitted sheet: the quiz and the letters chosen, by question index. */
  datatype UserAnswer = UserAnswer(id: string, preview: Quiz, selectedOptions: seq<string>)

  /** `Math.round(c / t * 100)`, which is `NaN` when there are no questions. */
  datatype Percentage = NaN | Pct(value: int)

  datatype Score = Score(correct: nat, total: nat, percentage: Percentage)

  datatype ResultMessage = Perfect | Excellent | Good | NeedsImprovement

  /** Question `i` was answered, and with its answer. An index with no
      chosen letter reads `undefined`, which equals no answer. */
  predicate IsCorrectAt(result: UserAnswer, i: nat)
    requires i < |result.preview.questions|
  {
    i < |result.selectedOptions| && result.selectedOptions[i] == result.preview.questions[i].answer
  }

  /** The number of correct answers among the first `n` questions. */
  function CorrectCount(result: UserAnswer, n: nat): (c: nat)
    requires n <= |result.preview.questions|
    ensures c <= n
    ensures c <= |result.selectedOptions|
  {
    if n == 0 then 0
    else CorrectCount(result, n - 1) + (if IsCorrectAt(result, n - 1) then 1 else 0)
  }

  /** All answers are right exactly when the count reaches the number of questions. */
  lemma {:induction false} AllCorrectIff(result: UserAnswer, n: nat)
    requires n <= |result.preview.questions|
    ensures CorrectCount(result, n) == n <==> forall i :: 0 <= i < n ==> IsCorrectAt(result, i)
  {
    if n > 0 {
      AllCorrectIff(result, n - 1);
    }
  }

  /** No answers, no points. */
  lemma {:induction false} NoAnswersNoPoints(result: UserAnswer, n: nat)
    requires n <= |result.preview.questions| && result.selectedOptions == []
    ensures CorrectCount(result, n) == 0
  {
    if n > 0 {
      NoAnswersNoPoints(result, n - 1);
    }
  }

  /** `Math.round(c / t * 100)` on exact numbers: the nearest integer to
      `100 c / t`, halves rounded up. */
  function RoundedPercentage(c: nat, t: nat): (p: Percentage)
    ensures t == 0 <==> p == NaN
    ensures t > 0 ==> 2 * t * p.value <= 200 * c + t < 2 * t * (p.value + 1)
  {
    if t == 0 then NaN else Pct((200 * c + t) / (2 * t))
  }

  /** `calculateScore(result)`: one pass over the questions, counting the
      matching answers. */
  method CalculateScore(result: UserAnswer) returns (s: Score)
    ensures s.total == |result.preview.questions|
    ensures s.correct == CorrectCount(result, s.total)
    ensures s.percentage == RoundedPercentage(s.correct, s.total)
  {
    var correctCount := 0;
    var totalQuestions := |result.preview.questions|;
    var index := 0;
    while index < totalQuestions
      invariant 0 <= index <= totalQuestions
      invariant correctCount == CorrectCount(result, index)
    {
      if index < |result.selectedOptions| && result.selectedOptions[index] == result.preview.questions[index].answer {
        correctCount := correctCount + 1;
      }
      index := index + 1;
    }
    return Score(correctCount, totalQuestions, RoundedPercentage(correctCount, totalQuestions));
  }

  /** Multiplying by a positive number keeps the order. */
  lemma ScaleOrder(t: int, p: int, k: int)
    requires t > 0
    ensures p < k <==> t * p < t * k
  {
    if p < k {
      assert t * k - t * p == t * (k - p);
    } else {
      assert t * p - t * k == t * (p - k);
    }
  }

  /** With at least one question the percentage lies in 0..100. */
  lemma PercentageInRange(c: nat, t: nat)
    requires 1 <= t && c <= t
    ensures 0 <= RoundedPercentage(c, t).value <= 100
  {
    var p := RoundedPercentage(c, t).value;
    ScaleOrder(2 * t, p, 101);
    ScaleOrder(2 * t, -1, p);
  }

  /** For fewer than 200 questions, 100 is reached exactly when every answer
      is right. */
  lemma PerfectIffAllCorrect(c: nat, t: nat)
    requires 1 <= t < 200 && c <= t
    ensures RoundedPercentage(c, t) == Pct(100) <==> c == t
  {
    var p := RoundedPercentage(c, t).value;
    PercentageInRange(c, t);
    assert 2 * t * (p + 1) == 2 * t * p + 2 * t;
    ScaleOrder(2 * t, p, 100);
    ScaleOrder(2 * t, 99, p);
  }

  /** From 200 questions on, rounding can reach 100 with an answer wrong:
      199 of 200 is 99.5, which rounds up. */
  lemma NearPerfectRoundsUp()
    ensures RoundedPercentage(199, 200) == Pct(100)
  {
  }

  /** `getResultMessage(percentage)`. `NaN` fails every comparison. */
  function GetResultMessage(p: Percentage): (m: ResultMessage)
    ensures m == Perfect <==> p == Pct(100)
    ensures p.Pct? && 66 <= p.value < 100 ==> m == Excellent
    ensures p.Pct? && 33 <= p.value < 66 ==> m == Good
    ensures p.NaN? || p.value < 33 ==> m == NeedsImprovement
  {
    if p.Pct? && p.value == 100 then Perfect
    else if p.Pct? && p.value >= 66 then Excellent
    else if p.Pct? && p.value >= 33 then Good
    else NeedsImprovement
  }

  /** The tiers from worst to best. */
  function Rank(m: ResultMessage): nat
  {
    match m
    case NeedsImprovement => 0
    case Good => 1
    case Excellent => 2
    case Perfect => 3
  }

  /** Within 0..100 a higher percentage never gets a worse message. */
  lemma MessageMonotone(p: int, q: int)
    requires p <= q <= 100
    ensures Rank(GetResultMessage(Pct(p))) <= Rank(GetResultMessage(Pct(q)))
  {
  }

  /** Above 100 the order breaks, which percentages never reach. */
  lemma MessageAbovePerfect()
    ensures GetResultMessage(Pct(101)) == Excellent
    ensures Rank(GetResultMessage(Pct(101))) < Rank(GetResultMessage(Pct(100)))
  {
  }

  /** A fully correct sheet is graded perfect; so is the message for 100,
      and 65, 66, 32 and 33 fall on either side of their tiers. */
  lemma ScoreExamples(c: nat, t: nat)
    requires 1 <= t < 200 && c == t
    ensures GetResultMessage(RoundedPercentage(c, t)) == Perfect
    ensures GetResultMessage(Pct(66)) == Excellent && GetResultMessage(Pct(65)) == Good
    ensures GetResultMessage(Pct(33)) == Good && GetResultMessage(Pct(32)) == NeedsImprovement
  {
    PerfectIffAllCorrect(c, t);
  }
}
