/**
 * The results card (src/components/quiz/QuizResults.tsx): one of three feedback
 * messages chosen from the score and the total. The quiz content passes the
 * hook's score (0 when it is null) and the number of loaded questions.
 */
module QuizResults {
  import opened Content
  import opened UseQuiz

  /** The three messages, from best to worst. */
  datatype Feedback =
    | Perfect          // "Perfect score! Amazing job!"
    | WellDone         // "Well done! Keep practicing to improve."
    | KeepPracticing   // "Keep practicing. You'll do better next time!"

  /** The message chosen by `score === total ? … : score >= total / 2 ? … : …`,
      with the division on numbers, that is on reals. */
  function FeedbackFor(score: int, total: int): (f: Feedback)
    ensures f == Perfect <==> score == total
  {
    if score == total then Perfect
    else if score as real >= total as real / 2.0 then WellDone
    else KeepPracticing
  }

  /** A rank that orders the messages: higher is better. */
  function Rank(f: Feedback): nat
  {
    match f
    case KeepPracticing => 0
    case WellDone => 1
    case Perfect => 2
  }

  /** Each message in terms of whole numbers: "Perfect" exactly when the score
      is the total (0 out of 0 included), "Well done" exactly when it is not but
      twice the score reaches the total, and "Keep practicing" otherwise. */
  lemma FeedbackTiers(score: int, total: int)
    ensures FeedbackFor(score, total) == Perfect <==> score == total
    ensures FeedbackFor(score, total) == WellDone <==> score != total && 2 * score >= total
    ensures FeedbackFor(score, total) == KeepPracticing <==> score != total && 2 * score < total
  {
  }

  /** For scores the hook can produce (between 0 and the total), a higher score
      never gets a worse message. */
  lemma FeedbackMonotone(low: int, high: int, total: int)
    requires 0 <= low <= high <= total
    ensures Rank(FeedbackFor(low, total)) <= Rank(FeedbackFor(high, total))
  {
    FeedbackTiers(low, total);
    FeedbackTiers(high, total);
  }

  /** On an attempt of the hook, `FeedbackFor` gives "Perfect" exactly when every
      question earned its point. It also gives "Perfect" for 0 out of 0, a case
      the page never renders: an empty quiz shows no results card. */
  lemma PerfectExactlyWhenEveryQuestionEarns(qs: seq<QuizQuestion>, selections: map<string, string>)
    ensures FeedbackFor(Score(qs, selections), |qs|) == Perfect <==>
      forall i :: 0 <= i < |qs| ==> Earns(qs[i], selections)
    ensures qs == [] ==> FeedbackFor(Score(qs, selections), |qs|) == Perfect
  {
    FeedbackTiers(Score(qs, selections), |qs|);
  }
}
