/**
 * The quiz attempt engine of the `useQuiz` hook (src/hooks/useQuiz.ts). The
 * hook's state cells become the fields of `QuizSession` and its handlers become
 * methods. The content provider's asynchronous answer is an argument of the
 * method that loads a quiz: the fresh question ids the provider would draw, and
 * whether the awaited call rejected.
 */
module UseQuiz {
  import opened Wrappers
  import opened Content

  /** The subjects the hook offers. */
  const Subjects: seq<string> := ["Python", "Maths", "English"]

  /** Every subject the hook offers is a key of the fallback quiz table, so the
      provider always takes its copying path for them. */
  lemma SubjectsAreKnown()
    ensures forall s :: s in Subjects ==> s in FallbackQuizzes && |FallbackQuizzes[s]| == 5
  {
    FallbackQuizzesWellFormed();
  }

  // ---------------------------------------------------------------------------
  // Completeness and scoring, as functions of the questions and the selections
  // ---------------------------------------------------------------------------

  /** `!selectedOptions[q.id]`: the question has no entry, or its entry is the
      empty string, which is falsy. */
  predicate Unanswered(q: QuizQuestion, selections: map<string, string>)
  {
    q.id !in selections || selections[q.id] == ""
  }

  /** `questions.filter(q => !selectedOptions[q.id])`: the unanswered questions,
      in order. */
  function UnansweredQuestions(qs: seq<QuizQuestion>, selections: map<string, string>): (r: seq<QuizQuestion>)
    ensures |r| <= |qs|
    ensures forall k :: 0 <= k < |r| ==> r[k] in qs && Unanswered(r[k], selections)
    ensures forall i :: 0 <= i < |qs| && Unanswered(qs[i], selections) ==> qs[i] in r
    ensures |r| == 0 <==> forall i :: 0 <= i < |qs| ==> !Unanswered(qs[i], selections)
  {
    if qs == [] then []
    else
      var rest := UnansweredQuestions(qs[1..], selections);
      assert forall i :: 1 <= i < |qs| ==> qs[i] == qs[1..][i - 1];
      if Unanswered(qs[0], selections) then [qs[0]] + rest else rest
  }

  /** The positions, from `lo` on, of the unanswered questions. */
  ghost function UnansweredFrom(qs: seq<QuizQuestion>, selections: map<string, string>, lo: nat): set<int>
  {
    set i | lo <= i < |qs| && Unanswered(qs[i], selections)
  }

  /** Filtering the questions from `lo` on keeps one question per unanswered
      position. */
  lemma {:induction false} UnansweredCountFrom(qs: seq<QuizQuestion>, selections: map<string, string>, lo: nat)
    requires lo <= |qs|
    ensures |UnansweredQuestions(qs[lo..], selections)| == |UnansweredFrom(qs, selections, lo)|
    decreases |qs| - lo
  {
    if lo == |qs| {
      assert UnansweredFrom(qs, selections, lo) == {};
    } else {
      UnansweredCountFrom(qs, selections, lo + 1);
      assert qs[lo..][1..] == qs[lo + 1..];
      var rest := UnansweredFrom(qs, selections, lo + 1);
      if Unanswered(qs[lo], selections) {
        assert UnansweredFrom(qs, selections, lo) == {lo} + rest;
      } else {
        assert UnansweredFrom(qs, selections, lo) == rest;
      }
    }
  }

  /** The count `handleSubmit` reports: the filter keeps exactly one question
      per unanswered position. */
  lemma UnansweredCount(qs: seq<QuizQuestion>, selections: map<string, string>)
    ensures |UnansweredQuestions(qs, selections)| == |set i | 0 <= i < |qs| && Unanswered(qs[i], selections)|
  {
    UnansweredCountFrom(qs, selections, 0);
    assert qs[0..] == qs;
  }

  /** `options.find(opt => opt.id === id)`: the first option carrying the id, if
      any. */
  function FindOption(options: seq<QuizOption>, id: string): (r: Option<QuizOption>)
    ensures r.None? <==> forall k :: 0 <= k < |options| ==> options[k].id != id
    ensures r.Some? ==> exists k :: 0 <= k < |options| && options[k] == r.value
                                  && r.value.id == id
                                  && forall j :: 0 <= j < k ==> options[j].id != id
  {
    if options == [] then None
    else if options[0].id == id then Some(options[0])
    else
      var r := FindOption(options[1..], id);
      assert forall k :: 1 <= k < |options| ==> options[k] == options[1..][k - 1];
      r
  }

  /** A question earns a point when its selected id finds an option and that
      option is marked correct. An id that names no option earns nothing. */
  predicate Earns(q: QuizQuestion, selections: map<string, string>)
  {
    q.id in selections
    && var found := FindOption(q.options, selections[q.id]);
    found.Some? && found.value.isCorrect
  }

  /** The score of an attempt: the number of questions that earn a point. It
      lies between 0 and the number of questions, reaches the number of
      questions exactly when every question earns a point, and is 0 exactly when
      none does. */
  function Score(qs: seq<QuizQuestion>, selections: map<string, string>): (n: nat)
    ensures n <= |qs|
    ensures n == |qs| <==> forall i :: 0 <= i < |qs| ==> Earns(qs[i], selections)
    ensures n == 0 <==> forall i :: 0 <= i < |qs| ==> !Earns(qs[i], selections)
  {
    if qs == [] then 0
    else
      assert forall i :: 1 <= i < |qs| ==> qs[i] == qs[1..][i - 1];
      (if Earns(qs[0], selections) then 1 else 0) + Score(qs[1..], selections)
  }

  /** The scoring loop of `handleSubmit`: `correctCount` goes up once for each
      question whose selected option is found and correct. */
  method CountCorrect(qs: seq<QuizQuestion>, selections: map<string, string>) returns (correctCount: nat)
    ensures correctCount == Score(qs, selections)
  {
    correctCount := 0;
    var i := 0;
    while i < |qs|
      invariant 0 <= i <= |qs|
      invariant correctCount + Score(qs[i..], selections) == Score(qs, selections)
    {
      assert qs[i..][1..] == qs[i + 1..];
      var question := qs[i];
      var selectedOption := if question.id in selections then FindOption(question.options, selections[question.id]) else None;
      if selectedOption.Some? && selectedOption.value.isCorrect {
        correctCount := correctCount + 1;
      }
      i := i + 1;
    }
  }

  /** All option ids of a question differ. */
  ghost predicate DistinctOptionIds(options: seq<QuizOption>)
  {
    forall j, k :: 0 <= j < k < |options| ==> options[j].id != options[k].id
  }

  /** Where option ids are distinct, a question earns a point exactly when its
      selection names an option that is correct: the match is on the id, never on
      the text. */
  lemma EarnsIffSelectedIdIsCorrect(q: QuizQuestion, selections: map<string, string>)
    requires DistinctOptionIds(q.options)
    ensures Earns(q, selections) <==>
      q.id in selections
      && exists k :: 0 <= k < |q.options| && q.options[k].id == selections[q.id] && q.options[k].isCorrect
  {
    if q.id in selections {
      var id := selections[q.id];
      var found := FindOption(q.options, id);
      if k :| 0 <= k < |q.options| && q.options[k].id == id && q.options[k].isCorrect {
        var j :| 0 <= j < |q.options| && q.options[j] == found.value && found.value.id == id;
        assert j == k;
      }
    }
  }

  /** Maths question 3 offers the text "34" twice, as options `a` and `d`; only
      `d` is correct, so only selecting `d` earns the point. */
  lemma MatchIsByIdNotText(freshIds: seq<string>)
    requires |freshIds| == 5
    ensures var q := GenerateQuiz("Maths", freshIds).value[2];
      && q.options[0].text == q.options[3].text == "34"
      && !Earns(q, map[q.id := "a"])
      && Earns(q, map[q.id := "d"])
  {
    var q := GenerateQuiz("Maths", freshIds).value[2];
    assert q.options == FallbackQuizzes["Maths"][2].options;
  }

  /** The id of the first option marked correct, or "" when none is. */
  function CorrectOptionId(options: seq<QuizOption>): (id: string)
    ensures CorrectOptionCount(options) > 0 ==>
      exists k :: 0 <= k < |options| && options[k].id == id && options[k].isCorrect
  {
    if options == [] then ""
    else if options[0].isCorrect then options[0].id
    else
      var id := CorrectOptionId(options[1..]);
      assert forall k :: 1 <= k < |options| ==> options[k] == options[1..][k - 1];
      id
  }

  /** The selections that choose the correct option of every question. */
  function AnswerKey(qs: seq<QuizQuestion>): map<string, string>
    requires forall i, j :: 0 <= i < j < |qs| ==> qs[i].id != qs[j].id
  {
    map i | 0 <= i < |qs| :: qs[i].id := CorrectOptionId(qs[i].options)
  }

  /** The options of a question shaped like a fallback question have distinct,
      non-empty ids. */
  lemma WellFormedOptionIds(q: QuizQuestion)
    requires WellFormedQuestion(q)
    ensures DistinctOptionIds(q.options)
    ensures forall k :: 0 <= k < |q.options| ==> q.options[k].id != ""
  {
    var ids := OptionIds(q.options);
    assert ids == ["a", "b", "c", "d"];
    assert forall k :: 0 <= k < |q.options| ==> q.options[k].id == ids[k];
  }

  /** Selecting the correct option of a question shaped like a fallback question
      answers it and earns its point. */
  lemma CorrectSelectionEarns(q: QuizQuestion, selections: map<string, string>)
    requires WellFormedQuestion(q)
    requires q.id in selections && selections[q.id] == CorrectOptionId(q.options)
    ensures !Unanswered(q, selections) && Earns(q, selections)
  {
    WellFormedOptionIds(q);
    EarnsIffSelectedIdIsCorrect(q, selections);
  }

  /** For questions with distinct ids, each shaped like a fallback question, the
      answer key completes the attempt with the full score. */
  lemma AnswerKeyScoresFull(qs: seq<QuizQuestion>)
    requires forall i :: 0 <= i < |qs| ==> WellFormedQuestion(qs[i])
    requires forall i, j :: 0 <= i < j < |qs| ==> qs[i].id != qs[j].id
    ensures |UnansweredQuestions(qs, AnswerKey(qs))| == 0
    ensures Score(qs, AnswerKey(qs)) == |qs|
  {
    var key := AnswerKey(qs);
    forall i | 0 <= i < |qs|
      ensures !Unanswered(qs[i], key) && Earns(qs[i], key)
    {
      assert qs[i].id in key && key[qs[i].id] == CorrectOptionId(qs[i].options);
      CorrectSelectionEarns(qs[i], key);
    }
  }

  /** A quiz generated for one of the hook's subjects, with distinct fresh ids,
      can be completed with a perfect score. */
  lemma GeneratedQuizCanBeAced(subject: string, freshIds: seq<string>)
    requires subject in Subjects
    requires |freshIds| == 5
    requires forall i, j :: 0 <= i < j < 5 ==> freshIds[i] != freshIds[j]
    ensures var qs := GenerateQuiz(subject, freshIds).value;
      exists selections :: |UnansweredQuestions(qs, selections)| == 0 && Score(qs, selections) == |qs|
  {
    SubjectsAreKnown();
    FallbackQuizzesWellFormed();
    var entry := FallbackQuizzes[subject];
    var qs := GenerateQuiz(subject, freshIds).value;
    assert QuizEntry(subject, entry);
    forall i | 0 <= i < |qs| ensures WellFormedQuestion(qs[i]) {
      assert qs[i].options == entry[i].options;
    }
    AnswerKeyScoresFull(qs);
  }

  // ---------------------------------------------------------------------------
  // The hook's state
  // ---------------------------------------------------------------------------

  /** The answer `handleSubmit` reports through its toast. */
  datatype SubmitOutcome =
    | Incomplete(remaining: nat)            // "Please answer all N remaining questions."
    | Submitted(correct: nat, total: nat)   // "You scored X out of Y."

  class QuizSession {
    var subject: string
    var questions: seq<QuizQuestion>
    var selectedOptions: map<string, string>
    var isSubmitted: bool
    var score: Option<nat>
    var isLoading: bool

    /** Between two handlers: the subject is one the hook offers, no load is in
        progress, a score exists exactly when the attempt is submitted, and a
        submitted attempt is complete and its score is the score of its frozen
        selections. */
    ghost predicate Valid()
      reads this
    {
      && subject in Subjects
      && !isLoading
      && (isSubmitted <==> score.Some?)
      && (isSubmitted ==>
            |UnansweredQuestions(questions, selectedOptions)| == 0
            && score.value == Score(questions, selectedOptions))
    }

    /** The initial state of the hook, before its mount effect loads a quiz. */
    constructor ()
      ensures Valid()
      ensures subject == "Python" && questions == [] && selectedOptions == map[]
      ensures !isSubmitted && score == None && !isLoading
    {
      subject := "Python";
      questions := [];
      selectedOptions := map[];
      isSubmitted := false;
      score := None;
      isLoading := false;
    }

    /** `handleSelectOption`: ignored once submitted; otherwise records (or
        overwrites) the choice for one question and leaves every other entry. */
    method SelectOption(questionId: string, optionId: string)
      requires Valid()
      modifies this`selectedOptions
      ensures Valid()
      ensures old(isSubmitted) ==> selectedOptions == old(selectedOptions)
      ensures !old(isSubmitted) ==> selectedOptions == old(selectedOptions)[questionId := optionId]
    {
      if isSubmitted {
        return;
      }
      selectedOptions := selectedOptions[questionId := optionId];
    }

    /** `handleGenerateQuiz`, with the awaited call resolved: selections, score
        and the submitted flag are cleared first, the questions are replaced only
        when the provider answers, and the loading flag ends false. */
    method GenerateQuiz(freshIds: seq<string>, providerRejects: bool)
      requires Valid()
      requires |freshIds| == 5
      modifies this`isLoading, this`isSubmitted, this`score, this`selectedOptions, this`questions
      ensures Valid()
      ensures !isSubmitted && score == None && selectedOptions == map[] && !isLoading
      ensures providerRejects ==> questions == old(questions)
      ensures !providerRejects ==> questions == Content.GenerateQuiz(subject, freshIds).value
    {
      SubjectsAreKnown();
      isLoading := true;
      isSubmitted := false;
      score := None;
      selectedOptions := map[];
      if !providerRejects {
        var generatedQuiz := Content.GenerateQuiz(subject, freshIds);
        questions := generatedQuiz.value;
      }
      isLoading := false;
    }

    /** `handleSubmit`: while any question is unanswered it reports how many and
        changes nothing; otherwise it scores the attempt and freezes it. Scoring a
        submitted attempt again gives the same score. */
    method Submit() returns (outcome: SubmitOutcome)
      requires Valid()
      modifies this`score, this`isSubmitted
      ensures Valid()
      ensures var remaining := |UnansweredQuestions(questions, selectedOptions)|;
        if remaining > 0 then
          && outcome == Incomplete(remaining)
          && score == old(score) && isSubmitted == old(isSubmitted)
        else
          && outcome == Submitted(Score(questions, selectedOptions), |questions|)
          && isSubmitted && score == Some(Score(questions, selectedOptions))
      ensures old(isSubmitted) ==> score == old(score)
    {
      var unansweredQuestions := UnansweredQuestions(questions, selectedOptions);
      if |unansweredQuestions| > 0 {
        return Incomplete(|unansweredQuestions|);
      }
      var correctCount := CountCorrect(questions, selectedOptions);
      score := Some(correctCount);
      isSubmitted := true;
      outcome := Submitted(correctCount, |questions|);
    }

    /** `handleReset`: clears the attempt, then generates a new quiz, leaving the
        same state as a fresh generate. */
    method Reset(freshIds: seq<string>, providerRejects: bool)
      requires Valid()
      requires |freshIds| == 5
      modifies this`isLoading, this`isSubmitted, this`score, this`selectedOptions, this`questions
      ensures Valid()
      ensures !isSubmitted && score == None && selectedOptions == map[] && !isLoading
      ensures providerRejects ==> questions == old(questions)
      ensures !providerRejects ==> questions == Content.GenerateQuiz(subject, freshIds).value
    {
      isSubmitted := false;
      score := None;
      selectedOptions := map[];
      GenerateQuiz(freshIds, providerRejects);
    }

    /** `setSubject` followed by the effect that reloads on a subject change. The
        effect runs only when the new subject differs from the current one. */
    method ChangeSubject(newSubject: string, freshIds: seq<string>, providerRejects: bool)
      requires Valid()
      requires newSubject in Subjects
      requires |freshIds| == 5
      modifies this`subject, this`isLoading, this`isSubmitted, this`score, this`selectedOptions, this`questions
      ensures Valid()
      ensures subject == newSubject
      ensures newSubject == old(subject) ==>
        && questions == old(questions) && selectedOptions == old(selectedOptions)
        && isSubmitted == old(isSubmitted) && score == old(score)
      ensures newSubject != old(subject) ==>
        && !isSubmitted && score == None && selectedOptions == map[]
        && (providerRejects ==> questions == old(questions))
        && (!providerRejects ==> questions == Content.GenerateQuiz(newSubject, freshIds).value)
    {
      if newSubject == subject {
        return;
      }
      subject := newSubject;
      GenerateQuiz(freshIds, providerRejects);
    }
  }
}
