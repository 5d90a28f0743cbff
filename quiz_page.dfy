/**
 * The self-contained quiz page (src/pages/QuizPage.tsx): a fixed table of five
 * questions per subject whose options are plain strings, answers kept by
 * question index as the chosen option's text, and a score that compares that
 * text with the question's `correctAnswer`. Its three state cells become the
 * fields of `Page`.
 */
module QuizPage {

  /** A question of the page's own table. */
  datatype PageQuestion = PageQuestion(question: string, options: seq<string>, correctAnswer: string)

  /** The keys of `quizData`, in their declaration order. */
  datatype Subject = JavaScript | Python | Html

  const JavaScriptQuestions: seq<PageQuestion> := [
    PageQuestion("What is the output of `typeof NaN` in JavaScript?",
                 ["undefined", "object", "number", "NaN"],
                 "number"),
    PageQuestion("Which method is used to convert JSON to a JavaScript object?",
                 ["JSON.parse()", "JSON.stringify()", "JSON.object()", "JSON.convert()"],
                 "JSON.parse()"),
    PageQuestion("Which keyword declares a block-scoped variable?",
                 ["var", "const", "let", "both let and const"],
                 "both let and const"),
    PageQuestion("What does `===` do in JavaScript?",
                 ["Assigns a value", "Compares value only", "Compares value and type", "Checks only type"],
                 "Compares value and type"),
    PageQuestion("Which of these is not a primitive data type?",
                 ["Boolean", "Null", "Object", "String"],
                 "Object")
  ]

  const PythonQuestions: seq<PageQuestion> := [
    PageQuestion("Which keyword is used for function in Python?",
                 ["func", "def", "function", "lambda"],
                 "def"),
    PageQuestion("What is the output of `bool(0)` in Python?",
                 ["True", "False", "0", "Error"],
                 "False"),
    PageQuestion("Which of the following is a mutable type?",
                 ["Tuple", "List", "String", "Integer"],
                 "List"),
    PageQuestion("What is the correct file extension for Python files?",
                 [".py", ".python", ".pt", ".pyt"],
                 ".py"),
    PageQuestion("What is used to handle exceptions in Python?",
                 ["try/except", "catch/except", "throw/catch", "try/catch"],
                 "try/except")
  ]

  const HtmlQuestions: seq<PageQuestion> := [
    PageQuestion("What does HTML stand for?",
                 ["Hyper Text Markup Language", "Home Tool Markup Language", "Hyperlinks and Text Markup Language", "Hyper Tool Multi Language"],
                 "Hyper Text Markup Language"),
    PageQuestion("Which tag is used for inserting a line break?",
                 ["<lb>", "<break>", "<br>", "<line>"],
                 "<br>"),
    PageQuestion("Which attribute is used to define inline styles?",
                 ["style", "class", "css", "font"],
                 "style"),
    PageQuestion("What is the correct HTML for creating a hyperlink?",
                 ["<a>link</a>", "<a href='url'>link</a>", "<link href='url'>", "<href>link</href>"],
                 "<a href='url'>link</a>"),
    PageQuestion("Which HTML element is used for the largest heading?",
                 ["<h1>", "<head>", "<heading>", "<h6>"],
                 "<h1>")
  ]

  /** `quizData[subject]`. */
  function QuizData(subject: Subject): (qs: seq<PageQuestion>)
    ensures |qs| == 5
  {
    match subject
    case JavaScript => JavaScriptQuestions
    case Python => PythonQuestions
    case Html => HtmlQuestions
  }

  /** Every subject has exactly five questions and every `correctAnswer` is one
      of its question's options: "out of 5" is the right total and a perfect
      score is reachable by clicking options. */
  lemma QuizDataWellFormed()
    ensures forall s: Subject :: |QuizData(s)| == 5
    ensures forall s: Subject, i :: 0 <= i < |QuizData(s)| ==> QuizData(s)[i].correctAnswer in QuizData(s)[i].options
  {
    forall s: Subject, i | 0 <= i < |QuizData(s)|
      ensures QuizData(s)[i].correctAnswer in QuizData(s)[i].options
    {
      match s
      case JavaScript =>
      case Python =>
      case Html =>
    }
  }

  // ---------------------------------------------------------------------------
  // Scoring
  // ---------------------------------------------------------------------------

  /** `userAnswers[index] === question.correctAnswer`: an index without an
      answer is `undefined` and never equals a string. */
  predicate AnsweredCorrectly(answers: map<int, string>, index: int, q: PageQuestion)
  {
    index in answers && answers[index] == q.correctAnswer
  }

  /** The number of the first `n` questions answered correctly. It is at most
      `n`, and equals `n` exactly when each of them is answered correctly. */
  function CorrectBefore(qs: seq<PageQuestion>, answers: map<int, string>, n: nat): (c: nat)
    requires n <= |qs|
    ensures c <= n
    ensures c == n <==> forall i :: 0 <= i < n ==> AnsweredCorrectly(answers, i, qs[i])
  {
    if n == 0 then 0
    else CorrectBefore(qs, answers, n - 1) + (if AnsweredCorrectly(answers, n - 1, qs[n - 1]) then 1 else 0)
  }

  /** The score of the answers on a question list. */
  function PageScore(qs: seq<PageQuestion>, answers: map<int, string>): nat
  {
    CorrectBefore(qs, answers, |qs|)
  }

  /** The answers that pick the correct option of every question. */
  function AnswerKey(qs: seq<PageQuestion>): map<int, string>
  {
    map i | 0 <= i < |qs| :: qs[i].correctAnswer
  }

  /** A set holding exactly the question indices below `n` has `n` members. */
  lemma {:induction false} IndexSetSize(indices: set<int>, n: nat)
    requires forall k :: k in indices <==> 0 <= k < n
    ensures |indices| == n
  {
    if n > 0 {
      var below := indices - {n - 1};
      IndexSetSize(below, n - 1);
      assert indices == below + {n - 1};
    } else {
      assert forall k :: k !in indices;
      assert indices == {};
    }
  }

  /** A set of question indices below `n` has at most `n` members, and has `n`
      only when it holds every index below `n`. */
  lemma {:induction false} IndexSetFull(indices: set<int>, n: nat)
    requires forall k :: k in indices ==> 0 <= k < n
    ensures |indices| <= n
    ensures |indices| == n ==> forall i :: 0 <= i < n ==> i in indices
  {
    if n == 0 {
      assert forall k :: k !in indices;
      assert indices == {};
    } else {
      var below := indices - {n - 1};
      IndexSetFull(below, n - 1);
      if n - 1 in indices {
        assert indices == below + {n - 1};
      } else {
        assert indices == below;
      }
    }
  }

  /** The answer key fills every index of the list, and only those, and
      scores full marks. */
  lemma AnswerKeyScoresFull(qs: seq<PageQuestion>)
    ensures forall k :: k in AnswerKey(qs) <==> 0 <= k < |qs|
    ensures |AnswerKey(qs).Keys| == |qs|
    ensures PageScore(qs, AnswerKey(qs)) == |qs|
  {
    var key := AnswerKey(qs);
    IndexSetSize(key.Keys, |qs|);
    assert forall i :: 0 <= i < |qs| ==> AnsweredCorrectly(key, i, qs[i]);
  }

  /** On every subject the answer key is a choice of one option per question,
      fills exactly the five indices the submit gate counts, and scores 5. */
  lemma PerfectScoreReachable(subject: Subject)
    ensures var key := AnswerKey(QuizData(subject));
      && |key.Keys| == 5
      && (forall i :: i in key ==> 0 <= i < 5 && key[i] in QuizData(subject)[i].options)
      && PageScore(QuizData(subject), key) == 5
  {
    QuizDataWellFormed();
    AnswerKeyScoresFull(QuizData(subject));
  }

  /** The submit gate counts answer keys. When every key is a question index,
      five keys mean that all five questions are answered. */
  lemma FiveKeysAnswerEveryQuestion(answers: map<int, string>)
    requires forall k :: k in answers ==> 0 <= k < 5
    requires |answers.Keys| == 5
    ensures forall i :: 0 <= i < 5 ==> i in answers
  {
    IndexSetFull(answers.Keys, 5);
  }

  // ---------------------------------------------------------------------------
  // The page's state
  // ---------------------------------------------------------------------------

  class Page {
    var selectedSubject: Subject
    var userAnswers: map<int, string>
    var submitted: bool

    /** The page as first rendered. */
    constructor ()
      ensures selectedSubject == JavaScript && userAnswers == map[] && !submitted
    {
      selectedSubject := JavaScript;
      userAnswers := map[];
      submitted := false;
    }

    /** `handleAnswerSelect`: ignored once submitted; otherwise stores the
        answer text at the question index and leaves the other indices. */
    method AnswerSelect(questionIndex: int, answer: string)
      modifies this`userAnswers
      ensures old(submitted) ==> userAnswers == old(userAnswers)
      ensures !old(submitted) ==> userAnswers == old(userAnswers)[questionIndex := answer]
    {
      if !submitted {
        userAnswers := userAnswers[questionIndex := answer];
      }
    }

    /** Whether the "Submit Answers" button is enabled: exactly five answer
        keys exist. */
    function SubmitEnabled(): (enabled: bool)
      reads this
    {
      |userAnswers.Keys| == 5
    }

    /** `handleSubmit`: it only sets the submitted flag. */
    method Submit()
      modifies this`submitted
      ensures submitted
    {
      submitted := true;
    }

    /** A click on "Submit Answers": the button exists only before submission
        and is disabled unless exactly five answer keys exist. */
    method ClickSubmit()
      modifies this`submitted
      ensures submitted == (old(submitted) || |userAnswers.Keys| == 5)
    {
      if !submitted && SubmitEnabled() {
        Submit();
      }
    }

    /** `handleReset` ("Try Again"): no answers, not submitted. */
    method Reset()
      modifies this`userAnswers, this`submitted
      ensures userAnswers == map[] && !submitted
    {
      userAnswers := map[];
      submitted := false;
    }

    /** A click on a subject button: blocked after submission; otherwise it
        switches the subject and drops the answers. */
    method SelectSubject(subject: Subject)
      modifies this`selectedSubject, this`userAnswers
      ensures old(submitted) ==> selectedSubject == old(selectedSubject) && userAnswers == old(userAnswers)
      ensures !old(submitted) ==> selectedSubject == subject && userAnswers == map[]
    {
      if !submitted {
        selectedSubject := subject;
        userAnswers := map[];
      }
    }

    /** `calculateScore`, shown after submission as "out of 5": the
        `forEach` loop counts the questions of the current subject whose stored
        answer text equals their correct answer. */
    method CalculateScore() returns (correct: nat)
      ensures correct == PageScore(QuizData(selectedSubject), userAnswers)
      ensures correct <= 5
      ensures correct == 5 <==>
        forall i :: 0 <= i < 5 ==> AnsweredCorrectly(userAnswers, i, QuizData(selectedSubject)[i])
    {
      QuizDataWellFormed();
      var questions := QuizData(selectedSubject);
      correct := 0;
      var index := 0;
      while index < |questions|
        invariant 0 <= index <= |questions|
        invariant correct == CorrectBefore(questions, userAnswers, index)
      {
        if index in userAnswers && userAnswers[index] == questions[index].correctAnswer {
          correct := correct + 1;
        }
        index := index + 1;
      }
    }
  }
}
