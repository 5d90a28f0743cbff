/**
 * The content provider of the learning platform (src/utils/api.ts): two static
 * per-subject tables, `fallbackFlashcards` and `fallbackQuizzes`, and the two
 * "generators" that hand out a copy of a table entry in which every item gets a
 * fresh id. The simulated network delay and the toast are not modelled; the
 * fresh ids, which the source draws from `Math.random` and `Date.now`, are an
 * input sequence with one id per item.
 */
module Content {
  import opened Wrappers

  /** One answer choice of a quiz question (`QuizOption`). */
  datatype QuizOption = QuizOption(id: string, text: string, isCorrect: bool)

  /** A multiple-choice question (`QuizQuestion`). */
  datatype QuizQuestion = QuizQuestion(id: string, question: string, options: seq<QuizOption>, subject: string)

  /** A question/answer card (`Flashcard`). */
  datatype Flashcard = Flashcard(id: string, question: string, answer: string, subject: string)

  const FallbackFlashcards: map<string, seq<Flashcard>> := map[
    "Python" := [
      Flashcard("1", "What is a variable in Python?",
                "A variable is a named location that stores data in memory.",
                "Python"),
      Flashcard("2", "How do you create a list in Python?",
                "You can create a list using square brackets, e.g., my_list = [1, 2, 3]",
                "Python"),
      Flashcard("3", "What is a function in Python?",
                "A function is a block of reusable code that performs a specific task.",
                "Python"),
      Flashcard("4", "How do you comment code in Python?",
                "Use the # symbol for single-line comments and triple quotes for multi-line comments.",
                "Python"),
      Flashcard("5", "What is a dictionary in Python?",
                "A dictionary is a collection of key-value pairs that are unordered, changeable, and indexed.",
                "Python")
    ],
    "Maths" := [
      Flashcard("1", "What is the Pythagorean theorem?",
                "The Pythagorean theorem states that in a right-angled triangle, the square of the hypotenuse is equal to the sum of squares of the other two sides: a² + b² = c².",
                "Maths"),
      Flashcard("2", "What is a prime number?",
                "A prime number is a natural number greater than 1 that cannot be formed by multiplying two smaller natural numbers.",
                "Maths"),
      Flashcard("3", "What is the formula for the area of a circle?",
                "The area of a circle is calculated using the formula: A = πr², where r is the radius of the circle.",
                "Maths"),
      Flashcard("4", "What is the derivative of sin(x)?",
                "The derivative of sin(x) is cos(x).",
                "Maths"),
      Flashcard("5", "What is a logarithm?",
                "A logarithm is the power to which a base must be raised to produce a given number.",
                "Maths")
    ],
    "English" := [
      Flashcard("1", "What is a noun?",
                "A noun is a word that names a person, place, thing, or idea.",
                "English"),
      Flashcard("2", "What is a verb?",
                "A verb is a word that expresses an action, occurrence, or state of being.",
                "English"),
      Flashcard("3", "What is an adjective?",
                "An adjective is a word that describes or modifies a noun or pronoun.",
                "English"),
      Flashcard("4", "What is a metaphor?",
                "A metaphor is a figure of speech that directly compares two different things without using \"like\" or \"as\".",
                "English"),
      Flashcard("5", "What is alliteration?",
                "Alliteration is the occurrence of the same letter or sound at the beginning of adjacent or closely connected words.",
                "English")
    ]
  ]

  const FallbackQuizzes: map<string, seq<QuizQuestion>> := map[
    "Python" := [
      QuizQuestion("1", "What is the output of print(2 + 2)?", [
        QuizOption("a", "4", true),
        QuizOption("b", "22", false),
        QuizOption("c", "Error", false),
        QuizOption("d", "None", false)
      ], "Python"),
      QuizQuestion("2", "Which of the following is NOT a Python data type?", [
        QuizOption("a", "List", false),
        QuizOption("b", "Dictionary", false),
        QuizOption("c", "Array", true),
        QuizOption("d", "Tuple", false)
      ], "Python"),
      QuizQuestion("3", "What does the \"len()\" function do in Python?", [
        QuizOption("a", "Returns the length of a string", true),
        QuizOption("b", "Returns the absolute value", false),
        QuizOption("c", "Returns the largest item", false),
        QuizOption("d", "Returns the smallest item", false)
      ], "Python"),
      QuizQuestion("4", "How do you create a function in Python?", [
        QuizOption("a", "function myFunc():", false),
        QuizOption("b", "def myFunc():", true),
        QuizOption("c", "create myFunc():", false),
        QuizOption("d", "func myFunc():", false)
      ], "Python"),
      QuizQuestion("5", "What symbol is used for comments in Python?", [
        QuizOption("a", "//", false),
        QuizOption("b", "/*", false),
        QuizOption("c", "--", false),
        QuizOption("d", "#", true)
      ], "Python")
    ],
    "Maths" := [
      QuizQuestion("1", "What is the value of π (pi) to two decimal places?", [
        QuizOption("a", "3.14", true),
        QuizOption("b", "3.15", false),
        QuizOption("c", "3.16", false),
        QuizOption("d", "3.12", false)
      ], "Maths"),
      QuizQuestion("2", "Which of these numbers is a prime number?", [
        QuizOption("a", "9", false),
        QuizOption("b", "15", false),
        QuizOption("c", "21", false),
        QuizOption("d", "23", true)
      ], "Maths"),
      QuizQuestion("3", "What is the result of 5² + 3²?", [
        QuizOption("a", "34", false),
        QuizOption("b", "64", false),
        QuizOption("c", "25", false),
        QuizOption("d", "34", true)
      ], "Maths"),
      QuizQuestion("4", "If a + b = 10 and a - b = 4, what is a × b?", [
        QuizOption("a", "21", true),
        QuizOption("b", "24", false),
        QuizOption("c", "16", false),
        QuizOption("d", "14", false)
      ], "Maths"),
      QuizQuestion("5", "What is the slope of a line with points (2, 3) and (4, 7)?", [
        QuizOption("a", "1", false),
        QuizOption("b", "2", true),
        QuizOption("c", "3", false),
        QuizOption("d", "4", false)
      ], "Maths")
    ],
    "English" := [
      QuizQuestion("1", "Which of the following is a proper noun?", [
        QuizOption("a", "City", false),
        QuizOption("b", "Dog", false),
        QuizOption("c", "London", true),
        QuizOption("d", "Building", false)
      ], "English"),
      QuizQuestion("2", "Which word is an adverb in the sentence: \"She ran quickly to catch the bus\"?", [
        QuizOption("a", "She", false),
        QuizOption("b", "ran", false),
        QuizOption("c", "quickly", true),
        QuizOption("d", "catch", false)
      ], "English"),
      QuizQuestion("3", "What is the plural form of \"child\"?", [
        QuizOption("a", "childs", false),
        QuizOption("b", "childes", false),
        QuizOption("c", "children", true),
        QuizOption("d", "childen", false)
      ], "English"),
      QuizQuestion("4", "Which of these sentences contains a simile?", [
        QuizOption("a", "The tree stood tall in the garden.", false),
        QuizOption("b", "Her eyes were diamonds, sparkling in the light.", false),
        QuizOption("c", "He ran like the wind.", true),
        QuizOption("d", "The sun rose slowly over the horizon.", false)
      ], "English"),
      QuizQuestion("5", "What is the past tense of \"go\"?", [
        QuizOption("a", "goed", false),
        QuizOption("b", "went", true),
        QuizOption("c", "gone", false),
        QuizOption("d", "going", false)
      ], "English")
    ]
  ]


  // ---------------------------------------------------------------------------
  // Copying a table entry with fresh ids (`list.map(x => ({ ...x, id: fresh }))`)
  // ---------------------------------------------------------------------------

  /** The ids of a list of questions, in order. */
  function QuestionIds(qs: seq<QuizQuestion>): (ids: seq<string>)
    ensures |ids| == |qs|
    ensures forall i :: 0 <= i < |qs| ==> ids[i] == qs[i].id
  {
    if qs == [] then [] else [qs[0].id] + QuestionIds(qs[1..])
  }

  /** The ids of a list of flashcards, in order. */
  function CardIds(cs: seq<Flashcard>): (ids: seq<string>)
    ensures |ids| == |cs|
    ensures forall i :: 0 <= i < |cs| ==> ids[i] == cs[i].id
  {
    if cs == [] then [] else [cs[0].id] + CardIds(cs[1..])
  }

  /** A spread copy of every question with its id replaced by the next fresh id:
      same length, same order, and each element differs from the original at
      most in its id. */
  function WithQuestionIds(qs: seq<QuizQuestion>, ids: seq<string>): (r: seq<QuizQuestion>)
    requires |ids| == |qs|
    ensures |r| == |qs|
    ensures forall i :: 0 <= i < |qs| ==> r[i].id == ids[i] && r[i].(id := qs[i].id) == qs[i]
  {
    if qs == [] then [] else [qs[0].(id := ids[0])] + WithQuestionIds(qs[1..], ids[1..])
  }

  /** The same copy for flashcards. */
  function WithCardIds(cs: seq<Flashcard>, ids: seq<string>): (r: seq<Flashcard>)
    requires |ids| == |cs|
    ensures |r| == |cs|
    ensures forall i :: 0 <= i < |cs| ==> r[i].id == ids[i] && r[i].(id := cs[i].id) == cs[i]
  {
    if cs == [] then [] else [cs[0].(id := ids[0])] + WithCardIds(cs[1..], ids[1..])
  }

  /** Putting the original ids back undoes the copy, and the copy carries exactly
      the fresh ids. */
  lemma QuestionCopyRoundTrip(qs: seq<QuizQuestion>, ids: seq<string>)
    requires |ids| == |qs|
    ensures QuestionIds(WithQuestionIds(qs, ids)) == ids
    ensures WithQuestionIds(WithQuestionIds(qs, ids), QuestionIds(qs)) == qs
  {
    var copy := WithQuestionIds(qs, ids);
    var back := WithQuestionIds(copy, QuestionIds(qs));
    assert forall i :: 0 <= i < |qs| ==> back[i] == copy[i].(id := qs[i].id) == qs[i];
  }

  /** The same round trip for flashcards. */
  lemma CardCopyRoundTrip(cs: seq<Flashcard>, ids: seq<string>)
    requires |ids| == |cs|
    ensures CardIds(WithCardIds(cs, ids)) == ids
    ensures WithCardIds(WithCardIds(cs, ids), CardIds(cs)) == cs
  {
    var copy := WithCardIds(cs, ids);
    var back := WithCardIds(copy, CardIds(cs));
    assert forall i :: 0 <= i < |cs| ==> back[i] == copy[i].(id := cs[i].id) == cs[i];
  }

  // ---------------------------------------------------------------------------
  // The two generators
  // ---------------------------------------------------------------------------

  /** `fallbackQuizzes[subject]`: `undefined` when the subject is not a key. */
  function CaughtQuiz(subject: string): (r: Option<seq<QuizQuestion>>)
    ensures r.Some? <==> subject in FallbackQuizzes
    ensures r.Some? ==> r.value == FallbackQuizzes[subject]
  {
    if subject in FallbackQuizzes then Some(FallbackQuizzes[subject]) else None
  }

  /** `fallbackFlashcards[subject]`: `undefined` when the subject is not a key. */
  function CaughtFlashcards(subject: string): (r: Option<seq<Flashcard>>)
    ensures r.Some? <==> subject in FallbackFlashcards
    ensures r.Some? ==> r.value == FallbackFlashcards[subject]
  {
    if subject in FallbackFlashcards then Some(FallbackFlashcards[subject]) else None
  }

  /** `generateQuiz(subject)` once its delay has elapsed. For a known subject the
      try block copies the table entry with fresh ids and cannot throw; for an
      unknown one, `.map` on `undefined` throws and the catch block returns the
      missing entry, that is `undefined` again. */
  function GenerateQuiz(subject: string, freshIds: seq<string>): (r: Option<seq<QuizQuestion>>)
    requires subject in FallbackQuizzes ==> |freshIds| == |FallbackQuizzes[subject]|
    ensures r.Some? <==> subject in FallbackQuizzes
  {
    if subject in FallbackQuizzes then Some(WithQuestionIds(FallbackQuizzes[subject], freshIds))
    else CaughtQuiz(subject)
  }

  /** `generateFlashcards(subject)`, with the same two paths. */
  function GenerateFlashcards(subject: string, freshIds: seq<string>): (r: Option<seq<Flashcard>>)
    requires subject in FallbackFlashcards ==> |freshIds| == |FallbackFlashcards[subject]|
    ensures r.Some? <==> subject in FallbackFlashcards
  {
    if subject in FallbackFlashcards then Some(WithCardIds(FallbackFlashcards[subject], freshIds))
    else CaughtFlashcards(subject)
  }

  /** A generated quiz is the table entry with fresh ids: it has the entry's
      length and order, carries the fresh ids, and
      putting back the ids of the catch path's result gives that result. */
  lemma GenerateQuizCopiesEntry(subject: string, freshIds: seq<string>)
    requires subject in FallbackQuizzes ==> |freshIds| == |FallbackQuizzes[subject]|
    ensures GenerateQuiz(subject, freshIds).Some? ==>
      var entry := FallbackQuizzes[subject];
      var quiz := GenerateQuiz(subject, freshIds).value;
      && |quiz| == |entry|
      && QuestionIds(quiz) == freshIds
      && WithQuestionIds(quiz, QuestionIds(CaughtQuiz(subject).value)) == CaughtQuiz(subject).value
  {
    if subject in FallbackQuizzes {
      QuestionCopyRoundTrip(FallbackQuizzes[subject], freshIds);
    }
  }

  /** The same for flashcards. */
  lemma GenerateFlashcardsCopiesEntry(subject: string, freshIds: seq<string>)
    requires subject in FallbackFlashcards ==> |freshIds| == |FallbackFlashcards[subject]|
    ensures GenerateFlashcards(subject, freshIds).Some? ==>
      var entry := FallbackFlashcards[subject];
      var cards := GenerateFlashcards(subject, freshIds).value;
      && |cards| == |entry|
      && CardIds(cards) == freshIds
      && WithCardIds(cards, CardIds(CaughtFlashcards(subject).value)) == CaughtFlashcards(subject).value
  {
    if subject in FallbackFlashcards {
      CardCopyRoundTrip(FallbackFlashcards[subject], freshIds);
    }
  }

  // ---------------------------------------------------------------------------
  // Data invariants of the tables
  // ---------------------------------------------------------------------------

  /** The number of options marked correct. */
  function CorrectOptionCount(options: seq<QuizOption>): (n: nat)
    ensures n <= |options|
    ensures n == 0 <==> forall k :: 0 <= k < |options| ==> !options[k].isCorrect
  {
    if options == [] then 0
    else (if options[0].isCorrect then 1 else 0) + CorrectOptionCount(options[1..])
  }

  /** The ids of a list of options, in order. */
  function OptionIds(options: seq<QuizOption>): (ids: seq<string>)
    ensures |ids| == |options|
    ensures forall k :: 0 <= k < |options| ==> ids[k] == options[k].id
  {
    if options == [] then [] else [options[0].id] + OptionIds(options[1..])
  }

  /** The shape every fallback question has: options `a` to `d`, exactly one of
      them correct. */
  ghost predicate WellFormedQuestion(q: QuizQuestion)
  {
    OptionIds(q.options) == ["a", "b", "c", "d"] && CorrectOptionCount(q.options) == 1
  }

  /** What every entry of a table promises: five items whose subject is the key. */
  ghost predicate QuizEntry(key: string, qs: seq<QuizQuestion>)
  {
    |qs| == 5 && forall i :: 0 <= i < |qs| ==> qs[i].subject == key && WellFormedQuestion(qs[i])
  }

  ghost predicate FlashcardEntry(key: string, cs: seq<Flashcard>)
  {
    |cs| == 5 && forall i :: 0 <= i < |cs| ==> cs[i].subject == key
  }

  /** Every fallback quiz has five questions of its own subject, each with four
      options `a` to `d` of which exactly one is correct. */
  lemma FallbackQuizzesWellFormed()
    ensures FallbackQuizzes.Keys == {"Python", "Maths", "English"}
    ensures forall s :: s in FallbackQuizzes ==> QuizEntry(s, FallbackQuizzes[s])
  {
  }

  /** Every fallback flashcard list has five cards of its own subject. */
  lemma FallbackFlashcardsWellFormed()
    ensures FallbackFlashcards.Keys == {"Python", "Maths", "English"}
    ensures forall s :: s in FallbackFlashcards ==> FlashcardEntry(s, FallbackFlashcards[s])
  {
  }
}
