# SkillBridge quiz engine in Dafny

This project models the logic core of the SkillBridge learning platform's front
end. Nearly all of that logic is the quiz attempt state machine, and the
application has two independent versions of it. Around it sit a few small pure
helpers.

- `UseQuiz` (use_quiz.dfy) models the `useQuiz` hook. `QuizSession` holds its
  state cells as fields: `subject`, `questions`, `selectedOptions` (question id
  to option id), `isSubmitted`, `score` and `isLoading`. Its handlers are
  methods: select an option, generate a quiz, submit, reset, and change the
  subject (which reloads the quiz). The scoring and completeness rules are
  functions over the questions and the selections. `CountCorrect` is the
  scoring loop, proved equal to `Score`.
- `QuizPage` (quiz_page.dfy) models the self-contained quiz page. It has its
  own table of five questions per subject. Answers are keyed by question index
  and stored as the option's text. The score compares that text with
  `correctAnswer`. The page has a 5-answer submit gate and a subject switch
  that is locked after submission.
- `Content` (content.dfy) models the content provider in src/utils/api.ts. It
  holds the `fallbackQuizzes` and `fallbackFlashcards` tables. `generateQuiz`
  and `generateFlashcards` return a copy of a table entry in which only each
  item's `id` is replaced. The catch path returns the entry itself, or
  `undefined` (`None`) for an unknown subject.
- `SubjectOverview` (subject_overview.dfy) models the sidebar's
  `toggleSubject` on the list of expanded subjects and its collapse flag.
- `PeerCard` (peer_card.dfy) models the avatar initials (`split(' ')`, first
  characters, `join('')`, `toUpperCase`) and the skill badges (the first three
  skills plus a "+N" badge).
- `QuizResults` (quiz_results.dfy) models the three-tier feedback message.
- `Wrappers` (wrappers.dfy) holds `Option`, which stands for `undefined` and
  `null`.

Nothing asynchronous remains in the model. The provider's awaited answer is an
argument of `QuizSession.GenerateQuiz`. It gets the fresh ids that `mockUuid`
would draw and a flag saying whether the awaited call rejected.

What the code does and does not guarantee:
- The code has no generation token. The hook keeps whatever response arrives,
  so the model does not claim that stale loads are rejected.
- `setSubject` does not check the subject. Callers only pass the hook's own
  list, so `ChangeSubject` takes that as its precondition.
- `handleSelectOption` does not check that the question or option exists, and
  it does not check the loading flag. It only refuses writes after submission.
- On a failed load the previous questions stay.
- An empty-string option id counts as unanswered.
- `handleSubmit` does not check `isSubmitted`. Submitting again recomputes the
  same score, because the selections are frozen.

## Model

| member | source | states |
|---|---|---|
| `Content.WithQuestionIds` | src/utils/api.ts:360-363 | the copy has the entry's length and order, carries the fresh ids, and each element equals the original once its id is put back |
| `Content.WithCardIds` | src/utils/api.ts:316-319 | the same for flashcards |
| `Content.QuestionCopyRoundTrip` | src/utils/api.ts:360-363 | putting the original ids back undoes the copy, and the copy's ids are exactly the fresh ids |
| `Content.CardCopyRoundTrip` | src/utils/api.ts:316-319 | the same round trip for flashcards |
| `Content.CaughtQuiz` | src/utils/api.ts:371 | the catch path returns the table entry unchanged, with its original ids, and `undefined` for an unknown subject |
| `Content.CaughtFlashcards` | src/utils/api.ts:327 | the same for flashcards |
| `Content.GenerateQuiz` | src/utils/api.ts:332-373 | `generateQuiz` once its delay has elapsed: a copy of the table entry with fresh ids for a known subject, otherwise the catch path's `undefined`; it yields a quiz exactly for the table's subjects |
| `Content.GenerateFlashcards` | src/utils/api.ts:288-329 | `generateFlashcards` with the same two paths; it yields cards exactly for the table's subjects |
| `Content.GenerateQuizCopiesEntry` | src/utils/api.ts:332-373 | `generateQuiz` yields a quiz exactly for the table's subjects; it has the entry's length and the fresh ids, and differs from the catch path's result only in its ids |
| `Content.GenerateFlashcardsCopiesEntry` | src/utils/api.ts:288-329 | the same for `generateFlashcards` |
| `Content.CorrectOptionCount` | src/utils/api.ts:113-118 | the number of options marked correct is at most the number of options, and is 0 exactly when none is marked |
| `Content.FallbackQuizzesWellFormed` | src/utils/api.ts:108-280 | the keys are Python, Maths and English; each has 5 questions of its own subject, each with options `a` to `d` in order and exactly one of them correct |
| `Content.FallbackFlashcardsWellFormed` | src/utils/api.ts:8-105 | the same three keys; each has 5 cards whose subject is the key |
| `UseQuiz.SubjectsAreKnown` | src/hooks/useQuiz.ts:20 | every subject the hook offers is a key of the quiz table with 5 questions, so a load never takes the catch path |
| `UseQuiz.Unanswered` | src/hooks/useQuiz.ts:62 | `!selectedOptions[q.id]`: the question has no entry, or its entry is the falsy empty string |
| `UseQuiz.UnansweredQuestions` | src/hooks/useQuiz.ts:62 | the filter keeps only questions with no entry or an empty-string entry, and keeps every such question; it is empty exactly when every question has a non-empty selection |
| `UseQuiz.UnansweredCountFrom` | src/hooks/useQuiz.ts:62 | filtering the questions from a position on keeps one question per unanswered position from there on |
| `UseQuiz.UnansweredCount` | src/hooks/useQuiz.ts:62-67 | the number `handleSubmit` reports is exactly the number of positions whose question is unanswered |
| `UseQuiz.FindOption` | src/hooks/useQuiz.ts:76 | `find` gives nothing exactly when no option has the id, and otherwise the first option that has it |
| `UseQuiz.Earns` | src/hooks/useQuiz.ts:76-77 | the `if` inside the scoring loop: the selected id finds an option and that option is marked correct; its meaning is stated by `UseQuiz.EarnsIffSelectedIdIsCorrect` |
| `UseQuiz.Score` | src/hooks/useQuiz.ts:73-80 | 0 <= score <= number of questions; it equals that number exactly when every question earns its point, and is 0 exactly when none does |
| `UseQuiz.CountCorrect` | src/hooks/useQuiz.ts:73-80 | the `forEach` loop's `correctCount` equals `Score` |
| `UseQuiz.EarnsIffSelectedIdIsCorrect` | src/hooks/useQuiz.ts:76-77 | where option ids are distinct, a question earns its point exactly when its selected id names a correct option; an id that names no option earns nothing |
| `UseQuiz.MatchIsByIdNotText` | src/hooks/useQuiz.ts:76 | in Maths question 3 the options `a` and `d` both read "34", and only selecting `d` earns the point |
| `UseQuiz.CorrectOptionId` | src/hooks/useQuiz.ts:76-77 | when some option is correct, the id returned names a correct option |
| `UseQuiz.WellFormedOptionIds` | src/utils/api.ts:108-280 | a question shaped like a fallback question has distinct, non-empty option ids |
| `UseQuiz.CorrectSelectionEarns` | src/hooks/useQuiz.ts:62-80 | selecting the correct option of such a question answers it and earns its point |
| `UseQuiz.AnswerKeyScoresFull` | src/hooks/useQuiz.ts:62-80 | for questions with distinct ids, choosing every correct option leaves nothing unanswered and scores the number of questions |
| `UseQuiz.GeneratedQuizCanBeAced` | src/hooks/useQuiz.ts:44-80 | a quiz generated for a hook subject with distinct fresh ids can be completed with a perfect score |
| `UseQuiz.QuizSession.constructor` | src/hooks/useQuiz.ts:11-16 | initial state: Python, no questions, no selections, not submitted, null score, not loading |
| `UseQuiz.QuizSession.SelectOption` | src/hooks/useQuiz.ts:28-35 | after submission nothing changes; otherwise exactly that question's entry is set (overwriting any earlier choice) and every other entry is kept |
| `UseQuiz.QuizSession.GenerateQuiz` | src/hooks/useQuiz.ts:37-59 | the method always ends not submitted, with a null score, no selections and not loading; the questions become the generated quiz unless the provider call rejected, in which case they are unchanged |
| `UseQuiz.QuizSession.Submit` | src/hooks/useQuiz.ts:61-89 | with N >= 1 unanswered questions it reports N and changes nothing; otherwise it sets the score to `Score` and freezes the attempt; a second submit keeps the score; the invariant keeps the score equal to the frozen selections' score |
| `UseQuiz.QuizSession.Reset` | src/hooks/useQuiz.ts:91-96 | leaves the same cleared state as a fresh generate |
| `UseQuiz.QuizSession.ChangeSubject` | src/hooks/useQuiz.ts:98-100 | a new subject reloads the quiz with everything cleared; re-selecting the current subject changes nothing |
| `QuizPage.QuizData` | src/pages/QuizPage.tsx:16-98 | `quizData[subject]`, the page's own question table; every subject has five questions |
| `QuizPage.QuizDataWellFormed` | src/pages/QuizPage.tsx:16-98 | every subject has exactly 5 questions, and every `correctAnswer` is one of its question's options |
| `QuizPage.AnsweredCorrectly` | src/pages/QuizPage.tsx:127 | `userAnswers[index] === question.correctAnswer`: the index holds an answer equal to the correct text; a missing index reads `undefined`, which equals no string |
| `QuizPage.CorrectBefore` | src/pages/QuizPage.tsx:124-132 | the count over the first n questions is at most n, and equals n exactly when each of them is answered with its correct text |
| `QuizPage.IndexSetSize` | src/pages/QuizPage.tsx:208 | a key set made of exactly the indices below n has n members |
| `QuizPage.IndexSetFull` | src/pages/QuizPage.tsx:208 | a key set of indices below n has at most n members, and has n only when it holds all of them |
| `QuizPage.AnswerKeyScoresFull` | src/pages/QuizPage.tsx:124-132 | answering every index with its correct text fills exactly the question indices and scores full marks |
| `QuizPage.PerfectScoreReachable` | src/pages/QuizPage.tsx:16-98 | on every subject there are answers that are option texts, fill exactly five keys and score 5 |
| `QuizPage.FiveKeysAnswerEveryQuestion` | src/pages/QuizPage.tsx:208 | when the keys are question indices, the 5-key gate means all five questions are answered |
| `QuizPage.Page.constructor` | src/pages/QuizPage.tsx:102-104 | initial state: javascript, no answers, not submitted |
| `QuizPage.Page.AnswerSelect` | src/pages/QuizPage.tsx:106-113 | after submission nothing changes; otherwise the answer is stored at that index and the other indices are kept |
| `QuizPage.Page.SubmitEnabled` | src/pages/QuizPage.tsx:208 | the "Submit Answers" button is enabled exactly when five answer keys exist; `QuizPage.Page.ClickSubmit` states its effect |
| `QuizPage.Page.Submit` | src/pages/QuizPage.tsx:115-117 | only sets the submitted flag |
| `QuizPage.Page.ClickSubmit` | src/pages/QuizPage.tsx:204-211 | the page becomes submitted exactly when it already was or exactly five answer keys exist |
| `QuizPage.Page.Reset` | src/pages/QuizPage.tsx:119-122 | no answers and not submitted |
| `QuizPage.Page.SelectSubject` | src/pages/QuizPage.tsx:146-150 | after submission nothing changes; otherwise the subject switches and the answers are cleared |
| `QuizPage.Page.CalculateScore` | src/pages/QuizPage.tsx:124-132 | the loop's count is the number of indices whose stored text equals `correctAnswer`; it is at most 5, and is 5 exactly when all five are correct |
| `SubjectOverview.RemoveAll` | src/components/layout/SubjectOverview.tsx:117 | the filter removes every occurrence of the id and keeps exactly the other ids |
| `SubjectOverview.RemoveAllKeepsOrder` | src/components/layout/SubjectOverview.tsx:117 | the filter works element by element (it distributes over concatenation), so the remaining ids keep their relative order |
| `SubjectOverview.RemoveAllAbsent` | src/components/layout/SubjectOverview.tsx:117 | filtering out an id that is not there changes nothing |
| `SubjectOverview.RemoveAllNoDuplicates` | src/components/layout/SubjectOverview.tsx:117 | filtering keeps a list free of duplicates |
| `SubjectOverview.Toggled` | src/components/layout/SubjectOverview.tsx:115-119 | the toggle flips the id's membership and leaves every other id's membership alone; an absent id is appended at the end |
| `SubjectOverview.ToggleTwiceRestoresAbsent` | src/components/layout/SubjectOverview.tsx:115-119 | toggling an absent id twice restores the original list exactly |
| `SubjectOverview.ToggleTwicePresent` | src/components/layout/SubjectOverview.tsx:115-119 | toggling a present id twice restores its membership; the id moves to the end |
| `SubjectOverview.ToggleNoDuplicates` | src/components/layout/SubjectOverview.tsx:115-119 | a list without duplicates stays without duplicates |
| `SubjectOverview.Overview.IsExpanded` | src/components/layout/SubjectOverview.tsx:150-157 | `expandedSubjects.includes(subject.id)`, which picks the chevron and shows the description; `SubjectOverview.Overview.ToggleSubject` states how a click flips it |
| `SubjectOverview.Overview.constructor` | src/components/layout/SubjectOverview.tsx:111-112 | initial state: nothing expanded, not collapsed |
| `SubjectOverview.Overview.ToggleSubject` | src/components/layout/SubjectOverview.tsx:114-120 | stores `Toggled`, flips the clicked subject, leaves every other subject, and keeps the no-duplicates invariant |
| `SubjectOverview.Overview.ToggleCollapsed` | src/components/layout/SubjectOverview.tsx:197 | the flag is negated, so two clicks restore it |
| `PeerCard.Split` | src/components/dashboard/PeerCard.tsx:22 | `split(' ')` yields at least one piece and no piece contains a space |
| `PeerCard.JoinSplit` | src/components/dashboard/PeerCard.tsx:22 | joining the pieces with single spaces gives back the name |
| `PeerCard.SplitJoin` | src/components/dashboard/PeerCard.tsx:22 | splitting a join of space-free pieces gives back the pieces |
| `PeerCard.SplitWord` | src/components/dashboard/PeerCard.tsx:22 | a space-free word before a space, or at the end, becomes one piece |
| `PeerCard.UpperChar` | src/components/dashboard/PeerCard.tsx:25 | the result is never a lower-case ASCII letter; letters shift by 32 and every other character is kept |
| `PeerCard.ToUpper` | src/components/dashboard/PeerCard.tsx:25 | upper-casing keeps the length and works character by character |
| `PeerCard.FirstChars` | src/components/dashboard/PeerCard.tsx:23-24 | `map(part => part[0]).join('')`: the first character of each piece, where an empty piece contributes nothing; its meaning is stated by `PeerCard.FirstCharsAreWordStarts` |
| `PeerCard.FirstCharsLength` | src/components/dashboard/PeerCard.tsx:23-24 | the first characters number exactly the non-empty pieces |
| `PeerCard.Initials` | src/components/dashboard/PeerCard.tsx:21-25 | the avatar fallback text: split, first characters, join, upper-case; its properties are stated by `PeerCard.InitialsAreUpperWordStarts` and `PeerCard.InitialsLength` |
| `PeerCard.InitialsLength` | src/components/dashboard/PeerCard.tsx:21-25 | the length of the initials is the number of non-empty parts; empty parts from repeated spaces contribute nothing |
| `PeerCard.InitialsAreUpperCase` | src/components/dashboard/PeerCard.tsx:25 | no initial is a lower-case ASCII letter |
| `PeerCard.FirstCharsAppend` | src/components/dashboard/PeerCard.tsx:23-24 | taking first characters distributes over concatenation of the piece lists |
| `PeerCard.FirstCharsAreWordStarts` | src/components/dashboard/PeerCard.tsx:22-24 | the first characters of the pieces are, in order, the characters of the name that start a word |
| `PeerCard.InitialsAreUpperWordStarts` | src/components/dashboard/PeerCard.tsx:21-25 | the initials are the upper-cased word-start characters of the name |
| `PeerCard.InitialsExample` | src/components/dashboard/PeerCard.tsx:21-25 | "Alex Johnson" gives "AJ" |
| `PeerCard.ShownSkills` | src/components/dashboard/PeerCard.tsx:39 | min(3, number of skills) badges are shown, and they are the first skills in order |
| `PeerCard.OverflowBadge` | src/components/dashboard/PeerCard.tsx:44-48 | the "+N" badge exists exactly when there are more than three skills |
| `PeerCard.BadgesAccountForEverySkill` | src/components/dashboard/PeerCard.tsx:39-48 | the shown badges plus N equal the number of skills, and N is at least 1 whenever the badge shows |
| `QuizResults.FeedbackFor` | src/components/quiz/QuizResults.tsx:20-24 | the message chosen by `score === total ? … : score >= total / 2 ? … : …`, with the division on reals; "Perfect" exactly when score equals total |
| `QuizResults.FeedbackTiers` | src/components/quiz/QuizResults.tsx:20-24 | "Perfect" exactly when score = total (0/0 included), "Well done" exactly when score != total and 2*score >= total, and "Keep practicing" otherwise |
| `QuizResults.FeedbackMonotone` | src/components/quiz/QuizResults.tsx:20-24 | for 0 <= score <= total, a higher score never gets a worse message |
| `QuizResults.PerfectExactlyWhenEveryQuestionEarns` | src/components/quiz/QuizResults.tsx:20-21 | on a hook attempt, `FeedbackFor` gives "Perfect" exactly when every question earned its point; it also gives "Perfect" for 0 out of 0, a case the page never shows, because QuizContent.tsx renders "No quiz available" instead of the results card for an empty quiz |

## Left out

- Asynchrony. The 1.5 s delays in src/utils/api.ts, the `await` in `handleGenerateQuiz`, and any overlap of loads are not modelled. `QuizSession.GenerateQuiz` runs in one step, so `isLoading` is true only inside it. The code has no generation token, and `handleSelectOption` and `handleSubmit` ignore `isLoading`. So a stale response can overwrite a newer one, and an attempt can be changed while a load is in flight. The model claims neither that these are prevented nor that they happen.
- `mockUuid` (`Math.random`, `Date.now`). The fresh ids are an input sequence with one id per item. Their uniqueness is not asserted. `UseQuiz.GeneratedQuizCanBeAced` takes distinct ids as a hypothesis.
- The provider's rejection. Nothing inside the try block of `generateQuiz` can throw for a known subject. A rejection could only come from code that is not part of this model: the `useToast` hook it calls, src/hooks/use-toast.ts. So rejection is an input flag of `QuizSession.GenerateQuiz`.
- Toasts and rendering. `QuizSession.Submit` returns the numbers its two toasts show. All other toasts and all JSX output are left out.
- The hook's mount effect is `QuizSession.GenerateQuiz` called right after the constructor. The login redirect effect (src/hooks/useQuiz.ts:22-26) and authentication are left out.
- JavaScript object lookups with inherited property names (a question id such as "toString") read a prototype member. The model treats every missing key as absent.
- `PeerCard.UpperChar`, `PeerCard.ToUpper`, `PeerCard.FirstChars`: strings are sequences of characters, and only ASCII letters are upper-cased. `UpperChar` leaves out Unicode case mapping. `ToUpper` keeps the length, so it leaves out mappings that lengthen a string, for example "ß" to "SS". `FirstChars` takes a whole character, where `part[0]` takes one UTF-16 code unit, which is half of a character outside the Basic Multilingual Plane.
- `QuizResults.FeedbackFor` takes whole-number scores. The source's numbers are floating point, but the quiz only ever passes counts.
- `QuizPage.Page.AnswerSelect` accepts any index, as the source does. `QuizPage.FiveKeysAnswerEveryQuestion` therefore takes "every key is a question index" as a hypothesis. The page only ever passes indices of its own questions.
- src/services/mockData.ts, the settings and authentication contexts, public/script.js and the remaining components hold no quiz logic and are not part of this model.
