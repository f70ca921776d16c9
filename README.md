# AutoLearner AI: the interactive core, modelled in Dafny

AutoLearner AI is a browser application that turns submitted content (a
video, a PDF, an article, a podcast) into flashcards, a quiz and audio, and
records submissions in a content-registry contract on the Celo chain. Almost
all of it is decorative React markup. This project models the four pieces
that hold logic, and proves what each promises:

- `quiz.dfy` (module `Quiz`): the interactive quiz. Its state is the current
  question, the recorded answers, the reveal flag, the completion flag and
  the score. The events are choosing an option, "next" and "retake". The
  score colour and the option styling are pure rules.
- `flashcards.dfy` (module `Flashcards`): the flashcard deck. Its state is
  the cards with their learned flags, the current card and the set of
  flipped card ids. The events are flip, mark as learned, next and
  "study again".
- `submission.dfy` (module `Submission`): the content submission form. It
  holds a URL field, a content-type selector and a processing flag. The
  flag is set by a submit only when the URL is not blank, and cleared when
  the five-second completion timer fires. The placeholder shown is looked up
  by the selected type.
- `learning_data.dfy` (module `LearningData`): the learning-data hook. It
  turns the contract's records into learning items. Auxiliary content is
  fetched from the IPFS gateway, and only for processed records. The list is
  newest first. A contract failure sets the error and keeps the old items.
  A submission without a wallet throws before any call is made.
- `wrappers.dfy` (module `Wrappers`): `Option` and `Result`.

The three components are each modelled twice over. A datatype holds the
component's state, and pure step functions say what each event does to it;
the lemmas are about these functions. A class holds the same fields, and
its methods update them in place, each ensuring that the new state is the
step function applied to the old one. The quiz and deck classes also keep
their invariant (`Valid()`) through every method. The form's class has no
such invariant: `HandleSubmit` checks only for a blank URL, so its bound on
pending timers (`Submission.Inv`) holds only for submits through the enabled
button, which `Submission.StepPreservesInv` states over the step functions.
The hook's class `LearningStore` has no state datatype; its one method is
stated against the function `LoadResult`.

The contract, the wallet and the gateway are inputs, not implementations.
A `Ledger` gives the outcome of each contract read. A `Fetch` gives the
outcome of fetching a URL and parsing its JSON. A `Send` gives the outcome
of the submit transaction. A `Wallet` gives the address and whether the kit
is present. Every `setTimeout` callback is an explicit event.

Four details of the code that a reader might not expect:

- On a failed contract read the hook only sets `error`; `items` keeps the
  list from the previous load (`LoadUserContent`).
- The three auxiliary steps of a record (flashcards fetch, quiz fetch, audio
  URL) share one `try`. The first fetch that throws stops the later steps,
  so a failing flashcards fetch also leaves the quiz and the audio empty, and
  a failing quiz fetch leaves the audio empty (`FetchAux`).
- The loaded list is the reverse of the order of the contract's id list
  (`LoadNewestFirst`).
- The submission form never calls the contract; it only runs a five-second
  timer. The hook's `submitContent` is modelled separately (`SubmitContent`).

## Model

| member | source | states |
|---|---|---|
| `Quiz.SampleQuestionsWellFormed` | src/components/InteractiveQuiz.tsx:15-76 | the built-in quiz has five questions, and each one's right answer indexes one of its options |
| `Quiz.SelectAnswer` | src/components/InteractiveQuiz.tsx:90-103 | when revealed, choosing changes nothing; otherwise only the current question's answer is written (every other entry keeps its key and value), the answer is revealed, and the score rises by exactly one iff the choice is the right option, else stays |
| `Quiz.Next` | src/components/InteractiveQuiz.tsx:105-112 | before the last question: index + 1 and the reveal cleared; on the last: results screen, index and reveal kept; answers and score never change; the index stays in range |
| `Quiz.InitialInv` | src/components/InteractiveQuiz.tsx:79-83 | the initial state (index 0, no answers, nothing revealed, not completed, score 0) satisfies the quiz invariant |
| `Quiz.SelectPreservesInv` | src/components/InteractiveQuiz.tsx:90-103 | choosing an option keeps the invariant: index in range, answers only up to the current question, the current one answered iff revealed, results only from the last question, score = number of right answers recorded |
| `Quiz.NextPreservesInv` | src/components/InteractiveQuiz.tsx:105-112 | "next" keeps the same invariant, with or without the button's gating |
| `Quiz.SelectKeepsOrder` | src/components/InteractiveQuiz.tsx:90-103 | choosing an option never leaves a question before the current one without a recorded answer |
| `Quiz.NextKeepsOrder` | src/components/InteractiveQuiz.tsx:241-248 | "next" through the button, which is shown only while the answer is revealed, skips no question |
| `Quiz.ScoreBound` | src/components/InteractiveQuiz.tsx:85 | in every state satisfying the invariant: score <= the progress numerator (current index + 1 if revealed) <= number of questions, so progress never passes 100 percent |
| `Quiz.AnsweredCountsAnswers` | src/components/InteractiveQuiz.tsx:85 | with no question skipped, the recorded answers are exactly those of the first n questions, where n is the progress numerator, so the numerator counts the answered questions |
| `Quiz.NextFromLastQuestionCompletes` | src/components/InteractiveQuiz.tsx:241-248 | with no question skipped, the next button on the last question (shown only while revealed) opens the results screen with every question's answer recorded and the progress numerator equal to the number of questions |
| `Quiz.IsCorrect` | src/components/InteractiveQuiz.tsx:87-88 | the verdict is "correct" exactly when the current question is among the questions whose recorded answer is right, the set the score counts |
| `Quiz.VerdictMatchesScore` | src/components/InteractiveQuiz.tsx:230-233 | after a choice is revealed, the panel says "correct" exactly when the score went up |
| `Quiz.SecondSelectIgnored` | src/components/InteractiveQuiz.tsx:91 | once an answer is revealed a further choice is ignored (the options are disabled) |
| `Quiz.ScoreColor` | src/components/InteractiveQuiz.tsx:122-127 | the colour computed from the percentage is green iff score*100 >= 80*total, yellow iff 60*total <= score*100 < 80*total, red iff score*100 < 60*total: exclusive and exhaustive |
| `Quiz.ScoreColorMonotone` | src/components/InteractiveQuiz.tsx:122-127 | a higher score never gets a lower colour band |
| `Quiz.RoundedPercentage` | src/components/InteractiveQuiz.tsx:130 | `Math.round`: the result is the integer within half a point of the exact percentage (halves round up), between 0 and 100 when the score is at most the total |
| `Quiz.MessageBand` | src/components/InteractiveQuiz.tsx:149-157 | the "excellent" message iff 200*score >= 159*total (79.5 percent), "good job" iff 119*total <= 200*score < 159*total, "keep studying" iff 200*score < 119*total: exclusive and exhaustive |
| `Quiz.MessageMatchesColorOnSample` | src/components/InteractiveQuiz.tsx:122-157 | on the built-in quiz, the message chosen by the rounded percentage agrees with the score's colour for every score, also one above the question count |
| `Quiz.MessageAndColorCanDiffer` | src/components/InteractiveQuiz.tsx:122-157 | with 200 questions, 159 right gets the "excellent" message in yellow: the agreement depends on the question count |
| `Quiz.OptionLookOf` | src/components/InteractiveQuiz.tsx:195-207 | before the reveal an option is highlighted iff it is the chosen one; after it, styled right iff it is the correct index, styled wrong iff it is the chosen one and not the correct one, neutral otherwise |
| `Quiz.RevealedOptions` | src/components/InteractiveQuiz.tsx:199-207 | once revealed, exactly the correct option is styled right, at most one option is styled wrong, and none is when the recorded answer is right |
| `Quiz.ClickAnswerAsWritten` | src/components/InteractiveQuiz.tsx:90-103 | as written: a click while unrevealed writes the answer for the current question at once (the other answers kept) and queues a reveal carrying whether it was right; index, completion, reveal flag and score are unchanged; a click while revealed changes nothing |
| `Quiz.RevealFiresAsWritten` | src/components/InteractiveQuiz.tsx:97-102 | as written: the oldest queued reveal is removed, sets the reveal flag and adds one to the score if its answer was right; index, answers and completion are unchanged |
| `Quiz.SingleClickIsSelect` | src/components/InteractiveQuiz.tsx:90-103 | one click followed by its timer gives exactly the state `SelectAnswer` gives |
| `Quiz.DoubleClickScoresTwice` | src/components/InteractiveQuiz.tsx:90-103 | as written: two clicks on the right option within the 300 ms give score 2 on the first question, more than the questions answered |
| `Quiz.QuizSession.constructor` | src/components/InteractiveQuiz.tsx:79-83 | the session starts in the initial state, satisfying the invariant, with no question skipped |
| `Quiz.QuizSession.HandleAnswerSelect` | src/components/InteractiveQuiz.tsx:90-103 | the fields become `SelectAnswer` of the old state; the invariant is kept, and so is "no question skipped" |
| `Quiz.QuizSession.HandleNext` | src/components/InteractiveQuiz.tsx:105-112 | the fields become `Next` of the old state; the invariant is kept, and "no question skipped" is kept when the call comes through the shown button |
| `Quiz.QuizSession.ResetQuiz` | src/components/InteractiveQuiz.tsx:114-120 | the fields are exactly the initial state again; the invariant holds and no question is skipped |
| `Flashcards.SampleFlashcardsWellFormed` | src/components/FlashcardGrid.tsx:14-46 | the built-in deck has five cards with distinct ids, none learned |
| `Flashcards.Toggle` | src/components/FlashcardGrid.tsx:55-65 | the id is in the new set iff it was not in the old; every other id keeps its membership |
| `Flashcards.ToggleTwice` | src/components/FlashcardGrid.tsx:55-65 | flipping the same card twice restores the flipped set |
| `Flashcards.MarkLearned` | src/components/FlashcardGrid.tsx:68-72 | same cards (length, order, ids, fronts, backs); a card is learned afterwards iff it was before or its id is the given one |
| `Flashcards.Unlearn` | src/components/FlashcardGrid.tsx:84 | same cards, every one unlearned |
| `Flashcards.LearnedCount` | src/components/FlashcardGrid.tsx:53 | the learned count is at most the number of cards |
| `Flashcards.AllLearnedIffCountIsSize` | src/components/FlashcardGrid.tsx:90 | every card is learned iff the learned count equals the deck size |
| `Flashcards.Flip` | src/components/FlashcardGrid.tsx:55-65 | cards and current index unchanged; only the given id's flipped membership is toggled |
| `Flashcards.Advance` | src/components/FlashcardGrid.tsx:76-81 | before the last card: index + 1 and nothing flipped; on the last card: the state is unchanged; the cards never change |
| `Flashcards.MarkCurrent` | src/components/FlashcardGrid.tsx:67-74 | same cards; exactly the cards sharing the current card's id become learned (the current one included), the others keep their flag; then index and flipped set move as in `Advance` |
| `Flashcards.Reset` | src/components/FlashcardGrid.tsx:83-87 | same cards, none learned (count 0), first card, nothing flipped |
| `Flashcards.IsFlipped` | src/components/FlashcardGrid.tsx:89 | the current card can be flipped only when there is a current card, and then some id is in the flipped set; `FlipShowsOnlyThatCard` pins which id |
| `Flashcards.FlipShowsOnlyThatCard` | src/components/FlashcardGrid.tsx:89 | from nothing turned over, flipping one card shows the current card flipped, and enables mark-as-learned, exactly when the flipped id is the current card's |
| `Flashcards.SameIdSameFace` | src/components/FlashcardGrid.tsx:89 | the face shown belongs to the id: cards sharing the current card's id are shown flipped exactly when it is |
| `Flashcards.MarkEnabled` | src/components/FlashcardGrid.tsx:146-148 | the mark button is enabled only on an existing card, and pressing it then leaves that card learned |
| `Flashcards.NextEnabled` | src/components/FlashcardGrid.tsx:154-156 | the next button is enabled exactly when pressing it (`nextCard`) would change the current card |
| `Flashcards.MarkEnablement` | src/components/FlashcardGrid.tsx:148 | flipping the current card toggles whether mark-as-learned is enabled; moving to another card disables it |
| `Flashcards.StepPreservesDeck` | src/components/FlashcardGrid.tsx:52-87 | every action keeps the current index inside the deck and keeps all ids, fronts, backs and their order |
| `Flashcards.LearnedNeverDecreases` | src/components/FlashcardGrid.tsx:53-81 | flip, next and mark-as-learned never lower the learned count (only reset does) |
| `Flashcards.MarkingNewCardRaisesCount` | src/components/FlashcardGrid.tsx:67-74 | marking an unlearned current card raises the learned count |
| `Flashcards.FlashcardDeck.constructor` | src/components/FlashcardGrid.tsx:48-50 | a deck starts on its first card with nothing flipped |
| `Flashcards.FlashcardDeck.HandleFlip` | src/components/FlashcardGrid.tsx:55-65 | the fields become `Flip` of the old state |
| `Flashcards.FlashcardDeck.NextCard` | src/components/FlashcardGrid.tsx:76-81 | the fields become `Advance` of the old state |
| `Flashcards.FlashcardDeck.MarkAsLearned` | src/components/FlashcardGrid.tsx:67-74 | the fields become `MarkCurrent` of the old state |
| `Flashcards.FlashcardDeck.ResetCards` | src/components/FlashcardGrid.tsx:83-87 | the fields become `Reset` of the old state |
| `Submission.Trim` | src/components/ContentSubmission.tsx:25 | the result is the slice of the input that begins after the leading whitespace and is followed only by whitespace; it neither starts nor ends with a character trim removes |
| `Submission.IsBlank` | src/components/ContentSubmission.tsx:25 | `!url.trim()` holds iff every character of the URL is ECMAScript whitespace or a line terminator |
| `Submission.FindType` | src/components/ContentSubmission.tsx:68 | the result is the first entry with the given id, and there is none iff no entry has that id |
| `Submission.PlaceholderOfEveryKind` | src/components/ContentSubmission.tsx:17-22 | every content type has an entry, and the lookup finds it at that type's position |
| `Submission.Placeholder` | src/components/ContentSubmission.tsx:68 | the placeholder shown is always present, and it is that of the entry for the selected type |
| `Submission.ChangeUrl` | src/components/ContentSubmission.tsx:70 | typing sets the URL and nothing else |
| `Submission.ChooseType` | src/components/ContentSubmission.tsx:50 | a type button sets the selected type and nothing else |
| `Submission.Submit` | src/components/ContentSubmission.tsx:24-33 | a blank URL leaves the state unchanged; otherwise processing is set and one completion timer is scheduled; URL and type are never touched |
| `Submission.Complete` | src/components/ContentSubmission.tsx:29-32 | the firing timer clears processing; URL and type are kept |
| `Submission.SubmitDisabled` | src/components/ContentSubmission.tsx:76 | the button is disabled iff processing or every character of the URL is whitespace |
| `Submission.StepPreservesInv` | src/components/ContentSubmission.tsx:24-76 | with submits only through the enabled button, at most one timer is pending and processing holds iff one is |
| `Submission.ProcessingEnds` | src/components/ContentSubmission.tsx:27-32 | while processing, a completion timer is pending, and its firing ends processing |
| `Submission.ContentSubmissionForm.constructor` | src/components/ContentSubmission.tsx:13-15 | the form starts with an empty URL, not processing, YouTube selected |
| `Submission.ContentSubmissionForm.SetContentUrl` | src/components/ContentSubmission.tsx:70 | the fields become `ChangeUrl` of the old state |
| `Submission.ContentSubmissionForm.SetSelectedType` | src/components/ContentSubmission.tsx:50 | the fields become `ChooseType` of the old state |
| `Submission.ContentSubmissionForm.HandleSubmit` | src/components/ContentSubmission.tsx:24-33 | the fields become `Submit` of the old state |
| `Submission.ContentSubmissionForm.ProcessingTimerFires` | src/components/ContentSubmission.tsx:29-32 | the fields become `Complete` of the old state |
| `LearningData.IpfsUrl` | src/hooks/useLearningData.ts:44-52 | the URL is the gateway prefix followed by exactly the CID |
| `LearningData.FetchAux` | src/hooks/useLearningData.ts:37-57 | unprocessed: `[]`, `{}`, `''`; processed: flashcards are the fetched JSON iff the CID is set and the fetch succeeds; the quiz is fetched only if the flashcards step did not throw; the audio is the gateway URL of the CID only if neither step threw and the CID is set; every other case leaves the default |
| `LearningData.Materialise` | src/hooks/useLearningData.ts:59-67 | id, source URI, timestamp and processed flag are copied from the record; the other fields are those of `FetchAux` |
| `LearningData.UnprocessedHasNoContent` | src/hooks/useLearningData.ts:37-41 | an unprocessed record yields empty flashcards, an empty quiz and no audio |
| `LearningData.FetchFailureKeepsEarlierFields` | src/hooks/useLearningData.ts:42-57 | a failing flashcards fetch leaves all three defaults; a failing quiz fetch keeps the flashcards and leaves quiz and audio at their defaults |
| `LearningData.AllFetchesSucceed` | src/hooks/useLearningData.ts:43-53 | when no fetch fails, every set CID fills its field, the audio with the gateway URL |
| `LearningData.MaterialiseAll` | src/hooks/useLearningData.ts:34-70 | fails iff some record read fails; otherwise one item per id, in id order, each built from that id's record |
| `LearningData.Reverse` | src/hooks/useLearningData.ts:71 | same length, element i is element n-1-i of the input |
| `LearningData.LoadResult` | src/hooks/useLearningData.ts:31-71 | a failing id list read fails the load; a load that succeeds has one item per id |
| `LearningData.LoadNewestFirst` | src/hooks/useLearningData.ts:32-71 | a load succeeds iff the id list and every record can be read; then it has one item per id, item k built from the (n-1-k)th id |
| `LearningData.NoRecordsLoadsEmpty` | src/hooks/useLearningData.ts:32-71 | an account with no records loads as an empty list, not a failure |
| `LearningData.LoadedUnprocessedAreEmpty` | src/hooks/useLearningData.ts:37-71 | no loaded item that is unprocessed carries flashcards, a quiz or audio |
| `LearningData.SubmitContent` | src/hooks/useLearningData.ts:83-94 | without address or kit: no call and the error "Wallet not connected"; otherwise one submit call from the account, whose receipt or error is returned unchanged |
| `LearningData.SubmitCallsIffConnected` | src/hooks/useLearningData.ts:84-88 | a submission calls the contract iff a wallet is connected, and at most once |
| `LearningData.LearningStore.constructor` | src/hooks/useLearningData.ts:19-21 | no items, not loading, no error |
| `LearningData.LearningStore.LoadUserContent` | src/hooks/useLearningData.ts:23-81 | without address or kit nothing changes; otherwise loading ends false, and either the items are the loaded list and the error is cleared, or the items are kept and the error is "Failed to load learning data" |

## Findings

| source | as written | input that shows it | evidently intended | confidence | as-written member | corrected member |
|---|---|---|---|---|---|---|
| src/components/InteractiveQuiz.tsx:90-103 | the reveal and the score increment wait for a 300 ms timer, and the options stay enabled until the reveal, so each click before it schedules its own increment | two clicks on the right option of the first question within 300 ms | one scored answer per question: score = right answers recorded <= questions answered | not executed | `Quiz.DoubleClickScoresTwice` | `Quiz.SelectPreservesInv` |

The corrected `Quiz.SelectAnswer` reveals in the same event as the click, so
a second click is ignored (`Quiz.SecondSelectIgnored`). For a single click it
gives the same state as the timer (`Quiz.SingleClickIsSelect`). The
`QuizSession` class uses it.

## Left out

- Rendering, CSS classes, icons and animation are not modelled; the option styling is reduced to five looks.
- The score percentage is JavaScript floating point; the model computes it on exact reals and uses floor(x + 0.5) for `Math.round`. The two progress bars' values are not computed; only their numerators are (`Quiz.Answered`, `Flashcards.LearnedCount`).
- Timers are events. Nothing is modelled about when they fire. The quiz's as-written model queues reveals in order and has no retake, so a retake that comes before a queued reveal fires is not modelled. The form's timers are counted by `pendingTimers`.
- The form's `onContentProcessed` callback is accepted but never called by the component, so it has no model.
- The loads started by successive address changes can overlap, and the last one to finish wins. This is async interleaving and is not modelled. Each load is one atomic call.
- LearningData.LearningStore.LoadUserContent: only the state after the load is stated; `loading` is true while the calls are in flight, and that intermediate state is not visible in an atomic call.
- The contract ABI, the web3 library and the Celo SDK are replaced by the `Ledger`, `Send` and `Wallet` inputs. `fetch` and JSON parsing are replaced by the `Fetch` input, which returns the same outcome every time a URL is fetched within a load.
- JSON numbers are integers, and `Number(timestamp)` is taken as exact; precision above 2^53 is not modelled.
- Logging (`console.warn`, `console.error`) is left out.
- Quiz.QuizSession.constructor and Flashcards.FlashcardDeck.constructor require a non-empty list; the component always starts from its five built-in questions or cards, which `Quiz.SampleQuestionsWellFormed` and `Flashcards.SampleFlashcardsWellFormed` show meet it.
- Quiz.QuizSession.HandleNext accepts a call in any state, as `handleNext` does; "no question skipped" is promised only for calls made while the button is shown.
- The visual components (LaserCursor, MatrixRain, FloatingParticles, HolographicCard), AudioPlayer, Index, LearningInterface, ConnectWallet and main.tsx are not part of this model: they are markup, floating-point media control, view routing or a timer-only wallet simulation.
