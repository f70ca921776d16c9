/**
 * The interactive quiz: a fixed list of multiple-choice questions answered
 * one at a time. Choosing an option records it and reveals the right answer
 * (raising the score when the choice was right); "next" moves to the
 * following question or, on the last one, to the results screen, which
 * colours the score by band and offers a retake.
 */
module Quiz {
  import opened Wrappers

  datatype Question = Question(
    id: int,
    question: string,
    options: seq<string>,
    correctAnswer: int,
    explanation: Option<string>)

  /** The five built-in questions; each has four options, the right one at index 1. */
  function SampleQuestions(): seq<Question> {
    [ Question(1, "What makes Celo blockchain environmentally friendly?", CeloOptions, 1, Some(CeloExplanation)),
      Question(2, "What is the primary purpose of smart contracts?", ContractOptions, 1, Some(ContractExplanation)),
      Question(3, "In DeFi, what does 'liquidity' refer to?", LiquidityOptions, 1, Some(LiquidityExplanation)),
      Question(4, "What is a key benefit of decentralized applications (dApps)?", DappOptions, 1, Some(DappExplanation)),
      Question(5, "What is the role of gas fees in blockchain transactions?", GasOptions, 1, Some(GasExplanation))
    ]
  }

  const CeloOptions: seq<string> :=
    ["It uses Proof of Work consensus", "It uses Proof of Stake consensus",
     "It doesn't use any consensus mechanism", "It only runs on solar power"]
  const CeloExplanation: string :=
    "Celo uses Proof of Stake consensus which requires significantly less energy than Proof of Work."
  const ContractOptions: seq<string> :=
    ["To store cryptocurrency", "To automatically execute agreements when conditions are met",
     "To mine new tokens", "To create user interfaces"]
  const ContractExplanation: string :=
    "Smart contracts automatically execute predefined actions when specific conditions are met, eliminating the need for intermediaries."
  const LiquidityOptions: seq<string> :=
    ["The speed of transactions", "The ease of converting assets to cash",
     "The number of users on a platform", "The security of a protocol"]
  const LiquidityExplanation: string :=
    "Liquidity refers to how easily an asset can be converted to cash or other assets without significantly affecting its price."
  const DappOptions: seq<string> :=
    ["They are faster than traditional apps", "They cannot be censored or shut down by a single authority",
     "They are always free to use", "They don't require internet connection"]
  const DappExplanation: string :=
    "dApps run on decentralized networks, making them resistant to censorship and single points of failure."
  const GasOptions: seq<string> :=
    ["To purchase cryptocurrency", "To incentivize validators and prevent spam",
     "To store data permanently", "To create new smart contracts"]
  const GasExplanation: string :=
    "Gas fees compensate network validators for processing transactions and help prevent spam by making it costly to flood the network."

  /** The built-in quiz has five questions, and each right answer is one of its question's options. */
  lemma SampleQuestionsWellFormed()
    ensures |SampleQuestions()| == 5
    ensures forall i :: 0 <= i < |SampleQuestions()| ==>
      0 <= SampleQuestions()[i].correctAnswer < |SampleQuestions()[i].options|
  {
  }

  /**
   * The component's state. `selectedAnswers` is a JavaScript array written
   * at arbitrary indices, so it is a map from question index to the chosen
   * option; a missing key is an `undefined` slot.
   */
  datatype QuizState = QuizState(
    currentQuestion: nat,
    selectedAnswers: map<nat, int>,
    showAnswer: bool,
    quizCompleted: bool,
    score: nat)

  /** The state the component starts in, and the one a retake restores. */
  function Initial(): QuizState {
    QuizState(0, map[], false, false, 0)
  }

  /** The questions whose recorded answer is the right one. */
  function CorrectlyAnswered(qs: seq<Question>, answers: map<nat, int>): set<nat> {
    set k | k in answers && k < |qs| && answers[k] == qs[k].correctAnswer
  }

  /**
   * The progress bar's numerator: the current index, plus one once its
   * answer is revealed. It counts the answered questions only in states
   * reached through the next button (see AnsweredCountsAnswers).
   */
  function Answered(s: QuizState): nat {
    s.currentQuestion + if s.showAnswer then 1 else 0
  }

  /**
   * The invariant every reachable state keeps: the index is in range, only
   * questions up to the current one have answers, the current one has an
   * answer exactly when it is revealed, the results screen is only reached
   * from the last question, and the score counts the right answers recorded.
   */
  predicate Inv(qs: seq<Question>, s: QuizState) {
    && s.currentQuestion < |qs|
    && (forall k :: k in s.selectedAnswers ==> k <= s.currentQuestion)
    && (s.showAnswer <==> s.currentQuestion in s.selectedAnswers)
    && (s.quizCompleted ==> s.currentQuestion == |qs| - 1)
    && s.score == |CorrectlyAnswered(qs, s.selectedAnswers)|
  }

  /**
   * Choosing option `answerIndex`. Ignored once the answer is revealed;
   * otherwise it records the choice for the current question, reveals the
   * answer and adds one to the score when the choice is the right one. The
   * source reveals after a 300 ms timer; here the reveal is part of the same
   * event (see ClickAnswerAsWritten for the timer).
   */
  function SelectAnswer(qs: seq<Question>, s: QuizState, answerIndex: int): (r: QuizState)
    requires s.currentQuestion < |qs|
    ensures s.showAnswer ==> r == s
    ensures r.currentQuestion == s.currentQuestion && r.quizCompleted == s.quizCompleted
    ensures r.showAnswer
    ensures !s.showAnswer ==> s.currentQuestion in r.selectedAnswers && r.selectedAnswers[s.currentQuestion] == answerIndex
    ensures forall k :: k != s.currentQuestion ==> (k in r.selectedAnswers <==> k in s.selectedAnswers)
    ensures forall k :: k != s.currentQuestion && k in s.selectedAnswers ==> r.selectedAnswers[k] == s.selectedAnswers[k]
    ensures !s.showAnswer ==> (r.score == s.score + 1 <==> answerIndex == qs[s.currentQuestion].correctAnswer)
    ensures !s.showAnswer ==> (r.score == s.score <==> answerIndex != qs[s.currentQuestion].correctAnswer)
  {
    if s.showAnswer then s
    else
      s.(selectedAnswers := s.selectedAnswers[s.currentQuestion := answerIndex],
         showAnswer := true,
         score := if answerIndex == qs[s.currentQuestion].correctAnswer then s.score + 1 else s.score)
  }

  /** "Next question" / "View results". */
  function Next(qs: seq<Question>, s: QuizState): (r: QuizState)
    ensures r.selectedAnswers == s.selectedAnswers && r.score == s.score
    ensures s.currentQuestion < |qs| - 1 ==>
      r.currentQuestion == s.currentQuestion + 1 && !r.showAnswer && r.quizCompleted == s.quizCompleted
    ensures s.currentQuestion >= |qs| - 1 ==>
      r.currentQuestion == s.currentQuestion && r.showAnswer == s.showAnswer && r.quizCompleted
    ensures s.currentQuestion < |qs| ==> r.currentQuestion < |qs|
  {
    if s.currentQuestion < |qs| - 1 then s.(currentQuestion := s.currentQuestion + 1, showAnswer := false)
    else s.(quizCompleted := true)
  }

  /** The feedback panel's verdict: the recorded answer for the current question is the right one. */
  predicate IsCorrect(qs: seq<Question>, s: QuizState)
    requires s.currentQuestion < |qs|
    ensures IsCorrect(qs, s) <==> s.currentQuestion in CorrectlyAnswered(qs, s.selectedAnswers)
  {
    s.currentQuestion in s.selectedAnswers
    && s.selectedAnswers[s.currentQuestion] == qs[s.currentQuestion].correctAnswer
  }

  /** The next button is rendered only while the answer is revealed on the question screen. */
  predicate NextOffered(s: QuizState) {
    s.showAnswer && !s.quizCompleted
  }

  /**
   * No question before the current one was skipped. Every state reached by
   * choosing options and following the next button keeps this; a "next"
   * without a revealed answer would break it.
   */
  predicate AnsweredInOrder(s: QuizState) {
    forall k: nat :: k < s.currentQuestion ==> k in s.selectedAnswers
  }

  lemma InitialInv(qs: seq<Question>)
    requires |qs| > 0
    ensures Inv(qs, Initial()) && AnsweredInOrder(Initial())
  {
  }

  lemma {:induction false} SelectPreservesInv(qs: seq<Question>, s: QuizState, answerIndex: int)
    requires Inv(qs, s)
    ensures Inv(qs, SelectAnswer(qs, s, answerIndex))
  {
    if !s.showAnswer {
      var r := SelectAnswer(qs, s, answerIndex);
      var q := s.currentQuestion;
      var before := CorrectlyAnswered(qs, s.selectedAnswers);
      var after := CorrectlyAnswered(qs, r.selectedAnswers);
      assert q !in before;
      if answerIndex == qs[q].correctAnswer {
        assert after == before + {q};
      } else {
        assert after == before;
      }
    }
  }

  lemma NextPreservesInv(qs: seq<Question>, s: QuizState)
    requires Inv(qs, s)
    ensures Inv(qs, Next(qs, s))
  {
  }

  /** Choosing an option never leaves an earlier question unanswered. */
  lemma SelectKeepsOrder(qs: seq<Question>, s: QuizState, answerIndex: int)
    requires s.currentQuestion < |qs| && AnsweredInOrder(s)
    ensures AnsweredInOrder(SelectAnswer(qs, s, answerIndex))
  {
  }

  /** Following the next button, shown only after a reveal, skips no question. */
  lemma NextKeepsOrder(qs: seq<Question>, s: QuizState)
    requires Inv(qs, s) && AnsweredInOrder(s) && NextOffered(s)
    ensures AnsweredInOrder(Next(qs, s))
  {
  }

  /** The first `n` question indices. */
  function Prefix(n: nat): (r: set<nat>)
    ensures |r| == n
    ensures forall k: nat :: k in r <==> k < n
  {
    if n == 0 then {}
    else
      var shorter := Prefix(n - 1);
      shorter + {n - 1}
  }

  /** A subset is no larger than its superset. */
  lemma {:induction false} SubsetSize(a: set<nat>, b: set<nat>)
    requires a <= b
    ensures |a| <= |b|
  {
    if a != {} {
      var x :| x in a;
      SubsetSize(a - {x}, b - {x});
    }
  }

  /**
   * In every reachable state the score is at most the number of questions
   * answered, which is at most the number of questions.
   */
  lemma ScoreBound(qs: seq<Question>, s: QuizState)
    requires Inv(qs, s)
    ensures s.score <= Answered(s) <= |qs|
  {
    var prefix := Prefix(Answered(s));
    assert s.selectedAnswers.Keys <= prefix;
    SubsetSize(CorrectlyAnswered(qs, s.selectedAnswers), prefix);
  }

  /**
   * Without skipped questions the recorded answers are exactly those of
   * the first `Answered(s)` questions, so the progress numerator is the
   * number of questions answered.
   */
  lemma AnsweredCountsAnswers(qs: seq<Question>, s: QuizState)
    requires Inv(qs, s) && AnsweredInOrder(s)
    ensures s.selectedAnswers.Keys == Prefix(Answered(s))
    ensures |s.selectedAnswers| == Answered(s)
  {
    assert s.selectedAnswers.Keys == Prefix(Answered(s));
  }

  /**
   * Following the next button from the last question, with no question
   * skipped, opens the results screen with every question answered.
   */
  lemma NextFromLastQuestionCompletes(qs: seq<Question>, s: QuizState)
    requires Inv(qs, s) && AnsweredInOrder(s) && NextOffered(s) && s.currentQuestion == |qs| - 1
    ensures Next(qs, s).quizCompleted && Answered(Next(qs, s)) == |qs|
    ensures forall k: nat :: k < |qs| ==> k in Next(qs, s).selectedAnswers
    ensures Inv(qs, Next(qs, s))
  {
  }

  /** After a choice is revealed, the verdict shown is "correct" exactly when the score went up. */
  lemma VerdictMatchesScore(qs: seq<Question>, s: QuizState, answerIndex: int)
    requires Inv(qs, s) && !s.showAnswer
    ensures var r := SelectAnswer(qs, s, answerIndex);
      IsCorrect(qs, r) <==> r.score == s.score + 1
  {
  }

  // ---------------------------------------------------------------------
  // Score bands of the results screen.

  datatype Band = Green | Yellow | Red

  /** The score as a percentage of the number of questions. */
  function Percentage(score: nat, total: nat): real
    requires total > 0
  {
    (score as real / total as real) * 100.0
  }

  lemma PercentageAtLeast(score: nat, total: nat, bound: nat)
    requires total > 0
    ensures Percentage(score, total) >= bound as real <==> score * 100 >= bound * total
  {
  }

  /**
   * The colour of the final score: green from 80 percent, yellow from 60
   * percent, red below. The three bands are exclusive and cover every score.
   */
  function ScoreColor(score: nat, total: nat): (b: Band)
    requires total > 0
    ensures b == Green <==> score * 100 >= 80 * total
    ensures b == Yellow <==> 60 * total <= score * 100 < 80 * total
    ensures b == Red <==> score * 100 < 60 * total
  {
    PercentageAtLeast(score, total, 80);
    PercentageAtLeast(score, total, 60);
    var percentage := Percentage(score, total);
    if percentage >= 80.0 then Green
    else if percentage >= 60.0 then Yellow
    else Red
  }

  function BandRank(b: Band): nat {
    match b
    case Red => 0
    case Yellow => 1
    case Green => 2
  }

  /** A higher score never gets a lower band. */
  lemma ScoreColorMonotone(lo: nat, hi: nat, total: nat)
    requires total > 0 && lo <= hi
    ensures BandRank(ScoreColor(lo, total)) <= BandRank(ScoreColor(hi, total))
  {
  }

  /** The rounded percentage printed on the results screen (JavaScript's Math.round). */
  function RoundedPercentage(score: nat, total: nat): (r: int)
    requires total > 0
    ensures r as real - 0.5 <= Percentage(score, total) < r as real + 0.5
    ensures 0 <= r && (score <= total ==> r <= 100)
  {
    (Percentage(score, total) + 0.5).Floor
  }

  /** Multiplying by a positive number keeps an order. */
  lemma ScaleKeepsOrder(a: real, b: real, t: real)
    requires t > 0.0
    ensures a >= b <==> a * t >= b * t
  {
    if a >= b {
      assert (a - b) * t >= 0.0;
    } else {
      assert (b - a) * t > 0.0;
    }
  }

  /** The percentage times the number of questions is a hundred times the score. */
  lemma PercentageScaled(score: nat, total: nat)
    requires total > 0
    ensures Percentage(score, total) * total as real == (score * 100) as real
  {
    var t := total as real;
    assert (score as real / t) * t == score as real;
  }

  /** The rounded percentage reaches `bound` exactly when the exact one reaches `bound` - 0.5. */
  lemma RoundedAtLeast(score: nat, total: nat, bound: int)
    requires total > 0
    ensures RoundedPercentage(score, total) >= bound <==> 200 * score >= (2 * bound - 1) * total
  {
    var x := Percentage(score, total);
    var t := total as real;
    var limit := bound as real - 0.5;
    assert RoundedPercentage(score, total) >= bound <==> x >= limit;
    ScaleKeepsOrder(x, limit, t);
    PercentageScaled(score, total);
    assert limit * t == ((2 * bound - 1) * total) as real / 2.0;
  }

  /**
   * The message under the score, chosen by the rounded percentage: the
   * "excellent" message from 79.5 percent, the "good job" one from 59.5
   * percent, "keep studying" below.
   */
  function MessageBand(score: nat, total: nat): (b: Band)
    requires total > 0
    ensures b == Green <==> 200 * score >= 159 * total
    ensures b == Yellow <==> 119 * total <= 200 * score < 159 * total
    ensures b == Red <==> 200 * score < 119 * total
  {
    RoundedAtLeast(score, total, 80);
    RoundedAtLeast(score, total, 60);
    var percentage := RoundedPercentage(score, total);
    if percentage >= 80 then Green
    else if percentage >= 60 then Yellow
    else Red
  }

  /**
   * With the five built-in questions every percentage is a whole number, so
   * the message and the colour of the score always agree, also for a score
   * above five such as a double click can give.
   */
  lemma MessageMatchesColorOnSample(score: nat)
    ensures MessageBand(score, |SampleQuestions()|) == ScoreColor(score, |SampleQuestions()|)
  {
    SampleQuestionsWellFormed();
  }

  /**
   * With other question counts the two can disagree: 159 right out of 200
   * is 79.5 percent, shown with the "excellent" message in yellow.
   */
  lemma MessageAndColorCanDiffer()
    ensures MessageBand(159, 200) == Green && ScoreColor(159, 200) == Yellow
  {
  }

  // ---------------------------------------------------------------------
  // Styling of the answer options.

  datatype OptionLook =
    | Chosen        // before the reveal: the option the user picked
    | Idle          // before the reveal: any other option
    | ShownCorrect  // after the reveal: the right option
    | ShownWrong    // after the reveal: the user's pick, when it is wrong
    | ShownNeutral  // after the reveal: every other option

  function OptionLookOf(showAnswer: bool, selected: Option<int>, index: int, correct: int): (r: OptionLook)
    ensures r == Chosen <==> !showAnswer && selected == Some(index)
    ensures r == ShownCorrect <==> showAnswer && index == correct
    ensures r == ShownWrong <==> showAnswer && selected == Some(index) && index != correct
    ensures showAnswer <==> r in {ShownCorrect, ShownWrong, ShownNeutral}
  {
    if !showAnswer then
      if selected == Some(index) then Chosen else Idle
    else if index == correct then ShownCorrect
    else if selected == Some(index) && selected != Some(correct) then ShownWrong
    else ShownNeutral
  }

  /** The option recorded for the current question, `undefined` when there is none. */
  function SelectedAnswer(s: QuizState): Option<int> {
    if s.currentQuestion in s.selectedAnswers then Some(s.selectedAnswers[s.currentQuestion]) else None
  }

  /**
   * Once revealed, exactly one option of the current question is styled
   * right, at most one is styled wrong, and none is when the choice was right.
   */
  lemma RevealedOptions(qs: seq<Question>, s: QuizState)
    requires Inv(qs, s) && s.showAnswer
    requires 0 <= qs[s.currentQuestion].correctAnswer < |qs[s.currentQuestion].options|
    ensures var q := qs[s.currentQuestion];
      forall i :: 0 <= i < |q.options| ==>
        (OptionLookOf(true, SelectedAnswer(s), i, q.correctAnswer) == ShownCorrect <==> i == q.correctAnswer)
    ensures var q := qs[s.currentQuestion];
      forall i, j :: 0 <= i < j < |q.options| ==>
        !(OptionLookOf(true, SelectedAnswer(s), i, q.correctAnswer) == ShownWrong
          && OptionLookOf(true, SelectedAnswer(s), j, q.correctAnswer) == ShownWrong)
    ensures var q := qs[s.currentQuestion];
      IsCorrect(qs, s) ==>
        forall i :: 0 <= i < |q.options| ==> OptionLookOf(true, SelectedAnswer(s), i, q.correctAnswer) != ShownWrong
  {
  }

  // ---------------------------------------------------------------------
  // The timer as written.

  /**
   * The quiz with its reveal timers: a click records the choice at once and
   * queues a reveal that fires 300 ms later, carrying whether the choice was
   * right for the question shown when it was clicked.
   */
  datatype TimedQuiz = TimedQuiz(view: QuizState, pendingReveals: seq<bool>)

  function ClickAnswerAsWritten(qs: seq<Question>, t: TimedQuiz, answerIndex: int): (r: TimedQuiz)
    requires t.view.currentQuestion < |qs|
    ensures t.view.showAnswer ==> r == t
    ensures !t.view.showAnswer ==>
      r.view.selectedAnswers == t.view.selectedAnswers[t.view.currentQuestion := answerIndex]
      && r.view.currentQuestion == t.view.currentQuestion && r.view.quizCompleted == t.view.quizCompleted
      && r.view.score == t.view.score && !r.view.showAnswer
      && r.pendingReveals == t.pendingReveals + [answerIndex == qs[t.view.currentQuestion].correctAnswer]
  {
    if t.view.showAnswer then t
    else
      TimedQuiz(t.view.(selectedAnswers := t.view.selectedAnswers[t.view.currentQuestion := answerIndex]),
                t.pendingReveals + [answerIndex == qs[t.view.currentQuestion].correctAnswer])
  }

  /** The oldest pending reveal fires. */
  function RevealFiresAsWritten(t: TimedQuiz): (r: TimedQuiz)
    requires |t.pendingReveals| > 0
    ensures r.view.showAnswer && r.pendingReveals == t.pendingReveals[1..]
    ensures r.view.score == t.view.score + if t.pendingReveals[0] then 1 else 0
    ensures r.view.currentQuestion == t.view.currentQuestion && r.view.selectedAnswers == t.view.selectedAnswers
    ensures r.view.quizCompleted == t.view.quizCompleted
  {
    TimedQuiz(t.view.(showAnswer := true, score := if t.pendingReveals[0] then t.view.score + 1 else t.view.score),
              t.pendingReveals[1..])
  }

  /** A single click followed by its reveal is exactly SelectAnswer. */
  lemma SingleClickIsSelect(qs: seq<Question>, s: QuizState, answerIndex: int)
    requires s.currentQuestion < |qs| && !s.showAnswer
    ensures RevealFiresAsWritten(ClickAnswerAsWritten(qs, TimedQuiz(s, []), answerIndex))
            == TimedQuiz(SelectAnswer(qs, s, answerIndex), [])
  {
  }

  /**
   * Two clicks on the right option of the first question before the reveal
   * both score: the score becomes 2 with one question answered.
   */
  lemma DoubleClickScoresTwice(qs: seq<Question>)
    requires |qs| > 0
    ensures var right := qs[0].correctAnswer;
      var t1 := ClickAnswerAsWritten(qs, TimedQuiz(Initial(), []), right);
      var t2 := ClickAnswerAsWritten(qs, t1, right);
      |t2.pendingReveals| == 2 &&
      var t4 := RevealFiresAsWritten(RevealFiresAsWritten(t2));
      t4.view.currentQuestion == 0 && t4.view.score == 2 && t4.view.score > Answered(t4.view)
  {
  }

  /** With the reveal in the click, a second click is ignored. */
  lemma SecondSelectIgnored(qs: seq<Question>, s: QuizState, first: int, second: int)
    requires s.currentQuestion < |qs|
    ensures SelectAnswer(qs, SelectAnswer(qs, s, first), second) == SelectAnswer(qs, s, first)
  {
  }

  // ---------------------------------------------------------------------
  // The component.

  class QuizSession {
    const questions: seq<Question>
    var currentQuestion: nat
    var selectedAnswers: map<nat, int>
    var showAnswer: bool
    var quizCompleted: bool
    var score: nat

    function State(): QuizState
      reads this
    {
      QuizState(currentQuestion, selectedAnswers, showAnswer, quizCompleted, score)
    }

    ghost predicate Valid()
      reads this
    {
      Inv(questions, State())
    }

    constructor (questions: seq<Question>)
      requires |questions| > 0
      ensures Valid() && this.questions == questions && State() == Initial() && AnsweredInOrder(State())
    {
      this.questions := questions;
      currentQuestion := 0;
      selectedAnswers := map[];
      showAnswer := false;
      quizCompleted := false;
      score := 0;
      new;
      InitialInv(questions);
    }

    method HandleAnswerSelect(answerIndex: int)
      requires Valid()
      modifies this
      ensures Valid() && State() == SelectAnswer(questions, old(State()), answerIndex)
      ensures old(AnsweredInOrder(State())) ==> AnsweredInOrder(State())
    {
      if showAnswer {
        return;
      }
      ghost var before := State();
      selectedAnswers := selectedAnswers[currentQuestion := answerIndex];
      showAnswer := true;
      if answerIndex == questions[currentQuestion].correctAnswer {
        score := score + 1;
      }
      SelectPreservesInv(questions, before, answerIndex);
      if AnsweredInOrder(before) {
        SelectKeepsOrder(questions, before, answerIndex);
      }
    }

    method HandleNext()
      requires Valid()
      modifies this
      ensures Valid() && State() == Next(questions, old(State()))
      ensures old(AnsweredInOrder(State()) && NextOffered(State())) ==> AnsweredInOrder(State())
    {
      ghost var before := State();
      if currentQuestion < |questions| - 1 {
        currentQuestion := currentQuestion + 1;
        showAnswer := false;
      } else {
        quizCompleted := true;
      }
      NextPreservesInv(questions, before);
      if AnsweredInOrder(before) && NextOffered(before) {
        NextKeepsOrder(questions, before);
      }
    }

    method ResetQuiz()
      requires Valid()
      modifies this
      ensures Valid() && State() == Initial() && AnsweredInOrder(State())
    {
      currentQuestion := 0;
      selectedAnswers := map[];
      showAnswer := false;
      quizCompleted := false;
      score := 0;
      InitialInv(questions);
    }
  }
}
