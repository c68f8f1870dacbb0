/** The quiz controller of psg-quiz.tsx: the same machine as in
    app/psg-quiz.tsx but without the `isProcessing` guard.

    The Confirm button stays enabled until an advance clears the selection,
    so every click is accepted. Each 1500 ms timer runs the `nextQuestion`
    of the render it was created in: it picks its branch from the
    `currentQuestion` it captured, and then increments the latest index
    through a functional update. */
module UnguardedQuiz {
  import opened QuizCommon

  datatype State = State(
    gameStarted: bool,
    currentQuestion: nat,
    selectedAnswer: Selection,
    correctAnswers: nat,
    quizCompleted: bool,
    showNotification: bool,
    pending: seq<nat>)

  /** The state at mount. */
  function Init(): State
  {
    State(false, 0, Unselected, 0, false, false, [])
  }

  predicate OnQuizScreen(s: State)
  {
    s.gameStarted && !s.quizCompleted
  }

  /** The Confirm button is enabled: `disabled={!selectedAnswer}`. */
  predicate ConfirmEnabled(s: State)
  {
    s.selectedAnswer != Unselected
  }

  /** `handleAnswer`: count the answer, show the notification, schedule an
      advance that captures the current question. No guard. */
  function Answer(s: State): State
  {
    s.(correctAnswers := s.correctAnswers + 1,
       showNotification := true,
       pending := s.pending + [s.currentQuestion])
  }

  /** A timer callback: `nextQuestion` as seen by the closure that captured
      `captured`. */
  function Advance(s: State, captured: nat): State
  {
    if captured < QuestionCount - 1 then
      s.(currentQuestion := s.currentQuestion + 1, selectedAnswer := Unselected)
    else
      s.(quizCompleted := true)
  }

  function Answered(s: State): nat
  {
    if s.quizCompleted then QuestionCount else s.currentQuestion
  }

  /** What holds whatever the user does: the index never runs ahead of the
      answers counted, and every pending timer captured an index already
      reached. */
  predicate Sound(s: State)
  {
    && (!s.gameStarted ==> s == Init())
    && s.correctAnswers >= s.currentQuestion + |s.pending|
    && (forall i :: 0 <= i < |s.pending| ==> s.pending[i] <= s.currentQuestion)
  }

  /** What holds as long as the user confirms each question once: the same
      invariant as the guarded controller, without its flag. */
  predicate Inv(s: State)
  {
    && (!s.gameStarted ==> s == Init())
    && s.currentQuestion < QuestionCount
    && |s.pending| <= 1
    && (s.pending == [] ==> s.correctAnswers == Answered(s))
    && (s.pending != [] ==>
          s.pending[0] == s.currentQuestion && s.correctAnswers == s.currentQuestion + 1 && !s.quizCompleted)
    && (s.quizCompleted ==> s.currentQuestion == QuestionCount - 1)
  }

  /** The event is not a Confirm that would be accepted while an advance is
      still pending, i.e. not a second answer to the same question. */
  predicate OnceForQuestion(s: State, e: Event)
  {
    e == Confirm && OnQuizScreen(s) && ConfirmEnabled(s) ==> s.pending == []
  }

  function Step(s: State, e: Event): (t: State)
    ensures s.quizCompleted ==> t.quizCompleted
    ensures s.currentQuestion <= t.currentQuestion
    ensures s.correctAnswers <= t.correctAnswers <= s.correctAnswers + 1
  {
    match e
    case Start => if s.gameStarted then s else s.(gameStarted := true)
    case Select(i) => if OnQuizScreen(s) && i < OptionCount then s.(selectedAnswer := Selected(i)) else s
    case Confirm => if OnQuizScreen(s) && ConfirmEnabled(s) then Answer(s) else s
    case TimerFires => if s.pending == [] then s else Advance(s.(pending := s.pending[1..]), s.pending[0])
    case NotificationClosed => s.(showNotification := false)
  }

  function Run(s: State, events: seq<Event>): State
    decreases |events|
  {
    if events == [] then s else Run(Step(s, events[0]), events[1..])
  }

  /** Every Confirm in the sequence answers a question not yet answered. */
  predicate OneConfirmPerQuestion(s: State, events: seq<Event>)
    decreases |events|
  {
    events == [] || (OnceForQuestion(s, events[0]) && OneConfirmPerQuestion(Step(s, events[0]), events[1..]))
  }

  /** Number of Confirm clicks in the sequence that `handleAnswer` handled. */
  function AcceptedConfirms(s: State, events: seq<Event>): nat
    decreases |events|
  {
    if events == [] then 0
    else (if events[0] == Confirm && OnQuizScreen(s) && ConfirmEnabled(s) then 1 else 0)
         + AcceptedConfirms(Step(s, events[0]), events[1..])
  }

  lemma InitialState()
    ensures Sound(Init()) && Inv(Init())
    ensures Step(Init(), Start) == Init().(gameStarted := true)
  {
  }

  lemma StepKeepsSound(s: State, e: Event)
    requires Sound(s)
    ensures Sound(Step(s, e))
  {
    var t := Step(s, e);
    match e
    case TimerFires =>
      if s.pending != [] {
        assert forall i :: 0 <= i < |t.pending| ==> t.pending[i] == s.pending[i + 1];
      }
    case Confirm =>
      if OnQuizScreen(s) && ConfirmEnabled(s) {
        assert forall i :: 0 <= i < |s.pending| ==> t.pending[i] == s.pending[i];
      }
    case _ =>
  }

  lemma StepKeepsInv(s: State, e: Event)
    requires Inv(s) && OnceForQuestion(s, e)
    ensures Inv(Step(s, e))
  {
  }

  /** With nothing selected the Confirm button is disabled, so a click
      changes nothing: no answer is counted and no advance is queued. */
  lemma ConfirmWithoutSelectionIsNoOp(s: State)
    requires s.selectedAnswer == Unselected
    ensures !ConfirmEnabled(s) && Step(s, Confirm) == s
  {
  }

  /** A Confirm click has an effect exactly when the question card is shown
      and an option is selected; nothing else disables the button. */
  lemma ConfirmTakesEffectIff(s: State)
    ensures Step(s, Confirm) != s <==> OnQuizScreen(s) && s.selectedAnswer != Unselected
  {
  }

  /** Confirm is accepted again and again while the selection stands: each
      click counts one more answer and schedules one more advance. */
  lemma RepeatedConfirmsCount(s: State)
    requires OnQuizScreen(s) && ConfirmEnabled(s)
    ensures var t := Step(s, Confirm);
      && t.correctAnswers == s.correctAnswers + 1
      && t.showNotification
      && t.pending == s.pending + [s.currentQuestion]
      && t.currentQuestion == s.currentQuestion && t.selectedAnswer == s.selectedAnswer
      && OnQuizScreen(t) && ConfirmEnabled(t)
  {
  }

  /** An advance branches on the index its closure captured, not on the
      current one, and increments the current one. */
  lemma AdvanceUsesCapturedIndex(s: State)
    requires s.pending != []
    ensures var t := Step(s, TimerFires);
      && t.pending == s.pending[1..]
      && (s.pending[0] < QuestionCount - 1 ==>
            t.currentQuestion == s.currentQuestion + 1 && t.selectedAnswer == Unselected
            && t.quizCompleted == s.quizCompleted)
      && (s.pending[0] >= QuestionCount - 1 ==>
            t.currentQuestion == s.currentQuestion && t.quizCompleted)
  {
  }

  /** Every accepted click is counted: there is nothing else that moves
      `correctAnswers`. */
  lemma {:induction false} EveryConfirmCounts(s: State, events: seq<Event>)
    ensures Run(s, events).correctAnswers == s.correctAnswers + AcceptedConfirms(s, events)
    decreases |events|
  {
    if events != [] {
      EveryConfirmCounts(Step(s, events[0]), events[1..]);
    }
  }

  lemma {:induction false} RunKeepsSound(s: State, events: seq<Event>)
    requires Sound(s)
    ensures Sound(Run(s, events))
    decreases |events|
  {
    if events != [] {
      StepKeepsSound(s, events[0]);
      RunKeepsSound(Step(s, events[0]), events[1..]);
    }
  }

  lemma {:induction false} DisciplinedRunKeepsInv(s: State, events: seq<Event>)
    requires Inv(s) && OneConfirmPerQuestion(s, events)
    ensures Inv(Run(s, events))
    decreases |events|
  {
    if events != [] {
      StepKeepsInv(s, events[0]);
      DisciplinedRunKeepsInv(Step(s, events[0]), events[1..]);
    }
  }

  /** If each question is confirmed once, the unguarded controller behaves
      like the guarded one: the card only reads existing questions, and once
      the advance has fired the count equals the questions answered. */
  lemma {:induction false} DisciplinedReachableStates(events: seq<Event>)
    requires OneConfirmPerQuestion(Init(), events)
    ensures var s := Run(Init(), events);
      && (OnQuizScreen(s) ==> s.currentQuestion < QuestionCount)
      && (s.pending == [] ==> s.correctAnswers == Answered(s))
      && (s.quizCompleted ==> s.correctAnswers == QuestionCount)
  {
    InitialState();
    DisciplinedRunKeepsInv(Init(), events);
  }

  /** Whatever the user does, the index never exceeds the number of answers
      counted. */
  lemma {:induction false} ReachableStatesAreSound(events: seq<Event>)
    ensures var s := Run(Init(), events);
      && s.currentQuestion <= s.correctAnswers
      && (forall i :: 0 <= i < |s.pending| ==> s.pending[i] <= s.currentQuestion)
  {
    InitialState();
    RunKeepsSound(Init(), events);
  }

  /** Running the events one at a time. */
  lemma RunFirst(s: State, e: Event, rest: seq<Event>)
    ensures Run(s, [e] + rest) == Run(Step(s, e), rest)
    ensures OneConfirmPerQuestion(s, [e] + rest) <==>
              OnceForQuestion(s, e) && OneConfirmPerQuestion(Step(s, e), rest)
  {
    assert ([e] + rest)[1..] == rest;
  }

  /** The state reached by answering the first `n` questions once each. */
  function AtQuestion(n: nat): State
  {
    Init().(gameStarted := true, currentQuestion := n, correctAnswers := n, showNotification := n > 0)
  }

  /** One round of select, confirm and timer answers question `n` once. */
  lemma OneRound(n: nat)
    requires n < QuestionCount - 1
    ensures Run(AtQuestion(n), [Select(0), Confirm, TimerFires]) == AtQuestion(n + 1)
    ensures OneConfirmPerQuestion(AtQuestion(n), [Select(0), Confirm, TimerFires])
  {
    var s := AtQuestion(n);
    var s1 := Step(s, Select(0));
    var s2 := Step(s1, Confirm);
    RunFirst(s, Select(0), [Confirm, TimerFires]);
    RunFirst(s1, Confirm, [TimerFires]);
    RunFirst(s2, TimerFires, []);
  }

  /** From mount, answering the first `n` questions once each (select the
      first option, confirm, let the timer fire) reaches question `n`. */
  lemma {:induction false} AnswerOnceEach(n: nat)
    requires n < QuestionCount
    ensures Run(Init(), [Start] + OnceEach(n)) == AtQuestion(n)
    ensures OneConfirmPerQuestion(Init(), [Start] + OnceEach(n))
  {
    if n == 0 {
      assert [Start] + OnceEach(0) == [Start];
      RunFirst(Init(), Start, []);
    } else {
      AnswerOnceEach(n - 1);
      var prefix := [Start] + OnceEach(n - 1);
      assert [Start] + OnceEach(n) == prefix + [Select(0), Confirm, TimerFires];
      RunAppend(Init(), prefix, [Select(0), Confirm, TimerFires]);
      DisciplineAppend(Init(), prefix, [Select(0), Confirm, TimerFires]);
      OneRound(n - 1);
    }
  }

  /** `n` rounds of select, confirm and timer. */
  function OnceEach(n: nat): seq<Event>
  {
    if n == 0 then [] else OnceEach(n - 1) + [Select(0), Confirm, TimerFires]
  }

  lemma {:induction false} RunAppend(s: State, a: seq<Event>, b: seq<Event>)
    ensures Run(s, a + b) == Run(Run(s, a), b)
    decreases |a|
  {
    if a == [] {
      assert a + b == b;
    } else {
      assert (a + b)[1..] == a[1..] + b;
      RunAppend(Step(s, a[0]), a[1..], b);
    }
  }

  lemma {:induction false} DisciplineAppend(s: State, a: seq<Event>, b: seq<Event>)
    ensures OneConfirmPerQuestion(s, a + b) <==>
              OneConfirmPerQuestion(s, a) && OneConfirmPerQuestion(Run(s, a), b)
    decreases |a|
  {
    if a == [] {
      assert a + b == b;
    } else {
      assert (a + b)[1..] == a[1..] + b;
      DisciplineAppend(Step(s, a[0]), a[1..], b);
    }
  }

  /** Answer `n` questions once each, then double-click Confirm on the next
      one and let both timers fire. */
  function DoubleConfirmTrace(n: nat): seq<Event>
  {
    [Start] + OnceEach(n) + [Select(0), Confirm, Confirm, TimerFires, TimerFires]
  }

  /** The state reached by `DoubleConfirmTrace(n)`, and the fact that it
      breaks the one-Confirm-per-question discipline. */
  lemma DoubleConfirmOutcome(n: nat)
    requires n < QuestionCount
    ensures !OneConfirmPerQuestion(Init(), DoubleConfirmTrace(n))
    ensures var s := Run(Init(), DoubleConfirmTrace(n));
      && s.correctAnswers == n + 2 && s.pending == []
      && (n < QuestionCount - 2 ==> s.currentQuestion == n + 2 && !s.quizCompleted)
      && (n == QuestionCount - 2 ==> s.currentQuestion == QuestionCount && !s.quizCompleted)
      && (n == QuestionCount - 1 ==> s.currentQuestion == n && s.quizCompleted)
  {
    AnswerOnceEach(n);
    var prefix := [Start] + OnceEach(n);
    var tail := [Select(0), Confirm, Confirm, TimerFires, TimerFires];
    RunAppend(Init(), prefix, tail);
    DisciplineAppend(Init(), prefix, tail);
    var s0 := Run(Init(), prefix);
    var s1 := Step(s0, Select(0));
    var s2 := Step(s1, Confirm);
    var s3 := Step(s2, Confirm);
    var s4 := Step(s3, TimerFires);
    RunFirst(s0, Select(0), tail[1..]);
    RunFirst(s1, Confirm, tail[2..]);
    RunFirst(s2, Confirm, tail[3..]);
    RunFirst(s3, TimerFires, tail[4..]);
    RunFirst(s4, TimerFires, []);
    assert !OnceForQuestion(s2, Confirm);
  }

  /** Without one Confirm per question the index bound fails: after a
      double click on the third question the quiz card is due to render with
      `currentQuestion` equal to the number of questions. `questions[4]` does
      not exist, so reading its `question` text makes that render throw. */
  lemma DoubleConfirmOverrunsQuestions()
    ensures !OneConfirmPerQuestion(Init(), DoubleConfirmTrace(2))
    ensures var s := Run(Init(), DoubleConfirmTrace(2));
      OnQuizScreen(s) && s.currentQuestion == QuestionCount && s.correctAnswers == QuestionCount
  {
    DoubleConfirmOutcome(2);
  }

  /** Without one Confirm per question the count bound fails: a double
      click on the last question completes the quiz with five answers, a
      $125 discount and the floor price. */
  lemma DoubleConfirmOvercounts()
    ensures !OneConfirmPerQuestion(Init(), DoubleConfirmTrace(3))
    ensures var s := Run(Init(), DoubleConfirmTrace(3));
      && s.quizCompleted && s.correctAnswers == QuestionCount + 1
      && DiscountDollars(s.correctAnswers) == 125 && FinalPriceCents(s.correctAnswers) == FloorPriceCents
  {
    DoubleConfirmOutcome(3);
  }

  /** The component's state, updated in place by its event handlers. */
  class Controller {
    var gameStarted: bool
    var currentQuestion: nat
    var selectedAnswer: Selection
    var correctAnswers: nat
    var quizCompleted: bool
    var showNotification: bool
    /** Captured question index of each timer not yet fired, oldest first. */
    var pending: seq<nat>

    ghost function Snapshot(): State
      reads this
    {
      State(gameStarted, currentQuestion, selectedAnswer, correctAnswers,
            quizCompleted, showNotification, pending)
    }

    ghost predicate Valid()
      reads this
    {
      Sound(Snapshot())
    }

    function Discount(): (d: nat)
      reads this
      ensures d == DiscountDollars(correctAnswers)
    {
      correctAnswers * 25
    }

    function FinalPrice(): (p: int)
      reads this
      ensures p == FinalPriceCents(correctAnswers)
    {
      var reduced := 15000 - 100 * Discount();
      if reduced < 4999 then 4999 else reduced
    }

    constructor ()
      ensures Snapshot() == Init() && Valid()
    {
      gameStarted, currentQuestion, selectedAnswer := false, 0, Unselected;
      correctAnswers, quizCompleted := 0, false;
      showNotification, pending := false, [];
    }

    method ClickStart()
      requires Valid()
      modifies this
      ensures Snapshot() == Step(old(Snapshot()), Start) && Valid()
    {
      if !gameStarted {
        gameStarted := true;
      }
    }

    method SelectOption(option: nat)
      requires Valid()
      modifies this
      ensures Snapshot() == Step(old(Snapshot()), Select(option)) && Valid()
    {
      if gameStarted && !quizCompleted && option < OptionCount {
        selectedAnswer := Selected(option);
      }
    }

    method ClickConfirm()
      requires Valid()
      modifies this
      ensures Snapshot() == Step(old(Snapshot()), Confirm) && Valid()
    {
      if gameStarted && !quizCompleted && selectedAnswer != Unselected {
        HandleAnswer();
      }
    }

    method HandleAnswer()
      modifies this
      ensures Snapshot() == Answer(old(Snapshot()))
    {
      correctAnswers := correctAnswers + 1;
      showNotification := true;
      pending := pending + [currentQuestion];
    }

    method NextQuestion(captured: nat)
      modifies this
      ensures Snapshot() == Advance(old(Snapshot()), captured)
    {
      if captured < QuestionCount - 1 {
        currentQuestion := currentQuestion + 1;
        selectedAnswer := Unselected;
      } else {
        quizCompleted := true;
      }
    }

    method FireTimer()
      requires Valid()
      modifies this
      ensures Snapshot() == Step(old(Snapshot()), TimerFires) && Valid()
    {
      if pending == [] {
        return;
      }
      var captured := pending[0];
      pending := pending[1..];
      NextQuestion(captured);
    }

    method CloseNotification()
      requires Valid()
      modifies this
      ensures Snapshot() == Step(old(Snapshot()), NotificationClosed) && Valid()
    {
      showNotification := false;
    }
  }
}
