/** The quiz controller of app/psg-quiz.tsx: the variant whose Confirm
    handler is guarded by an `isProcessing` flag.

    Every handler runs atomically on the latest state. The 1500 ms timers
    that `handleAnswer` schedules all have the same delay, so they fire in
    the order they were set: they are kept as a queue of the
    `currentQuestion` value each timer's closure captured at click time. */
module GuardedQuiz {
  import opened QuizCommon

  datatype State = State(
    gameStarted: bool,
    currentQuestion: nat,
    selectedAnswer: Selection,
    correctAnswers: nat,
    quizCompleted: bool,
    isProcessing: bool,
    showNotification: bool,
    pending: seq<nat>)

  /** The state at mount: nothing started, selected, answered or pending. */
  function Init(): State
  {
    State(false, 0, Unselected, 0, false, false, false, [])
  }

  /** The question card is rendered (neither the intro nor the offer screen). */
  predicate OnQuizScreen(s: State)
  {
    s.gameStarted && !s.quizCompleted
  }

  /** The Confirm button is enabled: `disabled={!selectedAnswer || isProcessing}`. */
  predicate ConfirmEnabled(s: State)
  {
    s.selectedAnswer != Unselected && !s.isProcessing
  }

  /** `handleAnswer`: ignored while processing; otherwise raise the guard,
      count the answer whatever option was chosen, show the notification and
      schedule one advance that captures the current question. */
  function Answer(s: State): State
  {
    if s.isProcessing then s
    else s.(isProcessing := true,
            correctAnswers := s.correctAnswers + 1,
            showNotification := true,
            pending := s.pending + [s.currentQuestion])
  }

  /** A timer callback: `nextQuestion` run with the captured question index,
      then `setIsProcessing(false)` (the reset effect on `currentQuestion`
      writes the same value). */
  function Advance(s: State, captured: nat): State
  {
    if captured < QuestionCount - 1 then
      s.(currentQuestion := s.currentQuestion + 1, selectedAnswer := Unselected, isProcessing := false)
    else
      s.(quizCompleted := true, isProcessing := false)
  }

  /** Number of questions the user has got past: all of them once completed. */
  function Answered(s: State): nat
  {
    if s.quizCompleted then QuestionCount else s.currentQuestion
  }

  /** What every reachable state satisfies. */
  predicate Inv(s: State)
  {
    && (!s.gameStarted ==> s == Init())
    && s.currentQuestion < QuestionCount
    && |s.pending| <= 1
    && (s.isProcessing <==> s.pending != [])
    && (s.pending == [] ==> s.correctAnswers == Answered(s))
    && (s.pending != [] ==>
          s.pending[0] == s.currentQuestion && s.correctAnswers == s.currentQuestion + 1 && !s.quizCompleted)
    && (s.quizCompleted ==> s.currentQuestion == QuestionCount - 1)
  }

  /** One event. Buttons and radio items that are not rendered, or are
      disabled, cannot be clicked: such an event changes nothing. */
  function Step(s: State, e: Event): (t: State)
    ensures Inv(s) ==> Inv(t)
    ensures s.quizCompleted ==> t.quizCompleted
    ensures s.correctAnswers <= t.correctAnswers <= s.correctAnswers + 1
  {
    match e
    case Start => if s.gameStarted then s else s.(gameStarted := true)
    case Select(i) => if OnQuizScreen(s) && i < OptionCount then s.(selectedAnswer := Selected(i)) else s
    case Confirm => if OnQuizScreen(s) && ConfirmEnabled(s) then Answer(s) else s
    case TimerFires => if s.pending == [] then s else Advance(s.(pending := s.pending[1..]), s.pending[0])
    case NotificationClosed => s.(showNotification := false)
  }

  /** The state after a sequence of events. */
  function Run(s: State, events: seq<Event>): State
    decreases |events|
  {
    if events == [] then s else Run(Step(s, events[0]), events[1..])
  }

  /** Number of events in the sequence that are timer callbacks. */
  function TimerCount(events: seq<Event>): nat
  {
    if events == [] then 0 else (if events[0] == TimerFires then 1 else 0) + TimerCount(events[1..])
  }

  lemma InitialState()
    ensures Inv(Init())
    ensures !OnQuizScreen(Init()) && Answered(Init()) == 0 && DiscountDollars(Init().correctAnswers) == 0
    ensures Step(Init(), Start) == Init().(gameStarted := true)
  {
  }

  lemma ConfirmWhileProcessingIsNoOp(s: State)
    requires s.isProcessing
    ensures Answer(s) == s && Step(s, Confirm) == s
  {
  }

  /** With nothing selected the Confirm button is disabled, so a click
      changes nothing: no answer is counted and no advance is scheduled. */
  lemma ConfirmWithoutSelectionIsNoOp(s: State)
    requires s.selectedAnswer == Unselected
    ensures !ConfirmEnabled(s) && Step(s, Confirm) == s
  {
  }

  /** A Confirm click has an effect exactly when the question card is shown,
      an option is selected and no advance is being processed. */
  lemma ConfirmTakesEffectIff(s: State)
    ensures Step(s, Confirm) != s <==>
      OnQuizScreen(s) && s.selectedAnswer != Unselected && !s.isProcessing
  {
  }

  /** An accepted Confirm counts one answer, whichever option was selected,
      shows the notification and schedules exactly one advance. */
  lemma AcceptedConfirm(s: State)
    requires Inv(s) && OnQuizScreen(s) && ConfirmEnabled(s)
    ensures var t := Step(s, Confirm);
      && t.correctAnswers == s.correctAnswers + 1
      && t.showNotification && t.isProcessing
      && t.pending == [s.currentQuestion]
      && t.currentQuestion == s.currentQuestion && t.selectedAnswer == s.selectedAnswer
      && !ConfirmEnabled(t)
  {
  }

  /** The pending advance moves to the next question, or completes the quiz
      on the last one; either way the guard is lowered. */
  lemma AdvanceOutcome(s: State)
    requires Inv(s) && s.pending != []
    ensures var t := Step(s, TimerFires);
      && t.pending == [] && !t.isProcessing
      && (s.currentQuestion < QuestionCount - 1 ==>
            t.currentQuestion == s.currentQuestion + 1 && t.selectedAnswer == Unselected && !t.quizCompleted)
      && (s.currentQuestion == QuestionCount - 1 ==>
            t.currentQuestion == s.currentQuestion && t.quizCompleted)
  {
  }

  /** Every sequence of events keeps the invariant. */
  lemma {:induction false} RunKeepsInv(s: State, events: seq<Event>)
    requires Inv(s)
    ensures Inv(Run(s, events))
    decreases |events|
  {
    if events != [] {
      RunKeepsInv(Step(s, events[0]), events[1..]);
    }
  }

  /** From mount, whatever the user does: the question card only ever reads
      an existing question, the discount is 25 dollars per question answered
      once no advance is pending, and a completed quiz holds four answers. */
  lemma {:induction false} ReachableStates(events: seq<Event>)
    ensures var s := Run(Init(), events);
      && (OnQuizScreen(s) ==> s.currentQuestion < QuestionCount)
      && |s.pending| <= 1
      && (s.pending == [] ==> DiscountDollars(s.correctAnswers) == UnitDollars * Answered(s))
      && (s.quizCompleted ==> s.correctAnswers == QuestionCount && FinalPriceCents(s.correctAnswers) == 5000)
  {
    InitialState();
    RunKeepsInv(Init(), events);
  }

  /** However often Confirm is clicked while no timer fires, at most one
      answer is counted, and none while an advance is already pending. */
  lemma {:induction false} NoDoubleCount(s: State, events: seq<Event>)
    requires TimerCount(events) == 0
    ensures Run(s, events).correctAnswers <= s.correctAnswers + (if s.isProcessing then 0 else 1)
    decreases |events|
  {
    if events != [] {
      var t := Step(s, events[0]);
      assert events[0] != TimerFires;
      NoDoubleCount(t, events[1..]);
    }
  }

  /** Once completed, no event undoes it, and nothing but the notification
      flag changes any more. */
  lemma {:induction false} CompletedIsTerminal(s: State, events: seq<Event>)
    requires Inv(s) && s.quizCompleted
    ensures Run(s, events).quizCompleted
    ensures Run(s, events).(showNotification := false) == s.(showNotification := false)
    decreases |events|
  {
    if events != [] {
      CompletedIsTerminal(Step(s, events[0]), events[1..]);
    }
  }

  /** The component's state, updated in place by its event handlers. */
  class Controller {
    var gameStarted: bool
    var currentQuestion: nat
    var selectedAnswer: Selection
    var correctAnswers: nat
    var quizCompleted: bool
    var isProcessing: bool
    var showNotification: bool
    /** Captured question index of each timer not yet fired, oldest first. */
    var pending: seq<nat>

    ghost function Snapshot(): State
      reads this
    {
      State(gameStarted, currentQuestion, selectedAnswer, correctAnswers,
            quizCompleted, isProcessing, showNotification, pending)
    }

    ghost predicate Valid()
      reads this
    {
      Inv(Snapshot())
    }

    /** The `discount` the component derives on every render. */
    function Discount(): (d: nat)
      reads this
      ensures d == DiscountDollars(correctAnswers)
    {
      correctAnswers * 25
    }

    /** The `finalPrice` the component derives on every render, in cents. */
    function FinalPrice(): (p: int)
      reads this
      ensures p == FinalPriceCents(correctAnswers)
    {
      var reduced := 15000 - 100 * Discount();
      if reduced < 4999 then 4999 else reduced
    }

    constructor ()
      ensures Snapshot() == Init() && Valid()
    {
      gameStarted, currentQuestion, selectedAnswer := false, 0, Unselected;
      correctAnswers, quizCompleted, isProcessing := 0, false, false;
      showNotification, pending := false, [];
    }

    /** The intro screen's start button (video pause and tracking left out). */
    method ClickStart()
      requires Valid()
      modifies this
      ensures Snapshot() == Step(old(Snapshot()), Start) && Valid()
    {
      if !gameStarted {
        gameStarted := true;
      }
    }

    /** The radio group's `onValueChange`. */
    method SelectOption(option: nat)
      requires Valid()
      modifies this
      ensures Snapshot() == Step(old(Snapshot()), Select(option)) && Valid()
    {
      if gameStarted && !quizCompleted && option < OptionCount {
        selectedAnswer := Selected(option);
      }
    }

    /** The Confirm button: runs `handleAnswer` when it is shown and enabled. */
    method ClickConfirm()
      requires Valid()
      modifies this
      ensures Snapshot() == Step(old(Snapshot()), Confirm) && Valid()
    {
      if gameStarted && !quizCompleted && selectedAnswer != Unselected && !isProcessing {
        HandleAnswer();
      }
    }

    method HandleAnswer()
      modifies this
      ensures Snapshot() == Answer(old(Snapshot()))
    {
      if isProcessing {
        return;
      }
      isProcessing := true;
      correctAnswers := correctAnswers + 1;
      showNotification := true;
      pending := pending + [currentQuestion];
    }

    method NextQuestion(captured: nat)
      modifies this
      ensures Snapshot() == Advance(old(Snapshot()), captured)
    {
      if captured < QuestionCount - 1 {
        currentQuestion := currentQuestion + 1;
        selectedAnswer := Unselected;
      } else {
        quizCompleted := true;
        isProcessing := false;
      }
      isProcessing := false;
    }

    /** The oldest pending auto-advance timer goes off. */
    method FireTimer()
      requires Valid()
      modifies this
      ensures Snapshot() == Step(old(Snapshot()), TimerFires) && Valid()
    {
      if pending == [] {
        return;
      }
      var captured := pending[0];
      pending := pending[1..];
      NextQuestion(captured);
    }

    /** The success notification's `onClose`. */
    method CloseNotification()
      requires Valid()
      modifies this
      ensures Snapshot() == Step(old(Snapshot()), NotificationClosed) && Valid()
    {
      showNotification := false;
    }
  }
}
