# Quiz funnel state machine, in Dafny

This project models the logic of a marketing quiz funnel written as React
components. A visitor starts the quiz, answers four multiple-choice
questions, and reaches an offer screen. Every confirmed answer earns a $25
discount, whatever option was picked. The offer screen scrolls a perfume
carousel and reveals four bonus rows one after another.

Three source files are modelled:

- `app/psg-quiz.tsx` is the quiz controller with an `isProcessing` guard
  against double submission. It is module `GuardedQuiz` in `guarded_quiz.dfy`.
- `psg-quiz.tsx` is a second variant of the same controller, without that
  guard. It is module `UnguardedQuiz` in `unguarded_quiz.dfy`.
- `components/price-anchoring.tsx` is the offer screen. It is module
  `PriceAnchoring` in `price_anchoring.dfy`.

Module `OfferOutcome` (`offer_outcome.dfy`) links each quiz controller to the
offer screen. It relates the discount each quiz counts to the one the offer
screen shows.

`QuizCommon` (`quiz_common.dfy`) holds what the two controllers share: the
question and option counts, the selection value, the user events, and the
`discount` / `finalPrice` arithmetic in integer cents
(`finalPrice = max(15000 - 2500 * correctAnswers, 4999)` cents).

Each controller is modelled twice over:

- **A pure state machine.** A `State` datatype holds the component's
  fields. `Step(s, e)` applies one event and `Run(s, events)` applies a
  sequence of them. The properties are lemmas about these functions.
- **A class `Controller`.** Its fields are the same state fields and its
  methods are the event handlers. Each method is proved to change the
  fields exactly as `Step` does.

The events are:

- `Start`: the intro button.
- `Select(i)`: the radio group.
- `Confirm`: the Confirm button.
- `TimerFires`: the oldest pending 1500 ms auto-advance timer runs.
- `NotificationClosed`: the success notification calls `onClose`.

The pending timers form a FIFO queue. They all share one delay, so they
fire in the order they were set. Each queue entry records the
`currentQuestion` value that the timer's closure captured at click time.
`nextQuestion` chooses its branch from that captured value, then
increments the latest index through a functional update.

Some events only exist on certain screens. A button that is not rendered,
or is disabled, cannot be clicked, so such an event changes nothing. Start
exists only on the intro screen. Select and Confirm exist only on the
question card. Confirm also needs the button's `disabled` rule to be false.

Positions on the offer screen's carousel are counted in half-pixels. This
makes the 0.5 px tick exact: each tick moves the strip by 1, and the reset
point is -4240.

Three behaviours of the code are worth stating plainly:

- Submitting with no selection is prevented only by the button's
  `disabled` rule. `handleAnswer` itself does not check the selection.
- In `psg-quiz.tsx` nothing caps the discount at $100 (see Findings).
- The carousel resets when the offset reaches the reset point, not only
  when it goes past it. The reset point is one copy of the images
  (2120 px), not the full strip width.

## Model

| member | source | states |
|---|---|---|
| `QuizCommon.FinalPriceCents` | app/psg-quiz.tsx:397-399 | `finalPrice` in cents is at least the 4999 floor and at most 15000. It equals 15000 - 2500 n for n <= 4 answers, so it is 5000 after the fourth answer; the floor applies only beyond four answers. The same formula is in psg-quiz.tsx:243-245 |
| `GuardedQuiz.Step` | app/psg-quiz.tsx:362-395 | Every event keeps the reachable-state invariant. It never clears `quizCompleted` and raises `correctAnswers` by at most one |
| `GuardedQuiz.InitialState` | app/psg-quiz.tsx:156-166 | At mount: not started, question 0, no selection, 0 answers, not completed, not processing, nothing pending, and the invariant holds. Start sets only `gameStarted` (lines 505-521) |
| `GuardedQuiz.ConfirmWhileProcessingIsNoOp` | app/psg-quiz.tsx:362-364 | While `isProcessing`, `handleAnswer` and a Confirm click change no field |
| `GuardedQuiz.ConfirmWithoutSelectionIsNoOp` | app/psg-quiz.tsx:641 | With no option selected the button is disabled, and a Confirm click changes no field: no answer counted, no advance scheduled |
| `GuardedQuiz.ConfirmTakesEffectIff` | app/psg-quiz.tsx:641 | A Confirm click changes the state if and only if the card is shown, an option is selected and nothing is processing |
| `GuardedQuiz.AcceptedConfirm` | app/psg-quiz.tsx:366-382 | An accepted Confirm adds exactly one answer, whatever option was selected. It sets `showNotification` and `isProcessing`, schedules exactly one advance capturing the current index, leaves index and selection alone, and disables the button |
| `GuardedQuiz.AdvanceOutcome` | app/psg-quiz.tsx:379-395 | The pending advance below the last question increments the index and clears the selection. On the last question it sets `quizCompleted` and keeps the index. Either way nothing stays pending and `isProcessing` ends false (with the reset effect, lines 175-177) |
| `GuardedQuiz.RunKeepsInv` | app/psg-quiz.tsx:362-395 | Any event sequence preserves the invariant: index in 0..3, at most one pending advance, `isProcessing` iff an advance is pending, and `correctAnswers` equals the questions passed once nothing is pending |
| `GuardedQuiz.ReachableStates` | app/psg-quiz.tsx:622-625 | From mount, under any events, the question card only indexes an existing question and at most one advance is pending. With nothing pending, the discount is $25 per question answered. A completed quiz holds exactly 4 answers, so its final price is 5000 cents |
| `GuardedQuiz.NoDoubleCount` | app/psg-quiz.tsx:641 | With no timer firing, any number of clicks counts at most one answer, and none if an advance is already pending |
| `GuardedQuiz.CompletedIsTerminal` | app/psg-quiz.tsx:535-584 | Once completed, no event clears `quizCompleted` and no field other than `showNotification` changes |
| `GuardedQuiz.Controller.Discount` | app/psg-quiz.tsx:397 | The per-render `discount` is $25 times `correctAnswers` |
| `GuardedQuiz.Controller.FinalPrice` | app/psg-quiz.tsx:398-399 | The per-render `finalPrice` agrees with `FinalPriceCents` |
| `GuardedQuiz.Controller.constructor` | app/psg-quiz.tsx:156-166 | A fresh component holds the mount state and satisfies the invariant |
| `GuardedQuiz.Controller.ClickStart` | app/psg-quiz.tsx:505-521 | Updates the fields as the `Start` step does and keeps the invariant |
| `GuardedQuiz.Controller.SelectOption` | app/psg-quiz.tsx:624-635 | Updates the fields as the `Select` step does and keeps the invariant |
| `GuardedQuiz.Controller.ClickConfirm` | app/psg-quiz.tsx:639-641 | Runs `handleAnswer` only when the button is shown and enabled, as the `Confirm` step does |
| `GuardedQuiz.Controller.HandleAnswer` | app/psg-quiz.tsx:362-383 | Changes the fields exactly as `Answer` does on the snapshot |
| `GuardedQuiz.Controller.NextQuestion` | app/psg-quiz.tsx:379-395 | Runs `nextQuestion` with the captured index and then the callback's `setIsProcessing(false)`, changing the fields exactly as `Advance` does |
| `GuardedQuiz.Controller.FireTimer` | app/psg-quiz.tsx:379-382 | Pops the oldest pending advance and runs it, as the `TimerFires` step does, and keeps the invariant |
| `GuardedQuiz.Controller.CloseNotification` | app/psg-quiz.tsx:590 | Clears only `showNotification` |
| `UnguardedQuiz.Step` | psg-quiz.tsx:220-241 | No event clears `quizCompleted` or lowers the index, and `correctAnswers` rises by at most one per event |
| `UnguardedQuiz.StepKeepsSound` | psg-quiz.tsx:220-241 | Every event keeps the unconditional invariant: `correctAnswers` is at least the index plus the pending advances, and every pending advance captured an index already reached |
| `UnguardedQuiz.StepKeepsInv` | psg-quiz.tsx:220-241 | Every event that is not a second Confirm on the same question keeps the guarded controller's invariant (without the flag) |
| `UnguardedQuiz.InitialState` | psg-quiz.tsx:108-114 | At mount all flags are false, the index is 0, nothing is selected or answered, and both invariants hold. Start sets only `gameStarted` (line 308) |
| `UnguardedQuiz.ConfirmWithoutSelectionIsNoOp` | psg-quiz.tsx:419 | With no option selected the button is disabled, and a Confirm click changes no field: no answer counted, no advance queued |
| `UnguardedQuiz.ConfirmTakesEffectIff` | psg-quiz.tsx:417-419 | A Confirm click changes the state if and only if the card is shown and an option is selected |
| `UnguardedQuiz.RepeatedConfirmsCount` | psg-quiz.tsx:220-232 | Every Confirm on the card with a selection adds one answer, shows the notification and queues one more advance. The button stays enabled (line 419), so the next click is accepted too |
| `UnguardedQuiz.AdvanceUsesCapturedIndex` | psg-quiz.tsx:229-241 | An advance branches on its captured index. If that index is below the last, the current index is incremented and the selection cleared. Otherwise `quizCompleted` is set and the index is left alone |
| `UnguardedQuiz.EveryConfirmCounts` | psg-quiz.tsx:220-223 | Over any event sequence, `correctAnswers` grows by exactly the number of Confirm clicks `handleAnswer` handled |
| `UnguardedQuiz.RunKeepsSound` | psg-quiz.tsx:220-241 | Any event sequence keeps the unconditional invariant |
| `UnguardedQuiz.ReachableStatesAreSound` | psg-quiz.tsx:234-241 | From mount, under any events, the index never exceeds the number of answers counted, and every pending advance captured an index already reached |
| `UnguardedQuiz.DisciplinedRunKeepsInv` | psg-quiz.tsx:220-241 | With one Confirm per question, any event sequence keeps the guarded invariant |
| `UnguardedQuiz.DisciplinedReachableStates` | psg-quiz.tsx:400 | With one Confirm per question, the card only indexes existing questions. With nothing pending, the count equals the questions answered, and a completed quiz holds 4 answers |
| `UnguardedQuiz.DoubleConfirmOutcome` | psg-quiz.tsx:417-419 | Answering n questions once and then double-clicking Confirm breaks the one-per-question discipline and counts n + 2 answers. At n = 2 the index reaches 4 without completing; at n = 3 the quiz completes |
| `UnguardedQuiz.DoubleConfirmOverrunsQuestions` | psg-quiz.tsx:400 | A double click on the third question leaves the card due to render with `currentQuestion` = 4; `questions[4]` does not exist, so that render throws |
| `UnguardedQuiz.DoubleConfirmOvercounts` | psg-quiz.tsx:243-245 | A double click on the last question completes the quiz with 5 answers, a $125 discount and the 4999-cent floor price |
| `UnguardedQuiz.Controller.Discount` | psg-quiz.tsx:243 | The per-render `discount` is $25 times `correctAnswers` |
| `UnguardedQuiz.Controller.FinalPrice` | psg-quiz.tsx:244-245 | The per-render `finalPrice` agrees with `FinalPriceCents` |
| `UnguardedQuiz.Controller.constructor` | psg-quiz.tsx:108-114 | A fresh component holds the mount state |
| `UnguardedQuiz.Controller.ClickStart` | psg-quiz.tsx:307-308 | Updates the fields as the `Start` step does and keeps the unconditional invariant |
| `UnguardedQuiz.Controller.SelectOption` | psg-quiz.tsx:402-414 | Updates the fields as the `Select` step does |
| `UnguardedQuiz.Controller.ClickConfirm` | psg-quiz.tsx:417-419 | Runs `handleAnswer` whenever the card shows a selection, as the `Confirm` step does |
| `UnguardedQuiz.Controller.HandleAnswer` | psg-quiz.tsx:220-232 | Changes the fields exactly as `Answer` does |
| `UnguardedQuiz.Controller.NextQuestion` | psg-quiz.tsx:234-241 | Changes the fields exactly as `Advance` does with the captured index |
| `UnguardedQuiz.Controller.FireTimer` | psg-quiz.tsx:229-231 | Pops the oldest pending advance and runs it, as the `TimerFires` step does |
| `UnguardedQuiz.Controller.CloseNotification` | psg-quiz.tsx:368 | Clears only `showNotification` |
| `PriceAnchoring.CarouselStep` | components/price-anchoring.tsx:82-86 | One tick moves the position back one half-pixel when the new value stays above -4240, and resets it to 0 when the new value reaches -4240. It maps (-4240, 0] into itself |
| `PriceAnchoring.PositionAfter` | components/price-anchoring.tsx:78-89 | Starting from 0, the position after any number of ticks stays in (-4240, 0] |
| `PriceAnchoring.PositionIsTicksModPeriod` | components/price-anchoring.tsx:82-89 | After k ticks the position is -(k mod 4240) |
| `PriceAnchoring.CarouselLoops` | components/price-anchoring.tsx:82-89 | Positions sampled 4240 ticks apart are equal, and the position is 0 after every whole number of periods |
| `PriceAnchoring.OffsetWithinFirstCopy` | components/price-anchoring.tsx:84-100 | The strip is three copies (3 x 2120 px) wide and the offset stays below 4240 half-pixels, one 2120 px copy |
| `PriceAnchoring.RevealedAfter` | components/price-anchoring.tsx:166-169 | After k loop steps from the empty list, `visibleItems` is exactly [0, ..., k-1] |
| `PriceAnchoring.RevealedRows` | components/price-anchoring.tsx:221-231 | After k steps, bonus row i is drawn as revealed iff i < k |
| `PriceAnchoring.RevealGrows` | components/price-anchoring.tsx:156-169 | An earlier reveal list is a prefix of every later one, and no index appears twice |
| `PriceAnchoring.BonusReveal.constructor` | components/price-anchoring.tsx:155-157 | At mount nothing is visible, the bonus section is hidden, and the reveal invariant holds (the list is some reveal prefix, so at most 4 rows) |
| `PriceAnchoring.BonusReveal.ShowItems` | components/price-anchoring.tsx:161-172 | Sets `showBonusItems` before the first append and keeps it true. Appends exactly 0, 1, 2, 3 to the previous `visibleItems`, one per loop step. Run once from the mount state, as the effect is, it leaves every row revealed and keeps the reveal invariant |
| `PriceAnchoring.ShownPricesAreFixed` | components/price-anchoring.tsx:178-207 | The shown "-$100.00" matches the computed `discount` only for 4 answers. The shown "$49.99" is never the computed `finalPrice` of 50. The computed discount matches the quiz's |
| `OfferOutcome.GuardedOfferShowsEarnedDiscount` | app/psg-quiz.tsx:551 | Reached through the guarded quiz, the offer's fixed "-$100.00" equals the discount earned |
| `OfferOutcome.UnguardedOfferMisstatesDiscount` | psg-quiz.tsx:335 | Reached through the unguarded quiz after a double click on the last question, the offer shows "-$100.00" although $125 was counted |

## Findings

| source | as written | input that shows it | evidently intended | confidence | as-written member | corrected member |
|---|---|---|---|---|---|---|
| psg-quiz.tsx:220-241 | Confirm stays enabled until an advance clears the selection, and every click schedules another advance that increments the index | Start; answer questions 1 and 2 once; on question 3 select an option, click Confirm twice, let both timers fire: `currentQuestion` becomes 4 on the question card, `questions[4]` is undefined, and reading `.question` from it (line 400) throws a TypeError during render | One advance per question, keeping the index in 0..3, as the `isProcessing` guard of app/psg-quiz.tsx:362-383 enforces | high; not executed | `UnguardedQuiz.DoubleConfirmOverrunsQuestions` | `GuardedQuiz.ReachableStates` |
| psg-quiz.tsx:220-223 | Every accepted click adds $25, with no cap | Answer questions 1-3 once; on question 4 click Confirm twice: the quiz completes with 5 answers ($125), while the offer screen still shows "-$100.00" | At most four answers, so at most $100, as in the guarded variant | high; not executed | `OfferOutcome.UnguardedOfferMisstatesDiscount` | `OfferOutcome.GuardedOfferShowsEarnedDiscount` |

## Left out

- Audio: the setup on first interaction and the three-attempt playback chain (app/psg-quiz.tsx:198-297, psg-quiz.tsx:119-218). These are browser media calls with no state the quiz depends on.
- Video: the mute toggle, the audio-button show/hide timers and the load/error flags (app/psg-quiz.tsx:164-195, 300-307, 457-476). These are DOM manipulation.
- Tracking: the pixel helpers and components/pixel-manager.tsx. These are calls into a third-party script.
- Navigation: `window.open` (Buy Now) and `window.location.reload` (Start Over). A reload remounts the component, which is a fresh `Init()`, not an event on the old state.
- Clock values (16 ms, 500 ms, 1000 ms, 1500 ms, 3000 ms). Timers are ordered events instead. The success notification's own fade timers are left out; only its final `onClose` is modelled.
- React's batched, asynchronous `setState`. Each handler runs atomically on the latest state. The exception is the `currentQuestion` captured by each auto-advance closure, which the model keeps.
- Effect cleanup on unmount: the cleared 500 ms reveal timer and the interval of the carousel.
- The progress-bar percentages (floating point), the question texts, the `correct` and `explanation` fields (never used for scoring), and all markup and styling.
- `GuardedQuiz.Controller.ClickStart`: pausing the intro video and the `Lead` tracking call are not modelled.
- Rendering `questions[currentQuestion]` is not modelled. In psg-quiz.tsx the render at `currentQuestion` = 4 throws, and React unmounts the tree; events applied to the model after that state stand for no real behaviour.
- `PriceAnchoring.BonusReveal.ShowItems`: the four appends run in one call. The one-second waits between them are not separate events interleaved with other events. The loop invariant states the list after each step instead.
