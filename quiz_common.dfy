/** Definitions shared by the two quiz controllers: the question fixture's
    shape, the user events a controller reacts to, and the price arithmetic
    both controllers derive from the number of confirmed answers. */
module QuizCommon {

  /** Number of entries in the `questions` fixture. */
  const QuestionCount: nat := 4

  /** Every question offers four options; the radio group yields their
      indices 0..3. */
  const OptionCount: nat := 4

  /** Dollars of discount granted per confirmed answer. */
  const UnitDollars: nat := 25

  /** `originalPrice` (150.0) and the floor of `Math.max` (49.99), in cents. */
  const OriginalPriceCents: nat := 15000
  const FloorPriceCents: nat := 4999

  /** The `selectedAnswer` string: empty, or the decimal text of an option
      index (never empty, so it counts as a selection). */
  datatype Selection = Unselected | Selected(option: nat)

  /** What can happen to a quiz controller. `TimerFires` is the oldest
      pending 1500 ms auto-advance timer going off; `NotificationClosed` is the
      success notification calling its `onClose`. */
  datatype Event =
    | Start
    | Select(option: nat)
    | Confirm
    | TimerFires
    | NotificationClosed

  /** The `discount` value, in dollars. */
  function DiscountDollars(correctAnswers: nat): nat
  {
    UnitDollars * correctAnswers
  }

  /** The `finalPrice` value, in cents: the original price less the discount,
      but never below the floor price. */
  function FinalPriceCents(correctAnswers: nat): (p: int)
    ensures FloorPriceCents <= p <= OriginalPriceCents
    ensures correctAnswers <= QuestionCount ==>
              p == OriginalPriceCents - 100 * DiscountDollars(correctAnswers)
    ensures correctAnswers == QuestionCount ==> p == 5000
    ensures correctAnswers > QuestionCount ==> p == FloorPriceCents
  {
    var reduced := OriginalPriceCents - 100 * DiscountDollars(correctAnswers);
    if reduced < FloorPriceCents then FloorPriceCents else reduced
  }
}
