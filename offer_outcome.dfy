/** What the offer screen of components/price-anchoring.tsx shows once each
    quiz controller hands it the number of confirmed answers. */
module OfferOutcome {
  import QuizCommon
  import GuardedQuiz
  import UnguardedQuiz
  import PriceAnchoring

  /** Reached through the guarded quiz, the offer screen's fixed "-$100.00"
      is the discount the user actually earned. */
  lemma GuardedOfferShowsEarnedDiscount(events: seq<QuizCommon.Event>)
    ensures var s := GuardedQuiz.Run(GuardedQuiz.Init(), events);
      s.quizCompleted ==>
        PriceAnchoring.ShownDiscountCents == 100 * PriceAnchoring.ComputedDiscount(s.correctAnswers)
  {
    GuardedQuiz.ReachableStates(events);
  }

  /** Reached through the unguarded quiz after a double click on the last
      question, the screen still shows "-$100.00" although $125 was counted. */
  lemma UnguardedOfferMisstatesDiscount()
    ensures var s := UnguardedQuiz.Run(UnguardedQuiz.Init(), UnguardedQuiz.DoubleConfirmTrace(3));
      s.quizCompleted &&
      PriceAnchoring.ShownDiscountCents != 100 * PriceAnchoring.ComputedDiscount(s.correctAnswers)
  {
    UnguardedQuiz.DoubleConfirmOvercounts();
  }
}
