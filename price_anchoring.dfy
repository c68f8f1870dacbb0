/** The offer screen of components/price-anchoring.tsx: the perfume
    carousel's tick, the staged reveal of the bonus rows, and the prices the
    screen shows. */
module PriceAnchoring {
  import QuizCommon

  /** Carousel geometry: ten images, each 200 px wide plus a 12 px margin,
      laid out three times over. */
  const ImageCount: nat := 10
  const ImageWidthPx: nat := 200
  const ImageMarginPx: nat := 12
  const CopyWidthPx: nat := (ImageWidthPx + ImageMarginPx) * ImageCount
  const StripWidthPx: nat := CopyWidthPx * 3

  /** Positions are counted in half-pixels, so that the 0.5 px tick is one
      unit; the reset point -(200 + 12) * 10 px is -4240 half-pixels. */
  const ResetPoint: int := -2 * CopyWidthPx

  /** Number of ticks after which the carousel is back where it started. */
  const Period: nat := 2 * CopyWidthPx

  /** The `setPosition` updater run by `animate` on every interval tick. */
  function CarouselStep(prev: int): (next: int)
    ensures prev - 1 <= ResetPoint ==> next == 0
    ensures prev - 1 > ResetPoint ==> next == prev - 1
    ensures ResetPoint < prev <= 0 ==> ResetPoint < next <= 0
  {
    var newPosition := prev - 1;
    if newPosition <= ResetPoint then 0 else newPosition
  }

  /** The position after `ticks` ticks from the initial 0: always within
      (ResetPoint, 0]. */
  function PositionAfter(ticks: nat): (p: int)
    ensures ResetPoint < p <= 0
  {
    if ticks == 0 then 0 else CarouselStep(PositionAfter(ticks - 1))
  }

  /** After k ticks the strip has moved back k half-pixels, modulo one
      period. */
  lemma {:induction false} PositionIsTicksModPeriod(ticks: nat)
    ensures PositionAfter(ticks) == -(ticks % Period)
  {
    if ticks > 0 {
      PositionIsTicksModPeriod(ticks - 1);
      var q, r := (ticks - 1) / Period, (ticks - 1) % Period;
      assert ticks - 1 == q * Period + r;
      if r == Period - 1 {
        ModOfSum(ticks, q + 1, 0);
      } else {
        ModOfSum(ticks, q, r + 1);
      }
    }
  }

  /** The carousel loops: sampled one period apart it is at the same place,
      and it is back at 0 after every whole number of periods. */
  lemma CarouselLoops(ticks: nat, periods: nat)
    ensures PositionAfter(ticks + Period) == PositionAfter(ticks)
    ensures PositionAfter(periods * Period) == 0
  {
    PositionIsTicksModPeriod(ticks);
    PositionIsTicksModPeriod(ticks + Period);
    PositionIsTicksModPeriod(periods * Period);
    var q, r := ticks / Period, ticks % Period;
    ModOfSum(ticks + Period, q + 1, r);
    ModOfSum(periods * Period, periods, 0);
  }

  /** Euclidean remainder by the period, from an explicit quotient. */
  lemma ModOfSum(x: nat, q: nat, r: nat)
    requires r < Period && x == q * Period + r
    ensures x % Period == r
  {
  }

  /** The strip is three copies of the images wide and the visible offset
      stays below -ResetPoint, 4240 half-pixels, which is the width of one
      2120 px copy; so the viewport never runs past the copies drawn after
      the first. */
  lemma OffsetWithinFirstCopy(ticks: nat)
    ensures StripWidthPx == 3 * CopyWidthPx && CopyWidthPx == 2120
    ensures -ResetPoint == 2 * CopyWidthPx
    ensures 0 <= -PositionAfter(ticks) < -ResetPoint
  {
  }

  /** Number of rows in `bonusItems`. */
  const BonusItemCount: nat := 4

  /** `visibleItems` after the reveal loop has run `k` times from the initial
      empty list: exactly the indices 0 .. k-1, in order. */
  function RevealedAfter(k: nat): (r: seq<nat>)
    ensures |r| == k
    ensures forall j :: 0 <= j < k ==> r[j] == j
  {
    if k == 0 then [] else RevealedAfter(k - 1) + [k - 1]
  }

  /** A bonus row is drawn as revealed when its index is in the list. */
  predicate RowRevealed(visibleItems: seq<nat>, index: nat)
  {
    index in visibleItems
  }

  /** After k steps, row i is revealed exactly when i < k. */
  lemma RevealedRows(k: nat, index: nat)
    ensures RowRevealed(RevealedAfter(k), index) <==> index < k
  {
    if index < k {
      assert RevealedAfter(k)[index] == index;
    }
  }

  /** The revealed list only grows, each earlier list a prefix of each
      later one, and holds no index twice. */
  lemma RevealGrows(j: nat, k: nat)
    requires j <= k <= BonusItemCount
    ensures RevealedAfter(j) == RevealedAfter(k)[..j]
    ensures forall a, b :: 0 <= a < b < k ==> RevealedAfter(k)[a] != RevealedAfter(k)[b]
  {
  }

  /** The reveal state of a mounted offer screen. */
  class BonusReveal {
    var visibleItems: seq<nat>
    var showBonusItems: bool

    /** `visibleItems` is what some number of reveal steps, at most one
        per bonus row, produced from the empty list. */
    ghost predicate Valid()
      reads this
      ensures Valid() ==> |visibleItems| <= BonusItemCount
    {
      exists k: nat :: k <= BonusItemCount && visibleItems == RevealedAfter(k)
    }

    constructor ()
      ensures visibleItems == [] && !showBonusItems && Valid()
    {
      visibleItems, showBonusItems := [], false;
      new;
      assert visibleItems == RevealedAfter(0);
    }

    /** The 500 ms mount timer's callback: show the bonus section, then
        append one index per second. The effect runs once per mount, from the
        empty list, and then leaves every row revealed. */
    method ShowItems()
      modifies this
      ensures showBonusItems
      ensures visibleItems == old(visibleItems) + RevealedAfter(BonusItemCount)
      ensures old(visibleItems) == [] ==> Valid() && visibleItems == RevealedAfter(BonusItemCount)
    {
      showBonusItems := true;
      for i := 0 to BonusItemCount
        invariant showBonusItems
        invariant visibleItems == old(visibleItems) + RevealedAfter(i)
      {
        visibleItems := visibleItems + [i];
      }
      if old(visibleItems) == [] {
        assert visibleItems == RevealedAfter(BonusItemCount);
      }
    }
  }

  /** The `discount` the component computes from its prop (never shown). */
  function ComputedDiscount(correctAnswers: nat): nat
  {
    correctAnswers * 25
  }

  /** The `finalPrice` constant (never shown). */
  const ComputedFinalPrice: nat := 50

  /** What the screen shows, in cents, whatever `correctAnswers` is:
      "-$100.00" and "$49.99". */
  const ShownDiscountCents: nat := 10000
  const ShownFinalPriceCents: nat := 4999

  /** The shown discount equals the computed one only for four answers, and
      the shown final price is never the computed constant. */
  lemma ShownPricesAreFixed(correctAnswers: nat)
    ensures ShownDiscountCents == 100 * ComputedDiscount(correctAnswers) <==> correctAnswers == 4
    ensures ShownFinalPriceCents != 100 * ComputedFinalPrice
    ensures ComputedDiscount(correctAnswers) == QuizCommon.DiscountDollars(correctAnswers)
  {
  }
}
