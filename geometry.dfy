/**
 * Card placement in the deck: where card `p` sits when the deck is expanded
 * (getCardOriginalY), where it sits when the deck is collapsed at the bottom
 * of the screen (getCardFinalY), and the height given to every card
 * (fullCardHeight). The Java and the Kotlin adapter use the same formulas,
 * so both are modelled by the functions of this module.
 */
module Geometry {

  /** Everything the placement formulas read from the adapter. */
  datatype Metrics = Metrics(
    screenHeight: int,        // display height in pixels
    dp30: int,                // bottom margin: 30dp truncated to pixels
    count: nat,               // number of cards
    cardGap: real,            // gap between consecutive cards, expanded
    cardGapBottom: real,      // gap between consecutive cards, collapsed
    parentPaddingTop: int,    // top padding of the container
    cardPaddingInternal: int) // top padding of the card view made last

  /** Y of card `p` in the collapsed layout. */
  function FinalY(m: Metrics, p: int): real
  {
    m.screenHeight as real - m.dp30 as real
      - (m.count - p) as real * m.cardGapBottom - m.cardPaddingInternal as real
  }

  /** Y of card `p` in the expanded layout. */
  function OriginalY(m: Metrics, p: int): real
  {
    m.parentPaddingTop as real + m.cardGap * p as real
  }

  /** A float-to-int cast in Java or Kotlin: the fraction is dropped, rounding toward zero. */
  function Truncate(r: real): (n: int)
    ensures 0.0 <= r ==> n as real <= r < n as real + 1.0
    ensures r < 0.0 ==> n as real - 1.0 < r <= n as real
  {
    if r >= 0.0 then r.Floor else -((-r).Floor)
  }

  /** The height every card view is given: the screen above the collapsed stack. */
  function FullCardHeight(screenHeight: int, dp30: int, count: nat, cardGapBottom: real): int
  {
    Truncate(screenHeight as real - dp30 as real - count as real * cardGapBottom)
  }

  /** Two collapsed cards are `cardGapBottom` apart per position between them. */
  lemma FinalYSpacing(m: Metrics, p: int, q: int)
    ensures FinalY(m, q) - FinalY(m, p) == (q - p) as real * m.cardGapBottom
  {
    calc {
      FinalY(m, q) - FinalY(m, p);
      (m.count - p) as real * m.cardGapBottom - (m.count - q) as real * m.cardGapBottom;
      ((m.count - p) as real - (m.count - q) as real) * m.cardGapBottom;
    }
  }

  /** With a positive bottom gap, the collapsed layout keeps cards in position order. */
  lemma FinalYIncreasing(m: Metrics, p: int, q: int)
    requires 0.0 < m.cardGapBottom && p < q
    ensures FinalY(m, p) < FinalY(m, q)
  {
    FinalYSpacing(m, p, q);
    assert 0.0 < (q - p) as real * m.cardGapBottom;
  }

  /** Two expanded cards are `cardGap` apart per position between them. */
  lemma OriginalYSpacing(m: Metrics, p: int, q: int)
    ensures OriginalY(m, q) - OriginalY(m, p) == (q - p) as real * m.cardGap
  {
    calc {
      OriginalY(m, q) - OriginalY(m, p);
      m.cardGap * q as real - m.cardGap * p as real;
      (q as real - p as real) * m.cardGap;
    }
  }

  /** With a positive gap, the expanded layout keeps cards in position order. */
  lemma OriginalYIncreasing(m: Metrics, p: int, q: int)
    requires 0.0 < m.cardGap && p < q
    ensures OriginalY(m, p) < OriginalY(m, q)
  {
    OriginalYSpacing(m, p, q);
    assert 0.0 < (q - p) as real * m.cardGap;
  }

  /**
   * The card height is the space between the top of the screen and the collapsed
   * card 0 (before that card's own padding), the fraction dropped.
   */
  lemma FullCardHeightAboveStack(m: Metrics)
    requires 0.0 <= FinalY(m, 0) + m.cardPaddingInternal as real
    ensures var h := FullCardHeight(m.screenHeight, m.dp30, m.count, m.cardGapBottom);
            h as real <= FinalY(m, 0) + m.cardPaddingInternal as real < h as real + 1.0
  {
    assert FinalY(m, 0) + m.cardPaddingInternal as real
        == m.screenHeight as real - m.dp30 as real - m.count as real * m.cardGapBottom;
  }
}
