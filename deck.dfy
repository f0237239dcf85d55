/**
 * Vocabulary shared by both versions of CardStackAdapter: card views, the
 * batches of animations the adapter starts, the target lay-outs those batches
 * move the cards to, and the elastic drag offsets of moveCards.
 */
module Deck {
  import opened Wrappers
  import Geometry
  import Gesture
  import JavaInt

  /** mSelectedCardPosition when no card is selected. */
  const INVALID_CARD_POSITION: int := -1

  /** A card view as the adapter sees it: its position tag, its Y and its layout height. */
  datatype CardView = CardView(tag: int, y: real, height: int)

  /** An index outside a Java array or list. */
  datatype Failure = IndexOutOfBounds(index: int, size: int)

  /** The Runnable that an animation batch runs when it ends, before the adapter's completion logic. */
  datatype Callback =
    | NoCallback                 // null
    | AnnounceSelection(view: int) // onClick's runnable for the card view with this tag
    | External(id: nat)          // a caller's Runnable, identified by `id`

  /** A started AnimatorSet: one target Y per card, whether it is a reset, and its Runnable. */
  datatype Batch = Batch(targets: seq<real>, isReset: bool, onEnd: Callback)

  /** What the end of a batch reports to the outside world. */
  datatype Event =
    | Quiet
    | CardSelected(listener: nat, view: int, position: int) // onCardSelected(v, position) on that listener
    | RanExternal(id: nat)                                 // the caller's Runnable ran

  /** The settings setAdapterParams copies from the container (all but the card padding). */
  datatype AdapterConfig = AdapterConfig(
    cardGapBottom: real, cardGap: real, parallaxScale: JavaInt.Int32, parallaxEnabled: bool,
    showInitAnimation: bool, fullCardHeight: int, parentPaddingTop: int)

  /** The state the touch and animation logic changes. */
  datatype DeckState = DeckState(
    touchable: bool, tracker: Gesture.Tracker, selected: int,
    views: seq<Option<CardView>>, pending: seq<Batch>)

  /** getAnimatorForView reduced to its target: (metrics, scroll offset, current card, selected card) to Y. */
  type Hook = (Geometry.Metrics, int, int, int) -> real

  /** The drag settings moveCards reads. */
  datatype Elastic = Elastic(scale: real, parallaxEnabled: bool, parallaxScale: JavaInt.Int32)

  /** A Runnable parameter: null or a caller's Runnable. */
  function RunnableCallback(r: Option<nat>): Callback
  {
    if r.Some? then External(r.value) else NoCallback
  }

  /**
   * The base adapter's getAnimatorForView target: the selected card moves to the
   * slot of card 0 in the expanded layout, every other card to its collapsed slot,
   * both shifted by the container's scroll offset.
   */
  function BaseTarget(m: Geometry.Metrics, offsetTop: int, current: int, selected: int): real
  {
    if current != selected then offsetTop as real + Geometry.FinalY(m, current)
    else offsetTop as real + Geometry.OriginalY(m, 0)
  }

  /** The targets of the batch onClick starts, one per card, from a getAnimatorForView. */
  function SelectionLayout(m: Geometry.Metrics, offsetTop: int, selected: int, target: Hook): seq<real>
  {
    seq(m.count, i => target(m, offsetTop, i, selected))
  }

  /** The targets of the batch resetCards starts: every card back to its expanded slot. */
  function ResetLayout(m: Geometry.Metrics): seq<real>
  {
    seq(m.count, i => Geometry.OriginalY(m, i))
  }

  /** The animator list onClick builds, one getAnimatorForView call per card, in order. */
  method SelectionTargets(m: Geometry.Metrics, offsetTop: int, selected: int, target: Hook)
    returns (targets: seq<real>)
    ensures targets == SelectionLayout(m, offsetTop, selected, target)
  {
    targets := [];
    for i := 0 to m.count
      invariant |targets| == i
      invariant forall k :: 0 <= k < i ==> targets[k] == target(m, offsetTop, k, selected)
    {
      targets := targets + [target(m, offsetTop, i, selected)];
    }
  }

  /** The animator list resetCards builds, one per card, in order. */
  method ResetTargets(m: Geometry.Metrics) returns (targets: seq<real>)
    ensures targets == ResetLayout(m)
  {
    targets := [];
    for i := 0 to m.count
      invariant |targets| == i
      invariant forall k :: 0 <= k < i ==> targets[k] == Geometry.OriginalY(m, k)
    {
      targets := targets + [Geometry.OriginalY(m, i)];
    }
  }

  /** A card list with room for `n` cards and none added yet. */
  function NoCards(n: nat): (r: seq<Option<CardView>>)
    ensures |r| == n && forall i :: 0 <= i < n ==> r[i] == None
    ensures Tagged(r)
  {
    seq(n, _ => None)
  }

  /** The cards once a batch has ended: each card that has a target is at it. */
  function Settled(views: seq<Option<CardView>>, targets: seq<real>): seq<Option<CardView>>
  {
    seq(|views|, i requires 0 <= i < |views| =>
      if i < |targets| && views[i].Some? then Some(views[i].value.(y := targets[i])) else views[i])
  }

  /**
   * How far moveCards pulls card `i` below its expanded slot for a drag of `diff`.
   * The factors are `int` arithmetic, so they wrap around at 32 bits and divide
   * rounding toward zero; only the final products are floating point.
   */
  function DragOffset(e: Elastic, count: nat, i: int, diff: real): real
    requires e.scale != 0.0
  {
    var d := diff / e.scale;
    if e.parallaxEnabled then
      if e.parallaxScale > 0 then d * JavaInt.Div(e.parallaxScale, 3) as real * JavaInt.Wrap(count + 1 - i) as real
      else d * JavaInt.Wrap(i * JavaInt.Div(JavaInt.Wrap(e.parallaxScale * -1), 3) + 1) as real
    else d * JavaInt.Wrap(count * 2 + 1) as real
  }

  /** moveCards' computation of one card's offset, statement by statement. */
  method ElasticOffset(e: Elastic, count: nat, i: int, diff: real) returns (diffCard: real)
    requires e.scale != 0.0
    ensures diffCard == DragOffset(e, count, i, diff)
  {
    diffCard := diff / e.scale;
    if e.parallaxEnabled {
      if e.parallaxScale > 0 {
        diffCard := diffCard * JavaInt.Div(e.parallaxScale, 3) as real * JavaInt.Wrap(count + 1 - i) as real;
      } else {
        var scale := JavaInt.Wrap(e.parallaxScale * -1);
        diffCard := diffCard * JavaInt.Wrap(i * JavaInt.Div(scale, 3) + 1) as real;
      }
    } else {
      diffCard := diffCard * JavaInt.Wrap(count * 2 + 1) as real;
    }
  }

  /**
   * A sufficient bound for the `int` factors of moveCards to stay below 2^31 for
   * every card of a deck of `count`: it bounds `count * q + 1`, above the largest
   * factor `(count - 1) * q + 1`.
   */
  predicate NoWrap(e: Elastic, count: nat)
  {
    && count * 2 + 1 <= JavaInt.MAX_VALUE
    && (e.parallaxEnabled && e.parallaxScale <= 0 ==>
          JavaInt.MIN_VALUE < e.parallaxScale && count * ((-e.parallaxScale) / 3) + 1 <= JavaInt.MAX_VALUE)
  }

  /** The Y moveCards gives card `i`. */
  function DraggedY(m: Geometry.Metrics, e: Elastic, i: int, diff: real): real
    requires e.scale != 0.0
  {
    Geometry.OriginalY(m, i) + DragOffset(e, m.count, i, diff)
  }

  /** The cards after moveCards(position, diff). */
  function Dragged(views: seq<Option<CardView>>, m: Geometry.Metrics, e: Elastic, position: int, diff: real)
    : seq<Option<CardView>>
    requires e.scale != 0.0
  {
    if diff < 0.0 || position < 0 || position >= m.count then
      views
    else
      seq(|views|, i requires 0 <= i < |views| =>
        if position <= i < m.count && views[i].Some? then Some(views[i].value.(y := DraggedY(m, e, i, diff)))
        else views[i])
  }

  /** What the end of a batch reports: its Runnable, and the listener onClick's Runnable calls. */
  function Announce(onEnd: Callback, listener: Option<nat>, selected: int): (ev: Event)
    ensures ev.CardSelected? <==> onEnd.AnnounceSelection? && listener.Some?
    ensures ev.CardSelected? ==> ev.listener == listener.value && ev.view == onEnd.view && ev.position == selected
    ensures ev.RanExternal? <==> onEnd.External?
  {
    match onEnd
    case NoCallback => Quiet
    case AnnounceSelection(v) => if listener.Some? then CardSelected(listener.value, v, selected) else Quiet
    case External(id) => RanExternal(id)
  }

  /** Every card present in the list carries its own position as its tag. */
  predicate Tagged(views: seq<Option<CardView>>)
  {
    forall i :: 0 <= i < |views| && views[i].Some? ==> views[i].value.tag == i
  }

  /** The list holds exactly `n` cards, all present. */
  predicate Complete(views: seq<Option<CardView>>, n: nat)
  {
    |views| == n && forall i :: 0 <= i < n ==> views[i].Some?
  }

  /** Every batch has one target per card. */
  predicate Sized(batches: seq<Batch>, n: nat)
  {
    forall k :: 0 <= k < |batches| ==> |batches[k].targets| == n
  }

  /** Storing card `p` under its own tag keeps the list tagged, and fills slot `p`. */
  lemma StoreKeepsTagged(views: seq<Option<CardView>>, p: int, c: CardView)
    requires Tagged(views) && 0 <= p < |views| && c.tag == p
    ensures Tagged(views[p := Some(c)])
  {
  }

  /** The end of a batch moves cards and nothing else: the same cards, under the same tags and heights. */
  lemma SettledKeepsCards(views: seq<Option<CardView>>, targets: seq<real>, n: nat)
    ensures var s := Settled(views, targets);
            |s| == |views|
            && (forall i :: 0 <= i < |s| ==> s[i].Some? == views[i].Some?)
            && (forall i :: 0 <= i < |s| && s[i].Some? ==>
                  s[i].value.tag == views[i].value.tag && s[i].value.height == views[i].value.height)
            && (Tagged(views) ==> Tagged(s))
            && (Complete(views, n) ==> Complete(s, n))
  {
  }

  /** A drag moves cards and nothing else: the same cards, under the same tags and heights. */
  lemma DraggedKeepsCards(views: seq<Option<CardView>>, m: Geometry.Metrics, e: Elastic, position: int, diff: real)
    requires e.scale != 0.0
    ensures var s := Dragged(views, m, e, position, diff);
            |s| == |views|
            && (forall i :: 0 <= i < |s| ==> s[i].Some? == views[i].Some?)
            && (forall i :: 0 <= i < |s| && s[i].Some? ==>
                  s[i].value.tag == views[i].value.tag && s[i].value.height == views[i].value.height)
            && (Tagged(views) ==> Tagged(s))
            && (Complete(views, m.count) ==> Complete(s, m.count))
  {
  }

  /** In the base selection layout, the cards other than the selected one stay in position order. */
  lemma CollapsedCardsOrdered(m: Geometry.Metrics, offsetTop: int, selected: int, i: int, j: int)
    requires 0.0 < m.cardGapBottom && i < j && i != selected && j != selected
    ensures BaseTarget(m, offsetTop, i, selected) < BaseTarget(m, offsetTop, j, selected)
  {
    Geometry.FinalYIncreasing(m, i, j);
  }

  /**
   * The library's selection batch: the selected card goes to the top slot, every
   * other card to its collapsed Y, both shifted by the scroll offset.
   */
  lemma SelectionLayoutShape(m: Geometry.Metrics, offsetTop: int, selected: int, i: int)
    requires 0 <= i < m.count
    ensures |SelectionLayout(m, offsetTop, selected, BaseTarget)| == m.count
    ensures i == selected ==> SelectionLayout(m, offsetTop, selected, BaseTarget)[i]
                              == offsetTop as real + Geometry.OriginalY(m, 0)
    ensures i != selected ==> SelectionLayout(m, offsetTop, selected, BaseTarget)[i]
                              == offsetTop as real + Geometry.FinalY(m, i)
  {
    assert SelectionLayout(m, offsetTop, selected, BaseTarget)[i] == BaseTarget(m, offsetTop, i, selected);
  }

  /** After a reset settles, the cards are in position order, `cardGap` apart. */
  lemma ResetSettlesInOrder(views: seq<Option<CardView>>, m: Geometry.Metrics, i: int, j: int)
    requires |views| == m.count && 0 <= i < j < m.count && views[i].Some? && views[j].Some?
    ensures var s := Settled(views, ResetLayout(m));
            s[j].value.y - s[i].value.y == (j - i) as real * m.cardGap
            && (0.0 < m.cardGap ==> s[i].value.y < s[j].value.y)
  {
    Geometry.OriginalYSpacing(m, i, j);
    if 0.0 < m.cardGap {
      Geometry.OriginalYIncreasing(m, i, j);
    }
  }

  /**
   * A downward drag pulls each card from the touched one on down, never up, as
   * long as the `int` factors do not wrap.
   */
  lemma DragOffsetNonNegative(e: Elastic, count: nat, i: int, diff: real)
    requires 0.0 < e.scale && 0.0 <= diff && 0 <= i < count && NoWrap(e, count)
    ensures 0.0 <= DragOffset(e, count, i, diff)
  {
    var d := diff / e.scale;
    assert 0.0 <= d;
    if e.parallaxEnabled && e.parallaxScale > 0 {
      var q := JavaInt.Div(e.parallaxScale, 3);
      var f := JavaInt.Wrap(count + 1 - i);
      assert 0 <= q && f == count + 1 - i;
      ProductNonNegative(d, q as real);
      ProductNonNegative(d * q as real, f as real);
    } else if e.parallaxEnabled {
      var f := JavaInt.Wrap(i * JavaInt.Div(JavaInt.Wrap(e.parallaxScale * -1), 3) + 1);
      NegativeScaleFactor(e.parallaxScale, count, i);
      ProductNonNegative(d, f as real);
    } else {
      var f := JavaInt.Wrap(count * 2 + 1);
      assert f == count * 2 + 1;
      ProductNonNegative(d, f as real);
    }
  }

  /**
   * Without that bound the offset can be negative: with a parallax scale of
   * -1000000000, card 7 of a deck of eight gets the factor 7 * 333333333 + 1,
   * which wraps to -1961633964, so a downward drag lifts it.
   */
  lemma WrappedOffsetLiftsCard()
    ensures var e := Elastic(1.0, true, -1000000000);
            !NoWrap(e, 8) && DragOffset(e, 8, 7, 1.0) == -1961633964.0
  {
    var e := Elastic(1.0, true, -1000000000);
    assert JavaInt.Wrap(e.parallaxScale * -1) == 1000000000;
    assert JavaInt.Div(1000000000, 3) == 333333333;
    assert JavaInt.Wrap(7 * 333333333 + 1) == -1961633964;
  }

  /** With a negative parallax scale inside the bound, card `i`'s factor is its exact, positive value. */
  lemma NegativeScaleFactor(parallaxScale: JavaInt.Int32, count: nat, i: int)
    requires JavaInt.MIN_VALUE < parallaxScale <= 0 && 0 <= i < count
    requires count * ((-parallaxScale) / 3) + 1 <= JavaInt.MAX_VALUE
    ensures 0 < JavaInt.Wrap(i * JavaInt.Div(JavaInt.Wrap(parallaxScale * -1), 3) + 1)
  {
    var q := (-parallaxScale) / 3;
    assert JavaInt.Wrap(parallaxScale * -1) == -parallaxScale;
    assert JavaInt.Div(-parallaxScale, 3) == q;
    ProductBelow(i, count, q);
    assert JavaInt.Wrap(i * q + 1) == i * q + 1;
  }

  lemma ProductBelow(i: int, n: int, q: int)
    requires 0 <= i <= n && 0 <= q
    ensures 0 <= i * q <= n * q
  {
    assert n * q - i * q == (n - i) * q;
  }

  lemma ProductNonNegative(a: real, b: real)
    requires 0.0 <= a && 0.0 <= b
    ensures 0.0 <= a * b
  {
  }

  /**
   * moveCards leaves every card above the touched one alone and, while its `int`
   * factors do not wrap, puts every card from the touched one on at or below its
   * expanded slot.
   */
  lemma DragShape(views: seq<Option<CardView>>, m: Geometry.Metrics, e: Elastic, position: int, diff: real, k: int)
    requires 0.0 < e.scale && 0 <= k < |views| && |views| == m.count
    ensures var r := Dragged(views, m, e, position, diff);
            |r| == |views|
            && (k < position ==> r[k] == views[k])
            && (0.0 <= diff && 0 <= position <= k && views[k].Some? ==>
                  r[k].Some? && r[k].value.tag == views[k].value.tag
                  && (NoWrap(e, m.count) ==> Geometry.OriginalY(m, k) <= r[k].value.y))
  {
    if 0.0 <= diff && 0 <= position <= k && NoWrap(e, m.count) {
      DragOffsetNonNegative(e, m.count, k, diff);
    }
  }

  /** Without parallax, a downward drag moves every card from the touched one on by the same offset. */
  lemma NonParallaxDrag(views: seq<Option<CardView>>, m: Geometry.Metrics, e: Elastic, position: int, diff: real, k: int)
    requires 0.0 < e.scale && !e.parallaxEnabled && 0.0 <= diff
    requires |views| == m.count && 0 <= position <= k < m.count && views[k].Some?
    ensures var r := Dragged(views, m, e, position, diff);
            r[k].Some? && r[k].value.y == Geometry.OriginalY(m, k) + (diff / e.scale) * JavaInt.Wrap(m.count * 2 + 1) as real
  {
  }
}
