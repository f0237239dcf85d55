/**
 * The Java version of CardStackAdapter. It keeps its cards in an array that
 * setAdapterParams allocates, reaches its container without null checks, does
 * not move the cards while a finger drags, and lets a subclass override
 * getAnimatorForView: every operation that builds the selection batch takes
 * that override as its `animatorFor` argument (Deck.BaseTarget for the
 * library's own behaviour).
 */
module CardStackJava {
  import opened Wrappers
  import Geometry
  import JavaInt
  import opened Gesture
  import opened Deck
  import CardStack

  class CardStackAdapter {
    const count: nat
    const screenHeight: int
    const dp30: int
    const maxDistanceToConsiderAsClick: real
    const scaleFactorForElasticEffect: real
    /** The views createView makes, reduced to their top padding, one per position. */
    const viewPaddingTop: seq<int>

    var cardGapBottom: real
    var cardGap: real
    var parallaxScale: JavaInt.Int32
    var parallaxEnabled: bool
    var showInitAnimation: bool
    var fullCardHeight: int
    var scrollParent: CardStack.CardStackLayout?
    /** null until setAdapterParams; an entry is None until its view is added. */
    var cardViews: array?<Option<CardView>>
    var screenTouchable: bool
    var tracker: Tracker
    var selectedCardPosition: int
    var parentPaddingTop: int
    var cardPaddingInternal: int
    /** The animation batches started and not yet ended, oldest first. */
    var pending: seq<Batch>
    /** The positions createView was called for, in order. */
    var factoryCalls: seq<int>

    ghost predicate Valid()
      reads this`selectedCardPosition, this`parallaxEnabled, this`parallaxScale, this`pending, this`cardViews,
            cardViews
    {
      && (selectedCardPosition == INVALID_CARD_POSITION || 0 <= selectedCardPosition < count)
      && 0.0 < scaleFactorForElasticEffect
      && |viewPaddingTop| == count
      && (parallaxEnabled ==> parallaxScale != 0)
      && Sized(pending, count)
      && (cardViews != null ==> cardViews.Length == count && Tagged(cardViews[..]))
    }

    /** The container is set and every card has been added. */
    predicate Attached()
      reads this`scrollParent, this`cardViews, cardViews
    {
      scrollParent != null && cardViews != null && Complete(cardViews[..], count)
    }

    function Metrics(): Geometry.Metrics
      reads this`cardGap, this`cardGapBottom, this`parentPaddingTop, this`cardPaddingInternal
    {
      Geometry.Metrics(screenHeight, dp30, count, cardGap, cardGapBottom, parentPaddingTop, cardPaddingInternal)
    }

    function Elastic(): Deck.Elastic
      reads this`parallaxEnabled, this`parallaxScale
    {
      Deck.Elastic(scaleFactorForElasticEffect, parallaxEnabled, parallaxScale)
    }

    function Config(): AdapterConfig
      reads this`cardGapBottom, this`cardGap, this`parallaxScale, this`parallaxEnabled,
            this`showInitAnimation, this`fullCardHeight, this`parentPaddingTop
    {
      AdapterConfig(cardGapBottom, cardGap, parallaxScale, parallaxEnabled,
                    showInitAnimation, fullCardHeight, parentPaddingTop)
    }

    function Parent(): set<CardStack.CardStackLayout>
      reads this`scrollParent
    {
      if scrollParent == null then {} else {scrollParent}
    }

    /** The adapter as its constructor leaves it: `dp8` is 8dp truncated to pixels. */
    constructor (count: nat, screenHeight: int, dp30: int, dp8: int, viewPaddingTop: seq<int>)
      requires 0 < dp8 && |viewPaddingTop| == count
      ensures Valid()
      ensures this.count == count && this.screenHeight == screenHeight && this.dp30 == dp30
      ensures maxDistanceToConsiderAsClick == dp8 as real && scaleFactorForElasticEffect == dp8 as real
      ensures this.viewPaddingTop == viewPaddingTop
      ensures Config() == AdapterConfig(0.0, 0.0, 0, false, false, 0, 0) && cardPaddingInternal == 0
      ensures scrollParent == null && cardViews == null && factoryCalls == [] && pending == []
      ensures !screenTouchable && tracker == Released && selectedCardPosition == INVALID_CARD_POSITION
    {
      this.count := count;
      this.screenHeight := screenHeight;
      this.dp30 := dp30;
      maxDistanceToConsiderAsClick := dp8 as real;
      scaleFactorForElasticEffect := dp8 as real;
      this.viewPaddingTop := viewPaddingTop;
      cardGapBottom, cardGap, parallaxScale, parallaxEnabled, showInitAnimation := 0.0, 0.0, 0, false, false;
      fullCardHeight := 0;
      scrollParent := null;
      cardViews := null;
      screenTouchable := false;
      tracker := Released;
      selectedCardPosition := INVALID_CARD_POSITION;
      parentPaddingTop, cardPaddingInternal := 0, 0;
      pending := [];
      factoryCalls := [];
    }

    /** getScrollOffset: the container's scroll position (the container must be set). */
    function ScrollOffset(): (offset: int)
      requires scrollParent != null
      reads this`scrollParent, scrollParent`scrollY
      ensures offset == scrollParent.scrollY
    {
      scrollParent.scrollY
    }

    /** isCardSelected: under the invariant, true exactly when the selection names a card. */
    function IsCardSelected(): (selected: bool)
      reads this`selectedCardPosition
      ensures selected <==> selectedCardPosition != INVALID_CARD_POSITION
      ensures selectedCardPosition == INVALID_CARD_POSITION || 0 <= selectedCardPosition < count ==>
                (selected <==> 0 <= selectedCardPosition < count)
    {
      selectedCardPosition != INVALID_CARD_POSITION
    }

    /** getCardView: null before setAdapterParams, else the array entry or the array's index error. */
    function GetCardView(position: int): (r: Result<Option<CardView>, Failure>)
      reads this`cardViews, cardViews
      ensures cardViews == null ==> r == Ok(None)
      ensures cardViews != null ==> (r.Err? <==> !(0 <= position < cardViews.Length))
      ensures cardViews != null && r.Ok? ==> r.value == cardViews[position]
    {
      if cardViews == null then Ok(None)
      else if 0 <= position < cardViews.Length then Ok(cardViews[position])
      else Err(IndexOutOfBounds(position, cardViews.Length))
    }

    /**
     * setAdapterParams: remembers the container, allocates a fresh, empty card
     * array, copies the container's settings (parallax is forced off when its
     * scale is 0) and computes the card height.
     */
    method SetAdapterParams(layout: CardStack.CardStackLayout)
      requires Valid()
      modifies this`scrollParent, this`cardViews, this`cardGapBottom, this`cardGap, this`parallaxScale,
               this`parallaxEnabled, this`showInitAnimation, this`parentPaddingTop, this`fullCardHeight
      ensures Valid()
      ensures scrollParent == layout && Config() == CardStack.LayoutConfig(layout, screenHeight, dp30, count)
      ensures cardViews != null && fresh(cardViews) && cardViews[..] == NoCards(count)
    {
      scrollParent := layout;
      cardViews := new Option<CardView>[count](_ => None);
      CopySettings(layout);
    }

    /** The settings part of setAdapterParams. */
    method CopySettings(layout: CardStack.CardStackLayout)
      modifies this`cardGapBottom, this`cardGap, this`parallaxScale,
               this`parallaxEnabled, this`showInitAnimation, this`parentPaddingTop, this`fullCardHeight
      ensures parallaxEnabled ==> parallaxScale != 0
      ensures Config() == CardStack.LayoutConfig(layout, screenHeight, dp30, count)
    {
      cardGapBottom := layout.cardGapBottom;
      cardGap := layout.cardGap;
      parallaxScale := layout.parallaxScale;
      parallaxEnabled := layout.isParallaxEnabled;
      if parallaxEnabled && parallaxScale == 0 {
        parallaxEnabled := false;
      }
      showInitAnimation := layout.isShowInitAnimation;
      parentPaddingTop := layout.paddingTop;
      fullCardHeight := Geometry.FullCardHeight(screenHeight, dp30, count, cardGapBottom);
    }

    /** The Y addView gives card `p`: collapsed if the entrance animation is on, else expanded. */
    function PlacedY(p: int): real
      requires 0 <= p < |viewPaddingTop|
      reads this`showInitAnimation, this`cardGap, this`cardGapBottom, this`parentPaddingTop
    {
      var m := Geometry.Metrics(screenHeight, dp30, count, cardGap, cardGapBottom, parentPaddingTop, viewPaddingTop[p]);
      if showInitAnimation then Geometry.FinalY(m, p)
      else Geometry.OriginalY(m, p) - parentPaddingTop as real
    }

    /**
     * addView(position): asks the factory for the view, takes its top padding,
     * places it (collapsed and untouchable with the entrance animation, else
     * expanded and touchable), stores it and adds it to the container's frame.
     */
    method AddView(position: int)
      requires Valid() && cardViews != null && scrollParent != null && 0 <= position < count
      modifies this`factoryCalls, this`cardPaddingInternal, this`screenTouchable, cardViews,
               scrollParent`frameChildren
      ensures Valid()
      ensures factoryCalls == old(factoryCalls) + [position]
      ensures cardPaddingInternal == viewPaddingTop[position]
      ensures cardViews[..] == old(cardViews[..])[position := Some(CardView(position, PlacedY(position), fullCardHeight))]
      ensures screenTouchable == !showInitAnimation
      ensures scrollParent.frameChildren == old(scrollParent.frameChildren) + [position]
    {
      factoryCalls := factoryCalls + [position];
      cardPaddingInternal := viewPaddingTop[position];
      var y: real;
      if showInitAnimation {
        y := Geometry.FinalY(Metrics(), position);
        screenTouchable := false;
      } else {
        y := Geometry.OriginalY(Metrics(), position) - parentPaddingTop as real;
        screenTouchable := true;
      }
      StoreKeepsTagged(cardViews[..], position, CardView(position, y, fullCardHeight));
      cardViews[position] := Some(CardView(position, y, fullCardHeight));
      scrollParent.frameChildren := scrollParent.frameChildren + [position];
    }

    /**
     * What the container's setAdapter does to this adapter: setAdapterParams,
     * then addView(i) for every position in order. Afterwards every card is in
     * place, so the adapter is attached.
     */
    method Attach(layout: CardStack.CardStackLayout)
      requires Valid()
      modifies this`scrollParent, this`cardViews, this`cardGapBottom, this`cardGap, this`parallaxScale,
               this`parallaxEnabled, this`showInitAnimation, this`parentPaddingTop, this`fullCardHeight,
               this`factoryCalls, this`cardPaddingInternal, this`screenTouchable, layout`frameChildren
      ensures Valid() && Attached() && fresh(cardViews)
      ensures scrollParent == layout && Config() == CardStack.LayoutConfig(layout, screenHeight, dp30, count)
      ensures factoryCalls == old(factoryCalls) + CardStack.Positions(count)
      ensures layout.frameChildren == old(layout.frameChildren) + CardStack.Positions(count)
      ensures forall i :: 0 <= i < count ==> cardViews[i] == Some(CardView(i, PlacedY(i), fullCardHeight))
      ensures screenTouchable == (if count == 0 then old(screenTouchable) else !showInitAnimation)
    {
      SetAdapterParams(layout);
      ghost var config := Config();
      AddCards();
      assert Config() == config;
    }

    /** The setter's loop: addView(i) for i = 0, 1, ..., count - 1. */
    method AddCards()
      requires Valid() && cardViews != null && scrollParent != null && cardViews[..] == NoCards(count)
      modifies this`factoryCalls, this`cardPaddingInternal, this`screenTouchable, cardViews,
               scrollParent`frameChildren
      ensures Valid() && Attached()
      ensures factoryCalls == old(factoryCalls) + CardStack.Positions(count)
      ensures scrollParent.frameChildren == old(scrollParent.frameChildren) + CardStack.Positions(count)
      ensures forall i :: 0 <= i < count ==> cardViews[i] == Some(CardView(i, PlacedY(i), fullCardHeight))
      ensures screenTouchable == (if count == 0 then old(screenTouchable) else !showInitAnimation)
    {
      for i := 0 to count
        invariant Valid()
        invariant factoryCalls == old(factoryCalls) + CardStack.Positions(i)
        invariant scrollParent.frameChildren == old(scrollParent.frameChildren) + CardStack.Positions(i)
        invariant forall k :: 0 <= k < i ==> cardViews[k] == Some(CardView(k, PlacedY(k), fullCardHeight))
        invariant forall k :: i <= k < count ==> cardViews[k] == None
        invariant screenTouchable == (if i == 0 then old(screenTouchable) else !showInitAnimation)
      {
        AddView(i);
        assert CardStack.Positions(i + 1) == CardStack.Positions(i) + [i];
      }
    }

    /** resetCards(r): starts a reset batch taking every card back to its expanded slot. */
    method ResetCards(r: Option<nat>)
      requires Valid() && Attached()
      modifies this`pending
      ensures Valid() && Attached()
      ensures pending == old(pending) + [Batch(ResetLayout(Metrics()), true, RunnableCallback(r))]
    {
      var targets := ResetTargets(Metrics());
      pending := pending + [Batch(targets, true, RunnableCallback(r))];
    }

    /**
     * The end of the oldest batch: every card is at its target, the batch's
     * Runnable runs, the screen becomes touchable, and a reset also clears the
     * selection and enables scrolling again.
     */
    method FinishAnimation() returns (event: Event)
      requires Valid() && Attached() && pending != []
      modifies cardViews, this`pending, this`screenTouchable, this`selectedCardPosition, scrollParent`isScrollable
      ensures Valid() && Attached()
      ensures pending == old(pending)[1..]
      ensures cardViews[..] == Settled(old(cardViews[..]), old(pending)[0].targets)
      ensures screenTouchable
      ensures event == Announce(old(pending)[0].onEnd, scrollParent.onCardSelectedListener, old(selectedCardPosition))
      ensures old(pending)[0].isReset ==> selectedCardPosition == INVALID_CARD_POSITION && scrollParent.isScrollable
      ensures !old(pending)[0].isReset ==>
                selectedCardPosition == old(selectedCardPosition) && scrollParent.isScrollable == old(scrollParent.isScrollable)
    {
      var batch := pending[0];
      pending := pending[1..];
      ghost var before := cardViews[..];
      SettledKeepsCards(before, batch.targets, count);
      forall i | 0 <= i < cardViews.Length && cardViews[i].Some? && i < |batch.targets| {
        cardViews[i] := Some(cardViews[i].value.(y := batch.targets[i]));
      }
      assert cardViews[..] == Settled(before, batch.targets);
      event := Quiet;
      match batch.onEnd {
        case NoCallback =>
        case AnnounceSelection(v) =>
          screenTouchable := true;
          if scrollParent.onCardSelectedListener.Some? {
            event := CardSelected(scrollParent.onCardSelectedListener.value, v, selectedCardPosition);
          }
        case External(id) =>
          event := RanExternal(id);
      }
      screenTouchable := true;
      if batch.isReset {
        selectedCardPosition := INVALID_CARD_POSITION;
        scrollParent.SetScrollingEnabled(true);
      }
    }

    /**
     * onClick(v): ignored while untouchable; otherwise makes the screen untouchable
     * and disables scrolling, and, when no card is selected, selects the card and
     * starts a batch whose targets come from `animatorFor`.
     */
    method OnClick(view: int, animatorFor: Hook)
      requires Valid() && Attached() && 0 <= view < count
      modifies this`screenTouchable, this`selectedCardPosition, this`pending, scrollParent`isScrollable
      ensures Valid() && Attached()
      ensures !old(screenTouchable) ==>
                screenTouchable == old(screenTouchable) && selectedCardPosition == old(selectedCardPosition)
                && pending == old(pending) && scrollParent.isScrollable == old(scrollParent.isScrollable)
      ensures old(screenTouchable) ==> !screenTouchable && !scrollParent.isScrollable
      ensures old(screenTouchable) && old(selectedCardPosition) == INVALID_CARD_POSITION ==>
                selectedCardPosition == view
                && pending == old(pending) + [Batch(SelectionLayout(Metrics(), ScrollOffset(), view, animatorFor),
                                                    false, AnnounceSelection(view))]
      ensures old(selectedCardPosition) != INVALID_CARD_POSITION ==>
                selectedCardPosition == old(selectedCardPosition) && pending == old(pending)
    {
      if !screenTouchable {
        return;
      }
      screenTouchable := false;
      scrollParent.SetScrollingEnabled(false);
      if selectedCardPosition == INVALID_CARD_POSITION {
        selectedCardPosition := view;
        var targets := SelectionTargets(Metrics(), ScrollOffset(), selectedCardPosition, animatorFor);
        pending := pending + [Batch(targets, false, AnnounceSelection(view))];
      }
    }

    /**
     * moveCards(position, diff): for a downward drag on a card, sets every card
     * from that one to the last at its expanded slot plus the elastic offset.
     * Nothing calls it: the call on ACTION_MOVE is commented out.
     */
    method MoveCards(position: int, diff: real)
      requires Valid() && Attached()
      modifies cardViews
      ensures Valid() && Attached()
      ensures cardViews[..] == Dragged(old(cardViews[..]), Metrics(), Elastic(), position, diff)
    {
      if diff < 0.0 || position < 0 || position >= count {
        return;
      }
      ghost var before := cardViews[..];
      ghost var m := Metrics();
      ghost var e := Elastic();
      for i := position to count
        invariant forall k :: 0 <= k < count ==>
                    cardViews[k] == if position <= k < i then Some(before[k].value.(y := DraggedY(m, e, k, diff)))
                                    else before[k]
      {
        var child := cardViews[i].value;
        var diffCard := Deck.ElasticOffset(Elastic(), count, i, diff);
        cardViews[i] := Some(child.(y := Geometry.OriginalY(Metrics(), i) + diffCard));
      }
      assert cardViews[..] == Dragged(before, m, e, position, diff);
    }

    /**
     * onTouch(v, event) for the card with tag `view` and an event at raw Y `y`.
     * Returns whether the event was consumed. A move only adds to the distance.
     */
    method OnTouch(view: int, action: Action, y: real, animatorFor: Hook) returns (handled: bool)
      requires Valid() && Attached() && 0 <= view < count
      modifies this`tracker, this`screenTouchable, this`selectedCardPosition, this`pending, scrollParent`isScrollable
      ensures Valid() && Attached()
      ensures cardViews[..] == old(cardViews[..])
      // untouchable: refused, nothing changes
      ensures !old(screenTouchable) ==>
                !handled && tracker == old(tracker) && screenTouchable == old(screenTouchable)
                && selectedCardPosition == old(selectedCardPosition) && pending == old(pending)
                && scrollParent.isScrollable == old(scrollParent.isScrollable)
      // a press during a gesture is refused; otherwise it starts one
      ensures old(screenTouchable) && action == Down ==>
                handled == !Tracking(old(tracker))
                && tracker == (if Tracking(old(tracker)) then old(tracker) else Pressed(y))
                && screenTouchable && selectedCardPosition == old(selectedCardPosition) && pending == old(pending)
                && scrollParent.isScrollable == old(scrollParent.isScrollable)
      // a move only adds to the distance
      ensures old(screenTouchable) && action == Move ==>
                handled && tracker == Moved(old(tracker), y)
                && screenTouchable && selectedCardPosition == old(selectedCardPosition) && pending == old(pending)
                && scrollParent.isScrollable == old(scrollParent.isScrollable)
      // a release or cancel ends the gesture; a tap selects a card or resets the deck
      ensures old(screenTouchable) && (action == Up || action == Cancel) ==> !handled && tracker == Released
      ensures old(screenTouchable) && (action == Up || action == Cancel)
              && IsTap(old(tracker), y, maxDistanceToConsiderAsClick)
              && old(selectedCardPosition) == INVALID_CARD_POSITION ==>
                !screenTouchable && selectedCardPosition == view && !scrollParent.isScrollable
                && pending == old(pending) + [Batch(SelectionLayout(Metrics(), ScrollOffset(), view, animatorFor),
                                                    false, AnnounceSelection(view))]
      ensures old(screenTouchable) && (action == Up || action == Cancel)
              && IsTap(old(tracker), y, maxDistanceToConsiderAsClick)
              && old(selectedCardPosition) != INVALID_CARD_POSITION ==>
                screenTouchable && selectedCardPosition == old(selectedCardPosition)
                && scrollParent.isScrollable == old(scrollParent.isScrollable)
                && pending == old(pending) + [Batch(ResetLayout(Metrics()), true, NoCallback)]
      ensures old(screenTouchable) && (action == Up || action == Cancel)
              && !IsTap(old(tracker), y, maxDistanceToConsiderAsClick) ==>
                screenTouchable && selectedCardPosition == old(selectedCardPosition) && pending == old(pending)
                && scrollParent.isScrollable == old(scrollParent.isScrollable)
      // any other action is consumed and changes nothing
      ensures old(screenTouchable) && action.OtherAction? ==>
                handled && tracker == old(tracker) && screenTouchable
                && selectedCardPosition == old(selectedCardPosition) && pending == old(pending)
                && scrollParent.isScrollable == old(scrollParent.isScrollable)
    {
      if !screenTouchable {
        return false;
      }
      if action == Down {
        if tracker.firstY != Unset {
          return false;
        }
        tracker := Tracker(y, y, 0.0);
      } else if action == Move {
        tracker := tracker.(distance := tracker.distance + Abs(y - tracker.prevY));
      } else if action == Up || action == Cancel {
        if tracker.distance < maxDistanceToConsiderAsClick
           && Abs(y - tracker.firstY) < maxDistanceToConsiderAsClick {
          if selectedCardPosition == INVALID_CARD_POSITION {
            OnClick(view, animatorFor);
          } else {
            ResetCards(None);
          }
        }
        tracker := Released;
        return false;
      }
      return true;
    }
  }
}
