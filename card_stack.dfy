/**
 * The Kotlin version of the widget: the container CardStackLayout and the
 * Kotlin CardStackAdapter it drives. The two classes refer to each other, so
 * they share one module.
 */
module CardStack {
  import opened Wrappers
  import Geometry
  import JavaInt
  import opened Gesture
  import opened Deck

  const PARALLAX_ENABLED_DEFAULT: bool := false
  const SHOW_INIT_ANIMATION_DEFAULT: bool := true

  /** The XML attributes a layout may be inflated with; None where an attribute is absent. */
  datatype StyledAttributes = StyledAttributes(
    parallaxEnabled: Option<bool>, showInitAnimation: Option<bool>,
    parallaxScale: Option<JavaInt.Int32>, cardGap: Option<real>, cardGapBottom: Option<real>)

  /** The library's resource defaults for the attributes that have no constant default. */
  datatype ResourceDefaults = ResourceDefaults(parallaxScale: JavaInt.Int32, cardGap: real, cardGapBottom: real)

  function OrElse<T>(o: Option<T>, default: T): T
  {
    if o.Some? then o.value else default
  }

  /** A layout made without attributes reads every value from the defaults. */
  function AttributesOrNone(attrs: Option<StyledAttributes>): StyledAttributes
  {
    if attrs.Some? then attrs.value else StyledAttributes(None, None, None, None, None)
  }

  /** 0, 1, ..., n - 1. */
  function Positions(n: nat): seq<int>
  {
    seq(n, i => i)
  }

  /** The positions are listed once each, in increasing order. */
  lemma PositionsOnceInOrder(n: nat, i: int, j: int)
    requires 0 <= i < j < n
    ensures Positions(n)[i] < Positions(n)[j]
    ensures Positions(n)[i] == i && i in Positions(n)
  {
  }

  /** ArrayList.set, which the Kotlin addView performs with `mCardViews[position] = root`. */
  function ListSet(list: seq<CardView>, index: int, x: CardView): (r: Result<seq<CardView>, Failure>)
    ensures r.Err? <==> !(0 <= index < |list|)
    ensures r.Ok? ==> |r.value| == |list| && r.value[index] == x
    ensures r.Ok? ==> forall j :: 0 <= j < |list| && j != index ==> r.value[j] == list[j]
  {
    if 0 <= index < |list| then Ok(list[index := x]) else Err(IndexOutOfBounds(index, |list|))
  }

  /**
   * The Kotlin card list AS WRITTEN while the layout's adapter setter runs: the list
   * is created empty by arrayListOf(), setAdapterParams never resizes it, and
   * addView(i) stores card i with ArrayList.set, for i from `from` until |cards|.
   */
  function AttachAsWritten(list: seq<CardView>, cards: seq<CardView>, from: nat): (r: Result<seq<CardView>, Failure>)
    ensures from < |cards| && |list| <= from ==> r == Err(IndexOutOfBounds(from, |list|))
    ensures from <= |cards| == |list| ==> r == Ok(list[..from] + cards[from..])
    decreases |cards| - from
  {
    if from >= |cards| then
      assert from == |cards| == |list| ==> list[..from] + cards[from..] == list;
      Ok(list)
    else
      match ListSet(list, from, cards[from])
      case Err(e) => Err(e)
      case Ok(l) =>
        assert |list| == |cards| ==> l[..from + 1] + cards[from + 1..] == list[..from] + cards[from..];
        AttachAsWritten(l, cards, from + 1)
  }

  /** As written, setting an adapter with at least one card throws on the first addView. */
  lemma AsWrittenAttachFails(cards: seq<CardView>)
    requires 1 <= |cards|
    ensures AttachAsWritten([], cards, 0) == Err(IndexOutOfBounds(0, 0))
  {
  }

  /** The container: a vertical scroll view holding one frame, in which the cards live. */
  class CardStackLayout {
    var cardGapBottom: real
    var cardGap: real
    var isShowInitAnimation: bool
    var isParallaxEnabled: bool
    var parallaxScale: JavaInt.Int32
    var onCardSelectedListener: Option<nat>
    var isScrollable: bool
    var adapter: CardStackAdapter?
    /** The tags of the card views in the inner frame, in the order they were added. */
    var frameChildren: seq<int>
    var paddingTop: int
    /** The scroll position, which the platform's scrolling updates. */
    var scrollY: int
    /** Pending postDelayed({ restoreCards() }) calls. */
    var postedRestores: nat

    /** An adapter that is set has had all its cards added. */
    ghost predicate Valid()
      reads this`adapter, adapter
    {
      adapter != null ==> adapter.Valid() && adapter.Attached()
    }

    /** The layout's init: every attribute from `attrs` when present, else its default. */
    constructor (attrs: Option<StyledAttributes>, defaults: ResourceDefaults, paddingTop: int)
      ensures Valid()
      ensures var a := AttributesOrNone(attrs);
              isParallaxEnabled == OrElse(a.parallaxEnabled, PARALLAX_ENABLED_DEFAULT)
              && isShowInitAnimation == OrElse(a.showInitAnimation, SHOW_INIT_ANIMATION_DEFAULT)
              && parallaxScale == OrElse(a.parallaxScale, defaults.parallaxScale)
              && cardGap == OrElse(a.cardGap, defaults.cardGap)
              && cardGapBottom == OrElse(a.cardGapBottom, defaults.cardGapBottom)
      ensures this.paddingTop == paddingTop && scrollY == 0
      ensures onCardSelectedListener == None && isScrollable && adapter == null
      ensures frameChildren == [] && postedRestores == 0
    {
      var a := AttributesOrNone(attrs);
      isParallaxEnabled := OrElse(a.parallaxEnabled, PARALLAX_ENABLED_DEFAULT);
      isShowInitAnimation := OrElse(a.showInitAnimation, SHOW_INIT_ANIMATION_DEFAULT);
      parallaxScale := OrElse(a.parallaxScale, defaults.parallaxScale);
      cardGap := OrElse(a.cardGap, defaults.cardGap);
      cardGapBottom := OrElse(a.cardGapBottom, defaults.cardGapBottom);
      this.paddingTop := paddingTop;
      scrollY := 0;
      onCardSelectedListener := None;
      isScrollable := true;
      adapter := null;
      frameChildren := [];
      postedRestores := 0;
    }

    method SetScrollingEnabled(enabled: bool)
      modifies this`isScrollable
      ensures isScrollable == enabled
    {
      isScrollable := enabled;
    }

    /**
     * The layout's own touch handling: a press is passed to the scroll view only
     * while scrolling is enabled; every other action always is.
     * `superHandled` is what the scroll view's onTouchEvent returns.
     */
    function OnTouchEvent(action: Action, superHandled: bool): (handled: bool)
      reads this`isScrollable
      ensures action == Down && !isScrollable ==> !handled
      ensures action != Down || isScrollable ==> handled == superHandled
    {
      if action == Down then (if isScrollable then superHandled else false) else superHandled
    }

    /** The scroll view intercepts a child's touch only while scrolling is enabled. */
    function OnInterceptTouchEvent(superIntercepts: bool): (intercepts: bool)
      reads this`isScrollable
      ensures intercepts ==> isScrollable
      ensures isScrollable ==> intercepts == superIntercepts
    {
      isScrollable && superIntercepts
    }

    /** False without an adapter; otherwise whether the adapter has a card selected. */
    function IsCardSelected(): (selected: bool)
      reads this, adapter
      ensures adapter == null ==> !selected
      ensures selected <==> adapter != null && adapter.selectedCardPosition != INVALID_CARD_POSITION
      ensures Valid() ==> (selected <==> adapter != null && 0 <= adapter.selectedCardPosition < adapter.count)
    {
      if adapter == null then false else adapter.IsCardSelected()
    }

    /**
     * The adapter setter: hands the layout to the adapter, has it add card
     * 0, 1, ..., count - 1 in that order, and posts the entrance animation
     * when the layout shows one.
     */
    method SetAdapter(a: CardStackAdapter?)
      requires a != null ==> a.Valid()
      modifies this`adapter, this`frameChildren, this`postedRestores
      modifies Given(a)`scrollParent, Given(a)`cardGapBottom, Given(a)`cardGap, Given(a)`parallaxScale,
               Given(a)`parallaxEnabled, Given(a)`showInitAnimation, Given(a)`parentPaddingTop,
               Given(a)`fullCardHeight, Given(a)`cardViews, Given(a)`factoryCalls, Given(a)`cardPaddingInternal,
               Given(a)`isScreenTouchable
      ensures Valid() && adapter == a
      ensures a != null ==> a.scrollParent == this && a.Config() == LayoutConfig(this, a.screenHeight, a.dp30, a.count)
      ensures a != null ==> a.factoryCalls == old(a.factoryCalls) + Positions(a.count)
      ensures a != null ==> frameChildren == old(frameChildren) + Positions(a.count)
      ensures a != null ==>
                forall i :: 0 <= i < a.count ==> a.cardViews[i] == Some(CardView(i, a.PlacedY(i), a.fullCardHeight))
      ensures a != null ==>
                a.isScreenTouchable == (if a.count == 0 then old(a.isScreenTouchable) else !a.showInitAnimation)
      ensures a != null ==>
                a.tracker == old(a.tracker) && a.selectedCardPosition == old(a.selectedCardPosition)
                && a.pending == old(a.pending)
      ensures a == null ==> frameChildren == old(frameChildren)
      ensures postedRestores == old(postedRestores) + (if isShowInitAnimation then 1 else 0)
    {
      adapter := a;
      if a != null {
        Attach(a);
      }
      if isShowInitAnimation {
        postedRestores := postedRestores + 1;
      }
    }

    /** The setter's non-null branch: setAdapterParams(this), then the loop adding every card. */
    method Attach(a: CardStackAdapter)
      requires a.Valid()
      modifies this`frameChildren
      modifies a`scrollParent, a`cardGapBottom, a`cardGap, a`parallaxScale, a`parallaxEnabled,
               a`showInitAnimation, a`parentPaddingTop, a`fullCardHeight, a`cardViews, a`factoryCalls,
               a`cardPaddingInternal, a`isScreenTouchable
      ensures a.Valid() && a.Attached()
      ensures a.scrollParent == this && a.Config() == LayoutConfig(this, a.screenHeight, a.dp30, a.count)
      ensures a.factoryCalls == old(a.factoryCalls) + Positions(a.count)
      ensures frameChildren == old(frameChildren) + Positions(a.count)
      ensures forall i :: 0 <= i < a.count ==> a.cardViews[i] == Some(CardView(i, a.PlacedY(i), a.fullCardHeight))
      ensures a.isScreenTouchable == (if a.count == 0 then old(a.isScreenTouchable) else !a.showInitAnimation)
    {
      a.SetAdapterParams(this);
      ghost var config := a.Config();
      AddCards(a);
      assert a.Config() == config;
    }

    /** The setter's loop: addView(i) for i = 0, 1, ..., count - 1. */
    method AddCards(a: CardStackAdapter)
      requires a.Valid() && a.scrollParent == this && a.cardViews == NoCards(a.count)
      modifies this`frameChildren, a`factoryCalls, a`cardPaddingInternal, a`cardViews, a`isScreenTouchable
      ensures a.Valid() && a.Attached()
      ensures a.factoryCalls == old(a.factoryCalls) + Positions(a.count)
      ensures frameChildren == old(frameChildren) + Positions(a.count)
      ensures forall i :: 0 <= i < a.count ==> a.cardViews[i] == Some(CardView(i, a.PlacedY(i), a.fullCardHeight))
      ensures a.isScreenTouchable == (if a.count == 0 then old(a.isScreenTouchable) else !a.showInitAnimation)
    {
      for i := 0 to a.count
        invariant a.Valid() && |a.cardViews| == a.count
        invariant a.factoryCalls == old(a.factoryCalls) + Positions(i)
        invariant frameChildren == old(frameChildren) + Positions(i)
        invariant forall k :: 0 <= k < i ==> a.cardViews[k] == Some(CardView(k, a.PlacedY(k), a.fullCardHeight))
        invariant forall k :: i <= k < a.count ==> a.cardViews[k] == None
        invariant a.isScreenTouchable == (if i == 0 then old(a.isScreenTouchable) else !a.showInitAnimation)
      {
        a.AddView(i);
        assert Positions(i + 1) == Positions(i) + [i];
      }
    }

    /** Empties the frame and forgets the adapter and the selection listener. */
    method RemoveAdapter()
      modifies this`frameChildren, this`adapter, this`onCardSelectedListener
      ensures Valid()
      ensures frameChildren == [] && adapter == null && onCardSelectedListener == None
    {
      if |frameChildren| > 0 {
        frameChildren := [];
      }
      adapter := null;
      onCardSelectedListener := None;
    }

    /** restoreCards(r): only asks the adapter, if any, to reset its cards. */
    method RestoreCards(r: Option<nat>)
      requires Valid()
      modifies AdapterSet()`pending
      ensures Valid()
      ensures adapter != null ==>
                adapter.pending == old(adapter.pending) + [Batch(ResetLayout(adapter.Metrics()), true, RunnableCallback(r))]
    {
      if adapter != null {
        adapter.ResetCards(r);
      }
    }

    /** The posted entrance animation fires: restoreCards() on the adapter set at that time. */
    method RunPostedRestore()
      requires Valid() && 0 < postedRestores
      modifies this`postedRestores, AdapterSet()`pending
      ensures Valid() && postedRestores == old(postedRestores) - 1
      ensures adapter != null ==>
                adapter.pending == old(adapter.pending) + [Batch(ResetLayout(adapter.Metrics()), true, NoCallback)]
    {
      postedRestores := postedRestores - 1;
      RestoreCards(None);
    }

    function AdapterSet(): set<CardStackAdapter>
      reads this`adapter
    {
      if adapter == null then {} else {adapter}
    }
  }

  /** The adapter being set, as a frame: empty for null. */
  function Given(a: CardStackAdapter?): set<CardStackAdapter>
  {
    if a == null then {} else {a}
  }

  /** The settings setAdapterParams takes from `layout`, for an adapter with these constants. */
  function LayoutConfig(layout: CardStackLayout, screenHeight: int, dp30: int, count: nat): (r: AdapterConfig)
    reads layout`cardGapBottom, layout`cardGap, layout`parallaxScale, layout`isParallaxEnabled,
          layout`isShowInitAnimation, layout`paddingTop
    ensures r.parallaxEnabled ==> r.parallaxScale != 0
    ensures layout.parallaxScale != 0 ==> r.parallaxEnabled == layout.isParallaxEnabled
  {
    AdapterConfig(
      layout.cardGapBottom, layout.cardGap, layout.parallaxScale,
      layout.isParallaxEnabled && layout.parallaxScale != 0,
      layout.isShowInitAnimation,
      Geometry.FullCardHeight(screenHeight, dp30, count, layout.cardGapBottom),
      layout.paddingTop)
  }

  /** The Kotlin CardStackAdapter, with its card list sized by setAdapterParams (see the findings). */
  class CardStackAdapter {
    const count: nat
    const screenHeight: int
    const dp30: int
    const maxDistanceToConsiderAsClick: real
    const scaleFactorForElasticEffect: real
    /** The views createView makes, reduced to their top padding, one per position. */
    const viewPaddingTop: seq<int>

    var cardGapBottom: real
    var cardGap: real
    var parallaxScale: JavaInt.Int32
    var parallaxEnabled: bool
    var showInitAnimation: bool
    var scrollParent: CardStackLayout?
    var cardViews: seq<Option<CardView>>
    var fullCardHeight: int
    var isScreenTouchable: bool
    var tracker: Tracker
    var selectedCardPosition: int
    var parentPaddingTop: int
    var cardPaddingInternal: int
    /** The animation batches started and not yet ended, oldest first. */
    var pending: seq<Batch>
    /** The positions createView was called for, in order. */
    var factoryCalls: seq<int>

    ghost predicate Valid()
      reads this`selectedCardPosition, this`parallaxEnabled, this`parallaxScale, this`pending, this`cardViews
    {
      && SelectionValid()
      && 0.0 < scaleFactorForElasticEffect
      && |viewPaddingTop| == count
      && (parallaxEnabled ==> parallaxScale != 0)
      && Sized(pending, count)
      && Tagged(cardViews)
    }

    /** The selection is none or one of the cards. */
    predicate SelectionValid()
      reads this`selectedCardPosition
    {
      selectedCardPosition == INVALID_CARD_POSITION || 0 <= selectedCardPosition < count
    }

    /** Every card has been added. */
    predicate Attached()
      reads this`cardViews
    {
      Complete(cardViews, count)
    }

    function Config(): AdapterConfig
      reads this`cardGapBottom, this`cardGap, this`parallaxScale, this`parallaxEnabled,
            this`showInitAnimation, this`fullCardHeight, this`parentPaddingTop
    {
      AdapterConfig(cardGapBottom, cardGap, parallaxScale, parallaxEnabled,
                    showInitAnimation, fullCardHeight, parentPaddingTop)
    }

    function Metrics(): Geometry.Metrics
      reads this`cardGap, this`cardGapBottom, this`parentPaddingTop, this`cardPaddingInternal
    {
      Geometry.Metrics(screenHeight, dp30, count, cardGap, cardGapBottom, parentPaddingTop, cardPaddingInternal)
    }

    function Elastic(): Deck.Elastic
      reads this`parallaxEnabled, this`parallaxScale
    {
      Deck.Elastic(scaleFactorForElasticEffect, parallaxEnabled, parallaxScale)
    }

    function Snapshot(): DeckState
      reads this`isScreenTouchable, this`tracker, this`selectedCardPosition, this`cardViews, this`pending
    {
      DeckState(isScreenTouchable, tracker, selectedCardPosition, cardViews, pending)
    }

    function Parent(): set<CardStackLayout>
      reads this`scrollParent
    {
      if scrollParent == null then {} else {scrollParent}
    }

    /** The container's scrolling flag, None without a container. */
    function Scrolling(): Option<bool>
      reads this`scrollParent, Parent()`isScrollable
    {
      if scrollParent == null then None else Some(scrollParent.isScrollable)
    }

    /** The container's selection listener, None without a container. */
    function Listener(): Option<nat>
      reads this`scrollParent, Parent()`onCardSelectedListener
    {
      if scrollParent == null then None else scrollParent.onCardSelectedListener
    }

    /** The Y addView gives card `p`: collapsed if the entrance animation is on, else expanded. */
    function PlacedY(p: int): real
      requires 0 <= p < |viewPaddingTop|
      reads this`showInitAnimation, this`cardGap, this`cardGapBottom, this`parentPaddingTop
    {
      var m := Geometry.Metrics(screenHeight, dp30, count, cardGap, cardGapBottom, parentPaddingTop, viewPaddingTop[p]);
      if showInitAnimation then Geometry.FinalY(m, p)
      else Geometry.OriginalY(m, p) - parentPaddingTop as real
    }

    /** The adapter as its constructor leaves it: `dp8` is 8dp truncated to pixels. */
    constructor (count: nat, screenHeight: int, dp30: int, dp8: int, viewPaddingTop: seq<int>)
      requires 0 < dp8 && |viewPaddingTop| == count
      ensures Valid()
      ensures this.count == count && this.screenHeight == screenHeight && this.dp30 == dp30
      ensures maxDistanceToConsiderAsClick == dp8 as real && scaleFactorForElasticEffect == dp8 as real
      ensures this.viewPaddingTop == viewPaddingTop
      ensures Config() == AdapterConfig(0.0, 0.0, 0, false, false, 0, 0) && cardPaddingInternal == 0
      ensures scrollParent == null && cardViews == [] && factoryCalls == []
      ensures Snapshot() == DeckState(false, Released, INVALID_CARD_POSITION, [], [])
    {
      this.count := count;
      this.screenHeight := screenHeight;
      this.dp30 := dp30;
      maxDistanceToConsiderAsClick := dp8 as real;
      scaleFactorForElasticEffect := dp8 as real;
      this.viewPaddingTop := viewPaddingTop;
      cardGapBottom, cardGap, parallaxScale, parallaxEnabled, showInitAnimation := 0.0, 0.0, 0, false, false;
      scrollParent := null;
      cardViews := [];
      fullCardHeight := 0;
      isScreenTouchable := false;
      tracker := Released;
      selectedCardPosition := INVALID_CARD_POSITION;
      parentPaddingTop, cardPaddingInternal := 0, 0;
      pending := [];
      factoryCalls := [];
    }

    /** scrollOffset: the container's scroll position, 0 without a container. */
    function ScrollOffset(): (offset: int)
      reads this`scrollParent, Parent()`scrollY
      ensures scrollParent == null ==> offset == 0
      ensures scrollParent != null ==> offset == scrollParent.scrollY
    {
      if scrollParent == null then 0 else scrollParent.scrollY
    }

    /** isCardSelected: under the invariant, true exactly when the selection names a card. */
    function IsCardSelected(): (selected: bool)
      reads this`selectedCardPosition
      ensures selected <==> selectedCardPosition != INVALID_CARD_POSITION
      ensures SelectionValid() ==> (selected <==> 0 <= selectedCardPosition < count)
    {
      selectedCardPosition != INVALID_CARD_POSITION
    }

    /** getCardView: the card list entry, or the list's index error. */
    function GetCardView(position: int): (r: Result<Option<CardView>, Failure>)
      reads this`cardViews
      ensures r.Err? <==> !(0 <= position < |cardViews|)
      ensures r.Ok? ==> r.value == cardViews[position]
      ensures Valid() && r.Ok? && r.value.Some? ==> r.value.value.tag == position
    {
      if 0 <= position < |cardViews| then Ok(cardViews[position])
      else Err(IndexOutOfBounds(position, |cardViews|))
    }

    /**
     * setAdapterParams: remembers the container, copies its settings (parallax is
     * forced off when its scale is 0), computes the card height, and makes room
     * for `count` cards.
     */
    method SetAdapterParams(layout: CardStackLayout)
      requires Valid()
      modifies this`scrollParent, this`cardGapBottom, this`cardGap, this`parallaxScale, this`parallaxEnabled,
               this`showInitAnimation, this`parentPaddingTop, this`fullCardHeight, this`cardViews
      ensures Valid()
      ensures scrollParent == layout && Config() == LayoutConfig(layout, screenHeight, dp30, count)
      ensures cardViews == NoCards(count)
    {
      scrollParent := layout;
      CopySettings(layout);
      cardViews := NoCards(count);
    }

    /** The settings part of setAdapterParams. */
    method CopySettings(layout: CardStackLayout)
      modifies this`cardGapBottom, this`cardGap, this`parallaxScale,
               this`parallaxEnabled, this`showInitAnimation, this`parentPaddingTop, this`fullCardHeight
      ensures parallaxEnabled ==> parallaxScale != 0
      ensures Config() == LayoutConfig(layout, screenHeight, dp30, count)
    {
      cardGapBottom := layout.cardGapBottom;
      cardGap := layout.cardGap;
      parallaxScale := layout.parallaxScale;
      parallaxEnabled := layout.isParallaxEnabled;
      if parallaxEnabled && parallaxScale == 0 {
        parallaxEnabled := false;
      }
      showInitAnimation := layout.isShowInitAnimation;
      parentPaddingTop := layout.paddingTop;
      fullCardHeight := Geometry.FullCardHeight(screenHeight, dp30, count, cardGapBottom);
    }

    /**
     * addView(position): asks the factory for the view, takes its top padding,
     * places it (collapsed and untouchable with the entrance animation, else
     * expanded and touchable), stores it and adds it to the frame.
     */
    method AddView(position: int)
      requires Valid() && 0 <= position < |cardViews| == count
      modifies this`factoryCalls, this`cardPaddingInternal, this`cardViews, this`isScreenTouchable,
               Parent()`frameChildren
      ensures Valid()
      ensures factoryCalls == old(factoryCalls) + [position]
      ensures cardPaddingInternal == viewPaddingTop[position]
      ensures cardViews == old(cardViews)[position := Some(CardView(position, PlacedY(position), fullCardHeight))]
      ensures isScreenTouchable == !showInitAnimation
      ensures scrollParent != null ==> scrollParent.frameChildren == old(scrollParent.frameChildren) + [position]
    {
      factoryCalls := factoryCalls + [position];
      cardPaddingInternal := viewPaddingTop[position];
      var y: real;
      if showInitAnimation {
        y := Geometry.FinalY(Metrics(), position);
        isScreenTouchable := false;
      } else {
        y := Geometry.OriginalY(Metrics(), position) - parentPaddingTop as real;
        isScreenTouchable := true;
      }
      StoreKeepsTagged(cardViews, position, CardView(position, y, fullCardHeight));
      cardViews := cardViews[position := Some(CardView(position, y, fullCardHeight))];
      if scrollParent != null {
        scrollParent.frameChildren := scrollParent.frameChildren + [position];
      }
    }

    /** resetCards(r): starts a reset batch taking every card back to its expanded slot. */
    method ResetCards(r: Option<nat>)
      requires Valid() && Attached()
      modifies this`pending
      ensures Valid() && Attached()
      ensures pending == old(pending) + [Batch(ResetLayout(Metrics()), true, RunnableCallback(r))]
    {
      var targets := ResetTargets(Metrics());
      pending := pending + [Batch(targets, true, RunnableCallback(r))];
    }

    /**
     * The end of the oldest batch: every card is at its target, the batch's
     * Runnable runs, the screen becomes touchable, and a reset also clears
     * the selection and enables scrolling again.
     */
    method FinishAnimation() returns (event: Event)
      requires Valid() && Attached() && pending != []
      modifies this`cardViews, this`pending, this`isScreenTouchable, this`selectedCardPosition,
               Parent()`isScrollable
      ensures Valid() && Attached()
      ensures pending == old(pending)[1..]
      ensures cardViews == Settled(old(cardViews), old(pending)[0].targets)
      ensures isScreenTouchable
      ensures event == Announce(old(pending)[0].onEnd, Listener(), old(selectedCardPosition))
      ensures old(pending)[0].isReset ==>
                selectedCardPosition == INVALID_CARD_POSITION && (scrollParent != null ==> scrollParent.isScrollable)
      ensures !old(pending)[0].isReset ==>
                selectedCardPosition == old(selectedCardPosition) && Scrolling() == old(Scrolling())
    {
      var batch := pending[0];
      pending := pending[1..];
      SettledKeepsCards(cardViews, batch.targets, count);
      cardViews := Settled(cardViews, batch.targets);
      event := Quiet;
      match batch.onEnd {
        case NoCallback =>
        case AnnounceSelection(v) =>
          isScreenTouchable := true;
          if scrollParent != null && scrollParent.onCardSelectedListener.Some? {
            event := CardSelected(scrollParent.onCardSelectedListener.value, v, selectedCardPosition);
          }
        case External(id) =>
          event := RanExternal(id);
      }
      isScreenTouchable := true;
      if batch.isReset {
        selectedCardPosition := INVALID_CARD_POSITION;
        if scrollParent != null {
          scrollParent.SetScrollingEnabled(true);
        }
      }
    }

    /**
     * onClick(v): ignored while untouchable; otherwise makes the screen untouchable
     * and disables scrolling, and, when no card is selected, selects the card and
     * starts the selection batch.
     */
    method OnClick(view: int)
      requires Valid() && Attached() && 0 <= view < count
      modifies this`isScreenTouchable, this`selectedCardPosition, this`pending, Parent()`isScrollable
      ensures Valid() && Attached()
      ensures !old(isScreenTouchable) ==>
                Snapshot() == old(Snapshot()) && Scrolling() == old(Scrolling())
      ensures old(isScreenTouchable) ==>
                !isScreenTouchable && (scrollParent != null ==> !scrollParent.isScrollable)
      ensures old(isScreenTouchable) && old(selectedCardPosition) == INVALID_CARD_POSITION ==>
                selectedCardPosition == view
                && pending == old(pending) + [Batch(SelectionLayout(Metrics(), ScrollOffset(), view, BaseTarget),
                                                    false, AnnounceSelection(view))]
      ensures old(selectedCardPosition) != INVALID_CARD_POSITION ==>
                selectedCardPosition == old(selectedCardPosition) && pending == old(pending)
    {
      if !isScreenTouchable {
        return;
      }
      isScreenTouchable := false;
      if scrollParent != null {
        scrollParent.SetScrollingEnabled(false);
      }
      if selectedCardPosition == INVALID_CARD_POSITION {
        selectedCardPosition := view;
        var targets := SelectionTargets(Metrics(), ScrollOffset(), selectedCardPosition, BaseTarget);
        pending := pending + [Batch(targets, false, AnnounceSelection(view))];
      }
    }

    /**
     * moveCards(position, diff): for a downward drag on a card, sets every card
     * from that one to the last at its expanded slot plus the elastic offset.
     */
    method MoveCards(position: int, diff: real)
      requires Valid() && Attached()
      modifies this`cardViews
      ensures Valid() && Attached()
      ensures cardViews == Dragged(old(cardViews), Metrics(), Elastic(), position, diff)
    {
      if diff < 0.0 || position < 0 || position >= count {
        return;
      }
      ghost var before := cardViews;
      ghost var m := Metrics();
      ghost var e := Elastic();
      for i := position to count
        invariant |cardViews| == count && Attached()
        invariant forall k :: 0 <= k < count ==>
                    cardViews[k] == if position <= k < i then Some(before[k].value.(y := DraggedY(m, e, k, diff)))
                                    else before[k]
      {
        var child := cardViews[i].value;
        var diffCard := Deck.ElasticOffset(Elastic(), count, i, diff);
        cardViews := cardViews[i := Some(child.(y := Geometry.OriginalY(Metrics(), i) + diffCard))];
      }
      assert forall k | 0 <= k < count :: cardViews[k] == Dragged(before, m, e, position, diff)[k];
    }

    /**
     * onTouch(v, event) for the card with tag `view` and an event at raw Y `y`.
     * Returns whether the event was consumed.
     */
    method OnTouch(view: int, action: Action, y: real) returns (handled: bool)
      requires Valid() && Attached() && 0 <= view < count
      modifies this`tracker, this`isScreenTouchable, this`selectedCardPosition, this`pending, this`cardViews,
               Parent()`isScrollable
      ensures Valid() && Attached()
      // untouchable: refused, nothing changes
      ensures !old(isScreenTouchable) ==>
                !handled && Snapshot() == old(Snapshot()) && Scrolling() == old(Scrolling())
      // a press during a gesture is refused; otherwise it starts one
      ensures old(isScreenTouchable) && action == Down ==>
                handled == !Tracking(old(tracker)) && Scrolling() == old(Scrolling())
                && Snapshot() == if Tracking(old(tracker)) then old(Snapshot())
                                 else old(Snapshot()).(tracker := Pressed(y))
      // a move drags the cards when none is selected and adds to the distance
      ensures old(isScreenTouchable) && action == Move ==>
                handled && Scrolling() == old(Scrolling())
                && Snapshot() == old(Snapshot()).(
                     tracker := Moved(old(tracker), y),
                     views := if old(selectedCardPosition) == INVALID_CARD_POSITION
                              then Dragged(old(cardViews), Metrics(), Elastic(), view, y - old(tracker).firstY)
                              else old(cardViews))
      // a release or cancel ends the gesture; a tap selects a card or resets the deck
      ensures old(isScreenTouchable) && (action == Up || action == Cancel) ==>
                !handled && tracker == Released && cardViews == old(cardViews)
      ensures old(isScreenTouchable) && (action == Up || action == Cancel)
              && IsTap(old(tracker), y, maxDistanceToConsiderAsClick)
              && old(selectedCardPosition) == INVALID_CARD_POSITION ==>
                !isScreenTouchable && selectedCardPosition == view
                && (scrollParent != null ==> !scrollParent.isScrollable)
                && pending == old(pending) + [Batch(SelectionLayout(Metrics(), ScrollOffset(), view, BaseTarget),
                                                    false, AnnounceSelection(view))]
      ensures old(isScreenTouchable) && (action == Up || action == Cancel)
              && IsTap(old(tracker), y, maxDistanceToConsiderAsClick)
              && old(selectedCardPosition) != INVALID_CARD_POSITION ==>
                isScreenTouchable && selectedCardPosition == old(selectedCardPosition)
                && Scrolling() == old(Scrolling())
                && pending == old(pending) + [Batch(ResetLayout(Metrics()), true, NoCallback)]
      ensures old(isScreenTouchable) && (action == Up || action == Cancel)
              && !IsTap(old(tracker), y, maxDistanceToConsiderAsClick) ==>
                isScreenTouchable && selectedCardPosition == old(selectedCardPosition)
                && pending == old(pending) && Scrolling() == old(Scrolling())
      // any other action is consumed and changes nothing
      ensures old(isScreenTouchable) && action.OtherAction? ==>
                handled && Snapshot() == old(Snapshot()) && Scrolling() == old(Scrolling())
    {
      if !isScreenTouchable {
        return false;
      }
      if action == Down {
        if tracker.firstY != Unset {
          return false;
        }
        tracker := Tracker(y, y, 0.0);
      } else if action == Move {
        if selectedCardPosition == INVALID_CARD_POSITION {
          MoveCards(view, y - tracker.firstY);
        }
        tracker := tracker.(distance := tracker.distance + Abs(y - tracker.prevY));
      } else if action == Up || action == Cancel {
        if tracker.distance < maxDistanceToConsiderAsClick
           && Abs(y - tracker.firstY) < maxDistanceToConsiderAsClick {
          if selectedCardPosition == INVALID_CARD_POSITION {
            OnClick(view);
          } else {
            ResetCards(None);
          }
        }
        tracker := Released;
        return false;
      }
      return true;
    }
  }
}
