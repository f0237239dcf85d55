# CardStack in Dafny

A model of the core of the CardStack Android widget: a vertical deck of cards
in a scroll container. A tap on a card selects it: the selected card moves to
the top slot and every other card drops to a collapsed stack at the bottom of
the screen. A second tap resets the deck to its expanded layout. A downward
drag can stretch the cards apart with an elastic, optionally parallax, offset.

The library ships two versions of the adapter: a Java one and a Kotlin one.
The model covers both, together with the Kotlin container `CardStackLayout`
and the sample app's `MyCardStackAdapter`.

Modules:

- `Wrappers` (`wrappers.dfy`): `Option` and `Result`.
- `JavaInt` (`java_int.dfy`): the 32-bit `int` of Java and Kotlin, its
  wrap-around and its division, which rounds toward zero.
- `Geometry` (`geometry.dfy`): the placement formulas both adapters share.
  - The collapsed Y of a card (`getCardFinalY`).
  - The expanded Y of a card (`getCardOriginalY`).
  - The card height (`fullCardHeight`), with Java's float-to-int truncation.
- `Gesture` (`gesture.dfy`): the touch tracker (press Y, previous Y, distance
  travelled) and the tap test. Neither version updates the previous Y on a
  move, so every move adds its distance from the press.
- `Deck` (`deck.dfy`): the parts both adapters share.
  - Card views: a position tag, a Y and a height.
  - Animation batches and their completion callbacks.
  - The selection and reset target layouts.
  - The elastic drag offset of `moveCards`.
  - Lemmas about all of these.
- `CardStack` (`card_stack.dfy`): the Kotlin `CardStackLayout` and the Kotlin
  `CardStackAdapter`, as classes whose methods update their fields. The two
  refer to each other, so they share a module.
- `CardStackJava` (`card_stack_java.dfy`): the Java `CardStackAdapter`, with its
  card views in an `array` that `setAdapterParams` allocates.
- `Sample` (`sample.dfy`):
  - `MyCardStackAdapter`'s reverse-click `getAnimatorForView`.
  - Its `updatePrefsIfRequired`, with `Integer.parseInt` in base 10 and
    `Integer.toString`.

Animations are modelled in two steps:

1. Starting an animation set (`startAnimations`) appends a `Batch` to the
   adapter's `pending` list. A batch holds one target Y per card, whether it
   is a reset, and the completion callback.
2. `FinishAnimation` is the animator's `onAnimationEnd`. It takes the oldest
   batch, puts every card at its target, runs the callback (reported as an
   `Event`), and then runs the completion logic.

The other external parts of the widget become parameters:

- The view factory `createView` becomes the constant `viewPaddingTop`: the top
  padding of the view made for each position. `factoryCalls` records the
  order in which views were asked for.
- The container's `postDelayed` restore is a counter, `postedRestores`, and a
  method that fires one pending restore, `RunPostedRestore`.
- A `Runnable` is an `Option<nat>` identity.
- The selection listener is an `Option<nat>`.
- The sample's reverse-click preference is a `bool` parameter.
- The preference store is a `map<string, int>`.

The Java adapter's `getAnimatorForView` can be overridden. Its `OnClick` and
`OnTouch` take it as an `animatorFor` argument:

- `Deck.BaseTarget` is the library's own version.
- `Sample.AnimatorHook(reverseClick)` is the sample's override.

The Kotlin version's `getAnimatorForView` is final, so the Kotlin adapter
always uses `BaseTarget`.

Where a reader might expect otherwise, the model does what the code does:

- A release after a real drag (not a tap) starts no animation in either
  version. The cards stay where the drag left them and the selection is
  kept. `Gesture.DragAndReturnIsNoTap` shows that a drag which returns
  exactly to the press is still not a tap. `OnTouch`'s contract shows that
  such a release leaves `pending` unchanged.
- `resetCards` does not make the screen untouchable; only `onClick` and
  `addView` do. So a tap during the reset that a tap on a selected deck starts
  is accepted. The entrance reset is different: with the entrance animation
  on, `addView` has already made the screen untouchable, so taps are refused
  until that reset ends.
- The factors of the elastic offset in `moveCards` are 32-bit `int`
  arithmetic and wrap around. The sample's settings card accepts any `int` as
  the parallax scale. With -1000000000, card 7 of an eight-card deck gets the
  factor `7 * 333333333 + 1`, which wraps to -1961633964, so a downward drag
  lifts that card above its expanded slot (`Deck.WrappedOffsetLiftsCard`).
  The "never up" properties hold under `Deck.NoWrap`, a sufficient bound
  that keeps those factors in range.
- With the entrance animation off, `addView` places a card at its expanded Y
  minus the container's top padding. The reset targets do not subtract that
  padding.
- The Java `onTouch` does not move cards on `ACTION_MOVE`: the call to
  `moveCards` is commented out. The Kotlin `onTouch` does move them.
- In the Kotlin `onTouch`, `moveCards` is given the drag distance from the
  press (`y - firstY`). A drag that goes back above the press does nothing:
  negative distances are ignored.

## Model

| member | source | states |
|---|---|---|
| JavaInt.Wrap | cardstack/src/main/java/com/mutualmobile/cardstack/CardStackAdapter.java:289-290 | An `int` operation keeps the value congruent to the exact result modulo 2^32 within the 32-bit range, which is the exact result whenever that fits. |
| JavaInt.Div | cardstack/src/main/java/com/mutualmobile/cardstack/CardStackAdapter.java:287 | `int` division by a positive divisor rounds toward zero: the remainder has the dividend's sign and is smaller than the divisor. |
| Geometry.Truncate | cardstack/src/main/java/com/mutualmobile/cardstack/CardStackAdapter.java:317 | A float-to-int cast drops the fraction toward zero: the result is within 1 of the value, on the zero side. |
| Geometry.FinalY | cardstack/src/main/java/com/mutualmobile/cardstack/CardStackAdapter.java:137-139 | The collapsed Y of card p: the screen height less 30dp, less `cardGapBottom` for each card from p to the end, less the card padding. Its properties are FinalYSpacing and FinalYIncreasing. |
| Geometry.FinalYSpacing | cardstack/src/main/java/com/mutualmobile/cardstack/CardStackAdapter.java:137-139 | Two collapsed cards are `cardGapBottom` apart per position between them. |
| Geometry.FinalYIncreasing | cardstack/src/main/java/com/mutualmobile/cardstack/CardStackAdapter.kt:153-155 | With a positive bottom gap, the collapsed layout keeps the cards in position order. |
| Geometry.OriginalY | cardstack/src/main/java/com/mutualmobile/cardstack/CardStackAdapter.java:141-143 | The expanded Y of card p: the container's top padding plus `cardGap` per position. Its properties are OriginalYSpacing and OriginalYIncreasing. |
| Geometry.OriginalYSpacing | cardstack/src/main/java/com/mutualmobile/cardstack/CardStackAdapter.java:141-143 | Two expanded cards are `cardGap` apart per position between them. |
| Geometry.OriginalYIncreasing | cardstack/src/main/java/com/mutualmobile/cardstack/CardStackAdapter.kt:157-159 | With a positive gap, the expanded layout keeps the cards in position order. |
| Geometry.FullCardHeight | cardstack/src/main/java/com/mutualmobile/cardstack/CardStackAdapter.java:317 | The card height: the screen height less 30dp and `count * cardGapBottom`, truncated toward zero by Truncate. |
| Geometry.FullCardHeightAboveStack | cardstack/src/main/java/com/mutualmobile/cardstack/CardStackAdapter.kt:338 | The card height is the space above collapsed card 0, before that card's own padding, with the fraction dropped. |
| Gesture.Pressed | cardstack/src/main/java/com/mutualmobile/cardstack/CardStackAdapter.java:202-203 | A press at y records y as both the press Y and the previous Y, with no distance travelled. |
| Gesture.Moved | cardstack/src/main/java/com/mutualmobile/cardstack/CardStackAdapter.kt:228-232 | A move keeps the press Y and the previous Y, and never decreases the distance travelled. |
| Gesture.MovedAll | cardstack/src/main/java/com/mutualmobile/cardstack/CardStackAdapter.java:205-210 | A run of moves keeps the press Y and the previous Y and never decreases the distance travelled. |
| Gesture.MovesAddSpread | cardstack/src/main/java/com/mutualmobile/cardstack/CardStackAdapter.java:205-210 | After a press, any sequence of moves leaves both Ys at the press. The distance becomes the sum of each move's distance from the press. |
| Gesture.SpreadBoundsEachPoint | cardstack/src/main/java/com/mutualmobile/cardstack/CardStackAdapter.java:209 | Each move's distance from the press is at most the distance accumulated over the gesture. |
| Gesture.SpreadNonNegative | cardstack/src/main/java/com/mutualmobile/cardstack/CardStackAdapter.java:209 | The accumulated distance is never negative. |
| Gesture.IsTap | cardstack/src/main/java/com/mutualmobile/cardstack/CardStackAdapter.java:213 | A release is a tap when the distance travelled and the release's distance from the press are both below the threshold. GestureTapIff states it for whole gestures. |
| Gesture.GestureTapIff | cardstack/src/main/java/com/mutualmobile/cardstack/CardStackAdapter.java:213 | A press, moves and a release make a tap exactly when both are below the threshold: the summed move distances from the press, and the release's distance from the press. |
| Gesture.TapStaysNearPress | cardstack/src/main/java/com/mutualmobile/cardstack/CardStackAdapter.kt:234 | In a tap, no move came as far from the press as the threshold. |
| Gesture.DragAndReturnIsNoTap | cardstack/src/main/java/com/mutualmobile/cardstack/CardStackAdapter.kt:233-245 | A gesture that moved the threshold away from the press is not a tap, even if it is released exactly at the press. |
| Deck.BaseTarget | cardstack/src/main/java/com/mutualmobile/cardstack/CardStackAdapter.java:266-274 | The library's getAnimatorForView target: the selected card goes to the scroll offset plus the expanded Y of card 0, every other card to the scroll offset plus its collapsed Y. SelectionLayoutShape and CollapsedCardsOrdered state its shape. |
| Deck.SelectionLayout | cardstack/src/main/java/com/mutualmobile/cardstack/CardStackAdapter.java:239-243 | One target per card, from the given getAnimatorForView, in position order. SelectionTargets computes it. |
| Deck.ResetLayout | cardstack/src/main/java/com/mutualmobile/cardstack/CardStackAdapter.java:152-155 | Every card's target is its expanded Y. ResetTargets computes it, and ResetSettlesInOrder states its order. |
| Deck.SelectionTargets | cardstack/src/main/java/com/mutualmobile/cardstack/CardStackAdapter.java:239-243 | The onClick loop asks getAnimatorForView for every card in order. The result is the selection layout. |
| Deck.ResetTargets | cardstack/src/main/java/com/mutualmobile/cardstack/CardStackAdapter.kt:168-172 | The resetCards loop targets every card at its expanded Y. The result is the reset layout. |
| Deck.NoCards | cardstack/src/main/java/com/mutualmobile/cardstack/CardStackAdapter.java:306 | A fresh card list has room for `count` cards and holds none. |
| Deck.Settled | cardstack/src/main/java/com/mutualmobile/cardstack/CardStackAdapter.java:174-183 | The cards at the end of a batch: each present card with a target is at it. SettledKeepsCards states what it keeps. |
| Deck.DragOffset | cardstack/src/main/java/com/mutualmobile/cardstack/CardStackAdapter.java:284-292 | moveCards' offset in each branch, with the `int` factors wrapped to 32 bits and `/ 3` rounding toward zero. DragOffsetNonNegative and WrappedOffsetLiftsCard state when it is non-negative. |
| Deck.ElasticOffset | cardstack/src/main/java/com/mutualmobile/cardstack/CardStackAdapter.kt:306-315 | The loop body of moveCards (both versions), statement by statement, computes `Deck.DragOffset`. |
| Deck.Dragged | cardstack/src/main/java/com/mutualmobile/cardstack/CardStackAdapter.java:280-295 | The cards after moveCards: unchanged for an upward drag or a position outside the deck, else every present card from the position on at its dragged Y. DragShape, DraggedKeepsCards and NonParallaxDrag state its shape. |
| Deck.Announce | cardstack/src/main/java/com/mutualmobile/cardstack/CardStackAdapter.java:244-251 | A batch's end reports onClick's runnable to the listener, with the selection, exactly when there is a listener; a caller's Runnable just runs. |
| Deck.StoreKeepsTagged | cardstack/src/main/java/com/mutualmobile/cardstack/CardStackAdapter.kt:131 | Storing a card under its own position tag keeps every card tagged with its position. |
| Deck.SettledKeepsCards | cardstack/src/main/java/com/mutualmobile/cardstack/CardStackAdapter.java:174-183 | The end of an animation only moves cards. Every card keeps its presence, tag and height, and a complete, tagged list stays complete and tagged. |
| Deck.DraggedKeepsCards | cardstack/src/main/java/com/mutualmobile/cardstack/CardStackAdapter.kt:304-317 | A drag only moves cards. Every card keeps its presence, tag and height, and a complete, tagged list stays complete and tagged. |
| Deck.CollapsedCardsOrdered | cardstack/src/main/java/com/mutualmobile/cardstack/CardStackAdapter.kt:292-296 | In the library's selection layout, with a positive bottom gap, the cards other than the selected one stay in position order. |
| Deck.ResetSettlesInOrder | cardstack/src/main/java/com/mutualmobile/cardstack/CardStackAdapter.java:150-157 | After a reset settles, consecutive cards are `cardGap` apart per position, and in order when the gap is positive. |
| Deck.DragOffsetNonNegative | cardstack/src/main/java/com/mutualmobile/cardstack/CardStackAdapter.java:284-292 | For a downward drag, the elastic offset of every card is non-negative in each parallax branch, as long as the `int` factors do not wrap (`NoWrap`). |
| Deck.DragShape | cardstack/src/main/java/com/mutualmobile/cardstack/CardStackAdapter.kt:299-318 | moveCards leaves the cards above the touched one alone. Every card from the touched one on keeps its tag, and ends at or below its expanded Y when the `int` factors do not wrap. |
| Deck.WrappedOffsetLiftsCard | cardstack/src/main/java/com/mutualmobile/cardstack/CardStackAdapter.java:289-290 | With parallax scale -1000000000 and eight cards, the bound fails and card 7's offset for a drag of one scale unit is -1961633964: the wrapped factor lifts the card. |
| Deck.NonParallaxDrag | cardstack/src/main/java/com/mutualmobile/cardstack/CardStackAdapter.kt:303-317 | Without parallax, a downward drag puts every card from the touched one on at its expanded Y plus `(diff / scale)` times `count * 2 + 1` taken as a 32-bit `int`. |
| Deck.SelectionLayoutShape | cardstack/src/main/java/com/mutualmobile/cardstack/CardStackAdapter.java:266-274 | The library's selection batch has one target per card. The selected card targets `offsetTop + originalY(0)` and every other card `offsetTop + finalY(i)`. |
| CardStack.LayoutConfig | cardstack/src/main/java/com/mutualmobile/cardstack/CardStackAdapter.kt:329-338 | The settings an adapter copies from the container. Parallax is never on with a zero scale, and otherwise follows the container. |
| CardStack.AttachAsWritten | cardstack/src/main/java/com/mutualmobile/cardstack/CardStackLayout.kt:86-91 | The setter's addView loop over the Kotlin list as written. It fails at the first position the list does not reach. On a list already sized to the deck it stores every card in its slot. |
| CardStack.PositionsOnceInOrder | cardstack/src/main/java/com/mutualmobile/cardstack/CardStackLayout.kt:88-90 | The setter's loop adds each position once, in increasing order. |
| CardStack.ListSet | cardstack/src/main/java/com/mutualmobile/cardstack/CardStackAdapter.kt:148 | ArrayList.set fails exactly when the index is outside the list. Otherwise it replaces that one entry and keeps the length. |
| CardStack.AsWrittenAttachFails | cardstack/src/main/java/com/mutualmobile/cardstack/CardStackAdapter.kt:51 | As written, attaching an adapter with at least one card fails on the first addView: the list is the empty list from arrayListOf, so set(0, …) is out of bounds. |
| CardStack.CardStackLayout.constructor | cardstack/src/main/java/com/mutualmobile/cardstack/CardStackLayout.kt:133-163 | Each setting comes from its XML attribute when present, else from its default. The new layout has no listener and no adapter, and is scrollable. |
| CardStack.CardStackLayout.SetScrollingEnabled | cardstack/src/main/java/com/mutualmobile/cardstack/CardStackLayout.kt:165-167 | The scrolling flag becomes the argument and nothing else changes. |
| CardStack.CardStackLayout.OnTouchEvent | cardstack/src/main/java/com/mutualmobile/cardstack/CardStackLayout.kt:169-180 | A press is refused while scrolling is disabled. Every other event gets the scroll view's own answer. |
| CardStack.CardStackLayout.OnInterceptTouchEvent | cardstack/src/main/java/com/mutualmobile/cardstack/CardStackLayout.kt:182-186 | The layout intercepts only while scrollable. When scrollable, it intercepts exactly when the scroll view would. |
| CardStack.CardStackLayout.IsCardSelected | cardstack/src/main/java/com/mutualmobile/cardstack/CardStackLayout.kt:101-102 | False without an adapter. Otherwise true exactly when the adapter's selection names a card. |
| CardStack.CardStackLayout.SetAdapter | cardstack/src/main/java/com/mutualmobile/cardstack/CardStackLayout.kt:82-96 | The adapter gets this layout and its settings. Positions 0 to count-1 are created in order. Each card is placed and tagged, and is in the frame. Touchability follows the entrance animation, and one restore is posted exactly when the entrance animation is on. |
| CardStack.CardStackLayout.Attach | cardstack/src/main/java/com/mutualmobile/cardstack/CardStackLayout.kt:86-91 | setAdapterParams, then the addView loop. The adapter ends attached, with every card at its placed Y. |
| CardStack.CardStackLayout.AddCards | cardstack/src/main/java/com/mutualmobile/cardstack/CardStackLayout.kt:87-91 | The addView loop stores card i at slot i with its placed Y and the card height. The frame and the factory see 0, 1, …, count-1. |
| CardStack.CardStackLayout.RemoveAdapter | cardstack/src/main/java/com/mutualmobile/cardstack/CardStackLayout.kt:195-204 | The frame is emptied, and the adapter and the listener are forgotten. |
| CardStack.CardStackLayout.RestoreCards | cardstack/src/main/java/com/mutualmobile/cardstack/CardStackLayout.kt:210-212 | With an adapter, exactly one reset batch is started, carrying the given Runnable. Without one, nothing happens. |
| CardStack.CardStackLayout.RunPostedRestore | cardstack/src/main/java/com/mutualmobile/cardstack/CardStackLayout.kt:93-95 | A posted entrance animation fires as restoreCards() on the adapter set at that time. |
| CardStack.CardStackAdapter.constructor | cardstack/src/main/java/com/mutualmobile/cardstack/CardStackAdapter.kt:99-113 | The click threshold and the elastic scale are both 8dp truncated to pixels. The adapter starts untouchable, with nothing selected, no cards and no container. |
| CardStack.CardStackAdapter.ScrollOffset | cardstack/src/main/java/com/mutualmobile/cardstack/CardStackAdapter.kt:84-85 | The container's scroll position, or 0 without a container. |
| CardStack.CardStackAdapter.IsCardSelected | cardstack/src/main/java/com/mutualmobile/cardstack/CardStackAdapter.kt:96-97 | True exactly when the selection is not INVALID_CARD_POSITION. Under the invariant, that is when it names a card. |
| CardStack.CardStackAdapter.GetCardView | cardstack/src/main/java/com/mutualmobile/cardstack/CardStackAdapter.kt:348 | The entry at the position, or an index error exactly when the position is outside the list. A present card carries its own position. |
| CardStack.CardStackAdapter.SetAdapterParams | cardstack/src/main/java/com/mutualmobile/cardstack/CardStackAdapter.kt:325-339 | The container is remembered and its settings copied, with parallax off when its scale is 0. The list is sized to `count` with no cards: this is the correction described under Findings. |
| CardStack.CardStackAdapter.CopySettings | cardstack/src/main/java/com/mutualmobile/cardstack/CardStackAdapter.kt:329-338 | The settings become the container's (`LayoutConfig`), and parallax is never on with a zero scale. |
| CardStack.CardStackAdapter.AddView | cardstack/src/main/java/com/mutualmobile/cardstack/CardStackAdapter.kt:128-151 | The factory is asked for position p and the view's padding kept. Card p is stored with its collapsed Y (untouchable) or its expanded Y minus the top padding (touchable), and appended to the frame. |
| CardStack.CardStackAdapter.PlacedY | cardstack/src/main/java/com/mutualmobile/cardstack/CardStackAdapter.kt:140-146 | The Y addView gives card p: collapsed with the entrance animation on, else expanded less the container's top padding. |
| CardStack.CardStackAdapter.ResetCards | cardstack/src/main/java/com/mutualmobile/cardstack/CardStackAdapter.kt:167-174 | One reset batch is started, targeting every card at its expanded Y and carrying the Runnable. |
| CardStack.CardStackAdapter.FinishAnimation | cardstack/src/main/java/com/mutualmobile/cardstack/CardStackAdapter.kt:194-203 | The oldest batch ends and every card is at its target. Its Runnable runs (a selection announces to the listener) and the screen becomes touchable. Only a reset clears the selection and re-enables scrolling. |
| CardStack.CardStackAdapter.OnClick | cardstack/src/main/java/com/mutualmobile/cardstack/CardStackAdapter.kt:250-274 | Nothing happens while untouchable. Otherwise: untouchable, scrolling off, and, when nothing was selected, this card selected plus one selection batch from getAnimatorForView. |
| CardStack.CardStackAdapter.MoveCards | cardstack/src/main/java/com/mutualmobile/cardstack/CardStackAdapter.kt:299-318 | The cards become `Deck.Dragged` of the old cards. Nothing changes for an upward drag or a position outside the deck. |
| CardStack.CardStackAdapter.OnTouch | cardstack/src/main/java/com/mutualmobile/cardstack/CardStackAdapter.kt:208-248 | The result and the new state for each case: untouchable, press (refused during a gesture), move (drags when nothing is selected), tap release (select or reset), drag release (no animation), other actions. |
| CardStackJava.CardStackAdapter.constructor | cardstack/src/main/java/com/mutualmobile/cardstack/CardStackAdapter.java:63-71 | The click threshold and the elastic scale are both 8dp truncated to pixels. The adapter starts untouchable, with nothing selected and no card array. |
| CardStackJava.CardStackAdapter.ScrollOffset | cardstack/src/main/java/com/mutualmobile/cardstack/CardStackAdapter.java:276-278 | The container's scroll position; the container must be set. |
| CardStackJava.CardStackAdapter.IsCardSelected | cardstack/src/main/java/com/mutualmobile/cardstack/CardStackAdapter.java:335-337 | True exactly when the selection is not INVALID_CARD_POSITION, which under the invariant means it names a card. |
| CardStackJava.CardStackAdapter.GetCardView | cardstack/src/main/java/com/mutualmobile/cardstack/CardStackAdapter.java:354-358 | null before the array exists. Otherwise the entry, or an index error exactly when the position is outside the array. |
| CardStackJava.CardStackAdapter.SetAdapterParams | cardstack/src/main/java/com/mutualmobile/cardstack/CardStackAdapter.java:302-318 | The container is remembered and a fresh array of `count` empty entries allocated. The settings are copied, with parallax off when its scale is 0. |
| CardStackJava.CardStackAdapter.CopySettings | cardstack/src/main/java/com/mutualmobile/cardstack/CardStackAdapter.java:308-317 | The settings become the container's (`LayoutConfig`), and parallax is never on with a zero scale. |
| CardStackJava.CardStackAdapter.AddView | cardstack/src/main/java/com/mutualmobile/cardstack/CardStackAdapter.java:112-135 | Entry p of the array gets card p at its placed Y. Touchability follows the entrance animation, and the frame gets p appended. |
| CardStackJava.CardStackAdapter.PlacedY | cardstack/src/main/java/com/mutualmobile/cardstack/CardStackAdapter.java:124-130 | The Y addView gives card p: collapsed with the entrance animation on, else expanded less the container's top padding. |
| CardStackJava.CardStackAdapter.Attach | cardstack/src/main/java/com/mutualmobile/cardstack/CardStackLayout.kt:86-91 | The container's setter as this adapter sees it: setAdapterParams, then addView for positions 0 to count-1. The adapter ends attached, each card at its placed Y in a fresh array. The factory and the frame see 0, 1, …, count-1. |
| CardStackJava.CardStackAdapter.AddCards | cardstack/src/main/java/com/mutualmobile/cardstack/CardStackLayout.kt:87-91 | The addView loop stores card i at entry i with its placed Y and the card height. The factory and the frame see 0, 1, …, count-1, and touchability follows the entrance animation. |
| CardStackJava.CardStackAdapter.ResetCards | cardstack/src/main/java/com/mutualmobile/cardstack/CardStackAdapter.java:150-157 | One reset batch is started, targeting every card at its expanded Y and carrying the Runnable. |
| CardStackJava.CardStackAdapter.FinishAnimation | cardstack/src/main/java/com/mutualmobile/cardstack/CardStackAdapter.java:174-183 | The oldest batch ends and every array entry is at its target. Its Runnable runs and the screen becomes touchable. A reset clears the selection and enables scrolling. |
| CardStackJava.CardStackAdapter.OnClick | cardstack/src/main/java/com/mutualmobile/cardstack/CardStackAdapter.java:227-255 | Nothing happens while untouchable. Otherwise: untouchable, scrolling off, and, when nothing was selected, this card selected plus one batch from the overridable getAnimatorForView. |
| CardStackJava.CardStackAdapter.MoveCards | cardstack/src/main/java/com/mutualmobile/cardstack/CardStackAdapter.java:280-295 | The array becomes `Deck.Dragged` of its old contents. |
| CardStackJava.CardStackAdapter.OnTouch | cardstack/src/main/java/com/mutualmobile/cardstack/CardStackAdapter.java:188-225 | The same cases as the Kotlin version, except that a move only adds to the distance. The cards never move. |
| Sample.ReverseClickTarget | app/src/main/java/com/mutualmobile/cardstack/sample/adapters/MyCardStackAdapter.kt:86-93 | The reverse-click target: cards after the selected one go to their collapsed Y; the selected card and those before it pile up from the top slot, `cardGapBottom` apart. |
| Sample.AnimatorTarget | app/src/main/java/com/mutualmobile/cardstack/sample/adapters/MyCardStackAdapter.kt:81-97 | The overridden getAnimatorForView: the reverse-click target with the preference on, the library's otherwise. |
| Sample.AnimatorHook | app/src/main/java/com/mutualmobile/cardstack/sample/adapters/MyCardStackAdapter.kt:81-97 | The override as the `animatorFor` argument of the Java adapter's onClick and onTouch. |
| Sample.ReverseClickSpacing | app/src/main/java/com/mutualmobile/cardstack/sample/adapters/MyCardStackAdapter.kt:89-92 | With reverse click, two cards on the same side of the selection are `cardGapBottom` apart per position between them. |
| Sample.ReverseClickOrdered | app/src/main/java/com/mutualmobile/cardstack/sample/adapters/MyCardStackAdapter.kt:91-92 | With a positive bottom gap, cards on the same side of the selection stay in position order. |
| Sample.ReverseClickAgreesAfterSelection | app/src/main/java/com/mutualmobile/cardstack/sample/adapters/MyCardStackAdapter.kt:89-90 | Cards after the selected one get the library's target. |
| Sample.ReverseClickSelectedCard | app/src/main/java/com/mutualmobile/cardstack/sample/adapters/MyCardStackAdapter.kt:91-92 | The selected card lands `selected * cardGapBottom` below the library's top slot. The two coincide exactly when it is card 0 or the gap is 0. |
| Sample.ReverseClickOffIsLibraryLayout | app/src/main/java/com/mutualmobile/cardstack/sample/adapters/MyCardStackAdapter.kt:94-95 | With the preference off, the whole selection batch is the library's. |
| Sample.KeyFor | app/src/main/java/com/mutualmobile/cardstack/sample/utils/PrefsUtil.kt:13-15 | Each field is stored under its PrefsUtil key; KeysDistinct shows that no two fields share one. |
| Sample.KeysDistinct | app/src/main/java/com/mutualmobile/cardstack/sample/adapters/MyCardStackAdapter.kt:163-176 | Different fields never share a key. |
| Sample.NatToDigits | app/src/main/java/com/mutualmobile/cardstack/sample/adapters/MyCardStackAdapter.kt:121 | A number is shown as at least one ASCII digit, without a leading zero. |
| Sample.IntToString | app/src/main/java/com/mutualmobile/cardstack/sample/adapters/MyCardStackAdapter.kt:121 | Integer.toString: a '-' for a negative value, then the shortest digits. ShownIsCanonical and CanonicalWrittenBack relate it to ParseInt. |
| Sample.DigitsRoundTrip | app/src/main/java/com/mutualmobile/cardstack/sample/adapters/MyCardStackAdapter.kt:121-126 | Reading back the digits of a number gives the number. |
| Sample.ParseInt | app/src/main/java/com/mutualmobile/cardstack/sample/adapters/MyCardStackAdapter.kt:153 | The text parses exactly when it is a numeral (an optional sign, then at least one digit) whose value fits in 32 bits, and the result is that value. |
| Sample.ParseShownValue | app/src/main/java/com/mutualmobile/cardstack/sample/adapters/MyCardStackAdapter.kt:121-126 | Every 32-bit value, as the settings card shows it, parses back to itself. |
| Sample.LeadingDigitPositive | app/src/main/java/com/mutualmobile/cardstack/sample/adapters/MyCardStackAdapter.kt:153 | A digit string that does not start with '0' has a value of at least one. |
| Sample.DigitsWrittenBack | app/src/main/java/com/mutualmobile/cardstack/sample/adapters/MyCardStackAdapter.kt:121 | Writing out the value of a digit string without a leading zero gives that string back. |
| Sample.ShownIsCanonical | app/src/main/java/com/mutualmobile/cardstack/sample/adapters/MyCardStackAdapter.kt:121 | Integer.toString always writes a canonical numeral: no '+', no leading zero, no "-0". |
| Sample.CanonicalWrittenBack | app/src/main/java/com/mutualmobile/cardstack/sample/adapters/MyCardStackAdapter.kt:121-153 | A canonical numeral that parses is exactly what Integer.toString writes for its value. |
| Sample.NonCanonicalAccepted | app/src/main/java/com/mutualmobile/cardstack/sample/adapters/MyCardStackAdapter.kt:153 | "+12", "007" and "-0" parse, to 12, 7 and 0, which the card then shows as "12", "7" and "0". |
| Sample.ParsedOrMinValue | app/src/main/java/com/mutualmobile/cardstack/sample/adapters/MyCardStackAdapter.kt:152-156 | The value fits in 32 bits. It is Integer.MIN_VALUE when parsing fails; any other value is what the text parses to. |
| Sample.UpdatePrefsIfRequired | app/src/main/java/com/mutualmobile/cardstack/sample/adapters/MyCardStackAdapter.kt:148-177 | Nothing is written when the text does not parse or parses to Integer.MIN_VALUE. Otherwise the parsed value is stored under the field's key, and every other key is unchanged. |
| Sample.ShownValueWrittenBack | app/src/main/java/com/mutualmobile/cardstack/sample/adapters/MyCardStackAdapter.kt:133-135 | Restarting with a field left at its shown value stores that value again, so the preferences are unchanged. |
| Sample.TypedValueStored | app/src/main/java/com/mutualmobile/cardstack/sample/adapters/MyCardStackAdapter.kt:163-176 | A typed 32-bit value other than Integer.MIN_VALUE is stored under the field's key and nowhere else. |
| Sample.MinValueNeverWritten | app/src/main/java/com/mutualmobile/cardstack/sample/adapters/MyCardStackAdapter.kt:158-161 | Integer.MIN_VALUE parses, yet typing it never stores anything. |

## Left out

- Timing: animation durations, the decelerate interpolator and the 500 ms delay of the entrance animation. A batch is modelled as ending in one step (`FinishAnimation`). Frames in between are not modelled.
- Start values of the tweens, including the Java `resetCards`'s `(int) child.getY()`. An animation is modelled only by its target.
- Floating point: Y values and gaps are `real`. Float rounding and int-to-float conversion are not modelled. The `int` factors of the drag offset are modelled as 32-bit values that wrap (`JavaInt`).
- Geometry.Truncate: does not model that a cast of an out-of-range float saturates at the int bounds. The card height is assumed to fit.
- View inflation, layer types, focusability, layout params other than the card height, and `CardFrameLayout`'s measuring. The frame is modelled only as the list of card tags added to it (`frameChildren`). A card is its tag, Y and height.
- Calls into code outside the core: the effects of an external `Runnable` and of the selection listener. They are reported as an `Event`.
- Calls the source makes before an adapter is attached become preconditions (`Attached()`). These fail in the source:
  - `resetCards` reads `mCardViews[i]` for every card. In Java the array is still null, a NullPointerException. In Kotlin the list is empty, an IndexOutOfBoundsException.
  - Kotlin `moveCards` reads `mCardViews[i]` the same way.
  - The Java completion calls `mScrollParent.setScrollingEnabled`, and the Java `getScrollOffset` reads `mScrollParent`: both dereference a null container.
- OnClick and OnTouch (both versions): require `Attached()` although the source would just return. The adapter starts untouchable and only `addView` changes that, and both methods return at once while untouchable.
- DragOffsetNonNegative: holds only under `NoWrap`, because the source's 32-bit factors can wrap to a negative value (`WrappedOffsetLiftsCard`).
- DragShape: the "at or below its expanded Y" part holds only under `NoWrap`, for the same reason.
- A negative `getCount()`: `count` is a `nat`. With a negative count, the Java `new View[getCount()]` throws NegativeArraySizeException; that case is not modelled.
- CardStackAdapter constructor (both versions): requires `0 < dp8`. With a zero 8dp dimension, the source divides a float by zero in `moveCards`. That case is excluded.
- `CardStackLayout.java` is not part of this model. The Java adapter is modelled against the Kotlin container, which offers the same fields.
- `MyCardStackAdapter`'s `onCheckedChanged`, the settings-view wiring, `createView` and `getCount`. `bgColorIds` fixes 14 cards, and `count` is a parameter here.
- Preference storage (`PrefsUtil`, `Pref`): modelled as a `map<string, int>` that updatePrefsIfRequired returns updated.
- Sample.ParseInt: accepts only ASCII digits. `Integer.parseInt` also accepts the other Unicode decimal digits.
- The logging calls (`Timber`).

## Findings

| source | as written | input that shows it | evidently intended | confidence | as-written member | corrected member |
|---|---|---|---|---|---|---|
| cardstack/src/main/java/com/mutualmobile/cardstack/CardStackAdapter.kt:148 | The Kotlin card list is `arrayListOf()`, which is empty, and `setAdapterParams` never resizes it. `addView(position)` stores with `mCardViews[position] = root`, which is `ArrayList.set`. | Setting any adapter with `count >= 1`: the first `addView(0)` calls `set(0, …)` on an empty list, which throws IndexOutOfBoundsException. | As in the Java version (`mCardViews = new View[getCount()]`), the list has room for `count` cards before they are added, and card i is stored at slot i. | high (not executed) | CardStack.AsWrittenAttachFails | CardStack.CardStackLayout.SetAdapter |
