/**
 * The touch tracker both adapters keep between events: the Y of the press
 * (mTouchFirstY), the "previous" Y (mTouchPrevY) and the distance travelled
 * (mTouchDistance). Neither version ever updates the previous Y on a move, so
 * every move adds its distance from the press, not from the last move.
 */
module Gesture {

  /** The MotionEvent actions the adapter tells apart; any other action code falls through. */
  datatype Action = Down | Move | Up | Cancel | OtherAction(code: int)

  datatype Tracker = Tracker(firstY: real, prevY: real, distance: real)

  /** The "no press" marker stored in firstY and prevY. */
  const Unset: real := -1.0

  /** The tracker between gestures, and after a release or a cancel. */
  const Released: Tracker := Tracker(Unset, Unset, 0.0)

  function Abs(x: real): real
  {
    if x < 0.0 then -x else x
  }

  /** A press has been recorded and not yet released. */
  predicate Tracking(t: Tracker)
  {
    t.firstY != Unset
  }

  /** The tracker right after a press at `y`. */
  function Pressed(y: real): Tracker
  {
    Tracker(y, y, 0.0)
  }

  /** A move to `y`: the distance grows by the gap to prevY, nothing else changes. */
  function Moved(t: Tracker, y: real): (r: Tracker)
    ensures r.firstY == t.firstY && r.prevY == t.prevY
    ensures t.distance <= r.distance
  {
    t.(distance := t.distance + Abs(y - t.prevY))
  }

  /** A release at `y` counts as a tap: short total travel and close to where it started. */
  predicate IsTap(t: Tracker, y: real, threshold: real)
  {
    t.distance < threshold && Abs(y - t.firstY) < threshold
  }

  /** The tracker after the moves `ys`, in order. */
  function MovedAll(t: Tracker, ys: seq<real>): (r: Tracker)
    ensures r.firstY == t.firstY && r.prevY == t.prevY
    ensures t.distance <= r.distance
    decreases |ys|
  {
    if ys == [] then t else MovedAll(Moved(t, ys[0]), ys[1..])
  }

  /** Sum of the distances of the points `ys` from `y0`. */
  function Spread(ys: seq<real>, y0: real): real
    decreases |ys|
  {
    if ys == [] then 0.0 else Abs(ys[0] - y0) + Spread(ys[1..], y0)
  }

  /** Moves after a press never change firstY or prevY, and the distance is the sum of |y - firstY|. */
  lemma {:induction false} MovesAddSpread(y0: real, d: real, ys: seq<real>)
    ensures MovedAll(Tracker(y0, y0, d), ys) == Tracker(y0, y0, d + Spread(ys, y0))
    decreases |ys|
  {
    if ys != [] {
      MovesAddSpread(y0, d + Abs(ys[0] - y0), ys[1..]);
    }
  }

  /** Every move point is within the spread of the whole gesture. */
  lemma {:induction false} SpreadBoundsEachPoint(ys: seq<real>, y0: real, k: int)
    requires 0 <= k < |ys|
    ensures Abs(ys[k] - y0) <= Spread(ys, y0)
    decreases |ys|
  {
    SpreadNonNegative(ys[1..], y0);
    if k > 0 {
      SpreadBoundsEachPoint(ys[1..], y0, k - 1);
    }
  }

  lemma {:induction false} SpreadNonNegative(ys: seq<real>, y0: real)
    ensures 0.0 <= Spread(ys, y0)
    decreases |ys|
  {
    if ys != [] {
      SpreadNonNegative(ys[1..], y0);
    }
  }

  /**
   * A press at `y0`, the moves `ys` and a release at `y` make a tap exactly when
   * the summed distances of the moves from `y0` and the release's distance from
   * `y0` are both below the threshold.
   */
  lemma GestureTapIff(y0: real, ys: seq<real>, y: real, threshold: real)
    ensures IsTap(MovedAll(Pressed(y0), ys), y, threshold)
        <==> Spread(ys, y0) < threshold && Abs(y - y0) < threshold
  {
    MovesAddSpread(y0, 0.0, ys);
  }

  /** In a tap, no move strayed as far as the threshold from the press. */
  lemma TapStaysNearPress(y0: real, ys: seq<real>, y: real, threshold: real, k: int)
    requires IsTap(MovedAll(Pressed(y0), ys), y, threshold)
    requires 0 <= k < |ys|
    ensures Abs(ys[k] - y0) < threshold
  {
    GestureTapIff(y0, ys, y, threshold);
    SpreadBoundsEachPoint(ys, y0, k);
  }

  /** Dragging as far as the threshold and coming back exactly to the press is not a tap. */
  lemma DragAndReturnIsNoTap(y0: real, ys: seq<real>, threshold: real, k: int)
    requires 0 <= k < |ys| && threshold <= Abs(ys[k] - y0)
    ensures !IsTap(MovedAll(Pressed(y0), ys), y0, threshold)
  {
    if IsTap(MovedAll(Pressed(y0), ys), y0, threshold) {
      TapStaysNearPress(y0, ys, y0, threshold, k);
    }
  }
}
