/**
 * The view controls of roadmap_screen: the user rotation added to the
 * map orientation, the flow control that turns bursts of repaint
 * requests into one timed repaint, and the membership test on the tiles
 * in view.
 */
module ScreenControl {
  import opened CInt
  import opened Angles
  import MapContext

  /**
   * The rotation loops of roadmap_screen_rotate: subtract or add whole
   * turns until the angle lies in [0, 360).
   */
  method NormalizeRotation(rotation: int) returns (r: int)
    ensures r == Normalized(rotation)
  {
    r := rotation;
    while r >= 360
      invariant r % 360 == rotation % 360
      decreases r
    {
      Shift360(r, -1);
      r := r - 360;
    }
    while r < 0
      invariant r < 360 && r % 360 == rotation % 360
      decreases -r
    {
      Shift360(r, 1);
      r := r + 360;
    }
  }

  /**
   * roadmap_screen_in_view: 1 when `square` is among the first `count`
   * tiles in view, else 0.
   */
  method InView(paintInView: array<int>, count: int, square: int) returns (found: int)
    requires count <= paintInView.Length
    ensures found == 0 || found == 1
    ensures found == 1 <==> exists i :: 0 <= i < count && paintInView[i] == square
  {
    var i := 0;
    while i < count
      invariant 0 <= i <= (if count < 0 then 0 else count)
      invariant forall k :: 0 <= k < i ==> paintInView[k] != square
    {
      if square == paintInView[i] {
        return 1;
      }
      i := i + 1;
    }
    return 0;
  }

  /**
   * Whether roadmap_math_set_orientation reports the move from the
   * normalised orientation `previous` to `next` as worth a redraw: not
   * when unchanged, nor for a move of 2 degrees or less unless to north.
   */
  function WorthRedraw(previous: int, next: int): (r: bool)
    ensures next == previous ==> !r
    ensures next == 0 && previous != 0 ==> r
  {
    !(next == previous || (next != 0 && Abs(next - previous) <= 2))
  }

  /**
   * The screen's view state: the user rotation and the repaint flow
   * control. `flowControl` counts the repaint requests since the timer
   * was armed (0 when it is not), `armed` says the flow-control timer is
   * registered, `arms` counts how often it was (re)started and `repaints`
   * how often the timer repainted the screen.
   */
  class Control {
    var rotation: int
    var flowControl: int
    var armed: bool
    var arms: nat
    var repaints: nat

    ghost predicate Valid()
      reads this
    {
      0 <= rotation < 360 && 0 <= flowControl && (armed <==> flowControl != 0)
    }

    /** The state at start-up: no rotation and no pending repaint. */
    constructor ()
      ensures Valid() && rotation == 0 && flowControl == 0 && !armed && arms == 0 && repaints == 0
    {
      rotation, flowControl, armed, arms, repaints := 0, 0, false, 0, 0;
    }

    /**
     * roadmap_screen_repaint: the first request since the last repaint
     * arms the timer and sets the counter to 2; a later one only counts,
     * and restarts the timer when the fast-refresh flag asks not to
     * redraw. No request repaints by itself.
     */
    method Repaint(fastNoRedraw: bool)
      requires Valid()
      modifies this`flowControl, this`armed, this`arms
      ensures Valid() && armed
      ensures flowControl == (if old(flowControl) == 0 then 2 else old(flowControl) + 1)
      ensures arms == old(arms) + (if old(flowControl) == 0 || fastNoRedraw then 1 else 0)
    {
      if flowControl == 0 {
        flowControl := 2;
        armed := true;
        arms := arms + 1;
      } else {
        flowControl := flowControl + 1;
        if fastNoRedraw {
          armed := true;
          arms := arms + 1;
        }
      }
    }

    /**
     * roadmap_screen_refresh_flow_control, when the timer fires: stop the
     * timer, repaint once, and reset the counter so that the next
     * request arms the timer again.
     */
    method Fire()
      requires Valid() && armed
      modifies this`flowControl, this`armed, this`repaints
      ensures Valid() && !armed && flowControl == 0 && repaints == old(repaints) + 1
    {
      armed := false;
      repaints := repaints + 1;
      flowControl := 0;
    }

    /** The flow-control part of roadmap_screen_shutdown: stop a pending timer. */
    method Shutdown()
      requires Valid()
      modifies this`flowControl, this`armed
      ensures Valid() && !armed && flowControl == 0
    {
      if flowControl != 0 {
        armed := false;
        flowControl := 0;
      }
    }

    /**
     * roadmap_screen_rotate: add `delta` to the user rotation, normalise
     * it, and hand it (added to the map orientation in dynamic mode) to
     * the map orientation. Only when that reports a change worth a
     * redraw is the rotation kept and a repaint requested, under the
     * current fast-refresh flag.
     */
    method Rotate(ctx: MapContext.Context, delta: int, dynamic: bool, fastNoRedraw: bool)
      requires Valid() && ctx.Valid()
      modifies this`rotation, this`flowControl, this`armed, this`arms,
               ctx`orientation, ctx`sinOrientation, ctx`cosOrientation, ctx`currentScreen, ctx`focus, ctx`visibility
      ensures Valid() && ctx.Valid() && ctx.Oriented()
      ensures ctx.orientation ==
              Normalized(if dynamic then old(ctx.orientation) + Normalized(old(rotation) + delta)
                         else Normalized(old(rotation) + delta))
      ensures WorthRedraw(old(ctx.orientation), ctx.orientation) ==>
                rotation == Normalized(old(rotation) + delta) && armed &&
                flowControl == (if old(flowControl) == 0 then 2 else old(flowControl) + 1)
      ensures !WorthRedraw(old(ctx.orientation), ctx.orientation) ==>
                rotation == old(rotation) && flowControl == old(flowControl) && armed == old(armed) && arms == old(arms)
    {
      var r := NormalizeRotation(rotation + delta);
      var calculated := if dynamic then ctx.orientation + r else r;
      var status := ctx.SetOrientation(calculated);
      if status != 0 {
        rotation := r;
        Repaint(fastNoRedraw);
      }
    }
  }
}
