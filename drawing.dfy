/**
 * roadmap_screen_draw_one_line_internal (the build without J2ME): feed
 * one road line, straight or shaped, to the draw batcher as polylines of
 * its visible stretches.
 *
 * The geometry the function asks of roadmap_math (whether a position or
 * a line is visible, the screen point of a position, the distance
 * between two positions and where a segment's line meets an edge) lives
 * in headers outside this model, so a `View` value supplies it.
 */
module Drawing {
  import opened Geo
  import opened Batch
  import Clipping
  import Screen
  import MapContext

  /**
   * The roadmap_math collaborators of one repaint: the visibility
   * rectangle, the line through a segment (longitude at a latitude and
   * latitude at a longitude), roadmap_math_point_is_visible,
   * roadmap_math_line_is_visible, roadmap_math_distance and
   * roadmap_math_coordinate.
   */
  datatype View = View(
    visibility: Area,
    lonAt: (Position, Position, int) -> int,
    latAt: (Position, Position, int) -> int,
    visible: Position -> bool,
    lineVisible: (Position, Position) -> bool,
    distance: (Position, Position) -> int,
    coordinate: Position -> GuiPoint)

  /** roadmap_math_get_visible_coordinates for the segment from `a` to `b`, screen points requested. */
  function Clip(v: View, a: Position, b: Position): (r: Clipping.Clip)
    ensures r != Clipping.Shown
    ensures v.visible(a) && v.visible(b) ==> r == Clipping.Segment(v.coordinate(a), v.coordinate(b))
  {
    Clipping.GetVisibleCoordinates(a, b, v.visibility, lat => v.lonAt(a, b, lat), lon => v.latAt(a, b, lon),
                                   v.visible, v.distance, v.coordinate, true)
  }

  /** The segment passes the line-visibility test and has a visible stretch on screen. */
  predicate Shown(v: View, a: Position, b: Position)
  {
    v.lineVisible(a, b) && Clip(v, a, b).Segment?
  }

  /** Some segment among the first `i` of the route is shown. */
  predicate ShownUpTo(v: View, route: seq<Position>, i: nat)
    requires i < |route|
  {
    i > 0 && (ShownUpTo(v, route, i - 1) || Shown(v, route[i - 1], route[i]))
  }

  /** Some segment among the first `i` is shown exactly when one of them is. */
  lemma ShownUpToMeans(v: View, route: seq<Position>, i: nat)
    requires i < |route|
    ensures ShownUpTo(v, route, i) <==> exists k :: 0 <= k < i && Shown(v, route[k], route[k + 1])
  {
    if ShownUpTo(v, route, i) {
      ShownUpToWitness(v, route, i);
    }
    if exists k :: 0 <= k < i && Shown(v, route[k], route[k + 1]) {
      var k :| 0 <= k < i && Shown(v, route[k], route[k + 1]);
      ShownUpToFrom(v, route, i, k);
    }
  }

  lemma {:induction false} ShownUpToWitness(v: View, route: seq<Position>, i: nat)
    requires i < |route| && ShownUpTo(v, route, i)
    ensures exists k :: 0 <= k < i && Shown(v, route[k], route[k + 1])
  {
    if ShownUpTo(v, route, i - 1) {
      ShownUpToWitness(v, route, i - 1);
    } else {
      var k := i - 1;
      assert Shown(v, route[k], route[k + 1]);
    }
  }

  lemma {:induction false} ShownUpToFrom(v: View, route: seq<Position>, i: nat, k: nat)
    requires k < i < |route| && Shown(v, route[k], route[k + 1])
    ensures ShownUpTo(v, route, i)
  {
    if k < i - 1 {
      ShownUpToFrom(v, route, i - 1, k);
    }
  }

  /** Whether a segment among the first `i` is shown depends only on the route up to position `i`. */
  lemma {:induction false} ShownUpToPrefix(v: View, r1: seq<Position>, r2: seq<Position>, i: nat)
    requires i < |r1| && r1 <= r2
    ensures ShownUpTo(v, r1, i) == ShownUpTo(v, r2, i)
  {
    if i > 0 {
      ShownUpToPrefix(v, r1, r2, i - 1);
    }
  }

  /**
   * How many shape points the function walks: all of them, or
   * ROADMAP_SCREEN_BULK - 3 when the line could not fit even in an empty
   * buffer.
   */
  function KeptCount(count: nat): (r: nat)
    ensures r <= count && r + 2 < Bulk
    ensures count + 2 < Bulk ==> r == count
  {
    if count + 2 >= Bulk then Bulk - 3 else count
  }

  /** The shape points the function walks. */
  function Kept(shape: seq<Position>): (r: seq<Position>)
    ensures |r| == KeptCount(|shape|) && r <= shape
  {
    shape[..KeptCount(|shape|)]
  }

  /** The positions the drawn line passes through: the start, the kept shape points, the end. */
  function Route(from: Position, shape: Option<seq<Position>>, to: Position): (r: seq<Position>)
    ensures 2 <= |r| && r[0] == from && r[|r| - 1] == to
    ensures shape.None? ==> r == [from, to]
  {
    if shape.None? then [from, to] else [from] + Kept(shape.value) + [to]
  }

  /**
   * The room a shaped line needs while it is walked: with a polyline
   * open, space for `rest` more points and the end; with none open,
   * nothing pending and space for `rest` more points, a start and the end.
   */
  ghost predicate Room(b: Screen.Batcher, open: bool, rest: int)
    reads b`objectCount, b`cursor, b`accum, b`pointCount, b.objects
  {
    b.Valid() && b.cursor <= b.accum &&
    (open ==> b.accum + rest + 1 < Bulk) &&
    (!open ==> b.accum + rest + 2 < Bulk && b.accum == b.cursor)
  }

  /**
   * roadmap_screen_draw_one_line_internal. The `fully_visible` argument
   * is overwritten with 0 on entry, so only the clipping paths exist.
   * `numPens` is the count of pens the caller passes; the layer choice
   * sees one less. The line is reported drawn exactly when one of its
   * segments is shown, and the batcher is left with nothing pending.
   */
  method DrawOneLine(b: Screen.Batcher, ctx: MapContext.Context, v: View, from: Position,
                     shape: Option<seq<Position>>, to: Position,
                     pens: seq<Handle>, numPens: int, image: Handle, opposite: bool)
    returns (drawn: int)
    requires b.Idle() && ctx.Valid()
    requires 1 <= numPens <= |pens|
    modifies b`objectCount, b`cursor, b`accum, b`pointCount, b`canvas,
             b`lastPen, b`lastImage, b`lastOpposite, b.objects, b.linePoints, b.points
    ensures b.Idle()
    ensures drawn == (if ShownUpTo(v, Route(from, shape, to), |Route(from, shape, to)| - 1) then 1 else 0)
    ensures old(b.canvas) <= b.canvas
    ensures drawn == 0 && (shape.None? || |shape.value| + 2 < Bulk - old(b.cursor)) ==> b.Model() == old(b.Model())
  {
    if shape.None? {
      drawn := DrawStraight(b, ctx, v, from, to, pens, numPens - 1, image, opposite);
    } else {
      drawn := DrawShaped(b, ctx, v, from, shape.value, to, pens, numPens - 1, image, opposite);
    }
  }

  /** A line with no shape: one clipped segment, or a single point when it clips to one pixel. */
  method DrawStraight(b: Screen.Batcher, ctx: MapContext.Context, v: View, from: Position, to: Position,
                      pens: seq<Handle>, numPens: int, image: Handle, opposite: bool)
    returns (drawn: int)
    requires b.Idle() && ctx.Valid()
    requires 0 <= numPens < |pens|
    modifies b`objectCount, b`cursor, b`accum, b`pointCount, b`canvas,
             b`lastPen, b`lastImage, b`lastOpposite, b.objects, b.linePoints, b.points
    ensures b.Idle()
    ensures drawn == (if Shown(v, from, to) then 1 else 0)
    ensures old(b.canvas) <= b.canvas
    ensures drawn == 0 ==> b.Model() == old(b.Model())
  {
    if !v.lineVisible(from, to) {
      return 0;
    }
    var clip := Clip(v, from, to);
    if !clip.Segment? {
      return 0;
    }
    if clip.p0 == clip.p1 {
      b.Feed(ctx, Some(clip.p0), pens, numPens, image, Flags(false, true, opposite));
      return 1;
    }
    if b.cursor + 2 >= Bulk {
      b.FlushLines(ctx);
    }
    b.Feed(ctx, Some(clip.p0), pens, numPens, image, Flags(false, false, opposite));
    b.Feed(ctx, Some(clip.p1), pens, numPens, image, Flags(true, false, opposite));
    drawn := 1;
  }

  /**
   * A shaped line: make room for it (flush the lines when it might not
   * fit behind the cursor, and keep only what fits in an empty buffer),
   * walk its segments, then finish with the segment to the end point.
   */
  method DrawShaped(b: Screen.Batcher, ctx: MapContext.Context, v: View, from: Position,
                    shape: seq<Position>, to: Position,
                    pens: seq<Handle>, numPens: int, image: Handle, opposite: bool)
    returns (drawn: int)
    requires b.Idle() && ctx.Valid()
    requires 0 <= numPens < |pens|
    modifies b`objectCount, b`cursor, b`accum, b`pointCount, b`canvas,
             b`lastPen, b`lastImage, b`lastOpposite, b.objects, b.linePoints, b.points
    ensures b.Idle()
    ensures var route := [from] + Kept(shape) + [to];
            drawn == (if ShownUpTo(v, route, |route| - 1) then 1 else 0)
    ensures old(b.canvas) <= b.canvas
    ensures drawn == 0 && |shape| + 2 < Bulk - old(b.cursor) ==> b.Model() == old(b.Model())
  {
    MakeRoom(b, ctx, |shape|);
    drawn := DrawRoute(b, ctx, v, from, Kept(shape), to, pens, numPens, image, opposite);
  }

  /** The shape points once there is room for them: the walk, then the closing segment. */
  method DrawRoute(b: Screen.Batcher, ctx: MapContext.Context, v: View, from: Position,
                   kept: seq<Position>, to: Position,
                   pens: seq<Handle>, numPens: int, image: Handle, opposite: bool)
    returns (drawn: int)
    requires b.Idle() && ctx.Valid() && b.accum + |kept| + 2 < Bulk
    requires 0 <= numPens < |pens|
    modifies b`objectCount, b`cursor, b`accum, b`pointCount, b`canvas,
             b`lastPen, b`lastImage, b`lastOpposite, b.objects, b.linePoints, b.points
    ensures b.Idle()
    ensures var route := [from] + kept + [to];
            drawn == (if ShownUpTo(v, route, |route| - 1) then 1 else 0)
    ensures old(b.canvas) <= b.canvas
    ensures drawn == 0 ==> b.Model() == old(b.Model())
  {
    var last, open;
    drawn, last, open := WalkShape(b, ctx, v, from, kept, pens, numPens, image, opposite);
    ghost var walked := b.Model();
    var ended := FinishLine(b, ctx, v, last, to, open, pens, numPens, image, opposite);
    if ended {
      drawn := 1;
    } else if drawn == 0 {
      assert b.Model() == walked;
    }
    RouteEnd(v, from, kept, to);
  }

  /** The closing segment of a route: shown up to the end means shown before it or on it. */
  lemma RouteEnd(v: View, from: Position, kept: seq<Position>, to: Position)
    ensures var route := [from] + kept + [to];
            ShownUpTo(v, route, |route| - 1) ==
            (ShownUpTo(v, [from] + kept, |kept|) || Shown(v, ([from] + kept)[|kept|], to))
  {
    var route := [from] + kept + [to];
    ShownUpToPrefix(v, [from] + kept, route, |kept|);
    assert route[|kept|] == ([from] + kept)[|kept|] && route[|kept| + 1] == to;
  }

  /** The room check of a shaped line: flush the lines when the shape might not fit behind the cursor. */
  method MakeRoom(b: Screen.Batcher, ctx: MapContext.Context, count: nat)
    requires b.Idle() && ctx.Valid()
    modifies b`objectCount, b`cursor, b`accum, b`canvas, b.linePoints
    ensures b.Idle() && b.accum + KeptCount(count) + 2 < Bulk
    ensures old(b.canvas) <= b.canvas
    ensures count + 2 < Bulk - old(b.cursor) ==> b.Model() == old(b.Model())
  {
    if count + 2 >= Bulk - b.cursor {
      b.FlushLines(ctx);
    }
  }

  /**
   * The loop over the shape points of roadmap_screen_draw_one_line_internal.
   * Returns whether a segment was shown, the last shape point and whether
   * a polyline is still open.
   */
  method WalkShape(b: Screen.Batcher, ctx: MapContext.Context, v: View, from: Position, shape: seq<Position>,
                   pens: seq<Handle>, numPens: int, image: Handle, opposite: bool)
    returns (drawn: int, last: Position, open: bool)
    requires b.Idle() && ctx.Valid() && b.accum + |shape| + 2 < Bulk
    requires 0 <= numPens < |pens|
    modifies b`objectCount, b`cursor, b`accum, b`pointCount, b`canvas,
             b`lastPen, b`lastImage, b`lastOpposite, b.objects, b.linePoints, b.points
    ensures Room(b, open, 0)
    ensures last == ([from] + shape)[|shape|]
    ensures drawn == (if ShownUpTo(v, [from] + shape, |shape|) then 1 else 0)
    ensures open ==> drawn == 1
    ensures old(b.canvas) <= b.canvas
    ensures drawn == 0 ==> b.Model() == old(b.Model())
  {
    ghost var route := [from] + shape;
    ghost var start := b.Model();
    var n := |shape|;
    last := from;
    open := false;
    drawn := 0;
    var i := 0;
    while i < n
      invariant 0 <= i <= n
      invariant last == route[i]
      invariant Room(b, open, n - i)
      invariant drawn == (if ShownUpTo(v, route, i) then 1 else 0)
      invariant open ==> drawn == 1
      invariant old(b.canvas) <= b.canvas
      invariant drawn == 0 ==> b.Model() == start
    {
      var mid := shape[i];
      assert mid == route[i + 1];
      var shown;
      open, shown := StepShape(b, ctx, v, last, mid, n - 1 - i, open, pens, numPens, image, opposite);
      if shown {
        drawn := 1;
      }
      last := mid;
      i := i + 1;
    }
  }

  /**
   * One segment of the loop: when it is shown (and, with a polyline
   * open, is longer than one pixel) its first point starts a polyline
   * unless one is open, and its second point extends the polyline when
   * the segment's end is visible and ends it otherwise; an end flushes
   * the lines when what is left of the shape might not fit behind the
   * cursor. A segment that is not shown changes nothing.
   */
  method StepShape(b: Screen.Batcher, ctx: MapContext.Context, v: View, last: Position, mid: Position,
                   rest: int, open: bool, pens: seq<Handle>, numPens: int, image: Handle, opposite: bool)
    returns (stillOpen: bool, shown: bool)
    requires Room(b, open, rest + 1) && ctx.Valid() && 0 <= rest
    requires 0 <= numPens < |pens|
    modifies b`objectCount, b`cursor, b`accum, b`pointCount, b`canvas,
             b`lastPen, b`lastImage, b`lastOpposite, b.objects, b.linePoints, b.points
    ensures Room(b, stillOpen, rest)
    ensures shown == Shown(v, last, mid)
    ensures stillOpen ==> open || shown
    ensures old(b.canvas) <= b.canvas
    ensures !shown ==> stillOpen == open && b.Model() == old(b.Model())
  {
    var clip := Clip(v, last, mid);
    shown := v.lineVisible(last, mid) && clip.Segment?;
    stillOpen := open;
    if shown && !(clip.p0 == clip.p1 && open) {
      stillOpen := ShowSegment(b, ctx, clip.p0, clip.p1, v.visible(mid), rest, open,
                               pens, numPens, image, opposite);
    }
  }

  /**
   * The end of a shaped line: the segment from the last shape point to
   * the end point extends the open polyline (or starts one) when shown,
   * and an open polyline is then ended with a NULL point. Returns whether
   * anything was drawn here or left open before.
   */
  method FinishLine(b: Screen.Batcher, ctx: MapContext.Context, v: View, last: Position, to: Position,
                    open: bool, pens: seq<Handle>, numPens: int, image: Handle, opposite: bool)
    returns (ended: bool)
    requires Room(b, open, 0) && ctx.Valid()
    requires 0 <= numPens < |pens|
    modifies b`objectCount, b`cursor, b`accum, b`pointCount, b`canvas,
             b`lastPen, b`lastImage, b`lastOpposite, b.objects, b.linePoints, b.points
    ensures b.Idle()
    ensures ended == (open || Shown(v, last, to))
    ensures old(b.canvas) <= b.canvas
    ensures !ended ==> b.Model() == old(b.Model())
  {
    var clip := Clip(v, last, to);
    var lastVisible := open;
    if v.lineVisible(last, to) && clip.Segment? {
      if !lastVisible {
        b.Feed(ctx, Some(clip.p0), pens, numPens, image, Flags(false, false, opposite));
      }
      b.Feed(ctx, Some(clip.p1), pens, numPens, image, Flags(false, false, opposite));
      lastVisible := true;
    }
    if lastVisible {
      b.Feed(ctx, None, pens, numPens, image, Flags(true, false, opposite));
    }
    ended := lastVisible;
  }

  /**
   * A shown segment of a shaped line: its first point starts a
   * polyline unless one is open; its second point extends the polyline
   * when visible and ends it otherwise, and an end flushes the lines when
   * what is left of the shape might not fit behind the cursor. Returns
   * whether the polyline stays open.
   */
  method ShowSegment(b: Screen.Batcher, ctx: MapContext.Context, p0: GuiPoint, p1: GuiPoint,
                     endVisible: bool, rest: int, open: bool,
                     pens: seq<Handle>, numPens: int, image: Handle, opposite: bool)
    returns (stillOpen: bool)
    requires Room(b, open, rest + 1) && ctx.Valid() && 0 <= rest
    requires 0 <= numPens < |pens|
    modifies b`objectCount, b`cursor, b`accum, b`pointCount, b`canvas,
             b`lastPen, b`lastImage, b`lastOpposite, b.objects, b.linePoints, b.points
    ensures Room(b, stillOpen, rest)
    ensures stillOpen == endVisible
    ensures old(b.canvas) <= b.canvas
  {
    if !open {
      b.Feed(ctx, Some(p0), pens, numPens, image, Flags(false, false, opposite));
    }
    stillOpen := endVisible;
    if stillOpen {
      b.Feed(ctx, Some(p1), pens, numPens, image, Flags(false, false, opposite));
    } else {
      b.Feed(ctx, Some(p1), pens, numPens, image, Flags(true, false, opposite));
      if rest + 3 >= Bulk - b.cursor {
        b.FlushLines(ctx);
      }
    }
  }
}
