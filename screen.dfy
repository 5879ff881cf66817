/**
 * The draw batcher of roadmap_screen.c over its fixed buffers: the
 * polyline lengths, the line points with their `real` flags and the
 * isolated points, each ROADMAP_SCREEN_BULK entries long, with the
 * commit cursor, the accumulation position and the current style. Every
 * operation is proved against the value-level functions of the Batch
 * module.
 */
module Screen {
  import opened Geo
  import opened Projection
  import opened Batch
  import MapContext
  import MathHelpers

  class Batcher {
    /** RoadMapScreenObjects.data: polyline (or ring) lengths. */
    const objects: array<int>
    /** RoadMapScreenLinePoints.data and .real. */
    const linePoints: array<GuiPoint>
    const lineReal: array<bool>
    /** RoadMapScreenPoints.data. */
    const points: array<GuiPoint>
    /** The three cursors, as indices, and RoadMapScreenLinePointsAccum. */
    var objectCount: int
    var cursor: int
    var accum: int
    var pointCount: int
    /** RoadMapScreenLastPen, RoadMapScreenLastImage, RoadMapScreenLastOpposite. */
    var lastPen: Handle
    var lastImage: Handle
    var lastOpposite: bool
    /** The canvas calls made so far. */
    var canvas: seq<DrawCall>
    /** RoadMapScreenViewMode == VIEW_MODE_3D, RoadMapScreenLowerEdge and RoadMapScreenAreaDist. */
    var view3D: bool
    var lowerEdge: GuiPoint
    var areaDist: seq<int>

    /** The buffers have their fixed size and every cursor lies within its buffer. */
    ghost predicate Bounded()
      reads this`objectCount, this`cursor, this`accum, this`pointCount
    {
      objects.Length == Bulk && linePoints.Length == Bulk && lineReal.Length == Bulk &&
      points.Length == Bulk && linePoints != points &&
      0 <= objectCount <= Bulk && 0 <= cursor <= Bulk && 0 <= accum <= Bulk &&
      0 <= pointCount <= Bulk
    }

    /** The batcher's invariant: the object lengths add up to the committed point count, and each is at least two. */
    ghost predicate Valid()
      reads this`objectCount, this`cursor, this`accum, this`pointCount, objects
    {
      Bounded() &&
      Sum(objects[..objectCount]) == cursor &&
      (forall k :: 0 <= k < objectCount ==> objects[k] >= 2)
    }

    /** The batcher's state as a value; the pending polyline is empty when the accumulation position is behind the cursor. */
    ghost function Model(): State
      reads this`objectCount, this`cursor, this`accum, this`pointCount, this`lastPen, this`lastImage,
            this`lastOpposite, this`canvas, objects, linePoints, points
      requires Bounded()
    {
      State(objects[..objectCount], linePoints[..cursor],
            if cursor <= accum then linePoints[cursor..accum] else [],
            points[..pointCount], lastPen, lastImage, lastOpposite, canvas)
    }

    lemma ModelWellFormed()
      requires Valid() && cursor <= accum
      ensures WellFormed(Model())
    {
    }

    /** Between drawing calls: the invariant holds, nothing is pending and the line buffer has room. */
    ghost predicate Idle()
      reads this`objectCount, this`cursor, this`accum, this`pointCount, objects
    {
      Valid() && cursor == accum && cursor < Bulk
    }

    lemma ModelSizes()
      requires Bounded() && cursor <= accum
      ensures |Model().committed| == cursor && |Model().pending| == accum - cursor
      ensures |Model().points| == pointCount && |Model().objects| == objectCount
    {
    }

    constructor ()
      ensures Valid() && objectCount == 0 && cursor == 0 && accum == 0 && pointCount == 0
      ensures lastPen == Null && lastImage == Null && !lastOpposite && canvas == []
      ensures !view3D
    {
      objects := new int[Bulk];
      linePoints := new GuiPoint[Bulk](_ => GuiPoint(0, 0));
      lineReal := new bool[Bulk];
      points := new GuiPoint[Bulk](_ => GuiPoint(0, 0));
      objectCount, cursor, accum, pointCount := 0, 0, 0, 0;
      lastPen, lastImage, lastOpposite := Null, Null, false;
      canvas := [];
      view3D, lowerEdge, areaDist := false, GuiPoint(0, 0), [];
    }

    /** roadmap_screen_flush_points. */
    method FlushPoints(ctx: MapContext.Context)
      requires Valid() && ctx.Valid()
      modifies this`pointCount, this`canvas, points
      ensures Valid()
      ensures Model() == Batch.FlushPoints(old(Model()), ctx.Frame())
      ensures linePoints[..] == old(linePoints[..])
    {
      if pointCount == 0 {
        return;
      }
      ctx.RotateCoordinates(pointCount, points);
      canvas := canvas + [DrawPoints(points[..pointCount])];
      pointCount := 0;
    }

    /**
     * roadmap_screen_flush_lines. The tail is moved to the front one point
     * at a time from the lowest index up, which is what memmove does for a
     * move toward lower addresses.
     */
    method FlushLines(ctx: MapContext.Context)
      requires Valid() && ctx.Valid() && cursor < Bulk && cursor <= accum
      modifies this`objectCount, this`cursor, this`accum, this`canvas, linePoints
      ensures Valid() && cursor <= accum
      ensures Model() == Batch.FlushLines(old(Model()), ctx.Frame())
      ensures cursor == 0
      ensures accum - cursor == old(accum - cursor)
      ensures old(canvas) <= canvas
    {
      if objectCount == 0 {
        return;
      }
      ghost var before := Model();
      DrawCommitted(ctx);
      KeepPending();
      ghost var r := Batch.FlushLines(before, ctx.Frame());
      assert objects[..objectCount] == [] == r.objects;
      assert linePoints[..cursor] == [] == r.committed;
      assert Model() == r;
    }

    /** The drawing half of roadmap_screen_flush_lines: turn and project the committed points in place, then draw them unless an image is set. */
    method DrawCommitted(ctx: MapContext.Context)
      requires Valid() && ctx.Valid() && cursor <= accum && objectCount > 0
      modifies this`canvas, linePoints
      ensures linePoints[cursor..accum] == old(linePoints[cursor..accum])
      ensures canvas == old(canvas) +
                (if lastImage.Null?
                 then [DrawLines(objects[..objectCount], RotateAll(ctx.Frame(), old(linePoints[..cursor])))]
                 else [])
    {
      SumAtLeastTwice(objects[..objectCount]);
      ctx.RotateCoordinates(cursor, linePoints);
      assert linePoints[cursor..accum] == old(linePoints[cursor..accum]);
      if lastImage.Null? {
        canvas := canvas + [DrawLines(objects[..objectCount], linePoints[..cursor])];
      }
    }

    /** The bookkeeping half of roadmap_screen_flush_lines: the pending tail moves to the front and both cursors reset. */
    method KeepPending()
      requires Valid() && cursor <= accum && objectCount > 0
      modifies this`objectCount, this`cursor, this`accum, linePoints
      ensures Valid() && objectCount == 0 && cursor == 0 && accum == old(accum - cursor)
      ensures linePoints[..accum] == old(linePoints[cursor..accum])
    {
      SumAtLeastTwice(objects[..objectCount]);
      if cursor < accum {
        MoveTail(cursor, accum - cursor);
        accum := accum - cursor;
      } else {
        accum := 0;
      }
      objectCount := 0;
      cursor := 0;
      assert objects[..objectCount] == [];
    }

    /** The pen roadmap_screen_add_segment_point draws a point with: chosen by perspective layer, or the last pen for a NULL point. */
    ghost function PenFor(point: Option<GuiPoint>, pens: seq<Handle>, numPens: int): Handle
      reads this`view3D, this`lowerEdge, this`areaDist, this`lastPen
      requires point.Some? ==> 0 <= numPens < |pens|
    {
      if point.None? then lastPen
      else if view3D then pens[FirstLayer(MathHelpers.ScreenDistance(point.value, lowerEdge), areaDist, numPens, 0)]
      else pens[0]
    }

    /** The pen choice of roadmap_screen_add_segment_point: the first layer whose distance bound the point is within. */
    method ChoosePen(point: GuiPoint, numPens: int) returns (layer: int)
      requires 0 <= numPens
      ensures layer == (if view3D then FirstLayer(MathHelpers.ScreenDistance(point, lowerEdge), areaDist, numPens, 0) else 0)
    {
      if !view3D {
        return 0;
      }
      var distance := MathHelpers.ScreenDistance(point, lowerEdge);
      layer := 0;
      while layer < |areaDist|
        invariant 0 <= layer <= |areaDist|
        invariant FirstLayer(distance, areaDist, numPens, layer) == FirstLayer(distance, areaDist, numPens, 0)
      {
        if layer == numPens || distance < areaDist[layer] {
          break;
        }
        layer := layer + 1;
      }
    }

    /** The first half of roadmap_screen_add_segment_point: store the point. */
    method PlacePoint(ctx: MapContext.Context, point: Option<GuiPoint>, flags: Flags)
      requires Valid() && ctx.Valid() && cursor <= accum && AddAllowed(Model(), point, flags)
      modifies this`pointCount, this`canvas, this`accum, points, linePoints
      ensures Valid() && cursor == old(cursor) && accum == old(accum) + LineWrites(point, flags)
      ensures Model() == Place(old(Model()), ctx.Frame(), point, flags)
    {
      if point.Some? && flags.asPoint {
        PushPoint(ctx, point.value);
      } else if point.Some? {
        AppendPending(point.value);
      }
    }

    /** An isolated point: flush the point buffer when full, then append. */
    method PushPoint(ctx: MapContext.Context, p: GuiPoint)
      requires Valid() && ctx.Valid() && cursor <= accum
      modifies this`pointCount, this`canvas, points
      ensures Valid() && cursor <= accum
      ensures Model() == Place(old(Model()), ctx.Frame(), Some(p), Flags(false, true, false))
    {
      ghost var t := if pointCount >= Bulk then Batch.FlushPoints(Model(), ctx.Frame()) else Model();
      if pointCount >= Bulk {
        FlushPoints(ctx);
      }
      assert Model() == t;
      points[pointCount] := p;
      pointCount := pointCount + 1;
      assert points[..pointCount] == t.points + [p];
    }

    /** Commit the pending polyline when it has two points or more and a pen is set; otherwise drop it. */
    method ClosePending()
      requires Valid() && cursor <= accum
      modifies this`objectCount, this`cursor, this`accum, objects
      ensures Valid() && cursor == accum
      ensures Model() == Close(old(Model()))
    {
      if lastPen.Ref? && accum - cursor > 1 {
        CommitPending();
      } else {
        ghost var r := Close(Model());
        accum := cursor;
        assert linePoints[cursor..accum] == [];
        assert Model() == r;
      }
    }

    /** The commit: the pending length becomes a new object and the cursor moves past it. */
    method CommitPending()
      requires Valid() && cursor <= accum && lastPen.Ref? && accum - cursor > 1
      modifies this`objectCount, this`cursor, objects
      ensures Valid() && cursor == accum
      ensures Model() == Close(old(Model()))
    {
      ghost var before := Model();
      SumAtLeastTwice(objects[..objectCount]);
      PushObject(accum - cursor);
      SumPush(before.objects, accum - cursor);
      assert forall k :: 0 <= k < objectCount ==> objects[k] >= 2;
      cursor := accum;
      assert linePoints[..cursor] == before.committed + before.pending;
      assert linePoints[cursor..accum] == [];
    }

    /** Append a polyline length to the object buffer. */
    method PushObject(length: int)
      requires Bounded() && objectCount < Bulk
      modifies this`objectCount, objects
      ensures Bounded() && objectCount == old(objectCount) + 1
      ensures objects[..objectCount] == old(objects[..objectCount]) + [length]
      ensures objects[old(objectCount)] == length
      ensures forall k :: 0 <= k < old(objectCount) ==> objects[k] == old(objects[k])
    {
      objects[objectCount] := length;
      objectCount := objectCount + 1;
    }

    /** The style half of roadmap_screen_add_segment_point, once the pending polyline is closed. */
    method ApplyStyle(ctx: MapContext.Context, pen: Handle, image: Handle, opposite: bool)
      requires Valid() && ctx.Valid() && cursor <= accum && cursor < Bulk
      modifies this`objectCount, this`cursor, this`accum, this`pointCount, this`canvas,
               this`lastPen, this`lastImage, this`lastOpposite, linePoints, points
      ensures Valid() && cursor <= accum && accum - cursor == old(accum - cursor)
      ensures Model() == Restyle(old(Model()), ctx.Frame(), pen, image, opposite)
    {
      if lastPen != pen {
        ChangePen(ctx, pen, image, opposite);
      } else if lastImage != image || lastOpposite != opposite {
        ChangeLook(ctx, image, opposite);
      }
    }

    /** A new image or side under the same pen: flush lines, then record the style. */
    method ChangeLook(ctx: MapContext.Context, image: Handle, opposite: bool)
      requires Valid() && ctx.Valid() && cursor <= accum && cursor < Bulk
      requires lastImage != image || lastOpposite != opposite
      modifies this`objectCount, this`cursor, this`accum, this`canvas, this`lastImage, this`lastOpposite, linePoints
      ensures Valid() && cursor <= accum && accum - cursor == old(accum - cursor)
      ensures Model() == Restyle(old(Model()), ctx.Frame(), lastPen, image, opposite)
    {
      FlushLines(ctx);
      SetLook(image, opposite);
    }

    /** Record a new image and side. */
    method SetLook(image: Handle, opposite: bool)
      requires Bounded()
      modifies this`lastImage, this`lastOpposite
      ensures Model() == old(Model()).(lastImage := image, lastOpposite := opposite)
    {
      lastImage, lastOpposite := image, opposite;
    }

    /** A new pen: flush lines, then points, then select the pen and record the style. */
    method ChangePen(ctx: MapContext.Context, pen: Handle, image: Handle, opposite: bool)
      requires Valid() && ctx.Valid() && cursor <= accum && cursor < Bulk && lastPen != pen
      modifies this`objectCount, this`cursor, this`accum, this`pointCount, this`canvas,
               this`lastPen, this`lastImage, this`lastOpposite, linePoints, points
      ensures Valid() && cursor <= accum && accum - cursor == old(accum - cursor)
      ensures Model() == Restyle(old(Model()), ctx.Frame(), pen, image, opposite)
    {
      FlushAll(ctx);
      SetStyle(pen, image, opposite);
    }

    /** Both flushes of a pen change: lines first, then points. */
    method FlushAll(ctx: MapContext.Context)
      requires Valid() && ctx.Valid() && cursor <= accum && cursor < Bulk
      modifies this`objectCount, this`cursor, this`accum, this`pointCount, this`canvas, linePoints, points
      ensures Valid() && cursor <= accum && accum - cursor == old(accum - cursor)
      ensures Model() == Batch.FlushPoints(Batch.FlushLines(old(Model()), ctx.Frame()), ctx.Frame())
    {
      FlushLines(ctx);
      FlushPoints(ctx);
    }

    /** Select the new pen on the canvas when there is one, and record the style. */
    method SetStyle(pen: Handle, image: Handle, opposite: bool)
      requires Bounded()
      modifies this`canvas, this`lastPen, this`lastImage, this`lastOpposite
      ensures Model() == old(Model()).(canvas := old(canvas) + (if pen.Ref? then [SelectPen(pen.id)] else []),
                                       lastPen := pen, lastImage := image, lastOpposite := opposite)
    {
      if pen.Ref? {
        canvas := canvas + [SelectPen(pen.id)];
      }
      lastPen, lastImage, lastOpposite := pen, image, opposite;
    }

    /**
     * roadmap_screen_add_segment_point: store the point, then close the
     * pending polyline and apply the new style when the style changes or
     * the polyline ends, and start the next polyline with the point.
     */
    method AddSegmentPoint(ctx: MapContext.Context, point: Option<GuiPoint>, pens: seq<Handle>,
                           numPens: int, image: Handle, flags: Flags)
      requires Valid() && ctx.Valid() && cursor <= accum
      requires point.Some? ==> 0 <= numPens < |pens|
      requires AddAllowed(Model(), point, flags)
      modifies this`objectCount, this`cursor, this`accum, this`pointCount, this`canvas,
               this`lastPen, this`lastImage, this`lastOpposite, objects, linePoints, points
      ensures Valid() && cursor <= accum
      ensures Model() == Add(old(Model()), ctx.Frame(), point, old(PenFor(point, pens, numPens)), image, flags)
      ensures accum <= old(accum) + LineWrites(point, flags)
      ensures accum - cursor <= old(accum - cursor) + LineWrites(point, flags)
      ensures flags.end && !Ignored(point, old(PenFor(point, pens, numPens)), flags) ==> accum == cursor
      ensures old(canvas) <= canvas
    {
      var pen := lastPen;
      if point.Some? {
        var layer := ChoosePen(point.value, numPens);
        pen := pens[layer];
        if flags.asPoint && pen.Null? {
          return;
        }
      }
      assert pen == PenFor(point, pens, numPens);
      StorePoint(ctx, point, pen, image, flags);
    }

    /**
     * roadmap_screen_add_segment_point as the feeders see it: the
     * invariant holds, the line buffer grows by at most the point stored,
     * an end leaves nothing pending, and the canvas only grows.
     */
    method Feed(ctx: MapContext.Context, point: Option<GuiPoint>, pens: seq<Handle>,
                numPens: int, image: Handle, flags: Flags)
      requires Valid() && ctx.Valid() && cursor <= accum
      requires point.Some? ==> 0 <= numPens < |pens|
      requires (point.None? ==> flags.end) && accum + LineWrites(point, flags) < Bulk
      modifies this`objectCount, this`cursor, this`accum, this`pointCount, this`canvas,
               this`lastPen, this`lastImage, this`lastOpposite, objects, linePoints, points
      ensures Valid() && cursor <= accum
      ensures accum <= old(accum) + LineWrites(point, flags)
      ensures accum - cursor <= old(accum - cursor) + LineWrites(point, flags)
      ensures flags.end && !flags.asPoint ==> accum == cursor
      ensures old(canvas) <= canvas
    {
      ModelSizes();
      AddSegmentPoint(ctx, point, pens, numPens, image, flags);
    }

    /** roadmap_screen_add_segment_point once the pen is chosen and the point is not ignored. */
    method StorePoint(ctx: MapContext.Context, point: Option<GuiPoint>, pen: Handle, image: Handle, flags: Flags)
      requires Valid() && ctx.Valid() && cursor <= accum
      requires AddAllowed(Model(), point, flags) && !Ignored(point, pen, flags)
      modifies this`objectCount, this`cursor, this`accum, this`pointCount, this`canvas,
               this`lastPen, this`lastImage, this`lastOpposite, objects, linePoints, points
      ensures Valid() && cursor <= accum
      ensures Model() == Add(old(Model()), ctx.Frame(), point, pen, image, flags)
      ensures accum <= old(accum) + LineWrites(point, flags)
      ensures accum - cursor <= old(accum - cursor) + LineWrites(point, flags)
      ensures flags.end ==> accum == cursor
      ensures old(canvas) <= canvas
    {
      ghost var f := ctx.Frame();
      ghost var before := Model();
      ModelWellFormed();
      AddKeepsInvariant(before, f, point, pen, image, flags);
      ghost var s1 := Place(before, f, point, flags);
      PlacePoint(ctx, point, flags);
      assert Model() == s1;
      if lastPen != pen || flags.end || lastImage != image || lastOpposite != flags.opposite {
        BreakPolyline(ctx, point, pen, image, flags);
      }
    }

    /** Close the pending polyline, apply the new style, and start the next polyline with the point. */
    method BreakPolyline(ctx: MapContext.Context, point: Option<GuiPoint>, pen: Handle, image: Handle, flags: Flags)
      requires Valid() && ctx.Valid() && cursor <= accum < Bulk
      requires point.None? ==> flags.end
      requires lastPen != pen || flags.end || lastImage != image || lastOpposite != flags.opposite
      requires !flags.end && !flags.asPoint ==> cursor < accum
      modifies this`objectCount, this`cursor, this`accum, this`pointCount, this`canvas,
               this`lastPen, this`lastImage, this`lastOpposite, objects, linePoints, points
      ensures Valid() && cursor <= accum
      ensures Model() == Break(old(Model()), ctx.Frame(), point, pen, image, flags)
      ensures accum <= old(accum) && accum - cursor == (if !flags.end && !flags.asPoint then 1 else 0)
    {
      ghost var f := ctx.Frame();
      ghost var before := Model();
      ModelWellFormed();
      BreakBounds(before, f, point, pen, image, flags);
      ghost var s2 := Close(before);
      ClosePending();
      assert Model() == s2;
      ghost var s3 := Restyle(s2, f, pen, image, flags.opposite);
      ApplyStyle(ctx, pen, image, flags.opposite);
      assert Model() == s3;
      if !flags.end && !flags.asPoint {
        assert accum == cursor;
        AppendPending(point.value);
      }
      ghost var r := Break(before, f, point, pen, image, flags);
      assert Model() == r;
      assert |r.committed| == cursor && |r.pending| == accum - cursor;
    }

    /** Start the next polyline with a point. */
    method AppendPending(p: GuiPoint)
      requires Valid() && cursor <= accum < Bulk
      modifies this`accum, linePoints
      ensures Valid() && cursor <= accum
      ensures accum == old(accum) + 1
      ensures Model() == old(Model()).(pending := old(Model()).pending + [p])
    {
      linePoints[accum] := p;
      accum := accum + 1;
      assert linePoints[..cursor] == old(linePoints[..cursor]);
      assert linePoints[cursor..accum] == old(linePoints[cursor..accum]) + [p];
    }

    /** The memmove of roadmap_screen_flush_lines: `count` points from `start` to the front, lowest index first. */
    method MoveTail(start: int, count: int)
      requires 0 < start && 0 <= count && start + count <= linePoints.Length
      modifies linePoints
      ensures linePoints[..count] == old(linePoints[start..start + count])
    {
      ghost var tail := linePoints[start..start + count];
      var k := 0;
      while k < count
        invariant 0 <= k <= count
        invariant forall m :: 0 <= m < k ==> linePoints[m] == tail[m]
        invariant forall m :: k <= m < count ==> linePoints[start + m] == tail[m]
      {
        linePoints[k] := linePoints[start + k];
        k := k + 1;
      }
    }
  }
}
