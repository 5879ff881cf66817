/**
 * The polygon pass of roadmap_screen.c: roadmap_screen_flush_polygons
 * over the batcher's buffers (mark the outline edges, turn the points,
 * fill the rings, outline their marked runs) and
 * roadmap_screen_draw_polygons, which turns every polygon into one closed
 * ring and flushes it. Each method is proved against the value-level
 * functions of this module and of Rings.
 */
module Polygons {
  import opened CInt
  import opened Geo
  import opened Projection
  import opened Batch
  import opened Rings
  import Screen
  import MapContext

  /** A polygon vertex as stored on the map, and whether POINT_FAKE_FLAG marks it as a cut made by a tile edge. */
  datatype GeoVertex = GeoVertex(position: Position, fake: bool)

  /** A polygon of the map: its layer category, its bounding box and its vertices. */
  datatype Polygon = Polygon(category: int, edges: Area, vertices: seq<GeoVertex>)

  /**
   * What the polygon pass asks of others: roadmap_layer_get_pen (the
   * pen of a category for a pen type, NULL when none), roadmap_math_is_visible
   * and roadmap_math_coordinate.
   */
  datatype Env = Env(penOf: (int, int) -> Handle, isVisible: Area -> bool, coordinate: Position -> GuiPoint)

  /** The pen and the canvas calls, carried from polygon to polygon; the buffers are empty in between. */
  datatype Paint = Paint(lastPen: Handle, canvas: seq<DrawCall>)

  function Points(ring: seq<Vertex>): (r: seq<GuiPoint>)
    ensures |r| == |ring| && forall k :: 0 <= k < |ring| ==> r[k] == ring[k].point
  {
    seq(|ring|, k requires 0 <= k < |ring| => ring[k].point)
  }

  function RealFlags(ring: seq<Vertex>): (r: seq<bool>)
    ensures |r| == |ring| && forall k :: 0 <= k < |ring| ==> r[k] == ring[k].isReal
  {
    seq(|ring|, k requires 0 <= k < |ring| => ring[k].isReal)
  }

  /**
   * The canvas calls of roadmap_screen_flush_polygons: nothing for an
   * empty buffer; otherwise the rings, turned and projected, filled in
   * one call, then with an outline pen the marked runs of every ring as
   * polylines of thickness 1, between selecting that pen and restoring
   * the previous one.
   */
  function FlushCalls(f: Frame, objects: seq<int>, pts: seq<GuiPoint>, flags: seq<bool>, outline: Handle): seq<DrawCall>
    requires ValidFrame(f) && AllAtLeastTwo(objects) && |pts| == |flags| == Sum(objects)
  {
    if objects == [] then []
    else
      var rotated := RotateAll(f, pts);
      [DrawPolygons(objects, rotated)] +
      (if outline.Ref?
       then [SelectPen(outline.id), SetThickness(1)] + Outlines(objects, rotated, Marked(objects, pts, flags)) + [RestorePen]
       else [])
  }

  /** The screen vertices of a polygon: each vertex drawn where roadmap_math_coordinate puts it, real unless fake. */
  function ScreenVertices(coordinate: Position -> GuiPoint, vs: seq<GeoVertex>): (r: seq<Vertex>)
    ensures |r| == |vs|
    ensures forall k :: 0 <= k < |vs| ==> r[k] == Vertex(coordinate(vs[k].position), !vs[k].fake)
  {
    seq(|vs|, k requires 0 <= k < |vs| => Vertex(coordinate(vs[k].position), !vs[k].fake))
  }

  /**
   * roadmap_polygon_points, whose code is not part of this model: the
   * number of vertices it copies, taken to be all of them when they fit
   * in `room` and none otherwise.
   */
  function Fetch(p: Polygon, room: int): (size: int)
    ensures 0 <= size <= |p.vertices| && (0 <= room ==> size <= room)
    ensures size == |p.vertices| || size == 0
  {
    if |p.vertices| <= room then |p.vertices| else 0
  }

  /** The screen corners of the polygon's bounding box, north-west and south-east. */
  function UpperLeft(env: Env, p: Polygon): GuiPoint
  {
    env.coordinate(Position(p.edges.west, p.edges.north))
  }

  function LowerRight(env: Env, p: Polygon): GuiPoint
  {
    env.coordinate(Position(p.edges.east, p.edges.south))
  }

  /** The vertices kept for a visible polygon: its fetched screen vertices, repeated points collapsed. */
  function Kept(env: Env, p: Polygon): seq<Vertex>
  {
    Collapse(ScreenVertices(env.coordinate, p.vertices[..Fetch(p, Bulk - 1)]))
  }

  /**
   * The calls one polygon adds after its pen is selected: none when its
   * bounding box is not visible, when it is a quasi-point, or when no
   * vertex is left; otherwise its closed ring, filled and outlined with
   * the category's second pen.
   */
  function RingCalls(f: Frame, env: Env, p: Polygon): seq<DrawCall>
    requires ValidFrame(f)
  {
    if !env.isVisible(p.edges) || QuasiPoint(UpperLeft(env, p), LowerRight(env, p)) then []
    else
      var kept := Kept(env, p);
      if kept == [] then []
      else
        var ring := Ring(kept);
        FlushCalls(f, [|ring|], Points(ring), RealFlags(ring), env.penOf(p.category, 1))
  }

  /** One step of roadmap_screen_draw_polygons: skip a polygon without a fill pen, select a pen that changed, then draw the ring. */
  function PaintPolygon(f: Frame, env: Env, s: Paint, p: Polygon): Paint
    requires ValidFrame(f)
  {
    var pen := env.penOf(p.category, 0);
    if pen.Null? then s
    else
      var selected := if s.lastPen != pen then s.canvas + [SelectPen(pen.id)] else s.canvas;
      Paint(pen, selected + RingCalls(f, env, p))
  }

  /** The whole pass: the polygons from the last to the first. */
  function PaintAll(f: Frame, env: Env, s: Paint, polys: seq<Polygon>): Paint
    requires ValidFrame(f)
    decreases |polys|
  {
    if polys == [] then s
    else PaintAll(f, env, PaintPolygon(f, env, s, polys[|polys| - 1]), polys[..|polys| - 1])
  }

  /** The fill pen of the first polygon that has one, or `pen` when none has. */
  function FirstPen(env: Env, polys: seq<Polygon>, pen: Handle): Handle
  {
    if polys == [] then pen
    else if env.penOf(polys[0].category, 0).Ref? then env.penOf(polys[0].category, 0)
    else FirstPen(env, polys[1..], pen)
  }

  /**
   * The pass only appends to the canvas, and it ends with the fill pen
   * of the lowest-numbered polygon that has one, the last one it draws.
   */
  lemma {:induction false} PaintAllEffect(f: Frame, env: Env, s: Paint, polys: seq<Polygon>)
    requires ValidFrame(f)
    ensures s.canvas <= PaintAll(f, env, s, polys).canvas
    ensures PaintAll(f, env, s, polys).lastPen ==
            (if polys == [] then s.lastPen
             else FirstPen(env, polys[..|polys| - 1], PaintPolygon(f, env, s, polys[|polys| - 1]).lastPen))
    decreases |polys|
  {
    if polys != [] {
      var pre := polys[..|polys| - 1];
      var next := PaintPolygon(f, env, s, polys[|polys| - 1]);
      PaintAllEffect(f, env, next, pre);
      if pre != [] {
        FirstPenSplit(env, pre, next.lastPen);
      }
    }
  }

  lemma {:induction false} FirstPenSplit(env: Env, polys: seq<Polygon>, pen: Handle)
    requires polys != []
    ensures FirstPen(env, polys, pen) ==
            FirstPen(env, polys[..|polys| - 1],
                     if env.penOf(polys[|polys| - 1].category, 0).Ref? then env.penOf(polys[|polys| - 1].category, 0) else pen)
  {
    if |polys| > 1 {
      FirstPenSplit(env, polys[1..], pen);
      assert polys[1..][..|polys| - 2] == polys[..|polys| - 1][1..];
    }
  }

  /** A polygon drawn as a quasi-point, or without a visible bounding box, adds at most the selection of its pen. */
  lemma SkippedPolygon(f: Frame, env: Env, s: Paint, p: Polygon)
    requires ValidFrame(f) && env.penOf(p.category, 0).Ref?
    requires !env.isVisible(p.edges) || QuasiPoint(UpperLeft(env, p), LowerRight(env, p))
    ensures PaintPolygon(f, env, s, p).canvas ==
            s.canvas + (if s.lastPen != env.penOf(p.category, 0) then [SelectPen(env.penOf(p.category, 0).id)] else [])
  {
  }

  /** Flushing a single ring fills it as one polygon of its own length. */
  lemma FlushOneRing(f: Frame, ring: seq<Vertex>, outline: Handle)
    requires ValidFrame(f) && |ring| >= 2
    ensures AllAtLeastTwo([|ring|]) && Sum([|ring|]) == |ring|
    ensures var calls := FlushCalls(f, [|ring|], Points(ring), RealFlags(ring), outline);
            calls != [] && calls[0] == DrawPolygons([|ring|], RotateAll(f, Points(ring)))
  {
    assert [|ring|][..0] == [];
  }

  /**
   * A polygon that is drawn is filled as exactly one ring: its kept
   * vertices closed by repeating the first, turned and projected.
   */
  lemma DrawnRing(f: Frame, env: Env, p: Polygon)
    requires ValidFrame(f) && RingCalls(f, env, p) != []
    ensures var kept := Kept(env, p);
            kept != [] && |kept| + 1 <= Bulk && Ring(kept)[|kept|] == kept[0] &&
            RingCalls(f, env, p)[0] == DrawPolygons([|kept| + 1], RotateAll(f, Points(Ring(kept))))
  {
    FlushOneRing(f, Ring(Kept(env, p)), env.penOf(p.category, 1));
  }

  /**
   * The kept vertices of a polygon: no two consecutive points equal,
   * each one a fetched vertex, and every fetched vertex's point kept.
   */
  lemma KeptVertices(env: Env, p: Polygon)
    ensures var kept := Kept(env, p);
            var vs := ScreenVertices(env.coordinate, p.vertices[..Fetch(p, Bulk - 1)]);
            (forall k :: 0 <= k < |kept| - 1 ==> kept[k].point != kept[k + 1].point) &&
            (forall k :: 0 <= k < |kept| ==> kept[k] in vs) &&
            (forall j :: 0 <= j < |vs| ==> Rings.Kept(kept, vs[j].point))
  {
    var vs := ScreenVertices(env.coordinate, p.vertices[..Fetch(p, Bulk - 1)]);
    var kept := CollapseFrom(None, vs);
    assert Kept(env, p) == kept;
    assert forall k :: 0 <= k < |kept| - 1 ==> kept[k].point != kept[k + 1].point by {
      CollapseDistinct(None, vs);
      assert kept == CollapseFrom(None, vs);
    }
    assert forall k :: 0 <= k < |kept| ==> kept[k] in vs by {
      CollapseFromInput(None, vs);
    }
    assert forall j :: 0 <= j < |vs| ==> Rings.Kept(kept, vs[j].point) by {
      CollapseLosesNothing(None, vs);
      forall j | 0 <= j < |vs|
        ensures Rings.Kept(kept, vs[j].point)
      {
        assert Some(vs[j].point) != None;
      }
    }
  }

  /** The outline of a flushed ring draws only runs of marked edges, each maximal and of two points or more. */
  lemma OutlineRuns(pts: seq<GuiPoint>, flags: seq<bool>)
    requires |pts| == |flags| >= 2
    ensures var edges := MarkRing(pts, flags)[..|pts| - 1];
            RunsBefore(edges, RingRuns(edges), |edges| + 1) &&
            |RingOutline(pts, MarkRing(pts, flags))| == |RingRuns(edges)|
  {
    var marked := MarkRing(pts, flags);
    var edges := marked[..|marked| - 1];
    RingRunsMaximal(edges);
    RingRunsFit(edges);
    assert RingOutline(pts, marked) == RunCalls(pts, RingRuns(edges));
  }

  /**
   * The marking pass of roadmap_screen_flush_polygons over one ring in
   * place: each edge's flag becomes set when either end is real or the
   * edge is diagonal, reading the next vertex's flag before it changes.
   */
  method MarkRingInPlace(pts: array<GuiPoint>, marks: array<bool>, start: int, len: int)
    requires 0 <= start && 1 <= len && start + len <= pts.Length == marks.Length
    modifies marks
    ensures marks[start..start + len] == MarkRing(pts[start..start + len], old(marks[start..start + len]))
    ensures marks[..start] == old(marks[..start]) && marks[start + len..] == old(marks[start + len..])
    ensures RingMarked(marks[..], old(marks[..]), pts[..], start, len)
  {
    ghost var ring := pts[start..start + len];
    ghost var flags := marks[start..start + len];
    ghost var marked := MarkRing(ring, flags);
    var pos := start;
    while pos < start + len - 1
      invariant start <= pos <= start + len - 1
      invariant forall k :: start <= k < pos ==> marks[k] == marked[k - start]
      invariant forall k :: 0 <= k < start ==> marks[k] == old(marks[k])
      invariant forall k :: pos <= k < marks.Length ==> marks[k] == old(marks[k])
    {
      ghost var j := pos - start;
      assert marks[pos] == flags[j] && marks[pos + 1] == flags[j + 1];
      assert pts[pos] == ring[j] && pts[pos + 1] == ring[j + 1];
      MarkRingAt(ring, flags, j);
      marks[pos] := marks[pos] || marks[pos + 1] || Diagonal(pts[pos], pts[pos + 1]);
      pos := pos + 1;
    }
    RingWritten(marks[..], old(marks[..]), pts[..], start, len, marked);
  }

  /** `now` is `was` with ring `start`, `len` marked against the points `pts`, as whole sequences. */
  ghost predicate RingMarked(now: seq<bool>, was: seq<bool>, pts: seq<GuiPoint>, start: int, len: int)
  {
    0 <= start && 1 <= len && start + len <= |now| == |was| && start + len <= |pts| &&
    now[start..start + len] == MarkRing(pts[start..start + len], was[start..start + len]) &&
    now[..start] == was[..start] && now[start + len..] == was[start + len..]
  }

  /** Flags that agree with `marked` on a ring and with the old flags elsewhere, as slices. */
  lemma RingWritten(now: seq<bool>, was: seq<bool>, pts: seq<GuiPoint>, start: int, len: int, marked: seq<bool>)
    requires 0 <= start && 1 <= len && start + len <= |now| == |was| && start + len <= |pts|
    requires marked == MarkRing(pts[start..start + len], was[start..start + len])
    requires marked[len - 1] == was[start + len - 1]
    requires forall k :: start <= k < start + len - 1 ==> now[k] == marked[k - start]
    requires forall k :: 0 <= k < start ==> now[k] == was[k]
    requires forall k :: start + len - 1 <= k < |now| ==> now[k] == was[k]
    ensures now[start..start + len] == marked
    ensures now[..start] == was[..start] && now[start + len..] == was[start + len..]
    ensures RingMarked(now, was, pts, start, len)
  {
  }

  /** The rings marked so far, followed by the next ring marked on its own, are the marking of one more ring. */
  lemma MarkStep(objects: seq<int>, len: int, pts: seq<GuiPoint>, flags: seq<bool>, done: seq<bool>, ring: seq<bool>)
    requires AllAtLeastTwo(objects) && len >= 2 && 0 <= Sum(objects)
    requires Sum(objects) + len <= |pts| == |flags|
    requires done == Marked(objects, pts[..Sum(objects)], flags[..Sum(objects)])
    requires ring == MarkRing(pts[Sum(objects)..Sum(objects) + len], flags[Sum(objects)..Sum(objects) + len])
    ensures var n := Sum(objects) + len;
            AllAtLeastTwo(objects + [len]) && Sum(objects + [len]) == n &&
            done + ring == Marked(objects + [len], pts[..n], flags[..n])
  {
    var pos := Sum(objects);
    var n := pos + len;
    PrefixSplit(pts, pos, n);
    PrefixSplit(flags, pos, n);
    MarkedPush(objects, len, pts[..n], flags[..n]);
  }

  /**
   * The state of the marking pass after `i` rings: the first `pos` flags
   * are the marking of those rings and the rest are untouched.
   */
  ghost predicate MarkedUpTo(lengths: seq<int>, i: int, pos: int, pts: seq<GuiPoint>, flags: seq<bool>, current: seq<bool>)
  {
    AllAtLeastTwo(lengths) && 0 <= i <= |lengths| && Sum(lengths) <= |pts| == |flags| == |current| &&
    0 <= pos == Sum(lengths[..i]) <= Sum(lengths) && AllAtLeastTwo(lengths[..i]) &&
    current[..pos] == Marked(lengths[..i], pts[..pos], flags[..pos]) && current[pos..] == flags[pos..]
  }

  /** The next ring of the marking pass lies inside the buffer. */
  lemma NextRingFits(lengths: seq<int>, i: int, pos: int, pts: seq<GuiPoint>, flags: seq<bool>, current: seq<bool>)
    requires MarkedUpTo(lengths, i, pos, pts, flags, current) && i < |lengths|
    ensures 2 <= lengths[i] && pos + lengths[i] <= |pts|
  {
    SumPrefix(lengths, i);
    SumPrefix(lengths, i + 1);
  }

  /**
   * One ring of the marking pass, on snapshots of the flags before and
   * after ring `i` is marked in place: the rings marked so far grow by one.
   */
  lemma MarkAdvance(lengths: seq<int>, i: int, pos: int, pts: seq<GuiPoint>, flags: seq<bool>,
                    before: seq<bool>, after: seq<bool>)
    requires MarkedUpTo(lengths, i, pos, pts, flags, before) && i < |lengths|
    requires RingMarked(after, before, pts, pos, lengths[i])
    ensures MarkedUpTo(lengths, i + 1, pos + lengths[i], pts, flags, after)
  {
    var len := lengths[i];
    var end := pos + len;
    SumPrefix(lengths, i);
    SumPrefix(lengths, i + 1);
    PrefixPush(lengths, i);
    SuffixAgree(before, flags, pos, pos, end);
    MarkStep(lengths[..i], len, pts, flags, after[..pos], after[pos..end]);
    assert after[..end] == after[..pos] + after[pos..end];
  }

  /** The marking pass over every ring in the buffer, one after the other. */
  method MarkAll(objects: array<int>, count: int, pts: array<GuiPoint>, marks: array<bool>)
    requires 0 <= count <= objects.Length && AllAtLeastTwo(objects[..count])
    requires Sum(objects[..count]) <= pts.Length == marks.Length
    modifies marks
    ensures var n := Sum(objects[..count]);
            0 <= n && marks[..n] == Marked(objects[..count], pts[..n], old(marks[..n])) && marks[n..] == old(marks[n..])
  {
    ghost var flags := marks[..];
    ghost var points := pts[..];
    ghost var lengths := objects[..count];
    SumAtLeastTwice(lengths);
    assert lengths[..0] == [];
    var i := 0;
    var pos := 0;
    while i < count
      invariant i <= count && MarkedUpTo(lengths, i, pos, points, flags, marks[..])
    {
      ghost var before := marks[..];
      NextRingFits(lengths, i, pos, points, flags, before);
      var len := objects[i];
      MarkRingInPlace(pts, marks, pos, len);
      MarkAdvance(lengths, i, pos, points, flags, before, marks[..]);
      pos := pos + len;
      i := i + 1;
    }
    assert lengths[..count] == lengths;
  }

  /**
   * The outline loop of roadmap_screen_flush_polygons over one ring: a
   * marked edge extends the run, an unmarked one ends it and draws it
   * when it has two points or more, and the last run is drawn at the end.
   */
  method RingOutlineCalls(pts: array<GuiPoint>, marks: array<bool>, start: int, len: int)
    returns (calls: seq<DrawCall>)
    requires 0 <= start && 2 <= len && start + len <= pts.Length == marks.Length
    ensures calls == RingOutlineAt(pts[..], marks[..], start, len)
  {
    var ring := pts[start..start + len];
    var flags := marks[start..start + len];
    calls := ScanOutline(ring, flags);
    assert pts[..][start..start + len] == ring;
    assert marks[..][start..start + len] == flags;
  }

  /** The outline loop on one ring's points and flags. */
  method ScanOutline(ring: seq<GuiPoint>, flags: seq<bool>) returns (calls: seq<DrawCall>)
    requires |ring| == |flags| >= 2
    ensures calls == RingOutline(ring, flags)
  {
    var len := |ring|;
    ghost var edges := flags[..len - 1];
    var pointCount := 1;
    var j := 1;
    calls := [];
    while j < len
      invariant 1 <= j <= len
      invariant pointCount == ScanRuns(edges, j - 1).points
      invariant calls == ScanCalls(ring, edges, j - 1)
    {
      ScanCallsStep(ring, edges, j);
      assert flags[j - 1] == edges[j - 1];
      if flags[j - 1] {
        pointCount := pointCount + 1;
      } else if pointCount > 1 {
        calls := calls + [DrawLines([pointCount], ring[j - pointCount..j])];
        pointCount := 1;
      }
      j := j + 1;
    }
    RingOutlineClose(ring, flags);
    if pointCount > 1 {
      calls := calls + [DrawLines([pointCount], ring[len - pointCount..])];
    }
  }

  /** The outline loop over every ring in the buffer. */
  method OutlineCalls(objects: array<int>, count: int, pts: array<GuiPoint>, marks: array<bool>)
    returns (calls: seq<DrawCall>)
    requires 0 <= count <= objects.Length && AllAtLeastTwo(objects[..count])
    requires Sum(objects[..count]) <= pts.Length == marks.Length
    ensures var n := Sum(objects[..count]);
            0 <= n && calls == Outlines(objects[..count], pts[..n], marks[..n])
  {
    ghost var lengths := objects[..count];
    SumAtLeastTwice(lengths);
    ghost var n := Sum(lengths);
    ghost var points := pts[..];
    ghost var marked := marks[..];
    var i := 0;
    var pos := 0;
    calls := [];
    while i < count
      invariant 0 <= i <= count && 0 <= pos
      invariant pos == Sum(lengths[..i]) <= n && AllAtLeastTwo(lengths[..i])
      invariant calls == Outlines(lengths[..i], points, marked)
    {
      var len := objects[i];
      OutlinesNext(lengths, i, points, marked);
      var ring := RingOutlineCalls(pts, marks, pos, len);
      calls := calls + ring;
      pos := pos + len;
      i := i + 1;
    }
    assert lengths[..count] == lengths;
    OutlinesPrefix(lengths, points, marked, n);
  }

  /**
   * The drawing part of roadmap_screen_flush_polygons on the buffers:
   * with an outline pen, mark the outline edges; turn and project the
   * `total` buffered points in place; fill the rings in one call; with an
   * outline pen, draw the marked runs between selecting it and restoring
   * the previous pen.
   */
  method FlushRings(objects: array<int>, count: int, pts: array<GuiPoint>, marks: array<bool>, total: int,
                    ctx: MapContext.Context, outline: Handle)
    returns (calls: seq<DrawCall>)
    requires 0 < count <= objects.Length && AllAtLeastTwo(objects[..count])
    requires total == Sum(objects[..count]) <= pts.Length == marks.Length
    requires ctx.Valid()
    modifies pts, marks
    ensures 0 <= total
    ensures calls == FlushCalls(ctx.Frame(), objects[..count], old(pts[..total]), old(marks[..total]), outline)
  {
    ghost var f := ctx.Frame();
    ghost var lengths := objects[..count];
    SumAtLeastTwice(lengths);
    ghost var before := pts[..total];
    ghost var flags := marks[..total];
    if outline.Ref? {
      MarkAll(objects, count, pts, marks);
    }
    ghost var marked := marks[..total];
    ctx.RotateCoordinates(total, pts);
    ghost var rotated := pts[..total];
    assert rotated == RotateAll(f, before);
    assert marks[..total] == marked;
    var fill := DrawPolygons(objects[..count], pts[..total]);
    if outline.Ref? {
      var outs := OutlineCalls(objects, count, pts, marks);
      assert outs == Outlines(lengths, rotated, Marked(lengths, before, flags));
      calls := [fill] + ([SelectPen(outline.id), SetThickness(1)] + outs + [RestorePen]);
    } else {
      calls := [fill] + [];
    }
    FlushCallsNonEmpty(f, lengths, before, flags, outline);
    assert ctx.Frame() == f;
  }

  /** With rings in the buffer, the flush fills them and then draws the outline, if any. */
  lemma FlushCallsNonEmpty(f: Frame, objects: seq<int>, pts: seq<GuiPoint>, flags: seq<bool>, outline: Handle)
    requires ValidFrame(f) && AllAtLeastTwo(objects) && |pts| == |flags| == Sum(objects) && objects != []
    ensures var rotated := RotateAll(f, pts);
            FlushCalls(f, objects, pts, flags, outline) ==
              [DrawPolygons(objects, rotated)] +
              if outline.Ref?
              then [SelectPen(outline.id), SetThickness(1)] + Outlines(objects, rotated, Marked(objects, pts, flags)) + [RestorePen]
              else []
  {
  }

  /**
   * roadmap_screen_flush_polygons: with rings in the buffer, draw them
   * as above and empty the buffer; the accumulation position is left
   * alone.
   */
  method FlushPolygons(b: Screen.Batcher, ctx: MapContext.Context, outline: Handle)
    requires b.Valid() && ctx.Valid()
    modifies b`objectCount, b`cursor, b`canvas, b.linePoints, b.lineReal
    ensures b.Valid() && b.objectCount == 0 && b.cursor == 0
    ensures b.canvas == old(b.canvas) +
              FlushCalls(ctx.Frame(), old(b.objects[..b.objectCount]), old(b.linePoints[..b.cursor]),
                         old(b.lineReal[..b.cursor]), outline)
  {
    if b.objectCount == 0 {
      return;
    }
    var calls := FlushRings(b.objects, b.objectCount, b.linePoints, b.lineReal, b.cursor, ctx, outline);
    b.canvas := b.canvas + calls;
    b.objectCount := 0;
    b.cursor := 0;
    assert b.objects[..b.objectCount] == [];
  }

  /**
   * The vertex loop of roadmap_screen_draw_polygons: each vertex is
   * written at the next free slot with its real flag, and the slot is
   * taken unless its point repeats the last one kept. Returns how many
   * vertices were kept.
   */
  method BuildRing(pts: array<GuiPoint>, marks: array<bool>, start: int,
                   coordinate: Position -> GuiPoint, vs: seq<GeoVertex>)
    returns (kept: int)
    requires 0 <= start && start + |vs| <= pts.Length == marks.Length
    modifies pts, marks
    ensures kept <= |vs|
    ensures var ring := Collapse(ScreenVertices(coordinate, vs));
            kept == |ring| &&
            forall k :: 0 <= k < kept ==> pts[start + k] == ring[k].point && marks[start + k] == ring[k].isReal
    ensures forall k :: 0 <= k < start ==> pts[k] == old(pts[k]) && marks[k] == old(marks[k])
  {
    ghost var screen := ScreenVertices(coordinate, vs);
    kept := 0;
    var j := 0;
    while j < |vs|
      invariant 0 <= j <= |vs| && 0 <= kept <= j
      invariant kept == |Collapse(screen[..j])|
      invariant forall k :: 0 <= k < kept ==>
                  pts[start + k] == Collapse(screen[..j])[k].point && marks[start + k] == Collapse(screen[..j])[k].isReal
      invariant forall k :: 0 <= k < start ==> pts[k] == old(pts[k]) && marks[k] == old(marks[k])
    {
      ghost var before := Collapse(screen[..j]);
      assert screen[..j + 1][..j] == screen[..j];
      var point := coordinate(vs[j].position);
      pts[start + kept] := point;
      marks[start + kept] := !vs[j].fake;
      if kept == 0 || pts[start + kept - 1] != point {
        kept := kept + 1;
      }
      assert Collapse(screen[..j + 1]) == if kept == |before| then before else before + [screen[j]];
      j := j + 1;
    }
    assert screen[..|vs|] == screen;
  }

  /** Close the ring: repeat its first point and flag after the last kept one, and record its length as one object. */
  method CloseRing(b: Screen.Batcher, kept: int)
    requires b.Valid() && b.objectCount == 0 && 1 <= kept < Bulk
    modifies b`objectCount, b`cursor, b.objects, b.linePoints, b.lineReal
    ensures b.Valid() && b.objectCount == 1 && b.cursor == kept + 1 && b.objects[..1] == [kept + 1]
    ensures b.linePoints[..kept + 1] == old(b.linePoints[..kept]) + [old(b.linePoints[0])]
    ensures b.lineReal[..kept + 1] == old(b.lineReal[..kept]) + [old(b.lineReal[0])]
  {
    b.linePoints[kept] := b.linePoints[0];
    b.lineReal[kept] := b.lineReal[0];
    b.objects[0] := kept + 1;
    b.objectCount := 1;
    b.cursor := kept + 1;
    assert b.objects[..1] == [kept + 1];
    assert b.objects[..1][..0] == [];
  }

  /**
   * The ring of one polygon whose pen is selected: skip it unless its
   * bounding box is visible and larger than a quasi-point, fetch its
   * vertices (after a flush when they do not fit), collapse them into
   * the buffer, close the ring and flush it with the outline pen.
   */
  method FillPolygon(b: Screen.Batcher, ctx: MapContext.Context, env: Env, p: Polygon)
    requires b.Valid() && ctx.Valid() && b.objectCount == 0
    modifies b`objectCount, b`cursor, b`canvas, b.objects, b.linePoints, b.lineReal
    ensures b.Valid() && b.objectCount == 0
    ensures b.canvas == old(b.canvas) + RingCalls(ctx.Frame(), env, p)
  {
    if !env.isVisible(p.edges) {
      return;
    }
    var upperLeft := env.coordinate(Position(p.edges.west, p.edges.north));
    var lowerRight := env.coordinate(Position(p.edges.east, p.edges.south));
    if Abs(upperLeft.x - lowerRight.x) < 5 && Abs(upperLeft.y - lowerRight.y) < 5 {
      return;
    }
    var kept := LoadRing(b, ctx, env, p);
    if kept > 0 {
      FlushPolygons(b, ctx, env.penOf(p.category, 1));
    }
  }

  /**
   * Fetch a polygon's vertices into the empty buffer (flushing first
   * when they do not fit), collapse them, and close the ring when any
   * is left. Returns how many vertices were kept.
   */
  method LoadRing(b: Screen.Batcher, ctx: MapContext.Context, env: Env, p: Polygon) returns (kept: int)
    requires b.Valid() && ctx.Valid() && b.objectCount == 0
    modifies b`objectCount, b`cursor, b`canvas, b.objects, b.linePoints, b.lineReal
    ensures b.Valid() && b.canvas == old(b.canvas) && kept == |Kept(env, p)|
    ensures kept == 0 ==> b.objectCount == 0
    ensures kept > 0 ==> b.objectCount == 1 && b.objects[..1] == [kept + 1] && b.cursor == kept + 1 &&
                         b.linePoints[..b.cursor] == Points(Ring(Kept(env, p))) &&
                         b.lineReal[..b.cursor] == RealFlags(Ring(Kept(env, p)))
  {
    var size := FetchVertices(b, ctx, p);
    kept := StoreRing(b, env.coordinate, p.vertices[..size]);
  }

  /**
   * Collapse the fetched vertices into the empty line buffer and close
   * the ring when any is left.
   */
  method StoreRing(b: Screen.Batcher, coordinate: Position -> GuiPoint, vs: seq<GeoVertex>) returns (kept: int)
    requires b.Valid() && b.objectCount == 0 && b.cursor == 0 && |vs| < Bulk
    modifies b`objectCount, b`cursor, b.objects, b.linePoints, b.lineReal
    ensures var ring := Collapse(ScreenVertices(coordinate, vs));
            b.Valid() && kept == |ring| &&
            (kept == 0 ==> b.objectCount == 0) &&
            (kept > 0 ==> b.objectCount == 1 && b.objects[..1] == [kept + 1] && b.cursor == kept + 1 &&
                          b.linePoints[..b.cursor] == Points(Ring(ring)) &&
                          b.lineReal[..b.cursor] == RealFlags(Ring(ring)))
  {
    ghost var ring := Collapse(ScreenVertices(coordinate, vs));
    kept := BuildRing(b.linePoints, b.lineReal, b.cursor, coordinate, vs);
    assert b.Valid() && kept < Bulk && kept == |ring|;
    if kept > 0 {
      ghost var pts, flags := b.linePoints[..], b.lineReal[..];
      assert forall k :: 0 <= k < kept ==> pts[k] == ring[k].point && flags[k] == ring[k].isReal;
      CloseRing(b, kept);
      RingLoaded(ring, pts, flags, b.linePoints[..b.cursor], b.lineReal[..b.cursor]);
    }
  }

  /**
   * Fetch a polygon's vertices into the room left in the line buffer;
   * when none is fetched, flush the (empty) polygon buffer and fetch again.
   */
  method FetchVertices(b: Screen.Batcher, ctx: MapContext.Context, p: Polygon) returns (size: int)
    requires b.Valid() && ctx.Valid() && b.objectCount == 0
    modifies b`objectCount, b`cursor, b`canvas, b.linePoints, b.lineReal
    ensures b.Valid() && b.objectCount == 0 && b.cursor == 0 && b.canvas == old(b.canvas)
    ensures size == Fetch(p, Bulk - 1)
  {
    assert b.objects[..b.objectCount] == [];
    size := Fetch(p, Bulk - b.cursor - 1);
    if size <= 0 {
      FlushPolygons(b, ctx, Null);
      size := Fetch(p, Bulk - b.cursor - 1);
    }
    assert b.cursor == 0;
  }

  /** The kept vertices written from the start of the buffer and closed by repeating the first make up their ring. */
  lemma RingLoaded(kept: seq<Vertex>, before: seq<GuiPoint>, flagsBefore: seq<bool>, pts: seq<GuiPoint>, flags: seq<bool>)
    requires 1 <= |kept| <= |before| && |kept| <= |flagsBefore|
    requires forall k :: 0 <= k < |kept| ==> before[k] == kept[k].point && flagsBefore[k] == kept[k].isReal
    requires pts == before[..|kept|] + [before[0]] && flags == flagsBefore[..|kept|] + [flagsBefore[0]]
    ensures pts == Points(Ring(kept)) && flags == RealFlags(Ring(kept))
  {
  }

  /** One polygon of roadmap_screen_draw_polygons: skip it without a fill pen, flush and select a pen that changed, then fill it. */
  method DrawPolygon(b: Screen.Batcher, ctx: MapContext.Context, env: Env, p: Polygon)
    requires b.Valid() && ctx.Valid() && b.objectCount == 0
    modifies b`objectCount, b`cursor, b`canvas, b`lastPen, b.objects, b.linePoints, b.lineReal
    ensures b.Valid() && b.objectCount == 0
    ensures Paint(b.lastPen, b.canvas) == PaintPolygon(ctx.Frame(), env, Paint(old(b.lastPen), old(b.canvas)), p)
  {
    var pen := env.penOf(p.category, 0);
    if pen.Null? {
      return;
    }
    ghost var f := ctx.Frame();
    ghost var selected := if b.lastPen != pen then b.canvas + [SelectPen(pen.id)] else b.canvas;
    if b.lastPen != pen {
      ghost var before := b.canvas;
      FlushPolygons(b, ctx, Null);
      assert b.canvas == before;
      b.canvas := b.canvas + [SelectPen(pen.id)];
      b.lastPen := pen;
    }
    assert b.canvas == selected && ctx.Frame() == f;
    FillPolygon(b, ctx, env, p);
  }

  /**
   * roadmap_screen_draw_polygons: forget the last pen, and when areas
   * are shown draw the polygons from the last to the first, then flush
   * what is left. Labels are not part of this model.
   */
  method DrawPolygonsPass(b: Screen.Batcher, ctx: MapContext.Context, env: Env, polys: seq<Polygon>, showArea: bool)
    requires b.Valid() && ctx.Valid() && b.objectCount == 0
    modifies b`objectCount, b`cursor, b`canvas, b`lastPen, b.objects, b.linePoints, b.lineReal
    ensures b.Valid() && b.objectCount == 0 && b.cursor == 0
    ensures Paint(b.lastPen, b.canvas) ==
              if showArea then PaintAll(ctx.Frame(), env, Paint(Null, old(b.canvas)), polys)
              else Paint(Null, old(b.canvas))
  {
    b.lastPen := Null;
    if !showArea {
      return;
    }
    ghost var f := ctx.Frame();
    var i := |polys|;
    assert polys[..i] == polys;
    while i > 0
      invariant 0 <= i <= |polys|
      invariant b.Valid() && b.objectCount == 0
      invariant PaintAll(f, env, Paint(b.lastPen, b.canvas), polys[..i]) == PaintAll(f, env, Paint(Null, old(b.canvas)), polys)
    {
      i := i - 1;
      assert polys[..i + 1][..i] == polys[..i];
      DrawPolygon(b, ctx, env, polys[i]);
    }
    FlushPolygons(b, ctx, Null);
  }
}
