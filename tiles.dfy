/**
 * The per-tile driver of the map repaint: roadmap_screen_repaint_square,
 * with the tile outline of roadmap_screen_draw_square_edges and the line
 * loop of roadmap_screen_draw_square. Each layer with lines in the tile
 * selects its pen, feeds its lines to the batcher and flushes them; the
 * points are flushed once at the end.
 */
module Tiles {
  import opened Geo
  import opened Projection
  import opened Batch
  import Screen
  import MapContext
  import Drawing

  /**
   * A line of a layer in the tile: its end points, its shape points, and
   * the pens roadmap_screen_draw_square hands to the line drawer for it
   * (empty when a plugin suppresses the line).
   */
  datatype Line = Line(from: Position, shape: Option<seq<Position>>, to: Position, pens: seq<Handle>)

  /**
   * One layer of the tile, as roadmap_line_in_square and the pen table
   * give it: the main pen, the pen of the pen type being painted, and the
   * layer's lines in the tile (none when the tile has no line of it).
   */
  datatype Layer = Layer(mainPen: Handle, typePen: Handle, lines: seq<Line>)

  /** Selecting a pen on the canvas; a null pen is not recorded as a call. */
  function SelectCalls(pen: Handle): (r: seq<DrawCall>)
    ensures pen.Ref? ==> r == [SelectPen(pen.id)]
    ensures pen.Null? ==> r == []
  {
    if pen.Ref? then [SelectPen(pen.id)] else []
  }

  /**
   * The six outline points of a tile: its four corners from the
   * north-west clockwise, then the first two again.
   */
  function SquareOutline(coordinate: Position -> GuiPoint, edges: Area): (r: seq<GuiPoint>)
    ensures |r| == 6 && r[4] == r[0] && r[5] == r[1]
    ensures r[0] == coordinate(Position(edges.west, edges.north)) && r[1] == coordinate(Position(edges.east, edges.north))
    ensures r[2] == coordinate(Position(edges.east, edges.south)) && r[3] == coordinate(Position(edges.west, edges.south))
  {
    var topLeft := coordinate(Position(edges.west, edges.north));
    var topRight := coordinate(Position(edges.east, edges.north));
    [topLeft, topRight, coordinate(Position(edges.east, edges.south)), coordinate(Position(edges.west, edges.south)),
     topLeft, topRight]
  }

  /** The calls that draw a tile's outline: the edge pen, then one polyline of six points. */
  function EdgeCalls(f: Frame, coordinate: Position -> GuiPoint, edges: Area, edgesPen: Handle): seq<DrawCall>
    requires ValidFrame(f)
  {
    SelectCalls(edgesPen) + [DrawLines([6], RotateAll(f, SquareOutline(coordinate, edges)))]
  }

  /** The drawn outline is closed: turned and projected, its last two points are its first two. */
  lemma OutlineClosed(f: Frame, coordinate: Position -> GuiPoint, edges: Area)
    requires ValidFrame(f)
    ensures var r := RotateAll(f, SquareOutline(coordinate, edges));
            |r| == 6 && r[4] == r[0] && r[5] == r[1]
  {
  }

  /**
   * roadmap_screen_draw_square_edges: when tiles are shown, draw the
   * tile's outline with the edge pen, then forget the last pen.
   */
  method DrawSquareEdges(b: Screen.Batcher, ctx: MapContext.Context, showSquare: bool, edges: Area,
                         coordinate: Position -> GuiPoint, edgesPen: Handle)
    requires ctx.Valid()
    modifies b`canvas, b`lastPen
    ensures showSquare ==> b.canvas == old(b.canvas) + EdgeCalls(ctx.Frame(), coordinate, edges, edgesPen) && b.lastPen.Null?
    ensures !showSquare ==> b.canvas == old(b.canvas) && b.lastPen == old(b.lastPen)
  {
    if !showSquare {
      return;
    }
    ghost var f := ctx.Frame();
    var outline := SquareOutline(coordinate, edges);
    var points := new GuiPoint[6];
    points[0], points[1], points[2] := outline[0], outline[1], outline[2];
    points[3], points[4], points[5] := outline[3], outline[4], outline[5];
    assert points[..6] == outline;
    ctx.RotateCoordinates(6, points);
    assert ctx.Frame() == f;
    var rotated := points[..6];
    assert rotated == RotateAll(f, outline);
    var calls := SelectCalls(edgesPen) + [DrawLines([6], rotated)];
    assert calls == EdgeCalls(f, coordinate, edges, edgesPen);
    b.canvas := b.canvas + calls;
    b.lastPen := Null;
  }

  /** The number of lines roadmap_screen_draw_square counts as drawn: those no plugin suppresses. */
  function Drawn(lines: seq<Line>): (n: nat)
    ensures n <= |lines|
  {
    if lines == [] then 0
    else Drawn(lines[..|lines| - 1]) + (if lines[|lines| - 1].pens != [] then 1 else 0)
  }

  /** No line is counted when every line is suppressed, and every line when none is. */
  lemma {:induction false} DrawnExtremes(lines: seq<Line>)
    ensures (forall k :: 0 <= k < |lines| ==> lines[k].pens == []) <==> Drawn(lines) == 0
    ensures (forall k :: 0 <= k < |lines| ==> lines[k].pens != []) <==> Drawn(lines) == |lines|
  {
    if lines != [] {
      var pre := lines[..|lines| - 1];
      DrawnExtremes(pre);
      assert forall k :: 0 <= k < |pre| ==> pre[k] == lines[k];
    }
  }

  /**
   * The line loop of roadmap_screen_draw_square: each line that is not
   * suppressed is drawn with its pens, no image and on the near side.
   */
  method DrawSquareLines(b: Screen.Batcher, ctx: MapContext.Context, v: Drawing.View, lines: seq<Line>)
    returns (drawn: int)
    requires b.Idle() && ctx.Valid()
    modifies b`objectCount, b`cursor, b`accum, b`pointCount, b`canvas,
             b`lastPen, b`lastImage, b`lastOpposite, b.objects, b.linePoints, b.points
    ensures b.Idle() && drawn == Drawn(lines) && old(b.canvas) <= b.canvas
  {
    drawn := 0;
    var k := 0;
    while k < |lines|
      invariant 0 <= k <= |lines| && b.Idle()
      invariant drawn == Drawn(lines[..k]) && old(b.canvas) <= b.canvas
    {
      assert lines[..k + 1][..k] == lines[..k];
      var line := lines[k];
      if line.pens != [] {
        var _ := Drawing.DrawOneLine(b, ctx, v, line.from, line.shape, line.to, line.pens, |line.pens|, Null, false);
        drawn := drawn + 1;
      }
      k := k + 1;
    }
    assert lines[..k] == lines;
  }

  /** Some layer from `i` on has lines in the tile. */
  predicate HasLinesFrom(layers: seq<Layer>, i: int)
  {
    exists j :: 0 <= i <= j < |layers| && layers[j].lines != []
  }

  /** The pen a layer is painted with: the main pen when only main pens are used, else the pen type's. */
  function LayerPen(layer: Layer, useOnlyMainPen: bool): Handle
  {
    if useOnlyMainPen then layer.mainPen else layer.typePen
  }

  /**
   * The calls a painted layer adds: with lines in the tile, its pen
   * selection followed by what drawing and flushing its lines put on the
   * canvas (`drawn`); without lines, nothing.
   */
  function LayerCalls(layer: Layer, useOnlyMainPen: bool, drawn: seq<DrawCall>): (r: seq<DrawCall>)
    ensures layer.lines == [] ==> r == []
    ensures layer.lines != [] ==> r == SelectCalls(LayerPen(layer, useOnlyMainPen)) + drawn
  {
    if layer.lines != [] then SelectCalls(LayerPen(layer, useOnlyMainPen)) + drawn else []
  }

  /**
   * The calls of the layer loop, from the last layer to the first, given
   * what each layer's lines put on the canvas.
   */
  function Painted(layers: seq<Layer>, useOnlyMainPen: bool, drawn: seq<seq<DrawCall>>): seq<DrawCall>
    requires |drawn| == |layers|
  {
    if layers == [] then []
    else Painted(layers[1..], useOnlyMainPen, drawn[1..]) + LayerCalls(layers[0], useOnlyMainPen, drawn[0])
  }

  /** Painting one more layer, the one before `layers[i + 1..]`, appends its calls. */
  lemma PaintedStep(layers: seq<Layer>, i: int, useOnlyMainPen: bool, segment: seq<DrawCall>, drawn: seq<seq<DrawCall>>)
    requires 0 <= i < |layers| && |drawn| == |layers| - i - 1
    ensures Painted(layers[i..], useOnlyMainPen, [segment] + drawn) ==
            Painted(layers[i + 1..], useOnlyMainPen, drawn) + LayerCalls(layers[i], useOnlyMainPen, segment)
  {
    assert layers[i..][1..] == layers[i + 1..];
    assert ([segment] + drawn)[1..] == drawn;
  }

  /** Some layer from `i` on has lines exactly when layer `i` has or one after it has. */
  lemma HasLinesStep(layers: seq<Layer>, i: int)
    requires 0 <= i < |layers|
    ensures HasLinesFrom(layers, i) <==> layers[i].lines != [] || HasLinesFrom(layers, i + 1)
  {
  }

  /** The layers without lines in the tile add nothing to the loop's calls. */
  lemma {:induction false} PaintedWithoutLines(layers: seq<Layer>, useOnlyMainPen: bool, drawn: seq<seq<DrawCall>>)
    requires |drawn| == |layers|
    ensures !HasLinesFrom(layers, 0) ==> Painted(layers, useOnlyMainPen, drawn) == []
  {
    if layers != [] && !HasLinesFrom(layers, 0) {
      assert layers[0].lines == [];
      assert !HasLinesFrom(layers[1..], 0) by {
        forall j | 0 <= j < |layers| - 1 ensures layers[1..][j].lines == [] {
          assert layers[1..][j] == layers[j + 1];
        }
      }
      PaintedWithoutLines(layers[1..], useOnlyMainPen, drawn[1..]);
    }
  }

  /**
   * roadmap_screen_repaint_square. The tile outline is drawn for the
   * first pen type only; the last pen is forgotten; the layers are
   * painted from the last to the first, each with lines selecting and
   * recording its pen, drawing its lines and flushing them; the points
   * are flushed at the end. The result is always 0.
   */
  method RepaintSquare(b: Screen.Batcher, ctx: MapContext.Context, v: Drawing.View, penType: int,
                       showSquare: bool, edges: Area, edgesPen: Handle, layers: seq<Layer>, useOnlyMainPen: bool)
    returns (drawn: int, ghost layerDrawn: seq<seq<DrawCall>>)
    requires b.Idle() && ctx.Valid()
    modifies b`objectCount, b`cursor, b`accum, b`pointCount, b`canvas,
             b`lastPen, b`lastImage, b`lastOpposite, b.objects, b.linePoints, b.points
    ensures b.Idle() && b.pointCount == 0 && drawn == 0
    ensures |layerDrawn| == |layers|
    ensures var painted := old(b.canvas) +
                           (if penType == 0 && showSquare then EdgeCalls(ctx.Frame(), v.coordinate, edges, edgesPen) else []) +
                           Painted(layers, useOnlyMainPen, layerDrawn);
            painted <= b.canvas && |b.canvas| <= |painted| + 1
    ensures HasLinesFrom(layers, 0) ==> b.objectCount == 0 && b.cursor == 0
    ensures !HasLinesFrom(layers, 0) ==>
              b.lastPen.Null? && b.objectCount == old(b.objectCount) && b.cursor == old(b.cursor)
  {
    ghost var edgeCalls := if penType == 0 && showSquare then EdgeCalls(ctx.Frame(), v.coordinate, edges, edgesPen) else [];
    if penType == 0 {
      DrawSquareEdges(b, ctx, showSquare, edges, v.coordinate, edgesPen);
    }
    assert b.canvas == old(b.canvas) + edgeCalls;
    b.lastPen := Null;
    layerDrawn := PaintLayers(b, ctx, v, layers, useOnlyMainPen);
    ghost var painted := b.canvas;
    assert painted == old(b.canvas) + edgeCalls + Painted(layers, useOnlyMainPen, layerDrawn);
    b.FlushPoints(ctx);
    b.ModelSizes();
    assert painted <= b.canvas && |b.canvas| <= |painted| + 1;
    drawn := 0;
  }

  /**
   * The layer loop of roadmap_screen_repaint_square, from the last layer
   * to the first: a layer with lines in the tile is painted and leaves
   * the line buffer empty; without any, nothing changes.
   */
  method PaintLayers(b: Screen.Batcher, ctx: MapContext.Context, v: Drawing.View, layers: seq<Layer>, useOnlyMainPen: bool)
    returns (ghost layerDrawn: seq<seq<DrawCall>>)
    requires b.Idle() && ctx.Valid() && b.lastPen.Null?
    modifies b`objectCount, b`cursor, b`accum, b`pointCount, b`canvas,
             b`lastPen, b`lastImage, b`lastOpposite, b.objects, b.linePoints, b.points
    ensures b.Idle() && |layerDrawn| == |layers|
    ensures b.canvas == old(b.canvas) + Painted(layers, useOnlyMainPen, layerDrawn)
    ensures HasLinesFrom(layers, 0) ==> b.objectCount == 0 && b.cursor == 0
    ensures !HasLinesFrom(layers, 0) ==>
              b.lastPen.Null? && b.objectCount == old(b.objectCount) && b.cursor == old(b.cursor)
  {
    ghost var start, objects, cursor := b.canvas, b.objectCount, b.cursor;
    var i := |layers|;
    layerDrawn := [];
    while i > 0
      invariant 0 <= i <= |layers| && b.Idle() && |layerDrawn| == |layers| - i
      invariant b.canvas == start + Painted(layers[i..], useOnlyMainPen, layerDrawn)
      invariant HasLinesFrom(layers, i) ==> b.objectCount == 0 && b.cursor == 0
      invariant !HasLinesFrom(layers, i) ==> b.lastPen.Null? && b.objectCount == objects && b.cursor == cursor
    {
      i := i - 1;
      layerDrawn := PaintNext(b, ctx, v, layers, i, useOnlyMainPen, start, objects, cursor, layerDrawn);
    }
    assert layers[0..] == layers;
  }

  /** One turn of the layer loop, on layer `i`, and what it adds to the calls of the layers after it. */
  method PaintNext(b: Screen.Batcher, ctx: MapContext.Context, v: Drawing.View, layers: seq<Layer>, i: int,
                   useOnlyMainPen: bool, ghost start: seq<DrawCall>, ghost objects: int, ghost cursor: int,
                   ghost drawn: seq<seq<DrawCall>>)
    returns (ghost next: seq<seq<DrawCall>>)
    requires 0 <= i < |layers| && b.Idle() && ctx.Valid() && |drawn| == |layers| - i - 1
    requires b.canvas == start + Painted(layers[i + 1..], useOnlyMainPen, drawn)
    requires HasLinesFrom(layers, i + 1) ==> b.objectCount == 0 && b.cursor == 0
    requires !HasLinesFrom(layers, i + 1) ==> b.lastPen.Null? && b.objectCount == objects && b.cursor == cursor
    modifies b`objectCount, b`cursor, b`accum, b`pointCount, b`canvas,
             b`lastPen, b`lastImage, b`lastOpposite, b.objects, b.linePoints, b.points
    ensures b.Idle() && |next| == |layers| - i
    ensures b.canvas == start + Painted(layers[i..], useOnlyMainPen, next)
    ensures HasLinesFrom(layers, i) ==> b.objectCount == 0 && b.cursor == 0
    ensures !HasLinesFrom(layers, i) ==> b.lastPen.Null? && b.objectCount == objects && b.cursor == cursor
  {
    HasLinesStep(layers, i);
    ghost var segment := PaintIfLines(b, ctx, v, layers[i], useOnlyMainPen);
    PaintedStep(layers, i, useOnlyMainPen, segment, drawn);
    next := [segment] + drawn;
  }

  /** One turn of the layer loop: paint the layer when it has lines in the tile, else change nothing. */
  method PaintIfLines(b: Screen.Batcher, ctx: MapContext.Context, v: Drawing.View, layer: Layer, useOnlyMainPen: bool)
    returns (ghost drawn: seq<DrawCall>)
    requires b.Idle() && ctx.Valid()
    modifies b`objectCount, b`cursor, b`accum, b`pointCount, b`canvas,
             b`lastPen, b`lastImage, b`lastOpposite, b.objects, b.linePoints, b.points
    ensures b.Idle() && b.canvas == old(b.canvas) + LayerCalls(layer, useOnlyMainPen, drawn)
    ensures layer.lines != [] ==> b.objectCount == 0 && b.cursor == 0
    ensures layer.lines == [] ==>
              b.lastPen == old(b.lastPen) && b.objectCount == old(b.objectCount) && b.cursor == old(b.cursor)
  {
    drawn := [];
    if layer.lines != [] {
      drawn := PaintLayer(b, ctx, v, LayerPen(layer, useOnlyMainPen), layer.lines);
    }
  }

  /** One layer with lines in the tile: select and record its pen, draw its lines, flush them. */
  method PaintLayer(b: Screen.Batcher, ctx: MapContext.Context, v: Drawing.View, pen: Handle, lines: seq<Line>)
    returns (ghost drawn: seq<DrawCall>)
    requires b.Idle() && ctx.Valid()
    modifies b`objectCount, b`cursor, b`accum, b`pointCount, b`canvas,
             b`lastPen, b`lastImage, b`lastOpposite, b.objects, b.linePoints, b.points
    ensures b.Idle() && b.objectCount == 0 && b.cursor == 0
    ensures b.canvas == old(b.canvas) + SelectCalls(pen) + drawn
  {
    b.canvas := b.canvas + SelectCalls(pen);
    b.lastPen := pen;
    ghost var selected := b.canvas;
    var _ := DrawSquareLines(b, ctx, v, lines);
    b.FlushLines(ctx);
    b.ModelSizes();
    assert selected <= b.canvas;
    drawn := b.canvas[|selected|..];
  }
}
