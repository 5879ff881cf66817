/**
 * The map context of roadmap_math.c: the centre, zoom, screen size,
 * orientation and horizon the caller sets, and the fields derived from
 * them by roadmap_math_compute_scale and roadmap_math_set_orientation
 * (screen centre, per-axis scale, upright and visible areas, focus and
 * visibility rectangle).
 */
module MapContext {
  import opened CInt
  import opened Geo
  import opened Trig
  import opened Angles
  import opened Projection

  const MinZoomIn := 6
  const MaxZoomOut := 0x10000
  const ReferenceZoom := 20
  /** Map positions are in millionths of a degree. */
  const Micro := 1000000

  /** One step of the corner loop of set_orientation: widen `a` to take in `p`. */
  function Extend(a: Area, p: Position): Area
  {
    Area(if p.longitude < a.west then p.longitude else a.west,
         if p.longitude > a.east then p.longitude else a.east,
         if p.latitude > a.north then p.latitude else a.north,
         if p.latitude < a.south then p.latitude else a.south)
  }

  /** `a` widened, in order, to take in every position of `ps`. */
  function Span(a: Area, ps: seq<Position>): Area
  {
    if ps == [] then a else Extend(Span(a, ps[..|ps| - 1]), ps[|ps| - 1])
  }

  /** The widened area covers the start area and every position. */
  lemma {:induction false} SpanCovers(a: Area, ps: seq<Position>)
    ensures Covers(Span(a, ps), a)
    ensures forall k :: 0 <= k < |ps| ==> InArea(ps[k], Span(a, ps))
  {
    if ps != [] {
      var init := ps[..|ps| - 1];
      SpanCovers(a, init);
      forall k | 0 <= k < |init|
        ensures InArea(init[k], Span(a, ps))
      {
      }
    }
  }

  /** ...and it is the smallest such area: any area covering them covers it. */
  lemma {:induction false} SpanLeast(a: Area, ps: seq<Position>, b: Area)
    requires Covers(b, a)
    requires forall k :: 0 <= k < |ps| ==> InArea(ps[k], b)
    ensures Covers(b, Span(a, ps))
  {
    if ps != [] {
      var init := ps[..|ps| - 1];
      forall k | 0 <= k < |init|
        ensures InArea(init[k], b)
      {
        assert init[k] == ps[k];
      }
      SpanLeast(a, init, b);
    }
  }

  /**
   * The corner loop of roadmap_math_set_orientation: widen `start` in
   * place, one edge at a time, to take in each position.
   */
  method WidenToCorners(start: Area, position: seq<Position>) returns (area: Area)
    ensures area == Span(start, position)
  {
    area := start;
    var i := 0;
    while i < |position|
      invariant 0 <= i <= |position|
      invariant area == Span(start, position[..i])
    {
      assert position[..i + 1][..i] == position[..i];
      if position[i].longitude > area.east {
        area := area.(east := position[i].longitude);
      }
      if position[i].longitude < area.west {
        area := area.(west := position[i].longitude);
      }
      if position[i].latitude < area.south {
        area := area.(south := position[i].latitude);
      }
      if position[i].latitude > area.north {
        area := area.(north := position[i].latitude);
      }
      i := i + 1;
    }
    assert position[..i] == position;
  }

  /**
   * The visible area set by roadmap_math_set_orientation: the upright area
   * when the screen is neither turned nor in perspective, otherwise the
   * upright area widened to the map positions of the four screen corners.
   */
  function ScreenArea(f: Frame): Area
    requires ValidFrame(f)
  {
    if f.orientation != 0 || f.horizon != 0 then Span(f.upright, Corners(f)) else f.upright
  }

  /** The visible area covers the upright area and all four screen corners, and nothing more than it must. */
  lemma {:induction false} ScreenAreaTight(f: Frame, b: Area)
    requires ValidFrame(f)
    ensures Covers(ScreenArea(f), f.upright)
    ensures f.orientation != 0 || f.horizon != 0 ==>
      forall k :: 0 <= k < 4 ==> InArea(Corners(f)[k], ScreenArea(f))
    ensures Covers(b, f.upright) && (forall k :: 0 <= k < 4 ==> InArea(Corners(f)[k], b)) ==>
      Covers(b, ScreenArea(f))
  {
    SpanCovers(f.upright, Corners(f));
    if Covers(b, f.upright) && (forall k :: 0 <= k < 4 ==> InArea(Corners(f)[k], b)) {
      SpanLeast(f.upright, Corners(f), b);
    }
  }

  /**
   * The horizontal scale of roadmap_math_compute_scale: the vertical scale
   * divided by the cosine of the latitude (both in Q15), so that a
   * longitude unit keeps its ground width away from the equator.
   * `(int)(q + 0.5)` on an integer quotient `q` adds nothing for q >= 0 and
   * one for q < 0; a zero result is patched to 1.
   */
  function XZoom(zoom: int, cosine: int): (r: int)
    requires cosine != 0
    ensures r != 0
    ensures cosine > 0 && zoom >= 0 ==>
              r >= 1 && (r == 1 || r * cosine <= zoom * Unit < (r + 1) * cosine)
  {
    var q := Div(zoom * Unit, cosine);
    var rounded := if q >= 0 then q else q + 1;
    if rounded == 0 then 1 else rounded
  }

  /** The upright area of roadmap_math_compute_scale, centred on the map centre. */
  function UprightArea(center: Position, centerX: int, centerY: int, zoomX: int, zoomY: int,
                       width: int, height: int): (r: Area)
    ensures r.west + centerX * zoomX == center.longitude
    ensures r.north - centerY * zoomY == center.latitude
    ensures r.east - r.west == width * zoomX && r.north - r.south == height * zoomY
  {
    var west := center.longitude - centerX * zoomX;
    var north := center.latitude + centerY * zoomY;
    Area(west, west + width * zoomX, north, north - height * zoomY)
  }

  /** The zoom zoom_set stores as written: the argument is truncated to 16 bits before it is clamped. */
  function StoredZoom(z: int, minZoomOverride: int): (r: int)
    ensures 0 <= r <= UShortMax
    ensures MinZoomIn <= z <= UShortMax && minZoomOverride == -1 ==> r == z
  {
    var truncated := UShort(z);
    var clamped := if truncated < MinZoomIn then MinZoomIn
                   else if z > MaxZoomOut then UShortMax
                   else truncated;
    if minZoomOverride != -1 && clamped < minZoomOverride then UShort(minZoomOverride) else clamped
  }

  /** The zoom zoom_set evidently intends: the argument clamped to [6, 0xffff] before it is stored. */
  function ClampedZoom(z: int, minZoomOverride: int): (r: int)
    ensures 0 <= r <= UShortMax
    ensures minZoomOverride <= UShortMax ==> MinZoomIn <= r
    ensures MinZoomIn <= z <= UShortMax && minZoomOverride == -1 ==> r == z
    ensures minZoomOverride != -1 && 0 <= minZoomOverride <= UShortMax ==> minZoomOverride <= r
  {
    var clamped := if z < MinZoomIn then MinZoomIn
                   else if z > UShortMax then UShortMax
                   else z;
    if minZoomOverride != -1 && clamped < minZoomOverride then UShort(minZoomOverride) else clamped
  }

  /** As written, zoom_set(65537) stores 6 (the low 16 bits are 1) rather than the largest zoom. */
  lemma StoredZoomWrapsAbove()
    ensures StoredZoom(0x10001, -1) == MinZoomIn
    ensures ClampedZoom(0x10001, -1) == UShortMax
  {
  }

  /** As written, zoom_set(-1) stores 65535, the widest zoom, rather than the closest one. */
  lemma StoredZoomWrapsBelow()
    ensures StoredZoom(-1, -1) == UShortMax
    ensures ClampedZoom(-1, -1) == MinZoomIn
  {
  }

  /** The clamped zoom never decreases as the requested zoom grows. */
  lemma {:induction false} ClampedZoomMonotonic(z1: int, z2: int, minZoomOverride: int)
    requires z1 <= z2
    ensures ClampedZoom(z1, minZoomOverride) <= ClampedZoom(z2, minZoomOverride)
  {
  }

  class Context {
    /** The 46-entry fixed-point table, defined outside this model. */
    const table: seq<TrigEntry>
    /** ROADMAP_VISIBILITY_DISTANCE, defined outside this model. */
    const visibilityDistance: int

    var center: Position
    /** An `unsigned short`. */
    var zoom: int
    /** The file-level override set by roadmap_math_set_min_zoom; -1 when unset. */
    var minZoomOverride: int
    var width: int
    var height: int
    var centerX: int
    var centerY: int
    var zoomX: int
    var zoomY: int
    var orientation: int
    var sinOrientation: int
    var cosOrientation: int
    var horizon: int
    var upright: Area
    var currentScreen: Area
    var focus: Area
    var visibility: Area

    ghost predicate Valid()
      reads this`zoom, this`orientation, this`horizon, this`height
    {
      ValidTable(table) && 0 <= zoom <= UShortMax && 0 <= orientation < 360 &&
      horizon <= 0 <= height
    }

    function Frame(): (f: Frame)
      reads this`width, this`height, this`centerX, this`centerY, this`orientation,
            this`sinOrientation, this`cosOrientation, this`horizon, this`zoomX, this`zoomY, this`upright
      ensures Valid() ==> ValidFrame(f)
    {
      Projection.Frame(width, height, centerX, centerY, orientation, sinOrientation, cosOrientation,
                       horizon, zoomX, zoomY, upright)
    }

    /** The cosine of the centre's latitude in whole degrees, which compute_scale divides by. */
    function LatitudeCosine(): int
      reads this`center
      requires ValidTable(table)
    {
      SinCosOf(table, Div(center.latitude, Micro)).cosine
    }

    /**
     * The scale fields agree with the centre, zoom and size: what
     * roadmap_math_compute_scale establishes before it turns the screen.
     */
    ghost predicate Placed()
      reads this`zoom, this`center, this`width, this`height, this`centerX, this`centerY,
            this`zoomX, this`zoomY, this`upright
      requires ValidTable(table)
    {
      zoom != 0 &&
      centerX == Div(width, 2) && centerY == Div(height, 2) &&
      LatitudeCosine() != 0 &&
      zoomX == XZoom(zoom, LatitudeCosine()) && zoomY == zoom &&
      upright == UprightArea(center, centerX, centerY, zoomX, zoomY, width, height)
    }

    /**
     * The orientation fields agree with the orientation and the upright
     * area: what roadmap_math_set_orientation establishes.
     */
    ghost predicate Oriented()
      reads this
      requires Valid()
    {
      SinCos(sinOrientation, cosOrientation) == SinCosOf(table, orientation) &&
      currentScreen == ScreenArea(Frame()) &&
      focus == currentScreen && visibility == Widen(currentScreen, visibilityDistance)
    }

    /**
     * All derived fields agree with the ones the caller sets; they are a
     * function of the centre, zoom, size, orientation and horizon alone
     * (see ScaledDetermined).
     */
    ghost predicate Scaled()
      reads this
      requires Valid()
    {
      Placed() && Oriented()
    }

    /** roadmap_math_initialize: a zeroed context, then a first compute_scale. */
    constructor (table: seq<TrigEntry>, visibilityDistance: int)
      requires ValidTable(table) && SinCosOf(table, 0).cosine != 0
      ensures Valid() && Scaled()
      ensures this.table == table && this.visibilityDistance == visibilityDistance
      ensures zoom == ReferenceZoom && orientation == 0 && horizon == 0
      ensures center == Position(0, 0) && width == 0 && height == 0 && minZoomOverride == -1
    {
      this.table := table;
      this.visibilityDistance := visibilityDistance;
      center := Position(0, 0);
      zoom := 0;
      minZoomOverride := -1;
      width, height := 0, 0;
      centerX, centerY, zoomX, zoomY := 0, 0, 0, 0;
      orientation, sinOrientation, cosOrientation := 0, 0, 0;
      horizon := 0;
      upright, currentScreen, focus, visibility := Area(0, 0, 0, 0), Area(0, 0, 0, 0), Area(0, 0, 0, 0), Area(0, 0, 0, 0);
      new;
      ComputeScale();
    }

    /** roadmap_math_set_focus: the rectangle drawing is limited to, and its widened visibility rectangle. */
    method SetFocus(area: Area)
      modifies this`focus, this`visibility
      ensures focus == area && visibility == Widen(area, visibilityDistance)
      ensures visibilityDistance >= 0 ==> Covers(visibility, focus)
    {
      focus := area;
      visibility := Area(area.west - visibilityDistance, area.east + visibilityDistance,
                         area.north + visibilityDistance, area.south - visibilityDistance);
    }

    /** roadmap_math_release_focus: the focus goes back to the whole visible area. */
    method ReleaseFocus()
      modifies this`focus, this`visibility
      ensures focus == currentScreen && visibility == Widen(currentScreen, visibilityDistance)
    {
      SetFocus(currentScreen);
    }

    /**
     * The second half of roadmap_math_set_orientation: the visible area
     * for the current orientation and horizon, then release the focus.
     */
    method ComputeScreen()
      requires Valid()
      modifies this`currentScreen, this`focus, this`visibility
      ensures currentScreen == ScreenArea(Frame())
      ensures focus == currentScreen && visibility == Widen(currentScreen, visibilityDistance)
    {
      var f := Frame();
      var area := upright;
      if orientation != 0 || horizon != 0 {
        area := WidenToCorners(upright, Corners(f));
      }
      assert area == ScreenArea(f);
      currentScreen := area;
      ReleaseFocus();
      assert Frame() == f;
    }

    /**
     * roadmap_math_set_orientation: normalise the direction, report
     * whether the change is worth a redraw (not when unchanged, nor for a
     * move of 2 degrees or less unless it returns to north), store it with
     * its sine and cosine, recompute the visible area from the corners and
     * release the focus.
     */
    method SetOrientation(direction: int) returns (status: int)
      requires Valid()
      modifies this`orientation, this`sinOrientation, this`cosOrientation,
               this`currentScreen, this`focus, this`visibility
      ensures Valid()
      ensures orientation == Normalized(direction)
      ensures status == 0 || status == 1
      ensures status == 0 <==> orientation == old(orientation) ||
                               (orientation != 0 && Abs(orientation - old(orientation)) <= 2)
      ensures Oriented()
    {
      var d := NormalizeOrientation(direction);
      status := 1;
      if d == orientation {
        status := 0;
      } else if d != 0 && Abs(d - orientation) <= 2 {
        status := 0;
      }
      orientation := d;
      sinOrientation, cosOrientation := Trigonometry(table, orientation);

      ComputeScreen();
    }

    /**
     * The first half of roadmap_math_compute_scale: the reference zoom
     * when none is set, the screen centre, both scales and the north-west
     * corner of the upright area.
     */
    method PlaceUpright()
      requires Valid() && LatitudeCosine() != 0
      modifies this`zoom, this`centerX, this`centerY, this`zoomX, this`zoomY, this`upright
      ensures Valid()
      ensures zoom == (if old(zoom) == 0 then ReferenceZoom else old(zoom))
      ensures centerX == Div(width, 2) && centerY == Div(height, 2)
      ensures zoomX == XZoom(zoom, LatitudeCosine()) && zoomY == zoom
      ensures upright.west == UprightArea(center, centerX, centerY, zoomX, zoomY, width, height).west
      ensures upright.north == UprightArea(center, centerX, centerY, zoomX, zoomY, width, height).north
    {
      if zoom == 0 {
        zoom := ReferenceZoom;
      }
      centerX := Div(width, 2);
      centerY := Div(height, 2);
      zoomY := zoom;
      var sine, cosine := Trigonometry(table, Div(center.latitude, Micro));
      zoomX := XZoom(zoom, cosine);
      upright := upright.(west := center.longitude - centerX * zoomX,
                          north := center.latitude + centerY * zoomY);
    }

    /**
     * roadmap_math_compute_scale: choose the reference zoom when none is
     * set, centre the screen, derive the horizontal scale from the
     * latitude, place the upright area around the centre and recompute the
     * visible area for the current orientation. The division by the
     * latitude's cosine is why the cosine must not be zero.
     */
    method ComputeScale()
      requires Valid() && LatitudeCosine() != 0
      modifies this`zoom, this`centerX, this`centerY, this`zoomX, this`zoomY, this`upright,
               this`orientation, this`sinOrientation, this`cosOrientation,
               this`currentScreen, this`focus, this`visibility
      ensures Valid() && Scaled()
      ensures zoom == (if old(zoom) == 0 then ReferenceZoom else old(zoom))
      ensures orientation == old(orientation)
    {
      PlaceUpright();
      var saved := orientation;
      var _ := SetOrientation(0);
      var f := Frame();
      var corner := ToPosition(f, GuiPoint(width, height), true);
      BottomRightCorner(f, true);
      upright := upright.(south := corner.latitude, east := corner.longitude);
      assert Placed();
      var _ := SetOrientation(saved);
    }

    /** roadmap_math_set_min_zoom. */
    method SetMinZoom(z: int)
      modifies this`minZoomOverride
      ensures minZoomOverride == z
    {
      minZoomOverride := z;
    }

    /**
     * roadmap_math_zoom_out: widen the view by half when the result still
     * fits below MAX_ZOOM_OUT, otherwise keep the zoom.
     */
    method ZoomOut()
      requires Valid() && LatitudeCosine() != 0
      modifies this`zoom, this`centerX, this`centerY, this`zoomX, this`zoomY, this`upright,
               this`orientation, this`sinOrientation, this`cosOrientation,
               this`currentScreen, this`focus, this`visibility
      ensures Valid() && Scaled()
      ensures var z := 3 * old(zoom) / 2;
              zoom == if z == 0 then ReferenceZoom else if z < MaxZoomOut then z else old(zoom)
      ensures old(zoom) >= 2 && 3 * old(zoom) / 2 < MaxZoomOut ==> zoom > old(zoom)
      ensures orientation == old(orientation)
    {
      var z := (3 * zoom) / 2;
      if z < MaxZoomOut {
        zoom := z;
      }
      ComputeScale();
    }

    /**
     * roadmap_math_zoom_in: narrow the view by a third, never below
     * MIN_ZOOM_IN nor, when one is set, below the override.
     */
    method ZoomIn()
      requires Valid() && LatitudeCosine() != 0
      modifies this`zoom, this`centerX, this`centerY, this`zoomX, this`zoomY, this`upright,
               this`orientation, this`sinOrientation, this`cosOrientation,
               this`currentScreen, this`focus, this`visibility
      ensures Valid() && Scaled()
      ensures minZoomOverride < MaxZoomOut ==> zoom >= MinZoomIn
      ensures minZoomOverride != -1 && 0 <= minZoomOverride < MaxZoomOut ==> zoom >= minZoomOverride
      ensures minZoomOverride == -1 ==>
                zoom == (if 2 * old(zoom) / 3 < MinZoomIn then MinZoomIn else 2 * old(zoom) / 3)
      ensures minZoomOverride == -1 && old(zoom) >= MinZoomIn ==> zoom <= old(zoom)
      ensures orientation == old(orientation)
    {
      zoom := (2 * zoom) / 3;
      if zoom < MinZoomIn {
        zoom := MinZoomIn;
      }
      if minZoomOverride != -1 {
        if zoom < minZoomOverride {
          zoom := UShort(minZoomOverride);
        }
      }
      ComputeScale();
    }

    /**
     * roadmap_math_zoom_set as written: report 0 and change nothing when
     * the zoom is already `z`; otherwise store `z` in the 16-bit field,
     * clamp the stored value below MIN_ZOOM_IN and the argument above
     * MAX_ZOOM_OUT, apply the override and rescale.
     */
    method ZoomSet(z: int) returns (changed: int)
      requires Valid() && LatitudeCosine() != 0
      modifies this`zoom, this`centerX, this`centerY, this`zoomX, this`zoomY, this`upright,
               this`orientation, this`sinOrientation, this`cosOrientation,
               this`currentScreen, this`focus, this`visibility
      ensures changed == 0 <==> old(zoom) == z
      ensures changed == 0 ==> unchanged(this)
      ensures changed == 1 ==>
                Valid() && Scaled() && zoom == (var s := StoredZoom(z, minZoomOverride); if s == 0 then ReferenceZoom else s)
      ensures changed == 0 || changed == 1
      ensures orientation == old(orientation)
    {
      if zoom == z {
        return 0;
      }
      zoom := UShort(z);
      if zoom < MinZoomIn {
        zoom := MinZoomIn;
      } else if z > MaxZoomOut {
        zoom := UShortMax;
      }
      if minZoomOverride != -1 {
        if zoom < minZoomOverride {
          zoom := UShort(minZoomOverride);
        }
      }
      ComputeScale();
      return 1;
    }

    /** The corrected zoom_set: the argument is clamped before it is stored. */
    method ZoomSetClamped(z: int) returns (changed: int)
      requires Valid() && LatitudeCosine() != 0
      modifies this`zoom, this`centerX, this`centerY, this`zoomX, this`zoomY, this`upright,
               this`orientation, this`sinOrientation, this`cosOrientation,
               this`currentScreen, this`focus, this`visibility
      ensures changed == 0 <==> old(zoom) == z
      ensures changed == 0 ==> unchanged(this)
      ensures changed == 1 ==>
                Valid() && Scaled() && zoom == (var s := ClampedZoom(z, minZoomOverride); if s == 0 then ReferenceZoom else s)
      ensures changed == 1 && minZoomOverride <= UShortMax ==> MinZoomIn <= zoom
    {
      if zoom == z {
        return 0;
      }
      if z < MinZoomIn {
        zoom := MinZoomIn;
      } else if z > UShortMax {
        zoom := UShortMax;
      } else {
        zoom := z;
      }
      if minZoomOverride != -1 {
        if zoom < minZoomOverride {
          zoom := UShort(minZoomOverride);
        }
      }
      ComputeScale();
      return 1;
    }

    /** roadmap_math_set_size. */
    method SetSize(w: int, h: int)
      requires Valid() && LatitudeCosine() != 0 && h >= 0
      modifies this`width, this`height, this`zoom, this`centerX, this`centerY, this`zoomX, this`zoomY, this`upright,
               this`orientation, this`sinOrientation, this`cosOrientation,
               this`currentScreen, this`focus, this`visibility
      ensures Valid() && Scaled() && width == w && height == h
      ensures zoom == (if old(zoom) == 0 then ReferenceZoom else old(zoom))
      ensures orientation == old(orientation)
    {
      width := w;
      height := h;
      ComputeScale();
    }

    /** roadmap_math_set_center. */
    method SetCenter(position: Position)
      requires Valid() && SinCosOf(table, Div(position.latitude, Micro)).cosine != 0
      modifies this`center, this`zoom, this`centerX, this`centerY, this`zoomX, this`zoomY, this`upright,
               this`orientation, this`sinOrientation, this`cosOrientation,
               this`currentScreen, this`focus, this`visibility
      ensures Valid() && Scaled() && center == position
      ensures zoom == (if old(zoom) == 0 then ReferenceZoom else old(zoom))
      ensures orientation == old(orientation)
    {
      center := position;
      ComputeScale();
    }

    /** roadmap_math_set_horizon: 0 for a flat map, negative for the perspective view. */
    method SetHorizon(h: int)
      requires Valid() && LatitudeCosine() != 0 && h <= 0
      modifies this`horizon, this`zoom, this`centerX, this`centerY, this`zoomX, this`zoomY, this`upright,
               this`orientation, this`sinOrientation, this`cosOrientation,
               this`currentScreen, this`focus, this`visibility
      ensures Valid() && Scaled() && horizon == h
      ensures zoom == (if old(zoom) == 0 then ReferenceZoom else old(zoom))
      ensures orientation == old(orientation)
    {
      horizon := h;
      ComputeScale();
    }

    /**
     * roadmap_math_to_position on the current context: the map position
     * under a screen point.
     */
    function ToPositionHere(p: GuiPoint, projected: bool): (r: Position)
      reads this
      requires Valid() && (projected && horizon != 0 ==> p.y != horizon)
      ensures orientation == 0 && (!projected || horizon == 0) ==>
        r == Position(upright.west + p.x * zoomX, upright.north - p.y * zoomY)
    {
      ToPosition(Frame(), p, projected)
    }

    /**
     * roadmap_math_rotate_coordinates: turn, then project, the first
     * `count` points of the array in place; nothing happens on an upright
     * flat map.
     */
    method RotateCoordinates(count: int, points: array<GuiPoint>)
      requires Valid() && count <= points.Length
      modifies points
      ensures count > 0 ==> points[..count] == RotateAll(Frame(), old(points[..count]))
      ensures forall k :: (if count > 0 then count else 0) <= k < points.Length ==> points[k] == old(points[k])
      ensures orientation == 0 && horizon == 0 ==> points[..] == old(points[..])
    {
      if orientation == 0 && horizon == 0 {
        return;
      }
      var f := Frame();
      var i := 0;
      while i < count
        invariant 0 <= i <= (if count > 0 then count else 0)
        invariant forall k :: 0 <= k < i ==> points[k] == RotateAndProject(f, old(points[k]))
        invariant forall k :: i <= k < points.Length ==> points[k] == old(points[k])
      {
        points[i] := RotateAndProject(f, points[i]);
        i := i + 1;
      }
      if count > 0 {
        RotatedPrefix(f, points[..], old(points[..]), count);
      }
    }
  }

  /**
   * The fields compute_scale derives are a function of the ones the
   * caller sets: two scaled contexts that agree on the table, centre,
   * zoom, size, orientation and horizon agree everywhere, so a second
   * compute_scale changes nothing.
   */
  lemma ScaledDetermined(a: Context, b: Context)
    requires a.Valid() && b.Valid() && a.Scaled() && b.Scaled()
    requires a.table == b.table && a.visibilityDistance == b.visibilityDistance
    requires a.center == b.center && a.zoom == b.zoom && a.width == b.width && a.height == b.height
    requires a.orientation == b.orientation && a.horizon == b.horizon
    ensures a.Frame() == b.Frame()
    ensures a.currentScreen == b.currentScreen && a.focus == b.focus && a.visibility == b.visibility
  {
  }
}
