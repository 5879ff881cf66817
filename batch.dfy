/**
 * The draw batcher of roadmap_screen.c, as values: the polyline lengths
 * committed so far, the points of those polylines, the pending polyline
 * still being accumulated, the isolated points, the current style, and
 * the log of canvas calls. The buffer-level class in the Screen module is
 * proved against these functions.
 */
module Batch {
  import opened Geo
  import opened Projection

  /** ROADMAP_SCREEN_BULK: the capacity of each of the three buffers. */
  const Bulk := 4096

  /** A pen or image handle; `Null` is C's NULL. */
  datatype Handle = Null | Ref(id: int)

  datatype Option<T> = None | Some(value: T)

  /** The SEGMENT_END, SEGMENT_AS_POINT and SEGMENT_OPPOSITE bits of a call. */
  datatype Flags = Flags(end: bool, asPoint: bool, opposite: bool)

  /** The canvas calls the batcher makes, in order. */
  datatype DrawCall =
    | SelectPen(pen: int)
    | RestorePen
    | SetThickness(thickness: int)
    | DrawLines(lengths: seq<int>, points: seq<GuiPoint>)
    | DrawPoints(points: seq<GuiPoint>)
    | DrawPolygons(lengths: seq<int>, points: seq<GuiPoint>)

  datatype State = State(objects: seq<int>, committed: seq<GuiPoint>, pending: seq<GuiPoint>,
                         points: seq<GuiPoint>, lastPen: Handle, lastImage: Handle,
                         lastOpposite: bool, canvas: seq<DrawCall>)

  function Sum(s: seq<int>): int
  {
    if s == [] then 0 else Sum(s[..|s| - 1]) + s[|s| - 1]
  }

  lemma SumPush(s: seq<int>, n: int)
    ensures Sum(s + [n]) == Sum(s) + n
  {
    assert (s + [n])[..|s|] == s;
  }

  /** Every committed polyline has at least two points, so there are at most half as many polylines as points. */
  lemma {:induction false} SumAtLeastTwice(s: seq<int>)
    requires forall k :: 0 <= k < |s| ==> s[k] >= 2
    ensures Sum(s) >= 2 * |s|
  {
    if s != [] {
      SumAtLeastTwice(s[..|s| - 1]);
    }
  }

  /**
   * The batcher's invariant: the polyline lengths add up to the number
   * of committed points, every polyline has at least two points, and the
   * buffers hold no more than they can.
   */
  predicate WellFormed(s: State)
  {
    Sum(s.objects) == |s.committed| &&
    (forall k :: 0 <= k < |s.objects| ==> s.objects[k] >= 2) &&
    |s.committed| + |s.pending| <= Bulk && |s.points| <= Bulk
  }

  lemma ObjectsFit(s: State)
    requires WellFormed(s)
    ensures 2 * |s.objects| <= Bulk
  {
    SumAtLeastTwice(s.objects);
  }

  /**
   * roadmap_screen_flush_points: nothing when there are no points;
   * otherwise draw them, turned and projected, and empty the buffer.
   */
  function FlushPoints(s: State, f: Frame): State
    requires ValidFrame(f)
  {
    if s.points == [] then s
    else s.(points := [], canvas := s.canvas + [DrawPoints(RotateAll(f, s.points))])
  }

  /** Flushing points empties the point buffer, draws what it held, and touches nothing else. */
  lemma FlushPointsEmpties(s: State, f: Frame)
    requires ValidFrame(f)
    ensures var r := FlushPoints(s, f);
            r.points == [] &&
            (s.points == [] ==> r == s) &&
            (s.points != [] ==> r == s.(points := [], canvas := s.canvas + [DrawPoints(RotateAll(f, s.points))])) &&
            (WellFormed(s) ==> WellFormed(r))
  {
  }

  /**
   * roadmap_screen_flush_lines: nothing when no polyline is committed;
   * otherwise draw the committed polylines (turned and projected; a
   * textured style draws nothing in a build without OpenGL), forget
   * them, and keep the pending polyline, in order, as the whole buffer.
   * The source aborts when the committed points fill the buffer.
   */
  function FlushLines(s: State, f: Frame): State
    requires ValidFrame(f) && |s.committed| < Bulk
  {
    if s.objects == [] then s
    else
      s.(objects := [], committed := [],
         canvas := s.canvas +
           (if s.lastImage.Null? then [DrawLines(s.objects, RotateAll(f, s.committed))] else []))
  }

  /**
   * Flushing lines is a no-op without committed polylines; otherwise it
   * draws them (unless an image is set) and forgets them, and the pending
   * polyline survives unchanged.
   */
  lemma FlushLinesKeepsPending(s: State, f: Frame)
    requires ValidFrame(f) && |s.committed| < Bulk
    ensures var r := FlushLines(s, f);
            r.pending == s.pending && r.points == s.points &&
            r.lastPen == s.lastPen && r.lastImage == s.lastImage && r.lastOpposite == s.lastOpposite &&
            (s.objects == [] ==> r == s) &&
            (s.objects != [] ==>
               r.objects == [] && r.committed == [] &&
               r.canvas == s.canvas +
                 (if s.lastImage.Null? then [DrawLines(s.objects, RotateAll(f, s.committed))] else [])) &&
            (WellFormed(s) ==> WellFormed(r))
  {
  }

  /**
   * The commit-or-discard step of roadmap_screen_add_segment_point: the
   * pending polyline becomes a committed one when it has at least two
   * points and a pen is set; otherwise it is dropped.
   */
  function Close(s: State): (r: State)
    ensures r.pending == [] && |r.committed| <= |s.committed| + |s.pending|
  {
    if s.lastPen.Ref? && |s.pending| > 1 then
      s.(objects := s.objects + [|s.pending|], committed := s.committed + s.pending, pending := [])
    else
      s.(pending := [])
  }

  /** Closing commits exactly the polylines of two points or more drawn with a pen, and keeps the invariant. */
  lemma CloseCommits(s: State)
    ensures var r := Close(s);
            r.pending == [] && r.points == s.points && r.canvas == s.canvas &&
            r.lastPen == s.lastPen && r.lastImage == s.lastImage && r.lastOpposite == s.lastOpposite &&
            (s.lastPen.Ref? && |s.pending| >= 2 ==>
               r.objects == s.objects + [|s.pending|] && r.committed == s.committed + s.pending) &&
            (!(s.lastPen.Ref? && |s.pending| >= 2) ==>
               r.objects == s.objects && r.committed == s.committed) &&
            (WellFormed(s) ==> WellFormed(r))
  {
    if s.lastPen.Ref? && |s.pending| > 1 {
      SumPush(s.objects, |s.pending|);
    }
  }

  /** Whether the call changes the style or ends the polyline, so that the pending polyline must be closed. */
  predicate Breaks(s: State, pen: Handle, image: Handle, flags: Flags)
  {
    s.lastPen != pen || flags.end || s.lastImage != image || s.lastOpposite != flags.opposite
  }

  /** How many points a call adds to the line buffer before it closes anything. */
  function LineWrites(point: Option<GuiPoint>, flags: Flags): nat
  {
    if point.Some? && !flags.asPoint then 1 else 0
  }

  /**
   * The perspective pen choice of roadmap_screen_add_segment_point: the
   * first projection layer from `from` on whose index is the last pen or
   * whose distance bound (squared) exceeds the point's distance from the
   * lower edge; past the last bound, the layer after it.
   */
  function FirstLayer(distance: int, areaDist: seq<int>, lastPen: int, from: nat): (k: nat)
    requires from <= |areaDist|
    ensures from <= k <= |areaDist|
    ensures forall l :: from <= l < k ==> l != lastPen && distance >= areaDist[l]
    ensures k < |areaDist| ==> k == lastPen || distance < areaDist[k]
    ensures from <= lastPen ==> k <= lastPen
    decreases |areaDist| - from
  {
    if from == |areaDist| then from
    else if from == lastPen || distance < areaDist[from] then from
    else FirstLayer(distance, areaDist, lastPen, from + 1)
  }

  /** An isolated point without a pen: the call does nothing. */
  predicate Ignored(point: Option<GuiPoint>, pen: Handle, flags: Flags)
  {
    point.Some? && flags.asPoint && pen.Null?
  }

  /** What a call may ask of the line buffer: room for its point, and a NULL point only to end a polyline. */
  predicate AddAllowed(s: State, point: Option<GuiPoint>, flags: Flags)
  {
    (point.None? ==> flags.end) &&
    |s.committed| + |s.pending| + LineWrites(point, flags) < Bulk
  }

  /**
   * The first half of roadmap_screen_add_segment_point: an isolated
   * point goes to the point buffer, flushed first when full; a polyline
   * point extends the pending polyline; a NULL point adds nothing.
   */
  function Place(s: State, f: Frame, point: Option<GuiPoint>, flags: Flags): (r: State)
    requires ValidFrame(f)
    ensures r.committed == s.committed
    ensures r.pending == s.pending + (if LineWrites(point, flags) == 1 then [point.value] else [])
  {
    if point.Some? && flags.asPoint then
      var t := if |s.points| >= Bulk then FlushPoints(s, f) else s;
      t.(points := t.points + [point.value])
    else if point.Some? then s.(pending := s.pending + [point.value])
    else s
  }

  /** Placing a point keeps the style and the invariant, and only appends to the canvas. */
  lemma PlaceKeepsStyle(s: State, f: Frame, point: Option<GuiPoint>, flags: Flags)
    requires ValidFrame(f) && WellFormed(s) && AddAllowed(s, point, flags)
    ensures var r := Place(s, f, point, flags);
            WellFormed(r) && s.canvas <= r.canvas &&
            r.lastPen == s.lastPen && r.lastImage == s.lastImage && r.lastOpposite == s.lastOpposite
  {
    if point.Some? && flags.asPoint && |s.points| >= Bulk {
      FlushPointsEmpties(s, f);
    }
  }

  /**
   * The style step of roadmap_screen_add_segment_point, after the
   * pending polyline is closed: a new pen flushes lines and points, then
   * is selected (a NULL pen is recorded but not selected); a new image or
   * side flushes lines only.
   */
  function Restyle(s: State, f: Frame, pen: Handle, image: Handle, opposite: bool): (r: State)
    requires ValidFrame(f) && |s.committed| < Bulk
    ensures r.pending == s.pending && |r.committed| <= |s.committed|
  {
    if s.lastPen != pen then
      var t := FlushPoints(FlushLines(s, f), f);
      t.(canvas := t.canvas + (if pen.Ref? then [SelectPen(pen.id)] else []),
         lastPen := pen, lastImage := image, lastOpposite := opposite)
    else if s.lastImage != image || s.lastOpposite != opposite then
      FlushLines(s, f).(lastImage := image, lastOpposite := opposite)
    else s
  }

  /**
   * roadmap_screen_add_segment_point with the pen already chosen (the
   * last pen for a NULL point). An isolated point without a pen is
   * ignored. Otherwise the point is placed; then, when the style changes
   * or the polyline ends, the pending polyline is closed and the new
   * style applied, and a call that neither ends a polyline nor draws a
   * point starts the next polyline with its point.
   */
  function Add(s: State, f: Frame, point: Option<GuiPoint>, pen: Handle, image: Handle, flags: Flags): State
    requires ValidFrame(f) && AddAllowed(s, point, flags)
  {
    if Ignored(point, pen, flags) then s
    else
      var s1 := Place(s, f, point, flags);
      if Breaks(s1, pen, image, flags) then Break(s1, f, point, pen, image, flags) else s1
  }

  /**
   * The second half of roadmap_screen_add_segment_point: close the
   * pending polyline, apply the new style, and start the next polyline
   * with the point unless the call ends a polyline or draws a point.
   */
  function Break(s: State, f: Frame, point: Option<GuiPoint>, pen: Handle, image: Handle, flags: Flags): State
    requires ValidFrame(f) && |s.committed| + |s.pending| < Bulk
    requires point.None? ==> flags.end
  {
    var s3 := Restyle(Close(s), f, pen, image, flags.opposite);
    if !flags.end && !flags.asPoint then s3.(pending := s3.pending + [point.value]) else s3
  }

  /**
   * Adding a point keeps the batcher's invariant, never grows the line
   * buffer by more than the point it stores, leaves nothing pending after
   * an end, never rewrites a canvas call already made, and does nothing
   * at all for an isolated point without a pen.
   */
  lemma {:induction false} AddKeepsInvariant(s: State, f: Frame, point: Option<GuiPoint>, pen: Handle,
                                             image: Handle, flags: Flags)
    requires ValidFrame(f) && WellFormed(s) && AddAllowed(s, point, flags)
    ensures var r := Add(s, f, point, pen, image, flags);
            WellFormed(r) &&
            (Ignored(point, pen, flags) ==> r == s) &&
            (flags.end && !Ignored(point, pen, flags) ==> r.pending == []) &&
            |r.committed| + |r.pending| <= |s.committed| + |s.pending| + LineWrites(point, flags) &&
            |r.pending| <= |s.pending| + LineWrites(point, flags) &&
            s.canvas <= r.canvas
  {
    if !Ignored(point, pen, flags) {
      var s1 := Place(s, f, point, flags);
      PlaceKeepsStyle(s, f, point, flags);
      if Breaks(s1, pen, image, flags) {
        BreakBounds(s1, f, point, pen, image, flags);
        assert Add(s, f, point, pen, image, flags) == Break(s1, f, point, pen, image, flags);
      } else {
        assert Add(s, f, point, pen, image, flags) == s1;
      }
    }
  }

  lemma RestyleKeepsInvariant(s: State, f: Frame, pen: Handle, image: Handle, opposite: bool)
    requires ValidFrame(f) && |s.committed| < Bulk && WellFormed(s)
    ensures var r := Restyle(s, f, pen, image, opposite);
            WellFormed(r) && s.canvas <= r.canvas &&
            r.lastPen == pen && r.lastImage == image && r.lastOpposite == opposite &&
            (s.lastPen != pen ==> r.objects == [] && r.committed == [] && r.points == []) &&
            (s.lastPen != pen && pen.Ref? ==> r.canvas != [] && r.canvas[|r.canvas| - 1] == SelectPen(pen.id))
  {
    FlushLinesKeepsPending(s, f);
    if s.lastPen != pen {
      FlushPointsEmpties(FlushLines(s, f), f);
    }
  }

  /**
   * Breaking a polyline never needs more room than the batcher already
   * uses: a point that starts the next polyline follows a style change,
   * which flushes whatever was just committed.
   */
  lemma BreakBounds(s: State, f: Frame, point: Option<GuiPoint>, pen: Handle, image: Handle, flags: Flags)
    requires ValidFrame(f) && WellFormed(s) && |s.committed| + |s.pending| < Bulk
    requires point.None? ==> flags.end
    requires Breaks(s, pen, image, flags)
    requires !flags.end && !flags.asPoint ==> s.pending != []
    ensures var r := Break(s, f, point, pen, image, flags);
            WellFormed(r) &&
            |r.committed| + |r.pending| <= |s.committed| + |s.pending| &&
            |r.pending| <= 1 &&
            (flags.end ==> r.pending == []) &&
            s.canvas <= r.canvas
  {
    CloseCommits(s);
    RestyleKeepsInvariant(Close(s), f, pen, image, flags.opposite);
    FlushLinesKeepsPending(Close(s), f);
  }

  /**
   * Ending a polyline with the style unchanged commits the pending
   * polyline with its last point when it then has two points or more and
   * a pen is set, and drops it otherwise; nothing is drawn.
   */
  lemma AddEndCommits(s: State, f: Frame, p: GuiPoint, image: Handle, opposite: bool)
    requires ValidFrame(f) && WellFormed(s) && AddAllowed(s, Some(p), Flags(true, false, opposite))
    requires s.lastImage == image && s.lastOpposite == opposite
    ensures var r := Add(s, f, Some(p), s.lastPen, image, Flags(true, false, opposite));
            var line := s.pending + [p];
            r.canvas == s.canvas && r.pending == [] &&
            (if s.lastPen.Ref? && |line| >= 2
             then r.objects == s.objects + [|line|] && r.committed == s.committed + line
             else r.objects == s.objects && r.committed == s.committed)
  {
    CloseCommits(Place(s, f, Some(p), Flags(true, false, opposite)));
  }

  /**
   * A pen change flushes lines and points before the new pen is selected
   * and recorded: afterwards nothing committed or isolated is left, the
   * pen selection is the last canvas call, and a plain point starts the
   * next polyline on its own.
   */
  lemma AddPenChangeFlushesFirst(s: State, f: Frame, point: Option<GuiPoint>, pen: Handle,
                                 image: Handle, flags: Flags)
    requires ValidFrame(f) && WellFormed(s) && AddAllowed(s, point, flags)
    requires pen != s.lastPen && !Ignored(point, pen, flags)
    ensures var r := Add(s, f, point, pen, image, flags);
            r.objects == [] && r.committed == [] && r.points == [] &&
            r.lastPen == pen && r.lastImage == image && r.lastOpposite == flags.opposite &&
            (pen.Ref? ==> r.canvas != [] && r.canvas[|r.canvas| - 1] == SelectPen(pen.id)) &&
            r.pending == (if !flags.end && !flags.asPoint then [point.value] else [])
  {
    var s1 := Place(s, f, point, flags);
    PlaceKeepsStyle(s, f, point, flags);
    assert Breaks(s1, pen, image, flags);
    var s2 := Close(s1);
    CloseCommits(s1);
    var s3 := Restyle(s2, f, pen, image, flags.opposite);
    RestyleKeepsInvariant(s2, f, pen, image, flags.opposite);
    assert Add(s, f, point, pen, image, flags) ==
           if !flags.end && !flags.asPoint then s3.(pending := s3.pending + [point.value]) else s3;
  }

  /**
   * A plain point with the style unchanged and no end flag only extends
   * the pending polyline.
   */
  lemma AddExtends(s: State, f: Frame, p: GuiPoint, opposite: bool)
    requires ValidFrame(f) && AddAllowed(s, Some(p), Flags(false, false, opposite))
    requires s.lastOpposite == opposite
    ensures Add(s, f, Some(p), s.lastPen, s.lastImage, Flags(false, false, opposite)) ==
            s.(pending := s.pending + [p])
  {
  }
}
