# Waze map projection, draw batcher and hidden-report list, in Dafny

This project models three integer-only cores of the Waze client's map view
(the RoadMap code base in `bb_waze_code/src`):

- **The projection context of `roadmap_math.c`.** This is the process-wide `RoadMapContext`, modelled as the class
  `MapContext.Context`. It holds the center, the zoom, the orientation with its Q15 sine and cosine, the
  3D horizon, the screen size, `zoom_x`/`zoom_y` and the upright, current, focus and visibility rectangles.
  The model covers:
  - the mutators that recompute it: `compute_scale`, `set_orientation`, the zoom steps, `set_focus`/`release_focus`;
  - the fixed-point trigonometry (`Trig`);
  - the integer perspective pair and the rotations (`Projection`);
  - the viewport clipping (`Clipping`);
  - the small helpers (`Angles`, `MathHelpers`).

  C's truncating `/` and `%` are written out in `CInt`, and so is the 16-bit zoom field.
- **The draw batcher of `roadmap_screen.c`.** `Screen.Batcher` owns the three fixed buffers of `ROADMAP_SCREEN_BULK`
  (4096) entries: polyline lengths, line points with their "real" flags, and isolated points. It also holds
  the commit cursor, the accumulation pointer and the last pen, image and direction.
  - Each imperative routine is proved against a value-level state machine in `Batch`:
    `add_segment_point`, `flush_lines` with its `memmove` of the pending tail, and `flush_points`.
  - The feeders are proved against value-level functions as well:
    - `draw_one_line_internal`, in `Drawing`;
    - the polygon pass `flush_polygons`/`draw_polygons`, in `Rings` and `Polygons`. The pass uses the corrected
      repeated-point test of the third finding below; the test as written is modelled beside it in `Rings`;
    - the per-tile driver `repaint_square` with `draw_square_edges`, in `Tiles`.
  - The canvas is an append-only log of draw calls.
  - Rotation, the tile membership test and the repaint flow-control counter are in `ScreenControl`.
- **The hidden-report list of `roadmap_map_settings.c`.** This is a `'-'`-separated list of decimal report
  types. The model covers:
  - parsing it with `strtok`/`atoi` in `show_report`;
  - writing it from the check boxes in `update_reports_dont_show`, with the round trip between the two;
  - `allowed_alerts`.

The collaborators whose code lives elsewhere become parameters of the operations that use them:
- the trigonometric table (46 entries in [0, 32768]; no values are assumed);
- `roadmap_math_coordinate`, `roadmap_math_point_is_visible`, `roadmap_math_line_is_visible`, `roadmap_math_is_visible`;
- the slope-based edge intersection and the distance in `get_visible_coordinates`;
- the layer pens, `roadmap_polygon_points` and the lines of a tile.

Projection and unprojection are inverse up to rounding in two proved ranges:
- A flat point is projected and then unprojected. If its distance above the bottom line is at most one visible
  range (between the horizon and the bottom line), it comes back within two pixels in x and four in y
  (`ProjectRoundTrip`). Such points land only in the lower half of the perspective band.
- A screen row strictly below the horizon is unprojected and then projected. It comes back as the same row or
  the one just below it (`UnprojectRoundTrip`). Its column is not bounded: near the horizon the x scaling is
  large.

Flat points farther away are drawn on screen rows closer to the horizon, and their round trip loses whole rows.
On a 400 by 400 screen with the horizon at -100, y = -1599 is drawn on row 1 and comes back as -1575.
y = -10000 comes back as -9969 (`ProjectFarDrift`). Rotation and counter-rotation are inverse to within four pixels
when the table's sine and cosine form a unit pair in Q15 (`RotateRoundTripUnit`). Otherwise the error grows with
the distance from the center times the pair's deviation from unit length (`RotateRoundTrip`).

The zoom steps of `roadmap_math_zoom_in` (2/3, truncated, raised to 6) and `roadmap_math_zoom_out`
(3/2, truncated) are not inverse to each other. For example, 7 goes in to 6 and then out to 9. The model
follows the code: `ZoomIn` and `ZoomOut` state the truncated formulas, and no round trip is claimed.

## Model

| member | source | states |
|---|---|---|
| CInt.Abs | bb_waze_code/src/roadmap_math.c:1909-1921 | the magnitude `abs` returns: the argument or its negation, never negative |
| CInt.Div | bb_waze_code/src/roadmap_math.c:447-461 | C's `/` truncates toward zero: the remainder is smaller than the divisor in magnitude and has the dividend's sign |
| CInt.Rem | bb_waze_code/src/roadmap_math.c:1108-1111 | C's `%`: smaller than the divisor in magnitude, with the dividend's sign, and equal to dividend minus truncated quotient times divisor |
| CInt.DivNonNegative | bb_waze_code/src/roadmap_math.c:129-159 | for a non-negative dividend and positive divisor, C's division and remainder coincide with the mathematical ones |
| CInt.DivMagnitude | bb_waze_code/src/roadmap_math.c:447-461 | the magnitude of a truncated quotient is the quotient of the magnitudes |
| CInt.UShort | bb_waze_code/src/roadmap_math.c:954-964 | the `(unsigned short)` cast: a value in [0, 0xffff] congruent to the input modulo 65536, the input itself when it is in range |
| Angles.Normalized | bb_waze_code/src/roadmap_math.c:1108-1111 | an angle in [0, 360) that differs from the input by whole turns, and the input itself when already in range |
| Angles.NormalizeOrientation | bb_waze_code/src/roadmap_math.c:1108-1111 | `roadmap_math_normalize_orientation` (C remainder, then +360 when negative) yields the normalised angle |
| Angles.AngularDistance | bb_waze_code/src/roadmap_math.c:1909-1921 | the angular distance of two directions lies in [0, 180] |
| Angles.AngularDistanceSymmetric | bb_waze_code/src/roadmap_math.c:1909-1921 | the delta between two directions does not depend on their order |
| Angles.AngularDistanceFullTurn | bb_waze_code/src/roadmap_math.c:1909-1921 | adding whole turns to a direction does not change its delta to another |
| Angles.DeltaDirection | bb_waze_code/src/roadmap_math.c:1909-1921 | `roadmap_math_delta_direction`'s loops return the angular distance of the two directions |
| Trig.FirstQuadrant | bb_waze_code/src/roadmap_math.c:131-144 | within the first quadrant, angles up to 45 read the table directly and larger ones read the complementary entry with sine and cosine swapped; both stay in [0, 32768] |
| Trig.SinCosOf | bb_waze_code/src/roadmap_math.c:129-159 | the sine and cosine of any angle lie in [-32768, 32768] |
| Trig.QuarterTurn | bb_waze_code/src/roadmap_math.c:146-158 | turning by 90 degrees maps (sine, cosine) to (cosine, -sine), the quadrant rule of the switch |
| Trig.FullTurn | bb_waze_code/src/roadmap_math.c:129-159 | an angle and the same angle plus 360 have identical sine and cosine |
| Trig.FirstOctant | bb_waze_code/src/roadmap_math.c:131-144 | for angles 0 to 45 the result is the table entry itself |
| Trig.Trigonometry | bb_waze_code/src/roadmap_math.c:129-159 | `roadmap_math_trigonometry` (C remainder, quadrant reduction, swap and negation) returns the sine and cosine of the angle |
| Trig.Mirror | bb_waze_code/src/roadmap_math.c:222-229 | the final sign and quadrant step of the arccosine stays in (-180, 180]: sign times the base angle for a non-negative cosine, 180 minus it for a negative one |
| Trig.Arccosine | bb_waze_code/src/roadmap_math.c:162-231 | 0 when the cosine's magnitude exceeds 32768; otherwise a result in (-180, 180] obtained by mirroring a table angle found by the binary search, in the first octant when the searched cosine is at least the 45-degree entry's |
| Projection.Squeeze | bb_waze_code/src/roadmap_math.c:527-554 | the perspective's `d * range / (abs(d) + range)` term keeps the sign of d and stays strictly below range in magnitude |
| Projection.SqueezeBound | bb_waze_code/src/roadmap_math.c:527-554 | the same bound and signs, stated on C's truncating division |
| Projection.Scale | bb_waze_code/src/roadmap_math.c:527-554 | scaling by a ratio of one leaves the value unchanged |
| Projection.Project | bb_waze_code/src/roadmap_math.c:527-554 | integer `roadmap_math_project`: the new y lies within VisibleRange of the screen height and below the horizon, on the same side of the height as the input, and a point on the bottom line is unchanged |
| Projection.Unproject | bb_waze_code/src/roadmap_math.c:556-589 | `roadmap_math_unproject` is the identity when the horizon is 0, and on the bottom line |
| Projection.Rotate | bb_waze_code/src/roadmap_math.c:685-718 | the per-point rotation about the screen center fixes the center |
| Projection.CounterRotate | bb_waze_code/src/roadmap_math.c:447-461 | `roadmap_math_counter_rotate_coordinate` fixes the screen center |
| Projection.UnsqueezeSqueeze | bb_waze_code/src/roadmap_math.c:527-589 | undoing the perspective's squeeze on a non-negative offset returns it within four pixels, never beyond it |
| Projection.ScaleBack | bb_waze_code/src/roadmap_math.c:527-589 | the x scaling by `range2/range` and its inverse bring an offset back within two pixels when the ratio is at most two |
| Projection.ProjectRoundTrip | bb_waze_code/src/roadmap_math.c:527-589 | for a point between the horizon and the bottom line, unprojecting the projected point returns x within two pixels and y within four pixels below it |
| Projection.SqueezeUnsqueeze | bb_waze_code/src/roadmap_math.c:527-589 | unsqueezing a distance short of the horizon and squeezing it again returns it or one row less |
| Projection.UnprojectRoundTrip | bb_waze_code/src/roadmap_math.c:527-589 | for a screen row strictly below the horizon, projecting the unprojected point returns the same row or the row just below |
| Projection.ProjectFarDrift | bb_waze_code/src/roadmap_math.c:527-589 | beyond one visible range the round trip drifts: on a 400 by 400 screen with horizon -100, y = -1599 is drawn on row 1 and comes back as -1575, and y = -10000 projects to -77 and comes back as -9969 |
| Projection.Q15Near | bb_waze_code/src/roadmap_math.c:447-461 | the `(v + 16383) / 32768` rounding is within one and a half units of the exact quotient |
| Projection.TurnNear | bb_waze_code/src/roadmap_math.c:700-709 | the per-point rotation's offsets, times 32768, are the exact rotation up to that rounding |
| Projection.RotateRoundTrip | bb_waze_code/src/roadmap_math.c:447-461 | counter-rotating a rotated point brings it back to within TurnSlack / 32768² per axis: the offset times the sine-cosine pair's deviation from unit length plus three rounding terms |
| Projection.RotateRoundTripUnit | bb_waze_code/src/roadmap_math.c:447-461 | when sine² + cosine² is exactly 32768², counter-rotation undoes rotation to within four pixels per axis |
| Projection.TurnByZeroNearlyFixed | bb_waze_code/src/roadmap_math.c:447-461 | with sine 0 and cosine 32768 both rotations move a point by at most one pixel per axis (the +16383 rounding) |
| Projection.Q15Unit | bb_waze_code/src/roadmap_math.c:700-709 | the Q15 rounding `(a * 32768 + 16383) / 32768` returns a or a + 1, and exactly a for non-negative a |
| Projection.RotateAndProject | bb_waze_code/src/roadmap_math.c:685-718 | with orientation and horizon both 0 a point is left unchanged; with a horizon it ends below the horizon |
| Projection.RotateAll | bb_waze_code/src/roadmap_math.c:685-718 | every point of the array is rotated and projected, the length kept |
| Projection.ToPosition | bb_waze_code/src/roadmap_math.c:1203-1234 | `roadmap_math_to_position` without rotation or perspective is the linear map from the upright rectangle's north-west corner by zoom_x and zoom_y |
| Projection.BottomRightCorner | bb_waze_code/src/roadmap_math.c:1203-1234 | unrotated, the bottom-right screen corner maps to the upright north-west corner plus width·zoom_x and minus height·zoom_y |
| Projection.Corners | bb_waze_code/src/roadmap_math.c:1147-1164 | the four viewport corners `set_orientation` converts back to positions |
| Clipping.SegmentTest | bb_waze_code/src/roadmap_math.c:332-354 | the test of `check_point_in_segment` holds exactly when the point lies in the segment's bounding box widened by one unit |
| Clipping.CheckPointInSegment | bb_waze_code/src/roadmap_math.c:332-354 | a visible point inside that box is appended to the intersections; otherwise nothing changes |
| Clipping.Candidates | bb_waze_code/src/roadmap_math.c:357-444 | the edge crossings tried: two to four positions, each on an edge of the visibility rectangle |
| Clipping.Scan | bb_waze_code/src/roadmap_math.c:357-444 | the scan keeps the points found before, adds only visible in-box candidates, and stops at the maximum |
| Clipping.Take | bb_waze_code/src/roadmap_math.c:357-444 | the first min(n, length) elements |
| Clipping.ScanTakesAdmitted | bb_waze_code/src/roadmap_math.c:357-444 | the scan equals the points found so far plus the first admissible candidates up to the maximum |
| Clipping.FindScreenIntersection | bb_waze_code/src/roadmap_math.c:357-444 | at most `max_intersections` points (and at most 4), each visible, inside the segment's ±1 box and on a visibility edge |
| Clipping.FindTakesAdmitted | bb_waze_code/src/roadmap_math.c:357-444 | the result is exactly the first `max` admissible candidates in the order the edges are tried |
| Clipping.Needed | bb_waze_code/src/roadmap_math.c:864-938 | the number of intersections to look for is the number of invisible end points, 0 to 2 |
| Clipping.GetVisibleCoordinates | bb_waze_code/src/roadmap_math.c:864-938 | 0 (Hidden) exactly when fewer intersections than needed are found, unless points are not wanted and an end is visible; both ends visible gives their direct coordinates; a visible end always keeps its own coordinate |
| MathHelpers.AreaContains | bb_waze_code/src/roadmap_math.c:1695-1702 | 1 exactly when the first area covers the second, else 0 |
| MathHelpers.AreaContainsOrder | bb_waze_code/src/roadmap_math.c:1695-1702 | containment is reflexive and transitive |
| MathHelpers.ScreenDistance | bb_waze_code/src/roadmap_math.c:1287-1305 | the squared screen distance is non-negative, 0 exactly for equal points, and at least each axis' square |
| MathHelpers.ScreenDistanceSymmetric | bb_waze_code/src/roadmap_math.c:1287-1305 | the distance does not depend on the order of the points |
| MathHelpers.ComparePointsAsWritten | bb_waze_code/src/roadmap_math.c:1891-1906 | `compare_points` as written: 0 exactly for equal points, -1 when the first longitude is smaller |
| MathHelpers.ComparePointsAsWrittenNotAntisymmetric | bb_waze_code/src/roadmap_math.c:1891-1906 | (2,0) against (1,5) and (1,5) against (2,0) both return -1 |
| MathHelpers.ComparePoints | bb_waze_code/src/roadmap_math.c:1891-1906 | the evidently intended comparison: -1, 0 or 1 exactly by longitude, then latitude |
| MathHelpers.ComparePointsTotalOrder | bb_waze_code/src/roadmap_math.c:1891-1906 | the corrected comparison is antisymmetric and transitive |
| MathHelpers.ComparePointsAgree | bb_waze_code/src/roadmap_math.c:1891-1906 | the two agree whenever the first longitude is not the larger |
| MathHelpers.DigitsValueAppend | bb_waze_code/src/roadmap_math.c:1704-1776 | the decimal value of concatenated digits is the first value shifted by the second's length plus the second |
| MathHelpers.MarkerFrom | bb_waze_code/src/roadmap_math.c:1704-1776 | the separator search returns the first compass letter or '-' after the first character, or 0 when there is none |
| MathHelpers.PlainDigit | bb_waze_code/src/roadmap_math.c:1704-1776 | a digit character reads as its value |
| MathHelpers.PlainDigitsOfDigits | bb_waze_code/src/roadmap_math.c:1704-1776 | an all-digit image reads as its digit codes |
| MathHelpers.GeographicSeparatorIsZero | bb_waze_code/src/roadmap_math.c:1704-1776 | for a geographic address the separator counts as a 0 digit between the two parts |
| MathHelpers.PlainDecimal | bb_waze_code/src/roadmap_math.c:1704-1776 | an ordinary house number of up to 8 digits reads as its decimal value |
| MathHelpers.StreetAddress | bb_waze_code/src/roadmap_math.c:1704-1776 | `roadmap_math_street_address` returns the address value of the image |
| MathHelpers.FindSeparator | bb_waze_code/src/roadmap_math.c:1704-1776 | the separator loop finds the first marker after the first character |
| MathHelpers.ReadSecondPart | bb_waze_code/src/roadmap_math.c:1704-1776 | the part after the separator is read as a decimal, with multiplier 10 to its length plus one |
| MathHelpers.GeographicAddress | bb_waze_code/src/roadmap_math.c:1704-1776 | the geographic branch computes the address value |
| MathHelpers.PlainAddress | bb_waze_code/src/roadmap_math.c:1704-1776 | the plain branch computes the address value |
| MapContext.SpanCovers | bb_waze_code/src/roadmap_math.c:1114-1189 | widening a rectangle by positions yields one that covers it and all the positions |
| MapContext.SpanLeast | bb_waze_code/src/roadmap_math.c:1114-1189 | any rectangle covering the start and all positions covers the widened one |
| MapContext.WidenToCorners | bb_waze_code/src/roadmap_math.c:1166-1184 | the corner loop of `set_orientation` computes that smallest widening |
| MapContext.ScreenAreaTight | bb_waze_code/src/roadmap_math.c:1114-1189 | the current screen covers the upright rectangle and the four viewport corners, and is the smallest such rectangle |
| MapContext.XZoom | bb_waze_code/src/roadmap_math.c:234-329 | zoom_x is never 0; for a positive cosine it is at least 1, and otherwise the truncated zoom·32768/cosine |
| MapContext.UprightArea | bb_waze_code/src/roadmap_math.c:234-329 | upright west = center longitude − center_x·zoom_x, north = center latitude + center_y·zoom_y, spanning width·zoom_x by height·zoom_y |
| MapContext.StoredZoom | bb_waze_code/src/roadmap_math.c:987-1009 | the zoom `zoom_set` stores (16-bit cast before the clamps) lies in [0, 0xffff] and is the request itself when in range |
| MapContext.ClampedZoom | bb_waze_code/src/roadmap_math.c:987-1009 | the corrected clamp: in [6, 0xffff], at least the override minimum, and the request itself when in range |
| MapContext.StoredZoomWrapsAbove | bb_waze_code/src/roadmap_math.c:987-1009 | a request of 65537 is stored as 6, not 0xffff |
| MapContext.StoredZoomWrapsBelow | bb_waze_code/src/roadmap_math.c:987-1009 | a request of -1 is stored as 0xffff, not 6 |
| MapContext.ClampedZoomMonotonic | bb_waze_code/src/roadmap_math.c:987-1009 | the corrected clamp never turns a larger request into a smaller zoom |
| MapContext.Context.Frame | bb_waze_code/src/roadmap_math.c:685-718 | the projection fields of a valid context form a valid frame |
| MapContext.Context.constructor | bb_waze_code/src/roadmap_math.c:799-815 | `roadmap_math_initialize`: reference zoom, orientation and horizon 0, center (0,0), no override, scale computed |
| MapContext.Context.SetFocus | bb_waze_code/src/roadmap_math.c:844-851 | the focus becomes the area and the visibility the area widened by the visibility distance |
| MapContext.Context.ReleaseFocus | bb_waze_code/src/roadmap_math.c:854-861 | the focus returns to the current screen and the visibility to it widened |
| MapContext.Context.ComputeScreen | bb_waze_code/src/roadmap_math.c:1145-1187 | the current screen is the span of the upright rectangle and the corners; focus and visibility follow it |
| MapContext.Context.SetOrientation | bb_waze_code/src/roadmap_math.c:1114-1189 | stores the normalised direction; returns 0 exactly when it is unchanged or a nonzero move of at most 2 degrees, else 1; the rectangles are recomputed |
| MapContext.Context.PlaceUpright | bb_waze_code/src/roadmap_math.c:234-329 | zoom 0 becomes 20; center_x/center_y are half the size; zoom_x from the latitude's cosine, zoom_y the zoom; the upright rectangle's corner from the center |
| MapContext.Context.ComputeScale | bb_waze_code/src/roadmap_math.c:234-329 | all of the above, with the screen recomputed at orientation 0 and the original orientation restored |
| MapContext.Context.SetMinZoom | bb_waze_code/src/roadmap_math.c:125-127 | records the override minimum |
| MapContext.Context.ZoomOut | bb_waze_code/src/roadmap_math.c:954-964 | the zoom becomes 3·zoom/2 unless that reaches MAX_ZOOM_OUT, when it is unchanged; it grows when it can |
| MapContext.Context.ZoomIn | bb_waze_code/src/roadmap_math.c:967-983 | the zoom becomes 2·zoom/3 raised to 6, or to the override minimum; never below either |
| MapContext.Context.ZoomSet | bb_waze_code/src/roadmap_math.c:987-1009 | returns 0 and changes nothing for the current zoom; otherwise stores the cast-then-clamped zoom and rescales |
| MapContext.Context.ZoomSetClamped | bb_waze_code/src/roadmap_math.c:987-1009 | the corrected `zoom_set`: the same, with the clamp applied before the cast, so the zoom is at least 6 |
| MapContext.Context.SetSize | bb_waze_code/src/roadmap_math.c:1082-1088 | stores the size and rescales |
| MapContext.Context.SetCenter | bb_waze_code/src/roadmap_math.c:1091-1097 | stores the center and rescales |
| MapContext.Context.SetHorizon | bb_waze_code/src/roadmap_math.c:1100-1105 | stores the horizon and rescales |
| MapContext.Context.ToPositionHere | bb_waze_code/src/roadmap_math.c:1203-1234 | `roadmap_math_to_position` on the current context |
| MapContext.Context.RotateCoordinates | bb_waze_code/src/roadmap_math.c:685-718 | rewrites exactly the first `count` points in place by rotation and projection, leaves the rest, and leaves the array untouched when orientation and horizon are 0 |
| MapContext.ScaledDetermined | bb_waze_code/src/roadmap_math.c:234-329 | after a rescale the derived fields depend only on center, zoom, size, orientation and horizon |
| Batch.SumAtLeastTwice | bb_waze_code/src/roadmap_screen.c:476-482 | committed polylines have two points or more, so the points are at least twice the objects |
| Batch.ObjectsFit | bb_waze_code/src/roadmap_screen.c:476-482 | the object buffer can never overflow before the point buffer |
| Batch.FlushPointsEmpties | bb_waze_code/src/roadmap_screen.c:349-365 | no-op on an empty buffer; otherwise the points are drawn turned and projected and the buffer emptied; the invariant holds |
| Batch.FlushLinesKeepsPending | bb_waze_code/src/roadmap_screen.c:368-412 | no-op with no committed polyline; otherwise the committed lines are drawn (when no image is set) and dropped while the pending tail and the style are kept |
| Batch.Close | bb_waze_code/src/roadmap_screen.c:471-485 | closing leaves nothing pending and commits at most the pending points |
| Batch.CloseCommits | bb_waze_code/src/roadmap_screen.c:471-485 | the pending polyline is committed exactly when a pen is set and it has two points or more, otherwise dropped |
| Batch.FirstLayer | bb_waze_code/src/roadmap_screen.c:433-445 | the 3D layer choice stops at `num_pens` or at the first area whose distance exceeds the point's |
| Batch.Place | bb_waze_code/src/roadmap_screen.c:431-465 | a point starts or extends the pending polyline exactly when it is not drawn as a point |
| Batch.PlaceKeepsStyle | bb_waze_code/src/roadmap_screen.c:431-465 | placing a point keeps the pen, image and side and the length-sum invariant, and only appends to the canvas |
| Batch.Restyle | bb_waze_code/src/roadmap_screen.c:488-502 | a style change keeps the pending points and never grows the committed ones |
| Batch.AddKeepsInvariant | bb_waze_code/src/roadmap_screen.c:420-515 | `add_segment_point` keeps the length-sum invariant, ignores a point with a NULL pen, ends with nothing pending on SEGMENT_END, and only appends to the canvas |
| Batch.RestyleKeepsInvariant | bb_waze_code/src/roadmap_screen.c:488-502 | a pen change flushes lines and points and selects the new pen last; the new style is recorded |
| Batch.BreakBounds | bb_waze_code/src/roadmap_screen.c:471-507 | after a break at most one point is pending (the re-added start), none on SEGMENT_END, and the canvas is only appended to |
| Batch.AddEndCommits | bb_waze_code/src/roadmap_screen.c:471-485 | SEGMENT_END with the same style commits the polyline with its last point |
| Batch.AddPenChangeFlushesFirst | bb_waze_code/src/roadmap_screen.c:488-506 | on a pen change the buffers are flushed before the pen is selected, and a START point is re-added |
| Batch.AddExtends | bb_waze_code/src/roadmap_screen.c:464 | a plain point with the same style only extends the pending polyline |
| Screen.Batcher.ModelWellFormed | bb_waze_code/src/roadmap_screen.c:479-482 | the buffers' lengths sum to the commit cursor |
| Screen.Batcher.ModelSizes | bb_waze_code/src/roadmap_screen.c:349-412 | the value state has the buffers' sizes |
| Screen.Batcher.constructor | bb_waze_code/src/roadmap_screen.c:349-412 | empty buffers and no pen, image or direction |
| Screen.Batcher.FlushPoints | bb_waze_code/src/roadmap_screen.c:349-365 | `roadmap_screen_flush_points` on the buffers, as the value-level flush |
| Screen.Batcher.FlushLines | bb_waze_code/src/roadmap_screen.c:368-412 | `roadmap_screen_flush_lines` on the buffers: the value-level flush, cursor 0, the pending count kept |
| Screen.Batcher.DrawCommitted | bb_waze_code/src/roadmap_screen.c:378-396 | draws the committed lines turned and projected, keeping the pending tail |
| Screen.Batcher.KeepPending | bb_waze_code/src/roadmap_screen.c:399-410 | moves the pending tail to the front in order and resets the cursors |
| Screen.Batcher.MoveTail | bb_waze_code/src/roadmap_screen.c:399-404 | the `memmove`: the tail appears at the front in order |
| Screen.Batcher.ChoosePen | bb_waze_code/src/roadmap_screen.c:433-445 | the layer used: the first one by screen distance in 3D, else 0 |
| Screen.Batcher.PlacePoint | bb_waze_code/src/roadmap_screen.c:431-465 | writes the point as the value-level placement says |
| Screen.Batcher.PushPoint | bb_waze_code/src/roadmap_screen.c:456-460 | an isolated point, after a flush when the buffer is full |
| Screen.Batcher.ClosePending | bb_waze_code/src/roadmap_screen.c:476-485 | commits or discards the pending polyline |
| Screen.Batcher.CommitPending | bb_waze_code/src/roadmap_screen.c:479-482 | records the pending length and advances the cursor |
| Screen.Batcher.PushObject | bb_waze_code/src/roadmap_screen.c:479-482 | appends one length to the object buffer |
| Screen.Batcher.ApplyStyle | bb_waze_code/src/roadmap_screen.c:488-502 | the pen or look change as the value-level restyle |
| Screen.Batcher.ChangeLook | bb_waze_code/src/roadmap_screen.c:497-502 | an image or direction change with the same pen flushes lines only |
| Screen.Batcher.SetLook | bb_waze_code/src/roadmap_screen.c:500-501 | records image and direction |
| Screen.Batcher.ChangePen | bb_waze_code/src/roadmap_screen.c:488-496 | flush lines, flush points, select and record the new pen |
| Screen.Batcher.FlushAll | bb_waze_code/src/roadmap_screen.c:490-491 | lines then points |
| Screen.Batcher.SetStyle | bb_waze_code/src/roadmap_screen.c:493-496 | selects a non-NULL pen and records the style |
| Screen.Batcher.AddSegmentPoint | bb_waze_code/src/roadmap_screen.c:420-515 | `roadmap_screen_add_segment_point` on the buffers follows the value-level state machine with the pen chosen by layer |
| Screen.Batcher.Feed | bb_waze_code/src/roadmap_screen.c:420-515 | a call as the line drawer makes it: bounded growth, and an END leaves nothing pending |
| Screen.Batcher.StorePoint | bb_waze_code/src/roadmap_screen.c:447-507 | the part after the pen choice |
| Screen.Batcher.BreakPolyline | bb_waze_code/src/roadmap_screen.c:471-507 | the break: commit or discard, restyle, re-add the start |
| Screen.Batcher.AppendPending | bb_waze_code/src/roadmap_screen.c:505 | adds one point to the pending polyline |
| Drawing.Clip | bb_waze_code/src/roadmap_screen.c:619-621 | the clip the line drawer asks for always wants points; both ends visible gives their coordinates |
| Drawing.ShownUpToMeans | bb_waze_code/src/roadmap_screen.c:614-686 | a route is shown up to a point exactly when some segment before it is shown |
| Drawing.ShownUpToPrefix | bb_waze_code/src/roadmap_screen.c:614-686 | extending a route does not change what its prefix shows |
| Drawing.KeptCount | bb_waze_code/src/roadmap_screen.c:564-578 | shape points are cut so that the line fits the buffer; all are kept when they fit |
| Drawing.Kept | bb_waze_code/src/roadmap_screen.c:564-578 | the kept shape points are a prefix of the shape |
| Drawing.Route | bb_waze_code/src/roadmap_screen.c:585-589 | a line's route runs from its start through the shape to its end |
| Drawing.DrawOneLine | bb_waze_code/src/roadmap_screen.c:519-789 | `draw_one_line_internal` returns 1 exactly when some segment of the route is shown, only appends to the canvas, and leaves the batcher idle; a line not drawn changes nothing |
| Drawing.DrawStraight | bb_waze_code/src/roadmap_screen.c:734-784 | a line without shape is drawn (as a point or a START/END pair) exactly when its clip is shown |
| Drawing.DrawShaped | bb_waze_code/src/roadmap_screen.c:561-732 | a shaped line is drawn exactly when one of its kept segments is shown |
| Drawing.RouteEnd | bb_waze_code/src/roadmap_screen.c:688-731 | the last segment is shown or the line was shown before it |
| Drawing.DrawRoute | bb_waze_code/src/roadmap_screen.c:614-731 | with room made, the walk and the closing segment draw the line exactly when a segment of the route is shown, and change nothing when none is |
| Drawing.MakeRoom | bb_waze_code/src/roadmap_screen.c:564-583 | flushes lines when the shape does not fit, so that it does afterwards |
| Drawing.WalkShape | bb_waze_code/src/roadmap_screen.c:614-686 | the shape loop reports whether anything was shown and keeps a polyline open only after a shown segment |
| Drawing.StepShape | bb_waze_code/src/roadmap_screen.c:616-685 | one shape point: shown exactly when its segment is, nothing changes otherwise |
| Drawing.FinishLine | bb_waze_code/src/roadmap_screen.c:688-731 | the final segment and the closing NULL point: drawn when open or shown |
| Drawing.ShowSegment | bb_waze_code/src/roadmap_screen.c:657-683 | a shown segment starts a polyline unless one is open, and ends it when its end is not visible |
| Rings.CollapseFrom | bb_waze_code/src/roadmap_screen.c:1651-1665 | collapsing never adds vertices |
| Rings.CollapseDistinct | bb_waze_code/src/roadmap_screen.c:1651-1665 | no two consecutive kept points are equal, and the first differs from the start |
| Rings.CollapseFromInput | bb_waze_code/src/roadmap_screen.c:1651-1665 | every kept vertex is an input vertex |
| Rings.CollapseLosesNothing | bb_waze_code/src/roadmap_screen.c:1651-1665 | every input point is kept (or equals the start) |
| Rings.CollapseKeepsFirst | bb_waze_code/src/roadmap_screen.c:1651-1665 | the corrected collapse keeps the first vertex |
| Rings.CollapseStartsWith | bb_waze_code/src/roadmap_screen.c:1651-1665 | any start other than the first point keeps the first vertex |
| Rings.CollapseStartIrrelevant | bb_waze_code/src/roadmap_screen.c:1651-1665 | the start point only matters when it equals the first point |
| Rings.CollapseAgrees | bb_waze_code/src/roadmap_screen.c:1649-1665 | as written and corrected agree unless the first vertex is at screen (0,0) |
| Rings.CollapseAsWrittenDropsOrigin | bb_waze_code/src/roadmap_screen.c:1649-1665 | a ring whose first vertex is at (0,0) loses that vertex as written |
| Rings.Ring | bb_waze_code/src/roadmap_screen.c:1670-1677 | the closed ring is the kept vertices followed by the first again |
| Rings.MarkRing | bb_waze_code/src/roadmap_screen.c:1504-1515 | marking never clears a flag and leaves the last vertex's flag as it was |
| Rings.Marked | bb_waze_code/src/roadmap_screen.c:1498-1516 | marking all rings keeps the length |
| Rings.ScanRuns | bb_waze_code/src/roadmap_screen.c:1544-1562 | the run count stays between 1 and the edges seen plus one |
| Rings.AppendRun | bb_waze_code/src/roadmap_screen.c:1544-1562 | a maximal run extends the runs found |
| Rings.ScanInvariant | bb_waze_code/src/roadmap_screen.c:1544-1562 | the outline scan keeps its invariant at every edge |
| Rings.RingRunsMaximal | bb_waze_code/src/roadmap_screen.c:1544-1562 | the runs drawn are exactly the maximal runs of marked edges, each of two points or more |
| Rings.RunCalls | bb_waze_code/src/roadmap_screen.c:1554-1561 | one polyline call per run |
| Rings.MarkedPush | bb_waze_code/src/roadmap_screen.c:1504-1515 | marking one more ring appends its marking |
| Rings.OutlinesPush | bb_waze_code/src/roadmap_screen.c:1544-1564 | outlining one more ring appends its calls |
| Rings.OutlinesNext | bb_waze_code/src/roadmap_screen.c:1544-1564 | the outline of the first i+1 rings, from the position of ring i |
| Rings.OutlinesPrefix | bb_waze_code/src/roadmap_screen.c:1544-1564 | points after the rings do not change their outline |
| Rings.ScanCallsStep | bb_waze_code/src/roadmap_screen.c:1547-1558 | one step of the outline loop: extend on a marked edge, draw the run of two or more and restart on an unmarked one |
| Rings.RingOutlineClose | bb_waze_code/src/roadmap_screen.c:1559-1562 | the last run is drawn after the loop |
| Polygons.Points | bb_waze_code/src/roadmap_screen.c:1651-1655 | the points of the buffered vertices |
| Polygons.RealFlags | bb_waze_code/src/roadmap_screen.c:1655 | the real flags of the buffered vertices |
| Polygons.ScreenVertices | bb_waze_code/src/roadmap_screen.c:1651-1655 | each vertex drawn where the coordinate function puts it, real unless marked fake |
| Polygons.Fetch | bb_waze_code/src/roadmap_screen.c:1630-1643 | the vertices fetched: all or none, within the room left |
| Polygons.PaintAllEffect | bb_waze_code/src/roadmap_screen.c:1598-1703 | the pass only appends, and ends with the fill pen of the lowest-numbered polygon that has one |
| Polygons.FirstPenSplit | bb_waze_code/src/roadmap_screen.c:1598-1609 | the pen the pass ends with, split off the last polygon |
| Polygons.SkippedPolygon | bb_waze_code/src/roadmap_screen.c:1610-1628 | an invisible polygon or one under 5 pixels in both axes adds at most its pen selection |
| Polygons.FlushOneRing | bb_waze_code/src/roadmap_screen.c:1519-1525 | a single ring is filled as one polygon of its own length |
| Polygons.DrawnRing | bb_waze_code/src/roadmap_screen.c:1667-1682 | a drawn polygon is filled as exactly one closed ring of its kept vertices |
| Polygons.KeptVertices | bb_waze_code/src/roadmap_screen.c:1651-1665 | kept vertices under the corrected collapse (third finding): no consecutive repeats, each a fetched vertex, every fetched point kept |
| Polygons.OutlineRuns | bb_waze_code/src/roadmap_screen.c:1527-1568 | the outline draws only maximal runs of marked edges, one polyline each |
| Polygons.MarkRingInPlace | bb_waze_code/src/roadmap_screen.c:1505-1513 | the in-place marking of one ring computes its marking and touches nothing else |
| Polygons.MarkStep | bb_waze_code/src/roadmap_screen.c:1504-1515 | marked rings followed by the next ring's marking are the marking of one more ring |
| Polygons.MarkAdvance | bb_waze_code/src/roadmap_screen.c:1504-1515 | one ring marked in place advances the marked prefix |
| Polygons.MarkAll | bb_waze_code/src/roadmap_screen.c:1498-1516 | the marking loop over all rings |
| Polygons.NextRingFits | bb_waze_code/src/roadmap_screen.c:1504-1515 | the ring the marking loop reaches next has two points or more and lies inside the buffer |
| Polygons.RingOutlineCalls | bb_waze_code/src/roadmap_screen.c:1546-1563 | the outline loop of one ring |
| Polygons.ScanOutline | bb_waze_code/src/roadmap_screen.c:1547-1562 | on one ring's points and flags, the loop yields exactly the ring's outline calls |
| Polygons.OutlineCalls | bb_waze_code/src/roadmap_screen.c:1544-1564 | the outline loop over all rings |
| Polygons.FlushRings | bb_waze_code/src/roadmap_screen.c:1498-1568 | mark, turn, fill in one call, then outline between selecting the pen and restoring the previous |
| Polygons.FlushCallsNonEmpty | bb_waze_code/src/roadmap_screen.c:1519-1568 | with rings present the flush fills them first and then draws the outline |
| Polygons.FlushPolygons | bb_waze_code/src/roadmap_screen.c:1490-1572 | `roadmap_screen_flush_polygons` draws as above and empties the buffers |
| Polygons.BuildRing | bb_waze_code/src/roadmap_screen.c:1645-1665 | the vertex loop writes the vertices of the corrected collapse (third finding) from the cursor and returns their number |
| Polygons.CloseRing | bb_waze_code/src/roadmap_screen.c:1670-1680 | repeats the first point and flag and records the ring length as one object |
| Polygons.FillPolygon | bb_waze_code/src/roadmap_screen.c:1611-1682 | one polygon with its pen selected adds exactly its ring calls |
| Polygons.FetchVertices | bb_waze_code/src/roadmap_screen.c:1630-1645 | fetches into the room left, flushing first when nothing fits; the buffer is left empty and the canvas unchanged, and the size is the whole polygon or nothing |
| Polygons.StoreRing | bb_waze_code/src/roadmap_screen.c:1645-1680 | the buffer then holds the vertices of the corrected collapse (third finding) as one closed ring, recorded as one object, and the result is their number |
| Polygons.LoadRing | bb_waze_code/src/roadmap_screen.c:1630-1680 | fetch (after a flush when needed), collapse as corrected in the third finding, and close: the buffer holds the closed ring |
| Polygons.RingLoaded | bb_waze_code/src/roadmap_screen.c:1670-1677 | the written vertices plus the repeated first are the closed ring |
| Polygons.DrawPolygon | bb_waze_code/src/roadmap_screen.c:1598-1682 | one polygon of the pass, as the value-level step with the corrected collapse of the third finding |
| Polygons.DrawPolygonsPass | bb_waze_code/src/roadmap_screen.c:1575-1706 | `roadmap_screen_draw_polygons`: the whole pass as the value-level pass, buffers empty at the end; the collapse is the corrected one of the third finding |
| Tiles.SelectCalls | bb_waze_code/src/roadmap_screen.c:493 | a pen selection is recorded for a non-NULL pen only |
| Tiles.SquareOutline | bb_waze_code/src/roadmap_screen.c:1722-1741 | the six outline points: the four corners from the north-west clockwise, then the first two again |
| Tiles.OutlineClosed | bb_waze_code/src/roadmap_screen.c:1729-1746 | turned and projected, the outline's last two points are its first two |
| Tiles.DrawSquareEdges | bb_waze_code/src/roadmap_screen.c:1709-1749 | when tiles are shown: select the edge pen, draw the turned outline, forget the last pen; else nothing |
| Tiles.Drawn | bb_waze_code/src/roadmap_screen.c:2176-2284 | the lines counted as drawn are at most the lines |
| Tiles.DrawnExtremes | bb_waze_code/src/roadmap_screen.c:2176-2284 | none counted exactly when all are suppressed, all exactly when none is |
| Tiles.DrawSquareLines | bb_waze_code/src/roadmap_screen.c:2176-2284 | the line loop of `draw_square` draws each line not suppressed and counts it |
| Tiles.RepaintSquare | bb_waze_code/src/roadmap_screen.c:2613-2701 | the canvas gains the outline (pen type 0 with tiles shown), then the layer loop's calls from the last layer to the first, then at most the one point flush; the line buffer ends empty when some layer has lines; returns 0 |
| Tiles.PaintedWithoutLines | bb_waze_code/src/roadmap_screen.c:2653-2692 | with no layer holding lines in the tile the layer loop adds nothing |
| Tiles.PaintLayers | bb_waze_code/src/roadmap_screen.c:2653-2692 | the canvas gains exactly, from the last layer to the first, each layer with lines' pen selection followed by its lines' calls, and nothing for a layer without lines; the line buffer ends empty when some layer has lines, else nothing changes and the last pen stays NULL |
| Tiles.PaintNext | bb_waze_code/src/roadmap_screen.c:2653-2692 | one turn of the layer loop extends the calls of the layers after it by this layer's calls |
| Tiles.PaintIfLines | bb_waze_code/src/roadmap_screen.c:2655-2690 | a layer adds its pen selection and its lines' calls when it has lines, else nothing |
| Tiles.PaintLayer | bb_waze_code/src/roadmap_screen.c:2675-2690 | a layer with lines: the canvas gains its pen selection followed by the calls of drawing and flushing its lines, and the line buffer ends empty |
| ScreenControl.NormalizeRotation | bb_waze_code/src/roadmap_screen.c:4014-4019 | the two loops bring the rotation into [0, 360), whole turns away |
| ScreenControl.InView | bb_waze_code/src/roadmap_screen.c:3072-3080 | returns 1 exactly when the tile is among the tiles in view, else 0 |
| ScreenControl.WorthRedraw | bb_waze_code/src/roadmap_math.c:1114-1189 | no redraw when the orientation is unchanged; always one for a move to north |
| ScreenControl.Control.constructor | bb_waze_code/src/roadmap_screen.c:3153-3191 | no rotation and no pending repaint |
| ScreenControl.Control.Repaint | bb_waze_code/src/roadmap_screen.c:3153-3191 | the first request sets the counter to 2 and arms the timer; later ones count, re-arming under the fast no-redraw flag |
| ScreenControl.Control.Fire | bb_waze_code/src/roadmap_screen.c:3106-3113 | the timer is removed, the screen repainted once and the counter reset |
| ScreenControl.Control.Shutdown | bb_waze_code/src/roadmap_screen.c:4376-4379 | a pending timer is removed and the counter reset |
| ScreenControl.Control.Rotate | bb_waze_code/src/roadmap_screen.c:4007-4032 | the orientation becomes the normalised rotation (plus the map's in dynamic mode); only on a change worth a redraw is the rotation kept and a repaint requested |
| Settings.TokenLength | bb_waze_code/src/roadmap_map_settings.c:702-707 | the token ends before the first '-' |
| Settings.TokensWellFormed | bb_waze_code/src/roadmap_map_settings.c:702-707 | `strtok` tokens are non-empty and contain no '-' |
| Settings.WordToken | bb_waze_code/src/roadmap_map_settings.c:702-707 | a non-empty word without '-' is one token |
| Settings.TokensSplit | bb_waze_code/src/roadmap_map_settings.c:702-707 | the tokens of a + "-" + b are those of a then those of b |
| Settings.SkipSpaces | bb_waze_code/src/roadmap_map_settings.c:704 | `atoi` skips leading white space |
| Settings.DigitRun | bb_waze_code/src/roadmap_map_settings.c:704 | the leading digits `atoi` reads |
| Settings.Digit | bb_waze_code/src/roadmap_map_settings.c:781 | the character of a decimal digit |
| Settings.Decimal | bb_waze_code/src/roadmap_map_settings.c:781 | `snprintf("%d")` of a non-negative number: digits only, non-empty |
| Settings.ValueDecimal | bb_waze_code/src/roadmap_map_settings.c:781 | reading the digits written gives the number back |
| Settings.AtoiDecimal | bb_waze_code/src/roadmap_map_settings.c:704 | `atoi` of the `%d` text of n is n |
| Settings.DefaultShowsAll | bb_waze_code/src/roadmap_map_settings.c:136 | with the declared default "" every report type is shown |
| Settings.NextToken | bb_waze_code/src/roadmap_map_settings.c:702-707 | one `strtok` call: the next token's bounds, or none |
| Settings.TokenEnd | bb_waze_code/src/roadmap_map_settings.c:702-707 | the token ends at the next '-' or the end |
| Settings.TokensAt | bb_waze_code/src/roadmap_map_settings.c:702-707 | the tokens from a position are the next one and those after it |
| Settings.ShowReport | bb_waze_code/src/roadmap_map_settings.c:696-710 | `show_report` returns FALSE exactly when the type is `atoi` of some token |
| Settings.Offered | bb_waze_code/src/roadmap_map_settings.c:768-772 | the toggleable types, without construction unless its toggle is enabled |
| Settings.WrittenMeaning | bb_waze_code/src/roadmap_map_settings.c:768-784 | the written types are exactly the unchecked offered ones, strictly increasing, each below 10 |
| Settings.Join | bb_waze_code/src/roadmap_map_settings.c:776-782 | decimals joined by single '-', empty for no types |
| Settings.JoinTokens | bb_waze_code/src/roadmap_map_settings.c:776-782 | the tokens of the joined text are the decimals |
| Settings.DecimalWord | bb_waze_code/src/roadmap_map_settings.c:781 | a decimal is a single token |
| Settings.RoundTrip | bb_waze_code/src/roadmap_map_settings.c:696-790 | `show_report` on the joined text returns FALSE exactly for the types written |
| Settings.JoinLength | bb_waze_code/src/roadmap_map_settings.c:776-782 | n one-digit types take 2n − 1 characters |
| Settings.UpdateReportsDontShow | bb_waze_code/src/roadmap_map_settings.c:759-790 | the text written is the unchecked offered types joined by '-' |
| Settings.WrittenSetting | bb_waze_code/src/roadmap_map_settings.c:759-790 | construction is written only when toggled; the text fits the 100-byte buffer; reading it back hides exactly the unchecked offered types |
| Settings.AllowedAlerts | bb_waze_code/src/roadmap_map_settings.c:793-806 | 0 before initialisation; otherwise the six toggleable types in order, returning 6 |

## Left out

- Floating point:
  - distances, azimuths, scales, thickness, unit conversion, line lengths;
  - the `USE_FLOAT` projection;
  - the slope of `get_visible_coordinates`, which is a function parameter, so only its branches and counts are modelled;
  - point and direction drawing.
- Labels: the label bookkeeping of `draw_one_line_internal` and of `draw_polygons` (centers, `roadmap_label_add_place`).
- The rest of `roadmap_screen_draw_square` is not modelled:
  - plugin overrides appear only as a line whose pen list is empty;
  - gray-scale, arrows, the test variant and the pen overrides are left out;
  - each line hands its pens to `draw_one_line_internal` with no image, on the near side.
- Lines and tiles come from collaborators whose code is not part of this model:
  - the pens, `roadmap_line_in_square` and the square cache are given as `Tiles.Layer` values;
  - the tile's edges and its `roadmap_math_coordinate` are parameters.
- `Polygons.Kept`: the polygon pass uses the corrected repeated-point test of the third finding. It starts with no previous point, where the source starts from a static (0,0). As written, a polygon whose first vertex is drawn at screen (0,0) loses that vertex (`Rings.CollapseAsWrittenDropsOrigin`). The two tests agree for every other polygon (`Rings.CollapseAgrees`).
- `Polygons.KeptVertices`: states the kept vertices of that corrected test.
- `Polygons.BuildRing`: writes the vertices of that corrected test.
- `Polygons.StoreRing`: stores the ring of that corrected test.
- `Polygons.LoadRing`: loads the ring of that corrected test.
- `Polygons.DrawPolygon`: draws the ring of that corrected test.
- `Polygons.DrawPolygonsPass`: the whole pass runs that corrected test.
- `roadmap_polygon_points` is not part of this model. `Polygons.Fetch` takes it to copy all vertices when they fit and none otherwise.
- The fast-refresh flag is a parameter. The `RoadMapScreenFastRefresh` argument of the canvas calls is not recorded.
- `ScreenControl.Control.Rotate` does not model `roadmap_screen_update_center`.
- `ScreenControl.Control.Fire` does not model `roadmap_screen_refresh` and `roadmap_screen_repaint_now`. It takes them to request no repaint of their own; a request from them would be wiped by the counter reset that follows.
- The periodic timer is modelled as a flag and a counter of arms. The `#if 0` part of `refresh_flow_control` is not modelled.
- Not modelled in shutdown: `roadmap_trip_set_mobile`, and the initialized and frozen flags.
- `MapContext.Context.ComputeScale`: requires a non-zero cosine of the center's latitude. At latitude ±90 the table cosine is 0, and `roadmap_math_compute_scale` divides `zoom_x` by it (roadmap_math.c:299-300). C leaves that division undefined, so the model does not describe that state.
- `MapContext.Context.PlaceUpright`: requires the same non-zero latitude cosine, because it is the part of `compute_scale` that divides by it.
- `MapContext.Context.ZoomIn`: requires the same non-zero latitude cosine, because it ends in `compute_scale`.
- `MapContext.Context.ZoomOut`: requires the same non-zero latitude cosine, because it ends in `compute_scale`.
- `MapContext.Context.ZoomSet`: requires the same non-zero latitude cosine, because it ends in `compute_scale`.
- `MapContext.Context.ZoomSetClamped`: requires the same non-zero latitude cosine, because it ends in `compute_scale`.
- `MapContext.Context.SetSize`: requires the same non-zero latitude cosine, because it ends in `compute_scale`.
- `MapContext.Context.SetHorizon`: requires the same non-zero latitude cosine, because it ends in `compute_scale`.
- `MapContext.Context.SetCenter`: requires a non-zero cosine at the new center's latitude, for the same reason.
- `MathHelpers.StreetAddress`: computes `part1 * multiplier + part2` on unbounded integers. The source's 32-bit `int` overflows for long images, for example "N12345W67890" gives 12345067890; that wrap-around is not modelled.
- `MathHelpers.PlainAddress`: computes `result * 10 + digit` (roadmap_math.c:1772) on unbounded integers. In C the 32-bit `int` overflows once an image has ten or more digit characters, for example "9999999999"; that wrap-around is not modelled.
- `MathHelpers.GeographicAddress`: the same unbounded computation for the geographic branch, without the 32-bit overflow.
- `Drawing.DrawOneLine`: states whether the line is drawn, that the canvas only grows and that an undrawn line changes nothing. It does not state which polylines and points reach the canvas.
- `Drawing.DrawRoute`: states the same, without the polylines and points it appends.
- `Tiles.PaintLayer`: states the pen selection and the emptied line buffer, not the polylines of the layer's lines.
- `Tiles.RepaintSquare`: states the order of the outline, the layers and the point flush, and each layer's pen selection. Each layer's line calls are named by a ghost result, not described.
- `Settings.ShowReport`: requires the stored list to fit the 100-character buffer with its terminator. The source copies it with `strcpy` without a check, so a longer list overflows the stack buffer; that behaviour is not modelled.
- `Settings.Atoi`: does not model overflow, because the parsed tokens are short type numbers.
- The check boxes are booleans. `strcasecmp` against "yes" is decided by the dialog code, which is not part of this model.
- The menu built by `addShowAlertsToMenu` is UI. Only its choice of offered types is modelled, as `Settings.Offered`.
- `RT_ALERT_TYPE_CONSTRUCTION` is taken to be 7, the index of "Road constructions" in `AlertString`.
- `ROADMAP_VISIBILITY_DISTANCE` is not defined in these sources. It is a constant of the context, given at construction.
- The trigonometric table is a parameter of 46 entries, each in [0, 32768]. No values are assumed.
- `Trig.Arccosine`: does not pin down the second search branch beyond its range. That branch compares against a cosine entry where a sine looks intended, and whether the two differ depends on table values not assumed here.
- A NULL pen's selection is not recorded on the canvas.
- `roadmap_screen_flush_lines` logs a fatal error when the committed points reach the buffer's end. That case is a precondition.
- `Screen.Batcher.AddSegmentPoint`: requires room for the point it writes, and a NULL point only with SEGMENT_END. The source writes past `end` without a check, and its callers keep that room and pass NULL only to end a line.
- The J2ME variant of `draw_one_line_internal` is not modelled.
- No `#if 0` block is modelled.
- Not modelled: the OpenGL animations and the input handlers.
- Not modelled: the unit-change callbacks and `set_context`/`get_context`.

## Findings

| source | as written | input that shows it | evidently intended | confidence | as-written member | corrected member |
|---|---|---|---|---|---|---|
| bb_waze_code/src/roadmap_math.c:987-1009 | `zoom_set` casts the request to 16 bits before clamping it to [6, 0xffff] | a request of 65537 becomes 6; a request of -1 becomes 0xffff | clamp first, then store | not executed | MapContext.StoredZoomWrapsAbove | MapContext.ClampedZoomMonotonic |
| bb_waze_code/src/roadmap_math.c:1891-1906 | `compare_points` tests `p2->longitude > p1->longitude` twice, so a larger first longitude falls through to the latitudes | (2,0) vs (1,5) and (1,5) vs (2,0) both give -1 | the second test should be `p1->longitude > p2->longitude` | not executed | MathHelpers.ComparePointsAsWrittenNotAntisymmetric | MathHelpers.ComparePointsTotalOrder |
| bb_waze_code/src/roadmap_screen.c:1647-1665 | `draw_polygons` starts the repeated-point test from a static (0,0) point | a ring whose first vertex is drawn at screen (0,0) loses that vertex | no previous point for the first vertex | not executed | Rings.CollapseAsWrittenDropsOrigin | Rings.CollapseKeepsFirst |
