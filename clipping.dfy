/**
 * Viewport clipping of roadmap_math.c: where a segment with an endpoint
 * outside the visibility rectangle crosses its edges, and which screen
 * points stand for the segment's ends once it is clipped.
 *
 * The slope-and-intercept arithmetic (in `double`) that places a
 * crossing on an edge, the visibility test and the geo-to-screen mapping
 * live outside this model; they are parameters here.
 */
module Clipping {
  import opened Geo

  function Min(a: int, b: int): int { if a <= b then a else b }
  function Max(a: int, b: int): int { if a <= b then b else a }

  /** `p` lies within one unit of the box spanned by `from` and `to`, on both axes. */
  predicate WithinBox(from: Position, to: Position, p: Position)
  {
    Min(from.longitude, to.longitude) - 1 <= p.longitude <= Max(from.longitude, to.longitude) + 1 &&
    Min(from.latitude, to.latitude) - 1 <= p.latitude <= Max(from.latitude, to.latitude) + 1
  }

  /** `p` lies on one of the four edge lines of the rectangle. */
  predicate OnEdge(p: Position, a: Area)
  {
    p.latitude == a.north || p.latitude == a.south || p.longitude == a.west || p.longitude == a.east
  }

  /**
   * The segment test of roadmap_math_check_point_in_segment, written as
   * the source writes it, with one pair of comparisons per direction of
   * the segment: it accepts exactly the points of the widened box.
   */
  function SegmentTest(from: Position, to: Position, point: Position): (r: bool)
    ensures r <==> WithinBox(from, to, point)
  {
    ((from.longitude >= point.longitude - 1 && point.longitude + 1 >= to.longitude) ||
     (from.longitude <= point.longitude + 1 && point.longitude - 1 <= to.longitude)) &&
    ((from.latitude >= point.latitude - 1 && point.latitude + 1 >= to.latitude) ||
     (from.latitude <= point.latitude + 1 && point.latitude - 1 <= to.latitude))
  }

  /**
   * roadmap_math_check_point_in_segment: append the candidate to the
   * crossings found so far when it is visible and on the segment.
   */
  function CheckPointInSegment(from: Position, to: Position, point: Position,
                               visible: Position -> bool, found: seq<Position>): (r: seq<Position>)
    ensures visible(point) && WithinBox(from, to, point) ==> r == found + [point]
    ensures !(visible(point) && WithinBox(from, to, point)) ==> r == found
  {
    if !visible(point) then found
    else if SegmentTest(from, to, point) then found + [point]
    else found
  }

  /**
   * The edge points roadmap_math_find_screen_intersection tries, in
   * order: for a vertical segment the north and south edges at its
   * longitude, for a horizontal one the west and east edges at its
   * latitude, otherwise where the segment's line meets the north, south,
   * west and east edges (`lonAt` and `latAt` give that line's longitude
   * at a latitude and latitude at a longitude).
   */
  function Candidates(from: Position, to: Position, visibility: Area,
                      lonAt: int -> int, latAt: int -> int): (r: seq<Position>)
    ensures 2 <= |r| <= 4
    ensures forall k :: 0 <= k < |r| ==> OnEdge(r[k], visibility)
  {
    if from.longitude == to.longitude then
      [Position(from.longitude, visibility.north), Position(from.longitude, visibility.south)]
    else if from.latitude == to.latitude then
      [Position(visibility.west, from.latitude), Position(visibility.east, from.latitude)]
    else
      [Position(lonAt(visibility.north), visibility.north),
       Position(lonAt(visibility.south), visibility.south),
       Position(visibility.west, latAt(visibility.west)),
       Position(visibility.east, latAt(visibility.east))]
  }

  /**
   * The check sequence of roadmap_math_find_screen_intersection: test
   * each candidate in turn and stop as soon as `max` crossings are known.
   */
  function Scan(from: Position, to: Position, candidates: seq<Position>, visible: Position -> bool,
                max: int, found: seq<Position>): (r: seq<Position>)
    ensures |found| <= |r| <= |found| + |candidates|
    ensures r[..|found|] == found
    ensures |found| < max ==> |r| <= max
    ensures forall k :: |found| <= k < |r| ==>
              visible(r[k]) && WithinBox(from, to, r[k]) && r[k] in candidates
    decreases |candidates|
  {
    if candidates == [] then found
    else
      var next := CheckPointInSegment(from, to, candidates[0], visible, found);
      if |next| == max then next
      else Scan(from, to, candidates[1..], visible, max, next)
  }

  /** Reference definition: the candidates that are visible and on the segment, in order. */
  function Admitted(from: Position, to: Position, candidates: seq<Position>,
                    visible: Position -> bool): seq<Position>
  {
    if candidates == [] then []
    else
      (if visible(candidates[0]) && WithinBox(from, to, candidates[0]) then [candidates[0]] else []) +
      Admitted(from, to, candidates[1..], visible)
  }

  function Take(s: seq<Position>, n: int): (r: seq<Position>)
    requires n >= 0
    ensures |r| == Min(n, |s|)
  {
    if n <= |s| then s[..n] else s
  }

  /** Scanning with early stop keeps exactly the first admitted candidates, up to the limit. */
  lemma {:induction false} ScanTakesAdmitted(from: Position, to: Position, candidates: seq<Position>,
                                             visible: Position -> bool, max: int, found: seq<Position>)
    requires |found| < max
    ensures Scan(from, to, candidates, visible, max, found) ==
            found + Take(Admitted(from, to, candidates, visible), max - |found|)
    decreases |candidates|
  {
    if candidates != [] {
      var c := candidates[0];
      var rest := Admitted(from, to, candidates[1..], visible);
      var next := CheckPointInSegment(from, to, c, visible, found);
      if visible(c) && WithinBox(from, to, c) {
        assert Admitted(from, to, candidates, visible) == [c] + rest;
        if |next| != max {
          ScanTakesAdmitted(from, to, candidates[1..], visible, max, next);
          assert Take([c] + rest, max - |found|) == [c] + Take(rest, max - |found| - 1);
        } else {
          assert Take([c] + rest, max - |found|) == [c];
        }
      } else {
        assert Admitted(from, to, candidates, visible) == rest;
        ScanTakesAdmitted(from, to, candidates[1..], visible, max, next);
      }
    }
  }

  /**
   * roadmap_math_find_screen_intersection: at most `max` crossings of the
   * segment with the edges of the visibility rectangle, each visible and
   * within the segment's widened box.
   */
  function FindScreenIntersection(from: Position, to: Position, visibility: Area,
                                  lonAt: int -> int, latAt: int -> int,
                                  visible: Position -> bool, max: int): (r: seq<Position>)
    ensures max >= 1 ==> |r| <= max
    ensures |r| <= 4
    ensures forall k :: 0 <= k < |r| ==>
              visible(r[k]) && WithinBox(from, to, r[k]) && OnEdge(r[k], visibility)
  {
    Scan(from, to, Candidates(from, to, visibility, lonAt, latAt), visible, max, [])
  }

  /** With a positive limit, the crossings found are the first `max` admitted candidates. */
  lemma FindTakesAdmitted(from: Position, to: Position, visibility: Area,
                          lonAt: int -> int, latAt: int -> int, visible: Position -> bool, max: int)
    requires max >= 1
    ensures FindScreenIntersection(from, to, visibility, lonAt, latAt, visible, max) ==
            Take(Admitted(from, to, Candidates(from, to, visibility, lonAt, latAt), visible), max)
  {
    ScanTakesAdmitted(from, to, Candidates(from, to, visibility, lonAt, latAt), visible, max, []);
  }

  /**
   * What roadmap_math_get_visible_coordinates reports: not visible (0),
   * visible (1, when no screen points were asked for), or the screen
   * points standing for the two ends of the clipped segment.
   */
  datatype Clip = Hidden | Shown | Segment(p0: GuiPoint, p1: GuiPoint)

  /** How many crossings the segment must have: one per endpoint outside the visibility rectangle. */
  function Needed(fromVisible: bool, toVisible: bool): (n: int)
    ensures 0 <= n <= 2
  {
    (if fromVisible then 0 else 1) + (if toVisible then 0 else 1)
  }

  /**
   * roadmap_math_get_visible_coordinates. `wantPoints` stands for a
   * non-null `point0`; `distance` is roadmap_math_distance and
   * `coordinate` is roadmap_math_coordinate. With both ends hidden the
   * two crossings are ordered so that the first is the nearer to `from`.
   */
  function GetVisibleCoordinates(from: Position, to: Position, visibility: Area,
                                 lonAt: int -> int, latAt: int -> int, visible: Position -> bool,
                                 distance: (Position, Position) -> int,
                                 coordinate: Position -> GuiPoint, wantPoints: bool): (r: Clip)
    ensures !wantPoints ==> r != Hidden ==> r == Shown
    ensures wantPoints ==> r != Shown
    ensures !wantPoints && (visible(from) || visible(to)) ==> r == Shown
    ensures visible(from) && visible(to) && wantPoints ==>
              r == Segment(coordinate(from), coordinate(to))
    ensures r == Hidden <==>
              |FindScreenIntersection(from, to, visibility, lonAt, latAt, visible,
                                      Needed(visible(from), visible(to)))| <
              Needed(visible(from), visible(to)) &&
              !(!wantPoints && (visible(from) || visible(to)))
    ensures r.Segment? && visible(from) ==> r.p0 == coordinate(from)
    ensures r.Segment? && visible(to) ==> r.p1 == coordinate(to)
    ensures r.Segment? && visible(from) != visible(to) ==>
              var crossings := FindScreenIntersection(from, to, visibility, lonAt, latAt, visible, 1);
              |crossings| == 1 &&
              (if visible(from) then r.p1 else r.p0) == coordinate(crossings[0])
    ensures r.Segment? && !visible(from) && !visible(to) ==>
              var crossings := FindScreenIntersection(from, to, visibility, lonAt, latAt, visible, 2);
              |crossings| == 2 &&
              ((r == Segment(coordinate(crossings[0]), coordinate(crossings[1])) &&
                distance(from, crossings[0]) <= distance(from, crossings[1])) ||
               (r == Segment(coordinate(crossings[1]), coordinate(crossings[0])) &&
                distance(from, crossings[1]) < distance(from, crossings[0])))
  {
    var fromVisible := visible(from);
    var toVisible := visible(to);
    if !wantPoints && (fromVisible || toVisible) then Shown
    else
      var max := Needed(fromVisible, toVisible);
      var found := if max == 0 then [] else FindScreenIntersection(from, to, visibility, lonAt, latAt, visible, max);
      if max != 0 && |found| != max then Hidden
      else if !wantPoints then Shown
      else
        var ordered := if max == 2 && distance(from, found[0]) > distance(from, found[1])
                       then [found[1], found[0]] else found;
        var p0 := if fromVisible then coordinate(from) else coordinate(ordered[0]);
        var p1 := if toVisible then coordinate(to)
                  else coordinate(ordered[if fromVisible then 0 else 1]);
        Segment(p0, p1)
  }
}
