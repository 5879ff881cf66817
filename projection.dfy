/**
 * The screen transforms of roadmap_math.c as functions of a snapshot of
 * the map context: rotation about the screen centre by the orientation,
 * the perspective squeeze toward the horizon (and its inverse), and the
 * mapping of a screen point back to a map position.
 */
module Projection {
  import opened CInt
  import opened Geo

  /** The fields of the map context the transforms read. */
  datatype Frame = Frame(
    width: int, height: int,
    centerX: int, centerY: int,
    orientation: int, sinOrientation: int, cosOrientation: int,
    horizon: int,
    zoomX: int, zoomY: int,
    upright: Area)

  /** A flat map has horizon 0; a perspective view has its horizon above the screen. */
  predicate ValidFrame(f: Frame)
  {
    f.horizon <= 0 <= f.height
  }

  /** How far the horizon is from the bottom of the screen. */
  function VisibleRange(f: Frame): int
  {
    f.height - f.horizon
  }

  /**
   * The perspective squeeze of a distance `d` above the bottom edge:
   * `d * range / (|d| + range)`, which keeps the sign of `d` and stays
   * below `range` in magnitude.
   */
  function Squeeze(d: int, range: int): (s: int)
    requires range > 0
    ensures Abs(s) < range
    ensures d >= 0 ==> s >= 0
    ensures d <= 0 ==> s <= 0
  {
    SqueezeBound(d, range);
    Div(d * range, Abs(d) + range)
  }

  lemma {:induction false} SqueezeBound(d: int, range: int)
    requires range > 0
    ensures Abs(Div(d * range, Abs(d) + range)) < range
    ensures d >= 0 ==> Div(d * range, Abs(d) + range) >= 0
    ensures d <= 0 ==> Div(d * range, Abs(d) + range) <= 0
  {
    var a := d * range;
    var e := Abs(d) + range;
    SqueezeMagnitude(d, range, a, e);
    if d >= 0 {
      MulLe(0, d, range);
    } else {
      MulLe(d, 0, range);
    }
    DivSign(a, e);
  }

  lemma SqueezeMagnitude(d: int, range: int, a: int, e: int)
    requires range > 0 && a == d * range && e == Abs(d) + range
    ensures Abs(Div(a, e)) < range
  {
    var ad := Abs(d);
    DivMagnitude(a, e);
    AbsMul(d, range);
    assert Abs(a) == ad * range && Abs(e) == e;
    MulLe(1, range, range);
    SqueezeProducts(ad, range, e);
    QuotientBelow(ad * range, e, range);
  }

  /** The numerator of the squeeze stays below `range` times its denominator. */
  lemma SqueezeProducts(ad: nat, range: nat, e: int)
    requires range > 0 && e == ad + range && range <= range * range
    ensures ad * range < range * e
  {
    assert range * e == range * ad + range * range;
    assert ad * range == range * ad;
  }

  /** C's `v * num / den`; an equal numerator and denominator leave `v` unchanged. */
  function Scale(v: int, num: int, den: int): (r: int)
    requires den != 0
    ensures num == den ==> r == v
  {
    ExactQuotient(v, den);
    Div(v * num, den)
  }

  /**
   * roadmap_math_project (integer build): the distance above the bottom
   * edge is squeezed so that it converges on the horizon, then the
   * horizontal offset from the middle shrinks in proportion to the
   * distance from the horizon. A projected point always lands strictly
   * between the horizon and its mirror image below the bottom edge,
   * stays on its side of the bottom edge, and the bottom row is fixed.
   */
  function Project(f: Frame, p: GuiPoint): (r: GuiPoint)
    requires VisibleRange(f) > 0
    ensures Abs(f.height - r.y) < VisibleRange(f)
    ensures f.horizon < r.y
    ensures p.y <= f.height ==> r.y <= f.height
    ensures p.y >= f.height ==> r.y >= f.height
    ensures p.y == f.height ==> r == p
  {
    var range := VisibleRange(f);
    var y := f.height - Squeeze(f.height - p.y, range);
    var fromCenterX := p.x - Div(f.width, 2);
    GuiPoint(Scale(fromCenterX, y - f.horizon, range) + Div(f.width, 2), y)
  }

  /**
   * roadmap_math_unproject (integer build): the inverse squeeze, used to
   * turn a point of a perspective view back into a flat-map point. The
   * divisions are by the distance from the horizon, so a point on the
   * horizon itself is excluded. A flat map leaves the point as it is, and
   * the bottom row is fixed.
   */
  function Unproject(f: Frame, p: GuiPoint): (r: GuiPoint)
    requires f.horizon == 0 || p.y != f.horizon
    ensures f.horizon == 0 ==> r == p
    ensures p.y == f.height ==> r == p
  {
    if f.horizon == 0 then p
    else
      var range := VisibleRange(f);
      var fromCenterX := p.x - Div(f.width, 2);
      var fromHorizon := p.y - f.horizon;
      var fromBottom := f.height - p.y;
      assert range - fromBottom == fromHorizon;
      var d := Div(fromBottom * range, range - fromBottom);
      GuiPoint(Scale(fromCenterX, range, fromHorizon) + Div(f.width, 2), f.height - d)
  }

  /**
   * The inverse squeeze undoes the squeeze up to rounding: for a distance
   * `d` above the bottom edge, no farther than the horizon, squeezing and
   * unsqueezing gives back `d` or at most four rows less, and the squeezed
   * distance leaves at least half the range above it.
   */
  lemma UnsqueezeSqueeze(d: int, range: int)
    requires 0 <= d <= range && 0 < range
    ensures var s := Div(d * range, d + range);
            0 <= s && 2 * s <= range &&
            d - 4 <= Div(s * range, range - s) <= d
  {
    var total := d + range;
    var dr := d * range;
    MulLe(0, d, range);
    FloorDiv(dr, total);
    var s := Div(dr, total);
    var st := s * total;
    MulSub(total, s, d, range);
    assert st == s * d + s * range;
    HalfRange(d, range, s, dr, st);
    var back := range - s;
    var sr := s * range;
    MulLe(0, s, range);
    FloorDiv(sr, back);
    UnsqueezeBounds(d, range, s, back, Div(sr, back));
  }

  /** `s * (a + b)` and `s * a + s * b` agree. */
  lemma MulSub(t: int, s: int, a: int, b: int)
    requires t == a + b
    ensures s * t == s * a + s * b
  {
  }

  /** The squeezed distance is at most half the range. */
  lemma HalfRange(d: int, range: int, s: int, dr: int, st: int)
    requires 0 <= d <= range && 0 < range && 0 <= s && dr == d * range && st == s * (d + range) && st <= dr
    ensures 2 * s <= range
  {
    if 2 * s > range {
      assert (range + 1) * (d + range) == d * range + range * range + d + range;
      assert 2 * s * (d + range) == 2 * st;
      MulLe(range + 1, 2 * s, d + range);
      MulLe(d, range, range);
      assert false;
    }
  }

  /** The arithmetic of the inverse squeeze, from the two floor divisions. */
  lemma UnsqueezeBounds(d: int, range: int, s: int, back: int, e: int)
    requires 0 <= d <= range && 0 <= s && 2 * s <= range && back == range - s
    requires s * (d + range) <= d * range < s * (d + range) + (d + range)
    requires e * back <= s * range < e * back + back
    ensures d - 4 <= e <= d
  {
    MulSub(d + range, s, d, range);
    MulSub(range, d, back, s);
    assert s * d == d * s;
    var gap := d - e - 1;
    MulSub(d, back, gap, e + 1);
    MulSub(e + 1, back, e, 1);
    UnsqueezeLinear(d, range, back, s * (d + range), s * d, s * range, d * range, d * back, e * back, gap * back);
    CancelLe(e, d, back);
    CancelLt(gap, 4, back);
  }

  /** A positive factor can be cancelled from both sides of `<=`. */
  lemma CancelLe(a: int, b: int, k: int)
    requires 0 < k && a * k <= b * k
    ensures a <= b
  {
    if a > b {
      MulLe(b + 1, a, k);
    }
  }

  /** A positive factor can be cancelled from both sides of `<`. */
  lemma CancelLt(a: int, b: int, k: int)
    requires 0 < k && a * k < b * k
    ensures a < b
  {
    if a >= b {
      MulLe(b, a, k);
    }
  }

  /** The inequalities of the inverse squeeze, with every product named. */
  lemma UnsqueezeLinear(d: int, range: int, back: int, st: int, sd: int, sr: int, dr: int, db: int, eb: int, gb: int)
    requires 0 <= d <= range && 2 * back >= range
    requires st == sd + sr && dr == db + sd && gb == db - eb - back
    requires st <= dr < st + d + range && eb <= sr < eb + back
    ensures eb <= db && gb < 4 * back && sr <= db
  {
  }

  /**
   * Projecting a point between the horizon and the bottom edge and
   * unprojecting it gives it back up to rounding: the row comes back at
   * most four pixels lower on the screen, the column at most two pixels
   * off.
   */
  lemma ProjectRoundTrip(f: Frame, p: GuiPoint)
    requires ValidFrame(f) && f.horizon != 0 && f.horizon <= p.y <= f.height
    ensures var q := Unproject(f, Project(f, p));
            p.y <= q.y <= p.y + 4 && Abs(q.x - p.x) <= 2
  {
    var range := VisibleRange(f);
    var d := f.height - p.y;
    var s := Div(d * range, d + range);
    UnsqueezeSqueeze(d, range);
    assert Squeeze(d, range) == s;
    var r := Project(f, p);
    assert r.y == f.height - s;
    var c := p.x - Div(f.width, 2);
    var t := Div(c * (range - s), range);
    assert r.x == t + Div(f.width, 2);
    var q := Unproject(f, r);
    assert q.y == f.height - Div(s * range, range - s);
    assert q.x == Div(t * range, range - s) + Div(f.width, 2);
    ScaleBack(c, range, range - s);
  }

  /**
   * Unprojecting a screen point strictly below the horizon and projecting
   * the result again gives back its row or the row just below it.
   */
  lemma UnprojectRoundTrip(f: Frame, q: GuiPoint)
    requires ValidFrame(f) && f.horizon != 0 && f.horizon < q.y <= f.height
    ensures q.y <= Project(f, Unproject(f, q)).y <= q.y + 1
  {
    var range := VisibleRange(f);
    var s := f.height - q.y;
    var d := Div(s * range, range - s);
    SqueezeUnsqueeze(s, range);
    var p := Unproject(f, q);
    assert p.y == f.height - d;
    assert Squeeze(f.height - p.y, range) == Div(d * range, d + range);
  }

  /**
   * The squeeze undoes the inverse squeeze up to one row: for a distance
   * `s` above the bottom edge, short of the horizon, unsqueezing and
   * squeezing gives back `s` or one row less.
   */
  lemma SqueezeUnsqueeze(s: int, range: int)
    requires 0 <= s < range
    ensures var d := Div(s * range, range - s);
            0 <= d && s - 1 <= Div(d * range, d + range) <= s
  {
    var back := range - s;
    var sr := s * range;
    MulLe(0, s, range);
    FloorDiv(sr, back);
    var d := Div(sr, back);
    var total := d + range;
    var dr := d * range;
    MulLe(0, d, range);
    FloorDiv(dr, total);
    SqueezeBounds(s, range, back, d, total, Div(dr, total));
  }

  /** The arithmetic of the squeeze after the inverse squeeze, from the two floor divisions. */
  lemma SqueezeBounds(s: int, range: int, back: int, d: int, total: int, e: int)
    requires 0 <= s && 0 <= d && 0 < back == range - s && total == d + range
    requires d * back <= s * range < d * back + back
    requires e * total <= d * range < e * total + total
    ensures s - 1 <= e <= s
  {
    MulSub(range, d, back, s);
    MulSub(total, s, d, range);
    assert s * d == d * s;
    MulShift(s, 1, total);
    MulShift(s, -2, total);
    SqueezeLinear(s, range, back, d, total, s * range, d * back, d * range, d * s, s * total, e * total);
    CancelLt(e, s + 1, total);
    CancelLt(s - 2, e, total);
  }

  /** `(a + b) * k` and `a * k + b * k` agree. */
  lemma MulShift(a: int, b: int, k: int)
    ensures (a + b) * k == a * k + b * k
  {
  }

  /** The inequalities of the squeeze after the inverse squeeze, with every product named. */
  lemma SqueezeLinear(s: int, range: int, back: int, d: int, total: int,
                      sr: int, db: int, dr: int, ds: int, st: int, et: int)
    requires 0 <= s && 0 <= d && back == range - s && total == d + range
    requires dr == db + ds && st == ds + sr
    requires db <= sr < db + back && et <= dr < et + total
    ensures et < st + total && st - 2 * total < et
  {
  }

  /** Scaling by `back / range` and then by `range / back` in C moves a value by at most two when `back` is at least half of `range`. */
  lemma ScaleBack(c: int, range: int, back: int)
    requires 0 < back <= range <= 2 * back
    ensures Abs(Div(Div(c * back, range) * range, back) - c) <= 2
  {
    var t := Div(c * back, range);
    var u := Div(t * range, back);
    ScaleBackNear(c, range, back, t, u);
  }

  /** The same, given how close each C division lands. */
  lemma ScaleBackNear(c: int, range: int, back: int, t: int, u: int)
    requires 0 < back <= range <= 2 * back
    requires Abs(c * back - t * range) < range && Abs(t * range - u * back) < back
    ensures Abs(u - c) <= 2
  {
    MulSub(c, back, c - u, u);
    NearThrice(c * back, t * range, u * back, (c - u) * back, range, back);
    AbsMul(c - u, back);
    CancelLt(Abs(c - u), 3, back);
  }

  /** Two steps, each closer than `range` and `back`, stay within three times `back` in all. */
  lemma NearThrice(a: int, b: int, c: int, m: int, range: int, back: int)
    requires 0 < back && range <= 2 * back && m == a - c
    requires Abs(a - b) < range && Abs(b - c) < back
    ensures Abs(m) < 3 * back
  {
  }

  /**
   * Beyond one visible range the round trip drifts: on a 400 by 400
   * screen with the horizon 100 rows above it, a point 1599 rows above the
   * top is drawn on row 1, still on screen, and comes back 24 rows lower;
   * a point 10000 rows above the top projects to row -77 and comes back
   * 31 rows lower.
   */
  lemma ProjectFarDrift()
    ensures var f := Frame(400, 400, 200, 200, 0, 0, 32768, -100, 1, 1, Area(0, 0, 0, 0));
            var p := GuiPoint(200, -1599);
            Project(f, p).y == 1 && Unproject(f, Project(f, p)).y == -1575
    ensures var f := Frame(400, 400, 200, 200, 0, 0, 32768, -100, 1, 1, Area(0, 0, 0, 0));
            var p := GuiPoint(200, -10000);
            Project(f, p).y == -77 && Unproject(f, Project(f, p)).y == -9969
  {
    var f := Frame(400, 400, 200, 200, 0, 0, 32768, -100, 1, 1, Area(0, 0, 0, 0));
    DivNonNegative(1999 * 500, 2499);
    assert Squeeze(1999, 500) == 399;
    assert Project(f, GuiPoint(200, -1599)).y == 1;
    DivNonNegative(399 * 500, 101);
    assert Div(399 * 500, 101) == 1975;
    DivNonNegative(10400 * 500, 10900);
    assert Squeeze(10400, 500) == 477;
    assert Project(f, GuiPoint(200, -10000)).y == -77;
    DivNonNegative(477 * 500, 23);
    assert Div(477 * 500, 23) == 10369;
  }

  /** C's `(v + 16383) / 32768`: a Q15 product scaled back to pixels. */
  function Q15(v: int): int
  {
    Div(v + 16383, 32768)
  }

  /**
   * The per-point rotation of roadmap_math_rotate_coordinates: the screen
   * is turned about its centre by the orientation. The centre is fixed.
   */
  function Rotate(f: Frame, p: GuiPoint): (r: GuiPoint)
    ensures p == GuiPoint(f.centerX, f.centerY) ==> r == p
  {
    var x := p.x - f.centerX;
    var y := f.centerY - p.y;
    GuiPoint(f.centerX + Q15(x * f.cosOrientation + y * f.sinOrientation),
             f.centerY - Q15(y * f.cosOrientation - x * f.sinOrientation))
  }

  /**
   * roadmap_math_counter_rotate_coordinate: the turn in the other sense,
   * from the rotated screen back to the upright one. The centre is fixed.
   */
  function CounterRotate(f: Frame, p: GuiPoint): (r: GuiPoint)
    ensures p == GuiPoint(f.centerX, f.centerY) ==> r == p
  {
    var x := p.x - f.centerX;
    var y := f.centerY - p.y;
    GuiPoint(f.centerX + Q15(x * f.cosOrientation - y * f.sinOrientation),
             f.centerY - Q15(x * f.sinOrientation + y * f.cosOrientation))
  }

  /**
   * With the table's 0-degree pair (sine 0, cosine 32768) both turns move
   * a point by at most one pixel on each axis: the `+ 16383` rounding and
   * C's truncation toward zero move a negative offset one pixel toward the
   * centre.
   */
  lemma {:induction false} TurnByZeroNearlyFixed(f: Frame, p: GuiPoint)
    requires f.sinOrientation == 0 && f.cosOrientation == 32768
    ensures Abs(Rotate(f, p).x - p.x) <= 1 && Abs(Rotate(f, p).y - p.y) <= 1
    ensures Abs(CounterRotate(f, p).x - p.x) <= 1 && Abs(CounterRotate(f, p).y - p.y) <= 1
  {
    Q15Unit(p.x - f.centerX);
    Q15Unit(f.centerY - p.y);
  }

  lemma Q15Unit(a: int)
    ensures a <= Q15(a * 32768) <= a + 1
    ensures a >= 0 ==> Q15(a * 32768) == a
  {
    var v := a * 32768 + 16383;
    var q := Q15(a * 32768);
    if a >= 0 {
      assert v >= 0;
      DivNonNegative(v, 32768);
    } else {
      assert Abs(v - q * 32768) < 32768;
      assert v <= 0;
      assert v - q * 32768 <= 0;
    }
  }

  /** The Q15 scaling lands within one and a half units of the exact quotient. */
  lemma Q15Near(v: int)
    ensures Abs(Q15(v) * 32768 - v) < 49151
  {
  }

  /**
   * Turning a point and turning it back brings it home up to rounding and
   * to the table pair's deviation from unit length: on each axis the
   * error, times 32768 squared, is below the offset from the centre times
   * that deviation plus three rounding terms.
   */
  lemma RotateRoundTrip(f: Frame, p: GuiPoint)
    requires Abs(f.sinOrientation) <= 32768 && Abs(f.cosOrientation) <= 32768
    ensures var q := CounterRotate(f, Rotate(f, p));
            Abs(q.x - p.x) * (32768 * 32768) < TurnSlack(p.x - f.centerX, f.sinOrientation, f.cosOrientation) &&
            Abs(q.y - p.y) * (32768 * 32768) < TurnSlack(f.centerY - p.y, f.sinOrientation, f.cosOrientation)
  {
    var s, c := f.sinOrientation, f.cosOrientation;
    var x, y := p.x - f.centerX, f.centerY - p.y;
    var r := Rotate(f, p);
    var x1, y1 := r.x - f.centerX, f.centerY - r.y;
    TurnNear(f, p);
    var q := CounterRotate(f, r);
    var ex, ey := Q15(x1 * c - y1 * s) - x, Q15(x1 * s + y1 * c) - y;
    assert q.x - p.x == ex;
    assert q.y - p.y == -ey;
    TurnBackBoth(x, y, s, c, x1, y1);
  }

  /** The first turn is the exact rotation, times 32768, up to rounding. */
  lemma TurnNear(f: Frame, p: GuiPoint)
    ensures var s, c := f.sinOrientation, f.cosOrientation;
            var x, y := p.x - f.centerX, f.centerY - p.y;
            var r := Rotate(f, p);
            Abs((r.x - f.centerX) * 32768 - (x * c + y * s)) < 49151 &&
            Abs((f.centerY - r.y) * 32768 - (y * c - x * s)) < 49151
  {
    var s, c := f.sinOrientation, f.cosOrientation;
    var x, y := p.x - f.centerX, f.centerY - p.y;
    Q15Near(x * c + y * s);
    Q15Near(y * c - x * s);
  }

  /**
   * The round trip's bound on one axis, times 32768 squared: the offset
   * from the centre times the pair's deviation from unit length, plus
   * three rounding terms.
   */
  function TurnSlack(offset: int, s: int, c: int): (r: int)
    ensures r >= 3 * 32768 * 49151
  {
    MulLe(0, Abs(offset), Abs(s * s + c * c - 32768 * 32768));
    Abs(offset) * Abs(s * s + c * c - 32768 * 32768) + 3 * 32768 * 49151
  }

  /** The round trip on offsets from the centre, given how close the first turn's scalings land. */
  lemma TurnBackBoth(x: int, y: int, s: int, c: int, x1: int, y1: int)
    requires Abs(s) <= 32768 && Abs(c) <= 32768
    requires Abs(x1 * 32768 - (x * c + y * s)) < 49151 && Abs(y1 * 32768 - (y * c - x * s)) < 49151
    ensures Abs(Q15(x1 * c - y1 * s) - x) * (32768 * 32768) < TurnSlack(x, s, c)
    ensures Abs(Q15(x1 * s + y1 * c) - y) * (32768 * 32768) < TurnSlack(y, s, c)
  {
    var r1, r2 := x1 * 32768 - (x * c + y * s), y1 * 32768 - (y * c - x * s);
    TurnAlgebra(x, y, s, c, x1, y1);
    TurnBackAxis(x, s * s + c * c, c, r1, -s, r2, x1 * c - y1 * s);
    TurnBackAxis(y, s * s + c * c, s, r1, c, r2, x1 * s + y1 * c);
  }

  /** The polynomial identities behind the turn and the turn back. */
  lemma TurnAlgebra(x: int, y: int, s: int, c: int, x1: int, y1: int)
    ensures 32768 * (x1 * c - y1 * s) ==
            x * (s * s + c * c) + c * (x1 * 32768 - (x * c + y * s)) + (-s) * (y1 * 32768 - (y * c - x * s))
    ensures 32768 * (x1 * s + y1 * c) ==
            y * (s * s + c * c) + s * (x1 * 32768 - (x * c + y * s)) + c * (y1 * 32768 - (y * c - x * s))
  {
  }

  /** One axis of the turn back: its exact value is `a * n` plus two rounding errors, scaled by 32768. */
  lemma TurnBackAxis(a: int, n: int, k1: int, r1: int, k2: int, r2: int, w: int)
    requires Abs(k1) <= 32768 && Abs(k2) <= 32768 && Abs(r1) < 49151 && Abs(r2) < 49151
    requires 32768 * w == a * n + k1 * r1 + k2 * r2
    ensures Abs(Q15(w) - a) * (32768 * 32768) < Abs(a) * Abs(n - 32768 * 32768) + 3 * 32768 * 49151
  {
    Q15Near(w);
    TurnBackNear(a, n, k1, r1, k2, r2, w, Q15(w));
  }

  /** The same, given how close the final Q15 scaling lands. */
  lemma TurnBackNear(a: int, n: int, k1: int, r1: int, k2: int, r2: int, w: int, z: int)
    requires Abs(k1) <= 32768 && Abs(k2) <= 32768 && Abs(r1) < 49151 && Abs(r2) < 49151
    requires 32768 * w == a * n + k1 * r1 + k2 * r2
    requires Abs(z * 32768 - w) < 49151
    ensures Abs(z - a) * (32768 * 32768) < Abs(a) * Abs(n - 32768 * 32768) + 3 * 32768 * 49151
  {
    var r3 := z * 32768 - w;
    ProductBelow(k1, r1);
    ProductBelow(k2, r2);
    ProductBelow(32768, r3);
    AbsMul(a, n - 32768 * 32768);
    AbsMul(z - a, 32768 * 32768);
    MulDiff(32768, z * 32768, w);
    MulDiff(a, n, 32768 * 32768);
    MulDiffRight(z, a, 32768 * 32768);
    assert 32768 * (z * 32768) == z * (32768 * 32768);
    TurnBackAtoms((z - a) * (32768 * 32768), z * (32768 * 32768), a * (32768 * 32768), 32768 * w, 32768 * r3,
                  a * n, a * (n - 32768 * 32768), k1 * r1, k2 * r2);
  }

  /** The turn-back bound with every product named. */
  lemma TurnBackAtoms(l: int, zkk: int, akk: int, kw: int, kr: int, an: int, p0: int, p1: int, p2: int)
    requires l == zkk - akk && zkk == kw + kr && kw == an + p1 + p2 && p0 == an - akk
    requires Abs(p1) <= 32768 * 49150 && Abs(p2) <= 32768 * 49150 && Abs(kr) <= 32768 * 49150
    ensures Abs(l) < Abs(p0) + 3 * 32768 * 49151
  {
  }

  lemma MulDiff(k: int, a: int, b: int)
    ensures k * (a - b) == k * a - k * b
  {
  }

  lemma MulDiffRight(a: int, b: int, k: int)
    ensures (a - b) * k == a * k - b * k
  {
  }

  /** A table value times a rounding error stays below 32768 times the error bound. */
  lemma ProductBelow(k: int, r: int)
    requires Abs(k) <= 32768 && Abs(r) < 49151
    ensures Abs(k * r) <= 32768 * 49150
  {
    AbsMul(k, r);
    MulLe(Abs(k), 32768, Abs(r));
    MulLe(Abs(r), 49150, 32768);
  }

  /** With a unit table pair the round trip is off by at most four pixels per axis. */
  lemma RotateRoundTripUnit(f: Frame, p: GuiPoint)
    requires Abs(f.sinOrientation) <= 32768 && Abs(f.cosOrientation) <= 32768
    requires f.sinOrientation * f.sinOrientation + f.cosOrientation * f.cosOrientation == 32768 * 32768
    ensures var q := CounterRotate(f, Rotate(f, p));
            Abs(q.x - p.x) <= 4 && Abs(q.y - p.y) <= 4
  {
    RotateRoundTrip(f, p);
    var q := CounterRotate(f, Rotate(f, p));
    CancelLt(Abs(q.x - p.x), 5, 32768 * 32768);
    CancelLt(Abs(q.y - p.y), 5, 32768 * 32768);
  }

  /**
   * What roadmap_math_rotate_coordinates does to one point: the rotation
   * when the screen is turned, then the perspective squeeze when a
   * horizon is set.
   */
  function RotateAndProject(f: Frame, p: GuiPoint): (r: GuiPoint)
    requires ValidFrame(f)
    ensures f.orientation == 0 && f.horizon == 0 ==> r == p
    ensures f.horizon != 0 ==> f.horizon < r.y
  {
    var q := if f.orientation != 0 then Rotate(f, p) else p;
    if f.horizon != 0 then Project(f, q) else q
  }

  function RotateAll(f: Frame, s: seq<GuiPoint>): (r: seq<GuiPoint>)
    requires ValidFrame(f)
    ensures |r| == |s|
    ensures forall k :: 0 <= k < |s| ==> r[k] == RotateAndProject(f, s[k])
  {
    seq(|s|, k requires 0 <= k < |s| => RotateAndProject(f, s[k]))
  }

  /** Points turned and projected one by one, read as a prefix, are the prefix turned and projected. */
  lemma RotatedPrefix(f: Frame, now: seq<GuiPoint>, was: seq<GuiPoint>, count: int)
    requires ValidFrame(f) && 0 <= count <= |now| == |was|
    requires forall k :: 0 <= k < count ==> now[k] == RotateAndProject(f, was[k])
    ensures now[..count] == RotateAll(f, was[..count])
  {
  }

  /**
   * roadmap_math_to_position: a screen point back to a map position.
   * A projected point is first unprojected, a turned screen is turned
   * back, and the upright screen maps linearly onto the upright area:
   * the top-left corner is its north-west corner and each pixel spans
   * `zoomX` by `zoomY` map units.
   */
  function ToPosition(f: Frame, p: GuiPoint, projected: bool): (r: Position)
    requires projected && f.horizon != 0 ==> p.y != f.horizon
    ensures f.orientation == 0 && (!projected || f.horizon == 0) ==>
      r == Position(f.upright.west + p.x * f.zoomX, f.upright.north - p.y * f.zoomY)
  {
    var flat := if projected && f.horizon != 0 then Unproject(f, p) else p;
    var upright := if f.orientation != 0 then CounterRotate(f, flat) else flat;
    Position(f.upright.west + upright.x * f.zoomX, f.upright.north - upright.y * f.zoomY)
  }

  /**
   * The bottom-right corner of an upright screen maps to the south-east
   * corner of the upright area in every view mode, because the bottom row
   * is fixed by the perspective.
   */
  lemma {:induction false} BottomRightCorner(f: Frame, projected: bool)
    requires f.orientation == 0 && ValidFrame(f)
    ensures ToPosition(f, GuiPoint(f.width, f.height), projected) ==
      Position(f.upright.west + f.width * f.zoomX, f.upright.north - f.height * f.zoomY)
  {
    var p := GuiPoint(f.width, f.height);
    if projected && f.horizon != 0 {
      assert Unproject(f, p) == p;
    }
  }

  /** Screen corner `k`, clockwise from the top left. */
  function Corner(f: Frame, k: int): GuiPoint
  {
    if k == 0 then GuiPoint(0, 0)
    else if k == 1 then GuiPoint(f.width, 0)
    else if k == 2 then GuiPoint(f.width, f.height)
    else GuiPoint(0, f.height)
  }

  /** The four screen corners as map positions, clockwise from the top left. */
  function Corners(f: Frame): (r: seq<Position>)
    requires ValidFrame(f)
    ensures |r| == 4
  {
    seq(4, k requires 0 <= k < 4 => ToPosition(f, Corner(f, k), true))
  }
}
