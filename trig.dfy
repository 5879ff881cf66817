/**
 * Fixed-point trigonometry of roadmap_math.c. Sines and cosines are scaled
 * by 32768 and looked up in a 46-entry first-octant table (one entry per
 * degree from 0 to 45). The table itself is defined outside this model, so
 * every member takes it as a parameter and relies only on its shape.
 */
module Trig {
  import opened CInt

  /** One table entry: `sine` is the C field `x`, `cosine` the field `y`. */
  datatype TrigEntry = TrigEntry(sine: int, cosine: int)

  const TableSize := 46
  const Unit := 32768

  predicate ValidTable(t: seq<TrigEntry>)
  {
    |t| == TableSize &&
    forall i :: 0 <= i < |t| ==> 0 <= t[i].sine <= Unit && 0 <= t[i].cosine <= Unit
  }

  datatype SinCos = SinCos(sine: int, cosine: int)

  /** The pair for an angle of the first quadrant, folding 46..89 onto the table. */
  function FirstQuadrant(t: seq<TrigEntry>, i: int): (r: SinCos)
    requires ValidTable(t) && 0 <= i < 90
    ensures 0 <= r.sine <= Unit && 0 <= r.cosine <= Unit
    ensures i <= 45 ==> r == SinCos(t[i].sine, t[i].cosine)
    ensures i > 45 ==> r == SinCos(t[90 - i].cosine, t[90 - i].sine)
  {
    if i <= 45 then SinCos(t[i].sine, t[i].cosine)
    else SinCos(t[90 - i].cosine, t[90 - i].sine)
  }

  /** The pair `p` turned by `q` quarter turns: sin(a + 90) = cos a, cos(a + 90) = -sin a. */
  function Turn(p: SinCos, q: int): SinCos
    requires 0 <= q < 4
  {
    if q == 0 then p
    else if q == 1 then SinCos(p.cosine, -p.sine)
    else if q == 2 then SinCos(-p.sine, -p.cosine)
    else SinCos(-p.cosine, p.sine)
  }

  /**
   * Reference definition of the sine and cosine of any whole angle in
   * degrees: the first-quadrant remainder, turned by the quadrant number,
   * both taken with floored (Euclidean) division.
   */
  function SinCosOf(t: seq<TrigEntry>, angle: int): (r: SinCos)
    requires ValidTable(t)
    ensures -Unit <= r.sine <= Unit && -Unit <= r.cosine <= Unit
  {
    Turn(FirstQuadrant(t, angle % 90), (angle / 90) % 4)
  }

  lemma ShiftQuotient(x: int, k: int)
    ensures (x + 90 * k) / 90 == x / 90 + k
    ensures (x + 90 * k) % 90 == x % 90
  {
    var q, r := x / 90, x % 90;
    assert x + 90 * k == 90 * (q + k) + r;
  }

  lemma ShiftQuadrant(q: int, k: int)
    ensures (q + 4 * k) % 4 == q % 4
  {
    var d, r := q / 4, q % 4;
    assert q + 4 * k == 4 * (d + k) + r;
  }

  /** Adding a right angle turns the pair by one quarter. */
  lemma {:induction false} QuarterTurn(t: seq<TrigEntry>, angle: int)
    requires ValidTable(t)
    ensures SinCosOf(t, angle + 90) ==
            SinCos(SinCosOf(t, angle).cosine, -SinCosOf(t, angle).sine)
  {
    ShiftQuotient(angle, 1);
    ShiftQuadrant(angle / 90, 1);
  }

  /** Sine and cosine repeat every full turn. */
  lemma {:induction false} FullTurn(t: seq<TrigEntry>, angle: int)
    requires ValidTable(t)
    ensures SinCosOf(t, angle + 360) == SinCosOf(t, angle)
  {
    QuarterTurn(t, angle);
    QuarterTurn(t, angle + 90);
    QuarterTurn(t, angle + 180);
    QuarterTurn(t, angle + 270);
  }

  /** On 0..45 degrees the pair is the table entry itself. */
  lemma {:induction false} FirstOctant(t: seq<TrigEntry>, angle: int)
    requires ValidTable(t) && 0 <= angle <= 45
    ensures SinCosOf(t, angle) == SinCos(t[angle].sine, t[angle].cosine)
  {
  }

  /**
   * roadmap_math_trigonometry: reduce the angle to the first quadrant with
   * C's truncating `%`, correcting a negative remainder, then lift the angle
   * to a non-negative one by whole turns to find its quadrant.
   */
  method Trigonometry(t: seq<TrigEntry>, angle: int) returns (sine: int, cosine: int)
    requires ValidTable(t)
    ensures SinCos(sine, cosine) == SinCosOf(t, angle)
  {
    var i := Rem(angle, 90);
    ShiftQuotient(angle, -Div(angle, 90));
    while i < 0
      invariant -90 < i < 90 && i % 90 == angle % 90
      decreases -i
    {
      ShiftQuotient(i, 1);
      i := i + 90;
    }
    var first := FirstQuadrant(t, i);
    if i <= 45 {
      sine, cosine := t[i].sine, t[i].cosine;
    } else {
      i := 90 - i;
      sine, cosine := t[i].cosine, t[i].sine;
    }
    assert SinCos(sine, cosine) == first;

    var a := angle;
    ghost var turns := 0;
    while a < 0
      invariant a == angle + 360 * turns
      decreases -a
    {
      a := a + 360;
      turns := turns + 1;
    }
    DivNonNegative(a, 90);
    ShiftQuotient(angle, 4 * turns);
    var q := Div(a, 90);
    DivNonNegative(q, 4);
    ShiftQuadrant(angle / 90, turns);
    var quadrant := Rem(q, 4);
    assert quadrant == (angle / 90) % 4;

    var s, c := sine, cosine;
    if quadrant == 0 {
      sine, cosine := s, c;
    } else if quadrant == 1 {
      sine, cosine := c, 0 - s;
    } else if quadrant == 2 {
      sine, cosine := 0 - s, 0 - c;
    } else {
      sine, cosine := 0 - c, s;
    }
  }

  /**
   * The angle reported for a base angle `base` (0..90) once the caller's
   * sign is applied and the angle of a negative `cosine` is mirrored to the
   * far side.
   */
  function Mirror(base: int, sign: int, cosine: int): (r: int)
    requires 0 <= base <= 90 && (sign == 1 || sign == -1)
    ensures -180 < r <= 180
    ensures cosine >= 0 ==> r == sign * base
    ensures cosine < 0 && sign == 1 ==> r == 180 - base
  {
    var s := sign * base;
    if cosine >= 0 then s
    else if 180 - s > 180 then 180 - s - 360
    else 180 - s
  }

  /** The magnitude the search works on: |cosine|, with 32768 lowered to 32767. */
  function SearchedCosine(cosine: int): int
  {
    if Abs(cosine) == Unit then Unit - 1 else Abs(cosine)
  }

  /**
   * roadmap_math_arccosine: a binary search of the table for the angle
   * whose cosine is `cosine` / 32768. A magnitude over 32768 is an error
   * and yields 0. Otherwise the answer lies in (-180, 180]; when the
   * magnitude is at least the table's 45-degree cosine the base angle is
   * at most 45 degrees and its table cosine does not exceed the searched
   * value, else the base angle is 45 to 90 degrees.
   */
  method Arccosine(t: seq<TrigEntry>, cosine: int, sign: int) returns (r: int)
    requires ValidTable(t) && (sign == 1 || sign == -1)
    ensures Abs(cosine) > Unit ==> r == 0
    ensures -180 < r <= 180
    ensures Abs(cosine) <= Unit && SearchedCosine(cosine) >= t[45].cosine ==>
      exists base :: 0 <= base <= 45 && t[base].cosine <= SearchedCosine(cosine) &&
                     r == Mirror(base, sign, cosine)
    ensures Abs(cosine) <= Unit && SearchedCosine(cosine) < t[45].cosine ==>
      exists base :: 45 <= base <= 90 && r == Mirror(base, sign, cosine)
  {
    var c := cosine;
    var negative := false;
    if c < 0 {
      c := 0 - c;
      negative := true;
    }
    if c >= Unit {
      if c > Unit {
        return 0;
      }
      c := Unit - 1;
    }
    assert c == SearchedCosine(cosine);

    var high, low := 45, 0;
    var base: int;
    if c >= t[45].cosine {
      while high > low + 1
        invariant 0 <= low <= high <= 45
        invariant t[high].cosine <= c
      {
        var i := (high + low) / 2;
        if c > t[i - 1].cosine {
          high := i - 1;
        } else if c < t[i].cosine {
          low := i;
        } else {
          high := i;
          break;
        }
      }
      base := high;
    } else {
      while high > low + 1
        invariant 0 <= low <= high <= 45
      {
        var i := (high + low) / 2;
        if c >= t[i].sine {
          low := i;
        } else if c < t[i - 1].cosine {
          high := i - 1;
        } else {
          high := i;
          break;
        }
      }
      base := 90 - high;
    }

    var result := sign * base;
    if negative {
      result := 180 - result;
      if result > 180 {
        result := result - 360;
      }
    }
    assert result == Mirror(base, sign, cosine);
    r := result;
  }
}
