/**
 * Compass directions in whole degrees: bringing a direction into [0, 360)
 * and measuring the smaller angle between two directions.
 */
module Angles {
  import opened CInt

  /** Reference definition: the direction `d` as an angle in [0, 360). */
  function Normalized(d: int): (r: int)
    ensures 0 <= r < 360
    ensures (r - d) % 360 == 0
    ensures 0 <= d < 360 ==> r == d
  {
    d % 360
  }

  /**
   * roadmap_math_normalize_orientation: C's truncating `%` leaves a
   * negative remainder for a negative direction, which the loop lifts.
   */
  method NormalizeOrientation(direction: int) returns (d: int)
    ensures d == Normalized(direction)
  {
    d := Rem(direction, 360);
    Shift360(direction, -Div(direction, 360));
    while d < 0
      invariant -360 < d < 360 && d % 360 == direction % 360
      decreases -d
    {
      Shift360(d, 1);
      d := d + 360;
    }
  }

  lemma Shift360(x: int, k: int)
    ensures (x + 360 * k) % 360 == x % 360
  {
    var q, r := x / 360, x % 360;
    assert x + 360 * k == 360 * (q + k) + r;
  }

  /** Reference definition: the smaller of the two angles between two directions. */
  function AngularDistance(d1: int, d2: int): (r: int)
    ensures 0 <= r <= 180
  {
    var m := (d2 - d1) % 360;
    if m <= 180 then m else 360 - m
  }

  /** The distance does not depend on which direction is named first. */
  lemma {:induction false} AngularDistanceSymmetric(d1: int, d2: int)
    ensures AngularDistance(d1, d2) == AngularDistance(d2, d1)
  {
    var m := (d2 - d1) % 360;
    Shift360(d2 - d1, -((d2 - d1) / 360));
    if m == 0 {
      Shift360(d1 - d2, (d2 - d1) / 360);
    } else {
      assert (d1 - d2) == -(d2 - d1);
      Shift360(d1 - d2, (d2 - d1) / 360 + 1);
      assert (d1 - d2) % 360 == 360 - m;
    }
  }

  /** Turning either direction by a whole turn changes nothing. */
  lemma {:induction false} AngularDistanceFullTurn(d1: int, d2: int, k: int)
    ensures AngularDistance(d1 + 360 * k, d2) == AngularDistance(d1, d2)
  {
    assert d2 - (d1 + 360 * k) == (d2 - d1) + 360 * (-k);
    Shift360(d2 - d1, -k);
  }

  /**
   * roadmap_math_delta_direction: the difference is folded into
   * [-180, 180] by whole turns and its magnitude is returned.
   */
  method DeltaDirection(direction1: int, direction2: int) returns (delta: int)
    ensures delta == AngularDistance(direction1, direction2)
  {
    delta := direction2 - direction1;
    ghost var turns := 0;
    while delta > 180
      invariant delta == direction2 - direction1 - 360 * turns
      decreases delta
    {
      delta := delta - 360;
      turns := turns + 1;
    }
    while delta < -180
      invariant delta <= 180
      invariant delta == direction2 - direction1 - 360 * turns
      decreases -delta
    {
      delta := delta + 360;
      turns := turns - 1;
    }
    Shift360(direction2 - direction1, -turns);
    assert delta % 360 == (direction2 - direction1) % 360;
    assert delta < 0 ==> delta % 360 == delta + 360;
    if delta < 0 {
      delta := 0 - delta;
    }
    // The source's last loop, which subtracts whole turns while the
    // magnitude is 360 or more, never runs here: the magnitude is at most 180.
  }
}
