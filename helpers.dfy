/**
 * The small stand-alone helpers of roadmap_math.c: rectangle containment,
 * squared screen distance, point ordering and the reading of a street
 * number from its text.
 */
module MathHelpers {
  import opened Geo

  /** roadmap_math_area_contains: 1 exactly when `b` lies inside `a`, edges included. */
  function AreaContains(a: Area, b: Area): (r: int)
    ensures r == 0 || r == 1
    ensures r == 1 <==> Covers(a, b)
  {
    if b.west < a.west then 0
    else if b.east > a.east then 0
    else if b.south < a.south then 0
    else if b.north > a.north then 0
    else 1
  }

  /** A rectangle contains itself, and containment chains. */
  lemma AreaContainsOrder(a: Area, b: Area, c: Area)
    ensures AreaContains(a, a) == 1
    ensures AreaContains(a, b) == 1 && AreaContains(b, c) == 1 ==> AreaContains(a, c) == 1
  {
  }

  /**
   * roadmap_math_screen_distance in its squared mode: the squared
   * Euclidean distance between two screen points, zero exactly for the
   * same point.
   */
  function ScreenDistance(p1: GuiPoint, p2: GuiPoint): (r: int)
    ensures r >= 0
    ensures r == 0 <==> p1 == p2
    ensures r >= (p1.x - p2.x) * (p1.x - p2.x) && r >= (p1.y - p2.y) * (p1.y - p2.y)
  {
    var dx := p1.x - p2.x;
    var dy := p1.y - p2.y;
    SquareZero(dx);
    SquareZero(dy);
    dx * dx + dy * dy
  }

  lemma SquareZero(d: int)
    ensures d * d >= 0
    ensures d * d == 0 <==> d == 0
  {
    if d != 0 {
      if d > 0 {
        assert d * d >= d;
      } else {
        assert d * d == (-d) * (-d);
        assert (-d) * (-d) >= -d;
      }
    }
  }

  lemma ScreenDistanceSymmetric(p1: GuiPoint, p2: GuiPoint)
    ensures ScreenDistance(p1, p2) == ScreenDistance(p2, p1)
  {
    assert (p1.x - p2.x) * (p1.x - p2.x) == (p2.x - p1.x) * (p2.x - p1.x);
    assert (p1.y - p2.y) * (p1.y - p2.y) == (p2.y - p1.y) * (p2.y - p1.y);
  }

  /**
   * roadmap_math_compare_points as written: the second longitude test
   * repeats the first with its operands swapped, so it never fires, and a
   * point with the larger longitude is ordered by latitude instead.
   */
  function ComparePointsAsWritten(p1: Position, p2: Position): (r: int)
    ensures r == 0 <==> p1 == p2
    ensures p1.longitude < p2.longitude ==> r == -1
  {
    if p1.longitude == p2.longitude && p1.latitude == p2.latitude then 0
    else if p1.longitude < p2.longitude then -1
    else if p2.longitude > p1.longitude then 1
    else if p1.latitude < p2.latitude then -1
    else 1
  }

  /** As written, the order is not antisymmetric: each of these points compares below the other. */
  lemma ComparePointsAsWrittenNotAntisymmetric()
    ensures ComparePointsAsWritten(Position(2, 0), Position(1, 5)) == -1
    ensures ComparePointsAsWritten(Position(1, 5), Position(2, 0)) == -1
  {
  }

  /**
   * roadmap_math_compare_points as evidently intended: longitude first,
   * then latitude.
   */
  function ComparePoints(p1: Position, p2: Position): (r: int)
    ensures r == 0 <==> p1 == p2
    ensures r == -1 <==> p1.longitude < p2.longitude ||
                         (p1.longitude == p2.longitude && p1.latitude < p2.latitude)
    ensures r == 1 <==> p1.longitude > p2.longitude ||
                        (p1.longitude == p2.longitude && p1.latitude > p2.latitude)
  {
    if p1.longitude == p2.longitude && p1.latitude == p2.latitude then 0
    else if p1.longitude < p2.longitude then -1
    else if p1.longitude > p2.longitude then 1
    else if p1.latitude < p2.latitude then -1
    else 1
  }

  /** The corrected comparison is a total order: antisymmetric and transitive. */
  lemma ComparePointsTotalOrder(p1: Position, p2: Position, p3: Position)
    ensures ComparePoints(p1, p2) == -ComparePoints(p2, p1)
    ensures ComparePoints(p1, p2) <= 0 && ComparePoints(p2, p3) <= 0 ==> ComparePoints(p1, p3) <= 0
  {
  }

  /** The two versions agree whenever the first point does not have the larger longitude. */
  lemma ComparePointsAgree(p1: Position, p2: Position)
    requires p1.longitude <= p2.longitude
    ensures ComparePointsAsWritten(p1, p2) == ComparePoints(p1, p2)
  {
  }

  // ---------------------------------------------------------------- street numbers

  function Pow10(n: nat): (r: nat)
    ensures r >= 1
  {
    if n == 0 then 1 else 10 * Pow10(n - 1)
  }

  /** The number a sequence of digit values spells, most significant first. */
  function DigitsValue(ds: seq<int>): int
  {
    if ds == [] then 0 else DigitsValue(ds[..|ds| - 1]) * 10 + ds[|ds| - 1]
  }

  /** Reading `a` then `b` is reading `a` shifted left by the length of `b`, plus `b`. */
  lemma {:induction false} DigitsValueAppend(a: seq<int>, b: seq<int>)
    ensures DigitsValue(a + b) == DigitsValue(a) * Pow10(|b|) + DigitsValue(b)
  {
    if b != [] {
      var b' := b[..|b| - 1];
      assert (a + b)[..|a + b| - 1] == a + b';
      DigitsValueAppend(a, b');
      calc {
        DigitsValue(a + b);
        DigitsValue(a + b') * 10 + b[|b| - 1];
        (DigitsValue(a) * Pow10(|b'|) + DigitsValue(b')) * 10 + b[|b| - 1];
        { assert (DigitsValue(a) * Pow10(|b'|)) * 10 == DigitsValue(a) * (10 * Pow10(|b'|)); }
        DigitsValue(a) * Pow10(|b|) + DigitsValue(b);
      }
    } else {
      assert a + b == a;
    }
  }

  /** One more digit on the right. */
  lemma DigitsValuePush(ds: seq<int>, d: int)
    ensures DigitsValue(ds + [d]) == DigitsValue(ds) * 10 + d
  {
    assert (ds + [d])[..|ds|] == ds;
  }

  /** The value of a character taken as a digit: `c - '0'`, whatever `c` is. */
  function Code(c: char): int
  {
    c as int - '0' as int
  }

  function Codes(s: seq<char>): (r: seq<int>)
    ensures |r| == |s|
    ensures forall k :: 0 <= k < |s| ==> r[k] == Code(s[k])
  {
    seq(|s|, k requires 0 <= k < |s| => Code(s[k]))
  }

  predicate IsDigit(c: char) { '0' <= c <= '9' }

  /** The letters that open a geographic street number and may separate its two parts. */
  predicate IsCompass(c: char) { c == 'W' || c == 'E' || c == 'S' || c == 'N' }

  predicate IsMarker(c: char) { IsCompass(c) || c == '-' }

  /** The first separator at or after index `i` (at least 1), or 0 when there is none. */
  function MarkerFrom(s: seq<char>, i: nat): (r: nat)
    requires i >= 1
    ensures r == 0 || (i <= r < |s| && IsMarker(s[r]))
    ensures forall k :: i <= k < |s| && (r == 0 || k < r) ==> !IsMarker(s[k])
    decreases |s| - i
  {
    if i >= |s| then 0 else if IsMarker(s[i]) then i else MarkerFrom(s, i + 1)
  }

  /** The digit a character of a plain street number contributes, if any. */
  function PlainDigit(c: char, long: bool): (r: int)
    ensures r >= -1
    ensures IsDigit(c) ==> r == Code(c)
  {
    if IsDigit(c) then Code(c)
    else if long then -1
    else if c == '-' || c == ' ' then -1
    else if 'A' <= c <= 'Z' then c as int - 'A' as int + 1
    else if 'a' <= c <= 'z' then c as int - 'a' as int + 1
    else -1
  }

  /**
   * The digit values a plain street number contributes, in order: digits
   * as themselves; in a number of fewer than 9 characters a letter as its
   * rank in the alphabet; everything else skipped.
   */
  function PlainDigits(s: seq<char>, long: bool): seq<int>
  {
    if s == [] then []
    else
      var last := PlainDigit(s[|s| - 1], long);
      PlainDigits(s[..|s| - 1], long) + (if last >= 0 then [last] else [])
  }

  /** A number made of digits only reads as its decimal value. */
  lemma {:induction false} PlainDigitsOfDigits(s: seq<char>, long: bool)
    requires forall k :: 0 <= k < |s| ==> IsDigit(s[k])
    ensures PlainDigits(s, long) == Codes(s)
  {
    if s != [] {
      PlainDigitsOfDigits(s[..|s| - 1], long);
      assert Codes(s) == Codes(s[..|s| - 1]) + [Code(s[|s| - 1])];
    }
  }

  /** Whether the text is a geographic street number (`W123-45...`): longer than 8 and opening with a compass letter. */
  predicate IsGeographic(image: seq<char>)
  {
    |image| > 8 && IsCompass(image[0])
  }

  /**
   * The value of a street number. A geographic one is its first part
   * shifted left past the second part and one more place, plus the second
   * part; a plain one is the digits it contributes.
   */
  function AddressValue(image: seq<char>): int
  {
    if IsGeographic(image) then
      var separator := MarkerFrom(image, 1);
      var part1 := if separator == 0 then 0 else DigitsValue(Codes(image[1..separator]));
      part1 * Pow10(|image| - separator) + DigitsValue(Codes(image[separator + 1..]))
    else
      DigitsValue(PlainDigits(image, |image| >= 9))
  }

  /** In a geographic street number with a separator, the separator reads as a 0 digit between the two parts. */
  lemma GeographicSeparatorIsZero(image: seq<char>)
    requires IsGeographic(image) && MarkerFrom(image, 1) != 0
    ensures var separator := MarkerFrom(image, 1);
            AddressValue(image) ==
            DigitsValue(Codes(image[1..separator]) + [0] + Codes(image[separator + 1..]))
  {
    var separator := MarkerFrom(image, 1);
    var a := Codes(image[1..separator]);
    var b := Codes(image[separator + 1..]);
    DigitsValueAppend(a + [0], b);
    DigitsValueAppend(a, [0]);
    assert DigitsValue([0]) == DigitsValue([]) * 10 + 0;
    assert Pow10(|image| - separator) == 10 * Pow10(|b|);
  }

  /** A short all-digit street number reads as its decimal value. */
  lemma PlainDecimal(image: seq<char>)
    requires |image| <= 8 && forall k :: 0 <= k < |image| ==> IsDigit(image[k])
    ensures AddressValue(image) == DigitsValue(Codes(image))
  {
    PlainDigitsOfDigits(image, false);
  }

  /**
   * roadmap_math_street_address: the number a street-number text stands
   * for. Characters that are not digits are warned about by the source
   * and still taken as `c - '0'` in a geographic number.
   */
  method StreetAddress(image: seq<char>) returns (result: int)
    ensures result == AddressValue(image)
  {
    if |image| > 8 && IsCompass(image[0]) {
      result := GeographicAddress(image);
    } else {
      result := PlainAddress(image);
    }
  }

  /**
   * The backward separator search of roadmap_math_street_address: the
   * last assignment wins, so the first separator after the opening letter
   * is kept.
   */
  method FindSeparator(image: seq<char>) returns (separator: nat)
    requires |image| >= 1
    ensures separator == MarkerFrom(image, 1)
  {
    separator := 0;
    var i := |image| - 1;
    while i > 0
      invariant 0 <= i < |image|
      invariant separator == MarkerFrom(image, i + 1)
    {
      if IsMarker(image[i]) {
        separator := i;
      }
      i := i - 1;
    }
  }

  /**
   * The last loop of the geographic branch of roadmap_math_street_address:
   * read the digits after the separator, and ten to the power of one more
   * than their count.
   */
  method ReadSecondPart(image: seq<char>, separator: nat) returns (part2: int, multiplier: int)
    requires separator < |image|
    ensures part2 == DigitsValue(Codes(image[separator + 1..]))
    ensures multiplier == Pow10(|image| - separator)
  {
    part2 := 0;
    multiplier := 10;
    var i := separator + 1;
    while i < |image|
      invariant separator + 1 <= i <= |image|
      invariant part2 == DigitsValue(Codes(image[separator + 1..i]))
      invariant multiplier == Pow10(i - separator)
    {
      ReadStep(image, separator + 1, i);
      part2 := part2 * 10 + Code(image[i]);
      multiplier := multiplier * 10;
      i := i + 1;
    }
    assert image[separator + 1..i] == image[separator + 1..];
  }

  /** Reading one more character of a digit run. */
  lemma ReadStep(image: seq<char>, lo: nat, i: nat)
    requires lo <= i < |image|
    ensures DigitsValue(Codes(image[lo..i + 1])) == DigitsValue(Codes(image[lo..i])) * 10 + Code(image[i])
  {
    assert Codes(image[lo..i + 1]) == Codes(image[lo..i]) + [Code(image[i])];
    DigitsValuePush(Codes(image[lo..i]), Code(image[i]));
  }

  /** The geographic branch of roadmap_math_street_address: find the separator, then read both parts. */
  method GeographicAddress(image: seq<char>) returns (result: int)
    requires IsGeographic(image)
    ensures result == AddressValue(image)
  {
    var separator := FindSeparator(image);
    var part1 := 0;
    var part2, multiplier;
    var i := 1;
    while i < separator
      invariant separator == 0 || 1 <= i <= separator
      invariant part1 == if separator == 0 then 0 else DigitsValue(Codes(image[1..i]))
    {
      assert Codes(image[1..i + 1]) == Codes(image[1..i]) + [Code(image[i])];
      DigitsValuePush(Codes(image[1..i]), Code(image[i]));
      part1 := part1 * 10 + Code(image[i]);
      i := i + 1;
    }
    part2, multiplier := ReadSecondPart(image, separator);
    assert part1 == if separator == 0 then 0 else DigitsValue(Codes(image[1..separator]));
    result := part1 * multiplier + part2;
  }

  /**
   * The plain branch of roadmap_math_street_address: digits as
   * themselves, letters (in numbers shorter than 9) as their rank, the
   * rest skipped.
   */
  method PlainAddress(image: seq<char>) returns (result: int)
    requires !IsGeographic(image)
    ensures result == AddressValue(image)
  {
    var length := |image|;
    result := 0;
    var i := 0;
    while i < length
      invariant 0 <= i <= length
      invariant result == DigitsValue(PlainDigits(image[..i], length >= 9))
    {
      assert image[..i + 1][..i] == image[..i];
      var kept := PlainDigits(image[..i], length >= 9);
      assert PlainDigits(image[..i + 1], length >= 9) ==
             kept + (if PlainDigit(image[i], length >= 9) >= 0 then [PlainDigit(image[i], length >= 9)] else []);
      assert kept + [] == kept;
      DigitsValuePush(kept, PlainDigit(image[i], length >= 9));
      var digit := image[i] as int;
      if !IsDigit(image[i]) {
        if length >= 9 {
          i := i + 1;
          continue;
        } else if image[i] == '-' || image[i] == ' ' {
          i := i + 1;
          continue;
        } else if 'A' <= image[i] <= 'Z' {
          digit := '1' as int + digit - 'A' as int;
        } else if 'a' <= image[i] <= 'z' {
          digit := '1' as int + digit - 'a' as int;
        } else {
          i := i + 1;
          continue;
        }
      }
      result := result * 10 + (digit - '0' as int);
      i := i + 1;
    }
    assert image[..i] == image;
  }
}
