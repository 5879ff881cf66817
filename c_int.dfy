/**
 * C integer semantics the map code relies on: `/` and `%` on `int`
 * truncate toward zero (Dafny's own operators are Euclidean), and the
 * implicit conversion of an `int` to `unsigned short` keeps the low 16 bits.
 */
module CInt {

  function Abs(a: int): (r: nat)
    ensures r == a || r == -a
  {
    if a < 0 then -a else a
  }

  /** C's `a / b`: the quotient rounded toward zero. */
  function Div(a: int, b: int): (q: int)
    requires b != 0
    ensures Abs(a - q * b) < Abs(b)
    ensures a >= 0 ==> a - q * b >= 0
    ensures a <= 0 ==> a - q * b <= 0
  {
    var n := Abs(a) / Abs(b);
    DivFits(a, b, n);
    if (a < 0) == (b < 0) then n else -n
  }

  /** The truncated quotient leaves a remainder below |b| with the sign of `a`. */
  lemma DivFits(a: int, b: int, n: nat)
    requires b != 0 && n == Abs(a) / Abs(b)
    ensures var q: int := if (a < 0) == (b < 0) then n else -(n as int);
            Abs(a - q * b) < Abs(b) && (a >= 0 ==> a - q * b >= 0) && (a <= 0 ==> a - q * b <= 0)
  {
    DivFloorBound(Abs(a), Abs(b));
    var q: int := if (a < 0) == (b < 0) then n else -(n as int);
    var m: int := n * Abs(b);
    assert q * b == (if a < 0 then -m else m) by {
      if b < 0 {
        assert Abs(b) == -b;
        if a < 0 { assert q * b == -(n * -b); } else { assert q * b == (-(n as int)) * b == n * -b; }
      }
    }
  }

  /** C's `a % b`: the remainder that goes with Div, carrying the sign of `a`. */
  function Rem(a: int, b: int): (r: int)
    requires b != 0
    ensures Abs(r) < Abs(b)
    ensures a >= 0 ==> r >= 0
    ensures a <= 0 ==> r <= 0
    ensures r == a - Div(a, b) * b
  {
    a - Div(a, b) * b
  }

  lemma DivFloorBound(a: nat, b: nat)
    requires b > 0
    ensures 0 <= a - (a / b) * b < b
  {
  }

  /** On non-negative operands C and Dafny agree. */
  lemma {:induction false} DivNonNegative(a: int, b: int)
    requires a >= 0 && b > 0
    ensures Div(a, b) == a / b && Rem(a, b) == a % b
  {
  }

  /** The magnitude of a truncated quotient never exceeds |a| / |b|. */
  lemma {:induction false} DivMagnitude(a: int, b: int)
    requires b != 0
    ensures Abs(Div(a, b)) == Abs(a) / Abs(b)
  {
    var n := Abs(a) / Abs(b);
    assert n >= 0;
    assert Div(a, b) == n || Div(a, b) == -n;
  }

  lemma AbsMul(x: int, y: int)
    ensures Abs(x * y) == Abs(x) * Abs(y)
  {
    if x < 0 && y < 0 {
      assert x * y == (-x) * (-y);
    } else if x < 0 {
      assert -(x * y) == (-x) * y;
    } else if y < 0 {
      assert -(x * y) == x * (-y);
    }
  }

  lemma MulLe(x: int, y: int, z: nat)
    requires x <= y
    ensures x * z <= y * z
  {
    assert y * z == x * z + (y - x) * z;
  }

  lemma QuotientBelow(a: nat, b: nat, c: nat)
    requires b > 0 && a < c * b
    ensures a / b < c
  {
    var q := a / b;
    assert q * b <= a;
    if q >= c {
      MulLe(c, q, b);
      assert false;
    }
  }

  lemma DivSign(a: int, b: int)
    requires b > 0
    ensures a >= 0 ==> Div(a, b) >= 0
    ensures a <= 0 ==> Div(a, b) <= 0
  {
  }

  /** For a non-negative dividend and a positive divisor, C's quotient is the floor. */
  lemma FloorDiv(a: int, b: int)
    requires a >= 0 && b > 0
    ensures 0 <= Div(a, b) && Div(a, b) * b <= a < Div(a, b) * b + b
  {
    DivSign(a, b);
  }

  /** Dividing an exact multiple gives the factor back. */
  lemma ExactQuotient(a: int, b: int)
    requires b != 0
    ensures Div(a * b, b) == a
  {
    var q := Div(a * b, b);
    assert a * b - q * b == (a - q) * b;
    AbsMul(a - q, b);
    if a != q {
      MulLe(1, Abs(a - q), Abs(b));
      assert false;
    }
  }

  /** The largest value of C's `unsigned short`, and the number of its values. */
  const UShortMax := 0xffff
  const UShortRange := 0x1_0000

  /** Conversion of an `int` to `unsigned short`: arithmetic modulo 2^16. */
  function UShort(v: int): (r: int)
    ensures 0 <= r <= UShortMax
    ensures (r - v) % UShortRange == 0
    ensures 0 <= v <= UShortMax ==> r == v
  {
    v % UShortRange
  }
}
