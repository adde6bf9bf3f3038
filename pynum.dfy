/** Python's numeric operators on floats, stated on exact reals.

    Python's `x // y` floors the exact quotient, `x % y` takes the sign of the divisor, and
    `int(x)` truncates toward zero. Dafny's own `/` and `%` on `int` are Euclidean and `.Floor`
    always rounds down, so the three operators are written out here and the survival
    formatter uses these, not Dafny's. */
module PyNum {

  /** True when `x` has no fractional part. */
  predicate IsWhole(x: real) {
    x == x.Floor as real
  }

  /** Python `x // y` on floats: the largest whole number not above the quotient. */
  function FloorDiv(x: real, y: real): (q: real)
    requires y != 0.0
    ensures IsWhole(q)
    ensures q <= x / y < q + 1.0
  {
    (x / y).Floor as real
  }

  /** Python `x % y` on floats: what is left of `x` after `x // y` whole divisors, with the sign
      of the divisor. */
  function Mod(x: real, y: real): (r: real)
    requires y != 0.0
    ensures x == y * FloorDiv(x, y) + r
    ensures y > 0.0 ==> 0.0 <= r < y
    ensures y < 0.0 ==> y < r <= 0.0
  {
    var q := FloorDiv(x, y);
    RemainderBetween(x, y, q);
    x - y * q
  }

  /** The remainder left by a quotient `q` with `q <= x / y < q + 1` lies between 0 and `y`. */
  lemma RemainderBetween(x: real, y: real, q: real)
    requires y != 0.0
    requires q <= x / y < q + 1.0
    ensures y > 0.0 ==> 0.0 <= x - y * q < y
    ensures y < 0.0 ==> y < x - y * q <= 0.0
  {
    var t := x / y;
    assert x == y * t;
    if y > 0.0 {
      PositiveProduct(y, t - q);
      PositiveProduct(y, q + 1.0 - t);
      assert y * (q + 1.0 - t) == y * q + y - x;
    } else {
      NegativeRemainder(x, y, q);
    }
  }

  lemma NegativeRemainder(x: real, y: real, q: real)
    requires y < 0.0
    requires q <= x / y < q + 1.0
    ensures y < x - y * q <= 0.0
  {
    var t := x / y;
    var a := 0.0 - y;
    assert x == y * t;
    var b := q + 1.0 - t;
    PositiveProduct(a, b);
    var prod := a * b;
    assert prod > 0.0;
    assert prod == a * q + a - a * t;
    assert a * q == -(y * q);
    assert a * t == -x;
    PositiveProduct(a, t - q);
  }

  /** The product of a positive and a non-negative (positive) number is non-negative (positive). */
  lemma PositiveProduct(a: real, b: real)
    requires a > 0.0
    ensures b >= 0.0 ==> a * b >= 0.0
    ensures b > 0.0 ==> a * b > 0.0
  {
  }

  /** Python `int(x)` on a float: truncation toward zero. */
  function Trunc(x: real): (n: int)
    ensures x >= 0.0 ==> 0 <= n && n as real <= x < n as real + 1.0
    ensures x < 0.0 ==> n <= 0 && n as real - 1.0 < x <= n as real
  {
    if x >= 0.0 then x.Floor else -((-x).Floor)
  }

  /** Truncation and flooring agree exactly on the non-negative and the whole numbers. */
  lemma TruncIsFloorIff(x: real)
    ensures Trunc(x) == x.Floor <==> x >= 0.0 || IsWhole(x)
  {
  }
}
