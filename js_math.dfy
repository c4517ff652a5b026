/** The parts of JavaScript's `Math` object the calculators use, over exact reals. */
module JsMath {

  /** `Math.pow(x, n)` for a whole, non-negative exponent. */
  function Pow(x: real, n: nat): real
  {
    if n == 0 then 1.0 else x * Pow(x, n - 1)
  }

  /** `Math.round(x)`: the nearest integer, halves rounded up (towards +infinity). */
  function Round(x: real): (r: int)
    ensures r as real - 0.5 <= x < r as real + 0.5
  {
    (x + 0.5).Floor
  }

  /** `Math.min(a, b)` */
  function Min(a: real, b: real): (r: real)
    ensures r <= a && r <= b
    ensures r == a || r == b
  {
    if a <= b then a else b
  }

  /** `Math.max(a, b)` */
  function Max(a: real, b: real): (r: real)
    ensures a <= r && b <= r
    ensures r == a || r == b
  {
    if a <= b then b else a
  }

  /** Rounding never reverses the order of two numbers. */
  lemma RoundMonotone(x: real, y: real)
    requires x <= y
    ensures Round(x) <= Round(y)
  {
    assert Round(x) as real - 0.5 <= x <= y < Round(y) as real + 0.5;
  }

  /** Any power of one is one. */
  lemma {:induction false} PowOne(n: nat)
    ensures Pow(1.0, n) == 1.0
  {
    if n > 0 {
      PowOne(n - 1);
    }
  }

  /** Powers of a base of at least one are at least one, and grow with the exponent. */
  lemma {:induction false} PowAtLeastOne(x: real, n: nat)
    requires x >= 1.0
    ensures Pow(x, n) >= 1.0
    ensures Pow(x, n + 1) >= Pow(x, n)
  {
    if n > 0 {
      PowAtLeastOne(x, n - 1);
    }
    assert Pow(x, n + 1) == x * Pow(x, n);
  }

  /** A base above one raised to a positive exponent is above one. */
  lemma {:induction false} PowAboveOne(x: real, n: nat)
    requires x > 1.0 && n >= 1
    ensures Pow(x, n) > 1.0
  {
    PowAtLeastOne(x, n - 1);
    assert Pow(x, n) == x * Pow(x, n - 1);
  }

  /** Powers of a base in [0, 1) stay in [0, 1], and lie below one from the first power on. */
  lemma {:induction false} PowBelowOne(x: real, n: nat)
    requires 0.0 <= x < 1.0
    ensures 0.0 <= Pow(x, n) <= 1.0
    ensures n >= 1 ==> Pow(x, n) < 1.0
  {
    if n > 0 {
      PowBelowOne(x, n - 1);
      var y := Pow(x, n - 1);
      ProductBelowOne(x, y);
      assert Pow(x, n) == x * y;
      assert 0.0 <= Pow(x, n) < 1.0;
    }
  }

  lemma ProductBelowOne(x: real, y: real)
    requires 0.0 <= x < 1.0 && 0.0 <= y <= 1.0
    ensures 0.0 <= x * y < 1.0
  {
    assert x * y <= x * 1.0;
  }

  /** An even power is the same power of the square. */
  lemma {:induction false} PowSquare(x: real, k: nat)
    ensures Pow(x, 2 * k) == Pow(x * x, k)
  {
    if k > 0 {
      PowSquare(x, k - 1);
      assert Pow(x, 2 * k) == x * (x * Pow(x, 2 * (k - 1)));
    }
  }
}
