/** `Math.round` of a quotient, computed on integers. */
module JsMath {

  /** `Math.round(n / d)` for a positive divisor: the quotient rounded to the
      nearest integer, halves rounded up (towards positive infinity), which
      is `floor(n / d + 1/2)`. */
  function RoundDiv(n: int, d: int): (r: int)
    requires d > 0
    ensures 2 * d * r - d <= 2 * n < 2 * d * r + d
    ensures (r as real) <= (n as real) / (d as real) + 0.5 < (r as real) + 1.0
  {
    var q := (2 * n + d) / (2 * d);
    assert 2 * n + d == 2 * d * q + (2 * n + d) % (2 * d);
    RealBounds(n, d, q);
    q
  }

  lemma {:induction false} RealBounds(n: int, d: int, r: int)
    requires d > 0
    requires 2 * d * r - d <= 2 * n < 2 * d * r + d
    ensures (r as real) <= (n as real) / (d as real) + 0.5 < (r as real) + 1.0
  {
    var D, N, R := d as real, n as real, r as real;
    CastMul(d, r);
    assert 2.0 * (R * D) - D <= 2.0 * N < 2.0 * (R * D) + D;
    ShiftHalf(R, D);
    var x := N / D;
    assert x * D == N;
    MulCancel(R - 0.5, x, D);
    MulCancel(x, R + 0.5, D);
  }

  lemma {:induction false} CastMul(d: int, r: int)
    ensures ((d * r) as real) == (r as real) * (d as real)
  {
  }

  lemma {:induction false} ShiftHalf(R: real, D: real)
    ensures (R - 0.5) * D == R * D - 0.5 * D
    ensures (R + 0.5) * D == R * D + 0.5 * D
  {
  }

  /** Dividing both sides of `a * D <= b * D` by a positive `D`. */
  lemma {:induction false} MulCancel(a: real, b: real, D: real)
    requires D > 0.0
    ensures a * D <= b * D ==> a <= b
    ensures a * D < b * D ==> a < b
  {
    if a > b {
      assert (a - b) * D > 0.0;
    }
  }
}
