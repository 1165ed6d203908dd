/**
 * Small facts of real arithmetic that the statistics proofs use. Each is
 * stated over its own parameters so that callers can instantiate it with the
 * exact terms of their goals.
 */
module RealArith {

  lemma DivMul(y: real, d: real)
    requires d != 0.0
    ensures (y / d) * d == y
  {
  }

  lemma DivUnique(x: real, y: real, d: real)
    requires d != 0.0
    requires x * d == y
    ensures x == y / d
  {
  }

  lemma MulCongr(x: real, y: real, z: real)
    requires x == y
    ensures x * z == y * z
  {
  }

  lemma Distrib(a: real, b: real, d: real)
    ensures (a + b) * d == a * d + b * d
  {
  }

  /** (k + 1) * m == k * m + m, for a count k. */
  lemma SuccTimes(n: nat, k: nat, m: real)
    requires n == k + 1
    ensures n as real * m == k as real * m + m
  {
    assert n as real == k as real + 1.0;
    Distrib(k as real, 1.0, m);
  }

  /** o / (n - 1) + m == rest / (n - 1) when o + n * m == rest + m. */
  lemma ShiftedQuotient(o: real, s: real, rest: real, m: real, n: nat)
    requires n >= 2
    requires o + n as real * m == s
    requires s == rest + m
    ensures o / (n - 1) as real + m == rest / (n - 1) as real
  {
    var d := (n - 1) as real;
    DivMul(o, d);
    Distrib(o / d, m, d);
    Distrib(d, 1.0, m);
    assert n as real * m == d * m + m;
    DivUnique(o / d + m, rest, d);
  }

  lemma QuotientAtMost(s: real, d: real, hi: real)
    requires d > 0.0
    requires s <= d * hi
    ensures s / d <= hi
  {
    DivMul(s, d);
  }

  lemma QuotientNonNegative(s: real, d: real)
    requires d > 0.0
    ensures 0.0 <= s ==> 0.0 <= s / d
    ensures s / d == 0.0 <==> s == 0.0
  {
  }

  lemma SignOfProduct(x: real, p: real, o: real)
    requires p > 0.0
    requires x * p == o
    requires 0.0 <= o
    ensures 0.0 <= x
    ensures x == 0.0 <==> o == 0.0
  {
  }

  lemma ProductZero(a: real, b: real)
    ensures a * b == 0.0 ==> a == 0.0 || b == 0.0
  {
  }

  /** A square is never negative, and is zero only at zero. */
  lemma SquareZero(v: real)
    ensures 0.0 <= v * v
    ensures v * v == 0.0 ==> v == 0.0
  {
    ProductZero(v, v);
  }

  /**
   * s / n <= o / d + m when o + n * m == s, d == n - 1 and o >= 0, with
   * equality exactly when o == 0.
   */
  lemma MeanBelowShifted(o: real, s: real, m: real, n: real, d: real)
    requires d == n - 1.0 && d > 0.0
    requires o + n * m == s
    requires 0.0 <= o
    ensures s / n <= o / d + m
    ensures o / d + m == s / n <==> o == 0.0
  {
    var c := o / d + m;
    var mean := s / n;
    DivMul(o, d);
    DivMul(s, n);
    assert c * d == o + m * d;
    MulCongr(c * d, o + m * d, n);
    MulCongr(mean * n, s, d);
    assert (c - mean) * (n * d) == o;
    SignOfProduct(c - mean, n * d, o);
  }
}
