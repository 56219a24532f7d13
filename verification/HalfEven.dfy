/** Rounding to the nearest integer with ties to even: what Python's `round` does to an exact `Fraction`. */
module HalfEven {

  /** The nearest integer; of two equally near ones, the even one. */
  function Round(x: real): (n: int)
    ensures x - 0.5 <= n as real <= x + 0.5
    ensures n as real == x + 0.5 || n as real == x - 0.5 ==> n % 2 == 0
  {
    var low := x.Floor;
    var rest := x - low as real;
    if rest < 0.5 then low
    else if rest > 0.5 then low + 1
    else if low % 2 == 0 then low
    else low + 1
  }

  /** Any integer strictly closer than one half is the rounding result. */
  lemma RoundUnique(x: real, n: int)
    requires x - 0.5 < n as real < x + 0.5
    ensures Round(x) == n
  {
  }

  /** The rounded product: seconds times a rate, as a whole number of ticks or samples. */
  function RoundProduct(x: real, r: real): int {
    Round(x * r)
  }

  lemma RoundProductIs(x: real, r: real, z: real)
    requires x * r == z
    ensures RoundProduct(x, r) == Round(z)
  {
  }

  lemma RoundMonotone(x: real, y: real)
    requires x <= y
    ensures Round(x) <= Round(y)
  {
  }

  lemma DivideBound(e: real, bound: real, a: real)
    requires a > 0.0 && -bound <= e <= bound
    ensures -(bound / a) <= e / a <= bound / a
  {
    assert e / a * a == e && bound / a * a == bound;
  }

  /** A grid point m nearest to n * a determines n again when the target grid is at least as fine. */
  lemma {:induction false} NearestOnFinerGrid(m: int, n: int, a: real)
    requires a >= 1.0
    requires n as real * a - 0.5 <= m as real <= n as real * a + 0.5
    ensures Round(m as real / a) == n
  {
    var e := m as real - n as real * a;
    assert m as real / a == n as real + e / a;
    DivideBound(e, 0.5, a);
    if a > 1.0 {
      assert 0.5 / a < 0.5 by { assert 0.5 / a * a == 0.5; }
      RoundUnique(m as real / a, n);
    } else {
      assert m == n;
    }
  }
}
