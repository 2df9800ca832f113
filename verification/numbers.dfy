/**
 * Order facts about multiplication and Euclidean division, used by the page
 * arithmetic, the countdown and the percentage figures.
 */
module Numbers {

  lemma MulMonotone(a: int, b: int, m: int)
    requires a <= b && m >= 0
    ensures a * m <= b * m
  {
  }

  lemma MulAddOne(a: int, m: int)
    ensures (a + 1) * m == a * m + m
  {
  }

  /** A positive factor can be cancelled from a strict inequality. */
  lemma LessAfterScaling(x: int, y: int, m: int)
    requires m >= 1
    ensures x * m < y * m ==> x < y
  {
    if y <= x {
      MulMonotone(y, x, m);
    }
  }

  /** The quotient by a positive divisor is the one `q` with `q * m <= n < q * m + m`. */
  lemma QuotientWindow(n: int, m: int)
    requires m >= 1
    ensures (n / m) * m <= n < (n / m) * m + m
    ensures n >= 0 ==> n / m >= 0
  {
    var q, r := n / m, n % m;
    assert n == q * m + r && 0 <= r < m;
    MulAddOne(q, m);
    LessAfterScaling(0, q + 1, m);
  }

  /** Euclidean division has one quotient and remainder. */
  lemma DivUnique(n: int, m: int, q: int, r: int)
    requires m >= 1 && 0 <= r < m && n == q * m + r
    ensures n / m == q
  {
    var q0 := n / m;
    QuotientWindow(n, m);
    MulAddOne(q, m);
    MulAddOne(q0, m);
    LessAfterScaling(q0, q + 1, m);
    LessAfterScaling(q, q0 + 1, m);
  }

  /** Dividing by a positive divisor keeps the order. */
  lemma DivMonotone(a: int, b: int, m: int)
    requires a <= b && m >= 1
    ensures a / m <= b / m
  {
    QuotientWindow(a, m);
    QuotientWindow(b, m);
    MulAddOne(b / m, m);
    LessAfterScaling(a / m, b / m + 1, m);
  }

  /** Scaling both sides by a positive factor keeps their order, in both directions. */
  lemma ScaleKeepsOrder(x: real, y: real, g: real)
    requires g > 0.0
    ensures x <= y <==> x * g <= y * g
  {
    assert (y - x) * g == y * g - x * g;
    if x <= y {
      assert (y - x) * g >= 0.0;
    } else {
      assert (x - y) * g > 0.0;
    }
  }

  /** A positive factor can be cancelled from both sides of an equation. */
  lemma ScaleCancels(x: real, y: real, g: real)
    requires g > 0.0
    ensures x == y <==> x * g == y * g
  {
    ScaleKeepsOrder(x, y, g);
    ScaleKeepsOrder(y, x, g);
  }
}
