// Floor-division facts the accrual proofs rest on, each small enough for the
// solver to find unaided or in one multiplication.
module Arith {

  lemma MulMono(a: int, b: int, k: int)
    requires a <= b && 0 <= k
    ensures a * k <= b * k && k * a <= k * b
  {
  }

  lemma MulCancel(a: int, b: int, k: int)
    requires 0 < k && a * k <= b * k
    ensures a <= b
  {
  }

  lemma StrictProduct(a: int, b: int, k: int)
    requires a < b && 0 < k
    ensures a * k < b * k
  {
  }

  lemma StrictCancel(a: int, b: int, k: int)
    requires 0 < k && a * k < b * k
    ensures a < b
  {
    if b <= a {
      MulMono(b, a, k);
    }
  }

  lemma FloorBounds(a: int, d: int)
    requires 0 < d
    ensures a / d * d <= a < a / d * d + d
  {
  }

  lemma FloorAtLeast(q: int, a: int, d: int)
    requires 0 < d
    ensures q <= a / d <==> q * d <= a
  {
    FloorBounds(a, d);
    if q <= a / d {
      MulMono(q, a / d, d);
    } else {
      MulMono(a / d + 1, q, d);
    }
  }

  lemma FloorMono(a: int, b: int, d: int)
    requires a <= b && 0 < d
    ensures a / d <= b / d
  {
    FloorBounds(a, d);
    FloorAtLeast(a / d, b, d);
  }

  /** Cross-multiplied fractions keep their order under the floor. */
  lemma FloorFractions(a: int, b: int, c: int, d: int)
    requires 0 < b && 0 < d
    requires a * d <= c * b
    ensures a / b <= c / d
  {
    var q := a / b;
    FloorBounds(a, b);
    MulMono(q * b, a, d);
    assert q * d * b == q * b * d;
    MulCancel(q * d, c, b);
    FloorAtLeast(q, c, d);
  }

  lemma Shuffle(a: int, b: int, c: int)
    ensures a * b * c == a * c * b && a * b * c == b * c * a
  {
  }

  /** The same, with both fractions scaled by one factor. */
  lemma ScaledFractions(a: int, b: int, c: int, d: int, k: int)
    requires 0 < b && 0 < d && 0 <= k
    requires a * d <= c * b
    ensures k * a / b <= k * c / d
  {
    MulMono(a * d, c * b, k);
    Shuffle(a, d, k);
    Shuffle(c, b, k);
    FloorFractions(k * a, b, k * c, d);
  }

  /** `floor(D * k / m)` computed without the big product. */
  lemma SplitProduct(D: int, k: int, m: int)
    requires 0 < m
    ensures D / m * k + D % m * k / m == D * k / m
  {
    var w, r := D / m, D % m;
    assert D == w * m + r;
    assert D * k == w * k * m + r * k;
    FloorBounds(r * k, m);
    var q := w * k + r * k / m;
    assert q * m == w * k * m + r * k / m * m;
    FloorAtLeast(q, D * k, m);
    assert (q + 1) * m == q * m + m;
    FloorAtLeast(q + 1, D * k, m);
  }
}
