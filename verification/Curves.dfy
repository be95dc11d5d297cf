// The three release curves in closed form, and the shape each one promises.
module Curves {
  import opened Prelude
  import opened Types
  import opened Arith
  import opened Accrual

  /** What a curve has released of deposit `D` after `c` of `d` seconds. */
  function Released(curve: ReleaseCurve, D: nat, c: nat, d: nat): int {
    if c >= d then D
    else match curve
      case Linear => D * c / d
      case Step => D * (4 * c / d) / 4
      case FrontLoaded => D * Grid(1000 * c / d) / 1000
  }

  /** The fraction `num / den` of the deposit released strictly before the end. */
  function Fraction(curve: ReleaseCurve, c: nat, d: nat): (f: (int, int))
    requires c < d
  {
    match curve
    case Linear => (c, d)
    case Step => (4 * c / d, 4)
    case FrontLoaded => (Grid(1000 * c / d), 1000)
  }

  lemma FractionInRange(curve: ReleaseCurve, c: nat, d: nat)
    requires c < d
    ensures var (num, den) := Fraction(curve, c, d); 0 <= num <= den && 0 < den
  {
    match curve
    case Linear =>
    case Step =>
      FloorAtLeast(0, 4 * c, d);
      FloorAtLeast(4, 4 * c, d);
    case FrontLoaded =>
      FloorAtLeast(0, 1000 * c, d);
      FloorAtLeast(1000, 1000 * c, d);
      GridInRange(1000 * c / d);
  }

  lemma FractionRises(curve: ReleaseCurve, c1: nat, c2: nat, d: nat)
    requires c1 <= c2 < d
    ensures Fraction(curve, c1, d).0 <= Fraction(curve, c2, d).0
  {
    match curve
    case Linear =>
    case Step =>
      FloorMono(4 * c1, 4 * c2, d);
    case FrontLoaded =>
      FloorAtLeast(0, 1000 * c1, d);
      FloorAtLeast(1000, 1000 * c2, d);
      FloorMono(1000 * c1, 1000 * c2, d);
      GridRises(1000 * c1 / d, 1000 * c2 / d);
  }

  // ---- Shape of a curve ------------------------------------------------

  lemma ReleasedInRange(curve: ReleaseCurve, D: nat, c: nat, d: nat)
    ensures 0 <= Released(curve, D, c, d) <= D
  {
    if c < d {
      FractionInRange(curve, c, d);
      var (num, den) := Fraction(curve, c, d);
      PositiveShare(D, num, den);
    }
  }

  lemma ReleasedRisesInTime(curve: ReleaseCurve, D: nat, c1: nat, c2: nat, d: nat)
    requires c1 <= c2
    ensures Released(curve, D, c1, d) <= Released(curve, D, c2, d)
  {
    if c2 < d {
      FractionInRange(curve, c1, d);
      FractionRises(curve, c1, c2, d);
      var (n1, den) := Fraction(curve, c1, d);
      var n2 := Fraction(curve, c2, d).0;
      MulMono(n1, n2, D);
      FloorMono(D * n1, D * n2, den);
    } else {
      ReleasedInRange(curve, D, c1, d);
    }
  }

  lemma ReleasedRisesInDeposit(curve: ReleaseCurve, D1: nat, D2: nat, c: nat, d: nat)
    requires D1 <= D2
    ensures Released(curve, D1, c, d) <= Released(curve, D2, c, d)
  {
    if c < d {
      FractionInRange(curve, c, d);
      var (num, den) := Fraction(curve, c, d);
      MulMono(D1, D2, num);
      FloorMono(D1 * num, D2 * num, den);
    }
  }

  /** Every curve starts at nothing and settles at exactly the deposit. */
  lemma ReleasedEndpoints(curve: ReleaseCurve, D: nat, c: nat, d: nat)
    ensures 0 < d ==> Released(curve, D, 0, d) == 0
    ensures c >= d ==> Released(curve, D, c, d) == D
  {
  }

  /** Linear and Step hold something back until the last second. */
  lemma HeldBackUntilTheEnd(curve: ReleaseCurve, D: nat, c: nat, d: nat)
    requires curve != FrontLoaded && 0 < D
    ensures Released(curve, D, c, d) < D <==> c < d
  {
    if c < d {
      var (num, den) := Fraction(curve, c, d);
      FractionInRange(curve, c, d);
      if curve == Step {
        FloorAtLeast(4, 4 * c, d);
      }
      StrictShare(D, num, den);
    }
  }

  lemma StrictShare(D: nat, num: nat, den: nat)
    requires 0 < D && num < den
    ensures D * num / den < D
  {
    MulMono(num + 1, den, D);
    FloorAtLeast(D, D * num, den);
  }

  /**
   * Before the end, each curve by what it means: linear is the time share of the deposit
   * rounded down; step is one quarter of it for every full quarter of the time; and
   * front-loaded holds back the square of the remaining thousandths, both rounded down.
   */
  lemma CurvesByMeaning(D: nat, c: nat, d: nat)
    requires c < d
    ensures Released(Linear, D, c, d) * d <= D * c < (Released(Linear, D, c, d) + 1) * d
    ensures forall k :: 0 <= k < 4 && k * d <= 4 * c < (k + 1) * d ==> Released(Step, D, c, d) == D * k / 4
    ensures forall u :: 0 <= u < 1000 && u * d <= 1000 * c < (u + 1) * d ==>
              Released(FrontLoaded, D, c, d) == D * (1000 - (1000 - u) * (1000 - u) / 1000) / 1000
  {
    FloorBounds(D * c, d);
    forall k | 0 <= k < 4 && k * d <= 4 * c < (k + 1) * d
      ensures Released(Step, D, c, d) == D * k / 4
    {
      FloorAtLeast(k, 4 * c, d);
      FloorAtLeast(k + 1, 4 * c, d);
    }
    forall u | 0 <= u < 1000 && u * d <= 1000 * c < (u + 1) * d
      ensures Released(FrontLoaded, D, c, d) == D * (1000 - (1000 - u) * (1000 - u) / 1000) / 1000
    {
      FloorAtLeast(u, 1000 * c, d);
      FloorAtLeast(u + 1, 1000 * c, d);
      GridIsSquare(u);
    }
  }

  lemma GridIsSquare(u: nat)
    requires u <= 1000
    ensures Grid(u) == 1000 - (1000 - u) * (1000 - u) / 1000
  {
    assert (1000 - u) * (1000 - u) == u * u + 1000 * (1000 - 2 * u);
    assert (u * u + 1000 * (1000 - 2 * u)) / 1000 == u * u / 1000 + (1000 - 2 * u);
  }

  // ---- Step ------------------------------------------------------------

  /** Tranche `k` opens at `ceil(k * d / 4)` and not one second earlier. */
  lemma TrancheOpensAt(c: nat, d: nat, k: nat)
    requires 0 < d
    ensures c >= Threshold(d, k) <==> k <= 4 * c / d
  {
    FloorAtLeast(k, 4 * c, d);
  }

  /** The counting loop is a division. */
  lemma {:induction false} CountIsQuotient(c: nat, d: nat, k: nat)
    requires 0 < d
    ensures Opened(c, d, k) == Min(k, 4 * c / d)
  {
    FloorAtLeast(0, 4 * c, d);
    if k > 0 {
      CountIsQuotient(c, d, k - 1);
      TrancheOpensAt(c, d, k);
    }
  }

  // ---- FrontLoaded -----------------------------------------------------

  lemma GridAheadOfDiagonal(u: nat)
    requires u < 1000
    ensures u >= 1 ==> u + 1 <= Grid(u)
  {
    if u >= 1 {
      MulMono(u, 999, u);
      FloorAtLeast(u, u * u, 1000);
    }
  }

  /** `types.rs` claims front-loaded is never behind linear; this is exactly when it is not. */
  lemma FrontLoadedAheadOfLinear(D: nat, c: nat, d: nat)
    requires 0 < d
    ensures Released(FrontLoaded, D, c, d) >= Released(Linear, D, c, d)
            <==> 1000 * c >= d || D * c < d
  {
    if c < d {
      FloorAtLeast(1, 1000 * c, d);
      if 1000 * c >= d {
        FrontLoadedAhead(D, c, d);
      } else {
        FloorAtLeast(0, 1000 * c, d);
        assert Grid(1000 * c / d) == 0;
        FloorAtLeast(1, D * c, d);
        FloorAtLeast(0, D * c, d);
      }
    }
  }

  lemma FrontLoadedAhead(D: nat, c: nat, d: nat)
    requires c < d <= 1000 * c
    ensures Released(FrontLoaded, D, c, d) >= Released(Linear, D, c, d)
  {
    var u := 1000 * c / d;
    FloorBounds(1000 * c, d);
    FloorAtLeast(1, 1000 * c, d);
    FloorAtLeast(1000, 1000 * c, d);
    GridAheadOfDiagonal(u);
    MulMono(u + 1, Grid(u), d);
    ScaledFractions(c, d, Grid(u), 1000, D);
  }

  /** Front-loaded is complete from the 969th thousandth on: depletion does not imply maturity. */
  lemma FrontLoadedCompletesEarly(D: nat, c: nat, d: nat)
    requires 0 < D && 0 < d
    ensures Released(FrontLoaded, D, c, d) == D <==> 969 * d <= 1000 * c
  {
    if c < d {
      var u := 1000 * c / d;
      FloorAtLeast(0, 1000 * c, d);
      FloorAtLeast(969, 1000 * c, d);
      FloorAtLeast(1000, 1000 * c, d);
      GridInRange(u);
      if u >= 969 {
        GridRises(969, u);
        assert Grid(u) == 1000;
      } else {
        GridRises(u, 968);
        assert Grid(968) == 999;
        MulMono(Grid(u), 999, D);
        FloorAtLeast(D, D * Grid(u), 1000);
      }
    }
  }

  // ---- Linear under a longer schedule ---------------------------------

  /** A schedule that keeps the rate is ahead of the old one at every instant. */
  lemma RateKeptDominates(D1: nat, d1: nat, D2: nat, d2: nat, c: nat)
    requires 0 < d1 && 0 < d2 && D1 <= D2
    requires D1 * d2 <= D2 * d1
    ensures Released(Linear, D1, c, d1) <= Released(Linear, D2, c, d2)
  {
    if c >= d2 {
      ReleasedInRange(Linear, D1, c, d1);
    } else if c < d1 {
      ScaledFractions(D1, d1, D2, d2, c);
    } else {
      MulMono(d1, c, D2);
      FloorAtLeast(D1, D2 * c, d2);
    }
  }

  /** Up to the old end, lengthening by a floored delta gains at most one second of rate, plus one. */
  lemma GainIsBounded(D: nat, d: nat, a: nat, c: nat)
    requires 0 < D && 0 < d && c <= d
    ensures Released(Linear, D + a, c, d + a * d / D) <= Released(Linear, D, c, d) + D / d + 1
  {
    var delta := a * d / D;
    FloorBounds(a * d, D);
    FloorAtLeast(0, a * d, D);
    FloorBounds(D, d);
    if c < d + delta {
      ReleasedLinearAbove(D, c, d);
      LongerScheduleGain(D, d, a, c, delta, Released(Linear, D, c, d), D / d);
      FloorAtLeast(Released(Linear, D, c, d) + D / d + 2, (D + a) * c, d + delta);
    } else {
      // Only a top-up that buys no second has ended at the old end.
      MulCancel(a, D / d + 1, d);
    }
  }

  lemma ReleasedLinearAbove(D: nat, c: nat, d: nat)
    requires 0 < d && c <= d
    ensures D * c < (Released(Linear, D, c, d) + 1) * d
  {
    FloorBounds(D * c, d);
  }

  lemma LongerScheduleGain(D: nat, d: nat, a: nat, c: nat, delta: nat, v: int, r: int)
    requires 0 < d && c <= d
    requires a * d < delta * D + D
    requires D * c < (v + 1) * d && D < (r + 1) * d
    ensures (D + a) * c < (v + r + 2) * (d + delta)
  {
    var d2 := d + delta;
    LongerScheduleProduct(D, d, a, c, delta);
    StrictProduct(D * c, (v + 1) * d, d2);
    StrictProduct(D, (r + 1) * d, d2);
    GainFactors(v, r, d, d2);
    StrictCancel((D + a) * c, (v + r + 2) * d2, d);
  }

  lemma LongerScheduleProduct(D: nat, d: nat, a: nat, c: nat, delta: nat)
    requires 0 < d && c <= d
    requires a * d < delta * D + D
    ensures (D + a) * c * d <= D * c * (d + delta) + D * (d + delta)
  {
    MulMono(a * d, delta * D + D, c);
    assert (D + a) * c * d == D * c * d + a * d * c by {
      Shuffle(a, d, c);
    }
    assert (delta * D + D) * c == D * c * delta + D * c by {
      Shuffle(delta, D, c);
    }
    MulMono(c, d + delta, D);
  }

  lemma GainFactors(v: int, r: int, d: nat, d2: nat)
    ensures (v + 1) * d * d2 + (r + 1) * d * d2 == (v + r + 2) * d2 * d
  {
    Shuffle(v + 1, d, d2);
    Shuffle(r + 1, d, d2);
    assert ((v + 1) + (r + 1)) * d2 * d == (v + 1) * d2 * d + (r + 1) * d2 * d;
  }
}
