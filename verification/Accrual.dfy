// `accrual.rs`: what is vested at an instant, with every overflow branch.
module Accrual {
  import opened Prelude
  import opened Types
  import opened Arith

  function StreamTime(s: Stream, now: U64): U64 {
    var frozenAt := match s.pausedAt case Some(t) => t case None => now;
    SaturatingU64(frozenAt - s.pausedTotal)
  }

  function Duration(s: Stream): U64 {
    SaturatingU64(s.endTime - s.startTime)
  }

  function Elapsed(s: Stream, now: U64): U64 {
    var clock := StreamTime(s, now);
    var capped := if clock > s.endTime then s.endTime else clock;
    SaturatingU64(capped - s.startTime)
  }

  predicate CliffReached(s: Stream, now: U64) {
    match s.cliffMode
    case Schedule => StreamTime(s, now) >= s.cliffTime
    case WallClock => now >= s.cliffTime
  }

  function Vested(s: Stream, now: U64): Result<I128> {
    if !CliffReached(s, now) then
      Ok(0)
    else
      var total := Duration(s);
      if total == 0 then
        Ok(s.deposited)
      else
        var consumed := Elapsed(s, now);
        if consumed >= total then
          Ok(s.deposited)
        else
          match s.curve
          case Linear => VestedLinear(s.deposited, consumed, total)
          case Step => Ok(VestedStep(s.deposited, consumed, total))
          case FrontLoaded => Ok(VestedFrontLoaded(s.deposited, consumed, total))
  }

  function VestedLinear(deposited: I128, consumed: U64, total: U64): Result<I128> {
    var numerator :- CheckedI128(deposited * consumed);
    if total == 0 then
      Err(Overflow)
    else
      var raw :- CheckedI128(TruncDiv(numerator, total));
      Ok(if raw > deposited then deposited else raw)
  }

  /** `ceil(k * total / 4)`: the consumed seconds at which tranche `k` opens. */
  function Threshold(total: nat, k: nat): nat {
    (total * k + 3) / 4
  }

  /** How many of the first `k` tranches are open. */
  function Opened(consumed: nat, total: nat, k: nat): (n: nat)
    ensures n <= k
  {
    if k == 0 then 0
    else Opened(consumed, total, k - 1) + if consumed >= Threshold(total, k) then 1 else 0
  }

  /** A share `k / m` of `x`, split so that no product leaves the range of `x`. */
  function Share(x: I128, k: nat, m: nat): (r: I128)
    requires 0 < m <= 1000 && k <= m
    ensures x >= 0 ==> r == x * k / m && 0 <= r <= x
  {
    ShareInRange(x, k, m);
    ShareNeverOverflows(x, k, m);
    var whole: I128 := TruncDiv(x, m) * k;
    var part: I128 := TruncRem(x, m) * k;
    whole + TruncDiv(part, m)
  }

  /** Both products of the split stay in `i128`, for every deposit. */
  predicate ShareFits(x: I128, k: nat, m: nat)
    requires 0 < m
  {
    && I128_MIN <= TruncDiv(x, m) * k <= I128_MAX
    && I128_MIN <= TruncRem(x, m) * k <= I128_MAX
  }

  lemma ShareNeverOverflows(x: I128, k: nat, m: nat)
    requires 0 < m <= 1000 && k <= m
    ensures ShareFits(x, k, m)
  {
    var i: int := x;
    var y := if i >= 0 then i else -i;
    SplitStaysBelow(y, k, m);
    TruncatedProducts(y, k, m);
    if x >= 0 {
      assert TruncDiv(x, m) * k == y / m * k && TruncRem(x, m) * k == y % m * k;
    } else {
      assert TruncDiv(x, m) * k == -(y / m * k) && TruncRem(x, m) * k == -(y % m * k);
    }
  }

  lemma SplitStaysBelow(y: nat, k: nat, m: nat)
    requires 0 < m <= 1000 && k <= m
    ensures 0 <= y / m * k <= y && 0 <= y % m * k <= 1_000_000
  {
    FloorBounds(y, m);
    FloorAtLeast(0, y, m);
    MulMono(k, m, y / m);
    MulMono(0, k, y / m);
    MulMono(k, 1000, y % m);
    MulMono(0, k, y % m);
  }

  lemma ShareInRange(x: int, k: nat, m: nat)
    requires 0 < m && k <= m
    ensures var r := TruncDiv(x, m) * k + TruncDiv(TruncRem(x, m) * k, m);
            (x >= 0 ==> r == x * k / m && 0 <= r <= x) && (x < 0 ==> x <= r <= 0)
  {
    var y := if x >= 0 then x else -x;
    var whole, part := y / m * k, y % m * k / m;
    PositiveShare(y, k, m);
    TruncatedProducts(y, k, m);
    if x >= 0 {
      assert TruncDiv(x, m) * k == whole && TruncDiv(TruncRem(x, m) * k, m) == part;
    } else {
      assert TruncDiv(x, m) * k == -whole && TruncDiv(TruncRem(x, m) * k, m) == -part;
    }
  }

  lemma PositiveShare(x: nat, k: nat, m: nat)
    requires 0 < m && k <= m
    ensures x / m * k + x % m * k / m == x * k / m && 0 <= x * k / m <= x
  {
    SplitProduct(x, k, m);
    MulMono(k, m, x);
    FloorMono(x * k, x * m, m);
    FloorAtLeast(x, x * m, m);
    FloorAtLeast(x + 1, x * m, m);
    FloorAtLeast(0, x * k, m);
  }

  lemma TruncatedProducts(x: int, k: nat, m: nat)
    requires 0 < m && 0 <= x
    ensures TruncRem(x, m) == x % m && 0 <= x % m * k
    ensures TruncDiv(-x, m) * k == -(x / m * k)
    ensures TruncRem(-x, m) * k == -(x % m * k)
    ensures TruncDiv(TruncRem(-x, m) * k, m) == -(x % m * k / m)
  {
    assert TruncDiv(-x, m) == -(x / m);
    var r := x % m;
    assert TruncRem(-x, m) == -r;
    assert -r * k == -(r * k);
    MulMono(0, r, k);
  }

  function VestedStep(deposited: I128, consumed: U64, total: U64): I128 {
    Share(deposited, Opened(consumed, total, 3), 4)
  }

  /** The counting loop of `vested_step`. */
  method VestedStepLoop(deposited: I128, consumed: U64, total: U64) returns (r: I128)
    ensures r == VestedStep(deposited, consumed, total)
    ensures ShareFits(deposited, Opened(consumed, total, 3), 4)
  {
    var tranches := 0;
    for k := 1 to 4
      invariant tranches == Opened(consumed, total, k - 1)
    {
      var product: U128 := total * k;
      var threshold := (product + 3) / 4;
      if consumed >= threshold {
        tranches := tranches + 1;
      }
    }
    ShareInRange(deposited, tranches, 4);
    ShareNeverOverflows(deposited, tranches, 4);
    var whole: I128, rem: I128 := TruncDiv(deposited, 4), TruncRem(deposited, 4);
    var most: I128 := whole * tranches;
    var part: I128 := rem * tranches;
    r := most + TruncDiv(part, 4);
  }

  /** `2u - u^2` on the thousandth grid. */
  function Grid(u: nat): int {
    2 * u - u * u / 1000
  }

  lemma {:induction false} GridRises(u: nat, v: nat)
    requires u <= v <= 1000
    ensures Grid(u) <= Grid(v)
    decreases v - u
  {
    if u < v {
      FloorMono((u + 1) * (u + 1), u * u + 2000, 1000);
      GridRises(u + 1, v);
    }
  }

  lemma GridInRange(u: nat)
    requires u <= 1000
    ensures 0 <= Grid(u) <= 1000
  {
    GridRises(0, u);
    GridRises(u, 1000);
  }

  function GridPoint(consumed: U64, total: U64): (u: nat)
    requires consumed < total
    ensures u <= 1000
  {
    FloorFractions(consumed * 1000, total, 1000, 1);
    consumed * 1000 / total
  }

  function VestedFrontLoaded(deposited: I128, consumed: U64, total: U64): I128
    requires consumed < total
  {
    var u := GridPoint(consumed, total);
    GridInRange(u);
    Share(deposited, Grid(u), 1000)
  }

  function Withdrawable(s: Stream, now: U64): Result<I128> {
    var earned :- Vested(s, now);
    var available :- CheckedI128(earned - s.withdrawn);
    Ok(if available < 0 then 0 else available)
  }

  function Refundable(s: Stream, now: U64): Result<I128> {
    var earned :- Vested(s, now);
    CheckedI128(s.deposited - earned)
  }

  function Liability(s: Stream): Result<I128> {
    CheckedI128(s.deposited - s.withdrawn)
  }
}
