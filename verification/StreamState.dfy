// What every reachable stream satisfies, and what that buys: the accrual
// functions never fail and equal their closed form.
module StreamState {
  import opened Prelude
  import opened Types
  import opened Arith
  import opened Accrual
  import opened Curves

  /** The vested amount in closed form. */
  function Amount(s: Stream, now: U64): int
    requires s.deposited >= 0
  {
    if CliffReached(s, now) then Released(s.curve, s.deposited, Elapsed(s, now), Duration(s)) else 0
  }

  /** The guards of creation, which top-ups re-establish. */
  predicate Funded(s: Stream) {
    && s.startTime < s.endTime
    && s.startTime <= s.cliffTime <= s.endTime
    && Duration(s) <= s.deposited
    && s.deposited * Duration(s) <= I128_MAX
  }

  /** A cancelled schedule: nothing vested, or everything vested and the clock past the end. */
  predicate Settled(s: Stream, now: U64) {
    || s.deposited == 0
    || (CliffReached(s, now) && StreamTime(s, now) >= s.endTime)
  }

  /** The invariant of one stream at time `now`, kept by every entry point without exception. */
  predicate Shape(s: Stream, now: U64) {
    && 0 <= s.withdrawn && 0 <= s.deposited
    && s.startTime <= s.endTime
    && s.pausedTotal <= now
    && (s.pausedAt.Some? <==> s.status == Paused)
    && (s.status == Paused ==> s.pausedTotal <= s.pausedAt.value <= now)
    && (if s.status == Cancelled then Settled(s, now) else Funded(s))
    && (!s.status.IsTerminal() ==> s.withdrawn < s.deposited)
    && (s.status == Depleted ==> s.withdrawn == s.deposited == Amount(s, now))
  }

  /** I1's upper half: nothing was paid that has not vested. */
  predicate Covered(s: Stream, now: U64)
    requires s.deposited >= 0
  {
    s.withdrawn <= Amount(s, now)
  }

  // ---- The clock -------------------------------------------------------

  /** The stream clock of a reachable stream is an exact difference: it never saturates. */
  lemma ClockIsExact(s: Stream, now: U64)
    requires Shape(s, now)
    ensures StreamTime(s, now) == (if s.status == Paused then s.pausedAt.value else now) - s.pausedTotal
  {
  }

  lemma ClockRises(s: Stream, t1: U64, t2: U64)
    requires t1 <= t2
    ensures StreamTime(s, t1) <= StreamTime(s, t2)
    ensures Elapsed(s, t1) <= Elapsed(s, t2)
    ensures CliffReached(s, t1) ==> CliffReached(s, t2)
  {
  }

  // ---- Vested ----------------------------------------------------------

  lemma AmountInRange(s: Stream, now: U64)
    requires s.deposited >= 0
    ensures 0 <= Amount(s, now) <= s.deposited
  {
    ReleasedInRange(s.curve, s.deposited, Elapsed(s, now), Duration(s));
  }

  /** I2: for a fixed state, vested never decreases in time. */
  lemma AmountRisesInTime(s: Stream, t1: U64, t2: U64)
    requires s.deposited >= 0 && t1 <= t2
    ensures Amount(s, t1) <= Amount(s, t2)
  {
    ClockRises(s, t1, t2);
    AmountInRange(s, t2);
    ReleasedRisesInTime(s.curve, s.deposited, Elapsed(s, t1), Elapsed(s, t2), Duration(s));
  }

  /** A terminal stream vests exactly its deposit, now and at every later time. */
  lemma TerminalIsFullyVested(s: Stream, now: U64, t: U64)
    requires Shape(s, now) && s.status.IsTerminal() && now <= t
    ensures Amount(s, t) == s.deposited
  {
    AmountInRange(s, t);
    if s.status == Depleted {
      AmountRisesInTime(s, now, t);
    } else if s.deposited > 0 {
      ClockRises(s, now, t);
    }
  }

  lemma ShapePersists(s: Stream, t1: U64, t2: U64)
    requires Shape(s, t1) && t1 <= t2
    ensures Shape(s, t2)
    ensures Covered(s, t1) ==> Covered(s, t2)
  {
    AmountRisesInTime(s, t1, t2);
    ClockRises(s, t1, t2);
    if s.status.IsTerminal() {
      TerminalIsFullyVested(s, t1, t2);
    }
  }

  /** Before the end, the product inside `vested_linear` stays below the creation guard. */
  lemma LinearNeverOverflows(D: I128, c: U64, d: U64)
    requires 0 <= D && c < d && D * d <= I128_MAX
    ensures VestedLinear(D, c, d) == Ok(D * c / d)
  {
    MulMono(c, d, D);
    MulMono(0, D, c);
    ReleasedInRange(Linear, D, c, d);
  }

  /** The counted, split arithmetic of `vested_step` is one floor division. */
  lemma StepIsReleased(D: I128, c: U64, d: U64)
    requires 0 <= D && c < d
    ensures VestedStep(D, c, d) == Released(Step, D, c, d)
    ensures ShareFits(D, Opened(c, d, 3), 4) && 3 * d <= U128_MAX
  {
    ShareNeverOverflows(D, Opened(c, d, 3), 4);
    CountIsQuotient(c, d, 3);
    FloorAtLeast(4, 4 * c, d);
  }

  /** So is the grid arithmetic of `vested_front_loaded`, computed without leaving `i128`. */
  lemma FrontLoadedIsReleased(D: I128, c: U64, d: U64)
    requires 0 <= D && c < d
    ensures VestedFrontLoaded(D, c, d) == Released(FrontLoaded, D, c, d)
    ensures 1000 * c <= U128_MAX && GridPoint(c, d) <= 1000 && 0 <= Grid(GridPoint(c, d)) <= 1000
    ensures ShareFits(D, Grid(GridPoint(c, d)), 1000)
  {
    GridInRange(GridPoint(c, d));
    ShareNeverOverflows(D, Grid(GridPoint(c, d)), 1000);
  }

  /** `vested` on a reachable stream: no error, and the closed form. */
  lemma VestedIsAmount(s: Stream, now: U64)
    requires Shape(s, now)
    ensures 0 <= Amount(s, now) <= s.deposited
    ensures Vested(s, now) == Ok(Amount(s, now))
  {
    AmountInRange(s, now);
    var c, d := Elapsed(s, now), Duration(s);
    if CliffReached(s, now) && c < d {
      if s.curve == Linear {
        MulMono(0, d, s.deposited);
        LinearNeverOverflows(if s.status == Cancelled then 0 else s.deposited, c, d);
      } else if s.curve == Step {
        StepIsReleased(s.deposited, c, d);
      } else {
        FrontLoadedIsReleased(s.deposited, c, d);
      }
    }
  }

  /**
   * `vested` from the stored fields alone: nothing before the gate or the start,
   * everything from the end on, and the curve in between, on a clock that stands
   * still while paused.
   */
  lemma VestedFromFields(s: Stream, now: U64)
    requires Shape(s, now) && s.status != Cancelled
    ensures var clock: int := (if s.status == Paused then s.pausedAt.value else now) - s.pausedTotal;
            var open := if s.cliffMode == Schedule then clock >= s.cliffTime else now >= s.cliffTime;
            Vested(s, now) == Ok(
              if !open then 0
              else if clock >= s.endTime then s.deposited
              else if clock <= s.startTime then 0
              else Released(s.curve, s.deposited, clock - s.startTime, s.endTime - s.startTime))
  {
    ClockIsExact(s, now);
    VestedIsAmount(s, now);
    ReleasedEndpoints(s.curve, s.deposited, 0, Duration(s));
  }

  /** The other readings never fail either; conservation (I4) is exact. */
  lemma ReadingsNeverFail(s: Stream, now: U64)
    requires Shape(s, now)
    ensures Withdrawable(s, now) == Ok(Max(0, Amount(s, now) - s.withdrawn))
    ensures Refundable(s, now) == Ok(s.deposited - Amount(s, now))
    ensures Liability(s) == Ok(s.deposited - s.withdrawn)
  {
    VestedIsAmount(s, now);
  }
}
