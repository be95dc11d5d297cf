// What `top_up` promises beyond the invariant: how much it may accelerate, how
// it composes, and where the delegated form departs from it.
module TopUps {
  import opened Prelude
  import opened Types
  import opened Arith
  import opened Accrual
  import opened Curves
  import opened StreamState
  import opened StreamOps
  import opened StreamLaws

  /** A direct top-up is refused only for these reasons: its rate and vested guards never fire. */
  lemma TopUpErrors(s: Stream, amount: I128, now: U64)
    requires Shape(s, now) && TopUpStream(s, amount, now).Err?
    ensures TopUpStream(s, amount, now).error
            in {StreamTerminated, InvalidAmount, StreamMatured, TopUpTooSmall, Overflow}
  {
    if !s.status.IsTerminal() && amount > 0 && TopUpDurationDelta(s, amount).Ok? {
      TopUpDelta(s, amount);
      var delta := TopUpDurationDelta(s, amount).value;
      ExtensionKeepsRate(s.deposited, Duration(s), amount, delta);
      if Extended(s, amount, delta).Ok? {
        ExtensionSound(s, amount, delta, now, 0);
        TopUpDominates(s, amount, delta, now);
        VestedIsAmount(s, now);
        VestedIsAmount(Extended(s, amount, delta).value, now);
      }
    }
  }

  /** At every present and future instant, on every curve, vested is at least what it was. */
  lemma TopUpNeverLowersVested(s: Stream, amount: I128, now: U64, t: U64)
    requires Shape(s, now) && TopUpStream(s, amount, now).Ok? && now <= t
    ensures var s' := TopUpStream(s, amount, now).value;
            Vested(s, t).Ok? && Vested(s', t).Ok? && Vested(s, t).value <= Vested(s', t).value
  {
    TopUpSound(s, amount, now, 0);
    TopUpDelta(s, amount);
    TopUpDominates(s, amount, TopUpDurationDelta(s, amount).value, t);
    var s' := TopUpStream(s, amount, now).value;
    ShapePersists(s, now, t);
    ShapePersists(s', now, t);
    VestedIsAmount(s, t);
    VestedIsAmount(s', t);
  }

  lemma LinearTopUpFigures(s: Stream, amount: I128, now: U64)
    requires Shape(s, now) && s.curve == Linear && TopUpStream(s, amount, now).Ok?
    ensures 0 < amount && 0 < Duration(s) <= s.deposited
    ensures var s' := TopUpStream(s, amount, now).value;
            var delta := amount * Duration(s) / s.deposited;
            && s' == s.(deposited := s.deposited + amount, endTime := s.endTime + delta)
            && Duration(s') == Duration(s) + delta && 0 < delta
            && delta * s.deposited <= amount * Duration(s)
  {
    LinearDeltaIsFloor(s, amount);
    ExtendedFigures(s, amount, LinearDelta(s, amount).value);
    FloorBounds(amount * Duration(s), s.deposited);
  }

  /** On a linear stream, up to the old end, the gain is at most one second of rate, plus one. */
  lemma TopUpNeverAccelerates(s: Stream, amount: I128, now: U64, t: U64)
    requires Shape(s, now) && s.curve == Linear && TopUpStream(s, amount, now).Ok?
    requires StreamTime(s, t) <= s.endTime
    ensures Amount(TopUpStream(s, amount, now).value, t) <= Amount(s, t) + s.deposited / Duration(s) + 1
  {
    hide TopUpStream, Amount;
    LinearTopUpFigures(s, amount, now);
    LinearGain(s, TopUpStream(s, amount, now).value, amount, t);
  }

  lemma LinearGain(s: Stream, s': Stream, amount: I128, t: U64)
    requires 0 < amount && 0 < Duration(s) <= s.deposited && s.curve == Linear
    requires s' == s.(deposited := s'.deposited, endTime := s'.endTime)
    requires s'.deposited == s.deposited + amount && Duration(s') == Duration(s) + amount * Duration(s) / s.deposited
    requires StreamTime(s, t) <= s.endTime <= s'.endTime
    ensures Amount(s', t) <= Amount(s, t) + s.deposited / Duration(s) + 1
  {
    hide Released;
    GainIsBounded(s.deposited, Duration(s), amount, Elapsed(s, t));
    FloorAtLeast(0, s.deposited, Duration(s));
    assert Elapsed(s', t) == Elapsed(s, t) && CliffReached(s', t) == CliffReached(s, t);
  }

  // ---- Splitting a top-up ---------------------------------------------

  /** A list of top-ups, each at its own instant, in order. */
  function TopUpAll(s: Stream, ups: seq<(U64, I128)>): Result<Stream> {
    if |ups| == 0 then Ok(s)
    else
      var s1 :- TopUpAll(s, ups[..|ups| - 1]);
      var (now, amount) := ups[|ups| - 1];
      TopUpStream(s1, amount, now)
  }

  function SumOf(ups: seq<(U64, I128)>): int {
    if |ups| == 0 then 0 else SumOf(ups[..|ups| - 1]) + ups[|ups| - 1].1
  }

  predicate InTime(ups: seq<(U64, I128)>, from: U64) {
    && (forall i :: 0 <= i < |ups| ==> from <= ups[i].0)
    && (forall i, j :: 0 <= i < j < |ups| ==> ups[i].0 <= ups[j].0)
  }

  /** However many top-ups, at whatever instants: the deposits add up and the rate never drops. */
  lemma {:induction false} TopUpsKeepRate(s: Stream, from: U64, ups: seq<(U64, I128)>)
    requires Shape(s, from) && s.curve == Linear && InTime(ups, from) && TopUpAll(s, ups).Ok?
    ensures var s' := TopUpAll(s, ups).value;
            && Shape(s', if |ups| == 0 then from else ups[|ups| - 1].0)
            && s' == s.(deposited := s'.deposited, endTime := s'.endTime)
            && s'.deposited == s.deposited + SumOf(ups)
            && 0 <= SumOf(ups) && s.endTime <= s'.endTime
            && s.deposited * Duration(s') <= s'.deposited * Duration(s)
  {
    hide TopUpStream;
    if |ups| > 0 {
      var before := ups[..|ups| - 1];
      var (now, amount) := ups[|ups| - 1];
      TopUpsKeepRate(s, from, before);
      var s1 := TopUpAll(s, before).value;
      ShapePersists(s1, if |before| == 0 then from else before[|before| - 1].0, now);
      LinearTopUpFigures(s1, amount, now);
      TopUpSound(s1, amount, now, 0);
      var s' := TopUpStream(s1, amount, now).value;
      RateTransitive(s.deposited, Duration(s), s1.deposited, Duration(s1), s'.deposited, Duration(s'));
    }
  }

  /**
   * Any top-ups at non-decreasing instants end no later than one of their total,
   * whenever that is made, with the same deposit, and vest at least as much at every instant.
   */
  lemma SplittingDominates(s: Stream, from: U64, ups: seq<(U64, I128)>, total: I128, at: U64, t: U64)
    requires Shape(s, from) && s.curve == Linear && InTime(ups, from) && from <= at && total == SumOf(ups)
    requires TopUpAll(s, ups).Ok? && TopUpStream(s, total, at).Ok?
    ensures var split, once := TopUpAll(s, ups).value, TopUpStream(s, total, at).value;
            && split.deposited == once.deposited && split.endTime <= once.endTime
            && Amount(once, t) <= Amount(split, t)
  {
    hide TopUpStream, TopUpAll, Amount;
    TopUpsKeepRate(s, from, ups);
    ShapePersists(s, from, at);
    LinearTopUpFigures(s, total, at);
    RateBoundsEnd(s.deposited, Duration(s), total, Duration(TopUpAll(s, ups).value));
    ShorterEndDominates(TopUpStream(s, total, at).value, TopUpAll(s, ups).value, t);
  }

  /** A duration that keeps the rate is at most the floored extension. */
  lemma RateBoundsEnd(D: nat, d: nat, a: nat, d': nat)
    requires 0 < D && D * d' <= (D + a) * d
    ensures d' <= d + a * d / D
  {
    assert (d' - d) * D <= a * d;
    if d <= d' {
      FloorAtLeast(d' - d, a * d, D);
    } else {
      FloorAtLeast(0, a * d, D);
    }
  }

  /** Of two linear streams that differ only in their end, the shorter one is ahead. */
  lemma ShorterEndDominates(long: Stream, short: Stream, t: U64)
    requires 0 < short.deposited && short.curve == Linear && short.startTime < short.endTime <= long.endTime
    requires long == short.(endTime := long.endTime)
    ensures Amount(long, t) <= Amount(short, t)
  {
    var D, d1, d2 := short.deposited, Duration(short), Duration(long);
    MulMono(d1, d2, D);
    RateKeptDominates(D, d2, D, d1, Elapsed(short, t));
    assert Elapsed(short, t) == Min(Elapsed(long, t), d1);
    if Elapsed(long, t) >= d1 {
      ReleasedInRange(Linear, D, Elapsed(long, t), d2);
    }
  }

  /** The second of two equal top-ups extends by exactly the same seconds as the first. */
  lemma SecondDeltaIsSame(D: nat, d: nat, a: nat)
    requires 0 < D
    ensures a * (d + a * d / D) / (D + a) == a * d / D
  {
    var q, r := a * d / D, a * d % D;
    FloorBounds(a * d, D);
    assert a * (d + q) == a * d + a * q;
    assert q * (D + a) == q * D + a * q;
    FloorAtLeast(q, a * (d + q), D + a);
    assert (q + 1) * (D + a) == q * (D + a) + D + a;
    FloorAtLeast(q + 1, a * (d + q), D + a);
  }

  lemma DoubleFloor(D: nat, x: nat)
    requires 0 < D
    ensures 2 * x / D == 2 * (x / D) + if 2 * (x % D) < D then 0 else 1
  {
    var q, r := x / D, x % D;
    assert x == q * D + r;
    var k := 2 * q + if 2 * r < D then 0 else 1;
    assert k * D == 2 * (q * D) + if 2 * r < D then 0 else D;
    FloorAtLeast(k, 2 * x, D);
    assert (k + 1) * D == k * D + D;
    FloorAtLeast(k + 1, 2 * x, D);
  }

  lemma DelegatedFigures(s: Stream, amount: I128, now: U64, s': Stream) returns (delta: int)
    requires Shape(s, now) && DelegateTopUpStream(s, amount, now) == Ok(s')
    ensures 0 < s.deposited && 0 < amount && delta == amount * Duration(s) / s.deposited
    ensures s' == s.(deposited := s'.deposited, endTime := s'.endTime)
    ensures s'.deposited == s.deposited + amount && s'.endTime == s.endTime + delta
    ensures Duration(s') == Duration(s) + delta
  {
    LinearDeltaIsFloor(s, amount);
    delta := LinearDelta(s, amount).value;
    ExtendedFigures(s, amount, delta);
  }

  /**
   * `lib.rs` documents two delegated top-ups of `amount` as extending by the
   * same seconds each, and so as one of twice the amount. The first half always
   * holds; the second exactly when the remainder of the floored extension is
   * below half the deposit.
   */
  lemma TwiceIsDoubleIff(s: Stream, amount: I128, double: I128, now: U64, s1: Stream, s2: Stream, s12: Stream)
    requires Shape(s, now) && double == 2 * amount
    requires DelegateTopUpStream(s, amount, now) == Ok(s1) && DelegateTopUpStream(s1, amount, now) == Ok(s2)
    requires DelegateTopUpStream(s, double, now) == Ok(s12)
    ensures s2.deposited == s.deposited + 2 * amount && s2.endTime - s1.endTime == s1.endTime - s.endTime
    ensures s2 == s12 <==> 2 * (amount * Duration(s) % s.deposited) < s.deposited
  {
    hide DelegateTopUpStream;
    DelegateTopUpSound(s, amount, now, 0);
    var q := DelegatedFigures(s, amount, now, s1);
    var q2 := DelegatedFigures(s1, amount, now, s2);
    var qq := DelegatedFigures(s, double, now, s12);
    SecondDeltaIsSame(s.deposited, Duration(s), amount);
    assert q + q2 == qq <==> 2 * (amount * Duration(s) % s.deposited) < s.deposited by {
      DeltasCompare(s.deposited, Duration(s), amount, double);
    }
  }

  lemma DeltasCompare(D: nat, d: nat, a: nat, aa: nat)
    requires 0 < D && aa == 2 * a
    ensures a * d / D + a * (d + a * d / D) / (D + a) == aa * d / D <==> 2 * (a * d % D) < D
  {
    SecondDeltaIsSame(D, d, a);
    assert aa * d == 2 * (a * d);
    DoubleFloor(D, a * d);
  }

  function Short(deposited: I128, end: U64): Stream {
    Stream(Address(0), Address(1), Address(2), deposited, 0, 0, end, 0, Schedule,
           true, true, true, None, 0, Active, Linear, None)
  }

  /** Five tokens over two seconds: two top-ups of four end a second before one of eight. */
  lemma TwiceIsNotAlwaysDouble()
    ensures Shape(Short(5, 2), 0)
    ensures DelegateTopUpStream(Short(5, 2), 4, 0) == Ok(Short(9, 3))
    ensures DelegateTopUpStream(Short(9, 3), 4, 0) == Ok(Short(13, 4))
    ensures DelegateTopUpStream(Short(5, 2), 8, 0) == Ok(Short(13, 5))
  {
  }

  // ---- The delegated top-up -------------------------------------------

  /** When the delegated form succeeds, the direct one does the same exactly on linear streams. */
  lemma DelegateTopUpAgreesIff(s: Stream, amount: I128, now: U64)
    requires Shape(s, now) && DelegateTopUpStream(s, amount, now).Ok?
    ensures TopUpStream(s, amount, now) == DelegateTopUpStream(s, amount, now) <==> s.curve == Linear
  {
    hide Vested, StreamTime;
    LinearDeltaIsFloor(s, amount);
    if s.curve == Linear {
      DelegateTopUpSound(s, amount, now, 0);
      VestedIsAmount(s, now);
      VestedIsAmount(DelegateTopUpStream(s, amount, now).value, now);
    }
  }

  /** On this curve, a delegated top-up never takes back what was already paid. */
  ghost predicate DelegatedTopUpIsSafe(curve: ReleaseCurve) {
    forall s: Stream, amount: I128, now: U64 ::
      s.curve == curve && Shape(s, now) && Covered(s, now) && DelegateTopUpStream(s, amount, now).Ok? ==>
        Covered(DelegateTopUpStream(s, amount, now).value, now)
  }

  lemma DelegatedTopUpIsSafeIffLinear(curve: ReleaseCurve)
    ensures DelegatedTopUpIsSafe(curve) <==> curve == Linear
  {
    if curve == Linear {
      forall s: Stream, amount: I128, now: U64
        | s.curve == curve && Shape(s, now) && Covered(s, now) && DelegateTopUpStream(s, amount, now).Ok?
        ensures Covered(DelegateTopUpStream(s, amount, now).value, now)
      {
        DelegateTopUpSound(s, amount, now, 0);
      }
    } else {
      var terms := OverdrawnTerms(curve);
      DelegatedTopUpOverdraws(curve);
      var s := Drawn(NewStream(terms).value, OverdrawnDraw(curve), OverdrawnAt(curve)).value;
      assert DelegateTopUpStream(s, OverdrawnTopUp(curve), OverdrawnAt(curve)).Ok?;
    }
  }

  function OverdrawnTerms(curve: ReleaseCurve): Terms {
    Terms(Address(0), Address(1), Address(2), if curve == Step then 100 else 1_000_000_000, 0,
          if curve == Step then 100 else 1000, 0, Schedule, true, true, true, None, curve)
  }

  function OverdrawnAt(curve: ReleaseCurve): U64 { if curve == Step then 25 else 969 }

  function OverdrawnDraw(curve: ReleaseCurve): I128 { if curve == Step then 25 else 999_999_999 }

  function OverdrawnTopUp(curve: ReleaseCurve): I128 { if curve == Step then 4 else 1_000_000 }

  /**
   * A stream created, drawn and then topped up by a delegate ends with more paid
   * than vested: a step stream just past its first tranche, and a front-loaded
   * one at the grid point where it completes.
   */
  lemma DelegatedTopUpOverdraws(curve: ReleaseCurve)
    requires curve != Linear
    ensures var now := OverdrawnAt(curve);
            var created := NewStream(OverdrawnTerms(curve));
            && created.Ok?
            && Payout(created.value, now, Some(OverdrawnDraw(curve))) == Ok(OverdrawnDraw(curve))
            && Drawn(created.value, OverdrawnDraw(curve), now).Ok?
            && var s := Drawn(created.value, OverdrawnDraw(curve), now).value;
            && Shape(s, now) && Covered(s, now)
            && DelegateTopUpStream(s, OverdrawnTopUp(curve), now).Ok?
            && !Covered(DelegateTopUpStream(s, OverdrawnTopUp(curve), now).value, now)
  {
    hide Released, Vested;
    var now, draw := OverdrawnAt(curve), OverdrawnDraw(curve);
    var s0 := NewStream(OverdrawnTerms(curve)).value;
    CreationGuards(OverdrawnTerms(curve), 0, now);
    OverdrawnAmounts(curve, s0);
    VestedIsAmount(s0, now);
    ReadingsNeverFail(s0, now);
    DrawSound(s0, draw, now, 0);
  }

  lemma OverdrawnAmounts(curve: ReleaseCurve, s0: Stream)
    requires curve != Linear && NewStream(OverdrawnTerms(curve)) == Ok(s0)
    ensures var now := OverdrawnAt(curve);
            && OverdrawnDraw(curve) <= Amount(s0, now)
            && DelegateTopUpStream(s0, OverdrawnTopUp(curve), now).Ok?
            && Amount(DelegateTopUpStream(s0, OverdrawnTopUp(curve), now).value, now) < OverdrawnDraw(curve)
  {
    if curve == Step {
      assert Released(Step, 100, 25, 100) == 25 && Released(Step, 104, 25, 104) == 0;
    } else {
      assert Grid(969) == 1000 && Released(FrontLoaded, 1_000_000_000, 969, 1000) == 1_000_000_000;
      assert Grid(968) == 999 && Released(FrontLoaded, 1_001_000_000, 969, 1001) == 999_999_000;
    }
  }
}
