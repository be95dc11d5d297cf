// Every change an entry point can make to a stream keeps its invariant,
// continues its history, and is announced by its event.
module StreamLaws {
  import opened Prelude
  import opened Types
  import opened Arith
  import opened Accrual
  import opened Curves
  import opened StreamState
  import opened StreamOps
  import opened Events

  // ---- One stream at two points of its life ---------------------------

  ghost predicate SameTerms(s: Stream, s': Stream) {
    s'.(recipient := s.recipient, deposited := s.deposited, withdrawn := s.withdrawn, endTime := s.endTime,
        pausedAt := s.pausedAt, pausedTotal := s.pausedTotal, status := s.status) == s
  }

  /** `s'` at `t'` can be a later state of `s` at `t`. */
  ghost predicate Follows(s: Stream, t: U64, s': Stream, t': U64) {
    && SameTerms(s, s')
    && s.withdrawn <= s'.withdrawn
    && s.pausedTotal <= s'.pausedTotal
    && StreamTime(s, t) <= StreamTime(s', t')
    && (t == t' && s'.status != Cancelled ==> StreamTime(s, t) == StreamTime(s', t'))
    && (CliffReached(s, t) ==> CliffReached(s', t'))
    && (s.status.IsTerminal() ==> s' == s.(recipient := s'.recipient, withdrawn := s'.withdrawn))
    && (s'.status != Cancelled ==> s.deposited <= s'.deposited)
    && (s'.status != Cancelled && s.curve == Linear ==> s.deposited * Duration(s') <= s'.deposited * Duration(s))
  }

  lemma FollowsTransitive(s1: Stream, t1: U64, s2: Stream, t2: U64, s3: Stream, t3: U64)
    requires Shape(s1, t1) && Shape(s2, t2) && Shape(s3, t3) && t1 <= t2 <= t3
    requires Follows(s1, t1, s2, t2) && Follows(s2, t2, s3, t3)
    ensures Follows(s1, t1, s3, t3)
  {
    if s3.status != Cancelled && s1.curve == Linear {
      RateTransitive(s1.deposited, Duration(s1), s2.deposited, Duration(s2), s3.deposited, Duration(s3));
    }
  }

  lemma RateTransitive(D1: nat, d1: nat, D2: nat, d2: nat, D3: nat, d3: nat)
    requires 0 < d2
    requires D1 * d2 <= D2 * d1 && D2 * d3 <= D3 * d2
    ensures D1 * d3 <= D3 * d1
  {
    MulMono(D1 * d2, D2 * d1, d3);
    MulMono(D2 * d3, D3 * d2, d1);
    Shuffle(D1, d2, d3);
    Shuffle(D2, d1, d3);
    Shuffle(D3, d2, d1);
    MulCancel(D1 * d3, D3 * d1, d2);
  }

  lemma TimePasses(s: Stream, t: U64, t': U64)
    requires Shape(s, t) && t <= t'
    ensures Follows(s, t, s, t')
  {
    ClockRises(s, t, t');
  }

  /** A change at `now` that entry points may make: invariant, history, and the event that replays it. */
  ghost predicate Sound(s: Stream, s': Stream, e: Event, now: U64)
    requires Shape(s, now)
  {
    && Shape(s', now)
    && Follows(s, now, s', now)
    && IsLifecycle(e) && Describes(e, s) && Amended(s, e) == s'
  }

  /** I1 and I3 across the change, at the frozen instant `now`. */
  ghost predicate Fair(s: Stream, s': Stream, now: U64)
    requires s.deposited >= 0 && s'.deposited >= 0
  {
    && (Covered(s, now) ==> Covered(s', now))
    && Amount(s, now) <= Amount(s', now)
  }

  // ---- Creation --------------------------------------------------------

  lemma CreationGuards(t: Terms, id: U64, now: U64)
    requires NewStream(t).Ok?
    ensures var s := NewStream(t).value;
            Shape(s, now) && Covered(s, now) && Announced(CreatedEvent(id, s)) == s
  {
    var s := NewStream(t).value;
    AmountInRange(s, now);
  }

  // ---- Top-up ----------------------------------------------------------

  lemma LinearDeltaIsFloor(s: Stream, amount: I128)
    requires 0 < s.deposited && 0 < amount
    requires LinearDelta(s, amount).Ok?
    ensures LinearDelta(s, amount).value == amount * Duration(s) / s.deposited > 0
  {
    MulMono(0, amount, Duration(s));
  }

  /** The rate guard cannot fire: a floored extension keeps `deposited >= duration`. */
  lemma ExtensionKeepsRate(D: nat, d: nat, a: nat, delta: nat)
    requires 0 < D && d <= D && delta * D <= a * d
    ensures d + delta <= D + a
    ensures D * (d + delta) <= (D + a) * d
  {
    MulMono(d, D, a);
    MulCancel(delta, a, D);
  }

  lemma ExtendedFigures(s: Stream, amount: I128, delta: U64)
    requires s.startTime <= s.endTime && Extended(s, amount, delta).Ok?
    ensures var s' := Extended(s, amount, delta).value;
            && s' == s.(deposited := s.deposited + amount, endTime := s.endTime + delta)
            && Duration(s') == Duration(s) + delta
            && s'.deposited * Duration(s') <= I128_MAX && Duration(s') <= s'.deposited
  {
  }

  /** `top_up` dominates pointwise: at every instant, whatever the curve, vested is at least what it was. */
  lemma TopUpDominates(s: Stream, amount: I128, delta: U64, t: U64)
    requires 0 < s.deposited && s.startTime < s.endTime && 0 < amount
    requires delta * s.deposited <= amount * Duration(s)
    requires s.curve != Linear ==> delta == 0
    requires Extended(s, amount, delta).Ok?
    ensures Amount(s, t) <= Amount(Extended(s, amount, delta).value, t)
  {
    ExtendedFigures(s, amount, delta);
    var s' := Extended(s, amount, delta).value;
    var c, c', d := Elapsed(s, t), Elapsed(s', t), Duration(s);
    assert c <= c' && (c < d ==> c' == c);
    if s.curve == Linear {
      DominatesAcrossCaps(s.deposited, d, amount, delta, c, c');
    } else {
      ReleasedRisesInDeposit(s.curve, s.deposited, s'.deposited, c, d);
      assert c' == c;
    }
  }

  lemma DominatesAcrossCaps(D: nat, d: nat, a: nat, delta: nat, c: nat, c': nat)
    requires 0 < D && 0 < d && delta * D <= a * d && c <= c'
    ensures Released(Linear, D, c, d) <= Released(Linear, D + a, c', d + delta)
  {
    assert D * (d + delta) <= (D + a) * d;
    RateKeptDominates(D, d, D + a, d + delta, c);
    ReleasedRisesInTime(Linear, D + a, c, c', d + delta);
  }

  lemma TopUpDelta(s: Stream, amount: I128)
    requires 0 < s.deposited && 0 < amount && TopUpDurationDelta(s, amount).Ok?
    ensures var delta := TopUpDurationDelta(s, amount).value;
            && delta * s.deposited <= amount * Duration(s)
            && (s.curve != Linear ==> delta == 0)
  {
    if s.curve == Linear {
      LinearDeltaIsFloor(s, amount);
      FloorBounds(amount * Duration(s), s.deposited);
    } else {
      MulMono(0, amount, Duration(s));
    }
  }

  lemma TopUpSound(s: Stream, amount: I128, now: U64, id: U64)
    requires Shape(s, now) && TopUpStream(s, amount, now).Ok?
    ensures var s' := TopUpStream(s, amount, now).value;
            Sound(s, s', ToppedUpEvent(id, s', amount), now) && Fair(s, s', now)
  {
    hide Released, Vested, LinearDelta, Sound, Amended, Describes;
    TopUpDelta(s, amount);
    var delta := TopUpDurationDelta(s, amount).value;
    ExtensionSound(s, amount, delta, now, id);
    TopUpDominates(s, amount, delta, now);
  }

  lemma ExtensionSound(s: Stream, amount: I128, delta: U64, now: U64, id: U64)
    requires Shape(s, now) && !s.status.IsTerminal() && 0 < amount
    requires Extended(s, amount, delta).Ok?
    requires delta * s.deposited <= amount * Duration(s)
    ensures var s' := Extended(s, amount, delta).value;
            Sound(s, s', ToppedUpEvent(id, s', amount), now)
  {
    ExtendedFigures(s, amount, delta);
    var s' := Extended(s, amount, delta).value;
    ExtensionKeepsRate(s.deposited, Duration(s), amount, delta);
    assert s.deposited * Duration(s') <= s'.deposited * Duration(s);
  }

  /** Without the re-check the change is still sound on every curve, but fair only on a linear one. */
  lemma DelegateTopUpSound(s: Stream, amount: I128, now: U64, id: U64)
    requires Shape(s, now) && DelegateTopUpStream(s, amount, now).Ok?
    ensures var s' := DelegateTopUpStream(s, amount, now).value;
            && Sound(s, s', ToppedUpEvent(id, s', amount), now)
            && (s.curve == Linear ==> Fair(s, s', now))
  {
    LinearDeltaIsFloor(s, amount);
    var delta := LinearDelta(s, amount).value;
    FloorBounds(amount * Duration(s), s.deposited);
    ExtensionSound(s, amount, delta, now, id);
    if s.curve == Linear {
      TopUpDominates(s, amount, delta, now);
    }
  }

  /** What has vested right after a delegated top-up, from the fields before it. */
  function StretchedAmount(s: Stream, amount: I128, now: U64): int
    requires 0 < s.deposited && 0 < amount
  {
    if CliffReached(s, now) then
      MulMono(0, amount, Duration(s));
      FloorAtLeast(0, amount * Duration(s), s.deposited);
      Released(s.curve, s.deposited + amount, Elapsed(s, now), Duration(s) + amount * Duration(s) / s.deposited)
    else
      0
  }

  lemma DelegateTopUpVests(s: Stream, amount: I128, now: U64)
    requires Shape(s, now) && DelegateTopUpStream(s, amount, now).Ok?
    ensures 0 < s.deposited && 0 < amount
    ensures var s' := DelegateTopUpStream(s, amount, now).value;
            && s'.deposited >= 0 && s'.withdrawn == s.withdrawn
            && Amount(s', now) == StretchedAmount(s, amount, now)
  {
    hide Released;
    LinearDeltaIsFloor(s, amount);
    ExtendedFigures(s, amount, LinearDelta(s, amount).value);
  }

  /** More was paid than will have vested. */
  predicate Overdraws(s: Stream, amount: I128, now: U64) {
    0 < s.deposited && 0 < amount && StretchedAmount(s, amount, now) < s.withdrawn
  }

  /** Less will have vested than has. */
  predicate Lowers(s: Stream, amount: I128, now: U64) {
    0 < s.deposited && 0 < amount && StretchedAmount(s, amount, now) < Amount(s, now)
  }

  /** The exact conditions, in fields before the call: it keeps I1 unless it overdraws, and I3 unless it lowers. */
  lemma DelegatedTopUpHarmsIff(s: Stream, amount: I128, now: U64)
    requires Shape(s, now) && DelegateTopUpStream(s, amount, now).Ok?
    ensures var s' := DelegateTopUpStream(s, amount, now).value;
            && s'.deposited >= 0
            && (Covered(s', now) <==> !Overdraws(s, amount, now))
            && (Amount(s, now) <= Amount(s', now) <==> !Lowers(s, amount, now))
    ensures s.curve == Linear ==> !Lowers(s, amount, now) && (Covered(s, now) ==> !Overdraws(s, amount, now))
  {
    hide StretchedAmount, Amount;
    DelegateTopUpVests(s, amount, now);
    DelegateTopUpSound(s, amount, now, 0);
  }

  // ---- Withdrawal ------------------------------------------------------

  lemma PayoutInRange(s: Stream, now: U64, amount: Option<I128>)
    requires Shape(s, now) && Payout(s, now, amount).Ok?
    ensures var p := Payout(s, now, amount).value;
            && 0 < p <= Amount(s, now) - s.withdrawn
            && (amount == None ==> p == Amount(s, now) - s.withdrawn)
            && Drawn(s, p, now).Ok?
  {
    ReadingsNeverFail(s, now);
    VestedIsAmount(s, now);
  }

  /** What is asked for is paid exactly when it is positive and has vested unpaid; `None`, when there is anything. */
  lemma PayoutIff(s: Stream, now: U64, requested: I128)
    requires Shape(s, now)
    ensures Payout(s, now, Some(requested)) == Ok(requested) <==> 0 < requested <= Amount(s, now) - s.withdrawn
    ensures Payout(s, now, Some(requested)).Ok? ==> Payout(s, now, Some(requested)) == Ok(requested)
    ensures Payout(s, now, None).Ok? <==> s.withdrawn < Amount(s, now)
  {
    ReadingsNeverFail(s, now);
    VestedIsAmount(s, now);
  }

  /** A withdrawal is invisible to accrual: vested is the same at every present and future instant. */
  lemma DrawingKeepsVested(s: Stream, p: I128, now: U64, t: U64)
    requires Shape(s, now) && 0 < p <= Amount(s, now) - s.withdrawn
    requires Drawn(s, p, now).Ok? && now <= t
    ensures Amount(Drawn(s, p, now).value, t) == Amount(s, t)
  {
    var s' := Drawn(s, p, now).value;
    if s'.pausedAt == s.pausedAt {
      SameSchedule(s, s', t);
    } else {
      DrainOfPaused(s, s', p, now);
      StayFull(s, now, t);
      StayFull(s', now, t);
    }
  }

  /** `vested` reads nothing else. */
  lemma SameSchedule(s: Stream, s': Stream, t: U64)
    requires 0 <= s.deposited
    requires s' == s.(withdrawn := s'.withdrawn, status := s'.status, recipient := s'.recipient)
    ensures Amount(s', t) == Amount(s, t)
  {
  }

  lemma DrainOfPaused(s: Stream, s': Stream, p: I128, now: U64)
    requires Shape(s, now) && 0 < p <= Amount(s, now) - s.withdrawn
    requires Drawn(s, p, now) == Ok(s') && s'.pausedAt != s.pausedAt
    ensures Amount(s, now) == s.deposited && Amount(s', now) == s'.deposited
  {
    AmountInRange(s, now);
    assert StreamTime(s', now) == StreamTime(s, now);
  }

  lemma StayFull(s: Stream, now: U64, t: U64)
    requires 0 <= s.deposited == Amount(s, now) && now <= t
    ensures Amount(s, t) == s.deposited
  {
    AmountInRange(s, t);
    AmountRisesInTime(s, now, t);
  }

  lemma DrawKeepsShape(s: Stream, p: I128, now: U64)
    requires Shape(s, now) && 0 < p <= Amount(s, now) - s.withdrawn
    requires Drawn(s, p, now).Ok?
    ensures Shape(Drawn(s, p, now).value, now)
  {
    hide Amount;
    DrawingKeepsVested(s, p, now, now);
    AmountInRange(s, now);
  }

  lemma DrawSound(s: Stream, p: I128, now: U64, id: U64)
    requires Shape(s, now) && 0 < p <= Amount(s, now) - s.withdrawn
    requires Drawn(s, p, now).Ok?
    ensures var s' := Drawn(s, p, now).value;
            && Sound(s, s', WithdrawnEvent(id, s', p), now) && Fair(s, s', now)
            && s'.withdrawn == s.withdrawn + p && s'.deposited == s.deposited
  {
    hide Amount, Settled, Funded;
    DrawKeepsShape(s, p, now);
    DrawingKeepsVested(s, p, now, now);
  }

  // ---- Cancel ----------------------------------------------------------

  lemma CancelQuote(s: Stream, now: U64)
    requires Shape(s, now) && QuoteCancel(s, now).Ok?
    ensures QuoteCancel(s, now).value == (Amount(s, now), s.deposited - Amount(s, now))
    ensures 0 <= Amount(s, now) <= s.deposited && !s.status.IsTerminal()
  {
    VestedIsAmount(s, now);
    ReadingsNeverFail(s, now);
  }

  /** A cancel is refused for no other reason than a stream that is not cancellable or no longer live. */
  lemma CancelAllowedIff(s: Stream, now: U64)
    requires Shape(s, now)
    ensures QuoteCancel(s, now).Ok? <==> s.cancellable && !s.status.IsTerminal()
  {
    VestedIsAmount(s, now);
    ReadingsNeverFail(s, now);
  }

  /** What the collapse leaves: nothing vested, or the gate open and the clock at the new end. */
  lemma CollapseSettles(s: Stream, now: U64)
    requires Shape(s, now) && !s.status.IsTerminal()
    requires Vested(s, now) == Ok(Amount(s, now))
    ensures Settled(Collapsed(s, now, Vested(s, now).value), now)
  {
    var s' := Collapsed(s, now, Vested(s, now).value);
    if !CliffReached(s, now) {
      assert s'.deposited == 0;
    } else if StreamTime(s, now) < s.startTime {
      ReleasedEndpoints(s.curve, s.deposited, 0, Duration(s));
      assert s'.deposited == 0;
    } else {
      assert StreamTime(s', now) >= StreamTime(s, now);
    }
  }

  lemma CancelSound(s: Stream, now: U64, id: U64)
    requires Shape(s, now) && QuoteCancel(s, now).Ok?
    ensures var (vested, refund) := QuoteCancel(s, now).value;
            var s' := Collapsed(s, now, vested);
            Sound(s, s', CancelledEvent(id, s', refund), now) && Fair(s, s', now)
  {
    CancelQuote(s, now);
    VestedIsAmount(s, now);
    CollapseSettles(s, now);
    var s' := Collapsed(s, now, Amount(s, now));
    assert StreamTime(s', now) >= StreamTime(s, now);
    TerminalIsFullyVested(s', now, now);
  }

  /** Cancel settles for good: refund and vested split the old deposit, and vested never moves again. */
  lemma CancelIsFinal(s: Stream, now: U64, t: U64)
    requires Shape(s, now) && Covered(s, now) && QuoteCancel(s, now).Ok? && now <= t
    ensures var (vested, refund) := QuoteCancel(s, now).value;
            var s' := Collapsed(s, now, vested);
            && vested + refund == s.deposited
            && Vested(s', t) == Ok(s'.deposited) && s'.deposited == vested
            && Withdrawable(s', t) == Ok(vested - s.withdrawn)
            && Refundable(s', t) == Ok(0)
  {
    CancelQuote(s, now);
    CancelSound(s, now, 0);
    var s' := Collapsed(s, now, Amount(s, now));
    ShapePersists(s', now, t);
    TerminalIsFullyVested(s', now, t);
    VestedIsAmount(s', t);
    ReadingsNeverFail(s', t);
  }

  /** A cancel leaves a debt of at least nothing exactly when no more was paid than had vested. */
  lemma CancelledDebtIff(s: Stream, now: U64)
    requires Shape(s, now) && QuoteCancel(s, now).Ok?
    ensures var s' := Collapsed(s, now, QuoteCancel(s, now).value.0);
            s'.deposited - s'.withdrawn >= 0 <==> s.withdrawn <= Amount(s, now)
  {
    CancelQuote(s, now);
  }

  /**
   * The creation guard's product survives a cancel before maturity. A late one
   * keeps the deposit and moves the end out to the clock, and then it is a matter
   * of the new length; `vested` no longer forms the product by then.
   */
  lemma CancelledProductFitsIff(s: Stream, now: U64)
    requires Shape(s, now) && QuoteCancel(s, now).Ok?
    ensures var s' := Collapsed(s, now, QuoteCancel(s, now).value.0);
            var clock: int := (if s.status == Paused then s.pausedAt.value else now) - s.pausedTotal;
            s'.deposited * Duration(s') <= I128_MAX
            <==> clock <= s.endTime || s.deposited * (clock - s.startTime) <= I128_MAX
  {
    CancelQuote(s, now);
    ClockIsExact(s, now);
    var s' := Collapsed(s, now, Amount(s, now));
    if StreamTime(s, now) <= s.endTime {
      MulMono(Amount(s, now), s.deposited, Duration(s'));
      MulMono(Duration(s'), Duration(s), s.deposited);
    }
  }

  /** One second of 2^126, cancelled at the second second. */
  lemma CancelledProductCanOverflow()
    ensures var s := Stream(Address(0), Address(1), Address(2), 0x4000_0000_0000_0000_0000_0000_0000_0000, 0, 0, 1, 0,
                            Schedule, true, true, true, None, 0, Active, Linear, None);
            && Shape(s, 2) && QuoteCancel(s, 2).Ok?
            && var s' := Collapsed(s, 2, QuoteCancel(s, 2).value.0);
            s'.deposited * Duration(s') > I128_MAX
  {
  }

  /** On a terminal stream dust is what the recipient cannot claim; covered, that is nothing. */
  lemma NoDust(s: Stream, now: U64)
    requires Shape(s, now) && s.status.IsTerminal()
    ensures Dust(s, now) == Ok(Min(0, s.deposited - s.withdrawn))
    ensures Covered(s, now) ==> Dust(s, now) == Ok(0)
  {
    ReadingsNeverFail(s, now);
    TerminalIsFullyVested(s, now, now);
  }

  // ---- Pause, resume, transfer ----------------------------------------

  lemma PauseSound(s: Stream, now: U64, id: U64)
    requires Shape(s, now) && DelegatePauseStream(s, now).Ok?
    ensures var s' := DelegatePauseStream(s, now).value;
            && Sound(s, s', PausedEvent(id, s', now), now) && Fair(s, s', now)
            && Amount(s', now) == Amount(s, now) && PauseStream(s, now) == Ok(s')
  {
    hide Released, Vested;
    var s' := DelegatePauseStream(s, now).value;
    VestedIsAmount(s, now);
    VestedIsAmount(s', now);
  }

  /** The addition in `resume` cannot overflow, and the clock picks up exactly where it stopped. */
  lemma ResumeSound(s: Stream, now: U64, id: U64)
    requires Shape(s, now) && s.status == Paused
    ensures DelegateResumeStream(s, now).Ok?
    ensures var s' := DelegateResumeStream(s, now).value;
            && Sound(s, s', ResumedEvent(id, s', PausedFor(s, now)), now) && Fair(s, s', now)
            && StreamTime(s', now) == StreamTime(s, now)
            && Amount(s', now) == Amount(s, now) && ResumeStream(s, now) == Ok(s')
  {
    hide Released, Vested;
    var s' := DelegateResumeStream(s, now).value;
    VestedIsAmount(s, now);
    VestedIsAmount(s', now);
  }

  lemma TransferSound(s: Stream, to: Address, now: U64, id: U64)
    requires Shape(s, now) && DelegateTransferStream(s, to).Ok?
    ensures var s' := DelegateTransferStream(s, to).value;
            && Sound(s, s', RecipientTransferred(id, s.recipient, to, s.sender), now) && Fair(s, s', now)
            && TransferStream(s, to, now) == Ok(s')
  {
    hide Released, Vested;
    var s' := DelegateTransferStream(s, to).value;
    VestedIsAmount(s, now);
    VestedIsAmount(s', now);
  }
}
