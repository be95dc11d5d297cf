// What each operation does to one stream, in the stream's own stored fields:
// exactly when it is accepted, the record it leaves, and the error it gives otherwise.
module Outcomes {
  import opened Prelude
  import opened Types
  import opened Arith
  import opened Accrual
  import opened Curves
  import opened StreamState
  import opened StreamOps
  import opened StreamLaws

  /** Wall time, or the instant of the open pause, less the pauses before. */
  function Reading(s: Stream, now: U64): int {
    (if s.pausedAt.Some? then s.pausedAt.value else now) - s.pausedTotal
  }

  predicate Live(s: Stream) {
    s.status == Active || s.status == Paused
  }

  // ---- Creation --------------------------------------------------------

  predicate Creatable(t: Terms) {
    && t.sender != t.recipient
    && 0 < t.deposit
    && t.startTime < t.endTime
    && t.startTime <= t.cliffTime <= t.endTime
    && (t.reference == None || |t.reference.value| <= 64)
    && t.endTime - t.startTime <= t.deposit
    && t.deposit * (t.endTime - t.startTime) <= I128_MAX
  }

  /** Nothing paid, never paused, and every other field the argument that asked for it. */
  predicate AsRequested(s: Stream, t: Terms) {
    && s.sender == t.sender && s.recipient == t.recipient && s.token == t.token
    && s.deposited == t.deposit && s.withdrawn == 0
    && s.startTime == t.startTime && s.endTime == t.endTime
    && s.cliffTime == t.cliffTime && s.cliffMode == t.cliffMode
    && s.cancellable == t.cancellable && s.pausable == t.pausable && s.transferable == t.transferable
    && s.status == Active && s.pausedAt == None && s.pausedTotal == 0
    && s.curve == t.curve && s.reference == t.reference
  }

  /** A stream is created exactly on these terms, and is then the stream they ask for. */
  lemma NewStreamIff(t: Terms)
    ensures NewStream(t).Ok? <==> Creatable(t)
    ensures NewStream(t).Ok? ==> AsRequested(NewStream(t).value, t)
  {
    if t.startTime < t.endTime && 0 < t.deposit {
      MulMono(0, t.deposit, t.endTime - t.startTime);
    }
  }

  /** The first guard that fails gives its error. */
  lemma NewStreamErrors(t: Terms)
    ensures NewStream(t) == Err(SelfStream) <==> t.sender == t.recipient
    ensures NewStream(t) == Err(InvalidDeposit) <==> t.sender != t.recipient && t.deposit <= 0
    ensures t.sender != t.recipient && 0 < t.deposit ==>
              && (NewStream(t) == Err(InvalidTimeRange) <==> t.endTime <= t.startTime)
              && (NewStream(t) == Err(InvalidCliff)
                  <==> t.startTime < t.endTime && !(t.startTime <= t.cliffTime <= t.endTime))
    ensures t.sender != t.recipient && 0 < t.deposit && t.startTime < t.endTime
            && t.startTime <= t.cliffTime <= t.endTime ==>
              && (NewStream(t) == Err(InvalidReferenceLength) <==> t.reference.Some? && 64 < |t.reference.value|)
              && (NewStream(t) == Err(DepositRateTooLow)
                  <==> (t.reference == None || |t.reference.value| <= 64) && t.deposit < t.endTime - t.startTime)
              && (NewStream(t) == Err(Overflow)
                  <==> && (t.reference == None || |t.reference.value| <= 64) && t.endTime - t.startTime <= t.deposit
                       && I128_MAX < t.deposit * (t.endTime - t.startTime))
  {
    if t.startTime < t.endTime && 0 < t.deposit {
      MulMono(0, t.deposit, t.endTime - t.startTime);
    }
  }

  /** Left alone, it vests nothing before the requested cliff, and then what the requested curve releases. */
  lemma NewStreamVests(t: Terms, now: U64)
    requires Creatable(t)
    ensures NewStream(t).Ok?
    ensures Vested(NewStream(t).value, now) == Ok(
              if now < t.cliffTime then 0
              else if t.endTime <= now then t.deposit
              else if now <= t.startTime then 0
              else Released(t.curve, t.deposit, now - t.startTime, t.endTime - t.startTime))
  {
    hide Released, Vested;
    NewStreamIff(t);
    CreationGuards(t, 0, now);
    VestedFromFields(NewStream(t).value, now);
  }

  // ---- Factory ---------------------------------------------------------

  /** The integer rate of these terms, where they have one. */
  predicate RateWithin(p: Policy, t: Terms)
    requires t.startTime < t.endTime && 0 < t.deposit
  {
    && (p.minRate.Some? ==> p.minRate.value <= t.deposit / (t.endTime - t.startTime))
    && (p.maxRate.Some? ==> t.deposit / (t.endTime - t.startTime) <= p.maxRate.value)
  }

  /** On terms that can be created at all, the policy passes exactly within its cap, duration, rates and list. */
  lemma PolicyPassesIff(p: Policy, t: Terms)
    requires t.startTime < t.endTime && 0 < t.deposit
    ensures PolicyCheck(p, t).Pass?
            <==> && !p.creationPaused && t.deposit <= p.maxDeposit
                 && p.minDuration <= t.endTime - t.startTime && RateWithin(p, t) && p.allowlisted
    ensures PolicyCheck(p, t) == Fail(FactoryPaused) <==> p.creationPaused
    ensures PolicyCheck(p, t) == Fail(DepositExceedsCap) <==> !p.creationPaused && p.maxDeposit < t.deposit
    ensures !p.creationPaused && t.deposit <= p.maxDeposit ==>
              && (PolicyCheck(p, t) == Fail(DurationBelowMinimum) <==> t.endTime - t.startTime < p.minDuration)
              && (p.minDuration <= t.endTime - t.startTime ==>
                    && (PolicyCheck(p, t) == Fail(RateBelowMin)
                        <==> p.minRate.Some? && t.deposit / (t.endTime - t.startTime) < p.minRate.value)
                    && (PolicyCheck(p, t) == Fail(RateAboveMax)
                        <==> && (p.minRate.Some? ==> p.minRate.value <= t.deposit / (t.endTime - t.startTime))
                             && p.maxRate.Some? && p.maxRate.value < t.deposit / (t.endTime - t.startTime))
                    && (PolicyCheck(p, t) == Fail(TokenNotAllowlisted) <==> RateWithin(p, t) && !p.allowlisted))
  {
  }

  /** Terms without a positive deposit or duration are left to the creation guards, which refuse them. */
  lemma PolicyOnBadTerms(p: Policy, t: Terms)
    requires t.endTime <= t.startTime || t.deposit <= 0
    ensures NewStream(t).Err?
    ensures PolicyCheck(p, t).Pass?
            <==> && !p.creationPaused && t.deposit <= p.maxDeposit && p.allowlisted
                 && (t.startTime < t.endTime ==> p.minDuration <= t.endTime - t.startTime)
    ensures PolicyCheck(p, t).Fail? ==>
              PolicyCheck(p, t).error in {FactoryPaused, DepositExceedsCap, DurationBelowMinimum, TokenNotAllowlisted}
  {
  }

  // ---- Top-up ----------------------------------------------------------

  /** Whole seconds that `amount` buys at the stream's rate. */
  function Bought(s: Stream, amount: int): int {
    if s.deposited > 0 then amount * (s.endTime - s.startTime) / s.deposited else 0
  }

  /** The end and the creation product after adding `amount` and `extra` seconds stay in their machine types. */
  predicate Fits(s: Stream, amount: int, extra: int) {
    && s.endTime + extra <= U64_MAX
    && (s.deposited + amount) * (s.endTime - s.startTime + extra) <= I128_MAX
  }

  predicate ExtendedBy(s: Stream, s': Stream, amount: int, extra: int) {
    && s' == s.(deposited := s'.deposited, endTime := s'.endTime)
    && s'.deposited == s.deposited + amount && s'.endTime == s.endTime + extra
  }

  /**
   * `floored`: the extension is what the amount buys, and a whole second at least.
   * Otherwise the end stays. Accepted exactly on a live stream before its end, for a
   * positive amount, when the new figures fit.
   */
  predicate TopsUp(s: Stream, amount: int, now: U64, floored: bool, r: Result<Stream>) {
    var extra := if floored then Bought(s, amount) else 0;
    var timely := Live(s) && 0 < amount && Reading(s, now) < s.endTime;
    var enough := floored ==> s.deposited <= amount * (s.endTime - s.startTime);
    && (r.Ok? <==> timely && enough && Fits(s, amount, extra))
    && (r.Ok? ==> ExtendedBy(s, r.value, amount, extra))
    && (r == Err(StreamTerminated) <==> !Live(s))
    && (r == Err(InvalidAmount) <==> Live(s) && amount <= 0)
    && (r == Err(StreamMatured) <==> Live(s) && 0 < amount && s.endTime <= Reading(s, now))
    && (r == Err(TopUpTooSmall) <==> timely && !enough)
    && (r == Err(Overflow) <==> timely && enough && !Fits(s, amount, extra))
  }

  /** The checked steps of the extension fail only where the figures after it do not fit. */
  lemma ExtendedIff(s: Stream, amount: I128, delta: U64)
    requires Funded(s) && 0 < amount && delta * s.deposited <= amount * Duration(s)
    ensures Extended(s, amount, delta).Ok? <==> Fits(s, amount, delta)
    ensures Extended(s, amount, delta).Ok? ==> ExtendedBy(s, Extended(s, amount, delta).value, amount, delta)
    ensures Extended(s, amount, delta).Err? ==> Extended(s, amount, delta).error == Overflow
  {
    ExtensionKeepsRate(s.deposited, Duration(s), amount, delta);
    MulMono(1, Duration(s) + delta, s.deposited + amount);
    assert s.deposited + amount <= (s.deposited + amount) * (Duration(s) + delta);
  }

  lemma LinearDeltaIff(s: Stream, amount: I128)
    requires Funded(s) && 0 < amount
    ensures 0 <= Bought(s, amount)
    ensures s.deposited <= amount * Duration(s) <==> 1 <= Bought(s, amount)
    ensures amount * Duration(s) < s.deposited ==> LinearDelta(s, amount) == Err(TopUpTooSmall)
    ensures s.deposited <= amount * Duration(s) && Fits(s, amount, Bought(s, amount)) ==>
              LinearDelta(s, amount) == Ok(Bought(s, amount))
    ensures s.deposited <= amount * Duration(s) ==>
              LinearDelta(s, amount) == Ok(Bought(s, amount)) || LinearDelta(s, amount) == Err(Overflow)
  {
    var product := amount * Duration(s);
    MulMono(0, amount, Duration(s));
    FloorAtLeast(1, product, s.deposited);
    FloorAtLeast(0, product, s.deposited);
    FloorBounds(product, s.deposited);
    if Fits(s, amount, Bought(s, amount)) {
      MulMono(amount, s.deposited + amount, Duration(s));
      MulMono(Duration(s), Duration(s) + Bought(s, amount), s.deposited + amount);
    }
    QuotientFits(product, s.deposited);
  }

  lemma QuotientFits(product: nat, D: int)
    requires 0 < D
    ensures 0 <= product / D <= product
  {
    FloorAtLeast(0, product, D);
    FloorBounds(product, D);
    MulMono(1, D, product / D);
  }

  /** The floored extension step by step. */
  lemma FlooredStepsIff(s: Stream, amount: I128)
    requires Funded(s) && 0 < amount
    ensures var delta := LinearDelta(s, amount);
            var enough := s.deposited <= amount * (s.endTime - s.startTime);
            && (delta == Err(TopUpTooSmall) <==> !enough)
            && (delta.Err? ==> delta.error == TopUpTooSmall || delta.error == Overflow)
            && (enough && Fits(s, amount, Bought(s, amount)) <==> delta.Ok? && Extended(s, amount, delta.value).Ok?)
            && (delta.Ok? && Extended(s, amount, delta.value).Ok? ==>
                  ExtendedBy(s, Extended(s, amount, delta.value).value, amount, Bought(s, amount)))
            && (delta.Ok? && Extended(s, amount, delta.value).Err? ==>
                  Extended(s, amount, delta.value).error == Overflow)
  {
    hide LinearDelta, Extended, Fits, ExtendedBy;
    LinearDeltaIff(s, amount);
    FloorBounds(amount * Duration(s), s.deposited);
    if LinearDelta(s, amount).Ok? {
      ExtendedIff(s, amount, LinearDelta(s, amount).value);
    }
  }

  /** The vested guard of the direct form never fires. */
  lemma ExtensionKeepsVested(s: Stream, amount: I128, delta: U64, now: U64)
    requires Shape(s, now) && Live(s) && 0 < amount
    requires TopUpDurationDelta(s, amount) == Ok(delta) && Extended(s, amount, delta).Ok?
    ensures VestedKept(s, Extended(s, amount, delta).value, now) == Extended(s, amount, delta)
  {
    hide Amount, Vested, TopUpDurationDelta, Extended;
    TopUpDelta(s, amount);
    ExtensionSound(s, amount, delta, now, 0);
    TopUpDominates(s, amount, delta, now);
    VestedIsAmount(s, now);
    VestedIsAmount(Extended(s, amount, delta).value, now);
  }

  lemma TopUpIff(s: Stream, amount: I128, now: U64)
    requires Shape(s, now)
    ensures TopsUp(s, amount, now, s.curve == Linear, TopUpStream(s, amount, now))
  {
    hide LinearDelta, Extended, VestedKept, Fits, Bought, ExtendedBy;
    ClockIsExact(s, now);
    if Live(s) && 0 < amount {
      if s.curve == Linear {
        FlooredStepsIff(s, amount);
      } else {
        MulMono(0, amount, Duration(s));
        ExtendedIff(s, amount, 0);
      }
      var delta := TopUpDurationDelta(s, amount);
      if delta.Ok? && Extended(s, amount, delta.value).Ok? {
        ExtensionKeepsVested(s, amount, delta.value, now);
      }
    }
  }

  /** The delegated form takes the floored extension whatever the curve. */
  lemma DelegateTopUpIff(s: Stream, amount: I128, now: U64)
    requires Shape(s, now)
    ensures TopsUp(s, amount, now, true, DelegateTopUpStream(s, amount, now))
  {
    hide LinearDelta, Extended, Fits, Bought, ExtendedBy;
    ClockIsExact(s, now);
    if Live(s) && 0 < amount {
      FlooredStepsIff(s, amount);
    }
  }

  // ---- Withdrawal ------------------------------------------------------

  /** The amount paid, or why nothing is: on a terminal stream all that is due has been paid for good. */
  lemma PayoutOutcome(s: Stream, now: U64, request: Option<I128>)
    requires Shape(s, now)
    ensures Vested(s, now).Ok?
    ensures var r := Payout(s, now, request);
            var due := Vested(s, now).value - s.withdrawn;
            var asked := if request.Some? then request.value else due;
            && (r.Ok? <==> 0 < asked <= due)
            && (r.Ok? ==> r.value == asked)
            && (r == Err(StreamTerminated) <==> due <= 0 && !Live(s))
            && (r == Err(NothingToWithdraw) <==> due <= 0 && Live(s))
            && (r == Err(InvalidAmount) <==> 0 < due && asked <= 0)
            && (r == Err(InsufficientWithdrawable) <==> 0 < due < asked)
  {
    hide Vested, Amount;
    VestedIsAmount(s, now);
    ReadingsNeverFail(s, now);
  }

  /** The record of a payout: a drain depletes the stream and closes an open pause, unless it was cancelled. */
  lemma DrawnFields(s: Stream, p: I128, now: U64)
    requires Shape(s, now) && 0 < p <= Amount(s, now) - s.withdrawn
    ensures Drawn(s, p, now).Ok?
    ensures var s' := Drawn(s, p, now).value;
            && s' == s.(withdrawn := s'.withdrawn, status := s'.status,
                        pausedAt := s'.pausedAt, pausedTotal := s'.pausedTotal)
            && s'.withdrawn == s.withdrawn + p
            && (s.withdrawn + p < s.deposited || s.status == Cancelled ==>
                  s'.status == s.status && s'.pausedAt == s.pausedAt && s'.pausedTotal == s.pausedTotal)
            && (s.withdrawn + p == s.deposited && s.status != Cancelled ==>
                  && s'.status == Depleted && s'.pausedAt == None
                  && s'.pausedTotal == s.pausedTotal + if s.status == Paused then now - s.pausedAt.value else 0)
  {
    hide Amount;
    AmountInRange(s, now);
  }

  // ---- Cancel ----------------------------------------------------------

  /** Cancelled at `now`: the vested amount stays, and the schedule ends at the clock, but not before its start. */
  predicate EndsAs(s: Stream, now: U64, s': Stream) {
    && s' == s.(deposited := s'.deposited, endTime := s'.endTime, pausedAt := None, status := Cancelled)
    && Vested(s, now) == Ok(s'.deposited)
    && s'.endTime == Max(s.startTime, Reading(s, now))
  }

  lemma CancelOutcome(s: Stream, now: U64)
    requires Shape(s, now)
    ensures Vested(s, now).Ok?
    ensures var r := QuoteCancel(s, now);
            && (r.Ok? <==> s.cancellable && Live(s))
            && (r == Err(NotCancellable) <==> !s.cancellable)
            && (r == Err(StreamTerminated) <==> s.cancellable && !Live(s))
            && (r.Ok? ==> && r.value.0 == Vested(s, now).value
                          && r.value.1 == s.deposited - Vested(s, now).value
                          && EndsAs(s, now, Collapsed(s, now, r.value.0)))
  {
    hide Vested, Amount;
    ClockIsExact(s, now);
    VestedIsAmount(s, now);
    ReadingsNeverFail(s, now);
  }

  // ---- Pause, resume, transfer ----------------------------------------

  /** Both forms: an active, pausable stream is paused, and no other. */
  lemma PauseOutcome(s: Stream, now: U64)
    requires Shape(s, now)
    ensures PauseStream(s, now) == DelegatePauseStream(s, now)
    ensures var r := PauseStream(s, now);
            && (r.Ok? <==> s.pausable && s.status == Active)
            && (r.Ok? ==> r.value == s.(pausedAt := Some(now), status := Paused))
            && (r == Err(NotPausable) <==> !s.pausable)
            && (r == Err(StreamTerminated) <==> s.pausable && !Live(s))
            && (r == Err(StreamAlreadyPaused) <==> s.pausable && s.status == Paused)
  {
    hide VestedKept;
    if DelegatePauseStream(s, now).Ok? {
      PauseSound(s, now, 0);
    }
  }

  /** A paused stream is resumed, pausable or not; the pause is added to the total. */
  lemma ResumeOutcome(s: Stream, now: U64)
    requires Shape(s, now)
    ensures ResumeStream(s, now) == DelegateResumeStream(s, now)
    ensures var r := ResumeStream(s, now);
            && (r.Ok? <==> s.status == Paused)
            && (r.Ok? ==> && r.value == s.(pausedTotal := r.value.pausedTotal, pausedAt := None, status := Active)
                          && r.value.pausedTotal == s.pausedTotal + now - s.pausedAt.value)
            && (r == Err(StreamTerminated) <==> !Live(s))
            && (r == Err(StreamNotPaused) <==> s.status == Active)
  {
    hide Vested;
    if s.status == Paused {
      ResumeSound(s, now, 0);
    }
  }

  /** A transferable stream with something left to pay goes to anybody but its sender and its recipient. */
  lemma TransferOutcome(s: Stream, to: Address, now: U64)
    requires Shape(s, now)
    ensures TransferStream(s, to, now) == DelegateTransferStream(s, to)
    ensures var r := TransferStream(s, to, now);
            && (r.Ok? <==> s.transferable && s.withdrawn < s.deposited && to != s.sender && to != s.recipient)
            && (r.Ok? ==> r.value == s.(recipient := to))
            && (r == Err(NotTransferable) <==> !s.transferable)
            && (r == Err(StreamTerminated) <==> s.transferable && s.deposited <= s.withdrawn)
            && (r == Err(SelfStream) <==> s.transferable && s.withdrawn < s.deposited && to == s.sender)
            && (r == Err(RepeatedTransfer)
                <==> s.transferable && s.withdrawn < s.deposited && to != s.sender && to == s.recipient)
  {
    hide VestedKept, Amount;
    if DelegateTransferStream(s, to).Ok? {
      TransferSound(s, to, now, 0);
    }
  }
}
