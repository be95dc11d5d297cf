// What each entry point of `lib.rs` does to one stream: its guards in order,
// and the record it would save. Authorization, storage, tokens and events are
// added in EntryPoints.
module StreamOps {
  import opened Prelude
  import opened Types
  import opened Accrual

  const MAX_REFERENCE_LENGTH := 64

  // ---- Creation --------------------------------------------------------

  datatype Terms = Terms(
    sender: Address, recipient: Address, token: Address, deposit: I128,
    startTime: U64, endTime: U64, cliffTime: U64, cliffMode: CliffMode,
    cancellable: bool, pausable: bool, transferable: bool,
    reference: Option<string>, curve: ReleaseCurve)

  function NewStream(t: Terms): Result<Stream> {
    if t.sender == t.recipient then Err(SelfStream) else
    :- Need(t.deposit > 0, InvalidDeposit);
    :- Need(t.endTime > t.startTime, InvalidTimeRange);
    :- Need(t.startTime <= t.cliffTime <= t.endTime, InvalidCliff);
    :- Need(t.reference.Some? ==> |t.reference.value| <= MAX_REFERENCE_LENGTH, InvalidReferenceLength);
    var total := t.endTime - t.startTime;
    :- Need(t.deposit >= total, DepositRateTooLow);
    var guard :- CheckedI128(t.deposit * total);
    Ok(Stream(t.sender, t.recipient, t.token, t.deposit, 0, t.startTime, t.endTime, t.cliffTime,
              t.cliffMode, t.cancellable, t.pausable, t.transferable, None, 0, Active,
              t.curve, t.reference))
  }

  /** The up-front validation of one element of `batch_create`; no overflow guard. */
  function ValidRequest(sender: Address, r: BatchCreateRequest): Check {
    if r.recipient == sender then Fail(SelfStream)
    else if r.deposit <= 0 then Fail(InvalidDeposit)
    else if r.endTime <= r.startTime then Fail(InvalidTimeRange)
    else if r.cliffTime < r.startTime || r.cliffTime > r.endTime then Fail(InvalidCliff)
    else if r.deposit < r.endTime - r.startTime then Fail(DepositRateTooLow)
    else Pass
  }

  function RequestTerms(sender: Address, r: BatchCreateRequest): Terms {
    Terms(sender, r.recipient, r.token, r.deposit, r.startTime, r.endTime, r.cliffTime,
          DEFAULT_CLIFF_MODE, r.cancellable, r.pausable, r.transferable, None, Linear)
  }

  /** The factory's answers to the two view calls of `create_stream_via_factory`. */
  datatype Policy = Policy(
    creationPaused: bool, maxDeposit: I128, minDuration: U64,
    minRate: Option<I128>, maxRate: Option<I128>, allowlisted: bool)

  function PolicyCheck(p: Policy, t: Terms): Check {
    if p.creationPaused then Fail(FactoryPaused)
    else if t.deposit > p.maxDeposit then Fail(DepositExceedsCap)
    else if t.endTime > t.startTime && t.endTime - t.startTime < p.minDuration then Fail(DurationBelowMinimum)
    else if t.endTime > t.startTime && t.deposit > 0 && p.minRate.Some?
            && t.deposit / (t.endTime - t.startTime) < p.minRate.value then Fail(RateBelowMin)
    else if t.endTime > t.startTime && t.deposit > 0 && p.maxRate.Some?
            && t.deposit / (t.endTime - t.startTime) > p.maxRate.value then Fail(RateAboveMax)
    else if !p.allowlisted then Fail(TokenNotAllowlisted)
    else Pass
  }

  // ---- Top-up ----------------------------------------------------------

  /** `floor(amount * duration / deposited)`, at least one second. */
  function LinearDelta(s: Stream, amount: I128): Result<U64> {
    var scaled :- CheckedI128(amount * Duration(s));
    if s.deposited == 0 then
      Err(Overflow)
    else
      var delta :- CheckedI128(TruncDiv(scaled, s.deposited));
      :- Need(0 <= delta <= U64_MAX, Overflow);
      :- Need(delta != 0, TopUpTooSmall);
      Ok(delta)
  }

  function TopUpDurationDelta(s: Stream, amount: I128): Result<U64> {
    if s.curve == Linear then LinearDelta(s, amount) else Ok(0)
  }

  /** The stream with `amount` more and `delta` seconds more, under the creation guards. */
  function Extended(s: Stream, amount: I128, delta: U64): Result<Stream> {
    var deposited :- CheckedI128(s.deposited + amount);
    var end :- CheckedU64(s.endTime + delta);
    var total :- CheckedU64(end - s.startTime);
    var guard :- CheckedI128(deposited * total);
    :- Need(deposited >= total, DepositRateTooLow);
    Ok(s.(deposited := deposited, endTime := end))
  }

  /** The I3 guard of the direct entry points: refuse a change that lowers vested. */
  function VestedKept(s: Stream, s': Stream, now: U64): Result<Stream> {
    var before :- Vested(s, now);
    var after :- Vested(s', now);
    :- Need(after >= before, VestedDecreased);
    Ok(s')
  }

  function TopUpStream(s: Stream, amount: I128, now: U64): Result<Stream> {
    if s.status.IsTerminal() then Err(StreamTerminated) else
    :- Need(amount > 0, InvalidAmount);
    :- Need(StreamTime(s, now) < s.endTime, StreamMatured);
    var delta :- TopUpDurationDelta(s, amount);
    var s' :- Extended(s, amount, delta);
    VestedKept(s, s', now)
  }

  /** Applies the linear extension whatever the curve, and does not re-check vested. */
  function DelegateTopUpStream(s: Stream, amount: I128, now: U64): Result<Stream> {
    if s.status.IsTerminal() then Err(StreamTerminated) else
    :- Need(amount > 0, InvalidAmount);
    :- Need(StreamTime(s, now) < s.endTime, StreamMatured);
    var delta :- LinearDelta(s, amount);
    Extended(s, amount, delta)
  }

  // ---- Withdrawal ------------------------------------------------------

  /** How much a withdrawal pays; `None` asks for everything available. */
  function Payout(s: Stream, now: U64, amount: Option<I128>): Result<I128> {
    var available :- Withdrawable(s, now);
    if available == 0 then
      Err(if s.status.IsTerminal() then StreamTerminated else NothingToWithdraw)
    else
      match amount
      case None => Ok(available)
      case Some(requested) =>
        :- Need(requested > 0, InvalidAmount);
        :- Need(requested <= available, InsufficientWithdrawable);
        Ok(requested)
  }

  /** The accounting of `apply_withdrawal`: a drain depletes and closes an open pause. */
  function Drawn(s: Stream, payout: I128, now: U64): Result<Stream> {
    var withdrawn :- CheckedI128(s.withdrawn + payout);
    var s1 := s.(withdrawn := withdrawn);
    if withdrawn >= s.deposited && s.status != Cancelled then
      match s.pausedAt
      case None => Ok(s1.(status := Depleted))
      case Some(at) =>
        var total :- CheckedU64(s.pausedTotal + SaturatingU64(now - at));
        Ok(s1.(status := Depleted, pausedTotal := total, pausedAt := None))
    else
      Ok(s1)
  }

  // ---- Cancel ----------------------------------------------------------

  /** `(vested, refund)` of a cancellation at `now`. */
  function QuoteCancel(s: Stream, now: U64): Result<(I128, I128)> {
    if !s.cancellable then Err(NotCancellable) else
    :- Need(!s.status.IsTerminal(), StreamTerminated);
    var vested :- Vested(s, now);
    var refund :- Refundable(s, now);
    Ok((vested, refund))
  }

  /** The schedule collapsed onto the current point of the stream clock. */
  function Collapsed(s: Stream, now: U64, vested: I128): Stream {
    var clock := StreamTime(s, now);
    s.(deposited := vested,
       endTime := if clock > s.startTime then clock else s.startTime,
       pausedAt := None,
       status := Cancelled)
  }

  /** What `reclaim_dust` would hand back on a terminal stream. */
  function Dust(s: Stream, now: U64): Result<I128> {
    var owed :- Liability(s);
    var claim :- Withdrawable(s, now);
    CheckedI128(owed - claim)
  }

  // ---- Pause, resume, transfer ----------------------------------------

  function DelegatePauseStream(s: Stream, now: U64): Result<Stream> {
    if !s.pausable then Err(NotPausable) else
    :- Need(!s.status.IsTerminal(), StreamTerminated);
    :- Need(s.status != Paused, StreamAlreadyPaused);
    Ok(s.(pausedAt := Some(now), status := Paused))
  }

  function PauseStream(s: Stream, now: U64): Result<Stream> {
    var s' :- DelegatePauseStream(s, now);
    VestedKept(s, s', now)
  }

  /** Seconds of the pause a resume closes. */
  function PausedFor(s: Stream, now: U64): U64 {
    match s.pausedAt
    case Some(at) => SaturatingU64(now - at)
    case None => 0
  }

  function DelegateResumeStream(s: Stream, now: U64): Result<Stream> {
    if s.status.IsTerminal() then Err(StreamTerminated) else
    :- Need(s.pausedAt.Some? && s.status == Paused, StreamNotPaused);
    var total :- CheckedU64(s.pausedTotal + PausedFor(s, now));
    Ok(s.(pausedTotal := total, pausedAt := None, status := Active))
  }

  function ResumeStream(s: Stream, now: U64): Result<Stream> {
    if s.status.IsTerminal() then Err(StreamTerminated) else
    :- Need(s.pausedAt.Some? && s.status == Paused, StreamNotPaused);
    var before :- Vested(s, now);
    var s' :- DelegateResumeStream(s, now);
    var after :- Vested(s', now);
    :- Need(after >= before, VestedDecreased);
    Ok(s')
  }

  function DelegateTransferStream(s: Stream, to: Address): Result<Stream> {
    if !s.transferable then Err(NotTransferable) else
    :- Need(s.status != Depleted && s.withdrawn < s.deposited, StreamTerminated);
    :- Need(to != s.sender, SelfStream);
    :- Need(s.recipient != to, RepeatedTransfer);
    Ok(s.(recipient := to))
  }

  function TransferStream(s: Stream, to: Address, now: U64): Result<Stream> {
    var s' :- DelegateTransferStream(s, to);
    VestedKept(s, s', now)
  }
}
