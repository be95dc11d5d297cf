// Machine integers with the source's checked and saturating operations, and
// the two wrapper datatypes that stand for its `Option` and `Result`.
module Prelude {

  const U64_MAX: int := 0xFFFF_FFFF_FFFF_FFFF
  const U32_MAX: int := 0xFFFF_FFFF
  const U128_MAX: int := 0xFFFF_FFFF_FFFF_FFFF_FFFF_FFFF_FFFF_FFFF
  const I128_MAX: int := 0x7FFF_FFFF_FFFF_FFFF_FFFF_FFFF_FFFF_FFFF
  const I128_MIN: int := -I128_MAX - 1

  type U64 = x: int | 0 <= x <= U64_MAX
  type U32 = x: int | 0 <= x <= U32_MAX
  type U128 = x: int | 0 <= x <= U128_MAX
  type I128 = x: int | I128_MIN <= x <= I128_MAX

  datatype Option<+T> = None | Some(value: T)

  /** The error table; `AuthRefused` stands for the host trap of a failed `require_auth`. */
  datatype Error =
    | StreamNotFound | InvalidTimeRange | InvalidCliff | InvalidDeposit | DepositRateTooLow
    | SelfStream | InvalidReferenceLength | Unauthorized | NotCancellable | NotPausable | NotTransferable
    | StreamNotPaused | StreamAlreadyPaused | StreamTerminated | StreamMatured
    | InsufficientWithdrawable | NothingToWithdraw | InvalidAmount
    | BatchTooLarge | EmptyBatch | DuplicateStreamId
    | Overflow | TopUpTooSmall | StreamIdExhausted
    | TokenTransferFailed | TokenMissing | DelegateNotPermitted | DelegateExpired
    | RepeatedTransfer | TokenAmountMismatch | VestedDecreased | PoolBalanceDrift
    | ContractHalted | HaltOperatorAlreadySet | HaltOperatorNotSet
    | ContractAlreadyHalted | ContractNotHalted
    | FactoryPaused | DepositExceedsCap | DurationBelowMinimum | TokenNotAllowlisted
    | RateBelowMin | RateAboveMax
    | AuthRefused

  datatype Result<+T> = Ok(value: T) | Err(error: Error) {
    predicate IsFailure() { Err? }
    function PropagateFailure<U>(): Result<U>
      requires Err?
    {
      Err(error)
    }
    function Extract(): T
      requires Ok?
    {
      value
    }
  }

  /** Outcome of a guard that carries no value. */
  datatype Check = Pass | Fail(error: Error) {
    predicate IsFailure() { Fail? }
    function PropagateFailure<U>(): Result<U>
      requires Fail?
    {
      Err(error)
    }
  }

  function Need(condition: bool, error: Error): Check {
    if condition then Pass else Fail(error)
  }

  function CheckedI128(x: int): Result<I128> {
    if I128_MIN <= x <= I128_MAX then Ok(x) else Err(Overflow)
  }

  function CheckedU64(x: int): Result<U64> {
    if 0 <= x <= U64_MAX then Ok(x) else Err(Overflow)
  }

  function SaturatingU64(x: int): U64 {
    if x < 0 then 0 else if x > U64_MAX then U64_MAX else x
  }

  /** Division and remainder that truncate toward zero. */
  function TruncDiv(a: int, b: int): int
    requires b != 0
  {
    var n, d := if a >= 0 then a else -a, if b >= 0 then b else -b;
    if (a >= 0) == (b >= 0) then n / d else -(n / d)
  }

  function TruncRem(a: int, b: int): int
    requires b != 0
  {
    a - b * TruncDiv(a, b)
  }

  function Min(a: int, b: int): int { if a <= b then a else b }
  function Max(a: int, b: int): int { if a >= b then a else b }
}
