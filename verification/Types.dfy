// The entities of `types.rs`.
module Types {
  import opened Prelude

  datatype Address = Address(key: nat)

  datatype StreamStatus = Active | Paused | Cancelled | Depleted {
    predicate IsTerminal() { Cancelled? || Depleted? }
  }

  datatype ReleaseCurve = Linear | Step | FrontLoaded

  datatype CliffMode = Schedule | WallClock

  const DEFAULT_CLIFF_MODE := Schedule

  datatype Stream = Stream(
    sender: Address,
    recipient: Address,
    token: Address,
    deposited: I128,
    withdrawn: I128,
    startTime: U64,
    endTime: U64,
    cliffTime: U64,
    cliffMode: CliffMode,
    cancellable: bool,
    pausable: bool,
    transferable: bool,
    pausedAt: Option<U64>,
    pausedTotal: U64,
    status: StreamStatus,
    curve: ReleaseCurve,
    reference: Option<string>)

  /** The frozen v1 stored layout: no curve, cliff mode or reference. */
  datatype StreamRecord = StreamRecord(
    sender: Address,
    recipient: Address,
    token: Address,
    deposited: I128,
    withdrawn: I128,
    startTime: U64,
    endTime: U64,
    cliffTime: U64,
    cancellable: bool,
    pausable: bool,
    transferable: bool,
    pausedAt: Option<U64>,
    pausedTotal: U64,
    status: StreamStatus)

  datatype StreamMetadata = StreamMetadata(cliffMode: CliffMode, reference: Option<string>)

  function FromStream(s: Stream): StreamRecord {
    StreamRecord(s.sender, s.recipient, s.token, s.deposited, s.withdrawn,
                 s.startTime, s.endTime, s.cliffTime, s.cancellable, s.pausable, s.transferable,
                 s.pausedAt, s.pausedTotal, s.status)
  }

  function IntoStream(r: StreamRecord, curve: ReleaseCurve): Stream {
    Stream(r.sender, r.recipient, r.token, r.deposited, r.withdrawn,
           r.startTime, r.endTime, r.cliffTime, DEFAULT_CLIFF_MODE,
           r.cancellable, r.pausable, r.transferable,
           r.pausedAt, r.pausedTotal, r.status, curve, None)
  }

  /** A `u32` of permission bits, as the set of the positions that are set. */
  type Mask = m: set<nat> | forall b :: b in m ==> b < 32

  const WITHDRAW := 0
  const CANCEL := 1
  const PAUSE := 2
  const RESUME := 3
  const TOP_UP := 4
  const TRANSFER_RECIPIENT := 5

  const SENDER_OPS: Mask := {CANCEL, PAUSE, RESUME, TOP_UP}
  const RECIPIENT_OPS: Mask := {WITHDRAW, TRANSFER_RECIPIENT}

  datatype DelegateGrant = DelegateGrant(ops: Mask, expiresAt: Option<U64>)

  datatype BatchCancelOutcome = BatchCancelOutcome(
    refunded: I128,
    refusedIndex: Option<nat>,
    refusedReason: Option<Error>)

  datatype BatchCreateRequest = BatchCreateRequest(
    recipient: Address,
    token: Address,
    deposit: I128,
    startTime: U64,
    endTime: U64,
    cliffTime: U64,
    cancellable: bool,
    pausable: bool,
    transferable: bool)
}
