// The entry points of `lib.rs` as functions from one state to the next. An
// error leaves the caller with the old state: the host's rollback.
module EntryPoints {
  import opened Prelude
  import opened Types
  import opened Accrual
  import opened StreamOps
  import opened Events
  import opened Ledger
  import Rent

  const MAX_BATCH_SIZE := 16

  function RequireAuth(env: Env, who: Address): Check {
    Need(who in env.auths, AuthRefused)
  }

  // ---- Creation --------------------------------------------------------

  function CreateInner(st: State, env: Env, t: Terms): Result<(State, U64)> {
    var s :- NewStream(t);
    :- Need(st.nextId != U64_MAX, StreamIdExhausted);
    var id := st.nextId;
    var st1 :- PullDeposit(st, env, t.token, t.sender, t.deposit);
    Ok((Emit(Save(st1, id, s), CreatedEvent(id, s)), id))
  }

  /** `create_stream_with_cliff_mode`; `create_stream` is the case `Schedule`. */
  function CreateWithCliffMode(st: State, env: Env, t: Terms): Result<(State, U64)> {
    if st.haltedAt.Some? then Err(ContractHalted) else
    :- RequireAuth(env, t.sender);
    CreateInner(st, env, t.(curve := Linear))
  }

  function CreateWithCurve(st: State, env: Env, t: Terms): Result<(State, U64)> {
    if st.haltedAt.Some? then Err(ContractHalted) else
    :- RequireAuth(env, t.sender);
    CreateInner(st, env, t.(cliffMode := DEFAULT_CLIFF_MODE, reference := None))
  }

  function CreateViaFactory(st: State, env: Env, policy: Policy, t: Terms): Result<(State, U64)> {
    if st.haltedAt.Some? then Err(ContractHalted) else
    :- RequireAuth(env, t.sender);
    :- PolicyCheck(policy, t);
    CreateInner(st, env, t.(cliffMode := DEFAULT_CLIFF_MODE, reference := None, curve := Linear))
  }

  /** The first `n` requests pass the up-front validation, or the first that does not says why. */
  function ValidRequests(sender: Address, requests: seq<BatchCreateRequest>, n: nat): Check
    requires n <= |requests|
  {
    if n == 0 then Pass
    else
      var earlier := ValidRequests(sender, requests, n - 1);
      if earlier.Fail? then earlier else ValidRequest(sender, requests[n - 1])
  }

  function CreateAll(st: State, env: Env, sender: Address, requests: seq<BatchCreateRequest>, n: nat)
    : Result<(State, seq<U64>)>
    requires n <= |requests|
  {
    if n == 0 then Ok((st, []))
    else
      var (st1, ids) :- CreateAll(st, env, sender, requests, n - 1);
      var (st2, id) :- CreateInner(st1, env, RequestTerms(sender, requests[n - 1]));
      Ok((st2, ids + [id]))
  }

  function BatchCreate(st: State, env: Env, sender: Address, requests: seq<BatchCreateRequest>)
    : Result<(State, seq<U64>)>
  {
    if st.haltedAt.Some? then Err(ContractHalted) else
    :- Need(|requests| != 0, EmptyBatch);
    :- Need(|requests| <= MAX_BATCH_SIZE, BatchTooLarge);
    :- RequireAuth(env, sender);
    :- ValidRequests(sender, requests, |requests|);
    CreateAll(st, env, sender, requests, |requests|)
  }

  // ---- Top-up ----------------------------------------------------------

  function TopUp(st: State, env: Env, id: U64, amount: I128): Result<(State, ())> {
    if st.haltedAt.Some? then Err(ContractHalted) else
    var s :- Load(st, id);
    :- RequireAuth(env, s.sender);
    var s' :- TopUpStream(s, amount, env.now);
    var st1 :- PullDeposit(st, env, s.token, s.sender, amount);
    :- VerifyPool(st1, s.token);
    Ok((Emit(Save(st1, id, s'), ToppedUpEvent(id, s', amount)), ()))
  }

  // ---- Withdrawal ------------------------------------------------------

  function ApplyWithdrawal(st: State, env: Env, id: U64, s: Stream, payout: I128): Result<State>
    requires id in st.streams
  {
    var s' :- Drawn(s, payout, env.now);
    var st1 :- DebitPool(st, s.token, payout);
    var st2 := Save(st1, id, s');
    var st3 :- TokenTransfer(st2, env, Pay(s.token, s.recipient, payout));
    Ok(Emit(st3, WithdrawnEvent(id, s', payout)))
  }

  /** The common end of `withdraw` and `delegate_withdraw`. */
  function PayOut(st: State, env: Env, id: U64, s: Stream, amount: Option<I128>): Result<(State, I128)>
    requires id in st.streams
  {
    var payout :- Payout(s, env.now, amount);
    var st1 :- ApplyWithdrawal(st, env, id, s, payout);
    :- VerifyPool(st1, s.token);
    Ok((st1, payout))
  }

  function Withdraw(st: State, env: Env, id: U64, amount: Option<I128>): Result<(State, I128)> {
    if st.haltedAt.Some? then Err(ContractHalted) else
    var s :- Load(st, id);
    :- RequireAuth(env, s.recipient);
    PayOut(st, env, id, s, amount)
  }

  function ValidBatch(ids: seq<U64>): Check {
    if |ids| == 0 then Fail(EmptyBatch)
    else if |ids| > MAX_BATCH_SIZE then Fail(BatchTooLarge)
    else if exists i, j :: 0 <= i < j < |ids| && ids[i] == ids[j] then Fail(DuplicateStreamId)
    else Pass
  }

  /** The pre-flight of `batch_withdraw`: everything available on the first `n` ids, summed. */
  function QuoteWithdrawals(st: State, now: U64, recipient: Address, ids: seq<U64>, n: nat): Result<I128>
    requires n <= |ids|
  {
    if n == 0 then Ok(0)
    else
      var total :- QuoteWithdrawals(st, now, recipient, ids, n - 1);
      var s :- Load(st, ids[n - 1]);
      :- Need(s.recipient == recipient, Unauthorized);
      var available :- Withdrawable(s, now);
      CheckedI128(total + available)
  }

  /** Withdraw everything from stream `id`, unless there is nothing. */
  function DrainOne(st: State, env: Env, id: U64): Result<State> {
    var s :- Load(st, id);
    var available :- Withdrawable(s, env.now);
    if available == 0 then Ok(st) else ApplyWithdrawal(st, env, id, s, available)
  }

  /** One full withdrawal after the other, each reading the state its predecessor left. */
  function DrainInOrder(st: State, env: Env, ids: seq<U64>, n: nat): Result<State>
    requires n <= |ids|
  {
    if n == 0 then Ok(st)
    else
      var st1 :- DrainInOrder(st, env, ids, n - 1);
      DrainOne(st1, env, ids[n - 1])
  }

  /** The tokens of all streams in the batch are covered. */
  predicate AllBacked(st: State, ids: seq<U64>) {
    forall i :: 0 <= i < |ids| && ids[i] in st.streams ==> Backed(st, st.streams[ids[i]].token)
  }

  function BatchWithdraw(st: State, env: Env, recipient: Address, ids: seq<U64>): Result<(State, I128)> {
    if st.haltedAt.Some? then Err(ContractHalted) else
    :- ValidBatch(ids);
    :- RequireAuth(env, recipient);
    var total :- QuoteWithdrawals(st, env.now, recipient, ids, |ids|);
    var st1 :- DrainInOrder(st, env, ids, |ids|);
    :- Need(AllBacked(st1, ids), PoolBalanceDrift);
    Ok((st1, total))
  }

  // ---- Cancel ----------------------------------------------------------

  function SettleCancel(st: State, env: Env, id: U64, s: Stream, vested: I128, refund: I128): Result<State>
    requires id in st.streams
  {
    var s' := Collapsed(s, env.now, vested);
    var st1 := Save(st, id, s');
    var st2 :-
      if refund > 0 then
        (var paid :- DebitPool(st1, s.token, refund); TokenTransfer(paid, env, Pay(s.token, s.sender, refund)))
      else Ok(st1);
    :- VerifyPool(st2, s.token);
    Ok(Emit(st2, CancelledEvent(id, s', refund)))
  }

  /** Price and settle: the common end of `cancel` and `delegate_cancel`. */
  function CancelLoaded(st: State, env: Env, id: U64, s: Stream): Result<(State, I128)>
    requires id in st.streams
  {
    var (vested, refund) :- QuoteCancel(s, env.now);
    var st1 :- SettleCancel(st, env, id, s, vested, refund);
    Ok((st1, refund))
  }

  function CancelOne(st: State, env: Env, id: U64): Result<(State, I128)> {
    var s :- Load(st, id);
    CancelLoaded(st, env, id, s)
  }

  function Cancel(st: State, env: Env, id: U64): Result<(State, ())> {
    if st.haltedAt.Some? then Err(ContractHalted) else
    var s :- Load(st, id);
    :- RequireAuth(env, s.sender);
    var (st1, _) :- CancelLoaded(st, env, id, s);
    Ok((st1, ()))
  }

  function OwnedBy(st: State, sender: Address, ids: seq<U64>, n: nat): Check
    requires n <= |ids|
  {
    if n == 0 then Pass
    else
      var earlier := OwnedBy(st, sender, ids, n - 1);
      if earlier.Fail? then earlier
      else if ids[n - 1] !in st.streams then Fail(StreamNotFound)
      else Need(st.streams[ids[n - 1]].sender == sender, Unauthorized)
  }

  /** Pricing a batch: the summed refunds, or the position that refused and why. */
  datatype Quote = Priced(total: I128) | RefusedAt(index: nat, reason: Error)

  function QuoteCancels(st: State, now: U64, ids: seq<U64>, n: nat): Result<Quote>
    requires n <= |ids|
  {
    if n == 0 then Ok(Priced(0))
    else
      var earlier :- QuoteCancels(st, now, ids, n - 1);
      if earlier.RefusedAt? then Ok(earlier)
      else
        var s :- Load(st, ids[n - 1]);
        match QuoteCancel(s, now)
        case Err(reason) => Ok(RefusedAt(n - 1, reason))
        case Ok((_, refund)) =>
          var total :- CheckedI128(earlier.total + refund);
          Ok(Priced(total))
  }

  /** One cancellation after the other, each reading the state its predecessor left; refunds summed. */
  function CancelInOrder(st: State, env: Env, ids: seq<U64>, n: nat): Result<(State, int)>
    requires n <= |ids|
  {
    if n == 0 then Ok((st, 0))
    else
      var (st1, total) :- CancelInOrder(st, env, ids, n - 1);
      var (st2, refund) :- CancelOne(st1, env, ids[n - 1]);
      Ok((st2, total + refund))
  }

  /** No halt guard: the source has none here. */
  function BatchCancel(st: State, env: Env, sender: Address, ids: seq<U64>): Result<(State, BatchCancelOutcome)> {
    var valid := ValidBatch(ids);
    :- valid;
    :- RequireAuth(env, sender);
    :- OwnedBy(st, sender, ids, |ids|);
    var quote :- QuoteCancels(st, env.now, ids, |ids|);
    match quote
    case RefusedAt(i, reason) => Ok((st, BatchCancelOutcome(0, Some(i), Some(reason))))
    case Priced(total) =>
      var (st1, _) :- CancelInOrder(st, env, ids, |ids|);
      Ok((st1, BatchCancelOutcome(total, None, None)))
  }

  /** No halt guard and no pool debit: the source has neither here. */
  function ReclaimDust(st: State, env: Env, id: U64): Result<(State, I128)> {
    var s :- Load(st, id);
    :- RequireAuth(env, s.sender);
    if !s.status.IsTerminal() then Ok((st, 0))
    else
      var amount :- Dust(s, env.now);
      if amount > 0 then
        var deposited :- CheckedI128(s.deposited - amount);
        var st1 := Save(st, id, s.(deposited := deposited));
        var st2 :- TokenTransfer(st1, env, Pay(s.token, s.sender, amount));
        Ok((st2, amount))
      else
        Ok((st, amount))
  }

  // ---- Pause, resume, transfer ----------------------------------------

  function Pause(st: State, env: Env, id: U64): Result<(State, ())> {
    if st.haltedAt.Some? then Err(ContractHalted) else
    var s :- Load(st, id);
    :- RequireAuth(env, s.sender);
    var s' :- PauseStream(s, env.now);
    Ok((Emit(Save(st, id, s'), PausedEvent(id, s', env.now)), ()))
  }

  function Resume(st: State, env: Env, id: U64): Result<(State, ())> {
    if st.haltedAt.Some? then Err(ContractHalted) else
    var s :- Load(st, id);
    :- RequireAuth(env, s.sender);
    var s' :- ResumeStream(s, env.now);
    Ok((Emit(Save(st, id, s'), ResumedEvent(id, s', PausedFor(s, env.now))), ()))
  }

  function TransferRecipient(st: State, env: Env, id: U64, to: Address): Result<(State, ())> {
    if st.haltedAt.Some? then Err(ContractHalted) else
    var s :- Load(st, id);
    :- RequireAuth(env, s.sender);
    var s' :- TransferStream(s, to, env.now);
    Ok((Emit(Save(st, id, s'), RecipientTransferred(id, s.recipient, to, s.sender)), ()))
  }

  // ---- Delegation ------------------------------------------------------

  function GrantDelegate(st: State, env: Env, id: U64, grantor: Address, delegate: Address,
                         ops: Mask, expiresAt: Option<U64>): Result<(State, ())>
  {
    if st.haltedAt.Some? then Err(ContractHalted) else
    var s :- Load(st, id);
    :- Need(!s.status.IsTerminal(), StreamTerminated);
    var needsSender, needsRecipient := ops * SENDER_OPS != {}, ops * RECIPIENT_OPS != {};
    :- Need(!(needsSender && needsRecipient), Unauthorized);
    if !needsSender && !needsRecipient then
      Ok((st, ()))
    else
      :- Need(grantor == if needsSender then s.sender else s.recipient, Unauthorized);
      :- RequireAuth(env, grantor);
      Ok((Emit(st.(grants := st.grants[(id, delegate) := DelegateGrant(ops, expiresAt)]),
               DelegateGranted(id, grantor, delegate, ops, expiresAt)), ()))
  }

  function RevokeDelegate(st: State, env: Env, id: U64, grantor: Address, delegate: Address): Result<(State, ())> {
    if st.haltedAt.Some? then Err(ContractHalted) else
    var s :- Load(st, id);
    :- Need(grantor == s.sender || grantor == s.recipient, Unauthorized);
    :- RequireAuth(env, grantor);
    Ok((Emit(st.(grants := st.grants - {(id, delegate)}), DelegateRevoked(id, grantor, delegate)), ()))
  }

  function CheckDelegate(st: State, env: Env, id: U64, delegate: Address, op: nat): Check {
    if (id, delegate) !in st.grants then Fail(DelegateNotPermitted)
    else
      var grant := st.grants[(id, delegate)];
      if grant.expiresAt.Some? && env.now > grant.expiresAt.value then Fail(DelegateExpired)
      else if op !in grant.ops then Fail(DelegateNotPermitted)
      else RequireAuth(env, delegate)
  }

  function DelegateWithdraw(st: State, env: Env, id: U64, delegate: Address, amount: Option<I128>)
    : Result<(State, I128)>
  {
    if st.haltedAt.Some? then Err(ContractHalted) else
    :- CheckDelegate(st, env, id, delegate, WITHDRAW);
    var s :- Load(st, id);
    PayOut(st, env, id, s, amount)
  }

  function DelegateCancel(st: State, env: Env, id: U64, delegate: Address): Result<(State, ())> {
    if st.haltedAt.Some? then Err(ContractHalted) else
    :- CheckDelegate(st, env, id, delegate, CANCEL);
    var s :- Load(st, id);
    var (st1, _) :- CancelLoaded(st, env, id, s);
    Ok((st1, ()))
  }

  function DelegatePause(st: State, env: Env, id: U64, delegate: Address): Result<(State, ())> {
    if st.haltedAt.Some? then Err(ContractHalted) else
    :- CheckDelegate(st, env, id, delegate, PAUSE);
    var s :- Load(st, id);
    var s' :- DelegatePauseStream(s, env.now);
    Ok((Emit(Save(st, id, s'), PausedEvent(id, s', env.now)), ()))
  }

  function DelegateResume(st: State, env: Env, id: U64, delegate: Address): Result<(State, ())> {
    if st.haltedAt.Some? then Err(ContractHalted) else
    :- CheckDelegate(st, env, id, delegate, RESUME);
    var s :- Load(st, id);
    var s' :- DelegateResumeStream(s, env.now);
    Ok((Emit(Save(st, id, s'), ResumedEvent(id, s', PausedFor(s, env.now))), ()))
  }

  /** Saves before it pulls, and needs the sender's authorization as well. */
  function DelegateTopUp(st: State, env: Env, id: U64, delegate: Address, amount: I128): Result<(State, ())> {
    if st.haltedAt.Some? then Err(ContractHalted) else
    :- CheckDelegate(st, env, id, delegate, TOP_UP);
    var s :- Load(st, id);
    var s' :- DelegateTopUpStream(s, amount, env.now);
    var st1 := Save(st, id, s');
    :- RequireAuth(env, s.sender);
    var st2 :- PullDeposit(st1, env, s.token, s.sender, amount);
    :- VerifyPool(st2, s.token);
    Ok((Emit(st2, ToppedUpEvent(id, s', amount)), ()))
  }

  function DelegateTransferRecipient(st: State, env: Env, id: U64, delegate: Address, to: Address)
    : Result<(State, ())>
  {
    if st.haltedAt.Some? then Err(ContractHalted) else
    :- CheckDelegate(st, env, id, delegate, TRANSFER_RECIPIENT);
    var s :- Load(st, id);
    var s' :- DelegateTransferStream(s, to);
    Ok((Emit(Save(st, id, s'), RecipientTransferred(id, s.recipient, to, s.sender)), ()))
  }

  // ---- Halt and maintenance -------------------------------------------

  function SetHaltOperator(st: State, env: Env, operator: Address): Result<(State, ())> {
    if operator !in env.auths then Err(AuthRefused) else
    :- Need(st.operator.None?, HaltOperatorAlreadySet);
    Ok((Emit(st.(operator := Some(operator)), HaltOperatorSet(operator)), ()))
  }

  function Halt(st: State, env: Env): Result<(State, ())> {
    match st.operator
    case None => Err(HaltOperatorNotSet)
    case Some(operator) =>
      :- RequireAuth(env, operator);
      :- Need(st.haltedAt.None?, ContractAlreadyHalted);
      Ok((Emit(st.(haltedAt := Some(env.now)), HaltEngaged(operator, env.now)), ()))
  }

  function ResumeContract(st: State, env: Env): Result<(State, ())> {
    match st.operator
    case None => Err(HaltOperatorNotSet)
    case Some(operator) =>
      :- RequireAuth(env, operator);
      match st.haltedAt
      case None => Err(ContractNotHalted)
      case Some(at) =>
        Ok((Emit(st.(haltedAt := None), HaltLifted(operator, env.now, SaturatingU64(env.now - at))), ()))
  }

  function ExtendStreamTtl(st: State, env: Env, id: U64): Result<(State, U32)> {
    if st.haltedAt.Some? then Err(ContractHalted) else
    var s :- Load(st, id);
    :- Need(!s.status.IsTerminal(), StreamTerminated);
    var target := Rent.TtlTarget(s, env.now, env.maxTtl);
    Ok((Emit(st, TtlExtended(id, target)), target))
  }
}
