// The contract object: its stored entries, and one method per entry point,
// written as `lib.rs` writes it and proved to do what EntryPoints says.
module Contract {
  import opened Prelude
  import opened Types
  import opened Accrual
  import opened StreamOps
  import opened Events
  import opened Ledger
  import opened Storage
  import opened Batches
  import opened Invariant
  import opened Runs
  import E = EntryPoints
  import Rent

  /** What the host restores when an invocation fails. */
  datatype Snapshot = Snapshot(
    records: map<U64, StreamRecord>, curves: map<U64, ReleaseCurve>, metadata: map<U64, StreamMetadata>,
    nextId: U64, count: U64, pooled: map<Address, I128>, grants: map<(U64, Address), DelegateGrant>,
    operator: Option<Address>, haltedAt: Option<U64>, log: seq<Event>, bank: Bank, moves: seq<Move>)

  ghost predicate Stores(records: map<U64, StreamRecord>, curves: map<U64, ReleaseCurve>,
                         metadata: map<U64, StreamMetadata>, streams: map<U64, Stream>)
  {
    streams == StoredStreams(records, curves, metadata)
  }

  /** The call did what `spec` says; on an error the state is left for the host to roll back. */
  ghost predicate Did<T(!new)>(after: State, r: Result<T>, spec: Result<(State, T)>) {
    match r
    case Ok(v) => spec == Ok((after, v))
    case Err(e) => spec == Err(e)
  }

  /** The same for a step that returns nothing. */
  ghost predicate Became(after: State, r: Result<()>, spec: Result<State>) {
    match r
    case Ok(_) => spec == Ok(after)
    case Err(e) => spec == Err(e)
  }

  /** The outcome without the value. */
  function Done<T>(r: Result<T>): Result<()> {
    match r
    case Ok(_) => Ok(())
    case Err(e) => Err(e)
  }

  class FluxoraStream {
    var records: map<U64, StreamRecord>
    var curves: map<U64, ReleaseCurve>
    var metadata: map<U64, StreamMetadata>
    var nextId: U64
    var count: U64
    var pooled: map<Address, I128>
    var grants: map<(U64, Address), DelegateGrant>
    var operator: Option<Address>
    var haltedAt: Option<U64>
    var log: seq<Event>
    var bank: Bank
    var moves: seq<Move>

    /** What the three stored maps decode to. */
    ghost var streams: map<U64, Stream>

    ghost predicate Valid()
      reads this`records, this`curves, this`metadata, this`streams
    {
      Stores(records, curves, metadata, streams)
    }

    /** The abstract state. */
    ghost function Abs(): State
      reads this
    {
      State(streams, nextId, count, pooled, grants, operator, haltedAt, log, bank, moves)
    }

    constructor ()
      ensures Valid() && Abs() == EMPTY
    {
      records, curves, metadata, streams := map[], map[], map[], map[];
      nextId, count := 0, 0;
      pooled, grants := map[], map[];
      operator, haltedAt := None, None;
      log, bank, moves := [], map[], [];
    }

    // ---- storage.rs ----------------------------------------------------

    method ReadStream(id: U64) returns (r: Result<Stream>)
      requires Valid()
      ensures r == Load(Abs(), id)
    {
      if id !in records {
        return Err(StreamNotFound);
      }
      var curve := if id in curves then curves[id] else Linear;
      var stream := IntoStream(records[id], curve);
      if id in metadata {
        stream := stream.(cliffMode := metadata[id].cliffMode, reference := metadata[id].reference);
      }
      return Ok(stream);
    }

    /** The record, and the side-cars it needs or no longer needs. */
    method PutStream(id: U64, stream: Stream)
      requires Valid()
      modifies this`records, this`curves, this`metadata, this`streams
      ensures Valid() && streams == old(streams)[id := stream]
    {
      hide Stores;
      SavedEntries(records, curves, metadata, streams, id, stream);
      streams := streams[id := stream];
      records := records[id := FromStream(stream)];
      if stream.curve == Linear {
        curves := curves - {id};
      } else {
        curves := curves[id := stream.curve];
      }
      if stream.cliffMode != DEFAULT_CLIFF_MODE || stream.reference.Some? {
        metadata := metadata[id := StreamMetadata(stream.cliffMode, stream.reference)];
      } else {
        metadata := metadata - {id};
      }
    }

    method SaveStream(id: U64, stream: Stream)
      requires Valid() && (id in streams || nextId < U64_MAX)
      modifies this`records, this`curves, this`metadata, this`streams, this`nextId, this`count
      ensures Valid() && Abs() == Save(old(Abs()), id, stream)
    {
      var isNew := id !in records;
      PutStream(id, stream);
      if isNew {
        var next := nextId + 1;
        nextId := next;
        count := next;
      }
    }

    method CreditPool(token: Address, amount: I128) returns (r: Result<()>)
      modifies this`pooled
      ensures Became(Abs(), r, Ledger.CreditPool(old(Abs()), token, amount))
    {
      var balance := if token in pooled then pooled[token] else 0;
      var next :- CheckedI128(balance + amount);
      pooled := pooled[token := next];
      return Ok(());
    }

    method DebitPool(token: Address, amount: I128) returns (r: Result<()>)
      modifies this`pooled
      ensures Became(Abs(), r, Ledger.DebitPool(old(Abs()), token, amount))
    {
      var balance := if token in pooled then pooled[token] else 0;
      var next :- CheckedI128(balance - amount);
      pooled := pooled[token := next];
      return Ok(());
    }

    method Publish(e: Event)
      modifies this`log
      ensures Abs() == Emit(old(Abs()), e)
    {
      log := log + [e];
    }

    // ---- Token calls ---------------------------------------------------

    method TokenTransfer(env: Env, move: Move) returns (r: Result<()>)
      modifies this`bank, this`moves
      ensures Became(Abs(), r, Ledger.TokenTransfer(old(Abs()), env, move))
    {
      var reply := env.host(moves, bank, move);
      match reply.outcome
      case Moved =>
        bank := reply.bank;
        moves := moves + [move];
        return Ok(());
      case Refused => return Err(TokenTransferFailed);
      case Trapped => return Err(TokenMissing);
    }

    method PullDeposit(env: Env, token: Address, from: Address, amount: I128) returns (r: Result<()>)
      modifies this`bank, this`moves, this`pooled
      ensures Became(Abs(), r, Ledger.PullDeposit(old(Abs()), env, token, from, amount))
    {
      var before: int := BalanceOf(bank, token);
      var _ :- TokenTransfer(env, Pull(token, from, amount));
      var after: int := BalanceOf(bank, token);
      var received :- CheckedI128(after - before);
      if received != amount {
        return Err(TokenAmountMismatch);
      }
      r := CreditPool(token, amount);
    }

    method VerifyPoolBalance(token: Address) returns (r: Result<()>)
      ensures r == if Backed(Abs(), token) then Ok(()) else Err(PoolBalanceDrift)
    {
      var expected := if token in pooled then pooled[token] else 0;
      var actual := BalanceOf(bank, token);
      if actual < expected {
        return Err(PoolBalanceDrift);
      }
      return Ok(());
    }

    // ---- Creation ------------------------------------------------------

    method CreateStreamInner(env: Env, t: Terms) returns (r: Result<U64>)
      requires Valid()
      modifies this
      ensures Valid()
      ensures Did(Abs(), r, E.CreateInner(old(Abs()), env, t))
    {
      hide Stores, Ledger.PullDeposit, Save;
      if t.sender == t.recipient {
        return Err(SelfStream);
      }
      if t.deposit <= 0 {
        return Err(InvalidDeposit);
      }
      if t.endTime <= t.startTime {
        return Err(InvalidTimeRange);
      }
      if t.cliffTime < t.startTime || t.cliffTime > t.endTime {
        return Err(InvalidCliff);
      }
      if t.reference.Some? && |t.reference.value| > MAX_REFERENCE_LENGTH {
        return Err(InvalidReferenceLength);
      }
      var total := t.endTime - t.startTime;
      if t.deposit < total {
        return Err(DepositRateTooLow);
      }
      var _ :- CheckedI128(t.deposit * total);
      if nextId == U64_MAX {
        return Err(StreamIdExhausted);
      }
      var id := nextId;
      var stream := Stream(t.sender, t.recipient, t.token, t.deposit, 0, t.startTime, t.endTime, t.cliffTime,
                           t.cliffMode, t.cancellable, t.pausable, t.transferable, None, 0, Active,
                           t.curve, t.reference);
      var _ :- PullDeposit(env, t.token, t.sender, t.deposit);
      SaveStream(id, stream);
      Publish(CreatedEvent(id, stream));
      return Ok(id);
    }

    method CreateStreamWithCliffMode(env: Env, t: Terms) returns (r: Result<U64>)
      requires Valid()
      modifies this
      ensures Valid()
      ensures Did(Abs(), r, E.CreateWithCliffMode(old(Abs()), env, t))
    {
      if haltedAt.Some? {
        return Err(ContractHalted);
      }
      if t.sender !in env.auths {
        return Err(AuthRefused);
      }
      r := CreateStreamInner(env, t.(curve := Linear));
    }

    method CreateStreamWithCurve(env: Env, t: Terms) returns (r: Result<U64>)
      requires Valid()
      modifies this
      ensures Valid()
      ensures Did(Abs(), r, E.CreateWithCurve(old(Abs()), env, t))
    {
      if haltedAt.Some? {
        return Err(ContractHalted);
      }
      if t.sender !in env.auths {
        return Err(AuthRefused);
      }
      r := CreateStreamInner(env, t.(cliffMode := DEFAULT_CLIFF_MODE, reference := None));
    }

    method CreateStreamViaFactory(env: Env, p: Policy, t: Terms) returns (r: Result<U64>)
      requires Valid()
      modifies this
      ensures Valid()
      ensures Did(Abs(), r, E.CreateViaFactory(old(Abs()), env, p, t))
    {
      if haltedAt.Some? {
        return Err(ContractHalted);
      }
      if t.sender !in env.auths {
        return Err(AuthRefused);
      }
      if p.creationPaused {
        return Err(FactoryPaused);
      }
      if t.deposit > p.maxDeposit {
        return Err(DepositExceedsCap);
      }
      if t.endTime > t.startTime {
        var duration := t.endTime - t.startTime;
        if duration < p.minDuration {
          return Err(DurationBelowMinimum);
        }
        if t.deposit > 0 {
          var rate := t.deposit / duration;
          if p.minRate.Some? && rate < p.minRate.value {
            return Err(RateBelowMin);
          }
          if p.maxRate.Some? && rate > p.maxRate.value {
            return Err(RateAboveMax);
          }
        }
      }
      if !p.allowlisted {
        return Err(TokenNotAllowlisted);
      }
      r := CreateStreamInner(env, t.(cliffMode := DEFAULT_CLIFF_MODE, reference := None, curve := Linear));
    }

    method BatchCreate(env: Env, sender: Address, requests: seq<BatchCreateRequest>) returns (r: Result<seq<U64>>)
      requires Valid()
      modifies this
      ensures Valid()
      ensures Did(Abs(), r, E.BatchCreate(old(Abs()), env, sender, requests))
    {
      if haltedAt.Some? {
        return Err(ContractHalted);
      }
      if |requests| == 0 {
        return Err(EmptyBatch);
      }
      if |requests| > E.MAX_BATCH_SIZE {
        return Err(BatchTooLarge);
      }
      if sender !in env.auths {
        return Err(AuthRefused);
      }
      for i := 0 to |requests|
        invariant E.ValidRequests(sender, requests, i).Pass?
        invariant Abs() == old(Abs())
      {
        var check := ValidRequest(sender, requests[i]);
        if check.Fail? {
          InvalidRequestStops(sender, requests, i + 1, |requests|);
          return Err(check.error);
        }
      }
      r := CreateEach(env, sender, requests);
    }

    method CreateEach(env: Env, sender: Address, requests: seq<BatchCreateRequest>) returns (r: Result<seq<U64>>)
      requires Valid()
      modifies this
      ensures Valid()
      ensures Did(Abs(), r, E.CreateAll(old(Abs()), env, sender, requests, |requests|))
    {
      ghost var st0 := Abs();
      var ids: seq<U64> := [];
      assert E.CreateAll(st0, env, sender, requests, 0) == Ok((st0, ids));
      hide E.CreateAll, E.CreateInner;
      for i := 0 to |requests|
        invariant Valid() && E.CreateAll(st0, env, sender, requests, i) == Ok((Abs(), ids))
      {
        CreateStep(st0, env, sender, requests, i, Abs(), ids);
        var id :- CreateStreamInner(env, RequestTerms(sender, requests[i]));
        ids := ids + [id];
      }
      return Ok(ids);
    }

    // ---- Top-up --------------------------------------------------------

    /** The guards and field assignments of `top_up`. */
    method ExtendSchedule(s: Stream, amount: I128, now: U64) returns (r: Result<Stream>)
      ensures r == TopUpStream(s, amount, now)
      ensures r.Ok? ==> r.value.token == s.token && r.value.sender == s.sender
    {
      hide Vested, TopUpDurationDelta, StreamTime;
      var stream := s;
      if stream.status.IsTerminal() {
        return Err(StreamTerminated);
      }
      if amount <= 0 {
        return Err(InvalidAmount);
      }
      if StreamTime(stream, now) >= stream.endTime {
        return Err(StreamMatured);
      }
      var delta :- TopUpDurationDelta(stream, amount);
      var deposited :- CheckedI128(stream.deposited + amount);
      var end :- CheckedU64(stream.endTime + delta);
      var total :- CheckedU64(end - stream.startTime);
      var _ :- CheckedI128(deposited * total);
      if deposited < total {
        return Err(DepositRateTooLow);
      }
      var before :- Vested(stream, now);
      stream := stream.(deposited := deposited);
      stream := stream.(endTime := end);
      var after :- Vested(stream, now);
      if after < before {
        return Err(VestedDecreased);
      }
      return Ok(stream);
    }

    method TopUp(env: Env, id: U64, amount: I128) returns (r: Result<()>)
      requires Valid()
      modifies this
      ensures Valid()
      ensures Did(Abs(), r, E.TopUp(old(Abs()), env, id, amount))
    {
      hide TopUpStream, Ledger.PullDeposit, Save, Emit, Stores;
      if haltedAt.Some? {
        return Err(ContractHalted);
      }
      var stream :- ReadStream(id);
      if stream.sender !in env.auths {
        return Err(AuthRefused);
      }
      stream :- ExtendSchedule(stream, amount, env.now);
      var _ :- PullDeposit(env, stream.token, stream.sender, amount);
      var _ :- VerifyPoolBalance(stream.token);
      SaveStream(id, stream);
      Publish(ToppedUpEvent(id, stream, amount));
      return Ok(());
    }

    // ---- Withdrawal ----------------------------------------------------

    /** The field assignments of `apply_withdrawal`. */
    method RecordDraw(s: Stream, payout: I128, now: U64) returns (r: Result<Stream>)
      ensures r == Drawn(s, payout, now)
      ensures r.Ok? ==> r.value.token == s.token && r.value.recipient == s.recipient
    {
      var stream := s;
      var withdrawn :- CheckedI128(stream.withdrawn + payout);
      stream := stream.(withdrawn := withdrawn);
      if stream.withdrawn >= stream.deposited && stream.status != Cancelled {
        stream := stream.(status := Depleted);
        if stream.pausedAt.Some? {
          var total :- CheckedU64(stream.pausedTotal + SaturatingU64(now - stream.pausedAt.value));
          stream := stream.(pausedTotal := total);
          stream := stream.(pausedAt := None);
        }
      }
      return Ok(stream);
    }

    method ApplyWithdrawal(env: Env, id: U64, s: Stream, payout: I128) returns (r: Result<()>)
      requires Valid() && id in streams
      modifies this
      ensures Valid()
      ensures Became(Abs(), r, E.ApplyWithdrawal(old(Abs()), env, id, s, payout))
    {
      var stream :- RecordDraw(s, payout, env.now);
      var _ :- DebitPool(stream.token, payout);
      SaveStream(id, stream);
      var _ :- TokenTransfer(env, Pay(stream.token, stream.recipient, payout));
      Publish(WithdrawnEvent(id, stream, payout));
      return Ok(());
    }

    /** The tail of `withdraw` and `delegate_withdraw` after their different authorization. */
    method PayOut(env: Env, id: U64, stream: Stream, amount: Option<I128>) returns (r: Result<I128>)
      requires Valid() && Load(Abs(), id) == Ok(stream)
      modifies this
      ensures Valid()
      ensures Did(Abs(), r, E.PayOut(old(Abs()), env, id, stream, amount))
    {
      var available :- Withdrawable(stream, env.now);
      if available == 0 {
        if stream.status.IsTerminal() {
          return Err(StreamTerminated);
        }
        return Err(NothingToWithdraw);
      }
      var payout := available;
      if amount.Some? {
        if amount.value <= 0 {
          return Err(InvalidAmount);
        }
        if amount.value > available {
          return Err(InsufficientWithdrawable);
        }
        payout := amount.value;
      }
      var _ :- ApplyWithdrawal(env, id, stream, payout);
      var _ :- VerifyPoolBalance(stream.token);
      return Ok(payout);
    }

    method Withdraw(env: Env, id: U64, amount: Option<I128>) returns (r: Result<I128>)
      requires Valid()
      modifies this
      ensures Valid()
      ensures Did(Abs(), r, E.Withdraw(old(Abs()), env, id, amount))
    {
      if haltedAt.Some? {
        return Err(ContractHalted);
      }
      var stream :- ReadStream(id);
      if stream.recipient !in env.auths {
        return Err(AuthRefused);
      }
      r := PayOut(env, id, stream, amount);
    }

    /** `validate_batch_ids` and `reject_duplicate_ids`. */
    method ValidateBatch(ids: seq<U64>) returns (r: Check)
      ensures r == E.ValidBatch(ids)
    {
      if |ids| == 0 {
        return Fail(EmptyBatch);
      }
      if |ids| > E.MAX_BATCH_SIZE {
        return Fail(BatchTooLarge);
      }
      for i := 0 to |ids|
        invariant forall a, b :: 0 <= a < i && a < b < |ids| ==> ids[a] != ids[b]
      {
        for j := i + 1 to |ids|
          invariant forall b :: i < b < j ==> ids[i] != ids[b]
        {
          if ids[i] == ids[j] {
            return Fail(DuplicateStreamId);
          }
        }
      }
      return Pass;
    }

    /** Reads and prices every member before anything is written. */
    method ReadWithdrawals(env: Env, recipient: Address, ids: seq<U64>)
      returns (r: Result<I128>, loaded: seq<Stream>, payouts: seq<I128>)
      requires Valid()
      ensures r == E.QuoteWithdrawals(Abs(), env.now, recipient, ids, |ids|)
      ensures r.Ok? ==> |loaded| == |payouts| == |ids|
      ensures r.Ok? ==>
                forall j :: 0 <= j < |ids| ==>
                  Load(Abs(), ids[j]) == Ok(loaded[j]) && Withdrawable(loaded[j], env.now) == Ok(payouts[j])
    {
      hide Withdrawable, Stores;
      ghost var st := Abs();
      loaded, payouts := [], [];
      var total: I128 := 0;
      assert E.QuoteWithdrawals(st, env.now, recipient, ids, 0) == Ok(0);
      hide E.QuoteWithdrawals;
      for i := 0 to |ids|
        invariant |loaded| == |payouts| == i && Abs() == st
        invariant E.QuoteWithdrawals(st, env.now, recipient, ids, i) == Ok(total)
        invariant forall j :: 0 <= j < i ==> Load(st, ids[j]) == Ok(loaded[j])
        invariant forall j :: 0 <= j < i ==> Withdrawable(loaded[j], env.now) == Ok(payouts[j])
      {
        QuoteStep(st, env.now, recipient, ids, i, total);
        var stream :- ReadStream(ids[i]);
        if stream.recipient != recipient {
          return Err(Unauthorized), loaded, payouts;
        }
        var available :- Withdrawable(stream, env.now);
        total :- CheckedI128(total + available);
        loaded := loaded + [stream];
        payouts := payouts + [available];
      }
      return Ok(total), loaded, payouts;
    }

    /** `batch_withdraw`, from copies read up front: as good as reading each stream in turn, since no id repeats. */
    method BatchWithdraw(env: Env, recipient: Address, ids: seq<U64>) returns (r: Result<I128>)
      requires Valid()
      modifies this
      ensures Valid()
      ensures Did(Abs(), r, E.BatchWithdraw(old(Abs()), env, recipient, ids))
    {
      if haltedAt.Some? {
        return Err(ContractHalted);
      }
      var valid := ValidateBatch(ids);
      if valid.Fail? {
        return Err(valid.error);
      }
      if recipient !in env.auths {
        return Err(AuthRefused);
      }
      var total, loaded, payouts :- ReadWithdrawals(env, recipient, ids);
      var _ :- PayAll(env, ids, loaded, payouts);
      DrainKeepsTokens(old(Abs()), env, ids, |ids|);
      var _ :- ReconcileAll(ids, loaded);
      return Ok(total);
    }

    method PayAll(env: Env, ids: seq<U64>, loaded: seq<Stream>, payouts: seq<I128>) returns (r: Result<()>)
      requires Distinct(ids) && |loaded| == |payouts| == |ids|
      requires forall j :: 0 <= j < |ids| ==>
                 Load(Abs(), ids[j]) == Ok(loaded[j]) && Withdrawable(loaded[j], env.now) == Ok(payouts[j])
      requires Valid()
      modifies this
      ensures Valid()
      ensures Became(Abs(), r, E.DrainInOrder(old(Abs()), env, ids, |ids|))
    {
      ghost var st0 := Abs();
      assert E.DrainInOrder(st0, env, ids, 0) == Ok(st0);
      hide E.DrainInOrder, E.ApplyWithdrawal, Withdrawable;
      for i := 0 to |ids|
        invariant Valid() && E.DrainInOrder(st0, env, ids, i) == Ok(Abs())
      {
        DrainStep(st0, env, ids, i, loaded[i], payouts[i]);
        if payouts[i] != 0 {
          var _ :- ApplyWithdrawal(env, ids[i], loaded[i], payouts[i]);
        }
      }
      return Ok(());
    }

    /** One reconciliation per distinct token. */
    method ReconcileAll(ids: seq<U64>, loaded: seq<Stream>) returns (r: Result<()>)
      requires |loaded| == |ids|
      requires forall j :: 0 <= j < |ids| ==> ids[j] in Abs().streams && Abs().streams[ids[j]].token == loaded[j].token
      ensures r == if E.AllBacked(Abs(), ids) then Ok(()) else Err(PoolBalanceDrift)
    {
      var reconciled: seq<Address> := [];
      for i := 0 to |loaded|
        invariant forall j :: 0 <= j < i ==> loaded[j].token in reconciled
        invariant forall t :: t in reconciled ==> Backed(Abs(), t)
      {
        var token := loaded[i].token;
        if token !in reconciled {
          var backed := VerifyPoolBalance(token);
          if backed.Err? {
            assert !Backed(Abs(), Abs().streams[ids[i]].token);
            return backed;
          }
          reconciled := reconciled + [token];
        }
      }
      return Ok(());
    }

    // ---- Cancel --------------------------------------------------------

    /** The field assignments of `settle_cancel`. */
    method Collapse(s: Stream, now: U64, vested: I128) returns (stream: Stream)
      ensures stream == Collapsed(s, now, vested)
    {
      var clock := StreamTime(s, now);
      var settleAt := if clock > s.startTime then clock else s.startTime;
      stream := s.(deposited := vested);
      stream := stream.(endTime := settleAt);
      stream := stream.(pausedAt := None);
      stream := stream.(status := Cancelled);
    }

    method SettleCancel(env: Env, id: U64, s: Stream, vested: I128, refund: I128) returns (r: Result<()>)
      requires Valid() && id in streams
      modifies this
      ensures Valid()
      ensures Became(Abs(), r, E.SettleCancel(old(Abs()), env, id, s, vested, refund))
    {
      var stream := Collapse(s, env.now, vested);
      SaveStream(id, stream);
      if refund > 0 {
        var _ :- DebitPool(stream.token, refund);
        var _ :- TokenTransfer(env, Pay(stream.token, stream.sender, refund));
      }
      var _ :- VerifyPoolBalance(stream.token);
      Publish(CancelledEvent(id, stream, refund));
      return Ok(());
    }

    method CancelLoaded(env: Env, id: U64, stream: Stream) returns (r: Result<I128>)
      requires Valid() && Load(Abs(), id) == Ok(stream)
      modifies this
      ensures Valid()
      ensures Did(Abs(), r, E.CancelLoaded(old(Abs()), env, id, stream))
    {
      var quote :- QuoteCancel(stream, env.now);
      var (vested, refund) := quote;
      var _ :- SettleCancel(env, id, stream, vested, refund);
      return Ok(refund);
    }

    method Cancel(env: Env, id: U64) returns (r: Result<()>)
      requires Valid()
      modifies this
      ensures Valid()
      ensures Did(Abs(), r, E.Cancel(old(Abs()), env, id))
    {
      if haltedAt.Some? {
        return Err(ContractHalted);
      }
      var stream :- ReadStream(id);
      if stream.sender !in env.auths {
        return Err(AuthRefused);
      }
      var _ :- CancelLoaded(env, id, stream);
      return Ok(());
    }

    method ReadOwned(sender: Address, ids: seq<U64>) returns (r: Result<seq<Stream>>)
      requires Valid()
      ensures match E.OwnedBy(Abs(), sender, ids, |ids|)
              case Fail(e) => r == Err(e)
              case Pass => r.Ok? && |r.value| == |ids|
                           && forall j :: 0 <= j < |ids| ==> Load(Abs(), ids[j]) == Ok(r.value[j])
    {
      var loaded: seq<Stream> := [];
      for i := 0 to |ids|
        invariant |loaded| == i && E.OwnedBy(Abs(), sender, ids, i).Pass?
        invariant forall j :: 0 <= j < i ==> Load(Abs(), ids[j]) == Ok(loaded[j])
      {
        OwnershipStops(Abs(), sender, ids, i + 1, |ids|);
        var stream :- ReadStream(ids[i]);
        if stream.sender != sender {
          return Err(Unauthorized);
        }
        loaded := loaded + [stream];
      }
      return Ok(loaded);
    }

    /** Prices every member before anything is written, up to the first refusal. */
    method QuoteAll(env: Env, ids: seq<U64>, loaded: seq<Stream>)
      returns (r: Result<E.Quote>, vested: seq<I128>, refunds: seq<I128>)
      requires |loaded| == |ids| && forall j :: 0 <= j < |ids| ==> Load(Abs(), ids[j]) == Ok(loaded[j])
      ensures r == E.QuoteCancels(Abs(), env.now, ids, |ids|)
      ensures r.Ok? && r.value.Priced? ==>
                && |vested| == |refunds| == |ids|
                && forall j :: 0 <= j < |ids| ==> QuoteCancel(loaded[j], env.now) == Ok((vested[j], refunds[j]))
    {
      vested, refunds := [], [];
      var total: I128 := 0;
      for i := 0 to |ids|
        invariant |vested| == |refunds| == i
        invariant E.QuoteCancels(Abs(), env.now, ids, i) == Ok(E.Priced(total))
        invariant forall j :: 0 <= j < i ==> QuoteCancel(loaded[j], env.now) == Ok((vested[j], refunds[j]))
      {
        PricingStep(Abs(), env.now, ids, i, loaded[i], total);
        var quoted := QuoteCancel(loaded[i], env.now);
        if quoted.Err? {
          return Ok(E.RefusedAt(i, quoted.error)), vested, refunds;
        }
        var sum := CheckedI128(total + quoted.value.1);
        if sum.Err? {
          return Err(sum.error), vested, refunds;
        }
        total := sum.value;
        vested, refunds := vested + [quoted.value.0], refunds + [quoted.value.1];
      }
      return Ok(E.Priced(total)), vested, refunds;
    }

    /** `batch_cancel`: resolve, price, then settle with the figures priced. */
    method BatchCancel(env: Env, sender: Address, ids: seq<U64>) returns (r: Result<BatchCancelOutcome>)
      requires Valid()
      modifies this
      ensures Valid()
      ensures Did(Abs(), r, E.BatchCancel(old(Abs()), env, sender, ids))
    {
      var valid := ValidateBatch(ids);
      if valid.Fail? {
        return Err(valid.error);
      }
      if sender !in env.auths {
        return Err(AuthRefused);
      }
      var loaded :- ReadOwned(sender, ids);
      var quote, vested, refunds := QuoteAll(env, ids, loaded);
      var priced :- quote;
      if priced.RefusedAt? {
        return Ok(BatchCancelOutcome(0, Some(priced.index), Some(priced.reason)));
      }
      var _ :- SettleAll(env, ids, loaded, vested, refunds);
      return Ok(BatchCancelOutcome(priced.total, None, None));
    }

    method SettleAll(env: Env, ids: seq<U64>, loaded: seq<Stream>, vested: seq<I128>, refunds: seq<I128>)
      returns (r: Result<()>)
      requires Distinct(ids) && |loaded| == |vested| == |refunds| == |ids|
      requires forall j :: 0 <= j < |ids| ==>
                 Load(Abs(), ids[j]) == Ok(loaded[j]) && QuoteCancel(loaded[j], env.now) == Ok((vested[j], refunds[j]))
      requires Valid()
      modifies this
      ensures Valid()
      ensures var spec := E.CancelInOrder(old(Abs()), env, ids, |ids|);
              match r case Ok(_) => spec.Ok? && spec.value.0 == Abs() case Err(e) => spec == Err(e)
    {
      ghost var st0 := Abs();
      assert E.CancelInOrder(st0, env, ids, 0) == Ok((st0, 0));
      hide E.CancelInOrder, E.SettleCancel, QuoteCancel;
      for i := 0 to |ids|
        invariant Valid() && E.CancelInOrder(st0, env, ids, i).Ok? && E.CancelInOrder(st0, env, ids, i).value.0 == Abs()
      {
        CancelStep(st0, env, ids, i, loaded[i], vested[i], refunds[i]);
        var _ :- SettleCancel(env, ids[i], loaded[i], vested[i], refunds[i]);
      }
      return Ok(());
    }

    method ReclaimDust(env: Env, id: U64) returns (r: Result<I128>)
      requires Valid()
      modifies this
      ensures Valid()
      ensures Did(Abs(), r, E.ReclaimDust(old(Abs()), env, id))
    {
      hide Dust, Ledger.TokenTransfer, Save, Stores;
      var stream :- ReadStream(id);
      if stream.sender !in env.auths {
        return Err(AuthRefused);
      }
      if !stream.status.IsTerminal() {
        return Ok(0);
      }
      var amount :- Dust(stream, env.now);
      if amount > 0 {
        var deposited :- CheckedI128(stream.deposited - amount);
        stream := stream.(deposited := deposited);
        SaveStream(id, stream);
        var _ :- TokenTransfer(env, Pay(stream.token, stream.sender, amount));
      }
      return Ok(amount);
    }

    // ---- Pause, resume, transfer --------------------------------------

    method Pause(env: Env, id: U64) returns (r: Result<()>)
      requires Valid()
      modifies this
      ensures Valid()
      ensures Did(Abs(), r, E.Pause(old(Abs()), env, id))
    {
      if haltedAt.Some? {
        return Err(ContractHalted);
      }
      var stream :- ReadStream(id);
      if stream.sender !in env.auths {
        return Err(AuthRefused);
      }
      if !stream.pausable {
        return Err(NotPausable);
      }
      if stream.status.IsTerminal() {
        return Err(StreamTerminated);
      }
      if stream.status == Paused {
        return Err(StreamAlreadyPaused);
      }
      var before :- Vested(stream, env.now);
      stream := stream.(pausedAt := Some(env.now), status := Paused);
      var after :- Vested(stream, env.now);
      if after < before {
        return Err(VestedDecreased);
      }
      SaveStream(id, stream);
      Publish(PausedEvent(id, stream, env.now));
      return Ok(());
    }

    method Resume(env: Env, id: U64) returns (r: Result<()>)
      requires Valid()
      modifies this
      ensures Valid()
      ensures Did(Abs(), r, E.Resume(old(Abs()), env, id))
    {
      hide Vested, Stores;
      if haltedAt.Some? {
        return Err(ContractHalted);
      }
      var stream :- ReadStream(id);
      if stream.sender !in env.auths {
        return Err(AuthRefused);
      }
      if stream.status.IsTerminal() {
        return Err(StreamTerminated);
      }
      if stream.pausedAt.None? || stream.status != Paused {
        return Err(StreamNotPaused);
      }
      var before :- Vested(stream, env.now);
      var pausedDuration := SaturatingU64(env.now - stream.pausedAt.value);
      var total :- CheckedU64(stream.pausedTotal + pausedDuration);
      stream := stream.(pausedTotal := total, pausedAt := None, status := Active);
      var after :- Vested(stream, env.now);
      if after < before {
        return Err(VestedDecreased);
      }
      SaveStream(id, stream);
      Publish(ResumedEvent(id, stream, pausedDuration));
      return Ok(());
    }

    method TransferRecipient(env: Env, id: U64, to: Address) returns (r: Result<()>)
      requires Valid()
      modifies this
      ensures Valid()
      ensures Did(Abs(), r, E.TransferRecipient(old(Abs()), env, id, to))
    {
      hide Vested, Stores, Save;
      if haltedAt.Some? {
        return Err(ContractHalted);
      }
      var stream :- ReadStream(id);
      if stream.sender !in env.auths {
        return Err(AuthRefused);
      }
      if !stream.transferable {
        return Err(NotTransferable);
      }
      if stream.status == Depleted || stream.withdrawn >= stream.deposited {
        return Err(StreamTerminated);
      }
      if to == stream.sender {
        return Err(SelfStream);
      }
      var from := stream.recipient;
      if from == to {
        return Err(RepeatedTransfer);
      }
      var before :- Vested(stream, env.now);
      stream := stream.(recipient := to);
      var after :- Vested(stream, env.now);
      if after < before {
        return Err(VestedDecreased);
      }
      SaveStream(id, stream);
      Publish(RecipientTransferred(id, from, to, stream.sender));
      return Ok(());
    }

    // ---- Delegation ----------------------------------------------------

    method GrantDelegate(env: Env, id: U64, grantor: Address, delegate: Address, ops: Mask, expiresAt: Option<U64>)
      returns (r: Result<()>)
      requires Valid()
      modifies this
      ensures Valid()
      ensures Did(Abs(), r, E.GrantDelegate(old(Abs()), env, id, grantor, delegate, ops, expiresAt))
    {
      if haltedAt.Some? {
        return Err(ContractHalted);
      }
      var stream :- ReadStream(id);
      if stream.status.IsTerminal() {
        return Err(StreamTerminated);
      }
      var needsSender, needsRecipient := ops * SENDER_OPS != {}, ops * RECIPIENT_OPS != {};
      if needsSender && needsRecipient {
        return Err(Unauthorized);
      }
      if needsSender {
        if grantor != stream.sender {
          return Err(Unauthorized);
        }
      } else if needsRecipient {
        if grantor != stream.recipient {
          return Err(Unauthorized);
        }
      } else {
        return Ok(());
      }
      if grantor !in env.auths {
        return Err(AuthRefused);
      }
      grants := grants[(id, delegate) := DelegateGrant(ops, expiresAt)];
      Publish(DelegateGranted(id, grantor, delegate, ops, expiresAt));
      return Ok(());
    }

    method RevokeDelegate(env: Env, id: U64, grantor: Address, delegate: Address) returns (r: Result<()>)
      requires Valid()
      modifies this
      ensures Valid()
      ensures Did(Abs(), r, E.RevokeDelegate(old(Abs()), env, id, grantor, delegate))
    {
      if haltedAt.Some? {
        return Err(ContractHalted);
      }
      var stream :- ReadStream(id);
      if grantor != stream.sender && grantor != stream.recipient {
        return Err(Unauthorized);
      }
      if grantor !in env.auths {
        return Err(AuthRefused);
      }
      grants := grants - {(id, delegate)};
      Publish(DelegateRevoked(id, grantor, delegate));
      return Ok(());
    }

    method CheckDelegate(env: Env, id: U64, delegate: Address, op: nat) returns (r: Result<()>)
      ensures match E.CheckDelegate(Abs(), env, id, delegate, op) case Pass => r == Ok(()) case Fail(e) => r == Err(e)
    {
      if (id, delegate) !in grants {
        return Err(DelegateNotPermitted);
      }
      var grant := grants[(id, delegate)];
      if grant.expiresAt.Some? && env.now > grant.expiresAt.value {
        return Err(DelegateExpired);
      }
      if op !in grant.ops {
        return Err(DelegateNotPermitted);
      }
      if delegate !in env.auths {
        return Err(AuthRefused);
      }
      return Ok(());
    }

    method DelegateWithdraw(env: Env, id: U64, delegate: Address, amount: Option<I128>) returns (r: Result<I128>)
      requires Valid()
      modifies this
      ensures Valid()
      ensures Did(Abs(), r, E.DelegateWithdraw(old(Abs()), env, id, delegate, amount))
    {
      if haltedAt.Some? {
        return Err(ContractHalted);
      }
      var _ :- CheckDelegate(env, id, delegate, WITHDRAW);
      var stream :- ReadStream(id);
      r := PayOut(env, id, stream, amount);
    }

    method DelegateCancel(env: Env, id: U64, delegate: Address) returns (r: Result<()>)
      requires Valid()
      modifies this
      ensures Valid()
      ensures Did(Abs(), r, E.DelegateCancel(old(Abs()), env, id, delegate))
    {
      if haltedAt.Some? {
        return Err(ContractHalted);
      }
      var _ :- CheckDelegate(env, id, delegate, CANCEL);
      var stream :- ReadStream(id);
      var _ :- CancelLoaded(env, id, stream);
      return Ok(());
    }

    method DelegatePause(env: Env, id: U64, delegate: Address) returns (r: Result<()>)
      requires Valid()
      modifies this
      ensures Valid()
      ensures Did(Abs(), r, E.DelegatePause(old(Abs()), env, id, delegate))
    {
      if haltedAt.Some? {
        return Err(ContractHalted);
      }
      var _ :- CheckDelegate(env, id, delegate, PAUSE);
      var stream :- ReadStream(id);
      if !stream.pausable {
        return Err(NotPausable);
      }
      if stream.status.IsTerminal() {
        return Err(StreamTerminated);
      }
      if stream.status == Paused {
        return Err(StreamAlreadyPaused);
      }
      stream := stream.(pausedAt := Some(env.now), status := Paused);
      SaveStream(id, stream);
      Publish(PausedEvent(id, stream, env.now));
      return Ok(());
    }

    method DelegateResume(env: Env, id: U64, delegate: Address) returns (r: Result<()>)
      requires Valid()
      modifies this
      ensures Valid()
      ensures Did(Abs(), r, E.DelegateResume(old(Abs()), env, id, delegate))
    {
      if haltedAt.Some? {
        return Err(ContractHalted);
      }
      var _ :- CheckDelegate(env, id, delegate, RESUME);
      var stream :- ReadStream(id);
      if stream.status.IsTerminal() {
        return Err(StreamTerminated);
      }
      if stream.pausedAt.None? || stream.status != Paused {
        return Err(StreamNotPaused);
      }
      var pausedDuration := SaturatingU64(env.now - stream.pausedAt.value);
      var total :- CheckedU64(stream.pausedTotal + pausedDuration);
      stream := stream.(pausedTotal := total, pausedAt := None, status := Active);
      SaveStream(id, stream);
      Publish(ResumedEvent(id, stream, pausedDuration));
      return Ok(());
    }

    /** The guards and field assignments of `delegate_top_up`: linear whatever the curve, and no re-check. */
    method DelegateExtendSchedule(s: Stream, amount: I128, now: U64) returns (r: Result<Stream>)
      ensures r == DelegateTopUpStream(s, amount, now)
      ensures r.Ok? ==> r.value.token == s.token && r.value.sender == s.sender
    {
      var stream := s;
      if stream.status.IsTerminal() {
        return Err(StreamTerminated);
      }
      if amount <= 0 {
        return Err(InvalidAmount);
      }
      if StreamTime(stream, now) >= stream.endTime {
        return Err(StreamMatured);
      }
      var delta :- LinearDelta(stream, amount);
      var deposited :- CheckedI128(stream.deposited + amount);
      var end :- CheckedU64(stream.endTime + delta);
      var total :- CheckedU64(end - stream.startTime);
      var _ :- CheckedI128(deposited * total);
      if deposited < total {
        return Err(DepositRateTooLow);
      }
      stream := stream.(deposited := deposited);
      stream := stream.(endTime := end);
      return Ok(stream);
    }

    method DelegateTopUp(env: Env, id: U64, delegate: Address, amount: I128) returns (r: Result<()>)
      requires Valid()
      modifies this
      ensures Valid()
      ensures Did(Abs(), r, E.DelegateTopUp(old(Abs()), env, id, delegate, amount))
    {
      hide DelegateTopUpStream, Ledger.PullDeposit, Save, Emit, Stores;
      if haltedAt.Some? {
        return Err(ContractHalted);
      }
      var _ :- CheckDelegate(env, id, delegate, TOP_UP);
      var stream :- ReadStream(id);
      stream :- DelegateExtendSchedule(stream, amount, env.now);
      SaveStream(id, stream);
      if stream.sender !in env.auths {
        return Err(AuthRefused);
      }
      var _ :- PullDeposit(env, stream.token, stream.sender, amount);
      var _ :- VerifyPoolBalance(stream.token);
      Publish(ToppedUpEvent(id, stream, amount));
      return Ok(());
    }

    method DelegateTransferRecipient(env: Env, id: U64, delegate: Address, to: Address) returns (r: Result<()>)
      requires Valid()
      modifies this
      ensures Valid()
      ensures Did(Abs(), r, E.DelegateTransferRecipient(old(Abs()), env, id, delegate, to))
    {
      if haltedAt.Some? {
        return Err(ContractHalted);
      }
      var _ :- CheckDelegate(env, id, delegate, TRANSFER_RECIPIENT);
      var stream :- ReadStream(id);
      if !stream.transferable {
        return Err(NotTransferable);
      }
      if stream.status == Depleted || stream.withdrawn >= stream.deposited {
        return Err(StreamTerminated);
      }
      if to == stream.sender {
        return Err(SelfStream);
      }
      var from := stream.recipient;
      if from == to {
        return Err(RepeatedTransfer);
      }
      stream := stream.(recipient := to);
      SaveStream(id, stream);
      Publish(RecipientTransferred(id, from, to, stream.sender));
      return Ok(());
    }

    // ---- Halt and maintenance -----------------------------------------

    method SetHaltOperator(env: Env, who: Address) returns (r: Result<()>)
      requires Valid()
      modifies this
      ensures Valid()
      ensures Did(Abs(), r, E.SetHaltOperator(old(Abs()), env, who))
    {
      if who !in env.auths {
        return Err(AuthRefused);
      }
      if operator.Some? {
        return Err(HaltOperatorAlreadySet);
      }
      operator := Some(who);
      Publish(HaltOperatorSet(who));
      return Ok(());
    }

    method Halt(env: Env) returns (r: Result<()>)
      requires Valid()
      modifies this
      ensures Valid()
      ensures Did(Abs(), r, E.Halt(old(Abs()), env))
    {
      if operator.None? {
        return Err(HaltOperatorNotSet);
      }
      if operator.value !in env.auths {
        return Err(AuthRefused);
      }
      if haltedAt.Some? {
        return Err(ContractAlreadyHalted);
      }
      haltedAt := Some(env.now);
      Publish(HaltEngaged(operator.value, env.now));
      return Ok(());
    }

    method ResumeContract(env: Env) returns (r: Result<()>)
      requires Valid()
      modifies this
      ensures Valid()
      ensures Did(Abs(), r, E.ResumeContract(old(Abs()), env))
    {
      if operator.None? {
        return Err(HaltOperatorNotSet);
      }
      if operator.value !in env.auths {
        return Err(AuthRefused);
      }
      if haltedAt.None? {
        return Err(ContractNotHalted);
      }
      var at := haltedAt.value;
      haltedAt := None;
      Publish(HaltLifted(operator.value, env.now, SaturatingU64(env.now - at)));
      return Ok(());
    }

    method ExtendStreamTtl(env: Env, id: U64) returns (r: Result<U32>)
      requires Valid()
      modifies this
      ensures Valid()
      ensures Did(Abs(), r, E.ExtendStreamTtl(old(Abs()), env, id))
    {
      if haltedAt.Some? {
        return Err(ContractHalted);
      }
      var stream :- ReadStream(id);
      if stream.status.IsTerminal() {
        return Err(StreamTerminated);
      }
      var target := Rent.TtlTarget(stream, env.now, env.maxTtl);
      Publish(TtlExtended(id, target));
      return Ok(target);
    }

    // ---- The host -------------------------------------------------------

    method Create(env: Env, op: Op) returns (r: Result<()>)
      requires Valid() && (op.CreateWithCliffMode? || op.CreateWithCurve? || op.CreateViaFactory? || op.BatchCreate?)
      modifies this
      ensures Valid()
      ensures Became(Abs(), r, Attempt(old(Abs()), env, op))
    {
      hide E.CreateWithCliffMode, E.CreateWithCurve, E.CreateViaFactory, E.BatchCreate;
      match op
      case CreateWithCliffMode(t) => var x := CreateStreamWithCliffMode(env, t); r := Done(x);
      case CreateWithCurve(t) => var x := CreateStreamWithCurve(env, t); r := Done(x);
      case CreateViaFactory(p, t) => var x := CreateStreamViaFactory(env, p, t); r := Done(x);
      case BatchCreate(sender, requests) => var x := BatchCreate(env, sender, requests); r := Done(x);
    }

    method Draw(env: Env, op: Op) returns (r: Result<()>)
      requires Valid() && (op.Withdraw? || op.DelegateWithdraw? || op.BatchWithdraw?)
      modifies this
      ensures Valid()
      ensures Became(Abs(), r, Attempt(old(Abs()), env, op))
    {
      hide E.Withdraw, E.DelegateWithdraw, E.BatchWithdraw;
      match op
      case Withdraw(id, request) => var x := Withdraw(env, id, request); r := Done(x);
      case DelegateWithdraw(id, d, request) => var x := DelegateWithdraw(env, id, d, request); r := Done(x);
      case BatchWithdraw(recipient, ids) => var x := BatchWithdraw(env, recipient, ids); r := Done(x);
    }

    method EndStreams(env: Env, op: Op) returns (r: Result<()>)
      requires Valid() && (op.Cancel? || op.DelegateCancel? || op.BatchCancel? || op.ReclaimDust?)
      modifies this
      ensures Valid()
      ensures Became(Abs(), r, Attempt(old(Abs()), env, op))
    {
      hide E.Cancel, E.DelegateCancel, E.BatchCancel, E.ReclaimDust;
      match op
      case Cancel(id) => var x := Cancel(env, id); r := Done(x);
      case DelegateCancel(id, d) => var x := DelegateCancel(env, id, d); r := Done(x);
      case BatchCancel(sender, ids) => var x := BatchCancel(env, sender, ids); r := Done(x);
      case ReclaimDust(id) => var x := ReclaimDust(env, id); r := Done(x);
    }

    method Fund(env: Env, op: Op) returns (r: Result<()>)
      requires Valid() && (op.TopUp? || op.DelegateTopUp?)
      modifies this
      ensures Valid()
      ensures Became(Abs(), r, Attempt(old(Abs()), env, op))
    {
      hide E.TopUp, E.DelegateTopUp;
      match op
      case TopUp(id, amount) => var x := TopUp(env, id, amount); r := Done(x);
      case DelegateTopUp(id, d, amount) => var x := DelegateTopUp(env, id, d, amount); r := Done(x);
    }

    method StopOrGo(env: Env, op: Op) returns (r: Result<()>)
      requires Valid() && (op.Pause? || op.DelegatePause? || op.Resume? || op.DelegateResume?)
      modifies this
      ensures Valid()
      ensures Became(Abs(), r, Attempt(old(Abs()), env, op))
    {
      hide E.Pause, E.DelegatePause, E.Resume, E.DelegateResume;
      match op
      case Pause(id) => var x := Pause(env, id); r := Done(x);
      case DelegatePause(id, d) => var x := DelegatePause(env, id, d); r := Done(x);
      case Resume(id) => var x := Resume(env, id); r := Done(x);
      case DelegateResume(id, d) => var x := DelegateResume(env, id, d); r := Done(x);
    }

    method Reassign(env: Env, op: Op) returns (r: Result<()>)
      requires Valid()
      requires op.TransferRecipient? || op.DelegateTransferRecipient? || op.GrantDelegate? || op.RevokeDelegate?
      modifies this
      ensures Valid()
      ensures Became(Abs(), r, Attempt(old(Abs()), env, op))
    {
      hide Valid, Abs, E.TransferRecipient, E.DelegateTransferRecipient, E.GrantDelegate, E.RevokeDelegate;
      match op
      case TransferRecipient(id, to) => var x := TransferRecipient(env, id, to); r := Done(x);
      case DelegateTransferRecipient(id, d, to) => var x := DelegateTransferRecipient(env, id, d, to); r := Done(x);
      case GrantDelegate(id, g, d, ops, at) => var x := GrantDelegate(env, id, g, d, ops, at); r := Done(x);
      case RevokeDelegate(id, g, d) => var x := RevokeDelegate(env, id, g, d); r := Done(x);
    }

    method Maintain(env: Env, op: Op) returns (r: Result<()>)
      requires Valid() && (op.SetHaltOperator? || op.Halt? || op.ResumeContract? || op.ExtendStreamTtl?)
      modifies this
      ensures Valid()
      ensures Became(Abs(), r, Attempt(old(Abs()), env, op))
    {
      hide Valid, Abs, E.SetHaltOperator, E.Halt, E.ResumeContract, E.ExtendStreamTtl;
      match op
      case SetHaltOperator(who) => var x := SetHaltOperator(env, who); r := Done(x);
      case Halt => var x := Halt(env); r := Done(x);
      case ResumeContract => var x := ResumeContract(env); r := Done(x);
      case ExtendStreamTtl(id) => var x := ExtendStreamTtl(env, id); r := Done(x);
    }

    method Dispatch(env: Env, op: Op) returns (r: Result<()>)
      requires Valid()
      modifies this
      ensures Valid()
      ensures Became(Abs(), r, Attempt(old(Abs()), env, op))
    {
      if op.Outside? {
        bank := op.bank;
        return Ok(());
      }
      hide Attempt;
      if op.Withdraw? || op.DelegateWithdraw? || op.BatchWithdraw? {
        r := Draw(env, op);
      } else if op.Cancel? || op.DelegateCancel? || op.BatchCancel? || op.ReclaimDust? {
        r := EndStreams(env, op);
      } else if op.TopUp? || op.DelegateTopUp? {
        r := Fund(env, op);
      } else if op.Pause? || op.DelegatePause? || op.Resume? || op.DelegateResume? {
        r := StopOrGo(env, op);
      } else if op.TransferRecipient? || op.DelegateTransferRecipient? || op.GrantDelegate? || op.RevokeDelegate? {
        r := Reassign(env, op);
      } else if op.SetHaltOperator? || op.Halt? || op.ResumeContract? || op.ExtendStreamTtl? {
        r := Maintain(env, op);
      } else {
        r := Create(env, op);
      }
    }

    function Entries(): Snapshot
      reads this
    {
      Snapshot(records, curves, metadata, nextId, count, pooled, grants, operator, haltedAt, log, bank, moves)
    }

    method Restore(s: Snapshot, ghost before: State)
      requires Stores(s.records, s.curves, s.metadata, before.streams)
      requires before == State(before.streams, s.nextId, s.count, s.pooled, s.grants, s.operator, s.haltedAt,
                               s.log, s.bank, s.moves)
      modifies this
      ensures Valid() && Abs() == before
    {
      hide Stores;
      RestoreStreams(s, before.streams);
      RestoreLedger(s);
      operator, haltedAt, log := s.operator, s.haltedAt, s.log;
    }

    method RestoreStreams(s: Snapshot, ghost before: map<U64, Stream>)
      requires Stores(s.records, s.curves, s.metadata, before)
      modifies this`records, this`curves, this`metadata, this`streams
      ensures Valid() && streams == before
    {
      hide Stores;
      records, curves, metadata := s.records, s.curves, s.metadata;
      streams := before;
    }

    method RestoreLedger(s: Snapshot)
      modifies this`nextId, this`count, this`pooled, this`grants, this`bank, this`moves
      ensures nextId == s.nextId && count == s.count && pooled == s.pooled && grants == s.grants
      ensures bank == s.bank && moves == s.moves
    {
      nextId, count, pooled, grants := s.nextId, s.count, s.pooled, s.grants;
      bank, moves := s.bank, s.moves;
    }

    /** One invocation as the host runs it: a failure restores every entry. */
    method Submit(env: Env, op: Op) returns (r: Result<()>)
      requires Valid()
      modifies this
      ensures Valid() && Abs() == Invoke(old(Abs()), env, op)
      ensures match Attempt(old(Abs()), env, op) case Ok(_) => r.Ok? case Err(e) => r == Err(e)
    {
      hide Attempt;
      ghost var before := Abs();
      var entries := Entries();
      r := Dispatch(env, op);
      if r.Err? {
        Restore(entries, before);
      }
    }

    /** A whole run: the object ends where the model of runs says, so every theorem about runs is about it. */
    method Serve(calls: seq<Call>)
      requires Valid() && Abs() == EMPTY
      modifies this
      ensures Valid() && Abs() == Exec(calls)
      ensures Timely(calls) ==> Inv(Abs(), Clock(calls))
    {
      for i := 0 to |calls|
        invariant Valid() && Abs() == Exec(calls[..i])
      {
        var _ := Submit(calls[i].env, calls[i].op);
        ExecNext(calls, i);
      }
      assert calls[..|calls|] == calls;
      if Timely(calls) {
        RunKeepsInvariant(calls);
      }
    }
  }

  lemma SavedEntries(records: map<U64, StreamRecord>, curves: map<U64, ReleaseCurve>,
                     metadata: map<U64, StreamMetadata>, streams: map<U64, Stream>, id: U64, s: Stream)
    requires Stores(records, curves, metadata, streams)
    ensures Stores(records[id := FromStream(s)], Put(curves, id, CurveEntry(s)), Put(metadata, id, MetadataEntry(s)),
                   streams[id := s])
    ensures id in records <==> id in streams
  {
    SaveThenRead(records, curves, metadata, id, s);
  }

  // ---- The first failure decides a batch ------------------------------

  lemma {:induction false} InvalidRequestStops(sender: Address, requests: seq<BatchCreateRequest>, i: nat, n: nat)
    requires i <= n <= |requests|
    ensures E.ValidRequests(sender, requests, i).Fail? ==>
              E.ValidRequests(sender, requests, n) == E.ValidRequests(sender, requests, i)
  {
    if i < n {
      InvalidRequestStops(sender, requests, i, n - 1);
    }
  }

  lemma {:induction false} CreateAllStops(st: State, env: Env, sender: Address,
                                          requests: seq<BatchCreateRequest>, i: nat, n: nat)
    requires i <= n <= |requests|
    ensures E.CreateAll(st, env, sender, requests, i).Err? ==>
              E.CreateAll(st, env, sender, requests, n) == E.CreateAll(st, env, sender, requests, i)
  {
    hide E.CreateInner;
    if i < n {
      CreateAllStops(st, env, sender, requests, i, n - 1);
    }
  }

  lemma {:induction false} QuoteStops(st: State, now: U64, recipient: Address, ids: seq<U64>, i: nat, n: nat)
    requires i <= n <= |ids|
    ensures E.QuoteWithdrawals(st, now, recipient, ids, i).Err? ==>
              E.QuoteWithdrawals(st, now, recipient, ids, n) == E.QuoteWithdrawals(st, now, recipient, ids, i)
  {
    if i < n {
      QuoteStops(st, now, recipient, ids, i, n - 1);
    }
  }

  lemma {:induction false} DrainStops(st: State, env: Env, ids: seq<U64>, i: nat, n: nat)
    requires i <= n <= |ids|
    ensures E.DrainInOrder(st, env, ids, i).Err? ==>
              E.DrainInOrder(st, env, ids, n) == E.DrainInOrder(st, env, ids, i)
  {
    hide E.DrainOne;
    if i < n {
      DrainStops(st, env, ids, i, n - 1);
    }
  }

  lemma {:induction false} OwnershipStops(st: State, sender: Address, ids: seq<U64>, i: nat, n: nat)
    requires i <= n <= |ids|
    ensures E.OwnedBy(st, sender, ids, i).Fail? ==> E.OwnedBy(st, sender, ids, n) == E.OwnedBy(st, sender, ids, i)
  {
    if i < n {
      OwnershipStops(st, sender, ids, i, n - 1);
    }
  }

  /** Pricing stops at the first refusal or overflow. */
  lemma {:induction false} PricingStops(st: State, now: U64, ids: seq<U64>, i: nat, n: nat)
    requires i <= n <= |ids|
    ensures E.QuoteCancels(st, now, ids, i).Err? || E.QuoteCancels(st, now, ids, i).value.RefusedAt? ==>
              E.QuoteCancels(st, now, ids, n) == E.QuoteCancels(st, now, ids, i)
  {
    if i < n {
      PricingStops(st, now, ids, i, n - 1);
    }
  }

  lemma {:induction false} CancelStops(st: State, env: Env, ids: seq<U64>, i: nat, n: nat)
    requires i <= n <= |ids|
    ensures E.CancelInOrder(st, env, ids, i).Err? ==>
              E.CancelInOrder(st, env, ids, n) == E.CancelInOrder(st, env, ids, i)
  {
    hide E.CancelOne;
    if i < n {
      CancelStops(st, env, ids, i, n - 1);
    }
  }

  lemma CreateStep(st: State, env: Env, sender: Address, requests: seq<BatchCreateRequest>, i: nat,
                   st1: State, ids: seq<U64>)
    requires i < |requests| && E.CreateAll(st, env, sender, requests, i) == Ok((st1, ids))
    ensures match E.CreateInner(st1, env, RequestTerms(sender, requests[i]))
            case Ok((st2, id)) => E.CreateAll(st, env, sender, requests, i + 1) == Ok((st2, ids + [id]))
            case Err(e) => E.CreateAll(st, env, sender, requests, |requests|) == Err(e)
  {
    CreateAllStops(st, env, sender, requests, i + 1, |requests|);
  }

  lemma QuoteStep(st: State, now: U64, recipient: Address, ids: seq<U64>, i: nat, total: I128)
    requires i < |ids| && E.QuoteWithdrawals(st, now, recipient, ids, i) == Ok(total)
    ensures var later := E.QuoteWithdrawals(st, now, recipient, ids, i + 1);
            var all := E.QuoteWithdrawals(st, now, recipient, ids, |ids|);
            match Load(st, ids[i])
            case Err(e) => all == Err(e)
            case Ok(s) =>
              if s.recipient != recipient then all == Err(Unauthorized)
              else
                match Withdrawable(s, now)
                case Err(e) => all == Err(e)
                case Ok(available) => later == CheckedI128(total + available) && (later.Err? ==> all == later)
  {
    QuoteStops(st, now, recipient, ids, i + 1, |ids|);
  }

  lemma DrainStep(st: State, env: Env, ids: seq<U64>, i: nat, s: Stream, payout: I128)
    requires Distinct(ids) && i < |ids| && E.DrainInOrder(st, env, ids, i).Ok?
    requires Load(st, ids[i]) == Ok(s) && Withdrawable(s, env.now) == Ok(payout)
    ensures var st1, later := E.DrainInOrder(st, env, ids, i).value, E.DrainInOrder(st, env, ids, i + 1);
            && Load(st1, ids[i]) == Ok(s)
            && later == (if payout == 0 then Ok(st1) else E.ApplyWithdrawal(st1, env, ids[i], s, payout))
            && (later.Err? ==> E.DrainInOrder(st, env, ids, |ids|) == later)
  {
    hide Withdrawable, E.ApplyWithdrawal;
    DrainTouchesOnly(st, env, ids, i, ids[i]);
    DrainStops(st, env, ids, i + 1, |ids|);
  }

  lemma PricingStep(st: State, now: U64, ids: seq<U64>, i: nat, s: Stream, total: I128)
    requires i < |ids| && E.QuoteCancels(st, now, ids, i) == Ok(E.Priced(total)) && Load(st, ids[i]) == Ok(s)
    ensures var all := E.QuoteCancels(st, now, ids, |ids|);
            match QuoteCancel(s, now)
            case Err(reason) => all == Ok(E.RefusedAt(i, reason))
            case Ok((_, refund)) =>
              match CheckedI128(total + refund)
              case Ok(sum) => E.QuoteCancels(st, now, ids, i + 1) == Ok(E.Priced(sum))
              case Err(e) => all == Err(e)
  {
    PricingStops(st, now, ids, i + 1, |ids|);
  }

  lemma CancelStep(st: State, env: Env, ids: seq<U64>, i: nat, s: Stream, vested: I128, refund: I128)
    requires Distinct(ids) && i < |ids| && E.CancelInOrder(st, env, ids, i).Ok?
    requires Load(st, ids[i]) == Ok(s) && QuoteCancel(s, env.now) == Ok((vested, refund))
    ensures var st1, later := E.CancelInOrder(st, env, ids, i).value.0, E.CancelInOrder(st, env, ids, i + 1);
            && Load(st1, ids[i]) == Ok(s)
            && match E.SettleCancel(st1, env, ids[i], s, vested, refund)
               case Ok(st2) => later.Ok? && later.value.0 == st2
               case Err(e) => later == Err(e) && E.CancelInOrder(st, env, ids, |ids|) == Err(e)
  {
    hide QuoteCancel, E.SettleCancel;
    CancelTouchesOnly(st, env, ids, i, ids[i]);
    CancelStops(st, env, ids, i + 1, |ids|);
  }
}
