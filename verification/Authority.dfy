// Who must have authorized what: no stream changes, and the halt is not
// passed, without the party the source names.
module Authority {
  import opened Prelude
  import opened Types
  import opened Accrual
  import opened StreamState
  import opened StreamOps
  import opened StreamLaws
  import opened Ledger
  import opened Invariant
  import opened Runs
  import opened Delegation
  import opened Batches
  import E = EntryPoints

  /** The ways a stream can change hands, amounts or speed. */
  datatype Change = Drawn | Raised | Rescheduled | Ended | Reassigned | Stopped | Restarted

  /**
   * Drawn: more paid out. Raised: more deposited. Rescheduled: deposit or end moved. Ended: cancelled,
   * whether or not that moves anything. Reassigned: another recipient. Stopped and
   * restarted: a pause begins, or ends with the stream live.
   */
  predicate Shows(s: Stream, s': Stream, c: Change) {
    match c
    case Drawn => s'.withdrawn != s.withdrawn
    case Raised => s'.deposited > s.deposited
    case Rescheduled => s'.deposited != s.deposited || s'.endTime != s.endTime
    case Ended => s.status != Cancelled && s'.status == Cancelled
    case Reassigned => s'.recipient != s.recipient
    case Stopped => s.status != Paused && s'.status == Paused
    case Restarted => s.status == Paused && s'.status == Active
  }

  /** The party whose authorization the change takes, and the bit with which a delegate may stand in. */
  function Party(s: Stream, c: Change): Address {
    if c.Drawn? then s.recipient else s.sender
  }

  function Bit(c: Change): nat
    requires c != Raised
  {
    match c
    case Drawn => WITHDRAW
    case Rescheduled => CANCEL
    case Ended => CANCEL
    case Reassigned => TRANSFER_RECIPIENT
    case Stopped => PAUSE
    case Restarted => RESUME
  }

  /** The party signed, or, unless it is to pay, a delegate did who passes with the bit for the change. */
  predicate Entitled(st: State, env: Env, id: U64, s: Stream, c: Change) {
    || Party(s, c) in env.auths
    || (c != Raised && exists d <- env.auths :: E.CheckDelegate(st, env, id, d, Bit(c)).Pass?)
  }

  /** Every change of stream `id` by this call was entitled. */
  predicate ChangesEntitled(st: State, env: Env, st': State, id: U64) {
    id in st.streams && id in st'.streams ==>
      forall c :: Shows(st.streams[id], st'.streams[id], c) ==> Entitled(st, env, id, st.streams[id], c)
  }

  lemma TopUpEntitled(st: State, env: Env, op: Op, id: U64)
    requires (op.TopUp? || op.DelegateTopUp?) && Attempt(st, env, op).Ok?
    ensures ChangesEntitled(st, env, Attempt(st, env, op).value, id)
  {
    hide Attempt, E.CheckDelegate;
    TopUpIsSigned(st, env, op);
    TopUpShows(st, env, op);
  }

  /** A top-up takes its sender's signature even when a delegate asks. */
  lemma TopUpIsSigned(st: State, env: Env, op: Op)
    requires (op.TopUp? || op.DelegateTopUp?) && Attempt(st, env, op).Ok?
    ensures op.id in st.streams && st.streams[op.id].sender in env.auths
  {
    hide TopUpStream, DelegateTopUpStream, Ledger.PullDeposit;
  }

  lemma TopUpReschedules(s: Stream, amount: I128, now: U64)
    ensures TopUpStream(s, amount, now).Ok? ==>
              forall c :: Shows(s, TopUpStream(s, amount, now).value, c) ==> c in {Raised, Rescheduled}
    ensures DelegateTopUpStream(s, amount, now).Ok? ==>
              forall c :: Shows(s, DelegateTopUpStream(s, amount, now).value, c) ==> c in {Raised, Rescheduled}
  {
    hide Vested, LinearDelta, StreamTime;
  }

  /** `st'` differs from `st` in stream `id` only, and there by these changes only. */
  predicate ShowsOnly(st: State, st': State, id: U64, changes: set<Change>) {
    && id in st.streams && id in st'.streams
    && st'.streams == st.streams[id := st'.streams[id]]
    && st'.grants == st.grants && st'.operator == st.operator && st'.haltedAt == st.haltedAt
    && forall c :: Shows(st.streams[id], st'.streams[id], c) ==> c in changes
  }

  lemma TopUpShows(st: State, env: Env, op: Op)
    requires (op.TopUp? || op.DelegateTopUp?) && Attempt(st, env, op).Ok?
    ensures ShowsOnly(st, Attempt(st, env, op).value, op.id, {Raised, Rescheduled})
  {
    hide TopUpStream, DelegateTopUpStream, PaysAs, Shows;
    match op
    case TopUp(id, amount) =>
      TopUpAmends(st, env, id, amount);
      TopUpReschedules(st.streams[id], amount, env.now);
      hide E.TopUp;
    case DelegateTopUp(id, d, amount) =>
      DelegateTopUpAmends(st, env, id, d, amount);
      TopUpReschedules(st.streams[id], amount, env.now);
      hide E.DelegateTopUp;
  }

  lemma WithdrawalEntitled(st: State, env: Env, op: Op, id: U64)
    requires (op.Withdraw? || op.DelegateWithdraw?) && Attempt(st, env, op).Ok?
    ensures ChangesEntitled(st, env, Attempt(st, env, op).value, id)
  {
    hide Attempt, E.CheckDelegate;
    WithdrawalIsSigned(st, env, op);
    WithdrawalShows(st, env, op);
  }

  lemma WithdrawalIsSigned(st: State, env: Env, op: Op)
    requires (op.Withdraw? || op.DelegateWithdraw?) && Attempt(st, env, op).Ok?
    ensures op.id in st.streams
    ensures if op.Withdraw? then st.streams[op.id].recipient in env.auths
            else op.delegate in env.auths && E.CheckDelegate(st, env, op.id, op.delegate, WITHDRAW).Pass?
  {
    hide E.PayOut;
  }

  /** Paid out more, and perhaps depleted with its pause closed; nothing else. */
  predicate OnlyDrawn(s: Stream, s': Stream) {
    && s' == s.(withdrawn := s'.withdrawn, status := s'.status, pausedAt := s'.pausedAt, pausedTotal := s'.pausedTotal)
    && (s'.status == s.status || s'.status == Depleted)
  }

  lemma DrawnIsOnlyDrawn(s: Stream, payout: I128, now: U64)
    ensures StreamOps.Drawn(s, payout, now).Ok? ==> OnlyDrawn(s, StreamOps.Drawn(s, payout, now).value)
  {
  }

  lemma WithdrawalShows(st: State, env: Env, op: Op)
    requires (op.Withdraw? || op.DelegateWithdraw?) && Attempt(st, env, op).Ok?
    ensures ShowsOnly(st, Attempt(st, env, op).value, op.id, {Change.Drawn})
  {
    hide Payout, StreamOps.Drawn, PaysAs, E.ApplyWithdrawal;
    var s := st.streams[op.id];
    var payout := Payout(s, env.now, op.request).value;
    ApplyWithdrawalAmends(st, env, op.id, s, payout);
    DrawnIsOnlyDrawn(s, payout, env.now);
  }

  lemma CancelEntitled(st: State, env: Env, op: Op, id: U64)
    requires Inv(st, env.now) && (op.Cancel? || op.DelegateCancel?) && Attempt(st, env, op).Ok?
    ensures ChangesEntitled(st, env, Attempt(st, env, op).value, id)
  {
    hide Attempt, E.CheckDelegate, Inv;
    CancelIsSigned(st, env, op);
    CancelShows(st, env, op);
  }

  lemma CancelIsSigned(st: State, env: Env, op: Op)
    requires (op.Cancel? || op.DelegateCancel?) && Attempt(st, env, op).Ok?
    ensures op.id in st.streams
    ensures if op.Cancel? then st.streams[op.id].sender in env.auths
            else op.delegate in env.auths && E.CheckDelegate(st, env, op.id, op.delegate, CANCEL).Pass?
  {
    hide E.CancelLoaded;
  }

  lemma CancelShows(st: State, env: Env, op: Op)
    requires Inv(st, env.now) && (op.Cancel? || op.DelegateCancel?) && Attempt(st, env, op).Ok?
    ensures ShowsOnly(st, Attempt(st, env, op).value, op.id, {Rescheduled, Ended})
  {
    CancelLoadedShows(st, env, op.id);
    hide E.CancelLoaded, ShowsOnly;
  }

  lemma CancelLoadedShows(st: State, env: Env, id: U64)
    requires id in st.streams && Shape(st.streams[id], env.now)
    requires E.CancelLoaded(st, env, id, st.streams[id]).Ok?
    ensures ShowsOnly(st, E.CancelLoaded(st, env, id, st.streams[id]).value.0, id, {Rescheduled, Ended})
  {
    CancelQuote(st.streams[id], env.now);
    hide QuoteCancel, StreamTime, Amount;
  }

  function Steering(op: Op): Change
    requires Steers(op)
  {
    if op.Pause? || op.DelegatePause? then Stopped
    else if op.Resume? || op.DelegateResume? then Restarted
    else Reassigned
  }

  lemma SteeringEntitled(st: State, env: Env, op: Op, id: U64)
    requires Steers(op) && Attempt(st, env, op).Ok?
    ensures ChangesEntitled(st, env, Attempt(st, env, op).value, id)
  {
    hide Attempt, E.CheckDelegate;
    SteeringIsSigned(st, env, op);
    SteeringShows(st, env, op);
  }

  lemma SteeringIsSigned(st: State, env: Env, op: Op)
    requires Steers(op) && Attempt(st, env, op).Ok?
    ensures op.id in st.streams
    ensures if op.Pause? || op.Resume? || op.TransferRecipient? then st.streams[op.id].sender in env.auths
            else op.delegate in env.auths && E.CheckDelegate(st, env, op.id, op.delegate, Bit(Steering(op))).Pass?
  {
    hide PauseStream, DelegatePauseStream, ResumeStream, DelegateResumeStream, TransferStream, DelegateTransferStream;
  }

  lemma SteeringShows(st: State, env: Env, op: Op)
    requires Steers(op) && Attempt(st, env, op).Ok?
    ensures ShowsOnly(st, Attempt(st, env, op).value, op.id, {Steering(op)})
  {
    hide ShowsOnly;
    if op.Pause? || op.DelegatePause? {
      PausingShows(st, env, op);
    } else if op.Resume? || op.DelegateResume? {
      ResumingShows(st, env, op);
    } else {
      TransferringShows(st, env, op);
    }
    hide Attempt;
  }

  lemma PausingShows(st: State, env: Env, op: Op)
    requires (op.Pause? || op.DelegatePause?) && Attempt(st, env, op).Ok?
    ensures ShowsOnly(st, Attempt(st, env, op).value, op.id, {Stopped})
  {
    hide Vested, E.CheckDelegate;
  }

  lemma ResumingShows(st: State, env: Env, op: Op)
    requires (op.Resume? || op.DelegateResume?) && Attempt(st, env, op).Ok?
    ensures ShowsOnly(st, Attempt(st, env, op).value, op.id, {Restarted})
  {
    hide Vested, E.CheckDelegate;
  }

  lemma TransferringShows(st: State, env: Env, op: Op)
    requires (op.TransferRecipient? || op.DelegateTransferRecipient?) && Attempt(st, env, op).Ok?
    ensures ShowsOnly(st, Attempt(st, env, op).value, op.id, {Reassigned})
  {
    hide Vested, E.CheckDelegate;
  }

  lemma BatchWithdrawEntitled(st: State, env: Env, recipient: Address, ids: seq<U64>, id: U64)
    requires E.BatchWithdraw(st, env, recipient, ids).Ok?
    ensures ChangesEntitled(st, env, E.BatchWithdraw(st, env, recipient, ids).value.0, id)
  {
    var st' := E.BatchWithdraw(st, env, recipient, ids).value.0;
    hide E.DrainInOrder, E.QuoteWithdrawals, Withdrawable;
    if id in ids {
      var i :| 0 <= i < |ids| && ids[i] == id;
      Solvency.QuotedIdsExist(st, env.now, recipient, ids, |ids|, i);
      DrainedOnly(st, env, ids, |ids|, id);
    } else {
      DrainTouchesOnly(st, env, ids, |ids|, id);
    }
  }

  lemma {:induction false} DrainedOnly(st: State, env: Env, ids: seq<U64>, n: nat, id: U64)
    requires n <= |ids| && E.DrainInOrder(st, env, ids, n).Ok? && id in st.streams
    ensures var st' := E.DrainInOrder(st, env, ids, n).value;
            id in st'.streams && OnlyDrawn(st.streams[id], st'.streams[id])
  {
    hide E.DrainOne;
    if n > 0 {
      DrainedOnly(st, env, ids, n - 1, id);
      DrainOneOnlyDraws(E.DrainInOrder(st, env, ids, n - 1).value, env, ids[n - 1], id);
    }
  }

  lemma DrainOneOnlyDraws(st: State, env: Env, id: U64, other: U64)
    requires E.DrainOne(st, env, id).Ok? && other in st.streams
    ensures other in E.DrainOne(st, env, id).value.streams
    ensures OnlyDrawn(st.streams[other], E.DrainOne(st, env, id).value.streams[other])
  {
    hide Withdrawable, StreamOps.Drawn;
    if Withdrawable(st.streams[id], env.now).value != 0 {
      DrawnIsOnlyDrawn(st.streams[id], Withdrawable(st.streams[id], env.now).value, env.now);
    }
  }

  lemma BatchCancelEntitled(st: State, env: Env, sender: Address, ids: seq<U64>, id: U64)
    requires Inv(st, env.now) && E.BatchCancel(st, env, sender, ids).Ok?
    ensures ChangesEntitled(st, env, E.BatchCancel(st, env, sender, ids).value.0, id)
  {
    if E.BatchCancel(st, env, sender, ids).value.1.refusedIndex.None? {
      BatchCancelSettles(st, env, sender, ids);
      hide E.BatchCancel, E.CancelInOrder, QuoteCancel;
      if id in ids {
        var i :| 0 <= i < |ids| && ids[i] == id;
        CancelQuote(st.streams[id], env.now);
      }
    }
  }

  /** Whatever a call changes of any stream, the party the change takes signed, or an entitled delegate did. */
  lemma CallsAreEntitled(st: State, env: Env, op: Op, id: U64)
    requires Inv(st, env.now) && Attempt(st, env, op).Ok?
    ensures ChangesEntitled(st, env, Attempt(st, env, op).value, id)
  {
    hide ChangesEntitled;
    if MovesFunds(op) {
      FundsAreEntitled(st, env, op, id);
    } else if Steers(op) {
      SteeringEntitled(st, env, op, id);
    } else {
      OtherOpsKeepStreams(st, env, op, id);
      UntouchedIsEntitled(st, env, Attempt(st, env, op).value, id);
    }
  }

  lemma FundsAreEntitled(st: State, env: Env, op: Op, id: U64)
    requires Inv(st, env.now) && MovesFunds(op) && Attempt(st, env, op).Ok?
    ensures ChangesEntitled(st, env, Attempt(st, env, op).value, id)
  {
    hide ChangesEntitled;
    match op
    case TopUp(_, _) => TopUpEntitled(st, env, op, id);
    case DelegateTopUp(_, _, _) => TopUpEntitled(st, env, op, id);
    case Withdraw(_, _) => WithdrawalEntitled(st, env, op, id);
    case DelegateWithdraw(_, _, _) => WithdrawalEntitled(st, env, op, id);
    case Cancel(_) => CancelEntitled(st, env, op, id);
    case DelegateCancel(_, _) => CancelEntitled(st, env, op, id);
    case BatchWithdraw(recipient, ids) => BatchWithdrawEntitled(st, env, recipient, ids, id);
    case BatchCancel(sender, ids) => BatchCancelEntitled(st, env, sender, ids, id);
    case ReclaimDust(i) =>
      ReclaimDustDoesNothing(st, env, i);
      UntouchedIsEntitled(st, env, st, id);
  }

  lemma UntouchedIsEntitled(st: State, env: Env, st': State, id: U64)
    requires Untouched(st, st', id) || id !in st.streams
    ensures ChangesEntitled(st, env, st', id)
  {
  }

  lemma OtherOpsKeepStreams(st: State, env: Env, op: Op, id: U64)
    requires Inv(st, env.now) && Attempt(st, env, op).Ok? && !MovesFunds(op) && !Steers(op)
    ensures Untouched(st, Attempt(st, env, op).value, id) || id !in st.streams
  {
    hide Inv;
    if !Administers(op) && !op.Outside? {
      CreationKeepsOthers(st, env, op, id);
    }
  }

  lemma CreationKeepsOthers(st: State, env: Env, op: Op, id: U64)
    requires Inv(st, env.now) && Attempt(st, env, op).Ok?
    requires op.CreateWithCliffMode? || op.CreateWithCurve? || op.CreateViaFactory? || op.BatchCreate?
    ensures id in st.streams ==> Untouched(st, Attempt(st, env, op).value, id)
  {
    hide E.CreateInner, E.CreateAll, StreamsShaped, PoolExact, LogComplete, PaidAsLogged;
    if id in st.streams {
      match op
      case BatchCreate(sender, requests) => CreateAllKeepsOthers(st, env, sender, requests, |requests|, id);
      case CreateWithCliffMode(t) => CreateInnerIsSigned(st, env, t.(curve := Linear), id);
      case CreateWithCurve(t) =>
        CreateInnerIsSigned(st, env, t.(cliffMode := DEFAULT_CLIFF_MODE, reference := None), id);
      case CreateViaFactory(_, t) =>
        CreateInnerIsSigned(st, env, t.(cliffMode := DEFAULT_CLIFF_MODE, reference := None, curve := Linear), id);
    }
  }

  lemma {:induction false} CreateAllKeepsOthers(st: State, env: Env, sender: Address,
                                                requests: seq<BatchCreateRequest>, n: nat, id: U64)
    requires n <= |requests| && E.CreateAll(st, env, sender, requests, n).Ok?
    requires id in st.streams && id < st.nextId
    ensures st.nextId <= E.CreateAll(st, env, sender, requests, n).value.0.nextId
    ensures Untouched(st, E.CreateAll(st, env, sender, requests, n).value.0, id)
  {
    hide E.CreateInner;
    if n > 0 {
      CreateAllKeepsOthers(st, env, sender, requests, n - 1, id);
      var st1 := E.CreateAll(st, env, sender, requests, n - 1).value.0;
      CreateInnerIsSigned(st1, env, RequestTerms(sender, requests[n - 1]), id);
    }
  }

  /**
   * Over any run: a call that pays out of a stream, moves its deposit or end, cancels
   * it, changes its recipient, or stops or restarts its clock was signed by the party
   * that takes, or by a delegate whose latest grant is unexpired and contains the
   * bit for it; only the sender's own signature raises a deposit.
   */
  lemma NothingMovesUnsigned(calls: seq<Call>, env: Env, op: Op, id: U64, c: Change)
    requires Timely(calls) && Clock(calls) <= env.now && Attempt(Exec(calls), env, op).Ok?
    requires id in Exec(calls).streams && id in Attempt(Exec(calls), env, op).value.streams
    requires Shows(Exec(calls).streams[id], Attempt(Exec(calls), env, op).value.streams[id], c)
    ensures || Party(Exec(calls).streams[id], c) in env.auths
            || (c != Raised && exists d <- env.auths :: Permitted(Exec(calls).log, id, d, Bit(c), env.now))
  {
    RunKeepsInvariant(calls);
    LaterInvariant(Exec(calls), Clock(calls), env.now);
    CallsAreEntitled(Exec(calls), env, op, id);
    hide Exec, Attempt, Permitted, Inv;
    if d :| c != Raised && d in env.auths && E.CheckDelegate(Exec(calls), env, id, d, Bit(c)).Pass? {
      DelegatePassesIff(calls, env, id, d, Bit(c));
    }
  }

  /** No stream is new, and grants, operator and halt are as they were. */
  predicate KeepsRest(st: State, st': State) {
    && st'.streams.Keys == st.streams.Keys
    && st'.grants == st.grants && st'.operator == st.operator && st'.haltedAt == st.haltedAt
  }

  lemma DrainOneKeepsRest(st: State, env: Env, id: U64)
    requires E.DrainOne(st, env, id).Ok?
    ensures KeepsRest(st, E.DrainOne(st, env, id).value)
  {
    hide Vested;
  }

  lemma {:induction false} DrainsKeepRest(st: State, env: Env, ids: seq<U64>, n: nat)
    requires n <= |ids| && E.DrainInOrder(st, env, ids, n).Ok?
    ensures KeepsRest(st, E.DrainInOrder(st, env, ids, n).value)
  {
    hide E.DrainOne;
    if n > 0 {
      DrainsKeepRest(st, env, ids, n - 1);
      DrainOneKeepsRest(E.DrainInOrder(st, env, ids, n - 1).value, env, ids[n - 1]);
    }
  }

  lemma CancelKeepsRest(st: State, env: Env, id: U64)
    requires E.CancelOne(st, env, id).Ok?
    ensures KeepsRest(st, E.CancelOne(st, env, id).value.0)
  {
    hide Vested;
  }

  lemma {:induction false} CancelsKeepRest(st: State, env: Env, ids: seq<U64>, n: nat)
    requires n <= |ids| && E.CancelInOrder(st, env, ids, n).Ok?
    ensures KeepsRest(st, E.CancelInOrder(st, env, ids, n).value.0)
  {
    hide E.CancelOne;
    if n > 0 {
      CancelsKeepRest(st, env, ids, n - 1);
      CancelKeepsRest(E.CancelInOrder(st, env, ids, n - 1).value.0, env, ids[n - 1]);
    }
  }

  lemma SingleOpKeepsRest(st: State, env: Env, op: Op)
    requires op.TopUp? || op.DelegateTopUp? || op.Withdraw? || op.DelegateWithdraw? || Steers(op)
    requires Attempt(st, env, op).Ok?
    ensures KeepsRest(st, Attempt(st, env, op).value)
  {
    if op.TopUp? || op.DelegateTopUp? {
      TopUpShows(st, env, op);
    } else if Steers(op) {
      SteeringShows(st, env, op);
    } else {
      WithdrawalShows(st, env, op);
    }
    hide Attempt;
  }

  lemma StreamOpsKeepRest(st: State, env: Env, op: Op)
    requires Inv(st, env.now) && (MovesFunds(op) || Steers(op)) && Attempt(st, env, op).Ok?
    ensures KeepsRest(st, Attempt(st, env, op).value)
  {
    hide KeepsRest, Inv;
    match op
    case BatchWithdraw(_, ids) => DrainsKeepRest(st, env, ids, |ids|);
    case BatchCancel(sender, ids) => BatchCancelKeepsRest(st, env, sender, ids);
    case Cancel(id) => CancelKeepsRest(st, env, id);
    case DelegateCancel(id, _) => CancelKeepsRest(st, env, id);
    case ReclaimDust(id) => ReclaimKeepsRest(st, env, id);
    case _ => SingleOpKeepsRest(st, env, op);
  }

  lemma BatchCancelKeepsRest(st: State, env: Env, sender: Address, ids: seq<U64>)
    requires E.BatchCancel(st, env, sender, ids).Ok?
    ensures KeepsRest(st, E.BatchCancel(st, env, sender, ids).value.0)
  {
    if E.QuoteCancels(st, env.now, ids, |ids|).value.Priced? {
      CancelsKeepRest(st, env, ids, |ids|);
    }
  }

  lemma ReclaimKeepsRest(st: State, env: Env, id: U64)
    requires Inv(st, env.now) && E.ReclaimDust(st, env, id).Ok?
    ensures KeepsRest(st, E.ReclaimDust(st, env, id).value.0)
  {
    ReclaimDustDoesNothing(st, env, id);
    hide E.ReclaimDust;
  }

  lemma CreationIsSigned(st: State, env: Env, op: Op, id: U64)
    requires Inv(st, env.now) && Attempt(st, env, op).Ok?
    requires op.CreateWithCliffMode? || op.CreateWithCurve? || op.CreateViaFactory? || op.BatchCreate?
    ensures var st' := Attempt(st, env, op).value;
            && (id in st'.streams && id !in st.streams ==> st'.streams[id].sender in env.auths)
            && st'.grants == st.grants && st'.operator == st.operator && st'.haltedAt == st.haltedAt
  {
    match op
    case BatchCreate(sender, requests) => CreateAllIsSigned(st, env, sender, requests, |requests|, id);
    case CreateWithCliffMode(t) => CreateInnerIsSigned(st, env, t.(curve := Linear), id);
    case CreateWithCurve(t) => CreateInnerIsSigned(st, env, t.(cliffMode := DEFAULT_CLIFF_MODE, reference := None), id);
    case CreateViaFactory(_, t) =>
      CreateInnerIsSigned(st, env, t.(cliffMode := DEFAULT_CLIFF_MODE, reference := None, curve := Linear), id);
  }

  lemma CreateInnerIsSigned(st: State, env: Env, t: Terms, id: U64)
    requires E.CreateInner(st, env, t).Ok?
    ensures var st' := E.CreateInner(st, env, t).value.0;
            && (id in st'.streams && id != st.nextId ==> id in st.streams && st'.streams[id] == st.streams[id])
            && (id in st.streams ==> id in st'.streams)
            && st.nextId in st'.streams && st'.streams[st.nextId].sender == t.sender
            && st.nextId <= st'.nextId
            && st'.grants == st.grants && st'.operator == st.operator && st'.haltedAt == st.haltedAt
  {
  }

  lemma {:induction false} CreateAllIsSigned(st: State, env: Env, sender: Address,
                                             requests: seq<BatchCreateRequest>, n: nat, id: U64)
    requires n <= |requests| && E.CreateAll(st, env, sender, requests, n).Ok?
    ensures var st' := E.CreateAll(st, env, sender, requests, n).value.0;
            && (id in st'.streams ==>
                  (id in st.streams && st'.streams[id] == st.streams[id]) || st'.streams[id].sender == sender)
            && st'.grants == st.grants && st'.operator == st.operator && st'.haltedAt == st.haltedAt
  {
    hide E.CreateInner;
    if n > 0 {
      CreateAllIsSigned(st, env, sender, requests, n - 1, id);
      var st1 := E.CreateAll(st, env, sender, requests, n - 1).value.0;
      CreateInnerIsSigned(st1, env, RequestTerms(sender, requests[n - 1]), id);
    }
  }

  /** New streams are signed by their senders, grants by a party of the stream, the halt by its operator. */
  lemma AdministrationIsSigned(st: State, env: Env, op: Op, id: U64)
    requires Inv(st, env.now) && Attempt(st, env, op).Ok?
    ensures var st' := Attempt(st, env, op).value;
            && (id in st'.streams && id !in st.streams ==> st'.streams[id].sender in env.auths)
            && (st'.grants != st.grants ==>
                  && (op.GrantDelegate? || op.RevokeDelegate?) && op.grantor in env.auths && op.id in st.streams
                  && op.grantor in {st.streams[op.id].sender, st.streams[op.id].recipient})
            && (st'.operator != st.operator ==>
                  st.operator.None? && st'.operator.Some? && st'.operator.value in env.auths)
            && (st'.haltedAt != st.haltedAt ==> st.operator.Some? && st.operator.value in env.auths)
  {
    hide Inv;
    if MovesFunds(op) || Steers(op) {
      StreamOpsKeepRest(st, env, op);
    } else if Administers(op) {
      AdministratorsSign(st, env, op);
    } else if !op.Outside? {
      CreationIsSigned(st, env, op, id);
    }
  }

  lemma AdministratorsSign(st: State, env: Env, op: Op)
    requires Administers(op) && Attempt(st, env, op).Ok?
    ensures var st' := Attempt(st, env, op).value;
            && st'.streams == st.streams
            && (st'.grants != st.grants ==>
                  && (op.GrantDelegate? || op.RevokeDelegate?) && op.grantor in env.auths && op.id in st.streams
                  && op.grantor in {st.streams[op.id].sender, st.streams[op.id].recipient})
            && (st'.operator != st.operator ==>
                  st.operator.None? && st'.operator.Some? && st'.operator.value in env.auths)
            && (st'.haltedAt != st.haltedAt ==> st.operator.Some? && st.operator.value in env.auths)
  {
  }

  // ---- The halt --------------------------------------------------------

  function WithHalt(st: State, halt: Option<U64>): State {
    st.(haltedAt := halt)
  }

  /** The same result, with the halt of the one state carried into the other. */
  predicate SameBut<T(==)>(r: Result<(State, T)>, r0: Result<(State, T)>, halt: Option<U64>) {
    match r
    case Ok((st, v)) => r0.Ok? && st == WithHalt(r0.value.0, halt) && v == r0.value.1
    case Err(e) => r0 == Err(e)
  }

  predicate SameStateBut(r: Result<State>, r0: Result<State>, halt: Option<U64>) {
    match r
    case Ok(st) => r0.Ok? && st == WithHalt(r0.value, halt)
    case Err(e) => r0 == Err(e)
  }

  lemma TokensIgnoreHalt(st: State, env: Env, m: Move, halt: Option<U64>)
    ensures SameStateBut(DebitPool(WithHalt(st, halt), m.token, m.amount), DebitPool(st, m.token, m.amount), halt)
    ensures SameStateBut(TokenTransfer(WithHalt(st, halt), env, m), TokenTransfer(st, env, m), halt)
    ensures Backed(WithHalt(st, halt), m.token) == Backed(st, m.token)
  {
  }

  lemma SettleIgnoresHalt(st: State, env: Env, id: U64, s: Stream, vested: I128, refund: I128, halt: Option<U64>)
    requires id in st.streams
    ensures SameStateBut(E.SettleCancel(WithHalt(st, halt), env, id, s, vested, refund),
                         E.SettleCancel(st, env, id, s, vested, refund), halt)
  {
    hide Collapsed, DebitPool, TokenTransfer, Backed;
    var m := Pay(s.token, s.sender, refund);
    var st1 := Save(st, id, Collapsed(s, env.now, vested));
    assert Save(WithHalt(st, halt), id, Collapsed(s, env.now, vested)) == WithHalt(st1, halt);
    TokensIgnoreHalt(st1, env, m, halt);
    if refund > 0 && DebitPool(st1, s.token, refund).Ok? {
      var st2 := DebitPool(st1, s.token, refund).value;
      TokensIgnoreHalt(st2, env, m, halt);
      if TokenTransfer(st2, env, m).Ok? {
        TokensIgnoreHalt(TokenTransfer(st2, env, m).value, env, m, halt);
      }
    }
  }

  lemma CancelIgnoresHalt(st: State, env: Env, id: U64, halt: Option<U64>)
    ensures SameBut(E.CancelOne(WithHalt(st, halt), env, id), E.CancelOne(st, env, id), halt)
  {
    hide QuoteCancel, E.SettleCancel;
    if id in st.streams && QuoteCancel(st.streams[id], env.now).Ok? {
      var (vested, refund) := QuoteCancel(st.streams[id], env.now).value;
      SettleIgnoresHalt(st, env, id, st.streams[id], vested, refund, halt);
    }
  }

  lemma {:induction false} CancelsIgnoreHalt(st: State, env: Env, ids: seq<U64>, n: nat, halt: Option<U64>)
    requires n <= |ids|
    ensures SameBut(E.CancelInOrder(WithHalt(st, halt), env, ids, n), E.CancelInOrder(st, env, ids, n), halt)
  {
    hide E.CancelOne;
    if n > 0 {
      CancelsIgnoreHalt(st, env, ids, n - 1, halt);
      if E.CancelInOrder(st, env, ids, n - 1).Ok? {
        CancelIgnoresHalt(E.CancelInOrder(st, env, ids, n - 1).value.0, env, ids[n - 1], halt);
      }
    }
  }

  lemma {:induction false} ChecksIgnoreHalt(st: State, sender: Address, now: U64, ids: seq<U64>, n: nat,
                                            halt: Option<U64>)
    requires n <= |ids|
    ensures E.OwnedBy(WithHalt(st, halt), sender, ids, n) == E.OwnedBy(st, sender, ids, n)
    ensures E.QuoteCancels(WithHalt(st, halt), now, ids, n) == E.QuoteCancels(st, now, ids, n)
  {
    hide QuoteCancel;
    if n > 0 {
      ChecksIgnoreHalt(st, sender, now, ids, n - 1, halt);
    }
  }

  /** `batch_cancel` and `reclaim_dust` do what they do whether or not the contract is halted. */
  lemma HaltDoesNotStopCancels(st: State, env: Env, sender: Address, ids: seq<U64>, id: U64, halt: Option<U64>)
    ensures SameBut(E.BatchCancel(WithHalt(st, halt), env, sender, ids), E.BatchCancel(st, env, sender, ids), halt)
    ensures SameBut(E.ReclaimDust(WithHalt(st, halt), env, id), E.ReclaimDust(st, env, id), halt)
  {
    BatchCancelIgnoresHalt(st, env, sender, ids, halt);
    ReclaimIgnoresHalt(st, env, id, halt);
    hide E.BatchCancel, E.ReclaimDust;
  }

  lemma BatchCancelIgnoresHalt(st: State, env: Env, sender: Address, ids: seq<U64>, halt: Option<U64>)
    ensures SameBut(E.BatchCancel(WithHalt(st, halt), env, sender, ids), E.BatchCancel(st, env, sender, ids), halt)
  {
    hide E.OwnedBy, E.QuoteCancels, E.CancelInOrder;
    ChecksIgnoreHalt(st, sender, env.now, ids, |ids|, halt);
    CancelsIgnoreHalt(st, env, ids, |ids|, halt);
  }

  lemma ReclaimIgnoresHalt(st: State, env: Env, id: U64, halt: Option<U64>)
    ensures SameBut(E.ReclaimDust(WithHalt(st, halt), env, id), E.ReclaimDust(st, env, id), halt)
  {
    hide Dust;
  }

  /** While halted only batch cancels, dust reclaims and the operator's own calls get through. */
  lemma HaltStops(st: State, env: Env, op: Op)
    requires st.haltedAt.Some? && Attempt(st, env, op).Ok?
    ensures op.BatchCancel? || op.ReclaimDust? || op.SetHaltOperator? || op.ResumeContract? || op.Outside?
    ensures op.ResumeContract? ==> st.operator.Some? && st.operator.value in env.auths
  {
  }
}
