// What indexers are promised: every state change emits exactly one event, in order.
module Announcements {
  import opened Prelude
  import opened Types
  import opened Accrual
  import opened StreamOps
  import opened Events
  import opened Ledger
  import opened Invariant
  import opened Runs
  import opened Batches
  import E = EntryPoints

  datatype Kind =
    Creation | Withdrawal | Cancellation | Pausing | Resumption | Extension | Reassignment
    | Grant | Revocation | Rent | Appointment | Halting | Lifting

  /** What an indexer filters by: the kind of an event, and the stream it is about if it is about one. */
  datatype Notice = Notice(kind: Kind, id: Option<nat>)

  function NoticeOf(e: Event): Notice {
    match e
    case StreamCreated(id, _, _, _, _, _, _, _, _, _, _, _, _, _) => Notice(Creation, Some(id))
    case Withdrawn(id, _, _, _, _, _, _, _, _) => Notice(Withdrawal, Some(id))
    case StreamCancelled(id, _, _, _, _, _, _, _, _) => Notice(Cancellation, Some(id))
    case StreamPaused(id, _, _, _, _) => Notice(Pausing, Some(id))
    case StreamResumed(id, _, _, _, _) => Notice(Resumption, Some(id))
    case ToppedUp(id, _, _, _, _, _) => Notice(Extension, Some(id))
    case RecipientTransferred(id, _, _, _) => Notice(Reassignment, Some(id))
    case DelegateGranted(id, _, _, _, _) => Notice(Grant, Some(id))
    case DelegateRevoked(id, _, _) => Notice(Revocation, Some(id))
    case TtlExtended(id, _) => Notice(Rent, Some(id))
    case HaltOperatorSet(_) => Notice(Appointment, None)
    case HaltEngaged(_, _) => Notice(Halting, None)
    case HaltLifted(_, _, _) => Notice(Lifting, None)
  }

  function Notices(log: seq<Event>): seq<Notice> {
    if |log| == 0 then [] else Notices(log[..|log| - 1]) + [NoticeOf(log[|log| - 1])]
  }

  // ---- What a call is to announce --------------------------------------

  function CreationNotices(next: nat, n: nat): seq<Notice> {
    if n == 0 then [] else CreationNotices(next, n - 1) + [Notice(Creation, Some(next + n - 1))]
  }

  function WithdrawalNotice(st: State, now: U64, id: U64): seq<Notice> {
    if id in st.streams && Withdrawable(st.streams[id], now) != Ok(0) then [Notice(Withdrawal, Some(id))] else []
  }

  /** One for every member with something to withdraw. */
  function WithdrawalNotices(st: State, now: U64, ids: seq<U64>, n: nat): seq<Notice>
    requires n <= |ids|
  {
    if n == 0 then []
    else WithdrawalNotices(st, now, ids, n - 1) + WithdrawalNotice(st, now, ids[n - 1])
  }

  function CancellationNotices(ids: seq<U64>, n: nat): seq<Notice>
    requires n <= |ids|
  {
    if n == 0 then [] else CancellationNotices(ids, n - 1) + [Notice(Cancellation, Some(ids[n - 1]))]
  }

  predicate AllPriced(st: State, now: U64, ids: seq<U64>) {
    forall i :: 0 <= i < |ids| ==> ids[i] in st.streams && QuoteCancel(st.streams[ids[i]], now).Ok?
  }

  /** The notices a successful call owes its observers, from the state before it. */
  function Due(st: State, env: Env, op: Op): seq<Notice> {
    match op
    case CreateWithCliffMode(_) => CreationNotices(st.nextId, 1)
    case CreateWithCurve(_) => CreationNotices(st.nextId, 1)
    case CreateViaFactory(_, _) => CreationNotices(st.nextId, 1)
    case BatchCreate(_, requests) => CreationNotices(st.nextId, |requests|)
    case TopUp(id, _) => [Notice(Extension, Some(id))]
    case DelegateTopUp(id, _, _) => [Notice(Extension, Some(id))]
    case Withdraw(id, _) => [Notice(Withdrawal, Some(id))]
    case DelegateWithdraw(id, _, _) => [Notice(Withdrawal, Some(id))]
    case BatchWithdraw(_, ids) => WithdrawalNotices(st, env.now, ids, |ids|)
    case Cancel(id) => [Notice(Cancellation, Some(id))]
    case DelegateCancel(id, _) => [Notice(Cancellation, Some(id))]
    case BatchCancel(_, ids) => if AllPriced(st, env.now, ids) then CancellationNotices(ids, |ids|) else []
    case ReclaimDust(_) => []
    case Pause(id) => [Notice(Pausing, Some(id))]
    case DelegatePause(id, _) => [Notice(Pausing, Some(id))]
    case Resume(id) => [Notice(Resumption, Some(id))]
    case DelegateResume(id, _) => [Notice(Resumption, Some(id))]
    case TransferRecipient(id, _) => [Notice(Reassignment, Some(id))]
    case DelegateTransferRecipient(id, _, _) => [Notice(Reassignment, Some(id))]
    case GrantDelegate(id, _, _, ops, _) =>
      if ops * (SENDER_OPS + RECIPIENT_OPS) == {} then [] else [Notice(Grant, Some(id))]
    case RevokeDelegate(id, _, _) => [Notice(Revocation, Some(id))]
    case ExtendStreamTtl(id) => [Notice(Rent, Some(id))]
    case SetHaltOperator(_) => [Notice(Appointment, None)]
    case Halt => [Notice(Halting, None)]
    case ResumeContract => [Notice(Lifting, None)]
    case Outside(_) => []
  }

  /** The log only grew, by exactly these. */
  predicate Announces(st: State, st': State, due: seq<Notice>) {
    st.log <= st'.log && Notices(st'.log) == Notices(st.log) + due
  }

  lemma Silent(st: State, st': State)
    requires st'.log == st.log
    ensures Announces(st, st', [])
  {
  }

  lemma OneMore(st: State, st': State, e: Event)
    requires st'.log == st.log + [e]
    ensures Announces(st, st', [NoticeOf(e)])
  {
    assert st'.log[..|st.log|] == st.log;
  }

  lemma ThenMore(st: State, st1: State, st2: State, due1: seq<Notice>, due2: seq<Notice>)
    requires Announces(st, st1, due1) && Announces(st1, st2, due2)
    ensures Announces(st, st2, due1 + due2)
  {
    assert (Notices(st.log) + due1) + due2 == Notices(st.log) + (due1 + due2);
  }

  // ---- Calls -----------------------------------------------------------

  lemma CreateInnerAnnounces(st: State, env: Env, t: Terms)
    requires E.CreateInner(st, env, t).Ok?
    ensures Announces(st, E.CreateInner(st, env, t).value.0, [Notice(Creation, Some(st.nextId))])
  {
    hide NewStream;
    OneMore(st, E.CreateInner(st, env, t).value.0, CreatedEvent(st.nextId, NewStream(t).value));
  }

  lemma {:induction false} CreateAllAnnounces(st: State, env: Env, sender: Address,
                                              requests: seq<BatchCreateRequest>, n: nat)
    requires IdsContiguous(st) && n <= |requests| && E.CreateAll(st, env, sender, requests, n).Ok?
    ensures Announces(st, E.CreateAll(st, env, sender, requests, n).value.0, CreationNotices(st.nextId, n))
  {
    hide E.CreateInner, Announces;
    if n == 0 {
      Silent(st, st);
    } else {
      CreateAllAnnounces(st, env, sender, requests, n - 1);
      BatchCreateEffect(st, env, sender, requests, n - 1);
      var st1 := E.CreateAll(st, env, sender, requests, n - 1).value.0;
      CreateInnerAnnounces(st1, env, RequestTerms(sender, requests[n - 1]));
      ThenMore(st, st1, E.CreateAll(st, env, sender, requests, n).value.0,
               CreationNotices(st.nextId, n - 1), [Notice(Creation, Some(st1.nextId))]);
    }
  }

  lemma CreationAnnounces(st: State, env: Env, op: Op)
    requires op.CreateWithCliffMode? || op.CreateWithCurve? || op.CreateViaFactory? || op.BatchCreate?
    requires Inv(st, env.now) && Attempt(st, env, op).Ok?
    ensures Announces(st, Attempt(st, env, op).value, Due(st, env, op))
  {
    hide Announces, E.CreateInner, E.CreateAll, StreamsShaped, PoolExact, LogComplete, PaidAsLogged;
    assert CreationNotices(st.nextId, 1) == [Notice(Creation, Some(st.nextId))];
    match op
    case CreateWithCliffMode(t) => CreateInnerAnnounces(st, env, t.(curve := Linear));
    case CreateWithCurve(t) => CreateInnerAnnounces(st, env, t.(cliffMode := DEFAULT_CLIFF_MODE, reference := None));
    case CreateViaFactory(_, t) =>
      CreateInnerAnnounces(st, env, t.(cliffMode := DEFAULT_CLIFF_MODE, reference := None, curve := Linear));
    case BatchCreate(sender, requests) => CreateAllAnnounces(st, env, sender, requests, |requests|);
  }

  lemma TopUpAnnounces(st: State, env: Env, op: Op)
    requires (op.TopUp? || op.DelegateTopUp?) && Attempt(st, env, op).Ok?
    ensures Announces(st, Attempt(st, env, op).value, [Notice(Extension, Some(op.id))])
  {
    hide Announces, Pooled, Net, PaysAs;
    if op.TopUp? {
      TopUpAmends(st, env, op.id, op.amount);
      var s' := TopUpStream(st.streams[op.id], op.amount, env.now).value;
      hide TopUpStream, E.TopUp;
      OneMore(st, Attempt(st, env, op).value, ToppedUpEvent(op.id, s', op.amount));
    } else {
      DelegateTopUpAmends(st, env, op.id, op.delegate, op.amount);
      var s' := DelegateTopUpStream(st.streams[op.id], op.amount, env.now).value;
      hide DelegateTopUpStream, E.DelegateTopUp;
      OneMore(st, Attempt(st, env, op).value, ToppedUpEvent(op.id, s', op.amount));
    }
  }

  lemma ApplyWithdrawalAnnounces(st: State, env: Env, id: U64, s: Stream, payout: I128)
    requires id in st.streams && E.ApplyWithdrawal(st, env, id, s, payout).Ok?
    ensures Announces(st, E.ApplyWithdrawal(st, env, id, s, payout).value, [Notice(Withdrawal, Some(id))])
  {
    hide Drawn;
    OneMore(st, E.ApplyWithdrawal(st, env, id, s, payout).value,
            WithdrawnEvent(id, Drawn(s, payout, env.now).value, payout));
  }

  lemma WithdrawalAnnounces(st: State, env: Env, op: Op)
    requires (op.Withdraw? || op.DelegateWithdraw?) && Attempt(st, env, op).Ok?
    ensures Announces(st, Attempt(st, env, op).value, [Notice(Withdrawal, Some(op.id))])
  {
    hide Announces, Payout, E.ApplyWithdrawal;
    var s := st.streams[op.id];
    ApplyWithdrawalAnnounces(st, env, op.id, s, Payout(s, env.now, op.request).value);
  }

  /** Members drawn before do not touch what this one has to withdraw. */
  lemma {:induction false} DrainAnnounces(st: State, env: Env, ids: seq<U64>, n: nat)
    requires n <= |ids| && Distinct(ids) && E.DrainInOrder(st, env, ids, n).Ok?
    ensures Announces(st, E.DrainInOrder(st, env, ids, n).value, WithdrawalNotices(st, env.now, ids, n))
  {
    hide E.DrainOne, Announces, Withdrawable;
    if n == 0 {
      Silent(st, st);
    } else {
      var st1 := E.DrainInOrder(st, env, ids, n - 1).value;
      DrainAnnounces(st, env, ids, n - 1);
      DrainTouchesOnly(st, env, ids, n - 1, ids[n - 1]);
      DrainOneAnnounces(st1, env, ids[n - 1]);
      ThenMore(st, st1, E.DrainInOrder(st, env, ids, n).value, WithdrawalNotices(st, env.now, ids, n - 1),
               WithdrawalNotice(st1, env.now, ids[n - 1]));
    }
  }

  lemma DrainOneAnnounces(st: State, env: Env, id: U64)
    requires E.DrainOne(st, env, id).Ok?
    ensures Announces(st, E.DrainOne(st, env, id).value, WithdrawalNotice(st, env.now, id))
  {
    hide Withdrawable, E.ApplyWithdrawal, Announces;
    var available := Withdrawable(st.streams[id], env.now).value;
    if available == 0 {
      Silent(st, st);
    } else {
      ApplyWithdrawalAnnounces(st, env, id, st.streams[id], available);
    }
  }

  lemma CancelOneAnnounces(st: State, env: Env, id: U64)
    requires E.CancelOne(st, env, id).Ok?
    ensures Announces(st, E.CancelOne(st, env, id).value.0, [Notice(Cancellation, Some(id))])
  {
    hide QuoteCancel, Collapsed;
    var s := st.streams[id];
    var (vested, refund) := QuoteCancel(s, env.now).value;
    OneMore(st, E.CancelOne(st, env, id).value.0, CancelledEvent(id, Collapsed(s, env.now, vested), refund));
  }

  lemma {:induction false} CancelsAnnounce(st: State, env: Env, ids: seq<U64>, n: nat)
    requires n <= |ids| && E.CancelInOrder(st, env, ids, n).Ok?
    ensures Announces(st, E.CancelInOrder(st, env, ids, n).value.0, CancellationNotices(ids, n))
  {
    hide E.CancelOne, Announces;
    if n == 0 {
      Silent(st, st);
    } else {
      var st1 := E.CancelInOrder(st, env, ids, n - 1).value.0;
      CancelsAnnounce(st, env, ids, n - 1);
      CancelOneAnnounces(st1, env, ids[n - 1]);
      ThenMore(st, st1, E.CancelInOrder(st, env, ids, n).value.0, CancellationNotices(ids, n - 1),
               [Notice(Cancellation, Some(ids[n - 1]))]);
    }
  }

  lemma BatchCancelAnnounces(st: State, env: Env, sender: Address, ids: seq<U64>)
    requires E.BatchCancel(st, env, sender, ids).Ok?
    ensures Announces(st, E.BatchCancel(st, env, sender, ids).value.0, Due(st, env, BatchCancel(sender, ids)))
  {
    hide E.CancelInOrder, E.QuoteCancels, Announces, QuoteCancel;
    RefusalIsFirst(st, env.now, ids, |ids|);
    if AllPriced(st, env.now, ids) {
      CancelsAnnounce(st, env, ids, |ids|);
    } else {
      Silent(st, st);
    }
  }

  lemma FundsAnnounce(st: State, env: Env, op: Op)
    requires Inv(st, env.now) && MovesFunds(op) && Attempt(st, env, op).Ok?
    ensures Announces(st, Attempt(st, env, op).value, Due(st, env, op))
  {
    hide Inv, Announces, E.TopUp, E.DelegateTopUp, E.Withdraw, E.DelegateWithdraw, E.BatchCancel, E.ReclaimDust,
      E.CancelLoaded, E.DrainInOrder, E.QuoteWithdrawals;
    match op
    case TopUp(_, _) => TopUpAnnounces(st, env, op);
    case DelegateTopUp(_, _, _) => TopUpAnnounces(st, env, op);
    case Withdraw(_, _) => WithdrawalAnnounces(st, env, op);
    case DelegateWithdraw(_, _, _) => WithdrawalAnnounces(st, env, op);
    case BatchWithdraw(_, ids) => DrainAnnounces(st, env, ids, |ids|);
    case Cancel(id) => CancelOneAnnounces(st, env, id);
    case DelegateCancel(id, _) => CancelOneAnnounces(st, env, id);
    case BatchCancel(sender, ids) => BatchCancelAnnounces(st, env, sender, ids);
    case ReclaimDust(id) =>
      ReclaimDustDoesNothing(st, env, id);
      Silent(st, st);
  }

  lemma SteeringAnnounces(st: State, env: Env, op: Op)
    requires Steers(op) && Attempt(st, env, op).Ok?
    ensures Announces(st, Attempt(st, env, op).value, Due(st, env, op))
  {
    hide PauseStream, DelegatePauseStream, ResumeStream, DelegateResumeStream, TransferStream, DelegateTransferStream,
      E.CheckDelegate, Announces, Notices;
    var st' := Attempt(st, env, op).value;
    OneMore(st, st', st'.log[|st.log|]);
  }

  lemma DelegationAnnounces(st: State, env: Env, op: Op)
    requires (op.GrantDelegate? || op.RevokeDelegate?) && Attempt(st, env, op).Ok?
    ensures Announces(st, Attempt(st, env, op).value, Due(st, env, op))
  {
    hide Announces, Notices;
    var st' := Attempt(st, env, op).value;
    if Due(st, env, op) == [] {
      Silent(st, st');
    } else {
      OneMore(st, st', st'.log[|st.log|]);
    }
  }

  lemma MaintenanceAnnounces(st: State, env: Env, op: Op)
    requires Administers(op) && !op.GrantDelegate? && !op.RevokeDelegate? && Attempt(st, env, op).Ok?
    ensures Announces(st, Attempt(st, env, op).value, Due(st, env, op))
  {
    hide Announces, Notices, E.GrantDelegate, E.RevokeDelegate;
    var st' := Attempt(st, env, op).value;
    OneMore(st, st', st'.log[|st.log|]);
  }

  /**
   * Every successful call adds to the log exactly the events due: one for a single
   * operation, one per stream a batch acts on, in order, and none for what changes nothing.
   */
  lemma EveryCallAnnouncesOnce(st: State, env: Env, op: Op)
    requires Inv(st, env.now) && Attempt(st, env, op).Ok?
    ensures Announces(st, Attempt(st, env, op).value, Due(st, env, op))
  {
    hide Inv, Due, Announces;
    if MovesFunds(op) {
      FundsAnnounce(st, env, op);
    } else if Steers(op) {
      SteeringAnnounces(st, env, op);
    } else if op.GrantDelegate? || op.RevokeDelegate? {
      DelegationAnnounces(st, env, op);
    } else if Administers(op) {
      MaintenanceAnnounces(st, env, op);
    } else if op.Outside? {
      OutsideIsSilent(st, env, op);
    } else {
      CreationAnnounces(st, env, op);
    }
  }

  lemma OutsideIsSilent(st: State, env: Env, op: Op)
    requires op.Outside?
    ensures Announces(st, Attempt(st, env, op).value, Due(st, env, op))
  {
  }

  // ---- Silence ---------------------------------------------------------

  lemma {:induction false} NothingDrawn(st: State, env: Env, ids: seq<U64>, n: nat)
    requires n <= |ids| && Distinct(ids) && E.DrainInOrder(st, env, ids, n).Ok?
    requires WithdrawalNotices(st, env.now, ids, n) == []
    ensures E.DrainInOrder(st, env, ids, n).value == st
  {
    hide Withdrawable;
    if n > 0 {
      NothingDrawn(st, env, ids, n - 1);
    }
  }

  /** A call is silent exactly when it changes nothing at all. */
  lemma SilentIffUnchanged(st: State, env: Env, op: Op)
    requires Inv(st, env.now) && Attempt(st, env, op).Ok? && !op.Outside?
    ensures Attempt(st, env, op).value.log == st.log <==> Attempt(st, env, op).value == st
  {
    EveryCallAnnouncesOnce(st, env, op);
    if Attempt(st, env, op).value.log == st.log {
      DueOrUnchanged(st, env, op);
    }
  }

  lemma DueOrUnchanged(st: State, env: Env, op: Op)
    requires Inv(st, env.now) && Attempt(st, env, op).Ok? && !op.Outside? && Due(st, env, op) == []
    ensures Attempt(st, env, op).value == st
  {
    hide Inv, Attempt;
    match op
    case BatchWithdraw(_, _) => EmptyBatchChangesNothing(st, env, op);
    case BatchCancel(_, _) => EmptyBatchChangesNothing(st, env, op);
    case BatchCreate(_, _) => BatchCreateIsDue(st, env, op);
    case ReclaimDust(_) => OthersChangeNothing(st, env, op);
    case GrantDelegate(_, _, _, _, _) => OthersChangeNothing(st, env, op);
    case _ =>
  }

  lemma EmptyBatchChangesNothing(st: State, env: Env, op: Op)
    requires (op.BatchWithdraw? || op.BatchCancel?) && Attempt(st, env, op).Ok? && Due(st, env, op) == []
    ensures Attempt(st, env, op).value == st
  {
    hide E.DrainInOrder, E.QuoteWithdrawals, E.CancelInOrder, E.QuoteCancels, QuoteCancel;
    match op
    case BatchWithdraw(_, ids) => NothingDrawn(st, env, ids, |ids|);
    case BatchCancel(_, ids) => RefusalIsFirst(st, env.now, ids, |ids|);
  }

  lemma BatchCreateIsDue(st: State, env: Env, op: Op)
    requires op.BatchCreate? && Attempt(st, env, op).Ok?
    ensures Due(st, env, op) != []
  {
    hide E.CreateAll, E.ValidRequests;
  }

  lemma OthersChangeNothing(st: State, env: Env, op: Op)
    requires Inv(st, env.now) && (op.ReclaimDust? || op.GrantDelegate?)
    requires Attempt(st, env, op).Ok? && Due(st, env, op) == []
    ensures Attempt(st, env, op).value == st
  {
    hide Inv, E.ReclaimDust;
    if op.ReclaimDust? {
      ReclaimDustDoesNothing(st, env, op.id);
    }
  }

  // ---- Runs ------------------------------------------------------------

  /** What all the successful calls of a run owe, in the order of the calls. */
  function AllDue(calls: seq<Call>): seq<Notice> {
    if |calls| == 0 then []
    else
      var before, last := calls[..|calls| - 1], calls[|calls| - 1];
      AllDue(before) + if Attempt(Exec(before), last.env, last.op).Ok? then Due(Exec(before), last.env, last.op) else []
  }

  /** The log of any run is, event by event and in order, what its successful calls owe. */
  lemma {:induction false} LogIsAllDue(calls: seq<Call>)
    requires Timely(calls)
    ensures Notices(Exec(calls).log) == AllDue(calls)
  {
    hide Attempt, Inv, Due;
    if |calls| > 0 {
      var before, last := calls[..|calls| - 1], calls[|calls| - 1];
      LogIsAllDue(before);
      RunKeepsInvariant(before);
      LaterInvariant(Exec(before), Clock(before), last.env.now);
      if Attempt(Exec(before), last.env, last.op).Ok? {
        EveryCallAnnouncesOnce(Exec(before), last.env, last.op);
      }
    }
  }
}
