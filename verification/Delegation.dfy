// Delegates: when a grant lets them through, and that they then do exactly
// what the party they act for would have done.
module Delegation {
  import opened Prelude
  import opened Types
  import opened Accrual
  import opened StreamState
  import opened StreamOps
  import opened StreamLaws
  import opened Events
  import opened Ledger
  import opened Invariant
  import opened Runs
  import E = EntryPoints

  // ---- The last word ---------------------------------------------------

  predicate Concerns(e: Event, id: U64, delegate: Address) {
    (e.DelegateGranted? || e.DelegateRevoked?) && e.id == id && e.delegate == delegate
  }

  /** Position of the latest grant or revocation for this stream and delegate, or -1. */
  function LastWord(log: seq<Event>, id: U64, delegate: Address): (i: int)
    ensures -1 <= i < |log|
    ensures i >= 0 ==> Concerns(log[i], id, delegate)
    ensures forall j :: i < j < |log| ==> !Concerns(log[j], id, delegate)
  {
    if |log| == 0 then -1
    else if Concerns(log[|log| - 1], id, delegate) then |log| - 1
    else LastWord(log[..|log| - 1], id, delegate)
  }

  /** The latest word is an unexpired grant that contains `bit`. */
  predicate Permitted(log: seq<Event>, id: U64, delegate: Address, bit: nat, now: U64) {
    var i := LastWord(log, id, delegate);
    && i >= 0 && log[i].DelegateGranted?
    && bit in log[i].ops
    && (log[i].expiresAt.Some? ==> now <= log[i].expiresAt.value)
  }

  lemma {:induction false} GrantsAreLastWords(log: seq<Event>, id: U64, delegate: Address)
    ensures var i := LastWord(log, id, delegate);
            && ((id, delegate) in ReplayGrants(log) <==> i >= 0 && log[i].DelegateGranted?)
            && ((id, delegate) in ReplayGrants(log) ==>
                  ReplayGrants(log)[(id, delegate)] == DelegateGrant(log[i].ops, log[i].expiresAt))
  {
    if |log| > 0 {
      GrantsAreLastWords(log[..|log| - 1], id, delegate);
    }
  }

  /** In every state of every run, a delegate passes exactly on an unexpired latest grant of the operation. */
  lemma DelegatePassesIff(calls: seq<Call>, env: Env, id: U64, delegate: Address, bit: nat)
    requires Timely(calls)
    ensures E.CheckDelegate(Exec(calls), env, id, delegate, bit).Pass?
            <==> Permitted(Exec(calls).log, id, delegate, bit, env.now) && delegate in env.auths
  {
    RunKeepsInvariant(calls);
    PassesOnLastWord(Exec(calls), env, id, delegate, bit);
  }

  lemma PassesOnLastWord(st: State, env: Env, id: U64, delegate: Address, bit: nat)
    requires ReplayGrants(st.log) == st.grants
    ensures E.CheckDelegate(st, env, id, delegate, bit).Pass?
            <==> Permitted(st.log, id, delegate, bit, env.now) && delegate in env.auths
  {
    GrantsAreLastWords(st.log, id, delegate);
  }

  /** The party a permission bit belongs to. */
  function Owner(s: Stream, bit: nat): Address {
    if bit == WITHDRAW || bit == TRANSFER_RECIPIENT then s.recipient else s.sender
  }

  predicate IsOp(bit: nat) {
    bit in SENDER_OPS + RECIPIENT_OPS
  }

  lemma BitsBelongToOwners(ops: Mask, bit: nat)
    requires IsOp(bit) && bit in ops
    ensures if bit == WITHDRAW || bit == TRANSFER_RECIPIENT then ops * RECIPIENT_OPS != {} else ops * SENDER_OPS != {}
  {
    if bit in SENDER_OPS {
      assert bit in ops * SENDER_OPS;
    } else {
      assert bit in ops * RECIPIENT_OPS;
    }
  }

  /** And that grant was issued by whoever held the role when it was issued. */
  lemma PermissionWasIssuedByOwner(calls: seq<Call>, id: U64, delegate: Address, bit: nat, now: U64)
    requires Timely(calls) && IsOp(bit)
    requires Permitted(Exec(calls).log, id, delegate, bit, now)
    ensures var log := Exec(calls).log;
            var i := LastWord(log, id, delegate);
            var issuedIn := Replay(log[..i]);
            id in issuedIn && log[i].grantor == Owner(issuedIn[id], bit)
  {
    RunKeepsInvariant(calls);
    var log := Exec(calls).log;
    var i := LastWord(log, id, delegate);
    LawfulAt(log, i);
    BitsBelongToOwners(log[i].ops, bit);
  }

  predicate IsDelegateOp(op: Op) {
    op.DelegateWithdraw? || op.DelegateCancel? || op.DelegatePause? || op.DelegateResume? || op.DelegateTopUp?
    || op.DelegateTransferRecipient?
  }

  function RequiredBit(op: Op): nat
    requires IsDelegateOp(op)
  {
    match op
    case DelegateWithdraw(_, _, _) => WITHDRAW
    case DelegateCancel(_, _) => CANCEL
    case DelegatePause(_, _) => PAUSE
    case DelegateResume(_, _) => RESUME
    case DelegateTopUp(_, _, _) => TOP_UP
    case DelegateTransferRecipient(_, _, _) => TRANSFER_RECIPIENT
  }

  /**
   * Over any run a delegated call succeeds only on an unexpired latest grant of
   * its own operation, issued by whoever then held the role that owns it.
   */
  lemma DelegatedSuccessWasGranted(calls: seq<Call>, env: Env, op: Op)
    requires Timely(calls) && IsDelegateOp(op) && Attempt(Exec(calls), env, op).Ok?
    ensures var log, bit := Exec(calls).log, RequiredBit(op);
            && Permitted(log, op.id, op.delegate, bit, env.now)
            && var i := LastWord(log, op.id, op.delegate);
               var issuedIn := Replay(log[..i]);
               op.id in issuedIn && log[i].grantor == Owner(issuedIn[op.id], bit)
  {
    CheckedBeforeActing(Exec(calls), env, op);
    hide Exec, Attempt, Permitted;
    DelegatePassesIff(calls, env, op.id, op.delegate, RequiredBit(op));
    PermissionWasIssuedByOwner(calls, op.id, op.delegate, RequiredBit(op), env.now);
  }

  lemma CheckedBeforeActing(st: State, env: Env, op: Op)
    requires IsDelegateOp(op) && Attempt(st, env, op).Ok?
    ensures E.CheckDelegate(st, env, op.id, op.delegate, RequiredBit(op)).Pass?
  {
  }

  // ---- Twins -----------------------------------------------------------

  function With(env: Env, who: Address): Env {
    env.(auths := env.auths + {who})
  }

  /** Past the authorization nobody looks at who signed. */
  lemma PayOutIgnoresAuths(st: State, env: Env, who: Address, id: U64, s: Stream, amount: Option<I128>)
    requires id in st.streams
    ensures E.PayOut(st, With(env, who), id, s, amount) == E.PayOut(st, env, id, s, amount)
  {
    hide Payout, Drawn;
  }

  lemma CancelIgnoresAuths(st: State, env: Env, who: Address, id: U64, s: Stream)
    requires id in st.streams
    ensures E.CancelLoaded(st, With(env, who), id, s) == E.CancelLoaded(st, env, id, s)
  {
    hide QuoteCancel, StreamTime;
  }

  lemma DelegateWithdrawIsWithdraw(st: State, env: Env, id: U64, delegate: Address, amount: Option<I128>)
    requires id in st.streams && E.CheckDelegate(st, env, id, delegate, WITHDRAW).Pass?
    ensures E.DelegateWithdraw(st, env, id, delegate, amount)
            == E.Withdraw(st, With(env, st.streams[id].recipient), id, amount)
  {
    hide E.PayOut;
    PayOutIgnoresAuths(st, env, st.streams[id].recipient, id, st.streams[id], amount);
  }

  lemma DelegateCancelIsCancel(st: State, env: Env, id: U64, delegate: Address)
    requires id in st.streams && E.CheckDelegate(st, env, id, delegate, CANCEL).Pass?
    ensures E.DelegateCancel(st, env, id, delegate) == E.Cancel(st, With(env, st.streams[id].sender), id)
  {
    hide E.CancelLoaded;
    CancelIgnoresAuths(st, env, st.streams[id].sender, id, st.streams[id]);
  }

  lemma DelegatePauseIsPause(st: State, env: Env, id: U64, delegate: Address)
    requires Inv(st, env.now) && id in st.streams && E.CheckDelegate(st, env, id, delegate, PAUSE).Pass?
    ensures E.DelegatePause(st, env, id, delegate) == E.Pause(st, With(env, st.streams[id].sender), id)
  {
    if DelegatePauseStream(st.streams[id], env.now).Ok? {
      PauseSound(st.streams[id], env.now, id);
    }
  }

  lemma DelegateResumeIsResume(st: State, env: Env, id: U64, delegate: Address)
    requires Inv(st, env.now) && id in st.streams && E.CheckDelegate(st, env, id, delegate, RESUME).Pass?
    ensures E.DelegateResume(st, env, id, delegate) == E.Resume(st, With(env, st.streams[id].sender), id)
  {
    if st.streams[id].status == Paused {
      ResumeSound(st.streams[id], env.now, id);
    }
  }

  lemma DelegateTransferIsTransfer(st: State, env: Env, id: U64, delegate: Address, to: Address)
    requires Inv(st, env.now) && id in st.streams && E.CheckDelegate(st, env, id, delegate, TRANSFER_RECIPIENT).Pass?
    ensures E.DelegateTransferRecipient(st, env, id, delegate, to)
            == E.TransferRecipient(st, With(env, st.streams[id].sender), id, to)
  {
    if DelegateTransferStream(st.streams[id], to).Ok? {
      TransferSound(st.streams[id], to, env.now, id);
    }
  }

  /** On a linear stream the two top-ups agree on every outcome, errors included. */
  lemma LinearTopUpsAgree(s: Stream, amount: I128, now: U64)
    requires Shape(s, now) && s.curve == Linear
    ensures DelegateTopUpStream(s, amount, now) == TopUpStream(s, amount, now)
  {
    if DelegateTopUpStream(s, amount, now).Ok? {
      DelegateTopUpSound(s, amount, now, 0);
      VestedIsAmount(s, now);
      VestedIsAmount(DelegateTopUpStream(s, amount, now).value, now);
    }
  }

  /** Saving before or after the pull makes no difference. */
  lemma PullIgnoresSave(st: State, env: Env, id: U64, s: Stream, token: Address, from: Address, amount: I128)
    requires id in st.streams
    ensures var early := PullDeposit(Save(st, id, s), env, token, from, amount);
            var late := PullDeposit(st, env, token, from, amount);
            && early.Ok? == late.Ok?
            && (early.Ok? ==> early.value == Save(late.value, id, s) && late.value.streams == st.streams)
            && (early.Err? ==> early.error == late.error)
  {
  }

  lemma DelegateTopUpIsTopUp(st: State, env: Env, id: U64, delegate: Address, amount: I128)
    requires Inv(st, env.now) && id in st.streams && E.CheckDelegate(st, env, id, delegate, TOP_UP).Pass?
    requires st.streams[id].curve == Linear && st.streams[id].sender in env.auths
    ensures E.DelegateTopUp(st, env, id, delegate, amount) == E.TopUp(st, env, id, amount)
  {
    var s := st.streams[id];
    LinearTopUpsAgree(s, amount, env.now);
    if st.haltedAt.None? && TopUpStream(s, amount, env.now).Ok? {
      var s' := TopUpStream(s, amount, env.now).value;
      PullIgnoresSave(st, env, id, s', s.token, s.sender, amount);
      TopUpTail(st, env, id, delegate, amount, s, s');
    }
  }

  lemma TopUpTail(st: State, env: Env, id: U64, delegate: Address, amount: I128, s: Stream, s': Stream)
    requires st.haltedAt.None? && id in st.streams && s == st.streams[id] && s.sender in env.auths
    requires E.CheckDelegate(st, env, id, delegate, TOP_UP).Pass?
    requires TopUpStream(s, amount, env.now) == DelegateTopUpStream(s, amount, env.now) == Ok(s')
    requires var early := PullDeposit(Save(st, id, s'), env, s.token, s.sender, amount);
             var late := PullDeposit(st, env, s.token, s.sender, amount);
             && early.Ok? == late.Ok?
             && (early.Ok? ==> early.value == Save(late.value, id, s') && late.value.streams == st.streams)
             && (early.Err? ==> early.error == late.error)
    ensures E.DelegateTopUp(st, env, id, delegate, amount) == E.TopUp(st, env, id, amount)
  {
  }
}
