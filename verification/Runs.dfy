// Runs: any sequence of invocations, each succeeding or rolled back, with the
// tokens' balances moving in between as they please.
module Runs {
  import opened Prelude
  import opened Types
  import opened StreamState
  import opened StreamOps
  import opened Events
  import opened Ledger
  import opened Invariant
  import E = EntryPoints

  datatype Op =
    | CreateWithCliffMode(terms: Terms)
    | CreateWithCurve(terms: Terms)
    | CreateViaFactory(policy: Policy, terms: Terms)
    | BatchCreate(sender: Address, requests: seq<BatchCreateRequest>)
    | TopUp(id: U64, amount: I128)
    | Withdraw(id: U64, request: Option<I128>)
    | BatchWithdraw(recipient: Address, ids: seq<U64>)
    | Cancel(id: U64)
    | BatchCancel(sender: Address, ids: seq<U64>)
    | ReclaimDust(id: U64)
    | Pause(id: U64)
    | Resume(id: U64)
    | TransferRecipient(id: U64, to: Address)
    | GrantDelegate(id: U64, grantor: Address, delegate: Address, ops: Mask, expiresAt: Option<U64>)
    | RevokeDelegate(id: U64, grantor: Address, delegate: Address)
    | DelegateWithdraw(id: U64, delegate: Address, request: Option<I128>)
    | DelegateCancel(id: U64, delegate: Address)
    | DelegatePause(id: U64, delegate: Address)
    | DelegateResume(id: U64, delegate: Address)
    | DelegateTopUp(id: U64, delegate: Address, amount: I128)
    | DelegateTransferRecipient(id: U64, delegate: Address, to: Address)
    | SetHaltOperator(operator: Address)
    | Halt
    | ResumeContract
    | ExtendStreamTtl(id: U64)
    | Outside(bank: Bank) // not an invocation: the tokens move the contract's balances

  function Committed<T>(r: Result<(State, T)>): Result<State> {
    if r.Ok? then Ok(r.value.0) else Err(r.error)
  }

  function Attempt(st: State, env: Env, op: Op): Result<State> {
    match op
    case CreateWithCliffMode(t) => Committed(E.CreateWithCliffMode(st, env, t))
    case CreateWithCurve(t) => Committed(E.CreateWithCurve(st, env, t))
    case CreateViaFactory(p, t) => Committed(E.CreateViaFactory(st, env, p, t))
    case BatchCreate(sender, requests) => Committed(E.BatchCreate(st, env, sender, requests))
    case TopUp(id, amount) => Committed(E.TopUp(st, env, id, amount))
    case Withdraw(id, request) => Committed(E.Withdraw(st, env, id, request))
    case BatchWithdraw(recipient, ids) => Committed(E.BatchWithdraw(st, env, recipient, ids))
    case Cancel(id) => Committed(E.Cancel(st, env, id))
    case BatchCancel(sender, ids) => Committed(E.BatchCancel(st, env, sender, ids))
    case ReclaimDust(id) => Committed(E.ReclaimDust(st, env, id))
    case Pause(id) => Committed(E.Pause(st, env, id))
    case Resume(id) => Committed(E.Resume(st, env, id))
    case TransferRecipient(id, to) => Committed(E.TransferRecipient(st, env, id, to))
    case GrantDelegate(id, g, d, ops, at) => Committed(E.GrantDelegate(st, env, id, g, d, ops, at))
    case RevokeDelegate(id, g, d) => Committed(E.RevokeDelegate(st, env, id, g, d))
    case DelegateWithdraw(id, d, request) => Committed(E.DelegateWithdraw(st, env, id, d, request))
    case DelegateCancel(id, d) => Committed(E.DelegateCancel(st, env, id, d))
    case DelegatePause(id, d) => Committed(E.DelegatePause(st, env, id, d))
    case DelegateResume(id, d) => Committed(E.DelegateResume(st, env, id, d))
    case DelegateTopUp(id, d, amount) => Committed(E.DelegateTopUp(st, env, id, d, amount))
    case DelegateTransferRecipient(id, d, to) => Committed(E.DelegateTransferRecipient(st, env, id, d, to))
    case SetHaltOperator(who) => Committed(E.SetHaltOperator(st, env, who))
    case Halt => Committed(E.Halt(st, env))
    case ResumeContract => Committed(E.ResumeContract(st, env))
    case ExtendStreamTtl(id) => Committed(E.ExtendStreamTtl(st, env, id))
    case Outside(bank) => Ok(st.(bank := bank))
  }

  /** An error rolls the whole invocation back. */
  function Invoke(st: State, env: Env, op: Op): State {
    var r := Attempt(st, env, op);
    if r.Ok? then r.value else st
  }

  /** The harm a call does: only a delegated top-up that succeeds can do any, and only to its own stream. */
  function HarmBy(st: State, env: Env, op: Op): Harm {
    if op.DelegateTopUp? && op.id in st.streams && Attempt(st, env, op).Ok?
    then HarmTo(st.streams[op.id], op.id, op.amount, env.now)
    else NO_HARM
  }

  // ---- One step --------------------------------------------------------

  lemma CreationAdvances(st: State, env: Env, op: Op)
    requires op.CreateWithCliffMode? || op.CreateWithCurve? || op.CreateViaFactory? || op.BatchCreate?
    requires Inv(st, env.now) && Attempt(st, env, op).Ok?
    ensures Advance(st, env.now, Attempt(st, env, op).value, env.now, NO_HARM)
  {
    hide Advance, E.CreateInner, E.CreateAll;
    match op
    case CreateWithCliffMode(t) => CreateInnerAdvances(st, env, t.(curve := Linear));
    case CreateWithCurve(t) => CreateInnerAdvances(st, env, t.(cliffMode := DEFAULT_CLIFF_MODE, reference := None));
    case CreateViaFactory(p, t) =>
      CreateInnerAdvances(st, env, t.(cliffMode := DEFAULT_CLIFF_MODE, reference := None, curve := Linear));
    case BatchCreate(sender, requests) => CreateAllAdvances(st, env, sender, requests, |requests|);
  }

  lemma WithdrawalAdvances(st: State, env: Env, op: Op)
    requires op.Withdraw? || op.DelegateWithdraw?
    requires Inv(st, env.now) && Attempt(st, env, op).Ok?
    ensures Advance(st, env.now, Attempt(st, env, op).value, env.now, NO_HARM)
  {
    hide Advance;
    var s := st.streams[op.id];
    WithdrawAdvances(st, env, op.id, s, op.request, Payout(s, env.now, op.request).value);
  }

  lemma BatchWithdrawAdvances(st: State, env: Env, recipient: Address, ids: seq<U64>)
    requires Inv(st, env.now) && E.BatchWithdraw(st, env, recipient, ids).Ok?
    ensures Advance(st, env.now, E.BatchWithdraw(st, env, recipient, ids).value.0, env.now, NO_HARM)
  {
    hide E.DrainInOrder, Advance;
    DrainInOrderAdvances(st, env, ids, |ids|);
  }

  lemma CancellingAdvances(st: State, env: Env, op: Op)
    requires op.Cancel? || op.DelegateCancel?
    requires Inv(st, env.now) && Attempt(st, env, op).Ok?
    ensures Advance(st, env.now, Attempt(st, env, op).value, env.now, NO_HARM)
  {
    hide Advance;
    CancelOneAdvances(st, env, op.id);
  }

  lemma BatchCancelAdvances(st: State, env: Env, sender: Address, ids: seq<U64>)
    requires Inv(st, env.now) && E.BatchCancel(st, env, sender, ids).Ok?
    ensures Advance(st, env.now, E.BatchCancel(st, env, sender, ids).value.0, env.now, NO_HARM)
  {
    if E.QuoteCancels(st, env.now, ids, |ids|).value.RefusedAt? {
      WaitAdvances(st, env.now, env.now);
    } else {
      CancelInOrderAdvances(st, env, ids, |ids|);
    }
  }

  lemma PausingAdvances(st: State, env: Env, op: Op)
    requires op.Pause? || op.DelegatePause?
    requires Inv(st, env.now) && Attempt(st, env, op).Ok?
    ensures Advance(st, env.now, Attempt(st, env, op).value, env.now, NO_HARM)
  {
    hide Advance, Inv, VestedKept, DelegatePauseStream, E.CheckDelegate;
    PauseAdvances(st, op.id, st.streams[op.id], env.now);
  }

  lemma ResumingAdvances(st: State, env: Env, op: Op)
    requires op.Resume? || op.DelegateResume?
    requires Inv(st, env.now) && Attempt(st, env, op).Ok?
    ensures Advance(st, env.now, Attempt(st, env, op).value, env.now, NO_HARM)
  {
    hide Advance, Inv, VestedKept, DelegateResumeStream, E.CheckDelegate;
    ResumeAdvances(st, op.id, st.streams[op.id], env.now);
  }

  lemma TransferringAdvances(st: State, env: Env, op: Op)
    requires op.TransferRecipient? || op.DelegateTransferRecipient?
    requires Inv(st, env.now) && Attempt(st, env, op).Ok?
    ensures Advance(st, env.now, Attempt(st, env, op).value, env.now, NO_HARM)
  {
    hide Advance, Inv, VestedKept, DelegateTransferStream, E.CheckDelegate;
    TransferAdvances(st, op.id, st.streams[op.id], op.to, env.now);
  }

  lemma MaintenanceAdvances(st: State, env: Env, op: Op)
    requires op.SetHaltOperator? || op.Halt? || op.ResumeContract? || op.ExtendStreamTtl?
    requires Inv(st, env.now) && Attempt(st, env, op).Ok?
    ensures Advance(st, env.now, Attempt(st, env, op).value, env.now, NO_HARM)
  {
    var e := MaintenanceIsLogged(st, env, op);
    hide Attempt, StreamsFollow, NewClocks, StreamsFair, PoolExact, PaidAsLogged, Shape;
    SideEventAdvances(st, Attempt(st, env, op).value, e, env.now);
  }

  /** The operator, the halt and a rent extension change the switch at most, and their one event says how. */
  lemma MaintenanceIsLogged(st: State, env: Env, op: Op) returns (e: Event)
    requires op.SetHaltOperator? || op.Halt? || op.ResumeContract? || op.ExtendStreamTtl?
    requires ReplaySwitch(st.log) == Switch(st.operator, st.haltedAt) && ReplayGrants(st.log) == st.grants
    requires Attempt(st, env, op).Ok?
    ensures var st' := Attempt(st, env, op).value;
            && Idle(st, st') && st'.log == st.log + [e]
            && !e.StreamCreated? && !IsLifecycle(e) && !e.DelegateGranted?
            && st'.grants == ReplayGrants(st'.log)
            && ReplaySwitch(st'.log) == Switch(st'.operator, st'.haltedAt)
            && InTurn(e, Switch(st.operator, st.haltedAt))
  {
    hide Replay, ReplaySwitch, ReplayGrants, Lawful, Truthful, Observe, Stated, PaidOut;
    var st' := Attempt(st, env, op).value;
    e := st'.log[|st.log|];
    assert st'.log == st.log + [e];
    AppendOne(st.log, e);
  }

  predicate MovesFunds(op: Op) {
    || op.TopUp? || op.DelegateTopUp?
    || op.Withdraw? || op.BatchWithdraw? || op.DelegateWithdraw?
    || op.Cancel? || op.BatchCancel? || op.DelegateCancel? || op.ReclaimDust?
  }

  lemma FundsAdvance(st: State, env: Env, op: Op)
    requires MovesFunds(op)
    requires Inv(st, env.now) && Attempt(st, env, op).Ok?
    ensures Advance(st, env.now, Attempt(st, env, op).value, env.now, HarmBy(st, env, op))
  {
    hide Inv, Advance, E.TopUp, E.Withdraw, E.DelegateWithdraw, E.BatchWithdraw, E.Cancel, E.DelegateCancel,
      E.BatchCancel, E.ReclaimDust, HarmTo;
    match op
    case TopUp(id, amount) => TopUpAdvances(st, env, id, amount);
    case DelegateTopUp(id, d, amount) => DelegateTopUpAdvances(st, env, id, d, amount);
    case Withdraw(_, _) => WithdrawalAdvances(st, env, op);
    case DelegateWithdraw(_, _, _) => WithdrawalAdvances(st, env, op);
    case BatchWithdraw(recipient, ids) => BatchWithdrawAdvances(st, env, recipient, ids);
    case Cancel(_) => CancellingAdvances(st, env, op);
    case DelegateCancel(_, _) => CancellingAdvances(st, env, op);
    case BatchCancel(sender, ids) => BatchCancelAdvances(st, env, sender, ids);
    case ReclaimDust(id) =>
      ReclaimDustDoesNothing(st, env, id);
      WaitAdvances(st, env.now, env.now);
  }

  predicate Steers(op: Op) {
    || op.Pause? || op.Resume? || op.DelegatePause? || op.DelegateResume?
    || op.TransferRecipient? || op.DelegateTransferRecipient?
  }

  predicate Administers(op: Op) {
    || op.GrantDelegate? || op.RevokeDelegate?
    || op.SetHaltOperator? || op.Halt? || op.ResumeContract? || op.ExtendStreamTtl?
  }

  lemma ControlAdvances(st: State, env: Env, op: Op)
    requires Steers(op) || Administers(op)
    requires Inv(st, env.now) && Attempt(st, env, op).Ok?
    ensures Advance(st, env.now, Attempt(st, env, op).value, env.now, NO_HARM)
  {
    match op
    case Pause(_) => PausingAdvances(st, env, op);
    case DelegatePause(_, _) => PausingAdvances(st, env, op);
    case Resume(_) => ResumingAdvances(st, env, op);
    case DelegateResume(_, _) => ResumingAdvances(st, env, op);
    case TransferRecipient(_, _) => TransferringAdvances(st, env, op);
    case DelegateTransferRecipient(_, _, _) => TransferringAdvances(st, env, op);
    case GrantDelegate(id, g, d, ops, at) => GrantAdvances(st, env, id, g, d, ops, at);
    case RevokeDelegate(id, g, d) => RevokeAdvances(st, env, id, g, d);
    case SetHaltOperator(_) => MaintenanceAdvances(st, env, op);
    case Halt => MaintenanceAdvances(st, env, op);
    case ResumeContract => MaintenanceAdvances(st, env, op);
    case ExtendStreamTtl(_) => MaintenanceAdvances(st, env, op);
  }

  /** Every successful invocation, of whatever kind, advances the state, fairly to every stream it does not harm. */
  lemma AttemptAdvances(st: State, env: Env, op: Op)
    requires Inv(st, env.now) && Attempt(st, env, op).Ok?
    ensures Advance(st, env.now, Attempt(st, env, op).value, env.now, HarmBy(st, env, op))
  {
    if op.CreateWithCliffMode? || op.CreateWithCurve? || op.CreateViaFactory? || op.BatchCreate? {
      CreationAdvances(st, env, op);
    } else if op.Outside? {
      IdleAdvances(st, st.(bank := op.bank), env.now);
    } else if MovesFunds(op) {
      FundsAdvance(st, env, op);
    } else {
      ControlAdvances(st, env, op);
    }
  }

  // ---- Whole runs ------------------------------------------------------

  datatype Call = Call(env: Env, op: Op)

  /** Ledger time never goes back. */
  predicate Timely(calls: seq<Call>) {
    forall i, j :: 0 <= i < j < |calls| ==> calls[i].env.now <= calls[j].env.now
  }

  function Clock(calls: seq<Call>): U64 {
    if |calls| == 0 then 0 else calls[|calls| - 1].env.now
  }

  /** The state after a run from the empty contract. */
  function Exec(calls: seq<Call>): State {
    if |calls| == 0 then EMPTY
    else
      var last := calls[|calls| - 1];
      Invoke(Exec(calls[..|calls| - 1]), last.env, last.op)
  }

  lemma ExecNext(calls: seq<Call>, i: nat)
    requires i < |calls|
    ensures Exec(calls[..i + 1]) == Invoke(Exec(calls[..i]), calls[i].env, calls[i].op)
  {
    assert calls[..i + 1][..i] == calls[..i];
  }

  /** The `i`-th call succeeds. */
  predicate Succeeds(calls: seq<Call>, i: nat)
    requires i < |calls|
  {
    Attempt(Exec(calls[..i]), calls[i].env, calls[i].op).Ok?
  }

  function Joined(h1: Harm, h2: Harm): Harm {
    Harm(h1.overdrawn + h2.overdrawn, h1.lowered + h2.lowered)
  }

  /** The harm done from the `n`-th call on. */
  function HarmSince(calls: seq<Call>, n: nat): Harm
    requires n <= |calls|
  {
    if n == |calls| then NO_HARM
    else
      var before, last := calls[..|calls| - 1], calls[|calls| - 1];
      Joined(HarmSince(before, n), HarmBy(Exec(before), last.env, last.op))
  }

  lemma EmptyIsValid(now: U64)
    ensures Inv(EMPTY, now)
  {
  }

  lemma StepAdvances(st: State, t: U64, env: Env, op: Op)
    requires Inv(st, t) && t <= env.now
    ensures Advance(st, t, Invoke(st, env, op), env.now, HarmBy(st, env, op))
  {
    WaitAdvances(st, t, env.now);
    if Attempt(st, env, op).Ok? {
      AttemptAdvances(st, env, op);
      AdvanceTransitive(st, t, st, env.now, Invoke(st, env, op), env.now, HarmBy(st, env, op));
    }
  }

  lemma {:induction false} RunKeepsInvariant(calls: seq<Call>)
    requires Timely(calls)
    ensures Inv(Exec(calls), Clock(calls))
  {
    if |calls| == 0 {
      EmptyIsValid(0);
    } else {
      var before := calls[..|calls| - 1];
      var last := calls[|calls| - 1];
      RunKeepsInvariant(before);
      StepAdvances(Exec(before), Clock(before), last.env, last.op);
    }
  }

  /** The master theorem: the state after any prefix of a run advances to the state after the whole. */
  lemma {:induction false} RunAdvances(calls: seq<Call>, n: nat)
    requires Timely(calls) && n <= |calls|
    ensures Inv(Exec(calls[..n]), Clock(calls[..n])) && Clock(calls[..n]) <= Clock(calls)
    ensures Advance(Exec(calls[..n]), Clock(calls[..n]), Exec(calls), Clock(calls), HarmSince(calls, n))
    decreases |calls|
  {
    hide Invoke, HarmBy;
    RunKeepsInvariant(calls[..n]);
    if n == |calls| {
      assert calls[..n] == calls;
      WaitAdvances(Exec(calls), Clock(calls), Clock(calls));
    } else {
      var before := calls[..|calls| - 1];
      var last := calls[|calls| - 1];
      RunAdvances(before, n);
      RunKeepsInvariant(before);
      assert before[..n] == calls[..n];
      assert forall i :: 0 <= i < |before| ==> before[..i] == calls[..i];
      StepAdvances(Exec(before), Clock(before), last.env, last.op);
      ExtendRun(Exec(calls[..n]), Clock(calls[..n]), Exec(before), Clock(before), last,
                HarmSince(before, n), HarmSince(calls, n));
    }
  }

  lemma ExtendRun(st: State, t: U64, st1: State, t1: U64, call: Call, harm1: Harm, harm: Harm)
    requires Inv(st, t) && t <= t1 <= call.env.now
    requires Advance(st, t, st1, t1, harm1)
    requires Advance(st1, t1, Invoke(st1, call.env, call.op), call.env.now, HarmBy(st1, call.env, call.op))
    requires harm == Joined(harm1, HarmBy(st1, call.env, call.op))
    ensures Advance(st, t, Invoke(st1, call.env, call.op), call.env.now, harm)
  {
    AdvanceTransitive(st, t, st1, t1, Invoke(st1, call.env, call.op), call.env.now, harm);
  }
}
