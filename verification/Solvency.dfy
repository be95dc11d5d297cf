// The real balances: what every success checks, and what an exact-transfer
// token adds.
module Solvency {
  import opened Prelude
  import opened Types
  import opened Accrual
  import opened StreamState
  import opened StreamOps
  import opened StreamLaws
  import opened Ledger
  import opened Invariant
  import opened Runs
  import opened Histories
  import E = EntryPoints

  // ---- Any token at all ------------------------------------------------

  /** The real balance in `token` covers everything the streams owe in it. */
  predicate Solvent(st: State, token: Address) {
    BalanceOf(st.bank, token) >= Owed(st.streams, token, st.nextId)
  }

  /** The stream whose pool a single-stream operation moves. */
  predicate MovesFundsOf(op: Op, id: U64) {
    match op
    case TopUp(i, _) => i == id
    case DelegateTopUp(i, _, _) => i == id
    case Withdraw(i, _) => i == id
    case DelegateWithdraw(i, _, _) => i == id
    case Cancel(i) => i == id
    case DelegateCancel(i, _) => i == id
    case _ => false
  }

  /** Whatever the tokens did before and during the call, a success leaves the token covering its streams. */
  lemma SuccessLeavesTokenSolvent(st: State, env: Env, op: Op, id: U64)
    requires Inv(st, env.now) && MovesFundsOf(op, id) && Attempt(st, env, op).Ok?
    ensures id in st.streams && Solvent(Attempt(st, env, op).value, st.streams[id].token)
  {
    AttemptAdvances(st, env, op);
    SuccessIsReconciled(st, env, op, id);
  }

  lemma SuccessIsReconciled(st: State, env: Env, op: Op, id: U64)
    requires MovesFundsOf(op, id) && Attempt(st, env, op).Ok?
    ensures id in st.streams && Backed(Attempt(st, env, op).value, st.streams[id].token)
  {
    if op.Cancel? || op.DelegateCancel? {
      CancelIsReconciled(st, env, id);
    } else if op.TopUp? || op.DelegateTopUp? {
      TopUpIsReconciled(st, env, op, id);
    }
  }

  lemma TopUpIsReconciled(st: State, env: Env, op: Op, id: U64)
    requires op.TopUp? || op.DelegateTopUp?
    requires MovesFundsOf(op, id) && Attempt(st, env, op).Ok?
    ensures id in st.streams && Backed(Attempt(st, env, op).value, st.streams[id].token)
  {
  }

  lemma CancelIsReconciled(st: State, env: Env, id: U64)
    requires E.CancelOne(st, env, id).Ok?
    ensures id in st.streams && Backed(E.CancelOne(st, env, id).value.0, st.streams[id].token)
  {
  }

  lemma BatchWithdrawLeavesTokensSolvent(st: State, env: Env, recipient: Address, ids: seq<U64>)
    requires Inv(st, env.now) && E.BatchWithdraw(st, env, recipient, ids).Ok?
    ensures forall i :: 0 <= i < |ids| ==>
              && ids[i] in st.streams
              && Solvent(E.BatchWithdraw(st, env, recipient, ids).value.0, st.streams[ids[i]].token)
  {
    var st' := E.BatchWithdraw(st, env, recipient, ids).value.0;
    DrainInOrderAdvances(st, env, ids, |ids|);
    forall i | 0 <= i < |ids|
      ensures ids[i] in st.streams && Solvent(st', st.streams[ids[i]].token)
    {
      QuotedIdsExist(st, env.now, recipient, ids, |ids|, i);
    }
  }

  lemma {:induction false} QuotedIdsExist(st: State, now: U64, recipient: Address, ids: seq<U64>, n: nat, i: nat)
    requires i < n <= |ids| && E.QuoteWithdrawals(st, now, recipient, ids, n).Ok?
    ensures ids[i] in st.streams && st.streams[ids[i]].recipient == recipient
    ensures Withdrawable(st.streams[ids[i]], now).Ok?
  {
    if i < n - 1 {
      QuotedIdsExist(st, now, recipient, ids, n - 1, i);
    }
  }

  // ---- Exact-transfer tokens ------------------------------------------

  /**
   * Honest in `token`: a payment in it that the balance covers is honoured, no
   * more leaves than was asked for, and transfers in other tokens take nothing.
   */
  predicate HonestReply(bank: Bank, m: Move, r: Reply, token: Address) {
    && (m.Pay? && m.token == token && m.amount <= BalanceOf(bank, token) ==> r.outcome == Moved)
    && (r.outcome == Moved ==> BalanceOf(r.bank, token) >= BalanceOf(bank, token) + Flow(m, token))
  }

  /** Whatever the tokens' history, for every transfer of a positive amount. */
  ghost predicate Honest(host: Host, token: Address) {
    forall moves: seq<Move>, bank: Bank, m: Move :: 0 < m.amount ==> HonestReply(bank, m, host(moves, bank, m), token)
  }

  /** Moves exactly the amount when the balance allows it, and refuses otherwise. */
  function ExactReply(bank: Bank, m: Move): Reply {
    var rest := BalanceOf(bank, m.token) + Flow(m, m.token);
    if 0 < m.amount && (m.Pay? ==> 0 <= rest) && I128_MIN <= rest <= I128_MAX then
      Reply(Moved, bank[m.token := rest])
    else
      Reply(Refused, bank)
  }

  const EXACT: Host := (moves: seq<Move>, bank: Bank, m: Move) => ExactReply(bank, m)

  lemma ExactIsHonest(token: Address)
    ensures Honest(EXACT, token)
  {
  }

  lemma PullKeepsBacking(st: State, env: Env, token: Address, from: Address, amount: I128, t: Address)
    requires Honest(env.host, t) && Backed(st, t) && 0 < amount && PullDeposit(st, env, token, from, amount).Ok?
    ensures Backed(PullDeposit(st, env, token, from, amount).value, t)
  {
    var m := Pull(token, from, amount);
    assert HonestReply(st.bank, m, env.host(st.moves, st.bank, m), t);
  }

  /** Debit, then pay: backing is kept, and the payment is honoured if the pool covers it. */
  lemma PayKeepsBacking(st: State, st1: State, env: Env, token: Address, to: Address, amount: I128, t: Address)
    requires Honest(env.host, t) && Backed(st, t) && 0 < amount
    requires st1.bank == st.bank && st1.moves == st.moves
    requires Pooled(st1, t) == Pooled(st, t) - if t == token then amount else 0
    ensures var r := TokenTransfer(st1, env, Pay(token, to, amount));
            && (r.Ok? ==> Backed(r.value, t))
            && (t == token && amount <= Pooled(st, token) ==> r.Ok?)
  {
    var m := Pay(token, to, amount);
    assert HonestReply(st.bank, m, env.host(st.moves, st.bank, m), t);
  }

  lemma CreateKeepsBacking(st: State, env: Env, t: Terms, token: Address)
    requires Honest(env.host, token) && Backed(st, token) && E.CreateInner(st, env, t).Ok?
    ensures Backed(E.CreateInner(st, env, t).value.0, token)
  {
    PullKeepsBacking(st, env, t.token, t.sender, t.deposit, token);
  }

  lemma {:induction false} CreateAllKeepsBacking(st: State, env: Env, sender: Address,
                                                 requests: seq<BatchCreateRequest>, n: nat, token: Address)
    requires n <= |requests| && Honest(env.host, token) && Backed(st, token)
    requires E.CreateAll(st, env, sender, requests, n).Ok?
    ensures Backed(E.CreateAll(st, env, sender, requests, n).value.0, token)
  {
    hide E.CreateInner, Honest;
    if n > 0 {
      CreateAllKeepsBacking(st, env, sender, requests, n - 1, token);
      var st1 := E.CreateAll(st, env, sender, requests, n - 1).value.0;
      CreateKeepsBacking(st1, env, RequestTerms(sender, requests[n - 1]), token);
    }
  }

  lemma TopUpKeepsBacking(st: State, env: Env, id: U64, amount: I128, token: Address)
    requires Honest(env.host, token) && Backed(st, token) && E.TopUp(st, env, id, amount).Ok?
    ensures Backed(E.TopUp(st, env, id, amount).value.0, token)
  {
    hide Honest, Vested, TopUpDurationDelta;
    var s := st.streams[id];
    PullKeepsBacking(st, env, s.token, s.sender, amount, token);
    hide Ledger.PullDeposit;
  }

  lemma DelegateTopUpKeepsBacking(st: State, env: Env, id: U64, d: Address, amount: I128, token: Address)
    requires Honest(env.host, token) && Backed(st, token) && E.DelegateTopUp(st, env, id, d, amount).Ok?
    ensures Backed(E.DelegateTopUp(st, env, id, d, amount).value.0, token)
  {
    hide Honest, LinearDelta;
    var s := st.streams[id];
    var st1 := Save(st, id, DelegateTopUpStream(s, amount, env.now).value);
    PullKeepsBacking(st1, env, s.token, s.sender, amount, token);
    hide Ledger.PullDeposit;
  }

  lemma WithdrawalKeepsBacking(st: State, env: Env, id: U64, s: Stream, payout: I128, token: Address)
    requires Honest(env.host, token) && Backed(st, token) && id in st.streams && 0 < payout
    requires E.ApplyWithdrawal(st, env, id, s, payout).Ok?
    ensures Backed(E.ApplyWithdrawal(st, env, id, s, payout).value, token)
  {
    hide Honest;
    var st2 := Save(DebitPool(st, s.token, payout).value, id, Drawn(s, payout, env.now).value);
    PayKeepsBacking(st, st2, env, s.token, s.recipient, payout, token);
  }

  /** What is paid out is positive. */
  lemma PayoutIsPositive(s: Stream, now: U64, amount: Option<I128>)
    ensures Payout(s, now, amount).Ok? ==> 0 < Payout(s, now, amount).value
    ensures Withdrawable(s, now).Ok? ==> 0 <= Withdrawable(s, now).value
  {
    hide Vested;
  }

  lemma {:induction false} DrainKeepsBacking(st: State, env: Env, ids: seq<U64>, n: nat, token: Address)
    requires n <= |ids| && Honest(env.host, token) && Backed(st, token) && E.DrainInOrder(st, env, ids, n).Ok?
    ensures Backed(E.DrainInOrder(st, env, ids, n).value, token)
  {
    hide Honest, Withdrawable, E.ApplyWithdrawal;
    if n > 0 {
      DrainKeepsBacking(st, env, ids, n - 1, token);
      var st1 := E.DrainInOrder(st, env, ids, n - 1).value;
      var s := st1.streams[ids[n - 1]];
      var available := Withdrawable(s, env.now).value;
      PayoutIsPositive(s, env.now, None);
      if available != 0 {
        WithdrawalKeepsBacking(st1, env, ids[n - 1], s, available, token);
      }
    }
  }

  lemma CancelKeepsBacking(st: State, env: Env, id: U64, token: Address)
    requires Honest(env.host, token) && Backed(st, token) && E.CancelOne(st, env, id).Ok?
    ensures Backed(E.CancelOne(st, env, id).value.0, token)
  {
    hide Honest, QuoteCancel, StreamTime;
    var s := st.streams[id];
    var (vested, refund) := QuoteCancel(s, env.now).value;
    var st1 := Save(st, id, Collapsed(s, env.now, vested));
    if refund > 0 {
      PayKeepsBacking(st, DebitPool(st1, s.token, refund).value, env, s.token, s.sender, refund, token);
    }
  }

  lemma {:induction false} CancelInOrderKeepsBacking(st: State, env: Env, ids: seq<U64>, n: nat, token: Address)
    requires n <= |ids| && Honest(env.host, token) && Backed(st, token) && E.CancelInOrder(st, env, ids, n).Ok?
    ensures Backed(E.CancelInOrder(st, env, ids, n).value.0, token)
  {
    hide E.CancelOne, Honest;
    if n > 0 {
      CancelInOrderKeepsBacking(st, env, ids, n - 1, token);
      CancelKeepsBacking(E.CancelInOrder(st, env, ids, n - 1).value.0, env, ids[n - 1], token);
    }
  }

  /** Between invocations this token's balance may only grow. */
  predicate OnlyGifts(st: State, op: Op, token: Address) {
    op.Outside? ==> BalanceOf(op.bank, token) >= BalanceOf(st.bank, token)
  }

  lemma CreationOpKeepsBacking(st: State, env: Env, op: Op, token: Address)
    requires op.CreateWithCliffMode? || op.CreateWithCurve? || op.CreateViaFactory? || op.BatchCreate?
    requires Honest(env.host, token) && Backed(st, token) && Attempt(st, env, op).Ok?
    ensures Backed(Attempt(st, env, op).value, token)
  {
    hide Honest, E.CreateInner, E.CreateAll;
    match op
    case CreateWithCliffMode(t) => CreateKeepsBacking(st, env, t.(curve := Linear), token);
    case CreateWithCurve(t) =>
      CreateKeepsBacking(st, env, t.(cliffMode := DEFAULT_CLIFF_MODE, reference := None), token);
    case CreateViaFactory(_, t) =>
      CreateKeepsBacking(st, env, t.(cliffMode := DEFAULT_CLIFF_MODE, reference := None, curve := Linear), token);
    case BatchCreate(sender, requests) => CreateAllKeepsBacking(st, env, sender, requests, |requests|, token);
  }

  lemma WithdrawOpKeepsBacking(st: State, env: Env, op: Op, token: Address)
    requires op.Withdraw? || op.DelegateWithdraw?
    requires Honest(env.host, token) && Backed(st, token) && Attempt(st, env, op).Ok?
    ensures Backed(Attempt(st, env, op).value, token)
  {
    hide Honest, Payout, E.ApplyWithdrawal;
    var s := st.streams[op.id];
    PayoutIsPositive(s, env.now, op.request);
    WithdrawalKeepsBacking(st, env, op.id, s, Payout(s, env.now, op.request).value, token);
  }

  lemma CancelOpKeepsBacking(st: State, env: Env, op: Op, token: Address)
    requires op.Cancel? || op.DelegateCancel?
    requires Honest(env.host, token) && Backed(st, token) && Attempt(st, env, op).Ok?
    ensures Backed(Attempt(st, env, op).value, token)
  {
    hide Honest, E.CancelLoaded;
    CancelKeepsBacking(st, env, op.id, token);
  }

  lemma BatchCancelKeepsBacking(st: State, env: Env, sender: Address, ids: seq<U64>, token: Address)
    requires Honest(env.host, token) && Backed(st, token) && E.BatchCancel(st, env, sender, ids).Ok?
    ensures Backed(E.BatchCancel(st, env, sender, ids).value.0, token)
  {
    hide Honest, E.CancelInOrder;
    if E.CancelInOrder(st, env, ids, |ids|).Ok? {
      CancelInOrderKeepsBacking(st, env, ids, |ids|, token);
    }
  }

  /** Pause, resume, transfer, delegation and administration touch neither pool nor balance. */
  lemma QuietOpKeepsBacking(st: State, env: Env, op: Op)
    requires (Steers(op) || Administers(op)) && Attempt(st, env, op).Ok?
    ensures Attempt(st, env, op).value.bank == st.bank && Attempt(st, env, op).value.pooled == st.pooled
  {
    if Steers(op) {
      SteeringIsQuiet(st, env, op);
    } else {
      AdministrationIsQuiet(st, env, op);
    }
    hide Attempt;
  }

  lemma SteeringIsQuiet(st: State, env: Env, op: Op)
    requires Steers(op) && Attempt(st, env, op).Ok?
    ensures Attempt(st, env, op).value.bank == st.bank && Attempt(st, env, op).value.pooled == st.pooled
  {
    hide PauseStream, DelegatePauseStream, ResumeStream, DelegateResumeStream, TransferStream, DelegateTransferStream,
      E.CheckDelegate;
  }

  lemma AdministrationIsQuiet(st: State, env: Env, op: Op)
    requires Administers(op) && Attempt(st, env, op).Ok?
    ensures Attempt(st, env, op).value.bank == st.bank && Attempt(st, env, op).value.pooled == st.pooled
  {
  }

  lemma FundsOpKeepsBacking(st: State, env: Env, op: Op, token: Address)
    requires Inv(st, env.now) && MovesFunds(op) && Honest(env.host, token) && Backed(st, token)
    requires Attempt(st, env, op).Ok?
    ensures Backed(Attempt(st, env, op).value, token)
  {
    hide Honest, Backed;
    match op
    case TopUp(id, amount) => TopUpKeepsBacking(st, env, id, amount, token);
    case DelegateTopUp(id, d, amount) => DelegateTopUpKeepsBacking(st, env, id, d, amount, token);
    case Withdraw(_, _) => WithdrawOpKeepsBacking(st, env, op, token);
    case DelegateWithdraw(_, _, _) => WithdrawOpKeepsBacking(st, env, op, token);
    case BatchWithdraw(_, ids) => DrainKeepsBacking(st, env, ids, |ids|, token);
    case Cancel(_) => CancelOpKeepsBacking(st, env, op, token);
    case DelegateCancel(_, _) => CancelOpKeepsBacking(st, env, op, token);
    case BatchCancel(sender, ids) => BatchCancelKeepsBacking(st, env, sender, ids, token);
    case ReclaimDust(id) => ReclaimDustDoesNothing(st, env, id);
  }

  /** If `token` is honest, every invocation keeps its pool covered, whatever the other tokens do. */
  lemma InvokeKeepsBacking(st: State, env: Env, op: Op, token: Address)
    requires Inv(st, env.now) && Honest(env.host, token) && Backed(st, token) && OnlyGifts(st, op, token)
    ensures Backed(Invoke(st, env, op), token)
  {
    hide Honest, Inv;
    if Attempt(st, env, op).Ok? {
      if MovesFunds(op) {
        FundsOpKeepsBacking(st, env, op, token);
      } else if Steers(op) || Administers(op) {
        QuietOpKeepsBacking(st, env, op);
      } else if !op.Outside? {
        CreationOpKeepsBacking(st, env, op, token);
      }
    }
  }

  /** A run in which `token` is honest and nobody takes its balance away; other tokens may do as they please. */
  ghost predicate HonestRun(calls: seq<Call>, token: Address) {
    forall i :: 0 <= i < |calls| ==>
      Honest(calls[i].env.host, token) && OnlyGifts(Exec(calls[..i]), calls[i].op, token)
  }

  lemma {:induction false} HonestRunsStayBacked(calls: seq<Call>, token: Address)
    requires Timely(calls) && HonestRun(calls, token)
    ensures Backed(Exec(calls), token)
  {
    hide Honest, Inv;
    if |calls| > 0 {
      var before, last := calls[..|calls| - 1], calls[|calls| - 1];
      assert forall i :: 0 <= i < |before| ==> before[..i] == calls[..i];
      HonestRunsStayBacked(before, token);
      RunKeepsInvariant(before);
      LaterInvariant(Exec(before), Clock(before), last.env.now);
      InvokeKeepsBacking(Exec(before), last.env, last.op, token);
    }
  }

  // ---- Exactly when a withdrawal succeeds ------------------------------

  /** Pays nothing in `token` that the balance does not cover. */
  ghost predicate Frugal(host: Host, token: Address) {
    forall moves: seq<Move>, bank: Bank, m: Move ::
      0 < m.amount && m.Pay? && m.token == token && host(moves, bank, m).outcome == Moved ==>
        m.amount <= BalanceOf(bank, token)
  }

  lemma ExactIsFrugal(token: Address)
    ensures Frugal(EXACT, token)
  {
  }

  /** What a withdrawal asks for; `None` asks for everything vested and unpaid. */
  function Asked(s: Stream, now: U64, request: Option<I128>): int
    requires s.deposited >= 0
  {
    match request
    case None => Amount(s, now) - s.withdrawn
    case Some(amount) => amount
  }

  lemma PayoutIsAsked(s: Stream, now: U64, request: Option<I128>)
    requires Shape(s, now)
    ensures Payout(s, now, request).Ok? <==> 0 < Asked(s, now, request) <= Amount(s, now) - s.withdrawn
    ensures Payout(s, now, request).Ok? ==> Payout(s, now, request).value == Asked(s, now, request)
  {
    hide Payout;
    PayoutIff(s, now, if request.Some? then request.value else 0);
    if Payout(s, now, request).Ok? {
      PayoutInRange(s, now, request);
    }
  }

  lemma PaymentIff(st: State, env: Env, id: U64, s: Stream, payout: I128)
    requires id in st.streams && s == st.streams[id] && 0 < payout && Drawn(s, payout, env.now).Ok?
    requires Honest(env.host, s.token) && Frugal(env.host, s.token) && Backed(st, s.token)
    ensures E.ApplyWithdrawal(st, env, id, s, payout).Ok?
            <==> payout <= BalanceOf(st.bank, s.token) && I128_MIN <= Pooled(st, s.token) - payout
    ensures E.ApplyWithdrawal(st, env, id, s, payout).Ok? ==>
              Backed(E.ApplyWithdrawal(st, env, id, s, payout).value, s.token)
  {
    hide Drawn;
    var m := Pay(s.token, s.recipient, payout);
    DrawnKeepsRecipient(s, payout, env.now);
    assert HonestReply(st.bank, m, env.host(st.moves, st.bank, m), s.token);
  }

  /**
   * With an exact token whose pool is covered, a withdrawal succeeds exactly when the
   * contract is not halted, the recipient signed, what is asked for is positive and has
   * vested unpaid, the balance covers it, and the pool counter does not underflow.
   */
  lemma WithdrawSucceedsIff(st: State, env: Env, id: U64, request: Option<I128>)
    requires Inv(st, env.now) && id in st.streams && Backed(st, st.streams[id].token)
    requires Honest(env.host, st.streams[id].token) && Frugal(env.host, st.streams[id].token)
    ensures var s := st.streams[id];
            var asked := Asked(s, env.now, request);
            E.Withdraw(st, env, id, request).Ok?
            <==> && st.haltedAt.None? && s.recipient in env.auths
                 && 0 < asked <= Amount(s, env.now) - s.withdrawn
                 && asked <= BalanceOf(st.bank, s.token)
                 && I128_MIN <= Pooled(st, s.token) - asked
    ensures E.Withdraw(st, env, id, request).Ok? ==>
              E.Withdraw(st, env, id, request).value.1 == Asked(st.streams[id], env.now, request)
  {
    hide Honest, Frugal, Payout, E.ApplyWithdrawal, Backed, Asked;
    var s := st.streams[id];
    PayoutIsAsked(s, env.now, request);
    if Payout(s, env.now, request).Ok? {
      PayoutInRange(s, env.now, request);
      PaymentIff(st, env, id, s, Payout(s, env.now, request).value);
    }
  }

  // ---- Exactly when it succeeds whatever the token ---------------------

  /** The same call with another host. */
  function Under(env: Env, host: Host): Env { env.(host := host) }

  /** With any host at all that is honest in the stream's token, the full withdrawal succeeds. */
  ghost predicate NeverFails(st: State, env: Env, id: U64)
    requires id in st.streams
  {
    forall host: Host :: Honest(host, st.streams[id].token) ==> E.Withdraw(st, Under(env, host), id, None).Ok?
  }

  lemma HonestPays(st: State, env: Env, id: U64, s: Stream, payout: I128)
    requires id in st.streams && s == st.streams[id] && 0 < payout && Drawn(s, payout, env.now).Ok?
    requires Honest(env.host, s.token) && Backed(st, s.token)
    requires payout <= BalanceOf(st.bank, s.token) && I128_MIN <= Pooled(st, s.token) - payout
    ensures E.ApplyWithdrawal(st, env, id, s, payout).Ok?
    ensures Backed(E.ApplyWithdrawal(st, env, id, s, payout).value, s.token)
  {
    hide Drawn;
    var m := Pay(s.token, s.recipient, payout);
    DrawnKeepsRecipient(s, payout, env.now);
    assert HonestReply(st.bank, m, env.host(st.moves, st.bank, m), s.token);
  }

  /** An honest token with a covered pool pays whatever has vested and the balance covers. */
  lemma WithdrawPays(st: State, env: Env, id: U64)
    requires Inv(st, env.now) && id in st.streams && Backed(st, st.streams[id].token)
    requires Honest(env.host, st.streams[id].token) && st.haltedAt.None? && st.streams[id].recipient in env.auths
    requires 0 < Amount(st.streams[id], env.now) - st.streams[id].withdrawn <= BalanceOf(st.bank, st.streams[id].token)
    requires I128_MIN <= Pooled(st, st.streams[id].token)
                         - (Amount(st.streams[id], env.now) - st.streams[id].withdrawn)
    ensures E.Withdraw(st, env, id, None).Ok?
    ensures E.Withdraw(st, env, id, None).value.1 == Amount(st.streams[id], env.now) - st.streams[id].withdrawn
  {
    hide Honest, Payout, E.ApplyWithdrawal, Backed, Amount, IdsContiguous, PoolExact, LogComplete, PaidAsLogged, Shape;
    var s := st.streams[id];
    PayoutIsAsked(s, env.now, None);
    PayoutInRange(s, env.now, None);
    HonestPays(st, env, id, s, Payout(s, env.now, None).value);
  }

  /**
   * On a covered pool, an unhalted contract and with the recipient's signature, a full
   * withdrawal of something positive succeeds with every honest token if and only if
   * the balance covers it and the pool counter does not underflow.
   */
  lemma WithdrawNeverFailsIff(st: State, env: Env, id: U64)
    requires Inv(st, env.now) && id in st.streams && Backed(st, st.streams[id].token)
    requires st.haltedAt.None? && st.streams[id].recipient in env.auths
    requires st.streams[id].withdrawn < Amount(st.streams[id], env.now)
    ensures var s := st.streams[id];
            var due := Amount(s, env.now) - s.withdrawn;
            NeverFails(st, env, id)
            <==> due <= BalanceOf(st.bank, s.token) && I128_MIN <= Pooled(st, s.token) - due
  {
    hide Honest, Frugal, E.Withdraw, IdsContiguous, PoolExact, LogComplete, PaidAsLogged, Amount, Backed;
    var s := st.streams[id];
    var due := Amount(s, env.now) - s.withdrawn;
    if due <= BalanceOf(st.bank, s.token) && I128_MIN <= Pooled(st, s.token) - due {
      forall host: Host | Honest(host, s.token)
        ensures E.Withdraw(st, Under(env, host), id, None).Ok?
      {
        WithdrawPays(st, Under(env, host), id);
      }
    } else {
      ExactIsHonest(s.token);
      ExactIsFrugal(s.token);
      WithdrawSucceedsIff(st, Under(env, EXACT), id, None);
    }
  }
}
