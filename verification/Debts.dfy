// What the streams of one token owe between them: exactly when a stream's debt is
// negative, when the pool covers every claim, and when a recipient is paid.
module Debts {
  import opened Prelude
  import opened Types
  import opened Accrual
  import opened StreamState
  import opened StreamOps
  import opened StreamLaws
  import opened Ledger
  import opened Invariant
  import opened Runs
  import opened Histories
  import opened Solvency
  import opened Batches
  import opened Authority
  import E = EntryPoints

  // ---- Streams that end short ------------------------------------------

  /** The call cancels stream `id`, of which more has been paid than has vested. */
  predicate EndsShort(st: State, env: Env, op: Op, id: U64) {
    && id in st.streams && Attempt(st, env, op).Ok? && id in Attempt(st, env, op).value.streams
    && Shows(st.streams[id], Attempt(st, env, op).value.streams[id], Ended)
    && Vested(st.streams[id], env.now).Ok? && Vested(st.streams[id], env.now).value < st.streams[id].withdrawn
  }

  /** Some call of the run did. */
  predicate EndedShort(calls: seq<Call>, id: U64) {
    |calls| > 0 &&
    var before, last := calls[..|calls| - 1], calls[|calls| - 1];
    EndedShort(before, id) || EndsShort(Exec(before), last.env, last.op, id)
  }

  lemma CancelSettles(st: State, env: Env, op: Op, id: U64)
    requires (op.Cancel? || op.DelegateCancel?) && Attempt(st, env, op).Ok?
    requires id in st.streams && id in Attempt(st, env, op).value.streams
    ensures Untouched(st, Attempt(st, env, op).value, id)
            || SettledAs(st.streams[id], env.now, Attempt(st, env, op).value.streams[id])
  {
    hide E.CancelLoaded, QuoteCancel, Collapsed;
    CancelOneEffect(st, env, op.id);
    CancelOneFrame(st, env, op.id, id);
  }

  lemma BatchSettles(st: State, env: Env, sender: Address, ids: seq<U64>, id: U64)
    requires E.BatchCancel(st, env, sender, ids).Ok?
    requires id in st.streams && id in E.BatchCancel(st, env, sender, ids).value.0.streams
    ensures var st' := E.BatchCancel(st, env, sender, ids).value.0;
            Untouched(st, st', id) || SettledAs(st.streams[id], env.now, st'.streams[id])
  {
    if E.BatchCancel(st, env, sender, ids).value.1.refusedIndex.None? {
      BatchCancelSettles(st, env, sender, ids);
      hide E.BatchCancel, SettledAs;
      if id in ids {
        var i :| 0 <= i < |ids| && ids[i] == id;
      }
    }
  }

  /** A call that ends a stream leaves it settled at its own quote, whichever entry point it was. */
  lemma EndedIsSettled(st: State, env: Env, op: Op, id: U64)
    requires Inv(st, env.now) && Attempt(st, env, op).Ok?
    requires id in st.streams && id in Attempt(st, env, op).value.streams
    requires Shows(st.streams[id], Attempt(st, env, op).value.streams[id], Ended)
    ensures SettledAs(st.streams[id], env.now, Attempt(st, env, op).value.streams[id])
  {
    if op.Cancel? || op.DelegateCancel? {
      CancelSettles(st, env, op, id);
    } else if op.BatchCancel? {
      BatchSettles(st, env, op.sender, op.ids, id);
    } else {
      OthersEndNothing(st, env, op, id);
    }
    hide Attempt, SettledAs;
  }

  lemma OthersEndNothing(st: State, env: Env, op: Op, id: U64)
    requires Inv(st, env.now) && Attempt(st, env, op).Ok?
    requires !op.Cancel? && !op.DelegateCancel? && !op.BatchCancel?
    requires id in st.streams && id in Attempt(st, env, op).value.streams
    ensures !Shows(st.streams[id], Attempt(st, env, op).value.streams[id], Ended)
  {
    hide Inv, Attempt;
    if op.TopUp? || op.DelegateTopUp? {
      TopUpShows(st, env, op);
    } else if op.Withdraw? || op.DelegateWithdraw? {
      WithdrawalShows(st, env, op);
    } else if Steers(op) {
      SteeringShows(st, env, op);
    } else if op.BatchWithdraw? {
      DrainsEndNothing(st, env, op, id);
    } else if op.ReclaimDust? {
      ReclaimEndsNothing(st, env, op, id);
    } else {
      OtherOpsKeepStreams(st, env, op, id);
    }
  }

  lemma DrainsEndNothing(st: State, env: Env, op: Op, id: U64)
    requires op.BatchWithdraw? && Attempt(st, env, op).Ok? && id in st.streams
    ensures id in Attempt(st, env, op).value.streams
    ensures !Shows(st.streams[id], Attempt(st, env, op).value.streams[id], Ended)
  {
    hide E.DrainInOrder, E.QuoteWithdrawals;
    DrainedOnly(st, env, op.ids, |op.ids|, id);
  }

  lemma ReclaimEndsNothing(st: State, env: Env, op: Op, id: U64)
    requires Inv(st, env.now) && op.ReclaimDust? && Attempt(st, env, op).Ok? && id in st.streams
    ensures Attempt(st, env, op).value == st
  {
    hide Inv, E.ReclaimDust;
    ReclaimDustDoesNothing(st, env, op.id);
  }

  // ---- Negative debts --------------------------------------------------

  lemma {:induction false} UnbornNeverEnded(calls: seq<Call>, id: U64)
    requires Timely(calls) && id !in Exec(calls).streams
    ensures !EndedShort(calls, id)
  {
    hide LogComplete, PoolExact, PaidAsLogged, StreamsFair, NewClocks, Shape, Follows, EndsShort;
    if |calls| > 0 {
      RunAdvances(calls, |calls| - 1);
      UnbornNeverEnded(calls[..|calls| - 1], id);
      UnbornDoesNotEnd(Exec(calls[..|calls| - 1]), calls[|calls| - 1].env, calls[|calls| - 1].op, id);
    }
  }

  lemma UnbornDoesNotEnd(st: State, env: Env, op: Op, id: U64)
    requires id !in st.streams
    ensures !EndsShort(st, env, op, id)
  {
  }

  /**
   * Over any run: a stream owes a negative amount exactly when some call cancelled
   * it while more had been paid than had vested. Nothing else ever overdraws a deposit.
   */
  lemma {:induction false} NegativeDebtIff(calls: seq<Call>, id: U64)
    requires Timely(calls) && id in Exec(calls).streams
    ensures Exec(calls).streams[id].deposited - Exec(calls).streams[id].withdrawn < 0 <==> EndedShort(calls, id)
  {
    hide Attempt;
    var before, last := calls[..|calls| - 1], calls[|calls| - 1];
    RunKeepsInvariant(before);
    LaterInvariant(Exec(before), Clock(before), last.env.now);
    if id in Exec(before).streams {
      NegativeDebtIff(before, id);
      DebtAcross(Exec(before), last.env, last.op, id);
    } else {
      UnbornNeverEnded(before, id);
      NewOwes(Exec(before), last.env, last.op, id);
    }
  }

  lemma DebtAcross(st: State, env: Env, op: Op, id: U64)
    requires Inv(st, env.now) && id in st.streams
    ensures id in Invoke(st, env, op).streams
    ensures var s, s' := st.streams[id], Invoke(st, env, op).streams[id];
            s'.deposited - s'.withdrawn < 0 <==> s.deposited - s.withdrawn < 0 || EndsShort(st, env, op, id)
  {
    hide LogComplete, PoolExact, PaidAsLogged, NewClocks, Attempt, Invoke, Shape, Follows, Covered, HarmBy, EndsShort;
    StepAdvances(st, env.now, env, op);
    if st.streams[id].status.IsTerminal() {
      TerminalIsUnharmed(st, env, op, id);
      assert StaysCovered(st, env.now, Invoke(st, env, op), env.now, id);
      TerminalKeepsDebt(st.streams[id], Invoke(st, env, op).streams[id], env.now);
      TerminalDoesNotEnd(st, env, op, id);
    } else {
      LiveOwes(st.streams[id], env.now);
      if Invoke(st, env, op).streams[id].status == Cancelled {
        CancelOwesIff(st, env, op, id);
      } else {
        NotCancelledOwes(Invoke(st, env, op).streams[id], env.now);
        NotCancelledDoesNotEnd(st, env, op, id);
      }
    }
  }

  lemma TerminalKeepsDebt(s: Stream, s': Stream, now: U64)
    requires Shape(s, now) && Shape(s', now) && Follows(s, now, s', now) && s.status.IsTerminal()
    requires Covered(s, now) ==> Covered(s', now)
    ensures s'.deposited - s'.withdrawn < 0 <==> s.deposited - s.withdrawn < 0
  {
    hide Amount, StreamTime, CliffReached;
    TerminalIsFullyVested(s, now, now);
    AmountInRange(s', now);
  }

  lemma LiveOwes(s: Stream, now: U64)
    requires Shape(s, now) && !s.status.IsTerminal()
    ensures s.deposited - s.withdrawn > 0
  {
  }

  lemma NotCancelledOwes(s: Stream, now: U64)
    requires Shape(s, now) && s.status != Cancelled
    ensures s.deposited - s.withdrawn >= 0
  {
  }

  lemma TerminalDoesNotEnd(st: State, env: Env, op: Op, id: U64)
    requires Inv(st, env.now) && id in st.streams && st.streams[id].status.IsTerminal()
    ensures !EndsShort(st, env, op, id)
  {
    hide Attempt, Vested, Follows, SettledAs, LogComplete, PoolExact, PaidAsLogged, NewClocks, StreamsFair, Shape;
    if EndsShort(st, env, op, id) {
      EndedIsSettled(st, env, op, id);
      SettledWasLive(st.streams[id], env.now, Attempt(st, env, op).value.streams[id]);
    }
  }

  lemma SettledWasLive(s: Stream, now: U64, s': Stream)
    requires SettledAs(s, now, s')
    ensures !s.status.IsTerminal()
  {
    hide Vested;
  }

  lemma NotCancelledDoesNotEnd(st: State, env: Env, op: Op, id: U64)
    requires id in Invoke(st, env, op).streams && Invoke(st, env, op).streams[id].status != Cancelled
    ensures !EndsShort(st, env, op, id)
  {
    hide Attempt, Vested;
  }

  /** A live stream that a call cancels owes a negative amount afterwards exactly when it ends short. */
  lemma CancelOwesIff(st: State, env: Env, op: Op, id: U64)
    requires Inv(st, env.now) && id in st.streams && !st.streams[id].status.IsTerminal()
    requires id in Invoke(st, env, op).streams && Invoke(st, env, op).streams[id].status == Cancelled
    ensures var s' := Invoke(st, env, op).streams[id]; s'.deposited - s'.withdrawn < 0 <==> EndsShort(st, env, op, id)
  {
    hide Attempt, Vested, Shape, QuoteCancel, LogComplete, PoolExact, PaidAsLogged, Amount;
    EndedIsSettled(st, env, op, id);
    VestedIsAmount(st.streams[id], env.now);
    CancelledDebtIff(st.streams[id], env.now);
  }

  lemma TerminalIsUnharmed(st: State, env: Env, op: Op, id: U64)
    requires id in st.streams && st.streams[id].status.IsTerminal()
    ensures id !in HarmBy(st, env, op).overdrawn
  {
  }

  lemma NewOwes(st: State, env: Env, op: Op, id: U64)
    requires Inv(st, env.now) && id !in st.streams && id in Invoke(st, env, op).streams
    ensures Invoke(st, env, op).streams[id].deposited >= Invoke(st, env, op).streams[id].withdrawn
  {
    hide LogComplete, PoolExact, PaidAsLogged, NewClocks, Attempt, Amount;
    StepAdvances(st, env.now, env, op);
    AmountInRange(Invoke(st, env, op).streams[id], env.now);
    UnbornTakesNoHarm(st, env, op, id);
    assert StaysCovered(st, env.now, Invoke(st, env, op), env.now, id);
  }

  /** And then alone `reclaim_dust` reports anything but zero. */
  lemma DustIffEndedShort(calls: seq<Call>, env: Env, id: U64)
    requires Timely(calls) && Clock(calls) <= env.now && E.ReclaimDust(Exec(calls), env, id).Ok?
    ensures E.ReclaimDust(Exec(calls), env, id).value.1 <= 0
    ensures E.ReclaimDust(Exec(calls), env, id).value.1 != 0 <==> EndedShort(calls, id)
  {
    hide Exec, EndedShort, E.ReclaimDust;
    ReclaimDustIsANoOp(calls, env, id);
    NegativeDebtIff(calls, id);
  }

  // ---- The pool and the claims on it -----------------------------------

  /** What the recipients in `token` are still to get, stream by stream; an overdrawn stream owes nothing. */
  function Claims(streams: map<U64, Stream>, token: Address, n: nat): int {
    if n == 0 then 0
    else Claims(streams, token, n - 1) + if n - 1 in streams then Max(0, Debt(streams[n - 1], token)) else 0
  }

  lemma {:induction false} ClaimsAreOwedIff(streams: map<U64, Stream>, token: Address, n: nat)
    ensures Owed(streams, token, n) <= Claims(streams, token, n)
    ensures Claims(streams, token, n) == Owed(streams, token, n)
            <==> forall k: U64 :: k in streams && k < n ==> Debt(streams[k], token) >= 0
  {
    if n > 0 {
      ClaimsAreOwedIff(streams, token, n - 1);
    }
  }

  /** No stream in this token ended short. */
  predicate NoneEndedShort(calls: seq<Call>, token: Address) {
    forall id :: id in Exec(calls).streams && Exec(calls).streams[id].token == token ==> !EndedShort(calls, id)
  }

  /**
   * After any run the pool of a token covers all claims on it, and is then their
   * exact sum, if and only if no stream in the token ended short.
   */
  lemma PoolCoversAllIff(calls: seq<Call>, token: Address)
    requires Timely(calls)
    ensures var st := Exec(calls);
            && (Claims(st.streams, token, st.nextId) <= Pooled(st, token) <==> NoneEndedShort(calls, token))
            && (Claims(st.streams, token, st.nextId) == Pooled(st, token) <==> NoneEndedShort(calls, token))
  {
    hide EndedShort, Exec;
    var st := Exec(calls);
    RunKeepsInvariant(calls);
    ClaimsAreOwedIff(st.streams, token, st.nextId);
    forall id | id in st.streams
      ensures st.streams[id].deposited - st.streams[id].withdrawn < 0 <==> EndedShort(calls, id)
    {
      NegativeDebtIff(calls, id);
    }
  }

  lemma NoneShortNoneOverdrawn(calls: seq<Call>, token: Address)
    requires Timely(calls)
    ensures NothingOverdrawn(Exec(calls), token) <==> NoneEndedShort(calls, token)
  {
    hide EndedShort, Exec;
    forall id | id in Exec(calls).streams
      ensures Exec(calls).streams[id].deposited - Exec(calls).streams[id].withdrawn < 0 <==> EndedShort(calls, id)
    {
      NegativeDebtIff(calls, id);
    }
  }

  // ---- Payment ---------------------------------------------------------

  /**
   * Exactly when a recipient is paid: after every run in which the stream's token was
   * honest, and with a token that is so still and pays nothing its balance does not
   * cover, a withdrawal succeeds if and only if the contract is not halted, the
   * recipient signed, what is asked for is positive and has vested unpaid, the balance
   * covers it, and the pool counter does not underflow.
   */
  lemma PaidAfterRunIff(calls: seq<Call>, env: Env, id: U64, request: Option<I128>)
    requires Timely(calls) && Clock(calls) <= env.now && id in Exec(calls).streams
    requires HonestRun(calls, Exec(calls).streams[id].token)
    requires Honest(env.host, Exec(calls).streams[id].token) && Frugal(env.host, Exec(calls).streams[id].token)
    ensures Vested(Exec(calls).streams[id], env.now).Ok?
    ensures var st := Exec(calls);
            var s := st.streams[id];
            var due := Vested(s, env.now).value - s.withdrawn;
            var asked := if request.Some? then request.value else due;
            && (E.Withdraw(st, env, id, request).Ok?
                <==> && st.haltedAt.None? && s.recipient in env.auths
                     && 0 < asked <= due
                     && asked <= BalanceOf(st.bank, s.token)
                     && I128_MIN <= Pooled(st, s.token) - asked)
            && (E.Withdraw(st, env, id, request).Ok? ==> E.Withdraw(st, env, id, request).value.1 == asked)
  {
    hide Exec, Honest, Frugal, E.Withdraw, Vested, Amount;
    RunKeepsInvariant(calls);
    LaterInvariant(Exec(calls), Clock(calls), env.now);
    HonestRunsStayBacked(calls, Exec(calls).streams[id].token);
    VestedIsAmount(Exec(calls).streams[id], env.now);
    WithdrawSucceedsIff(Exec(calls), env, id, request);
  }

  lemma DueIsOwed(s: Stream, now: U64)
    requires Shape(s, now)
    ensures Amount(s, now) - s.withdrawn <= Debt(s, s.token)
  {
    AmountInRange(s, now);
  }

  /**
   * So if moreover none of the token's streams ended short, the balance is never the
   * reason: a full withdrawal of something positive succeeds and pays exactly that.
   */
  lemma RecipientsAlwaysPaid(calls: seq<Call>, env: Env, id: U64)
    requires Timely(calls) && Clock(calls) <= env.now && id in Exec(calls).streams
    requires HonestRun(calls, Exec(calls).streams[id].token) && Honest(env.host, Exec(calls).streams[id].token)
    requires NoneEndedShort(calls, Exec(calls).streams[id].token)
    requires Exec(calls).haltedAt.None? && Exec(calls).streams[id].recipient in env.auths
    requires Withdrawable(Exec(calls).streams[id], env.now) != Ok(0)
    ensures E.Withdraw(Exec(calls), env, id, None).Ok?
    ensures Withdrawable(Exec(calls).streams[id], env.now) == Ok(E.Withdraw(Exec(calls), env, id, None).value.1)
  {
    hide Exec, Honest, HonestRun, E.Withdraw, EndedShort, Vested, Amount;
    RunKeepsInvariant(calls);
    LaterInvariant(Exec(calls), Clock(calls), env.now);
    HonestRunsStayBacked(calls, Exec(calls).streams[id].token);
    NoneShortNoneOverdrawn(calls, Exec(calls).streams[id].token);
    ReadingsNeverFail(Exec(calls).streams[id], env.now);
    DebtsAreCovered(Exec(calls), id, Exec(calls).streams[id].token);
    DueIsOwed(Exec(calls).streams[id], env.now);
    WithdrawPays(Exec(calls), env, id);
  }
}
