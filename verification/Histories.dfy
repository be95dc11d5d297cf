// Properties of whole runs, read off the master theorem.
module Histories {
  import opened Prelude
  import opened Types
  import opened Arith
  import opened Accrual
  import opened StreamState
  import opened StreamOps
  import opened StreamLaws
  import opened Events
  import opened Ledger
  import opened Invariant
  import opened Runs
  import TopUps
  import E = EntryPoints

  // ---- Pool ------------------------------------------------------------

  /** After any run the pool counter is the sum of what the streams owe, and what the tokens moved. */
  lemma PoolAccounting(calls: seq<Call>, token: Address)
    requires Timely(calls)
    ensures var st := Exec(calls);
            Pooled(st, token) == Owed(st.streams, token, st.nextId) == Net(st.moves, token)
  {
    RunKeepsInvariant(calls);
  }

  // ---- Harm ------------------------------------------------------------

  /** The stream is linear, or no delegated top-up since the `n`-th call left it overdrawn. */
  predicate SparedCover(calls: seq<Call>, n: nat, id: U64)
    requires n <= |calls|
  {
    (id in Exec(calls).streams && Exec(calls).streams[id].curve == Linear) || id !in HarmSince(calls, n).overdrawn
  }

  /** The stream is linear, or no delegated top-up since the `n`-th call took vested amounts back. */
  predicate SparedVested(calls: seq<Call>, n: nat, id: U64)
    requires n <= |calls|
  {
    (id in Exec(calls).streams && Exec(calls).streams[id].curve == Linear) || id !in HarmSince(calls, n).lowered
  }

  lemma UnbornTakesNoHarm(st: State, env: Env, op: Op, id: U64)
    requires id !in st.streams
    ensures id !in HarmBy(st, env, op).overdrawn && id !in HarmBy(st, env, op).lowered
  {
  }

  lemma {:induction false} UnbornIsUnharmed(calls: seq<Call>, n: nat, id: U64)
    requires Timely(calls) && n <= |calls| && id !in Exec(calls).streams
    ensures id !in HarmSince(calls, n).overdrawn && id !in HarmSince(calls, n).lowered
    decreases |calls|
  {
    hide LogComplete, PoolExact, PaidAsLogged, StreamsFair, NewClocks, Shape, Follows;
    if n < |calls| {
      RunAdvances(calls, |calls| - 1);
      UnbornIsUnharmed(calls[..|calls| - 1], n, id);
    }
  }

  lemma {:induction false} HarmGrows(calls: seq<Call>, n: nat)
    requires n <= |calls|
    ensures HarmSince(calls, n).overdrawn <= HarmSince(calls, 0).overdrawn
    ensures HarmSince(calls, n).lowered <= HarmSince(calls, 0).lowered
    decreases |calls|
  {
    hide HarmBy;
    if n < |calls| {
      HarmGrows(calls[..|calls| - 1], n);
    }
  }

  lemma CurveIsKept(st: State, t: U64, env: Env, op: Op, id: U64)
    requires Inv(st, t) && t <= env.now && id in st.streams
    ensures id in Invoke(st, env, op).streams && Invoke(st, env, op).streams[id].curve == st.streams[id].curve
  {
    hide LogComplete, PoolExact, PaidAsLogged, NewClocks, StreamsFair, Shape, Invoke, StreamTime, CliffReached;
    StepAdvances(st, t, env, op);
  }

  lemma LinearStep(st: State, t: U64, env: Env, op: Op, id: U64)
    requires Inv(st, t) && t <= env.now && id in Invoke(st, env, op).streams
    requires id in st.streams ==> st.streams[id].curve == Linear && Covered(st.streams[id], t)
    ensures id !in HarmBy(st, env, op).overdrawn && id !in HarmBy(st, env, op).lowered
    ensures Shape(Invoke(st, env, op).streams[id], env.now) && Covered(Invoke(st, env, op).streams[id], env.now)
  {
    hide LogComplete, PoolExact, PaidAsLogged, NewClocks, StreamsFollow, Shape, Covered, Invoke;
    StepAdvances(st, t, env, op);
    if id in st.streams {
      ShapePersists(st.streams[id], t, env.now);
      LinearStepHarmsNot(st, env, op, id);
    } else {
      UnbornTakesNoHarm(st, env, op, id);
    }
    hide HarmBy;
    assert StaysCovered(st, t, Invoke(st, env, op), env.now, id);
  }

  /** No run, whatever its calls, harms a linear stream: it is covered throughout. */
  lemma {:induction false} LinearIsNeverHarmed(calls: seq<Call>, id: U64)
    requires Timely(calls) && id in Exec(calls).streams && Exec(calls).streams[id].curve == Linear
    ensures id !in HarmSince(calls, 0).overdrawn && id !in HarmSince(calls, 0).lowered
    ensures Shape(Exec(calls).streams[id], Clock(calls)) && Covered(Exec(calls).streams[id], Clock(calls))
    decreases |calls|
  {
    hide Inv, Shape, Covered, HarmBy, Invoke;
    var before, last := calls[..|calls| - 1], calls[|calls| - 1];
    RunKeepsInvariant(before);
    if id in Exec(before).streams {
      CurveIsKept(Exec(before), Clock(before), last.env, last.op, id);
      LinearIsNeverHarmed(before, id);
    } else {
      UnbornIsUnharmed(before, 0, id);
    }
    LinearStep(Exec(before), Clock(before), last.env, last.op, id);
  }

  lemma LinearStepHarmsNot(st: State, env: Env, op: Op, id: U64)
    requires id in st.streams && st.streams[id].curve == Linear
    requires Shape(st.streams[id], env.now) && Covered(st.streams[id], env.now)
    ensures id !in HarmBy(st, env, op).overdrawn && id !in HarmBy(st, env, op).lowered
  {
    hide Shape, Covered, Overdraws, Lowers;
    if op.DelegateTopUp? && op.id == id && Attempt(st, env, op).Ok? {
      DelegatedTopUpHarmsIff(st.streams[id], op.amount, env.now);
    }
  }

  /** Covered at some point, or not yet born, and spared since: covered now and later, whatever happens to others. */
  lemma CoverIsKept(calls: seq<Call>, n: nat, id: U64, t: U64)
    requires Timely(calls) && n <= |calls| && id in Exec(calls).streams && Clock(calls) <= t
    ensures Shape(Exec(calls).streams[id], t)
    ensures id in Exec(calls[..n]).streams ==> Shape(Exec(calls[..n]).streams[id], Clock(calls[..n]))
    ensures SparedCover(calls, n, id)
            && (id in Exec(calls[..n]).streams ==> Covered(Exec(calls[..n]).streams[id], Clock(calls[..n])))
            ==> Covered(Exec(calls).streams[id], t)
  {
    hide LogComplete, PoolExact, PaidAsLogged, Amount;
    RunAdvances(calls, n);
    if Exec(calls).streams[id].curve == Linear {
      LinearIsNeverHarmed(calls, id);
    }
    assert id !in HarmSince(calls, n).overdrawn ==>
             StaysCovered(Exec(calls[..n]), Clock(calls[..n]), Exec(calls), Clock(calls), id);
    ShapePersists(Exec(calls).streams[id], Clock(calls), t);
  }

  /** So a stream spared from the start is covered. */
  lemma SparedIsCovered(calls: seq<Call>, id: U64, t: U64)
    requires Timely(calls) && id in Exec(calls).streams && Clock(calls) <= t
    ensures Shape(Exec(calls).streams[id], t)
    ensures SparedCover(calls, 0, id) ==> Covered(Exec(calls).streams[id], t)
  {
    CoverIsKept(calls, 0, id, t);
    assert Exec(calls[..0]) == EMPTY;
  }

  /** No stream of this token was paid more than its deposit. */
  predicate NothingOverdrawn(st: State, token: Address) {
    forall id :: id in st.streams ==> Debt(st.streams[id], token) >= 0
  }

  lemma DebtsAreCovered(st: State, id: U64, token: Address)
    requires IdsContiguous(st) && PoolExact(st) && NothingOverdrawn(st, token)
    ensures Pooled(st, token) >= 0
    ensures id in st.streams ==> 0 <= Debt(st.streams[id], token) <= Pooled(st, token)
  {
    OwedBoundsDebt(st.streams, id, token, st.nextId);
  }

  // ---- Event replay ----------------------------------------------------

  /** The log of any run rebuilds streams, grants and halt, and accounts for every payment; ids have no gaps. */
  lemma LogRebuildsState(calls: seq<Call>, id: U64)
    requires Timely(calls)
    ensures var st := Exec(calls);
            && Replay(st.log) == st.streams
            && ReplayGrants(st.log) == st.grants
            && ReplaySwitch(st.log) == Switch(st.operator, st.haltedAt)
            && (id in st.streams <==> id < st.count) && st.count == st.nextId
            && (id in st.streams ==> PaidOut(st.log, id) == st.streams[id].withdrawn)
  {
    RunKeepsInvariant(calls);
  }

  /** And no event of it lies: each is true of the streams its predecessors describe. */
  lemma LogIsTruthful(calls: seq<Call>, i: nat)
    requires Timely(calls) && i < |Exec(calls).log|
    ensures var log := Exec(calls).log; Truthful(Replay(log[..i]), ReplaySwitch(log[..i]), log[i])
  {
    RunKeepsInvariant(calls);
    LawfulAt(Exec(calls).log, i);
  }

  /** Account by account and token by token, the transfers the contract made are those the log states. */
  lemma TransfersMatchLog(calls: seq<Call>, who: Address, token: Address)
    requires Timely(calls)
    ensures Given(Exec(calls).moves, who, token) == Stated(Exec(calls).log, who, token)
  {
    RunKeepsInvariant(calls);
  }

  // ---- I1, I2, I4, I5 --------------------------------------------------

  /** In every state of every run, at every instant from then on, no reading fails and the bounds hold. */
  lemma BoundsHoldAlways(calls: seq<Call>, id: U64, s: Stream, t: U64)
    requires Timely(calls) && Clock(calls) <= t
    requires id in Exec(calls).streams && s == Exec(calls).streams[id]
    ensures Vested(s, t).Ok? && Refundable(s, t).Ok? && Withdrawable(s, t).Ok?
    ensures Liability(s) == Ok(s.deposited - s.withdrawn)
    ensures 0 <= s.withdrawn && 0 <= Vested(s, t).value <= s.deposited
    ensures Vested(s, t).value + Refundable(s, t).value == s.deposited
    ensures s.pausedAt.Some? <==> s.status == Paused
    ensures s.pausedTotal <= (if s.status == Paused then s.pausedAt.value else t)
    ensures s.status != Cancelled ==> s.deposited * Duration(s) <= I128_MAX
    ensures !s.status.IsTerminal() ==> s.withdrawn < s.deposited
    ensures SparedCover(calls, 0, id) ==>
              && s.withdrawn <= Vested(s, t).value
              && Withdrawable(s, t).value == Vested(s, t).value - s.withdrawn
  {
    SparedIsCovered(calls, id, t);
    ReadingsAreBounded(s, t);
  }

  lemma ReadingsAreBounded(s: Stream, t: U64)
    requires Shape(s, t)
    ensures Vested(s, t).Ok? && Refundable(s, t).Ok? && Withdrawable(s, t).Ok?
    ensures Liability(s) == Ok(s.deposited - s.withdrawn)
    ensures 0 <= Vested(s, t).value <= s.deposited
    ensures Vested(s, t).value + Refundable(s, t).value == s.deposited
    ensures Covered(s, t) ==> s.withdrawn <= Vested(s, t).value
                              && Withdrawable(s, t).value == Vested(s, t).value - s.withdrawn
  {
    VestedIsAmount(s, t);
    ReadingsNeverFail(s, t);
  }

  /** I3 over runs: between any two points, what is paid and what has vested never go back. */
  lemma NothingGoesBack(calls: seq<Call>, n: nat, id: U64)
    requires Timely(calls) && n <= |calls| && id in Exec(calls[..n]).streams
    ensures id in Exec(calls).streams
    ensures var s, t := Exec(calls[..n]).streams[id], Clock(calls[..n]);
            var s', t' := Exec(calls).streams[id], Clock(calls);
            && s.withdrawn <= s'.withdrawn
            && (CliffReached(s, t) ==> CliffReached(s', t'))
            && StreamTime(s, t) <= StreamTime(s', t')
            && SameTerms(s, s')
            && (s.status.IsTerminal() ==> s'.status == s.status && s'.deposited == s.deposited)
            && Vested(s, t).Ok? && Vested(s', t').Ok?
            && (SparedVested(calls, n, id) ==> Vested(s, t).value <= Vested(s', t').value)
  {
    RunAdvances(calls, n);
    if Exec(calls).streams[id].curve == Linear {
      LinearIsNeverHarmed(calls, id);
      HarmGrows(calls, n);
    }
    assert id !in HarmSince(calls, n).lowered ==>
             NeverLowered(Exec(calls[..n]), Clock(calls[..n]), Exec(calls), Clock(calls), id);
    VestedIsAmount(Exec(calls[..n]).streams[id], Clock(calls[..n]));
    VestedIsAmount(Exec(calls).streams[id], Clock(calls));
  }

  /** A cancelled stream is settled for good: at every later instant vested is its deposit. */
  lemma CancelledForGood(calls: seq<Call>, n: nat, id: U64, t: U64)
    requires Timely(calls) && n <= |calls| && Clock(calls) <= t && id in Exec(calls[..n]).streams
    requires Exec(calls[..n]).streams[id].status == Cancelled
    ensures id in Exec(calls).streams && Exec(calls).streams[id].status == Cancelled
    ensures Exec(calls).streams[id].deposited == Exec(calls[..n]).streams[id].deposited
    ensures Vested(Exec(calls).streams[id], t) == Ok(Exec(calls[..n]).streams[id].deposited)
    ensures Refundable(Exec(calls).streams[id], t) == Ok(0)
  {
    hide Exec, HarmSince, Shape, Covered, Amount, Vested, Refundable, CliffReached, StreamTime;
    NothingGoesBack(calls, n, id);
    SparedIsCovered(calls, id, t);
    TerminalIsFullyVested(Exec(calls).streams[id], t, t);
    VestedIsAmount(Exec(calls).streams[id], t);
    ReadingsNeverFail(Exec(calls).streams[id], t);
  }

  // ---- Rate ------------------------------------------------------------

  /** However often a linear stream is topped up, its integer rate never drops, a factory minimum included. */
  lemma RateNeverDrops(calls: seq<Call>, n: nat, id: U64)
    requires Timely(calls) && n <= |calls| && id in Exec(calls[..n]).streams
    requires id in Exec(calls).streams
    requires Exec(calls[..n]).streams[id].curve == Linear && Exec(calls).streams[id].status != Cancelled
    ensures var s, s' := Exec(calls[..n]).streams[id], Exec(calls).streams[id];
            && 0 < Duration(s) && 0 < Duration(s')
            && s.deposited * Duration(s') <= s'.deposited * Duration(s)
            && s.deposited / Duration(s) <= s'.deposited / Duration(s')
  {
    RunAdvances(calls, n);
    RunKeepsInvariant(calls);
    var s, s' := Exec(calls[..n]).streams[id], Exec(calls).streams[id];
    FloorFractions(s.deposited, Duration(s), s'.deposited, Duration(s'));
  }

  /** A stream created through a factory starts at or above its minimum rate. */
  lemma FactoryMinimumAtCreation(st: State, env: Env, policy: Policy, t: Terms)
    requires Inv(st, env.now) && E.CreateViaFactory(st, env, policy, t).Ok?
    ensures var (st', id) := E.CreateViaFactory(st, env, policy, t).value;
            && id in st'.streams && st'.streams[id].curve == Linear && st'.streams[id].status == Active
            && 0 < Duration(st'.streams[id]) && policy.minDuration <= Duration(st'.streams[id])
            && st'.streams[id].deposited <= policy.maxDeposit && policy.allowlisted && !policy.creationPaused
            && (policy.minRate.Some? ==>
                  policy.minRate.value <= st'.streams[id].deposited / Duration(st'.streams[id]))
            && (policy.maxRate.Some? ==>
                  st'.streams[id].deposited / Duration(st'.streams[id]) <= policy.maxRate.value)
  {
  }

  /** And in every later state of every run it is at or above it still, until it is cancelled. */
  lemma FactoryMinimumIsKept(calls: seq<Call>, n: nat, policy: Policy, t: Terms)
    requires Timely(calls) && n < |calls| && calls[n].op == CreateViaFactory(policy, t)
    requires Attempt(Exec(calls[..n]), calls[n].env, calls[n].op).Ok? && policy.minRate.Some?
    ensures var id := Exec(calls[..n]).nextId;
            && id in Exec(calls).streams
            && (Exec(calls).streams[id].status != Cancelled ==>
                  && 0 < Duration(Exec(calls).streams[id])
                  && policy.minRate.value <= Exec(calls).streams[id].deposited / Duration(Exec(calls).streams[id]))
  {
    hide Inv, E.CreateViaFactory;
    var before, env, id := calls[..n], calls[n].env, Exec(calls[..n]).nextId;
    assert calls[..n + 1][..n] == before;
    RunKeepsInvariant(before);
    LaterInvariant(Exec(before), Clock(before), env.now);
    FactoryMinimumAtCreation(Exec(before), env, policy, t);
    CreatedUnderNextId(Exec(before), env, policy, t);
    NothingGoesBack(calls, n + 1, id);
    if Exec(calls).streams[id].status != Cancelled {
      RateNeverDrops(calls, n + 1, id);
    }
  }

  lemma CreatedUnderNextId(st: State, env: Env, policy: Policy, t: Terms)
    requires E.CreateViaFactory(st, env, policy, t).Ok?
    ensures E.CreateViaFactory(st, env, policy, t).value.1 == st.nextId
  {
  }

  // ---- The stream clock ------------------------------------------------

  /** Wall-clock seconds between the calls of a run during which stream `id` was paused. */
  function PausedSeconds(calls: seq<Call>, id: U64): int {
    if |calls| == 0 then 0
    else
      var before := calls[..|calls| - 1];
      PausedSeconds(before, id) +
      if id in Exec(before).streams && Exec(before).streams[id].status == Paused
      then Clock(calls) - Clock(before) else 0
  }

  lemma {:induction false} UnbornStreamsNeverPaused(calls: seq<Call>, id: U64)
    requires Timely(calls) && id !in Exec(calls).streams
    ensures PausedSeconds(calls, id) == 0
  {
    hide LogComplete, PoolExact, PaidAsLogged, StreamsFair, NewClocks, Shape, Follows;
    if |calls| > 0 {
      RunAdvances(calls, |calls| - 1);
      UnbornStreamsNeverPaused(calls[..|calls| - 1], id);
    }
  }

  lemma ClockAcross(st: State, t: U64, env: Env, op: Op, id: U64)
    requires Inv(st, t) && t <= env.now && id in Invoke(st, env, op).streams
    requires Invoke(st, env, op).streams[id].status != Cancelled
    ensures var clock := StreamTime(Invoke(st, env, op).streams[id], env.now);
            if id !in st.streams then clock == env.now
            else
              && st.streams[id].status != Cancelled
              && clock == StreamTime(st.streams[id], t) + if st.streams[id].status == Paused then 0 else env.now - t
  {
    hide LogComplete, PoolExact, PaidAsLogged, StreamsFair, Invoke, CliffReached;
    LaterInvariant(st, t, env.now);
    StepAdvances(st, env.now, env, op);
    if id in st.streams {
      ClockIsExact(st.streams[id], t);
      ClockIsExact(st.streams[id], env.now);
    }
  }

  /** Until a stream is cancelled, its clock is wall time less the time spent paused, exactly. */
  lemma {:induction false} ClockIsUnpausedTime(calls: seq<Call>, id: U64)
    requires Timely(calls) && id in Exec(calls).streams
    requires Exec(calls).streams[id].status != Cancelled
    ensures StreamTime(Exec(calls).streams[id], Clock(calls)) == Clock(calls) - PausedSeconds(calls, id)
  {
    hide Inv, Invoke, StreamTime;
    var before, last := calls[..|calls| - 1], calls[|calls| - 1];
    RunKeepsInvariant(before);
    ClockAcross(Exec(before), Clock(before), last.env, last.op, id);
    if id in Exec(before).streams {
      ClockIsUnpausedTime(before, id);
    } else {
      UnbornStreamsNeverPaused(before, id);
    }
  }

  // ---- Withdrawal patterns --------------------------------------------

  /** A list of withdrawals from one stream, in order: the stream they leave and the total they pay. */
  function DrawAll(s: Stream, draws: seq<(U64, Option<I128>)>): Result<(Stream, int)> {
    if |draws| == 0 then Ok((s, 0))
    else
      var (s1, total) :- DrawAll(s, draws[..|draws| - 1]);
      var (now, amount) := draws[|draws| - 1];
      var payout :- Payout(s1, now, amount);
      var s2 :- Drawn(s1, payout, now);
      Ok((s2, total + payout))
  }

  predicate DrawnInTime(draws: seq<(U64, Option<I128>)>, from: U64) {
    && (forall i :: 0 <= i < |draws| ==> from <= draws[i].0)
    && (forall i, j :: 0 <= i < j < |draws| ==> draws[i].0 <= draws[j].0)
  }

  lemma {:induction false} DrawAllIsInvisible(s: Stream, from: U64, draws: seq<(U64, Option<I128>)>, t: U64)
    requires Shape(s, from) && DrawnInTime(draws, from) && DrawAll(s, draws).Ok?
    requires from <= t && forall i :: 0 <= i < |draws| ==> draws[i].0 <= t
    ensures var (s', total) := DrawAll(s, draws).value;
            && Shape(s', t) && Amount(s', t) == Amount(s, t)
            && s'.withdrawn == s.withdrawn + total
  {
    if |draws| == 0 {
      ShapePersists(s, from, t);
    } else {
      var (now, amount) := draws[|draws| - 1];
      var before := draws[..|draws| - 1];
      DrawAllIsInvisible(s, from, before, now);
      DrawAllIsInvisible(s, from, before, t);
      var (s1, total) := DrawAll(s, before).value;
      PayoutInRange(s1, now, amount);
      var p := Payout(s1, now, amount).value;
      DrawSound(s1, p, now, 0);
      DrawingKeepsVested(s1, p, now, t);
      ShapePersists(Drawn(s1, p, now).value, now, t);
    }
  }

  /**
   * Pattern independence: however a recipient splits the withdrawals, once the
   * last one asks for everything at `t` the total is what had vested at `t`.
   */
  lemma SplittingWithdrawalsLosesNothing(s: Stream, from: U64, draws: seq<(U64, Option<I128>)>, t: U64)
    requires Shape(s, from) && DrawnInTime(draws + [(t, None)], from)
    requires DrawAll(s, draws + [(t, None)]).Ok?
    ensures DrawAll(s, draws + [(t, None)]).value.1 == Amount(s, t) - s.withdrawn
  {
    var all := draws + [(t, None)];
    assert all[..|all| - 1] == draws;
    assert forall i :: 0 <= i < |draws| ==> draws[i] == all[i];
    assert all[|draws|] == (t, None);
    DrawAllIsInvisible(s, from, draws, t);
    PayoutInRange(DrawAll(s, draws).value.0, t, None);
  }

  /** The same over runs with anything in between: after a full withdrawal the log has paid exactly what vested. */
  lemma FullWithdrawalSettlesTheLog(calls: seq<Call>, env: Env, id: U64)
    requires Timely(calls) && Clock(calls) <= env.now
    requires E.Withdraw(Exec(calls), env, id, None).Ok?
    ensures id in Exec(calls).streams
    ensures var (st', paid) := E.Withdraw(Exec(calls), env, id, None).value;
            && Vested(Exec(calls).streams[id], env.now) == Ok(PaidOut(st'.log, id))
            && PaidOut(st'.log, id) == PaidOut(Exec(calls).log, id) + paid
  {
    RunKeepsInvariant(calls);
    LaterInvariant(Exec(calls), Clock(calls), env.now);
    FullWithdrawalPaysUp(Exec(calls), env, id);
  }

  lemma FullWithdrawalPaysUp(st: State, env: Env, id: U64)
    requires Inv(st, env.now) && E.Withdraw(st, env, id, None).Ok?
    ensures id in st.streams
    ensures var (st', paid) := E.Withdraw(st, env, id, None).value;
            && PaidOut(st'.log, id) == PaidOut(st.log, id) + paid
            && Vested(st.streams[id], env.now) == Ok(PaidOut(st'.log, id))
  {
    var s := st.streams[id];
    PayoutInRange(s, env.now, None);
    VestedIsAmount(s, env.now);
    var paid := Payout(s, env.now, None).value;
    WithdrawalIsLogged(st, env, id, s, paid);
  }

  lemma WithdrawalIsLogged(st: State, env: Env, id: U64, s: Stream, paid: I128)
    requires id in st.streams && E.ApplyWithdrawal(st, env, id, s, paid).Ok?
    ensures PaidOut(E.ApplyWithdrawal(st, env, id, s, paid).value.log, id) == PaidOut(st.log, id) + paid
  {
    var e := WithdrawnEvent(id, Drawn(s, paid, env.now).value, paid);
    assert E.ApplyWithdrawal(st, env, id, s, paid).value.log == st.log + [e];
    AppendOne(st.log, e);
  }

  // ---- Guards that never fire -----------------------------------------

  /** In every reachable state, the defensive errors of pause, resume, transfer and top-up are unreachable. */
  lemma DefensiveErrorsUnreachable(calls: seq<Call>, id: U64, now: U64, amount: I128, to: Address)
    requires Timely(calls) && Clock(calls) <= now && id in Exec(calls).streams
    ensures var s := Exec(calls).streams[id];
            && PauseStream(s, now) == DelegatePauseStream(s, now)
            && ResumeStream(s, now) == DelegateResumeStream(s, now)
            && TransferStream(s, to, now) == DelegateTransferStream(s, to)
            && (ResumeStream(s, now).Err? ==> ResumeStream(s, now).error in {StreamTerminated, StreamNotPaused})
            && (TopUpStream(s, amount, now).Err? ==>
                  TopUpStream(s, amount, now).error
                  in {StreamTerminated, InvalidAmount, StreamMatured, TopUpTooSmall, Overflow})
  {
    var s := Exec(calls).streams[id];
    RunKeepsInvariant(calls);
    ShapePersists(s, Clock(calls), now);
    VestedIsAmount(s, now);
    if TopUpStream(s, amount, now).Err? {
      TopUps.TopUpErrors(s, amount, now);
    }
    if DelegatePauseStream(s, now).Ok? {
      PauseSound(s, now, id);
    }
    if s.status == Paused {
      ResumeSound(s, now, id);
    }
    if DelegateTransferStream(s, to).Ok? {
      TransferSound(s, to, now, id);
    }
  }

  lemma CoveredOwes(s: Stream, now: U64)
    requires Shape(s, now) && Covered(s, now)
    ensures s.withdrawn <= s.deposited
  {
    AmountInRange(s, now);
  }

  /** In every run `reclaim_dust` changes nothing, and what it reports is never more than zero: the overdraft. */
  lemma ReclaimDustIsANoOp(calls: seq<Call>, env: Env, id: U64)
    requires Timely(calls) && Clock(calls) <= env.now
    requires E.ReclaimDust(Exec(calls), env, id).Ok?
    ensures E.ReclaimDust(Exec(calls), env, id).value.0 == Exec(calls)
    ensures id in Exec(calls).streams
    ensures var s := Exec(calls).streams[id];
            E.ReclaimDust(Exec(calls), env, id).value.1 == Min(0, s.deposited - s.withdrawn)
    ensures SparedCover(calls, 0, id) ==> E.ReclaimDust(Exec(calls), env, id).value.1 == 0
  {
    hide Inv, Exec, HarmSince, Shape, Covered;
    RunKeepsInvariant(calls);
    LaterInvariant(Exec(calls), Clock(calls), env.now);
    ReclaimDustDoesNothing(Exec(calls), env, id);
    SparedIsCovered(calls, id, env.now);
    if Covered(Exec(calls).streams[id], env.now) {
      CoveredOwes(Exec(calls).streams[id], env.now);
    }
  }
}
