// Two concrete runs with exact-transfer tokens: an innocent one, in which every
// hypothesis of the liveness theorem holds, and one in which a delegated top-up of
// a Step stream, followed by its cancel, leaves another stream's recipient unpaid.
module Scenarios {
  import opened Prelude
  import opened Types
  import opened Arith
  import opened Accrual
  import opened Curves
  import opened StreamState
  import opened StreamOps
  import opened Ledger
  import opened Invariant
  import opened Runs
  import opened Solvency
  import opened Debts
  import E = EntryPoints

  const ALICE := Address(0)
  const BOB := Address(1)
  const CAROL := Address(2)
  const DAVE := Address(3)
  const KEEPER := Address(4)
  const TOKEN := Address(5)

  /** A call at `now` signed by these, with exact-transfer tokens. */
  function At(now: U64, auths: set<Address>): Env {
    Env(now, auths, EXACT, U32_MAX)
  }

  function TermsOf(sender: Address, recipient: Address, deposit: I128, end: U64, curve: ReleaseCurve): Terms {
    Terms(sender, recipient, TOKEN, deposit, 0, end, 0, Schedule, true, true, true, None, curve)
  }

  function Fresh(sender: Address, recipient: Address, deposit: I128, end: U64, curve: ReleaseCurve): Stream {
    Stream(sender, recipient, TOKEN, deposit, 0, 0, end, 0, Schedule, true, true, true, None, 0, Active, curve, None)
  }

  // Alice streams 100 over 100 seconds to Bob in steps, Carol 1000 over 1000 to Dave.
  const STEPPED := Fresh(ALICE, BOB, 100, 100, Step)
  const STEADY := Fresh(CAROL, DAVE, 1000, 1000, Linear)
  // Bob draws the first tranche, Alice's keeper tops up by four, and Alice cancels.
  const DRAWN := STEPPED.(withdrawn := 25)
  const STRETCHED := DRAWN.(deposited := 104, endTime := 104)
  const OVERDRAWN := STRETCHED.(deposited := 0, endTime := 25, status := Cancelled)

  const RUN: seq<Call> := [
    Call(At(0, {ALICE}), CreateWithCurve(TermsOf(ALICE, BOB, 100, 100, Step))),
    Call(At(0, {CAROL}), CreateWithCurve(TermsOf(CAROL, DAVE, 1000, 1000, Linear))),
    Call(At(0, {ALICE}), GrantDelegate(0, ALICE, KEEPER, {TOP_UP}, None)),
    Call(At(25, {BOB}), Withdraw(0, None)),
    Call(At(25, {ALICE, KEEPER}), DelegateTopUp(0, KEEPER, 4)),
    Call(At(25, {ALICE}), Cancel(0))
  ]

  /** The streams, the pool and the balance, which agree, on a contract that was never halted. */
  ghost predicate Scene(st: State, streams: map<U64, Stream>, pool: I128) {
    && st.streams == streams && st.haltedAt == None
    && Pooled(st, TOKEN) == BalanceOf(st.bank, TOKEN) == pool
  }

  lemma StepAmounts()
    ensures Vested(STEPPED, 25) == Ok(25) && Vested(STRETCHED, 25) == Ok(0)
  {
    hide Vested;
    VestedFromFields(STEPPED, 25);
    VestedFromFields(STRETCHED, 25);
    assert Released(Step, 100, 25, 100) == 25 && Released(Step, 104, 25, 104) == 0;
  }

  lemma Accepted(sender: Address, recipient: Address, deposit: I128, end: U64, curve: ReleaseCurve)
    requires sender != recipient && 0 < end <= deposit <= 1000
    ensures NewStream(TermsOf(sender, recipient, deposit, end, curve))
            == Ok(Fresh(sender, recipient, deposit, end, curve))
  {
    MulMono(deposit, 1000, end);
  }

  lemma Pulled(st: State, env: Env, from: Address, amount: I128, pool: I128)
    requires Scene(st, st.streams, pool) && env.host == EXACT && 0 < amount <= 1000 && 0 <= pool <= 2000
    ensures var r := Ledger.PullDeposit(st, env, TOKEN, from, amount);
            && r.Ok? && Scene(r.value, st.streams, pool + amount)
            && r.value == st.(pooled := r.value.pooled, bank := r.value.bank, moves := r.value.moves)
  {
  }

  lemma Created(st: State, sender: Address, recipient: Address, deposit: I128, end: U64, curve: ReleaseCurve,
                pool: I128)
    requires Scene(st, st.streams, pool) && st.nextId < U64_MAX && st.nextId !in st.streams
    requires sender != recipient && 0 < end <= deposit <= 1000 && 0 <= pool <= 1000
    ensures var op := CreateWithCurve(TermsOf(sender, recipient, deposit, end, curve));
            var st' := Invoke(st, At(0, {sender}), op);
            && Scene(st', st.streams[st.nextId := Fresh(sender, recipient, deposit, end, curve)], pool + deposit)
            && st'.nextId == st.nextId + 1 && st'.grants == st.grants
  {
    hide NewStream, Ledger.PullDeposit;
    Accepted(sender, recipient, deposit, end, curve);
    Pulled(st, At(0, {sender}), sender, deposit, pool);
  }

  lemma Granted(st: State, pool: I128)
    requires Scene(st, map[0 := STEPPED, 1 := STEADY], pool)
    ensures var st' := Invoke(st, RUN[2].env, RUN[2].op);
            && Scene(st', map[0 := STEPPED, 1 := STEADY], pool)
            && (0, KEEPER) in st'.grants && st'.grants[(0, KEEPER)] == DelegateGrant({TOP_UP}, None)
  {
    GrantPasses(st);
    hide E.GrantDelegate;
  }

  lemma GrantPasses(st: State)
    requires st.haltedAt.None? && 0 in st.streams && st.streams[0] == STEPPED
    ensures var r := E.GrantDelegate(st, At(0, {ALICE}), 0, ALICE, KEEPER, {TOP_UP}, None);
            && r.Ok?
            && r.value.0 == st.(grants := st.grants[(0, KEEPER) := DelegateGrant({TOP_UP}, None)],
                                log := r.value.0.log)
  {
    assert TOP_UP in {TOP_UP} * SENDER_OPS;
    assert {TOP_UP} * RECIPIENT_OPS == {};
  }

  lemma FirstTranche(st: State)
    requires Scene(st, map[0 := STEPPED, 1 := STEADY], 1100)
    ensures var st' := Invoke(st, RUN[3].env, RUN[3].op);
            Scene(st', map[0 := DRAWN, 1 := STEADY], 1075) && st'.grants == st.grants
  {
    StepAmounts();
    hide Vested;
    assert Payout(STEPPED, 25, None) == Ok(25) && Drawn(STEPPED, 25, 25) == Ok(DRAWN);
  }

  lemma Stretched(st: State)
    requires Scene(st, map[0 := DRAWN, 1 := STEADY], 1075)
    requires (0, KEEPER) in st.grants && st.grants[(0, KEEPER)] == DelegateGrant({TOP_UP}, None)
    ensures Attempt(st, RUN[4].env, RUN[4].op).Ok?
    ensures Scene(Invoke(st, RUN[4].env, RUN[4].op), map[0 := STRETCHED, 1 := STEADY], 1079)
  {
    StretchedByFour();
    hide DelegateTopUpStream, Ledger.PullDeposit;
    Pulled(Save(st, 0, STRETCHED), At(25, {ALICE, KEEPER}), ALICE, 4, 1075);
  }

  lemma StretchedByFour()
    ensures DelegateTopUpStream(DRAWN, 4, 25) == Ok(STRETCHED)
  {
  }

  lemma Ended(st: State)
    requires Scene(st, map[0 := STRETCHED, 1 := STEADY], 1079)
    ensures Scene(Invoke(st, RUN[5].env, RUN[5].op), map[0 := OVERDRAWN, 1 := STEADY], 975)
  {
    StepAmounts();
    hide Vested;
    assert QuoteCancel(STRETCHED, 25) == Ok((0, 104)) && Collapsed(STRETCHED, 25, 0) == OVERDRAWN;
  }

  lemma FirstStream()
    ensures Scene(Exec(RUN[..1]), map[0 := STEPPED], 100) && Exec(RUN[..1]).nextId == 1
  {
    hide Invoke;
    assert RUN[..0] == [];
    ExecNext(RUN, 0);
    Created(EMPTY, ALICE, BOB, 100, 100, Step, 0);
  }

  lemma Opening()
    ensures Scene(Exec(RUN[..2]), map[0 := STEPPED, 1 := STEADY], 1100)
  {
    hide Invoke, Exec;
    FirstStream();
    ExecNext(RUN, 1);
    Created(Exec(RUN[..1]), CAROL, DAVE, 1000, 1000, Linear, 100);
    assert map[0 := STEPPED][1 := STEADY] == map[0 := STEPPED, 1 := STEADY];
  }

  lemma Ending()
    ensures Scene(Exec(RUN[..4]), map[0 := DRAWN, 1 := STEADY], 1075)
    ensures Attempt(Exec(RUN[..4]), RUN[4].env, RUN[4].op).Ok?
    ensures Scene(Exec(RUN[..5]), map[0 := STRETCHED, 1 := STEADY], 1079)
    ensures Scene(Exec(RUN), map[0 := OVERDRAWN, 1 := STEADY], 975)
  {
    hide Exec, Invoke, Attempt, Scene;
    Opening();
    ExecNext(RUN, 2);
    Granted(Exec(RUN[..2]), 1100);
    ExecNext(RUN, 3);
    FirstTranche(Exec(RUN[..3]));
    ExecNext(RUN, 4);
    Stretched(Exec(RUN[..4]));
    ExecNext(RUN, 5);
    Ended(Exec(RUN[..5]));
    assert RUN[..6] == RUN;
  }

  lemma RunIsHonest(n: nat)
    requires n <= |RUN|
    ensures Timely(RUN[..n]) && HonestRun(RUN[..n], TOKEN)
  {
    ExactIsHonest(TOKEN);
    hide Exec, Honest;
  }

  /** The liveness theorem is not about nothing: a run that meets every hypothesis of it, with 1000 to be paid. */
  lemma RecipientsArePaidSomewhere()
    ensures var calls, env := RUN[..2], At(1000, {DAVE});
            && Timely(calls) && Clock(calls) <= env.now && 1 in Exec(calls).streams
            && NoneEndedShort(calls, TOKEN) && HonestRun(calls, TOKEN) && Honest(env.host, TOKEN)
            && Exec(calls).streams[1].token == TOKEN
            && Exec(calls).haltedAt.None? && Exec(calls).streams[1].recipient in env.auths
            && Withdrawable(Exec(calls).streams[1], env.now) == Ok(1000)
            && E.Withdraw(Exec(calls), env, 1, None).Ok? && E.Withdraw(Exec(calls), env, 1, None).value.1 == 1000
  {
    hide Exec, Honest, HonestRun, E.Withdraw;
    Opening();
    RunIsHonest(2);
    ExactIsHonest(TOKEN);
    NoneShortNoneOverdrawn(RUN[..2], TOKEN);
    assert Withdrawable(STEADY, 1000) == Ok(1000);
    RecipientsAlwaysPaid(RUN[..2], At(1000, {DAVE}), 1);
  }

  /**
   * What an overdrawn and cancelled stream does to the others. Every token is exact throughout and
   * Dave's stream was never touched, yet after the run Alice's stream owes a negative
   * amount, the pool is short of Dave's by as much, and his withdrawal is refused.
   */
  lemma BystanderGoesUnpaid()
    ensures Timely(RUN) && HonestRun(RUN, TOKEN) && HarmSince(RUN, 0) == Harm({0}, {0})
    ensures 0 in Exec(RUN[..5]).streams && Exec(RUN[..5]).streams[0] == STRETCHED && !Covered(STRETCHED, 25)
    ensures var st := Exec(RUN);
            && 0 in st.streams && Debt(st.streams[0], TOKEN) == -25 && EndedShort(RUN, 0)
            && 1 in st.streams && Debt(st.streams[1], TOKEN) == 1000 && Pooled(st, TOKEN) == 975
            && Withdrawable(st.streams[1], 1000) == Ok(1000)
            && E.Withdraw(st, At(1000, {DAVE}), 1, None) == Err(TokenTransferFailed)
  {
    hide Exec, HonestRun, HarmSince, E.Withdraw, Released;
    Ending();
    RunIsHonest(6);
    assert RUN[..6] == RUN;
    HarmedOnce();
    StretchedIsUncovered();
    NegativeDebtIff(RUN, 0);
    ShortOfDave(Exec(RUN));
  }

  lemma StretchedIsShaped()
    ensures Shape(STRETCHED, 25)
  {
    hide Amount;
  }

  lemma StretchedIsUncovered()
    ensures !Covered(STRETCHED, 25)
  {
    hide Vested, Released, Shape;
    StepAmounts();
    StretchedIsShaped();
    VestedIsAmount(STRETCHED, 25);
  }

  lemma HarmedOnce()
    ensures HarmSince(RUN, 0) == Harm({0}, {0})
  {
    Ending();
    KeeperHarms(Exec(RUN[..4]));
    hide Exec, Attempt, HarmTo;
    assert RUN[..6] == RUN;
    HarmNext(RUN, 0);
    HarmNext(RUN, 1);
    HarmNext(RUN, 2);
    HarmNext(RUN, 3);
    HarmNext(RUN, 4);
    HarmNext(RUN, 5);
    hide HarmSince;
  }

  lemma KeeperHarms(st: State)
    requires Scene(st, map[0 := DRAWN, 1 := STEADY], 1075) && Attempt(st, RUN[4].env, RUN[4].op).Ok?
    ensures HarmBy(st, RUN[4].env, RUN[4].op) == Harm({0}, {0})
  {
    hide Attempt;
    assert Released(Step, 100, 25, 100) == 25 && Released(Step, 104, 25, 104) == 0;
  }

  lemma HarmNext(calls: seq<Call>, i: nat)
    requires i < |calls|
    ensures HarmSince(calls[..0], 0) == NO_HARM
    ensures HarmSince(calls[..i + 1], 0)
            == Joined(HarmSince(calls[..i], 0), HarmBy(Exec(calls[..i]), calls[i].env, calls[i].op))
  {
    assert calls[..i + 1][..i] == calls[..i];
  }

  lemma ShortOfDave(st: State)
    requires Scene(st, map[0 := OVERDRAWN, 1 := STEADY], 975)
    ensures Withdrawable(STEADY, 1000) == Ok(1000)
    ensures E.Withdraw(st, At(1000, {DAVE}), 1, None) == Err(TokenTransferFailed)
  {
    assert Payout(STEADY, 1000, None) == Ok(1000);
    hide Payout;
  }
}
