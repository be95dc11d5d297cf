// The contract-wide invariant, and the proof that every entry point advances
// a state that satisfies it to another one, continuing every stream's history.
module Invariant {
  import opened Prelude
  import opened Types
  import opened Accrual
  import opened StreamState
  import opened StreamOps
  import opened StreamLaws
  import opened Events
  import opened Ledger
  import opened EntryPoints

  /** Ids are exactly those below the counter, and both counters agree. */
  ghost predicate IdsContiguous(st: State) {
    && st.count == st.nextId
    && forall id: U64 :: id in st.streams <==> id < st.nextId
  }

  ghost predicate StreamsShaped(st: State, now: U64) {
    forall id :: id in st.streams ==> Shape(st.streams[id], now)
  }

  /** The pool counter is what the streams have outstanding, and what the tokens were asked to move. */
  ghost predicate PoolExact(st: State) {
    forall t :: Pooled(st, t) == Owed(st.streams, t, st.nextId) == Net(st.moves, t)
  }

  /** The log alone rebuilds the streams, the payouts and the grants. */
  ghost predicate LogComplete(st: State) {
    && Replay(st.log) == st.streams
    && ReplayGrants(st.log) == st.grants
    && ReplaySwitch(st.log) == Switch(st.operator, st.haltedAt)
    && Lawful(st.log)
    && (forall id :: PaidOut(st.log, id) == if id in st.streams then st.streams[id].withdrawn else 0)
  }

  /** Every account got and gave, token by token, exactly what the log says. */
  ghost predicate PaidAsLogged(st: State) {
    forall who, t :: Given(st.moves, who, t) == Stated(st.log, who, t)
  }

  ghost predicate Inv(st: State, now: U64) {
    IdsContiguous(st) && StreamsShaped(st, now) && PoolExact(st) && LogComplete(st) && PaidAsLogged(st)
  }

  ghost predicate StreamsFollow(st: State, t: U64, st': State, t': U64) {
    forall id :: id in st.streams ==> id in st'.streams && Follows(st.streams[id], t, st'.streams[id], t')
  }

  /** A stream that appears at instant `t'` starts with its clock on the wall clock. */
  ghost predicate NewClocks(st: State, t: U64, st': State, t': U64) {
    forall id :: id in st'.streams && id !in st.streams && t == t' && st'.streams[id].status != Cancelled ==>
      StreamTime(st'.streams[id], t') == t'
  }

  /** The streams that delegated top-ups left overdrawn, and those they took vested amounts back from. */
  datatype Harm = Harm(overdrawn: set<U64>, lowered: set<U64>)

  const NO_HARM := Harm({}, {})

  /** I1 for stream `id`: covered if it was or is new. */
  ghost predicate StaysCovered(st: State, t: U64, st': State, t': U64, id: U64)
    requires StreamsShaped(st, t) && StreamsShaped(st', t')
  {
    id in st'.streams && (id in st.streams ==> Covered(st.streams[id], t)) ==> Covered(st'.streams[id], t')
  }

  /** I3 for stream `id`: vested at least what it had. */
  ghost predicate NeverLowered(st: State, t: U64, st': State, t': U64, id: U64)
    requires StreamsShaped(st, t) && StreamsShaped(st', t')
  {
    id in st.streams && id in st'.streams ==> Amount(st.streams[id], t) <= Amount(st'.streams[id], t')
  }

  /** Both for every stream that is not harmed. */
  ghost predicate StreamsFair(st: State, t: U64, st': State, t': U64, harm: Harm)
    requires StreamsShaped(st, t) && StreamsShaped(st', t')
  {
    && (forall id: U64 :: id !in harm.overdrawn ==> StaysCovered(st, t, st', t', id))
    && (forall id: U64 :: id !in harm.lowered ==> NeverLowered(st, t, st', t', id))
  }

  /** `st'` at `t'` is a lawful later state of `st` at `t`, with I1 and I3 for all streams but those harmed. */
  ghost predicate Advance(st: State, t: U64, st': State, t': U64, harm: Harm)
    requires StreamsShaped(st, t)
  {
    && Inv(st', t')
    && StreamsFollow(st, t, st', t')
    && NewClocks(st, t, st', t')
    && StreamsFair(st, t, st', t', harm)
  }

  lemma AdvanceTransitive(st1: State, t1: U64, st2: State, t2: U64, st3: State, t3: U64, harm: Harm)
    requires Inv(st1, t1) && t1 <= t2 <= t3
    requires Advance(st1, t1, st2, t2, harm) && Advance(st2, t2, st3, t3, harm)
    ensures Advance(st1, t1, st3, t3, harm)
  {
    forall id | id in st1.streams
      ensures id in st3.streams && Follows(st1.streams[id], t1, st3.streams[id], t3)
    {
      FollowsTransitive(st1.streams[id], t1, st2.streams[id], t2, st3.streams[id], t3);
    }
  }

  lemma WaitAdvances(st: State, t: U64, t': U64)
    requires Inv(st, t) && t <= t'
    ensures Advance(st, t, st, t', NO_HARM)
  {
    forall id | id in st.streams
      ensures Shape(st.streams[id], t') && Follows(st.streams[id], t, st.streams[id], t')
      ensures Covered(st.streams[id], t) ==> Covered(st.streams[id], t')
      ensures Amount(st.streams[id], t) <= Amount(st.streams[id], t')
    {
      ShapePersists(st.streams[id], t, t');
      TimePasses(st.streams[id], t, t');
      AmountRisesInTime(st.streams[id], t, t');
    }
  }

  lemma LaterInvariant(st: State, t: U64, t': U64)
    requires Inv(st, t) && t <= t'
    ensures Inv(st, t')
  {
    WaitAdvances(st, t, t');
  }

  // ---- The three ways a state changes ---------------------------------

  /** Nothing an account or an indexer can see. */
  ghost predicate Idle(st: State, st': State) {
    && st'.streams == st.streams && st'.nextId == st.nextId && st'.count == st.count
    && st'.pooled == st.pooled && st'.moves == st.moves
  }

  lemma IdleAdvances(st: State, st': State, now: U64)
    requires Inv(st, now) && Idle(st, st') && LogComplete(st') && PaidAsLogged(st')
    ensures Advance(st, now, st', now, NO_HARM)
  {
    WaitAdvances(st, now, now);
    assert Inv(st', now);
  }

  /** One stream moves to `s'`, its event is logged, and the pool follows what it owes. */
  ghost predicate Amends(st: State, st': State, id: U64, s': Stream, e: Event) {
    && id in st.streams
    && st'.streams == st.streams[id := s']
    && st'.nextId == st.nextId && st'.count == st.count && st'.grants == st.grants
    && st'.operator == st.operator && st'.haltedAt == st.haltedAt
    && IsLifecycle(e) && e.id == id && st'.log == st.log + [e] && PaysAs(st, st', e)
    && var delta := (s'.deposited - s'.withdrawn) - (st.streams[id].deposited - st.streams[id].withdrawn);
       forall t ::
         && Pooled(st', t) == Pooled(st, t) + (if t == s'.token then delta else 0)
         && Net(st'.moves, t) == Net(st.moves, t) + (if t == s'.token then delta else 0)
  }

  /** The token calls between the two states move what the event says, between the accounts it says. */
  ghost predicate PaysAs(st: State, st': State, e: Event) {
    forall who, t :: Given(st'.moves, who, t) == Given(st.moves, who, t) + Transferred(e, st.streams, who, t)
  }

  lemma AmendKeepsPool(st: State, st': State, id: U64, s': Stream, e: Event)
    requires IdsContiguous(st) && PoolExact(st) && Amends(st, st', id, s', e)
    requires s'.token == st.streams[id].token
    ensures PoolExact(st')
  {
    forall t
      ensures Pooled(st', t) == Owed(st'.streams, t, st'.nextId) == Net(st'.moves, t)
    {
      OwedAfterSave(st.streams, id, s', t, st.nextId);
    }
  }

  lemma AmendKeepsLog(st: State, st': State, id: U64, s': Stream, e: Event)
    requires LogComplete(st) && Amends(st, st', id, s', e)
    requires Describes(e, st.streams[id]) && Amended(st.streams[id], e) == s'
    requires s'.withdrawn == st.streams[id].withdrawn + if e.Withdrawn? then e.amount else 0
    ensures LogComplete(st')
  {
    AppendOne(st.log, e);
  }

  lemma OneEventPaid(st: State, st': State, e: Event)
    requires PaidAsLogged(st) && LogComplete(st) && st'.log == st.log + [e] && PaysAs(st, st', e)
    ensures PaidAsLogged(st')
  {
    AppendOne(st.log, e);
    forall who, t
      ensures Given(st'.moves, who, t) == Stated(st'.log, who, t)
    {
      assert Given(st.moves, who, t) == Stated(st.log, who, t);
    }
  }

  /** I1 and I3 across one change of stream `id`, as far as the harm allows. */
  ghost predicate FairBut(s: Stream, s': Stream, now: U64, id: U64, harm: Harm)
    requires s.deposited >= 0 && s'.deposited >= 0
  {
    && (id !in harm.overdrawn ==> (Covered(s, now) ==> Covered(s', now)))
    && (id !in harm.lowered ==> Amount(s, now) <= Amount(s', now))
  }

  lemma AmendKeepsStreams(st: State, st': State, id: U64, s': Stream, e: Event, now: U64, harm: Harm)
    requires IdsContiguous(st) && StreamsShaped(st, now)
    requires Amends(st, st', id, s', e)
    requires Sound(st.streams[id], s', e, now)
    requires FairBut(st.streams[id], s', now, id, harm)
    ensures IdsContiguous(st') && StreamsShaped(st', now)
    ensures StreamsFollow(st, now, st', now) && NewClocks(st, now, st', now)
    ensures StreamsFair(st, now, st', now, harm)
  {
    hide PaysAs, Shape, Follows, Amount, Covered, StreamTime, Amended, Describes, Pooled, Net;
    forall k | k in st.streams
      ensures Follows(st.streams[k], now, st.streams[k], now)
    {
      TimePasses(st.streams[k], now, now);
    }
  }

  lemma AmendAdvances(st: State, st': State, id: U64, s': Stream, e: Event, now: U64, harm: Harm)
    requires Inv(st, now)
    requires Amends(st, st', id, s', e)
    requires Sound(st.streams[id], s', e, now)
    requires s'.withdrawn == st.streams[id].withdrawn + if e.Withdrawn? then e.amount else 0
    requires FairBut(st.streams[id], s', now, id, harm)
    ensures Advance(st, now, st', now, harm)
  {
    hide PoolExact, LogComplete, PaidAsLogged, PaysAs, StreamsShaped, StreamsFollow, NewClocks, StreamsFair;
    AmendKeepsStreams(st, st', id, s', e, now, harm);
    AmendKeepsPool(st, st', id, s', e);
    AmendKeepsLog(st, st', id, s', e);
    OneEventPaid(st, st', e);
  }

  /** A stream appears under the next id, and the pool grows by its deposit. */
  ghost predicate Creates(st: State, st': State, s: Stream) {
    && st.nextId < U64_MAX
    && st'.streams == st.streams[st.nextId := s]
    && st'.nextId == st'.count == st.nextId + 1 && st'.grants == st.grants
    && st'.operator == st.operator && st'.haltedAt == st.haltedAt
    && st'.log == st.log + [CreatedEvent(st.nextId, s)] && PaysAs(st, st', CreatedEvent(st.nextId, s))
    && s.withdrawn == 0
    && forall t ::
         && Pooled(st', t) == Pooled(st, t) + (if t == s.token then s.deposited else 0)
         && Net(st'.moves, t) == Net(st.moves, t) + (if t == s.token then s.deposited else 0)
  }

  lemma {:induction false} OwedBeyond(streams: map<U64, Stream>, id: U64, s: Stream, t: Address, n: nat)
    requires n <= id
    ensures Owed(streams[id := s], t, n) == Owed(streams, t, n)
  {
    OwedAfterSave(streams, id, s, t, n);
  }

  lemma CreateKeepsPool(st: State, st': State, s: Stream)
    requires PoolExact(st) && Creates(st, st', s)
    ensures PoolExact(st')
  {
    forall t
      ensures Pooled(st', t) == Owed(st'.streams, t, st'.nextId) == Net(st'.moves, t)
    {
      OwedBeyond(st.streams, st.nextId, s, t, st.nextId);
    }
  }

  lemma CreateKeepsLog(st: State, st': State, s: Stream)
    requires LogComplete(st) && Creates(st, st', s) && st.nextId !in st.streams
    requires Announced(CreatedEvent(st.nextId, s)) == s
    ensures LogComplete(st')
  {
    AppendOne(st.log, CreatedEvent(st.nextId, s));
  }

  lemma CreateAdvances(st: State, st': State, s: Stream, now: U64)
    requires Inv(st, now) && Creates(st, st', s)
    requires Shape(s, now) && Covered(s, now) && StreamTime(s, now) == now
    requires Announced(CreatedEvent(st.nextId, s)) == s
    ensures Advance(st, now, st', now, NO_HARM)
  {
    hide PoolExact, LogComplete, PaidAsLogged, PaysAs;
    WaitAdvances(st, now, now);
    CreateKeepsPool(st, st', s);
    CreateKeepsLog(st, st', s);
    OneEventPaid(st, st', CreatedEvent(st.nextId, s));
  }

  // ---- Token primitives ------------------------------------------------

  lemma PullMoves(st: State, env: Env, token: Address, from: Address, amount: I128)
    requires PullDeposit(st, env, token, from, amount).Ok?
    ensures var st' := PullDeposit(st, env, token, from, amount).value;
            && st' == st.(pooled := st'.pooled, bank := st'.bank, moves := st'.moves)
            && forall t ::
                 && Pooled(st', t) == Pooled(st, t) + (if t == token then amount else 0)
                 && Net(st'.moves, t) == Net(st.moves, t) + (if t == token then amount else 0)
  {
    forall t {
      NetAfter(st.moves, Pull(token, from, amount), t);
    }
  }

  lemma PullGives(st: State, env: Env, token: Address, from: Address, amount: I128)
    requires PullDeposit(st, env, token, from, amount).Ok?
    ensures var st' := PullDeposit(st, env, token, from, amount).value;
            forall who, t ::
              Given(st'.moves, who, t) == Given(st.moves, who, t) - (if who == from && t == token then amount else 0)
  {
    forall who, t {
      GivenAfter(st.moves, Pull(token, from, amount), who, t);
    }
  }

  lemma PayMoves(st: State, token: Address, to: Address, amount: I128)
    ensures forall t :: Net(st.moves + [Pay(token, to, amount)], t)
                        == Net(st.moves, t) - (if t == token then amount else 0)
  {
    forall t
      ensures Net(st.moves + [Pay(token, to, amount)], t) == Net(st.moves, t) - (if t == token then amount else 0)
    {
      NetAfter(st.moves, Pay(token, to, amount), t);
    }
  }

  lemma PayGives(st: State, token: Address, to: Address, amount: I128)
    ensures forall who, t :: Given(st.moves + [Pay(token, to, amount)], who, t)
                             == Given(st.moves, who, t) + (if who == to && t == token then amount else 0)
  {
    forall who, t {
      GivenAfter(st.moves, Pay(token, to, amount), who, t);
    }
  }

  // ---- Entry points ----------------------------------------------------

  lemma CreateInnerAdvances(st: State, env: Env, t: Terms)
    requires Inv(st, env.now) && CreateInner(st, env, t).Ok?
    ensures Advance(st, env.now, CreateInner(st, env, t).value.0, env.now, NO_HARM)
  {
    hide StreamsFollow, NewClocks, StreamsFair, LogComplete, PoolExact, PaidAsLogged, Shape, Covered;
    var s := NewStream(t).value;
    CreationGuards(t, st.nextId, env.now);
    PullMoves(st, env, t.token, t.sender, t.deposit);
    PullGives(st, env, t.token, t.sender, t.deposit);
    CreateAdvances(st, CreateInner(st, env, t).value.0, s, env.now);
  }

  lemma {:induction false} CreateAllAdvances(st: State, env: Env, sender: Address,
                                             requests: seq<BatchCreateRequest>, n: nat)
    requires n <= |requests|
    requires Inv(st, env.now) && CreateAll(st, env, sender, requests, n).Ok?
    ensures Advance(st, env.now, CreateAll(st, env, sender, requests, n).value.0, env.now, NO_HARM)
  {
    hide StreamsFollow, NewClocks, StreamsFair, LogComplete, PoolExact, PaidAsLogged, CreateInner;
    if n == 0 {
      WaitAdvances(st, env.now, env.now);
    } else {
      CreateAllAdvances(st, env, sender, requests, n - 1);
      var st1 := CreateAll(st, env, sender, requests, n - 1).value.0;
      CreateInnerAdvances(st1, env, RequestTerms(sender, requests[n - 1]));
      AdvanceTransitive(st, env.now, st1, env.now, CreateAll(st, env, sender, requests, n).value.0, env.now, NO_HARM);
    }
  }

  /** Pulling a top-up from the stream's sender is what its event says. */
  lemma TopUpIsPaid(st: State, st0: State, st': State, env: Env, s: Stream, e: Event)
    requires e.ToppedUp? && e.id in st.streams && s == st.streams[e.id] && e.sender == s.sender
    requires st0.moves == st.moves && PullDeposit(st0, env, s.token, s.sender, e.amount).Ok?
    requires st'.moves == PullDeposit(st0, env, s.token, s.sender, e.amount).value.moves
    ensures PaysAs(st, st', e)
  {
    PullGives(st0, env, s.token, s.sender, e.amount);
  }

  /** The same stream but for `amount` more and another end. */
  predicate OnlyExtends(s: Stream, s': Stream, amount: I128) {
    s' == s.(deposited := s'.deposited, endTime := s'.endTime) && s'.deposited == s.deposited + amount
  }

  lemma TopUpOnlyExtends(s: Stream, amount: I128, now: U64)
    ensures TopUpStream(s, amount, now).Ok? ==> OnlyExtends(s, TopUpStream(s, amount, now).value, amount)
    ensures DelegateTopUpStream(s, amount, now).Ok? ==>
              OnlyExtends(s, DelegateTopUpStream(s, amount, now).value, amount)
  {
    hide Vested, LinearDelta, StreamTime;
  }

  lemma TopUpPays(st: State, env: Env, id: U64, amount: I128)
    requires TopUp(st, env, id, amount).Ok?
    ensures id in st.streams && TopUpStream(st.streams[id], amount, env.now).Ok?
    ensures var s' := TopUpStream(st.streams[id], amount, env.now).value;
            PaysAs(st, TopUp(st, env, id, amount).value.0, ToppedUpEvent(id, s', amount))
  {
    hide TopUpStream, PaysAs;
    var s := st.streams[id];
    TopUpOnlyExtends(s, amount, env.now);
    var s' := TopUpStream(s, amount, env.now).value;
    TopUpIsPaid(st, st, TopUp(st, env, id, amount).value.0, env, s, ToppedUpEvent(id, s', amount));
  }

  lemma TopUpAmends(st: State, env: Env, id: U64, amount: I128)
    requires TopUp(st, env, id, amount).Ok?
    ensures id in st.streams && TopUpStream(st.streams[id], amount, env.now).Ok?
    ensures var s' := TopUpStream(st.streams[id], amount, env.now).value;
            Amends(st, TopUp(st, env, id, amount).value.0, id, s', ToppedUpEvent(id, s', amount))
  {
    hide PaysAs, TopUpStream;
    TopUpPays(st, env, id, amount);
    var s := st.streams[id];
    TopUpOnlyExtends(s, amount, env.now);
    PullMoves(st, env, s.token, s.sender, amount);
  }

  lemma TopUpAdvances(st: State, env: Env, id: U64, amount: I128)
    requires Inv(st, env.now) && TopUp(st, env, id, amount).Ok?
    ensures Advance(st, env.now, TopUp(st, env, id, amount).value.0, env.now, NO_HARM)
  {
    TopUpAmends(st, env, id, amount);
    TopUpSound(st.streams[id], amount, env.now, id);
    var s' := TopUpStream(st.streams[id], amount, env.now).value;
    AmendAdvances(st, TopUp(st, env, id, amount).value.0, id, s', ToppedUpEvent(id, s', amount), env.now, NO_HARM);
  }

  lemma DelegateTopUpPays(st: State, env: Env, id: U64, delegate: Address, amount: I128)
    requires DelegateTopUp(st, env, id, delegate, amount).Ok?
    ensures id in st.streams && DelegateTopUpStream(st.streams[id], amount, env.now).Ok?
    ensures var s' := DelegateTopUpStream(st.streams[id], amount, env.now).value;
            PaysAs(st, DelegateTopUp(st, env, id, delegate, amount).value.0, ToppedUpEvent(id, s', amount))
  {
    hide DelegateTopUpStream, PaysAs;
    var s := st.streams[id];
    TopUpOnlyExtends(s, amount, env.now);
    var s' := DelegateTopUpStream(s, amount, env.now).value;
    TopUpIsPaid(st, Save(st, id, s'), DelegateTopUp(st, env, id, delegate, amount).value.0, env, s,
                ToppedUpEvent(id, s', amount));
  }

  lemma DelegateTopUpAmends(st: State, env: Env, id: U64, delegate: Address, amount: I128)
    requires DelegateTopUp(st, env, id, delegate, amount).Ok?
    ensures id in st.streams && DelegateTopUpStream(st.streams[id], amount, env.now).Ok?
    ensures var s' := DelegateTopUpStream(st.streams[id], amount, env.now).value;
            Amends(st, DelegateTopUp(st, env, id, delegate, amount).value.0, id, s', ToppedUpEvent(id, s', amount))
  {
    hide PaysAs, DelegateTopUpStream;
    DelegateTopUpPays(st, env, id, delegate, amount);
    var s := st.streams[id];
    TopUpOnlyExtends(s, amount, env.now);
    PullMoves(Save(st, id, DelegateTopUpStream(s, amount, env.now).value), env, s.token, s.sender, amount);
  }

  /** What a delegated top-up of `s`, stored under `id`, does to it. */
  function HarmTo(s: Stream, id: U64, amount: I128, now: U64): Harm {
    Harm(if Overdraws(s, amount, now) then {id} else {},
         if Lowers(s, amount, now) then {id} else {})
  }

  lemma DelegateTopUpAdvances(st: State, env: Env, id: U64, delegate: Address, amount: I128)
    requires Inv(st, env.now) && DelegateTopUp(st, env, id, delegate, amount).Ok?
    ensures id in st.streams
    ensures Advance(st, env.now, DelegateTopUp(st, env, id, delegate, amount).value.0, env.now,
                    HarmTo(st.streams[id], id, amount, env.now))
  {
    DelegateTopUpAmends(st, env, id, delegate, amount);
    DelegateTopUpSound(st.streams[id], amount, env.now, id);
    DelegatedTopUpHarmsIff(st.streams[id], amount, env.now);
    var s' := DelegateTopUpStream(st.streams[id], amount, env.now).value;
    AmendAdvances(st, DelegateTopUp(st, env, id, delegate, amount).value.0, id, s', ToppedUpEvent(id, s', amount),
                  env.now, HarmTo(st.streams[id], id, amount, env.now));
  }

  lemma WithdrawalIsPaid(st: State, st': State, e: Event)
    requires e.Withdrawn? && e.id in st.streams
    requires st'.moves == st.moves + [Pay(st.streams[e.id].token, e.recipient, e.amount)]
    ensures PaysAs(st, st', e)
  {
    PayGives(st, st.streams[e.id].token, e.recipient, e.amount);
  }

  lemma DrawnKeepsRecipient(s: Stream, payout: I128, now: U64)
    ensures Drawn(s, payout, now).Ok? ==> Drawn(s, payout, now).value.recipient == s.recipient
  {
  }

  lemma ApplyWithdrawalPays(st: State, env: Env, id: U64, s: Stream, payout: I128)
    requires id in st.streams && s == st.streams[id]
    requires ApplyWithdrawal(st, env, id, s, payout).Ok?
    ensures Drawn(s, payout, env.now).Ok?
    ensures var s' := Drawn(s, payout, env.now).value;
            PaysAs(st, ApplyWithdrawal(st, env, id, s, payout).value, WithdrawnEvent(id, s', payout))
  {
    hide Drawn, PaysAs;
    DrawnKeepsRecipient(s, payout, env.now);
    var s' := Drawn(s, payout, env.now).value;
    WithdrawalIsPaid(st, ApplyWithdrawal(st, env, id, s, payout).value, WithdrawnEvent(id, s', payout));
  }

  lemma ApplyWithdrawalAmends(st: State, env: Env, id: U64, s: Stream, payout: I128)
    requires id in st.streams && s == st.streams[id]
    requires ApplyWithdrawal(st, env, id, s, payout).Ok?
    ensures Drawn(s, payout, env.now).Ok?
    ensures var s' := Drawn(s, payout, env.now).value;
            Amends(st, ApplyWithdrawal(st, env, id, s, payout).value, id, s', WithdrawnEvent(id, s', payout))
  {
    hide Replay, PaysAs;
    ApplyWithdrawalPays(st, env, id, s, payout);
    PayMoves(st, s.token, s.recipient, payout);
  }

  lemma ApplyWithdrawalAdvances(st: State, env: Env, id: U64, s: Stream, payout: I128)
    requires Inv(st, env.now) && id in st.streams && s == st.streams[id]
    requires 0 < payout <= Amount(s, env.now) - s.withdrawn
    requires ApplyWithdrawal(st, env, id, s, payout).Ok?
    ensures Advance(st, env.now, ApplyWithdrawal(st, env, id, s, payout).value, env.now, NO_HARM)
  {
    ApplyWithdrawalAmends(st, env, id, s, payout);
    DrawSound(s, payout, env.now, id);
    var s' := Drawn(s, payout, env.now).value;
    AmendAdvances(st, ApplyWithdrawal(st, env, id, s, payout).value, id, s', WithdrawnEvent(id, s', payout),
                  env.now, NO_HARM);
  }

  lemma WithdrawAdvances(st: State, env: Env, id: U64, s: Stream, amount: Option<I128>, payout: I128)
    requires Inv(st, env.now) && id in st.streams && s == st.streams[id]
    requires Payout(s, env.now, amount) == Ok(payout) && ApplyWithdrawal(st, env, id, s, payout).Ok?
    ensures Advance(st, env.now, ApplyWithdrawal(st, env, id, s, payout).value, env.now, NO_HARM)
  {
    PayoutInRange(s, env.now, amount);
    ApplyWithdrawalAdvances(st, env, id, s, payout);
  }

  lemma DrainOneAdvances(st: State, env: Env, id: U64)
    requires Inv(st, env.now) && DrainOne(st, env, id).Ok?
    ensures Advance(st, env.now, DrainOne(st, env, id).value, env.now, NO_HARM)
  {
    ReadingsNeverFail(st.streams[id], env.now);
    var available := Withdrawable(st.streams[id], env.now).value;
    if available == 0 {
      WaitAdvances(st, env.now, env.now);
    } else {
      ApplyWithdrawalAdvances(st, env, id, st.streams[id], available);
    }
  }

  lemma {:induction false} DrainInOrderAdvances(st: State, env: Env, ids: seq<U64>, n: nat)
    requires n <= |ids|
    requires Inv(st, env.now) && DrainInOrder(st, env, ids, n).Ok?
    ensures Advance(st, env.now, DrainInOrder(st, env, ids, n).value, env.now, NO_HARM)
  {
    if n == 0 {
      WaitAdvances(st, env.now, env.now);
    } else {
      DrainInOrderAdvances(st, env, ids, n - 1);
      var st1 := DrainInOrder(st, env, ids, n - 1).value;
      DrainOneAdvances(st1, env, ids[n - 1]);
      AdvanceTransitive(st, env.now, st1, env.now, DrainInOrder(st, env, ids, n).value, env.now, NO_HARM);
    }
  }

  lemma CancelIsPaid(st: State, st': State, e: Event)
    requires e.StreamCancelled? && e.id in st.streams && e.refunded >= 0
    requires st'.moves == if e.refunded > 0 then st.moves + [Pay(st.streams[e.id].token, e.sender, e.refunded)]
                          else st.moves
    ensures PaysAs(st, st', e)
  {
    PayGives(st, st.streams[e.id].token, e.sender, e.refunded);
  }

  lemma SettlePays(st: State, env: Env, id: U64, s: Stream, vested: I128, refund: I128)
    requires id in st.streams && s == st.streams[id] && refund >= 0
    requires SettleCancel(st, env, id, s, vested, refund).Ok?
    ensures var s' := Collapsed(s, env.now, vested);
            PaysAs(st, SettleCancel(st, env, id, s, vested, refund).value, CancelledEvent(id, s', refund))
  {
    hide PaysAs;
    var e := CancelledEvent(id, Collapsed(s, env.now, vested), refund);
    CancelIsPaid(st, SettleCancel(st, env, id, s, vested, refund).value, e);
  }

  lemma SettleAmends(st: State, env: Env, id: U64, s: Stream, vested: I128, refund: I128)
    requires id in st.streams && s == st.streams[id]
    requires refund == s.deposited - vested >= 0
    requires SettleCancel(st, env, id, s, vested, refund).Ok?
    ensures var s' := Collapsed(s, env.now, vested);
            Amends(st, SettleCancel(st, env, id, s, vested, refund).value, id, s', CancelledEvent(id, s', refund))
  {
    hide PaysAs;
    SettlePays(st, env, id, s, vested, refund);
    PayMoves(st, s.token, s.sender, refund);
  }

  lemma CancelOneAdvances(st: State, env: Env, id: U64)
    requires Inv(st, env.now) && CancelOne(st, env, id).Ok?
    ensures Advance(st, env.now, CancelOne(st, env, id).value.0, env.now, NO_HARM)
  {
    var s := st.streams[id];
    CancelQuote(s, env.now);
    CancelSound(s, env.now, id);
    var (vested, refund) := QuoteCancel(s, env.now).value;
    SettleAmends(st, env, id, s, vested, refund);
    var s' := Collapsed(s, env.now, vested);
    AmendAdvances(st, CancelOne(st, env, id).value.0, id, s', CancelledEvent(id, s', refund), env.now, NO_HARM);
  }

  lemma {:induction false} CancelInOrderAdvances(st: State, env: Env, ids: seq<U64>, n: nat)
    requires n <= |ids|
    requires Inv(st, env.now) && CancelInOrder(st, env, ids, n).Ok?
    ensures Advance(st, env.now, CancelInOrder(st, env, ids, n).value.0, env.now, NO_HARM)
  {
    hide StreamsFollow, NewClocks, StreamsFair, LogComplete, PoolExact, PaidAsLogged, CancelOne;
    if n == 0 {
      WaitAdvances(st, env.now, env.now);
    } else {
      CancelInOrderAdvances(st, env, ids, n - 1);
      var st1 := CancelInOrder(st, env, ids, n - 1).value.0;
      CancelOneAdvances(st1, env, ids[n - 1]);
      AdvanceTransitive(st, env.now, st1, env.now, CancelInOrder(st, env, ids, n).value.0, env.now, NO_HARM);
    }
  }

  /** `reclaim_dust` debits no pool, and need not: it never has anything to hand back. */
  lemma ReclaimDustDoesNothing(st: State, env: Env, id: U64)
    requires Inv(st, env.now) && ReclaimDust(st, env, id).Ok?
    ensures ReclaimDust(st, env, id).value.0 == st
    ensures id in st.streams
    ensures ReclaimDust(st, env, id).value.1 == Min(0, st.streams[id].deposited - st.streams[id].withdrawn)
  {
    var s := st.streams[id];
    if s.status.IsTerminal() {
      NoDust(s, env.now);
    }
  }

  /** The record saved by pause, resume or transfer, with its event. */
  lemma SavedAdvances(st: State, id: U64, s': Stream, e: Event, now: U64)
    requires Inv(st, now) && id in st.streams
    requires (e.StreamPaused? || e.StreamResumed? || e.RecipientTransferred?) && e.id == id
    requires Sound(st.streams[id], s', e, now) && Fair(st.streams[id], s', now)
    requires s'.deposited == st.streams[id].deposited && s'.withdrawn == st.streams[id].withdrawn
    ensures Advance(st, now, Emit(Save(st, id, s'), e), now, NO_HARM)
  {
    AmendAdvances(st, Emit(Save(st, id, s'), e), id, s', e, now, NO_HARM);
  }

  lemma PauseAdvances(st: State, id: U64, s: Stream, now: U64)
    requires Inv(st, now) && id in st.streams && s == st.streams[id] && DelegatePauseStream(s, now).Ok?
    ensures PauseStream(s, now) == DelegatePauseStream(s, now)
    ensures var s' := DelegatePauseStream(s, now).value;
            Advance(st, now, Emit(Save(st, id, s'), PausedEvent(id, s', now)), now, NO_HARM)
  {
    PauseSound(s, now, id);
    var s' := DelegatePauseStream(s, now).value;
    SavedAdvances(st, id, s', PausedEvent(id, s', now), now);
  }

  lemma ResumeAdvances(st: State, id: U64, s: Stream, now: U64)
    requires Inv(st, now) && id in st.streams && s == st.streams[id] && DelegateResumeStream(s, now).Ok?
    ensures ResumeStream(s, now) == DelegateResumeStream(s, now)
    ensures var s' := DelegateResumeStream(s, now).value;
            Advance(st, now, Emit(Save(st, id, s'), ResumedEvent(id, s', PausedFor(s, now))), now, NO_HARM)
  {
    ResumeSound(s, now, id);
    var s' := DelegateResumeStream(s, now).value;
    SavedAdvances(st, id, s', ResumedEvent(id, s', PausedFor(s, now)), now);
  }

  lemma TransferAdvances(st: State, id: U64, s: Stream, to: Address, now: U64)
    requires Inv(st, now) && id in st.streams && s == st.streams[id] && DelegateTransferStream(s, to).Ok?
    ensures TransferStream(s, to, now) == DelegateTransferStream(s, to)
    ensures var s' := DelegateTransferStream(s, to).value;
            Advance(st, now, Emit(Save(st, id, s'), RecipientTransferred(id, s.recipient, to, s.sender)), now, NO_HARM)
  {
    TransferSound(s, to, now, id);
    SavedAdvances(st, id, DelegateTransferStream(s, to).value, RecipientTransferred(id, s.recipient, to, s.sender),
                  now);
  }

  lemma GrantAdvances(st: State, env: Env, id: U64, grantor: Address, delegate: Address, ops: Mask, at: Option<U64>)
    requires Inv(st, env.now) && GrantDelegate(st, env, id, grantor, delegate, ops, at).Ok?
    ensures Advance(st, env.now, GrantDelegate(st, env, id, grantor, delegate, ops, at).value.0, env.now, NO_HARM)
  {
    var st' := GrantDelegate(st, env, id, grantor, delegate, ops, at).value.0;
    if ops * SENDER_OPS == {} && ops * RECIPIENT_OPS == {} {
      WaitAdvances(st, env.now, env.now);
    } else {
      var e := DelegateGranted(id, grantor, delegate, ops, at);
      AppendOne(st.log, e);
      SideEventAdvances(st, st', e, env.now);
    }
  }

  lemma RevokeAdvances(st: State, env: Env, id: U64, grantor: Address, delegate: Address)
    requires Inv(st, env.now) && RevokeDelegate(st, env, id, grantor, delegate).Ok?
    ensures Advance(st, env.now, RevokeDelegate(st, env, id, grantor, delegate).value.0, env.now, NO_HARM)
  {
    var e := DelegateRevoked(id, grantor, delegate);
    AppendOne(st.log, e);
    SideEventAdvances(st, RevokeDelegate(st, env, id, grantor, delegate).value.0, e, env.now);
  }

  /** Grants, revocations, halts and TTL sweeps touch no stream and no pool. */
  lemma SideEventAdvances(st: State, st': State, e: Event, now: U64)
    requires Inv(st, now) && Idle(st, st') && st'.log == st.log + [e]
    requires !e.StreamCreated? && !IsLifecycle(e)
    requires st'.grants == ReplayGrants(st'.log) && (e.DelegateGranted? ==> IssuedByParty(st.streams, e))
    requires ReplaySwitch(st'.log) == Switch(st'.operator, st'.haltedAt) && InTurn(e, Switch(st.operator, st.haltedAt))
    ensures Advance(st, now, st', now, NO_HARM)
  {
    AppendOne(st.log, e);
    IdleAdvances(st, st', now);
  }
}
