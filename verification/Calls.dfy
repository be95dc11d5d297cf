// Every entry point on an existing stream: exactly when a call succeeds, with any
// tokens whatever, the whole state it leaves, and the error it gives otherwise.
module Calls {
  import opened Prelude
  import opened Types
  import opened Accrual
  import opened StreamState
  import opened StreamOps
  import opened Events
  import opened Ledger
  import opened Invariant
  import opened Batches
  import Authority
  import opened Outcomes
  import opened Tokens
  import opened Grants
  import E = EntryPoints
  import Rent

  // ---- The gates -------------------------------------------------------

  datatype Role = Sender | Recipient

  function Holder(s: Stream, role: Role): Address {
    if role == Sender then s.sender else s.recipient
  }

  /** Not halted, the stream exists, and the party signed. */
  predicate Enters(st: State, env: Env, id: U64, role: Role) {
    st.haltedAt.None? && id in st.streams && Holder(st.streams[id], role) in env.auths
  }

  /** Not halted, the delegate passes for the operation, and the stream exists. */
  predicate EntersFor(st: State, env: Env, id: U64, delegate: Address, bit: nat) {
    st.haltedAt.None? && Passes(st, env, id, delegate, bit) && id in st.streams
  }

  /** The errors at the gate of a party's own call, in order. */
  predicate Gate<T(!new)>(st: State, env: Env, id: U64, role: Role, r: Result<T>) {
    && (st.haltedAt.Some? ==> r == Err(ContractHalted))
    && (st.haltedAt.None? && id !in st.streams ==> r == Err(StreamNotFound))
    && (st.haltedAt.None? && id in st.streams && Holder(st.streams[id], role) !in env.auths ==> r == Err(AuthRefused))
  }

  /** And at that of a delegate's. */
  predicate GateFor<T(!new)>(st: State, env: Env, id: U64, delegate: Address, bit: nat, r: Result<T>) {
    && (st.haltedAt.Some? ==> r == Err(ContractHalted))
    && (st.haltedAt.None? && !Passes(st, env, id, delegate, bit) ==>
          r.Err? && E.CheckDelegate(st, env, id, delegate, bit) == Fail(r.error))
    && (st.haltedAt.None? && Passes(st, env, id, delegate, bit) && id !in st.streams ==> r == Err(StreamNotFound))
  }

  /** One record rewritten, one event published, nothing else. */
  predicate Rewrites(st: State, st': State, id: U64, s': Stream, e: Event) {
    st' == st.(streams := st.streams[id := s'], log := st.log + [e])
  }

  // ---- Pause, resume, transfer ----------------------------------------

  predicate PausedIn(st: State, now: U64, id: U64, st': State)
    requires id in st.streams
  {
    var s := st.streams[id];
    Rewrites(st, st', id, s.(pausedAt := Some(now), status := Paused),
             StreamPaused(id, s.sender, now, s.pausedTotal, s.recipient))
  }

  /** The sender, or a delegate for bit 2, pauses an active stream created pausable; nobody else, and no other. */
  lemma PauseIff(st: State, env: Env, id: U64, delegate: Address)
    requires Inv(st, env.now)
    ensures var r := E.Pause(st, env, id);
            && (r.Ok? <==> Enters(st, env, id, Sender) && st.streams[id].pausable && st.streams[id].status == Active)
            && (r.Ok? ==> PausedIn(st, env.now, id, r.value.0))
            && Gate(st, env, id, Sender, r)
            && (Enters(st, env, id, Sender) && r.Err? ==> PauseStream(st.streams[id], env.now) == Err(r.error))
    ensures var r := E.DelegatePause(st, env, id, delegate);
            && (r.Ok? <==> && EntersFor(st, env, id, delegate, 2)
                           && st.streams[id].pausable && st.streams[id].status == Active)
            && (r.Ok? ==> PausedIn(st, env.now, id, r.value.0))
            && GateFor(st, env, id, delegate, 2, r)
            && (EntersFor(st, env, id, delegate, 2) && r.Err? ==> PauseStream(st.streams[id], env.now) == Err(r.error))
  {
    hide PauseStream, DelegatePauseStream, E.CheckDelegate, Passes, IdsContiguous, PoolExact, LogComplete, PaidAsLogged,
      Shape;
    CheckOutcome(st, env, id, delegate, PAUSE);
    if id in st.streams {
      PauseOutcome(st.streams[id], env.now);
    }
  }

  predicate ResumedIn(st: State, now: U64, id: U64, st': State)
    requires id in st.streams && st.streams[id].pausedAt.Some?
  {
    var s := st.streams[id];
    var length := now - s.pausedAt.value;
    && 0 <= length && s.pausedTotal + length <= U64_MAX
    && Rewrites(st, st', id, s.(pausedTotal := s.pausedTotal + length, pausedAt := None, status := Active),
                StreamResumed(id, s.sender, length, s.pausedTotal + length, s.recipient))
  }

  lemma ResumeIff(st: State, env: Env, id: U64, delegate: Address)
    requires Inv(st, env.now)
    ensures var r := E.Resume(st, env, id);
            && (r.Ok? <==> Enters(st, env, id, Sender) && st.streams[id].status == Paused)
            && (r.Ok? ==> st.streams[id].pausedAt.Some? && ResumedIn(st, env.now, id, r.value.0))
            && Gate(st, env, id, Sender, r)
            && (Enters(st, env, id, Sender) && r.Err? ==> ResumeStream(st.streams[id], env.now) == Err(r.error))
    ensures var r := E.DelegateResume(st, env, id, delegate);
            && (r.Ok? <==> EntersFor(st, env, id, delegate, 3) && st.streams[id].status == Paused)
            && (r.Ok? ==> st.streams[id].pausedAt.Some? && ResumedIn(st, env.now, id, r.value.0))
            && GateFor(st, env, id, delegate, 3, r)
            && (EntersFor(st, env, id, delegate, 3) && r.Err? ==> ResumeStream(st.streams[id], env.now) == Err(r.error))
  {
    hide ResumeStream, DelegateResumeStream, E.CheckDelegate, Passes, IdsContiguous, PoolExact, LogComplete,
      PaidAsLogged, Amount;
    CheckOutcome(st, env, id, delegate, RESUME);
    if id in st.streams {
      ResumeOutcome(st.streams[id], env.now);
    }
  }

  predicate TransferredIn(st: State, id: U64, to: Address, st': State)
    requires id in st.streams
  {
    var s := st.streams[id];
    Rewrites(st, st', id, s.(recipient := to), RecipientTransferred(id, s.recipient, to, s.sender))
  }

  predicate Transferable(s: Stream, to: Address) {
    s.transferable && s.withdrawn < s.deposited && to != s.sender && to != s.recipient
  }

  /** The direct form is the sender's to call; the delegated one needs bit 5, which is the recipient's to give. */
  lemma TransferIff(st: State, env: Env, id: U64, delegate: Address, to: Address)
    requires Inv(st, env.now)
    ensures var r := E.TransferRecipient(st, env, id, to);
            && (r.Ok? <==> Enters(st, env, id, Sender) && Transferable(st.streams[id], to))
            && (r.Ok? ==> TransferredIn(st, id, to, r.value.0))
            && Gate(st, env, id, Sender, r)
            && (Enters(st, env, id, Sender) && r.Err? ==> TransferStream(st.streams[id], to, env.now) == Err(r.error))
    ensures var r := E.DelegateTransferRecipient(st, env, id, delegate, to);
            && (r.Ok? <==> EntersFor(st, env, id, delegate, 5) && Transferable(st.streams[id], to))
            && (r.Ok? ==> TransferredIn(st, id, to, r.value.0))
            && GateFor(st, env, id, delegate, 5, r)
            && (EntersFor(st, env, id, delegate, 5) && r.Err? ==>
                  TransferStream(st.streams[id], to, env.now) == Err(r.error))
  {
    hide TransferStream, DelegateTransferStream, E.CheckDelegate, Passes, IdsContiguous, PoolExact, LogComplete,
      PaidAsLogged, Shape;
    CheckOutcome(st, env, id, delegate, TRANSFER_RECIPIENT);
    if id in st.streams {
      TransferOutcome(st.streams[id], to, env.now);
    }
  }

  // ---- Top-up ----------------------------------------------------------

  /** Live, before its end, a positive amount, worth a second at least if it buys seconds, and fitting. */
  predicate Accepts(s: Stream, amount: int, now: U64, floored: bool) {
    && Live(s) && 0 < amount && Reading(s, now) < s.endTime
    && (floored ==> s.deposited <= amount * (s.endTime - s.startTime))
    && Fits(s, amount, if floored then Bought(s, amount) else 0)
  }

  predicate ToppedUpIn(st: State, env: Env, id: U64, amount: I128, floored: bool, st': State) {
    && id in st.streams && id in st'.streams && 0 < amount
    && var s, s' := st.streams[id], st'.streams[id];
       && ExtendedBy(s, s', amount, if floored then Bought(s, amount) else 0)
       && Deposited(st, st'.(streams := st.streams, log := st.log), env, s.token, s.sender, amount)
       && st'.streams == st.streams[id := s']
       && st'.log == st.log + [ToppedUp(id, s.sender, amount, s'.deposited, s'.endTime, s.recipient)]
  }

  /** Past the gate: the stream's own refusal, the deposit's, or a pool that was not covered. */
  predicate TopUpCallErrors<T(!new)>(st: State, env: Env, s: Stream, amount: I128, own: Result<Stream>, r: Result<T>) {
    && (own.Err? ==> r == Err(own.error))
    && (own.Ok? && 0 < amount ==>
          && (PullDeposit(st, env, s.token, s.sender, amount).Err? ==>
                r == Err(PullDeposit(st, env, s.token, s.sender, amount).error))
          && (Delivers(st, env, s.token, s.sender, amount) && !Backed(st, s.token) ==> r == Err(PoolBalanceDrift)))
  }

  /** With any token: the stream accepts the amount, the token delivers it, and the pool was covered before. */
  lemma TopUpCallIff(st: State, env: Env, id: U64, amount: I128)
    requires Inv(st, env.now)
    ensures var r := E.TopUp(st, env, id, amount);
            && (r.Ok? <==> && Enters(st, env, id, Sender)
                           && var s := st.streams[id];
                              && Accepts(s, amount, env.now, s.curve == Linear)
                              && Delivers(st, env, s.token, s.sender, amount) && Backed(st, s.token))
            && (r.Ok? ==> ToppedUpIn(st, env, id, amount, st.streams[id].curve == Linear, r.value.0))
            && Gate(st, env, id, Sender, r)
            && (Enters(st, env, id, Sender) ==>
                  TopUpCallErrors(st, env, st.streams[id], amount, TopUpStream(st.streams[id], amount, env.now), r))
  {
    hide TopUpStream, PullDeposit, Fits, Bought, IdsContiguous, PoolExact, LogComplete, PaidAsLogged, Shape, Delivers;
    if id in st.streams {
      var s := st.streams[id];
      TopUpIff(s, amount, env.now);
      if 0 < amount {
        PullIff(st, env, s.token, s.sender, amount);
        PoolAfterDeposit(st, env, s.token, s.sender, amount);
      }
    }
  }

  lemma PoolAfterDeposit(st: State, env: Env, token: Address, from: Address, amount: I128)
    ensures PullDeposit(st, env, token, from, amount).Ok? ==>
              (Backed(PullDeposit(st, env, token, from, amount).value, token) <==> Backed(st, token))
  {
  }

  /** The delegated form buys seconds on every curve, and takes the sender's signature besides bit 4. */
  lemma DelegateTopUpCallIff(st: State, env: Env, id: U64, delegate: Address, amount: I128)
    requires Inv(st, env.now)
    ensures var r := E.DelegateTopUp(st, env, id, delegate, amount);
            && (r.Ok? <==> && EntersFor(st, env, id, delegate, 4)
                           && var s := st.streams[id];
                              && s.sender in env.auths && Accepts(s, amount, env.now, true)
                              && Delivers(st, env, s.token, s.sender, amount) && Backed(st, s.token))
            && (r.Ok? ==> ToppedUpIn(st, env, id, amount, true, r.value.0))
            && GateFor(st, env, id, delegate, 4, r)
            && (EntersFor(st, env, id, delegate, 4) ==>
                  var own := DelegateTopUpStream(st.streams[id], amount, env.now);
                  if own.Ok? && st.streams[id].sender !in env.auths then r == Err(AuthRefused)
                  else TopUpCallErrors(st, env, st.streams[id], amount, own, r))
  {
    hide DelegateTopUpStream, PullDeposit, Fits, Bought, IdsContiguous, PoolExact, LogComplete, PaidAsLogged, Shape,
      E.CheckDelegate, Passes, Delivers;
    CheckOutcome(st, env, id, delegate, TOP_UP);
    if id in st.streams {
      var s := st.streams[id];
      DelegateTopUpIff(s, amount, env.now);
      if DelegateTopUpStream(s, amount, env.now).Ok? {
        var st1 := Save(st, id, DelegateTopUpStream(s, amount, env.now).value);
        SavedPull(st, st1, env, s.token, s.sender, amount);
        PoolAfterDeposit(st1, env, s.token, s.sender, amount);
      }
    }
  }

  /** Saving the record first makes no difference to the token. */
  lemma SavedPull(st: State, st1: State, env: Env, token: Address, from: Address, amount: I128)
    requires 0 < amount && st1 == st.(streams := st1.streams)
    ensures PullDeposit(st1, env, token, from, amount).Ok? <==> Delivers(st, env, token, from, amount)
    ensures PullDeposit(st1, env, token, from, amount).Ok? ==>
              Deposited(st, PullDeposit(st1, env, token, from, amount).value.(streams := st.streams),
                        env, token, from, amount)
    ensures PullDeposit(st1, env, token, from, amount).Ok? ==>
              PullDeposit(st1, env, token, from, amount).value.log == st.log
    ensures PullDeposit(st1, env, token, from, amount).Ok? ==>
              PullDeposit(st1, env, token, from, amount).value.streams == st1.streams
    ensures PullDeposit(st1, env, token, from, amount).Err? || PullDeposit(st, env, token, from, amount).Err? ==>
              PullDeposit(st1, env, token, from, amount) == PullDeposit(st, env, token, from, amount)
    ensures Backed(st1, token) == Backed(st, token)
  {
    PullIff(st1, env, token, from, amount);
    PullIff(st, env, token, from, amount);
  }

  /** With exact transfers and a covered pool, a top-up the stream accepts fails only if the balance would overflow. */
  lemma ExactTopUpIff(st: State, env: Env, id: U64, amount: I128)
    requires Inv(st, env.now) && env.host == Solvency.EXACT
    requires id in st.streams ==> Backed(st, st.streams[id].token)
    ensures E.TopUp(st, env, id, amount).Ok?
            <==> && Enters(st, env, id, Sender)
                 && Accepts(st.streams[id], amount, env.now, st.streams[id].curve == Linear)
                 && BalanceOf(st.bank, st.streams[id].token) + amount <= I128_MAX
  {
    hide E.TopUp, Delivers, Accepts, ToppedUpIn, Inv;
    TopUpCallIff(st, env, id, amount);
    if id in st.streams && 0 < amount {
      ExactDelivers(st, env, st.streams[id].token, st.streams[id].sender, amount);
    } else if id in st.streams {
      NothingIsNotAccepted(st.streams[id], amount, env.now);
    }
  }

  lemma NothingIsNotAccepted(s: Stream, amount: int, now: U64)
    requires amount <= 0
    ensures forall floored :: !Accepts(s, amount, now, floored)
  {
  }

  // ---- Withdrawal ------------------------------------------------------

  function Due(s: Stream, now: U64): int
    requires Vested(s, now).Ok?
  {
    Vested(s, now).value - s.withdrawn
  }

  function AskedFor(s: Stream, now: U64, request: Option<I128>): int
    requires Vested(s, now).Ok?
  {
    if request.Some? then request.value else Due(s, now)
  }

  /** The record of a payout, in fields. */
  predicate DrawnBy(s: Stream, s': Stream, p: int, now: U64) {
    var drains := s.withdrawn + p == s.deposited && s.status != Cancelled;
    && s' == s.(withdrawn := s'.withdrawn, status := s'.status, pausedAt := s'.pausedAt, pausedTotal := s'.pausedTotal)
    && s'.withdrawn == s.withdrawn + p
    && s'.status == (if drains then Depleted else s.status)
    && s'.pausedAt == (if drains then None else s.pausedAt)
    && s'.pausedTotal == s.pausedTotal + if drains && s.pausedAt.Some? then now - s.pausedAt.value else 0
  }

  predicate WithdrawnIn(st: State, env: Env, id: U64, p: I128, st': State) {
    && id in st.streams && id in st'.streams && 0 < p
    && var s, s' := st.streams[id], st'.streams[id];
       && DrawnBy(s, s', p, env.now)
       && Paid(st, st'.(streams := st.streams, log := st.log), env, s.token, s.recipient, p)
       && st'.streams == st.streams[id := s']
       && st'.log == st.log + [Withdrawn(id, s.recipient, p, s'.withdrawn, s'.deposited, s'.status, s.sender,
                                         s'.pausedAt, s'.pausedTotal)]
  }

  lemma PaymentGoes(st: State, env: Env, id: U64, s: Stream, p: I128)
    requires id in st.streams && s == st.streams[id] && 0 < p
    requires Drawn(s, p, env.now).Ok? && DrawnBy(s, Drawn(s, p, env.now).value, p, env.now)
    ensures var r := E.ApplyWithdrawal(st, env, id, s, p);
            && (r.Ok? && Backed(r.value, s.token) <==> PaysOut(st, env, s.token, s.recipient, p))
            && (r.Ok? ==> WithdrawnIn(st, env, id, p, r.value))
            && PayErrors(st, env, s.token, s.recipient, p,
                         if r.Ok? && !Backed(r.value, s.token) then Err(PoolBalanceDrift) else r)
  {
    hide Drawn;
  }

  lemma PayOutIff(st: State, env: Env, id: U64, request: Option<I128>)
    requires Inv(st, env.now) && id in st.streams
    ensures Vested(st.streams[id], env.now).Ok?
    ensures var s := st.streams[id];
            var asked := AskedFor(s, env.now, request);
            var r := E.PayOut(st, env, id, s, request);
            && (r.Ok? <==> 0 < asked <= Due(s, env.now) && PaysOut(st, env, s.token, s.recipient, asked))
            && (r.Ok? ==> r.value.1 == asked && WithdrawnIn(st, env, id, asked, r.value.0))
            && (Payout(s, env.now, request).Err? ==> r == Err(Payout(s, env.now, request).error))
            && (0 < asked <= Due(s, env.now) ==> PayErrors(st, env, s.token, s.recipient, asked, r))
  {
    hide Vested, Payout, Drawn, IdsContiguous, PoolExact, LogComplete, PaidAsLogged, Amount, E.ApplyWithdrawal, PaysOut,
      WithdrawnIn, Shape, Backed;
    var s := st.streams[id];
    VestedIsAmount(s, env.now);
    PayoutOutcome(s, env.now, request);
    if Payout(s, env.now, request).Ok? {
      var p := Payout(s, env.now, request).value;
      DrawnAsListed(s, p, env.now);
      PaymentGoes(st, env, id, s, p);
    }
  }

  lemma DrawnAsListed(s: Stream, p: I128, now: U64)
    requires Shape(s, now) && 0 < p <= Amount(s, now) - s.withdrawn
    ensures Drawn(s, p, now).Ok? && DrawnBy(s, Drawn(s, p, now).value, p, now)
  {
    hide Drawn, Amount;
    DrawnFields(s, p, now);
    AmountInRange(s, now);
  }

  /** Past the gate: the stream's own refusal, or the payment's. */
  predicate PayOutErrors<T(!new)>(st: State, env: Env, id: U64, request: Option<I128>, r: Result<T>)
    requires id in st.streams && Vested(st.streams[id], env.now).Ok?
  {
    var s := st.streams[id];
    var asked := AskedFor(s, env.now, request);
    && (Payout(s, env.now, request).Err? ==> r == Err(Payout(s, env.now, request).error))
    && (0 < asked <= Due(s, env.now) && asked <= I128_MAX ==> PayErrors(st, env, s.token, s.recipient, asked, r))
  }

  /** With any token: a positive amount that has vested unpaid, and that the token pays leaving the pool covered. */
  lemma WithdrawCallIff(st: State, env: Env, id: U64, delegate: Address, request: Option<I128>)
    requires Inv(st, env.now)
    ensures id in st.streams ==> Vested(st.streams[id], env.now).Ok?
    ensures var r := E.Withdraw(st, env, id, request);
            && (r.Ok? <==> && Enters(st, env, id, Recipient)
                           && var s := st.streams[id]; var asked := AskedFor(s, env.now, request);
                              0 < asked <= Due(s, env.now) && PaysOut(st, env, s.token, s.recipient, asked))
            && (r.Ok? ==> && r.value.1 == AskedFor(st.streams[id], env.now, request)
                          && WithdrawnIn(st, env, id, r.value.1, r.value.0))
            && Gate(st, env, id, Recipient, r)
            && (Enters(st, env, id, Recipient) ==> PayOutErrors(st, env, id, request, r))
    ensures var r := E.DelegateWithdraw(st, env, id, delegate, request);
            && (r.Ok? <==> && EntersFor(st, env, id, delegate, 0)
                           && var s := st.streams[id]; var asked := AskedFor(s, env.now, request);
                              0 < asked <= Due(s, env.now) && PaysOut(st, env, s.token, s.recipient, asked))
            && (r.Ok? ==> && r.value.1 == AskedFor(st.streams[id], env.now, request)
                          && WithdrawnIn(st, env, id, r.value.1, r.value.0))
            && GateFor(st, env, id, delegate, 0, r)
            && (EntersFor(st, env, id, delegate, 0) ==> PayOutErrors(st, env, id, request, r))
  {
    hide Inv, E.PayOut, Payout, Vested, E.CheckDelegate, Passes, PaysOut, WithdrawnIn;
    CheckOutcome(st, env, id, delegate, WITHDRAW);
    if id in st.streams {
      PayOutIff(st, env, id, request);
    }
  }

  // ---- Cancel ----------------------------------------------------------

  /** Settled at the clock, the rest refunded to the sender if there is a rest, and announced. */
  predicate CancelledIn(st: State, env: Env, id: U64, st': State) {
    && id in st.streams && id in st'.streams
    && var s, s' := st.streams[id], st'.streams[id];
       var refund := s.deposited - s'.deposited;
       && EndsAs(s, env.now, s') && 0 <= refund <= I128_MAX
       && (if refund > 0 then Paid(st, st'.(streams := st.streams, log := st.log), env, s.token, s.sender, refund)
           else st'.(streams := st.streams, log := st.log) == st)
       && st'.streams == st.streams[id := s']
       && st'.log == st.log + [StreamCancelled(id, s.sender, s.recipient, refund, s'.deposited, s.withdrawn, s'.endTime,
                                               None, s.pausedTotal)]
  }

  predicate RefundGoes(st: State, env: Env, id: U64)
    requires id in st.streams && Vested(st.streams[id], env.now).Ok?
  {
    var s := st.streams[id];
    var refund := s.deposited - Vested(s, env.now).value;
    if 0 < refund <= I128_MAX then PaysOut(st, env, s.token, s.sender, refund) else Backed(st, s.token)
  }

  /** Why a settlement fails: its refund, or with nothing to refund a pool that was not covered. */
  predicate RefundErrors<T(!new)>(st: State, env: Env, id: U64, r: Result<T>)
    requires id in st.streams && Vested(st.streams[id], env.now).Ok?
  {
    var s := st.streams[id];
    var refund := s.deposited - Vested(s, env.now).value;
    && (0 < refund <= I128_MAX ==> PayErrors(st, env, s.token, s.sender, refund, r))
    && (refund == 0 && !Backed(st, s.token) ==> r == Err(PoolBalanceDrift))
  }

  /** Past the gate: the stream's own refusal, or the settlement's. */
  predicate CancelErrors<T(!new)>(st: State, env: Env, id: U64, r: Result<T>)
    requires id in st.streams && Vested(st.streams[id], env.now).Ok?
  {
    && (QuoteCancel(st.streams[id], env.now).Err? ==> r == Err(QuoteCancel(st.streams[id], env.now).error))
    && (st.streams[id].cancellable && Live(st.streams[id]) ==> RefundErrors(st, env, id, r))
  }

  lemma SettlementGoes(st: State, env: Env, id: U64, s: Stream, vested: I128, refund: I128)
    requires id in st.streams && s == st.streams[id] && EndsAs(s, env.now, Collapsed(s, env.now, vested))
    requires refund == s.deposited - vested >= 0 && Vested(s, env.now) == Ok(vested)
    ensures var r := E.SettleCancel(st, env, id, s, vested, refund);
            && (r.Ok? <==> RefundGoes(st, env, id)) && (r.Ok? ==> CancelledIn(st, env, id, r.value))
            && RefundErrors(st, env, id, r)
  {
    hide Vested, Collapsed;
    if refund > 0 {
      RefundSettles(st, env, id, s, vested, refund);
      hide E.SettleCancel, PaysOut, PayErrors;
    }
  }

  lemma RefundSettles(st: State, env: Env, id: U64, s: Stream, vested: I128, refund: I128)
    requires id in st.streams && s == st.streams[id] && EndsAs(s, env.now, Collapsed(s, env.now, vested))
    requires refund == s.deposited - vested > 0 && Vested(s, env.now) == Ok(vested)
    ensures var r := E.SettleCancel(st, env, id, s, vested, refund);
            && (r.Ok? <==> PaysOut(st, env, s.token, s.sender, refund))
            && (r.Ok? ==> CancelledIn(st, env, id, r.value))
            && PayErrors(st, env, s.token, s.sender, refund, r)
  {
    hide Vested, Collapsed;
  }

  lemma CancelLoadedIff(st: State, env: Env, id: U64)
    requires Inv(st, env.now) && id in st.streams
    ensures Vested(st.streams[id], env.now).Ok?
    ensures var s := st.streams[id];
            var r := E.CancelLoaded(st, env, id, s);
            && (r.Ok? <==> s.cancellable && Live(s) && RefundGoes(st, env, id))
            && (r.Ok? ==> CancelledIn(st, env, id, r.value.0) && r.value.1 == s.deposited - Vested(s, env.now).value)
            && (QuoteCancel(s, env.now).Err? ==> r == Err(QuoteCancel(s, env.now).error))
            && (s.cancellable && Live(s) ==> RefundErrors(st, env, id, r))
  {
    hide Vested, QuoteCancel, Collapsed, IdsContiguous, PoolExact, LogComplete, PaidAsLogged, Amount, EndsAs,
      E.SettleCancel, CancelledIn, RefundGoes, Shape;
    var s := st.streams[id];
    VestedIsAmount(s, env.now);
    CancelOutcome(s, env.now);
    if QuoteCancel(s, env.now).Ok? {
      var (vested, refund) := QuoteCancel(s, env.now).value;
      SettlementGoes(st, env, id, s, vested, refund);
    }
  }

  /** With any token: a live stream created cancellable, whose refund the token pays leaving the pool covered. */
  lemma CancelCallIff(st: State, env: Env, id: U64, delegate: Address)
    requires Inv(st, env.now)
    ensures id in st.streams ==> Vested(st.streams[id], env.now).Ok?
    ensures var r := E.Cancel(st, env, id);
            && (r.Ok? <==> && Enters(st, env, id, Sender)
                           && st.streams[id].cancellable && Live(st.streams[id]) && RefundGoes(st, env, id))
            && (r.Ok? ==> CancelledIn(st, env, id, r.value.0))
            && Gate(st, env, id, Sender, r)
            && (Enters(st, env, id, Sender) ==> CancelErrors(st, env, id, r))
    ensures var r := E.DelegateCancel(st, env, id, delegate);
            && (r.Ok? <==> && EntersFor(st, env, id, delegate, 1)
                           && st.streams[id].cancellable && Live(st.streams[id]) && RefundGoes(st, env, id))
            && (r.Ok? ==> CancelledIn(st, env, id, r.value.0))
            && GateFor(st, env, id, delegate, 1, r)
            && (EntersFor(st, env, id, delegate, 1) ==> CancelErrors(st, env, id, r))
  {
    hide Inv, E.CancelLoaded, QuoteCancel, Vested, E.CheckDelegate, Passes, RefundGoes, CancelledIn;
    CheckOutcome(st, env, id, delegate, CANCEL);
    if id in st.streams {
      CancelLoadedIff(st, env, id);
    }
  }

  /** With exact transfers and a covered pool, a live, cancellable stream is cancelled if its refund is covered. */
  lemma ExactCancelIff(st: State, env: Env, id: U64)
    requires Inv(st, env.now) && env.host == Solvency.EXACT
    requires id in st.streams ==> Backed(st, st.streams[id].token)
    ensures id in st.streams ==> Vested(st.streams[id], env.now).Ok?
    ensures E.Cancel(st, env, id).Ok?
            <==> && Enters(st, env, id, Sender) && st.streams[id].cancellable && Live(st.streams[id])
                 && var s := st.streams[id];
                    var refund := s.deposited - Vested(s, env.now).value;
                    refund > 0 ==> && refund <= BalanceOf(st.bank, s.token)
                                   && I128_MIN <= Pooled(st, s.token) - refund
  {
    hide E.Cancel, E.DelegateCancel, Vested, PaysOut, CancelledIn, PoolExact, LogComplete, PaidAsLogged, Amount;
    CancelCallIff(st, env, id, Address(0));
    if id in st.streams {
      var s := st.streams[id];
      VestedIsAmount(s, env.now);
      var refund := s.deposited - Vested(s, env.now).value;
      if refund > 0 {
        ExactPaysOut(st, env, s.token, s.sender, refund);
      }
    }
  }

  /** Each member of a settled batch ends as a cancel of its own at that instant would end it. */
  lemma BatchMembersEnd(st: State, env: Env, sender: Address, ids: seq<U64>)
    requires Inv(st, env.now) && Batches.Settled(E.BatchCancel(st, env, sender, ids))
    ensures var st' := E.BatchCancel(st, env, sender, ids).value.0;
            forall id :: id in ids ==>
              && id in st.streams && id in st'.streams && st.streams[id].sender == sender
              && st.streams[id].cancellable && Live(st.streams[id])
              && EndsAs(st.streams[id], env.now, st'.streams[id])
  {
    BatchCancelSettles(st, env, sender, ids);
    hide E.BatchCancel, QuoteCancel, Collapsed, Vested, E.CancelInOrder;
    forall i | 0 <= i < |ids|
      ensures st.streams[ids[i]].cancellable && Live(st.streams[ids[i]])
      ensures EndsAs(st.streams[ids[i]], env.now, E.BatchCancel(st, env, sender, ids).value.0.streams[ids[i]])
    {
      CancelOutcome(st.streams[ids[i]], env.now);
    }
  }

  // ---- Maintenance -----------------------------------------------------

  /** The sender of any stream, halted or not; nothing changes, and the report is never positive. */
  lemma ReclaimIff(st: State, env: Env, id: U64)
    requires Inv(st, env.now)
    ensures var r := E.ReclaimDust(st, env, id);
            && (r.Ok? <==> id in st.streams && st.streams[id].sender in env.auths)
            && (r.Ok? ==> r.value.0 == st && r.value.1 == Min(0, st.streams[id].deposited - st.streams[id].withdrawn))
            && (r == Err(StreamNotFound) <==> id !in st.streams)
            && (r == Err(AuthRefused) <==> id in st.streams && st.streams[id].sender !in env.auths)
  {
    hide IdsContiguous, PoolExact, LogComplete, PaidAsLogged, Amount, Dust;
    if id in st.streams && st.streams[id].status.IsTerminal() {
      StreamLaws.NoDust(st.streams[id], env.now);
    }
  }

  /** The operator is set once, by its own signature. */
  lemma SetOperatorIff(st: State, env: Env, operator: Address)
    ensures var r := E.SetHaltOperator(st, env, operator);
            && (r.Ok? <==> operator in env.auths && st.operator == None)
            && (r.Ok? ==> r.value.0 == st.(operator := Some(operator), log := st.log + [HaltOperatorSet(operator)]))
            && (r == Err(AuthRefused) <==> operator !in env.auths)
            && (r == Err(HaltOperatorAlreadySet) <==> operator in env.auths && st.operator.Some?)
  {
  }

  /** The operator halts what is not halted, from this instant, and resumes what is, logging how long it stood. */
  lemma HaltIff(st: State, env: Env)
    ensures var r := E.Halt(st, env);
            var signed := st.operator.Some? && st.operator.value in env.auths;
            && (r.Ok? <==> signed && st.haltedAt == None)
            && (r.Ok? ==> r.value.0 == st.(haltedAt := Some(env.now),
                                           log := st.log + [HaltEngaged(st.operator.value, env.now)]))
            && (r == Err(HaltOperatorNotSet) <==> st.operator == None)
            && (r == Err(AuthRefused) <==> st.operator.Some? && !signed)
            && (r == Err(ContractAlreadyHalted) <==> signed && st.haltedAt.Some?)
    ensures var r := E.ResumeContract(st, env);
            var signed := st.operator.Some? && st.operator.value in env.auths;
            && (r.Ok? <==> signed && st.haltedAt.Some?)
            && (r.Ok? ==> && |r.value.0.log| == |st.log| + 1 && r.value.0.log[|st.log|].HaltLifted?
                          && r.value.0 == st.(haltedAt := None, log := st.log + [r.value.0.log[|st.log|]])
                          && var e := r.value.0.log[|st.log|];
                             e.operator == st.operator.value && e.resumedAt == env.now
                             && e.haltedFor == Max(0, env.now - st.haltedAt.value))
            && (r == Err(HaltOperatorNotSet) <==> st.operator == None)
            && (r == Err(AuthRefused) <==> st.operator.Some? && !signed)
            && (r == Err(ContractNotHalted) <==> signed && st.haltedAt == None)
  {
  }

  /** Anybody extends the rent of a live stream on an unhalted contract; only the log shows it. */
  lemma ExtendIff(st: State, env: Env, id: U64)
    ensures var r := E.ExtendStreamTtl(st, env, id);
            && (r.Ok? <==> st.haltedAt.None? && id in st.streams && Live(st.streams[id]))
            && (r.Ok? ==> && r.value.0 == st.(log := st.log + [TtlExtended(id, r.value.1)])
                          && r.value.1 == Rent.TtlTarget(st.streams[id], env.now, env.maxTtl))
            && (r == Err(ContractHalted) <==> st.haltedAt.Some?)
            && (r == Err(StreamNotFound) <==> st.haltedAt.None? && id !in st.streams)
            && (r == Err(StreamTerminated) <==> st.haltedAt.None? && id in st.streams && !Live(st.streams[id]))
  {
    hide Rent.TtlTarget;
  }

  // ---- Batches ---------------------------------------------------------

  /** The size and repetition checks: one to sixteen distinct ids. */
  lemma ValidBatchIff(ids: seq<U64>)
    ensures E.ValidBatch(ids).Pass? <==> 1 <= |ids| <= 16 && Distinct(ids)
    ensures E.ValidBatch(ids) == Fail(EmptyBatch) <==> |ids| == 0
    ensures E.ValidBatch(ids) == Fail(BatchTooLarge) <==> 16 < |ids|
    ensures E.ValidBatch(ids) == Fail(DuplicateStreamId) <==> 1 <= |ids| <= 16 && !Distinct(ids)
  {
  }

  predicate AllHeldBy(st: State, ids: seq<U64>, who: Address, role: Role) {
    forall i :: 0 <= i < |ids| ==> ids[i] in st.streams && Holder(st.streams[ids[i]], role) == who
  }

  /** One to sixteen distinct streams of one party, which signed. */
  predicate BatchEnters(st: State, env: Env, who: Address, ids: seq<U64>, role: Role) {
    1 <= |ids| <= 16 && Distinct(ids) && who in env.auths && AllHeldBy(st, ids, who, role)
  }

  /** The errors before any member is looked at. */
  predicate BatchGate<T(!new)>(env: Env, who: Address, ids: seq<U64>, r: Result<T>) {
    && (|ids| == 0 ==> r == Err(EmptyBatch))
    && (16 < |ids| ==> r == Err(BatchTooLarge))
    && (1 <= |ids| <= 16 && !Distinct(ids) ==> r == Err(DuplicateStreamId))
    && (1 <= |ids| <= 16 && Distinct(ids) && who !in env.auths ==> r == Err(AuthRefused))
  }

  /** Past the gate: the quotes', the payments', or a member's pool that was left uncovered. */
  predicate BatchWithdrawErrors<T(!new)>(st: State, env: Env, recipient: Address, ids: seq<U64>, r: Result<T>) {
    var quote, drained := E.QuoteWithdrawals(st, env.now, recipient, ids, |ids|), E.DrainInOrder(st, env, ids, |ids|);
    && (quote.Err? ==> r == Err(quote.error))
    && (quote.Ok? && drained.Err? ==> r == Err(drained.error))
    && (quote.Ok? && drained.Ok?
        && (exists i :: 0 <= i < |ids| && ids[i] in drained.value.streams
                        && !Backed(drained.value, drained.value.streams[ids[i]].token)) ==>
          r == Err(PoolBalanceDrift))
  }

  lemma BatchWithdrawFails(st: State, env: Env, recipient: Address, ids: seq<U64>)
    ensures st.haltedAt.None? && 1 <= |ids| <= 16 && Distinct(ids) && recipient in env.auths ==>
              BatchWithdrawErrors(st, env, recipient, ids, E.BatchWithdraw(st, env, recipient, ids))
  {
    hide E.QuoteWithdrawals, E.DrainInOrder;
    ValidBatchIff(ids);
  }

  /** The first member that is missing or another recipient's gives the error, unless the sum overflows before it. */
  lemma {:induction false} QuoteOutcome(st: State, now: U64, recipient: Address, ids: seq<U64>, n: nat)
    requires StreamsShaped(st, now) && n <= |ids|
    ensures E.QuoteWithdrawals(st, now, recipient, ids, n).Err? ==>
              E.QuoteWithdrawals(st, now, recipient, ids, n).error in {StreamNotFound, Unauthorized, Overflow}
    ensures forall k :: 0 <= k < n && !(ids[k] in st.streams && st.streams[ids[k]].recipient == recipient)
                        && E.QuoteWithdrawals(st, now, recipient, ids, k).Ok? ==>
              E.QuoteWithdrawals(st, now, recipient, ids, n)
              == Err(if ids[k] in st.streams then Unauthorized else StreamNotFound)
    ensures forall k :: 0 <= k < n && ids[k] in st.streams && st.streams[ids[k]].recipient == recipient
                        && E.QuoteWithdrawals(st, now, recipient, ids, k).Ok?
                        && E.QuoteWithdrawals(st, now, recipient, ids, k + 1).Err? ==>
              E.QuoteWithdrawals(st, now, recipient, ids, n) == Err(Overflow)
  {
    hide Withdrawable, Shape;
    if n > 0 {
      QuoteOutcome(st, now, recipient, ids, n - 1);
      if ids[n - 1] in st.streams {
        ReadingsNeverFail(st.streams[ids[n - 1]], now);
      }
    }
  }

  /** With honest, covered member tokens: an unhalted contract, a batch that may enter, and the single withdrawals. */
  lemma BatchWithdrawCallIff(st: State, env: Env, recipient: Address, ids: seq<U64>)
    requires MembersHonest(st, env, ids) && E.AllBacked(st, ids)
    ensures var r := E.BatchWithdraw(st, env, recipient, ids);
            && (r.Ok? <==> && st.haltedAt.None? && BatchEnters(st, env, recipient, ids, Recipient)
                           && WithdrawEach(st, env, ids, |ids|).Ok?
                           && WithdrawEach(st, env, ids, |ids|).value.1 <= I128_MAX)
            && (st.haltedAt.Some? ==> r == Err(ContractHalted))
            && (st.haltedAt.None? ==> BatchGate(env, recipient, ids, r))
            && (st.haltedAt.None? && 1 <= |ids| <= 16 && Distinct(ids) && recipient in env.auths ==>
                  BatchWithdrawErrors(st, env, recipient, ids, r))
  {
    hide MembersHonest, E.AllBacked, WithdrawEach, E.DrainInOrder, BatchWithdrawErrors;
    ValidBatchIff(ids);
    BatchWithdrawFails(st, env, recipient, ids);
    if E.BatchWithdraw(st, env, recipient, ids).Ok? {
      forall i | 0 <= i < |ids|
        ensures ids[i] in st.streams && st.streams[ids[i]].recipient == recipient
      {
        Solvency.QuotedIdsExist(st, env.now, recipient, ids, |ids|, i);
      }
    }
    if st.haltedAt.None? && BatchEnters(st, env, recipient, ids, Recipient) {
      BatchWithdrawSucceedsIff(st, env, recipient, ids);
    }
  }

  /** The first member that is missing or not the sender's gives the error. */
  lemma {:induction false} OwnedByOutcome(st: State, sender: Address, ids: seq<U64>, n: nat)
    requires n <= |ids|
    ensures E.OwnedBy(st, sender, ids, n).Pass?
            <==> forall i :: 0 <= i < n ==> ids[i] in st.streams && st.streams[ids[i]].sender == sender
    ensures forall k :: 0 <= k < n && !(ids[k] in st.streams && st.streams[ids[k]].sender == sender)
                        && (forall i :: 0 <= i < k ==> ids[i] in st.streams && st.streams[ids[i]].sender == sender) ==>
              E.OwnedBy(st, sender, ids, n) == Fail(if ids[k] in st.streams then Unauthorized else StreamNotFound)
  {
    if n > 0 {
      OwnedByOutcome(st, sender, ids, n - 1);
    }
  }

  /** Halted or not: a batch that may enter settles exactly when its single cancels would, were it not halted. */
  lemma BatchCancelCallIff(st: State, env: Env, sender: Address, ids: seq<U64>)
    requires Inv(st, env.now)
    ensures var r := E.BatchCancel(st, env, sender, ids);
            && (Batches.Settled(r) <==> && BatchEnters(st, env, sender, ids, Sender)
                                        && CancelEach(Authority.WithHalt(st, None), env, ids, |ids|).Ok?
                                        && Refunds(st, env.now, ids, |ids|) <= I128_MAX)
            && (Batches.Settled(r) ==> r.value.1.refunded == Refunds(st, env.now, ids, |ids|))
            && BatchGate(env, sender, ids, r)
            && (1 <= |ids| <= 16 && Distinct(ids) && sender in env.auths && !AllHeldBy(st, ids, sender, Sender) ==>
                  r.Err? && E.OwnedBy(st, sender, ids, |ids|) == Fail(r.error))
  {
    hide CancelEach, E.CancelInOrder, E.QuoteCancels, Refunds, PoolExact, LogComplete, PaidAsLogged, Shape;
    ValidBatchIff(ids);
    OwnedByOutcome(st, sender, ids, |ids|);
    if BatchEnters(st, env, sender, ids, Sender) {
      var st0 := Authority.WithHalt(st, None);
      Authority.BatchCancelIgnoresHalt(st, env, sender, ids, None);
      BatchCancelSettlesIff(st0, env, sender, ids);
      RefundsIgnoreHalt(st, env.now, ids, |ids|);
      if Batches.Settled(E.BatchCancel(st, env, sender, ids)) {
        RefundedIsRefunds(st, env, sender, ids);
      }
    }
  }

  lemma RefundedIsRefunds(st: State, env: Env, sender: Address, ids: seq<U64>)
    requires StreamsShaped(st, env.now) && Batches.Settled(E.BatchCancel(st, env, sender, ids))
    ensures E.BatchCancel(st, env, sender, ids).value.1.refunded == Refunds(st, env.now, ids, |ids|)
  {
    hide QuoteCancel, E.CancelInOrder;
    RefusalIsFirst(st, env.now, ids, |ids|);
    PricingIsRefunds(st, env.now, ids, |ids|);
  }

  lemma {:induction false} RefundsIgnoreHalt(st: State, now: U64, ids: seq<U64>, n: nat)
    requires n <= |ids|
    ensures Refunds(Authority.WithHalt(st, None), now, ids, n) == Refunds(st, now, ids, n)
  {
    hide QuoteCancel;
    if n > 0 {
      RefundsIgnoreHalt(st, now, ids, n - 1);
    }
  }

  /** No cancel can be priced here: the stream is not cancellable, or no longer live. */
  predicate Blocks(st: State, id: U64)
    requires id in st.streams
  {
    !(st.streams[id].cancellable && Live(st.streams[id]))
  }

  /**
   * A batch that may enter is refused at member `k` exactly when `k` is the first that
   * blocks and the refunds before it, summed, fit an `i128`.
   */
  lemma BatchCancelRefusedIff(st: State, env: Env, sender: Address, ids: seq<U64>, k: nat)
    requires Inv(st, env.now) && BatchEnters(st, env, sender, ids, Sender) && k < |ids|
    ensures var r := E.BatchCancel(st, env, sender, ids);
            r.Ok? && r.value.1.refusedIndex == Some(k)
            <==> && Blocks(st, ids[k]) && (forall i :: 0 <= i < k ==> !Blocks(st, ids[i]))
                 && Refunds(st, env.now, ids, k) <= I128_MAX
  {
    hide E.CancelInOrder, Refunds, QuoteCancel, IdsContiguous, PoolExact, LogComplete, PaidAsLogged, Shape;
    ValidBatchIff(ids);
    OwnedByOutcome(st, sender, ids, |ids|);
    forall i | 0 <= i < |ids|
      ensures QuoteCancel(st.streams[ids[i]], env.now).Ok? <==> !Blocks(st, ids[i])
    {
      CancelOutcome(st.streams[ids[i]], env.now);
    }
    if E.QuoteCancels(st, env.now, ids, |ids|).Ok? {
      RefusalIsFirst(st, env.now, ids, |ids|);
    }
    if Blocks(st, ids[k]) && forall i :: 0 <= i < k ==> !Blocks(st, ids[i]) {
      PricingIsRefunds(st, env.now, ids, k);
      RefusedFrom(st, env.now, ids, k, |ids|);
    }
  }

  /** Once a member refuses, the pricing stays refused; before that it is an overflow or a sum. */
  lemma {:induction false} RefusedFrom(st: State, now: U64, ids: seq<U64>, k: nat, n: nat)
    requires k < n <= |ids| && ids[k] in st.streams && QuoteCancel(st.streams[ids[k]], now).Err?
    requires E.QuoteCancels(st, now, ids, k).Ok? ==> E.QuoteCancels(st, now, ids, k).value.Priced?
    ensures E.QuoteCancels(st, now, ids, n).Ok? <==> E.QuoteCancels(st, now, ids, k).Ok?
    ensures E.QuoteCancels(st, now, ids, n).Ok? ==>
              E.QuoteCancels(st, now, ids, n).value == E.RefusedAt(k, QuoteCancel(st.streams[ids[k]], now).error)
    decreases n
  {
    hide QuoteCancel;
    if k < n - 1 {
      RefusedFrom(st, now, ids, k, n - 1);
    }
  }
}
