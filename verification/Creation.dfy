// Every way a stream is created: exactly when, and that the stream stored is the one asked for.
module Creation {
  import opened Prelude
  import opened Types
  import opened Accrual
  import opened StreamState
  import opened StreamOps
  import opened Events
  import opened Ledger
  import opened Invariant
  import opened Runs
  import opened Histories
  import opened Batches
  import StreamLaws
  import opened Outcomes
  import opened Tokens
  import E = EntryPoints

  // ---- What the callers ask for ----------------------------------------

  /** The terms of one element of a batch: the schedule's own cliff clock, linear, without a reference. */
  function OrderOf(sender: Address, r: BatchCreateRequest): Terms {
    Terms(sender, r.recipient, r.token, r.deposit, r.startTime, r.endTime, r.cliffTime, Schedule,
          r.cancellable, r.pausable, r.transferable, None, Linear)
  }

  predicate IsCreation(op: Op) {
    op.CreateWithCliffMode? || op.CreateWithCurve? || op.CreateViaFactory? || op.BatchCreate?
  }

  /** The streams a call asks for, in order. What an entry point takes no argument for has its default. */
  function Orders(op: Op): seq<Terms>
    requires IsCreation(op)
  {
    match op
    case CreateWithCliffMode(t) => [t.(curve := Linear)]
    case CreateWithCurve(t) => [t.(cliffMode := Schedule, reference := None)]
    case CreateViaFactory(_, t) => [t.(cliffMode := Schedule, reference := None, curve := Linear)]
    case BatchCreate(sender, requests) =>
      seq(|requests|, i requires 0 <= i < |requests| => OrderOf(sender, requests[i]))
  }

  function Announcement(id: U64, t: Terms): Event {
    StreamCreated(id, t.sender, t.recipient, t.token, t.deposit, t.startTime, t.endTime, t.cliffTime,
                  t.cancellable, t.pausable, t.transferable, t.curve, t.cliffMode, t.reference)
  }

  // ---- One creation ----------------------------------------------------

  /** The state after: the stream asked for under the next id, funded and announced, and nothing else. */
  predicate CreatedAs(st: State, env: Env, t: Terms, st': State, id: U64)
    requires Creatable(t) && st.nextId < U64_MAX
  {
    && id == st.nextId && id in st'.streams && AsRequested(st'.streams[id], t)
    && Deposited(st, st'.(streams := st.streams, nextId := st.nextId, count := st.count, log := st.log),
              env, t.token, t.sender, t.deposit)
    && st'.streams == st.streams[id := st'.streams[id]] && st'.nextId == st'.count == id + 1
    && st'.log == st.log + [Announcement(id, t)]
  }

  predicate CanCreate(st: State, env: Env, t: Terms) {
    Creatable(t) && st.nextId < U64_MAX && Delivers(st, env, t.token, t.sender, t.deposit)
  }

  /** Past signature and policy, a creation succeeds exactly on creatable terms, an id left, and a deposit delivered. */
  predicate Creates(st: State, env: Env, t: Terms, r: Result<(State, U64)>) {
    && (r.Ok? <==> CanCreate(st, env, t))
    && (r.Ok? ==> r.value.1 == st.nextId && CreatedAs(st, env, t, r.value.0, r.value.1))
    && (!Creatable(t) ==> r.Err? && NewStream(t) == Err(r.error))
    && (Creatable(t) && st.nextId == U64_MAX ==> r == Err(StreamIdExhausted))
    && (Creatable(t) && st.nextId < U64_MAX && r.Err? ==>
          PullDeposit(st, env, t.token, t.sender, t.deposit) == Err(r.error))
  }

  lemma CreateInnerIff(st: State, env: Env, t: Terms)
    requires IdsContiguous(st)
    ensures Creates(st, env, t, E.CreateInner(st, env, t))
  {
    hide NewStream, PullDeposit, Delivers;
    NewStreamIff(t);
    if Creatable(t) {
      PullIff(st, env, t.token, t.sender, t.deposit);
    }
  }

  /** Each single creating entry point: unhalted, signed by the sender, within the policy if it has one. */
  lemma CreationIff(st: State, env: Env, op: Op)
    requires IdsContiguous(st) && IsCreation(op) && !op.BatchCreate?
    ensures var t := Orders(op)[0];
            var r := Attempt(st, env, op);
            var allowed := op.CreateViaFactory? ==> PolicyCheck(op.policy, t).Pass?;
            && (r.Ok? <==> st.haltedAt.None? && t.sender in env.auths && allowed && CanCreate(st, env, t))
            && (r.Ok? ==> CreatedAs(st, env, t, r.value, st.nextId))
            && (r == Err(ContractHalted) <==> st.haltedAt.Some?)
            && (r == Err(AuthRefused) <==> st.haltedAt.None? && t.sender !in env.auths)
            && (st.haltedAt.None? && t.sender in env.auths && !allowed ==>
                  r == Err(PolicyCheck(op.policy, t).error))
  {
    hide E.CreateInner, CanCreate, CreatedAs, PolicyCheck, PullDeposit, NewStream, Creatable;
    var t := Orders(op)[0];
    CreateInnerIff(st, env, t);
    InnerErrors(st, env, t);
    if op.CreateViaFactory? {
      PolicyReads(op.policy, op.terms, t);
    }
  }

  lemma InnerErrors(st: State, env: Env, t: Terms)
    ensures E.CreateInner(st, env, t).Err? ==> E.CreateInner(st, env, t).error !in {ContractHalted, AuthRefused}
  {
  }

  /** The policy reads deposit and duration only, and never answers as the halt or the signature would. */
  lemma PolicyReads(p: Policy, t: Terms, t': Terms)
    requires t' == t.(cliffMode := t'.cliffMode, reference := t'.reference, curve := t'.curve)
    ensures PolicyCheck(p, t') == PolicyCheck(p, t)
    ensures PolicyCheck(p, t).Fail? ==> PolicyCheck(p, t).error !in {ContractHalted, AuthRefused}
  {
  }

  // ---- A batch ---------------------------------------------------------

  /** The single entry point for each request in order. */
  function CreateEach(st: State, env: Env, sender: Address, requests: seq<BatchCreateRequest>, n: nat)
    : Result<(State, seq<U64>)>
    requires n <= |requests|
  {
    if n == 0 then Ok((st, []))
    else
      var (st1, ids) :- CreateEach(st, env, sender, requests, n - 1);
      var (st2, id) :- E.CreateWithCliffMode(st1, env, OrderOf(sender, requests[n - 1]));
      Ok((st2, ids + [id]))
  }

  /** The up-front validation of a request is that of its terms, but for the product. */
  predicate WellFormed(sender: Address, r: BatchCreateRequest) {
    && r.recipient != sender && 0 < r.deposit
    && r.startTime < r.endTime && r.startTime <= r.cliffTime <= r.endTime
    && r.endTime - r.startTime <= r.deposit
  }

  lemma ValidRequestIff(sender: Address, r: BatchCreateRequest)
    ensures ValidRequest(sender, r).Pass? <==> WellFormed(sender, r)
    ensures ValidRequest(sender, r).Fail? ==> NewStream(OrderOf(sender, r)) == Err(ValidRequest(sender, r).error)
  {
  }

  /** The validation fails at the first request that is not well-formed. */
  lemma {:induction false} ValidRequestsIff(sender: Address, requests: seq<BatchCreateRequest>, n: nat)
    requires n <= |requests|
    ensures E.ValidRequests(sender, requests, n).Pass? <==> forall i :: 0 <= i < n ==> WellFormed(sender, requests[i])
    ensures forall k :: 0 <= k < n && !WellFormed(sender, requests[k])
                        && (forall i :: 0 <= i < k ==> WellFormed(sender, requests[i])) ==>
              && E.ValidRequests(sender, requests, n).Fail?
              && NewStream(OrderOf(sender, requests[k])) == Err(E.ValidRequests(sender, requests, n).error)
  {
    hide ValidRequest, NewStream, WellFormed;
    if n > 0 {
      ValidRequestsIff(sender, requests, n - 1);
      ValidRequestIff(sender, requests[n - 1]);
    }
  }

  lemma {:induction false} CreateAllIsEach(st: State, env: Env, sender: Address,
                                           requests: seq<BatchCreateRequest>, n: nat)
    requires n <= |requests| && st.haltedAt.None? && sender in env.auths
    ensures E.CreateAll(st, env, sender, requests, n) == CreateEach(st, env, sender, requests, n)
    ensures E.CreateAll(st, env, sender, requests, n).Ok? ==>
              E.CreateAll(st, env, sender, requests, n).value.0.haltedAt.None?
  {
    hide E.CreateInner;
    if n > 0 {
      CreateAllIsEach(st, env, sender, requests, n - 1);
      if E.CreateAll(st, env, sender, requests, n - 1).Ok? {
        var st1 := E.CreateAll(st, env, sender, requests, n - 1).value.0;
        InnerKeepsHalt(st1, env, RequestTerms(sender, requests[n - 1]));
      }
    }
  }

  lemma InnerKeepsHalt(st: State, env: Env, t: Terms)
    ensures E.CreateInner(st, env, t).Ok? ==> E.CreateInner(st, env, t).value.0.haltedAt == st.haltedAt
  {
  }

  /**
   * On an unhalted contract, signed by the sender: one to sixteen well-formed requests are
   * exactly the single creations in order, failures included; otherwise the first
   * request that is not well-formed gives the error its creation would.
   */
  lemma BatchCreateIff(st: State, env: Env, sender: Address, requests: seq<BatchCreateRequest>)
    ensures var r := E.BatchCreate(st, env, sender, requests);
            var wellFormed := forall i :: 0 <= i < |requests| ==> WellFormed(sender, requests[i]);
            && (st.haltedAt.Some? ==> r == Err(ContractHalted))
            && (st.haltedAt.None? && |requests| == 0 ==> r == Err(EmptyBatch))
            && (st.haltedAt.None? && 16 < |requests| ==> r == Err(BatchTooLarge))
            && (st.haltedAt.None? && 1 <= |requests| <= 16 ==>
                  && (sender !in env.auths ==> r == Err(AuthRefused))
                  && (sender in env.auths && wellFormed ==> r == CreateEach(st, env, sender, requests, |requests|))
                  && (forall k :: sender in env.auths && 0 <= k < |requests| && !WellFormed(sender, requests[k])
                                  && (forall i :: 0 <= i < k ==> WellFormed(sender, requests[i])) ==>
                        r.Err? && NewStream(OrderOf(sender, requests[k])) == Err(r.error)))
  {
    hide E.CreateAll, E.ValidRequests, WellFormed, CreateEach;
    ValidRequestsIff(sender, requests, |requests|);
    if st.haltedAt.None? && sender in env.auths {
      CreateAllIsEach(st, env, sender, requests, |requests|);
    }
  }

  // ---- Runs ------------------------------------------------------------

  /** Whichever entry point creates it, the stream stored under the k-th new id is the k-th one asked for. */
  lemma StoredAsOrdered(st: State, env: Env, op: Op, k: nat)
    requires Inv(st, env.now) && IsCreation(op) && Attempt(st, env, op).Ok? && k < |Orders(op)|
    ensures st.nextId + k in Attempt(st, env, op).value.streams && st.nextId + k !in st.streams
    ensures Creatable(Orders(op)[k]) && AsRequested(Attempt(st, env, op).value.streams[st.nextId + k], Orders(op)[k])
  {
    hide StreamsShaped, PoolExact, LogComplete, PaidAsLogged, Creatable, AsRequested, Attempt;
    if op.BatchCreate? {
      BatchStoresOrders(st, env, op, k);
    } else {
      SingleStoresOrder(st, env, op);
    }
  }

  lemma SingleStoresOrder(st: State, env: Env, op: Op)
    requires IdsContiguous(st) && IsCreation(op) && !op.BatchCreate? && Attempt(st, env, op).Ok?
    ensures st.nextId in Attempt(st, env, op).value.streams && st.nextId !in st.streams
    ensures Creatable(Orders(op)[0]) && AsRequested(Attempt(st, env, op).value.streams[st.nextId], Orders(op)[0])
  {
    hide Creatable, AsRequested, Attempt;
    CreationIff(st, env, op);
  }

  lemma BatchStoresOrders(st: State, env: Env, op: Op, k: nat)
    requires IdsContiguous(st) && op.BatchCreate? && Attempt(st, env, op).Ok? && k < |op.requests|
    ensures st.nextId + k in Attempt(st, env, op).value.streams && st.nextId + k !in st.streams
    ensures Creatable(Orders(op)[k]) && AsRequested(Attempt(st, env, op).value.streams[st.nextId + k], Orders(op)[k])
  {
    hide E.CreateAll, E.ValidRequests, NewStream, Creatable, AsRequested;
    BatchCreateEffect(st, env, op.sender, op.requests, |op.requests|);
    var ids := E.CreateAll(st, env, op.sender, op.requests, |op.requests|).value.1;
    assert ids[k] == st.nextId + k;
    assert RequestTerms(op.sender, op.requests[k]) == Orders(op)[k];
    NewStreamIff(Orders(op)[k]);
  }

  /** What of the terms stays for the life of a stream; its recipient, deposit and end may move. */
  predicate KeepsTerms(s: Stream, t: Terms) {
    && s.sender == t.sender && s.token == t.token && s.startTime == t.startTime
    && s.cliffTime == t.cliffTime && s.cliffMode == t.cliffMode
    && s.cancellable == t.cancellable && s.pausable == t.pausable && s.transferable == t.transferable
    && s.curve == t.curve && s.reference == t.reference
  }

  /** The stream stored under this id is the one asked for. */
  predicate Honours(st: State, id: int, order: Terms) {
    id in st.streams && AsRequested(st.streams[id], order)
  }

  /** And still is, as far as its terms go. */
  predicate StillHonours(st: State, id: int, order: Terms, t: U64) {
    id in st.streams && OrderKept(st.streams[id], order, t)
  }

  lemma OrderStored(calls: seq<Call>, n: nat, k: nat)
    requires Timely(calls) && n < |calls| && Succeeds(calls, n)
    requires IsCreation(calls[n].op) && k < |Orders(calls[n].op)|
    ensures Honours(Exec(calls[..n + 1]), Exec(calls[..n]).nextId + k, Orders(calls[n].op)[k])
  {
    hide Inv, Attempt, Orders, AsRequested, Creatable, IsCreation;
    var before, call := calls[..n], calls[n];
    RunKeepsInvariant(before);
    LaterInvariant(Exec(before), Clock(before), call.env.now);
    StoredAsOrdered(Exec(before), call.env, call.op, k);
    ExecNext(calls, n);
    hide Exec;
  }

  /** The terms, and on the requested clock nothing vested before the requested cliff. */
  predicate OrderKept(s: Stream, order: Terms, t: U64) {
    && KeepsTerms(s, order) && Vested(s, t).Ok?
    && ((if order.cliffMode == WallClock then t else Reading(s, t)) < order.cliffTime ==> Vested(s, t) == Ok(0))
  }

  /**
   * Over any run: whatever happens to a stream after its creation, it keeps the terms it
   * was asked for with, and before the requested cliff, on the requested clock, nothing has vested.
   */
  lemma OrdersAreKept(calls: seq<Call>, n: nat, k: nat, t: U64)
    requires Timely(calls) && n < |calls| && Succeeds(calls, n) && Clock(calls) <= t
    requires IsCreation(calls[n].op) && k < |Orders(calls[n].op)|
    ensures StillHonours(Exec(calls), Exec(calls[..n]).nextId + k, Orders(calls[n].op)[k], t)
  {
    hide Exec, Succeeds, IsCreation, Orders, OrderKept, Shape, Vested, Amount, HarmSince, StreamTime, CliffReached,
      AsRequested;
    OrderStored(calls, n, k);
    var id: U64 := Exec(calls[..n]).nextId + k;
    NothingGoesBack(calls, n + 1, id);
    SparedIsCovered(calls, id, t);
    TermsPersist(Exec(calls[..n + 1]).streams[id], Exec(calls).streams[id], Orders(calls[n].op)[k], t);
  }

  lemma TermsPersist(s: Stream, s': Stream, order: Terms, t: U64)
    requires AsRequested(s, order) && StreamLaws.SameTerms(s, s') && Shape(s', t)
    ensures OrderKept(s', order, t)
  {
    hide Shape, Vested;
    NothingBeforeTheCliff(s', t);
  }

  /** Before its gate, on the clock its mode names, no reachable stream has vested anything, cancelled ones included. */
  lemma NothingBeforeTheCliff(s: Stream, now: U64)
    requires Shape(s, now)
    ensures Vested(s, now).Ok?
    ensures (if s.cliffMode == WallClock then now else Reading(s, now)) < s.cliffTime ==> Vested(s, now) == Ok(0)
  {
    ClockIsExact(s, now);
    VestedIsAmount(s, now);
  }
}
