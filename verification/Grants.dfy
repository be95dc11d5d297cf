// What a grant lets a delegate do, whom a revocation stops, and for how long.
module Grants {
  import opened Prelude
  import opened Types
  import opened Events
  import opened Ledger
  import opened Invariant
  import opened Runs
  import opened Authority
  import opened Outcomes
  import E = EntryPoints

  // ---- Passing ---------------------------------------------------------

  /** The delegate has a grant in force that contains the bit, and signed. */
  predicate Passes(st: State, env: Env, id: U64, delegate: Address, bit: nat) {
    && (id, delegate) in st.grants
    && bit in st.grants[(id, delegate)].ops
    && !Expired(st.grants[(id, delegate)], env.now)
    && delegate in env.auths
  }

  /** A grant is good up to and including its expiry. */
  predicate Expired(g: DelegateGrant, now: U64) {
    g.expiresAt.Some? && g.expiresAt.value < now
  }

  lemma CheckOutcome(st: State, env: Env, id: U64, delegate: Address, bit: nat)
    ensures var r := E.CheckDelegate(st, env, id, delegate, bit);
            var granted := (id, delegate) in st.grants;
            && (r.Pass? <==> Passes(st, env, id, delegate, bit))
            && (r == Fail(DelegateExpired) <==> granted && Expired(st.grants[(id, delegate)], env.now))
            && (r == Fail(DelegateNotPermitted)
                <==> granted ==> !Expired(st.grants[(id, delegate)], env.now)
                                 && bit !in st.grants[(id, delegate)].ops)
            && (r == Fail(AuthRefused)
                <==> && granted && !Expired(st.grants[(id, delegate)], env.now)
                     && bit in st.grants[(id, delegate)].ops && delegate !in env.auths)
  {
  }

  // ---- One grant, one revocation ---------------------------------------

  /** Cancel, pause, resume, top up: bits 1 to 4 are the sender's to give. */
  predicate AsksSender(ops: Mask) {
    exists b :: b in ops && 1 <= b <= 4
  }

  /** Withdraw and transfer: bits 0 and 5 are the recipient's. */
  predicate AsksRecipient(ops: Mask) {
    0 in ops || 5 in ops
  }

  lemma RolesByBit(ops: Mask)
    ensures ops * SENDER_OPS != {} <==> AsksSender(ops)
    ensures ops * RECIPIENT_OPS != {} <==> AsksRecipient(ops)
  {
    if b :| b in ops && 1 <= b <= 4 {
      assert b in ops * SENDER_OPS;
    }
    if b :| b in ops * SENDER_OPS {
      assert 1 <= b <= 4;
    }
    if b :| b in {0, 5} && b in ops {
      assert b in ops * RECIPIENT_OPS;
    }
    if b :| b in ops * RECIPIENT_OPS {
      assert b == 0 || b == 5;
    }
  }

  predicate HoldsRole(s: Stream, grantor: Address, ops: Mask) {
    && !(AsksSender(ops) && AsksRecipient(ops))
    && (AsksSender(ops) ==> grantor == s.sender)
    && (AsksRecipient(ops) ==> grantor == s.recipient)
  }

  /**
   * On an unhalted contract and a live stream, whoever holds the one role all the
   * operations belong to can grant them, with a signature, and nobody else can.
   */
  lemma GrantIff(st: State, env: Env, id: U64, grantor: Address, delegate: Address, ops: Mask, expiresAt: Option<U64>)
    ensures var r := E.GrantDelegate(st, env, id, grantor, delegate, ops, expiresAt);
            var asks := AsksSender(ops) || AsksRecipient(ops);
            var open := st.haltedAt.None? && id in st.streams && Live(st.streams[id]);
            && (r.Ok? <==> open && HoldsRole(st.streams[id], grantor, ops) && (asks ==> grantor in env.auths))
            && (r.Ok? && !asks ==> r.value.0 == st)
            && (r.Ok? && asks ==>
                  r.value.0 == st.(grants := st.grants[(id, delegate) := DelegateGrant(ops, expiresAt)],
                                   log := st.log + [DelegateGranted(id, grantor, delegate, ops, expiresAt)]))
            && (r == Err(ContractHalted) <==> st.haltedAt.Some?)
            && (r == Err(StreamNotFound) <==> st.haltedAt.None? && id !in st.streams)
            && (r == Err(StreamTerminated) <==> st.haltedAt.None? && id in st.streams && !Live(st.streams[id]))
            && (r == Err(Unauthorized) <==> open && !HoldsRole(st.streams[id], grantor, ops))
            && (r == Err(AuthRefused)
                <==> open && HoldsRole(st.streams[id], grantor, ops) && asks && grantor !in env.auths)
  {
    RolesByBit(ops);
  }

  /** Either current party of the stream can revoke, on any unhalted contract, whether or not there is a grant. */
  lemma RevokeIff(st: State, env: Env, id: U64, grantor: Address, delegate: Address)
    ensures var r := E.RevokeDelegate(st, env, id, grantor, delegate);
            var open := st.haltedAt.None? && id in st.streams;
            && (r.Ok? <==> && open && grantor in {st.streams[id].sender, st.streams[id].recipient}
                           && grantor in env.auths)
            && (r.Ok? ==> r.value.0 == st.(grants := st.grants - {(id, delegate)},
                                           log := st.log + [DelegateRevoked(id, grantor, delegate)]))
            && (r == Err(ContractHalted) <==> st.haltedAt.Some?)
            && (r == Err(StreamNotFound) <==> st.haltedAt.None? && id !in st.streams)
            && (r == Err(Unauthorized) <==> open && grantor !in {st.streams[id].sender, st.streams[id].recipient})
            && (r == Err(AuthRefused)
                <==> && open && grantor in {st.streams[id].sender, st.streams[id].recipient}
                     && grantor !in env.auths)
  {
  }

  /** A call that puts a grant for this delegate in force. */
  predicate GrantsTo(op: Op, id: U64, delegate: Address) {
    op.GrantDelegate? && op.id == id && op.delegate == delegate && (AsksSender(op.ops) || AsksRecipient(op.ops))
  }

  predicate RevokesFrom(op: Op, id: U64, delegate: Address) {
    op.RevokeDelegate? && op.id == id && op.delegate == delegate
  }

  predicate Names(op: Op, id: U64, delegate: Address) {
    GrantsTo(op, id, delegate) || RevokesFrom(op, id, delegate)
  }

  /** The grant of one delegate on one stream. */
  function GrantOf(st: State, id: U64, delegate: Address): Option<DelegateGrant> {
    if (id, delegate) in st.grants then Some(st.grants[(id, delegate)]) else None
  }

  /** Whatever a call does, it touches this delegate's grant only if it names this delegate on this stream. */
  lemma GrantAcross(st: State, env: Env, op: Op, id: U64, delegate: Address)
    requires Inv(st, env.now) && Attempt(st, env, op).Ok?
    ensures GrantOf(Attempt(st, env, op).value, id, delegate)
            == if GrantsTo(op, id, delegate) then Some(DelegateGrant(op.ops, op.expiresAt))
               else if RevokesFrom(op, id, delegate) then None
               else GrantOf(st, id, delegate)
  {
    hide Inv, E.GrantDelegate, E.RevokeDelegate, HoldsRole, AsksSender, AsksRecipient;
    if op.GrantDelegate? {
      GrantIff(st, env, op.id, op.grantor, op.delegate, op.ops, op.expiresAt);
    } else if op.RevokeDelegate? {
      RevokeIff(st, env, op.id, op.grantor, op.delegate);
    } else {
      AdministrationIsSigned(st, env, op, id);
      hide Attempt;
    }
  }

  // ---- Over runs -------------------------------------------------------

  /** The grant in force after a run, from the calls alone: the last that named this delegate on this stream. */
  function InForce(calls: seq<Call>, id: U64, delegate: Address): Option<DelegateGrant> {
    if |calls| == 0 then None
    else
      var before, last := calls[..|calls| - 1], calls[|calls| - 1];
      if Attempt(Exec(before), last.env, last.op).Err? then InForce(before, id, delegate)
      else if GrantsTo(last.op, id, delegate) then Some(DelegateGrant(last.op.ops, last.op.expiresAt))
      else if RevokesFrom(last.op, id, delegate) then None
      else InForce(before, id, delegate)
  }

  lemma {:induction false} GrantIsInForce(calls: seq<Call>, id: U64, delegate: Address)
    requires Timely(calls)
    ensures GrantOf(Exec(calls), id, delegate) == InForce(calls, id, delegate)
  {
    hide Attempt, Inv, GrantsTo, RevokesFrom;
    if |calls| > 0 {
      var before, last := calls[..|calls| - 1], calls[|calls| - 1];
      GrantIsInForce(before, id, delegate);
      RunKeepsInvariant(before);
      LaterInvariant(Exec(before), Clock(before), last.env.now);
      if Attempt(Exec(before), last.env, last.op).Ok? {
        GrantAcross(Exec(before), last.env, last.op, id, delegate);
      }
    }
  }

  /**
   * Revoked is revoked: after a successful revocation, whatever calls follow, the
   * delegate is refused every operation on that stream at every time, until one of
   * them grants to that delegate on that stream again.
   */
  lemma {:induction false} RevocationStands(calls: seq<Call>, n: nat, id: U64, delegate: Address, env: Env, bit: nat)
    requires Timely(calls) && n < |calls| && RevokesFrom(calls[n].op, id, delegate) && Succeeds(calls, n)
    requires forall i :: n < i < |calls| && GrantsTo(calls[i].op, id, delegate) ==> !Succeeds(calls, i)
    ensures E.CheckDelegate(Exec(calls), env, id, delegate, bit) == Fail(DelegateNotPermitted)
  {
    hide Exec, Attempt, Succeeds, GrantsTo, RevokesFrom;
    StaysRevoked(calls, n, id, delegate);
    GrantIsInForce(calls, id, delegate);
  }

  lemma {:induction false} StaysRevoked(calls: seq<Call>, n: nat, id: U64, delegate: Address)
    requires n < |calls| && RevokesFrom(calls[n].op, id, delegate) && Succeeds(calls, n)
    requires forall i :: n < i < |calls| && GrantsTo(calls[i].op, id, delegate) ==> !Succeeds(calls, i)
    ensures InForce(calls, id, delegate) == None
  {
    hide Exec, Attempt, GrantsTo, RevokesFrom;
    var before := calls[..|calls| - 1];
    if n < |before| {
      assert forall i :: 0 <= i < |before| ==> before[..i] == calls[..i];
      StaysRevoked(before, n, id, delegate);
      if GrantsTo(calls[|before|].op, id, delegate) {
        assert !Succeeds(calls, |before|);
      }
    } else {
      RevokingIsNotGranting(calls[n].op, id, delegate);
    }
  }

  lemma RevokingIsNotGranting(op: Op, id: U64, delegate: Address)
    ensures !(RevokesFrom(op, id, delegate) && GrantsTo(op, id, delegate))
  {
  }

  /**
   * A grant is good for exactly the bits it names, until exactly the expiry it names,
   * whatever calls follow, a transfer of the stream included, until one of them
   * grants to or revokes from that delegate on that stream.
   */
  lemma {:induction false} GrantStands(calls: seq<Call>, n: nat, id: U64, delegate: Address, env: Env, bit: nat)
    requires Timely(calls) && n < |calls| && GrantsTo(calls[n].op, id, delegate) && Succeeds(calls, n)
    requires forall i :: n < i < |calls| && Names(calls[i].op, id, delegate) ==> !Succeeds(calls, i)
    ensures E.CheckDelegate(Exec(calls), env, id, delegate, bit).Pass?
            <==> && bit in calls[n].op.ops
                 && (calls[n].op.expiresAt.Some? ==> env.now <= calls[n].op.expiresAt.value)
                 && delegate in env.auths
  {
    hide Exec, Attempt, Succeeds, RevokesFrom, AsksSender, AsksRecipient;
    StaysGranted(calls, n, id, delegate);
    GrantIsInForce(calls, id, delegate);
  }

  lemma {:induction false} StaysGranted(calls: seq<Call>, n: nat, id: U64, delegate: Address)
    requires n < |calls| && GrantsTo(calls[n].op, id, delegate) && Succeeds(calls, n)
    requires forall i :: n < i < |calls| && Names(calls[i].op, id, delegate) ==> !Succeeds(calls, i)
    ensures calls[n].op.GrantDelegate?
    ensures InForce(calls, id, delegate) == Some(DelegateGrant(calls[n].op.ops, calls[n].op.expiresAt))
  {
    hide Exec, Attempt, RevokesFrom, AsksSender, AsksRecipient;
    var before := calls[..|calls| - 1];
    if n < |before| {
      assert forall i :: 0 <= i < |before| ==> before[..i] == calls[..i];
      StaysGranted(before, n, id, delegate);
      if Names(calls[|before|].op, id, delegate) {
        assert !Succeeds(calls, |before|);
      }
    }
  }
}
