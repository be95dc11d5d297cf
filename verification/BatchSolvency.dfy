// What a settled batch cancel leaves behind in the tokens: each member is
// reconciled when it settles, and later members may still move other tokens.
module BatchSolvency {
  import opened Prelude
  import opened Types
  import opened Accrual
  import opened StreamOps
  import opened Ledger
  import opened Invariant
  import opened Solvency
  import opened Batches
  import E = EntryPoints

  /** A transfer may do anything to the balance in its own token, and nothing to the others. */
  ghost predicate Local(host: Host) {
    forall moves: seq<Move>, bank: Bank, m: Move, t: Address :: t != m.token ==>
      BalanceOf(host(moves, bank, m).bank, t) == BalanceOf(bank, t)
  }

  lemma ExactIsLocal()
    ensures Local(EXACT)
  {
  }

  /** Whether cancelling stream `id` pays its sender in another token than `token`. */
  predicate RefundsElsewhere(st: State, now: U64, id: U64, token: Address) {
    && id in st.streams && st.streams[id].token != token
    && QuoteCancel(st.streams[id], now).Ok? && QuoteCancel(st.streams[id], now).value.1 > 0
  }

  /** No member between `i` and `n` refunds anything in another token than member `i`'s. */
  predicate QuietAfter(st: State, now: U64, ids: seq<U64>, i: nat, n: nat)
    requires i < n <= |ids| && ids[i] in st.streams
  {
    forall j :: i < j < n ==> !RefundsElsewhere(st, now, ids[j], st.streams[ids[i]].token)
  }

  /** A cancel reconciles its own token, and leaves another alone if it refunds nothing or the host is local. */
  lemma CancelKeepsOtherBacking(st: State, env: Env, id: U64, token: Address)
    requires E.CancelOne(st, env, id).Ok? && Backed(st, token)
    requires Local(env.host) || !RefundsElsewhere(st, env.now, id, token)
    ensures Backed(E.CancelOne(st, env, id).value.0, token)
  {
    hide QuoteCancel, StreamTime;
  }

  lemma {:induction false} CancelledTokensStayBacked(st: State, env: Env, ids: seq<U64>, n: nat, i: nat)
    requires i < n <= |ids| && Distinct(ids) && E.CancelInOrder(st, env, ids, n).Ok?
    requires ids[i] in st.streams && (Local(env.host) || QuietAfter(st, env.now, ids, i, n))
    ensures Backed(E.CancelInOrder(st, env, ids, n).value.0, st.streams[ids[i]].token)
  {
    hide E.CancelOne, Local, QuoteCancel;
    var st1 := E.CancelInOrder(st, env, ids, n - 1).value.0;
    CancelTouchesOnly(st, env, ids, n - 1, ids[n - 1]);
    if i == n - 1 {
      CancelIsReconciled(st1, env, ids[i]);
    } else {
      CancelledTokensStayBacked(st, env, ids, n - 1, i);
      CancelKeepsOtherBacking(st1, env, ids[n - 1], st.streams[ids[i]].token);
    }
  }

  /**
   * Whatever the hosts do, a settled batch leaves the token of every member covering
   * its streams that no later member in another token follows with a refund: the
   * last member's always, and so every token of a batch in one token. If a transfer
   * touches no other token's balance, it leaves all of them so.
   */
  lemma BatchCancelLeavesTokensSolvent(st: State, env: Env, sender: Address, ids: seq<U64>)
    requires Inv(st, env.now) && Settled(E.BatchCancel(st, env, sender, ids))
    ensures forall i :: 0 <= i < |ids| ==> ids[i] in st.streams
    ensures forall i :: 0 <= i < |ids| && (Local(env.host) || QuietAfter(st, env.now, ids, i, |ids|)) ==>
              Solvent(E.BatchCancel(st, env, sender, ids).value.0, st.streams[ids[i]].token)
  {
    hide Local, E.CancelInOrder, QuietAfter, StreamsFollow, NewClocks, StreamsFair, LogComplete, PaidAsLogged;
    CancelInOrderAdvances(st, env, ids, |ids|);
    forall i | 0 <= i < |ids|
      ensures ids[i] in st.streams
    {
      OwnedIdsExist(st, sender, ids, |ids|, i);
    }
    forall i | 0 <= i < |ids| && (Local(env.host) || QuietAfter(st, env.now, ids, i, |ids|))
      ensures Solvent(E.BatchCancel(st, env, sender, ids).value.0, st.streams[ids[i]].token)
    {
      CancelledTokensStayBacked(st, env, ids, |ids|, i);
    }
  }

  /** So with exact-transfer tokens a settled batch leaves the token of every member covering its streams. */
  lemma ExactBatchesLeaveTokensSolvent(st: State, env: Env, sender: Address, ids: seq<U64>)
    requires Inv(st, env.now) && env.host == EXACT && Settled(E.BatchCancel(st, env, sender, ids))
    ensures forall i :: 0 <= i < |ids| ==>
              && ids[i] in st.streams
              && Solvent(E.BatchCancel(st, env, sender, ids).value.0, st.streams[ids[i]].token)
  {
    hide Inv, Solvent, Local, E.BatchCancel;
    ExactIsLocal();
    BatchCancelLeavesTokensSolvent(st, env, sender, ids);
  }

  // ---- The condition is exact ------------------------------------------

  /** The host as it was, except that its answer to move number `at` also empties the contract's `token`. */
  function Sabotage(host: Host, at: nat, token: Address): Host {
    (moves: seq<Move>, bank: Bank, m: Move) =>
      var r := host(moves, bank, m);
      if |moves| == at then Reply(r.outcome, r.bank[token := I128_MIN]) else r
  }

  lemma CancelMakesOneMove(st: State, env: Env, id: U64)
    requires E.CancelOne(st, env, id).Ok?
    ensures var refunds := QuoteCancel(st.streams[id], env.now).value.1 > 0;
            |E.CancelOne(st, env, id).value.0.moves| == |st.moves| + if refunds then 1 else 0
  {
    hide QuoteCancel, StreamTime;
  }

  /** Up to the sabotaged move the two hosts answer alike. */
  lemma {:induction false} SameBefore(st: State, env: Env, ids: seq<U64>, n: nat, at: nat, token: Address)
    requires n <= |ids| && E.CancelInOrder(st, env, ids, n).Ok?
    requires |E.CancelInOrder(st, env, ids, n).value.0.moves| <= at
    ensures E.CancelInOrder(st, Under(env, Sabotage(env.host, at, token)), ids, n) == E.CancelInOrder(st, env, ids, n)
  {
    hide E.CancelOne, QuoteCancel;
    if n > 0 {
      var st1 := E.CancelInOrder(st, env, ids, n - 1).value.0;
      CancelMakesOneMove(st1, env, ids[n - 1]);
      SameBefore(st, env, ids, n - 1, at, token);
      SameCancel(st1, env, ids[n - 1], at, token);
    }
  }

  lemma SameCancel(st: State, env: Env, id: U64, at: nat, token: Address)
    requires E.CancelOne(st, env, id).Ok? && |E.CancelOne(st, env, id).value.0.moves| <= at
    ensures E.CancelOne(st, Under(env, Sabotage(env.host, at, token)), id) == E.CancelOne(st, env, id)
  {
    hide QuoteCancel, StreamTime;
  }

  /** The state with the contract's balance in `token` emptied. */
  function Emptied(st: State, token: Address): State {
    st.(bank := st.bank[token := I128_MIN])
  }

  /** The sabotaged move itself, in another token: the cancel succeeds and the balance is gone. */
  lemma CancelIsSabotaged(st: State, env: Env, id: U64, token: Address)
    requires E.CancelOne(st, env, id).Ok? && RefundsElsewhere(st, env.now, id, token)
    ensures var r := E.CancelOne(st, Under(env, Sabotage(env.host, |st.moves|, token)), id);
            r.Ok? && r.value == (Emptied(E.CancelOne(st, env, id).value.0, token), E.CancelOne(st, env, id).value.1)
  {
    hide QuoteCancel, StreamTime;
  }

  /** A cancel in another token that refunds nothing asks no token and does not notice. */
  lemma QuietCancelDoesNotNotice(st: State, env: Env, env': Env, id: U64, token: Address)
    requires env' == Under(env, env'.host) && E.CancelOne(st, env, id).Ok?
    requires st.streams[id].token != token && !RefundsElsewhere(st, env.now, id, token)
    ensures var r := E.CancelOne(Emptied(st, token), env', id);
            r.Ok? && r.value == (Emptied(E.CancelOne(st, env, id).value.0, token), E.CancelOne(st, env, id).value.1)
  {
    hide QuoteCancel, StreamTime;
  }

  lemma {:induction false} EmptiedToTheEnd(st: State, env: Env, env': Env, ids: seq<U64>, j: nat, n: nat,
                                           token: Address)
    requires j < n <= |ids| && Distinct(ids) && env' == Under(env, env'.host)
    requires E.CancelInOrder(st, env, ids, n).Ok? && E.CancelInOrder(st, env, ids, j + 1).Ok?
    requires var r := E.CancelInOrder(st, env', ids, j + 1);
             r.Ok? && r.value.0 == Emptied(E.CancelInOrder(st, env, ids, j + 1).value.0, token)
    requires forall k :: j < k < n ==>
               && ids[k] in st.streams && st.streams[ids[k]].token != token
               && !RefundsElsewhere(st, env.now, ids[k], token)
    ensures var r := E.CancelInOrder(st, env', ids, n);
            r.Ok? && r.value.0 == Emptied(E.CancelInOrder(st, env, ids, n).value.0, token)
    decreases n
  {
    hide E.CancelOne, QuoteCancel, Emptied, Under;
    if j + 1 < n {
      EmptiedToTheEnd(st, env, env', ids, j, n - 1, token);
      CancelTouchesOnly(st, env, ids, n - 1, ids[n - 1]);
      QuietCancelDoesNotNotice(E.CancelInOrder(st, env, ids, n - 1).value.0, env, env', ids[n - 1], token);
    }
  }

  /** The last member after `i` that refunds in another token. */
  lemma {:induction false} LastRefund(st: State, now: U64, ids: seq<U64>, i: nat, n: nat) returns (j: nat)
    requires i < n <= |ids| && ids[i] in st.streams && !QuietAfter(st, now, ids, i, n)
    ensures i < j < n && RefundsElsewhere(st, now, ids[j], st.streams[ids[i]].token)
    ensures forall k :: j < k < n ==> !RefundsElsewhere(st, now, ids[k], st.streams[ids[i]].token)
  {
    hide RefundsElsewhere;
    if RefundsElsewhere(st, now, ids[n - 1], st.streams[ids[i]].token) && i < n - 1 {
      j := n - 1;
    } else {
      j := LastRefund(st, now, ids, i, n - 1);
    }
  }

  /** A refund in another token after the last member in `token` gives a host that ruins `token` unnoticed. */
  lemma SabotageGoesUnnoticed(st: State, env: Env, sender: Address, ids: seq<U64>, i: nat, j: nat) returns (host: Host)
    requires Settled(E.BatchCancel(st, env, sender, ids)) && Distinct(ids)
    requires i < j < |ids| && (forall k :: 0 <= k < |ids| ==> ids[k] in st.streams)
    requires forall k :: i < k < |ids| ==> st.streams[ids[k]].token != st.streams[ids[i]].token
    requires RefundsElsewhere(st, env.now, ids[j], st.streams[ids[i]].token)
    requires forall k :: j < k < |ids| ==> !RefundsElsewhere(st, env.now, ids[k], st.streams[ids[i]].token)
    ensures Settled(E.BatchCancel(st, Under(env, host), sender, ids))
    ensures E.BatchCancel(st, Under(env, host), sender, ids).value.0
            == Emptied(E.BatchCancel(st, env, sender, ids).value.0, st.streams[ids[i]].token)
  {
    hide E.CancelOne, Emptied, RefundsElsewhere;
    var token := st.streams[ids[i]].token;
    PrefixSucceeds(st, env, ids, j, |ids|);
    PrefixSucceeds(st, env, ids, j + 1, |ids|);
    var stj := E.CancelInOrder(st, env, ids, j).value.0;
    host := Sabotage(env.host, |stj.moves|, token);
    var env' := Under(env, host);
    SameBefore(st, env, ids, j, |stj.moves|, token);
    CancelTouchesOnly(st, env, ids, j, ids[j]);
    RefundsAlike(st, stj, env.now, ids[j], token);
    CancelIsSabotaged(stj, env, ids[j], token);
    EmptiedToTheEnd(st, env, env', ids, j, |ids|, token);
  }

  lemma RefundsAlike(st: State, st1: State, now: U64, id: U64, token: Address)
    requires Untouched(st, st1, id)
    ensures RefundsElsewhere(st, now, id, token) == RefundsElsewhere(st1, now, id, token)
  {
  }

  lemma {:induction false} PrefixSucceeds(st: State, env: Env, ids: seq<U64>, k: nat, n: nat)
    requires k <= n <= |ids| && E.CancelInOrder(st, env, ids, n).Ok?
    ensures E.CancelInOrder(st, env, ids, k).Ok?
    decreases n
  {
    hide E.CancelOne;
    if k < n {
      PrefixSucceeds(st, env, ids, k, n - 1);
    }
  }

  /** With any host at all in the place of this one, the batch leaves `token` solvent if it settles. */
  ghost predicate SolventWhateverTheHost(st: State, env: Env, sender: Address, ids: seq<U64>, token: Address) {
    forall host: Host :: Settled(E.BatchCancel(st, Under(env, host), sender, ids)) ==>
      Solvent(E.BatchCancel(st, Under(env, host), sender, ids).value.0, token)
  }

  /**
   * The exact condition, checkable before the call: of a batch that can settle, and
   * barring a pool at the very bottom of `i128`, the last member in a token is left
   * solvent by every host if and only if no later member refunds in another token.
   */
  lemma BatchCancelSolventIff(st: State, env: Env, sender: Address, ids: seq<U64>, i: nat)
    requires Inv(st, env.now) && Settled(E.BatchCancel(st, env, sender, ids))
    requires i < |ids| && ids[i] in st.streams
    requires forall k :: i < k < |ids| ==> ids[k] in st.streams && st.streams[ids[k]].token != st.streams[ids[i]].token
    requires I128_MIN < Pooled(E.BatchCancel(st, env, sender, ids).value.0, st.streams[ids[i]].token)
    ensures SolventWhateverTheHost(st, env, sender, ids, st.streams[ids[i]].token)
            <==> QuietAfter(st, env.now, ids, i, |ids|)
  {
    hide QuietAfter, E.BatchCancel;
    var token := st.streams[ids[i]].token;
    if QuietAfter(st, env.now, ids, i, |ids|) {
      forall host: Host | Settled(E.BatchCancel(st, Under(env, host), sender, ids))
        ensures Solvent(E.BatchCancel(st, Under(env, host), sender, ids).value.0, token)
      {
        BatchCancelLeavesTokensSolvent(st, Under(env, host), sender, ids);
      }
    } else {
      MembersExist(st, env, sender, ids);
      var j := LastRefund(st, env.now, ids, i, |ids|);
      var host := SabotageGoesUnnoticed(st, env, sender, ids, i, j);
      SettledKeepsPool(st, env, sender, ids);
      EmptiedIsInsolvent(E.BatchCancel(st, env, sender, ids).value.0, token);
    }
  }

  lemma MembersExist(st: State, env: Env, sender: Address, ids: seq<U64>)
    requires Settled(E.BatchCancel(st, env, sender, ids))
    ensures Distinct(ids) && forall k :: 0 <= k < |ids| ==> ids[k] in st.streams
  {
    forall k | 0 <= k < |ids|
      ensures ids[k] in st.streams
    {
      OwnedIdsExist(st, sender, ids, |ids|, k);
    }
  }

  lemma SettledKeepsPool(st: State, env: Env, sender: Address, ids: seq<U64>)
    requires Inv(st, env.now) && Settled(E.BatchCancel(st, env, sender, ids))
    ensures PoolExact(E.BatchCancel(st, env, sender, ids).value.0)
  {
    hide E.CancelInOrder;
    CancelInOrderAdvances(st, env, ids, |ids|);
  }

  lemma EmptiedIsInsolvent(st: State, token: Address)
    requires PoolExact(st) && I128_MIN < Pooled(st, token)
    ensures !Solvent(Emptied(st, token), token)
  {
  }
}
