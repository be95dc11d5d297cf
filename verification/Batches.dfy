// The batch entry points: what they leave behind, stated stream by stream, and
// that they are the single-stream entry points run in order at one instant.
module Batches {
  import opened Prelude
  import opened Types
  import opened Accrual
  import opened StreamState
  import opened StreamOps
  import opened StreamLaws
  import opened Ledger
  import opened Invariant
  import opened Solvency
  import E = EntryPoints

  predicate Distinct(ids: seq<U64>) {
    forall i, j :: 0 <= i < j < |ids| ==> ids[i] != ids[j]
  }

  /** The stream `id` is the same in both states, or absent from both. */
  predicate Untouched(st: State, st': State, id: U64) {
    (id in st.streams <==> id in st'.streams) && (id in st.streams ==> st'.streams[id] == st.streams[id])
  }

  // ---- batch_create ----------------------------------------------------

  lemma CreateInnerEffect(st: State, env: Env, t: Terms)
    requires E.CreateInner(st, env, t).Ok?
    ensures var (st', id) := E.CreateInner(st, env, t).value;
            && id == st.nextId && NewStream(t).Ok? && st'.streams == st.streams[id := NewStream(t).value]
            && (IdsContiguous(st) ==> IdsContiguous(st') && st'.nextId == st.nextId + 1)
  {
  }

  /** Successive ids in the order of the requests, each with the stream its request asks for; nothing else changes. */
  lemma {:induction false} BatchCreateEffect(st: State, env: Env, sender: Address,
                                             requests: seq<BatchCreateRequest>, n: nat)
    requires IdsContiguous(st) && n <= |requests| && E.CreateAll(st, env, sender, requests, n).Ok?
    ensures var (st', ids) := E.CreateAll(st, env, sender, requests, n).value;
            && IdsContiguous(st') && st'.nextId == st.nextId + n && |ids| == n
            && (forall i :: 0 <= i < n ==>
                  && ids[i] == st.nextId + i && ids[i] in st'.streams
                  && NewStream(RequestTerms(sender, requests[i])) == Ok(st'.streams[ids[i]]))
            && (forall id :: id in st.streams ==> Untouched(st, st', id))
  {
    hide E.CreateInner, NewStream, IdsContiguous;
    if n > 0 {
      BatchCreateEffect(st, env, sender, requests, n - 1);
      var (st1, ids1) := E.CreateAll(st, env, sender, requests, n - 1).value;
      CreateInnerEffect(st1, env, RequestTerms(sender, requests[n - 1]));
      IdsBelowCounter(st, st1);
    }
  }

  lemma IdsBelowCounter(st: State, st1: State)
    requires IdsContiguous(st) && IdsContiguous(st1) && st.nextId <= st1.nextId
    ensures st1.nextId !in st.streams && st1.nextId !in st1.streams
    ensures forall id: U64 :: st.nextId <= id < st1.nextId ==> id in st1.streams
  {
  }

  /** Past the up-front validation an element can fail only for overflow, exhausted ids, or its token. */
  lemma {:induction false} ValidatedBatchErrors(st: State, env: Env, sender: Address,
                                                requests: seq<BatchCreateRequest>, n: nat)
    requires n <= |requests| && E.ValidRequests(sender, requests, n).Pass?
    requires E.CreateAll(st, env, sender, requests, n).Err?
    ensures E.CreateAll(st, env, sender, requests, n).error
            in {Overflow, StreamIdExhausted, TokenTransferFailed, TokenMissing, TokenAmountMismatch}
  {
    if E.CreateAll(st, env, sender, requests, n - 1).Err? {
      ValidatedBatchErrors(st, env, sender, requests, n - 1);
    }
  }

  // ---- batch_withdraw --------------------------------------------------

  lemma {:induction false} DrainTouchesOnly(st: State, env: Env, ids: seq<U64>, n: nat, id: U64)
    requires n <= |ids| && E.DrainInOrder(st, env, ids, n).Ok?
    requires forall i :: 0 <= i < n ==> ids[i] != id
    ensures Untouched(st, E.DrainInOrder(st, env, ids, n).value, id)
  {
    if n > 0 {
      DrainTouchesOnly(st, env, ids, n - 1, id);
    }
  }

  lemma DrainOneEffect(st: State, env: Env, id: U64)
    requires E.DrainOne(st, env, id).Ok?
    ensures var st' := E.DrainOne(st, env, id).value;
            && id in st.streams && Withdrawable(st.streams[id], env.now).Ok? && id in st'.streams
            && st'.streams[id].withdrawn == st.streams[id].withdrawn + Withdrawable(st.streams[id], env.now).value
            && forall k :: k != id ==> Untouched(st, st', k)
  {
  }

  /** Each member is drawn by what was available before the batch: its predecessors do not touch it. */
  lemma {:induction false} DrainEffect(st: State, env: Env, ids: seq<U64>, n: nat, i: nat)
    requires i < n <= |ids| && Distinct(ids) && E.DrainInOrder(st, env, ids, n).Ok?
    ensures var st' := E.DrainInOrder(st, env, ids, n).value;
            && ids[i] in st.streams && Withdrawable(st.streams[ids[i]], env.now).Ok? && ids[i] in st'.streams
            && st'.streams[ids[i]].withdrawn
               == st.streams[ids[i]].withdrawn + Withdrawable(st.streams[ids[i]], env.now).value
  {
    var st1 := E.DrainInOrder(st, env, ids, n - 1).value;
    DrainOneEffect(st1, env, ids[n - 1]);
    if i == n - 1 {
      DrainTouchesOnly(st, env, ids, n - 1, ids[i]);
    } else {
      DrainEffect(st, env, ids, n - 1, i);
      assert Untouched(st1, E.DrainInOrder(st, env, ids, n).value, ids[i]);
    }
  }

  /** By how much `withdrawn` grew over the first `n` ids. */
  function Gained(st: State, st': State, ids: seq<U64>, n: nat): int
    requires n <= |ids|
  {
    if n == 0 then 0
    else
      Gained(st, st', ids, n - 1) +
      if ids[n - 1] in st.streams && ids[n - 1] in st'.streams
      then st'.streams[ids[n - 1]].withdrawn - st.streams[ids[n - 1]].withdrawn else 0
  }

  lemma {:induction false} QuoteIsGained(st: State, env: Env, recipient: Address, ids: seq<U64>, n: nat, k: nat)
    requires k <= n <= |ids| && Distinct(ids) && E.DrainInOrder(st, env, ids, n).Ok?
    requires E.QuoteWithdrawals(st, env.now, recipient, ids, k).Ok?
    ensures E.QuoteWithdrawals(st, env.now, recipient, ids, k).value
            == Gained(st, E.DrainInOrder(st, env, ids, n).value, ids, k)
  {
    if k > 0 {
      QuoteIsGained(st, env, recipient, ids, n, k - 1);
      DrainEffect(st, env, ids, n, k - 1);
    }
  }

  /**
   * A successful batch leaves every member drawn up to what has vested, leaves
   * every other stream alone, and returns exactly the sum of what it drew.
   */
  lemma BatchWithdrawDrains(st: State, env: Env, recipient: Address, ids: seq<U64>)
    requires Inv(st, env.now) && E.BatchWithdraw(st, env, recipient, ids).Ok?
    ensures var (st', total) := E.BatchWithdraw(st, env, recipient, ids).value;
            && (forall i :: 0 <= i < |ids| ==>
                  && ids[i] in st.streams && ids[i] in st'.streams
                  && st.streams[ids[i]].recipient == recipient
                  && st'.streams[ids[i]].withdrawn
                     == Max(st.streams[ids[i]].withdrawn, Amount(st.streams[ids[i]], env.now)))
            && (forall id :: id !in ids ==> Untouched(st, st', id))
            && total == Gained(st, st', ids, |ids|)
  {
    var (st', total) := E.BatchWithdraw(st, env, recipient, ids).value;
    QuoteIsGained(st, env, recipient, ids, |ids|, |ids|);
    forall i | 0 <= i < |ids|
      ensures ids[i] in st.streams && ids[i] in st'.streams && st.streams[ids[i]].recipient == recipient
      ensures st'.streams[ids[i]].withdrawn
              == Max(st.streams[ids[i]].withdrawn, Amount(st.streams[ids[i]], env.now))
    {
      QuotedIdsExist(st, env.now, recipient, ids, |ids|, i);
      DrainEffect(st, env, ids, |ids|, i);
      ReadingsNeverFail(st.streams[ids[i]], env.now);
    }
    forall id | id !in ids
      ensures Untouched(st, st', id)
    {
      DrainTouchesOnly(st, env, ids, |ids|, id);
    }
  }

  /** `withdraw(None)` on each id with a positive balance, in order, payments summed. */
  function WithdrawEach(st: State, env: Env, ids: seq<U64>, n: nat): Result<(State, int)>
    requires n <= |ids|
  {
    if n == 0 then Ok((st, 0))
    else
      var (st1, total) :- WithdrawEach(st, env, ids, n - 1);
      var s :- Load(st1, ids[n - 1]);
      var available :- Withdrawable(s, env.now);
      if available == 0 then Ok((st1, total))
      else
        var (st2, paid) :- E.Withdraw(st1, env, ids[n - 1], None);
        Ok((st2, total + paid))
  }

  /** Whatever the tokens do: if the single withdrawals all succeed, they leave what the batch's steps leave. */
  lemma {:induction false} SinglesAreDrains(st: State, env: Env, ids: seq<U64>, n: nat)
    requires n <= |ids| && Distinct(ids) && WithdrawEach(st, env, ids, n).Ok?
    ensures var (st', total) := WithdrawEach(st, env, ids, n).value;
            E.DrainInOrder(st, env, ids, n) == Ok(st') && total == Gained(st, st', ids, n)
  {
    if n > 0 {
      SinglesAreDrains(st, env, ids, n - 1);
      var (st1, total1) := WithdrawEach(st, env, ids, n - 1).value;
      var (st', total) := WithdrawEach(st, env, ids, n).value;
      DrainOneEffect(st1, env, ids[n - 1]);
      DrainTouchesOnly(st, env, ids, n - 1, ids[n - 1]);
      GainedSoFar(st, st1, st', ids, n - 1);
    }
  }

  lemma {:induction false} GainedSoFar(st: State, st1: State, st2: State, ids: seq<U64>, n: nat)
    requires n <= |ids| && forall i :: 0 <= i < n ==> Untouched(st1, st2, ids[i])
    ensures Gained(st, st1, ids, n) == Gained(st, st2, ids, n)
  {
    if n > 0 {
      GainedSoFar(st, st1, st2, ids, n - 1);
    }
  }

  /** Hence a batch and the single withdrawals never disagree. */
  lemma BatchWithdrawAgrees(st: State, env: Env, recipient: Address, ids: seq<U64>)
    requires E.BatchWithdraw(st, env, recipient, ids).Ok? && WithdrawEach(st, env, ids, |ids|).Ok?
    ensures E.BatchWithdraw(st, env, recipient, ids).value.0 == WithdrawEach(st, env, ids, |ids|).value.0
    ensures E.BatchWithdraw(st, env, recipient, ids).value.1 == WithdrawEach(st, env, ids, |ids|).value.1
  {
    SinglesAreDrains(st, env, ids, |ids|);
    QuoteIsGained(st, env, recipient, ids, |ids|, |ids|);
  }

  /** Draining removes no stream and changes no stream's token. */
  lemma {:induction false} DrainKeepsTokens(st: State, env: Env, ids: seq<U64>, n: nat)
    requires n <= |ids| && E.DrainInOrder(st, env, ids, n).Ok?
    ensures forall id :: id in st.streams ==>
              && id in E.DrainInOrder(st, env, ids, n).value.streams
              && E.DrainInOrder(st, env, ids, n).value.streams[id].token == st.streams[id].token
  {
    hide E.DrainOne;
    if n > 0 {
      DrainKeepsTokens(st, env, ids, n - 1);
      DrainOneKeepsTokens(E.DrainInOrder(st, env, ids, n - 1).value, env, ids[n - 1]);
    }
  }

  lemma DrainOneKeepsTokens(st: State, env: Env, id: U64)
    requires E.DrainOne(st, env, id).Ok?
    ensures forall k :: k in st.streams ==>
              && k in E.DrainOne(st, env, id).value.streams
              && E.DrainOne(st, env, id).value.streams[k].token == st.streams[k].token
  {
  }

  /** The members' own tokens are honest; the others may do as they please. */
  ghost predicate MembersHonest(st: State, env: Env, ids: seq<U64>) {
    forall i :: 0 <= i < |ids| && ids[i] in st.streams ==> Honest(env.host, st.streams[ids[i]].token)
  }

  /** With exact-transfer tokens, a batch that succeeds is the single withdrawals, all succeeding. */
  lemma {:induction false} DrainsAreSingles(st: State, env: Env, recipient: Address, ids: seq<U64>, n: nat)
    requires n <= |ids| && Distinct(ids) && E.DrainInOrder(st, env, ids, n).Ok?
    requires MembersHonest(st, env, ids) && E.AllBacked(st, ids)
    requires st.haltedAt.None? && recipient in env.auths
    requires forall i :: 0 <= i < n ==> ids[i] in st.streams && st.streams[ids[i]].recipient == recipient
    ensures WithdrawEach(st, env, ids, n).Ok?
    ensures WithdrawEach(st, env, ids, n).value.0 == E.DrainInOrder(st, env, ids, n).value
  {
    hide Honest, Vested, E.ApplyWithdrawal;
    if n > 0 {
      DrainsAreSingles(st, env, recipient, ids, n - 1);
      var st1 := E.DrainInOrder(st, env, ids, n - 1).value;
      DrainTouchesOnly(st, env, ids, n - 1, ids[n - 1]);
      DrainHalts(st, env, ids, n - 1);
      DrainKeepsBacking(st, env, ids, n, st.streams[ids[n - 1]].token);
      DrainOneIsWithdraw(st1, env, ids[n - 1]);
    }
  }

  lemma {:induction false} DrainHalts(st: State, env: Env, ids: seq<U64>, n: nat)
    requires n <= |ids| && E.DrainInOrder(st, env, ids, n).Ok?
    ensures E.DrainInOrder(st, env, ids, n).value.haltedAt == st.haltedAt
  {
    if n > 0 {
      DrainHalts(st, env, ids, n - 1);
    }
  }

  lemma DrainOneIsWithdraw(st: State, env: Env, id: U64)
    requires st.haltedAt.None? && id in st.streams && st.streams[id].recipient in env.auths
    requires E.DrainOne(st, env, id).Ok? && Backed(E.DrainOne(st, env, id).value, st.streams[id].token)
    ensures Withdrawable(st.streams[id], env.now).Ok?
    ensures Withdrawable(st.streams[id], env.now).value != 0 ==>
              E.Withdraw(st, env, id, None) ==
              Ok((E.DrainOne(st, env, id).value, Withdrawable(st.streams[id], env.now).value))
  {
    hide Vested;
  }

  lemma BatchWithdrawIsSingles(st: State, env: Env, recipient: Address, ids: seq<U64>)
    requires MembersHonest(st, env, ids) && E.AllBacked(st, ids)
    requires E.BatchWithdraw(st, env, recipient, ids).Ok?
    ensures WithdrawEach(st, env, ids, |ids|).Ok?
    ensures WithdrawEach(st, env, ids, |ids|).value.0 == E.BatchWithdraw(st, env, recipient, ids).value.0
    ensures WithdrawEach(st, env, ids, |ids|).value.1 == E.BatchWithdraw(st, env, recipient, ids).value.1
  {
    forall i | 0 <= i < |ids|
      ensures ids[i] in st.streams && st.streams[ids[i]].recipient == recipient
    {
      QuotedIdsExist(st, env.now, recipient, ids, |ids|, i);
    }
    DrainsAreSingles(st, env, recipient, ids, |ids|);
    BatchWithdrawAgrees(st, env, recipient, ids);
  }

  /** What is drawn is never negative, so a sum over more ids is no smaller. */
  lemma {:induction false} GainedRises(st: State, env: Env, ids: seq<U64>, n: nat, k: nat)
    requires k <= n <= |ids| && Distinct(ids) && E.DrainInOrder(st, env, ids, |ids|).Ok?
    ensures var st' := E.DrainInOrder(st, env, ids, |ids|).value; Gained(st, st', ids, k) <= Gained(st, st', ids, n)
    decreases n
  {
    hide Withdrawable, E.DrainInOrder;
    if k < n {
      GainedRises(st, env, ids, n - 1, k);
      DrainEffect(st, env, ids, |ids|, n - 1);
      AvailableIsNatural(st.streams[ids[n - 1]], env.now);
    }
  }

  lemma AvailableIsNatural(s: Stream, now: U64)
    ensures Withdrawable(s, now).Ok? ==> Withdrawable(s, now).value >= 0
  {
  }

  /** The pre-flight fails only if the sum does not fit. */
  lemma {:induction false} QuoteFits(st: State, env: Env, recipient: Address, ids: seq<U64>, k: nat)
    requires k <= |ids| && Distinct(ids) && E.DrainInOrder(st, env, ids, |ids|).Ok?
    requires forall i :: 0 <= i < |ids| ==> ids[i] in st.streams && st.streams[ids[i]].recipient == recipient
    requires Gained(st, E.DrainInOrder(st, env, ids, |ids|).value, ids, |ids|) <= I128_MAX
    ensures E.QuoteWithdrawals(st, env.now, recipient, ids, k).Ok?
  {
    hide Withdrawable, E.DrainInOrder;
    if k > 0 {
      QuoteFits(st, env, recipient, ids, k - 1);
      QuoteIsGained(st, env, recipient, ids, |ids|, k - 1);
      DrainEffect(st, env, ids, |ids|, k - 1);
      GainedRises(st, env, ids, |ids|, k);
      GainedRises(st, env, ids, k - 1, 0);
      AvailableIsNatural(st.streams[ids[k - 1]], env.now);
    }
  }

  lemma MembersStayBacked(st: State, env: Env, ids: seq<U64>)
    requires MembersHonest(st, env, ids) && E.AllBacked(st, ids) && E.DrainInOrder(st, env, ids, |ids|).Ok?
    requires forall i :: 0 <= i < |ids| ==> ids[i] in st.streams
    ensures E.AllBacked(E.DrainInOrder(st, env, ids, |ids|).value, ids)
  {
    hide Honest, E.DrainInOrder, Backed;
    DrainKeepsTokens(st, env, ids, |ids|);
    forall i | 0 <= i < |ids|
      ensures Backed(E.DrainInOrder(st, env, ids, |ids|).value, st.streams[ids[i]].token)
    {
      DrainKeepsBacking(st, env, ids, |ids|, st.streams[ids[i]].token);
    }
  }

  /**
   * If the members' tokens are honest and covered, the batch succeeds exactly when the
   * single withdrawals all do and their sum, over tokens that may differ, fits an `i128`.
   */
  lemma BatchWithdrawSucceedsIff(st: State, env: Env, recipient: Address, ids: seq<U64>)
    requires MembersHonest(st, env, ids) && E.AllBacked(st, ids)
    requires st.haltedAt.None? && E.ValidBatch(ids).Pass? && recipient in env.auths
    requires forall i :: 0 <= i < |ids| ==> ids[i] in st.streams && st.streams[ids[i]].recipient == recipient
    ensures E.BatchWithdraw(st, env, recipient, ids).Ok?
            <==> WithdrawEach(st, env, ids, |ids|).Ok? && WithdrawEach(st, env, ids, |ids|).value.1 <= I128_MAX
  {
    hide Withdrawable, E.DrainInOrder, WithdrawEach, Honest, MembersHonest, Backed;
    if E.BatchWithdraw(st, env, recipient, ids).Ok? {
      BatchWithdrawIsSingles(st, env, recipient, ids);
    }
    if WithdrawEach(st, env, ids, |ids|).Ok? && WithdrawEach(st, env, ids, |ids|).value.1 <= I128_MAX {
      SinglesAreDrains(st, env, ids, |ids|);
      QuoteFits(st, env, recipient, ids, |ids|);
      MembersStayBacked(st, env, ids);
    }
  }

  /**
   * Why duplicates must be refused: applying a second withdrawal from a copy
   * taken before the first pays twice and records once, and the pool no longer
   * matches what the streams owe.
   */
  lemma StaleCopyBreaksThePool(st: State, env: Env, id: U64, payout: I128)
    requires Inv(st, env.now) && id in st.streams && 0 < payout
    requires E.ApplyWithdrawal(st, env, id, st.streams[id], payout).Ok?
    requires var st1 := E.ApplyWithdrawal(st, env, id, st.streams[id], payout).value;
             E.ApplyWithdrawal(st1, env, id, st.streams[id], payout).Ok?
    ensures var st1 := E.ApplyWithdrawal(st, env, id, st.streams[id], payout).value;
            var st2 := E.ApplyWithdrawal(st1, env, id, st.streams[id], payout).value;
            var token := st.streams[id].token;
            && Pooled(st2, token) == Pooled(st, token) - 2 * payout
            && Owed(st2.streams, token, st2.nextId) == Owed(st.streams, token, st.nextId) - payout
            && !PoolExact(st2)
  {
    hide LogComplete, StreamsShaped;
    var s := st.streams[id];
    var st1 := E.ApplyWithdrawal(st, env, id, s, payout).value;
    var st2 := E.ApplyWithdrawal(st1, env, id, s, payout).value;
    var s' := Drawn(s, payout, env.now).value;
    StaleCopyState(st, env, id, s, payout);
    OwedAfterSave(st.streams, id, s', s.token, st.nextId);
  }

  lemma StaleCopyState(st: State, env: Env, id: U64, s: Stream, payout: I128)
    requires id in st.streams && E.ApplyWithdrawal(st, env, id, s, payout).Ok?
    requires E.ApplyWithdrawal(E.ApplyWithdrawal(st, env, id, s, payout).value, env, id, s, payout).Ok?
    ensures Drawn(s, payout, env.now).Ok?
    ensures var st2 := E.ApplyWithdrawal(E.ApplyWithdrawal(st, env, id, s, payout).value, env, id, s, payout).value;
            && st2.streams == st.streams[id := Drawn(s, payout, env.now).value]
            && st2.nextId == st.nextId
            && Pooled(st2, s.token) == Pooled(st, s.token) - 2 * payout
  {
  }

  // ---- batch_cancel ----------------------------------------------------

  /** Stream `s` settled at `now` at its own quote. */
  predicate SettledAs(s: Stream, now: U64, s': Stream) {
    QuoteCancel(s, now).Ok? && s' == Collapsed(s, now, QuoteCancel(s, now).value.0)
  }

  lemma CancelOneEffect(st: State, env: Env, id: U64)
    requires E.CancelOne(st, env, id).Ok?
    ensures var (st', refund) := E.CancelOne(st, env, id).value;
            && id in st.streams && id in st'.streams
            && SettledAs(st.streams[id], env.now, st'.streams[id])
            && refund == QuoteCancel(st.streams[id], env.now).value.1
  {
  }

  lemma CancelOneFrame(st: State, env: Env, id: U64, other: U64)
    requires E.CancelOne(st, env, id).Ok?
    ensures var st' := E.CancelOne(st, env, id).value.0;
            st'.haltedAt == st.haltedAt && (other != id ==> Untouched(st, st', other))
  {
  }

  lemma {:induction false} CancelTouchesOnly(st: State, env: Env, ids: seq<U64>, n: nat, id: U64)
    requires n <= |ids| && E.CancelInOrder(st, env, ids, n).Ok?
    requires forall i :: 0 <= i < n ==> ids[i] != id
    ensures Untouched(st, E.CancelInOrder(st, env, ids, n).value.0, id)
    ensures E.CancelInOrder(st, env, ids, n).value.0.haltedAt == st.haltedAt
  {
    hide E.CancelOne;
    if n > 0 {
      CancelTouchesOnly(st, env, ids, n - 1, id);
      CancelOneFrame(E.CancelInOrder(st, env, ids, n - 1).value.0, env, ids[n - 1], id);
    }
  }

  /** Each member settles at the price quoted before the batch. */
  lemma {:induction false} CancelEffect(st: State, env: Env, ids: seq<U64>, n: nat, i: nat, s: Stream)
    requires i < n <= |ids| && Distinct(ids) && E.CancelInOrder(st, env, ids, n).Ok?
    requires ids[i] in st.streams && s == st.streams[ids[i]]
    ensures var st' := E.CancelInOrder(st, env, ids, n).value.0;
            ids[i] in st'.streams && SettledAs(s, env.now, st'.streams[ids[i]])
  {
    hide E.CancelOne, SettledAs;
    var st1 := E.CancelInOrder(st, env, ids, n - 1).value.0;
    if i == n - 1 {
      CancelTouchesOnly(st, env, ids, n - 1, ids[i]);
      CancelOneEffect(st1, env, ids[i]);
    } else {
      CancelEffect(st, env, ids, n - 1, i, s);
      CancelOneFrame(st1, env, ids[n - 1], ids[i]);
    }
  }

  /** The quoted total is the sum of the refunds paid in order. */
  lemma {:induction false} QuoteIsRefunded(st: State, env: Env, ids: seq<U64>, n: nat)
    requires n <= |ids| && Distinct(ids) && E.CancelInOrder(st, env, ids, n).Ok?
    requires E.QuoteCancels(st, env.now, ids, n).Ok?
    ensures var q := E.QuoteCancels(st, env.now, ids, n).value;
            q.Priced? && q.total == E.CancelInOrder(st, env, ids, n).value.1
  {
    hide E.CancelOne, QuoteCancel;
    if n > 0 {
      QuoteIsRefunded(st, env, ids, n - 1);
      CancelTouchesOnly(st, env, ids, n - 1, ids[n - 1]);
      CancelOneEffect(E.CancelInOrder(st, env, ids, n - 1).value.0, env, ids[n - 1]);
    }
  }

  /** A refusal names the least index whose quote fails, with that quote's error. */
  lemma {:induction false} RefusalIsFirst(st: State, now: U64, ids: seq<U64>, n: nat)
    requires n <= |ids| && E.QuoteCancels(st, now, ids, n).Ok?
    ensures var q := E.QuoteCancels(st, now, ids, n).value;
            match q
            case Priced(_) =>
              forall i :: 0 <= i < n ==> ids[i] in st.streams && QuoteCancel(st.streams[ids[i]], now).Ok?
            case RefusedAt(k, reason) =>
              && k < n && ids[k] in st.streams && QuoteCancel(st.streams[ids[k]], now) == Err(reason)
              && forall i :: 0 <= i < k ==> ids[i] in st.streams && QuoteCancel(st.streams[ids[i]], now).Ok?
  {
    if n > 0 {
      RefusalIsFirst(st, now, ids, n - 1);
    }
  }

  lemma BatchCancelRefuses(st: State, env: Env, sender: Address, ids: seq<U64>)
    requires E.BatchCancel(st, env, sender, ids).Ok?
    requires E.BatchCancel(st, env, sender, ids).value.1.refusedIndex.Some?
    ensures var (st', outcome) := E.BatchCancel(st, env, sender, ids).value;
            var k := outcome.refusedIndex.value;
            && st' == st && outcome.refunded == 0 && k < |ids| && ids[k] in st.streams
            && outcome.refusedReason.Some?
            && QuoteCancel(st.streams[ids[k]], env.now) == Err(outcome.refusedReason.value)
            && forall i :: 0 <= i < k ==> ids[i] in st.streams && QuoteCancel(st.streams[ids[i]], env.now).Ok?
  {
    RefusalIsFirst(st, env.now, ids, |ids|);
  }

  /**
   * A settled batch leaves every member exactly as its own cancel at the same
   * instant would, leaves every other stream alone, and returns the refunds summed.
   */
  lemma BatchCancelSettles(st: State, env: Env, sender: Address, ids: seq<U64>)
    requires E.BatchCancel(st, env, sender, ids).Ok?
    requires E.BatchCancel(st, env, sender, ids).value.1.refusedIndex.None?
    ensures var (st', outcome) := E.BatchCancel(st, env, sender, ids).value;
            && (forall i :: 0 <= i < |ids| ==>
                  && ids[i] in st.streams && ids[i] in st'.streams
                  && st.streams[ids[i]].sender == sender
                  && SettledAs(st.streams[ids[i]], env.now, st'.streams[ids[i]]))
            && (forall id :: id !in ids ==> Untouched(st, st', id))
            && E.CancelInOrder(st, env, ids, |ids|).Ok?
            && outcome.refunded == E.CancelInOrder(st, env, ids, |ids|).value.1
  {
    var st' := E.BatchCancel(st, env, sender, ids).value.0;
    QuoteIsRefunded(st, env, ids, |ids|);
    forall i | 0 <= i < |ids|
      ensures ids[i] in st.streams && ids[i] in st'.streams && st.streams[ids[i]].sender == sender
      ensures SettledAs(st.streams[ids[i]], env.now, st'.streams[ids[i]])
    {
      OwnedIdsExist(st, sender, ids, |ids|, i);
      CancelEffect(st, env, ids, |ids|, i, st.streams[ids[i]]);
    }
    forall id | id !in ids
      ensures Untouched(st, st', id)
    {
      CancelTouchesOnly(st, env, ids, |ids|, id);
    }
  }

  /** The single entry point `cancel` on each id in order. */
  function CancelEach(st: State, env: Env, ids: seq<U64>, n: nat): Result<State>
    requires n <= |ids|
  {
    if n == 0 then Ok(st)
    else
      var st1 :- CancelEach(st, env, ids, n - 1);
      var (st2, _) :- E.Cancel(st1, env, ids[n - 1]);
      Ok(st2)
  }

  /** On an unhalted contract the settling steps are the single cancels, failures and token calls included. */
  lemma {:induction false} CancelsAreSingles(st: State, env: Env, sender: Address, ids: seq<U64>, n: nat)
    requires n <= |ids| && Distinct(ids) && st.haltedAt.None? && sender in env.auths
    requires forall i :: 0 <= i < |ids| ==> ids[i] in st.streams && st.streams[ids[i]].sender == sender
    ensures CancelEach(st, env, ids, n).Ok? == E.CancelInOrder(st, env, ids, n).Ok?
    ensures CancelEach(st, env, ids, n).Ok? ==>
              CancelEach(st, env, ids, n).value == E.CancelInOrder(st, env, ids, n).value.0
    ensures CancelEach(st, env, ids, n).Err? ==>
              CancelEach(st, env, ids, n).error == E.CancelInOrder(st, env, ids, n).error
  {
    hide E.CancelLoaded;
    if n > 0 {
      CancelsAreSingles(st, env, sender, ids, n - 1);
      if E.CancelInOrder(st, env, ids, n - 1).Ok? {
        CancelTouchesOnly(st, env, ids, n - 1, ids[n - 1]);
      }
    }
  }

  lemma {:induction false} OwnedIdsExist(st: State, sender: Address, ids: seq<U64>, n: nat, i: nat)
    requires i < n <= |ids| && E.OwnedBy(st, sender, ids, n).Pass?
    ensures ids[i] in st.streams && st.streams[ids[i]].sender == sender
  {
    if i < n - 1 {
      OwnedIdsExist(st, sender, ids, n - 1, i);
    }
  }

  lemma BatchCancelIsSingles(st: State, env: Env, sender: Address, ids: seq<U64>)
    requires st.haltedAt.None? && E.BatchCancel(st, env, sender, ids).Ok?
    requires E.BatchCancel(st, env, sender, ids).value.1.refusedIndex.None?
    ensures CancelEach(st, env, ids, |ids|) == Ok(E.BatchCancel(st, env, sender, ids).value.0)
  {
    forall i | 0 <= i < |ids|
      ensures ids[i] in st.streams && st.streams[ids[i]].sender == sender
    {
      OwnedIdsExist(st, sender, ids, |ids|, i);
    }
    CancelsAreSingles(st, env, sender, ids, |ids|);
  }

  /** The refunds of the first `n` members, each at its own quote. */
  function Refunds(st: State, now: U64, ids: seq<U64>, n: nat): int
    requires n <= |ids|
  {
    if n == 0 then 0
    else
      Refunds(st, now, ids, n - 1) +
      if ids[n - 1] in st.streams && QuoteCancel(st.streams[ids[n - 1]], now).Ok?
      then QuoteCancel(st.streams[ids[n - 1]], now).value.1 else 0
  }

  lemma {:induction false} RefundsRise(st: State, now: U64, ids: seq<U64>, k: nat, n: nat)
    requires StreamsShaped(st, now) && k <= n <= |ids|
    ensures 0 <= Refunds(st, now, ids, k) <= Refunds(st, now, ids, n)
    decreases n
  {
    hide QuoteCancel, Shape;
    if n > 0 && ids[n - 1] in st.streams {
      RefundIsNatural(st.streams[ids[n - 1]], now);
    }
    if k < n {
      RefundsRise(st, now, ids, k, n - 1);
    } else if n > 0 {
      RefundsRise(st, now, ids, n - 1, n - 1);
    }
  }

  lemma RefundIsNatural(s: Stream, now: U64)
    requires Shape(s, now)
    ensures QuoteCancel(s, now).Ok? ==> 0 <= QuoteCancel(s, now).value.1
  {
    if QuoteCancel(s, now).Ok? {
      CancelQuote(s, now);
    }
  }

  /** If every member can be priced, the pricing fails only for a sum that does not fit. */
  lemma {:induction false} PricingIsRefunds(st: State, now: U64, ids: seq<U64>, n: nat)
    requires StreamsShaped(st, now) && n <= |ids|
    requires forall i :: 0 <= i < n ==> ids[i] in st.streams && QuoteCancel(st.streams[ids[i]], now).Ok?
    ensures Refunds(st, now, ids, n) <= I128_MAX <==> E.QuoteCancels(st, now, ids, n).Ok?
    ensures E.QuoteCancels(st, now, ids, n).Ok? ==>
              && E.QuoteCancels(st, now, ids, n).value.Priced?
              && E.QuoteCancels(st, now, ids, n).value.total == Refunds(st, now, ids, n)
  {
    hide QuoteCancel, Shape;
    if n > 0 {
      PricingIsRefunds(st, now, ids, n - 1);
      RefundsRise(st, now, ids, n - 1, n);
    }
  }

  lemma {:induction false} OwnersPass(st: State, sender: Address, ids: seq<U64>, n: nat)
    requires n <= |ids| && forall i :: 0 <= i < n ==> ids[i] in st.streams && st.streams[ids[i]].sender == sender
    ensures E.OwnedBy(st, sender, ids, n).Pass?
  {
    if n > 0 {
      OwnersPass(st, sender, ids, n - 1);
    }
  }

  /** Settled, not refused: every member was cancelled. */
  predicate Settled(r: Result<(State, BatchCancelOutcome)>) {
    r.Ok? && r.value.1.refusedIndex.None?
  }

  /**
   * On an unhalted contract a valid, owned and authorized batch settles exactly when
   * the single cancels all succeed and their refunds, summed, fit an `i128`.
   */
  lemma BatchCancelSettlesIff(st: State, env: Env, sender: Address, ids: seq<U64>)
    requires StreamsShaped(st, env.now) && st.haltedAt.None? && E.ValidBatch(ids).Pass? && sender in env.auths
    requires forall i :: 0 <= i < |ids| ==> ids[i] in st.streams && st.streams[ids[i]].sender == sender
    ensures Settled(E.BatchCancel(st, env, sender, ids))
            <==> CancelEach(st, env, ids, |ids|).Ok? && Refunds(st, env.now, ids, |ids|) <= I128_MAX
  {
    hide CancelEach, E.CancelInOrder, Refunds, QuoteCancel;
    OwnersPass(st, sender, ids, |ids|);
    CancelsAreSingles(st, env, sender, ids, |ids|);
    if E.CancelInOrder(st, env, ids, |ids|).Ok? {
      forall i | 0 <= i < |ids|
        ensures QuoteCancel(st.streams[ids[i]], env.now).Ok?
      {
        CancelEffect(st, env, ids, |ids|, i, st.streams[ids[i]]);
      }
      PricingIsRefunds(st, env.now, ids, |ids|);
    }
  }
}
