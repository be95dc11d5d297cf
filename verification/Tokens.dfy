// What the answer of a token has to be for a deposit or a payment to go through.
module Tokens {
  import opened Prelude
  import opened Types
  import opened Ledger
  import opened Solvency

  function Answer(st: State, env: Env, m: Move): Reply {
    env.host(st.moves, st.bank, m)
  }

  /** The token moves the deposit, the balance grows by exactly that much, and the pool counter has room. */
  predicate Delivers(st: State, env: Env, token: Address, from: Address, amount: int)
    requires 0 < amount <= I128_MAX
  {
    var reply := Answer(st, env, Pull(token, from, amount));
    && reply.outcome == Moved
    && BalanceOf(reply.bank, token) - BalanceOf(st.bank, token) == amount
    && Pooled(st, token) + amount <= I128_MAX
  }

  /** The pool is credited, the token's answer is in force, and the move is on record; nothing else happened. */
  predicate Deposited(st: State, st': State, env: Env, token: Address, from: Address, amount: int)
    requires 0 < amount <= I128_MAX
  {
    && Pooled(st, token) + amount <= I128_MAX
    && st' == st.(pooled := st.pooled[token := Pooled(st, token) + amount],
                  bank := Answer(st, env, Pull(token, from, amount)).bank,
                  moves := st.moves + [Pull(token, from, amount)])
  }

  /** A deposit is taken exactly when the token delivers it; otherwise the error says what it did instead. */
  lemma PullIff(st: State, env: Env, token: Address, from: Address, amount: I128)
    requires 0 < amount
    ensures var r := PullDeposit(st, env, token, from, amount);
            var reply := Answer(st, env, Pull(token, from, amount));
            var received := BalanceOf(reply.bank, token) - BalanceOf(st.bank, token);
            && (r.Ok? <==> Delivers(st, env, token, from, amount))
            && (r.Ok? ==> Deposited(st, r.value, env, token, from, amount))
            && (r == Err(TokenTransferFailed) <==> reply.outcome == Refused)
            && (r == Err(TokenMissing) <==> reply.outcome == Trapped)
            && (r == Err(TokenAmountMismatch)
                <==> reply.outcome == Moved && received != amount && I128_MIN <= received <= I128_MAX)
            && (r.Err? ==> r.error in {TokenTransferFailed, TokenMissing, TokenAmountMismatch, Overflow})
  {
  }

  /** The token makes the payment and leaves what the pool then owes, and the pool counter does not underflow. */
  predicate PaysOut(st: State, env: Env, token: Address, to: Address, amount: int)
    requires 0 < amount <= I128_MAX
  {
    var reply := Answer(st, env, Pay(token, to, amount));
    && I128_MIN <= Pooled(st, token) - amount
    && reply.outcome == Moved
    && Pooled(st, token) - amount <= BalanceOf(reply.bank, token)
  }

  /** Why a payment that does not go through fails: the counter, the token, or what the token left behind. */
  predicate PayErrors<T(!new)>(st: State, env: Env, token: Address, to: Address, amount: int, r: Result<T>)
    requires 0 < amount <= I128_MAX
  {
    var reply := Answer(st, env, Pay(token, to, amount));
    var counted := I128_MIN <= Pooled(st, token) - amount;
    && (!counted ==> r == Err(Overflow))
    && (counted && reply.outcome == Refused ==> r == Err(TokenTransferFailed))
    && (counted && reply.outcome == Trapped ==> r == Err(TokenMissing))
    && (counted && reply.outcome == Moved && BalanceOf(reply.bank, token) < Pooled(st, token) - amount ==>
          r == Err(PoolBalanceDrift))
  }

  /** The pool is debited, the token's answer is in force, and the move is on record. */
  predicate Paid(st: State, st': State, env: Env, token: Address, to: Address, amount: int)
    requires 0 < amount <= I128_MAX
  {
    && I128_MIN <= Pooled(st, token) - amount
    && st' == st.(pooled := st.pooled[token := Pooled(st, token) - amount],
                  bank := Answer(st, env, Pay(token, to, amount)).bank,
                  moves := st.moves + [Pay(token, to, amount)])
  }

  /** With exact transfers a deposit goes through unless balance or counter would overflow. */
  lemma ExactDelivers(st: State, env: Env, token: Address, from: Address, amount: I128)
    requires env.host == EXACT && 0 < amount
    ensures Delivers(st, env, token, from, amount)
            <==> BalanceOf(st.bank, token) + amount <= I128_MAX && Pooled(st, token) + amount <= I128_MAX
  {
  }

  /** And a payment, unless the balance does not cover it or the pool. */
  lemma ExactPaysOut(st: State, env: Env, token: Address, to: Address, amount: I128)
    requires env.host == EXACT && 0 < amount
    ensures PaysOut(st, env, token, to, amount)
            <==> && amount <= BalanceOf(st.bank, token) && Backed(st, token)
                 && I128_MIN <= Pooled(st, token) - amount
  {
  }
}
