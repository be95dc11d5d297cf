// Everything the contract keeps on chain, the tokens it deals with, and the
// storage and pool primitives of `storage.rs` on that state.
module Ledger {
  import opened Prelude
  import opened Types
  import opened Events

  // ---- Tokens ----------------------------------------------------------

  /** The contract's own balance in each token, as the token reports it. */
  type Bank = map<Address, I128>

  /** One `transfer` the contract asks a token for. */
  datatype Move =
    | Pull(token: Address, from: Address, amount: I128)
    | Pay(token: Address, to: Address, amount: I128)

  datatype Outcome = Moved | Refused | Trapped

  /** A token's answer: the outcome, and the balances as they are afterwards. */
  datatype Reply = Reply(outcome: Outcome, bank: Bank)

  /**
   * What the token contracts do, with no promise at all: the answer may depend on
   * the whole history of moves, and may leave any balances behind.
   */
  type Host = (seq<Move>, Bank, Move) -> Reply

  /** One invocation: the ledger time, who authorized it, and the tokens. */
  datatype Env = Env(now: U64, auths: set<Address>, host: Host, maxTtl: U32)

  function BalanceOf(bank: Bank, token: Address): I128 {
    if token in bank then bank[token] else 0
  }

  // ---- State -----------------------------------------------------------

  datatype State = State(
    streams: map<U64, Stream>,
    nextId: U64,
    count: U64,
    pooled: map<Address, I128>,
    grants: map<(U64, Address), DelegateGrant>,
    operator: Option<Address>,
    haltedAt: Option<U64>,
    log: seq<Event>,
    bank: Bank,
    moves: seq<Move>)

  const EMPTY: State := State(map[], 0, 0, map[], map[], None, None, [], map[], [])

  function Load(st: State, id: U64): Result<Stream> {
    if id in st.streams then Ok(st.streams[id]) else Err(StreamNotFound)
  }

  /** `save_stream`: a new id also advances both counters. */
  function Save(st: State, id: U64, s: Stream): State
    requires id in st.streams || st.nextId < U64_MAX
  {
    var st1 := st.(streams := st.streams[id := s]);
    if id in st.streams then st1 else st1.(nextId := st.nextId + 1, count := st.nextId + 1)
  }

  function Emit(st: State, e: Event): State {
    st.(log := st.log + [e])
  }

  // ---- Pool ------------------------------------------------------------

  function Pooled(st: State, token: Address): I128 {
    if token in st.pooled then st.pooled[token] else 0
  }

  function CreditPool(st: State, token: Address, amount: I128): Result<State> {
    var next :- CheckedI128(Pooled(st, token) + amount);
    Ok(st.(pooled := st.pooled[token := next]))
  }

  function DebitPool(st: State, token: Address, amount: I128): Result<State> {
    var next :- CheckedI128(Pooled(st, token) - amount);
    Ok(st.(pooled := st.pooled[token := next]))
  }

  // ---- Token calls -----------------------------------------------------

  function TokenTransfer(st: State, env: Env, move: Move): Result<State> {
    var reply := env.host(st.moves, st.bank, move);
    match reply.outcome
    case Moved => Ok(st.(bank := reply.bank, moves := st.moves + [move]))
    case Refused => Err(TokenTransferFailed)
    case Trapped => Err(TokenMissing)
  }

  /** Pull a deposit and require the balance to have grown by exactly that much. */
  function PullDeposit(st: State, env: Env, token: Address, from: Address, amount: I128): Result<State> {
    var before := BalanceOf(st.bank, token);
    var st1 :- TokenTransfer(st, env, Pull(token, from, amount));
    var received :- CheckedI128(BalanceOf(st1.bank, token) - before);
    :- Need(received == amount, TokenAmountMismatch);
    CreditPool(st1, token, amount)
  }

  predicate Backed(st: State, token: Address) {
    BalanceOf(st.bank, token) >= Pooled(st, token)
  }

  function VerifyPool(st: State, token: Address): Check {
    Need(Backed(st, token), PoolBalanceDrift)
  }

  // ---- Sums ------------------------------------------------------------

  /** What stream `s` has outstanding in `token`. */
  function Debt(s: Stream, token: Address): int {
    if s.token == token then s.deposited - s.withdrawn else 0
  }

  /** The outstanding amounts in `token` of all streams below `n`. */
  function Owed(streams: map<U64, Stream>, token: Address, n: nat): int {
    if n == 0 then 0
    else Owed(streams, token, n - 1) + if n - 1 in streams then Debt(streams[n - 1], token) else 0
  }

  /** The signed amount a move brings into the contract, in `token`. */
  function Flow(m: Move, token: Address): int {
    var amount: int := m.amount;
    if m.token != token then 0 else if m.Pull? then amount else -amount
  }

  /** What the contract pulled in less what it paid out, in `token`. */
  function Net(moves: seq<Move>, token: Address): int {
    if |moves| == 0 then 0 else Net(moves[..|moves| - 1], token) + Flow(moves[|moves| - 1], token)
  }

  /** The signed amount a move gives to account `who`, in `token`. */
  function Gift(m: Move, who: Address, token: Address): int {
    var amount: int := m.amount;
    match m
    case Pull(t, from, _) => if t == token && from == who then -amount else 0
    case Pay(t, to, _) => if t == token && to == who then amount else 0
  }

  /** What account `who` got from the contract less what it gave, in `token`. */
  function Given(moves: seq<Move>, who: Address, token: Address): int {
    if |moves| == 0 then 0 else Given(moves[..|moves| - 1], who, token) + Gift(moves[|moves| - 1], who, token)
  }

  lemma {:induction false} OwedAfterSave(streams: map<U64, Stream>, id: U64, s: Stream, token: Address, n: nat)
    ensures Owed(streams[id := s], token, n) == Owed(streams, token, n) +
            if id < n then Debt(s, token) - (if id in streams then Debt(streams[id], token) else 0) else 0
  {
    if n > 0 {
      OwedAfterSave(streams, id, s, token, n - 1);
    }
  }

  lemma NetAfter(moves: seq<Move>, m: Move, token: Address)
    ensures Net(moves + [m], token) == Net(moves, token) + Flow(m, token)
  {
    assert (moves + [m])[..|moves|] == moves;
  }

  lemma GivenAfter(moves: seq<Move>, m: Move, who: Address, token: Address)
    ensures Given(moves + [m], who, token) == Given(moves, who, token) + Gift(m, who, token)
  {
    assert (moves + [m])[..|moves|] == moves;
  }

  /** If no stream owes a negative amount, the sum bounds each of its terms. */
  lemma {:induction false} OwedBoundsDebt(streams: map<U64, Stream>, id: U64, token: Address, n: nat)
    requires forall k :: k in streams ==> Debt(streams[k], token) >= 0
    ensures Owed(streams, token, n) >= 0
    ensures id in streams && id < n ==> Owed(streams, token, n) >= Debt(streams[id], token)
  {
    if n > 0 {
      OwedBoundsDebt(streams, id, token, n - 1);
    }
  }
}
