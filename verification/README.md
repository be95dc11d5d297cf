# Fluxora stream contract: a verified model

Fluxora streams a token deposit from a sender to a recipient along a schedule.
A stream's clock stops while it is paused; one of three release curves says how
much of the deposit has vested at each point of that clock; a cliff, on either
of two clocks, gates it. One contract holds all streams, keeps their deposits in
one pool per token, and publishes events from which an indexer is meant to
rebuild everything. This project models that contract with its exact integer
arithmetic and its error order, and proves what it is for over every run. A
second, small part proves the calendar conversion of the provenance tool.

## How it is built

- `Prelude`, `Arith`: machine integers with the checked, saturating and
  truncating operations written out, and the few facts about floors of quotients
  the proofs need.
- `Types`, `Accrual`, `StreamOps`: the entities, the accrual functions with every
  overflow branch, and what each entry point does to one stream.
- `Events`, `Ledger`, `Storage`, `Rent`: the event payloads and the indexer's
  fold; the contract's whole state, its pool and its token calls; the side-car
  encoding; the time-to-live arithmetic.
- `EntryPoints`: the entry points as functions from a state and an environment
  (ledger time, authorizing addresses, the tokens) to a result. The tokens are one
  function of the whole history of moves: a transfer may succeed, be refused or
  trap, and may leave any balances at all behind.
- `Contract`: the class `FluxoraStream`, with the stored maps as fields and one
  method per entry point, written step by step as `lib.rs` writes it and proved to
  do what `EntryPoints` says. `Submit` adds the host's rollback and `Serve` runs a
  whole history.
- `Curves`, `StreamState`, `StreamLaws`, `TopUps`: the laws of one stream.
- `Outcomes`, `Tokens`, `Creation`, `Grants`, `Calls`: what every operation does, in
  the stored fields and the arguments alone: exactly when it succeeds, the whole state
  it leaves, and the error it gives otherwise, with any tokens whatever.
- `Invariant`, `Runs`, `Histories`, `Solvency`, `Delegation`, `Batches`,
  `BatchSolvency`, `Authority`, `Debts`, `Announcements`: the laws of the contract
  over runs, where a run is any sequence of invocations at non-decreasing times,
  successful or rolled back, with the tokens' balances changing in between as they
  please.
- `Scenarios`: two concrete runs, one that meets every hypothesis of the liveness
  theorem and one in which a stream ends short and another's recipient is refused.
- `Calendar`: the date conversion and the timestamp built on it.

The invariant has two layers. The first (`Invariant.Inv`) holds in every run
without exception: ids without gaps, every stream well-shaped, the pool exact, the
log complete and truthful, every account paid as the log says. The second
(`withdrawn <= vested`, and vested never going back at a fixed instant) is stated
stream by stream, and only one kind of call can break it: a delegated top-up of that
very stream, and only when it does harm (`Runs.HarmBy`). Whether it does is decided by
one closed form in the fields before the call, what will have vested on the longer
schedule (`StreamLaws.StretchedAmount`): the call leaves the stream overdrawn exactly
when that is less than what was paid (`StreamLaws.Overdraws`), and takes vested amounts
back exactly when it is less than what has vested (`StreamLaws.Lowers`). Linear streams
are never harmed, and calls that fail or concern other streams do not matter.

An overdrawn stream harms nobody else until it is cancelled. A stream owes a negative
amount exactly when some call cancelled it while more had been paid than had vested
(`Debts.EndedShort`); a pool covers all claims on it exactly when no stream in its token
ended that way.

What is promised with exact-transfer tokens is stated per token: only the token of the
streams in question is taken to be honest (`Solvency.Honest`); any other token, and
its streams, may do as they please.

## Where the code and its documentation differ

The model follows the code.

- `types.rs:126-128` says a FrontLoaded recipient is always at or ahead of linear.
  The thousandth grid floors to zero at first: it holds exactly when
  `1000 * consumed >= duration` or linear has released nothing yet
  (`Curves.FrontLoadedAheadOfLinear`). The curve is also complete from the 969th
  thousandth on (`Curves.FrontLoadedCompletesEarly`), so a depleted stream need not
  be mature.
- `lib.rs:2095-2098` says two top-ups equal one of twice the amount. They extend by
  the same seconds each, but equal the one exactly when the remainder of the
  floored extension is below half the deposit (`TopUps.TwiceIsDoubleIff`).
- `accrual.rs:41-53` states I1 and I3 for every entry point. `delegate_top_up`
  (`lib.rs:2104-2176`) lengthens the schedule whatever the curve and does not
  re-check vested, so on Step and FrontLoaded streams it can leave more paid than
  vested (`TopUps.DelegatedTopUpOverdraws`; `StreamLaws.DelegatedTopUpHarmsIff` says
  exactly when), and a cancel then leaves the pool short of what the other streams are
  owed (`Debts.PoolCoversAllIff`, `Scenarios.BystanderGoesUnpaid`).
- `storage.rs:141-145` states the margin as full coverage down to 25/6 seconds per
  ledger. Flooring the inflation loses a fraction of a second for four residues out
  of twenty-five (`Rent.StatedMarginHoldsIff`).
- `reclaim_dust` does not debit the pool (`lib.rs:1612-1625`). It never has anything
  to hand back, so nothing is lost (`Histories.ReclaimDustIsANoOp`); the amount it
  reports is negative exactly on streams that ended short (`Debts.DustIffEndedShort`).
- The product `deposited * duration` that creation bounds stays in `i128` for every
  stream that is not cancelled. A cancel after maturity moves the end out to the
  clock and may outgrow it (`StreamLaws.CancelledProductFitsIff`); no reading forms
  the product by then, so none fails.
- `batch_cancel` and `reclaim_dust` do not call the halt guard
  (`lib.rs:1401-1410`, `lib.rs:1599-1604`); they do the same halted or not
  (`Authority.HaltDoesNotStopCancels`).
- `now_rfc3339` promises RFC 3339, whose years have four digits; the text has them
  exactly before the year 10000 (`Calendar.TextIsRfc3339Iff`).

## Model

| member | source | states |
|---|---|---|
| Accrual.VestedStepLoop | contracts/stream/src/accrual.rs:242-256 | the counting loop computes the tranche share `VestedStep`; the threshold products fit a `u128` and both products of the split an `i128` |
| Accrual.ShareInRange | contracts/stream/src/accrual.rs:232-256 | splitting a share into quotient and remainder gives exactly `floor(x * k / m)`, between zero and `x`, and never leaves the range of `x` for negative `x` either |
| Accrual.ShareNeverOverflows | contracts/stream/src/accrual.rs:250-271 | for every `i128` deposit and every share of at most a thousandth grid, both intermediate products of the split stay in `i128` |
| Curves.CountIsQuotient | contracts/stream/src/accrual.rs:242-256 | the number of tranches counted open is `min(k, floor(4 * consumed / duration))` |
| Curves.TrancheOpensAt | contracts/stream/src/accrual.rs:246-252 | tranche `k` is open exactly from `ceil(k * duration / 4)` on |
| Curves.ReleasedInRange | contracts/stream/src/accrual.rs:181-271 | every curve releases between zero and the deposit |
| Curves.ReleasedRisesInTime | contracts/stream/src/accrual.rs:44-45 | every curve is monotone in consumed time (I2) |
| Curves.ReleasedRisesInDeposit | contracts/stream/src/lib.rs:1108-1112 | every curve is monotone in the deposit, which is why a top-up of a non-linear stream may keep its end |
| Curves.ReleasedEndpoints | contracts/stream/src/accrual.rs:181-211 | every curve is zero at the start and exactly the deposit from the end on |
| Curves.HeldBackUntilTheEnd | contracts/stream/src/accrual.rs:218-256 | Linear and Step release less than a positive deposit exactly until the end |
| Curves.FrontLoadedAheadOfLinear | contracts/stream/src/types.rs:126-128 | FrontLoaded is at or ahead of Linear if and only if `1000 * consumed >= duration` or Linear has released nothing |
| Curves.FrontLoadedCompletesEarly | contracts/stream/src/accrual.rs:258-271 | FrontLoaded reaches the full deposit if and only if `1000 * consumed >= 969 * duration` |
| Curves.CurvesByMeaning | contracts/stream/src/accrual.rs:218-271 | before the end Linear is the time share of the deposit rounded down, Step a quarter of it for each full quarter of the time, and FrontLoaded holds back the square of the remaining thousandths rounded down |
| StreamState.StepIsReleased | contracts/stream/src/accrual.rs:242-256 | `vested_step` is `floor(deposited * floor(4 * consumed / duration) / 4)`, with every intermediate product in its machine type |
| StreamState.FrontLoadedIsReleased | contracts/stream/src/accrual.rs:258-271 | `vested_front_loaded` is `floor(deposited * grid / 1000)`, with `1000 * consumed` in `u128`, point and curve in `[0, 1000]`, and both products of the split in `i128` |
| StreamState.VestedIsAmount | contracts/stream/src/accrual.rs:181-211 | on every well-shaped stream `vested` does not fail and equals the closed form, between zero and the deposit |
| StreamState.VestedFromFields | contracts/stream/src/accrual.rs:113-211 | vested from the stored fields alone: zero before the gate or the start, the deposit from the end on, the curve in between, on a clock that stands still while paused |
| StreamState.ReadingsNeverFail | contracts/stream/src/accrual.rs:278-304 | `withdrawable`, `refundable` and `liability` do not fail and are the differences they are meant to be (I4) |
| StreamState.AmountRisesInTime | contracts/stream/src/accrual.rs:44-45 | for a fixed stream vested never decreases in time, cliff gate included (I2) |
| StreamState.ClockIsExact | contracts/stream/src/accrual.rs:113-119 | the stream clock of a well-shaped stream is an exact difference: the saturation never fires |
| StreamState.TerminalIsFullyVested | contracts/stream/src/accrual.rs:181-211 | a terminal stream vests exactly its deposit, from the moment it is terminal on |
| StreamLaws.CreationGuards | contracts/stream/src/lib.rs:684-777 | a stream that passes the creation guards satisfies the invariant, and its creation event announces it in full |
| StreamLaws.TopUpDominates | contracts/stream/src/lib.rs:1000-1012 | at every instant and on every curve, the extended schedule has vested at least what the old one had |
| StreamLaws.TopUpSound | contracts/stream/src/lib.rs:1034-1099 | `top_up` keeps the stream's invariant, continues its history, lowers no vested amount, and its event replays and describes the change |
| StreamLaws.DelegateTopUpSound | contracts/stream/src/lib.rs:2104-2176 | `delegate_top_up` keeps the invariant on every curve and I1 and I3 on Linear |
| StreamLaws.DelegatedTopUpHarmsIff | contracts/stream/src/lib.rs:2127-2164 | call by call, on every curve: a delegated top-up leaves the stream covered if and only if what was paid is at most what the lengthened schedule will have vested now, and keeps I3 if and only if what has vested is; on Linear it always does |
| StreamLaws.ExtensionKeepsRate | contracts/stream/src/lib.rs:1071-1077 | a floored extension keeps `deposited >= duration`, so `top_up`'s rate guard cannot fire |
| StreamLaws.DrawingKeepsVested | contracts/stream/src/lib.rs:2649-2680 | a withdrawal, a drain that closes a pause included, changes vested at no present or future instant |
| StreamLaws.DrawSound | contracts/stream/src/lib.rs:2649-2699 | a withdrawal keeps the invariant, raises `withdrawn` by the payout alone, and its event replays and describes it |
| StreamLaws.PayoutIff | contracts/stream/src/lib.rs:1173-1204 | a requested amount is paid if and only if it is positive and at most what is vested and unpaid; a full withdrawal succeeds if and only if there is any |
| StreamLaws.CancelAllowedIff | contracts/stream/src/lib.rs:1493-1504 | a cancel is priced if and only if the stream is cancellable and live |
| StreamLaws.CancelSound | contracts/stream/src/lib.rs:1525-1591 | a cancel, also of a paused, unstarted or pre-cliff stream, keeps the invariant, lowers no vested amount, and its event replays and describes it |
| StreamLaws.CancelIsFinal | contracts/stream/src/lib.rs:1493-1591 | refund and vested split the old deposit; from then on vested is the new deposit, nothing is refundable, and the recipient can draw exactly what was vested and unpaid |
| StreamLaws.CancelledDebtIff | contracts/stream/src/lib.rs:1525-1591 | a priced cancel leaves a debt of at least zero if and only if no more was paid than had vested |
| StreamLaws.CancelledProductFitsIff | contracts/stream/src/lib.rs:728-739 | after a cancel `deposited * duration` fits if and only if the clock had not passed the end, or the deposit times the time since the start fits |
| StreamLaws.CancelledProductCanOverflow | contracts/stream/src/lib.rs:1540-1560 | a one-second stream of 2^126 cancelled a second late no longer satisfies the creation bound |
| StreamLaws.NoDust | contracts/stream/src/lib.rs:1599-1627 | on a terminal stream the dust is never positive, and is zero when no more was paid than vested |
| StreamLaws.PauseSound | contracts/stream/src/lib.rs:1643-1673 | a pause leaves vested unchanged at its instant, keeps the invariant, and cannot be refused by the vested guard |
| StreamLaws.ResumeSound | contracts/stream/src/lib.rs:1677-1713 | a resume of a paused stream cannot overflow, continues the clock where it stopped, and leaves vested unchanged |
| StreamLaws.TransferSound | contracts/stream/src/lib.rs:1744-1796 | a transfer changes the recipient only and cannot be refused by the vested guard |
| TopUps.TopUpErrors | contracts/stream/src/lib.rs:1040-1084 | a direct top-up is refused only for a terminal or mature stream, a bad or too small amount, or overflow; its rate and vested guards never fire |
| TopUps.TopUpNeverLowersVested | contracts/stream/src/lib.rs:1079-1084 | at every present and future instant, on every curve, vested is at least what it was |
| TopUps.TopUpNeverAccelerates | contracts/stream/src/lib.rs:1000-1012 | on a linear stream, up to the old end, vested gains at most one second of rate plus one unit |
| TopUps.TopUpsKeepRate | contracts/stream/src/lib.rs:1054-1077 | after any list of top-ups of a linear stream at non-decreasing instants the deposits add up and the rate is at least the first one |
| TopUps.SplittingDominates | contracts/stream/src/lib.rs:1113-1143 | any list of top-ups at non-decreasing instants ends no later than one of its total, whenever made, with the same deposit, and vests at least as much at every instant |
| TopUps.TwiceIsDoubleIff | contracts/stream/src/lib.rs:2090-2103 | two equal top-ups extend by the same seconds, and equal one of twice the amount if and only if the floored remainder is below half the deposit |
| TopUps.TwiceIsNotAlwaysDouble | contracts/stream/src/lib.rs:2095-2098 | five tokens over two seconds: two top-ups of four end a second before one of eight |
| TopUps.DelegateTopUpAgreesIff | contracts/stream/src/lib.rs:2127-2164 | a delegated top-up that succeeds is the direct one if and only if the curve is Linear |
| TopUps.DelegatedTopUpIsSafeIffLinear | contracts/stream/src/accrual.rs:41-53 | quantified over all calls: every delegated top-up of every covered stream on a curve keeps `withdrawn <= vested` if and only if that curve is Linear; the condition for a single call is `StreamLaws.DelegatedTopUpHarmsIff` |
| TopUps.DelegatedTopUpOverdraws | contracts/stream/src/lib.rs:2127-2164 | on Step and on FrontLoaded, a stream created, drawn and topped up by a delegate ends with more paid than vested |
| Outcomes.NewStreamIff | contracts/stream/src/lib.rs:684-777 | a creation is accepted if and only if its parties differ, deposit and duration are positive, the cliff lies within the schedule, the reference has at most 64 characters, the rate is at least one and the product fits; each of the seventeen fields stored is then the argument that asked for it, or fresh |
| Outcomes.NewStreamErrors | contracts/stream/src/lib.rs:684-745 | which error each refused creation returns |
| Outcomes.NewStreamVests | contracts/stream/src/lib.rs:684-777 | a stream left alone vests nothing before the requested cliff, the deposit from the requested end on, and what the requested curve releases in between |
| Outcomes.PolicyPassesIff | contracts/stream/src/lib.rs:882-958 | a factory passes terms if and only if it is not paused and cap, shortest duration, both rates and the token list allow them; and which error each refusal returns |
| Outcomes.PolicyOnBadTerms | contracts/stream/src/lib.rs:882-958 | terms without a positive deposit or duration skip the rate checks and are refused by the creation guards |
| Outcomes.TopUpIff | contracts/stream/src/lib.rs:1034-1143 | a direct top-up is accepted if and only if the stream is live and before its end, the amount is positive, on Linear alone buys a second at least, and the new figures fit; the exact deposit and end it leaves on every curve, and each error |
| Outcomes.DelegateTopUpIff | contracts/stream/src/lib.rs:2104-2164 | the delegated form likewise, with the bought seconds on every curve |
| Outcomes.PayoutOutcome | contracts/stream/src/lib.rs:1173-1204 | the amount paid, and which error each refused withdrawal returns: `StreamTerminated` and `NothingToWithdraw` are told apart by whether the stream is live |
| Outcomes.DrawnFields | contracts/stream/src/lib.rs:2649-2680 | every field after a payout; only a drain of an uncancelled stream depletes it, and then closes an open pause |
| Outcomes.CancelOutcome | contracts/stream/src/lib.rs:1493-1560 | when a cancel is priced and each error; the deposit left is what had vested, the end the later of start and clock, and no other field moves but status and the open pause |
| Outcomes.PauseOutcome | contracts/stream/src/lib.rs:1643-1673 | a pause is accepted if and only if the stream was created pausable and is active; the record it leaves, and each error |
| Outcomes.ResumeOutcome | contracts/stream/src/lib.rs:1677-1713 | a resume is accepted if and only if the stream is paused; the record it leaves, and each error |
| Outcomes.TransferOutcome | contracts/stream/src/lib.rs:1744-1796 | a transfer is accepted if and only if the stream was created transferable, has something left to pay, and goes to a third party; the record it leaves, and each error |
| Tokens.PullIff | contracts/stream/src/lib.rs:313-337 | a deposit is taken if and only if the token moves it, the balance grows by exactly the amount and the counter has room; each error |
| Tokens.ExactDelivers | contracts/stream/src/lib.rs:313-337 | an exact token delivers unless balance or counter would overflow |
| Tokens.ExactPaysOut | contracts/stream/src/lib.rs:377-384 | an exact token pays unless the balance does not cover the payment or the pool |
| Creation.CreationIff | contracts/stream/src/lib.rs:531-977 | each single creating entry point succeeds if and only if the contract is not halted, the sender signed, the policy passes if there is one, the terms are creatable, an id is left and the token delivers; the whole state it leaves |
| Creation.ValidRequestsIff | contracts/stream/src/lib.rs:785-820 | the up-front validation of a batch fails at the first request that is not well-formed, with the error its creation would give |
| Creation.BatchCreateIff | contracts/stream/src/lib.rs:785-840 | an unhalted, signed batch of one to sixteen well-formed requests is exactly the single creations in order, failures included; and which error any other batch gets |
| Creation.StoredAsOrdered | contracts/stream/src/lib.rs:531-977 | whichever entry point creates it, the stream under the k-th new id is, field by field, the k-th one asked for |
| Creation.OrdersAreKept | contracts/stream/src/lib.rs:684-777 | over any run, a stream keeps the sender, token, start, cliff, clock, flags, curve and reference it was asked for with, and before the requested cliff nothing has vested |
| Grants.CheckOutcome | contracts/stream/src/lib.rs:2567-2583 | when a delegate passes, and which error it gets otherwise |
| Grants.GrantIff | contracts/stream/src/lib.rs:1821-1867 | on an unhalted contract and a live stream a grant succeeds if and only if the grantor holds the one role all its operations belong to and signed; the state it leaves, and each error |
| Grants.RevokeIff | contracts/stream/src/lib.rs:1909-1927 | a revocation succeeds if and only if a current party signs it; it removes the grant of the delegate it names and no other; each error |
| Grants.GrantAcross | contracts/stream/src/lib.rs:1821-1927 | no call touches a delegate's grant on a stream but a grant to or revocation from that very delegate on that stream |
| Grants.GrantIsInForce | contracts/stream/src/lib.rs:1821-1927 | after every run a delegate's grant is that of the last successful call that named this delegate on this stream |
| Grants.RevocationStands | contracts/stream/src/lib.rs:1874-1927 | after a revocation, whatever follows, the delegate is refused every operation on that stream at every time until granted again |
| Grants.GrantStands | contracts/stream/src/lib.rs:1821-1867 | after a grant the delegate passes for exactly the bits named, until exactly the expiry named, whatever follows, until another grant to it or revocation from it on that stream |
| Calls.PauseIff | contracts/stream/src/lib.rs:1643-2056 | both pausing entry points: not halted, sender signed or delegate passes for bit 2, pausable and active; the whole state, and the errors at the gate |
| Calls.ResumeIff | contracts/stream/src/lib.rs:1677-2088 | both resuming entry points, likewise |
| Calls.TransferIff | contracts/stream/src/lib.rs:1744-2244 | both transferring entry points, likewise |
| Calls.TopUpCallIff | contracts/stream/src/lib.rs:1034-1099 | with any token, `top_up` succeeds if and only if it is let in, the stream accepts the amount, the token delivers it and the pool was covered; the whole state it leaves, and each error |
| Calls.DelegateTopUpCallIff | contracts/stream/src/lib.rs:2104-2176 | `delegate_top_up` likewise, with the delegate's bit 4 and the sender's signature |
| Calls.ExactTopUpIff | contracts/stream/src/lib.rs:1034-1099 | with an exact token and a covered pool a top-up the stream accepts fails only if the balance would overflow |
| Calls.WithdrawCallIff | contracts/stream/src/lib.rs:1166-1971 | with any token, both withdrawing entry points succeed if and only if they are let in, what is asked for is positive and due, and the token pays it leaving the pool covered; the whole state they leave, and each error |
| Calls.CancelCallIff | contracts/stream/src/lib.rs:1321-2018 | with any token, both single cancels succeed if and only if they are let in, the stream is cancellable and live, and the refund goes through; the whole state they leave, and each error |
| Calls.ExactCancelIff | contracts/stream/src/lib.rs:1321-1331 | with an exact token and a covered pool a live, cancellable stream is cancelled unless the balance does not cover its refund |
| Calls.BatchMembersEnd | contracts/stream/src/lib.rs:1401-1591 | each member of a settled batch was cancellable and live and ends with the fields its own cancel would leave |
| Calls.ReclaimIff | contracts/stream/src/lib.rs:1599-1627 | `reclaim_dust` succeeds if and only if the stream exists and its sender signed, halted or not, and changes nothing |
| Calls.SetOperatorIff | contracts/stream/src/lib.rs:2450-2458 | the operator is set if and only if there is none and it signed |
| Calls.HaltIff | contracts/stream/src/lib.rs:2487-2512 | halting and resuming: exactly when, the state left, the length logged, and each error |
| Calls.ExtendIff | contracts/stream/src/lib.rs:2339-2362 | anybody may extend the rent of a live stream on an unhalted contract; only the log shows it |
| Calls.ValidBatchIff | contracts/stream/src/lib.rs:2592-2623 | a batch is one to sixteen distinct ids, with an error for each other shape |
| Calls.BatchWithdrawCallIff | contracts/stream/src/lib.rs:1235-1291 | with honest, covered member tokens a batch withdrawal succeeds if and only if the contract is not halted, the batch may enter, and the single withdrawals succeed and their sum fits; the errors at the gate |
| Calls.QuoteOutcome | contracts/stream/src/lib.rs:1235-1262 | the first member that is missing or another recipient's decides the error of a batch withdrawal, unless the sum overflows before it |
| Calls.OwnedByOutcome | contracts/stream/src/lib.rs:1401-1440 | the first member that is missing or another sender's decides the error of a batch cancel |
| Calls.BatchCancelCallIff | contracts/stream/src/lib.rs:1401-1470 | halted or not, with any tokens, a batch is settled if and only if it may enter and its single cancels, were the contract not halted, succeed and their refunds fit |
| Calls.BatchCancelRefusedIff | contracts/stream/src/lib.rs:1401-1470 | a batch that may enter is refused at a member if and only if that is the first not cancellable or not live, and the refunds before it fit |
| Storage.SaveThenRead | contracts/stream/src/storage.rs:313-393 | reading after saving gives the stream back for every curve, cliff mode and reference, over any stale side-cars, and leaves every other id alone |
| Storage.BareRecordReadsAsV1 | contracts/stream/src/storage.rs:303-334 | a record without side-cars reads as Linear, Schedule, no reference |
| Storage.EncodingIsCanonical | contracts/stream/src/types.rs:321-366 | two streams are stored alike if and only if they are equal |
| Storage.RecordIsFieldByField | contracts/stream/src/types.rs:321-366 | the frozen record holds each of its fourteen fields under its own name, and each side-car is there exactly for what is not the default |
| Rent.SecondsToLedgersRises | contracts/stream/src/storage.rs:194-211 | the conversion is monotone, saturation included |
| Rent.MarginCovers | contracts/stream/src/storage.rs:173-194 | short of saturation, five times the ledgers cover the seconds, and 25 times them cover six times the seconds to within four |
| Rent.StatedMarginHoldsIff | contracts/stream/src/storage.rs:141-145 | the margin as documented holds if and only if the seconds modulo 25 are none of 9, 13, 17, 21 |
| Rent.RentCoversTheSchedule | contracts/stream/src/storage.rs:229-251 | unless clamped, five times the rent target covers the buffer and the time until the stream clock reaches the end without a further pause |
| Rent.LedgersAreFewest | contracts/stream/src/storage.rs:194-211 | short of saturation the conversion is the fewest ledgers of five seconds that hold the seconds and a fifth more |
| Rent.TargetFromFields | contracts/stream/src/storage.rs:229-251 | the target in the stored fields: the rest of the schedule on the wall clock, an open pause included, and thirty days, in ledgers, at least 622080 and at most the limit |
| Events.AppendOne | contracts/stream/src/events.rs:343-526 | what one more event does to the replayed streams, grants, switch, payouts and truthfulness |
| Ledger.OwedAfterSave | contracts/stream/src/storage.rs:487-531 | saving one stream changes what the streams owe in a token by that stream's change alone |
| Ledger.OwedBoundsDebt | contracts/stream/src/storage.rs:487-531 | when no stream owes a negative amount the sum bounds each of them |
| Invariant.AdvanceTransitive | contracts/stream/src/accrual.rs:33-53 | lawful steps compose into lawful histories |
| Invariant.CreateInnerAdvances | contracts/stream/src/lib.rs:684-777 | a creation keeps the whole invariant: pool, ids, log, and every other stream's history |
| Invariant.TopUpAdvances | contracts/stream/src/lib.rs:1034-1099 | a top-up keeps the whole invariant, with I1 and I3 |
| Invariant.DelegateTopUpAdvances | contracts/stream/src/lib.rs:2104-2176 | a delegated top-up keeps the whole invariant, I1 unless it overdraws that stream, and I3 unless it lowers it |
| Invariant.WithdrawAdvances | contracts/stream/src/lib.rs:1166-1204 | a withdrawal keeps the whole invariant, with I1 and I3 |
| Invariant.DrainInOrderAdvances | contracts/stream/src/lib.rs:1262-1291 | so do the withdrawals of a batch, one after the other |
| Invariant.CancelOneAdvances | contracts/stream/src/lib.rs:1525-1591 | a cancel keeps the whole invariant, with I1 and I3 |
| Invariant.CancelInOrderAdvances | contracts/stream/src/lib.rs:1401-1470 | so do the cancels of a batch |
| Invariant.ReclaimDustDoesNothing | contracts/stream/src/lib.rs:1599-1627 | in a state that satisfies the invariant `reclaim_dust` changes nothing, and returns exactly the overdraft, `min(0, deposited - withdrawn)` |
| Runs.AttemptAdvances | contracts/stream/src/accrual.rs:33-53 | every entry point, and any movement of the tokens in between, takes a lawful state to a lawful later one |
| Runs.RunKeepsInvariant | contracts/stream/src/accrual.rs:33-53 | the invariant holds after every run |
| Runs.RunAdvances | contracts/stream/src/accrual.rs:41-53 | the state after any prefix of a run advances to the state after the whole, with I1 for every stream that no call in between overdraws and I3 for every stream that none lowers |
| Histories.PoolAccounting | contracts/stream/src/storage.rs:487-531 | after every run, for every token, the pool counter equals the summed `deposited - withdrawn` of the token's streams, and the net of all transfers asked for |
| Histories.LinearIsNeverHarmed | contracts/stream/src/lib.rs:2127-2164 | no run, whatever its calls, overdraws or lowers a linear stream, and it is covered throughout |
| Histories.CoverIsKept | contracts/stream/src/accrual.rs:41-53 | from any point of a run at which a stream is covered or not yet created, it is covered at every later instant unless a delegated top-up after that point overdraws it |
| Histories.LogRebuildsState | contracts/stream/src/events.rs:26-57 | after every run the folded events are exactly the stored streams, grants, operator and halt; payouts add up to `withdrawn`; ids are exactly those below the counter and both counters agree |
| Histories.LogIsTruthful | contracts/stream/src/events.rs:26-57 | every event in the log is true of the streams its predecessors describe: both parties, the amounts, a new id, a grant by the party that holds the role, halts in turn and of the right length |
| Histories.TransfersMatchLog | contracts/stream/src/events.rs:343-448 | after every run, for every account and token, what the contract's transfers gave the account is what the folded events say it got |
| Announcements.EveryCallAnnouncesOnce | contracts/stream/src/events.rs:11-29 | every successful call appends to the log exactly the events due, of the right kind and about the right stream: one for a single operation, one per stream a batch acts on, in order, and none for a refused batch, an empty grant or a dust reclaim |
| Announcements.SilentIffUnchanged | contracts/stream/src/events.rs:11-29 | a successful call is silent if and only if it changes nothing at all |
| Announcements.LogIsAllDue | contracts/stream/src/events.rs:11-29 | the log of every run is, event by event and in order, what its successful calls are to announce |
| Histories.BoundsHoldAlways | contracts/stream/src/accrual.rs:41-53 | in every reachable state, at every later instant: no reading fails, I4 and I5 hold, `paused_total` is at most `paused_at` or now, live streams have something left, the creation bound holds unless cancelled, and I1 holds for every stream that is linear or that no delegated top-up overdrew |
| Histories.NothingGoesBack | contracts/stream/src/accrual.rs:44-49 | between any two points of a run: `withdrawn`, the clock and the cliff gate never go back, terms never change, terminal is final, and vested never decreases unless a delegated top-up in between lowers that stream |
| Histories.CancelledForGood | contracts/stream/src/lib.rs:1525-1591 | over any run, a cancelled stream stays cancelled with the same deposit, and at every later instant vested is that deposit and nothing is refundable |
| Histories.RateNeverDrops | contracts/stream/src/lib.rs:1054-1077 | however often a linear stream is topped up, `deposited_n * duration_0 >= deposited_0 * duration_n`, and so its integer rate never drops |
| Histories.FactoryMinimumIsKept | contracts/stream/src/lib.rs:936-946 | a stream created through a factory with a minimum rate has at least that rate in every later state of every run, until it is cancelled |
| Histories.ClockIsUnpausedTime | contracts/stream/src/accrual.rs:113-119 | until a stream is cancelled its clock is wall time less the time it spent paused over the run, exactly |
| Histories.SplittingWithdrawalsLosesNothing | contracts/stream/src/accrual.rs:165-171 | for any withdrawals at non-decreasing times followed by a full one at `t`, the total is exactly what had vested at `t` less what was paid before |
| Histories.FullWithdrawalSettlesTheLog | contracts/stream/src/lib.rs:1166-1204 | over any run, after a full withdrawal the log has paid out exactly what has vested |
| Histories.DefensiveErrorsUnreachable | contracts/stream/src/error.rs:209-219 | in every reachable state pause, resume, transfer and top-up never fail their vested guard, resume never overflows, and top-up never fails its rate guard |
| Histories.ReclaimDustIsANoOp | contracts/stream/src/lib.rs:1599-1627 | in every run `reclaim_dust` changes nothing and returns exactly `min(0, deposited - withdrawn)`; zero on every stream that no delegated top-up overdrew |
| Solvency.SuccessLeavesTokenSolvent | contracts/stream/src/lib.rs:340-384 | whatever the tokens did, a successful top-up, withdrawal or cancel, direct or delegated, leaves the token's real balance at least what its streams are owed |
| Solvency.BatchWithdrawLeavesTokensSolvent | contracts/stream/src/lib.rs:1279-1291 | the same for every token of a successful batch withdrawal |
| Solvency.ExactIsHonest | contracts/stream/src/lib.rs:258-276 | a host that moves exactly what the balance allows is honest in every token |
| Solvency.InvokeKeepsBacking | contracts/stream/src/lib.rs:313-384 | every invocation keeps the pool of an honest token covered, whatever the other tokens do |
| Solvency.WithdrawSucceedsIff | contracts/stream/src/lib.rs:1166-1204 | with an exact token whose pool is covered, any withdrawal succeeds if and only if the contract is not halted, the recipient signed, the amount is positive and has vested unpaid, the balance covers it, and the pool counter does not underflow; and it then pays exactly that |
| Solvency.WithdrawNeverFailsIff | contracts/stream/src/lib.rs:1166-1204 | a full withdrawal of something positive succeeds with every honest token if and only if the balance covers it and the pool counter does not underflow |
| Debts.NegativeDebtIff | contracts/stream/src/lib.rs:1525-1591 | over every run, a stream owes a negative amount if and only if some call cancelled it while more had been paid than had vested |
| Debts.DustIffEndedShort | contracts/stream/src/lib.rs:1599-1627 | and then alone `reclaim_dust` reports anything but zero, and never more than zero |
| Debts.PoolCoversAllIff | contracts/stream/src/lib.rs:340-384 | after every run a token's pool covers the claims on it, and is then exactly their sum, if and only if no stream in the token ended short |
| Debts.PaidAfterRunIff | contracts/stream/src/lib.rs:1166-1204 | after every run in which the token was honest, and with an exact token, a withdrawal succeeds if and only if the contract is not halted, the recipient signed, the amount is positive and at most vested less withdrawn, the balance covers it, and the pool counter does not underflow |
| Debts.RecipientsAlwaysPaid | contracts/stream/src/lib.rs:1166-1204 | the corollary: if no stream in the token ended short, the balance is never the reason, and a full withdrawal of something positive succeeds with any honest token |
| Scenarios.RecipientsArePaidSomewhere | contracts/stream/src/lib.rs:1166-1204 | a concrete run meets every hypothesis of that, with a positive amount, and pays it |
| Scenarios.BystanderGoesUnpaid | contracts/stream/src/lib.rs:2127-2164 | a run of exact transfers in which a delegated top-up overdraws a Step stream and its cancel ends it short: a negative debt, the pool short of another stream, and the other recipient refused |
| Delegation.DelegatePassesIff | contracts/stream/src/lib.rs:2567-2583 | over every run a delegate passes if and only if the latest grant or revocation is an unexpired grant of that operation, and the delegate authorized |
| Delegation.PermissionWasIssuedByOwner | contracts/stream/src/lib.rs:1821-1867 | and that grant was issued by the party that held the role when it was issued |
| Delegation.DelegatedSuccessWasGranted | contracts/stream/src/lib.rs:1931-2244 | so every delegated call that succeeds in any run was granted that way |
| Delegation.DelegateWithdrawIsWithdraw | contracts/stream/src/lib.rs:1931-1971 | a permitted delegated withdrawal is the recipient's own: same stream, pool, transfers, event and errors |
| Delegation.DelegateCancelIsCancel | contracts/stream/src/lib.rs:1974-2018 | a permitted delegated cancel is the sender's own |
| Delegation.DelegatePauseIsPause | contracts/stream/src/lib.rs:2033-2056 | a permitted delegated pause is the sender's own, although it does not re-check vested |
| Delegation.DelegateResumeIsResume | contracts/stream/src/lib.rs:2059-2088 | a permitted delegated resume is the sender's own |
| Delegation.DelegateTransferIsTransfer | contracts/stream/src/lib.rs:2199-2244 | a permitted delegated transfer is what the direct entry point, which only the sender can authorize, does |
| Delegation.DelegateTopUpIsTopUp | contracts/stream/src/lib.rs:2104-2176 | on a linear stream a permitted delegated top-up, which saves before it pulls, is the sender's own |
| Authority.NothingMovesUnsigned | contracts/stream/src/lib.rs:1034-2244 | over every run, a call that pays out of a stream, moves its deposit or end, cancels it, reassigns it, or stops or restarts its clock was signed by the party it takes, or by a delegate with an unexpired latest grant of that very bit; a raised deposit by its sender and nobody in its stead |
| Authority.AdministrationIsSigned | contracts/stream/src/lib.rs:1821-1927 | new streams are signed by their senders, grants and revocations by a party of the stream, operator and halt by the operator |
| Authority.HaltStops | contracts/stream/src/lib.rs:2554-2559 | while halted only batch cancels, dust reclaims and the operator's calls succeed |
| Authority.HaltDoesNotStopCancels | contracts/stream/src/lib.rs:1401-1627 | a batch cancel and a dust reclaim have the same result and leave the same state, but for the halt itself, whether or not the contract is halted |
| Batches.BatchCreateEffect | contracts/stream/src/lib.rs:785-840 | a batch creates exactly its requests, under successive ids in order, and touches no older stream |
| Batches.ValidatedBatchErrors | contracts/stream/src/lib.rs:785-840 | past the up-front validation only overflow, exhausted ids or the token can fail an element |
| Batches.BatchWithdrawDrains | contracts/stream/src/lib.rs:1235-1291 | a successful batch leaves every member drawn to what has vested or had been drawn, whichever is more, touches no other stream, and returns the sum of what it drew |
| Batches.BatchWithdrawAgrees | contracts/stream/src/lib.rs:1235-1291 | whatever the tokens do, a batch and `withdraw(None)` on each member with a balance, in order, agree on state and total when both succeed |
| Batches.BatchWithdrawSucceedsIff | contracts/stream/src/lib.rs:1235-1291 | if the members' own tokens are honest and covered, the batch succeeds if and only if the single withdrawals all do and their sum fits an `i128` |
| Batches.StaleCopyBreaksThePool | contracts/stream/src/lib.rs:2610-2623 | without the duplicate check, paying twice from one copy records one payment and breaks the pool |
| Batches.BatchCancelRefuses | contracts/stream/src/lib.rs:1401-1470 | a refused batch changes nothing and reports the least index whose quote fails, with its error |
| Batches.BatchCancelSettles | contracts/stream/src/lib.rs:1401-1470 | a settled batch leaves every member as its own quote at that instant settles it, touches no other stream, and returns the refunds summed |
| Batches.BatchCancelIsSingles | contracts/stream/src/lib.rs:1401-1470 | on an unhalted contract a settled batch leaves exactly the state the single cancels in order leave |
| Batches.BatchCancelSettlesIff | contracts/stream/src/lib.rs:1401-1470 | whatever the tokens do, a valid, owned and authorized batch settles if and only if the single cancels all succeed and their refunds fit an `i128` |
| BatchSolvency.BatchCancelLeavesTokensSolvent | contracts/stream/src/lib.rs:1525-1591 | whatever the tokens do, a settled batch leaves covered the token of every member that no later refund in another token follows, so the last member's and every batch in one token; and all of them if a transfer moves no other token's balance |
| BatchSolvency.ExactBatchesLeaveTokensSolvent | contracts/stream/src/lib.rs:1525-1591 | so with exact-transfer tokens a settled batch leaves the token of every member covered |
| BatchSolvency.BatchCancelSolventIff | contracts/stream/src/lib.rs:1525-1591 | that condition is exact: with a later refund in another token, some host lets the batch settle and leaves the token uncovered |
| Contract.FluxoraStream.constructor | contracts/stream/src/lib.rs:387-390 | the empty contract |
| Contract.FluxoraStream.ReadStream | contracts/stream/src/storage.rs:313-334 | decodes record and side-cars to the stream, or reports it missing |
| Contract.FluxoraStream.SaveStream | contracts/stream/src/storage.rs:341-393 | stores the stream over whatever was there, and advances both counters exactly for a new id |
| Contract.FluxoraStream.CreditPool | contracts/stream/src/storage.rs:512-518 | raises the token's counter, or reports overflow |
| Contract.FluxoraStream.DebitPool | contracts/stream/src/storage.rs:525-531 | lowers the token's counter, or reports overflow |
| Contract.FluxoraStream.TokenTransfer | contracts/stream/src/lib.rs:258-276 | one transfer, with the two ways it can fail |
| Contract.FluxoraStream.PullDeposit | contracts/stream/src/lib.rs:313-337 | pulls, requires the balance to have grown by exactly the amount, and credits the pool |
| Contract.FluxoraStream.VerifyPoolBalance | contracts/stream/src/lib.rs:377-384 | succeeds if and only if the real balance covers the counter |
| Contract.FluxoraStream.CreateStreamInner | contracts/stream/src/lib.rs:684-777 | the guarded creation, with its pull and event |
| Contract.FluxoraStream.CreateStreamWithCliffMode | contracts/stream/src/lib.rs:531-599 | creation of a linear stream with either cliff clock |
| Contract.FluxoraStream.CreateStreamWithCurve | contracts/stream/src/lib.rs:642-674 | creation with a curve |
| Contract.FluxoraStream.CreateStreamViaFactory | contracts/stream/src/lib.rs:882-977 | creation under a factory's policy |
| Contract.FluxoraStream.BatchCreate | contracts/stream/src/lib.rs:785-840 | all requests validated first, then created in order under successive ids |
| Contract.FluxoraStream.TopUp | contracts/stream/src/lib.rs:1034-1099 | the guarded extension, funded, reconciled and logged |
| Contract.FluxoraStream.Withdraw | contracts/stream/src/lib.rs:1166-1204 | the payout, reconciled and logged |
| Contract.FluxoraStream.ApplyWithdrawal | contracts/stream/src/lib.rs:2649-2699 | the accounting of a payout, a drain closing an open pause included |
| Contract.FluxoraStream.ValidateBatch | contracts/stream/src/lib.rs:2592-2623 | the nested search refuses a batch that is empty, too large or has a repeated id, and no other |
| Contract.FluxoraStream.BatchWithdraw | contracts/stream/src/lib.rs:1235-1291 | the loops over copies read up front do what reading each stream in turn would |
| Contract.FluxoraStream.ReconcileAll | contracts/stream/src/lib.rs:1279-1291 | one balance check per distinct token covers every member |
| Contract.FluxoraStream.Cancel | contracts/stream/src/lib.rs:1321-1331 | quote and settlement of one stream |
| Contract.FluxoraStream.SettleCancel | contracts/stream/src/lib.rs:1525-1591 | the collapsed schedule, the refund, the check and the event |
| Contract.FluxoraStream.BatchCancel | contracts/stream/src/lib.rs:1401-1470 | resolved, priced and settled in three loops: the outcome and state of cancelling in order, or the first refusal |
| Contract.FluxoraStream.ReclaimDust | contracts/stream/src/lib.rs:1599-1627 | the dust of a terminal stream, sent without a pool debit |
| Contract.FluxoraStream.Pause | contracts/stream/src/lib.rs:1643-1673 | freezes the clock at the current time |
| Contract.FluxoraStream.Resume | contracts/stream/src/lib.rs:1677-1713 | folds the pause into `paused_total` |
| Contract.FluxoraStream.TransferRecipient | contracts/stream/src/lib.rs:1744-1796 | a new recipient, by the sender's authority |
| Contract.FluxoraStream.GrantDelegate | contracts/stream/src/lib.rs:1821-1867 | a grant by the one party that holds every granted operation; an empty grant changes nothing |
| Contract.FluxoraStream.RevokeDelegate | contracts/stream/src/lib.rs:1909-1927 | either party removes a grant |
| Contract.FluxoraStream.CheckDelegate | contracts/stream/src/lib.rs:2567-2583 | presence, expiry, permission bit and authorization, in that order |
| Contract.FluxoraStream.DelegateWithdraw | contracts/stream/src/lib.rs:1931-1971 | the recipient's withdrawal, by a delegate |
| Contract.FluxoraStream.DelegateCancel | contracts/stream/src/lib.rs:1974-2018 | the sender's cancel, by a delegate |
| Contract.FluxoraStream.DelegatePause | contracts/stream/src/lib.rs:2033-2056 | a pause by a delegate, without the vested guard |
| Contract.FluxoraStream.DelegateResume | contracts/stream/src/lib.rs:2059-2088 | a resume by a delegate, without the vested guard |
| Contract.FluxoraStream.DelegateTopUp | contracts/stream/src/lib.rs:2104-2176 | the linear extension whatever the curve, saved before it is funded |
| Contract.FluxoraStream.DelegateTransferRecipient | contracts/stream/src/lib.rs:2199-2244 | a transfer by a delegate, without the vested guard |
| Contract.FluxoraStream.SetHaltOperator | contracts/stream/src/lib.rs:2450-2458 | the operator, once |
| Contract.FluxoraStream.Halt | contracts/stream/src/lib.rs:2487-2496 | halts at the current time, by the operator alone |
| Contract.FluxoraStream.ResumeContract | contracts/stream/src/lib.rs:2504-2512 | lifts the halt and logs its length |
| Contract.FluxoraStream.ExtendStreamTtl | contracts/stream/src/lib.rs:2339-2362 | the rent target of a live stream, logged |
| Contract.FluxoraStream.Submit | contracts/stream/src/lib.rs:1216-1223 | one invocation as the host runs it: the new state on success; on an error, that error, and every entry restored |
| Contract.FluxoraStream.Serve | contracts/stream/src/accrual.rs:33-53 | a whole history served by the object ends in the state the model of runs gives, which satisfies the invariant |
| Calendar.EraFloors | tools/provenance/src/lib.rs:651-653 | the shifted truncating division floors, for negative days too |
| Calendar.EraSplits | tools/provenance/src/lib.rs:654-656 | the year-of-era formula recovers century, four-year cycle, year and day for every day of the era |
| Calendar.DaysAreDates | tools/provenance/src/lib.rs:649-661 | every integer day is a valid proleptic Gregorian date, and the independent day count of that date is the day |
| Calendar.DatesAreDays | tools/provenance/src/lib.rs:649-661 | every valid date is the image of its day count and of no other day: a bijection |
| Calendar.DaysFollowTheCalendar | tools/provenance/src/lib.rs:649-661 | day 0 is 1970-01-01, and day `z + 1` is the calendar successor of day `z` |
| Calendar.MachineWidthSuffices | tools/provenance/src/lib.rs:650-661 | below the top 719468 days of `i64` every signed step stays in `i64`, every unsigned difference is non-negative, and every cast is lossless |
| Calendar.StampDenotesItsSecond | tools/provenance/src/lib.rs:637-647 | the six fields are in range and denote exactly the second they came from |
| Calendar.TextDenotesItsSecond | tools/provenance/src/lib.rs:637-647 | the formatted text reads back to the six fields, and so determines the second |
| Calendar.TextIsRfc3339Iff | tools/provenance/src/lib.rs:629-647 | the text has the twenty characters of an RFC 3339 timestamp if and only if the second is before the year 10000 |

## Left out

- Soroban host details: encoding, footprints, event byte budgets, archival and restore, and the rent extension itself. Authorization is membership in a set of addresses, and a failed `require_auth` is the error `AuthRefused`.
- The tokens' own code: a transfer is an arbitrary answer of the environment, and a balance read is assumed to have no effect.
- `batch_extend_ttl`, the views, `create_stream` (it is `create_stream_with_cliff_mode` at `Schedule`) and the ABI constants: they add only easy members.
- The factory contract: its policy values are parameters of `create_stream_via_factory`.
- Split streams, malformed-id decoding, the protocol limits and the archival probe.
- The fallback that reads a missing `StreamCount` as the next id: both counters start at zero here.
- A `u32` of permission bits is modelled as the set of the positions that are set, and the length of a reference counts characters.
- The optional topics of an event are not separated from its payload.
- Histories.NothingGoesBack: vested may decrease across a delegated top-up of a Step or FrontLoaded stream that `StreamLaws.Lowers` describes, because the code allows it to.
- Solvency.SuccessLeavesTokenSolvent: one stream at a time; what a batch cancel leaves is stated by BatchSolvency, whose exactness excludes a pool at the very bottom of `i128`.
- The rest of the provenance tool: hashing, version control, manifests, files and the command line.
