# SoroStream payment streams

SoroStream is a contract that holds deposits for payment streams. A sender locks tokens for a
recipient; the deposit divided by the duration is the flow rate, paid by the second. Recipients
withdraw, hand a stream on or terminate it; senders top it up, pause and resume it, cancel it wholly
or in part, or let it renew itself. All streams of one token share one balance of the contract.

This project models the contract's arithmetic, its entry points, its storage indexes and whole runs
of calls, and proves that the shared balance always covers every stream, that nobody is paid twice or
short-changed except where stated, and that the indexes and statistics agree with the records. Where a
promised property does not hold for every input, the exact condition is proved and `Witnesses.dfy`
gives an input outside it.

## How it is built

| file | content |
|---|---|
| `Prelude.dfy` | error codes, traps, checked and saturating `u64` and `i128` arithmetic |
| `VestingMath.dfy` | the five vesting functions over full-width inputs |
| `Streams.dfy` | the stream record, its transitions and the invariant `Sound` |
| `TokenBank.dfy` | balances and transfers |
| `Storage.dfy` | counter-and-slot indexes, the global index and the audit ring, as classes over the keys |
| `Ledger.dfy` | the contract as a state machine on values: `State`, each entry point as a function, `Call`, `Apply`, `Exec`, `Run` |
| `Invariants.dfy` | what the pool owes, `Funded`, `Indexed`, `Inv`, and how the shared steps keep them |
| `Custody.dfy` | every entry point keeps custody and never fails for lack of pooled funds |
| `Records.dfy` | the exact record every call leaves of every stream, and what follows for dust, cliff and paid seconds |
| `Listings.dfy` | damage to an index is for good |
| `Runs.dfy` | whole runs: solvency, indexes, nonces, the global pause |
| `Lifetimes.dfy` | one stream over a whole run: dust, paid and skipped time, the order of start and cliff, terminal streams |
| `Surplus.dfy` | what the pool holds beyond what it owes, to the unit, over whole runs |
| `Payments.dfy` | who is paid what, and exactly when calls succeed |
| `Refusals.dfy` | who may act, and that every reported error states a fact |
| `PauseShift.dfy`, `Renewal.dfy`, `Schedules.dfy`, `Batches.dfy`, `Queries.dfy` | the properties of one theme each |
| `SoroStream.dfy` | the contract as an object that updates storage step by step and in loops; each method is proved to agree with its state-machine function, and `Invoke` is the host that undoes failed calls |
| `Witnesses.dfy` | concrete inputs for properties that need a condition |

Amounts and times are unbounded integers, and every operation of the source that checks, saturates or
traps does so explicitly. `Flow(rate, seconds)` is the product `rate * seconds` (`FlowIsProduct`), spelled
out second by second so that the other proofs are linear. The hash that derives stream ids is an
arbitrary function parameter `Derive`. The address type has one value, `Contract`, for the contract
itself; it never signs, so a caller that must authorise is never the contract. Who else signs a
transaction is a parameter of the two withdrawal entry points, because a renewal needs the sender's
authorisation. A run is any sequence of entry-point calls, clock ticks, token mints and transfers between
others.

The invariant of a stored stream (`Stream.Sound`): the rate is positive;
`start <= last_withdraw <= end`; `0 <= withdrawn <= rate * (last_withdraw - start)`;
`rate * (end - start) <= deposit`; the last withdrawal is not in the future of the stream's own clock,
which is the pause time for a paused stream; and what withdrawals skipped is bounded by the part before the
cliff. `Funded` adds that, for every token, the contract's balance covers the sum of deposit minus withdrawn
over all live streams; `Indexed` says that each address's list holds exactly the ids of its stored streams,
once each.

## Where code and documentation disagree

The model follows the code.

- The table of stream fields in the documentation promises `cliff_time >= start_time`. A renewal moves the
  start past a cliff that came before the end (`Witnesses.RenewalPassesTheCliff`); over any run the order
  holds exactly while no such renewal happens (`Lifetimes.OrderEveryRun`).
- The documented invariants say the flow rate is the deposit divided by the period. This holds exactly while the
  dust is less than one unit a second (`Streams.RateIsDepositOverPeriod`); a partial cancel can break it
  (`Witnesses.PartialCancelBreaksRate`), and so can a resumption that clips the end, but no other call
  (`Records.StepKeepsRate`).
- They also say that `cancel_stream` and `partial_cancel_stream` fail for every stream that is not active, and need
  the sender's authorisation. The code accepts paused streams and the sender's delegate (`Payments.CancelExactly`,
  `Payments.PartialCancelHappensExactly`).
- `contracts/stream/src/types.rs:37-38` bounds `lock_until` by start and end. No call checks it: a creation stores any
  value (`Payments.CreateExactly`).
- `contracts/stream/src/types.rs:61-62` says `total_streams` counts every stream ever created. `get_stats` leaves out
  deleted ones (`Queries.StatsExactly`).
- The documentation describes one token transfer for the sum of a batch creation; the code makes one per entry.
- The documented entry for `cancel_stream` gives the cancellation refund as deposit minus everything streamed. The code
  refunds what is left, which is more by exactly the amount that withdrawals before the cliff skipped
  (`Payments.RefundMatchesDocumentation`). The same section says the record is kept as cancelled; the code
  deletes it.
- `docs/adr/0002-stream-id-generation.md:18-25` and `docs/storage-layout.md:117` describe a counter whose ids
  are never reused. The code hashes sender, recipient, time and nonce. Batch creation uses the position in the
  batch as nonce, so within one second a deleted id comes back whatever the hash, and then `get_stats` counts
  the stream twice (`Witnesses.ReissuedIdIsCountedTwice`); ids stay unique exactly while every one drawn is new
  (`Queries.FreshEveryRun`).
- A partial cancel uses the stream's id as nonce and does not look whether the derived id is stored
  (`contracts/stream/src/lib.rs:952-979`). A creation may have used the same nonce in the same second, whatever
  the hash; the replacement then takes the created stream's place (`Witnesses.NonceOfAStreamCollides`). Custody
  survives; the indexes stay exact exactly while no stored id is derived (`Custody.PartialCancelKeeps`).
- The comment at `contracts/stream/src/lib.rs:640-641` says a renewal absorbs the dust of the old cycle. It is
  left in the pool: no stream has a claim on it any more (`Surplus.RenewalStrandsDust`).
- `docs/contract-reference.md:122` says a global pause blocks `create_stream`. In the code it also blocks
  batch creation, both withdrawals, termination, transfer, top-up, pause and resume (`Runs.PausedExactly`).
- The documented checks of `create_stream` allow a cliff equal to the duration; the code rejects it, and with that
  `InvalidEndTime` can never be returned.
- `contracts/stream/src/errors.rs:32-43` assigns several codes twice. The model keeps the errors apart.
- `batch_withdraw` does not look at the cliff or the cooldown, and fails as a whole where `withdraw`
  completes a stream whose renewal is unfunded. `batch_cancel_stream` reads the running clock for paused
  streams too. The exact conditions under which the batches agree with the single calls are proved.

## Model

| member | source | states |
|---|---|---|
| `VestingMath.FlowIsProduct` | contracts/stream/src/lib.rs:67-69 | what a number of seconds pays at a rate, counted one second at a time, is their product, for negative numbers too |
| `VestingMath.ClaimableCountsSeconds` | contracts/stream/src/vesting_math.rs:6-19 | before the cliff nothing is claimable; from then on the amount is the rate times the number of moments counted one by one between last withdrawal and end, and there is no result exactly when that product leaves i128; all inputs |
| `VestingMath.ClaimableMonotone` | contracts/stream/src/vesting_math.rs:137-160 | on the full range, if the later claim exists so does the earlier one, and it is no larger |
| `VestingMath.FlowRateFloors` | contracts/stream/src/vesting_math.rs:60-62 | for every deposit and duration there is a rate exactly unless the duration is zero, and its flow over the duration misses the deposit by the remainder, less than one unit a second and toward zero |
| `VestingMath.DepositCoversEverything` | contracts/stream/src/vesting_math.rs:75-245 | on the full range, for a floored rate none of the four amounts overflows, claimable is at most earned, earned at most streamed, streamed at most the deposit, and streamed plus refund is the deposit |
| `VestingMath.EarnedAdds` | contracts/stream/src/vesting_math.rs:23-32 | splitting a period at any moment: the parts earn exactly what the whole earns |
| `Streams.ClaimWithinDeposit` | contracts/stream/src/lib.rs:558-572 | for a sound live stream earned and claimable never overflow, and withdrawn plus earned never exceeds the deposit: the over-deposit guard is dead |
| `Streams.DustExact` | contracts/stream/src/lib.rs:617-622 | dust is computed without clipping, is never negative, and withdrawn plus dust fits in the deposit |
| `Streams.RateIsDepositOverPeriod` | contracts/stream/src/vesting_math.rs:60-62 | deposit over period is the flow rate if and only if the dust is less than one unit a second |
| `Streams.CreatedSound` | contracts/stream/src/lib.rs:398-438 | a new record is sound and its dust is the deposit modulo the duration |
| `Streams.DrawnSound` | contracts/stream/src/lib.rs:558-615 | drawing the claimable or the earned amount keeps the record sound, stays within the deposit, and raises the skipped amount by exactly what was due but not paid |
| `Streams.RenewedSound` | contracts/stream/src/lib.rs:638-658 | the record of the next cycle is sound and keeps its dust |
| `Streams.ResumedSound` | contracts/stream/src/lib.rs:1240-1252 | a resumption makes the record active with no pause time and keeps it sound; every time field moves by the pause, the end, cliff and lock up to the end of u64 only; dust grows by exactly the flow of the seconds the end lost to clipping |
| `Streams.ToppedUpSound` | contracts/stream/src/lib.rs:1033-1054 | a top-up keeps the record sound and its dust, and the added seconds flow exactly the added deposit |
| `Streams.PartialSplit` | contracts/stream/src/lib.rs:924-948 | for any clock, past the end too: withdrawn, earned, cancelled, kept and skipped add up to the deposit, none negative |
| `Streams.ReplacementSound` | contracts/stream/src/lib.rs:959-977 | the replacement is sound and runs for at least a second from now, active, with no cliff or lock ahead and nothing withdrawn; its dust is the kept amount modulo the rate |
| `Storage.WithoutRemovesOne` | contracts/stream/src/storage.rs:155-173 | swap-and-pop removes exactly one occurrence of the id, as a multiset, whatever the list |
| `Storage.WithoutExact` | contracts/stream/src/storage.rs:155-173 | from a duplicate-free list it leaves a duplicate-free list of exactly the other ids |
| `Storage.PopRepresents` | contracts/stream/src/storage.rs:155-173 | moving the last slot into the hole, deleting it and lowering the counter leaves dense keys that stand for the list without the id; the last slot is always there |
| `Storage.SlotIndex.Index` | contracts/stream/src/storage.rs:134-153 | appends at the counter, and fails exactly when the counter would leave u32 |
| `Storage.SlotIndex.Unindex` | contracts/stream/src/storage.rs:155-194 | the search loop leaves the keys of the list without the id, or unchanged keys when it is not listed; the default value is never read |
| `Storage.SlotIndex.Ids` | contracts/stream/src/storage.rs:205-226 | the loop over the slots returns the list in slot order |
| `Storage.GlobalIndex.Index` | contracts/stream/src/storage.rs:74-80 | appends to the global list, and fails exactly when the count would leave u32 |
| `Storage.AppendHoldsEnd` | contracts/stream/src/storage.rs:537-548 | writing at the head modulo 20 keeps head and length in range and overwrites no entry still to be read |
| `Storage.AuditRing.Append` | contracts/stream/src/storage.rs:537-548 | the ring stands for the history with the new entry at its end |
| `Storage.AuditRing.Read` | contracts/stream/src/storage.rs:551-563 | after any number n of appends the result is exactly the last min(n, 20), oldest first |
| `Invariants.OwedSave` | contracts/stream/src/lib.rs:672-676 | storing a record changes what the pool owes in a token by the new claim minus the old one |
| `Invariants.PoolCovers` | contracts/stream/src/lib.rs:684-737 | in a funded state the pool holds at least the claim of any one stream |
| `Invariants.GenesisInv` | contracts/stream/src/lib.rs:78-90 | a freshly deployed contract satisfies the invariant |
| `Invariants.EnrollCollides` | contracts/stream/src/lib.rs:979-983 | storing and listing an id that is already stored breaks an exact index |
| `Custody.CreateStreamSafe` | contracts/stream/src/lib.rs:337-457 | whatever the arguments: it fails, or leaves a funded state with exact indexes; no payment out of the pool fails |
| `Custody.WithdrawSafe` | contracts/stream/src/lib.rs:533-680 | the same for a withdrawal, with renewal, completion and deletion |
| `Custody.WithdrawSteps` | contracts/stream/src/lib.rs:533-680 | past its guards a withdrawal pays exactly what is due and settles; only the fee product can stop it before the settlement; refused ones never report overflow |
| `Custody.BatchWithdrawSafe` | contracts/stream/src/lib.rs:1373-1503 | the same for the batch, entry by entry |
| `Custody.CancelStreamSafe` | contracts/stream/src/lib.rs:684-737 | the same for a cancellation |
| `Custody.RecipientTerminateSafe` | contracts/stream/src/lib.rs:742-798 | the same for a termination |
| `Custody.BatchCancelFromSafe` | contracts/stream/src/lib.rs:1506-1562 | the batch never fails once started, and keeps custody whatever its entries |
| `Custody.TransferRecipientSafe` | contracts/stream/src/lib.rs:801-892 | the same for a transfer, which moves the id between the lists of the two recipients |
| `Custody.TopUpSafe` | contracts/stream/src/lib.rs:998-1062 | the same for a top-up by sender or delegate |
| `Custody.PauseSafe` | contracts/stream/src/lib.rs:1203-1223 | the same for pausing |
| `Custody.ResumeSafe` | contracts/stream/src/lib.rs:1226-1255 | the same for resuming |
| `Custody.ArchiveSafe` | contracts/stream/src/lib.rs:310-332 | the same for archiving |
| `Custody.BatchCreatePasses` | contracts/stream/src/lib.rs:1285-1328 | a successful batch creation checked everything before its first write: ids pairwise distinct and not stored, amounts and rates positive, duration not zero |
| `Custody.BatchCreateSafe` | contracts/stream/src/lib.rs:1258-1370 | the same for a batch creation |
| `Custody.PartialCancelKeeps` | contracts/stream/src/lib.rs:895-995 | a partial cancel keeps custody whatever id is derived, and keeps exact indexes if and only if that id is not stored |
| `Records.RecordThroughCall` | contracts/stream/src/lib.rs:310-1562 | through any call that puts no other record in its place, every stored stream gets exactly the record that one function of state, call and record gives, or is deleted; a terminal one is deleted by archiving only |
| `Records.StepContinues` | contracts/stream/src/lib.rs:310-1562 | that function never changes id, sender, token, rate or termination flag, never sets the renewal flag, and of a terminal record changes nothing but that flag |
| `Records.StepDust` | contracts/stream/src/lib.rs:377-1245 | it changes dust by the flow of the seconds a resumption clips, and by nothing else |
| `Records.StepKeepsRate` | contracts/stream/src/lib.rs:310-1562 | without clipping, no call takes a stream away from the flow rate being deposit over period |
| `Records.StepOrder` | contracts/stream/src/lib.rs:654-657 | start not past the cliff: kept if and only if the call does not renew the stream when its cliff comes before its end |
| `Records.StepPays` | contracts/stream/src/lib.rs:558-615 | paid plus skipped is the flow of the time by which the last withdrawal moves on, a pause left out |
| `Records.RenewalOrder` | contracts/stream/src/lib.rs:654-657 | one renewal keeps the documented order exactly when the cliff is at the very end of the cycle |
| `Lifetimes.StreamThroughCall` | contracts/stream/src/lib.rs:310-1562 | the same of every call of the machine, failed ones included, from any funded state |
| `Lifetimes.LivesEveryRun` | contracts/stream/src/lib.rs:310-1562 | over any run in which a stream stays stored, renewals included: id, sender, token, rate and termination flag stay and a cleared renewal flag stays cleared; dust grows by the flow of the clipped seconds only; and what was paid and skipped is the flow of the time its last withdrawal moved on, pauses left out |
| `Lifetimes.OrderThroughCall` | contracts/stream/src/lib.rs:533-659 | through one call, failed or not, the order of start and cliff is kept if and only if the call does not renew the stream when its cliff comes before its end |
| `Lifetimes.OrderEveryRun` | contracts/stream/src/lib.rs:654-657 | after any run a stored stream has its start not past its cliff if and only if it had before and no call of the run renewed it when its cliff came before its end |
| `Lifetimes.TerminalMovesNoFunds` | contracts/stream/src/lib.rs:544-1238 | of the calls about one stream, those that succeed on a terminal one are cancel_auto_renew, delegate, revoke_delegate and archive_stream, and they move no token |
| `Lifetimes.TerminalInBatch` | contracts/stream/src/lib.rs:1373-1562 | batch_withdraw fails as a whole when it lists a terminal stream; batch_cancel_stream reports an error for every entry that names one |
| `Runs.ApplySafe` | contracts/stream/src/lib.rs:78-1692 | every call of the machine keeps custody, the clock, the nonces and the global list, keeps the indexes exact if and only if it overwrites no record, and neither begins a global pause nor ends one early unless that is what it is for |
| `Runs.ExecSafe` | contracts/stream/src/lib.rs:78-1692 | the same of the state an invocation leaves, failed or not |
| `Runs.CustodyEveryRun` | contracts/stream/src/lib.rs:337-1562 | after any sequence of calls from a funded state, colliding ids included, every record is sound and every token is covered; and no next call whatever can fail because the pool is short |
| `Runs.IndexesEveryRun` | contracts/stream/src/lib.rs:447-983 | after any sequence of calls from an exact state all lists hold exactly the stored ids of each address, once each, if and only if no call overwrote a record; after an overwrite some address lists an id too often for good |
| `Listings.CallPersists` | contracts/stream/src/storage.rs:134-194 | no successful call ends an overlisting, and one that overwrites a record of an exact index begins one |
| `Runs.RunsGrow` | contracts/stream/src/storage.rs:74-94 | over any run the clock, the used nonces, the batch nonces and the global list only grow |
| `Runs.NonceUsedOnce` | contracts/stream/src/storage.rs:240-249 | in a whole run each pair of sender and nonce creates at most one stream |
| `Runs.BatchNonceUsedOnce` | contracts/stream/src/storage.rs:228-241 | in a whole run each batch nonce of a sender serves at most one batch creation |
| `Runs.PausedHasCause` | contracts/stream/src/lib.rs:110-219 | in any run, a paused contract was paused by a successful call of the run which no successful unpause has followed, and its expiry is the end of that pause |
| `Runs.PauseCallsExactly` | contracts/stream/src/lib.rs:110-219 | the admin pauses and resumes, the guardian pauses, governance unpauses, and nobody else; flag and 72-hour expiry are set or cleared together, the admin's calls come last in the audit history, nothing else changes |
| `Runs.PausedExactly` | contracts/stream/src/storage.rs:283-303 | a call reports a pause if and only if it is one of nine gated entry points, with an authorised sender for a creation, the flag is set and the expiry lies ahead; is_paused answers the same |
| `Runs.PauseLasts` | contracts/stream/src/lib.rs:110-219 | in any run, from a successful pause that no successful unpause has followed the contract stays paused until 72 hours later, or the last moment of u64; later pauses only move the expiry on |
| `Runs.PauseEveryRun` | contracts/stream/src/lib.rs:110-219 | in any run from an unpaused contract, a gated call with an authorised caller is refused for a pause if and only if some successful pause, which no successful unpause has followed, is less than 72 hours old, or, near the end of u64, before its last moment |
| `Runs.PauseIsBounded` | contracts/stream/src/storage.rs:283-303 | in any run a call reports a pause only when some earlier pause is less than 72 hours old, or, near the end of u64, before its last moment |
| `Payments.CloseConserves` | contracts/stream/src/lib.rs:698-732 | withdrawn, payout and refund add up to the deposit with both payments non-negative; every balance is accounted for, under any aliasing of the parties |
| `Payments.CancelExactly` | contracts/stream/src/lib.rs:684-737 | a cancellation succeeds exactly for a manager of a stored live stream, never overflows, pays recipient and sender exactly the accrued part and the rest, and removes the record and both list entries |
| `Payments.TerminateExactly` | contracts/stream/src/lib.rs:742-797 | the same for a termination, which pays nothing before the cliff, with its exact success condition |
| `Payments.BatchCancelExactly` | contracts/stream/src/lib.rs:1522-1556 | the same for a batch entry, which reads the running clock |
| `Payments.RefundMatchesDocumentation` | contracts/stream/src/vesting_math.rs:48-57 | the refund is the documented one plus the skipped amount, so equal exactly when nothing was skipped |
| `Payments.ClaimableNeverOverflows` | contracts/stream/src/lib.rs:1115-1140 | on every reachable state get_claimable fails for a missing stream only, is 0 for a terminal one, and for a live one is what is due, not negative, and with what was withdrawn within the deposit |
| `Payments.ClaimSplitsExactly` | contracts/stream/src/lib.rs:578-604 | of a claim the treasury gets the floored fee and the recipient the rest; without a treasury the fee stays in the pool; no other balance moves |
| `Payments.WithdrawMoney` | contracts/stream/src/lib.rs:574-659 | every balance after a withdrawal: fee and rest of the claim, and to the sender the dust of a stream that ends or, with a minus, the deposit of one that renews |
| `Payments.EntryMoney` | contracts/stream/src/lib.rs:1405-1490 | the same for a batch entry, which reports its gross amount |
| `Payments.WithdrawPaysExactly` | contracts/stream/src/lib.rs:533-676 | before the end a withdrawal pays exactly that, advances the one record, and changes nothing else but an expired pause |
| `Payments.TransferExactly` | contracts/stream/src/lib.rs:801-892 | the old recipient is paid what is due unless locked or before the cliff; at every later time that payment and the new claim add up to the claim without a transfer; nothing is skipped |
| `Payments.TransferHappensExactly` | contracts/stream/src/lib.rs:801-892 | a transfer succeeds if and only if the recipient of a live stream asks, the fee product on what is due fits, and the next recipient's list has room |
| `Payments.TopUpExactly` | contracts/stream/src/lib.rs:998-1062 | the caller pays the largest multiple of the rate in the offer, the end moves by exactly the seconds it buys, dust and every claim up to the old end are unchanged |
| `Payments.TopUpHappensExactly` | contracts/stream/src/lib.rs:998-1062 | a top-up succeeds if and only if a manager of a live stream offers its token and at least one second of flow, can pay what is accepted, and end and deposit stay in range |
| `Payments.CreateExactly` | contracts/stream/src/lib.rs:337-457 | a creation stores one new sound stream under the derived id, which was free, with the ordered parties, period, rate, cliff, lock and flags; takes exactly deposit and flat fee; uses up the nonce; lists the id last; changes nothing else |
| `Payments.CreateHappensExactly` | contracts/stream/src/lib.rs:337-457 | a creation succeeds if and only if nonce and id are fresh, cliff, duration and amount are in order, whitelist and limits allow it, fee and then deposit can be paid, and the lists have room |
| `Payments.WithdrawOverflowsExactly` | contracts/stream/src/lib.rs:558-655 | a withdrawal reports overflow if and only if the fee product leaves i128 or a funded, signed renewal would end past u64 |
| `Payments.WithdrawHappensExactly` | contracts/stream/src/lib.rs:533-680 | a withdrawal succeeds if and only if it passes its checks, the fee product fits, and a funded renewal has the sender's signature and an end in u64 |
| `Payments.CompletionAccounts` | contracts/stream/src/lib.rs:617-673 | a withdrawal that ends a stream, for lack of renewal or of the sender's funds, pays the rest and the dust; with earlier payments this is the deposit short of exactly the skipped amount, and equal to it when the cliff is at the start; the record goes, or stays as completed |
| `Payments.BatchCompletionAccounts` | contracts/stream/src/lib.rs:1456-1493 | the same for a batch entry that ends a stream which does not renew, cooldown or not |
| `Payments.PartialCancelConserves` | contracts/stream/src/lib.rs:917-983 | earned, cancelled and kept amounts and earlier payments add up to the deposit, short of exactly the skipped part; every balance is accounted for; the new stream, field by field, goes on from the clock at the old rate and with the old flags, unlocked and past its cliff, until its deposit is used up; the old one is cancelled; lists and balances apart nothing else changes |
| `Payments.HeirFlows` | contracts/stream/src/lib.rs:959-983 | at every later clock get_claimable of the new id is the rate times the time since the partial cancel, up to the new end |
| `Payments.PartialCancelHappensExactly` | contracts/stream/src/lib.rs:895-948 | a partial cancel succeeds if and only if a manager asks for a positive amount that leaves at least one second of flow by the uncapped clock, the new end fits u64, and the lists have room |
| `Payments.ArchiveExactly` | contracts/stream/src/lib.rs:310-331 | a stream can be archived exactly when every second of it has been paid; then nothing is claimable at any later time, and no token moves |
| `Surplus.CallRaises` | contracts/stream/src/lib.rs:337-1562 | the pool's holding beyond what it owes rises at every successful call by an amount given exactly (kept fees, dust and skipped parts left at renewals, skipped parts left at completions and partial cancels, archived dust, overwritten claims, incoming money) and never falls |
| `Surplus.SurplusEveryRun` | contracts/stream/src/lib.rs:337-1562 | after any run the pool holds what it owes plus the sum of these amounts, to the unit |
| `Surplus.SettleGains` | contracts/stream/src/lib.rs:617-673 | a draw with its settlement adds the kept fee, at an end the skipped part, and at a renewal the dust as well |
| `Surplus.PartialRaises` | contracts/stream/src/lib.rs:917-983 | a partial cancel adds what was skipped and the whole claim of a record that its replacement overwrites |
| `Surplus.RenewalStrandsDust` | contracts/stream/src/lib.rs:638-658 | a renewal leaves the dust and the skipped part of the cycle that ended in the pool for good |
| `PauseShift.PauseExactly` | contracts/stream/src/lib.rs:1203-1223 | a pause succeeds if and only if the sender of an active stream asks while the contract is not paused; the record gets the status and the time, nothing else changes |
| `PauseShift.ResumeExactly` | contracts/stream/src/lib.rs:1226-1255 | a resumption succeeds if and only if the sender of a paused stream asks while the contract is not paused; the record, field by field, is active with its times moved by the pause, nothing else changes |
| `PauseShift.ResumedStreamFlows` | contracts/stream/src/lib.rs:1226-1255 | d seconds after a resumption get_claimable is the flow of the time from the last withdrawal to the pause plus d, up to the end, and nothing before the cliff |
| `PauseShift.PauseAndResume` | contracts/stream/src/lib.rs:1203-1255 | pausing for any time and resuming succeeds and only delays: get_claimable is from then on what it would have been, that time earlier |
| `PauseShift.FrozenWhilePaused` | contracts/stream/src/lib.rs:1115-1140 | while a stream is paused get_claimable does not depend on the clock |
| `PauseShift.ResumeKeepsClaimable` | contracts/stream/src/lib.rs:1240-1250 | resuming keeps the claimable amount, clipped or not, if and only if it does not happen at the last moment of u64 with accrued time still behind the cliff |
| `PauseShift.ResumeCallKeepsClaimable` | contracts/stream/src/lib.rs:1226-1255 | the entry point leaves get_claimable unchanged at any time before the last moment of u64 |
| `PauseShift.PausesAreShifts` | contracts/stream/src/lib.rs:1203-1255 | after any run with any number of pauses of an otherwise untouched stream, every time field is the original one plus the paused time so far |
| `PauseShift.ClaimableAfterPauses` | contracts/stream/src/lib.rs:1203-1255 | and get_claimable is what the stream never paused owes at wall time minus total paused time |
| `Renewal.RenewalTiles` | contracts/stream/src/lib.rs:638-659 | a withdrawal at or after the end that leaves the stream active has moved it to the next cycle, which starts at the old end and lasts as long; the claim was paid, the sender paid the whole deposit again, and nothing else changed |
| `Renewal.BatchRenewalTiles` | contracts/stream/src/lib.rs:1456-1478 | the same for a batch entry that leaves the stream stored |
| `Renewal.RenewalHappensExactly` | contracts/stream/src/lib.rs:603-659 | such a renewal happens if and only if the fee product fits, the sender signs and can pay the deposit after the payout, and the new end fits u64 |
| `Renewal.CycleTimes` | contracts/stream/src/lib.rs:649-658 | the n-th cycle starts n durations after the first start, with the same rate, deposit, cliff and dust |
| `Renewal.CatchUpTiles` | contracts/stream/src/lib.rs:617-659 | n withdrawals by an overdue recipient advance exactly n cycles; every balance has moved by the n claims, their fees and n deposits |
| `Renewal.KeepsRenewingExactly` | contracts/stream/src/lib.rs:533-659 | they all go through if and only if for each, read off the first state, the cooldown is over, the fee product fits, the sender has the deposit once more and the next end fits u64 |
| `Renewal.CatchUpTerminates` | contracts/stream/src/lib.rs:617-659 | under these conditions the recipient is caught up after exactly (now - start) / duration renewals and no fewer, with the balances of CatchUpTiles; with one more withdrawal the claims are the rate times the time since the last withdrawal |
| `Schedules.ScheduleIndependence` | contracts/stream/src/lib.rs:558-606 | two runs of accepted and failed calls that skip nothing have paid the same from a stream if and only if they leave it withdrawn up to the same moment of its own time |
| `Schedules.PaidIsStreamed` | contracts/stream/src/vesting_math.rs:36-44 | in one cycle of a stream not withdrawn from before, what a run paid and skipped is compute_total_streamed at the last withdrawal |
| `Schedules.PaidInFull` | contracts/stream/src/lib.rs:533-673 | with the withdrawal that ends the stream after any run, every second up to the end is paid or skipped once |
| `Schedules.BatchReports` | contracts/stream/src/lib.rs:1384-1502 | for every stream a successful batch returns, over the entries that name it, exactly the amounts the totals count, and their fees are the fees counted, also when the stream ends midway |
| `Schedules.ClaimedIsReported` | contracts/stream/src/lib.rs:1373-1503 | the same for the entry point |
| `Schedules.BatchMoney` | contracts/stream/src/lib.rs:1405-1490 | every balance after a whole batch: the sum of what its entries, each with the amount it returns, moved as claim, fee, dust and deposit |
| `Schedules.SplittingFees` | contracts/stream/src/lib.rs:578-590 | over any run at a fixed fee rate, the fees are at most the fee of one payment of the total, and at least that less one unit for every payment but one |
| `Batches.BatchEntryMatchesExactly` | contracts/stream/src/lib.rs:1388-1498 | a batch entry has the result, error and state of withdraw if and only if the cooldown is over, the cliff holds nothing back and no renewal is unfunded |
| `Batches.BatchWithdrawRefinesFold` | contracts/stream/src/lib.rs:1373-1503 | when every entry matches in its turn the batch is the left-to-right fold of withdraw, amounts and errors included; a batch that succeeds is the fold only then |
| `Batches.BatchWithdrawIsFold` | contracts/stream/src/lib.rs:1373-1503 | the same for the entry point, behind its pause check |
| `Batches.BatchCancelMatchesExactly` | contracts/stream/src/lib.rs:1522-1556 | a batch entry equals cancel_stream, state and all, if and only if both clocks, capped by the end, agree or the recipient is the sender, so for every active stream; otherwise it earns the flow of the paused seconds before the end on top |
| `Batches.BatchCancelEntry` | contracts/stream/src/lib.rs:1522-1556 | for any stored or missing stream of any sender, entry and single call agree in outcome and state if and only if that condition holds, or the stream is not the caller's to cancel either way |
| `Batches.BatchCancelRefinesFold` | contracts/stream/src/lib.rs:1506-1562 | the batch never fails once started, leaves the state of the fold of cancel_stream with failures skipped, and reports each outcome |
| `Batches.BatchCancelSettles` | contracts/stream/src/lib.rs:1506-1562 | the call succeeds if and only if it is signed and names one to twenty ids; each report with its error, the streams removed and every balance are read off the state before the call, repeated ids included |
| `Batches.BatchCreateStores` | contracts/stream/src/lib.rs:1330-1367 | under every id the store has the stream its entry orders, field by field, and no other record changes |
| `Batches.BatchCreateGains` | contracts/stream/src/lib.rs:1330-1341 | in each token the sender pays the sum of its entries into the pool and no other balance moves |
| `Batches.BatchCreateExactly` | contracts/stream/src/lib.rs:1274-1369 | on success: distinct fresh ids derived from parties, time and position; under each the sound stream of its own entry (recipient, token, amount, rate, times, lock, flags) with its dust; nothing overwritten; the sender pays each token's sum and no other balance moves; ids appended to the global list; nonce one higher; nothing else changed |
| `Batches.BatchCreateHappensExactly` | contracts/stream/src/lib.rs:1274-1370 | a batch creation succeeds if and only if the contract is not paused, the sender signs with the next batch nonce, the lists are equally long, the end fits, the limit allows it, every entry pays a unit a second under a fresh id, the sender has each token's sum, and the lists have room |
| `Queries.PagesConcatenate` | contracts/stream/src/lib.rs:1092-1172 | the pages at 0, 20, 40 and so on put together are the lists up to there, loaded |
| `Queries.PagesEnumerate` | contracts/stream/src/lib.rs:1149-1159 | from exact indexes, enough pages of get_streams_by_sender return each stored stream of the sender exactly once, and a page of any start and limit is a slice of that, of at most 20 |
| `Queries.ReceivedPagesEnumerate` | contracts/stream/src/lib.rs:1162-1172 | the same of get_streams_by_recipient |
| `Queries.PageHolds` | contracts/stream/src/lib.rs:1149-1172 | a page holds only stored streams of its sender, or recipient, at most limit of them and at most 20 |
| `Queries.IdPagesList` | contracts/stream/src/lib.rs:1092-1107 | enough pages of get_all_stream_ids return every stored id and no other, once each as long as no id was drawn twice |
| `Queries.IdPageHolds` | contracts/stream/src/lib.rs:1092-1107 | a page of it holds only stored ids, at most limit of them and at most 20 |
| `Queries.StatsExactly` | contracts/stream/src/lib.rs:1668-1692 | total_streams counts the stored streams if and only if no stored id is listed twice; then active_streams is exact and total_volume is the true sum clipped to i128 |
| `Queries.CreatedStaysFresh` | contracts/stream/src/lib.rs:391-450 | a successful call keeps the global list free of repetitions if and only if every id it draws was never used before |
| `Queries.FreshEveryRun` | contracts/stream/src/lib.rs:391-1352 | the same over a whole run |
| `Queries.BatchesRepeatIds` | contracts/stream/src/lib.rs:1313-1313 | whatever the hash, two batch creations of one order at one time draw the same ids |
| `Queries.StatsEveryRun` | contracts/stream/src/lib.rs:1668-1692 | from deployment, in any run that reuses no id, the indexes stay exact and all three statistics are those of the store |
| `Refusals.DelegateExactly` | contracts/stream/src/lib.rs:1065-1084 | only the sender appoints or removes a stream's operator; then exactly sender and operator may cancel or split it, with the same effect; other operators stay |
| `Refusals.CancelAutoRenewExactly` | contracts/stream/src/lib.rs:520-531 | only the sender clears the renewal flag, and the call changes nothing else |
| `Refusals.SettingsExactly` | contracts/stream/src/lib.rs:1565-1571 | settings are accepted if and only if the fee is at most 10,000 basis points, and change nothing else |
| `Refusals.RefusalsAreTrue` | contracts/stream/src/lib.rs:310-1255 | every error a call about one stream reports, for whatever arguments and from any funded state, states a fact: the missing stream, the wrong caller, the status, the lock, the cooldown, the amount, the overflow, the missing signature or funds |
| `Refusals.CreationRefusal` | contracts/stream/src/lib.rs:351-446 | the same of a creation |
| `Refusals.BatchCreationRefusal` | contracts/stream/src/lib.rs:1269-1326 | the same of a batch creation, for both of its passes |
| `Refusals.EntryRefusal` | contracts/stream/src/lib.rs:1388-1498 | the same of an entry of batch_withdraw |
| `Refusals.NeverSelfSigned` | contracts/stream/src/lib.rs:348-1520 | no stream entry point succeeds without a signature of its caller |
| `SoroStream.StreamContract.IsPausedOrAutoUnpause` | contracts/stream/src/storage.rs:283-303 | reports and clears the flags as the gate of the machine, of which `Runs.PausedExactly` and `Runs.PauseEveryRun` speak |
| `SoroStream.StreamContract.CreateStream` | contracts/stream/src/lib.rs:337-457 | agrees with `Ledger.CreateStream` in id, errors and whole new state: keys of all three indexes, balances, nonce |
| `SoroStream.StreamContract.Withdraw` | contracts/stream/src/lib.rs:533-680 | agrees with `Ledger.Withdraw`, of which the withdrawal, completion, renewal and schedule results speak: same errors, same whole new state |
| `SoroStream.StreamContract.BatchWithdraw` | contracts/stream/src/lib.rs:1373-1503 | agrees with `Ledger.BatchWithdraw` in amounts, errors and whole new state; a loop over the ids |
| `SoroStream.StreamContract.CancelStream` | contracts/stream/src/lib.rs:684-737 | agrees with `Ledger.CancelStream`: errors, whole new state |
| `SoroStream.StreamContract.RecipientTerminate` | contracts/stream/src/lib.rs:742-798 | agrees with `Ledger.RecipientTerminate`: errors, whole new state |
| `SoroStream.StreamContract.BatchCancel` | contracts/stream/src/lib.rs:1506-1562 | agrees with `Ledger.BatchCancel`: a loop that records an entry's error, keeps the state for it, and stops at a trap |
| `SoroStream.StreamContract.TransferRecipient` | contracts/stream/src/lib.rs:801-892 | agrees with `Ledger.TransferRecipient`: payout, record, and both recipients' slots |
| `SoroStream.StreamContract.PartialCancel` | contracts/stream/src/lib.rs:895-995 | agrees with `Ledger.PartialCancel`, of which `Payments.PartialCancelConserves` gives the new record, with no existence check on the derived id |
| `SoroStream.StreamContract.TopUp` | contracts/stream/src/lib.rs:998-1062 | agrees with `Ledger.TopUp`: errors in order, whole new state |
| `SoroStream.StreamContract.PauseStream` | contracts/stream/src/lib.rs:1203-1223 | agrees with `Ledger.PauseStream`: errors, whole new state |
| `SoroStream.StreamContract.ResumeStream` | contracts/stream/src/lib.rs:1226-1255 | agrees with `Ledger.ResumeStream`, of which `PauseShift.ResumeExactly` gives every field: five clipped time fields, status, pause time |
| `SoroStream.StreamContract.BatchCreate` | contracts/stream/src/lib.rs:1258-1370 | agrees with `Ledger.BatchCreate` in ids, errors and whole new state; the nonce is taken before the other checks |
| `SoroStream.StreamContract.BatchPrePass` | contracts/stream/src/lib.rs:1300-1326 | the nested loops agree with `Ledger.BatchIdsFrom`, of which freshness and distinctness are proved; nothing is written |
| `SoroStream.StreamContract.BatchSecondPass` | contracts/stream/src/lib.rs:1328-1367 | the loop agrees with `Ledger.BatchCreateFrom`, of which `Batches.BatchCreateStores` gives the stored records field by field and `Batches.BatchCreateGains` the payments |
| `SoroStream.StreamContract.ArchiveStream` | contracts/stream/src/lib.rs:310-332 | agrees with `Ledger.ArchiveStream`: record, both list entries and delegate are gone |
| `SoroStream.StreamContract.EmergencyPause` | contracts/stream/src/lib.rs:110-127 | agrees with `Ledger.EmergencyPause`: flag, 72-hour expiry, audit entry in the ring |
| `SoroStream.StreamContract.GetClaimable` | contracts/stream/src/lib.rs:1115-1140 | agrees with `Ledger.GetClaimable`, which never overflows on reachable states |
| `SoroStream.StreamContract.GetStreamsBySender` | contracts/stream/src/lib.rs:1149-1159 | one page of the sender's list, of which `Queries.PagesEnumerate` and `Queries.PageHolds` speak |
| `SoroStream.StreamContract.GetStreamsByRecipient` | contracts/stream/src/lib.rs:1162-1172 | one page of the recipient's list, of which `Queries.ReceivedPagesEnumerate` speaks |
| `SoroStream.StreamContract.GetAllStreamIds` | contracts/stream/src/lib.rs:1092-1107 | one page of the stored ids, of which `Queries.IdPagesList` speaks |
| `SoroStream.StreamContract.GetStats` | contracts/stream/src/lib.rs:1668-1692 | one pass over the global list with a saturating sum |
| `SoroStream.StreamContract.GetAdminLog` | contracts/stream/src/lib.rs:302-304 | the last 20 entries of the audit history |
| `SoroStream.StreamContract.Attempt` | contracts/stream/src/lib.rs:74-1692 | on success the machine's next state, on failure the state as before, keys of every index and of the ring included |
| `SoroStream.StreamContract.Invoke` | contracts/stream/src/lib.rs:74-1692 | every invocation moves the object to the machine's next state, keeps custody, keeps the indexes exact unless it overwrites, and never fails because the pool is short |
| `Witnesses.BatchLooksPastTheCliff` | contracts/stream/src/lib.rs:1405-1412 | before the cliff a batch entry pays 10 where withdraw pays nothing |
| `Witnesses.EarlyWithdrawalIsRefunded` | contracts/stream/src/lib.rs:615-615 | withdraw at 10, before the cliff, pays nothing, and cancel_stream at 60 then pays 50 and refunds 50; without the withdrawal it pays 60 and refunds the documented 40 |
| `Witnesses.BatchPaysPausedSeconds` | contracts/stream/src/lib.rs:1531-1534 | for a stream paused at 60, cancel_stream at 90 pays the recipient 60, and batch_cancel_stream 90 |
| `Witnesses.LastMomentFreesTheCliff` | contracts/stream/src/lib.rs:1240-1247 | get_claimable is 0 before and 10 after a resume_stream that succeeds at the last moment of u64 |
| `Witnesses.FeeProductOverflows` | contracts/stream/src/lib.rs:578-590 | the largest claim can be read but not withdrawn at a fee of two basis points |
| `Witnesses.PartialCancelBreaksRate` | contracts/stream/src/lib.rs:931-977 | a partial cancel that keeps 19 at a rate of 10 leaves a stream of one second |
| `Witnesses.NonceOfAStreamCollides` | contracts/stream/src/lib.rs:391-983 | whatever the hash: a creation with the id of a live stream as its nonce, and a partial cancel of that stream in the same second, draw the same id; if the latter succeeds the index is inexact, and the whole claim of the created stream is left in the pool without an owner |
| `Witnesses.EveryHashCollides` | contracts/stream/src/lib.rs:391-983 | for every hash: from deployment, creating a stream, creating another with the first id as nonce and partially cancelling the first within one second leaves a solvent state with an inexact index |
| `Witnesses.RenewalPassesTheCliff` | contracts/stream/src/lib.rs:533-659 | a withdrawal that renews a stream with its cliff at 50 and its end at 100 leaves the start at 100 |
| `Witnesses.ReissuedIdIsCountedTwice` | contracts/stream/src/lib.rs:1668-1692 | for every hash: from deployment, creating by batch, cancelling and creating again in one second repeats an id, and get_stats reports two streams where one is stored |

## Left out

- Events, metadata and its length limit, version strings, migration records and code upgrade: no effect on funds, records or indexes. `migrate` also appends an audit entry, which the ring's own proof covers.
- Authorisation beyond "this address signed": sessions, nested authorisation and replay protection of the host.
- Admin setters (fee, treasury, exemptions, whitelist, limits, cooldown, minimum duration, creation fee, guardian, governance, admin): one call `DoConfigure` that may set them to anything with a fee of at most 10,000 basis points. The proposal timelock in front of a fee change and `initialize` are part of it.
- Token contracts beyond balance and transfer: allowances, clawback, and a holder's balance outgrowing `i128`.
- The `on_stream_withdraw` callback and the treasury's `deposit` call: foreign code whose failure is ignored; treated as doing nothing.
- The treasury and proxy contracts, and the two calls that forward withdrawals to the treasury.
- SHA-256 and XDR inside `derive_stream_id`: every statement is for an arbitrary function in its place. The collisions shown need no weakness of the hash; they come from equal inputs.
- `get_stream`, `get_nonce`, `is_participant`, `get_active_streams_by_sender`, `get_active_streams_by_recipient`, getters of settings, and the delegation in `interface.rs`: one-line reads or filters of what is modelled.
- Storage rent, time-to-live, ledger-entry limits and cost.
- The order of writes inside a failing call: a failed call is undone by the host, so only its error is visible.
- `Payments.ArchiveExactly`: assumes a sound record; for a record whose end lies before its start, which no run reaches, the code's saturating subtraction and the model's dust would differ.
- `Queries.StatsExactly`: counts are unbounded integers; the code's `u64` counters cannot overflow because the index length is a `u32`.
