# DeathRoll ledger, audit chain and fairness: a verified model

This project models the parts of the DeathRoll casino that other people's gold depends on, and proves
what they are for. `dafny verify dfyconfig.toml` checks everything.

**The gold ledger.** The deposit/withdraw bot and the Luck bot share one set of tables: users, balances
(with a `locked_balance` column both bots write), tickets, bets, raffle pools, disputes and an audit log.
`Ledger` has one planner per stored procedure: from the rows it reads it either raises or produces a write
set that is installed as a whole. `Books` states what the tables must add up to, `Procedures` shows that
every procedure keeps the books, `Guarantees` lifts this to all runs, `DocumentedIdentity` says exactly when
the identity in a docstring holds, `Effects` and `BetEffects` say for each procedure exactly when it commits
and what gold it moves, `Reversal` and `History` relate steps far apart in a run. `RowLocks` replaces atomic
calls by row-lock micro-steps and proves every interleaving serial; `Schedules` proves that the locks do get
granted and every run of calls is such an interleaving. `Database` has the
procedures as imperative statements proved against the planners and to keep the books, and `Workers` the
periodic timeout and claim-idle loops on top of them.

**The audit chain.** `AuditChain` is the hash chain and its tamper evidence, `ChainWriter` the insert
helper under concurrency, `ChainVerifier` the capped walk and the worker that resumes it.

**Provable fairness.** `RandomBytes` is the byte stream, `Shuffle`, `ShuffleCount` and `SelectionCount` the
Fisher-Yates shuffle and the exact bias of full and partial draws, `Decoders` and `DecoderLaws` the decoders
that use them, `StreamLaws` both of them byte by byte and swap by swap, `VerifierLimits` what the public
verifier can and cannot reproduce, `Seeds` the commit-reveal life of the seeds.

**Small state machines.** `SlidingLimiter`, `BucketLimiter`, `CashierSessions`.

`Sums`, `Octets` and `Arithmetic` are shared vocabulary.

## How the source is read

- A value a procedure reads under `FOR UPDATE` comes from the state. A value it reads without a lock
  (configuration, the cashier's characters, the active raffle period, the duplicate-bet look-up, the banned
  flag in `create_deposit_ticket` and `apply_bet`, whether `ensure_seeds` saw a row, a balance that is only
  copied into an audit row) is an argument of the step, so the results hold whatever was read.
- Any RAISE, CHECK, UNIQUE, NOT NULL or FOREIGN KEY failure leaves the state unchanged. Where two
  constraints could fail in one call the model may name the other one than Postgres would.
- The final `apply_bet` is the one of migration 0023 and the final `create_deposit_ticket` the one of 0015.
- Runs assume what the admin command enforces or implies: a withdraw fee between 0 and 10000 basis points,
  and a commission and rake that are not negative and together at most 10000.
- HMAC and SHA-256 are arbitrary functions with results of the right length, random seeds and clock readings
  are step arguments. Ledger and session times are integers (microseconds), limiter times are reals.

## What the proofs turned up

- The identity in the docstring of migration 0007 omits locked, delivered and pooled gold. It is false as soon
  as a withdraw ticket is open (`DocumentedIdentity.IdentityFails`) and holds exactly when no gold is locked,
  delivered or raked (`DocumentedIdentity.DocumentedIff`); what is conserved is `Guarantees.GoldIsConserved`.
- The zero block hashed in front of the first audit row has 64 bytes, not the 32 its comment says. With
  texts that start with a brace this is what keeps the first row's framing unambiguous.
- The walk alone does not see rows cut from the end of the audit log, nor ids renumbered in the same order
  (`ChainVerifier.WalkIgnores`): the head hash has to be kept elsewhere.
- The audit worker rechecks the boundary row on every tick, so it works with every row cap from two on and
  gets stuck with a cap of one.
- An idle claim that is also over two hours old is released, not cancelled: the release query runs first.
- The public verifier reproduces a bet for every digest only up to 1024 mines, 19 decks and 2048 rounds.
- `history.last_nonce` is the next unused nonce, that is, the number of draws; a ticket has to be recomputed
  with its own client seed, since history keeps only the last one.
- Two racing first calls of `ensure_seeds` rotate the seed; a call archives a live row exactly when its look-up
  was stale (`Seeds.EnsureArchivesIff`).
- Stored session durations are rounded to the nearest second, so their sum can exceed the elapsed time; for
  which session lengths it cannot is `CashierSessions.StoredDurationsFitIff`.
- `expire_cashier` fails for a cashier without a `core.users` row, since its audit row has no fallback target,
  although such a cashier can go online (`CashierSessions.UnregisteredNeverExpires`).

## Model

| member | source | states |
|---|---|---|
| `Guarantees.GoldIsConserved` | tests/integration/dw/test_treasury_invariant.py:3-13 | After every run of both bots: balances and locks of all accounts, plus all raffle pools, plus gold delivered by confirmed withdraws, plus sweeps, equals confirmed deposits plus the pools' opening amounts |
| `Guarantees.LocksAreBacked` | ops/alembic/versions/20260501_0007_dw_withdraw_fns.py:107-112 | After every run each user's `locked_balance` is the sum of their open and claimed withdraws plus the stakes of their open bets, although two bots write the column |
| `Guarantees.AuditLogReplays` | ops/alembic/versions/20260501_0007_dw_withdraw_fns.py:219-256 | After every run each balance is the sum of after - before over the audit rows targeting that user; the treasury also holds the bets' unaudited share, which refunds drop |
| `Guarantees.PoolsAndWagersAreBacked` | ops/alembic/versions/20260504_0023_luck_resolve_refund_cashout.py:233-247 | After every run each pool is its opening amount plus the rakes of its bets that were not refunded; each `total_wagered` is the sum of the user's bets that were not refunded |
| `Guarantees.AmountsNeverOverdraw` | ops/alembic/versions/20260501_0001_core_users_balances.py:48-55 | After every run no balance column, fee, stake or delivery is negative, a bet splits exactly into stake, commission and rake, and every user row has its balance row |
| `Guarantees.StepKeepsInv` | ops/alembic/versions/20260504_0023_luck_resolve_refund_cashout.py:193-253 | Every procedure with any arguments, committing or raising, keeps the rows well formed and all five book equations |
| `Guarantees.RunKeepsInv` | tests/integration/dw/test_treasury_invariant.py:3-13 | The same over every sequence of calls, from any state that satisfies the books |
| `DocumentedIdentity.DocumentedIff` | ops/alembic/versions/20260501_0007_dw_withdraw_fns.py:25-28 | The identity of the docstring (balances plus sweeps equal deposits) holds in a state that keeps the books if and only if no gold is locked, no withdraw delivered any and no pool holds a rake |
| `DocumentedIdentity.DocumentedOverRunsIff` | ops/alembic/versions/20260501_0007_dw_withdraw_fns.py:25-28 | The same after every run |
| `DocumentedIdentity.OpeningWithdrawBreaksIdentity` | ops/alembic/versions/20260501_0007_dw_withdraw_fns.py:103-112 | Whatever the state, the documented identity is false right after a withdraw ticket was opened |
| `DocumentedIdentity.IdentityFails` | ops/alembic/versions/20260501_0007_dw_withdraw_fns.py:25-28 | A reachable run after which it is false: a new user deposits and asks to withdraw |
| `Guarantees.CancelWithdrawCommitsIff` | ops/alembic/versions/20260501_0007_dw_withdraw_fns.py:290-316 | A cancel commits exactly on an open or claimed ticket; the locked-too-low guard never fires |
| `Guarantees.ConfirmWithdrawCommitsIff` | ops/alembic/versions/20260501_0007_dw_withdraw_fns.py:168-201 | A confirm commits exactly when that cashier holds, or has already confirmed, the ticket; the locked-too-low guard never fires |
| `Guarantees.ResolveBetCommitsIff` | ops/alembic/versions/20260504_0023_luck_resolve_refund_cashout.py:340-385 | An open bet closes with any legal status unless it is a win whose net payout exceeds the treasury balance |
| `Guarantees.RefundBetCommitsIff` | ops/alembic/versions/20260504_0023_luck_resolve_refund_cashout.py:449-498 | A refund of an open bet commits unless the treasury no longer holds its commission and fallback rake; lock, wagered total and pool never block it |
| `Guarantees.LiveTicketIsCovered` | ops/alembic/versions/20260501_0007_dw_withdraw_fns.py:304-316 | The lock of a user covers each of their live withdraws |
| `Guarantees.OpenBetIsCovered` | ops/alembic/versions/20260504_0023_luck_resolve_refund_cashout.py:369-375 | Lock, wagered total and pool cover each open bet |
| `Procedures.CutsFit` | ops/alembic/versions/20260504_0023_luck_resolve_refund_cashout.py:193-195 | Two basis-point cuts of together at most 100% are non-negative and leave a non-negative stake |
| `Books.BalancedKeepsBooks` | tests/integration/dw/test_treasury_invariant.py:6-13 | Any write set whose differences balance keeps every book equation |
| `Reversal.RefundUndoesBet` | ops/alembic/versions/20260504_0023_luck_resolve_refund_cashout.py:449-498 | Apply, any run in between with any configuration and new raffle periods, then refund: balance, lock, wagered total, treasury and pool move at the refund by exactly minus what they moved at apply |
| `Reversal.RunExtends` | ops/alembic/versions/20260504_0023_luck_resolve_refund_cashout.py:255-267 | No run changes the terms fixed when a bet or ticket was created, and nothing terminal is reopened |
| `History.TicketSettlesOnce` | ops/alembic/versions/20260501_0006_dw_deposit_fns.py:145-185 | In the log of any run a ticket is opened at most once and confirmed or cancelled at most once in total; its owner's balance moved exactly once for a confirmed deposit or a withdraw, and once back for a cancelled withdraw, by the amount; nobody else's moved for it |
| `History.OneClaimPerOpenPeriod` | ops/alembic/versions/20260501_0008_dw_lifecycle_fns.py:51-89 | After every prefix of a run the claims of a ticket exceed its releases by zero or one |
| `History.OneBetPerKey` | ops/alembic/versions/20260504_0020_luck_schemas.py:109 | At most one bet row, one placement and one closing per user and idempotency key, although the duplicate look-up is unlocked, and the owner's balance moved by what that one bet's outcome means |
| `RowLocks.PlanLocal` | ops/alembic/versions/20260501_0006_dw_deposit_fns.py:145-172 | For every procedure: what it writes depends only on the rows it locks, where foreign keys and conflict-free inserts rely on a row's existence only |
| `RowLocks.PlanWithin` | ops/alembic/versions/20260504_0023_luck_resolve_refund_cashout.py:225-253 | For every procedure: it changes only rows it locks, the key of a row it inserts or the data of a row it updates |
| `RowLocks.CommitIsAtomic` | ops/alembic/versions/20260501_0007_dw_withdraw_fns.py:290-323 | At its commit a transaction that computed from earlier locked reads has the effect of running atomically then |
| `RowLocks.CommitDisturbsNobody` | ops/alembic/versions/20260501_0008_dw_lifecycle_fns.py:51-89 | A commit leaves true whatever another running call has read under its locks |
| `RowLocks.InterleavingsAreSerial` | ops/alembic/versions/20260501_0008_dw_lifecycle_fns.py:134-163 | Every interleaving of lock, read, commit and abort steps of any number of calls of any procedures ends in the state of the committed calls run one after the other |
| `RowLocks.SingleWinner` | ops/alembic/versions/20260501_0008_dw_lifecycle_fns.py:51-89 | For every interleaving: at most one confirm or cancel per ticket, its owner's balance moved exactly as often and as far as its outcome means and nobody else's, at most one outstanding claim, one bet per key with one set of gold movements |
| `RowLocks.NoLostUpdate` | ops/alembic/versions/20260501_0006_dw_deposit_fns.py:174-185 | For every interleaving each balance is the replay of the audit log, though absolute balances are written |
| `Schedules.LockIsGranted` | ops/alembic/versions/20260501_0008_dw_lifecycle_fns.py:51-62 | A needed lock that is free or shared is held after the step and the row is read as committed |
| `Schedules.SerialRunsAreInterleavings` | ops/alembic/versions/20260501_0008_dw_lifecycle_fns.py:134-163 | Every run of calls is what some interleaving commits: the lock protocol commits whatever the procedures commit |
| `Schedules.IndependentCallsOverlap` | ops/alembic/versions/20260501_0006_dw_deposit_fns.py:145-172 | Two calls that meet only in shared rows hold all their locks at once and then commit one after the other |
| `Schedules.OwnersAreIndependent` | ops/alembic/versions/20260501_0006_dw_deposit_fns.py:145-185 | Deposit confirmations and withdraw requests of different owners are such calls |
| `Effects.CreateDepositCommitsIff` | ops/alembic/versions/20260503_0015_dw_deposit_ban_check.py:63-87 | A deposit request commits exactly for a user not seen banned, a configured amount range, known region and faction, a fresh id and an existing audit target |
| `Effects.CreateDepositEffect` | ops/alembic/versions/20260503_0015_dw_deposit_ban_check.py:91-127 | It opens one ticket with the given terms and expiry and moves no gold |
| `Effects.ConfirmDepositCommitsIff` | ops/alembic/versions/20260501_0006_dw_deposit_fns.py:145-160 | A deposit confirm commits exactly when that cashier holds, or has already confirmed, the ticket |
| `Effects.ConfirmDepositEffect` | ops/alembic/versions/20260501_0006_dw_deposit_fns.py:162-217 | The first confirm credits the owner the amount, moves nothing else, closes the ticket and returns the new balance |
| `Effects.ConfirmDepositRepeat` | ops/alembic/versions/20260501_0006_dw_deposit_fns.py:150-154 | A repeated confirm changes nothing and returns the balance |
| `Effects.CancelDepositCommitsIff` | ops/alembic/versions/20260501_0006_dw_deposit_fns.py:238-255 | A deposit cancel commits exactly on an open or claimed ticket whose audit target exists |
| `Effects.CancelDepositEffect` | ops/alembic/versions/20260501_0006_dw_deposit_fns.py:238-271 | It only closes the ticket |
| `Effects.CreateWithdrawCommitsIff` | ops/alembic/versions/20260501_0007_dw_withdraw_fns.py:66-106 | A withdraw request commits exactly for a registered user who is not banned and holds the amount, within the configured range, with known region and faction |
| `Effects.CreateWithdrawEffect` | ops/alembic/versions/20260501_0007_dw_withdraw_fns.py:100-142 | It moves the amount from balance to lock and stores the fee, the rate rounded down: fee * 10000 <= amount * rate < (fee + 1) * 10000 |
| `Effects.ConfirmWithdrawEffect` | ops/alembic/versions/20260501_0007_dw_withdraw_fns.py:197-256 | The first confirm takes the amount out of the lock, gives the treasury the fee, stores amount - fee as delivered |
| `Effects.CancelWithdrawEffect` | ops/alembic/versions/20260501_0007_dw_withdraw_fns.py:304-350 | A cancel moves the amount from the lock back to the balance and returns the new balance |
| `Effects.ClaimCommitsIff` | ops/alembic/versions/20260501_0008_dw_lifecycle_fns.py:51-77 | A claim commits exactly on an open ticket with a region match whose audit target exists |
| `Effects.ClaimEffect` | ops/alembic/versions/20260501_0008_dw_lifecycle_fns.py:79-107 | It stores the cashier and the time and moves no gold |
| `Effects.ReleaseCommitsIff` | ops/alembic/versions/20260501_0008_dw_lifecycle_fns.py:134-152 | A release commits exactly for the cashier who holds the claim, if the audit target exists |
| `Effects.ReleaseEffect` | ops/alembic/versions/20260501_0008_dw_lifecycle_fns.py:154-181 | It clears the claim and moves no gold |
| `Effects.SweepCommitsIff` | ops/alembic/versions/20260501_0011_dw_treasury_fns.py:43-55 | A sweep commits exactly for a positive amount the treasury holds |
| `Effects.SweepEffect` | ops/alembic/versions/20260501_0011_dw_treasury_fns.py:56-79 | It takes that amount from the treasury and nothing from anyone else |
| `Effects.TreasuryToUserCommitsIff` | ops/alembic/versions/20260501_0011_dw_treasury_fns.py:101-118 | A payout commits exactly for a positive amount the treasury holds and a target other than itself |
| `Effects.TreasuryToUserEffect` | ops/alembic/versions/20260501_0011_dw_treasury_fns.py:114-155 | It moves the amount from the treasury to the target |
| `Effects.OpenDisputeCommitsIff` | ops/alembic/versions/20260501_0010_dw_dispute_fns.py:54-74 | A dispute opens exactly once per ticket, for a valid role and an existing ticket |
| `Effects.ResolveDisputeCommitsIff` | ops/alembic/versions/20260501_0010_dw_dispute_fns.py:128-164 | A resolution commits exactly on an open dispute with a legal action: a refund needs a payable user and a treasury that holds the payout, a full refund a withdraw ticket |
| `Effects.ResolveDisputeEffect` | ops/alembic/versions/20260501_0010_dw_dispute_fns.py:147-177 | A partial refund pays the ticket's user the caller's amount, a full refund the ticket's amount, the other two actions nothing |
| `Effects.RejectDisputeIs` | ops/alembic/versions/20260503_0013_dw_dispute_reject_fn.py:41-71 | A rejection commits exactly on an open dispute and moves no gold |
| `Effects.BanIs` | ops/alembic/versions/20260501_0012_dw_ban_fns.py:42-68 | A ban commits for everyone but the treasury, creates missing rows, sets the flag and moves no gold |
| `Effects.UnbanIs` | ops/alembic/versions/20260501_0012_dw_ban_fns.py:93-103 | An unban commits exactly for a registered user and only clears the flag |
| `BetEffects.PlaceBetCommitsIff` | ops/alembic/versions/20260504_0023_luck_resolve_refund_cashout.py:156-215 | A bet is placed exactly for an enabled game, an amount in range that the balance covers, a user not seen banned, and a fresh id and key |
| `BetEffects.PlaceBetRepeat` | ops/alembic/versions/20260504_0023_luck_resolve_refund_cashout.py:156-166 | A duplicate key changes nothing and returns the earlier bet |
| `BetEffects.PlaceBetEffect` | ops/alembic/versions/20260504_0023_luck_resolve_refund_cashout.py:193-292 | The commission is the commission rate and the rake the rake rate of the amount, each rounded down, the stake what is left; the amount leaves the balance, the stake enters the lock, the commission goes to the treasury, the rake to the period's pool or without a period to the treasury |
| `BetEffects.ResolveBetCommits` | ops/alembic/versions/20260504_0023_luck_resolve_refund_cashout.py:331-385 | A resolution commits exactly with a legal status and payout on an open bet unless it is a win the treasury cannot pay, or on a closed one if it repeats the stored outcome |
| `BetEffects.ResolveBetEffect` | ops/alembic/versions/20260504_0023_luck_resolve_refund_cashout.py:356-419 | By status: a win credits the payout and gives the treasury stake - payout, a loss gives it the stake, a tie returns the stake; the lock falls by the stake and the total won rises by the credit |
| `BetEffects.ResolveBetRepeat` | ops/alembic/versions/20260504_0023_luck_resolve_refund_cashout.py:338-346 | A repeated resolution changes nothing |
| `BetEffects.RefundBetCommits` | ops/alembic/versions/20260504_0023_luck_resolve_refund_cashout.py:440-498 | A refund commits exactly on a refunded bet, or an open one whose commission and fallback rake the treasury still holds |
| `BetEffects.RefundBetEffect` | ops/alembic/versions/20260504_0023_luck_resolve_refund_cashout.py:459-527 | It returns the amount, frees the lock, lowers the wagered total and takes commission and rake back from where they went |
| `BetEffects.CashoutIs` | ops/alembic/versions/20260504_0023_luck_resolve_refund_cashout.py:547-581 | A cash-out commits exactly on an open Mines bet, and is the win of p with p <= stake * multiplier < p + 1 |
| `Database.EnsureRows` | ops/alembic/versions/20260501_0006_dw_deposit_fns.py:162-167 | Both conflict-free inserts: the user and balance rows exist afterwards, unchanged if they did before |
| `Database.CreditDeposit` | ops/alembic/versions/20260501_0006_dw_deposit_fns.py:162-217 | The statements of a deposit confirmation produce exactly the planned row versions, or nothing when a CHECK or foreign key fails |
| `Database.LockGold` | ops/alembic/versions/20260501_0007_dw_withdraw_fns.py:103-142 | The same for opening a withdraw ticket |
| `Database.DeliverGold` | ops/alembic/versions/20260501_0007_dw_withdraw_fns.py:197-256 | The same for delivering a withdraw and crediting the fee to the treasury |
| `Database.ReturnGold` | ops/alembic/versions/20260501_0007_dw_withdraw_fns.py:309-350 | The same for cancelling a withdraw |
| `Database.MoveBetCuts` | ops/alembic/versions/20260504_0023_luck_resolve_refund_cashout.py:233-253 | Commission and rake reach the treasury and the pool, or leave them, as planned; the CHECKs of the intermediate statements agree with those of the final rows |
| `Database.TakeStake` | ops/alembic/versions/20260504_0023_luck_resolve_refund_cashout.py:225-292 | The statements of a bet placement against its planned write set |
| `Database.Settlement` | ops/alembic/versions/20260504_0023_luck_resolve_refund_cashout.py:356-366 | A win credits the payout and leaves the treasury the rest of the stake, a loss gives it the stake, a tie credits the stake and leaves the treasury alone |
| `Database.PayOut` | ops/alembic/versions/20260504_0023_luck_resolve_refund_cashout.py:369-385 | The two balance updates of a resolution and their CHECKs against the planned accounts |
| `Database.CloseBet` | ops/alembic/versions/20260504_0023_luck_resolve_refund_cashout.py:357-419 | The statements of a bet resolution against its planned write set |
| `Database.ReturnStake` | ops/alembic/versions/20260504_0023_luck_resolve_refund_cashout.py:459-527 | The statements of a bet refund against its planned write set |
| `Database.PayFromTreasury` | ops/alembic/versions/20260501_0011_dw_treasury_fns.py:114-155 | The statements of a treasury payout against its planned write set |
| `Database.SweepGold` | ops/alembic/versions/20260501_0011_dw_treasury_fns.py:56-77 | The statements of a treasury sweep against its planned write set |
| `Database.MoveTicket` | ops/alembic/versions/20260501_0008_dw_lifecycle_fns.py:79-107 | The statements of a claim, release or deposit cancel against their planned write set |
| `Database.NewestActive` | ops/alembic/versions/20260504_0023_luck_resolve_refund_cashout.py:220-223 | The active period with the greatest id, or none when there is none |
| `Database.RunConfirmDeposit` | ops/alembic/versions/20260501_0006_dw_deposit_fns.py:145-217 | Reply and row versions of the call, error cases and the idempotent repeat included |
| `Database.RunCreateWithdraw` | ops/alembic/versions/20260501_0007_dw_withdraw_fns.py:66-142 | Reply and row versions of the call, every refusal in its order |
| `Database.RunConfirmWithdraw` | ops/alembic/versions/20260501_0007_dw_withdraw_fns.py:168-267 | Reply and row versions of the call, every refusal and the idempotent repeat included |
| `Database.RunCancelWithdraw` | ops/alembic/versions/20260501_0007_dw_withdraw_fns.py:290-350 | Reply and row versions of the call, every refusal included |
| `Database.RunCreateDeposit` | ops/alembic/versions/20260503_0015_dw_deposit_ban_check.py:63-127 | Reply and row versions of the call, the ban check and every refusal included |
| `Database.RunCancelDeposit` | ops/alembic/versions/20260501_0006_dw_deposit_fns.py:238-271 | Reply and row versions of the call, every refusal included |
| `Database.RunClaimTicket` | ops/alembic/versions/20260501_0008_dw_lifecycle_fns.py:51-107 | Reply and row versions of the call, the region match is an argument |
| `Database.RunReleaseTicket` | ops/alembic/versions/20260501_0008_dw_lifecycle_fns.py:134-181 | Reply and row versions of the call, every refusal included |
| `Database.RunSweep` | ops/alembic/versions/20260501_0011_dw_treasury_fns.py:43-79 | Reply and row versions of the call, every refusal included |
| `Database.RunTreasuryToUser` | ops/alembic/versions/20260501_0011_dw_treasury_fns.py:101-155 | Reply and row versions of the call, every refusal included |
| `Database.RunPlaceBet` | ops/alembic/versions/20260504_0023_luck_resolve_refund_cashout.py:156-297 | Reply and row versions of the call, with the newest active period and the stored cuts; a duplicate key returns the earlier bet |
| `Database.RunResolveBet` | ops/alembic/versions/20260504_0023_luck_resolve_refund_cashout.py:323-419 | Reply and row versions of the call, every refusal and the idempotent repeat included |
| `Database.RunCashoutMines` | ops/alembic/versions/20260504_0023_luck_resolve_refund_cashout.py:547-581 | Reply and row versions of the call, a win with the stake times the multiplier rounded down |
| `Database.RunRefundBet` | ops/alembic/versions/20260504_0023_luck_resolve_refund_cashout.py:440-527 | Reply and row versions of the call, every refusal and the idempotent repeat included |
| `Database.Tables.ConfirmDeposit` | ops/alembic/versions/20260501_0006_dw_deposit_fns.py:145-217 | The call on the database object: reply and committed rows as planned, and the books and the configuration stay in order |
| `Database.Tables.CreateWithdrawTicket` | ops/alembic/versions/20260501_0007_dw_withdraw_fns.py:66-142 | The call on the database object: reply and committed rows as planned, and the books and the configuration stay in order |
| `Database.Tables.ConfirmWithdraw` | ops/alembic/versions/20260501_0007_dw_withdraw_fns.py:168-267 | The call on the database object: reply and committed rows as planned, and the books and the configuration stay in order |
| `Database.Tables.CancelWithdraw` | ops/alembic/versions/20260501_0007_dw_withdraw_fns.py:290-350 | The call on the database object: reply and committed rows as planned, and the books and the configuration stay in order |
| `Database.Tables.CreateDepositTicket` | ops/alembic/versions/20260503_0015_dw_deposit_ban_check.py:63-127 | The call on the database object: reply and committed rows as planned, and the books and the configuration stay in order |
| `Database.Tables.CancelDeposit` | ops/alembic/versions/20260501_0006_dw_deposit_fns.py:238-271 | The call on the database object: reply and committed rows as planned, and the books and the configuration stay in order |
| `Database.Tables.ClaimTicket` | ops/alembic/versions/20260501_0008_dw_lifecycle_fns.py:51-107 | The call on the database object: reply and committed rows as planned, and the books and the configuration stay in order |
| `Database.Tables.ReleaseTicket` | ops/alembic/versions/20260501_0008_dw_lifecycle_fns.py:134-181 | The call on the database object: reply and committed rows as planned, and the books and the configuration stay in order |
| `Database.Tables.TreasurySweep` | ops/alembic/versions/20260501_0011_dw_treasury_fns.py:43-79 | The call on the database object: reply and committed rows as planned, and the books and the configuration stay in order |
| `Database.Tables.TreasuryToUser` | ops/alembic/versions/20260501_0011_dw_treasury_fns.py:101-155 | The call on the database object: reply and committed rows as planned, and the books and the configuration stay in order |
| `Database.Tables.ApplyBet` | ops/alembic/versions/20260504_0023_luck_resolve_refund_cashout.py:156-297 | The call on the database object: reply and committed rows as planned, and the books and the configuration stay in order |
| `Database.Tables.ResolveBet` | ops/alembic/versions/20260504_0023_luck_resolve_refund_cashout.py:323-419 | The call on the database object: reply and committed rows as planned, and the books and the configuration stay in order |
| `Database.Tables.CashoutMines` | ops/alembic/versions/20260504_0023_luck_resolve_refund_cashout.py:547-581 | The call on the database object: reply and committed rows as planned, and the books and the configuration stay in order |
| `Database.Tables.RefundBet` | ops/alembic/versions/20260504_0023_luck_resolve_refund_cashout.py:440-527 | The call on the database object: reply and committed rows as planned, and the books and the configuration stay in order |
| `Workers.TimeoutTickConverges` | deathroll_deposit_withdraw/workers/ticket_timeout.py:55-101 | A timeout tick that crashes after any prefix, followed by a full tick at the same time, ends with the tables of one full tick, in whatever order rows are listed: exactly the live tickets past their expiry are cancelled |
| `Workers.TicketsDetermineGold` | deathroll_deposit_withdraw/workers/ticket_timeout.py:117-146 | Lock backing makes the balances a function of the ticket table |
| `Workers.CancelPlanCommitsIff` | deathroll_deposit_withdraw/workers/ticket_timeout.py:117-131 | A worker's cancel moves state exactly on an open or claimed ticket |
| `Workers.IdleTickEffect` | deathroll_deposit_withdraw/workers/claim_idle.py:81-120 | In microseconds: a claim without activity for 1 800 000 000 goes back to open, an active one held for 7 200 000 000 is cancelled, every other ticket is untouched, no such claim is left, and no gold changed owner |
| `Workers.TimeoutTick` | deathroll_deposit_withdraw/workers/ticket_timeout.py:47-101 | The two loops cancel exactly the live tickets past their expiry, touch no other, and return how many there were |
| `Workers.ClaimIdleTick` | deathroll_deposit_withdraw/workers/claim_idle.py:62-128 | The two loops give each ticket the stated fate: an idle claim is released even when it is also over two hours; the two counters are exact |
| `Workers.CancelTicket` | deathroll_deposit_withdraw/workers/ticket_timeout.py:104-146 | True exactly when the cancel moved the ticket; otherwise nothing changed |
| `AuditChain.TamperEvidence` | ops/alembic/versions/20260503_0017_core_audit_chain_verifier.py:93-134 | Two logs that pass the full walk and end in the same hash have equal canonical rows, or the search back from their ends yields two different messages with equal keyed hash |
| `AuditChain.FramingIsUnique` | ops/alembic/versions/20260501_0002_core_audit_log.py:180-189 | A hashed message determines its predecessor hash and its text, the first row's zero block included |
| `ChainWriter.CommittedRowsFormAChain` | ops/alembic/versions/20260501_0002_core_audit_log.py:156-205 | For every interleaving of inserting transactions, with aborts and id gaps: commit order is id order, the committed rows form a valid chain with their links stored, and the state row is the hash of the last one |
| `ChainWriter.InsertCommits` | ops/alembic/versions/20260501_0002_core_audit_log.py:156-205 | When nobody holds the state row, a helper call appends its row under the next id and commits it |
| `ChainWriter.EveryLogIsWritten` | ops/alembic/versions/20260501_0002_core_audit_log.py:156-205 | Every sequence of texts is the committed log of some interleaving |
| `AuditChain.ChainedIff` | ops/alembic/versions/20260501_0002_core_audit_log.py:174-189 | A log is a chain if and only if its first row hashes 64 zero bytes and its text, and every other row the hash before it and its text |
| `ChainWriter.AuditTable.InsertWithChain` | ops/alembic/versions/20260501_0002_core_audit_log.py:147-205 | Appends one row under the next id whose hash is the keyed hash of the previous row's hash, or of 64 zero bytes, followed by the text; or refuses without a key |
| `ChainVerifier.VerifyAuditChain` | ops/alembic/versions/20260503_0017_core_audit_chain_verifier.py:73-136 | The seeded, capped loop answers what the reference walk says: good rows before the first bad one, last good id, first bad id; and its key and limit errors |
| `ChainVerifier.FirstBad` | ops/alembic/versions/20260503_0017_core_audit_chain_verifier.py:93-134 | The first row whose recomputed hash differs |
| `ChainVerifier.Worker.Tick` | deathroll_deposit_withdraw/workers/audit_chain_verifier.py:60-111 | One tick reports the walk from the stored pointer and moves the pointer only past checked rows, never on a break |
| `ChainVerifier.TicksRefineFullWalk` | deathroll_deposit_withdraw/workers/audit_chain_verifier.py:67-111 | On a fixed log no tick ever reports anything but the first broken row of one uncapped walk, and with a cap of at least two every tick from number |log| on reports it |
| `ChainVerifier.PointerIsMonotone` | deathroll_deposit_withdraw/workers/audit_chain_verifier.py:85-106 | The pointer never moves back, never reaches a broken row, and reaches the end of a clean log |
| `ChainVerifier.CapFindsBreakIff` | ops/alembic/versions/20260503_0017_core_audit_chain_verifier.py:85-91 | Exactly the caps of at least two find a break, and a cap of one only a break in the first row, because the boundary row is rechecked on every tick |
| `ChainVerifier.PointerStaysSoundAsLogGrows` | deathroll_deposit_withdraw/workers/audit_chain_verifier.py:67-73 | Rows appended between ticks do not invalidate the pointer |
| `ChainVerifier.WalkIgnores` | ops/alembic/versions/20260503_0017_core_audit_chain_verifier.py:93-134 | A table cut at the end, with its prev_hash column rewritten or its ids renumbered in the same order, is stopped at the same row, or accepted, by the walk in id order |
| `ChainVerifier.WriterLogsVerify` | ops/alembic/versions/20260503_0017_core_audit_chain_verifier.py:85-136 | A log written by any interleaving of helpers never reports a break, from any id and with any cap |
| `RandomBytes.Next` | deathroll_core/fairness/decoders.py:35-45 | The lazy iterator yields byte number n of the infinite stream |
| `RandomBytes.PullUint` | deathroll_core/fairness/decoders.py:48-53 | Shifting and or-ing in the next bytes gives their big-endian number |
| `RandomBytes.PullUintByMultiplying` | docs/verifier/verify.js:72-78 | Multiplying and adding gives the same number |
| `Arithmetic.OrBelowShift` | deathroll_core/fairness/decoders.py:52-52 | Or-ing a byte below a shift adds it, on unbounded integers |
| `RandomBytes.Extend` | deathroll_core/fairness/api.py:64-81 | The extension to N bytes is the first N bytes of the lazy stream, for all N |
| `RandomBytes.ExtensionStreamsSame` | docs/verifier/verify.py:61-86 | Streaming an extension starts with the bytes of streaming the digest |
| `StreamLaws.StreamByteIs` | deathroll_core/fairness/decoders.py:35-45 | Byte i of the stream is the digest's while it lasts, then byte (i - length) mod 32 of the hash of the digest followed by the four-byte counter (i - length) / 32 + 1, highest byte first |
| `StreamLaws.UintIs` | deathroll_core/fairness/decoders.py:48-53 | A word is four stream bytes, highest first |
| `StreamLaws.ShuffledIsSweep` | deathroll_core/fairness/decoders.py:87-95 | The shuffle is the last of the arrays that start with its argument and exchange, at step j, slot n - 1 - j with the slot picked by word j modulo n - j |
| `StreamLaws.SelectedIs` | deathroll_core/fairness/decoders.py:68-84 | Mines and raffles list the last k slots of that sweep over 0, ..., n - 1, the very last one first |
| `StreamLaws.BlackjackIs` | deathroll_core/fairness/decoders.py:213-219 | The shoe that is shuffled holds the copies of each card next to each other, card by card |
| `StreamLaws.StakingIs` | deathroll_core/fairness/decoders.py:251-275 | Round r maps bytes 2r and 2r + 1 onto 1 to 12, the player's first |
| `Shuffle.ShuffleIsBijection` | deathroll_core/fairness/decoders.py:87-95 | For distinct items, the picks that produce a given arrangement exist and are unique |
| `Shuffle.ShuffleReaches` | deathroll_core/fairness/decoders.py:87-95 | Every arrangement of the items is produced by some picks |
| `Shuffle.SettledDeterminesPicks` | deathroll_core/fairness/decoders.py:72-84 | Different picks settle different values, also when only part of the array is settled |
| `Shuffle.SettlePermutes` | deathroll_core/fairness/decoders.py:91-94 | A shuffle keeps the multiset of items |
| `Shuffle.SettledStays` | deathroll_core/fairness/decoders.py:75-84 | Later swaps leave the settled slots alone |
| `ShuffleCount.PermutationCount` | deathroll_core/fairness/decoders.py:87-95 | The number of 4-byte word vectors that give a certain permutation is a product of residue shares, between the products of floor and of ceiling of 2^32 / (i + 1) |
| `SelectionCount.SelectionsCounted` | deathroll_core/fairness/decoders.py:68-70 | The same for the partial draw, for all 0 < k <= n: the number of word vectors that return a given ordered selection lies between the products of floors and of ceilings over the slots settled with a pick |
| `SelectionCount.ShortSelectionCount` | deathroll_core/fairness/decoders.py:75-84 | For k < n that number is exactly the product of the residue shares of the selection's picks |
| `SelectionCount.SelectionIsBijection` | deathroll_core/fairness/decoders.py:72-84 | For distinct items, the picks that return a given ordered selection exist and are unique |
| `SelectionCount.SelectedIsPicked` | deathroll_core/fairness/decoders.py:72-84 | The decoders draw this way from the stream's words |
| `ShuffleCount.ResidueSize` | deathroll_core/fairness/decoders.py:93-93 | How many words leave a given remainder |
| `Decoders.ShuffleInPlace` | deathroll_core/fairness/decoders.py:87-95 | The in-place loop over the array computes the shuffle of the stream's words |
| `Decoders.FisherYatesPartial` | deathroll_core/fairness/decoders.py:56-84 | The partial loop, slice and reversal against the specification, or the refusal of k outside 0 < k <= n |
| `Decoders.DecodeMines` | deathroll_core/fairness/decoders.py:159-185 | Mines positions, or the refusal of a mines count out of range |
| `Decoders.DecodeBlackjack` | deathroll_core/fairness/decoders.py:193-219 | The shuffled shoe, or the refusal of a deck count that is not positive |
| `Decoders.DecodeStaking` | deathroll_core/fairness/decoders.py:251-275 | The rolls of all rounds, two bytes each, or the refusal |
| `Decoders.DecodeRaffle` | deathroll_core/fairness/decoders.py:283-301 | Three winners, or the refusal of fewer than three tickets |
| `DecoderLaws.PartialRefinesFull` | deathroll_core/fairness/decoders.py:72-84 | The partial result is the reversed top slice of the full shuffle on the same stream, for all 0 < k <= n |
| `DecoderLaws.SelectionHasNoRepeats` | deathroll_core/fairness/decoders.py:176-185 | k different indices in range |
| `DecoderLaws.ShoeKeepsCards` | deathroll_core/fairness/decoders.py:213-219 | The shuffled shoe holds each of the 52 cards once per deck and nothing else |
| `DecoderLaws.MinesAgree` | docs/verifier/verify.py:239-242 | Up to 1024 mines, decoding the 4096-byte extension gives the bot's positions |
| `DecoderLaws.BlackjackAgrees` | docs/verifier/verify.py:239-242 | Up to 19 decks the verifier gives the bot's shoe |
| `DecoderLaws.StakingAgrees` | docs/verifier/verify.js:231-233 | Up to 2048 rounds the verifier gives the bot's rolls |
| `DecoderLaws.RafflesAgree` | docs/verifier/verify.py:179-185 | Every raffle agrees, whatever the number of tickets |
| `VerifierLimits.MinesVerifiableIff` | docs/verifier/verify.py:239-242 | Verifier and bot agree for every digest and hash if and only if there are at most 1024 mines (or both refuse) |
| `VerifierLimits.BlackjackVerifiableIff` | docs/verifier/verify.py:239-242 | ... if and only if there are at most 19 decks |
| `VerifierLimits.StakingVerifiableIff` | docs/verifier/verify.js:231-233 | ... if and only if there are at most 2048 rounds |
| `Seeds.RevealedEpochsAreComplete` | ops/alembic/versions/20260504_0025_fairness_rotate_user_seed.py:121-144 | After any run every history row carries the seed of its epoch with the matching hash, last_nonce is the number of draws, and the draws used 0, 1, ... in order, each once |
| `Seeds.LiveNoncesAreExact` | ops/alembic/versions/20260504_0024_luck_helpers.py:129-138 | In the live epoch the nonces issued are exactly 0 .. nonce - 1, each once |
| `Seeds.RevealReproducesTicket` | deathroll_core/fairness/api.py:119-156 | Once revealed, a ticket's bytes are the stream of HMAC(seed, client seed + ":" + d) with the revealed seed, its own client seed and d the decimal numeral of its own nonce, read back digit by digit; its commitment is the hash of that seed |
| `Seeds.NonceCountsDraws` | ops/alembic/versions/20260504_0024_luck_helpers.py:129-138 | The nonce of a ticket is the number of earlier draws in its epoch |
| `Seeds.MessageInjective` | deathroll_core/fairness/engine.py:60-61 | A client seed, a colon and a numeral determine client seed and number, whatever colons the client seed has |
| `Seeds.MessagesNeverRepeat` | deathroll_core/fairness/engine.py:60-61 | Two draws under one seed never hash the same message, whatever client seeds were set in between |
| `Seeds.DrawsDiffer` | deathroll_core/fairness/api.py:119-156 | If the keyed hash is injective for each key, two draws of one epoch of at least 64 bytes differ in their first 64 |
| `Seeds.DecimalIsNumeral` | deathroll_core/fairness/engine.py:60-61 | The nonce's text has only digits and no leading zero, and its decimal value is the nonce |
| `Seeds.DrawIssuesTicket` | deathroll_core/fairness/api.py:84-156 | A draw issues one ticket with the live nonce, client seed and commitment and its HMAC stream, and increments the nonce |
| `Seeds.RotateArchives` | ops/alembic/versions/20260504_0025_fairness_rotate_user_seed.py:121-149 | A rotation archives the live row whole and starts the next epoch at nonce 0 under the same client seed |
| `Seeds.ClientSeedChanges` | deathroll_core/fairness/seeds.py:186-217 | The client seed changes exactly for 1 to 64 letters, digits, underscores and hyphens |
| `Seeds.EnsureIsIdempotent` | deathroll_core/fairness/seeds.py:121-150 | Called in sequence, ensure_seeds provisions once and then changes nothing |
| `Seeds.RacingEnsureRotates` | deathroll_core/fairness/seeds.py:122-140 | Two first calls that both saw no row: the second rotates and reveals an epoch without draws |
| `Seeds.EnsureArchivesIff` | deathroll_core/fairness/seeds.py:122-138 | ensure_seeds archives a live row if and only if its look-up saw none and there is one by then |
| `Seeds.StepKeepsInv` | ops/alembic/versions/20260504_0025_fairness_rotate_user_seed.py:89-149 | Every bootstrap, draw, client-seed change and rotation keeps the commitments |
| `Seeds.SeedTables.RotateUserSeed` | ops/alembic/versions/20260504_0025_fairness_rotate_user_seed.py:85-149 | Archive and replace, or provision; returns the revealed seed and the new commitment |
| `Seeds.SeedTables.NextNonce` | ops/alembic/versions/20260504_0024_luck_helpers.py:129-138 | Hands out the old value and increments it |
| `Seeds.SeedTables.RequestOutcomeBytes` | deathroll_core/fairness/api.py:84-156 | The ticket of a draw, or an error that consumes no nonce |
| `Seeds.SeedTables.SetClient` | deathroll_core/fairness/seeds.py:186-217 | Validated change of the client seed that leaves the nonce alone |
| `SlidingLimiter.EveryWindowIsWithinCapacity` | deathroll_core/ratelimit/__init__.py:49-60 | Under a non-decreasing clock every window (t - w, t] at any time t holds at most capacity grants |
| `SlidingLimiter.FixedWindowLimiter.Acquire` | deathroll_core/ratelimit/__init__.py:42-60 | The pruned queue grants exactly when the naive count over all past grants is below capacity |
| `SlidingLimiter.PrunedQueueCounts` | deathroll_core/ratelimit/__init__.py:52-57 | After pruning, the queue length is the naive count |
| `SlidingLimiter.NewLimiter` | deathroll_core/ratelimit/__init__.py:33-40 | Refuses a capacity or window that is not positive |
| `SlidingLimiter.SparseAttemptsAreGranted` | deathroll_core/ratelimit/__init__.py:49-60 | Attempts with fewer than capacity earlier ones in their window are all granted |
| `BucketLimiter.BucketGrantsFirstMax` | ops/alembic/versions/20260504_0024_luck_helpers.py:93-106 | With fixed arguments a bucket grants exactly its first max_count calls |
| `BucketLimiter.BucketHoldsClock` | ops/alembic/versions/20260504_0024_luck_helpers.py:91-95 | The clock is rounded to the nearest second and lies in its bucket, which starts at a multiple of the window |
| `BucketLimiter.SpanGrantsAtMostTwiceMax` | ops/alembic/versions/20260504_0024_luck_helpers.py:93-106 | Any span of one window length holds at most twice max_count grants |
| `BucketLimiter.RateTable.ConsumeRateToken` | ops/alembic/versions/20260504_0024_luck_helpers.py:86-106 | Counts the call in its bucket and grants up to max_count; refuses bad arguments |
| `CashierSessions.OpenSessionIffOnline` | ops/alembic/versions/20260501_0009_dw_cashier_fns.py:147-161 | Over every run, whatever the clock shows, a cashier has an open session exactly when online, and never two |
| `CashierSessions.SessionsDoNotOverlap` | ops/alembic/versions/20260501_0009_dw_cashier_fns.py:147-161 | Under a monotone clock the sessions of one cashier do not overlap |
| `CashierSessions.OnlineTimeFits` | ops/alembic/versions/20260501_0009_dw_cashier_fns.py:150-160 | The unrounded session times of a cashier never add up to more than the time that passed |
| `CashierSessions.StoredDurationsFitIff` | ops/alembic/versions/20260501_0009_dw_cashier_fns.py:151-160 | For any set of session lengths: the stored durations stay within the elapsed time in every monotone run with such sessions if and only if every length has a fraction of a second below one half |
| `CashierSessions.StoredDurationsCanExceedElapsed` | ops/alembic/versions/20260501_0009_dw_cashier_fns.py:151-160 | Otherwise one session of such a length is a run in which they exceed it |
| `CashierSessions.StoredDurationsFit` | ops/alembic/versions/20260501_0009_dw_cashier_fns.py:151-160 | In every monotone run they exceed it by at most half a second per closed session |
| `CashierSessions.ExpireCommitsIff` | ops/alembic/versions/20260503_0016_dw_expire_cashier.py:38-61 | Expiry commits if and only if the cashier is online and has a user row |
| `CashierSessions.UnregisteredNeverExpires` | ops/alembic/versions/20260503_0016_dw_expire_cashier.py:63-75 | A reachable run in which a cashier without a user row is online and cannot be expired |
| `CashierSessions.RegisteredExpires` | ops/alembic/versions/20260503_0016_dw_expire_cashier.py:38-61 | A cashier with a user row who went online is offline after the expiry, with the one session closed as timed out |
| `CashierSessions.RoundedIs` | ops/alembic/versions/20260501_0009_dw_cashier_fns.py:151-160 | Durations are seconds to the nearest one, halves away from zero |
| `CashierSessions.SetStatusEffect` | ops/alembic/versions/20260501_0009_dw_cashier_fns.py:128-161 | Going online opens one session; a break or going offline ends the open one under its own reason; anything else leaves the sessions alone |
| `CashierSessions.ExpireEffect` | ops/alembic/versions/20260503_0016_dw_expire_cashier.py:38-61 | Expiry sets the cashier offline and ends the open session as timed out |
| `CashierSessions.CashierTables.SetCashierStatus` | ops/alembic/versions/20260501_0009_dw_cashier_fns.py:128-161 | Status and session rows after the call, or the refusal |
| `CashierSessions.CashierTables.ExpireCashier` | ops/alembic/versions/20260503_0016_dw_expire_cashier.py:38-61 | Status and session rows after the call; refuses a cashier who is not online, and one without a user row |

## Left out

- Discord cogs, embeds, channels, alerts, metrics, settings, health checks and the PDF generator: user interface and I/O.
- `dw_manager.py`, `orchestration.py` and the exception table: one-to-one wrappers; their outcome is the reply of each call.
- Coinflip, dice, 99x, roulette, hot/cold and dice duel: one-line decoders that would only add range facts.
- Raffle drawing, leaderboards, bet rounds, game sessions and `grant_raffle_tickets`: tables without a law across them.
- `profit`, `cashier_stats`, thread ids, bet uids, reasons, channels and other text columns: not part of any gold equation.
- BIGINT and INT overflow: Postgres raises there, which is an abort like any other.
- Counters beyond 2^32 chunks: `to_bytes(4)` raises there; `RandomBytes.BigEndian` keeps the low bytes.
- Role grants, direct table writes that bypass the procedures, and deadlock detection (a deadlock is an abort).
- Liveness of wins and refunds after the treasury was swept: the code aborts there, and the commit conditions say exactly when.
- JSON canonicalisation and timestamp text: a row's canonical text is a byte string that starts with a brace.
- RowLocks.PlanLocal: speaks of the writes; the balance that a repeated confirm returns is read without a lock and may be older.
- Database.RunClaimTicket: the cashier's region match is an argument, since character rows are not modelled.
- Disputes, bans, unbans and the opening of raffle periods have planners in `Ledger` and take part in every run; they have no imperative version in `Database`.
- RandomBytes.Next: the generator is a cursor value that each decoder threads through its loop, not a heap object; each decoder has its own, so no aliasing is lost.
- Workers.TimeoutTick: the order of the listed rows is the caller's; the theorem holds for every order, ORDER BY included.
- ChainWriter.AuditTable.InsertWithChain: the chain key is fixed for the life of the table.
- BucketLimiter.RateTable.ConsumeRateToken: times before the epoch are excluded.
