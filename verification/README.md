# XCloud control plane: a verified model

This project models the durable core of the Go control plane and proves what it keeps over whole
runs: the task lease and fencing protocol, the plan-change saga with its wallet ledger, the
destroy / renewal / refund interplay, the billing arithmetic, benefit budgets, and the Agent's
directory migration. `dafny verify dfyconfig.toml` checks all of it.

## How it is built

- `Billing`, `Refunds`: truncating proration, tier rates, plan-change quotes, refund quotes and
  lines over chains of orders. Loops stay loops and are proved against functions on sequences.
- `Schema`, `Evolution`: the tables as one value `Db`, and the relation `Evolves` that every
  statement and transaction promises (identities stay, generations, tokens and the clock only
  grow, a token never comes back).
- `TaskQueue`, `Lifecycle`, `Commerce`, `PlanChange`: one function per SQL statement or
  transaction, from the tables before to the tables after.
- `Tables`, `Upkeep`: the class `ControlPlane`. Its methods update the tables in place, with the
  running balances of the settlement and refund loops, and make the source's checks one by one, in
  methods of their own. Each is proved to do exactly what the function of that statement or
  transaction says and to keep `Valid`: leases and locks name issued tokens, generations are
  positive, linked rows belong together, and the books balance. Where a constant is the point (five
  minutes of lease, seven days of grace, thirty days of retention, three attempts) contracts and
  theorems state it in figures.
- `World`: the database plus everything in flight (worker executions with the row and the status
  they read, renew loops, reconciles, cancel requests, expiries and lost operations between their
  reads and their updates). A step is one statement, one transaction or one Agent call; steps of all
  processes interleave freely, may be delayed for any time, and may never come, which is a crash.
  `Run` is any finite sequence of steps.
- `History`, `Footprints`: what every step leaves alone. `Fencing`, `Calls`, `Leases`, `Progress`: the queue.
  `Ledger`, `Accounting`, `Settlement`, `Crediting`, `Money`, `OrderNets`, `Solvency`: the money.
  `Saga`, `SagaRuns`: plan changes. `Finality`, `Lifespan`, `Supersession`, `Expiry`: refunds and
  destruction. `Reachable`: all invariants together.
- `Traces`, `Counterexamples`, `EvidenceGap`, `GenerationGap`, `FinalityGap`, `ReinstallGap`,
  `Overfull`, `PurgeGap`: runs from the empty database in which a promise one would expect does not hold.
- `Benefits`, `Budgets`, `Checkout`: the automatic benefit, what redemptions spend, and the purchase
  and renewal transactions with the quote they charge.
- `Migration`: the Agent's directory migration with a crash after any file-system operation.

Assumptions: transactions are atomic; there is one clock that never goes back, in nanoseconds;
new ids and tokens are fresh; an update's affected-row count is the number of matched rows; unique
indexes are those of the migrations (task idempotency key, wallet-entry business key, refund
settlement per instance and order, benefit grant per program and user, redemption per order).
Message delivery is "any task, any time": the claim is the only guard. What the catalogue, node
heartbeats and free capacity answer, and which resources an inspection sees, are parameters of the
steps.

Counting matched rows is a setting of the database driver; counting changed rows instead, an update
that finds its row but leaves every column as it was would count as none. Then a lease renewed twice
within the resolution of its columns ends its renew loop early, and a reinstall whose last write
changes nothing is reported as failed. `Fencing.LostLeaseStaysLost`, `Leases.OrphanedLockExtensions`
and `Finality.FinalityStep` speak of these two writes; they bound what happens from above, and fewer
matches only take behaviour away.

`transitionInstance` is called the sole writer of the instance status in its comment
(src/control_plane.go:65-68); the destroy and purge commits write it directly, and the model
follows the code.

## Where a promise has an exact condition

1. Evidence before release (`SagaRuns.EvidenceBeforeRelease`). A finished resize blocks its change
   before `failDeployment` runs, but a reconcile that inspects the *target* in between sets the
   change back to `processing`, and then `failPlanChange` returns the reservation
   (`EvidenceGap.ReleaseWithoutEvidence`). A step releases without evidence if and only if it is this
   path on a processing change of which something else than the source was last observed, or
   nothing. Whatever the path releases in a run was resumed in between because the source was seen,
   unless a reconcile resumed it after seeing something else (`SagaRuns.ExhaustedRetryIsHarmless`).
2. Refund finality (`Finality.FinalityStep`). Two writes go by a status that was read before the
   refund. A cancel request checks the destroy reason before its transaction, which checks only the
   status and one deferred task (`FinalityGap.RefundUndone`, within one instant). A reinstall expects
   the status it read first at its second fence check and in its last write, so one that read a
   planned destruction that was cancelled meanwhile puts a refunded instance back to `running`
   (`ReinstallGap.ReinstallRevives`, five minutes after the purchase). A step revives a refunded
   instance if and only if it is one of these two. The reconciler of lost operations is not a third:
   it serves self-hosted nodes only, and no order's instance is on one.
3. Single crediting (`OrderNets.SettlementNets`, `Solvency.StepNets`). A settlement credits a second
   time exactly when one of its items has a positive refund over an order that was refunded, which
   the settlement does not check. A revived instance with a plan change in flight gets there
   (`Overfull.OrderCreditedTwice`), and then the wallet holds more than was ever put in
   (`Overfull.WalletOverfull`: 12199 of 10000 fen). Every order is credited at most once if and only
   if no such settlement commits (`Solvency.CreditedAtMostOnce`), and then no wallet exceeds what
   administrators put in (`Solvency.NoMoneyPump`); runs without the two steps of item 2 are such runs
   (`Solvency.FreshRunIsClean`).
4. Generation of a cancelled change (`SagaRuns.CancelBumps`). The cancel bumps the generation exactly
   when the instance is running or stopped, or when it settles at once. Requested while the instance
   is scheduled for destruction it bumps nothing, and the original resize can pass the fence later
   (`GenerationGap.OriginalResizeReturns`).
5. Refund agreement (`Refunds.RefundAgreement`). The quote skips segments with less than a day left
   past the cutoff, the lines do not. A chain with such a tail is quoted and always refused at
   settlement (`Refunds.ShortTailBlocksRefund`).
6. Purges and live orders (`Supersession.PurgeMeetsNoLiveOrder`). Whatever happens after the
   eligibility read of a purge, no order of the instance becomes live, if and only if at that read no
   execution of the instance stands between its status write and the activation of its orders, or no
   deploying order of the instance has time left. The read asks neither: a deployment that stalls
   there for as long as plan and retention last activates its order between the purge's second fence
   check and its request (`PurgeGap.PurgeMeetsLiveOrder`).
7. Destroys of withdrawn plans (`Supersession.WithdrawnPlanStaysWithdrawn`). The plan is compared by
   its instant, so one that was withdrawn by a cancellation or a renewal is carried out only if a
   later step plans that very instant again; `Supersession.PlanWriters` says which steps plan what.
   After the renewal of an instance whose plan was due, none does
   (`Supersession.RenewalSupersedesDestroy`).
8. Expired plans (`Expiry.ExpiryStep`). The expiry loop reads the end of service and writes by the
   status alone, so an expired plan may stand although the service, renewed in between, has not ended
   (`Counterexamples.PrematureExpiry`). A step makes such a plan if and only if it is that update on a
   serving instance whose end of service is not past, which the update could ask; a run keeps clear
   of such plans in all its states if and only if it has no such step (`Expiry.ExpiredPlansAreOver`).
9. Promotion codes (`Budgets.QuotedCodeIsRedeemable`). The quote does not ask whether a code is used
   up, so a quoted code can be spent if and only if its own limits have room
   (`Budgets.UsedUpCodeIsQuoted` is a run to a desk where they have not).

## Model

| member | source | states |
|---|---|---|
| `Billing.ProrationBounds` | src/plan_change.go:59-75 | a prorated amount lies between 0 and the full price, is the full price before the start and 0 after the end |
| `Billing.ProrationAntitone` | src/plan_change.go:59-75 | a later start is never worth more |
| `Billing.ProrationFitsInt64` | src/plan_change.go:59-75 | wrapping 64-bit arithmetic is exact below 2^31 fen and 2^32 seconds |
| `Billing.MonthlyBounds` | src/plan_change.go:80-90 | a monthly proration is never negative |
| `Billing.MonthlyFitsInt64` | src/plan_change.go:80-90 | its wrapping 64-bit arithmetic is exact below 2^31 fen and 2^32 seconds |
| `Billing.BuildPlanChangeQuote` | src/plan_change.go:230-343 | each refusal exactly in its case and order; otherwise the tier is the longest of 1, 3, 6 and 12 thirty-day months that the service reaches, its listed rate in basis points or 10000 is rounded down once into a monthly rate, and every line is the floor of its share of whole seconds; totals are the sums of the lines, refunds within what was paid |
| `Billing.TierIsTheLongestReached` | src/plan_change.go:92-104 | a tier is chosen if and only if it is the longest the remaining service reaches |
| `Billing.MonthIsThirtyDays` | src/plan_change.go:80-90 | thirty days cost exactly one monthly price, and a part of a second nothing |
| `Billing.ExchangeKeepsTheChain` | src/plan_change.go:295-334 | the exchange maps a contiguous chain to a contiguous chain from the cutoff to the same end |
| `Billing.PiecewiseCharge` | src/plan_change.go:295-334 | charging a chain order by order never exceeds the single window, and on whole seconds falls short by fewer fen than there are orders |
| `Refunds.CutoffIsTheFourthDay` | src/refund.go:45-52 | the cutoff is a midnight at UTC+8, three calendar days on, more than two and at most three days away |
| `Refunds.CutoffMonotone` | src/refund.go:45-52 | a later request never has an earlier cutoff |
| `Refunds.ValidateRefundSegments` | src/refund.go:103-113 | accepts exactly the chains of non-empty windows without gaps |
| `Refunds.QuoteInstanceRefund` | src/refund.go:57-101 | each refusal exactly in its case; otherwise the days and the amount of the segments with a whole day left past the cutoff, and data kept for thirty days after it |
| `Refunds.LineCoversQuote` | src/refund.go:141-150 | a settlement line is at least the quoted part, at most the price, and equal to the quote unless the segment is a short tail |
| `Refunds.LineInFigures` | src/refund.go:141-150 | a line is the floor of the price times the whole seconds after the cutoff, or after its own start; the quote counts the same amount if and only if a whole day is left |
| `Refunds.RefundAgreement` | src/refund.go:57-101 | the lines add up to the quote if and only if no segment is a short tail |
| `Refunds.ShortTailBlocksRefund` | src/refund.go:240-244 | a valid chain that is quoted and whose settlement is always refused |
| `Tables.ControlPlane.Claim` | src/control_plane.go:866-902 | claims a pending task and locks its instance for five minutes, both or neither, exactly when the row is pending and the lock free; afterwards the token owns both |
| `Tables.ControlPlane.Recover` | src/task_queue.go:271-318 | an expired lease goes back to the queue exactly for compensations, creates of deploying and starts of stopped instances, and to review otherwise |
| `Tables.ControlPlane.Finish` | src/control_plane.go:943-1022 | accepted exactly from the owner of an unexpired lease, who then owns it no more; the five outcomes, with three attempts and a delay of a minute per squared attempt |
| `Tables.ControlPlane.ResumeReviewed` | src/control_handlers.go:849-858 | reviewed work returns to the queue, and nothing else does |
| `Tables.ControlPlane.ClearLocks` | src/control_handlers.go:860 | no lock of the task is left, and no other is touched |
| `Tables.ControlPlane.Retry` | src/control_handlers.go:791-847 | a dangerous failure moves to review, another gets a fresh budget |
| `Tables.ControlPlane.CancelTask` | src/control_handlers.go:212-222 | cancels only queued work of the user's kinds |
| `Tables.ControlPlane.Revoke` | src/control_tunnel.go:444-579 | unbinding a node cancels its queue, isolates running work and drops its locks only if something ran |
| `Tables.ControlPlane.Admits` | src/control_plane.go:907-938 | the fence query: lease, lock, generation, node, device and status, each checked |
| `Tables.ControlPlane.RequestAction` | src/control_plane.go:1495-1528 | a request queues one task under the generation it is stamped with, or nothing |
| `Tables.ControlPlane.ReportAnswer` | src/control_plane.go:1188-1262 | after the answer the status moves exactly if it still is what the execution expects and the table allows it |
| `Tables.ControlPlane.CloseInDoubt` | src/control_loops.go:113-148 | a lost operation's outcome is written exactly if the status still is what was read with the task |
| `Tables.ControlPlane.Quarantine` | src/task_queue.go:324-354 | failed work of the eight dangerous kinds goes to review, a failed resize stays |
| `Tables.ControlPlane.SaveNode` | src/control_plane.go:1691-1732 | saving switches a node and never brings back an unbound device |
| `Tables.ControlPlane.ReadCancel` | src/control_handlers.go:1266-1296 | what a cancel request asks before its transaction: a plan of the user, and no active work |
| `Tables.ControlPlane.ReadExpiry` | src/control_plane.go:1534 | the expiry query: a platform instance that serves past its end of service |
| `Tables.ControlPlane.ReadOperation` | src/control_loops.go:63-77 | the query of the reconciler of lost operations |
| `Tables.ControlPlane.DeployOnOwnNode` | src/selfhosted_nodes.go:219-300 | a deployment on a user's own node commits exactly on a usable one, and moves no money |
| `Tables.ControlPlane.Adjust` | src/platform_upgrade.go:235-269 | refuses exactly zero amounts, unknown wallets and overdrafts |
| `Tables.ControlPlane.Purchase` | src/platform_upgrade.go:516-557 | for a given amount and end of service: charge, order, instance and create task in one transaction |
| `Checkout.BuyingSplitsThePrice` | src/platform_upgrade.go:469-559 | a purchase commits with charge, order and benefit or changes nothing; the list price is the rounded-down listed share of months times price, the wallet pays it less exactly the discount its one redemption records, the end has the bonus days; the benefit is its code's, or none that needs no code outranks it, and status, window, audience and limits of its program are met |
| `Checkout.ExtendingSplitsThePrice` | src/platform_upgrade.go:576-701 | so does a renewal |
| `Checkout.PricesSplitOverRuns` | src/platform_upgrade.go:469-701 | over any run of purchases, renewals, edits and other steps each order's list price is its charge plus its redemption's discount, and nothing is taken off without a redemption |
| `Checkout.QuoteBenefit` | src/commercial_benefits.go:323-432 | the quote step by step: tier, code or automatic choice, discount and days, as the transactions above charge it |
| `Tables.ControlPlane.Renew` | src/platform_upgrade.go:609-699 | for a given amount and end of service: charge, order and withdrawn plans in one transaction, only for a renewable instance |
| `Tables.WriteLines` | src/refund.go:209-239 | the refund loop: one line per active order over a running balance |
| `Tables.ControlPlane.Refund` | src/refund.go:178-290 | commits exactly for an agreeing active chain of a refundable instance; the wallet gains exactly the quoted total |
| `Tables.ControlPlane.Open` | src/plan_change.go:499-669 | reserve, bump, record and queue, exactly for a quote that still matches |
| `Tables.ControlPlane.Fail` | src/plan_change.go:952-988 | releases the reservation exactly of a processing change; the owner has it back in full |
| `Tables.ControlPlane.RequestCancellation` | src/plan_change.go:423-497 | settles at once on an observed source; otherwise queues the way back under the current generation and cancels every queued resize of the instance, leaving running and reviewed ones |
| `Tables.ControlPlane.Compensate` | src/plan_change.go:993-1027 | releases exactly a compensating change under its generation |
| `Tables.SettleLoop` | src/plan_change.go:879-942 | the settlement loop over a running balance; one failing item fails all |
| `Tables.ControlPlane.Settle` | src/plan_change.go:806-950 | commits books, resources and change together, or leaves everything as it was; an execution commits only with its lease and lock in force; with new order ids the wallet gains exactly the refunds, the charge was reserved |
| `PlanChange.SettlementNeedsItsLease` | src/plan_change.go:826-843 | a settlement by a ticket with a token commits only if that token owns the task's unexpired lease and the instance's unexpired lock |
| `Tables.ControlPlane.PlanDestruction` | src/control_handlers.go:1211-1245 | plans destruction in seven days from a serving or failed instance |
| `Tables.ControlPlane.ExpireService` | src/control_plane.go:1534-1539 | plans destruction for seven days after the end of service, exactly of a serving instance |
| `History.RunEvolves` | src/control_plane.go:866-902 | over every run rows keep their identity, generations, tokens and the clock only grow, and an unbound device stays unbound |
| `Fencing.RunKeepsFence` | src/task_queue.go:161-222 | leases, locks, tickets and latest claims agree in every reachable state, with the row re-read after the claim |
| `Fencing.FenceIsExclusive` | src/control_plane.go:907-938 | at most one execution token per instance passes the Agent fence, and it is the latest claim's |
| `Fencing.LostLeaseStaysLost` | src/control_plane.go:907-938 | a token that lost its lease never owns it, passes the fence, finishes, settles, or commits a destroy or purge again |
| `Fencing.LostLockStaysLost` | src/control_plane.go:885-896 | a token whose lock was taken or cleared never passes the fence again, settles, nor extends the lock |
| `Fencing.LockStaysWithItsToken` | src/control_plane.go:885-896 | over any run through which an instance's lock is in force it stays its token's; it changes hands only after it was cleared or ran out |
| `Calls.AgentCallsAreFenced` | src/control_plane.go:1080-1330 | whenever an execution may send a request, its last own step was a fence check it passed with the ticket it holds, when no other token of the instance was admitted and node and device were enabled |
| `Calls.ClearedByItsRows` | src/control_plane.go:907-938 | a step clears an execution if and only if it is its own fence check over rows that admit it: lease and lock of its token in force, generation current or unstamped, node enabled, device enabled if self-hosted, status expected by the action |
| `Calls.RevokedNodeIsNotCalled` | src/control_tunnel.go:444-579 | after a device was unbound no fence check for an instance on its node ever passes again, in any run, even if the node is switched on again |
| `Calls.SuccessIsEarned` | src/control_plane.go:1080-1467 | a worker reports success only in the step that commits what its action is about (destroyed, purged, settled, compensated, reported), or that finds the plan withdrawn or the purge not due; a request counts as applied only if the Agent answered success; status and plan are read once |
| `Leases.OneOutcomePerToken` | src/control_plane.go:940-1022 | each token yields at most one accepted outcome in any run |
| `Leases.OrphanedLockExtensions` | src/task_queue.go:224-251 | after its token is retired, a renew loop extends the lock left behind at most once more, and only if caught between its two statements |
| `Leases.RenewingKeepsTheLease` | src/task_queue.go:224-251 | a worker that renews before five minutes are over keeps lease and lock through any number of rounds |
| `Leases.LostWorkerEndsNothing` | src/control_plane.go:943-1022 | a worker whose lease is gone before its outcome was accepted never unlocks, blocks or fails its change, in any run |
| `Progress.NoWorkerIsStuck` | src/task_queue.go:161-222 | in every reachable state each execution can be brought to its end by at most fourteen steps of its own, whatever the Agent answers |
| `Progress.NoReconcileIsStuck` | src/plan_change.go:736-804 | so can each reconcile by at most five, whatever the inspection sees |
| `Progress.StepsComeInTurn` | src/task_queue.go:161-222 | a statement or request of a worker that is not the next of its program, or not the one of its action, changes nothing |
| `Leases.LostWorkIsNeverClaimed` | src/task_queue.go:286-318 | stop, update, restart, reinstall, destroy, purge, retry, resize and host-access work whose lease ran out is never claimed in any run without an administrator's resume of it |
| `Ledger.PostKeepsWallets` | src/platform_upgrade.go:244-263 | balance and entry move together, so balances stay sums and balance-after stays a prefix sum |
| `Accounting.OpenKeeps` | src/plan_change.go:599-617 | opening keeps the ledger and holds exactly the charge |
| `Accounting.ReleaseKeeps` | src/plan_change.go:964-982 | a release always can be paid, its business key is unused, and the books stay balanced |
| `Accounting.CancelKeeps` | src/plan_change.go:1029-1062 | so does a cancellation settlement |
| `Accounting.PurchaseKeeps` | src/platform_upgrade.go:524-545 | a purchase keeps the ledger invariant |
| `Accounting.RenewKeeps` | src/platform_upgrade.go:649-670 | a renewal keeps the ledger invariant |
| `Settlement.SettlementIsCovered` | src/plan_change.go:853-942 | with the reservation back the loop never runs short for any number of items; it succeeds if and only if no source was credited before, and the owner ends with the old balance plus all refunds |
| `Settlement.LoopCompletes` | src/plan_change.go:891-942 | from any balance that covers the charges, the loop completes if and only if no source order was credited before |
| `Settlement.SettlementKeeps` | src/plan_change.go:806-950 | a committed settlement keeps the ledger and turns the hold into refunds minus charges |
| `Crediting.RefundKeeps` | src/refund.go:209-247 | a refund keeps the ledger and every order's account |
| `OrderNets.SettlementNets` | src/plan_change.go:891-942 | a settlement keeps every order within its price and credited once if and only if no item pays a refund over a refunded source |
| `Money.RunKeepsLedger` | src/plan_change.go:599-669 | every step of every process keeps the ledger and the saga's money |
| `Money.LedgerIsConsistent` | src/platform_upgrade.go:244-263 | in every reachable state wallets are non-negative sums of their entries and every balance-after is a prefix sum |
| `Money.SagaConservation` | src/plan_change.go:806-988 | in every reachable state a change's entries add up to minus its reservation while open, zero once failed, refunds minus charges once succeeded |
| `Saga.StepMoves` | src/plan_change.go:671-1062 | what each step may do to a change: released exactly by the steps listed, terminal statuses left by none |
| `SagaRuns.TerminalForever` | src/plan_change.go:806-988 | succeeded and failed changes are never left |
| `SagaRuns.CompensationIsAbsorbing` | src/plan_change.go:470-488 | a compensating change stays so or ends failed and released, never succeeded |
| `SagaRuns.CompensationEndsByReapplying` | src/plan_change.go:993-1027 | only the commit of an applied compensating resize ends it |
| `SagaRuns.EvidenceBeforeRelease` | src/plan_change.go:736-804 | a release without evidence (observed source, re-applied source, administrator) happens if and only if the exhausted-retry path meets a processing change whose source was not last observed; a settlement has an applied resize or an inspection behind it |
| `SagaRuns.DiscardsAreDecisions` | src/control_handlers.go:868-957 | a task counts as given up if and only if an administrator discards it in review, or for good when it had failed |
| `SagaRuns.ExhaustedRetryIsHarmless` | src/control_plane.go:983-996 | whatever runs in between, what the exhausted-retry path releases was resumed on an observed source, unless a reconcile that saw something else resumed it |
| `SagaRuns.ExhaustedRetryReleases` | src/control_plane.go:1041-1045 | the end of an execution fails a change if and only if its resize failed for at least the third time, the change was marked before, and it is processing again |
| `SagaRuns.MarkingBlocks` | src/control_plane.go:983-996 | a finished resize blocks its processing change if and only if it goes to review: a cancelled command or a failed third attempt |
| `SagaRuns.ReconBlocks` | src/plan_change.go:736-804 | a reconcile blocks a processing change if and only if its inspection saw nothing, or neither source nor target, or its settlement was refused |
| `SagaRuns.SettlingCloses` | src/plan_change.go:736-804 | a reconcile closes its task only with a change that is no longer processing; a refused settlement changes nothing |
| `EvidenceGap.ReleaseWithoutEvidence` | src/plan_change.go:722-731 | a run from the empty database in which the reservation is released although only the target was ever observed |
| `SagaRuns.CancelBumps` | src/plan_change.go:462-488 | the cancel moves the generation on exactly for a serving instance or an immediate settlement |
| `SagaRuns.CancelClearsTheQueue` | src/plan_change.go:462-488 | a cancel that queues a compensation leaves no resize of the instance queued, and running and reviewed ones as they were |
| `SagaRuns.CancelledResizeIsNeverClaimed` | src/plan_change.go:462-488 | a resize that was queued when the cancel committed is never claimed in any run |
| `SagaRuns.OriginalResizeIsFenced` | src/control_plane.go:907-938 | after a bump the original resize never passes the fence again |
| `GenerationGap.OriginalResizeReturns` | src/plan_change.go:462-488 | a run in which it does, because nothing was bumped |
| `Finality.FinalityStep` | src/control_handlers.go:1266-1326 | a step brings a refunded instance of the platform back if and only if it is a stale cancel or a stale reinstall |
| `Finality.RefundFinality` | src/refund.go:253-277 | without such steps a refunded instance is never running or stopped again |
| `FinalityGap.RefundUndone` | src/control_handlers.go:1266-1326 | a run from the empty database, without time passing, that ends with a refunded order on a running instance |
| `ReinstallGap.ReinstallRevives` | src/control_plane.go:1235-1262 | a run in which a reinstall does the same, with every request answered at once |
| `Overfull.OrderCreditedTwice` | src/plan_change.go:891-942 | its continuation: refund and exchange both credit the order, for more than was paid |
| `Overfull.WalletOverfull` | src/plan_change.go:891-942 | one refund later the wallet holds 12199 fen, and 10000 were put in |
| `Solvency.StepNets` | src/plan_change.go:843-942 | a step of any process breaks single crediting if and only if it commits a settlement over a refunded source |
| `Solvency.RunNets` | src/plan_change.go:843-942 | and so does a run, at the first such settlement, for good |
| `Solvency.FreshRunIsClean` | src/refund.go:195-277 | a run without the two reviving steps has no such settlement |
| `Solvency.NoMoneyPump` | src/platform_upgrade.go:469-710 | in a run without such a settlement a wallet never exceeds what administrators put in |
| `Solvency.CreditedAtMostOnce` | src/refund.go:195-247 | each order is credited at most once, within its price, by a refund or an exchange but not both, if and only if the run has no such settlement |
| `Solvency.RefundedNeverSettles` | src/plan_change.go:843-849 | no plan change over a refunded instance settles in a run without the two reviving steps |
| `Lifespan.StepLivesOn` | src/control_plane.go:46-63 | every status write of every step follows the transition table and dates destruction and retention |
| `Lifespan.PurgeFollowsDestroy` | src/control_plane.go:46-63 | every step moves an instance by one of the twelve listed pairs or not at all; `purged` is reached only through `destroyed`, which is dated with a purge exactly thirty days later |
| `Lifespan.RetentionOverRuns` | src/control_plane.go:1390-1431 | a destroyed instance keeps its dates and is purged at least thirty days after the destroy commit |
| `Lifespan.ViewsAreRead` | src/control_handlers.go:1266-1296 | a cancel request, an expiry and a lost operation start only from rows that call for them, and act later on what was read then |
| `Supersession.EndsAreFenced` | src/control_plane.go:1436-1467 | `destroyed` and `purged` are written exactly by fenced commits, of the plan in force and of a due purge |
| `Supersession.DestroyMatchesItsKey` | src/control_plane.go:1436-1467 | the destroy time in force at the commit is the one in the task's idempotency key |
| `Supersession.PurgeCallIsLate` | src/control_plane.go:1390-1408 | a purge request leaves for the Agent only thirty days after the destroy commit |
| `Supersession.PlanWriters` | src/control_plane.go:1535-1539 | a destruction time comes into force in a step if and only if the step plans exactly it: an expiry, a request or a refund |
| `Supersession.WithdrawnPlanStaysWithdrawn` | src/control_plane.go:1436-1467 | a plan that is not in force is carried out by no execution, however old, unless a later step plans the same instant |
| `Supersession.CancelSupersedesDestroy` | src/control_handlers.go:1297-1326 | after a committed cancellation the cancelled destroy task is never claimed and no execution of it commits, in any run |
| `Supersession.CancelWithdrawsPlans` | src/control_handlers.go:1297-1326 | nor does a destroy of another task, unless a later step plans the instant it was built for |
| `Supersession.RenewalSupersedesDestroy` | src/platform_upgrade.go:609-677 | after a renewal of an expired instance whose plan was due no destroy of that plan commits, in any run; of a plan not yet due only if a later refund plans the same instant |
| `Supersession.PurgeMeetsNoLiveOrder` | src/control_plane.go:1395-1425 | from the eligibility read on no unexpired active order appears in any run, if and only if no activation of the instance is under way at the read or no deploying order of it has time left |
| `Supersession.LateActivation` | src/control_plane.go:1195-1210 | an activation under way creates a live order exactly when a deploying order has time left |
| `PurgeGap.PurgeMeetsLiveOrder` | src/control_plane.go:1395-1425 | a run from the empty database to a purge that may call the Agent while an unexpired order of its instance is active |
| `Counterexamples.PrematureExpiry` | src/control_plane.go:1534-1539 | a run in which an expired plan is made for a service that was renewed and goes on |
| `Expiry.ExpiryStep` | src/control_plane.go:1534-1539 | expired plans are for services that are over; a step breaks this if and only if it is the expiry update of a serving instance whose service has not ended |
| `Expiry.ExpiredPlansAreOver` | src/control_plane.go:1534-1539 | it holds in all states of a run from the empty database if and only if the run has no such step |
| `Expiry.TimelyRenewalSupersedes` | src/platform_upgrade.go:609-677 | after such a run and a renewal no destroy of the withdrawn plan commits, unless the plan in force is a refund's of the very same instant |
| `Reachable.ReachableStatesAreSound` | src/task_queue.go:161-222 | every invariant the theorems rely on holds in every state reachable from the empty database |
| `Benefits.TierNeverRaises` | src/commercial_benefits.go:181-200 | a tier price lies between 0 and the full price |
| `Benefits.TierInFigures` | src/commercial_benefits.go:181-200 | a listed share is charged rounded down, an unlisted tier at the full price, and a share outside 0 to 10000 is refused |
| `Benefits.DiscountInFigures` | src/commercial_benefits.go:202-215 | a fixed sum up to the price, a rounded-down share of it, or days instead |
| `Benefits.PriceSplits` | src/commercial_benefits.go:202-215 | payable plus discount is the list price and neither is negative |
| `Benefits.SortIsStablePermutation` | src/commercial_benefits.go:406-414 | the sort is an ordered permutation whose head is the earliest of the best |
| `Benefits.ChooseAutomatic` | src/commercial_benefits.go:386-418 | chooses a candidate exactly if there is one: of no lower priority than any other, at equal priority of no lower discount, the earliest of these |
| `Benefits.ProgramEligible` | src/commercial_benefits.go:239-319 | the eligibility check in the order it is made |
| `Budgets.BenefitDesk.Consume` | src/commercial_benefits.go:438-501 | program, code, grant and redemption move together, exactly when every limit has room |
| `Budgets.BenefitDesk.AdminSave` | src/commercial_benefit_handlers.go:79-135 | saves valid programs only; a new row starts with nothing spent, an old one keeps its counters |
| `Budgets.BenefitDesk.GrantBenefit` | src/commercial_benefit_handlers.go:141-177 | only targeted programs are granted, once per user, whatever became of the grant |
| `Budgets.CountersOverRuns` | src/commercial_benefits.go:450-498 | used counts, cash and days always equal the count and sums over redemptions, whatever is edited |
| `Budgets.EditFits` | src/commercial_benefit_handlers.go:79-135 | an edit keeps all limits if and only if it lowers none below what is used |
| `Budgets.BudgetsOverRuns` | src/commercial_benefits.go:450-498 | no limit of a program, a code or a user's share is exceeded over any run of such edits and redemptions |
| `Budgets.QuotedIsRedeemable` | src/commercial_benefits.go:239-319 | what the quote found eligible without a code the settlement can consume |
| `Budgets.QuotedCodeIsRedeemable` | src/commercial_benefits.go:355-394 | a quoted promotion code can be consumed if and only if the code's own limits have room, which the quote does not ask |
| `Budgets.UsedUpCodeIsQuoted` | src/commercial_benefits.go:355-394 | three acts lead to a desk whose used-up code is still quoted and that no order can redeem |
| `Migration.InstanceDir.Migrate` | agent/main.go:708-759 | from any directory one run, dying after any number of operations, loses and overwrites nothing; uninterrupted it finishes exactly when no destination is taken; from a legacy directory it stays midway, and a finished run has migrated everything |
| `Migration.InExactlyOnePlace` | agent/main.go:708-759 | at every crash point each legacy entry is in exactly one of root and `data/`, with its content |
| `Migration.RunUntilDone` | agent/main.go:695-759 | after any number of crashed runs and a completed one everything is migrated, and further runs change nothing |

## Left out

- HTTP handlers, sessions, encryption, RabbitMQ, Docker, Redis, WebSockets and the frontend: plumbing around libraries that are not modelled.
- Notifications, audit rows, task events, diagnostics: written and never read by what is modelled.
- The retired manual-payment orders: their routes answer 410.
- Node capacity, heartbeats, the catalogue and image selection: they only refuse requests; plan-change opening takes their answer as a parameter, other requests may happen without them.
- Host access: the request is the generic generation-bumping request; its resource-version check and the guard against active tasks are not modelled, so more requests happen in the model than in the program.
- Desired-state declarations, tunnel frames, Compose text, validators, CPU tolerance: CPU is in milli-cores and the 0.001 tolerance is equality.
- DATETIME precision: instants are nanoseconds, so two plans made within one second are not confused.
- Automatic benefits inside plan changes: quotes never name one.
- Benefit code and grant choice: the quote's lookup of a code by its hash is not modelled; a redemption names the code and grant it uses.
- Liveness: that something happens at all is not claimed, and several reviewed and blocked states wait for a person; `Progress` proves that workers and reconciles can always run to their end.
- Migration.InstanceDir.Migrate: file modes, ownership and file-system errors are not modelled.
- Tables.ControlPlane.Recover: one row at a time; the loop over expired rows is a sequence of such steps.
- Tables.ControlPlane.CancelTask: the statements that roll back the update marker or the retried deployment afterwards are steps of their own (a runtime move).
- Tables.ControlPlane.Purchase: holds for any payable amount and any later end of service; `Checkout` ties them to the quote, except that the calendar's end of the paid months is a parameter.
- Tables.ControlPlane.Renew: likewise; that the plan is still offered is asked in `Checkout`.
- Tables.ControlPlane.Open: the answers of heartbeat, capability and capacity are one flag of the request.
- Tables.ControlPlane.PlanDestruction: the destroy task is queued by a later statement, a step of its own.
- Database errors: a statement that fails is a process that stops there; only the reads that the source answers with a refusal are errors of the model.
