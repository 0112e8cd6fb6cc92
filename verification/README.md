# Verification of the shared-battery rental service

This project models the money and order state machine of the rental service, its fee rule, its payment callbacks and
device reports, the interleavings of its handlers, and its Redis lock, and proves what holds over all inputs and all
runs. README.md:7 of the service states the aim: no charge twice and none missed, under repeated scans, lost
connections, out-of-order reports and replayed callbacks. Where the code meets the aim there is a theorem; where it does
not, there is the exact condition under which it does, or a family of runs in which it fails.

`dafny verify dfyconfig.toml` checks the whole project.

## How it is built

- `fees.dfy`: the fee rule as a minute-by-minute meter, the branch-by-branch computation proved equal to it, the bill in
  terms of the rule's columns and the seconds alone, and the exact conditions for monotonicity and for the total cap.
- `models.dfy`, `transactions.dfy`, `handlers.dfy`: rows and tables, one function per database transaction (the rows
  read before the transaction are parameters), and the handlers as steps of a serial run.
- `service.dfy`, `reporting.dfy`: the same handlers as methods that change a store of tables field by field, each proved
  to leave the tables as its step function says.
- `bookkeeping.dfy`, `conservation.dfy`, `scanning.dfy`, `lifecycle.dfy`: three accounting identities (per group of
  users, per user, per order), what every transaction does to them, and what every run keeps.
- `agreement.dfy`: orders, batteries and slots agree about where each battery is, and exactly which steps keep it so.
- `effects.dfy`, `operations.dfy`: what each handler does, said once more without any of the functions above: when it is
  accepted, by the columns and the limits in seconds, what each column holds afterwards, and that nothing else changes.
- `returns.dfy`, `compensation.dfy`, `disputes.dfy`, `rescans.dfy`, `callbacks.dfy`: what returns collect, what unlock
  reports and recoveries decide, what disputes refund, what repeated scans freeze, what callbacks credit.
- `interleaving.dfy`, `guards.dfy`, `traces.dfy`: handlers split into reads, marks and commits, the exact guards under
  which an interleaved event breaks each of seven properties, and families of runs in which that happens.
- `ingestion.dfy`, `batches.dfy`: the sequence cursor, the two sets of dedup keys, and replayed batches.
- `redislock.dfy`: the lock as a timed protocol.

Small consequences are stated beside the results they follow from: `CapHitMeansReduced`, `OneHousePerBattery`,
`ReviewSettlesToo`, `SharedTokenFreesAnother`, and `ReturnsSettleOnce`, for runs in which only returns settle.

## Where the code falls short of its aim

Each of these is a lemma below, for a whole family of inputs.

- A bill can drop as time passes. The seeded rule does so on each of the days 2 to 9 (`SeededRuleDrops`); which rules
  never do is decided by `NoDrop` (`MonotoneIffNoDrop`). The daily cap can also lift a bill above the total cap
  (`MaxFeeBoundsIffCapsAgree`).
- A rent above the deposit is recorded as paid although only the deposit is collected (`ReturnCollects`).
- A dispute decided by a word the service does not know is resolved and notes the refund it was given, and nobody is paid
  (`DisputeGrants`); refunds equal what disputes grant if and only if that never happens (`RefundsAreGrantedIff`).
- A credit committed between a scan's read of the balance and its write is lost (`CashOkIff`, `EveryInterleavingGap`).
  README.md:281 promises row locks for every balance update; the scan reads its user row without one.
- MarkLost or MarkDamage beside a return, two operators compensating one order, and an automatic decision beside an
  operator settle one deposit twice (`LostBesideReturnSettlesTwice`, `DamageBesideReturnRevives`,
  `TwoOperatorsRefundTwice`, `DecisionBesideOperatorSettlesTwice`). Exactly which commits settle an order's deposit
  wrongly is `DepositBalancedIff`, exactly which write a settled deposit back is `DepositMovesOnIff`, and by how much any
  run is off is `EveryInterleavingGap`.
- A successful unlock report reopens an earlier user's abnormal order on a battery that somebody else has taken
  (`UnlockReportReopensTheWrongOrder`). Exactly which serial and interleaved steps misplace a battery is `RunAgreesIff`
  and `InterleavedAgreesIff`; exactly which give a user a second active order is `OnePerUserIff`.
- An automatic decision settles an order disputed meanwhile (`DecisionSettlesDisputedOrder`); exactly which events move a
  disputed order is `DisputedStaysIff`.
- An unlock failure reported beside a return makes the returned order abnormal; reopened, it rents without a deposit and
  can never be returned (`FailureBesideReturnReopens`). Exactly which events part an order's status from its deposit is
  `OrdersStayOkIff`.
- Sorting a batch leaves reports of one number in no particular order and only the first takes effect, so arrival order
  can decide a battery's charge (`ReadingsOrderFreeIffTiesAgree`).
- The guard against repeated scans (README.md:276) does not see abnormal orders, so n scans of an offline cabinet freeze
  as many deposits as the balance holds (`RepeatedScansFreezeRepeatedly`).
- A callback's key leaves out the status, so a success after a failure with the same number and amount is dropped
  (`FailureFirstLosesThePayment`).
- An accepted heartbeat never starts the recovery of its cabinet; a rejected one does (`HeartbeatRecoversIffRejected`).
- A slot report replayed under its own number never takes effect (`NestedNumbersAreSwallowed`); one numbered above its
  item moves the cursor back (`NestedNumberMovesCursorBack`); a repeated unlock report takes effect again
  (`LockReportsRepeat`). Exactly which steps keep the numbers in order is `NumbersIncreaseIff`.
- A refresh of the Redis lock for a broken number of seconds lets two clients believe they hold it
  (`TruncatedRefreshLetsTwoBelieve`).

Where code and documentation disagree the model follows the code. README.md:266 applies the daily cap to every partial
day; the code applies it only while no whole day has been counted. An order found by its battery can never mismatch that
battery, so the review of returns rests on the reported charge alone (`ReviewedIffChargeOutOfRange`).

## Model

| member | source | states |
|---|---|---|
| `Fees.CalcFee` | internal/utils/utils.go:123-165 | for every duration and rule, the divisions, roundings and caps compute what a meter reads that opens a unit when entered and folds each full day into the daily cap |
| `Fees.StartedMinutesCount` | internal/utils/utils.go:123-130 | a started minute counts whole: from one second past k minutes up to k + 1 minutes the bill is that of k + 1 minutes |
| `Fees.BillFromSeconds` | internal/utils/utils.go:123-165 | every bill from the rule's columns and the seconds, by inequalities alone: started minutes, folded days, started units, then the daily cap and the total cap |
| `Fees.MeterIsClosedForm` | internal/utils/utils.go:131-151 | the reading after n minutes is the whole days, the minutes left and their first-period-plus-units price |
| `Fees.MonotoneIffNoDrop` | internal/utils/utils.go:134-163 | the bill never drops with time if and only if a condition readable from the rule holds |
| `Fees.SeededRuleDrops` | internal/database/database.go:169-183 | the seeded rule fails it: the last minute of each of the days 2 to 9 makes the bill 1900 less |
| `Fees.MaxFeeBoundsIffCapsAgree` | internal/utils/utils.go:153-163 | the total cap bounds every bill if and only if the rule passes `CapsAgree` |
| `Service.Store.ScanAndRent` | internal/handlers/rental_service.go:55-302 | the whole scan, fallbacks included, leaves the tables as `Handlers.Scan` says; `Effects.ScanComesTo` says what that is |
| `Effects.ScanComesTo` | internal/handlers/rental_service.go:55-302 | by the columns and the 300 seconds: which scan is refused, which books an abnormal order with which reason on which slot, which marks a cabinet offline or a slot faulty, which rents, and every column of the new order, user, slot and battery |
| `Effects.ScanRentsIff` | internal/handlers/rental_service.go:66-212 | a scan that passes the first checks rents if and only if the slot is occupied and unlocked for use, its battery is inside and charged to 20 or more, a default rule exists, and the user is deposit-free or has the deposit |
| `Effects.RentCommitsIff` | internal/handlers/rental_service.go:190-256 | the rent transaction checks all of this again, and the deposit against the user row read before |
| `Service.Store.RentSlot` | internal/handlers/rental_service.go:190-283 | the rent transaction: order, frozen deposit, slot and battery together or not at all |
| `Service.Store.CreateAbnormalOrder` | internal/handlers/rental_service.go:328-486 | an abnormal order with its deposit frozen on the slot asked for or the first occupied one, or nothing |
| `Service.Store.ReportUnlockFailure` | internal/handlers/rental_service.go:498-569 | the user's own pending or renting order turns abnormal; any other request changes nothing |
| `Service.Store.ReturnDetected` | internal/handlers/return_service.go:60-408 | the automatic return settles the newest rental of the battery once and rebinds slot and battery, as `Handlers.DetectReturn` says; see `Returns.ReturnCollects` and `Operations.ReturnRebinds` |
| `Operations.DetectAcceptedIff` | internal/handlers/return_service.go:60-118 | it is accepted if and only if slot and battery are known and the newest order that has the battery out is returning or has no return record |
| `Operations.ReturnRebinds` | internal/handlers/return_service.go:120-408 | every column an accepted return of either kind leaves on the order, the user, the slot, the battery and the return record, and that nothing else changes |
| `Service.Store.ReturnManually` | internal/handlers/return_service.go:430-577 | the operator's return does the same for a renting order into a slot that is not occupied |
| `Service.Store.SettleDeposit` | internal/handlers/return_service.go:171-244 | the records and the refund that settle a held deposit against a rent |
| `Service.Store.MarkLost` | internal/handlers/op_service.go:252-415 | a renting or disputed order is closed as lost against its deposit; see `Returns.LossCollects` and `Operations.LossRewrites` |
| `Service.Store.MarkDamage` | internal/handlers/op_service.go:417-490 | a damage fee is added to the order as it was read; see `Operations.DamageCharges` |
| `Service.Store.CreateDispute` | internal/api/router.go:309-336 | the user's own order becomes disputed whatever its status |
| `Service.Store.HandleDispute` | internal/handlers/op_service.go:501-583 | an open dispute is decided, with the refund paid and recorded, exactly once; see `Disputes.DisputeGrants` |
| `Disputes.DisputeGrants` | internal/handlers/op_service.go:531-583 | resolved or partial, a dispute adds the positive part of the refund to the user's balance, the order's refund and the records, and lowers the fee by the positive part of the adjustment, not below 0; any other decision moves nothing; the amounts are noted either way |
| `Disputes.DecisionsStand` | internal/handlers/op_service.go:511-517 | through any further run a decided dispute stays as decided |
| `Disputes.RefundsAreGrantedIff` | internal/handlers/op_service.go:531-583 | in every run from deployment an order's recorded refunds never exceed what its resolved disputes note, and equal it if and only if no decision the service does not know notes a refund |
| `Service.Store.HandleAbnormalCompensation` | internal/api/router.go:950-1040 | an operator's refund, recreation or review of an abnormal order |
| `Operations.OperatorDecides` | internal/api/router.go:950-1040 | which columns each of the three writes, from the row read before or from now, what is paid back, and when it is refused |
| `Operations.RecreatedIsBilledFromThen` | internal/api/router.go:1009-1018 | a return of a recreated rental charges exactly the time since its recreation |
| `Operations.DecisionWrites` | internal/handlers/report_service.go:304-466 | the same for the automatic decision and its check of the battery |
| `Service.Store.DecideCompensation` | internal/handlers/report_service.go:296-466 | the automatic decision, with the battery check that turns a recreation into an open review |
| `Service.Store.DecideListed` | internal/handlers/report_service.go:66-131 | the decision table of both loops, on one order |
| `Service.Store.HandleUnlockSuccess` | internal/handlers/report_service.go:162-234 | the loop over the abnormal orders of a slot, newest first, each on the tables the earlier ones left |
| `Service.Store.HandleCabinetRecovered` | internal/handlers/report_service.go:56-133 | the loop over the orders an offline cabinet left |
| `Service.Store.HandleUnlockFailure` | internal/handlers/report_service.go:236-277 | every overdue order of the slot turns abnormal |
| `Service.Store.LockReport` | internal/handlers/report_service.go:141-160 | a report of lock type unlock empties the slot before it decides, or fails the overdue orders; any other type does nothing |
| `Service.Store.ReceiveHeartbeat` | internal/handlers/report_service.go:35-54 | a heartbeat marks the cabinet online and recovers it only if it still reads offline |
| `Service.Store.HandleCallback` | internal/handlers/op_service.go:92-222 | a callback credits its payment at most once, and reports so exactly when it does |
| `Service.Store.AssignBattery` | internal/api/router.go:609-651 | a battery is put into a slot that is not occupied |
| `Service.Store.ReportSlot` | internal/handlers/report_service.go:512-565 | one entry of a slot report, with the statuses it must not overwrite |
| `Conservation.OpenOrderMoves` | internal/handlers/rental_service.go:214-256 | opening an order shifts the books by exactly how stale the user row was |
| `Conservation.CloseTxMoves` | internal/handlers/return_service.go:171-244 | a return shifts them by what it believed held less what was held |
| `Conservation.LostTxMoves` | internal/handlers/op_service.go:308-397 | so does MarkLost |
| `Conservation.DamageTxMoves` | internal/handlers/op_service.go:463-475 | so does MarkDamage, which writes the deposit back as it read it |
| `Conservation.OperatorTxMoves` | internal/api/router.go:973-1036 | so does an operator's compensation |
| `Conservation.DecideFromMoves` | internal/handlers/report_service.go:304-433 | so does an automatic decision, which writes what it computed from its second, unlocked read |
| `Conservation.HandleDisputeTxStill` | internal/handlers/op_service.go:529-558 | a dispute refund is matched by its record |
| `Conservation.CallbackTxStill` | internal/handlers/op_service.go:92-222 | a credit is matched by the payment's new status |
| `Conservation.ApplyBooks` | internal/handlers/return_service.go:171-244 | every handler run without interleaving keeps all three identities, and new orders start balanced |
| `Lifecycle.ApplySteps` | internal/models/models.go:157-192 | every handler keeps references, non-negative balances and each order's status and deposit in step |
| `Lifecycle.EveryRunConserves` | internal/handlers/return_service.go:171-244 | from deployment on: for every group of users balances, held deposits and earnings equal payments; every balance is its credits less its freezes and not negative; every order's deposit is frozen, deducted or released exactly once |
| `Lifecycle.DisputedStaysFrozen` | internal/api/router.go:309-336 | in every run a disputed order with its deposit held stays so until it is marked lost |
| `Lifecycle.DepositsOnlyAdvance` | internal/handlers/report_service.go:296-453 | in every serial run a deposit only goes from unfrozen to frozen to settled, straight to settled only if it is zero, and identities never change; for interleaved runs see `Guards.DepositMovesOnIff` |
| `Agreement.ApplyAgreesIff` | internal/handlers/report_service.go:162-234 | one renting order per battery, rented batteries out of slots, slots and batteries pointing at each other: a handler keeps this if and only if every order it reopens (waiting, at most an hour old, battery status not against it) has its battery at large and to itself, and every battery it places is free |
| `Agreement.RunAgreesIff` | internal/handlers/rental_service.go:266-279 | a serial run of all handlers keeps the agreement all along if and only if each step fits when it is taken |
| `Agreement.EntryAgreesIff` | internal/handlers/report_service.go:512-565 | an entry of a slot report keeps it if and only if a condition on the slot and the reported battery holds |
| `Agreement.AssignAgreesIff` | internal/api/router.go:609-649 | assigning keeps it if and only if it is refused or the battery is neither rented out nor in another occupied slot |
| `Agreement.RecreateAgreesIffAtLarge` | internal/api/router.go:1009-1018 | an operator's recreation keeps it if and only if the battery is in no slot and under no other order |
| `Agreement.DecideAgreesIffAtLarge` | internal/handlers/report_service.go:329-363 | an automatic recreation keeps it if and only if its battery check fails or the battery is at large |
| `Returns.ReturnCollects` | internal/handlers/return_service.go:150-257 | both returns charge the rent for the seconds from the order's start to now (0 without a start, and 0 for a start ahead of an automatic return), deduct it up to the deposit and refund the rest; the paid amount exceeds what was collected by exactly the rent above the deposit |
| `Returns.CappedReturnsAreCollected` | internal/handlers/return_service.go:252-257 | with agreeing caps no larger than the deposit, paid equals deducted and paid plus refunded equals the deposit |
| `Returns.LossCollects` | internal/handlers/op_service.go:289-379 | a loss charges the larger of the rent since the order's start and the loss fee, takes it from a held deposit and refunds the rest |
| `Returns.ReviewedIffChargeOutOfRange` | internal/handlers/return_service.go:641-881 | an automatic return ends disputed if and only if the charge is outside 10 to 100 |
| `Operations.SuccessfulUnlockReport` | internal/handlers/report_service.go:148-234 | the slot is emptied; each abnormal order waiting there with a reason and an open compensation is reopened from now if it is at most an hour old and its battery in use, lost or damaged, left open if its battery is otherwise, and reviewed if older |
| `Operations.FailedUnlockReport` | internal/handlers/report_service.go:236-277 | the slot's pending and renting orders turn abnormal unless they started less than 300 seconds ago |
| `Operations.ReplayRecovers` | internal/handlers/report_service.go:56-133 | the whole decision table of a recovered cabinet over the columns of order, slot and battery, with its limits of a day and an hour |
| `Operations.HeartbeatMarksOrRecovers` | internal/handlers/report_service.go:35-54 | an accepted heartbeat marks the cabinet online and decides nothing, a rejected one recovers it if it says online and the cabinet reads offline |
| `Compensation.UnlockReportNeverRefunds` | internal/handlers/report_service.go:148-234 | after a successful unlock every waiting order is renting, under review, or left open by a failed recreation; no balance and no record changes |
| `Compensation.FailLoopRewrites` | internal/handlers/report_service.go:236-277 | a failed unlock rewrites exactly the overdue orders |
| `Compensation.RecoveryLoopRewrites` | internal/handlers/report_service.go:56-133 | a recovery decides all waiting orders by one table over the slots and batteries as they are |
| `Compensation.HeartbeatRecoversIffRejected` | internal/handlers/report_service.go:35-54 | a heartbeat decides orders if and only if it is rejected, says online, and the cabinet reads offline |
| `Rescans.RepeatedScansFreezeRepeatedly` | internal/handlers/rental_service.go:66-90 | n scans of an offline cabinet book and freeze min(n, balance / deposit) times |
| `Operations.CallbackCredits` | internal/handlers/op_service.go:92-222 | by the columns: what a callback is remembered by, when it credits the payment, its user and its order, when it fails the payment, and that it is counted |
| `Operations.EntryPlaces` | internal/handlers/report_service.go:512-565 | by the columns: what one entry of a slot report writes to the slot and to a registered battery |
| `Callbacks.ReplaysChangeNothing` | internal/handlers/op_service.go:93-106 | a replay inserted anywhere changes nothing |
| `Callbacks.OrderDoesNotMatter` | internal/handlers/op_service.go:92-222 | callbacks with distinct keys give the same tables in every order |
| `Callbacks.CreditedIffConfirmed` | internal/handlers/op_service.go:138-222 | a payment ends successful if and only if some callback, first with its key, is a success with a matching or no amount |
| `Callbacks.BalanceGrowsByPayments` | internal/handlers/op_service.go:168-188 | a balance grows by exactly the amounts of the payments that became successful |
| `Callbacks.CountsDistinctKeys` | internal/handlers/op_service.go:125-130 | the callback count is the number of distinct keys |
| `Callbacks.FailureFirstLosesThePayment` | internal/handlers/op_service.go:93-106 | a success behind a failure with the same key is dropped, while the other order credits |
| `Interleaving.FailKeeps` | internal/handlers/rental_service.go:498-569 | a failure report checks an old row and rewrites columns of the current one: no money moves |
| `Interleaving.NextDrift` | internal/handlers/rental_service.go:99-256 | one event of an interleaving shifts the books by exactly the staleness of the row it commits from |
| `Interleaving.EveryInterleavingGap` | internal/handlers/report_service.go:304-433 | the gap of any interleaving of scans, returns, operators, automatic decisions and the rest is the deposits settled or written back from stale rows less the credits inside scan windows, and no balance is ever negative |
| `Interleaving.AtMostOneReturn` | internal/models/models.go:228-236 | the unique return record lets at most one return of an order commit, however reads and commits interleave |
| `Guards.NextOnePerUserIff` | internal/handlers/rental_service.go:56-73 | an event gives a user a second active order if and only if, for a user who has one, it is a commit that activates an inactive order, a rent, or an action that reopens an order, or it is one action reopening two orders of one user |
| `Guards.OnePerUserIff` | internal/handlers/rental_service.go:56-73 | over any run no user ever has two active orders if and only if no such event occurs |
| `Guards.RentsAddNoSecond` | internal/handlers/rental_service.go:56-73 | while nobody whose scan has counted no active order has one, a rent is never such an event |
| `Guards.ScanInvariantIff` | internal/handlers/rental_service.go:212-283 | that invariant of the scan lock lasts all along a run if and only if nothing activates an order of a user with an active order or a scan past its count |
| `Guards.NextBalancedIff` | internal/handlers/return_service.go:431-577 | an event unbalances an order's deposit (deducted plus released plus held against frozen) if and only if it is a commit on that order from a row that shows another deposit held than there is |
| `Guards.DepositBalancedIff` | internal/handlers/op_service.go:252-379 | over any run each order's deposit is settled exactly once if and only if no such commit occurs |
| `Guards.CashOkIff` | internal/handlers/rental_service.go:99-256 | over any run a user's balance is the credits less the freezes if and only if no scan of the user books a deposit from a balance that has changed since it was read |
| `Guards.NextMovesOnIff` | internal/handlers/op_service.go:417-475 | an event sets an order's deposit status back if and only if it is a commit on that order that writes a lower one |
| `Guards.DepositMovesOnIff` | internal/handlers/report_service.go:304-433 | over any run the status never goes back if and only if no such commit occurs |
| `Guards.NextDisputedIff` | internal/handlers/return_service.go:97-99 | an event moves a disputed order with its deposit held if and only if it is MarkLost, a failure report, or a commit on that order other than MarkDamage or an unsettling decision from an equally disputed row |
| `Guards.DisputedStaysIff` | internal/api/router.go:309-336 | over any run it stays disputed and held if and only if no such event occurs |
| `Guards.NextOrdersOkIff` | internal/handlers/rental_service.go:498-569 | an event parts a status from its deposit if and only if it is a failure report on a settled order, a recreation from a settled row, or a review of an abnormal row whose reason is gone |
| `Guards.OrdersStayOkIff` | internal/handlers/report_service.go:296-453 | over any run renting and abnormal orders keep a positive deposit frozen and closed ones hold none if and only if no such event occurs |
| `Guards.NextAgreesIff` | internal/handlers/return_service.go:358-380 | an interleaved event keeps orders, batteries and slots agreed if and only if a return's battery is rented and housed by nobody else, a revived order's battery is at large, and a serial action fits |
| `Guards.InterleavedAgreesIff` | internal/handlers/return_service.go:431-577 | over any run the agreement lasts if and only if no event misplaces a battery |
| `Traces.LostBesideReturnSettlesTwice` | internal/handlers/op_service.go:252-270 | MarkLost between a return's read and commit: the deposit is settled twice |
| `Traces.TwoOperatorsRefundTwice` | internal/api/router.go:958-1006 | two operators who both read first: the user is refunded twice |
| `Traces.DecisionBesideOperatorSettlesTwice` | internal/handlers/report_service.go:304-433 | an operator's refund between a decision's second read and its write is settled again: paid twice, or frozen again |
| `Traces.DamageBesideReturnRevives` | internal/handlers/op_service.go:417-475 | a return between MarkDamage's read and save: the order rents again with a settled deposit |
| `Traces.DecisionSettlesDisputedOrder` | internal/handlers/report_service.go:296-310 | a decision does not look at the status again and settles an order disputed meanwhile |
| `Traces.FailureBesideReturnReopens` | internal/handlers/rental_service.go:498-569 | a failure report checks a row read before a return and writes after it: the order can be reopened without a deposit and never returned |
| `Traces.UnlockReportReopensTheWrongOrder` | internal/handlers/report_service.go:162-219 | two orders end up renting one battery, for two users or for one |
| `Ingestion.VerdictByHistory` | internal/handlers/report_service.go:753-785 | after any history of live reports a number is a duplicate, counts, or is out of order exactly by whether it came before and whether it is above the cursor and all numbers that were new |
| `Ingestion.WhatCountsIsStored` | internal/handlers/report_service.go:135-160 | after any history of live reports, what each kind of report stores, by that verdict |
| `Ingestion.BatchRecoversIffProcessed` | internal/handlers/report_service.go:667-691 | a batch takes its cabinet out of being offline if and only if it has an item processed, and otherwise leaves the tables alone |
| `Ingestion.NumbersTakeEffectOnce` | internal/handlers/report_service.go:753-785 | over any mix of live reports and replayed batches the numbers that take effect strictly increase and the cursor never moves back |
| `Ingestion.NumbersIncreaseIff` | internal/handlers/report_service.go:602-631 | over any run, unlock reports and nested numbers of any size included, the order holds item by item if and only if each taken item's number is above the last one that took effect, or not below it if it takes none, and each unlock report's number is new |
| `Ingestion.NestedNumbersAreSwallowed` | internal/handlers/report_service.go:742-748 | a slot report numbered at or below its item never takes effect |
| `Ingestion.NestedNumberMovesCursorBack` | internal/handlers/report_service.go:602-631 | one numbered above its item lets a later item move the cursor back |
| `Ingestion.LockReportsRepeat` | internal/handlers/report_service.go:135-160 | an unlock report sent twice is a duplicate the second time and its unlock is carried out on the tables again |
| `Batches.ArrivalOrderDoesNotMatter` | internal/handlers/report_service.go:595-597 | two arrival orders of one batch, sorted in any way, replay to the same tables, keys, cursor and counts when items of one number are the same item |
| `Batches.OneArrangementIffTiesAgree` | internal/handlers/report_service.go:595-597 | a batch has one sorted arrangement if and only if items of one number are the same item |
| `Batches.ReadingsOrderFreeIffTiesAgree` | internal/handlers/report_service.go:590-675 | a batch of battery readings replays alike from every state in every arrival order if and only if readings of one number are the same |
| `Batches.BatchCounts` | internal/handlers/report_service.go:602-675 | for any batch, ties, nested numbers and unknown cabinets included: who is processed, which keys are remembered, and where the cursor ends |
| `Batches.EveryItemIsCounted` | internal/handlers/report_service.go:599-674 | processed plus skipped is the batch, in whatever order |
| `Batches.ReplayedChargesAreLatest` | internal/handlers/report_service.go:693-711 | a battery that no effective slot report names ends with the charge of its fresh reading with the highest number |
| `Reporting.ReportService.SaveReport` | internal/handlers/report_service.go:753-831 | the verdict on a live report, and the keys and cursor it leaves |
| `Reporting.ReportService.ReceiveBattery` | internal/handlers/report_service.go:468-485 | a battery report takes effect exactly when accepted |
| `Reporting.ReportService.ReceiveSlots` | internal/handlers/report_service.go:501-567 | so does a slot report, entry by entry |
| `Reporting.ReportService.ReceiveLock` | internal/handlers/report_service.go:135-160 | an unlock report takes effect whatever the verdict, a lock report of another type never |
| `Reporting.ReportService.ReceiveHeartbeat` | internal/handlers/report_service.go:35-54 | a heartbeat passes its verdict on to the cabinet's status |
| `Reporting.ReportService.ProcessOffline` | internal/handlers/report_service.go:693-751 | what each kind of replayed item does, a slot report of another cabinet included |
| `Reporting.ReportService.OfflineReplay` | internal/handlers/report_service.go:590-691 | the batch is sorted in place and taken item by item against a cursor read once, with the counts returned |
| `Reporting.ReturnService.DetectBatteryReturn` | internal/handlers/return_service.go:52-408 | a positive report number is looked at once per slot, whatever comes of it; otherwise the return runs |
| `RedisLock.AcquiredForItsLifetime` | internal/redisx/redis.go:44-65 | an acquired lock that its holder leaves alone is held for exactly its lifetime, for good without one, in every run of the others with fresh tokens, and until then nobody else acquires the key |
| `RedisLock.AcquiredIffFree` | internal/redisx/redis.go:44-65 | an acquire succeeds if and only if the key is not stored or has lapsed |
| `RedisLock.RefreshedForWholeSeconds` | internal/redisx/redis.go:82-99 | a holder's refresh holds for the whole seconds in its lifetime, while the holder believes in all of it |
| `RedisLock.ReleaseFreesTheKey` | internal/redisx/redis.go:67-80 | when the holder releases, the next acquire succeeds |
| `RedisLock.AtMostOneHolder` | internal/redisx/redis.go:44-99 | in every run with fresh tokens at most one client holds an unexpired lease on a key |
| `RedisLock.LapsedClientsDoNothing` | internal/redisx/redis.go:67-99 | release and refresh by a lapsed client leave another's lock alone |
| `RedisLock.AtMostOneBeliever` | internal/redisx/redis.go:82-99 | with refreshes of whole seconds at most one client believes it holds a key |
| `RedisLock.TruncatedRefreshLetsTwoBelieve` | internal/redisx/redis.go:90-97 | any other refresh admits a second believer |
| `RedisLock.Client.AcquireLock` | internal/redisx/redis.go:44-65 | it succeeds at the first try that finds the key free, storing the key until then plus the lifetime, and fails only if every try found it taken |
| `RedisLock.Client.ReleaseLock` | internal/redisx/redis.go:67-80 | compare and delete |
| `RedisLock.Client.RefreshLock` | internal/redisx/redis.go:82-99 | compare and expire in whole seconds; under a second it deletes and still answers yes |

## Left out

- HTTP routing, JSON binding, authentication, response bodies, evidence and remark strings, and identifier generation.
- Exception records, repair tickets, cabinet and rule administration, user registration: accounts, hardware and rules are
  those of the initial tables.
- Before and after balances of deposit records: partial refunds write the same pair on two rows, so signed sums are used.
- BillingEnabled decides nothing in the settlement code. It is carried along, without the column default that a new
  abnormal order may get, and never read.
- Statements that fail midway: a transaction commits as a whole or leaves the tables alone.
- Lock keys other than the scan lock: in the interleavings every other lock is taken as absent, which only adds runs. The
  families of `traces.dfy` need no such run: their handlers hold different keys or none.
- Expiry of the scan lock during a scan, and of the 30-day cursor and callback keys; report keys may expire at any time.
- Stale slot and battery rows: an automatic return overwrites every column of them that is modelled, and the manual
  return's old battery row is a parameter. The status column that a slot report saves from an old battery row is not
  followed.
- Returns of a battery without an order and abnormal orders without a battery: their inserts violate a foreign key
  (internal/database/database.go:95 and :103), so both are steps that change nothing.
- The idempotency middleware: its cached replies are never written.
- Temperature is the one boolean the return judgement makes of it; voltage and health are not modelled.
- The keys and cursor that judge a nested slot report naming another cabinet: their verdict is part of the input.
- A replayed unlock of slot number 0 is taken to act like any other slot number.
- Fees.CalcFee: the rounding up of minutes and units is taken as exact integer division, without floating point.
- Ingestion.NumbersTakeEffectOnce: unlock reports, which ignore the verdict, and nested numbers above their item are outside;
  `NumbersIncreaseIff` says exactly which of them keep the order.
- RedisLock.SetNx: lifetimes are whole milliseconds and not negative.
