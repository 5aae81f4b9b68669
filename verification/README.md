# Food rescue marketplace: verified model

The backend lets providers post surplus food, users and NGOs reserve it, volunteers carry it, and a
payment gateway take and return money. Four controllers and four workers update the same rows, and no
single function enforces the global rules. This project models that state machine as one database whose
committed transactions are atomic steps, with queues that may fire jobs late, twice or never, and proves
the rules for every run. Around it stand six smaller cores: settlement of provider payouts, rotation of
refresh tokens, the running average of completion times, keyset paging, route guards and deadline jobs.

How it is organised:

- `Model`, `Stock`, `Changes`, `Listings`, `Reservations`, `Deliveries`, `Payments`, `Refunds` describe each
  transaction as a function from one committed state to the next, or to a rejection that changes nothing.
  Most of them change one reservation with its payment; `Changes` says what such a change may touch.
- `Machine` makes them the steps of one machine; `Reachable` means the end of some run from the empty
  database. A run may use any arguments: verdicts of the trust policy, codes, clocks, gateway answers,
  stale reads and crashes are inputs of the steps.
- `Cells` says what one reservation and its payment may look like and how a step may change them,
  `CellSteps` that each change is allowed. `Invariant` lifts this to the whole database, `Preservation` and
  `TableSteps` prove that every transaction keeps it, `Runs` that every run does.
- `Laws`, `ClaimHistory`, `BulkOrders`, `Lifecycle`, `StatusTests`, `RunningAverage` state laws of every run;
  `Witnesses` holds two runs that end where one would not expect.
- `ListingOutcomes`, `ClaimOutcomes`, `ReleaseOutcomes`, `DeliveryOutcomes`, `PaymentOutcomes` and
  `RefundOutcomes` say from outside what each operation does on the states a run can reach: when it acts,
  what it then writes, and that it leaves the rest alone. They speak of the tables alone, with the frames of
  `Frames`, and call none of the functions that describe the transactions. `Promises` joins them into one
  statement about every step, `RefusalCodes` says which code a refused caller gets.
- `Fates` is the life of a reservation and of a deposit as two tables that hold for every step; `PaperTrail`
  and `Refusals` are laws of whole runs that follow: about rescue requests, refund jobs, refused refunds and
  kept deposits.
- `Backend` holds the transactions in the form the backend has them: a class whose methods update its
  fields statement by statement and roll back. Each method is proved to do what its function says; `Serve`
  and `ServeAll` take any step and any list of steps, keep the class valid (its tables satisfy the whole
  invariant) and go from reachable states to reachable states only, so the laws hold of the class.
- `Settlement` with `SettlementAmounts`, `TokenRotation` with `RefreshOutcomes`, `KeysetPaging`, `RouteGuards`,
  `DeadlineJobs` stand on their own.

Where the code does not do what one would expect, the model follows the code:

- When a deposit is paid for an accepted rescue request that is no longer pending, the failed activation
  cancels the reservation without giving its stock back (`paymentReconciliation.service.js:1467-1505`);
  every other cancellation gives it back. `Witnesses.ConservationCanFail` is a run that loses a whole listing,
  `Laws.LeakIff` says exactly which steps lose the stock of which row, for good, and `Laws.BalanceFailsIff`
  that the balance of a listing is off after a run exactly when such a step was part of it.
- A refund of a whole payment that is recorded by a webhook leaves the deposit of the payment `held`
  (`paymentReconciliation.service.js:1751-1766`), and the worker, which would have marked it, stops at a
  payment that is refunded already (`refund.worker.js:182-185`). `Witnesses.DepositStaysHeld` is such a run,
  `Laws.DepositFollowsWorker` the exact condition.
- `settleMonthly` checks the `paid_amount` of the request and then ignores it
  (`Settlement.RequestedAmountIgnored`), and closes a row as paid even when it could pay only part of it
  (`Settlement.ClosedRowBalance`).
- A notification cursor carries milliseconds while rows carry microseconds, so paging may skip rows
  (`KeysetPaging.PagingCanSkip`); `KeysetPaging.PagingIff` says exactly when it does not.
- If the cleanup after a deadline edit runs late, it can remove the job of a deadline that is current
  again (`DeadlineJobs.LateCleanupLosesTheJob`); `DeadlineJobs.LostIff` is the exact condition.
- A payment that arrives after its hold expired, but before anything released the hold, revives a
  reservation the frontend already shows as history (`Lifecycle.RevivesIff`).
- The paid-race repair and the pending branch of `cancelReservation`, and the branch of the activation
  that takes stock again, cannot be reached (`StatusTests.CancelBranchesDead`,
  `StatusTests.ActivationTakesNoStock`). The look for an active task at the head of `startTask`, which runs
  before any lock, decides nothing; the unique index does (`StatusTests.EarlyLookDecidesNothing`).

## Model

| member | source | states |
|---|---|---|
| Laws.StockConserved | Food_waste_backend/shared/services/inventory.service.js:12-64 | in every reachable state a listing's quantity is what remains plus what rows waiting for payment, reserved, collected or lost after pickup hold, plus what failed activations leaked; remaining stays between 0 and the quantity |
| Laws.ConservationIff | Food_waste_backend/shared/services/reservationConsistency.service.js:197-245 | the balance without the leak term holds of a listing if and only if none of its cancelled rows still carries the stock mark |
| Laws.LeakIff | Food_waste_backend/shared/services/paymentReconciliation.service.js:1467-1505 | a row lacks its stock after a step if and only if it did before, or the step is a payment for its pending hold and the rescue request behind it is no longer pending |
| Laws.LeakedSince | Food_waste_backend/shared/services/paymentReconciliation.service.js:1467-1505 | a row has lost stock after a run if and only if some step of the run was such a payment for it |
| Laws.BalanceFailsIff | Food_waste_backend/shared/services/paymentReconciliation.service.js:1467-1505 | after any run the balance of a listing is off if and only if some step of the run was such a payment for one of its rows |
| Witnesses.ConservationCanFail | Food_waste_backend/shared/services/paymentReconciliation.service.js:1101-1505 | a concrete run after which a listing of five has nothing remaining and nothing reserved |
| Laws.ExactlyOnceRelease | Food_waste_backend/shared/services/reservationConsistency.service.js:197-245 | whatever jobs fire again and whoever cancels, a row's stock goes back at most once; once exactly when the row no longer holds it and did not leak it; never after the food was collected |
| Laws.ReturnIsFinal | Food_waste_backend/shared/services/reservationConsistency.service.js:206-232 | along any further run a return is neither repeated nor undone |
| Laws.RefundedAtMostOnce | Food_waste_backend/workers/refund.worker.js:484-537 | the gateway sees one refund id and one channel for each reservation, so an idempotent gateway refunds it at most once |
| Laws.RefundIdsDiffer | Food_waste_backend/workers/refund.worker.js:484-537 | no two refunds go out under one id, so the gateway never takes one for a repeat of another |
| Laws.RefundedMeansSuccess | Food_waste_backend/workers/refund.worker.js:166-256 | payment and reservation agree on a finished refund, and the gateway answered SUCCESS to a call made for it |
| Laws.DepositRefundedMeansSuccess | Food_waste_backend/workers/refund.worker.js:301-357 | a deposit counts as refunded only after SUCCESS on its own call, or on the whole payment's |
| Laws.DepositFollowsWorker | Food_waste_backend/shared/services/paymentReconciliation.service.js:1751-1766 | when a payment with a deposit becomes refunded, its deposit becomes refunded if the worker records it and stays held if anything else does |
| Witnesses.DepositStaysHeld | Food_waste_backend/workers/refund.worker.js:182-185 | a concrete run after which the payment is refunded and its deposit held, whatever happens later |
| Laws.PaymentNeverReverts | Food_waste_backend/workers/refund.worker.js:484-537 | along every run refund ids are written once, the deposit amount is fixed, refunded payments and settled deposits stay as they are |
| Laws.TriggerNeverRaises | Food_waste_backend/shared/services/paymentReconciliation.service.js:488-562 | no step of a reachable state makes a transition of status, refund status or deposit status that the trigger on payments forbids |
| Laws.OneOutcomePerDeposit | Food_waste_backend/workers/refund.worker.js:375-385 | a deposit retained in a run is never refunded in it, and the other way round |
| Laws.RetainedIsNeverSent | Food_waste_backend/workers/refund.worker.js:379-385 | the gateway is never asked to return a retained deposit |
| Laws.ChannelsExclude | Food_waste_backend/controllers/reservation.controller.js:1226-1240 | payment refund jobs exist only for cancelled rows, deposit refund jobs only for collected ones, so never both |
| Laws.CountersAgree | Food_waste_backend/controllers/volunteer.controller.js:912-967 | the completed and timeout counters equal the table's delivered and failed rows of the volunteer |
| Laws.OneTaskAtATime | Food_waste_backend/controllers/volunteer.controller.js:45-82 | a volunteer never has two active tasks |
| Laws.PendingTaskIsFree | Food_waste_backend/controllers/volunteer.controller.js:588-643 | a task nobody has started belongs to nobody |
| Laws.OneLiveClaim | Food_waste_backend/controllers/reservation.controller.js:86-115 | a user never has two rows on one listing that are waiting for payment, reserved or collected |
| ClaimHistory.CancelledLocksOut | Food_waste_backend/controllers/ngo.controller.js:84-113 | once a confirmed reservation has been cancelled, no run gives its user another one on that listing |
| Runs.ApplyNewRow | Food_waste_backend/controllers/reservation.controller.js:86-115 | every row any step inserts is live and belongs to a user and listing without a claim before the step |
| BulkOrders.BulkIsAllOrNothing | Food_waste_backend/controllers/ngo.controller.js:474-643 | a bulk request commits if and only if it is well formed, at most forty meals, allowed, names no listing twice and every item fits the state before it; then each listing loses exactly its item's quantity and one claim per item appears |
| BulkOrders.ItemsServed | Food_waste_backend/controllers/ngo.controller.js:535-630 | the same for the loop alone |
| Lifecycle.ClassifiedAsMeant | food-waste-frontend/lib/reservationLifecycle.ts:117-191 | on every reachable row group, label and reason follow from the status, the payment deadline and the volunteer alone; the fallback branch is never taken |
| Lifecycle.RevivesIff | food-waste-frontend/lib/reservationLifecycle.ts:98-135 | a step takes a row from history to active if and only if it is a payment for that row, an expired payment hold, and the rescue request behind it, if any, is still pending |
| Lifecycle.LeavesHistoryByPayment | Food_waste_backend/controllers/reservation.controller.js:232-343 | along any run a row leaves the history only through such a payment |
| Lifecycle.LatePaymentRevives | Food_waste_backend/shared/services/paymentReconciliation.service.js:1400-1430 | a payment for an expired hold makes it active if and only if its rescue request, if any, is still pending |
| StatusTests.ReviewTestsAgree | Food_waste_backend/controllers/rating.controller.js:29-39 | review eligible, completed_at set and status picked_up are equivalent on reachable rows |
| StatusTests.TaskTestsAgree | Food_waste_backend/controllers/volunteer.controller.js:45-82 | the active-task predicate selects the same rows as the SQL filter |
| StatusTests.LockTestsAgree | Food_waste_backend/shared/services/reservationLock.service.js:8-67 | of the lists in the lock predicate only reserved and picked_up matter; every cancelled row locks its user out |
| StatusTests.UniqueIndexesHold | Food_waste_backend/shared/services/reservationLock.service.js:79-93 | neither unique index on claims is ever violated |
| StatusTests.TaskIndexHolds | Food_waste_backend/migrations/003_reservation_consistency.up.sql:1-4 | the unique index on active tasks is never violated: one indexed row for each volunteer |
| StatusTests.EarlyLookDecidesNothing | Food_waste_backend/controllers/volunteer.controller.js:588-643 | with or without the look before the lock the same tasks can be started |
| StatusTests.CancelBranchesDead | Food_waste_backend/controllers/reservation.controller.js:1014-1050 | no reserved row has a pending payment and the repair never applies |
| StatusTests.CancelSucceedsIff | Food_waste_backend/controllers/reservation.controller.js:984-1216 | who may cancel a reachable reservation, and when, as an if-and-only-if |
| StatusTests.ActivationTakesNoStock | Food_waste_backend/shared/services/paymentReconciliation.service.js:1101-1301 | an activation never takes stock, and fails only for a request that is no longer pending |
| Runs.ApplyKeeps | Food_waste_backend/controllers/reservation.controller.js:214-1440 | every step keeps every law, moves rows only forward and adds only live rows |
| Runs.ReachableInv | Food_waste_backend/controllers/reservation.controller.js:214-1440 | every reachable state satisfies the whole invariant |
| TableSteps.ExpiryNeverAborts | Food_waste_backend/workers/expiry.worker.js:113-129 | retaining deposits never makes the expiry job of a due listing roll back |
| Promises.StepPromised | Food_waste_backend/controllers/reservation.controller.js:214-1440 | every step of every run does what its operation promises in the rows that follow: it acts exactly when they say, writes exactly what they say, and leaves everything else alone |
| ListingOutcomes.PostListingPromised | Food_waste_backend/controllers/food.controller.js:415-660 | who may offer what: up to a thousand meals for at least half an hour; the new listing |
| ListingOutcomes.EditListingPromised | Food_waste_backend/controllers/food.controller.js:785-1000 | when an edit is accepted, and that what is taken stays taken |
| ListingOutcomes.ArchiveListingPromised | Food_waste_backend/controllers/food.controller.js:1040-1128 | a listing nobody has booked is archived |
| ListingOutcomes.RequestRescuePromised | Food_waste_backend/controllers/food.controller.js:1470-1627 | when an NGO is asked, once unless two calls race |
| ListingOutcomes.RejectRequestPromised | Food_waste_backend/controllers/ngo.controller.js:1699-1783 | the NGO that was asked declines a waiting request, and no other changes |
| ListingOutcomes.ExpireListingPromised | Food_waste_backend/workers/expiry.worker.js:30-144 | a due listing expires with exactly the reservations nobody has come for and the requests that wait; their units come back; of these rows each deposit whose operation is open is kept, and no other payment changes |
| ClaimOutcomes.HoldStockPromised | Food_waste_backend/controllers/reservation.controller.js:232-343 | who may hold what, read before the call; the units leave, one row waits for its payment |
| ClaimOutcomes.OpenPaymentSessionPromised | Food_waste_backend/controllers/reservation.controller.js:372-437 | a hold without an order gets one, with a payment row and ten minutes; the order outlives a failed commit |
| ClaimOutcomes.AcceptRequestPromised | Food_waste_backend/controllers/ngo.controller.js:1394-1619 | an NGO takes all that is left; without a deposit its request is accepted and every other waiting request on the listing expires, with a deposit no request changes |
| ClaimOutcomes.BulkReservePromised | Food_waste_backend/controllers/ngo.controller.js:474-643 | the exact condition of a bulk order, one row for each item, and payment sessions exactly when a deposit is due |
| ReleaseOutcomes.CompensateHoldPromised | Food_waste_backend/controllers/reservation.controller.js:162-212 | a failed payment session ends the hold and its units come back |
| ReleaseOutcomes.FailedOrderPromised | Food_waste_backend/shared/services/paymentReconciliation.service.js:1591-1610 | a failed or expired order ends exactly the hold it was made for, with its payment |
| ReleaseOutcomes.RecoverStaleHoldPromised | Food_waste_backend/shared/services/paymentReconciliation.service.js:2860-2906 | a stale hold ends with or without a payment row |
| ReleaseOutcomes.CancelReservationPromised | Food_waste_backend/controllers/reservation.controller.js:984-1245 | who may cancel until when; the units come back, a payment goes to the refund queue, and without one nothing does |
| DeliveryOutcomes.MarkPickedUpPromised | Food_waste_backend/controllers/reservation.controller.js:1277-1440 | pickup needs the provider, the right code and, for a rescue, a started task; a self pickup ends the reservation and queues its deposit |
| DeliveryOutcomes.StartTaskPromised | Food_waste_backend/controllers/volunteer.controller.js:572-643 | a volunteer without a task takes a waiting one |
| DeliveryOutcomes.CompleteTaskPromised | Food_waste_backend/controllers/volunteer.controller.js:846-975 | completion needs the volunteer, the handover and the right code; it queues the deposit and counts the whole seconds since the assignment into an average rounded down |
| DeliveryOutcomes.PickupTimeoutPromised | Food_waste_backend/workers/StartPickupTimeout.worker.js:27-144 | the units come back, the volunteer is penalised, and the deposit is kept exactly when there is one and its operation is open |
| DeliveryOutcomes.DeliveryTimeoutPromised | Food_waste_backend/workers/StartDeliveryTimeout.worker.js:22-138 | the same without units |
| PaymentOutcomes.PaidOrderPromised | Food_waste_backend/shared/services/paymentReconciliation.service.js:1303-1589 | a payment confirms its hold and the request behind it, or its money goes back, or it changes nothing, each in exactly one case |
| PaymentOutcomes.RecoverPaymentPromised | Food_waste_backend/shared/services/paymentReconciliation.service.js:2504-2673 | a lost payment row is made again with the deposit that was quoted |
| RefundOutcomes.PrepareRefundPromised | Food_waste_backend/workers/refund.worker.js:451-553 | when a refund is prepared, under the id on record or a fresh one |
| RefundOutcomes.PrepareDepositRefundPromised | Food_waste_backend/workers/refund.worker.js:359-449 | the same for a deposit |
| RefundOutcomes.PersistRefundPromised | Food_waste_backend/workers/refund.worker.js:166-269 | when the worker stores an answer, and which status payment and reservation take for each answer of the gateway |
| RefundOutcomes.PersistDepositRefundPromised | Food_waste_backend/workers/refund.worker.js:301-357 | the same for a deposit |
| RefundOutcomes.RefundEventPromised | Food_waste_backend/shared/services/paymentReconciliation.service.js:1612-1839 | the exact condition under which a webhook counts or is ignored, and what it stores |
| RefusalCodes.ListingsRefused | Food_waste_backend/controllers/food.controller.js:415-1627 | which code a refused provider or NGO gets, and that requests are refused in no other case |
| RefusalCodes.ClaimsRefused | Food_waste_backend/controllers/reservation.controller.js:214-1440 | the same for reservations, payments, cancellations and bulk orders |
| RefusalCodes.TasksRefused | Food_waste_backend/controllers/volunteer.controller.js:572-975 | the same for volunteers |
| Fates.StatusMoves | Food_waste_backend/controllers/reservation.controller.js:214-1440 | the status of a reservation after any step, as one table: which step under which condition moves it where, and that none else does |
| Fates.DepositsMove | Food_waste_backend/workers/refund.worker.js:301-449 | the same table for deposits |
| PaperTrail.ConfirmedIsAccepted | Food_waste_backend/controllers/ngo.controller.js:1531-1553 | in every reachable state the request behind a confirmed rescue is accepted, and is about its listing and its NGO |
| PaperTrail.RefundsAreQueued | Food_waste_backend/controllers/reservation.controller.js:1226-1240 | in every reachable state the deposit of a collected reservation and the payment of a cancelled one have their refund job |
| Refusals.FailedMeansRefused | Food_waste_backend/workers/refund.worker.js:60-69 | a refund or deposit that counts as failed was answered FAILED or CANCELLED by the gateway |
| Refusals.KeptSince | Food_waste_backend/shared/services/payment.service.js:404-484 | after any run a deposit is kept if and only if in some step of it nobody came for the food while its operation was open |
| Backend.Database.Serve | Food_waste_backend/controllers/reservation.controller.js:214-1440 | any step, served in place, keeps the tables valid, ends where the machine ends and leaves reachable states reachable |
| Backend.Database.ServeAll | Food_waste_backend/controllers/reservation.controller.js:214-1440 | the same for any list of steps: the class runs as the machine runs |
| Backend.OutcomeKeepsReachable | Food_waste_backend/controllers/reservation.controller.js:214-1440 | a transaction whose outcome is that of its function takes a reachable state to a reachable one |
| Backend.Database.CreateReservation | Food_waste_backend/controllers/reservation.controller.js:214-466 | the undisturbed saga is a run of the machine; a failed session leaves every listing exactly as it was and no payment |
| Backend.Database.CloseHold | Food_waste_backend/shared/services/reservationConsistency.service.js:247-440 | an unpaid hold is released with its stock and payment, or everything is rolled back |
| Backend.Database.CancelOwn | Food_waste_backend/controllers/reservation.controller.js:1014-1216 | repair and cancellation as one transaction, rolled back on every refusal |
| Backend.Database.TimeOut | Food_waste_backend/workers/StartPickupTimeout.worker.js:27-144 | stock back, volunteer penalised, deposit kept, or nothing at all |
| Backend.Database.TotalReturned | Food_waste_backend/workers/expiry.worker.js:77-83 | the sum over exactly the rows that expire with the listing |
| Backend.Database.RetainExpired | Food_waste_backend/workers/expiry.worker.js:113-129 | the loop succeeds if and only if every deposit it must keep can be kept, and then keeps exactly those |
| Backend.Database.ExpireListing | Food_waste_backend/workers/expiry.worker.js:30-144 | the expiry job as one transaction, guarded by status and deadline, rolled back if a deposit cannot be kept |
| Backend.Database.ReserveItems | Food_waste_backend/controllers/ngo.controller.js:535-630 | the loop over items stops at the first that cannot be served, with its reason |
| Backend.Database.CreateReservationPayments | Food_waste_backend/controllers/ngo.controller.js:635-641 | one payment session for each new row |
| Backend.Database.SettleNgo | Food_waste_backend/controllers/ngo.controller.js:1580-1591 | payment sessions for the new rows when a deposit is due, or rollback of the whole transaction |
| Backend.Database.BulkReserve | Food_waste_backend/controllers/ngo.controller.js:474-643 | the whole order or nothing |
| Backend.Database.ProcessPaidOrder | Food_waste_backend/shared/services/paymentReconciliation.service.js:1303-1589 | a paid order of several rows is a run of the machine |
| Backend.Database.RecoverPaidOrder | Food_waste_backend/shared/services/paymentReconciliation.service.js:2504-2673 | an order without payment rows gets all of them back and then all are finalised; one that still has a payment row is left alone |
| Backend.Database.ProcessRefundJob | Food_waste_backend/workers/refund.worker.js:820-846 | a refund job without a crash is three steps of the machine |
| RunningAverage.StatsAreAverage | Food_waste_backend/controllers/volunteer.controller.js:912-967 | along every run the stored statistics are the running average of the times, in whole seconds, between assignment and completion in the volunteer's rows |
| RunningAverage.ErrorBound | Food_waste_backend/controllers/volunteer.controller.js:940-950 | n averages fall short of the sum by at least 0 and at most n(n-1)/2 |
| RunningAverage.BoundIsReached | Food_waste_backend/controllers/volunteer.controller.js:940-950 | that bound is reached for every n |
| RunningAverage.WithinSamples | Food_waste_backend/controllers/volunteer.controller.js:940-950 | the average lies between the smallest and the largest sample |
| Settlement.Allocate | Food_waste_backend/admin/admin.controller.js:1796-1825 | the greedy loop gives row i the expected amount less what earlier rows can take, clamped to what row i can take; the total is the smaller of expected and available |
| Settlement.SharesAreMin | Food_waste_backend/admin/admin.controller.js:1821-1825 | the shares of any prefix add up to that minimum |
| Settlement.EarlierSaturated | Food_waste_backend/admin/admin.controller.js:1798-1819 | every row before a paid one is paid in full |
| Settlement.OnePartial | Food_waste_backend/admin/admin.controller.js:1798-1819 | at most one row is paid in part |
| Settlement.SettlementBook.SettleMonthly | Food_waste_backend/admin/admin.controller.js:1566-2047 | one run with every refusal, its update and its record |
| Settlement.CommittedRows | Food_waste_backend/admin/admin.controller.js:1839-1868 | a committed run pays each surviving row its share and touches no other |
| Settlement.CommittedTotals | Food_waste_backend/admin/admin.controller.js:2006-2036 | the record equals the increase of paid amounts, and as many rows as were paid leave the pending statuses, at least one |
| SettlementAmounts.PaysWhatIsOwed | Food_waste_backend/shared/services/providerPayout.service.js:1325-1375 | a committed run pays the amounts of the month less what is carried forward, or all that is open where that is less; the paid amounts of the rows grow by that |
| SettlementAmounts.CommitsIffOwed | Food_waste_backend/admin/admin.controller.js:1645-1744 | when a run commits, in sums over the rows; never when the carry-forward reaches what is due |
| SettlementAmounts.SettlesAs | Food_waste_backend/admin/admin.controller.js:1645-1834 | the outcome of a run for every input, refusals included |
| SettlementAmounts.PaysOldestFirst | Food_waste_backend/admin/admin.controller.js:1796-1868 | each row of the run gets what is owed beyond the older rows, up to what it can take, and is closed if it gets anything; no other row changes |
| Settlement.RequestedAmountIgnored | Food_waste_backend/admin/admin.controller.js:1746-1751 | any valid requested amount gives the same run as none |
| Settlement.ClosedRowBalance | Food_waste_backend/admin/admin.controller.js:1839-1868 | what stays unpaid of a row that a run closes |
| Settlement.ManyRunsRows | Food_waste_backend/admin/admin.controller.js:1796-1868 | over any number of runs no row is paid more than its amount, and each at most once |
| Settlement.ManyRunsTotals | Food_waste_backend/admin/admin.controller.js:2006-2036 | the records add up to what was paid, and runs that commit are no more than rows that leave the pending statuses |
| Settlement.PaidOnce | Food_waste_backend/admin/admin.controller.js:1619-1632 | no later run changes a row a run has paid |
| TokenRotation.RotatedAtMostOnce | Food_waste_backend/controllers/auth.controller.js:812-837 | each token wins the compare-and-swap at most once |
| TokenRotation.SameTokenSameSession | Food_waste_backend/controllers/auth.controller.js:762-885 | two successful refreshes with one old token hand out the same session to the same device |
| TokenRotation.SameSessionSameToken | Food_waste_backend/controllers/auth.controller.js:804-885 | different old tokens never lead to the same new one |
| TokenRotation.OneOwner | Food_waste_backend/controllers/auth.controller.js:752-762 | a live token belongs to one user |
| TokenRotation.RetiredForGood | Food_waste_backend/controllers/auth.controller.js:307-340 | a token that was issued and is no longer live never becomes live again |
| TokenRotation.RotatedIsRetired | Food_waste_backend/controllers/auth.controller.js:812-837 | a rotated token is dead for every later state |
| TokenRotation.OtherDeviceRevokes | Food_waste_backend/controllers/auth.controller.js:764-794 | a refresh that finds the session of another device never succeeds, whatever happens before it revokes; once it has failed, that session is dead in every later state |
| RefreshOutcomes.StepPromised | Food_waste_backend/controllers/auth.controller.js:752-885 | what each statement of login, refresh and logout does: a request is let through exactly for the holder of an unexpired token, refused exactly for an expired one, and sent to the cache exactly when nobody holds the token |
| RefreshOutcomes.RefreshSucceeds | Food_waste_backend/controllers/auth.controller.js:804-885 | an undisturbed refresh with a live, unexpired token succeeds with a token its user then holds for a week |
| RefreshOutcomes.GraceGivesTheSameSession | Food_waste_backend/controllers/auth.controller.js:764-770 | while the grace entry lasts, the same device gets the same session for the old token |
| RefreshOutcomes.RotatedWasUnexpired | Food_waste_backend/controllers/auth.controller.js:797-837 | along every run whoever wins a swap had presented the token while holding it unexpired |
| TokenRotation.AuthServer.Serve | Food_waste_backend/controllers/auth.controller.js:752-885 | any step, served in place, keeps the tables valid, ends where the machine ends and leaves reachable states reachable |
| TokenRotation.AuthServer.LogoutCookie | Food_waste_backend/controllers/auth.controller.js:1387-1412 | the loop logs out whoever holds the token, and nobody else |
| KeysetPaging.PagingIff | Food_waste_backend/controllers/notification.controller.js:42-97 | following the cursor shows the whole list, in order, each row once, if and only if at every page boundary the next row is below the truncated cursor |
| KeysetPaging.PagingForEveryLimitIff | Food_waste_backend/controllers/notification.controller.js:42-97 | the same for all limits at once |
| KeysetPaging.PagingInMilliseconds | Food_waste_backend/controllers/notification.controller.js:20-24 | with whole milliseconds paging is always complete |
| KeysetPaging.PagingCanSkip | Food_waste_backend/controllers/notification.controller.js:42-53 | two rows of one millisecond, one of which is never shown |
| KeysetPaging.ArrivalsDoNotMatter | Food_waste_backend/controllers/notification.controller.js:55-97 | rows that arrive between pages do not change the later pages |
| KeysetPaging.LiveReadIff | Food_waste_backend/controllers/notification.controller.js:55-97 | a client that reads to the end while rows arrive sees exactly the list that was there when it began, if and only if every page boundary is clear |
| KeysetPaging.LiveReadInMilliseconds | Food_waste_backend/controllers/notification.controller.js:55-97 | always, when timestamps are whole milliseconds |
| KeysetPaging.NormalizeLimit | Food_waste_backend/controllers/notification.controller.js:8-18 | 30 when no number is given, otherwise the one limit from 1 to 100 nearest to the number |
| KeysetPaging.RebuildAll | Food_waste_backend/scripts/rebuild-provider-trust-projections.js:52-77 | the loop with its early exit visits every subject after the start once, in order, as reading to an empty batch would |
| KeysetPaging.ReadToEmptyIsAll | Food_waste_backend/scripts/rebuild-provider-trust-projections.js:16-32 | reading batch by batch until one is empty gives every subject |
| KeysetPaging.AboveMeans | Food_waste_backend/scripts/rebuild-provider-trust-projections.js:16-32 | the subjects after a start are exactly those with a larger id |
| RouteGuards.GuardsAgree | food-waste-frontend/lib/onboarding.ts:94-248 | wherever a guard sends a user is where signing in would |
| RouteGuards.TargetRests | food-waste-frontend/lib/onboarding.ts:55-80 | both guards leave that page alone |
| RouteGuards.NoPingPong | food-waste-frontend/lib/onboarding.ts:94-248 | in any sequence of guards a user is redirected at most once |
| RouteGuards.RestingPlaces | food-waste-frontend/lib/onboarding.ts:82-110 | the pages on which a user who is not onboarded can stay |
| RouteGuards.SignInLeads | food-waste-frontend/lib/onboarding.ts:55-80 | where signing in leads, for every record of a user |
| RouteGuards.AccessIff | food-waste-frontend/lib/onboarding.ts:112-248 | the access guard lets a user stay exactly on pages outside the areas of other roles and fit for the state of their verification |
| RouteGuards.OnboardingIff | food-waste-frontend/lib/onboarding.ts:94-110 | the onboarding guard lets a user stay exactly on the page they are sent to, on the pending page, or outside onboarding once they are through |
| DeadlineJobs.FirePromised | Food_waste_backend/workers/expiry.worker.js:30-58 | when a job fires, whether it leaves the queue, and when it expires the listing |
| DeadlineJobs.LostIff | Food_waste_backend/controllers/food.controller.js:1002-1017 | a step loses a job that is needed if and only if it is a late cleanup of that very deadline |
| DeadlineJobs.SerialEditsKeepTheJob | Food_waste_backend/controllers/food.controller.js:374-413 | with serial edits the job of the current deadline is always queued |
| DeadlineJobs.SerialEditsExpire | Food_waste_backend/workers/expiry.worker.js:37-55 | and once the deadline has passed it expires the listing |
| DeadlineJobs.LateCleanupLosesTheJob | Food_waste_backend/controllers/food.controller.js:1002-1017 | an edit to any later deadline and back, each cleaned up late, leaves an open listing without a job |
| DeadlineJobs.ExpirySchedule.RemoveExpiryJobs | Food_waste_backend/controllers/food.controller.js:374-387 | removes the jobs of a deadline, the old unnamed one included |
| DeadlineJobs.ExpirySchedule.UpdateDeadline | Food_waste_backend/controllers/food.controller.js:1002-1017 | an undisturbed edit leaves the right job queued |

## Left out

- Provider-fault refunds: `prepareProviderFaultRefund` cuts across the deposit and status laws; every run here is one without it.
- Several rows in one payment: every reservation has one payment row of its own here; an order over several rows is a list of them, and its transaction a run of steps, one for each row.
- Amounts of refunds and the operation ledger: the verdict of the lifecycle accounting is an input of the step that asks for it.
- The payment status `success` and the statuses that only older rows carry: no modelled transaction writes them; the branches that test for them are kept.
- Isolation: a transaction that locks its listing or reservation row first is one atomic step here; lock timeouts and their retries only repeat a step. Two do not lock first: `startTask` looks for an active task before it locks (`volunteer.controller.js:588-600`) and is protected by a unique index, `requestNGO` has no transaction at all (`food.controller.js:1470-1605`) and can record a request twice. Both may read stale data here (`raced`).
- Removal of timeout jobs from their queues: handlers may fire at any time, so removal can only make fewer runs possible.
- Titles, amounts of prices, images, locations and all validation of text; that an edit changes the price is an input (`repriced`).
- Trust scores, capacity, and the verification of restaurants and NGOs: their verdicts are inputs (`canReserve`, `requiresDeposit`, `approved`, `isVerified`, `isEligible`).
- Settlement month boundaries, cutoff dates, next-month carry-forward and liability releases: the selected rows are an input of a run.
- Rounding of money: amounts are whole paise.
- Randomness of tokens and codes: new tokens and refund ids are fresh numbers, codes are compared outside.
- The text of a cursor: it is a record here; a cursor that cannot be decoded starts the list again.
- `realtimeMerge.ts`: a map override without any interplay with the rest.
- Joining an NGO as a volunteer: the two join paths enforce different rules.
- Notifications, sockets, web push, caching and logging.
