/** The transactions as the backend performs them: statement by statement, in place, with rollback.
    Each method is proved against the function that the laws are about, and keeps the class valid:
    its tables satisfy every law. */
module Backend {
  import opened Model
  import opened Stock
  import C = Changes
  import L = Listings
  import R = Reservations
  import D = Deliveries
  import P = Payments
  import F = Refunds
  import M = Machine
  import S = Sums
  import I = Invariant
  import U = Runs

  /** Outcome of a transaction that fails with `failure`, or commits when there is none. */
  predicate Outcome(before: Db, after: Db, failure: Option<nat>, result: Result) {
    match result
    case Done(d) => failure.None? && after == d
    case Rejected(code) => failure == Some(code) && after == before
  }

  /** What a transaction does is what the machine does: the laws of reachable states hold of the class. */
  lemma OutcomeKeepsReachable(before: Db, after: Db, failure: Option<nat>, step: M.Step)
    requires Outcome(before, after, failure, M.Execute(before, step)) && M.Reachable(before)
    ensures after == M.Apply(before, step) && M.Reachable(after)
  {
    var start: int, steps: seq<M.Step> :| M.Run(EmptyDb(start), steps) == before;
    M.StepRuns(EmptyDb(start), steps, step);
    M.ReachableFromEmpty(start, steps + [step]);
  }

  lemma OutcomeApplies(before: Db, after: Db, failure: Option<nat>, step: M.Step)
    requires Outcome(before, after, failure, M.Execute(before, step)) && I.Inv(before)
    ensures after == M.Apply(before, step) && I.Inv(after)
    ensures M.Reachable(before) ==> M.Reachable(after)
  {
    U.ApplyKeeps(before, step);
    if M.Reachable(before) {
      OutcomeKeepsReachable(before, after, failure, step);
    }
  }

  /** The same for a method that does several steps. */
  lemma RunKeepsReachable(before: Db, after: Db, steps: seq<M.Step>)
    requires after == M.Run(before, steps) && I.Inv(before)
    ensures I.Inv(after) && (M.Reachable(before) ==> M.Reachable(after))
  {
    U.RunKeeps(before, steps);
    if M.Reachable(before) {
      U.ReachableRun(before, steps);
    }
  }

  /** What `processPaidOrder` does to the rows of an order, and the recovery of lost payment rows. */
  function PaidSteps(ids: seq<nat>): seq<M.Step> {
    if |ids| == 0 then [] else PaidSteps(ids[..|ids| - 1]) + [M.PaidOrder(ids[|ids| - 1])]
  }

  function RecoverySteps(ids: seq<nat>): seq<M.Step> {
    if |ids| == 0 then [] else RecoverySteps(ids[..|ids| - 1]) + [M.RecoverPayment(ids[|ids| - 1])]
  }

  lemma PaidStepRuns(db: Db, ids: seq<nat>, k: nat)
    requires k < |ids|
    ensures M.Run(db, PaidSteps(ids[..k + 1])) == P.PaidOrder(M.Run(db, PaidSteps(ids[..k])), ids[k])
  {
    assert ids[..k + 1][..k] == ids[..k];
    M.StepRuns(db, PaidSteps(ids[..k]), M.PaidOrder(ids[k]));
    M.PaidOrderApplies(M.Run(db, PaidSteps(ids[..k])), ids[k]);
  }

  lemma RecoveryStepRuns(db: Db, ids: seq<nat>, k: nat)
    requires k < |ids|
    ensures var mid := M.Run(db, RecoverySteps(ids[..k]));
            M.Run(db, RecoverySteps(ids[..k + 1])) == M.After(mid, P.RecoverPayment(mid, ids[k]))
  {
    assert ids[..k + 1][..k] == ids[..k];
    M.StepRuns(db, RecoverySteps(ids[..k]), M.RecoverPayment(ids[k]));
    M.RecoverPaymentApplies(M.Run(db, RecoverySteps(ids[..k])), ids[k]);
  }

  lemma WrittenTwice<T>(s: seq<T>, i: nat, a: T, b: T)
    requires i < |s|
    ensures s[i := a][i := b] == s[i := b]
  {
  }

  class Database {
    var now: int
    var listings: seq<Listing>
    var rows: seq<Reservation>
    var payments: map<nat, Payment>
    var requests: seq<NgoRequest>
    var stats: map<nat, Stats>
    var orders: map<nat, nat>
    var jobs: set<Job>
    var nextRefundId: nat
    var prepared: set<RefundCall>
    var calls: set<RefundCall>
    var answers: set<Answer>
    var returned: multiset<nat>

    function View(): Db
      reads this
    {
      Db(now, listings, rows, payments, requests, stats, orders, jobs, nextRefundId, prepared, calls, answers, returned)
    }

    /** The tables satisfy every law. */
    ghost predicate Valid()
      reads this
    {
      I.Inv(View())
    }

    constructor (time: int)
      ensures View() == EmptyDb(time) && Valid()
    {
      now := time;
      listings, rows, requests := [], [], [];
      payments, stats, orders := map[], map[], map[];
      jobs, prepared, calls, answers := {}, {}, {}, {};
      nextRefundId := 0;
      returned := multiset{};
    }

    /** The tables a transaction of this class may write before it fails. */
    method Rollback(saved: Db)
      requires View() == saved.(listings := listings, rows := rows, payments := payments, requests := requests,
                                stats := stats, returned := returned)
      modifies this`listings, this`rows, this`payments, this`requests, this`stats, this`returned
      ensures View() == saved
    {
      listings := saved.listings;
      rows := saved.rows;
      payments := saved.payments;
      requests := saved.requests;
      stats := saved.stats;
      returned := saved.returned;
    }

    // ---------- shared services ----------

    method ReserveListingStock(l: nat, q: int, completeWhenEmpty: bool) returns (ok: bool)
      modifies this`listings
      ensures ok <==> TakeStock(old(listings), l, q, completeWhenEmpty).Some?
      ensures listings == if ok then TakeStock(old(listings), l, q, completeWhenEmpty).value else old(listings)
    {
      ok := 0 < q && l < |listings| && q <= listings[l].remaining;
      if ok {
        var left := listings[l].remaining - q;
        listings := listings[l := listings[l].(remaining := left)];
        if completeWhenEmpty && left <= 0 {
          listings := listings[l := listings[l].(status := ListingCompleted)];
        }
      }
    }

    method RestoreListingStock(l: nat, q: int, reactivate: bool)
      modifies this`listings
      ensures listings == RestoreStock(old(listings), l, q, now, reactivate)
    {
      if l < |listings| {
        listings := listings[l := listings[l].(remaining := listings[l].remaining + q)];
        if reactivate && listings[l].deadline > now && listings[l].status == ListingCompleted {
          listings := listings[l := listings[l].(status := ListingActive)];
        }
      }
    }

    /** Marks the row first, so that a second call finds nothing to restore. */
    method RestoreReservationStockIfHeld(i: nat)
      requires i < |rows|
      modifies this`rows, this`listings, this`returned
      ensures rows == old(rows)[i := old(rows)[i].(stockReserved := false)]
      ensures listings == BackOnListing(old(listings), old(rows)[i], now)
      ensures returned == BackInHistory(old(returned), old(rows)[i], i)
    {
      if rows[i].stockReserved {
        rows := rows[i := rows[i].(stockReserved := false)];
        RestoreListingStock(rows[i].listing, rows[i].quantity, true);
        returned := returned + multiset{i};
      }
    }

    method ReleasePendingPaymentReservation(i: nat, status: Status, pay: PayState, allowMissing: bool)
      returns (failure: Option<nat>)
      modifies this
      ensures Outcome(old(View()), View(), failure, R.ReleaseHold(old(View()), i, status, pay, allowMissing))
    {
      if i >= |rows| || !IsPendingHold(rows[i]) {
        return None;
      }
      if i !in payments && !allowMissing {
        return Some(400);
      }
      if i in payments && IsSettled(payments[i].status) {
        return None;
      }
      failure := CloseHold(i, status, pay);
    }

    /** Stock and row, then the payment. A payment that is no longer pending rolls everything back. */
    method CloseHold(i: nat, status: Status, pay: PayState) returns (failure: Option<nat>)
      requires i < |rows|
      modifies this
      ensures if i in old(payments) && old(payments)[i].status != PayPending then
                failure == Some(400) && View() == old(View())
              else
                failure.None? &&
                View() == R.CloseHold(old(View()), i, status, pay, R.WithStatus(PayOf(old(View()), i), pay))
    {
      var saved := View();
      RestoreAndSet(i, status, pay);
      if i in payments && payments[i].status != PayPending {
        Rollback(saved);
        return Some(400);
      }
      if i in payments {
        payments := payments[i := payments[i].(status := pay)];
      }
      return None;
    }

    /** The stock goes back, and the row gets its last status. */
    method RestoreAndSet(i: nat, status: Status, pay: PayState)
      requires i < |rows|
      modifies this`rows, this`listings, this`returned
      ensures rows == old(rows)[i := R.Released(old(rows)[i], status, pay)]
      ensures listings == BackOnListing(old(listings), old(rows)[i], now)
      ensures returned == BackInHistory(old(returned), old(rows)[i], i)
    {
      RestoreReservationStockIfHeld(i);
      WrittenTwice(old(rows), i, rows[i], R.Released(old(rows)[i], status, pay));
      rows := rows[i := rows[i].(status := status, pay := pay)];
    }

    method RetainReliabilityDeposit(i: nat, wanted: bool) returns (ok: bool)
      modifies this`payments
      ensures ok <==> D.CanRetain(PayOf(old(View()), i), wanted)
      ensures payments
              == if ok then C.WithPayment(old(payments), i, D.Retained(PayOf(old(View()), i), wanted))
                 else old(payments)
    {
      ok := true;
      if wanted {
        if i !in payments || !L.Retainable(payments[i].depositStatus) {
          return false;
        }
        payments := payments[i := payments[i].(depositStatus := DepositRetained)];
      }
    }

    method PenalizeVolunteer(v: nat)
      modifies this`stats
      ensures stats == C.Scored(old(stats), C.Misses(v))
    {
      if v !in stats {
        stats := stats[v := Stats(0, 0, 0)];
      }
      stats := stats[v := stats[v].(timeouts := stats[v].timeouts + 1)];
    }

    // ---------- the create saga ----------

    method HoldStock(user: nat, l: nat, q: int, isApproved: bool, canReserve: bool) returns (failure: Option<nat>)
      modifies this`listings, this`rows
      ensures Outcome(old(View()), View(), failure, R.HoldStock(old(View()), user, l, q, isApproved, canReserve))
    {
      if !(1 <= q <= 2) {
        return Some(400);
      }
      if l >= |listings| || !isApproved {
        return Some(404);
      }
      var food := listings[l];
      if food.isFree {
        return Some(403);
      }
      if food.remaining < q || food.status != ListingActive || food.deadline <= now || AlreadyClaimed(rows, user, l) {
        return Some(409);
      }
      if !canReserve {
        return Some(403);
      }
      var ok := ReserveListingStock(l, q, true);
      if !ok {
        return Some(409);
      }
      rows := rows + [R.NewRow(user, l, q, SelfPickup, PaymentPending, PayPending, None)];
      return None;
    }

    method CreateReservationPayment(i: nat, deposit: nat)
      requires i < |rows|
      modifies this`orders, this`payments, this`rows
      ensures View() == R.OpenSession(old(View()), i, deposit)
    {
      orders := orders[i := deposit];
      payments := payments[i := R.NewPayment(deposit)];
      rows := rows[i := rows[i].(paymentExpiresAt := Some(now + HOLD_TIMEOUT))];
    }

    method OpenPaymentSession(i: nat, deposit: nat, commits: bool) returns (failure: Option<nat>)
      modifies this`orders, this`payments, this`rows
      ensures Outcome(old(View()), View(), failure, R.OpenPaymentSession(old(View()), i, deposit, commits))
    {
      if i >= |rows| || !IsPendingHold(rows[i]) || i in orders || i in payments {
        return Some(409);
      }
      if commits {
        CreateReservationPayment(i, deposit);
      } else {
        orders := orders[i := deposit];
      }
      return None;
    }

    method CancelPaymentInitializationHold(i: nat) returns (failure: Option<nat>)
      modifies this`rows, this`listings, this`returned
      ensures Outcome(old(View()), View(), failure, R.CompensateHold(old(View()), i))
    {
      if i >= |rows| || !IsPendingHold(rows[i]) {
        return Some(0);
      }
      RestoreAndSet(i, PaymentFailed, PayFailed);
      return None;
    }

    /** The second half of the saga: a payment session, or the compensation of the hold. */
    method PayOrCompensate(i: nat, deposit: nat, commits: bool) returns (failure: Option<nat>)
      requires i < |rows| && IsPendingHold(rows[i]) && i !in orders && i !in payments
      modifies this`orders, this`payments, this`rows, this`listings, this`returned
      ensures commits ==> failure.None? && View() == R.OpenSession(old(View()), i, deposit)
      ensures !commits ==> failure == Some(500) &&
                           View() == R.CloseHold(old(View()).(orders := orders), i, PaymentFailed, PayFailed, None) &&
                           orders == old(orders)[i := deposit]
      ensures View() == PaidOrCompensated(old(View()), i, deposit, commits)
    {
      failure := OpenPaymentSession(i, deposit, commits);
      if !commits {
        failure := CancelPaymentInitializationHold(i);
        failure := Some(500);
      }
    }

    /** A failed payment session leaves every listing exactly as it was, and a reservation that claims
        nothing. */
    method HoldAndPay(user: nat, l: nat, q: int, isApproved: bool, canReserve: bool, deposit: nat, commits: bool)
      returns (failure: Option<nat>)
      requires forall i :: i in orders || i in payments ==> i < |rows|
      modifies this
      ensures failure.Some? ==> listings == old(listings)
      ensures failure == Some(500) ==>
                rows == old(rows) + [R.Released(R.NewRow(user, l, q, SelfPickup, PaymentPending, PayPending, None),
                                                PaymentFailed, PayFailed)] &&
                payments == old(payments)
      ensures failure.None? ==>
                R.HoldStock(old(View()), user, l, q, isApproved, canReserve).Done? && commits &&
                View() == R.OpenSession(R.HoldStock(old(View()), user, l, q, isApproved, canReserve).db, |old(rows)|,
                                        deposit)
      ensures View() == PaidOrCompensated(Held(old(View()), user, l, q, isApproved, canReserve), |old(rows)|,
                                          deposit, commits)
    {
      ghost var before := View();
      failure := HoldStock(user, l, q, isApproved, canReserve);
      if failure.None? {
        failure := PayOrCompensate(|rows| - 1, deposit, commits);
        if !commits {
          FailedSessionRestores(before, user, l, q, isApproved, canReserve, deposit);
        }
      }
    }

    /** The whole saga when nobody interferes, which is a run of the machine. */
    method CreateReservation(user: nat, l: nat, q: int, isApproved: bool, canReserve: bool, deposit: nat, commits: bool)
      returns (failure: Option<nat>)
      requires Valid()
      modifies this
      ensures failure.Some? ==> listings == old(listings)
      ensures failure == Some(500) ==>
                rows == old(rows) + [R.Released(R.NewRow(user, l, q, SelfPickup, PaymentPending, PayPending, None),
                                                PaymentFailed, PayFailed)] &&
                payments == old(payments)
      ensures failure.None? ==>
                R.HoldStock(old(View()), user, l, q, isApproved, canReserve).Done? && commits &&
                View() == R.OpenSession(R.HoldStock(old(View()), user, l, q, isApproved, canReserve).db, |old(rows)|,
                                        deposit)
      ensures View() == M.Run(old(View()), SagaSteps(user, l, q, isApproved, canReserve, |old(rows)|, deposit, commits))
      ensures Valid()
    {
      ghost var before := View();
      SagaRuns(before, user, l, q, isApproved, canReserve, deposit, commits);
      failure := HoldAndPay(user, l, q, isApproved, canReserve, deposit, commits);
      RunKeepsReachable(before, View(), SagaSteps(user, l, q, isApproved, canReserve, |before.rows|, deposit, commits));
    }

    // ---------- cancellation and pickup ----------

    method CancelReservation(user: nat, i: nat) returns (failure: Option<nat>)
      modifies this
      ensures Outcome(old(View()), View(), failure, R.CancelReservation(old(View()), user, i))
    {
      if i >= |rows| {
        return Some(404);
      }
      if rows[i].user != user {
        return Some(403);
      }
      if rows[i].status == Cancelled {
        return Some(409);
      }
      if rows[i].status != Reserved && rows[i].status != PaymentPending {
        return Some(400);
      }
      failure := CancelOwn(i);
    }

    /** Repair, then cancel by kind; a refusal takes the repair back. */
    method CancelOwn(i: nat) returns (failure: Option<nat>)
      requires i < |rows|
      modifies this
      ensures Outcome(old(View()), View(), failure, R.CancelRow(old(View()), i))
    {
      var saved := View();
      RepairPaidRace(i);
      failure := CancelByKind(i);
      if failure.Some? {
        Rollback(saved);
      }
    }

    method CancelByKind(i: nat) returns (failure: Option<nat>)
      requires i < |rows|
      modifies this
      ensures Outcome(old(View()), View(), failure, R.CancelKind(old(View()), i))
    {
      if IsPendingHold(rows[i]) {
        failure := ReleasePendingPaymentReservation(i, CancelledBeforeConfirmation, PayFailed, false);
      } else if rows[i].pickupType == NgoPickup {
        failure := CancelNgoReservation(i);
      } else {
        failure := CancelSelfPickup(i);
      }
    }

    method RepairPaidRace(i: nat)
      requires i < |rows|
      modifies this`rows
      ensures View() == R.RepairPaid(old(View()), i)
    {
      if IsPendingHold(rows[i]) && i in payments &&
         (payments[i].status == PayPaid || payments[i].status == PaySuccess) {
        rows := rows[i := rows[i].(status := Reserved, pay := PayPaid)];
      }
    }

    /** The statements both paid branches share. */
    method CancelPaidReservation(i: nat)
      requires i < |rows| && i in payments
      modifies this`rows, this`listings, this`returned, this`payments, this`jobs
      ensures View() == R.CancelPaid(old(View()), i)
    {
      StartRefund(i);
      RestoreAndSet(i, Cancelled, PayRefundPending);
    }

    method StartRefund(i: nat)
      requires i in payments
      modifies this`payments, this`jobs
      ensures payments == old(payments)[i := R.ToRefundPending(old(payments)[i])] &&
              jobs == old(jobs) + {PaymentRefundJob(i)}
    {
      payments := payments[i := R.ToRefundPending(payments[i])];
      jobs := jobs + {PaymentRefundJob(i)};
    }

    method CancelNgoReservation(i: nat) returns (failure: Option<nat>)
      requires i < |rows|
      modifies this`rows, this`listings, this`returned, this`payments, this`jobs
      ensures Outcome(old(View()), View(), failure, R.CancelNgo(old(View()), i))
    {
      if rows[i].task != TaskPending {
        return Some(400);
      }
      if rows[i].pay == PayPaid {
        if i !in payments {
          return Some(409);
        }
        CancelPaidReservation(i);
      } else {
        RestoreAndSet(i, Cancelled, rows[i].pay);
      }
      return None;
    }

    method CancelPendingSelfPickup(i: nat)
      requires i < |rows|
      modifies this`rows, this`listings, this`returned, this`payments
      ensures View() == R.CancelUnpaid(old(View()), i, PayFailed, R.FailPayment(PayOf(old(View()), i)))
    {
      payments := C.WithPayment(payments, i, R.FailPayment(PayOf(View(), i)));
      RestoreAndSet(i, Cancelled, PayFailed);
    }

    method CancelSelfPickup(i: nat) returns (failure: Option<nat>)
      requires i < |rows|
      modifies this`rows, this`listings, this`returned, this`payments, this`jobs
      ensures Outcome(old(View()), View(), failure, R.CancelSelf(old(View()), i))
    {
      var r := rows[i];
      if r.listing < |listings| && now > listings[r.listing].deadline - CANCELLATION_CUTOFF {
        return Some(400);
      }
      if r.pay == PayPaid {
        if i !in payments {
          return Some(409);
        }
        CancelPaidReservation(i);
      } else if r.pay == PayPending {
        CancelPendingSelfPickup(i);
      } else if r.pay in {PayRefundPending, PayRefunded, PayRefundFailed} {
        return Some(409);
      } else {
        return Some(400);
      }
      return None;
    }

    method MarkAsPickedUp(provider: nat, i: nat, codeOk: bool) returns (failure: Option<nat>)
      modifies this`rows, this`jobs
      ensures Outcome(old(View()), View(), failure, R.MarkPickedUp(old(View()), provider, i, codeOk))
    {
      if i >= |rows| || rows[i].listing >= |listings| {
        return Some(404);
      }
      var r := rows[i];
      if listings[r.listing].provider != provider {
        return Some(403);
      }
      if r.status != Reserved || (r.pay != PayPaid && r.pay != PayNotRequired) {
        return Some(409);
      }
      if !codeOk || (r.pickupType == NgoPickup && r.task != TaskInProgress) {
        return Some(400);
      }
      if r.pickupType == NgoPickup {
        rows := rows[i := r.(task := TaskPickedFromProvider, pickedUpAt := Some(now))];
      } else {
        rows := rows[i := r.(task := TaskPickedUp, status := PickedUp, pickedUpAt := Some(now),
                             completedAt := Some(now))];
        jobs := jobs + {DepositRefundJob(i)};
      }
      return None;
    }

    // ---------- volunteers ----------

    /** The first look runs before any lock and may be out of date (`raced`); the unique index on
        active tasks has the last word. */
    method StartTask(v: nat, i: nat, raced: bool) returns (failure: Option<nat>)
      modifies this`rows
      ensures Outcome(old(View()), View(), failure, D.StartTask(old(View()), v, i, raced))
    {
      if !raced && D.HasActiveTask(rows, v) {
        return Some(409);
      }
      if i >= |rows| {
        return Some(404);
      }
      var r := rows[i];
      if r.status != Reserved || (r.pay != PayPaid && r.pay != PayNotRequired) || r.task != TaskPending ||
         D.InIndex(rows, v) {
        return Some(409);
      }
      AssignTask(v, i);
      return None;
    }

    method AssignTask(v: nat, i: nat)
      requires i < |rows|
      modifies this`rows
      ensures View() == D.StartedBy(old(View()), v, i)
    {
      rows := rows[i := rows[i].(volunteer := Some(v), task := TaskInProgress, assignedAt := Some(now))];
    }

    method CompleteTask(v: nat, i: nat, codeOk: bool) returns (failure: Option<nat>)
      modifies this`rows, this`stats, this`jobs
      ensures Outcome(old(View()), View(), failure, D.CompleteTask(old(View()), v, i, codeOk))
    {
      if i >= |rows| {
        return Some(404);
      }
      var r := rows[i];
      if r.volunteer != Some(v) {
        return Some(403);
      }
      if (r.pay != PayPaid && r.pay != PayNotRequired) || r.status != Reserved {
        return Some(409);
      }
      if r.task != TaskPickedFromProvider || !codeOk {
        return Some(400);
      }
      Deliver(v, i);
      return None;
    }

    method Deliver(v: nat, i: nat)
      requires i < |rows|
      modifies this`rows, this`stats, this`jobs
      ensures View() == D.DeliveredTo(old(View()), v, i)
    {
      RecordCompletion(v, D.CompletionSeconds(rows[i], now));
      rows := rows[i := rows[i].(task := TaskDelivered, status := PickedUp, completedAt := Some(now))];
      jobs := jobs + {DepositRefundJob(i)};
    }

    /** The statistics of a completion, with the row inserted when it is the first. */
    method RecordCompletion(v: nat, sample: int)
      modifies this`stats
      ensures stats == C.Scored(old(stats), C.Delivers(v, sample))
    {
      if v !in stats {
        stats := stats[v := Stats(0, 0, 0)];
      }
      var average := sample;
      if stats[v].completed > 0 {
        average := (stats[v].average * stats[v].completed + sample) / (stats[v].completed + 1);
      }
      stats := stats[v := stats[v].(completed := stats[v].completed + 1, average := average)];
    }

    /** The row fails and its volunteer is penalised. */
    method FailTask(i: nat)
      requires i < |rows| && rows[i].volunteer.Some?
      modifies this`rows, this`stats
      ensures rows == old(rows)[i := D.Overdue(old(rows)[i])]
      ensures stats == C.Scored(old(stats), C.Misses(rows[i].volunteer.value))
    {
      rows := rows[i := rows[i].(status := Expired, task := TaskFailed)];
      PenalizeVolunteer(rows[i].volunteer.value);
    }

    /** Stock, row and penalty of a task whose time is up. */
    method FailOverdue(i: nat, back: bool)
      requires i < |rows| && rows[i].volunteer.Some?
      modifies this`rows, this`listings, this`returned, this`stats
      ensures var r := old(rows)[i];
              rows == old(rows)[i := if back then D.Overdue(r).(stockReserved := false) else D.Overdue(r)] &&
              stats == C.Scored(old(stats), C.Misses(r.volunteer.value)) &&
              listings == (if back then BackOnListing(old(listings), r, now) else old(listings)) &&
              returned == if back then BackInHistory(old(returned), r, i) else old(returned)
    {
      if back {
        RestoreReservationStockIfHeld(i);
        WrittenTwice(old(rows), i, rows[i], D.Overdue(rows[i]));
      }
      FailTask(i);
    }

    method FailAndRetain(i: nat, back: bool, isOpen: bool) returns (ok: bool)
      requires i < |rows| && rows[i].volunteer.Some?
      modifies this`rows, this`listings, this`returned, this`stats, this`payments
      ensures ok <==> D.CanRetain(PayOf(old(View()), i), L.WantsRetention(PayOf(old(View()), i), isOpen))
      ensures ok ==> View() == D.TimedOut(old(View()), i, back, isOpen)
    {
      ghost var before := View();
      FailOverdue(i, back);
      ok := RetainReliabilityDeposit(i, L.WantsRetention(PayOf(View(), i), isOpen));
    }

    /** ... and its deposit; one that cannot be kept rolls everything back. */
    method TimeOut(i: nat, back: bool, isOpen: bool) returns (failure: Option<nat>)
      requires i < |rows| && rows[i].volunteer.Some?
      modifies this
      ensures Outcome(old(View()), View(), failure, D.TimeOut(old(View()), i, back, isOpen))
    {
      var saved := View();
      var ok := FailAndRetain(i, back, isOpen);
      failure := None;
      if !ok {
        Rollback(saved);
        failure := Some(0);
      }
    }

    method PickupTimeout(i: nat, open: set<nat>) returns (failure: Option<nat>)
      modifies this
      ensures Outcome(old(View()), View(), failure, D.PickupTimeout(old(View()), i, open))
    {
      if i >= |rows| || rows[i].volunteer.None? || rows[i].task != TaskInProgress || rows[i].status != Reserved {
        return Some(0);
      }
      failure := TimeOut(i, true, i in open);
    }

    method DeliveryTimeout(i: nat, open: set<nat>) returns (failure: Option<nat>)
      modifies this
      ensures Outcome(old(View()), View(), failure, D.DeliveryTimeout(old(View()), i, open))
    {
      if i >= |rows| || rows[i].volunteer.None? || rows[i].task != TaskPickedFromProvider ||
         rows[i].status != Reserved {
        return Some(0);
      }
      failure := TimeOut(i, false, i in open);
    }

    // ---------- listings ----------

    method CreateFood(provider: nat, quantity: int, start: Option<int>, deadline: int, isFree: bool)
      returns (failure: Option<nat>)
      modifies this`listings
      ensures Outcome(old(View()), View(), failure,
                      L.PostListing(old(View()), provider, quantity, start, deadline, isFree))
    {
      if !(0 < quantity <= 1000) || (start.Some? && (start.value < now || start.value >= deadline)) ||
         deadline - now < MIN_PICKUP_WINDOW {
        return Some(400);
      }
      listings := listings + [Listing(provider, quantity, quantity, isFree, ListingActive, start, deadline)];
      return None;
    }

    method UpdateFood(provider: nat, l: nat, e: L.Edit) returns (failure: Option<nat>)
      modifies this`listings
      ensures Outcome(old(View()), View(), failure, L.EditListing(old(View()), provider, l, e))
    {
      if l >= |listings| {
        return Some(404);
      }
      var food := listings[l];
      if food.provider != provider {
        return Some(403);
      }
      if food.status == ListingDeleted {
        return Some(409);
      }
      if e.deadline <= now || (food.start.Some? && food.start.value >= e.deadline) {
        return Some(400);
      }
      var next := if e.quantity.Some? then e.quantity.value else food.quantity;
      if !(1 <= next <= 10000) {
        return Some(400);
      }
      var change := next - food.quantity;
      if food.remaining + change < 0 || ((e.repriced || e.isFree != food.isFree) && HasBlocking(rows, l)) {
        return Some(409);
      }
      listings := listings[l := food.(quantity := next, remaining := food.remaining + change, deadline := e.deadline,
                                      isFree := e.isFree)];
      return None;
    }

    method DeleteFood(provider: nat, l: nat) returns (failure: Option<nat>)
      modifies this`listings
      ensures Outcome(old(View()), View(), failure, L.ArchiveListing(old(View()), provider, l))
    {
      if l >= |listings| {
        return Some(404);
      }
      if listings[l].provider != provider {
        return Some(403);
      }
      if HasBlocking(rows, l) {
        return Some(409);
      }
      listings := listings[l := listings[l].(status := ListingDeleted)];
      return None;
    }

    method RequestNgo(provider: nat, l: nat, ngo: nat, v: L.Rescue) returns (failure: Option<nat>)
      modifies this`requests
      ensures Outcome(old(View()), View(), failure, L.RequestRescue(old(View()), provider, l, ngo, v))
    {
      if l >= |listings| || listings[l].provider != provider {
        return Some(404);
      }
      if !listings[l].isFree {
        return Some(403);
      }
      if listings[l].deadline - now < MIN_NGO_RESCUE_REMAINING {
        return Some(400);
      }
      if !v.isVerified {
        return Some(404);
      }
      if !v.isEligible {
        return Some(403);
      }
      if L.RescuedBy(rows, l, ngo) || (!v.raced && NgoRequest(l, ngo, RequestPending) in requests) {
        return Some(409);
      }
      requests := requests + [NgoRequest(l, ngo, RequestPending)];
      return None;
    }

    method RejectNgoRequest(ngo: nat, q: nat) returns (failure: Option<nat>)
      modifies this`requests
      ensures Outcome(old(View()), View(), failure, L.RejectRequest(old(View()), ngo, q))
    {
      if q >= |requests| || requests[q].ngo != ngo || requests[q].status != RequestPending {
        return Some(404);
      }
      requests := requests[q := requests[q].(status := RequestRejected)];
      return None;
    }

    method PassTime(elapsed: nat) returns (failure: Option<nat>)
      modifies this`now
      ensures Outcome(old(View()), View(), failure, L.Advance(old(View()), elapsed))
    {
      now := now + elapsed;
      return None;
    }

    /** The reduce over the selected rows of the expiry worker. */
    method TotalReturned(l: nat) returns (total: int)
      ensures total == S.Sum(rows, L.ReturnedBy(l))
    {
      total := 0;
      var i := 0;
      while i < |rows|
        invariant 0 <= i <= |rows|
        invariant total == S.Sum(rows[..i], L.ReturnedBy(l))
      {
        assert rows[..i + 1][..i] == rows[..i];
        if L.ExpiresWith(rows[i], l) {
          total := total + rows[i].quantity;
        }
        i := i + 1;
      }
      assert rows[..i] == rows;
    }

    /** The payments when the first `i` rows of the expiry job have been looked at. */
    static predicate RetainedUpTo(selected: Db, l: nat, open: set<nat>, i: nat, payments: map<nat, Payment>) {
      payments.Keys == selected.payments.Keys &&
      (forall k :: k in payments ==>
        payments[k] == if k < i && L.ExpiryRetains(selected, l, open, k)
                       then selected.payments[k].(depositStatus := DepositRetained) else selected.payments[k]) &&
      (forall k :: k in payments && k < i && L.ExpiryRetains(selected, l, open, k) ==>
        L.Retainable(selected.payments[k].depositStatus))
    }

    /** The loop of the expiry worker over the rows it selected; `selected` are those rows as they
        were before they expired. */
    method RetainExpired(selected: Db, l: nat, open: set<nat>) returns (ok: bool)
      requires payments == selected.payments
      modifies this`payments
      ensures ok <==> forall i :: i in selected.payments && L.ExpiryRetains(selected, l, open, i) ==>
                                    L.Retainable(selected.payments[i].depositStatus)
      ensures ok ==> payments == L.RetainPayments(selected, l, open)
    {
      var i := 0;
      while i < |selected.rows|
        invariant 0 <= i <= |selected.rows|
        invariant RetainedUpTo(selected, l, open, i, payments)
      {
        ok := RetainOne(selected, l, open, i);
        if !ok {
          return;
        }
        i := i + 1;
      }
      ok := true;
    }

    method RetainOne(selected: Db, l: nat, open: set<nat>, i: nat) returns (ok: bool)
      requires i < |selected.rows| && RetainedUpTo(selected, l, open, i, payments)
      modifies this`payments
      ensures ok ==> RetainedUpTo(selected, l, open, i + 1, payments)
      ensures !ok ==> i in selected.payments && L.ExpiryRetains(selected, l, open, i) &&
                      !L.Retainable(selected.payments[i].depositStatus)
    {
      ok := true;
      if L.ExpiresWith(selected.rows[i], l) && L.RetainsDeposit(selected.rows[i]) {
        ok := RetainReliabilityDeposit(i, L.WantsRetention(PayOf(selected, i), i in open));
      }
    }

    /** The statements that expire the listing and its waiting rows. */
    method ReturnAndExpire(l: nat)
      requires l < |listings|
      modifies this`listings, this`rows, this`returned
      ensures View() == L.ExpireAll(old(View()), l)
    {
      ExpireAndReturn(l);
      returned := returned + multiset(L.ExpiringRows(rows, l));
      rows := L.ExpireRows(rows, l);
    }

    method ExpireAndReturn(l: nat)
      requires l < |listings|
      modifies this`listings
      ensures listings == L.ExpireAll(old(View()), l).listings
    {
      var total := TotalReturned(l);
      listings := listings[l := listings[l].(status := ListingExpired)];
      if total > 0 {
        WrittenTwice(old(listings), l, listings[l], listings[l].(remaining := listings[l].remaining + total));
        RestoreListingStock(l, total, false);
      }
    }

    method ExpireListing(l: nat, expected: Option<int>, open: set<nat>) returns (failure: Option<nat>)
      modifies this
      ensures Outcome(old(View()), View(), failure, L.ExpireListing(old(View()), l, expected, open))
    {
      if l >= |listings| || !L.ExpiryMatches(listings[l], now, expected) {
        return Some(0);
      }
      var saved := View();
      ReturnAndExpire(l);
      var ok := RetainExpired(saved, l, open);
      if !ok {
        Rollback(saved);
        return Some(0);
      }
      requests := L.ExpireRequests(requests, l, None);
      return None;
    }

    // ---------- NGO reservations ----------

    method ReserveItem(user: nat, item: R.Item, approved: set<nat>, terms: R.NgoTerms) returns (failure: Option<nat>)
      modifies this`listings, this`rows
      ensures Outcome(old(View()), View(), failure, R.ReserveItem(old(View()), user, item, approved, terms))
    {
      if item.listing >= |listings| || item.listing !in approved {
        return Some(404);
      }
      var food := listings[item.listing];
      if !food.isFree {
        return Some(403);
      }
      if food.status != ListingActive || food.deadline <= now || AlreadyClaimed(rows, user, item.listing) ||
         food.remaining < item.quantity {
        return Some(409);
      }
      var ok := ReserveListingStock(item.listing, item.quantity, true);
      if !ok {
        return Some(409);
      }
      rows := rows + [R.NgoRow(user, item.listing, item.quantity, terms, None)];
      return None;
    }

    /** Payment sessions for the rows from `start` on. */
    method CreateReservationPayments(start: nat, deposit: nat)
      requires start <= |rows|
      modifies this`orders, this`payments, this`rows
      ensures View() == R.OpenSessions(old(View()), start, |old(rows)|, deposit)
    {
      ghost var before := View();
      var i := start;
      while i < |rows|
        invariant start <= i <= |rows| == |before.rows|
        invariant View() == R.OpenSessions(before, start, i, deposit)
      {
        CreateReservationPayment(i, deposit);
        i := i + 1;
      }
    }

    /** The end of both NGO transactions: payment sessions for the new rows, or a rollback to `saved`. */
    method SettleNgo(saved: Db, terms: R.NgoTerms) returns (failure: Option<nat>)
      requires |saved.rows| <= |rows| && View() == saved.(listings := listings, rows := rows, requests := requests)
      modifies this
      ensures var result := R.SettleNgo(old(View()), |saved.rows|, terms);
              if result.Done? then failure.None? && View() == result.db
              else failure == Some(result.code) && View() == saved
    {
      if terms.requiresDeposit {
        if !terms.orderOk {
          Rollback(saved);
          return Some(400);
        }
        CreateReservationPayments(|saved.rows|, terms.deposit);
      }
      return None;
    }

    /** The loop of `bulkReserve`. It stops at the first item that cannot be served. */
    method ReserveItems(user: nat, items: seq<R.Item>, approved: set<nat>, terms: R.NgoTerms)
      returns (failure: Option<nat>)
      modifies this`listings, this`rows
      ensures var result := R.ReserveItems(old(View()), user, items, approved, terms);
              if result.Done? then failure.None? && View() == result.db
              else failure == Some(result.code) && View() == old(View()).(listings := listings, rows := rows)
    {
      ghost var saved := View();
      failure := None;
      var k := 0;
      while k < |items|
        invariant 0 <= k <= |items| && failure.None?
        invariant R.ReserveItems(saved, user, items[..k], approved, terms) == Done(View())
        invariant View() == saved.(listings := listings, rows := rows)
      {
        ghost var mid := View();
        failure := ReserveItem(user, items[k], approved, terms);
        NextItem(saved, user, items, k, approved, terms);
        if failure.Some? {
          FailingPrefix(saved, user, items, k + 1, approved, terms);
          return;
        }
        k := k + 1;
      }
      assert items[..k] == items;
    }

    method BulkReserve(user: nat, items: seq<R.Item>, approved: set<nat>, terms: R.NgoTerms)
      returns (failure: Option<nat>)
      modifies this
      ensures Outcome(old(View()), View(), failure, R.BulkReserve(old(View()), user, items, approved, terms))
    {
      if |items| == 0 || !R.ItemsInRange(items) || R.TotalQuantity(items) > NGO_MAX_LIMIT {
        return Some(400);
      }
      if !terms.canReserve {
        return Some(403);
      }
      var saved := View();
      failure := ReserveItems(user, items, approved, terms);
      if failure.Some? {
        Rollback(saved);
      } else {
        failure := SettleNgo(saved, terms);
      }
    }

    /** Accepts request `q` and expires its rivals on the same listing. */
    method AcceptAndExpire(q: nat, l: nat)
      requires q < |requests|
      modifies this`requests
      ensures requests == L.AcceptAmong(old(requests), q, l)
    {
      requests := requests[q := requests[q].(status := RequestAccepted)];
      requests := L.ExpireRequests(requests, l, Some(q));
    }

    /** Takes everything that is left of the listing of request `q` and reserves it. */
    method TakeRest(ngo: nat, q: nat, terms: R.NgoTerms)
      requires q < |requests| && requests[q].listing < |listings| && listings[requests[q].listing].remaining > 0
      modifies this`listings, this`rows, this`requests
      ensures View() == R.Accepted(old(View()), ngo, q, terms)
    {
      var l := requests[q].listing;
      var left := listings[l].remaining;
      if !terms.requiresDeposit {
        AcceptAndExpire(q, l);
      }
      TakeAndInsert(l, left, R.NgoRow(ngo, l, left, terms, Some(q)));
    }

    method TakeAndInsert(l: nat, q: nat, r: Reservation)
      requires l < |listings| && 0 < q <= listings[l].remaining
      modifies this`listings, this`rows
      ensures Some(listings) == TakeStock(old(listings), l, q, true) && rows == old(rows) + [r]
    {
      var ok := ReserveListingStock(l, q, true);
      rows := rows + [r];
    }

    method AcceptNgoRequest(ngo: nat, q: nat, approved: set<nat>, terms: R.NgoTerms) returns (failure: Option<nat>)
      modifies this
      ensures Outcome(old(View()), View(), failure, R.AcceptRequest(old(View()), ngo, q, approved, terms))
    {
      if !terms.canReserve {
        return Some(403);
      }
      if q >= |requests| || requests[q].ngo != ngo || requests[q].status != RequestPending {
        return Some(409);
      }
      var l := requests[q].listing;
      if l >= |listings| || l !in approved {
        return Some(404);
      }
      var food := listings[l];
      if food.status != ListingActive {
        return Some(409);
      }
      if !food.isFree {
        return Some(403);
      }
      if AlreadyClaimed(rows, ngo, l) {
        return Some(409);
      }
      if food.deadline - now < MIN_NGO_RESCUE_REMAINING {
        return Some(400);
      }
      if food.remaining <= 0 {
        return Some(409);
      }
      var saved := View();
      TakeRest(ngo, q, terms);
      failure := SettleNgo(saved, terms);
    }

    // ---------- payments ----------

    method ActivatePendingReservation(i: nat) returns (ok: bool)
      requires i < |rows|
      modifies this`rows, this`listings, this`requests
      ensures ok <==> P.CanActivate(old(View()), i)
      ensures View() == if ok then P.Activated(old(View()), i) else old(View())
    {
      var r := rows[i];
      if !P.CanActivate(View(), i) {
        return false;
      }
      if !r.stockReserved {
        ok := ReserveListingStock(r.listing, r.quantity, r.request.Some?);
      }
      if r.request.Some? {
        AcceptAndExpire(r.request.value, r.listing);
      }
      rows := rows[i := r.(status := Reserved, pay := PayPaid, stockReserved := true)];
      return true;
    }

    /** Money for a row that has been released or cancelled. */
    method RefundLatePayment(i: nat)
      requires i < |rows| && i in payments
      modifies this`rows, this`payments, this`jobs
      ensures View() == P.RefundLatePayment(old(View()), i)
    {
      var r := rows[i];
      if r.pay != PayRefunded && r.pay != PayRefundFailed {
        r := r.(status := if P.IsReleased(r.status) then Cancelled else r.status, pay := PayRefundPending);
      }
      payments := payments[i := P.LatePayment(payments[i])];
      rows := rows[i := r];
      jobs := jobs + {PaymentRefundJob(i)};
    }

    /** The catch block: the reservation is cancelled, its stock is not given back. */
    method RefuseActivation(i: nat)
      requires i < |rows| && i in payments
      modifies this`rows, this`payments, this`jobs
      ensures View() == P.RefundFailedActivation(old(View()), i)
    {
      payments := payments[i := payments[i].(status := PayRefundPending, refundStatus := Some(PayRefundPending))];
      if rows[i].pay != PayRefunded {
        rows := rows[i := rows[i].(status := Cancelled, pay := PayRefundPending)];
      }
      jobs := jobs + {PaymentRefundJob(i)};
    }

    /** The try block and its catch. */
    method ActivateOrRefuse(i: nat)
      requires i < |rows| && i in payments
      modifies this`rows, this`listings, this`requests, this`payments, this`jobs
      ensures View() == P.Finalize(old(View()), i)
    {
      var ok := false;
      if IsPendingHold(rows[i]) {
        ok := ActivatePendingReservation(i);
      } else if rows[i].status == Reserved {
        rows := rows[i := rows[i].(pay := PayPaid)];
        ok := true;
      }
      if !ok {
        RefuseActivation(i);
      }
    }

    /** One iteration of the loop of `processPaidOrder`. */
    method FinalizePaidRow(i: nat)
      modifies this`rows, this`listings, this`requests, this`payments, this`jobs
      ensures View() == P.PaidOrder(old(View()), i)
    {
      if i !in payments || payments[i].status == PayRefunded {
        return;
      }
      if i >= |rows| {
        payments := payments[i := payments[i].(status := PayPaid)];
        return;
      }
      if rows[i].pay == PayRefunded {
        return;
      }
      var r, p := rows[i], payments[i];
      var alreadyFinal := p.status == PayPaid && r.pay == PayPaid;
      if !alreadyFinal &&
         (P.IsReleased(r.status) || r.status == Cancelled || P.InRefund(p.status) || P.InRefund(r.pay)) {
        RefundLatePayment(i);
      } else if !alreadyFinal || r.status == PaymentPending {
        payments := payments[i := p.(status := PayPaid)];
        ActivateOrRefuse(i);
      }
    }

    method FinalizeRows(ids: seq<nat>)
      modifies this`rows, this`listings, this`requests, this`payments, this`jobs
      ensures View() == M.Run(old(View()), PaidSteps(ids))
    {
      ghost var before := View();
      var k := 0;
      while k < |ids|
        invariant 0 <= k <= |ids|
        invariant View() == M.Run(before, PaidSteps(ids[..k]))
      {
        PaidStepRuns(before, ids, k);
        FinalizePaidRow(ids[k]);
        k := k + 1;
      }
      assert ids[..k] == ids;
    }

    method ProcessPaidOrder(ids: seq<nat>)
      requires Valid()
      modifies this`rows, this`listings, this`requests, this`payments, this`jobs
      ensures View() == M.Run(old(View()), PaidSteps(ids)) && Valid()
    {
      ghost var before := View();
      FinalizeRows(ids);
      RunKeepsReachable(before, View(), PaidSteps(ids));
    }

    method InsertMissingPayment(i: nat) returns (failure: Option<nat>)
      modifies this`payments
      ensures Outcome(old(View()), View(), failure, P.RecoverPayment(old(View()), i))
    {
      if i !in orders || i in payments || i >= |rows| {
        return Some(0);
      }
      payments := payments[i := R.NewPayment(orders[i])];
      return None;
    }

    /** The first loop of `materializeMissingPaymentsForAttempt`. */
    method InsertMissingPayments(ids: seq<nat>)
      modifies this`payments
      ensures View() == M.Run(old(View()), RecoverySteps(ids))
    {
      ghost var before := View();
      var k := 0;
      while k < |ids|
        invariant 0 <= k <= |ids|
        invariant View() == M.Run(before, RecoverySteps(ids[..k]))
      {
        RecoveryStepRuns(before, ids, k);
        var _ := InsertMissingPayment(ids[k]);
        k := k + 1;
      }
      assert ids[..k] == ids;
    }

    /** An order that was paid but has lost its payment rows: all of them are made again, then all are
        finalised, in one transaction. An order that still has a payment row is left alone. */
    method RecoverPaidOrder(ids: seq<nat>)
      requires Valid()
      modifies this`rows, this`listings, this`requests, this`payments, this`jobs
      ensures Valid()
      ensures View() == if exists k :: 0 <= k < |ids| && ids[k] in old(payments) then old(View())
                        else M.Run(old(View()), RecoverySteps(ids) + PaidSteps(ids))
    {
      if exists k :: 0 <= k < |ids| && ids[k] in payments {
        return;
      }
      ghost var before := View();
      M.RunSplits(before, RecoverySteps(ids), PaidSteps(ids));
      InsertMissingPayments(ids);
      FinalizeRows(ids);
      RunKeepsReachable(before, View(), RecoverySteps(ids) + PaidSteps(ids));
    }

    method ProcessFailedRow(i: nat, expired: bool) returns (failure: Option<nat>)
      modifies this
      ensures Outcome(old(View()), View(), failure, P.FailedOrder(old(View()), i, expired))
    {
      if i in payments && IsSettled(payments[i].status) {
        return None;
      }
      if expired {
        failure := ReleasePendingPaymentReservation(i, ExpiredPayment, PayExpired, false);
      } else {
        failure := ReleasePendingPaymentReservation(i, PaymentFailed, PayFailed, false);
      }
    }

    method RecoverStaleHold(i: nat) returns (failure: Option<nat>)
      modifies this
      ensures Outcome(old(View()), View(), failure, P.RecoverStaleHold(old(View()), i))
    {
      failure := ReleasePendingPaymentReservation(i, PaymentFailed, PayFailed, true);
    }

    // ---------- refunds ----------

    /** The refund id that is already recorded, or a new one. */
    method RefundIdFor(recorded: Option<nat>) returns (id: nat)
      modifies this`nextRefundId
      ensures id == F.RefundIdFor(old(View()), recorded)
      ensures nextRefundId == if recorded.None? then old(nextRefundId) + 1 else old(nextRefundId)
    {
      if recorded.Some? {
        return recorded.value;
      }
      id := nextRefundId;
      nextRefundId := nextRefundId + 1;
    }

    method PrepareRefund(i: nat, execute: bool) returns (call: Option<RefundCall>)
      modifies this`rows, this`payments, this`nextRefundId, this`prepared
      ensures Outcome(old(View()), View(), if call.Some? then None else Some(0),
                      F.PrepareRefund(old(View()), i, execute))
      ensures call.Some? ==> call.value.reservation == i && call.value.channel == PaymentChannel
    {
      if PaymentRefundJob(i) !in jobs || i >= |rows| || i !in payments {
        return None;
      }
      var r, p := rows[i], payments[i];
      if p.status == PayRefunded || p.refundStatus == Some(PayRefunded) || r.pay == PayRefunded ||
         r.status != Cancelled || !F.Refundable(p.status) || !execute {
        return None;
      }
      var id := WritePreparation(i);
      return Some(RefundCall(i, PaymentChannel, id));
    }

    /** The two UPDATE statements of `prepareRefund`. */
    method WritePreparation(i: nat) returns (id: nat)
      requires i < |rows| && i in payments
      modifies this`rows, this`payments, this`nextRefundId, this`prepared
      ensures View() == F.PreparedRow(old(View()), i) && id == F.RefundIdFor(old(View()), old(payments)[i].refundId)
    {
      var p := payments[i];
      id := RefundIdFor(p.refundId);
      payments := payments[i := F.PreparedPayment(p, id)];
      rows := rows[i := rows[i].(pay := F.MarkPending(rows[i].pay))];
      prepared := prepared + {RefundCall(i, PaymentChannel, id)};
    }

    method PrepareDepositRefund(i: nat, execute: bool) returns (call: Option<RefundCall>)
      modifies this`payments, this`nextRefundId, this`prepared
      ensures Outcome(old(View()), View(), if call.Some? then None else Some(0),
                      F.PrepareDepositRefund(old(View()), i, execute))
      ensures call.Some? ==> call.value.reservation == i && call.value.channel == DepositChannel
    {
      if DepositRefundJob(i) !in jobs || i !in payments || i >= |rows| {
        return None;
      }
      var p := payments[i];
      if p.deposit == 0 || p.status != PayPaid || p.depositStatus == DepositRefunded ||
         p.depositStatus == DepositRetained || !execute {
        return None;
      }
      var id := WriteDepositPreparation(i);
      return Some(RefundCall(i, DepositChannel, id));
    }

    method WriteDepositPreparation(i: nat) returns (id: nat)
      requires i < |rows| && i in payments
      modifies this`payments, this`nextRefundId, this`prepared
      ensures View() == F.PreparedDeposit(old(View()), i) &&
              id == F.RefundIdFor(old(View()), old(payments)[i].depositRefundId)
    {
      id := RefundIdFor(payments[i].depositRefundId);
      payments := payments[i := payments[i].(depositStatus := DepositRefundPending, depositRefundId := Some(id))];
      prepared := prepared + {RefundCall(i, DepositChannel, id)};
    }

    /** The gateway, as the worker sees it: the call is received, and a status comes back. */
    method CallGateway(c: RefundCall, s: GatewayStatus) returns (failure: Option<nat>)
      modifies this`calls, this`answers
      ensures Outcome(old(View()), View(), failure, F.GatewayReplies(old(View()), c, s))
    {
      if c !in prepared {
        return Some(0);
      }
      calls := calls + {c};
      answers := answers + {Answer(c, s)};
      return None;
    }

    /** The pair of UPDATE statements for each status. */
    method RecordRefundStatus(i: nat, status: PayState, withDeposit: bool)
      requires i < |rows| && i in payments && F.IsRefundStatus(status)
      modifies this`payments, this`rows
      ensures View() == F.RecordRefund(old(View()), i, status, withDeposit)
    {
      var r, p := rows[i], payments[i].(status := status, refundStatus := Some(status));
      if status == PayRefunded {
        if withDeposit && p.deposit > 0 {
          p := p.(depositStatus := DepositRefunded);
        }
        r := r.(pay := PayRefunded);
      } else if status == PayRefundFailed {
        if r.pay != PayRefunded {
          r := r.(pay := PayRefundFailed);
        }
      } else if r.pay != PayRefunded && r.pay != PayRefundFailed {
        r := r.(pay := PayRefundPending);
      }
      payments := payments[i := p];
      rows := rows[i := r];
    }

    method PersistRefundStatus(c: RefundCall, s: GatewayStatus) returns (failure: Option<nat>)
      modifies this`payments, this`rows
      ensures Outcome(old(View()), View(), failure, F.PersistRefund(old(View()), c, s))
    {
      var i := c.reservation;
      if c !in calls || c.channel != PaymentChannel || Answer(c, s) !in answers {
        return Some(0);
      }
      if i !in payments || i >= |rows| || payments[i].status == PayRefunded {
        return Some(0);
      }
      RecordRefundStatus(i, F.Normalize(s), true);
      return None;
    }

    method RecordDepositStatus(i: nat, status: PayState)
      requires i < |rows| && i in payments
      modifies this`payments
      ensures View() == F.RecordDeposit(old(View()), i, status)
    {
      payments := payments[i := payments[i].(depositStatus := F.DepositAfter(payments[i].depositStatus, status))];
    }

    method PersistDepositRefundStatus(c: RefundCall, s: GatewayStatus) returns (failure: Option<nat>)
      modifies this`payments
      ensures Outcome(old(View()), View(), failure, F.PersistDepositRefund(old(View()), c, s))
    {
      var i := c.reservation;
      if c !in calls || c.channel != DepositChannel || Answer(c, s) !in answers {
        return Some(0);
      }
      if i in payments && i < |rows| && payments[i].deposit > 0 {
        RecordDepositStatus(i, F.Normalize(s));
      }
      return None;
    }

    /** A refund webhook, or a read of the gateway by the reconciliation. */
    method ProcessRefundEvent(c: RefundCall, s: GatewayStatus, allowRetry: bool) returns (failure: Option<nat>)
      modifies this`payments, this`rows
      ensures Outcome(old(View()), View(), failure, F.RefundEvent(old(View()), c, s, allowRetry))
    {
      var i, n := c.reservation, F.Normalize(s);
      if Answer(c, s) !in answers || i !in payments || i >= |rows| {
        return Some(0);
      }
      var p := payments[i];
      if p.depositRefundId == Some(c.id) {
        if F.IgnoredDeposit(p, n, allowRetry) {
          return Some(0);
        }
        RecordDepositStatus(i, n);
        return None;
      }
      if p.refundId != Some(c.id) || F.Ignored(p, n, allowRetry) {
        return Some(0);
      }
      RecordRefundStatus(i, n, false);
      return None;
    }

    /** The body of a cancellation refund job that does not crash is three steps of the machine. */
    method ProcessRefundJob(i: nat, execute: bool, s: GatewayStatus) returns (call: Option<RefundCall>)
      requires Valid()
      modifies this
      ensures Valid()
      ensures call.None? ==> View() == old(View())
      ensures call.Some? ==> call.value.reservation == i && call.value.channel == PaymentChannel &&
                             View() == M.Run(old(View()), RefundSteps(i, execute, s, call.value))
    {
      ghost var d0 := View();
      call := PrepareRefund(i, execute);
      if call.Some? {
        ghost var d1 := View();
        var answered := CallGateway(call.value, s);
        ghost var d2 := View();
        var stored := PersistRefundStatus(call.value, s);
        M.PrepareRefundApplies(d0, i, execute);
        M.GatewayRepliesApplies(d1, call.value, s);
        M.PersistRefundApplies(d2, call.value, s);
        RefundJobRuns(d0, i, execute, s, call.value);
        RunKeepsReachable(d0, View(), RefundSteps(i, execute, s, call.value));
      }
    }

    // ---------- the server ----------

    method ServeListing(step: M.Step) returns (failure: Option<nat>)
      requires M.IsListingStep(step)
      modifies this
      ensures Outcome(old(View()), View(), failure, M.ExecuteListing(old(View()), step))
    {
      match step
      case Tick(elapsed) => failure := PassTime(elapsed);
      case PostListing(p, q, start, t, free) => failure := CreateFood(p, q, start, t, free);
      case EditListing(p, l, e) => failure := UpdateFood(p, l, e);
      case ArchiveListing(p, l) => failure := DeleteFood(p, l);
      case ExpireListing(l, expected, open) => failure := ExpireListing(l, expected, open);
      case RequestRescue(p, l, ngo, v) => failure := RequestNgo(p, l, ngo, v);
      case RejectRequest(ngo, q) => failure := RejectNgoRequest(ngo, q);
    }

    method ServeClaim(step: M.Step) returns (failure: Option<nat>)
      requires M.IsClaimStep(step)
      modifies this
      ensures Outcome(old(View()), View(), failure, M.ExecuteClaim(old(View()), step))
    {
      match step
      case AcceptRequest(ngo, q, approved, terms) => failure := AcceptNgoRequest(ngo, q, approved, terms);
      case HoldStock(u, l, q, approved, can) => failure := HoldStock(u, l, q, approved, can);
      case OpenPaymentSession(i, deposit, commits) => failure := OpenPaymentSession(i, deposit, commits);
      case CompensateHold(i) => failure := CancelPaymentInitializationHold(i);
      case BulkReserve(u, items, approved, terms) => failure := BulkReserve(u, items, approved, terms);
      case CancelReservation(u, i) => failure := CancelReservation(u, i);
      case MarkPickedUp(p, i, code) => failure := MarkAsPickedUp(p, i, code);
    }

    method ServeDelivery(step: M.Step) returns (failure: Option<nat>)
      requires M.IsDeliveryStep(step)
      modifies this
      ensures Outcome(old(View()), View(), failure, M.ExecuteDelivery(old(View()), step))
    {
      match step
      case StartTask(v, i, raced) => failure := StartTask(v, i, raced);
      case CompleteTask(v, i, code) => failure := CompleteTask(v, i, code);
      case PickupTimeout(i, open) => failure := PickupTimeout(i, open);
      case DeliveryTimeout(i, open) => failure := DeliveryTimeout(i, open);
    }

    method ServePayment(step: M.Step) returns (failure: Option<nat>)
      requires M.IsPaymentStep(step)
      modifies this
      ensures Outcome(old(View()), View(), failure, M.ExecutePayment(old(View()), step))
    {
      failure := None;
      match step
      case PaidOrder(i) => FinalizePaidRow(i);
      case RecoverPayment(i) => failure := InsertMissingPayment(i);
      case FailedOrder(i, expired) => failure := ProcessFailedRow(i, expired);
      case RecoverStaleHold(i) => failure := RecoverStaleHold(i);
    }

    method ServeRefund(step: M.Step) returns (failure: Option<nat>)
      requires M.IsRefundStep(step)
      modifies this
      ensures Outcome(old(View()), View(), failure, M.ExecuteRefund(old(View()), step))
    {
      var call: Option<RefundCall>;
      match step
      case PrepareRefund(i, execute) =>
        call := PrepareRefund(i, execute);
        failure := if call.Some? then None else Some(0);
      case PrepareDepositRefund(i, execute) =>
        call := PrepareDepositRefund(i, execute);
        failure := if call.Some? then None else Some(0);
      case GatewayReplies(c, s) => failure := CallGateway(c, s);
      case PersistRefund(c, s) => failure := PersistRefundStatus(c, s);
      case PersistDepositRefund(c, s) => failure := PersistDepositRefundStatus(c, s);
      case RefundEvent(c, s, retry) => failure := ProcessRefundEvent(c, s, retry);
    }

    /** Whatever is asked of the server, it does what the machine does. */
    method Dispatch(step: M.Step) returns (failure: Option<nat>)
      modifies this
      ensures Outcome(old(View()), View(), failure, M.Execute(old(View()), step))
    {
      if M.IsListingStep(step) {
        failure := ServeListing(step);
      } else if M.IsClaimStep(step) {
        failure := ServeClaim(step);
      } else if M.IsDeliveryStep(step) {
        failure := ServeDelivery(step);
      } else if M.IsPaymentStep(step) {
        failure := ServePayment(step);
      } else {
        failure := ServeRefund(step);
      }
    }

    /** Every transaction keeps the tables valid, and takes a reachable state to a reachable one. */
    method Serve(step: M.Step) returns (failure: Option<nat>)
      requires Valid()
      modifies this
      ensures Valid() && View() == M.Apply(old(View()), step)
      ensures M.Reachable(old(View())) ==> M.Reachable(View())
    {
      ghost var before := View();
      failure := Dispatch(step);
      OutcomeApplies(before, View(), failure, step);
    }

    /** ... so every law of reachable states holds of the server whatever it is asked, in any order. */
    method ServeAll(steps: seq<M.Step>)
      requires Valid()
      modifies this
      ensures Valid() && View() == M.Run(old(View()), steps)
      ensures M.Reachable(old(View())) ==> M.Reachable(View())
    {
      ghost var before := View();
      for k := 0 to |steps|
        invariant Valid() && View() == M.Run(before, steps[..k])
        invariant M.Reachable(before) ==> M.Reachable(View())
      {
        NextStepRuns(before, steps, k);
        var _ := Serve(steps[k]);
      }
      assert steps[..|steps|] == steps;
    }
  }

  lemma NextStepRuns(db: Db, steps: seq<M.Step>, k: nat)
    requires k < |steps|
    ensures M.Run(db, steps[..k + 1]) == M.Apply(M.Run(db, steps[..k]), steps[k])
  {
    assert steps[..k + 1] == steps[..k] + [steps[k]];
    M.StepRuns(db, steps[..k], steps[k]);
  }

  /** What `createReservation` does when nobody interferes; `i` is the row it inserts. */
  function SagaSteps(user: nat, l: nat, q: int, isApproved: bool, canReserve: bool, i: nat, deposit: nat, commits: bool)
    : seq<M.Step>
  {
    [M.HoldStock(user, l, q, isApproved, canReserve), M.OpenPaymentSession(i, deposit, commits)] +
    if commits then [] else [M.CompensateHold(i)]
  }

  function Held(db: Db, user: nat, l: nat, q: int, isApproved: bool, canReserve: bool): Db {
    M.After(db, R.HoldStock(db, user, l, q, isApproved, canReserve))
  }

  function PaidOrCompensated(db: Db, i: nat, deposit: nat, commits: bool): Db {
    var paying := M.After(db, R.OpenPaymentSession(db, i, deposit, commits));
    if commits then paying else M.After(paying, R.CompensateHold(paying, i))
  }

  lemma SecondHalfRuns(db: Db, i: nat, deposit: nat, commits: bool)
    ensures var paying := M.Apply(db, M.OpenPaymentSession(i, deposit, commits));
            PaidOrCompensated(db, i, deposit, commits)
            == if commits then paying else M.Apply(paying, M.CompensateHold(i))
  {
    M.OpenPaymentSessionApplies(db, i, deposit, commits);
    M.CompensateHoldApplies(M.Apply(db, M.OpenPaymentSession(i, deposit, commits)), i);
  }

  lemma PaymentRuns(db: Db, hold: M.Step, i: nat, deposit: nat, commits: bool)
    ensures M.Run(db, [hold, M.OpenPaymentSession(i, deposit, commits)] + if commits then [] else [M.CompensateHold(i)])
            == PaidOrCompensated(M.Apply(db, hold), i, deposit, commits)
  {
    var open := M.OpenPaymentSession(i, deposit, commits);
    SecondHalfRuns(M.Apply(db, hold), i, deposit, commits);
    if commits {
      TwoSteps(db, hold, open);
      assert [hold, open] + [] == [hold, open];
    } else {
      ThreeSteps(db, hold, open, M.CompensateHold(i));
      assert [hold, open] + [M.CompensateHold(i)] == [hold, open, M.CompensateHold(i)];
    }
  }

  lemma SagaRuns(db: Db, user: nat, l: nat, q: int, isApproved: bool, canReserve: bool, deposit: nat, commits: bool)
    ensures var i := |db.rows|;
            M.Run(db, SagaSteps(user, l, q, isApproved, canReserve, i, deposit, commits))
            == PaidOrCompensated(Held(db, user, l, q, isApproved, canReserve), i, deposit, commits)
  {
    M.HoldStockApplies(db, user, l, q, isApproved, canReserve);
    PaymentRuns(db, M.HoldStock(user, l, q, isApproved, canReserve), |db.rows|, deposit, commits);
  }

  /** Stock that is taken and given back at once leaves the listing as it was. */
  lemma RoundTrip(listings: seq<Listing>, l: nat, q: int, now: int)
    requires l < |listings| && 0 < q <= listings[l].remaining && listings[l].status == ListingActive &&
             listings[l].deadline > now
    ensures RestoreStock(TakeStock(listings, l, q, true).value, l, q, now, true) == listings
  {
  }

  lemma FailedSessionRestores(db: Db, user: nat, l: nat, q: int, isApproved: bool, canReserve: bool, deposit: nat)
    requires R.HoldStock(db, user, l, q, isApproved, canReserve).Done?
    requires |db.rows| !in db.orders && |db.rows| !in db.payments
    ensures var after := PaidOrCompensated(Held(db, user, l, q, isApproved, canReserve), |db.rows|, deposit, false);
            after.listings == db.listings && after.payments == db.payments &&
            after.rows == db.rows + [R.Released(R.NewRow(user, l, q, SelfPickup, PaymentPending, PayPending, None),
                                                PaymentFailed, PayFailed)]
  {
    RoundTrip(db.listings, l, q, db.now);
  }

  lemma NextItem(db: Db, user: nat, items: seq<R.Item>, k: nat, approved: set<nat>, terms: R.NgoTerms)
    requires k < |items| && R.ReserveItems(db, user, items[..k], approved, terms).Done?
    ensures R.ReserveItems(db, user, items[..k + 1], approved, terms)
         == R.ReserveItem(R.ReserveItems(db, user, items[..k], approved, terms).db, user, items[k], approved, terms)
  {
    assert items[..k + 1][..k] == items[..k];
  }

  lemma {:induction false} FailingPrefix(db: Db, user: nat, items: seq<R.Item>, k: nat, approved: set<nat>,
                                         terms: R.NgoTerms)
    requires k <= |items| && R.ReserveItems(db, user, items[..k], approved, terms).Rejected?
    ensures R.ReserveItems(db, user, items, approved, terms) == R.ReserveItems(db, user, items[..k], approved, terms)
    decreases |items|
  {
    if k == |items| {
      assert items[..k] == items;
    } else {
      var front := items[..|items| - 1];
      assert front[..k] == items[..k];
      FailingPrefix(db, user, front, k, approved, terms);
    }
  }

  function RefundSteps(i: nat, execute: bool, s: GatewayStatus, c: RefundCall): seq<M.Step> {
    [M.PrepareRefund(i, execute), M.GatewayReplies(c, s), M.PersistRefund(c, s)]
  }

  lemma RefundJobRuns(db: Db, i: nat, execute: bool, s: GatewayStatus, c: RefundCall)
    ensures M.Run(db, RefundSteps(i, execute, s, c))
         == M.Apply(M.Apply(M.Apply(db, M.PrepareRefund(i, execute)), M.GatewayReplies(c, s)), M.PersistRefund(c, s))
  {
    ThreeSteps(db, M.PrepareRefund(i, execute), M.GatewayReplies(c, s), M.PersistRefund(c, s));
  }

  lemma TwoSteps(db: Db, a: M.Step, b: M.Step)
    ensures M.Run(db, [a, b]) == M.Apply(M.Apply(db, a), b)
  {
    M.OneStep(db, a);
    M.StepRuns(db, [a], b);
    assert [a, b] == [a] + [b];
  }

  lemma ThreeSteps(db: Db, a: M.Step, b: M.Step, c: M.Step)
    ensures M.Run(db, [a, b, c]) == M.Apply(M.Apply(M.Apply(db, a), b), c)
  {
    TwoSteps(db, a, b);
    M.StepRuns(db, [a, b], c);
    assert [a, b, c] == [a, b] + [c];
  }
}
