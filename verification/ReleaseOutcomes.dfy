/** What releasing and cancelling do, told from outside: when they act, where the stock and the money
    go. */
module ReleaseOutcomes {
  import opened Model
  import opened Machine
  import opened Frames
  import opened Cells
  import opened Invariant
  import opened Runs
  import R = Reservations
  import P = Payments

  // ---------- unpaid holds ----------

  /** The hold ends under `status`; its stock returns. */
  ghost predicate HoldEnds(db: Db, db': Db, i: nat, status: Status, pay: PayState) {
    OnlyRow(db, db', i) && StockReturns(db, db', i) &&
    db' == db.(rows := db'.rows, payments := db'.payments, listings := db'.listings, returned := db'.returned) &&
    db'.rows[i] == db.rows[i].(status := status, pay := pay, stockReserved := false)
  }

  /** ... and so does its payment, if it has one. */
  predicate PaymentEnds(db: Db, db': Db, i: nat, pay: PayState) {
    if i in db.payments then i in db'.payments && db'.payments[i] == db.payments[i].(status := pay)
    else i !in db'.payments
  }

  predicate Waiting(db: Db, i: nat) {
    i < |db.rows| && db.rows[i].status == PaymentPending
  }

  /** The compensation ends any hold, and leaves a payment alone. */
  ghost predicate CompensateHoldPromise(db: Db, db': Db, i: nat) {
    if Waiting(db, i) then HoldEnds(db, db', i, PaymentFailed, PayFailed) && PayOf(db', i) == PayOf(db, i)
    else db' == db
  }

  /** An order that failed or ran out ends the hold it was made for. */
  ghost predicate FailedOrderPromise(db: Db, db': Db, i: nat, expired: bool) {
    var status, pay := if expired then ExpiredPayment else PaymentFailed, if expired then PayExpired else PayFailed;
    if Waiting(db, i) && i in db.payments then HoldEnds(db, db', i, status, pay) && PaymentEnds(db, db', i, pay)
    else db' == db
  }

  /** A payment session that never came to life ends the hold, with or without a payment row. */
  ghost predicate RecoverStaleHoldPromise(db: Db, db': Db, i: nat) {
    if Waiting(db, i) then HoldEnds(db, db', i, PaymentFailed, PayFailed) && PaymentEnds(db, db', i, PayFailed)
    else db' == db
  }

  lemma HoldCloses(db: Db, i: nat, status: Status, pay: PayState, p: Option<Payment>)
    requires Ready(db, i) && Waiting(db, i) && (i in db.payments ==> p.Some?)
    ensures var db' := R.CloseHold(db, i, status, pay, p);
            HoldEnds(db, db', i, status, pay) && PayOf(db', i) == p
  {
  }

  lemma CompensateHoldMeets(db: Db, i: nat)
    requires i < |db.rows| ==> Ready(db, i)
    ensures CompensateHoldPromise(db, After(db, R.CompensateHold(db, i)), i)
  {
    if Waiting(db, i) {
      HoldCloses(db, i, PaymentFailed, PayFailed, PayOf(db, i));
    }
  }

  lemma FailedOrderMeets(db: Db, i: nat, expired: bool)
    requires i < |db.rows| ==> Ready(db, i)
    requires forall k :: k in db.payments ==> k < |db.rows|
    ensures FailedOrderPromise(db, After(db, P.FailedOrder(db, i, expired)), i, expired)
  {
    if Waiting(db, i) {
      var status, pay := if expired then ExpiredPayment else PaymentFailed, if expired then PayExpired else PayFailed;
      HoldCloses(db, i, status, pay, R.WithStatus(PayOf(db, i), pay));
    }
  }

  lemma RecoverStaleHoldMeets(db: Db, i: nat)
    requires i < |db.rows| ==> Ready(db, i)
    ensures RecoverStaleHoldPromise(db, After(db, P.RecoverStaleHold(db, i)), i)
  {
    if Waiting(db, i) {
      HoldCloses(db, i, PaymentFailed, PayFailed, R.WithStatus(PayOf(db, i), PayFailed));
    }
  }

  // ---------- cancellation ----------

  /** A confirmed reservation may be cancelled by an NGO until a volunteer takes it, by a user until
      twenty minutes before the pickup ends. */
  predicate InTime(db: Db, i: nat)
    requires i < |db.rows| && db.rows[i].listing < |db.listings|
  {
    if db.rows[i].pickupType == NgoPickup then db.rows[i].volunteer.None?
    else db.now + 20 * MINUTE <= db.listings[db.rows[i].listing].deadline
  }

  /** The reservation is cancelled and its stock returns. A payment goes to the refund queue; without
      one there is nothing to pay back. */
  ghost predicate Withdrawn(db: Db, db': Db, i: nat) {
    OnlyRow(db, db', i) && StockReturns(db, db', i) &&
    db' == db.(rows := db'.rows, payments := db'.payments, listings := db'.listings, returned := db'.returned,
               jobs := db'.jobs) &&
    if i in db.payments then
      db'.rows[i] == db.rows[i].(status := Cancelled, pay := PayRefundPending, stockReserved := false) &&
      i in db'.payments &&
      db'.payments[i] == db.payments[i].(status := PayRefundPending, refundStatus := Some(PayRefundPending)) &&
      db'.jobs == db.jobs + {PaymentRefundJob(i)}
    else
      db'.rows[i] == db.rows[i].(status := Cancelled, stockReserved := false) &&
      i !in db'.payments && db'.jobs == db.jobs
  }

  /** Users cancel what is theirs: a hold that has a payment to fail, or a confirmed reservation in time. */
  ghost predicate CancelReservationPromise(db: Db, db': Db, user: nat, i: nat)
    requires i < |db.rows| ==> db.rows[i].listing < |db.listings|
  {
    if i < |db.rows| && db.rows[i].user == user && db.rows[i].status == PaymentPending && i in db.payments then
      HoldEnds(db, db', i, CancelledBeforeConfirmation, PayFailed) && PaymentEnds(db, db', i, PayFailed)
    else if i < |db.rows| && db.rows[i].user == user && db.rows[i].status == Reserved && InTime(db, i) then
      Withdrawn(db, db', i)
    else db' == db
  }

  lemma CancelHoldMeets(db: Db, user: nat, i: nat)
    requires Ready(db, i) && Waiting(db, i)
    ensures CancelReservationPromise(db, After(db, R.CancelReservation(db, user, i)), user, i)
  {
    HoldCloses(db, i, CancelledBeforeConfirmation, PayFailed, R.WithStatus(PayOf(db, i), PayFailed));
  }

  lemma PaidWithdraws(db: Db, i: nat)
    requires Ready(db, i) && db.rows[i].status == Reserved && i in db.payments
    ensures Withdrawn(db, R.CancelPaid(db, i), i)
  {
  }

  lemma FreeWithdraws(db: Db, i: nat)
    requires Ready(db, i) && db.rows[i].status == Reserved && i !in db.payments
    ensures Withdrawn(db, R.CancelUnpaid(db, i, db.rows[i].pay, PayOf(db, i)), i)
  {
  }

  lemma CancelReservedActs(db: Db, user: nat, i: nat)
    requires Ready(db, i) && db.rows[i].status == Reserved
    ensures After(db, R.CancelReservation(db, user, i))
            == if db.rows[i].user != user || !InTime(db, i) then db
               else if i in db.payments then R.CancelPaid(db, i)
               else R.CancelUnpaid(db, i, db.rows[i].pay, PayOf(db, i))
  {
  }

  lemma CancelReservedMeets(db: Db, user: nat, i: nat)
    requires Ready(db, i) && db.rows[i].status == Reserved
    ensures CancelReservationPromise(db, After(db, R.CancelReservation(db, user, i)), user, i)
  {
    CancelReservedActs(db, user, i);
    if i in db.payments {
      PaidWithdraws(db, i);
    } else {
      FreeWithdraws(db, i);
    }
  }

  lemma CancelReservationMeets(db: Db, user: nat, i: nat)
    requires i < |db.rows| ==> Ready(db, i)
    ensures CancelReservationPromise(db, After(db, R.CancelReservation(db, user, i)), user, i)
  {
    if Waiting(db, i) {
      CancelHoldMeets(db, user, i);
    } else if i < |db.rows| && db.rows[i].status == Reserved {
      CancelReservedMeets(db, user, i);
    }
  }

  // ---------- the steps ----------

  lemma CompensateHoldPromised(db: Db, i: nat)
    requires Reachable(db)
    ensures CompensateHoldPromise(db, Apply(db, CompensateHold(i)), i)
  {
    RowsReady(db);
    CompensateHoldMeets(db, i);
    CompensateHoldApplies(db, i);
  }

  lemma FailedOrderPromised(db: Db, i: nat, expired: bool)
    requires Reachable(db)
    ensures FailedOrderPromise(db, Apply(db, FailedOrder(i, expired)), i, expired)
  {
    RowsReady(db);
    FailedOrderMeets(db, i, expired);
    FailedOrderApplies(db, i, expired);
  }

  lemma RecoverStaleHoldPromised(db: Db, i: nat)
    requires Reachable(db)
    ensures RecoverStaleHoldPromise(db, Apply(db, RecoverStaleHold(i)), i)
  {
    RowsReady(db);
    RecoverStaleHoldMeets(db, i);
    RecoverStaleHoldApplies(db, i);
  }

  lemma CancelReservationPromised(db: Db, user: nat, i: nat)
    requires Reachable(db)
    ensures i < |db.rows| ==> db.rows[i].listing < |db.listings|
    ensures CancelReservationPromise(db, Apply(db, CancelReservation(user, i)), user, i)
  {
    RowsReady(db);
    CancelReservationMeets(db, user, i);
    CancelReservationApplies(db, user, i);
  }
}
