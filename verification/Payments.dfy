/** What the gateway says about an order (paymentReconciliation.service.js). */
module Payments {
  import opened Model
  import opened Stock
  import opened Changes
  import opened Listings
  import opened Reservations

  /** The accepted request of an `ngo_request_accept` hold is still waiting for its payment. */
  predicate RequestStillPending(db: Db, r: Reservation) {
    r.request.None? ||
    (r.request.value < |db.requests| &&
     db.requests[r.request.value].listing == r.listing &&
     db.requests[r.request.value].status == RequestPending)
  }

  function AcceptForPayment(db: Db, r: Reservation): seq<NgoRequest> {
    if r.request.Some? && r.request.value < |db.requests|
    then AcceptAmong(db.requests, r.request.value, r.listing) else db.requests
  }

  /** The duplicate query of the branch that has to take stock again. */
  predicate ActivationDuplicate(rows: seq<Reservation>, i: nat)
    requires i < |rows|
  {
    exists j :: 0 <= j < |rows| && j != i && rows[j].user == rows[i].user && rows[j].listing == rows[i].listing &&
                (rows[j].status in {Reserved, PickedUp, StatusCompleted} ||
                 rows[j].task in {TaskAssigned, TaskInProgress, TaskPickedFromProvider, TaskDelivered} ||
                 CancelledBlocking(rows[j]))
  }

  /** `activatePendingReservation` throws when this does not hold; its caller catches the exception. */
  predicate CanActivate(db: Db, i: nat)
    requires i < |db.rows|
  {
    var r := db.rows[i];
    RequestStillPending(db, r) &&
    (r.stockReserved ||
     (r.listing < |db.listings| && db.listings[r.listing].status == ListingActive &&
      db.listings[r.listing].deadline > db.now && 0 < r.quantity <= db.listings[r.listing].remaining &&
      !ActivationDuplicate(db.rows, i)))
  }

  /** A confirmed hold. It takes stock again if its stock had been given back. */
  function Activated(db: Db, i: nat): Db
    requires i < |db.rows| && CanActivate(db, i)
  {
    var r := db.rows[i];
    var listings := if r.stockReserved then db.listings
                    else TakeStock(db.listings, r.listing, r.quantity, r.request.Some?).value;
    db.(rows := db.rows[i := Confirmed(r)], listings := listings, requests := AcceptForPayment(db, r))
  }

  function Confirmed(r: Reservation): Reservation {
    r.(status := Reserved, pay := PayPaid, stockReserved := true)
  }

  predicate IsReleased(s: Status) {
    s == CancelledBeforeConfirmation || s == ExpiredPayment || s == PaymentFailed || s == StatusFailed
  }

  predicate InRefund(s: PayState) {
    s == PayRefundPending || s == PayRefunded
  }

  function LateRow(r: Reservation): Reservation {
    if r.pay == PayRefunded || r.pay == PayRefundFailed then r
    else r.(status := if IsReleased(r.status) then Cancelled else r.status, pay := PayRefundPending)
  }

  function LatePayment(p: Payment): Payment {
    if p.status == PayRefundPending || p.status == PayRefunded then p
    else p.(status := PayRefundPending, refundStatus := Some(PayRefundPending))
  }

  /** Money for a reservation that no longer exists goes into the refund channel. */
  function RefundLatePayment(db: Db, i: nat): Db
    requires i < |db.rows| && i in db.payments
  {
    Perform(db, i, Change(LateRow(db.rows[i]), Some(LatePayment(db.payments[i])), false, {PaymentRefundJob(i)},
                          Unscored))
  }

  function RefusedRow(r: Reservation): Reservation {
    if r.pay == PayRefunded then r else r.(status := Cancelled, pay := PayRefundPending)
  }

  function RefusedPayment(p: Payment): Payment {
    p.(status := PayRefundPending, refundStatus := Some(PayRefundPending))
  }

  /** The catch block around the activation. Unlike every other cancellation it does not give
      the stock back. */
  function RefundFailedActivation(db: Db, i: nat): Db
    requires i < |db.rows| && i in db.payments
  {
    Perform(db, i, Change(RefusedRow(db.rows[i]), Some(RefusedPayment(db.payments[i])), false, {PaymentRefundJob(i)},
                          Unscored))
  }

  function Paid(db: Db, i: nat): Db
    requires i in db.payments
  {
    db.(payments := db.payments[i := db.payments[i].(status := PayPaid)])
  }

  /** The end of `processPaidOrder` for a row: it is confirmed, or its money goes back. */
  function Finalize(d: Db, i: nat): Db
    requires i < |d.rows| && i in d.payments
  {
    if IsPendingHold(d.rows[i]) then
      if CanActivate(d, i) then Activated(d, i) else RefundFailedActivation(d, i)
    else if d.rows[i].status == Reserved then Perform(d, i, Quiet(d.rows[i].(pay := PayPaid), PayOf(d, i)))
    else RefundFailedActivation(d, i)
  }

  /** One iteration of the loop of `processPaidOrder`: the gateway reports order of row `i` paid. */
  function PaidOrder(db: Db, i: nat): Db {
    if i !in db.payments || db.payments[i].status == PayRefunded then db
    else if i >= |db.rows| then Paid(db, i)
    else
      var r, p := db.rows[i], db.payments[i];
      var isFinal := p.status == PayPaid && r.pay == PayPaid;
      if r.pay == PayRefunded then db
      else if !isFinal && (IsReleased(r.status) || r.status == Cancelled || InRefund(p.status) || InRefund(r.pay)) then
        RefundLatePayment(db, i)
      else if isFinal && r.status != PaymentPending then db
      else Finalize(Paid(db, i), i)
  }

  /** `materializeMissingPaymentsForAttempt` inserts the payment row of an order that has lost it. */
  function RecoverPayment(db: Db, i: nat): Result {
    if i !in db.orders || i in db.payments || i >= |db.rows| then Rejected(0)
    else Done(Perform(db, i, Quiet(db.rows[i], Some(NewPayment(db.orders[i])))))
  }

  /** One iteration of `processFailedOrder`, and of the local expiry of a stale session. */
  function FailedOrder(db: Db, i: nat, expired: bool): Result {
    if i in db.payments && IsSettled(db.payments[i].status) then Done(db)
    else if expired then ReleaseHold(db, i, ExpiredPayment, PayExpired, false)
    else ReleaseHold(db, i, PaymentFailed, PayFailed, false)
  }

  /** `recoverStalePaymentInitialization`: the session never came to life. */
  function RecoverStaleHold(db: Db, i: nat): Result {
    ReleaseHold(db, i, PaymentFailed, PayFailed, true)
  }
}
