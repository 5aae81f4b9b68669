/** Stock movements and the release of unpaid holds
    (inventory.service.js, reservationConsistency.service.js) and the one-claim lock
    (reservationLock.service.js, ensureListingNotPreviouslyReserved). */
module Stock {
  import opened Model

  /** `reserveListingStock`: the conditional UPDATE matches only if enough remains. */
  function TakeStock(listings: seq<Listing>, l: nat, q: int, completeWhenEmpty: bool): Option<seq<Listing>> {
    if l < |listings| && 0 < q <= listings[l].remaining then
      var left := listings[l].remaining - q;
      Some(listings[l := listings[l].(
                           remaining := left,
                           status := if completeWhenEmpty && left <= 0 then ListingCompleted else listings[l].status)])
    else None
  }

  /** `restoreListingStock`. */
  function RestoreStock(listings: seq<Listing>, l: nat, q: int, now: int, reactivate: bool): seq<Listing> {
    if l < |listings| then
      var f := listings[l];
      listings[l := f.(
                      remaining := f.remaining + q,
                      status := if reactivate && f.deadline > now && f.status == ListingCompleted
                                then ListingActive else f.status)]
    else listings
  }

  /** `restoreReservationStockIfHeld`: the `stock_reserved` mark makes it act at most once. The mark
      itself is part of the row and cleared with it. */
  function BackOnListing(listings: seq<Listing>, r: Reservation, now: int): seq<Listing> {
    if r.stockReserved then RestoreStock(listings, r.listing, r.quantity, now, true) else listings
  }

  function BackInHistory(returned: multiset<nat>, r: Reservation, i: nat): multiset<nat> {
    if r.stockReserved then returned + multiset{i} else returned
  }

  predicate IsPendingHold(r: Reservation) {
    r.status == PaymentPending && r.pay == PayPending
  }

  predicate IsSettled(s: PayState) {
    s == PayPaid || s == PaySuccess || s == PayRefundPending || s == PayRefunded
  }

  // ---------- the one-claim lock ----------

  predicate BlockingStatus(s: Status) {
    s in {Reserved, StatusPending, StatusVolunteerStarted, StatusPickedFromProvider,
          StatusDelivered, PickedUp, StatusCompleted}
  }

  predicate BlockingTask(t: Task) {
    t in {TaskSelfPickup, TaskPending, TaskAssigned, TaskInProgress, TaskVolunteerStarted,
          TaskPickedFromProvider, TaskDelivered}
  }

  predicate NonBlockingStatus(s: Status) {
    s in {Cancelled, Expired, StatusFailed, PaymentFailed, StatusAbandonedPayment,
          ExpiredPayment, CancelledBeforeConfirmation}
  }

  predicate NonBlockingPay(p: PayState) {
    p in {PayFailed, PayExpired, PayAbandoned, PayCancelled}
  }

  /** `blockingReservationWhere`. */
  predicate Blocking(r: Reservation) {
    (BlockingStatus(r.status) || BlockingTask(r.task)) &&
    !IsPendingHold(r) &&
    !NonBlockingStatus(r.status) &&
    !NonBlockingPay(r.pay)
  }

  /** The cancelled rows that still lock out their user. */
  predicate CancelledBlocking(r: Reservation) {
    r.status == Cancelled &&
    r.pay in {PayPaid, PayNotRequired, PayRefundPending, PayRefunded, PayRefundFailed}
  }

  predicate Claims(r: Reservation, user: nat, l: nat) {
    r.user == user && r.listing == l && (Blocking(r) || IsPendingHold(r) || CancelledBlocking(r))
  }

  /** `ensureListingNotPreviouslyReserved` throws exactly when this holds. */
  predicate AlreadyClaimed(rows: seq<Reservation>, user: nat, l: nat) {
    exists i :: 0 <= i < |rows| && Claims(rows[i], user, l)
  }

  predicate HasBlocking(rows: seq<Reservation>, l: nat) {
    exists i :: 0 <= i < |rows| && rows[i].listing == l && Blocking(rows[i])
  }
}
