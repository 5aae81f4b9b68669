/** Holding, cancelling and collecting (reservation.controller.js, ngo.controller.js). */
module Reservations {
  import opened Model
  import opened Stock
  import opened Changes
  import opened Listings
  import opened Sums

  function InitialTask(t: PickupType): Task {
    if t == SelfPickup then TaskSelfPickup else TaskPending
  }

  function NewRow(user: nat, l: nat, q: int, t: PickupType, status: Status, pay: PayState,
                  request: Option<nat>): Reservation {
    Reservation(user, l, q, t, status, InitialTask(t), pay, None, None, None, None, None, true, request)
  }

  function NewPayment(deposit: nat): Payment {
    Payment(PayPending, None, None, 0, deposit, if deposit > 0 then DepositHeld else DepositNotRequired, None)
  }

  /** The hold transaction of `createReservation`. `approved` is the provider's verification,
      `canReserve` the verdict of the trust policy and the capacity check. */
  function HoldStock(db: Db, user: nat, l: nat, q: int, approved: bool, canReserve: bool): Result {
    if !(1 <= q <= 2) then Rejected(400)
    else if l >= |db.listings| || !approved then Rejected(404)
    else
      var f := db.listings[l];
      if f.isFree then Rejected(403)
      else if f.remaining < q || f.status != ListingActive || f.deadline <= db.now then Rejected(409)
      else if AlreadyClaimed(db.rows, user, l) then Rejected(409)
      else if !canReserve then Rejected(403)
      else
        match TakeStock(db.listings, l, q, true)
        case None => Rejected(409)
        case Some(listings) =>
          Done(db.(listings := listings,
                   rows := db.rows + [NewRow(user, l, q, SelfPickup, PaymentPending, PayPending, None)]))
  }

  /** `createReservationPayment` for one row: an order at the gateway, a payment row, a deadline. */
  function OpenSession(db: Db, i: nat, deposit: nat): Db
    requires i < |db.rows|
  {
    var r := db.rows[i].(paymentExpiresAt := Some(db.now + HOLD_TIMEOUT));
    Perform(db, i, Quiet(r, Some(NewPayment(deposit)))).(orders := db.orders[i := deposit])
  }

  /** The payment transaction of `createReservation`. The order attempt is recorded outside the
      transaction, so it survives when the gateway or the commit fails (`commits == false`). */
  function OpenPaymentSession(db: Db, i: nat, deposit: nat, commits: bool): Result {
    if i >= |db.rows| || !IsPendingHold(db.rows[i]) || i in db.orders || i in db.payments then Rejected(409)
    else if !commits then Done(db.(orders := db.orders[i := deposit]))
    else Done(OpenSession(db, i, deposit))
  }

  // ---------- the release of unpaid holds ----------

  function Released(r: Reservation, status: Status, pay: PayState): Reservation {
    r.(status := status, pay := pay, stockReserved := false)
  }

  function WithStatus(p: Option<Payment>, status: PayState): Option<Payment> {
    if p.Some? then Some(p.value.(status := status)) else p
  }

  /** Stock, row and payment of a hold are closed together. */
  function CloseHold(db: Db, i: nat, status: Status, pay: PayState, p: Option<Payment>): Db
    requires i < |db.rows|
  {
    Perform(db, i, Change(Released(db.rows[i], status, pay), p, true, {}, Unscored))
  }

  /** `releasePendingPaymentReservation`. */
  function ReleaseHold(db: Db, i: nat, status: Status, pay: PayState, allowMissing: bool): Result {
    if i >= |db.rows| || !IsPendingHold(db.rows[i]) then Done(db)
    else if i !in db.payments then
      if allowMissing then Done(CloseHold(db, i, status, pay, None)) else Rejected(400)
    else if IsSettled(db.payments[i].status) then Done(db)
    else if db.payments[i].status != PayPending then Rejected(400)
    else Done(CloseHold(db, i, status, pay, WithStatus(PayOf(db, i), pay)))
  }

  /** `cancelPaymentInitializationHold`: the compensation of the create saga. */
  function CompensateHold(db: Db, i: nat): Result {
    if i >= |db.rows| || !IsPendingHold(db.rows[i]) then Rejected(0)
    else Done(CloseHold(db, i, PaymentFailed, PayFailed, PayOf(db, i)))
  }

  // ---------- cancellation ----------

  /** The paid-race repair at the head of `cancelReservation`. */
  function RepairPaid(db: Db, i: nat): Db
    requires i < |db.rows|
  {
    if IsPendingHold(db.rows[i]) && i in db.payments &&
      (db.payments[i].status == PayPaid || db.payments[i].status == PaySuccess)
    then Perform(db, i, Quiet(db.rows[i].(status := Reserved, pay := PayPaid), PayOf(db, i))) else db
  }

  /** Both paid branches move the payment towards a refund with the same guarded UPDATE. */
  function ToRefundPending(p: Payment): Payment {
    if p.status == PayPaid || p.status == PaySuccess || p.status == PayRefundPending
    then p.(status := PayRefundPending, refundStatus := Some(PayRefundPending)) else p
  }

  /** A paid reservation is cancelled: refund, stock, status, refund job. */
  function CancelPaid(db: Db, i: nat): Db
    requires i < |db.rows| && i in db.payments
  {
    Perform(db, i, Change(Released(db.rows[i], Cancelled, PayRefundPending), Some(ToRefundPending(db.payments[i])),
                          true, {PaymentRefundJob(i)}, Unscored))
  }

  /** A reservation without money to return is cancelled; `pay` is its new payment status. */
  function CancelUnpaid(db: Db, i: nat, pay: PayState, p: Option<Payment>): Db
    requires i < |db.rows|
  {
    Perform(db, i, Change(Released(db.rows[i], Cancelled, pay), p, true, {}, Unscored))
  }

  function CancelNgo(db: Db, i: nat): Result
    requires i < |db.rows|
  {
    if db.rows[i].task != TaskPending then Rejected(400)
    else if db.rows[i].pay != PayPaid then Done(CancelUnpaid(db, i, db.rows[i].pay, PayOf(db, i)))
    else if i !in db.payments then Rejected(409)
    else Done(CancelPaid(db, i))
  }

  /** `cancelPayment`. */
  function FailPayment(p: Option<Payment>): Option<Payment> {
    if p.Some? && p.value.status != PayPaid && p.value.status != PayRefunded then WithStatus(p, PayFailed) else p
  }

  function CancelSelf(db: Db, i: nat): Result
    requires i < |db.rows|
  {
    var r := db.rows[i];
    if r.listing < |db.listings| && db.now > db.listings[r.listing].deadline - CANCELLATION_CUTOFF then Rejected(400)
    else if r.pay == PayPaid then
      if i !in db.payments then Rejected(409) else Done(CancelPaid(db, i))
    else if r.pay == PayPending then Done(CancelUnpaid(db, i, PayFailed, FailPayment(PayOf(db, i))))
    else if r.pay in {PayRefundPending, PayRefunded, PayRefundFailed} then Rejected(409)
    else Rejected(400)
  }

  /** `cancelReservation`. */
  function CancelReservation(db: Db, user: nat, i: nat): Result {
    if i >= |db.rows| then Rejected(404)
    else if db.rows[i].user != user then Rejected(403)
    else if db.rows[i].status == Cancelled then Rejected(409)
    else if db.rows[i].status != Reserved && db.rows[i].status != PaymentPending then Rejected(400)
    else CancelRow(db, i)
  }

  /** ... once the caller may cancel the row. */
  function CancelRow(db: Db, i: nat): Result
    requires i < |db.rows|
  {
    CancelKind(RepairPaid(db, i), i)
  }

  function CancelKind(d: Db, i: nat): Result
    requires i < |d.rows|
  {
    if IsPendingHold(d.rows[i]) then ReleaseHold(d, i, CancelledBeforeConfirmation, PayFailed, false)
    else if d.rows[i].pickupType == NgoPickup then CancelNgo(d, i)
    else CancelSelf(d, i)
  }

  function HandedToVolunteer(r: Reservation, now: int): Reservation {
    r.(task := TaskPickedFromProvider, pickedUpAt := Some(now))
  }

  function Collected(r: Reservation, now: int): Reservation {
    r.(task := TaskPickedUp, status := PickedUp, pickedUpAt := Some(now), completedAt := Some(now))
  }

  /** `markAsPickedUp`. `codeOk` is the comparison of the pickup code. */
  function MarkPickedUp(db: Db, provider: nat, i: nat, codeOk: bool): Result {
    if i >= |db.rows| || db.rows[i].listing >= |db.listings| then Rejected(404)
    else
      var r := db.rows[i];
      if db.listings[r.listing].provider != provider then Rejected(403)
      else if r.status != Reserved then Rejected(409)
      else if r.pay != PayPaid && r.pay != PayNotRequired then Rejected(409)
      else if !codeOk then Rejected(400)
      else if r.pickupType == NgoPickup && r.task != TaskInProgress then Rejected(400)
      else if r.pickupType == NgoPickup then
        Done(Perform(db, i, Quiet(HandedToVolunteer(r, db.now), PayOf(db, i))))
      else
        Done(Perform(db, i, Change(Collected(r, db.now), PayOf(db, i), false, {DepositRefundJob(i)}, Unscored)))
  }

  // ---------- NGO reservations ----------

  datatype Item = Item(listing: nat, quantity: int)

  /** What the trust policy asks of an NGO for this request. */
  datatype NgoTerms = NgoTerms(canReserve: bool, requiresDeposit: bool, deposit: nat, orderOk: bool)

  function NgoRow(user: nat, l: nat, q: int, terms: NgoTerms, request: Option<nat>): Reservation {
    if terms.requiresDeposit then NewRow(user, l, q, NgoPickup, PaymentPending, PayPending, request)
    else NewRow(user, l, q, NgoPickup, Reserved, PayNotRequired, request)
  }

  /** The same payment transaction for every row from `start` up to `end`. */
  function OpenSessions(db: Db, start: nat, end: nat, deposit: nat): (d: Db)
    requires start <= end <= |db.rows|
    ensures |d.rows| == |db.rows|
    decreases end - start
  {
    if start == end then db else OpenSession(OpenSessions(db, start, end - 1, deposit), end - 1, deposit)
  }

  /** The end of both NGO transactions: with a deposit to pay, the new rows need payment sessions. */
  function SettleNgo(d: Db, start: nat, terms: NgoTerms): Result
    requires start <= |d.rows|
  {
    if !terms.requiresDeposit then Done(d)
    else if !terms.orderOk then Rejected(400)
    else Done(OpenSessions(d, start, |d.rows|, terms.deposit))
  }

  /** One iteration of the loop of `bulkReserve`. */
  function ReserveItem(db: Db, user: nat, item: Item, approved: set<nat>, terms: NgoTerms): Result {
    if item.listing >= |db.listings| || item.listing !in approved then Rejected(404)
    else
      var f := db.listings[item.listing];
      if !f.isFree then Rejected(403)
      else if f.status != ListingActive || f.deadline <= db.now then Rejected(409)
      else if AlreadyClaimed(db.rows, user, item.listing) then Rejected(409)
      else if f.remaining < item.quantity then Rejected(409)
      else
        match TakeStock(db.listings, item.listing, item.quantity, true)
        case None => Rejected(409)
        case Some(listings) =>
          Done(db.(listings := listings, rows := db.rows + [NgoRow(user, item.listing, item.quantity, terms, None)]))
  }

  function ReserveItems(db: Db, user: nat, items: seq<Item>, approved: set<nat>, terms: NgoTerms): (result: Result)
    ensures result.Done? ==> |result.db.rows| == |db.rows| + |items|
    decreases |items|
  {
    if |items| == 0 then Done(db)
    else
      match ReserveItems(db, user, items[..|items| - 1], approved, terms)
      case Rejected(c) => Rejected(c)
      case Done(d) => ReserveItem(d, user, items[|items| - 1], approved, terms)
  }

  function TotalQuantity(items: seq<Item>): int {
    Sum(items, (item: Item) => item.quantity)
  }

  predicate ItemsInRange(items: seq<Item>) {
    forall k :: 0 <= k < |items| ==> 1 <= items[k].quantity <= NGO_MAX_LIMIT
  }

  /** `bulkReserve`. `approved` are the listings of verified providers. */
  function BulkReserve(db: Db, user: nat, items: seq<Item>, approved: set<nat>, terms: NgoTerms): Result {
    if |items| == 0 || !ItemsInRange(items) || TotalQuantity(items) > NGO_MAX_LIMIT then Rejected(400)
    else if !terms.canReserve then Rejected(403)
    else
      match ReserveItems(db, user, items, approved, terms)
      case Rejected(c) => Rejected(c)
      case Done(d) => SettleNgo(d, |db.rows|, terms)
  }

  /** The state of `acceptNGORequest` before its payment session: everything that is left of the
      listing is taken, and without a deposit the request is accepted at once. */
  function Accepted(db: Db, ngo: nat, q: nat, terms: NgoTerms): Db
    requires q < |db.requests| && db.requests[q].listing < |db.listings|
  {
    var l := db.requests[q].listing;
    var left := db.listings[l].remaining;
    var taken := TakeStock(db.listings, l, left, true);
    db.(requests := if terms.requiresDeposit then db.requests else AcceptAmong(db.requests, q, l),
        listings := if taken.Some? then taken.value else db.listings,
        rows := db.rows + [NgoRow(ngo, l, left, terms, Some(q))])
  }

  /** `acceptNGORequest`. */
  function AcceptRequest(db: Db, ngo: nat, q: nat, approved: set<nat>, terms: NgoTerms): Result {
    if !terms.canReserve then Rejected(403)
    else if q >= |db.requests| || db.requests[q].ngo != ngo ||
      db.requests[q].status != RequestPending then Rejected(409)
    else
      var l := db.requests[q].listing;
      if l >= |db.listings| || l !in approved then Rejected(404)
      else
        var f := db.listings[l];
        if f.status != ListingActive then Rejected(409)
        else if !f.isFree then Rejected(403)
        else if AlreadyClaimed(db.rows, ngo, l) then Rejected(409)
        else if f.deadline - db.now < MIN_NGO_RESCUE_REMAINING then Rejected(400)
        else if f.remaining <= 0 then Rejected(409)
        else SettleNgo(Accepted(db, ngo, q, terms), |db.rows|, terms)
  }
}
