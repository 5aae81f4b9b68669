/** Every change a transaction makes to a row and its payment is in order: the two still satisfy
    CellOk, and they moved forward as CellStep says. There is one lemma for each change, over the row
    and the payment alone, without the tables around them. Preservation and TableSteps put these
    lemmas together with the sums over the tables; what a caller gets to see is in Runs and Laws. */
module CellSteps {
  import opened Model
  import opened Changes
  import opened Listings
  import opened Reservations
  import opened Deliveries
  import opened Payments
  import opened Refunds
  import opened Cells

  lemma SameCell(r: Reservation, p: Option<Payment>)
    requires CellOk(r, p)
    ensures CellStep(r, p, r, p, false, NO_LICENCE)
  {
  }

  // ---------- holds ----------

  predicate ReleaseStatus(status: Status, pay: PayState) {
    (status == ExpiredPayment && pay == PayExpired) || (status == PaymentFailed && pay == PayFailed) ||
    (status == CancelledBeforeConfirmation && pay == PayFailed)
  }

  lemma ReleasedCell(i: nat, r: Reservation, p: Option<Payment>, status: Status, pay: PayState, p': Option<Payment>)
    requires CellOk(r, p) && r.status == PaymentPending && ReleaseStatus(status, pay)
    requires p' == p || p' == WithStatus(p, pay)
    ensures ChangeOk(i, r, p, Change(Released(r, status, pay), p', true, {}, Unscored), NO_LICENCE)
  {
  }

  /** A payment row appears; a payment session also sets the deadline. */
  lemma SessionCell(i: nat, r: Reservation, deposit: nat, expires: Option<int>)
    requires CellOk(r, None) && r.pay != PayNotRequired
    requires expires == r.paymentExpiresAt || r.paymentExpiresAt.None?
    ensures ChangeOk(i, r, None, Quiet(r.(paymentExpiresAt := expires), Some(NewPayment(deposit))), NO_LICENCE)
  {
  }

  // ---------- cancellation and pickup ----------

  lemma CancelPaidCell(i: nat, r: Reservation, p: Payment)
    requires CellOk(r, Some(p)) && r.status == Reserved && Untouched(r)
    ensures ChangeOk(i, r, Some(p), Change(Released(r, Cancelled, PayRefundPending), Some(ToRefundPending(p)), true,
                                           {PaymentRefundJob(i)}, Unscored), NO_LICENCE)
  {
  }

  lemma CancelUnpaidCell(i: nat, r: Reservation, p: Option<Payment>)
    requires CellOk(r, p) && r.status == Reserved && Untouched(r) && r.pay != PayPaid
    ensures ChangeOk(i, r, p, Change(Released(r, Cancelled, r.pay), p, true, {}, Unscored), NO_LICENCE)
  {
  }

  lemma HandedToVolunteerCell(i: nat, r: Reservation, p: Option<Payment>, now: int)
    requires CellOk(r, p) && r.status == Reserved && r.task == TaskInProgress
    ensures ChangeOk(i, r, p, Quiet(HandedToVolunteer(r, now), p), NO_LICENCE)
  {
  }

  lemma CollectedCell(i: nat, r: Reservation, p: Option<Payment>, now: int)
    requires CellOk(r, p) && r.status == Reserved && r.pickupType == SelfPickup
    ensures ChangeOk(i, r, p, Change(Collected(r, now), p, false, {DepositRefundJob(i)}, Unscored), NO_LICENCE)
  {
  }

  // ---------- deliveries ----------

  lemma StartedCell(i: nat, r: Reservation, p: Option<Payment>, v: nat, now: int)
    requires CellOk(r, p) && r.status == Reserved && r.task == TaskPending
    ensures ChangeOk(i, r, p, Quiet(Started(r, v, now), p), NO_LICENCE)
  {
  }

  lemma HandedCell(i: nat, r: Reservation, p: Option<Payment>, now: int, v: nat, seconds: int)
    requires CellOk(r, p) && r.status == Reserved && r.task == TaskPickedFromProvider && r.volunteer == Some(v)
    ensures ChangeOk(i, r, p, Change(Handed(r, now), p, false, {DepositRefundJob(i)}, Delivers(v, seconds)), NO_LICENCE)
  {
  }

  /** A task whose time is up: before the pickup the stock goes back, after it nothing does. */
  lemma OverdueCell(i: nat, r: Reservation, p: Option<Payment>, wanted: bool, back: bool)
    requires CellOk(r, p) && r.status == Reserved && r.volunteer.Some? && ActiveTask(r.task)
    requires back <==> r.task == TaskInProgress
    requires wanted ==> p.Some? && p.value.deposit > 0
    ensures var r' := if back then Overdue(r).(stockReserved := false) else Overdue(r);
            ChangeOk(i, r, p, Change(r', Retained(p, wanted), back, {}, Misses(r.volunteer.value)), NO_LICENCE)
  {
  }

  lemma ExpiredCell(r: Reservation, p: Option<Payment>, wanted: bool)
    requires CellOk(r, p) && ExpiresWith(r, r.listing)
    requires wanted ==> p.Some? && p.value.deposit > 0
    ensures CellStep(r, p, r.(status := Expired, task := TaskExpired), Retained(p, wanted), true, NO_LICENCE)
  {
  }

  // ---------- orders ----------

  lemma ConfirmedCell(i: nat, r: Reservation, p: Payment)
    requires CellOk(r, Some(p)) && r.status == PaymentPending
    ensures ChangeOk(i, r, Some(p), Quiet(Confirmed(r), Some(p.(status := PayPaid))), NO_LICENCE.(confirms := true))
  {
  }

  lemma RefusedCell(i: nat, r: Reservation, p: Payment)
    requires CellOk(r, Some(p)) && r.status == PaymentPending && r.request.Some?
    ensures ChangeOk(i, r, Some(p),
                     Change(RefusedRow(r), Some(RefusedPayment(p)), false, {PaymentRefundJob(i)}, Unscored),
                     NO_LICENCE.(loses := true))
  {
  }

  lemma RefundingCell(i: nat, r: Reservation, p: Payment)
    requires CellOk(r, Some(p)) && IsReleased(r.status)
    ensures ChangeOk(i, r, Some(p),
                     Change(r.(status := Cancelled, pay := PayRefundPending), Some(RefusedPayment(p)), false,
                                           {PaymentRefundJob(i)}, Unscored), NO_LICENCE)
  {
  }

  lemma LateCell(i: nat, r: Reservation, p: Payment)
    requires CellOk(r, Some(p)) && IsReleased(r.status)
    ensures ChangeOk(i, r, Some(p), Change(LateRow(r), Some(LatePayment(p)), false, {PaymentRefundJob(i)}, Unscored),
                     NO_LICENCE)
  {
    RefundingCell(i, r, p);
    assert LateRow(r) == r.(status := Cancelled, pay := PayRefundPending) && LatePayment(p) == RefusedPayment(p);
  }

  /** A cancelled row is sent to the refund channel once more. */
  lemma LateAgainCell(i: nat, r: Reservation, p: Payment)
    requires CellOk(r, Some(p)) && r.status == Cancelled && p.status != PayRefunded
    ensures ChangeOk(i, r, Some(p), Change(LateRow(r), Some(LatePayment(p)), false, {PaymentRefundJob(i)}, Unscored),
                     NO_LICENCE)
  {
  }

  // ---------- refunds ----------

  lemma PreparedCell(i: nat, r: Reservation, p: Payment, id: nat)
    requires CellOk(r, Some(p)) && r.status == Cancelled && p.status != PayRefunded
    requires p.refundId.Some? ==> p.refundId.value == id
    ensures ChangeOk(i, r, Some(p), Quiet(r.(pay := MarkPending(r.pay)), Some(PreparedPayment(p, id))), NO_LICENCE)
  {
  }

  lemma RefundedCell(i: nat, r: Reservation, p: Payment, s: GatewayStatus, withDeposit: bool)
    requires CellOk(r, Some(p)) && r.status == Cancelled && p.status != PayRefunded && p.refundId.Some?
    ensures ChangeOk(i, r, Some(p),
                     Quiet(RefundedRow(r, Normalize(s)), Some(RefundedPayment(p, Normalize(s), withDeposit))),
                     NO_LICENCE.(settles := withDeposit))
  {
  }

  lemma PreparedDepositCell(i: nat, r: Reservation, p: Payment, id: nat)
    requires CellOk(r, Some(p)) && r.status == PickedUp && p.deposit > 0 && p.depositStatus != DepositRefunded
    requires p.depositRefundId.Some? ==> p.depositRefundId.value == id
    ensures ChangeOk(i, r, Some(p),
                     Quiet(r, Some(p.(depositStatus := DepositRefundPending, depositRefundId := Some(id)))), NO_LICENCE)
  {
  }

  lemma DepositCell(i: nat, r: Reservation, p: Payment, s: GatewayStatus)
    requires CellOk(r, Some(p)) && r.status == PickedUp && p.depositRefundId.Some?
    ensures ChangeOk(i, r, Some(p), Quiet(r, Some(p.(depositStatus := DepositAfter(p.depositStatus, Normalize(s))))),
                     NO_LICENCE)
  {
  }
}
