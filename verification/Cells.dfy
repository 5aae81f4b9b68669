/** What one reservation row and its payment row may look like together, and how a transaction
    may change them.  `CellOk` and `CellStep` are the local halves of every global law. */
module Cells {
  import opened Model
  import opened Changes
  import opened Reservations
  import D = Deliveries

  // ---------- the shape of one row and its payment ----------

  predicate Untouched(r: Reservation) {
    r.task == InitialTask(r.pickupType) && r.volunteer.None? && r.pickedUpAt.None? && r.completedAt.None?
  }

  predicate FreshDeposit(p: Payment) {
    p.depositRefundId.None? && p.depositStatus == (if p.deposit > 0 then DepositHeld else DepositNotRequired)
  }

  predicate HoldOk(r: Reservation, p: Option<Payment>) {
    r.pay == PayPending && Untouched(r) && r.stockReserved &&
    (p.Some? ==> p.value.status == PayPending && FreshDeposit(p.value) && p.value.refundId.None?)
  }

  predicate ReleasedOk(r: Reservation, p: Option<Payment>) {
    r.pay == (if r.status == ExpiredPayment then PayExpired else PayFailed) && Untouched(r) && !r.stockReserved &&
    (p.Some? ==>
       p.value.status in {PayPending, PayFailed, PayExpired} && FreshDeposit(p.value) && p.value.refundId.None?)
  }

  /** The money of a confirmed reservation: paid, or an NGO rescue that needs none. */
  predicate MoneyIn(r: Reservation, p: Option<Payment>) {
    if p.Some? then r.pay == PayPaid && p.value.status == PayPaid && p.value.refundId.None?
    else r.pay == PayNotRequired && r.pickupType == NgoPickup
  }

  predicate BookedOk(r: Reservation, p: Option<Payment>) {
    MoneyIn(r, p) && r.stockReserved && r.completedAt.None? && (p.Some? ==> FreshDeposit(p.value)) &&
    (Untouched(r) ||
     (r.pickupType == NgoPickup && r.volunteer.Some? &&
      ((r.task == TaskInProgress && r.pickedUpAt.None?) || (r.task == TaskPickedFromProvider && r.pickedUpAt.Some?))))
  }

  predicate CollectedOk(r: Reservation, p: Option<Payment>) {
    MoneyIn(r, p) && r.stockReserved && r.completedAt.Some? && r.pickedUpAt.Some? &&
    (if r.pickupType == SelfPickup then r.task == TaskPickedUp && r.volunteer.None?
     else r.task == TaskDelivered && r.volunteer.Some?) &&
    (p.Some? ==>
       FreshDeposit(p.value) ||
       (p.value.deposit > 0 && p.value.depositRefundId.Some? &&
        p.value.depositStatus in {DepositRefundPending, DepositRefunded, DepositRefundFailed}))
  }

  predicate LapsedOk(r: Reservation, p: Option<Payment>) {
    MoneyIn(r, p) && r.completedAt.None? &&
    (if r.task == TaskFailed then r.volunteer.Some? && r.pickupType == NgoPickup
     else r.task == TaskExpired && r.volunteer.None? && r.pickedUpAt.None?) &&
    (p.Some? ==>
       FreshDeposit(p.value) ||
       (p.value.deposit > 0 && p.value.depositRefundId.None? && p.value.depositStatus == DepositRetained))
  }

  predicate InRefundState(s: PayState) {
    s == PayRefundPending || s == PayRefunded || s == PayRefundFailed
  }

  predicate CancelledOk(r: Reservation, p: Option<Payment>) {
    Untouched(r) && (r.stockReserved ==> r.request.Some? && p.Some?) &&
    if p.Some? then
      InRefundState(r.pay) && InRefundState(p.value.status) &&
      (r.pay == PayRefunded <==> p.value.status == PayRefunded) &&
      (p.value.refundId.None? ==> p.value.status == PayRefundPending) &&
      (FreshDeposit(p.value) ||
       (p.value.deposit > 0 && p.value.depositRefundId.None? &&
        p.value.depositStatus == DepositRefunded && p.value.status == PayRefunded))
    else r.pay == PayNotRequired && r.pickupType == NgoPickup
  }

  /** The column refund_status follows the status through the refund states. */
  predicate Mirrored(p: Payment) {
    p.refundStatus == if InRefundState(p.status) then Some(p.status) else None
  }

  predicate CellOk(r: Reservation, p: Option<Payment>) {
    r.quantity > 0 &&
    (r.request.Some? ==> r.pickupType == NgoPickup) &&
    (r.volunteer.Some? ==> r.assignedAt.Some?) &&
    (r.paymentExpiresAt.Some? ==> p.Some?) &&
    (p.Some? ==> Mirrored(p.value)) &&
    match r.status
    case PaymentPending => HoldOk(r, p)
    case Reserved => BookedOk(r, p)
    case PickedUp => CollectedOk(r, p)
    case Expired => LapsedOk(r, p)
    case Cancelled => CancelledOk(r, p)
    case _ => r.status in {PaymentFailed, ExpiredPayment, CancelledBeforeConfirmation} && ReleasedOk(r, p)
  }

  // ---------- observations ----------

  /** The row's stock has gone back to its listing. */
  predicate Returned(r: Reservation) {
    r.status in {PaymentFailed, ExpiredPayment, CancelledBeforeConfirmation} ||
    (r.status == Expired && r.pickedUpAt.None?) ||
    (r.status == Cancelled && !r.stockReserved)
  }

  /** A cancelled row whose stock never went back. */
  predicate Leaked(r: Reservation) {
    r.status == Cancelled && r.stockReserved
  }

  predicate Live(r: Reservation) {
    r.status == PaymentPending || r.status == Reserved
  }

  /** The row stands in the way of another claim of its user on its listing. */
  predicate Claiming(r: Reservation) {
    Live(r) || r.status == PickedUp
  }

  predicate Working(r: Reservation) {
    r.status == Reserved && D.ActiveTask(r.task)
  }

  function Held(r: Reservation, l: nat): int {
    if r.listing == l && !Returned(r) then r.quantity else 0
  }

  function Delivered(r: Reservation, v: nat): nat {
    if r.volunteer == Some(v) && r.status == PickedUp && r.task == TaskDelivered then 1 else 0
  }

  function TimedOut(r: Reservation, v: nat): nat {
    if r.volunteer == Some(v) && r.status == Expired && r.task == TaskFailed then 1 else 0
  }

  function HeldOn(l: nat): Reservation -> int {
    (r: Reservation) => Held(r, l)
  }

  function DeliveredBy(v: nat): Reservation -> int {
    (r: Reservation) => Delivered(r, v)
  }

  function TimedOutBy(v: nat): Reservation -> int {
    (r: Reservation) => TimedOut(r, v)
  }

  // ---------- the change of one row and its payment ----------

  /** `guard_payment_financial_state_transition`, the trigger on payments, raises an exception. */
  predicate TriggerRaises(a: Payment, b: Payment) {
    (a.status == PayRefunded && b.status != PayRefunded) ||
    (a.status == PayPaid && b.status in {PayPending, PayFailed, PayExpired}) ||
    (a.status in {PayRefundPending, PayRefundFailed} && b.status in {PayPending, PayPaid, PayFailed, PayExpired}) ||
    (a.status in {PayFailed, PayExpired} && b.status in {PayPending, PayPaid}) ||
    (a.refundStatus == Some(PayRefunded) && b.refundStatus.Some? && b.refundStatus != Some(PayRefunded)) ||
    (a.refundStatus == Some(PayRefundFailed) && b.refundStatus == Some(PayRefundPending) &&
     b.status != PayRefundPending) ||
    (a.depositStatus in {DepositRefunded, DepositRetained} && b.depositStatus != a.depositStatus)
  }

  predicate SamePerson(r: Reservation, r': Reservation) {
    r'.user == r.user && r'.listing == r.listing && r'.quantity == r.quantity &&
    r'.pickupType == r.pickupType && r'.request == r.request
  }

  predicate StatusStep(a: Status, b: Status) {
    a == b ||
    (a == PaymentPending && b in {Reserved, Cancelled, PaymentFailed, ExpiredPayment, CancelledBeforeConfirmation}) ||
    (a == Reserved && b in {PickedUp, Expired, Cancelled}) ||
    (a in {PaymentFailed, ExpiredPayment, CancelledBeforeConfirmation} && b == Cancelled)
  }

  /** A payment keeps its refund ids and its deposit for good, stays as it is once it is refunded,
      and never trips the trigger. */
  predicate PaymentStep(p: Option<Payment>, p': Option<Payment>) {
    p.Some? ==>
      p'.Some? &&
      (p.value.refundId.Some? ==> p'.value.refundId == p.value.refundId) &&
      (p.value.depositRefundId.Some? ==> p'.value.depositRefundId == p.value.depositRefundId) &&
      p'.value.deposit == p.value.deposit &&
      (p.value.status == PayRefunded ==> p' == p) &&
      !TriggerRaises(p.value, p'.value)
  }

  predicate StockStep(r: Reservation, r': Reservation, back: bool, loses: bool) {
    (Returned(r') <==> Returned(r) || back) && !(Returned(r) && back) &&
    (Leaked(r) ==> Leaked(r')) && (Leaked(r') ==> Leaked(r) || loses)
  }

  /** What a step may do to its row that others may not: cancel it without giving its stock back, turn
      an unpaid hold into a reservation, settle the deposit of a payment it records as refunded. */
  datatype Licence = Licence(loses: bool, confirms: bool, settles: bool)

  const NO_LICENCE := Licence(false, false, false)

  /** A payment that becomes refunded takes its deposit along exactly in a step that settles it. */
  predicate RefundStep(p: Option<Payment>, p': Option<Payment>, settles: bool) {
    p.Some? && p'.Some? && p.value.status != PayRefunded && p'.value.status == PayRefunded && p'.value.deposit > 0 ==>
      p'.value.depositStatus == if settles then DepositRefunded else DepositHeld
  }

  /** The step of one row. `back` says that this step gives its stock back. */
  predicate CellStep(r: Reservation, p: Option<Payment>, r': Reservation, p': Option<Payment>, back: bool,
                     may: Licence) {
    CellOk(r', p') && SamePerson(r, r') && StatusStep(r.status, r'.status) && PaymentStep(p, p') &&
    StockStep(r, r', back, may.loses) && RefundStep(p, p', may.settles) &&
    (r.status == PaymentPending && r'.status == Reserved ==> may.confirms) &&
    (r.volunteer.Some? ==> r'.volunteer == r.volunteer) &&
    (r.pickedUpAt.Some? ==> r'.pickedUpAt == r.pickedUpAt) &&
    (r.paymentExpiresAt.Some? ==> r'.paymentExpiresAt == r.paymentExpiresAt) &&
    (r.pay == PayNotRequired <==> r'.pay == PayNotRequired)
  }

  /** The row counts in nobody's statistics. */
  predicate Uncounted(r: Reservation) {
    !(r.status == PickedUp && r.task == TaskDelivered) && !(r.status == Expired && r.task == TaskFailed)
  }

  /** The statistics follow the row. */
  predicate ScoreOk(r: Reservation, r': Reservation, score: Score) {
    match score
    case Unscored =>
      (r'.status == r.status && r'.task == r.task && r'.volunteer == r.volunteer) || (Uncounted(r) && Uncounted(r'))
    case Delivers(v, _) => Uncounted(r) && r'.status == PickedUp && r'.task == TaskDelivered && r'.volunteer == Some(v)
    case Misses(v) => Uncounted(r) && r'.status == Expired && r'.task == TaskFailed && r'.volunteer == Some(v)
  }

  /** Refund jobs belong to the end of a reservation. */
  predicate JobFor(j: Job, status: Status) {
    match j
    case PaymentRefundJob(_) => status == Cancelled
    case DepositRefundJob(_) => status == PickedUp
  }

  predicate JobsOk(i: nat, c: Change) {
    forall j :: j in c.jobs ==> j.reservation == i && JobFor(j, c.row.status)
  }

  /** What a change must satisfy to keep every law. */
  predicate ChangeOk(i: nat, r: Reservation, p: Option<Payment>, c: Change, may: Licence) {
    CellStep(r, p, c.row, c.payment, c.back, may) && ScoreOk(r, c.row, c.score) && JobsOk(i, c) &&
    (c.back ==> r.stockReserved)
  }
}
