/** The refund worker (refund.worker.js), crash by crash, and refund webhooks
    (paymentReconciliation.service.js, financialStateMachine.service.js). */
module Refunds {
  import opened Model
  import opened Changes

  /** `normalizeRefundStatus`. */
  function Normalize(s: GatewayStatus): PayState {
    match s
    case GatewaySuccess => PayRefunded
    case GatewayFailed => PayRefundFailed
    case GatewayCancelled => PayRefundFailed
    case GatewayPending => PayRefundPending
  }

  predicate IsRefundStatus(s: PayState) {
    s == PayRefunded || s == PayRefundFailed || s == PayRefundPending
  }

  predicate Refundable(s: PayState) {
    s == PayPaid || s == PaySuccess || s == PayRefundPending || s == PayRefundFailed
  }

  function MarkPending(pay: PayState): PayState {
    if pay == PayRefunded || pay == PayRefundFailed then pay else PayRefundPending
  }

  function PreparedPayment(p: Payment, id: nat): Payment {
    p.(status := PayRefundPending, refundStatus := Some(PayRefundPending), refundId := Some(id),
       refundAttempts := p.refundAttempts + 1)
  }

  /** A prepared call: its id is the one recorded, or a fresh one. */
  function Prepared(db: Db, c: RefundCall, recorded: Option<nat>): Db {
    db.(prepared := db.prepared + {c}, nextRefundId := if recorded.None? then db.nextRefundId + 1 else db.nextRefundId)
  }

  function RefundIdFor(db: Db, recorded: Option<nat>): nat {
    if recorded.Some? then recorded.value else db.nextRefundId
  }

  /** `prepareRefund`. `execute` is the verdict of the lifecycle accounting. */
  function PrepareRefund(db: Db, i: nat, execute: bool): Result {
    if PaymentRefundJob(i) !in db.jobs || i >= |db.rows| || i !in db.payments then Rejected(0)
    else
      var r, p := db.rows[i], db.payments[i];
      if p.status == PayRefunded || p.refundStatus == Some(PayRefunded) || r.pay == PayRefunded then Rejected(0)
      else if r.status != Cancelled || !Refundable(p.status) then Rejected(0)
      else if !execute then Rejected(0)
      else
        Done(PreparedRow(db, i))
  }

  function PreparedRow(db: Db, i: nat): Db
    requires i < |db.rows| && i in db.payments
  {
    var r, p := db.rows[i], db.payments[i];
    var id := RefundIdFor(db, p.refundId);
    Prepared(Perform(db, i, Quiet(r.(pay := MarkPending(r.pay)), Some(PreparedPayment(p, id)))),
             RefundCall(i, PaymentChannel, id), p.refundId)
  }

  /** `prepareDepositRefund`: it looks at the payment only, never at the reservation's status. */
  function PrepareDepositRefund(db: Db, i: nat, execute: bool): Result {
    if DepositRefundJob(i) !in db.jobs || i !in db.payments || i >= |db.rows| then Rejected(0)
    else
      var p := db.payments[i];
      if p.deposit == 0 || p.status != PayPaid || p.depositStatus == DepositRefunded ||
        p.depositStatus == DepositRetained
      then Rejected(0)
      else if !execute then Rejected(0)
      else
        Done(PreparedDeposit(db, i))
  }

  function PreparedDeposit(db: Db, i: nat): Db
    requires i < |db.rows| && i in db.payments
  {
    var p := db.payments[i];
    var id := RefundIdFor(db, p.depositRefundId);
    var p' := p.(depositStatus := DepositRefundPending, depositRefundId := Some(id));
    Prepared(Perform(db, i, Quiet(db.rows[i], Some(p'))), RefundCall(i, DepositChannel, id), p.depositRefundId)
  }

  /** A prepared call reaches the gateway (perhaps again) and the gateway reports a status. */
  function GatewayReplies(db: Db, c: RefundCall, s: GatewayStatus): Result {
    if c !in db.prepared then Rejected(0)
    else Done(db.(calls := db.calls + {c}, answers := db.answers + {Answer(c, s)}))
  }

  function RefundedRow(r: Reservation, n: PayState): Reservation {
    match n
    case PayRefunded => r.(pay := PayRefunded)
    case PayRefundFailed => r.(pay := if r.pay == PayRefunded then r.pay else PayRefundFailed)
    case _ => r.(pay := MarkPending(r.pay))
  }

  /** Only the worker also settles the deposit when the whole payment is refunded. */
  function RefundedPayment(p: Payment, n: PayState, withDeposit: bool): Payment {
    p.(status := n, refundStatus := Some(n),
       depositStatus := if n == PayRefunded && withDeposit && p.deposit > 0 then DepositRefunded else p.depositStatus)
  }

  /** The pair of UPDATE statements for each status, shared by the worker and the webhook. */
  function RecordRefund(db: Db, i: nat, n: PayState, withDeposit: bool): Db
    requires i < |db.rows| && i in db.payments
  {
    Perform(db, i, Quiet(RefundedRow(db.rows[i], n), Some(RefundedPayment(db.payments[i], n, withDeposit))))
  }

  /** `persistRefundStatus`, run with a status the gateway reported for a call of this worker. */
  function PersistRefund(db: Db, c: RefundCall, s: GatewayStatus): Result {
    var i := c.reservation;
    if c !in db.calls || c.channel != PaymentChannel || Answer(c, s) !in db.answers then Rejected(0)
    else if i !in db.payments || i >= |db.rows| || db.payments[i].status == PayRefunded then Rejected(0)
    else Done(RecordRefund(db, i, Normalize(s), true))
  }

  function DepositAfter(before: DepositState, s: PayState): DepositState {
    if s == PayRefunded then DepositRefunded
    else if before == DepositRefunded then before
    else if s == PayRefundFailed then DepositRefundFailed
    else DepositRefundPending
  }

  /** What any report about a deposit refund writes. */
  function RecordDeposit(db: Db, i: nat, n: PayState): Db
    requires i < |db.rows| && i in db.payments
  {
    var p := db.payments[i];
    Perform(db, i, Quiet(db.rows[i], Some(p.(depositStatus := DepositAfter(p.depositStatus, n)))))
  }

  /** `persistDepositRefundStatus`. */
  function PersistDepositRefund(db: Db, c: RefundCall, s: GatewayStatus): Result {
    var i := c.reservation;
    if c !in db.calls || c.channel != DepositChannel || Answer(c, s) !in db.answers then Rejected(0)
    else if i !in db.payments || i >= |db.rows| || db.payments[i].deposit == 0 then Done(db)
    else Done(RecordDeposit(db, i, Normalize(s)))
  }

  /** `shouldApplyRefundWebhook`; `frozen` are the states a plain webhook may not take back to pending. */
  predicate ShouldApply(isRefunded: bool, frozen: bool, incoming: PayState, allowRetry: bool) {
    if isRefunded then false
    else if incoming == PayRefundPending then allowRetry || !frozen
    else incoming == PayRefunded || incoming == PayRefundFailed
  }

  /** The state a webhook is compared with: `refund_status`, or `status` where there is none. */
  function Current(p: Payment): PayState {
    if p.refundStatus.Some? then p.refundStatus.value else p.status
  }

  /** A webhook about the whole payment is stale, or says nothing new. */
  predicate Ignored(p: Payment, n: PayState, allowRetry: bool) {
    !ShouldApply(Current(p) == PayRefunded, Current(p) == PayRefundFailed, n, allowRetry) || p.status == PayRefunded ||
    (n == PayRefundPending && p.status == PayRefundPending)
  }

  predicate IgnoredDeposit(p: Payment, n: PayState, allowRetry: bool) {
    !ShouldApply(p.depositStatus == DepositRefunded,
                 p.depositStatus == DepositRefundFailed || p.depositStatus == DepositRetained, n, allowRetry)
  }

  /** `processRefundEvent`: a webhook, or a reconciliation read, about a refund. The payment is found by
      the refund id alone. */
  function RefundEvent(db: Db, c: RefundCall, s: GatewayStatus, allowRetry: bool): Result {
    var i := c.reservation;
    if Answer(c, s) !in db.answers || i !in db.payments || i >= |db.rows| then Rejected(0)
    else
      var p := db.payments[i];
      if p.depositRefundId == Some(c.id) then
        if IgnoredDeposit(p, Normalize(s), allowRetry) then Rejected(0) else Done(RecordDeposit(db, i, Normalize(s)))
      else if p.refundId == Some(c.id) then
        if Ignored(p, Normalize(s), allowRetry) then Rejected(0) else Done(RecordRefund(db, i, Normalize(s), false))
      else Rejected(0)
  }
}
