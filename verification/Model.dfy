/** The tables of the food-rescue marketplace, as values.

  One `Db` value is one committed state of the database together with what the protocols
  talk to outside it: the refund queue, the payment gateway and the clock.  The queue and the
  conversation with the gateway only ever grow: a job may fire late, twice or never, and a
  reply of the gateway may be delivered again at any later time.
*/
module Model {

  datatype Option<+T> = None | Some(value: T)

  datatype PickupType = SelfPickup | NgoPickup

  /** `reservations.status`.  The constructors from `StatusPending` on are never written by
      the transactions of this model; the lock predicate and the lifecycle classifier name them. */
  datatype Status =
    | PaymentPending
    | Reserved
    | PickedUp
    | Cancelled
    | CancelledBeforeConfirmation
    | PaymentFailed
    | ExpiredPayment
    | Expired
    | StatusPending
    | StatusAssigned
    | StatusVolunteerStarted
    | StatusReadyForPickup
    | StatusPickupInProgress
    | StatusInProgress
    | StatusPickedFromProvider
    | StatusCompleted
    | StatusDelivered
    | StatusFailed
    | StatusAbandonedPayment
    | StatusPaymentExpired
    | StatusTimeoutCancelled
    | StatusOther

  /** `reservations.task_status`. */
  datatype Task =
    | TaskSelfPickup
    | TaskPending
    | TaskInProgress
    | TaskPickedFromProvider
    | TaskDelivered
    | TaskPickedUp
    | TaskExpired
    | TaskFailed
    | TaskAssigned
    | TaskVolunteerStarted
    | TaskCompleted
    | TaskCancelled
    | TaskOther

  /** Used for both `reservations.payment_status` and `payments.status`. */
  datatype PayState =
    | PayPending
    | PayPaid
    | PaySuccess
    | PayNotRequired
    | PayFailed
    | PayExpired
    | PayAbandoned
    | PayCancelled
    | PayRefundPending
    | PayRefunded
    | PayRefundFailed
    | PayOther

  /** `payments.reliability_deposit_status`. */
  datatype DepositState =
    | DepositNotRequired
    | DepositHeld
    | DepositRefundPending
    | DepositRefunded
    | DepositRefundFailed
    | DepositRetained

  datatype ListingStatus = ListingActive | ListingCompleted | ListingExpired | ListingDeleted

  datatype Listing = Listing(
    provider: nat,
    quantity: int,
    remaining: int,
    isFree: bool,
    status: ListingStatus,
    start: Option<int>,
    deadline: int)

  datatype Reservation = Reservation(
    user: nat,
    listing: nat,
    quantity: int,
    pickupType: PickupType,
    status: Status,
    task: Task,
    pay: PayState,
    volunteer: Option<nat>,
    assignedAt: Option<int>,
    pickedUpAt: Option<int>,
    completedAt: Option<int>,
    paymentExpiresAt: Option<int>,
    stockReserved: bool,      // payment_context.stock_reserved
    request: Option<nat>)     // payment_context.request_id, set by ngo_request_accept

  datatype Payment = Payment(
    status: PayState,
    refundStatus: Option<PayState>,
    refundId: Option<nat>,
    refundAttempts: nat,
    deposit: nat,
    depositStatus: DepositState,
    depositRefundId: Option<nat>)

  datatype RequestStatus = RequestPending | RequestAccepted | RequestExpired | RequestRejected

  datatype NgoRequest = NgoRequest(listing: nat, ngo: nat, status: RequestStatus)

  datatype Stats = Stats(completed: nat, timeouts: nat, average: int)

  /** Jobs of the refund queue. The expiry, pickup, delivery and payment queues carry no data a
      handler relies on, so their handlers may run at any time and are steps of their own. */
  datatype Job = PaymentRefundJob(reservation: nat) | DepositRefundJob(reservation: nat)

  datatype Channel = PaymentChannel | DepositChannel

  /** One call of the gateway's refund endpoint; `id` is both refund id and idempotency key. */
  datatype RefundCall = RefundCall(reservation: nat, channel: Channel, id: nat)

  datatype GatewayStatus = GatewaySuccess | GatewayFailed | GatewayCancelled | GatewayPending

  /** A status the gateway has reported for a call, in its response or in a webhook. */
  datatype Answer = Answer(call: RefundCall, status: GatewayStatus)

  datatype Db = Db(
    now: int,
    listings: seq<Listing>,
    rows: seq<Reservation>,
    payments: map<nat, Payment>,    // keyed by reservation
    requests: seq<NgoRequest>,
    stats: map<nat, Stats>,         // keyed by volunteer
    orders: map<nat, nat>,          // payment_order_attempts: reservation -> deposit quoted
    jobs: set<Job>,
    nextRefundId: nat,              // source of fresh refund ids
    prepared: set<RefundCall>,      // refunds a worker has prepared and may still send
    calls: set<RefundCall>,         // refunds the gateway has received
    answers: set<Answer>,           // statuses the gateway has reported
    returned: multiset<nat>)        // history: one entry each time a row's stock is given back

  /** Outcome of a transaction: committed state, or the HTTP code of the rejection
      (0 when a worker rolls back silently). A rejected transaction changes nothing. */
  datatype Result = Done(db: Db) | Rejected(code: nat)

  const MINUTE: int := 60_000
  const HOLD_TIMEOUT: int := 10 * MINUTE
  const MIN_PICKUP_WINDOW: int := 30 * MINUTE
  const MIN_NGO_RESCUE_REMAINING: int := 30 * MINUTE
  const CANCELLATION_CUTOFF: int := 20 * MINUTE
  const NGO_MAX_LIMIT: int := 40

  function EmptyDb(now: int): Db {
    Db(now, [], [], map[], [], map[], map[], {}, 0, {}, {}, {}, multiset{})
  }

  function PayOf(db: Db, i: nat): Option<Payment> {
    if i in db.payments then Some(db.payments[i]) else None
  }

  function StatsOf(stats: map<nat, Stats>, v: nat): Stats {
    if v in stats then stats[v] else Stats(0, 0, 0)
  }
}
