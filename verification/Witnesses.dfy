/** Two runs that end where one would not expect. */
module Witnesses {
  import opened Model
  import opened Machine
  import opened Cells
  import opened Sums
  import R = Reservations
  import P = Payments
  import F = Refunds
  import L = Listings
  import W = Laws

  const DEPOSIT := 10
  const LATER := 100 * MINUTE

  // ---------- stock that is lost ----------

  const TERMS := R.NgoTerms(true, true, DEPOSIT, true)

  /** An NGO accepts a request for five meals against a deposit, declines the same request, and then
      the deposit is paid. */
  function LeakingStep(k: nat): Step {
    match k
    case 0 => PostListing(1, 5, None, LATER, true)
    case 1 => RequestRescue(1, 0, 7, L.Rescue(true, true, false))
    case 2 => AcceptRequest(7, 0, {0}, TERMS)
    case 3 => RejectRequest(7, 0)
    case _ => PaidOrder(0)
  }

  function FreeListing(remaining: int, status: ListingStatus): Listing {
    Listing(1, 5, remaining, true, status, None, LATER)
  }

  function Offered(requests: seq<NgoRequest>): Db {
    EmptyDb(0).(listings := [FreeListing(5, ListingActive)], requests := requests)
  }

  function HeldForNgo(): Reservation {
    R.NewRow(7, 0, 5, NgoPickup, PaymentPending, PayPending, Some(0)).(paymentExpiresAt := Some(HOLD_TIMEOUT))
  }

  function WhileAccepted(status: RequestStatus): Db {
    EmptyDb(0).(
    listings := [FreeListing(0, ListingCompleted)],
    requests := [NgoRequest(0, 7, status)],
    rows := [HeldForNgo()],
    orders := map[0 := DEPOSIT],
    payments := map[0 := R.NewPayment(DEPOSIT)])
  }

  function LeakingState(k: nat): Db {
    match k
    case 0 => EmptyDb(0)
    case 1 => Offered([])
    case 2 => Offered([NgoRequest(0, 7, RequestPending)])
    case 3 => WhileAccepted(RequestPending)
    case 4 => WhileAccepted(RequestRejected)
    case _ => P.PaidOrder(WhileAccepted(RequestRejected), 0)
  }

  lemma FreeFoodPosted()
    ensures Apply(EmptyDb(0), PostListing(1, 5, None, LATER, true)) == Offered([])
  {
  }

  lemma RescueAsked()
    ensures Apply(Offered([]), RequestRescue(1, 0, 7, L.Rescue(true, true, false)))
            == Offered([NgoRequest(0, 7, RequestPending)])
  {
  }

  lemma RescueAccepted()
    ensures R.AcceptRequest(Offered([NgoRequest(0, 7, RequestPending)]), 7, 0, {0}, TERMS)
            == Done(WhileAccepted(RequestPending))
  {
  }

  lemma RescueDeclined()
    ensures Apply(WhileAccepted(RequestPending), RejectRequest(7, 0)) == WhileAccepted(RequestRejected)
  {
  }

  lemma LeakingLeads(k: nat)
    requires k < 5
    ensures Apply(LeakingState(k), LeakingStep(k)) == LeakingState(k + 1)
  {
    match k
    case 0 => FreeFoodPosted();
    case 1 => RescueAsked();
    case 2 =>
      RescueAccepted();
      AcceptRequestApplies(Offered([NgoRequest(0, 7, RequestPending)]), 7, 0, {0}, TERMS);
    case 3 => RescueDeclined();
    case 4 => PaidOrderApplies(WhileAccepted(RequestRejected), 0);
  }

  lemma LeakingRunEnds()
    ensures Run(LeakingState(0), Steps(LeakingStep, 5)) == LeakingState(5)
  {
    forall k: nat | k < 5 ensures Apply(LeakingState(k), LeakingStep(k)) == LeakingState(k + 1) {
      LeakingLeads(k);
    }
    PathRuns(LeakingState, LeakingStep, 5);
  }

  /** Five meals that are neither on offer nor reserved. */
  predicate StockLost(db: Db) {
    db.listings == [FreeListing(0, ListingCompleted)] && |db.rows| == 1 && Leaked(db.rows[0])
  }

  lemma LeakingPayment()
    ensures StockLost(P.PaidOrder(WhileAccepted(RequestRejected), 0))
  {
  }

  lemma LeakingEnds()
    ensures LeakingState(0) == EmptyDb(0) && StockLost(LeakingState(5))
  {
    LeakingPayment();
  }

  lemma LostIsUnbalanced(db: Db)
    requires StockLost(db)
    ensures !W.Balanced(db, 0) && db.listings[0].quantity == 5 && db.listings[0].remaining == 0
  {
    SumZero(db.rows, W.MeantOn(0));
  }

  lemma ConservationCanFail()
    ensures var db := Run(EmptyDb(0), Steps(LeakingStep, 5));
            Reachable(db) && |db.listings| == 1 && !W.Balanced(db, 0) &&
            db.listings[0].quantity == 5 && db.listings[0].remaining == 0
  {
    LeakingRunEnds();
    LeakingEnds();
    LostIsUnbalanced(LeakingState(5));
    ReachableFromEmpty(0, Steps(LeakingStep, 5));
  }

  // ---------- a deposit that stays held ----------

  const CALL := RefundCall(0, PaymentChannel, 0)

  /** A user reserves one meal against a deposit, pays and cancels; the worker prepares the refund and
      crashes; the webhook reports that the refund went through. */
  function WebhookStep(k: nat): Step {
    match k
    case 0 => PostListing(1, 5, None, LATER, false)
    case 1 => HoldStock(7, 0, 1, true, true)
    case 2 => OpenPaymentSession(0, DEPOSIT, true)
    case 3 => PaidOrder(0)
    case 4 => CancelReservation(7, 0)
    case 5 => PrepareRefund(0, true)
    case 6 => GatewayReplies(CALL, GatewaySuccess)
    case _ => RefundEvent(CALL, GatewaySuccess, false)
  }

  function Posted(remaining: int): Db {
    EmptyDb(0).(listings := [Listing(1, 5, remaining, false, ListingActive, None, LATER)])
  }

  function OwnRow(status: Status, pay: PayState, stock: bool): Reservation {
    R.NewRow(7, 0, 1, SelfPickup, status, pay, None).(paymentExpiresAt := Some(HOLD_TIMEOUT), stockReserved := stock)
  }

  function Held(): Db {
    Posted(4).(rows := [R.NewRow(7, 0, 1, SelfPickup, PaymentPending, PayPending, None)])
  }

  function Ordered(remaining: int, r: Reservation, p: Payment): Db {
    Posted(remaining).(rows := [r], orders := map[0 := DEPOSIT], payments := map[0 := p])
  }

  function Open(): Db {
    Ordered(4, OwnRow(PaymentPending, PayPending, true), R.NewPayment(DEPOSIT))
  }

  function PaidFor(): Db {
    Ordered(4, OwnRow(Reserved, PayPaid, true), R.NewPayment(DEPOSIT).(status := PayPaid))
  }

  function Refunding(p: Payment, pay: PayState): Db {
    Ordered(5, OwnRow(Cancelled, pay, false), p).(jobs := {PaymentRefundJob(0)}, returned := multiset{0})
  }

  function WithRefund(status: PayState, id: Option<nat>, attempts: nat): Payment {
    R.NewPayment(DEPOSIT).(status := status, refundStatus := Some(status), refundId := id, refundAttempts := attempts)
  }

  function Asked(): Db {
    Refunding(WithRefund(PayRefundPending, None, 0), PayRefundPending)
  }

  function Sent(status: PayState): Db {
    Refunding(WithRefund(status, Some(0), 1), status).(nextRefundId := 1, prepared := {CALL})
  }

  function Answered(status: PayState): Db {
    Sent(status).(calls := {CALL}, answers := {Answer(CALL, GatewaySuccess)})
  }

  function WebhookState(k: nat): Db {
    match k
    case 0 => EmptyDb(0)
    case 1 => Posted(5)
    case 2 => Held()
    case 3 => Open()
    case 4 => PaidFor()
    case 5 => Asked()
    case 6 => Sent(PayRefundPending)
    case 7 => Answered(PayRefundPending)
    case _ => Answered(PayRefunded)
  }

  lemma MealsPosted()
    ensures Apply(EmptyDb(0), PostListing(1, 5, None, LATER, false)) == Posted(5)
  {
  }

  lemma MealHeld()
    ensures Apply(Posted(5), HoldStock(7, 0, 1, true, true)) == Held()
  {
  }

  lemma SessionOpened()
    ensures Apply(Held(), OpenPaymentSession(0, DEPOSIT, true)) == Open()
  {
  }

  lemma MealPaid()
    ensures P.PaidOrder(Open(), 0) == PaidFor()
  {
  }

  lemma MealCancelled()
    ensures R.CancelReservation(PaidFor(), 7, 0) == Done(Asked())
  {
  }

  lemma RefundPrepared()
    ensures F.PrepareRefund(Asked(), 0, true) == Done(Sent(PayRefundPending))
  {
  }

  lemma GatewayAnswered()
    ensures F.GatewayReplies(Sent(PayRefundPending), CALL, GatewaySuccess) == Done(Answered(PayRefundPending))
  {
  }

  lemma WebhookArrived()
    ensures F.RefundEvent(Answered(PayRefundPending), CALL, GatewaySuccess, false) == Done(Answered(PayRefunded))
  {
  }

  lemma HoldLeads(k: nat)
    requires k < 4
    ensures Apply(WebhookState(k), WebhookStep(k)) == WebhookState(k + 1)
  {
    match k
    case 0 => MealsPosted();
    case 1 => MealHeld();
    case 2 => SessionOpened();
    case 3 =>
      MealPaid();
      PaidOrderApplies(Open(), 0);
  }

  lemma RefundLeads(k: nat)
    requires 4 <= k < 8
    ensures Apply(WebhookState(k), WebhookStep(k)) == WebhookState(k + 1)
  {
    match k
    case 4 =>
      MealCancelled();
      CancelReservationApplies(PaidFor(), 7, 0);
    case 5 =>
      RefundPrepared();
      PrepareRefundApplies(Asked(), 0, true);
    case 6 =>
      GatewayAnswered();
      GatewayRepliesApplies(Sent(PayRefundPending), CALL, GatewaySuccess);
    case 7 =>
      WebhookArrived();
      RefundEventApplies(Answered(PayRefundPending), CALL, GatewaySuccess, false);
  }

  lemma WebhookLeads(k: nat)
    requires k < 8
    ensures Apply(WebhookState(k), WebhookStep(k)) == WebhookState(k + 1)
  {
    if k < 4 {
      HoldLeads(k);
    } else {
      RefundLeads(k);
    }
  }

  lemma WebhookRunEnds()
    ensures Run(WebhookState(0), Steps(WebhookStep, 8)) == WebhookState(8)
  {
    forall k: nat | k < 8 ensures Apply(WebhookState(k), WebhookStep(k)) == WebhookState(k + 1) {
      WebhookLeads(k);
    }
    PathRuns(WebhookState, WebhookStep, 8);
  }

  predicate RefundedButHeld(db: Db, i: nat) {
    i in db.payments && db.payments[i].status == PayRefunded && db.payments[i].deposit > 0 &&
    db.payments[i].depositStatus == DepositHeld
  }

  lemma HeldForGood(db: Db, later: seq<Step>, i: nat)
    requires Reachable(db) && RefundedButHeld(db, i)
    ensures RefundedButHeld(Run(db, later), i)
  {
    W.PaymentNeverReverts(db, later, i);
  }

  lemma WebhookEnds()
    ensures RefundedButHeld(WebhookState(8), 0) && WebhookState(0) == EmptyDb(0)
  {
  }

  /** The whole payment has been returned, and its deposit counts as held, now and after any further run. */
  lemma DepositStaysHeld(later: seq<Step>)
    ensures RefundedButHeld(Run(Run(EmptyDb(0), Steps(WebhookStep, 8)), later), 0)
  {
    WebhookRunEnds();
    WebhookEnds();
    ReachableFromEmpty(0, Steps(WebhookStep, 8));
    HeldForGood(WebhookState(8), later, 0);
  }
}
