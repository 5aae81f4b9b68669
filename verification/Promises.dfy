/** What every operation promises, as one statement about every step of the machine. */
module Promises {
  import opened Model
  import opened Machine
  import opened Runs
  import opened ListingOutcomes
  import opened ClaimOutcomes
  import opened ReleaseOutcomes
  import opened DeliveryOutcomes
  import opened PaymentOutcomes
  import opened RefundOutcomes

  ghost predicate ListingPromise(db: Db, db': Db, step: Step)
    requires IsListingStep(step)
  {
    match step
    case Tick(elapsed) => db' == db.(now := db.now + elapsed)
    case PostListing(p, q, start, t, free) => PostListingPromise(db, db', p, q, start, t, free)
    case EditListing(p, l, e) => EditListingPromise(db, db', p, l, e)
    case ArchiveListing(p, l) => ArchiveListingPromise(db, db', p, l)
    case ExpireListing(l, expected, open) => ExpireListingPromise(db, db', l, expected, open)
    case RequestRescue(p, l, ngo, v) => RequestRescuePromise(db, db', p, l, ngo, v)
    case RejectRequest(ngo, q) => RejectRequestPromise(db, db', ngo, q)
  }

  predicate RowsListed(db: Db) {
    forall i :: 0 <= i < |db.rows| ==> db.rows[i].listing < |db.listings|
  }

  ghost predicate ClaimPromise(db: Db, db': Db, step: Step)
    requires IsClaimStep(step) && RowsListed(db)
  {
    match step
    case AcceptRequest(ngo, q, approved, terms) => AcceptRequestPromise(db, db', ngo, q, approved, terms)
    case HoldStock(u, l, q, approved, can) => HoldStockPromise(db, db', u, l, q, approved, can)
    case OpenPaymentSession(i, deposit, commits) => OpenPaymentSessionPromise(db, db', i, deposit, commits)
    case CompensateHold(i) => CompensateHoldPromise(db, db', i)
    case BulkReserve(u, items, approved, terms) => BulkReservePromise(db, db', u, items, approved, terms)
    case CancelReservation(u, i) => CancelReservationPromise(db, db', u, i)
    case MarkPickedUp(p, i, code) => MarkPickedUpPromise(db, db', p, i, code)
  }

  ghost predicate DeliveryPromise(db: Db, db': Db, step: Step)
    requires IsDeliveryStep(step)
  {
    match step
    case StartTask(v, i, _) => StartTaskPromise(db, db', v, i)
    case CompleteTask(v, i, code) => CompleteTaskPromise(db, db', v, i, code)
    case PickupTimeout(i, open) => PickupTimeoutPromise(db, db', i, open)
    case DeliveryTimeout(i, open) => DeliveryTimeoutPromise(db, db', i, open)
  }

  ghost predicate PaymentPromise(db: Db, db': Db, step: Step)
    requires IsPaymentStep(step)
  {
    match step
    case PaidOrder(i) => PaidOrderPromise(db, db', i)
    case RecoverPayment(i) => RecoverPaymentPromise(db, db', i)
    case FailedOrder(i, expired) => FailedOrderPromise(db, db', i, expired)
    case RecoverStaleHold(i) => RecoverStaleHoldPromise(db, db', i)
  }

  ghost predicate RefundPromise(db: Db, db': Db, step: Step)
    requires IsRefundStep(step)
  {
    match step
    case PrepareRefund(i, execute) => PrepareRefundPromise(db, db', i, execute)
    case PrepareDepositRefund(i, execute) => PrepareDepositRefundPromise(db, db', i, execute)
    case GatewayReplies(c, s) => GatewayRepliesPromise(db, db', c, s)
    case PersistRefund(c, s) => PersistRefundPromise(db, db', c, s)
    case PersistDepositRefund(c, s) => PersistDepositRefundPromise(db, db', c, s)
    case RefundEvent(c, s, retry) => RefundEventPromise(db, db', c, s, retry)
  }

  ghost predicate Promise(db: Db, db': Db, step: Step)
    requires RowsListed(db)
  {
    if IsListingStep(step) then ListingPromise(db, db', step)
    else if IsClaimStep(step) then ClaimPromise(db, db', step)
    else if IsDeliveryStep(step) then DeliveryPromise(db, db', step)
    else if IsPaymentStep(step) then PaymentPromise(db, db', step)
    else RefundPromise(db, db', step)
  }

  lemma ListingsPromised(db: Db, step: Step)
    requires Reachable(db) && IsListingStep(step)
    ensures ListingPromise(db, Apply(db, step), step)
  {
    match step
    case Tick(elapsed) => TickApplies(db, elapsed);
    case PostListing(p, q, start, t, free) => PostListingPromised(db, p, q, start, t, free);
    case EditListing(p, l, e) => EditListingPromised(db, p, l, e);
    case ArchiveListing(p, l) => ArchiveListingPromised(db, p, l);
    case ExpireListing(l, expected, open) => ExpireListingPromised(db, l, expected, open);
    case RequestRescue(p, l, ngo, v) => RequestRescuePromised(db, p, l, ngo, v);
    case RejectRequest(ngo, q) => RejectRequestPromised(db, ngo, q);
  }

  lemma ClaimsPromised(db: Db, step: Step)
    requires Reachable(db) && IsClaimStep(step) && RowsListed(db)
    ensures ClaimPromise(db, Apply(db, step), step)
  {
    match step
    case AcceptRequest(ngo, q, approved, terms) => AcceptRequestPromised(db, ngo, q, approved, terms);
    case HoldStock(u, l, q, approved, can) => HoldStockPromised(db, u, l, q, approved, can);
    case OpenPaymentSession(i, deposit, commits) => OpenPaymentSessionPromised(db, i, deposit, commits);
    case CompensateHold(i) => CompensateHoldPromised(db, i);
    case BulkReserve(u, items, approved, terms) => BulkReservePromised(db, u, items, approved, terms);
    case CancelReservation(u, i) => CancelReservationPromised(db, u, i);
    case MarkPickedUp(p, i, code) => MarkPickedUpPromised(db, p, i, code);
  }

  lemma DeliveriesPromised(db: Db, step: Step)
    requires Reachable(db) && IsDeliveryStep(step)
    ensures DeliveryPromise(db, Apply(db, step), step)
  {
    match step
    case StartTask(v, i, raced) => StartTaskPromised(db, v, i, raced);
    case CompleteTask(v, i, code) => CompleteTaskPromised(db, v, i, code);
    case PickupTimeout(i, open) => PickupTimeoutPromised(db, i, open);
    case DeliveryTimeout(i, open) => DeliveryTimeoutPromised(db, i, open);
  }

  lemma PaymentsPromised(db: Db, step: Step)
    requires Reachable(db) && IsPaymentStep(step)
    ensures PaymentPromise(db, Apply(db, step), step)
  {
    match step
    case PaidOrder(i) => PaidOrderPromised(db, i);
    case RecoverPayment(i) => RecoverPaymentPromised(db, i);
    case FailedOrder(i, expired) => FailedOrderPromised(db, i, expired);
    case RecoverStaleHold(i) => RecoverStaleHoldPromised(db, i);
  }

  lemma RefundsPromised(db: Db, step: Step)
    requires Reachable(db) && IsRefundStep(step)
    ensures RefundPromise(db, Apply(db, step), step)
  {
    match step
    case PrepareRefund(i, execute) => PrepareRefundPromised(db, i, execute);
    case PrepareDepositRefund(i, execute) => PrepareDepositRefundPromised(db, i, execute);
    case GatewayReplies(c, s) => GatewayRepliesPromised(db, c, s);
    case PersistRefund(c, s) => PersistRefundPromised(db, c, s);
    case PersistDepositRefund(c, s) => PersistDepositRefundPromised(db, c, s);
    case RefundEvent(c, s, retry) => RefundEventPromised(db, c, s, retry);
  }

  lemma ReachableListed(db: Db)
    requires Reachable(db)
    ensures RowsListed(db)
  {
    ReachableInv(db);
  }

  /** Every step of a run does what it promises. */
  lemma StepPromised(db: Db, step: Step)
    requires Reachable(db)
    ensures RowsListed(db) && Promise(db, Apply(db, step), step)
  {
    ReachableListed(db);
    if IsListingStep(step) {
      ListingsPromised(db, step);
    } else if IsClaimStep(step) {
      ClaimsPromised(db, step);
    } else if IsDeliveryStep(step) {
      DeliveriesPromised(db, step);
    } else if IsPaymentStep(step) {
      PaymentsPromised(db, step);
    } else {
      RefundsPromised(db, step);
    }
  }
}
