/** The life of a reservation in one table: which step, under which condition, moves it where. It
    follows from what the operations promise. */
module Fates {
  import opened Model
  import opened Machine
  import opened Frames
  import opened ListingOutcomes
  import opened ReleaseOutcomes
  import opened DeliveryOutcomes
  import opened PaymentOutcomes
  import opened RefundOutcomes
  import opened Promises
  import V = Laws

  /** The status of reservation `i` after a step. No other step and no other condition moves it. */
  function StatusAfter(db: Db, step: Step, i: nat): Status
    requires RowsListed(db) && i < |db.rows|
  {
    var r := db.rows[i];
    match r.status
    case PaymentPending =>
      (match step
       case PaidOrder(k) =>
         if k != i || i !in db.payments then PaymentPending else if StillWanted(db, r) then Reserved else Cancelled
       case CompensateHold(k) => if k == i then PaymentFailed else PaymentPending
       case RecoverStaleHold(k) => if k == i then PaymentFailed else PaymentPending
       case FailedOrder(k, expired) =>
         if k != i || i !in db.payments then PaymentPending else if expired then ExpiredPayment else PaymentFailed
       case CancelReservation(user, k) =>
         if k == i && user == r.user && i in db.payments then CancelledBeforeConfirmation else PaymentPending
       case _ => PaymentPending)
    case Reserved =>
      (match step
       case CancelReservation(user, k) => if k == i && user == r.user && InTime(db, i) then Cancelled else Reserved
       case MarkPickedUp(provider, k, codeOk) =>
         if k == i && provider == db.listings[r.listing].provider && codeOk && r.pickupType == SelfPickup then PickedUp
         else Reserved
       case CompleteTask(v, k, codeOk) =>
         if k == i && r.volunteer == Some(v) && codeOk && r.task == TaskPickedFromProvider then PickedUp else Reserved
       case PickupTimeout(k, _) => if k == i && r.task == TaskInProgress then Expired else Reserved
       case DeliveryTimeout(k, _) => if k == i && r.task == TaskPickedFromProvider then Expired else Reserved
       case ExpireListing(l, expected, _) => if Due(db, l, expected) && Unclaimed(r, l) then Expired else Reserved
       case _ => Reserved)
    case PickedUp => PickedUp
    case Expired => Expired
    case released =>
      if step == PaidOrder(i) && i in db.payments && db.payments[i].status != PayRefunded then Cancelled else released
  }

  ghost predicate Moves(db: Db, db': Db, step: Step, i: nat)
    requires RowsListed(db) && i < |db.rows|
  {
    i < |db'.rows| && db'.rows[i].status == StatusAfter(db, step, i)
  }

  predicate MovesStatus(step: Step) {
    step.PaidOrder? || step.CompensateHold? || step.RecoverStaleHold? || step.FailedOrder? || step.CancelReservation? ||
    step.MarkPickedUp? || step.CompleteTask? || step.PickupTimeout? || step.DeliveryTimeout?
  }

  /** The rows of the table are about one reservation each, but for the expiry of a listing. */
  lemma TableStays(db: Db, step: Step, i: nat)
    requires RowsListed(db) && i < |db.rows| && !step.ExpireListing? && (MovesStatus(step) ==> step.row != i)
    ensures StatusAfter(db, step, i) == db.rows[i].status
  {
  }

  lemma Elsewhere(db: Db, db': Db, step: Step, i: nat)
    requires RowsListed(db) && i < |db.rows| && MovesStatus(step) && step.row != i
    requires db' == db || OtherRows(db, db', step.row)
    ensures Moves(db, db', step, i)
  {
    TableStays(db, step, i);
  }

  lemma Unmoved(db: Db, db': Db, step: Step, i: nat)
    requires RowsListed(db) && i < |db.rows| && !MovesStatus(step) && !step.ExpireListing?
    requires i < |db'.rows| && db'.rows[i].status == db.rows[i].status
    ensures Moves(db, db', step, i)
  {
    TableStays(db, step, i);
  }

  lemma PaidOrderTable(db: Db, i: nat)
    requires RowsListed(db) && i < |db.rows|
    ensures StatusAfter(db, PaidOrder(i), i)
            == if i !in db.payments || db.rows[i].status in {Reserved, PickedUp, Expired} then db.rows[i].status
               else if db.rows[i].status == PaymentPending then
                 if StillWanted(db, db.rows[i]) then Reserved else Cancelled
               else if db.payments[i].status != PayRefunded then Cancelled else db.rows[i].status
  {
  }

  lemma PaidOrderMoves(db: Db, db': Db, i: nat)
    requires RowsListed(db) && i < |db.rows| && PaidOrderPromise(db, db', i)
    ensures Moves(db, db', PaidOrder(i), i)
  {
    PaidOrderTable(db, i);
  }

  lemma FailedOrderTable(db: Db, i: nat, expired: bool)
    requires RowsListed(db) && i < |db.rows|
    ensures StatusAfter(db, FailedOrder(i, expired), i)
            == if db.rows[i].status == PaymentPending && i in db.payments then
                 if expired then ExpiredPayment else PaymentFailed
               else db.rows[i].status
  {
  }

  lemma FailedOrderMoves(db: Db, db': Db, i: nat, expired: bool)
    requires RowsListed(db) && i < |db.rows| && FailedOrderPromise(db, db', i, expired)
    ensures Moves(db, db', FailedOrder(i, expired), i)
  {
    FailedOrderTable(db, i, expired);
  }

  lemma StaleHoldMoves(db: Db, db': Db, i: nat)
    requires RowsListed(db) && i < |db.rows| && RecoverStaleHoldPromise(db, db', i)
    ensures Moves(db, db', RecoverStaleHold(i), i)
  {
  }

  lemma CompensationMoves(db: Db, db': Db, i: nat)
    requires RowsListed(db) && i < |db.rows| && CompensateHoldPromise(db, db', i)
    ensures Moves(db, db', CompensateHold(i), i)
  {
  }

  lemma CancellationMoves(db: Db, db': Db, i: nat, user: nat)
    requires RowsListed(db) && i < |db.rows| && CancelReservationPromise(db, db', user, i)
    ensures Moves(db, db', CancelReservation(user, i), i)
  {
  }

  lemma PickupMoves(db: Db, db': Db, i: nat, provider: nat, codeOk: bool)
    requires RowsListed(db) && i < |db.rows| && MarkPickedUpPromise(db, db', provider, i, codeOk)
    ensures Moves(db, db', MarkPickedUp(provider, i, codeOk), i)
  {
  }

  lemma CompletionMoves(db: Db, db': Db, i: nat, v: nat, codeOk: bool)
    requires RowsListed(db) && i < |db.rows| && CompleteTaskPromise(db, db', v, i, codeOk)
    ensures Moves(db, db', CompleteTask(v, i, codeOk), i)
  {
  }

  lemma PickupTimeoutMoves(db: Db, db': Db, i: nat, open: set<nat>)
    requires RowsListed(db) && i < |db.rows| && PickupTimeoutPromise(db, db', i, open)
    ensures Moves(db, db', PickupTimeout(i, open), i)
  {
  }

  lemma DeliveryTimeoutMoves(db: Db, db': Db, i: nat, open: set<nat>)
    requires RowsListed(db) && i < |db.rows| && DeliveryTimeoutPromise(db, db', i, open)
    ensures Moves(db, db', DeliveryTimeout(i, open), i)
  {
  }

  lemma ExpiryTable(db: Db, step: Step, i: nat)
    requires RowsListed(db) && i < |db.rows| && step.ExpireListing?
    ensures StatusAfter(db, step, i)
            == if Due(db, step.listing, step.expected) && Unclaimed(db.rows[i], step.listing) then Expired
               else db.rows[i].status
  {
  }

  lemma ExpiryMoves(db: Db, db': Db, l: nat, expected: Option<int>, open: set<nat>, i: nat)
    requires RowsListed(db) && i < |db.rows| && ExpireListingPromise(db, db', l, expected, open)
    ensures Moves(db, db', ExpireListing(l, expected, open), i)
  {
    ExpiryTable(db, ExpireListing(l, expected, open), i);
  }

  lemma ListingMoves(db: Db, db': Db, step: Step, i: nat)
    requires RowsListed(db) && i < |db.rows| && IsListingStep(step) && ListingPromise(db, db', step)
    ensures Moves(db, db', step, i)
  {
    if step.ExpireListing? {
      ExpiryMoves(db, db', step.listing, step.expected, step.open, i);
    } else {
      assert db'.rows == db.rows;
      Unmoved(db, db', step, i);
    }
  }

  /** New reservations and payment sessions leave the status of the others alone. */
  lemma InsertKeepsStatus(db: Db, db': Db, step: Step, i: nat)
    requires RowsListed(db) && i < |db.rows| && IsClaimStep(step) && !MovesStatus(step) && ClaimPromise(db, db', step)
    ensures i < |db'.rows| && db'.rows[i].status == db.rows[i].status
  {
  }

  lemma ClaimMoves(db: Db, db': Db, step: Step, i: nat)
    requires RowsListed(db) && i < |db.rows| && IsClaimStep(step) && ClaimPromise(db, db', step)
    ensures Moves(db, db', step, i)
  {
    if !MovesStatus(step) {
      InsertKeepsStatus(db, db', step, i);
      Unmoved(db, db', step, i);
    } else if step.row != i {
      Elsewhere(db, db', step, i);
    } else {
      match step
      case CompensateHold(_) => CompensationMoves(db, db', i);
      case CancelReservation(user, _) => CancellationMoves(db, db', i, user);
      case MarkPickedUp(provider, _, codeOk) => PickupMoves(db, db', i, provider, codeOk);
    }
  }

  lemma DeliveryMoves(db: Db, db': Db, step: Step, i: nat)
    requires RowsListed(db) && i < |db.rows| && IsDeliveryStep(step) && DeliveryPromise(db, db', step)
    ensures Moves(db, db', step, i)
  {
    if step.StartTask? {
      Unmoved(db, db', step, i);
    } else if step.row != i {
      Elsewhere(db, db', step, i);
    } else {
      match step
      case CompleteTask(v, _, codeOk) => CompletionMoves(db, db', i, v, codeOk);
      case PickupTimeout(_, open) => PickupTimeoutMoves(db, db', i, open);
      case DeliveryTimeout(_, open) => DeliveryTimeoutMoves(db, db', i, open);
    }
  }

  lemma PaymentMoves(db: Db, db': Db, step: Step, i: nat)
    requires RowsListed(db) && i < |db.rows| && IsPaymentStep(step) && PaymentPromise(db, db', step)
    ensures Moves(db, db', step, i)
  {
    if step.RecoverPayment? {
      Unmoved(db, db', step, i);
    } else if step.row != i {
      Elsewhere(db, db', step, i);
    } else {
      match step
      case PaidOrder(_) => PaidOrderMoves(db, db', i);
      case FailedOrder(_, expired) => FailedOrderMoves(db, db', i, expired);
      case RecoverStaleHold(_) => StaleHoldMoves(db, db', i);
    }
  }

  /** Reports about refunds leave the status of every reservation alone. */
  lemma StoredKeepsStatus(db: Db, db': Db, k: nat, s: GatewayStatus, byWorker: bool, i: nat)
    requires i < |db.rows| && (RefundStored(db, db', k, s, byWorker) || DepositStored(db, db', k, s))
    ensures i < |db'.rows| && db'.rows[i].status == db.rows[i].status
  {
  }

  lemma RefundKeepsStatus(db: Db, db': Db, step: Step, i: nat)
    requires i < |db.rows| && IsRefundStep(step) && RefundPromise(db, db', step)
    ensures i < |db'.rows| && db'.rows[i].status == db.rows[i].status
  {
    match step
    case PersistRefund(c, s) =>
      if db' != db {
        StoredKeepsStatus(db, db', c.reservation, s, true, i);
      }
    case PersistDepositRefund(c, s) =>
      if db' != db {
        StoredKeepsStatus(db, db', c.reservation, s, true, i);
      }
    case RefundEvent(c, s, _) =>
      if db' != db {
        StoredKeepsStatus(db, db', c.reservation, s, false, i);
      }
    case _ =>
  }

  lemma RefundMoves(db: Db, db': Db, step: Step, i: nat)
    requires RowsListed(db) && i < |db.rows| && IsRefundStep(step) && RefundPromise(db, db', step)
    ensures Moves(db, db', step, i)
  {
    RefundKeepsStatus(db, db', step, i);
    Unmoved(db, db', step, i);
  }

  lemma PromiseMoves(db: Db, db': Db, step: Step, i: nat)
    requires RowsListed(db) && i < |db.rows| && Promise(db, db', step)
    ensures Moves(db, db', step, i)
  {
    if IsListingStep(step) {
      ListingMoves(db, db', step, i);
    } else if IsClaimStep(step) {
      ClaimMoves(db, db', step, i);
    } else if IsDeliveryStep(step) {
      DeliveryMoves(db, db', step, i);
    } else if IsPaymentStep(step) {
      PaymentMoves(db, db', step, i);
    } else {
      RefundMoves(db, db', step, i);
    }
  }

  /** The table is right for every step of every run. */
  lemma StatusMoves(db: Db, step: Step, i: nat)
    requires Reachable(db) && i < |db.rows|
    ensures RowsListed(db) && i < |Apply(db, step).rows|
    ensures Apply(db, step).rows[i].status == StatusAfter(db, step, i)
  {
    StepPromised(db, step);
    PromiseMoves(db, Apply(db, step), step, i);
  }

  // ---------- deposits ----------

  predicate NobodyCame(db: Db, step: Step, i: nat)
    requires i < |db.rows|
  {
    match step
    case PickupTimeout(k, _) => k == i && db.rows[i].status == Reserved && db.rows[i].task == TaskInProgress
    case DeliveryTimeout(k, _) => k == i && db.rows[i].status == Reserved && db.rows[i].task == TaskPickedFromProvider
    case ExpireListing(l, expected, _) => Due(db, l, expected) && Unclaimed(db.rows[i], l)
    case _ => false
  }

  /** The operations that are open in the eyes of a step that may keep deposits. */
  function OpenIn(step: Step): set<nat> {
    if step.PickupTimeout? || step.DeliveryTimeout? || step.ExpireListing? then step.open else {}
  }

  function ReportedDeposit(d: DepositState, s: GatewayStatus): DepositState {
    if s == GatewaySuccess || d == DepositRefunded then DepositRefunded
    else if s == GatewayPending then DepositRefundPending else DepositRefundFailed
  }

  /** The deposit of reservation `i` after a step. It is kept when the reservation came to nothing
      after its confirmation and the operation is open; it goes back when a worker or the gateway says so. */
  function DepositAfter(db: Db, step: Step, i: nat): DepositState
    requires i < |db.rows| && i in db.payments
  {
    var p := db.payments[i];
    if NobodyCame(db, step, i) && p.deposit > 0 && i in OpenIn(step) then DepositRetained
    else
      match step
      case PrepareDepositRefund(k, execute) =>
        if k == i && execute && DepositRefundJob(i) in db.jobs && p.deposit > 0 && p.depositStatus != DepositRefunded
        then DepositRefundPending else p.depositStatus
      case PersistRefund(c, s) =>
        if c.reservation == i && c.channel == PaymentChannel && Answer(c, s) in db.answers && s == GatewaySuccess &&
           p.deposit > 0 && p.status != PayRefunded
        then DepositRefunded else p.depositStatus
      case PersistDepositRefund(c, s) =>
        if c.reservation == i && c.channel == DepositChannel && Answer(c, s) in db.answers
        then ReportedDeposit(p.depositStatus, s) else p.depositStatus
      case RefundEvent(c, s, retry) =>
        if c.reservation == i && c.channel == DepositChannel && Answer(c, s) in db.answers &&
           DepositWebhookCounts(p, s, retry)
        then ReportedDeposit(p.depositStatus, s) else p.depositStatus
      case _ => p.depositStatus
  }

  ghost predicate DepositMoves(db: Db, db': Db, step: Step, i: nat)
    requires i < |db.rows| && i in db.payments
  {
    i in db'.payments && db'.payments[i].depositStatus == DepositAfter(db, step, i)
  }

  lemma SamePayment(db: Db, db': Db, i: nat)
    requires i in db.payments && PayOf(db', i) == PayOf(db, i)
    ensures i in db'.payments && db'.payments[i] == db.payments[i]
  {
  }

  lemma FailedTaskDeposit(db: Db, db': Db, k: nat, open: set<nat>, i: nat)
    requires k < |db.rows| && i in db.payments && TaskFails(db, db', k, open)
    ensures i in db'.payments && db'.payments[i].depositStatus
            == if k == i && db.payments[i].deposit > 0 && i in open then DepositRetained
               else db.payments[i].depositStatus
  {
    if k != i {
      SamePayment(db, db', i);
    }
  }

  lemma PickupTimeoutDeposit(db: Db, db': Db, k: nat, open: set<nat>, i: nat)
    requires i < |db.rows| && i in db.payments && PickupTimeoutPromise(db, db', k, open)
    ensures DepositMoves(db, db', PickupTimeout(k, open), i)
  {
    if db' != db {
      FailedTaskDeposit(db, db', k, open, i);
    }
  }

  lemma DeliveryTimeoutDeposit(db: Db, db': Db, k: nat, open: set<nat>, i: nat)
    requires i < |db.rows| && i in db.payments && DeliveryTimeoutPromise(db, db', k, open)
    ensures DepositMoves(db, db', DeliveryTimeout(k, open), i)
  {
    if db' != db {
      FailedTaskDeposit(db, db', k, open, i);
    }
  }

  lemma ExpiryDeposit(db: Db, db': Db, l: nat, expected: Option<int>, open: set<nat>, i: nat)
    requires i < |db.rows| && i in db.payments && ExpireListingPromise(db, db', l, expected, open)
    ensures DepositMoves(db, db', ExpireListing(l, expected, open), i)
  {
    if PayOf(db', i) == PayOf(db, i) {
      SamePayment(db, db', i);
    }
  }

  lemma PreparedDeposit(db: Db, db': Db, k: nat, execute: bool, i: nat)
    requires i < |db.rows| && i in db.payments && PrepareDepositRefundPromise(db, db', k, execute)
    ensures DepositMoves(db, db', PrepareDepositRefund(k, execute), i)
  {
    if PayOf(db', i) == PayOf(db, i) {
      SamePayment(db, db', i);
    }
  }

  lemma SettledDeposit(db: Db, db': Db, k: nat, s: GatewayStatus, i: nat)
    requires i in db.payments && RefundStored(db, db', k, s, true)
    ensures i in db'.payments && db'.payments[i].depositStatus
            == if k == i && s == GatewaySuccess && db.payments[i].deposit > 0 then DepositRefunded
               else db.payments[i].depositStatus
  {
    if k != i {
      SamePayment(db, db', i);
    }
  }

  lemma PersistRefundTable(db: Db, c: RefundCall, s: GatewayStatus, i: nat)
    requires i < |db.rows| && i in db.payments
    ensures DepositAfter(db, PersistRefund(c, s), i)
            == if c.reservation == i && c.channel == PaymentChannel && Answer(c, s) in db.answers &&
                  s == GatewaySuccess && db.payments[i].deposit > 0 && db.payments[i].status != PayRefunded
               then DepositRefunded else db.payments[i].depositStatus
  {
  }

  lemma PersistRefundDeposit(db: Db, db': Db, c: RefundCall, s: GatewayStatus, i: nat)
    requires i < |db.rows| && i in db.payments && PersistRefundPromise(db, db', c, s)
    ensures DepositMoves(db, db', PersistRefund(c, s), i)
  {
    PersistRefundTable(db, c, s, i);
    if db' != db {
      SettledDeposit(db, db', c.reservation, s, i);
    }
  }

  lemma PersistDepositRefundDeposit(db: Db, db': Db, c: RefundCall, s: GatewayStatus, i: nat)
    requires i < |db.rows| && i in db.payments && PersistDepositRefundPromise(db, db', c, s)
    ensures DepositMoves(db, db', PersistDepositRefund(c, s), i)
  {
    if PayOf(db', i) == PayOf(db, i) {
      SamePayment(db, db', i);
    }
  }

  lemma StoredDeposit(db: Db, db': Db, k: nat, s: GatewayStatus, i: nat)
    requires i in db.payments && DepositStored(db, db', k, s)
    ensures i in db'.payments && db'.payments[i].depositStatus
            == if k == i then ReportedDeposit(db.payments[i].depositStatus, s) else db.payments[i].depositStatus
  {
    if k != i {
      SamePayment(db, db', i);
    }
  }

  lemma StoredRefund(db: Db, db': Db, k: nat, s: GatewayStatus, i: nat)
    requires i in db.payments && RefundStored(db, db', k, s, false)
    ensures i in db'.payments && db'.payments[i].depositStatus == db.payments[i].depositStatus
  {
    if k != i {
      SamePayment(db, db', i);
    }
  }

  lemma RefundEventDeposit(db: Db, db': Db, c: RefundCall, s: GatewayStatus, retry: bool, i: nat)
    requires i < |db.rows| && i in db.payments && RefundEventPromise(db, db', c, s, retry)
    ensures DepositMoves(db, db', RefundEvent(c, s, retry), i)
  {
    if db' != db {
      if c.channel == DepositChannel {
        StoredDeposit(db, db', c.reservation, s, i);
      } else {
        StoredRefund(db, db', c.reservation, s, i);
      }
    }
  }

  predicate MovesDeposits(step: Step) {
    step.PickupTimeout? || step.DeliveryTimeout? || step.ExpireListing? || step.PrepareDepositRefund? ||
    step.PersistRefund? || step.PersistDepositRefund? || step.RefundEvent?
  }

  lemma RefundMovesDeposit(db: Db, db': Db, step: Step, i: nat)
    requires i < |db.rows| && i in db.payments && IsRefundStep(step) && RefundPromise(db, db', step) &&
             MovesDeposits(step)
    ensures DepositMoves(db, db', step, i)
  {
    match step
    case PrepareDepositRefund(k, execute) => PreparedDeposit(db, db', k, execute, i);
    case PersistRefund(c, s) => PersistRefundDeposit(db, db', c, s, i);
    case PersistDepositRefund(c, s) => PersistDepositRefundDeposit(db, db', c, s, i);
    case RefundEvent(c, s, retry) => RefundEventDeposit(db, db', c, s, retry, i);
  }

  lemma TimeoutMovesDeposit(db: Db, db': Db, step: Step, i: nat)
    requires i < |db.rows| && i in db.payments && IsDeliveryStep(step) && DeliveryPromise(db, db', step) &&
             MovesDeposits(step)
    ensures DepositMoves(db, db', step, i)
  {
    match step
    case PickupTimeout(k, open) => PickupTimeoutDeposit(db, db', k, open, i);
    case DeliveryTimeout(k, open) => DeliveryTimeoutDeposit(db, db', k, open, i);
  }

  lemma MovedDeposit(db: Db, db': Db, step: Step, i: nat)
    requires RowsListed(db) && i < |db.rows| && i in db.payments && Promise(db, db', step) && MovesDeposits(step)
    ensures DepositMoves(db, db', step, i)
  {
    if IsRefundStep(step) {
      RefundMovesDeposit(db, db', step, i);
    } else if IsDeliveryStep(step) {
      TimeoutMovesDeposit(db, db', step, i);
    } else {
      ExpiryDeposit(db, db', step.listing, step.expected, step.open, i);
    }
  }

  lemma ListingKeepsDeposit(db: Db, db': Db, step: Step, i: nat)
    requires i in db.payments && IsListingStep(step) && !MovesDeposits(step) && ListingPromise(db, db', step)
    ensures i in db'.payments && db'.payments[i].depositStatus == db.payments[i].depositStatus
  {
    assert db'.payments == db.payments;
  }

  lemma ClaimKeepsDeposit(db: Db, db': Db, step: Step, i: nat)
    requires RowsListed(db) && i < |db.rows| && i in db.payments && IsClaimStep(step) && ClaimPromise(db, db', step)
    ensures i in db'.payments && db'.payments[i].depositStatus == db.payments[i].depositStatus
  {
    if PayOf(db', i) == PayOf(db, i) {
      SamePayment(db, db', i);
    }
  }

  lemma PaymentKeepsDeposit(db: Db, db': Db, step: Step, i: nat)
    requires i in db.payments && IsPaymentStep(step) && PaymentPromise(db, db', step)
    ensures i in db'.payments && db'.payments[i].depositStatus == db.payments[i].depositStatus
  {
    if PayOf(db', i) == PayOf(db, i) {
      SamePayment(db, db', i);
    }
  }

  lemma OtherKeepsDeposit(db: Db, db': Db, step: Step, i: nat)
    requires i in db.payments && !MovesDeposits(step)
    requires (IsDeliveryStep(step) && DeliveryPromise(db, db', step)) ||
             (IsRefundStep(step) && RefundPromise(db, db', step))
    ensures i in db'.payments && db'.payments[i].depositStatus == db.payments[i].depositStatus
  {
    if PayOf(db', i) == PayOf(db, i) {
      SamePayment(db, db', i);
    }
  }

  lemma UnmovedDeposit(db: Db, db': Db, step: Step, i: nat)
    requires RowsListed(db) && i < |db.rows| && i in db.payments && Promise(db, db', step) && !MovesDeposits(step)
    ensures i in db'.payments && db'.payments[i].depositStatus == db.payments[i].depositStatus
  {
    if IsListingStep(step) {
      ListingKeepsDeposit(db, db', step, i);
    } else if IsClaimStep(step) {
      ClaimKeepsDeposit(db, db', step, i);
    } else if IsPaymentStep(step) {
      PaymentKeepsDeposit(db, db', step, i);
    } else {
      OtherKeepsDeposit(db, db', step, i);
    }
  }

  lemma PromiseMovesDeposit(db: Db, db': Db, step: Step, i: nat)
    requires RowsListed(db) && i < |db.rows| && i in db.payments && Promise(db, db', step)
    ensures DepositMoves(db, db', step, i)
  {
    if MovesDeposits(step) {
      MovedDeposit(db, db', step, i);
    } else {
      UnmovedDeposit(db, db', step, i);
    }
  }

  /** This is what happens to deposits, in every step of every run. */
  lemma DepositsMove(db: Db, step: Step, i: nat)
    requires Reachable(db) && i in db.payments
    ensures i < |db.rows| && i in Apply(db, step).payments
    ensures Apply(db, step).payments[i].depositStatus == DepositAfter(db, step, i)
  {
    V.PaymentHasRow(db, i);
    StepPromised(db, step);
    PromiseMovesDeposit(db, Apply(db, step), step, i);
  }
}
