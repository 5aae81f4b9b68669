/** The laws over whole runs: whatever users, volunteers, providers, the clock, the queues and the
    gateway do, in whatever order. Every step of the machine keeps the invariant, by the lemma for its
    transaction; hence it holds in every reachable state, and rows only move forward. */
module Runs {
  import opened Model
  import opened Stock
  import opened Machine
  import opened Cells
  import opened Invariant
  import opened Preservation
  import T = TableSteps
  import P = Payments
  import F = Refunds

  /** What each kind of step may do that others may not. */
  function EffectsOf(db: Db, step: Step): Effects {
    match step
    case PaidOrder(i) => PaidOrderEffects(db, i)
    case PersistRefund(c, _) => Settling(c.reservation, true)
    case CompleteTask(v, _, _) => NOTHING_SPECIAL.(completes := Some(v))
    case _ => NOTHING_SPECIAL
  }

  lemma ListingStepKeeps(db: Db, step: Step)
    requires Inv(db) && IsListingStep(step)
    ensures Keeps(db, ExecuteListing(db, step))
  {
    match step
    case Tick(elapsed) => T.AdvanceKeeps(db, elapsed);
    case PostListing(p, q, start, t, free) => T.PostListingKeeps(db, p, q, start, t, free);
    case EditListing(p, l, e) => T.EditListingKeeps(db, p, l, e);
    case ArchiveListing(p, l) => T.ArchiveListingKeeps(db, p, l);
    case ExpireListing(l, expected, open) => T.ExpireListingKeeps(db, l, expected, open);
    case RequestRescue(p, l, ngo, v) => T.RequestRescueKeeps(db, p, l, ngo, v);
    case RejectRequest(ngo, q) => T.RejectRequestKeeps(db, ngo, q);
  }

  lemma ClaimStepKeeps(db: Db, step: Step)
    requires Inv(db) && IsClaimStep(step)
    ensures Keeps(db, ExecuteClaim(db, step))
  {
    match step
    case AcceptRequest(ngo, q, approved, terms) => T.AcceptRequestKeeps(db, ngo, q, approved, terms);
    case HoldStock(u, l, q, approved, can) => T.HoldStockKeeps(db, u, l, q, approved, can);
    case OpenPaymentSession(i, deposit, commits) => T.OpenPaymentSessionKeeps(db, i, deposit, commits);
    case CompensateHold(i) => CompensateHoldKeeps(db, i);
    case BulkReserve(u, items, approved, terms) => T.BulkReserveKeeps(db, u, items, approved, terms);
    case CancelReservation(u, i) => CancelReservationKeeps(db, u, i);
    case MarkPickedUp(p, i, code) => MarkPickedUpKeeps(db, p, i, code);
  }

  lemma DeliveryStepKeeps(db: Db, step: Step)
    requires Inv(db) && IsDeliveryStep(step)
    ensures Keeps(db, ExecuteDelivery(db, step), EffectsOf(db, step))
  {
    match step
    case StartTask(v, i, raced) => StartTaskKeeps(db, v, i, raced);
    case CompleteTask(v, i, code) => CompleteTaskKeeps(db, v, i, code);
    case PickupTimeout(i, open) => PickupTimeoutKeeps(db, i, open);
    case DeliveryTimeout(i, open) => DeliveryTimeoutKeeps(db, i, open);
  }

  lemma SameClaim(db: Db, a: Result, e: Effects, b: Result, f: Effects)
    requires Keeps(db, a, e) && a == b && e == f
    ensures Keeps(db, b, f)
  {
  }

  lemma PaidOrderStep(db: Db, i: nat)
    ensures ExecutePayment(db, PaidOrder(i)) == Done(P.PaidOrder(db, i))
    ensures EffectsOf(db, PaidOrder(i)) == PaidOrderEffects(db, i)
  {
  }

  lemma PaidOrderStepKeeps(db: Db, i: nat)
    requires Inv(db)
    ensures Keeps(db, ExecutePayment(db, PaidOrder(i)), EffectsOf(db, PaidOrder(i)))
  {
    PaidOrderStep(db, i);
    PaidOrderKeeps(db, i);
    SameClaim(db, Done(P.PaidOrder(db, i)), PaidOrderEffects(db, i), ExecutePayment(db, PaidOrder(i)),
              EffectsOf(db, PaidOrder(i)));
  }

  lemma PaymentStepKeeps(db: Db, step: Step)
    requires Inv(db) && IsPaymentStep(step) && !step.PaidOrder?
    ensures Keeps(db, ExecutePayment(db, step))
  {
    match step
    case RecoverPayment(i) => RecoverPaymentKeeps(db, i);
    case FailedOrder(i, expired) => FailedOrderKeeps(db, i, expired);
    case RecoverStaleHold(i) => ReleaseHoldKeeps(db, i, PaymentFailed, PayFailed, true);
  }

  lemma PersistRefundStep(db: Db, c: RefundCall, s: GatewayStatus)
    ensures ExecuteRefund(db, PersistRefund(c, s)) == F.PersistRefund(db, c, s)
    ensures EffectsOf(db, PersistRefund(c, s)) == Settling(c.reservation, true)
  {
  }

  lemma PersistRefundStepKeeps(db: Db, c: RefundCall, s: GatewayStatus)
    requires Inv(db)
    ensures Keeps(db, ExecuteRefund(db, PersistRefund(c, s)), EffectsOf(db, PersistRefund(c, s)))
  {
    PersistRefundStep(db, c, s);
    PersistRefundKeeps(db, c, s);
    SameClaim(db, F.PersistRefund(db, c, s), Settling(c.reservation, true),
              ExecuteRefund(db, PersistRefund(c, s)), EffectsOf(db, PersistRefund(c, s)));
  }

  lemma RefundStepKeeps(db: Db, step: Step)
    requires Inv(db) && IsRefundStep(step) && !step.PersistRefund?
    ensures Keeps(db, ExecuteRefund(db, step))
  {
    match step
    case PrepareRefund(i, execute) => PrepareRefundKeeps(db, i, execute);
    case PrepareDepositRefund(i, execute) => PrepareDepositRefundKeeps(db, i, execute);
    case GatewayReplies(c, s) => T.GatewayRepliesKeeps(db, c, s);
    case PersistDepositRefund(c, s) => PersistDepositRefundKeeps(db, c, s);
    case RefundEvent(c, s, retry) => RefundEventKeeps(db, c, s, retry);
  }

  predicate IsOrdinary(step: Step) {
    !step.PaidOrder? && !step.PersistRefund? && !IsDeliveryStep(step)
  }

  lemma OrdinaryEffects(db: Db, step: Step)
    requires IsOrdinary(step)
    ensures EffectsOf(db, step) == NOTHING_SPECIAL
  {
  }

  lemma OrdinaryStepKeeps(db: Db, step: Step)
    requires Inv(db) && IsOrdinary(step)
    ensures Keeps(db, Execute(db, step))
  {
    if IsListingStep(step) {
      ListingStepKeeps(db, step);
    } else if IsClaimStep(step) {
      ClaimStepKeeps(db, step);
    } else if IsPaymentStep(step) {
      PaymentStepKeeps(db, step);
    } else {
      RefundStepKeeps(db, step);
    }
  }

  lemma ExecutesDelivery(db: Db, step: Step)
    requires IsDeliveryStep(step)
    ensures Execute(db, step) == ExecuteDelivery(db, step)
  {
  }

  lemma ExecutesPayment(db: Db, step: Step)
    requires IsPaymentStep(step)
    ensures Execute(db, step) == ExecutePayment(db, step)
  {
  }

  lemma ExecutesRefund(db: Db, step: Step)
    requires step.PersistRefund?
    ensures Execute(db, step) == ExecuteRefund(db, step)
  {
  }

  lemma SpecialStepKeeps(db: Db, step: Step)
    requires Inv(db) && !IsOrdinary(step)
    ensures Keeps(db, Execute(db, step), EffectsOf(db, step))
  {
    var e := EffectsOf(db, step);
    if step.PaidOrder? {
      ExecutesPayment(db, step);
      PaidOrderStepKeeps(db, step.row);
      SameClaim(db, ExecutePayment(db, PaidOrder(step.row)), e, Execute(db, step), e);
    } else if step.PersistRefund? {
      ExecutesRefund(db, step);
      PersistRefundStepKeeps(db, step.call, step.status);
      SameClaim(db, ExecuteRefund(db, PersistRefund(step.call, step.status)), e, Execute(db, step), e);
    } else {
      ExecutesDelivery(db, step);
      DeliveryStepKeeps(db, step);
      SameClaim(db, ExecuteDelivery(db, step), e, Execute(db, step), e);
    }
  }

  /** Every step keeps every law. */
  lemma StepKeeps(db: Db, step: Step)
    requires Inv(db)
    ensures Keeps(db, Execute(db, step), EffectsOf(db, step))
  {
    if IsOrdinary(step) {
      OrdinaryStepKeeps(db, step);
      OrdinaryEffects(db, step);
      SameClaim(db, Execute(db, step), NOTHING_SPECIAL, Execute(db, step), EffectsOf(db, step));
    } else {
      SpecialStepKeeps(db, step);
    }
  }

  lemma Stays(db: Db, e: Effects)
    requires Inv(db)
    ensures Evolves(db, db, e)
  {
    Still(db);
  }

  lemma ApplyKeeps(db: Db, step: Step)
    requires Inv(db)
    ensures Inv(Apply(db, step)) && Evolves(db, Apply(db, step), EffectsOf(db, step))
  {
    StepKeeps(db, step);
    Stays(db, EffectsOf(db, step));
  }

  lemma {:induction false} RunKeeps(db: Db, steps: seq<Step>)
    requires Inv(db)
    ensures Inv(Run(db, steps))
    decreases |steps|
  {
    if |steps| > 0 {
      RunKeeps(db, steps[..|steps| - 1]);
      ApplyKeeps(Run(db, steps[..|steps| - 1]), steps[|steps| - 1]);
    }
  }

  /** Every reachable state satisfies every law. */
  lemma ReachableInv(db: Db)
    requires Reachable(db)
    ensures Inv(db)
  {
    var start, steps :| Run(EmptyDb(start), steps) == db;
    RunKeeps(EmptyDb(start), steps);
  }

  /** ... and so does each of its rows. */
  lemma ReachableReady(db: Db, i: nat)
    requires Reachable(db) && i < |db.rows|
    ensures Ready(db, i)
  {
    ReachableInv(db);
    InvReady(db, i);
  }

  lemma RowsReady(db: Db)
    requires Reachable(db)
    ensures forall i: nat :: i < |db.rows| ==> Ready(db, i)
    ensures forall i :: i in db.payments ==> i < |db.rows|
  {
    ReachableInv(db);
    forall i: nat | i < |db.rows| ensures Ready(db, i) {
      InvReady(db, i);
    }
  }

  lemma ReachableRun(db: Db, steps: seq<Step>)
    requires Reachable(db)
    ensures Reachable(Run(db, steps))
  {
    var start: int, before: seq<Step> :| Run(EmptyDb(start), before) == db;
    RunSplits(EmptyDb(start), before, steps);
  }

  // ---------- what a step does to one row ----------

  /** The step of row `i` and its payment. */
  lemma ApplyRow(db: Db, step: Step, i: nat)
    requires Reachable(db) && i < |db.rows|
    ensures var db' := Apply(db, step);
            i < |db'.rows| && db.now <= db'.now &&
            CellStep(db.rows[i], PayOf(db, i), db'.rows[i], PayOf(db', i),
                     Returned(db'.rows[i]) && !Returned(db.rows[i]), LicenceAt(EffectsOf(db, step), i))
  {
    ReachableInv(db);
    ApplyKeeps(db, step);
  }

  /** The rows a step adds. */
  lemma ApplyNewRow(db: Db, step: Step, i: nat)
    requires Reachable(db) && |db.rows| <= i < |Apply(db, step).rows|
    ensures var r := Apply(db, step).rows[i];
            Live(r) && !AlreadyClaimed(db.rows, r.user, r.listing)
  {
    ReachableInv(db);
    ApplyKeeps(db, step);
  }

  lemma ApplyCompletions(db: Db, step: Step, v: nat)
    requires Reachable(db) && EffectsOf(db, step).completes != Some(v)
    ensures SameCompletions(db.stats, Apply(db, step).stats, v)
  {
    ReachableInv(db);
    ApplyKeeps(db, step);
  }

  /** Tables only grow. */
  lemma ApplyGrows(db: Db, step: Step)
    requires Reachable(db)
    ensures var db' := Apply(db, step);
            |db.rows| <= |db'.rows| && |db.listings| <= |db'.listings| && db.calls <= db'.calls &&
              db.answers <= db'.answers
  {
    ReachableInv(db);
    ApplyKeeps(db, step);
  }
}
