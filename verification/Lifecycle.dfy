/** The frontend's reading of a reservation (reservationLifecycle.ts), against the backend machine. */
module Lifecycle {
  import opened Model
  import opened Machine
  import opened Cells
  import opened Invariant
  import opened Preservation
  import opened Runs
  import P = Payments

  datatype Group = Active | History

  datatype Label =
    | LabelActive
    | LabelCancelled
    | LabelCompleted
    | LabelExpired
    | LabelFailed
    | LabelInProgress
    | LabelPaymentPending
    | LabelReserved

  datatype Reason =
    | HoldExpired | TerminalFailure | Completed | WorkingOnIt | PendingPayment | Operational | UnknownInactive

  datatype Class = Class(group: Group, shown: Label, reason: Reason)

  predicate IsExpiredPaymentHold(r: Reservation, now: int) {
    r.status == PaymentPending && r.pay == PayPending && r.paymentExpiresAt.Some? && r.paymentExpiresAt.value <= now
  }

  predicate FailedStatus(s: Status) {
    s in {StatusAbandonedPayment, Cancelled, CancelledBeforeConfirmation, Expired, ExpiredPayment, StatusFailed,
          StatusPaymentExpired, PaymentFailed, StatusTimeoutCancelled}
  }

  predicate FailedPay(s: PayState) {
    s in {PayAbandoned, PayCancelled, PayExpired, PayFailed, PayRefundFailed, PayRefundPending, PayRefunded}
  }

  predicate CompletedStatus(s: Status) {
    s in {StatusCompleted, PickedUp, StatusDelivered}
  }

  predicate CompletedTask(t: Task) {
    t in {TaskCompleted, TaskDelivered, TaskPickedUp}
  }

  predicate ActiveStatus(s: Status) {
    s in {PaymentPending, StatusPending, Reserved, StatusAssigned, StatusVolunteerStarted, StatusReadyForPickup,
          StatusPickupInProgress, StatusInProgress, StatusPickedFromProvider}
  }

  predicate OperationalTask(t: Task) {
    t in {TaskSelfPickup, TaskPending, TaskAssigned, TaskInProgress, TaskVolunteerStarted, TaskPickedFromProvider}
  }

  predicate OperationalPay(s: PayState) {
    s in {PayNotRequired, PayPaid, PayPending, PaySuccess}
  }

  /** `classifyReservationLifecycle`. */
  function Classify(r: Reservation, now: int): Class {
    if IsExpiredPaymentHold(r, now) then Class(History, LabelExpired, HoldExpired)
    else if FailedStatus(r.status) || FailedPay(r.pay) then
      Class(History,
            if r.status == Cancelled || r.status == CancelledBeforeConfirmation then LabelCancelled
            else if r.status in {Expired, ExpiredPayment, StatusPaymentExpired} then LabelExpired
            else LabelFailed,
            TerminalFailure)
    else if CompletedStatus(r.status) || CompletedTask(r.task) || r.completedAt.Some? then
      Class(History, LabelCompleted, Completed)
    else if ActiveStatus(r.status) || OperationalTask(r.task) || OperationalPay(r.pay) then
      if r.task in {TaskInProgress, TaskAssigned, TaskPickedFromProvider, TaskVolunteerStarted} || r.pickedUpAt.Some?
      then Class(Active, LabelInProgress, WorkingOnIt)
      else if r.status == PaymentPending || r.pay == PayPending then Class(Active, LabelPaymentPending, PendingPayment)
      else Class(Active, if r.status == Reserved then LabelReserved else LabelActive, Operational)
    else Class(History, LabelFailed, UnknownInactive)
  }

  predicate IsActive(db: Db, i: nat) {
    i < |db.rows| && Classify(db.rows[i], db.now).group == Active
  }

  predicate IsHistory(db: Db, i: nat) {
    i < |db.rows| && Classify(db.rows[i], db.now).group == History
  }

  /** What a user should be shown and why, from the backend status, the clock and the volunteer alone. */
  function Meaning(r: Reservation, now: int): Class {
    match r.status
    case PaymentPending =>
      if r.paymentExpiresAt.Some? && r.paymentExpiresAt.value <= now then Class(History, LabelExpired, HoldExpired)
      else Class(Active, LabelPaymentPending, PendingPayment)
    case Reserved =>
      if r.volunteer.Some? then Class(Active, LabelInProgress, WorkingOnIt)
      else Class(Active, LabelReserved, Operational)
    case PickedUp => Class(History, LabelCompleted, Completed)
    case Cancelled => Class(History, LabelCancelled, TerminalFailure)
    case CancelledBeforeConfirmation => Class(History, LabelCancelled, TerminalFailure)
    case Expired => Class(History, LabelExpired, TerminalFailure)
    case ExpiredPayment => Class(History, LabelExpired, TerminalFailure)
    case _ => Class(History, LabelFailed, TerminalFailure)
  }

  lemma ClassifiedCell(r: Reservation, p: Option<Payment>, now: int)
    requires CellOk(r, p)
    ensures Classify(r, now) == Meaning(r, now)
  {
  }

  /** The rows the backend can produce are read as they are meant: a row is active exactly while
      it is reserved or waits for a payment in time, and the fallback branch is never taken. */
  lemma ClassifiedAsMeant(db: Db, i: nat)
    requires Reachable(db) && i < |db.rows|
    ensures Classify(db.rows[i], db.now) == Meaning(db.rows[i], db.now)
    ensures IsExpiredPaymentHold(db.rows[i], db.now) <==>
              db.rows[i].status == PaymentPending && Meaning(db.rows[i], db.now).group == History
  {
    ReachableReady(db, i);
    ClassifiedCell(db.rows[i], PayOf(db, i), db.now);
  }

  /** What a run does to the fields the classifier reads. */
  predicate Ages(r: Reservation, now: int, r': Reservation, now': int) {
    now <= now' &&
    (!Live(r) ==> !Live(r')) && (r.status == Reserved ==> r'.status != PaymentPending) &&
    (r.paymentExpiresAt.Some? ==> r'.paymentExpiresAt == r.paymentExpiresAt)
  }

  lemma StepAges(db: Db, step: Step, i: nat)
    requires Reachable(db) && i < |db.rows|
    ensures i < |Apply(db, step).rows| && Ages(db.rows[i], db.now, Apply(db, step).rows[i], Apply(db, step).now)
  {
    ApplyRow(db, step, i);
  }

  lemma {:induction false} RunAges(db: Db, steps: seq<Step>, i: nat)
    requires Reachable(db) && i < |db.rows|
    ensures i < |Run(db, steps).rows| && Ages(db.rows[i], db.now, Run(db, steps).rows[i], Run(db, steps).now)
    decreases |steps|
  {
    if |steps| > 0 {
      RunAges(db, steps[..|steps| - 1], i);
      ReachableRun(db, steps[..|steps| - 1]);
      StepAges(Run(db, steps[..|steps| - 1]), steps[|steps| - 1], i);
    }
  }

  lemma HoldIsUnpaid(db: Db, i: nat)
    requires Reachable(db) && i < |db.rows| && db.rows[i].status == PaymentPending
    ensures db.rows[i].pay == PayPending
  {
    ReachableReady(db, i);
  }

  /** A row that comes back from the history is an expired payment hold that has been confirmed. */
  lemma AgesBack(db: Db, db': Db, i: nat)
    requires Reachable(db) && Reachable(db') && i < |db.rows| && i < |db'.rows|
    requires Ages(db.rows[i], db.now, db'.rows[i], db'.now)
    ensures IsHistory(db, i) && IsActive(db', i) <==>
            IsExpiredPaymentHold(db.rows[i], db.now) && db'.rows[i].status == Reserved
  {
    ClassifiedAsMeant(db, i);
    ClassifiedAsMeant(db', i);
    if db'.rows[i].status == PaymentPending {
      HoldIsUnpaid(db', i);
    }
  }

  /** The payment that confirms a hold past its expiry. */
  predicate Revives(db: Db, step: Step, i: nat) {
    i < |db.rows| && IsExpiredPaymentHold(db.rows[i], db.now) && step == PaidOrder(i) &&
    P.RequestStillPending(db, db.rows[i])
  }

  lemma PaidHoldConfirmed(db: Db, i: nat)
    requires Ready(db, i) && IsExpiredPaymentHold(db.rows[i], db.now) && P.RequestStillPending(db, db.rows[i])
    ensures i < |P.PaidOrder(db, i).rows| && P.PaidOrder(db, i).rows[i].status == Reserved
  {
    PaidHold(db, i);
  }

  lemma ConfirmingEffect(db: Db, step: Step, i: nat)
    requires EffectsOf(db, step).confirms == Some(i)
    ensures step == PaidOrder(i) && i < |db.rows| && P.RequestStillPending(db, db.rows[i])
  {
  }

  lemma ConfirmedIff(db: Db, step: Step, i: nat)
    requires Reachable(db) && i < |db.rows| && IsExpiredPaymentHold(db.rows[i], db.now)
    ensures i < |Apply(db, step).rows| && Apply(db, step).rows[i].status == Reserved <==> Revives(db, step, i)
  {
    if Revives(db, step, i) {
      ReachableReady(db, i);
      PaidHoldConfirmed(db, i);
      PaidOrderApplies(db, i);
    } else {
      NotConfirmed(db, step, i);
    }
  }

  lemma NotConfirmed(db: Db, step: Step, i: nat)
    requires Reachable(db) && i < |db.rows| && IsExpiredPaymentHold(db.rows[i], db.now) && !Revives(db, step, i)
    ensures i < |Apply(db, step).rows| && Apply(db, step).rows[i].status != Reserved
  {
    ApplyRow(db, step, i);
    if EffectsOf(db, step).confirms == Some(i) {
      ConfirmingEffect(db, step, i);
    }
  }

  /** In one step a reservation leaves the history exactly when the step is a payment, the row a hold
      past its expiry, and the rescue request behind it, if any, is still pending. */
  lemma RevivesIff(db: Db, step: Step, i: nat)
    requires Reachable(db) && i < |db.rows|
    ensures IsHistory(db, i) && IsActive(Apply(db, step), i) <==> Revives(db, step, i)
  {
    StepAges(db, step, i);
    ReachableRun(db, [step]);
    OneStep(db, step);
    AgesBack(db, Apply(db, step), i);
    if IsExpiredPaymentHold(db.rows[i], db.now) {
      ConfirmedIff(db, step, i);
    }
  }

  /** It does happen: a payment that arrives after the expiry revives the hold, unless the rescue
      request behind it is no longer pending. */
  lemma LatePaymentRevives(db: Db, i: nat)
    requires Reachable(db) && i < |db.rows| && IsExpiredPaymentHold(db.rows[i], db.now)
    ensures IsHistory(db, i)
    ensures IsActive(P.PaidOrder(db, i), i) <==> P.RequestStillPending(db, db.rows[i])
  {
    ClassifiedAsMeant(db, i);
    RevivesIff(db, PaidOrder(i), i);
    PaidOrderApplies(db, i);
  }

  /** Step `k` of the run revives row `i`. */
  predicate RevivesAt(db: Db, steps: seq<Step>, k: nat, i: nat)
    requires k < |steps|
  {
    Revives(Run(db, steps[..k]), steps[k], i)
  }

  lemma RevivesAtPrefix(db: Db, steps: seq<Step>, n: nat, k: nat, i: nat)
    requires k < n <= |steps|
    ensures RevivesAt(db, steps[..n], k, i) == RevivesAt(db, steps, k, i)
  {
    assert steps[..n][..k] == steps[..k];
  }

  lemma LastStepRevives(db: Db, steps: seq<Step>, n: nat, i: nat)
    requires Reachable(db) && n + 1 == |steps| && i < |db.rows|
    requires !IsActive(Run(db, steps[..n]), i) && IsActive(Run(db, steps), i)
    ensures RevivesAt(db, steps, n, i)
  {
    RunAges(db, steps[..n], i);
    ReachableRun(db, steps[..n]);
    RevivesIff(Run(db, steps[..n]), steps[n], i);
  }

  /** Along any run a reservation leaves the history only through such a payment. */
  lemma {:induction false} LeavesHistoryByPayment(db: Db, steps: seq<Step>, i: nat)
    requires Reachable(db) && IsHistory(db, i) && IsActive(Run(db, steps), i)
    ensures exists k :: 0 <= k < |steps| && RevivesAt(db, steps, k, i)
    decreases |steps|
  {
    if |steps| > 0 {
      var n := |steps| - 1;
      if IsActive(Run(db, steps[..n]), i) {
        LeavesHistoryByPayment(db, steps[..n], i);
        var k :| 0 <= k < n && RevivesAt(db, steps[..n], k, i);
        RevivesAtPrefix(db, steps, n, k, i);
      } else {
        LastStepRevives(db, steps, n, i);
      }
    }
  }
}
