/** Every transaction that changes one row keeps every law. The invariant is split into the row and
    its payment, the stock of its listing, the volunteer counters, and the rows of one user: a
    transaction that rewrites row `i` and payment `i` has to show only what becomes of these, and the
    lemmas here carry the rest of the state over unchanged. CellSteps has the row and the payment;
    TableSteps has the steps that touch more than one row. */
module Preservation {
  import opened Model
  import opened Stock
  import opened Changes
  import opened Listings
  import opened Reservations
  import opened Deliveries
  import opened Payments
  import opened Refunds
  import opened Cells
  import opened CellSteps
  import opened Invariant

  /** The rows for which a step has a licence, and the volunteer to whose completions it may add. */
  datatype Effects = Effects(loses: Option<nat>, confirms: Option<nat>, settles: Option<nat>, completes: Option<nat>)

  const NOTHING_SPECIAL := Effects(None, None, None, None)

  function LicenceAt(e: Effects, i: nat): Licence {
    Licence(e.loses == Some(i), e.confirms == Some(i), e.settles == Some(i))
  }

  predicate SameCompletions(stats: map<nat, Stats>, stats': map<nat, Stats>, v: nat) {
    StatsOf(stats', v).completed == StatsOf(stats, v).completed &&
    StatsOf(stats', v).average == StatsOf(stats, v).average
  }

  ghost predicate RowsEvolve(db: Db, db': Db, e: Effects) {
    |db.rows| <= |db'.rows| &&
    (forall i :: 0 <= i < |db.rows| ==>
       CellStep(db.rows[i], PayOf(db, i), db'.rows[i], PayOf(db', i), Returned(db'.rows[i]) && !Returned(db.rows[i]),
                LicenceAt(e, i))) &&
    forall i :: |db.rows| <= i < |db'.rows| ==>
      Live(db'.rows[i]) && !AlreadyClaimed(db.rows, db'.rows[i].user, db'.rows[i].listing)
  }

  /** What every committed step does. Rows only move forward, new rows are live and the first claim of
      their user, time and the conversation with the gateway only grow. */
  ghost predicate Evolves(db: Db, db': Db, e: Effects) {
    |db.listings| <= |db'.listings| && db.now <= db'.now && db.calls <= db'.calls && db.answers <= db'.answers &&
    (forall v: nat :: e.completes != Some(v) ==> SameCompletions(db.stats, db'.stats, v)) &&
    RowsEvolve(db, db', e)
  }

  /** The claim proved for every transaction. */
  ghost predicate Keeps(db: Db, result: Result, e: Effects := NOTHING_SPECIAL) {
    result.Done? ==> Inv(result.db) && Evolves(db, result.db, e)
  }

  lemma RowsEvolveByCells(db: Db, db': Db)
    requires CellsOk(db) && |db.rows| <= |db'.rows|
    requires forall i :: 0 <= i < |db.rows| ==> db'.rows[i] == db.rows[i] && PayOf(db', i) == PayOf(db, i)
    requires forall i :: |db.rows| <= i < |db'.rows| ==>
               Live(db'.rows[i]) && !AlreadyClaimed(db.rows, db'.rows[i].user, db'.rows[i].listing)
    ensures RowsEvolve(db, db', NOTHING_SPECIAL)
  {
    forall i | 0 <= i < |db.rows|
      ensures CellStep(db.rows[i], PayOf(db, i), db'.rows[i], PayOf(db', i), false, NO_LICENCE)
    {
      SameCell(db.rows[i], PayOf(db, i));
    }
  }

  /** Every row stays as it is, and what is added is new. */
  lemma EvolvesByCells(db: Db, db': Db)
    requires CellsOk(db) && |db.listings| <= |db'.listings|
    requires db.now <= db'.now && db.calls <= db'.calls && db.answers <= db'.answers && db'.stats == db.stats
    requires |db.rows| <= |db'.rows|
    requires forall i :: 0 <= i < |db.rows| ==> db'.rows[i] == db.rows[i] && PayOf(db', i) == PayOf(db, i)
    requires forall i :: |db.rows| <= i < |db'.rows| ==>
               Live(db'.rows[i]) && !AlreadyClaimed(db.rows, db'.rows[i].user, db'.rows[i].listing)
    ensures Evolves(db, db', NOTHING_SPECIAL)
  {
    RowsEvolveByCells(db, db');
  }

  lemma Still(db: Db)
    requires Inv(db)
    ensures Keeps(db, Done(db))
  {
    EvolvesByCells(db, db);
  }

  lemma PerformRowsEvolve(db: Db, db': Db, i: nat, c: Change, e: Effects)
    requires CellsOk(db) && i < |db.rows| && Performs(db, db', i, c)
    requires ChangeOk(i, db.rows[i], PayOf(db, i), c, LicenceAt(e, i))
    ensures RowsEvolve(db, db', e)
  {
    PerformedRows(db, db', i, c);
    PerformKeepsCells(db, db', i, c);
    forall k | 0 <= k < |db.rows|
      ensures CellStep(db.rows[k], PayOf(db, k), db'.rows[k], PayOf(db', k),
                       Returned(db'.rows[k]) && !Returned(db.rows[k]), LicenceAt(e, k))
    {
      if k != i {
        SameCell(db.rows[k], PayOf(db, k));
      }
    }
  }

  lemma ScoreCompletes(stats: map<nat, Stats>, score: Score, v: nat)
    requires score.Delivers? ==> score.volunteer != v
    ensures SameCompletions(stats, Scored(stats, score), v)
  {
  }

  lemma PerformEvolves(db: Db, db': Db, i: nat, c: Change, e: Effects)
    requires CellsOk(db) && i < |db.rows| && Performs(db, db', i, c)
    requires ChangeOk(i, db.rows[i], PayOf(db, i), c, LicenceAt(e, i))
    requires c.score.Delivers? ==> e.completes == Some(c.score.volunteer)
    ensures Evolves(db, db', e)
  {
    PerformedRows(db, db', i, c);
    PerformRowsEvolve(db, db', i, c, e);
    assert |db'.listings| == |db.listings|;
    forall v: nat | e.completes != Some(v)
      ensures SameCompletions(db.stats, db'.stats, v)
    {
      ScoreCompletes(db.stats, c.score, v);
    }
  }

  /** The lemma behind every transaction that changes one row. */
  lemma StepKeepsLaws(db: Db, db': Db, i: nat, c: Change, e: Effects := NOTHING_SPECIAL)
    requires Inv(db) && i < |db.rows| && StepFits(db, db', i, c)
    requires ChangeOk(i, db.rows[i], PayOf(db, i), c, LicenceAt(e, i))
    requires c.score.Delivers? ==> e.completes == Some(c.score.volunteer)
    ensures Keeps(db, Done(db'), e)
  {
    PerformKeepsInv(db, db', i, c, LicenceAt(e, i));
    PerformEvolves(db, db', i, c, e);
  }

  /** The refund papers of the payment after the change are those of the payment before. */
  predicate SamePapers(p: Option<Payment>, p': Option<Payment>) {
    p'.Some? ==>
      (p'.value.refundId.Some? ==> p.Some? && p'.value.refundId == p.value.refundId) &&
      (p'.value.depositRefundId.Some? ==> p.Some? && p'.value.depositRefundId == p.value.depositRefundId) &&
      (p'.value.status == PayRefunded ==> p.Some? && p.value.status == PayRefunded && p' == p) &&
      (p'.value.depositStatus == DepositRefunded ==> p.Some? && p' == p)
  }

  /** ... and for changes with nothing to prove about orders, refunds or volunteers. */
  lemma ChangeKeepsLaws(db: Db, i: nat, c: Change, e: Effects := NOTHING_SPECIAL)
    requires Inv(db) && i < |db.rows|
    requires ChangeOk(i, db.rows[i], PayOf(db, i), c, LicenceAt(e, i))
    requires c.score.Delivers? ==> e.completes == Some(c.score.volunteer)
    requires SamePapers(PayOf(db, i), c.payment) && MayWork(db, i, c.row)
    ensures Keeps(db, Done(Perform(db, i, c)), e)
  {
    InvReady(db, i);
    StepKeepsLaws(db, Perform(db, i, c), i, c, e);
  }

  // ---------- holds and their release ----------

  lemma CloseHoldKeeps(db: Db, i: nat, status: Status, pay: PayState, p: Option<Payment>)
    requires Inv(db) && i < |db.rows| && IsPendingHold(db.rows[i]) && ReleaseStatus(status, pay)
    requires p == PayOf(db, i) || p == WithStatus(PayOf(db, i), pay)
    ensures Keeps(db, Done(CloseHold(db, i, status, pay, p)))
  {
    InvReady(db, i);
    ReleasedCell(i, db.rows[i], PayOf(db, i), status, pay, p);
    ChangeKeepsLaws(db, i, Change(Released(db.rows[i], status, pay), p, true, {}, Unscored));
  }

  lemma ReleaseHoldKeeps(db: Db, i: nat, status: Status, pay: PayState, allowMissing: bool)
    requires Inv(db) && ReleaseStatus(status, pay)
    ensures Keeps(db, ReleaseHold(db, i, status, pay, allowMissing))
  {
    if i < |db.rows| && IsPendingHold(db.rows[i]) {
      CloseHoldKeeps(db, i, status, pay, WithStatus(PayOf(db, i), pay));
    }
    Still(db);
  }

  lemma CompensateHoldKeeps(db: Db, i: nat)
    requires Inv(db)
    ensures Keeps(db, CompensateHold(db, i))
  {
    if i < |db.rows| && IsPendingHold(db.rows[i]) {
      CloseHoldKeeps(db, i, PaymentFailed, PayFailed, PayOf(db, i));
    }
  }

  function SessionChange(db: Db, i: nat, deposit: nat): Change
    requires i < |db.rows|
  {
    Quiet(db.rows[i].(paymentExpiresAt := Some(db.now + HOLD_TIMEOUT)), Some(NewPayment(deposit)))
  }

  lemma OpenSessionFits(db: Db, i: nat, deposit: nat)
    requires Ready(db, i) && IsPendingHold(db.rows[i]) && i !in db.payments
    ensures StepFits(db, OpenSession(db, i, deposit), i, SessionChange(db, i, deposit))
  {
  }

  lemma OpenSessionKeeps(db: Db, i: nat, deposit: nat)
    requires Inv(db) && i < |db.rows| && IsPendingHold(db.rows[i]) && i !in db.payments
    ensures Keeps(db, Done(OpenSession(db, i, deposit)))
  {
    InvReady(db, i);
    OpenSessionFits(db, i, deposit);
    SessionCell(i, db.rows[i], deposit, Some(db.now + HOLD_TIMEOUT));
    StepKeepsLaws(db, OpenSession(db, i, deposit), i, SessionChange(db, i, deposit));
  }

  // ---------- cancellation and pickup ----------

  lemma MarkPickedUpKeeps(db: Db, provider: nat, i: nat, codeOk: bool)
    requires Inv(db)
    ensures Keeps(db, MarkPickedUp(db, provider, i, codeOk))
  {
    if MarkPickedUp(db, provider, i, codeOk).Done? {
      InvReady(db, i);
      var r, p := db.rows[i], PayOf(db, i);
      if r.pickupType == NgoPickup {
        HandedToVolunteerCell(i, r, p, db.now);
        ChangeKeepsLaws(db, i, Quiet(HandedToVolunteer(r, db.now), p));
      } else {
        CollectedKeeps(db, i);
      }
    }
  }

  lemma CollectedKeeps(db: Db, i: nat)
    requires Inv(db) && i < |db.rows| && db.rows[i].status == Reserved && db.rows[i].pickupType == SelfPickup
    ensures Keeps(db, Done(Perform(db, i,
                                   Change(Collected(db.rows[i], db.now), PayOf(db, i), false, {DepositRefundJob(i)},
                                          Unscored))))
  {
    InvReady(db, i);
    CollectedCell(i, db.rows[i], PayOf(db, i), db.now);
    ChangeKeepsLaws(db, i, Change(Collected(db.rows[i], db.now), PayOf(db, i), false, {DepositRefundJob(i)}, Unscored));
  }

  lemma CancelPaidKeeps(db: Db, i: nat)
    requires Inv(db) && i < |db.rows| && db.rows[i].status == Reserved && Untouched(db.rows[i]) && i in db.payments
    ensures Keeps(db, Done(CancelPaid(db, i)))
  {
    InvReady(db, i);
    var r, p := db.rows[i], db.payments[i];
    CancelPaidCell(i, r, p);
    ChangeKeepsLaws(db, i, Change(Released(r, Cancelled, PayRefundPending), Some(ToRefundPending(p)), true,
                                  {PaymentRefundJob(i)}, Unscored));
  }

  lemma CancelUnpaidKeeps(db: Db, i: nat)
    requires Inv(db) && i < |db.rows| && db.rows[i].status == Reserved && Untouched(db.rows[i]) &&
             db.rows[i].pay != PayPaid
    ensures Keeps(db, Done(CancelUnpaid(db, i, db.rows[i].pay, PayOf(db, i))))
  {
    InvReady(db, i);
    var r, p := db.rows[i], PayOf(db, i);
    CancelUnpaidCell(i, r, p);
    ChangeKeepsLaws(db, i, Change(Released(r, Cancelled, r.pay), p, true, {}, Unscored));
  }

  /** The rows `cancelReservation` meets: the repair at its head and its pending branch are dead. */
  lemma CancelCases(db: Db, user: nat, i: nat)
    requires i < |db.rows| && Ready(db, i) && CancelReservation(db, user, i).Done?
    ensures RepairPaid(db, i) == db
    ensures IsPendingHold(db.rows[i]) || (db.rows[i].status == Reserved && Untouched(db.rows[i]))
    ensures CancelReservation(db, user, i) ==
              if IsPendingHold(db.rows[i]) then ReleaseHold(db, i, CancelledBeforeConfirmation, PayFailed, false)
              else if db.rows[i].pay == PayPaid then Done(CancelPaid(db, i))
              else Done(CancelUnpaid(db, i, db.rows[i].pay, PayOf(db, i)))
    ensures db.rows[i].status == Reserved && db.rows[i].pay == PayPaid ==> i in db.payments
  {
  }

  lemma CancelReservationKeeps(db: Db, user: nat, i: nat)
    requires Inv(db)
    ensures Keeps(db, CancelReservation(db, user, i))
  {
    if CancelReservation(db, user, i).Done? {
      InvReady(db, i);
      CancelCases(db, user, i);
      if IsPendingHold(db.rows[i]) {
        ReleaseHoldKeeps(db, i, CancelledBeforeConfirmation, PayFailed, false);
      } else if db.rows[i].pay == PayPaid {
        CancelPaidKeeps(db, i);
      } else {
        CancelUnpaidKeeps(db, i);
      }
    }
  }

  // ---------- deliveries ----------

  lemma StartTaskKeeps(db: Db, v: nat, i: nat, raced: bool)
    requires Inv(db)
    ensures Keeps(db, StartTask(db, v, i, raced))
  {
    if StartTask(db, v, i, raced).Done? {
      InvReady(db, i);
      var r, p := db.rows[i], PayOf(db, i);
      StartedCell(i, r, p, v, db.now);
      assert forall j :: 0 <= j < |db.rows| ==> !Indexed(db.rows[j], v);
      ChangeKeepsLaws(db, i, Quiet(Started(r, v, db.now), p));
    }
  }

  lemma CompleteTaskKeeps(db: Db, v: nat, i: nat, codeOk: bool)
    requires Inv(db)
    ensures Keeps(db, CompleteTask(db, v, i, codeOk), NOTHING_SPECIAL.(completes := Some(v)))
  {
    if CompleteTask(db, v, i, codeOk).Done? {
      InvReady(db, i);
      var r, p := db.rows[i], PayOf(db, i);
      var seconds := CompletionSeconds(r, db.now);
      HandedCell(i, r, p, db.now, v, seconds);
      ChangeKeepsLaws(db, i, Change(Handed(r, db.now), p, false, {DepositRefundJob(i)}, Delivers(v, seconds)),
                      NOTHING_SPECIAL.(completes := Some(v)));
    }
  }

  lemma TimedOutKeeps(db: Db, i: nat, back: bool, isOpen: bool)
    requires Inv(db) && i < |db.rows| && db.rows[i].status == Reserved && db.rows[i].volunteer.Some?
    requires ActiveTask(db.rows[i].task) && (back <==> db.rows[i].task == TaskInProgress)
    ensures Keeps(db, Done(Deliveries.TimedOut(db, i, back, isOpen)))
  {
    InvReady(db, i);
    var r, p := db.rows[i], PayOf(db, i);
    var r' := if back then Overdue(r).(stockReserved := false) else Overdue(r);
    OverdueCell(i, r, p, WantsRetention(p, isOpen), back);
    ChangeKeepsLaws(db, i, Change(r', Retained(p, WantsRetention(p, isOpen)), back, {}, Misses(r.volunteer.value)));
  }

  lemma PickupTimeoutKeeps(db: Db, i: nat, open: set<nat>)
    requires Inv(db)
    ensures Keeps(db, PickupTimeout(db, i, open))
  {
    if PickupTimeout(db, i, open).Done? {
      TimedOutKeeps(db, i, true, i in open);
    }
  }

  lemma DeliveryTimeoutKeeps(db: Db, i: nat, open: set<nat>)
    requires Inv(db)
    ensures Keeps(db, DeliveryTimeout(db, i, open))
  {
    if DeliveryTimeout(db, i, open).Done? {
      TimedOutKeeps(db, i, false, i in open);
    }
  }

  // ---------- orders ----------

  /** A paid order finds its row waiting, released, or already settled; nothing else is possible. */
  lemma PaidWaiting(db: Db, i: nat)
    requires Ready(db, i) && i in db.payments && IsPendingHold(db.rows[i])
    ensures PaidOrder(db, i)
         == if CanActivate(Paid(db, i), i) then Activated(Paid(db, i), i) else RefundFailedActivation(Paid(db, i), i)
  {
  }

  lemma PaidLate(db: Db, i: nat)
    requires Ready(db, i) && i in db.payments && !IsPendingHold(db.rows[i])
    ensures PaidOrder(db, i) ==
            if (IsReleased(db.rows[i].status) || db.rows[i].status == Cancelled) && db.payments[i].status != PayRefunded
            then RefundLatePayment(db, i) else db
  {
  }

  /** Of the conditions of an activation only the rescue request can fail. */
  lemma HoldActivates(db: Db, i: nat)
    requires Ready(db, i) && i in db.payments && IsPendingHold(db.rows[i])
    ensures db.rows[i].stockReserved && (CanActivate(Paid(db, i), i) <==> RequestStillPending(db, db.rows[i]))
    ensures !CanActivate(Paid(db, i), i) ==> db.rows[i].request.Some?
  {
  }

  /** ... so a paid hold is confirmed as it stands, or refused. */
  lemma PaidHold(db: Db, i: nat)
    requires Ready(db, i) && i in db.payments && IsPendingHold(db.rows[i])
    ensures var r, p := db.rows[i], db.payments[i];
            if RequestStillPending(db, r) then
              PaidOrder(db, i) == Perform(db, i, Quiet(Confirmed(r), Some(p.(status := PayPaid))))
                                  .(requests := AcceptForPayment(db, r))
            else
              r.request.Some? &&
              PaidOrder(db, i) == Perform(db, i,
                                          Change(RefusedRow(r), Some(RefusedPayment(p)), false, {PaymentRefundJob(i)},
                                                 Unscored))
  {
    PaidWaiting(db, i);
    HoldActivates(db, i);
  }

  lemma ActivationFits(db: Db, i: nat)
    requires Ready(db, i) && i in db.payments && IsPendingHold(db.rows[i]) && RequestStillPending(db, db.rows[i])
    ensures StepFits(db, PaidOrder(db, i), i, Quiet(Confirmed(db.rows[i]), Some(db.payments[i].(status := PayPaid))))
  {
    PaidHold(db, i);
  }

  lemma ActivationKeeps(db: Db, i: nat)
    requires Inv(db) && i < |db.rows| && i in db.payments && IsPendingHold(db.rows[i]) &&
             RequestStillPending(db, db.rows[i])
    ensures Keeps(db, Done(PaidOrder(db, i)), NOTHING_SPECIAL.(confirms := Some(i)))
  {
    InvReady(db, i);
    ActivationFits(db, i);
    ConfirmedCell(i, db.rows[i], db.payments[i]);
    var c := Quiet(Confirmed(db.rows[i]), Some(db.payments[i].(status := PayPaid)));
    StepKeepsLaws(db, PaidOrder(db, i), i, c, NOTHING_SPECIAL.(confirms := Some(i)));
  }

  lemma RefusalKeeps(db: Db, i: nat)
    requires Inv(db) && i < |db.rows| && i in db.payments && IsPendingHold(db.rows[i]) &&
             !RequestStillPending(db, db.rows[i])
    ensures Keeps(db, Done(PaidOrder(db, i)), NOTHING_SPECIAL.(loses := Some(i)))
  {
    InvReady(db, i);
    PaidHold(db, i);
    var r, p := db.rows[i], db.payments[i];
    RefusedCell(i, r, p);
    var c := Change(RefusedRow(r), Some(RefusedPayment(p)), false, {PaymentRefundJob(i)}, Unscored);
    ChangeKeepsLaws(db, i, c, NOTHING_SPECIAL.(loses := Some(i)));
  }

  lemma LatePaymentCell(i: nat, r: Reservation, p: Payment)
    requires CellOk(r, Some(p)) && (IsReleased(r.status) || r.status == Cancelled) && p.status != PayRefunded
    ensures ChangeOk(i, r, Some(p), Change(LateRow(r), Some(LatePayment(p)), false, {PaymentRefundJob(i)}, Unscored),
                     NO_LICENCE)
  {
    if IsReleased(r.status) {
      LateCell(i, r, p);
    } else {
      LateAgainCell(i, r, p);
    }
  }

  lemma LatePapers(r: Reservation, p: Payment)
    requires CellOk(r, Some(p)) && p.status != PayRefunded && (IsReleased(r.status) || r.status == Cancelled)
    ensures SamePapers(Some(p), Some(LatePayment(p))) && LateRow(r).status == Cancelled
  {
  }

  lemma LatePaymentKeeps(db: Db, i: nat)
    requires Inv(db) && i < |db.rows| && i in db.payments && db.payments[i].status != PayRefunded
    requires IsReleased(db.rows[i].status) || db.rows[i].status == Cancelled
    ensures Keeps(db, Done(RefundLatePayment(db, i)))
  {
    InvReady(db, i);
    var r, p := db.rows[i], db.payments[i];
    LatePaymentCell(i, r, p);
    LatePapers(r, p);
    ChangeKeepsLaws(db, i, Change(LateRow(r), Some(LatePayment(p)), false, {PaymentRefundJob(i)}, Unscored));
  }

  /** What a paid order may do: confirm its hold, or lose the stock of a hold it cannot confirm. */
  function PaidOrderEffects(db: Db, i: nat): Effects {
    if i < |db.rows| && i in db.payments && IsPendingHold(db.rows[i]) then
      if RequestStillPending(db, db.rows[i]) then NOTHING_SPECIAL.(confirms := Some(i))
      else NOTHING_SPECIAL.(loses := Some(i))
    else NOTHING_SPECIAL
  }

  lemma PaidOrderKeeps(db: Db, i: nat)
    requires Inv(db)
    ensures Keeps(db, Done(PaidOrder(db, i)), PaidOrderEffects(db, i))
  {
    if i !in db.payments {
      Still(db);
    } else if IsPendingHold(db.rows[i]) {
      if RequestStillPending(db, db.rows[i]) {
        ActivationKeeps(db, i);
      } else {
        RefusalKeeps(db, i);
      }
    } else {
      InvReady(db, i);
      PaidLate(db, i);
      if PaidOrder(db, i) == db {
        Still(db);
      } else {
        LatePaymentKeeps(db, i);
      }
    }
  }

  /** The payment row of a recorded order reappears: the order was quoted for this row, so the
      row is still a hold or has been released without a payment. */
  lemma RecoverPaymentKeeps(db: Db, i: nat)
    requires Inv(db)
    ensures Keeps(db, RecoverPayment(db, i))
  {
    if RecoverPayment(db, i).Done? {
      InvReady(db, i);
      SessionCell(i, db.rows[i], db.orders[i], db.rows[i].paymentExpiresAt);
      assert db.rows[i].(paymentExpiresAt := db.rows[i].paymentExpiresAt) == db.rows[i];
      ChangeKeepsLaws(db, i, Quiet(db.rows[i], Some(NewPayment(db.orders[i]))));
    }
  }

  lemma FailedOrderKeeps(db: Db, i: nat, expired: bool)
    requires Inv(db)
    ensures Keeps(db, FailedOrder(db, i, expired))
  {
    Still(db);
    if expired {
      ReleaseHoldKeeps(db, i, ExpiredPayment, PayExpired, false);
    } else {
      ReleaseHoldKeeps(db, i, PaymentFailed, PayFailed, false);
    }
  }

  // ---------- refunds ----------

  lemma PrepareRefundKeeps(db: Db, i: nat, execute: bool)
    requires Inv(db)
    ensures Keeps(db, PrepareRefund(db, i, execute))
  {
    if PrepareRefund(db, i, execute).Done? {
      InvReady(db, i);
      var r, p := db.rows[i], db.payments[i];
      var id := RefundIdFor(db, p.refundId);
      PreparedCell(i, r, p, id);
      var c := Quiet(r.(pay := MarkPending(r.pay)), Some(PreparedPayment(p, id)));
      PreparesRefund(db, i, c, RefundCall(i, PaymentChannel, id), p.refundId);
      StepKeepsLaws(db, PrepareRefund(db, i, execute).db, i, c);
    }
  }

  lemma PrepareDepositRefundKeeps(db: Db, i: nat, execute: bool)
    requires Inv(db)
    ensures Keeps(db, PrepareDepositRefund(db, i, execute))
  {
    if PrepareDepositRefund(db, i, execute).Done? {
      InvReady(db, i);
      assert JobOk(db, DepositRefundJob(i));
      var r, p := db.rows[i], db.payments[i];
      var id := RefundIdFor(db, p.depositRefundId);
      PreparedDepositCell(i, r, p, id);
      var c := Quiet(r, Some(p.(depositStatus := DepositRefundPending, depositRefundId := Some(id))));
      PreparesRefund(db, i, c, RefundCall(i, DepositChannel, id), p.depositRefundId);
      StepKeepsLaws(db, PrepareDepositRefund(db, i, execute).db, i, c);
    }
  }

  /** The id a payment has recorded is in use already; a new one is fresh. */
  lemma PreparesRefund(db: Db, i: nat, c: Change, call: RefundCall, recorded: Option<nat>)
    requires i < |db.rows| && i in db.payments && Proven(db, i) && CallsFit(db) && c.payment.Some? &&
             call.reservation == i
    requires recorded == if call.channel == PaymentChannel then db.payments[i].refundId
                         else db.payments[i].depositRefundId
    requires call.id == RefundIdFor(db, recorded)
    requires if call.channel == PaymentChannel
             then c.row.status == Cancelled && c.payment.value.refundId == Some(call.id)
             else c.row.status == PickedUp && c.payment.value.depositRefundId == Some(call.id)
    ensures PreparesFor(db, Prepared(Perform(db, i, c), call, recorded), i)
    ensures call in Prepared(Perform(db, i, c), call, recorded).prepared
  {
    assert forall k :: k in db.prepared ==> CallOk(db, k);
  }

  function Settling(i: nat, withDeposit: bool): Effects {
    NOTHING_SPECIAL.(settles := if withDeposit then Some(i) else None)
  }

  lemma RecordRefundKeeps(db: Db, i: nat, s: GatewayStatus, withDeposit: bool)
    requires Inv(db) && i < |db.rows| && i in db.payments && db.rows[i].status == Cancelled &&
             db.payments[i].status != PayRefunded
    requires db.payments[i].refundId.Some? &&
             Answer(RefundCall(i, PaymentChannel, db.payments[i].refundId.value), s) in db.answers
    ensures Keeps(db, Done(RecordRefund(db, i, Normalize(s), withDeposit)), Settling(i, withDeposit))
  {
    InvReady(db, i);
    var r, p := db.rows[i], db.payments[i];
    RefundedCell(i, r, p, s, withDeposit);
    var c := Quiet(RefundedRow(r, Normalize(s)), Some(RefundedPayment(p, Normalize(s), withDeposit)));
    StepKeepsLaws(db, Perform(db, i, c), i, c, Settling(i, withDeposit));
  }

  lemma RecordDepositKeeps(db: Db, i: nat, s: GatewayStatus)
    requires Inv(db) && i < |db.rows| && i in db.payments && db.rows[i].status == PickedUp
    requires db.payments[i].depositRefundId.Some?
    requires Answer(RefundCall(i, DepositChannel, db.payments[i].depositRefundId.value), s) in db.answers
    ensures Keeps(db, Done(RecordDeposit(db, i, Normalize(s))))
  {
    InvReady(db, i);
    var r, p := db.rows[i], db.payments[i];
    DepositCell(i, r, p, s);
    var c := Quiet(r, Some(p.(depositStatus := DepositAfter(p.depositStatus, Normalize(s)))));
    StepKeepsLaws(db, Perform(db, i, c), i, c);
  }

  lemma PersistRefundKeeps(db: Db, c: RefundCall, s: GatewayStatus)
    requires Inv(db)
    ensures Keeps(db, PersistRefund(db, c, s), Settling(c.reservation, true))
  {
    if PersistRefund(db, c, s).Done? {
      assert CallOk(db, c);
      RecordRefundKeeps(db, c.reservation, s, true);
    }
  }

  lemma PersistDepositRefundKeeps(db: Db, c: RefundCall, s: GatewayStatus)
    requires Inv(db)
    ensures Keeps(db, PersistDepositRefund(db, c, s))
  {
    var result := PersistDepositRefund(db, c, s);
    if result.Done? {
      if result.db == db {
        Still(db);
      } else {
        assert CallOk(db, c);
        RecordDepositKeeps(db, c.reservation, s);
      }
    }
  }

  /** The refund id names the channel. */
  lemma AnsweredChannel(db: Db, c: RefundCall, s: GatewayStatus)
    requires CallsFit(db) && IdsFit(db.prepared) && AnswersFit(db) && AllProven(db) && Answer(c, s) in db.answers
    ensures CallOk(db, c)
    ensures db.payments[c.reservation].depositRefundId == Some(c.id) <==> c.channel == DepositChannel
    ensures db.payments[c.reservation].refundId == Some(c.id) <==> c.channel == PaymentChannel
  {
    assert Answer(c, s).call in db.calls && CallOk(db, c) && Proven(db, c.reservation);
  }

  lemma RefundEventKeeps(db: Db, c: RefundCall, s: GatewayStatus, allowRetry: bool)
    requires Inv(db)
    ensures Keeps(db, RefundEvent(db, c, s, allowRetry))
  {
    if RefundEvent(db, c, s, allowRetry).Done? {
      AnsweredChannel(db, c, s);
      if c.channel == DepositChannel {
        RecordDepositKeeps(db, c.reservation, s);
      } else {
        RecordRefundKeeps(db, c.reservation, s, false);
      }
    }
  }
}
