/** Tests of a reservation's state that were written independently of each other, and branches
    that no run can reach. */
module StatusTests {
  import opened Model
  import opened Stock
  import R = Reservations
  import opened Machine
  import opened Runs
  import D = Deliveries
  import P = Payments
  import V = Invariant
  import W = Laws

  /** `isReservationReviewEligible`. */
  predicate ReviewEligible(r: Reservation) {
    match r.pickupType
    case SelfPickup => r.status == PickedUp || r.completedAt.Some?
    case NgoPickup => r.task == TaskDelivered || r.completedAt.Some?
  }

  predicate TerminalTask(t: Task) {
    t in {TaskCompleted, TaskDelivered, TaskFailed, TaskExpired, TaskCancelled, TaskPickedUp}
  }

  predicate TerminalStatus(s: Status) {
    s in {StatusCompleted, StatusDelivered, StatusFailed, Expired, Cancelled, PickedUp}
  }

  /** `isActiveVolunteerTask`. */
  predicate IsActiveVolunteerTask(r: Reservation) {
    r.status == Reserved && D.ActiveTask(r.task) && !TerminalTask(r.task) && !TerminalStatus(r.status) &&
      r.completedAt.None?
  }

  /** A review may be written exactly for the food that was collected, however one asks. */
  lemma ReviewTestsAgree(db: Db, i: nat)
    requires Reachable(db) && i < |db.rows|
    ensures var r := db.rows[i];
            (ReviewEligible(r) <==> r.status == PickedUp) &&
            (r.completedAt.Some? <==> r.status == PickedUp) &&
            (r.status == PickedUp ==> r.pickedUpAt.Some?)
  {
    ReachableReady(db, i);
  }

  /** The predicate in JavaScript and the WHERE clause select the same tasks. */
  lemma TaskTestsAgree(db: Db, i: nat, v: nat)
    requires Reachable(db) && i < |db.rows|
    ensures D.ActiveFor(db.rows[i], v) <==> db.rows[i].volunteer == Some(v) && IsActiveVolunteerTask(db.rows[i])
    ensures IsActiveVolunteerTask(db.rows[i]) ==> db.rows[i].volunteer.Some?
  {
    ReachableReady(db, i);
  }

  /** Of the lists of names in the lock predicate two statuses matter. */
  lemma LockTestsAgree(db: Db, i: nat)
    requires Reachable(db) && i < |db.rows|
    ensures var r := db.rows[i];
            (Blocking(r) <==> r.status == Reserved || r.status == PickedUp) &&
            (IsPendingHold(r) <==> r.status == PaymentPending) &&
            (CancelledBlocking(r) <==> r.status == Cancelled)
  {
    ReachableReady(db, i);
  }

  /** The third unique index keeps a volunteer to one task, whatever the status of the rows. */
  lemma TaskIndexHolds(db: Db, i: nat, j: nat, v: nat)
    requires Reachable(db) && i < |db.rows| && j < |db.rows| && D.Indexed(db.rows[i], v) && D.Indexed(db.rows[j], v)
    ensures i == j
  {
    IndexedIsActive(db, i, v);
    IndexedIsActive(db, j, v);
    W.OneTaskAtATime(db, i, j, v);
  }

  lemma IndexedIsActive(db: Db, i: nat, v: nat)
    requires Reachable(db) && i < |db.rows|
    ensures D.Indexed(db.rows[i], v) <==> D.ActiveFor(db.rows[i], v)
  {
    ReachableReady(db, i);
  }

  /** So the look for an active task before the lock decides nothing: with or without it the same
      tasks can be started. */
  lemma EarlyLookDecidesNothing(db: Db, v: nat, i: nat)
    ensures D.StartTask(db, v, i, true).Done? <==> D.StartTask(db, v, i, false).Done?
  {
  }

  /** No reservation is confirmed without its money: the branch of `cancelReservation` for reserved
      rows with a pending payment is dead, and so is the repair at its head. */
  lemma CancelBranchesDead(db: Db, i: nat)
    requires Reachable(db) && i < |db.rows|
    ensures db.rows[i].status == Reserved ==> db.rows[i].pay == PayPaid || db.rows[i].pay == PayNotRequired
    ensures R.RepairPaid(db, i) == db
  {
    ReachableReady(db, i);
  }

  /** Who may cancel a row, and when. */
  predicate MayCancel(db: Db, user: nat, i: nat) {
    i < |db.rows| && db.rows[i].user == user &&
    match db.rows[i].status
    case PaymentPending => i in db.payments
    case Reserved =>
      if db.rows[i].pickupType == NgoPickup then db.rows[i].task == TaskPending
      else
        db.rows[i].listing < |db.listings| &&
        db.now <= db.listings[db.rows[i].listing].deadline - CANCELLATION_CUTOFF
    case _ => false
  }

  lemma CancelReady(db: Db, user: nat, i: nat)
    requires V.Ready(db, i)
    ensures R.CancelReservation(db, user, i).Done? <==> MayCancel(db, user, i)
  {
  }

  /** With those branches gone `cancelReservation` is simple. */
  lemma CancelSucceedsIff(db: Db, user: nat, i: nat)
    requires Reachable(db)
    ensures R.CancelReservation(db, user, i).Done? <==> MayCancel(db, user, i)
  {
    if i < |db.rows| {
      ReachableReady(db, i);
      CancelReady(db, user, i);
    }
  }

  /** A pending hold always carries its stock: the branch of the activation that takes stock again
      is dead. What stops an activation is only a rescue request that is no longer pending. */
  lemma ActivationTakesNoStock(db: Db, i: nat)
    requires Reachable(db) && i < |db.rows| && IsPendingHold(db.rows[i])
    ensures db.rows[i].stockReserved
    ensures P.CanActivate(db, i) <==> P.RequestStillPending(db, db.rows[i])
    ensures P.CanActivate(db, i) ==> P.Activated(db, i).listings == db.listings
  {
    ReachableReady(db, i);
  }

  /** The two unique indexes on reservations are never violated: at most one blocking row and one
      pending hold for each user and listing. */
  lemma UniqueIndexesHold(db: Db, i: nat, j: nat)
    requires Reachable(db) && i < |db.rows| && j < |db.rows|
    requires db.rows[i].user == db.rows[j].user && db.rows[i].listing == db.rows[j].listing
    requires (Blocking(db.rows[i]) && Blocking(db.rows[j])) || (IsPendingHold(db.rows[i]) && IsPendingHold(db.rows[j]))
    ensures i == j
  {
    LockTestsAgree(db, i);
    LockTestsAgree(db, j);
    W.OneLiveClaim(db, i, j);
  }
}
