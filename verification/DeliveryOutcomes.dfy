/** What pickups, deliveries and their timeouts do, told from outside: who has to do what with which
    code, what the statistics record, and when a deposit is kept. */
module DeliveryOutcomes {
  import opened Model
  import opened Machine
  import opened Frames
  import opened Cells
  import opened Invariant
  import opened Runs
  import C = Changes
  import R = Reservations
  import D = Deliveries

  // ---------- pickup ----------

  /** With the right code the provider of the listing hands the food over: to the volunteer who has
      started the task, or to the user, which ends the reservation and sends its deposit back. */
  ghost predicate MarkPickedUpPromise(db: Db, db': Db, provider: nat, i: nat, codeOk: bool)
    requires i < |db.rows| ==> db.rows[i].listing < |db.listings|
  {
    if i < |db.rows| && db.listings[db.rows[i].listing].provider == provider && db.rows[i].status == Reserved &&
       codeOk &&
       (db.rows[i].pickupType == NgoPickup ==> db.rows[i].task == TaskInProgress)
    then
      OtherRows(db, db', i) && db' == db.(rows := db'.rows, jobs := db'.jobs) &&
      if db.rows[i].pickupType == NgoPickup then
        db'.rows[i] == db.rows[i].(task := TaskPickedFromProvider, pickedUpAt := Some(db.now)) && db'.jobs == db.jobs
      else
        db'.rows[i] == db.rows[i].(task := TaskPickedUp, status := PickedUp, pickedUpAt := Some(db.now),
                                   completedAt := Some(db.now)) &&
        db'.jobs == db.jobs + {DepositRefundJob(i)}
    else db' == db
  }

  lemma MarkPickedUpMeets(db: Db, provider: nat, i: nat, codeOk: bool)
    requires i < |db.rows| ==> Ready(db, i)
    ensures MarkPickedUpPromise(db, After(db, R.MarkPickedUp(db, provider, i, codeOk)), provider, i, codeOk)
  {
    assert C.WithPayment(db.payments, i, PayOf(db, i)) == db.payments;
  }

  // ---------- deliveries ----------

  predicate OnTask(r: Reservation, v: nat) {
    r.volunteer == Some(v) && r.status == Reserved && (r.task == TaskInProgress || r.task == TaskPickedFromProvider)
  }

  /** A volunteer without a task takes one that is waiting. */
  predicate StartTaskPromise(db: Db, db': Db, v: nat, i: nat) {
    if i < |db.rows| && db.rows[i].status == Reserved && db.rows[i].task == TaskPending &&
       forall k :: 0 <= k < |db.rows| ==> !OnTask(db.rows[k], v)
    then
      OtherRows(db, db', i) && db' == db.(rows := db'.rows) &&
      db'.rows[i] == db.rows[i].(volunteer := Some(v), task := TaskInProgress, assignedAt := Some(db.now))
    else db' == db
  }

  lemma StartTaskMeets(db: Db, v: nat, i: nat, raced: bool)
    requires forall k: nat :: k < |db.rows| ==> Ready(db, k)
    ensures StartTaskPromise(db, After(db, D.StartTask(db, v, i, raced)), v, i)
  {
    forall k | 0 <= k < |db.rows| ensures D.Indexed(db.rows[k], v) <==> OnTask(db.rows[k], v) {
      assert Ready(db, k);
    }
    if i < |db.rows| {
      assert Ready(db, i);
      assert C.WithPayment(db.payments, i, PayOf(db, i)) == db.payments;
    }
  }

  /** The statistics after one more completion of `seconds`: the average is rounded down. */
  predicate CompletionCounted(s: Stats, s': Stats, seconds: int) {
    s'.completed == s.completed + 1 && s'.timeouts == s.timeouts &&
    s'.average * s'.completed <= s.average * s.completed + seconds < (s'.average + 1) * s'.completed
  }

  /** With the right code the volunteer of the task completes it. The time from its start to its end
      counts in whole seconds. */
  ghost predicate CompleteTaskPromise(db: Db, db': Db, v: nat, i: nat, codeOk: bool) {
    if i < |db.rows| && OnTask(db.rows[i], v) && db.rows[i].task == TaskPickedFromProvider && codeOk then
      OtherRows(db, db', i) && OtherStats(db, db', v) &&
      db' == db.(rows := db'.rows, stats := db'.stats, jobs := db.jobs + {DepositRefundJob(i)}) &&
      db'.rows[i] == db.rows[i].(task := TaskDelivered, status := PickedUp, completedAt := Some(db.now)) &&
      db.rows[i].assignedAt.Some? &&
      exists seconds ::
        seconds * 1000 <= db.now - db.rows[i].assignedAt.value < (seconds + 1) * 1000 &&
        CompletionCounted(StatsOf(db.stats, v), StatsOf(db'.stats, v), seconds)
    else db' == db
  }

  lemma AverageCounts(s: Stats, seconds: int)
    ensures CompletionCounted(s, C.AfterCompletion(s, seconds), seconds)
  {
    var n := s.completed + 1;
    var total := s.average * s.completed + seconds;
    assert total == n * (total / n) + total % n;
  }

  lemma SecondsMeasured(r: Reservation, now: int)
    requires r.assignedAt.Some?
    ensures var seconds := D.CompletionSeconds(r, now);
            seconds * 1000 <= now - r.assignedAt.value < (seconds + 1) * 1000
  {
  }

  lemma CompleteTaskMeets(db: Db, v: nat, i: nat, codeOk: bool)
    requires i < |db.rows| ==> Ready(db, i)
    ensures CompleteTaskPromise(db, After(db, D.CompleteTask(db, v, i, codeOk)), v, i, codeOk)
  {
    if D.CompleteTask(db, v, i, codeOk).Done? {
      assert C.WithPayment(db.payments, i, PayOf(db, i)) == db.payments;
      var seconds := D.CompletionSeconds(db.rows[i], db.now);
      SecondsMeasured(db.rows[i], db.now);
      AverageCounts(StatsOf(db.stats, v), seconds);
      assert CompletionCounted(StatsOf(db.stats, v), StatsOf(D.DeliveredTo(db, v, i).stats, v), seconds);
    }
  }

  // ---------- timeouts ----------

  /** The deposit of reservation `i` is kept exactly when there is one and its operation is open. */
  ghost predicate DepositKept(db: Db, db': Db, i: nat, open: set<nat>) {
    PayOf(db', i) ==
    if i in db.payments && db.payments[i].deposit > 0 && i in open
    then Some(db.payments[i].(depositStatus := DepositRetained)) else PayOf(db, i)
  }

  /** The task has failed: its volunteer is penalised and the deposit decided. */
  ghost predicate TaskFails(db: Db, db': Db, i: nat, open: set<nat>) {
    OnlyRow(db, db', i) && DepositKept(db, db', i, open) &&
    db' == db.(rows := db'.rows, payments := db'.payments, stats := db'.stats, listings := db'.listings,
               returned := db'.returned) &&
    db.rows[i].volunteer.Some? &&
    var v := db.rows[i].volunteer.value;
    OtherStats(db, db', v) &&
    StatsOf(db'.stats, v) == StatsOf(db.stats, v).(timeouts := StatsOf(db.stats, v).timeouts + 1)
  }

  /** A volunteer who never reached the provider: the food is on offer again. */
  ghost predicate PickupTimeoutPromise(db: Db, db': Db, i: nat, open: set<nat>) {
    if i < |db.rows| && db.rows[i].status == Reserved && db.rows[i].task == TaskInProgress then
      TaskFails(db, db', i, open) && StockReturns(db, db', i) &&
      db'.rows[i] == db.rows[i].(status := Expired, task := TaskFailed, stockReserved := false)
    else db' == db
  }

  /** A volunteer who took the food and never arrived: it is gone. */
  ghost predicate DeliveryTimeoutPromise(db: Db, db': Db, i: nat, open: set<nat>) {
    if i < |db.rows| && db.rows[i].status == Reserved && db.rows[i].task == TaskPickedFromProvider then
      TaskFails(db, db', i, open) && StockStays(db, db') &&
      db'.rows[i] == db.rows[i].(status := Expired, task := TaskFailed)
    else db' == db
  }

  lemma TimedOutFails(db: Db, i: nat, back: bool, open: set<nat>)
    requires Ready(db, i) && db.rows[i].status == Reserved && db.rows[i].volunteer.Some?
    ensures D.TimeOut(db, i, back, i in open) == Done(D.TimedOut(db, i, back, i in open))
    ensures TaskFails(db, D.TimedOut(db, i, back, i in open), i, open)
  {
  }

  lemma PickupTimeoutMeets(db: Db, i: nat, open: set<nat>)
    requires i < |db.rows| ==> Ready(db, i)
    ensures PickupTimeoutPromise(db, After(db, D.PickupTimeout(db, i, open)), i, open)
  {
    if D.PickupTimeout(db, i, open).Done? {
      TimedOutFails(db, i, true, open);
    }
  }

  lemma DeliveryTimeoutMeets(db: Db, i: nat, open: set<nat>)
    requires i < |db.rows| ==> Ready(db, i)
    ensures DeliveryTimeoutPromise(db, After(db, D.DeliveryTimeout(db, i, open)), i, open)
  {
    if D.DeliveryTimeout(db, i, open).Done? {
      TimedOutFails(db, i, false, open);
    }
  }

  // ---------- the steps ----------

  lemma MarkPickedUpPromised(db: Db, provider: nat, i: nat, codeOk: bool)
    requires Reachable(db)
    ensures i < |db.rows| ==> db.rows[i].listing < |db.listings|
    ensures MarkPickedUpPromise(db, Apply(db, MarkPickedUp(provider, i, codeOk)), provider, i, codeOk)
  {
    RowsReady(db);
    MarkPickedUpMeets(db, provider, i, codeOk);
    MarkPickedUpApplies(db, provider, i, codeOk);
  }

  lemma StartTaskPromised(db: Db, v: nat, i: nat, raced: bool)
    requires Reachable(db)
    ensures StartTaskPromise(db, Apply(db, StartTask(v, i, raced)), v, i)
  {
    RowsReady(db);
    StartTaskMeets(db, v, i, raced);
    StartTaskApplies(db, v, i, raced);
  }

  lemma CompleteTaskPromised(db: Db, v: nat, i: nat, codeOk: bool)
    requires Reachable(db)
    ensures CompleteTaskPromise(db, Apply(db, CompleteTask(v, i, codeOk)), v, i, codeOk)
  {
    RowsReady(db);
    CompleteTaskMeets(db, v, i, codeOk);
    CompleteTaskApplies(db, v, i, codeOk);
  }

  lemma PickupTimeoutPromised(db: Db, i: nat, open: set<nat>)
    requires Reachable(db)
    ensures PickupTimeoutPromise(db, Apply(db, PickupTimeout(i, open)), i, open)
  {
    RowsReady(db);
    PickupTimeoutMeets(db, i, open);
    PickupTimeoutApplies(db, i, open);
  }

  lemma DeliveryTimeoutPromised(db: Db, i: nat, open: set<nat>)
    requires Reachable(db)
    ensures DeliveryTimeoutPromise(db, Apply(db, DeliveryTimeout(i, open)), i, open)
  {
    RowsReady(db);
    DeliveryTimeoutMeets(db, i, open);
    DeliveryTimeoutApplies(db, i, open);
  }
}
