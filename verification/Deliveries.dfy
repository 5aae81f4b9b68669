/** Volunteer tasks (volunteer.controller.js) and their two timeouts
    (StartPickupTimeout.worker.js, StartDeliveryTimeout.worker.js). */
module Deliveries {
  import opened Model
  import opened Changes
  import opened Listings

  predicate ActiveTask(t: Task) {
    t == TaskInProgress || t == TaskPickedFromProvider
  }

  /** The active-task query of `startTask` and of the dashboard. */
  predicate ActiveFor(r: Reservation, v: nat) {
    r.volunteer == Some(v) && r.status == Reserved && ActiveTask(r.task)
  }

  predicate HasActiveTask(rows: seq<Reservation>, v: nat) {
    exists i :: 0 <= i < |rows| && ActiveFor(rows[i], v)
  }

  /** The rows in the unique index `unique_volunteer_active_task`, which looks at the task alone. */
  predicate Indexed(r: Reservation, v: nat) {
    r.volunteer == Some(v) && ActiveTask(r.task)
  }

  predicate InIndex(rows: seq<Reservation>, v: nat) {
    exists i :: 0 <= i < |rows| && Indexed(rows[i], v)
  }

  /** `startTask`. The look for an active task comes before any lock, so another call of the same
      volunteer may commit after it (`raced`); then the index rejects the UPDATE. */
  function StartTask(db: Db, v: nat, i: nat, raced: bool): Result {
    if !raced && HasActiveTask(db.rows, v) then Rejected(409)
    else if i >= |db.rows| then Rejected(404)
    else
      var r := db.rows[i];
      if r.status != Reserved || (r.pay != PayPaid && r.pay != PayNotRequired) then Rejected(409)
      else if r.task != TaskPending then Rejected(409)
      else if InIndex(db.rows, v) then Rejected(409)
      else Done(StartedBy(db, v, i))
  }

  function StartedBy(db: Db, v: nat, i: nat): Db
    requires i < |db.rows|
  {
    Perform(db, i, Quiet(Started(db.rows[i], v, db.now), PayOf(db, i)))
  }

  function Started(r: Reservation, v: nat, now: int): Reservation {
    r.(volunteer := Some(v), task := TaskInProgress, assignedAt := Some(now))
  }

  function CompletionSeconds(r: Reservation, now: int): int {
    if r.assignedAt.Some? then (now - r.assignedAt.value) / 1000 else now / 1000
  }

  function Handed(r: Reservation, now: int): Reservation {
    r.(task := TaskDelivered, status := PickedUp, completedAt := Some(now))
  }

  /** `completeTask`. `codeOk` is the comparison of the receive code. */
  function CompleteTask(db: Db, v: nat, i: nat, codeOk: bool): Result {
    if i >= |db.rows| then Rejected(404)
    else
      var r := db.rows[i];
      if r.volunteer != Some(v) then Rejected(403)
      else if r.pay != PayPaid && r.pay != PayNotRequired then Rejected(409)
      else if r.status != Reserved then Rejected(409)
      else if r.task != TaskPickedFromProvider then Rejected(400)
      else if !codeOk then Rejected(400)
      else Done(DeliveredTo(db, v, i))
  }

  function DeliveredTo(db: Db, v: nat, i: nat): Db
    requires i < |db.rows|
  {
    var r := db.rows[i];
    Perform(db, i, Change(Handed(r, db.now), PayOf(db, i), false, {DepositRefundJob(i)},
                          Delivers(v, CompletionSeconds(r, db.now))))
  }

  /** `retainReliabilityDeposit` throws, and rolls its caller back, when this does not hold. */
  predicate CanRetain(p: Option<Payment>, wanted: bool) {
    wanted ==> p.Some? && Retainable(p.value.depositStatus)
  }

  function Retained(p: Option<Payment>, wanted: bool): Option<Payment> {
    if wanted && p.Some? then Some(p.value.(depositStatus := DepositRetained)) else p
  }

  function Overdue(r: Reservation): Reservation {
    r.(status := Expired, task := TaskFailed)
  }

  /** A task whose time is up: row, penalty and deposit, and the stock when it never left the provider. */
  function TimedOut(db: Db, i: nat, back: bool, isOpen: bool): Db
    requires i < |db.rows| && db.rows[i].volunteer.Some?
  {
    var r, p := db.rows[i], PayOf(db, i);
    var r' := if back then Overdue(r).(stockReserved := false) else Overdue(r);
    Perform(db, i, Change(r', Retained(p, WantsRetention(p, isOpen)), back, {}, Misses(r.volunteer.value)))
  }

  function TimeOut(db: Db, i: nat, back: bool, isOpen: bool): Result
    requires i < |db.rows| && db.rows[i].volunteer.Some?
  {
    if CanRetain(PayOf(db, i), WantsRetention(PayOf(db, i), isOpen)) then Done(TimedOut(db, i, back, isOpen))
      else Rejected(0)
  }

  /** The pickup timeout: stock goes back, the volunteer is penalised. */
  function PickupTimeout(db: Db, i: nat, open: set<nat>): Result {
    if i >= |db.rows| then Rejected(0)
    else
      var r := db.rows[i];
      if r.volunteer.None? || r.task != TaskInProgress || r.status != Reserved then Rejected(0)
      else TimeOut(db, i, true, i in open)
  }

  /** The delivery timeout: the food is gone, so no stock goes back. */
  function DeliveryTimeout(db: Db, i: nat, open: set<nat>): Result {
    if i >= |db.rows| then Rejected(0)
    else
      var r := db.rows[i];
      if r.volunteer.None? || r.task != TaskPickedFromProvider || r.status != Reserved then Rejected(0)
      else TimeOut(db, i, false, i in open)
  }
}
