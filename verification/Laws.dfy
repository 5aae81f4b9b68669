/** The main results about the marketplace: what holds in every reachable state, and along every run. */
module Laws {
  import opened Model
  import opened Stock
  import opened Machine
  import opened Cells
  import opened Sums
  import opened Invariant
  import opened Preservation
  import opened Runs
  import P = Payments
  import D = Deliveries

  // ---------- conservation of stock ----------

  /** The rows that are meant to account for stock that is not on offer: waiting for payment,
      reserved, collected, or lost after the food left the provider. */
  predicate MeantToHold(r: Reservation) {
    r.status == PaymentPending || r.status == Reserved || r.status == PickedUp ||
    (r.status == Expired && r.pickedUpAt.Some?)
  }

  function MeantOn(l: nat): Reservation -> int {
    (r: Reservation) => if r.listing == l && MeantToHold(r) then r.quantity else 0
  }

  function LeakedOn(l: nat): Reservation -> int {
    (r: Reservation) => if r.listing == l && Leaked(r) then r.quantity else 0
  }

  lemma HeldIsMeantOrLeaked(r: Reservation, p: Option<Payment>, l: nat)
    requires CellOk(r, p)
    ensures MeantOn(l)(r) == Held(r, l) - LeakedOn(l)(r) && Held(r, l) >= 0 && r.quantity > 0
  {
  }

  lemma HeldSums(db: Db, l: nat)
    requires CellsOk(db)
    ensures Sum(db.rows, MeantOn(l)) == Sum(db.rows, HeldOn(l)) - Sum(db.rows, LeakedOn(l)) &&
            Sum(db.rows, HeldOn(l)) >= 0
    ensures forall i :: 0 <= i < |db.rows| ==> db.rows[i].quantity > 0
  {
    forall i | 0 <= i < |db.rows|
      ensures MeantOn(l)(db.rows[i]) == HeldOn(l)(db.rows[i]) - LeakedOn(l)(db.rows[i])
      ensures HeldOn(l)(db.rows[i]) >= 0 && db.rows[i].quantity > 0
    {
      HeldIsMeantOrLeaked(db.rows[i], PayOf(db, i), l);
    }
    SumDifference(db.rows, HeldOn(l), LeakedOn(l), MeantOn(l));
    SumNonNegative(db.rows, HeldOn(l));
  }

  /** A listing's quantity is what is on offer, plus what its reservations are meant to hold, plus
      what failed activations have leaked. Nothing else ever happens to stock. */
  lemma StockConserved(db: Db, l: nat)
    requires Reachable(db) && l < |db.listings|
    ensures db.listings[l].quantity == db.listings[l].remaining + Sum(db.rows, MeantOn(l)) + Sum(db.rows, LeakedOn(l))
    ensures 0 <= db.listings[l].remaining <= db.listings[l].quantity
  {
    ReachableInv(db);
    HeldSums(db, l);
  }

  predicate NoneLeaked(rows: seq<Reservation>, l: nat) {
    forall i :: 0 <= i < |rows| ==> !(rows[i].listing == l && Leaked(rows[i]))
  }

  lemma {:induction false} LeakIsPositive(rows: seq<Reservation>, l: nat)
    requires forall i :: 0 <= i < |rows| ==> rows[i].quantity > 0
    ensures Sum(rows, LeakedOn(l)) >= 0
    ensures Sum(rows, LeakedOn(l)) == 0 <==> NoneLeaked(rows, l)
  {
    if |rows| > 0 {
      var n := |rows| - 1;
      assert forall i :: 0 <= i < n ==> rows[..n][i] == rows[i];
      LeakIsPositive(rows[..n], l);
      assert NoneLeaked(rows, l) <==> NoneLeaked(rows[..n], l) && !(rows[n].listing == l && Leaked(rows[n]));
    }
  }

  /** The law as it is meant. */
  predicate Balanced(db: Db, l: nat)
    requires l < |db.listings|
  {
    db.listings[l].quantity == db.listings[l].remaining + Sum(db.rows, MeantOn(l))
  }

  /** It holds of a listing exactly when none of its cancelled rows still carries the stock mark. */
  lemma ConservationIff(db: Db, l: nat)
    requires Reachable(db) && l < |db.listings|
    ensures Balanced(db, l) <==> NoneLeaked(db.rows, l)
  {
    StockConserved(db, l);
    AllQuantities(db);
    LeakIsPositive(db.rows, l);
  }

  lemma AllQuantities(db: Db)
    requires Reachable(db)
    ensures forall i :: 0 <= i < |db.rows| ==> db.rows[i].quantity > 0
  {
    forall i | 0 <= i < |db.rows| ensures db.rows[i].quantity > 0 {
      ReachableReady(db, i);
    }
  }

  /** A payment arrives for the hold of an accepted rescue request that is no longer pending. The
      caller can see this before the step. */
  predicate LosesStockOf(db: Db, step: Step, i: nat) {
    step == PaidOrder(i) && i < |db.rows| && i in db.payments && IsPendingHold(db.rows[i]) &&
    !P.RequestStillPending(db, db.rows[i])
  }

  predicate LeakedAt(db: Db, i: nat) {
    i < |db.rows| && Leaked(db.rows[i])
  }

  lemma LossyStepLeaks(db: Db, i: nat)
    requires Ready(db, i) && LosesStockOf(db, PaidOrder(i), i)
    ensures LeakedAt(P.PaidOrder(db, i), i)
  {
    PaidHold(db, i);
  }

  /** A step makes a row leak exactly when it is such a payment for this row; and what has leaked
      stays lost. */
  lemma LeakIff(db: Db, step: Step, i: nat)
    requires Reachable(db)
    ensures LeakedAt(Apply(db, step), i) <==> LeakedAt(db, i) || LosesStockOf(db, step, i)
  {
    if LosesStockOf(db, step, i) {
      ReachableReady(db, i);
      LossyStepLeaks(db, i);
      PaidOrderApplies(db, i);
    } else {
      OnlyLossyStepsLeak(db, step, i);
    }
  }

  lemma OnlyLossyStepsLeak(db: Db, step: Step, i: nat)
    requires Reachable(db) && !LosesStockOf(db, step, i)
    ensures LeakedAt(Apply(db, step), i) <==> LeakedAt(db, i)
  {
    if i < |db.rows| {
      LosingEffect(db, step, i);
      ApplyRow(db, step, i);
    } else if i < |Apply(db, step).rows| {
      ApplyNewRow(db, step, i);
    }
  }

  lemma LosingEffect(db: Db, step: Step, i: nat)
    ensures EffectsOf(db, step).loses == Some(i) <==> LosesStockOf(db, step, i)
  {
  }

  /** Step `k` of the run loses the stock of row `i`. */
  predicate LosesAt(start: int, steps: seq<Step>, k: nat, i: nat)
    requires k < |steps|
  {
    LosesStockOf(Run(EmptyDb(start), steps[..k]), steps[k], i)
  }

  lemma LosesAtPrefix(start: int, steps: seq<Step>, n: nat, k: nat, i: nat)
    requires k < n <= |steps|
    ensures LosesAt(start, steps[..n], k, i) == LosesAt(start, steps, k, i)
  {
    assert steps[..n][..k] == steps[..k];
  }

  /** Some step of the run loses it. */
  predicate LosesIn(start: int, steps: seq<Step>, i: nat) {
    exists k :: 0 <= k < |steps| && LosesAt(start, steps, k, i)
  }

  lemma LosesSooner(start: int, steps: seq<Step>, n: nat, i: nat)
    requires n + 1 == |steps|
    ensures LosesIn(start, steps, i) <==> LosesAt(start, steps, n, i) || LosesIn(start, steps[..n], i)
  {
    forall k | 0 <= k < n
      ensures LosesAt(start, steps[..n], k, i) == LosesAt(start, steps, k, i)
    {
      LosesAtPrefix(start, steps, n, k, i);
    }
  }

  lemma StepLoses(start: int, steps: seq<Step>, n: nat, i: nat)
    requires n + 1 == |steps|
    ensures LeakedAt(Run(EmptyDb(start), steps), i) <==>
              LeakedAt(Run(EmptyDb(start), steps[..n]), i) || LosesAt(start, steps, n, i)
  {
    assert Reachable(Run(EmptyDb(start), steps[..n]));
    LeakIff(Run(EmptyDb(start), steps[..n]), steps[n], i);
  }

  /** A row has leaked in a run exactly when some step of the run made it leak. */
  lemma {:induction false} LeakedSince(start: int, steps: seq<Step>, i: nat)
    ensures LeakedAt(Run(EmptyDb(start), steps), i) <==> LosesIn(start, steps, i)
    decreases |steps|
  {
    if |steps| > 0 {
      LeakedSince(start, steps[..|steps| - 1], i);
      StepLoses(start, steps, |steps| - 1, i);
      LosesSooner(start, steps, |steps| - 1, i);
    }
  }

  /** After a run the balance of a listing is off exactly when some step of the run was such a payment
      for one of its rows. */
  lemma BalanceFailsIff(start: int, steps: seq<Step>, l: nat)
    requires l < |Run(EmptyDb(start), steps).listings|
    ensures var end := Run(EmptyDb(start), steps);
            !Balanced(end, l) <==>
            exists i: nat :: i < |end.rows| && end.rows[i].listing == l && LosesIn(start, steps, i)
  {
    var end := Run(EmptyDb(start), steps);
    assert Reachable(end);
    ConservationIff(end, l);
    forall i: nat | i < |end.rows|
      ensures Leaked(end.rows[i]) <==> LosesIn(start, steps, i)
    {
      LeakedSince(start, steps, i);
    }
  }

  // ---------- every unit goes back at most once ----------

  /** In every reachable state each row's stock has gone back once or not at all: once exactly when
      the row is not meant to hold it any more and has not leaked it, never once it was collected. */
  lemma ExactlyOnceRelease(db: Db, i: nat)
    requires Reachable(db)
    ensures db.returned[i] <= 1
    ensures db.returned[i] == 1 <==> i < |db.rows| && !MeantToHold(db.rows[i]) && !Leaked(db.rows[i])
    ensures i < |db.rows| && db.rows[i].pickedUpAt.Some? ==> db.returned[i] == 0
  {
    ReachableInv(db);
    if i < |db.rows| {
      ReturnedMeans(db.rows[i], PayOf(db, i));
    }
  }

  lemma ReturnedMeans(r: Reservation, p: Option<Payment>)
    requires CellOk(r, p)
    ensures Returned(r) <==> !MeantToHold(r) && !Leaked(r)
    ensures r.pickedUpAt.Some? ==> !Returned(r)
  {
  }

  /** ... and a return stays a return: later steps neither repeat nor undo it. */
  lemma {:induction false} ReturnIsFinal(db: Db, steps: seq<Step>, i: nat)
    requires Reachable(db) && db.returned[i] == 1
    ensures Run(db, steps).returned[i] == 1
    decreases |steps|
  {
    if |steps| > 0 {
      ReturnIsFinal(db, steps[..|steps| - 1], i);
      ReachableRun(db, steps[..|steps| - 1]);
      StepKeepsReturn(Run(db, steps[..|steps| - 1]), steps[|steps| - 1], i);
    }
  }

  lemma ReturnedOnce(db: Db, i: nat)
    requires Reachable(db)
    ensures db.returned[i] == (if i < |db.rows| && Returned(db.rows[i]) then 1 else 0)
  {
    ReachableInv(db);
  }

  lemma StepKeepsReturn(db: Db, step: Step, i: nat)
    requires Reachable(db) && db.returned[i] == 1
    ensures Apply(db, step).returned[i] == 1
  {
    ReturnedOnce(db, i);
    ApplyRow(db, step, i);
    ReachableRun(db, [step]);
    OneStep(db, step);
    ReturnedOnce(Apply(db, step), i);
  }

  // ---------- refunds ----------

  lemma CallFits(db: Db, c: RefundCall)
    requires Reachable(db) && c in db.calls
    ensures CallOk(db, c) && c in db.prepared
  {
    ReachableInv(db);
  }

  /** The gateway is asked to refund a reservation under one id and through one channel only,
      whatever crashes, retries and webhooks do; an idempotent gateway pays at most once. */
  lemma RefundedAtMostOnce(db: Db, c: RefundCall, c': RefundCall)
    requires Reachable(db) && c in db.calls && c' in db.calls && c.reservation == c'.reservation
    ensures c == c'
  {
    CallFits(db, c);
    CallFits(db, c');
  }

  /** Refunds of different reservations go out under different ids, so that none is taken for a repeat. */
  lemma RefundIdsDiffer(db: Db, c: RefundCall, c': RefundCall)
    requires Reachable(db) && c in db.calls && c' in db.calls && c.id == c'.id
    ensures c == c'
  {
    ReachableInv(db);
  }

  lemma AnswerHasCall(db: Db, c: RefundCall, s: GatewayStatus)
    requires Reachable(db) && Answer(c, s) in db.answers
    ensures c in db.calls
  {
    ReachableInv(db);
    assert Answer(c, s).call == c;
  }

  /** Payment and reservation agree about a finished refund, and the gateway has confirmed it. */
  lemma RefundedMeansSuccess(db: Db, i: nat)
    requires Reachable(db) && i in db.payments
    ensures i < |db.rows|
    ensures db.payments[i].status == PayRefunded <==> db.rows[i].pay == PayRefunded
    ensures db.payments[i].status == PayRefunded ==>
              exists c :: c in db.calls && c.reservation == i && c.channel == PaymentChannel &&
                          Answer(c, GatewaySuccess) in db.answers
  {
    PaymentHasRow(db, i);
    ReachableReady(db, i);
    if db.payments[i].status == PayRefunded {
      AnswerHasCall(db, RefundCall(i, PaymentChannel, db.payments[i].refundId.value), GatewaySuccess);
    }
  }

  lemma PaymentHasRow(db: Db, i: nat)
    requires Reachable(db) && i in db.payments
    ensures i < |db.rows|
  {
    ReachableInv(db);
  }

  /** A refunded deposit has been confirmed by the gateway too, on its own or with the whole payment. */
  lemma DepositRefundedMeansSuccess(db: Db, i: nat)
    requires Reachable(db) && i in db.payments && db.payments[i].depositStatus == DepositRefunded
    ensures exists c :: c in db.calls && c.reservation == i && Answer(c, GatewaySuccess) in db.answers &&
                        (c.channel == PaymentChannel <==> db.payments[i].status == PayRefunded)
  {
    PaymentHasRow(db, i);
    ReachableReady(db, i);
    if db.payments[i].status == PayRefunded {
      AnswerHasCall(db, RefundCall(i, PaymentChannel, db.payments[i].refundId.value), GatewaySuccess);
    } else {
      AnswerHasCall(db, RefundCall(i, DepositChannel, db.payments[i].depositRefundId.value), GatewaySuccess);
    }
  }

  /** The refund ids of a payment are written once, its deposit amount never changes, a settled
      deposit stays settled, and once the payment is refunded nothing about it changes. */
  predicate PaymentFrozen(p: Payment, p': Payment) {
    (p.refundId.Some? ==> p'.refundId == p.refundId) &&
    (p.depositRefundId.Some? ==> p'.depositRefundId == p.depositRefundId) &&
    p'.deposit == p.deposit &&
    (p.status == PayRefunded ==> p' == p) &&
    (p.depositStatus == DepositRefunded || p.depositStatus == DepositRetained ==> p'.depositStatus == p.depositStatus)
  }

  lemma StepFreezesPayment(db: Db, step: Step, i: nat)
    requires Reachable(db) && i in db.payments
    ensures i in Apply(db, step).payments && PaymentFrozen(db.payments[i], Apply(db, step).payments[i])
    ensures !TriggerRaises(db.payments[i], Apply(db, step).payments[i])
  {
    PaymentHasRow(db, i);
    ApplyRow(db, step, i);
    assert PaymentStep(PayOf(db, i), PayOf(Apply(db, step), i));
  }

  lemma {:induction false} PaymentNeverReverts(db: Db, steps: seq<Step>, i: nat)
    requires Reachable(db) && i in db.payments
    ensures i in Run(db, steps).payments && PaymentFrozen(db.payments[i], Run(db, steps).payments[i])
    decreases |steps|
  {
    if |steps| > 0 {
      PaymentNeverReverts(db, steps[..|steps| - 1], i);
      ReachableRun(db, steps[..|steps| - 1]);
      StepFreezesPayment(Run(db, steps[..|steps| - 1]), steps[|steps| - 1], i);
    }
  }

  /** The database trigger that forbids illegal payment transitions never has to raise. */
  lemma TriggerNeverRaises(db: Db, step: Step, i: nat)
    requires Reachable(db) && i in db.payments
    ensures i in Apply(db, step).payments && !TriggerRaises(db.payments[i], Apply(db, step).payments[i])
  {
    StepFreezesPayment(db, step, i);
  }

  // ---------- deposits ----------

  /** A deposit that is retained at some point of a run is never refunded at another, and the other
      way round. */
  lemma OneOutcomePerDeposit(db: Db, steps: seq<Step>, i: nat)
    requires Reachable(db) && i in db.payments
    ensures var p' := Run(db, steps).payments;
            i in p' &&
            (db.payments[i].depositStatus == DepositRetained ==> p'[i].depositStatus == DepositRetained) &&
            (db.payments[i].depositStatus == DepositRefunded ==> p'[i].depositStatus == DepositRefunded)
  {
    PaymentNeverReverts(db, steps, i);
  }

  /** A payment that is recorded as refunded by the worker takes its deposit along. Recorded by a webhook
      it leaves the deposit held; and since a refunded payment never changes again
      (PaymentNeverReverts), held it stays, though the money of the deposit has gone back too. */
  lemma DepositFollowsWorker(db: Db, step: Step, i: nat)
    requires Reachable(db) && i in db.payments && i in Apply(db, step).payments
    requires db.payments[i].status != PayRefunded && Apply(db, step).payments[i].status == PayRefunded
    requires db.payments[i].deposit > 0
    ensures Apply(db, step).payments[i].depositStatus
            == if step.PersistRefund? && step.call.reservation == i then DepositRefunded else DepositHeld
  {
    PaymentHasRow(db, i);
    ApplyRow(db, step, i);
    SettlingEffect(db, step, i);
  }

  lemma SettlingEffect(db: Db, step: Step, i: nat)
    ensures EffectsOf(db, step).settles == Some(i) <==> step.PersistRefund? && step.call.reservation == i
  {
  }

  /** Nor is the gateway ever asked, through either channel, to return a retained deposit. */
  lemma RetainedIsNeverSent(db: Db, c: RefundCall)
    requires Reachable(db) && c in db.calls
    ensures c.reservation in db.payments && db.payments[c.reservation].depositStatus != DepositRetained
  {
    CallFits(db, c);
    ReachableReady(db, c.reservation);
  }

  /** The refund jobs, and with them the two refund channels, belong to different ends of a reservation. */
  lemma ChannelsExclude(db: Db, i: nat)
    requires Reachable(db)
    ensures !(PaymentRefundJob(i) in db.jobs && DepositRefundJob(i) in db.jobs)
    ensures PaymentRefundJob(i) in db.jobs ==> i < |db.rows| && db.rows[i].status == Cancelled
    ensures DepositRefundJob(i) in db.jobs ==> i < |db.rows| && db.rows[i].status == PickedUp
  {
    ReachableInv(db);
    assert PaymentRefundJob(i) in db.jobs ==> JobOk(db, PaymentRefundJob(i));
    assert DepositRefundJob(i) in db.jobs ==> JobOk(db, DepositRefundJob(i));
  }

  // ---------- volunteers ----------

  /** The statistics agree with the table, one volunteer works on one task at a time, and a task
      nobody has started belongs to nobody. */
  lemma CountersAgree(db: Db, v: nat)
    requires Reachable(db)
    ensures StatsOf(db.stats, v).completed == Sum(db.rows, DeliveredBy(v))
    ensures StatsOf(db.stats, v).timeouts == Sum(db.rows, TimedOutBy(v))
  {
    ReachableInv(db);
  }

  lemma OneTaskAtATime(db: Db, i: nat, j: nat, v: nat)
    requires Reachable(db) && i < |db.rows| && j < |db.rows| && D.ActiveFor(db.rows[i], v) && D.ActiveFor(db.rows[j], v)
    ensures i == j
  {
    ReachableInv(db);
  }

  lemma PendingTaskIsFree(db: Db, i: nat)
    requires Reachable(db) && i < |db.rows| && db.rows[i].task == TaskPending
    ensures db.rows[i].volunteer.None?
  {
    ReachableReady(db, i);
  }

  // ---------- one claim per user and listing ----------

  /** No user ever has two live reservations on one listing, nor a live one beside a collected one. */
  lemma OneLiveClaim(db: Db, i: nat, j: nat)
    requires Reachable(db) && i < |db.rows| && j < |db.rows| && Claiming(db.rows[i]) && Claiming(db.rows[j])
    requires db.rows[i].user == db.rows[j].user && db.rows[i].listing == db.rows[j].listing
    ensures i == j
  {
    ReachableInv(db);
  }
}
