/** Laws that tie reservations to what lies beside them: the rescue requests behind them, the jobs that
    return their money, and what the gateway has said. */
module PaperTrail {
  import opened Model
  import opened Machine
  import opened Cells
  import opened Runs
  import opened ClaimOutcomes
  import opened ReleaseOutcomes
  import opened DeliveryOutcomes
  import opened PaymentOutcomes
  import opened Promises
  import opened Fates
  import R = Reservations

  // ---------- rescue requests ----------

  /** Requests stay what they are, and an accepted one stays accepted. */
  predicate RequestsGoOn(requests: seq<NgoRequest>, requests': seq<NgoRequest>) {
    |requests| <= |requests'| &&
    forall q :: 0 <= q < |requests| ==>
      requests'[q] == requests[q].(status := requests'[q].status) &&
      (requests[q].status == RequestAccepted ==> requests'[q].status == RequestAccepted)
  }

  lemma StepKeepsRequests(db: Db, step: Step)
    requires Reachable(db)
    ensures RequestsGoOn(db.requests, Apply(db, step).requests)
  {
    if IsListingStep(step) {
      ListingsPromised(db, step);
      ListingKeepsRequests(db, Apply(db, step), step);
    } else if step.AcceptRequest? {
      AcceptRequestPromised(db, step.ngo, step.request, step.approved, step.terms);
    } else if step.PaidOrder? {
      PaidOrderPromised(db, step.row);
      PaidOrderKeepsRequests(db, Apply(db, step), step.row);
    } else {
      OthersKeepRequests(db, step);
    }
  }

  lemma ListingKeepsRequests(db: Db, db': Db, step: Step)
    requires IsListingStep(step) && ListingPromise(db, db', step)
    ensures RequestsGoOn(db.requests, db'.requests)
  {
  }

  lemma ClaimKeepsRequests(db: Db, db': Db, step: Step)
    requires RowsListed(db) && IsClaimStep(step) && !step.AcceptRequest? && ClaimPromise(db, db', step)
    ensures db'.requests == db.requests
  {
  }

  lemma PaymentKeepsRequests(db: Db, db': Db, step: Step)
    requires IsPaymentStep(step) && !step.PaidOrder? && PaymentPromise(db, db', step)
    ensures db'.requests == db.requests
  {
  }

  lemma WorkKeepsRequests(db: Db, db': Db, step: Step)
    requires (IsDeliveryStep(step) && DeliveryPromise(db, db', step)) ||
             (IsRefundStep(step) && RefundPromise(db, db', step))
    ensures db'.requests == db.requests
  {
  }

  lemma PaidOrderKeepsRequests(db: Db, db': Db, i: nat)
    requires PaidOrderPromise(db, db', i)
    ensures RequestsGoOn(db.requests, db'.requests)
  {
  }

  lemma OthersKeepRequests(db: Db, step: Step)
    requires Reachable(db) && !IsListingStep(step) && !step.AcceptRequest? && !step.PaidOrder?
    ensures Apply(db, step).requests == db.requests
  {
    if IsClaimStep(step) {
      ReachableListed(db);
      ClaimsPromised(db, step);
      ClaimKeepsRequests(db, Apply(db, step), step);
    } else if IsPaymentStep(step) {
      PaymentsPromised(db, step);
      PaymentKeepsRequests(db, Apply(db, step), step);
    } else {
      WorkPromised(db, step);
      WorkKeepsRequests(db, Apply(db, step), step);
    }
  }

  lemma WorkPromised(db: Db, step: Step)
    requires Reachable(db) && (IsDeliveryStep(step) || IsRefundStep(step))
    ensures (IsDeliveryStep(step) && DeliveryPromise(db, Apply(db, step), step)) ||
            (IsRefundStep(step) && RefundPromise(db, Apply(db, step), step))
  {
    if IsDeliveryStep(step) {
      DeliveriesPromised(db, step);
    } else {
      RefundsPromised(db, step);
    }
  }

  predicate WasConfirmed(s: Status) {
    s == Reserved || s == PickedUp || s == Expired
  }

  /** The request behind a reservation is about its listing and its NGO, and once the reservation has
      been confirmed the request is accepted. */
  predicate RequestFits(requests: seq<NgoRequest>, r: Reservation) {
    r.request.Some? ==>
      r.request.value < |requests| && requests[r.request.value].listing == r.listing &&
      requests[r.request.value].ngo == r.user &&
      (WasConfirmed(r.status) ==> requests[r.request.value].status == RequestAccepted)
  }

  predicate RequestsFit(db: Db) {
    forall i :: 0 <= i < |db.rows| ==> RequestFits(db.requests, db.rows[i])
  }

  lemma ConfirmationAccepts(db: Db, db': Db, i: nat)
    requires i < |db.rows| && i in db.payments && db.rows[i].status == PaymentPending && db.rows[i].request.Some?
    requires PaidOrderPromise(db, db', i) && StillWanted(db, db.rows[i])
    ensures db.rows[i].request.value < |db'.requests|
    ensures db'.requests[db.rows[i].request.value].status == RequestAccepted
  {
  }

  lemma OnlyHoldsAreConfirmed(db: Db, step: Step, i: nat)
    requires RowsListed(db) && i < |db.rows| && !WasConfirmed(db.rows[i].status)
    requires WasConfirmed(StatusAfter(db, step, i))
    ensures db.rows[i].status == PaymentPending && step == PaidOrder(i) && i in db.payments &&
            StillWanted(db, db.rows[i])
  {
  }

  lemma StillFits(requests: seq<NgoRequest>, requests': seq<NgoRequest>, r: Reservation, r': Reservation)
    requires RequestFits(requests, r) && RequestsGoOn(requests, requests') && SamePerson(r, r')
    requires WasConfirmed(r'.status) && !WasConfirmed(r.status) && r.request.Some? ==>
               r.request.value < |requests'| && requests'[r.request.value].status == RequestAccepted
    ensures RequestFits(requests', r')
  {
  }

  lemma OldRowFits(db: Db, step: Step, i: nat)
    requires Reachable(db) && i < |db.rows| && RequestFits(db.requests, db.rows[i])
    ensures i < |Apply(db, step).rows| && RequestFits(Apply(db, step).requests, Apply(db, step).rows[i])
  {
    var db' := Apply(db, step);
    StepKeepsRequests(db, step);
    ApplyRow(db, step, i);
    StatusMoves(db, step, i);
    if db.rows[i].request.Some? && WasConfirmed(db'.rows[i].status) && !WasConfirmed(db.rows[i].status) {
      OnlyHoldsAreConfirmed(db, step, i);
      PaidOrderPromised(db, i);
      ConfirmationAccepts(db, db', i);
    }
    StillFits(db.requests, db'.requests, db.rows[i], db'.rows[i]);
  }

  lemma AcceptedRowFits(db: Db, db': Db, ngo: nat, q: nat, approved: set<nat>, terms: R.NgoTerms, i: nat)
    requires AcceptRequestPromise(db, db', ngo, q, approved, terms) && |db.rows| <= i < |db'.rows|
    ensures RequestFits(db'.requests, db'.rows[i])
  {
  }

  lemma HeldRowFits(db: Db, db': Db, user: nat, l: nat, q: int, isApproved: bool, canReserve: bool, i: nat)
    requires HoldStockPromise(db, db', user, l, q, isApproved, canReserve) && |db.rows| <= i < |db'.rows|
    ensures db'.rows[i].request.None?
  {
  }

  lemma OrderedRowFits(db: Db, db': Db, user: nat, items: seq<R.Item>, approved: set<nat>, terms: R.NgoTerms, i: nat)
    requires BulkReservePromise(db, db', user, items, approved, terms) && |db.rows| <= i < |db'.rows|
    ensures db'.rows[i].request.None?
  {
    var k := i - |db.rows|;
    assert NgoRow(db'.rows[|db.rows| + k], db.now, user, items[k].listing, items[k].quantity, terms, None);
  }

  predicate Inserts(step: Step) {
    step.AcceptRequest? || step.HoldStock? || step.BulkReserve?
  }

  lemma OnlyClaimsInsert(db: Db, step: Step)
    requires Reachable(db) && !Inserts(step)
    ensures |Apply(db, step).rows| == |db.rows|
  {
    if IsListingStep(step) {
      ListingsPromised(db, step);
      NoListingRows(db, Apply(db, step), step);
    } else if IsClaimStep(step) {
      ReachableListed(db);
      ClaimsPromised(db, step);
      NoClaimRows(db, Apply(db, step), step);
    } else if IsPaymentStep(step) {
      PaymentsPromised(db, step);
      NoPaymentRows(db, Apply(db, step), step);
    } else {
      WorkPromised(db, step);
      NoWorkRows(db, Apply(db, step), step);
    }
  }

  lemma NoListingRows(db: Db, db': Db, step: Step)
    requires IsListingStep(step) && ListingPromise(db, db', step)
    ensures |db'.rows| == |db.rows|
  {
  }

  lemma NoClaimRows(db: Db, db': Db, step: Step)
    requires RowsListed(db) && IsClaimStep(step) && !Inserts(step) && ClaimPromise(db, db', step)
    ensures |db'.rows| == |db.rows|
  {
  }

  lemma NoPaymentRows(db: Db, db': Db, step: Step)
    requires IsPaymentStep(step) && PaymentPromise(db, db', step)
    ensures |db'.rows| == |db.rows|
  {
  }

  lemma NoWorkRows(db: Db, db': Db, step: Step)
    requires (IsDeliveryStep(step) && DeliveryPromise(db, db', step)) ||
             (IsRefundStep(step) && RefundPromise(db, db', step))
    ensures |db'.rows| == |db.rows|
  {
  }

  lemma NewRowFits(db: Db, step: Step, i: nat)
    requires Reachable(db) && |db.rows| <= i < |Apply(db, step).rows|
    ensures RequestFits(Apply(db, step).requests, Apply(db, step).rows[i])
  {
    if !Inserts(step) {
      OnlyClaimsInsert(db, step);
    } else if step.AcceptRequest? {
      AcceptRequestPromised(db, step.ngo, step.request, step.approved, step.terms);
      AcceptedRowFits(db, Apply(db, step), step.ngo, step.request, step.approved, step.terms, i);
    } else {
      UnaskedRowFits(db, step, i);
    }
  }

  lemma UnaskedRowFits(db: Db, step: Step, i: nat)
    requires Reachable(db) && |db.rows| <= i < |Apply(db, step).rows| && (step.HoldStock? || step.BulkReserve?)
    ensures Apply(db, step).rows[i].request.None?
  {
    if step.HoldStock? {
      HoldStockPromised(db, step.user, step.listing, step.quantity, step.isApproved, step.canReserve);
      HeldRowFits(db, Apply(db, step), step.user, step.listing, step.quantity, step.isApproved, step.canReserve, i);
    } else {
      BulkReservePromised(db, step.user, step.items, step.approved, step.terms);
      OrderedRowFits(db, Apply(db, step), step.user, step.items, step.approved, step.terms, i);
    }
  }

  lemma StepKeepsRequestsFit(db: Db, step: Step)
    requires Reachable(db) && RequestsFit(db)
    ensures RequestsFit(Apply(db, step))
  {
    forall i | 0 <= i < |Apply(db, step).rows|
      ensures RequestFits(Apply(db, step).requests, Apply(db, step).rows[i])
    {
      if i < |db.rows| {
        OldRowFits(db, step, i);
      } else {
        NewRowFits(db, step, i);
      }
    }
  }

  lemma {:induction false} RunKeepsRequestsFit(start: int, steps: seq<Step>)
    ensures RequestsFit(Run(EmptyDb(start), steps))
    decreases |steps|
  {
    if |steps| > 0 {
      var front := steps[..|steps| - 1];
      RunKeepsRequestsFit(start, front);
      ReachableFromEmpty(start, front);
      StepKeepsRequestsFit(Run(EmptyDb(start), front), steps[|steps| - 1]);
    }
  }

  /** In every reachable state a confirmed rescue has its request accepted. */
  lemma ConfirmedIsAccepted(db: Db, i: nat, q: nat)
    requires Reachable(db) && i < |db.rows| && db.rows[i].request == Some(q)
    ensures q < |db.requests| && db.requests[q].listing == db.rows[i].listing && db.requests[q].ngo == db.rows[i].user
    ensures db.rows[i].status in {Reserved, PickedUp, Expired} ==> db.requests[q].status == RequestAccepted
  {
    var start: int, steps: seq<Step> :| Run(EmptyDb(start), steps) == db;
    RunKeepsRequestsFit(start, steps);
    assert RequestFits(db.requests, db.rows[i]);
  }

  // ---------- refund jobs ----------

  /** What the end of a reservation owes is in the queue. */
  predicate Queued(db: Db, i: nat)
    requires i < |db.rows|
  {
    (db.rows[i].status == PickedUp ==> DepositRefundJob(i) in db.jobs) &&
    (db.rows[i].status == Cancelled && i in db.payments ==> PaymentRefundJob(i) in db.jobs)
  }

  lemma RefundKeepsJobs(db: Db, db': Db, step: Step)
    requires IsRefundStep(step) && RefundPromise(db, db', step)
    ensures db.jobs <= db'.jobs
  {
  }

  lemma PaymentKeepsJobs(db: Db, db': Db, step: Step)
    requires IsPaymentStep(step) && PaymentPromise(db, db', step)
    ensures db.jobs <= db'.jobs
  {
  }

  lemma ClaimKeepsJobs(db: Db, db': Db, step: Step)
    requires RowsListed(db) && IsClaimStep(step) && ClaimPromise(db, db', step)
    ensures db.jobs <= db'.jobs
  {
  }

  lemma ListingKeepsJobs(db: Db, db': Db, step: Step)
    requires IsListingStep(step) && ListingPromise(db, db', step)
    ensures db.jobs <= db'.jobs
  {
  }

  lemma DeliveryKeepsJobs(db: Db, db': Db, step: Step)
    requires IsDeliveryStep(step) && DeliveryPromise(db, db', step)
    ensures db.jobs <= db'.jobs
  {
  }

  /** The queue only grows. */
  lemma StepKeepsJobs(db: Db, step: Step)
    requires Reachable(db)
    ensures db.jobs <= Apply(db, step).jobs
  {
    if IsListingStep(step) {
      ListingsPromised(db, step);
      ListingKeepsJobs(db, Apply(db, step), step);
    } else if IsClaimStep(step) {
      ReachableListed(db);
      ClaimsPromised(db, step);
      ClaimKeepsJobs(db, Apply(db, step), step);
    } else {
      LaterKeepsJobs(db, step);
    }
  }

  lemma LaterKeepsJobs(db: Db, step: Step)
    requires Reachable(db) && !IsListingStep(step) && !IsClaimStep(step)
    ensures db.jobs <= Apply(db, step).jobs
  {
    if IsDeliveryStep(step) {
      DeliveriesPromised(db, step);
      DeliveryKeepsJobs(db, Apply(db, step), step);
    } else if IsPaymentStep(step) {
      PaymentsPromised(db, step);
      PaymentKeepsJobs(db, Apply(db, step), step);
    } else {
      RefundsPromised(db, step);
      RefundKeepsJobs(db, Apply(db, step), step);
    }
  }

  lemma Collects(db: Db, step: Step, i: nat)
    requires RowsListed(db) && i < |db.rows| && db.rows[i].status != PickedUp && StatusAfter(db, step, i) == PickedUp
    ensures step.MarkPickedUp? || step.CompleteTask?
    ensures step.row == i && step.codeOk && db.rows[i].status == Reserved
    ensures step.MarkPickedUp? ==>
              db.rows[i].pickupType == SelfPickup && step.provider == db.listings[db.rows[i].listing].provider
    ensures step.CompleteTask? ==>
              db.rows[i].task == TaskPickedFromProvider && db.rows[i].volunteer == Some(step.volunteer)
  {
  }

  lemma CollectionQueues(db: Db, step: Step, i: nat)
    requires Reachable(db) && RowsListed(db) && i < |db.rows|
    requires db.rows[i].status != PickedUp && StatusAfter(db, step, i) == PickedUp
    ensures DepositRefundJob(i) in Apply(db, step).jobs
  {
    Collects(db, step, i);
    if step.MarkPickedUp? {
      MarkPickedUpPromised(db, step.provider, i, step.codeOk);
    } else {
      CompleteTaskPromised(db, step.volunteer, i, step.codeOk);
    }
  }

  lemma Cancels(db: Db, step: Step, i: nat)
    requires RowsListed(db) && i < |db.rows| && db.rows[i].status != Cancelled && StatusAfter(db, step, i) == Cancelled
    ensures step.PaidOrder? || step.CancelReservation?
    ensures step.row == i
    ensures step.PaidOrder? ==>
              i in db.payments && db.rows[i].status !in {Reserved, PickedUp, Expired} &&
              (db.rows[i].status == PaymentPending ==> !StillWanted(db, db.rows[i])) &&
              (db.rows[i].status != PaymentPending ==> db.payments[i].status != PayRefunded)
    ensures step.CancelReservation? ==>
              db.rows[i].status == Reserved && InTime(db, i) && step.user == db.rows[i].user
  {
  }

  lemma CancellationQueues(db: Db, step: Step, i: nat)
    requires Reachable(db) && RowsListed(db) && i < |db.rows|
    requires db.rows[i].status != Cancelled && StatusAfter(db, step, i) == Cancelled
    ensures i in Apply(db, step).payments ==> PaymentRefundJob(i) in Apply(db, step).jobs
  {
    Cancels(db, step, i);
    if step.PaidOrder? {
      PaidOrderPromised(db, i);
    } else {
      CancelReservationPromised(db, step.user, i);
    }
  }

  /** A reservation that was cancelled without a payment never gets one. */
  lemma NothingToReturn(db: Db, step: Step, i: nat)
    requires Reachable(db) && i < |db.rows| && db.rows[i].status == Cancelled && i !in db.payments
    ensures i < |Apply(db, step).rows| &&
            (Apply(db, step).rows[i].status == Cancelled ==> i !in Apply(db, step).payments)
  {
    ReachableReady(db, i);
    ApplyRow(db, step, i);
  }

  lemma StepQueues(db: Db, step: Step, i: nat)
    requires Reachable(db) && i < |db.rows| && Queued(db, i)
    ensures i < |Apply(db, step).rows| && Queued(Apply(db, step), i)
  {
    var db' := Apply(db, step);
    StatusMoves(db, step, i);
    StepKeepsJobs(db, step);
    if db'.rows[i].status == PickedUp && db.rows[i].status != PickedUp {
      CollectionQueues(db, step, i);
    } else if db'.rows[i].status == Cancelled && db.rows[i].status != Cancelled {
      CancellationQueues(db, step, i);
    } else if db'.rows[i].status == Cancelled && i !in db.payments {
      NothingToReturn(db, step, i);
    }
  }

  lemma {:induction false} RunQueues(start: int, steps: seq<Step>, i: nat)
    requires i < |Run(EmptyDb(start), steps).rows|
    ensures Queued(Run(EmptyDb(start), steps), i)
    decreases |steps|
  {
    if |steps| > 0 {
      var front := steps[..|steps| - 1];
      ReachableFromEmpty(start, front);
      if i < |Run(EmptyDb(start), front).rows| {
        RunQueues(start, front, i);
        StepQueues(Run(EmptyDb(start), front), steps[|steps| - 1], i);
      } else {
        ApplyNewRow(Run(EmptyDb(start), front), steps[|steps| - 1], i);
      }
    }
  }

  /** In every reachable state the deposit of a collected reservation and the payment of a cancelled
      one are on their way back: their refund jobs are in the queue. */
  lemma RefundsAreQueued(db: Db, i: nat)
    requires Reachable(db) && i < |db.rows|
    ensures db.rows[i].status == PickedUp ==> DepositRefundJob(i) in db.jobs
    ensures db.rows[i].status == Cancelled && i in db.payments ==> PaymentRefundJob(i) in db.jobs
  {
    var start: int, steps: seq<Step> :| Run(EmptyDb(start), steps) == db;
    RunQueues(start, steps, i);
  }
}
