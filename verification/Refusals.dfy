/** A refund counts as failed only because the gateway refused it, and a deposit as kept only because
    nobody came for the food: over every run. */
module Refusals {
  import opened Model
  import opened Machine
  import opened Cells
  import opened Runs
  import opened ClaimOutcomes
  import opened RefundOutcomes
  import opened Promises
  import opened Fates
  import V = Laws

  // ---------- refused refunds ----------

  predicate WasRefused(db: Db, c: RefundCall) {
    Answer(c, GatewayFailed) in db.answers || Answer(c, GatewayCancelled) in db.answers
  }

  predicate RefusalsKnown(db: Db, i: nat)
    requires i in db.payments
  {
    var p := db.payments[i];
    (p.status == PayRefundFailed ==>
       p.refundId.Some? && WasRefused(db, RefundCall(i, PaymentChannel, p.refundId.value))) &&
    (p.depositStatus == DepositRefundFailed ==>
       p.depositRefundId.Some? && WasRefused(db, RefundCall(i, DepositChannel, p.depositRefundId.value)))
  }

  predicate FailedBefore(db: Db, i: nat) {
    i in db.payments && db.payments[i].status == PayRefundFailed
  }

  /** The step reports for the payment of reservation `i` that the gateway has refused the refund. */
  predicate ReportsRefusal(db: Db, step: Step, i: nat, channel: Channel) {
    (step.PersistRefund? || step.PersistDepositRefund? || step.RefundEvent?) && step.call.reservation == i &&
    step.call.channel == channel && Refused(step.status) && Answer(step.call, step.status) in db.answers
  }

  lemma StoredFailure(db: Db, db': Db, k: nat, s: GatewayStatus, byWorker: bool, i: nat)
    requires RefundStored(db, db', k, s, byWorker) && i in db'.payments && db'.payments[i].status == PayRefundFailed
    ensures FailedBefore(db, i) || (k == i && Refused(s))
  {
    if k != i {
      assert PayOf(db', i) == PayOf(db, i);
    }
  }

  lemma StoredDepositKeeps(db: Db, db': Db, k: nat, s: GatewayStatus, i: nat)
    requires DepositStored(db, db', k, s) && i in db'.payments && db'.payments[i].status == PayRefundFailed
    ensures FailedBefore(db, i)
  {
    if k != i {
      assert PayOf(db', i) == PayOf(db, i);
    }
  }

  lemma RefundFails(db: Db, db': Db, step: Step, i: nat)
    requires IsRefundStep(step) && RefundPromise(db, db', step) && i in db'.payments
    requires db'.payments[i].status == PayRefundFailed
    ensures FailedBefore(db, i) || ReportsRefusal(db, step, i, PaymentChannel)
  {
    match step
    case PersistRefund(c, s) =>
      if db' != db {
        StoredFailure(db, db', c.reservation, s, true, i);
      }
    case PersistDepositRefund(c, s) =>
      if db' != db {
        StoredDepositKeeps(db, db', c.reservation, s, i);
      }
    case RefundEvent(c, s, _) =>
      if db' != db {
        if c.channel == PaymentChannel {
          StoredFailure(db, db', c.reservation, s, false, i);
        } else {
          StoredDepositKeeps(db, db', c.reservation, s, i);
        }
      }
    case PrepareRefund(k, _) =>
      if k != i {
        assert PayOf(db', i) == PayOf(db, i);
      }
    case PrepareDepositRefund(k, _) =>
      if k != i {
        assert PayOf(db', i) == PayOf(db, i);
      }
    case GatewayReplies(_, _) =>
  }

  lemma PaymentNeverFails(db: Db, db': Db, step: Step, i: nat)
    requires IsPaymentStep(step) && PaymentPromise(db, db', step) && i in db'.payments
    requires db'.payments[i].status == PayRefundFailed
    ensures FailedBefore(db, i)
  {
    if PayOf(db', i) == PayOf(db, i) {
      assert i in db.payments;
    }
  }

  lemma ClaimNeverFails(db: Db, db': Db, step: Step, i: nat)
    requires RowsListed(db) && IsClaimStep(step) && ClaimPromise(db, db', step) && i in db'.payments
    requires db'.payments[i].status == PayRefundFailed
    ensures FailedBefore(db, i)
  {
    if PayOf(db', i) == PayOf(db, i) {
      assert i in db.payments;
    }
  }

  /** Neither listings nor deliveries make payment rows. */
  lemma PaymentsStay(db: Db, db': Db, step: Step, i: nat)
    requires (IsListingStep(step) && ListingPromise(db, db', step)) ||
             (IsDeliveryStep(step) && DeliveryPromise(db, db', step))
    requires i in db'.payments && i < |db.rows|
    ensures i in db.payments && db'.payments[i].status == db.payments[i].status
  {
    assert PayOf(db', i).Some?;
  }

  lemma StaysIn(db: Db, step: Step, i: nat)
    requires Reachable(db) && (IsListingStep(step) || IsDeliveryStep(step)) && i in Apply(db, step).payments
    ensures i in db.payments && Apply(db, step).payments[i].status == db.payments[i].status
  {
    OneStep(db, step);
    ReachableRun(db, [step]);
    V.PaymentHasRow(Apply(db, step), i);
    if IsListingStep(step) {
      ListingsPromised(db, step);
    } else {
      DeliveriesPromised(db, step);
    }
    NoRowsAdded(db, Apply(db, step), step);
    PaymentsStay(db, Apply(db, step), step, i);
  }

  lemma NoRowsAdded(db: Db, db': Db, step: Step)
    requires (IsListingStep(step) && ListingPromise(db, db', step)) ||
             (IsDeliveryStep(step) && DeliveryPromise(db, db', step))
    ensures |db'.rows| == |db.rows|
  {
  }

  lemma NeverFails(db: Db, step: Step, i: nat)
    requires Reachable(db) && !IsRefundStep(step) && i in Apply(db, step).payments
    requires Apply(db, step).payments[i].status == PayRefundFailed
    ensures FailedBefore(db, i)
  {
    if IsPaymentStep(step) {
      PaymentsPromised(db, step);
      PaymentNeverFails(db, Apply(db, step), step, i);
    } else if IsClaimStep(step) {
      ReachableListed(db);
      ClaimsPromised(db, step);
      ClaimNeverFails(db, Apply(db, step), step, i);
    } else {
      StaysIn(db, step, i);
    }
  }

  lemma FailsBecause(db: Db, step: Step, i: nat)
    requires Reachable(db) && i in Apply(db, step).payments && Apply(db, step).payments[i].status == PayRefundFailed
    ensures FailedBefore(db, i) || ReportsRefusal(db, step, i, PaymentChannel)
  {
    if IsRefundStep(step) {
      RefundsPromised(db, step);
      RefundFails(db, Apply(db, step), step, i);
    } else {
      NeverFails(db, step, i);
    }
  }

  /** A payment row is made with its deposit held, or without one. */
  lemma NewPaymentIsFresh(db: Db, step: Step, i: nat)
    requires Reachable(db) && i in Apply(db, step).payments && i !in db.payments
    ensures Apply(db, step).payments[i].depositStatus in {DepositHeld, DepositNotRequired}
  {
    if IsRefundStep(step) {
      RefundsPromised(db, step);
      NoRefundPayment(db, Apply(db, step), step, i);
    } else if IsPaymentStep(step) {
      PaymentsPromised(db, step);
      NewOrderPayment(db, Apply(db, step), step, i);
    } else {
      NewRowPayment(db, step, i);
    }
  }

  lemma NewRowPayment(db: Db, step: Step, i: nat)
    requires Reachable(db) && i in Apply(db, step).payments && i !in db.payments
    requires !IsRefundStep(step) && !IsPaymentStep(step)
    ensures Apply(db, step).payments[i].depositStatus in {DepositHeld, DepositNotRequired}
  {
    if IsClaimStep(step) {
      ReachableListed(db);
      ClaimsPromised(db, step);
      NewClaimPayment(db, Apply(db, step), step, i);
    } else {
      StaysIn(db, step, i);
    }
  }

  lemma NoRefundPayment(db: Db, db': Db, step: Step, i: nat)
    requires IsRefundStep(step) && RefundPromise(db, db', step) && i in db'.payments
    ensures i in db.payments
  {
    if PayOf(db', i) == PayOf(db, i) {
      assert i in db.payments;
    }
  }

  lemma NewOrderPayment(db: Db, db': Db, step: Step, i: nat)
    requires IsPaymentStep(step) && PaymentPromise(db, db', step) && i in db'.payments && i !in db.payments
    ensures FreshPayment(db'.payments[i], db'.payments[i].deposit)
  {
    assert PayOf(db', i) != PayOf(db, i);
  }

  lemma NewClaimPayment(db: Db, db': Db, step: Step, i: nat)
    requires RowsListed(db) && IsClaimStep(step) && ClaimPromise(db, db', step) && i in db'.payments &&
             i !in db.payments
    ensures FreshPayment(db'.payments[i], db'.payments[i].deposit)
  {
    assert PayOf(db', i) != PayOf(db, i);
  }

  lemma DepositFails(db: Db, step: Step, i: nat)
    requires i < |db.rows| && i in db.payments
    requires DepositAfter(db, step, i) == DepositRefundFailed
    ensures db.payments[i].depositStatus == DepositRefundFailed || ReportsRefusal(db, step, i, DepositChannel)
  {
  }

  /** A report of a refusal names the refund that is on record. */
  lemma ReportIsOnRecord(db: Db, step: Step, i: nat, channel: Channel)
    requires Reachable(db) && ReportsRefusal(db, step, i, channel)
    ensures i in db.payments && WasRefused(db, step.call) && step.call == RefundCall(i, channel, step.call.id)
    ensures (if channel == PaymentChannel then db.payments[i].refundId else db.payments[i].depositRefundId)
            == Some(step.call.id)
  {
    AnswerKnown(db, step.call, step.status);
  }

  lemma StepKnowsRefund(db: Db, step: Step, i: nat)
    requires Reachable(db) && i in Apply(db, step).payments && (i in db.payments ==> RefusalsKnown(db, i))
    ensures var db' := Apply(db, step);
            db'.payments[i].status == PayRefundFailed ==>
              db'.payments[i].refundId.Some? &&
              WasRefused(db', RefundCall(i, PaymentChannel, db'.payments[i].refundId.value))
  {
    if Apply(db, step).payments[i].status == PayRefundFailed {
      FailsBecause(db, step, i);
      if ReportsRefusal(db, step, i, PaymentChannel) {
        ReportIsOnRecord(db, step, i, PaymentChannel);
      }
      V.StepFreezesPayment(db, step, i);
      ApplyGrows(db, step);
    }
  }

  lemma StepKnowsDeposit(db: Db, step: Step, i: nat)
    requires Reachable(db) && i in Apply(db, step).payments && (i in db.payments ==> RefusalsKnown(db, i))
    ensures var db' := Apply(db, step);
            db'.payments[i].depositStatus == DepositRefundFailed ==>
              db'.payments[i].depositRefundId.Some? &&
              WasRefused(db', RefundCall(i, DepositChannel, db'.payments[i].depositRefundId.value))
  {
    if i !in db.payments {
      NewPaymentIsFresh(db, step, i);
    } else {
      DepositsMove(db, step, i);
      if DepositAfter(db, step, i) == DepositRefundFailed {
        DepositFails(db, step, i);
        if ReportsRefusal(db, step, i, DepositChannel) {
          ReportIsOnRecord(db, step, i, DepositChannel);
        }
        V.StepFreezesPayment(db, step, i);
        ApplyGrows(db, step);
      }
    }
  }

  lemma {:induction false} RunKnowsRefusals(start: int, steps: seq<Step>, i: nat)
    requires i in Run(EmptyDb(start), steps).payments
    ensures RefusalsKnown(Run(EmptyDb(start), steps), i)
    decreases |steps|
  {
    if |steps| > 0 {
      var front := steps[..|steps| - 1];
      var db := Run(EmptyDb(start), front);
      ReachableFromEmpty(start, front);
      if i in db.payments {
        RunKnowsRefusals(start, front, i);
      }
      StepKnowsRefund(db, steps[|steps| - 1], i);
      StepKnowsDeposit(db, steps[|steps| - 1], i);
    }
  }

  /** In every reachable state a refund or a deposit that counts as failed was refused by the gateway. */
  lemma FailedMeansRefused(db: Db, i: nat)
    requires Reachable(db) && i in db.payments
    ensures db.payments[i].status == PayRefundFailed ==>
              exists c: RefundCall :: c.reservation == i && c.channel == PaymentChannel && WasRefused(db, c)
    ensures db.payments[i].depositStatus == DepositRefundFailed ==>
              exists c: RefundCall :: c.reservation == i && c.channel == DepositChannel && WasRefused(db, c)
  {
    var start: int, steps: seq<Step> :| Run(EmptyDb(start), steps) == db;
    RunKnowsRefusals(start, steps, i);
  }

  // ---------- kept deposits ----------

  /** Step `k` of the run keeps the deposit of reservation `i`: nobody came for the food, there is a
      deposit, and its operation is open. */
  predicate KeepsAt(start: int, steps: seq<Step>, k: nat, i: nat)
    requires k < |steps|
  {
    var db := Run(EmptyDb(start), steps[..k]);
    i < |db.rows| && NobodyCame(db, steps[k], i) && i in db.payments && db.payments[i].deposit > 0 &&
    i in OpenIn(steps[k])
  }

  predicate KeptIn(start: int, steps: seq<Step>, i: nat) {
    exists k :: 0 <= k < |steps| && KeepsAt(start, steps, k, i)
  }

  lemma KeptSooner(start: int, steps: seq<Step>, n: nat, i: nat)
    requires n + 1 == |steps|
    ensures KeptIn(start, steps, i) <==> KeepsAt(start, steps, n, i) || KeptIn(start, steps[..n], i)
  {
    forall k | 0 <= k < n
      ensures KeepsAt(start, steps[..n], k, i) == KeepsAt(start, steps, k, i)
    {
      assert steps[..n][..k] == steps[..k];
    }
  }

  predicate Kept(db: Db, i: nat) {
    i in db.payments && db.payments[i].depositStatus == DepositRetained
  }

  lemma StepKeepsDeposit(db: Db, step: Step, i: nat)
    requires Reachable(db)
    ensures Kept(Apply(db, step), i) <==>
              Kept(db, i) ||
              (i < |db.rows| && NobodyCame(db, step, i) && i in db.payments && db.payments[i].deposit > 0 &&
               i in OpenIn(step))
  {
    if i in db.payments {
      DepositsMove(db, step, i);
      V.StepFreezesPayment(db, step, i);
    } else if i in Apply(db, step).payments {
      NewPaymentIsFresh(db, step, i);
    }
  }

  /** A deposit has been kept in a run exactly when nobody came for the food in some step of it while
      the operation was open. */
  lemma {:induction false} KeptSince(start: int, steps: seq<Step>, i: nat)
    ensures Kept(Run(EmptyDb(start), steps), i) <==> KeptIn(start, steps, i)
    decreases |steps|
  {
    if |steps| > 0 {
      var n := |steps| - 1;
      KeptSince(start, steps[..n], i);
      KeptSooner(start, steps, n, i);
      ReachableFromEmpty(start, steps[..n]);
      StepKeepsDeposit(Run(EmptyDb(start), steps[..n]), steps[n], i);
    }
  }
}
