/** What a paid order does, told from outside: whose reservation it confirms, and whose money goes back. */
module PaymentOutcomes {
  import opened Model
  import opened Machine
  import opened Frames
  import opened Invariant
  import opened Preservation
  import opened Runs
  import O = ClaimOutcomes
  import P = Payments

  /** The rescue request behind the hold, if there is one, still waits. */
  predicate StillWanted(db: Db, r: Reservation) {
    r.request.Some? ==>
      r.request.value < |db.requests| && db.requests[r.request.value].listing == r.listing &&
      db.requests[r.request.value].status == RequestPending
  }

  /** The hold is confirmed, and with it the rescue request behind it. */
  ghost predicate HoldConfirmed(db: Db, db': Db, i: nat)
    requires i in db.payments
  {
    OnlyRow(db, db', i) && db' == db.(rows := db'.rows, payments := db'.payments, requests := db'.requests) &&
    db'.rows[i] == db.rows[i].(status := Reserved, pay := PayPaid) &&
    i in db'.payments && db'.payments[i] == db.payments[i].(status := PayPaid) &&
    if db.rows[i].request.Some? then RequestWins(db.requests, db'.requests, db.rows[i].request.value)
    else db'.requests == db.requests
  }

  /** The money goes to the refund queue, and the reservation, where it is not cancelled yet, with it.
      The stock stays where it is. */
  ghost predicate MoneyGoesBack(db: Db, db': Db, i: nat)
    requires i in db.payments
  {
    OnlyRow(db, db', i) &&
    db' == db.(rows := db'.rows, payments := db'.payments, jobs := db.jobs + {PaymentRefundJob(i)}) &&
    db'.rows[i] == db.rows[i].(status := Cancelled,
                               pay := if db.rows[i].pay == PayRefundFailed then PayRefundFailed
                                      else PayRefundPending) &&
    i in db'.payments &&
    db'.payments[i] == db.payments[i].(status := PayRefundPending, refundStatus := Some(PayRefundPending))
  }

  /** A payment confirms the hold it was made for. Where the hold is gone, or nobody wants it any more,
      the money goes back; where it was received before, or has been returned, nothing happens. */
  ghost predicate PaidOrderPromise(db: Db, db': Db, i: nat) {
    if i < |db.rows| && i in db.payments && db.rows[i].status == PaymentPending then
      if StillWanted(db, db.rows[i]) then HoldConfirmed(db, db', i) else MoneyGoesBack(db, db', i)
    else if i < |db.rows| && i in db.payments && db.rows[i].status !in {Reserved, PickedUp, Expired} &&
            db.payments[i].status != PayRefunded then
      MoneyGoesBack(db, db', i)
    else db' == db
  }

  lemma PaidOrderConfirms(db: Db, i: nat)
    requires Ready(db, i) && i in db.payments && db.rows[i].status == PaymentPending && StillWanted(db, db.rows[i])
    ensures HoldConfirmed(db, P.PaidOrder(db, i), i)
  {
    PaidHold(db, i);
  }

  lemma PaidOrderRefuses(db: Db, i: nat)
    requires Ready(db, i) && i in db.payments && db.rows[i].status == PaymentPending && !StillWanted(db, db.rows[i])
    ensures MoneyGoesBack(db, P.PaidOrder(db, i), i)
  {
    PaidHold(db, i);
  }

  lemma PaidOrderIsLate(db: Db, i: nat)
    requires Ready(db, i) && i in db.payments && db.payments[i].status != PayRefunded
    requires db.rows[i].status !in {PaymentPending, Reserved, PickedUp, Expired}
    ensures MoneyGoesBack(db, P.PaidOrder(db, i), i)
  {
    PaidLate(db, i);
  }

  lemma PaidOrderIsOld(db: Db, i: nat)
    requires Ready(db, i) && i in db.payments
    requires db.payments[i].status == PayRefunded || db.rows[i].status in {Reserved, PickedUp, Expired}
    ensures P.PaidOrder(db, i) == db
  {
  }

  lemma PaidOrderMeets(db: Db, i: nat)
    requires i < |db.rows| ==> Ready(db, i)
    requires forall k :: k in db.payments ==> k < |db.rows|
    ensures PaidOrderPromise(db, P.PaidOrder(db, i), i)
  {
    if i in db.payments {
      if db.rows[i].status == PaymentPending {
        if StillWanted(db, db.rows[i]) {
          PaidOrderConfirms(db, i);
        } else {
          PaidOrderRefuses(db, i);
        }
      } else if db.payments[i].status == PayRefunded || db.rows[i].status in {Reserved, PickedUp, Expired} {
        PaidOrderIsOld(db, i);
      } else {
        PaidOrderIsLate(db, i);
      }
    }
  }

  lemma PaidOrderPromised(db: Db, i: nat)
    requires Reachable(db)
    ensures PaidOrderPromise(db, Apply(db, PaidOrder(i)), i)
  {
    RowsReady(db);
    PaidOrderMeets(db, i);
    PaidOrderApplies(db, i);
  }

  /** A payment row that was lost is made again as it was first made. */
  ghost predicate RecoverPaymentPromise(db: Db, db': Db, i: nat) {
    if i in db.orders && i !in db.payments then
      OtherPayments(db, db', i) && db' == db.(payments := db'.payments) &&
      i in db'.payments && O.FreshPayment(db'.payments[i], db.orders[i])
    else db' == db
  }

  lemma RecoverPaymentPromised(db: Db, i: nat)
    requires Reachable(db)
    ensures RecoverPaymentPromise(db, Apply(db, RecoverPayment(i)), i)
  {
    ReachableInv(db);
    RecoverPaymentMeets(db, i);
    RecoverPaymentApplies(db, i);
  }

  lemma RecoverPaymentMeets(db: Db, i: nat)
    requires i in db.orders ==> i < |db.rows|
    ensures RecoverPaymentPromise(db, After(db, P.RecoverPayment(db, i)), i)
  {
    if i < |db.rows| {
      assert db.rows[i := db.rows[i]] == db.rows;
    }
  }
}
