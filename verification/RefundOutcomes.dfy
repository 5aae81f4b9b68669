/** What the refund worker and the refund webhooks do, told from outside: when they act, and what they
    then write. */
module RefundOutcomes {
  import opened Model
  import opened Machine
  import opened Frames
  import opened Cells
  import opened Invariant
  import opened Runs
  import F = Refunds

  // ---------- reports of the gateway ----------

  predicate Refused(s: GatewayStatus) {
    s == GatewayFailed || s == GatewayCancelled
  }

  /** The payment takes the status the gateway reported; so does the reservation, but a refund that has
      failed does not go back to pending there. */
  predicate StatusReported(r: Reservation, r': Reservation, p: Payment, p': Payment, s: GatewayStatus) {
    (p'.status == PayRefunded <==> s == GatewaySuccess) &&
    (p'.status == PayRefundFailed <==> Refused(s)) &&
    (p'.status == PayRefundPending <==> s == GatewayPending) &&
    p'.refundStatus == Some(p'.status) &&
    (r'.pay == PayRefunded <==> s == GatewaySuccess) &&
    (r'.pay == PayRefundFailed <==> Refused(s) || (s == GatewayPending && r.pay == PayRefundFailed)) &&
    (r'.pay == PayRefundPending <==> s == GatewayPending && r.pay != PayRefundFailed) &&
    r' == r.(pay := r'.pay) &&
    p' == p.(status := p'.status, refundStatus := p'.refundStatus, depositStatus := p'.depositStatus)
  }

  /** The deposit takes the status the gateway reported, unless it has been refunded already. */
  predicate DepositReported(p: Payment, p': Payment, s: GatewayStatus) {
    (p'.depositStatus == DepositRefunded <==> s == GatewaySuccess || p.depositStatus == DepositRefunded) &&
    (p'.depositStatus == DepositRefundFailed <==> Refused(s) && p.depositStatus != DepositRefunded) &&
    (p'.depositStatus == DepositRefundPending <==> s == GatewayPending && p.depositStatus != DepositRefunded) &&
    p' == p.(depositStatus := p'.depositStatus)
  }

  /** Reservation `i` and its payment are all that changes. */
  ghost predicate ChangesRow(db: Db, db': Db, i: nat) {
    i in db.payments && i in db'.payments && OnlyRow(db, db', i) &&
    db' == db.(rows := db'.rows, payments := db'.payments)
  }

  ghost predicate RefundStored(db: Db, db': Db, i: nat, s: GatewayStatus, byWorker: bool) {
    ChangesRow(db, db', i) &&
    StatusReported(db.rows[i], db'.rows[i], db.payments[i], db'.payments[i], s) &&
    db'.payments[i].depositStatus
    == if byWorker && s == GatewaySuccess && db.payments[i].deposit > 0 then DepositRefunded
       else db.payments[i].depositStatus
  }

  ghost predicate DepositStored(db: Db, db': Db, i: nat, s: GatewayStatus) {
    ChangesRow(db, db', i) && db'.rows == db.rows && DepositReported(db.payments[i], db'.payments[i], s)
  }

  /** The worker stores what the gateway said about the whole payment until that is refunded. */
  ghost predicate PersistRefundPromise(db: Db, db': Db, c: RefundCall, s: GatewayStatus) {
    var i := c.reservation;
    if Answer(c, s) in db.answers && c.channel == PaymentChannel && i in db.payments &&
       db.payments[i].status != PayRefunded
    then RefundStored(db, db', i, s, true)
    else db' == db
  }

  /** ... and everything it said about a deposit. */
  ghost predicate PersistDepositRefundPromise(db: Db, db': Db, c: RefundCall, s: GatewayStatus) {
    if Answer(c, s) in db.answers && c.channel == DepositChannel then DepositStored(db, db', c.reservation, s)
    else db' == db
  }

  /** A webhook about the whole payment counts until that is refunded; a pending one only when an
      operator retries a refund that failed. */
  predicate WebhookCounts(p: Payment, s: GatewayStatus, allowRetry: bool) {
    p.status != PayRefunded && (s == GatewayPending ==> p.status == PayRefundFailed && allowRetry)
  }

  /** The same for a deposit. */
  predicate DepositWebhookCounts(p: Payment, s: GatewayStatus, allowRetry: bool) {
    p.depositStatus != DepositRefunded && (s == GatewayPending && p.depositStatus == DepositRefundFailed ==> allowRetry)
  }

  ghost predicate RefundEventPromise(db: Db, db': Db, c: RefundCall, s: GatewayStatus, allowRetry: bool) {
    var i := c.reservation;
    if Answer(c, s) !in db.answers || i !in db.payments then db' == db
    else if c.channel == PaymentChannel && WebhookCounts(db.payments[i], s, allowRetry) then
      RefundStored(db, db', i, s, false)
    else if c.channel == DepositChannel && DepositWebhookCounts(db.payments[i], s, allowRetry) then
      DepositStored(db, db', i, s)
    else db' == db
  }

  /** What the state knows about an answer of the gateway. */
  predicate Known(db: Db, c: RefundCall) {
    CallOk(db, c) && Ready(db, c.reservation)
  }

  lemma AnswerKnown(db: Db, c: RefundCall, s: GatewayStatus)
    requires Reachable(db) && Answer(c, s) in db.answers
    ensures Known(db, c) && c in db.calls
  {
    ReachableInv(db);
    assert Answer(c, s).call == c;
    InvReady(db, c.reservation);
  }

  lemma RecordRefundStores(db: Db, i: nat, s: GatewayStatus, byWorker: bool)
    requires i < |db.rows| && i in db.payments && db.rows[i].pay in {PayRefundPending, PayRefundFailed}
    ensures RefundStored(db, F.RecordRefund(db, i, F.Normalize(s), byWorker), i, s, byWorker)
  {
  }

  lemma RecordDepositStores(db: Db, i: nat, s: GatewayStatus)
    requires i < |db.rows| && i in db.payments
    ensures DepositStored(db, F.RecordDeposit(db, i, F.Normalize(s)), i, s)
  {
    assert F.RecordDeposit(db, i, F.Normalize(s)).rows == db.rows;
  }

  lemma PersistRefundMeets(db: Db, c: RefundCall, s: GatewayStatus)
    requires Answer(c, s) in db.answers ==> Known(db, c) && c in db.calls
    ensures PersistRefundPromise(db, After(db, F.PersistRefund(db, c, s)), c, s)
  {
    if F.PersistRefund(db, c, s).Done? {
      RecordRefundStores(db, c.reservation, s, true);
    }
  }

  lemma PersistDepositRefundMeets(db: Db, c: RefundCall, s: GatewayStatus)
    requires Answer(c, s) in db.answers ==> Known(db, c) && c in db.calls
    ensures PersistDepositRefundPromise(db, After(db, F.PersistDepositRefund(db, c, s)), c, s)
  {
    if Answer(c, s) in db.answers && c.channel == DepositChannel {
      RecordDepositStores(db, c.reservation, s);
    }
  }

  /** What a webhook does, once its payment is found. */
  lemma RefundWebhook(db: Db, c: RefundCall, s: GatewayStatus, allowRetry: bool)
    requires Known(db, c) && Answer(c, s) in db.answers && c.channel == PaymentChannel
    ensures var i := c.reservation;
            F.RefundEvent(db, c, s, allowRetry)
            == if WebhookCounts(db.payments[i], s, allowRetry) then Done(F.RecordRefund(db, i, F.Normalize(s), false))
               else Rejected(0)
  {
  }

  lemma DepositWebhook(db: Db, c: RefundCall, s: GatewayStatus, allowRetry: bool)
    requires Known(db, c) && Answer(c, s) in db.answers && c.channel == DepositChannel
    ensures var i := c.reservation;
            F.RefundEvent(db, c, s, allowRetry)
            == if DepositWebhookCounts(db.payments[i], s, allowRetry) then Done(F.RecordDeposit(db, i, F.Normalize(s)))
               else Rejected(0)
  {
  }

  lemma RefundEventMeets(db: Db, c: RefundCall, s: GatewayStatus, allowRetry: bool)
    requires Answer(c, s) in db.answers ==> Known(db, c) && c in db.calls
    ensures RefundEventPromise(db, After(db, F.RefundEvent(db, c, s, allowRetry)), c, s, allowRetry)
  {
    if Answer(c, s) in db.answers {
      if c.channel == PaymentChannel {
        RefundWebhook(db, c, s, allowRetry);
        if WebhookCounts(db.payments[c.reservation], s, allowRetry) {
          RecordRefundStores(db, c.reservation, s, false);
        }
      } else {
        DepositWebhook(db, c, s, allowRetry);
        RecordDepositStores(db, c.reservation, s);
      }
    }
  }

  // ---------- the calls ----------

  /** One call more is prepared: under the id that is on record, or under the next fresh one. */
  predicate CallPrepared(db: Db, db': Db, c: RefundCall, recorded: Option<nat>) {
    db'.prepared == db.prepared + {c} &&
    (recorded.Some? ==> c.id == recorded.value && db'.nextRefundId == db.nextRefundId) &&
    (recorded.None? ==> c.id == db.nextRefundId && db'.nextRefundId == db.nextRefundId + 1)
  }

  /** The worker prepares the refund of a payment that a job asks for, unless it is refunded already. */
  ghost predicate PrepareRefundPromise(db: Db, db': Db, i: nat, execute: bool) {
    if PaymentRefundJob(i) in db.jobs && i in db.payments && db.payments[i].status != PayRefunded && execute then
      i in db'.payments && OnlyRow(db, db', i) &&
      db' == db.(rows := db'.rows, payments := db'.payments, prepared := db'.prepared,
                 nextRefundId := db'.nextRefundId) &&
      var p, p' := db.payments[i], db'.payments[i];
      p'.refundId.Some? && CallPrepared(db, db', RefundCall(i, PaymentChannel, p'.refundId.value), p.refundId) &&
      p' == p.(status := PayRefundPending, refundStatus := Some(PayRefundPending), refundId := p'.refundId,
               refundAttempts := p.refundAttempts + 1) &&
      db'.rows[i] == db.rows[i].(pay := if db.rows[i].pay == PayRefundFailed then PayRefundFailed else PayRefundPending)
    else db' == db
  }

  /** ... and of a deposit. */
  ghost predicate PrepareDepositRefundPromise(db: Db, db': Db, i: nat, execute: bool) {
    if DepositRefundJob(i) in db.jobs && i in db.payments && db.payments[i].deposit > 0 &&
       db.payments[i].depositStatus != DepositRefunded && execute
    then
      i in db'.payments && OnlyRow(db, db', i) &&
      db' == db.(payments := db'.payments, prepared := db'.prepared, nextRefundId := db'.nextRefundId) &&
      var p, p' := db.payments[i], db'.payments[i];
      p'.depositRefundId.Some? &&
      CallPrepared(db, db', RefundCall(i, DepositChannel, p'.depositRefundId.value), p.depositRefundId) &&
      p' == p.(depositStatus := DepositRefundPending, depositRefundId := p'.depositRefundId)
    else db' == db
  }

  /** The gateway takes the calls that have been prepared, and no others. */
  predicate GatewayRepliesPromise(db: Db, db': Db, c: RefundCall, s: GatewayStatus) {
    if c in db.prepared then db' == db.(calls := db.calls + {c}, answers := db.answers + {Answer(c, s)}) else db' == db
  }

  lemma PrepareRefundMeets(db: Db, i: nat, execute: bool)
    requires PaymentRefundJob(i) in db.jobs ==> JobOk(db, PaymentRefundJob(i)) && Ready(db, i)
    ensures PrepareRefundPromise(db, After(db, F.PrepareRefund(db, i, execute)), i, execute)
  {
  }

  lemma PrepareDepositRefundMeets(db: Db, i: nat, execute: bool)
    requires DepositRefundJob(i) in db.jobs ==> JobOk(db, DepositRefundJob(i)) && Ready(db, i)
    ensures PrepareDepositRefundPromise(db, After(db, F.PrepareDepositRefund(db, i, execute)), i, execute)
  {
  }

  lemma JobKnown(db: Db, j: Job)
    requires Reachable(db) && j in db.jobs
    ensures JobOk(db, j) && Ready(db, j.reservation)
  {
    ReachableInv(db);
    InvReady(db, j.reservation);
  }

  // ---------- the steps ----------

  lemma PersistRefundPromised(db: Db, c: RefundCall, s: GatewayStatus)
    requires Reachable(db)
    ensures PersistRefundPromise(db, Apply(db, PersistRefund(c, s)), c, s)
  {
    if Answer(c, s) in db.answers {
      AnswerKnown(db, c, s);
    }
    PersistRefundMeets(db, c, s);
    PersistRefundApplies(db, c, s);
  }

  lemma PersistDepositRefundPromised(db: Db, c: RefundCall, s: GatewayStatus)
    requires Reachable(db)
    ensures PersistDepositRefundPromise(db, Apply(db, PersistDepositRefund(c, s)), c, s)
  {
    if Answer(c, s) in db.answers {
      AnswerKnown(db, c, s);
    }
    PersistDepositRefundMeets(db, c, s);
    PersistDepositRefundApplies(db, c, s);
  }

  lemma RefundEventPromised(db: Db, c: RefundCall, s: GatewayStatus, allowRetry: bool)
    requires Reachable(db)
    ensures RefundEventPromise(db, Apply(db, RefundEvent(c, s, allowRetry)), c, s, allowRetry)
  {
    if Answer(c, s) in db.answers {
      AnswerKnown(db, c, s);
    }
    RefundEventMeets(db, c, s, allowRetry);
    RefundEventApplies(db, c, s, allowRetry);
  }

  lemma PrepareRefundPromised(db: Db, i: nat, execute: bool)
    requires Reachable(db)
    ensures PrepareRefundPromise(db, Apply(db, PrepareRefund(i, execute)), i, execute)
  {
    if PaymentRefundJob(i) in db.jobs {
      JobKnown(db, PaymentRefundJob(i));
    }
    PrepareRefundMeets(db, i, execute);
    PrepareRefundApplies(db, i, execute);
  }

  lemma PrepareDepositRefundPromised(db: Db, i: nat, execute: bool)
    requires Reachable(db)
    ensures PrepareDepositRefundPromise(db, Apply(db, PrepareDepositRefund(i, execute)), i, execute)
  {
    if DepositRefundJob(i) in db.jobs {
      JobKnown(db, DepositRefundJob(i));
    }
    PrepareDepositRefundMeets(db, i, execute);
    PrepareDepositRefundApplies(db, i, execute);
  }

  lemma GatewayRepliesPromised(db: Db, c: RefundCall, s: GatewayStatus)
    ensures GatewayRepliesPromise(db, Apply(db, GatewayReplies(c, s)), c, s)
  {
    GatewayRepliesApplies(db, c, s);
  }
}
