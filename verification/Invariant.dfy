/** The global laws of the database, and the one lemma by which a step that touches a single
    row keeps them all. They are laws over the tables as a whole: sums over the rows of a listing or
    of a volunteer, pairs of rows that exclude each other, and a refund call for each answer. */
module Invariant {
  import opened Model
  import opened Stock
  import opened Changes
  import opened Cells
  import opened Sums

  predicate ShapeOk(db: Db) {
    (forall i :: 0 <= i < |db.rows| ==> db.rows[i].listing < |db.listings|) &&
    (forall i :: i in db.payments ==> i < |db.rows|) &&
    (forall i :: i in db.orders ==> i < |db.rows| && db.rows[i].pay != PayNotRequired)
  }

  predicate CellsOk(db: Db) {
    forall i :: 0 <= i < |db.rows| ==> CellOk(db.rows[i], PayOf(db, i))
  }

  /** Conservation of stock, listing by listing. */
  predicate StockOk(db: Db) {
    forall l :: 0 <= l < |db.listings| ==>
      0 <= db.listings[l].remaining &&
      db.listings[l].quantity == db.listings[l].remaining + Sum(db.rows, HeldOn(l))
  }

  /** The history of returns agrees with the table: once for a returned row, never otherwise. */
  ghost predicate ReturnsOk(db: Db) {
    forall i: nat :: db.returned[i] == (if i < |db.rows| && Returned(db.rows[i]) then 1 else 0)
  }

  predicate ClaimsOk(db: Db) {
    forall i, j :: 0 <= i < j < |db.rows| && Claiming(db.rows[i]) && Claiming(db.rows[j]) ==>
      db.rows[i].user != db.rows[j].user || db.rows[i].listing != db.rows[j].listing
  }

  predicate TasksOk(db: Db) {
    forall i, j :: 0 <= i < j < |db.rows| && Working(db.rows[i]) && Working(db.rows[j]) ==>
      db.rows[i].volunteer != db.rows[j].volunteer
  }

  ghost predicate CountersOk(db: Db) {
    forall v: nat ::
      StatsOf(db.stats, v).completed == Sum(db.rows, DeliveredBy(v)) &&
      StatsOf(db.stats, v).timeouts == Sum(db.rows, TimedOutBy(v))
  }

  // ---------- the refund conversation ----------

  predicate JobOk(db: Db, j: Job) {
    j.reservation < |db.rows| && JobFor(j, db.rows[j.reservation].status)
  }

  predicate CallOk(db: Db, c: RefundCall) {
    c.id < db.nextRefundId && c.reservation < |db.rows| && c.reservation in db.payments &&
    match c.channel
    case PaymentChannel =>
      db.rows[c.reservation].status == Cancelled && db.payments[c.reservation].refundId == Some(c.id)
    case DepositChannel =>
      db.rows[c.reservation].status == PickedUp && db.payments[c.reservation].depositRefundId == Some(c.id)
  }

  /** What a payment claims about its refunds has been prepared, and confirmed by the gateway. */
  predicate Documented(prepared: set<RefundCall>, answers: set<Answer>, i: nat, p: Payment) {
    (p.refundId.Some? ==> RefundCall(i, PaymentChannel, p.refundId.value) in prepared) &&
    (p.depositRefundId.Some? ==> RefundCall(i, DepositChannel, p.depositRefundId.value) in prepared) &&
    (p.status == PayRefunded ==>
     p.refundId.Some? && Answer(RefundCall(i, PaymentChannel, p.refundId.value), GatewaySuccess) in answers) &&
    (p.depositStatus == DepositRefunded && p.status != PayRefunded ==>
       p.depositRefundId.Some? &&
         Answer(RefundCall(i, DepositChannel, p.depositRefundId.value), GatewaySuccess) in answers)
  }

  predicate Proven(db: Db, i: nat)
    requires i in db.payments
  {
    Documented(db.prepared, db.answers, i, db.payments[i])
  }

  predicate JobsFit(db: Db) {
    forall j :: j in db.jobs ==> JobOk(db, j)
  }

  predicate CallsFit(db: Db) {
    forall c :: c in db.prepared ==> CallOk(db, c)
  }

  predicate IdsFit(prepared: set<RefundCall>) {
    forall c, c' :: c in prepared && c' in prepared && c.id == c'.id ==> c == c'
  }

  predicate AnswersFit(db: Db) {
    db.calls <= db.prepared && forall a :: a in db.answers ==> a.call in db.calls
  }

  predicate AllProven(db: Db) {
    forall i :: i in db.payments ==> Proven(db, i)
  }

  ghost predicate RefundsOk(db: Db) {
    JobsFit(db) && CallsFit(db) && IdsFit(db.prepared) && AnswersFit(db) && AllProven(db)
  }

  ghost predicate Inv(db: Db) {
    ShapeOk(db) && CellsOk(db) && StockOk(db) && ReturnsOk(db) && ClaimsOk(db) && TasksOk(db) && CountersOk(db) &&
    RefundsOk(db)
  }

  /** What the laws say about row `i` alone. */
  predicate Ready(db: Db, i: nat) {
    i < |db.rows| && db.rows[i].listing < |db.listings| && CellOk(db.rows[i], PayOf(db, i)) &&
    (i in db.payments ==> Proven(db, i))
  }

  lemma InvReady(db: Db, i: nat)
    requires Inv(db) && i < |db.rows|
    ensures Ready(db, i)
  {
  }

  // ---------- a step that changes one row ----------

  /** `db'` is what `c` makes of row `i`, but for orders, rescue requests and prepared refunds. */
  ghost predicate Performs(db: Db, db': Db, i: nat, c: Change)
    requires i < |db.rows|
  {
    db' == Perform(db, i, c).(orders := db'.orders, requests := db'.requests, prepared := db'.prepared,
                              nextRefundId := db'.nextRefundId)
  }

  /** The parts of a performed change, one by one. */
  lemma PerformedRows(db: Db, db': Db, i: nat, c: Change)
    requires i < |db.rows| && Performs(db, db', i, c)
    ensures db'.rows == db.rows[i := c.row] && db'.payments == WithPayment(db.payments, i, c.payment)
    ensures db'.jobs == db.jobs + c.jobs && db'.stats == Scored(db.stats, c.score)
    ensures db'.now == db.now && db'.calls == db.calls && db'.answers == db.answers
  {
  }

  lemma PerformedStock(db: Db, db': Db, i: nat, c: Change)
    requires i < |db.rows| && Performs(db, db', i, c) && (c.back ==> db.rows[i].stockReserved)
    ensures var r := db.rows[i];
            if c.back then
              db'.listings == RestoreStock(db.listings, r.listing, r.quantity, db.now, true) &&
              db'.returned == db.returned + multiset{i}
            else db'.listings == db.listings && db'.returned == db.returned
  {
  }

  /** An order is recorded for its own row only. */
  predicate OrdersFit(db: Db, db': Db, i: nat, c: Change) {
    forall k :: k in db'.orders ==> k in db.orders || (k == i && c.row.pay != PayNotRequired)
  }

  /** The refunds prepared in the step are for row `i`, under a fresh id. */
  ghost predicate PreparesFor(db: Db, db': Db, i: nat) {
    db.nextRefundId <= db'.nextRefundId && db.prepared <= db'.prepared &&
    (forall c :: c in db'.prepared - db.prepared ==> c.reservation == i && CallOk(db', c) && c.id >= db.nextRefundId) &&
    (forall c, c' :: c in db'.prepared - db.prepared && c' in db'.prepared - db.prepared ==> c == c')
  }

  predicate WorksAlone(db: Db, i: nat, r: Reservation) {
    forall j :: 0 <= j < |db.rows| && j != i && Working(db.rows[j]) ==> db.rows[j].volunteer != r.volunteer
  }

  /** Only a volunteer without a task starts one. */
  predicate MayWork(db: Db, i: nat, r: Reservation)
    requires i < |db.rows|
  {
    Working(r) && !Working(db.rows[i]) ==> WorksAlone(db, i, r)
  }

  lemma PerformKeepsShape(db: Db, db': Db, i: nat, c: Change)
    requires ShapeOk(db) && i < |db.rows| && Performs(db, db', i, c) && OrdersFit(db, db', i, c)
    requires c.row.listing == db.rows[i].listing && (c.row.pay == PayNotRequired <==> db.rows[i].pay == PayNotRequired)
    ensures ShapeOk(db')
  {
    PerformedRows(db, db', i, c);
    assert |db'.listings| == |db.listings|;
  }

  lemma PerformKeepsCells(db: Db, db': Db, i: nat, c: Change)
    requires CellsOk(db) && i < |db.rows| && Performs(db, db', i, c) && CellOk(c.row, c.payment)
    requires i in db.payments ==> c.payment.Some?
    ensures CellsOk(db') && PayOf(db', i) == c.payment
    ensures forall k :: 0 <= k < |db.rows| && k != i ==> db'.rows[k] == db.rows[k] && PayOf(db', k) == PayOf(db, k)
  {
    PerformedRows(db, db', i, c);
  }

  lemma PerformKeepsStock(db: Db, db': Db, i: nat, c: Change)
    requires ShapeOk(db) && StockOk(db) && i < |db.rows| && Performs(db, db', i, c) &&
             (c.back ==> db.rows[i].stockReserved)
    requires SamePerson(db.rows[i], c.row) && db.rows[i].quantity > 0
    requires (Returned(c.row) <==> Returned(db.rows[i]) || c.back) && !(Returned(db.rows[i]) && c.back)
    ensures StockOk(db')
  {
    PerformedRows(db, db', i, c);
    PerformedStock(db, db', i, c);
    forall l | 0 <= l < |db'.listings|
      ensures 0 <= db'.listings[l].remaining
      ensures db'.listings[l].quantity == db'.listings[l].remaining + Sum(db'.rows, HeldOn(l))
    {
      SumUpdate(db.rows, i, c.row, HeldOn(l));
    }
  }

  lemma PerformKeepsReturns(db: Db, db': Db, i: nat, c: Change)
    requires ReturnsOk(db) && i < |db.rows| && Performs(db, db', i, c) && (c.back ==> db.rows[i].stockReserved)
    requires (Returned(c.row) <==> Returned(db.rows[i]) || c.back) && !(Returned(db.rows[i]) && c.back)
    ensures ReturnsOk(db')
  {
    PerformedRows(db, db', i, c);
    PerformedStock(db, db', i, c);
  }

  lemma PerformKeepsClaims(db: Db, db': Db, i: nat, c: Change)
    requires ClaimsOk(db) && i < |db.rows| && Performs(db, db', i, c)
    requires SamePerson(db.rows[i], c.row) && (Claiming(c.row) ==> Claiming(db.rows[i]))
    ensures ClaimsOk(db')
  {
    PerformedRows(db, db', i, c);
  }

  lemma PerformKeepsTasks(db: Db, db': Db, i: nat, c: Change)
    requires TasksOk(db) && i < |db.rows| && Performs(db, db', i, c) && MayWork(db, i, c.row)
    requires Working(c.row) && Working(db.rows[i]) ==> c.row.volunteer == db.rows[i].volunteer
    ensures TasksOk(db')
  {
    PerformedRows(db, db', i, c);
  }

  /** The statistics and the row move together. */
  lemma ScoreMoves(stats: map<nat, Stats>, r: Reservation, r': Reservation, score: Score, v: nat)
    requires ScoreOk(r, r', score)
    ensures StatsOf(Scored(stats, score), v).completed
            == StatsOf(stats, v).completed - Delivered(r, v) + Delivered(r', v)
    ensures StatsOf(Scored(stats, score), v).timeouts == StatsOf(stats, v).timeouts - TimedOut(r, v) + TimedOut(r', v)
  {
  }

  lemma PerformKeepsCounters(db: Db, db': Db, i: nat, c: Change)
    requires CountersOk(db) && i < |db.rows| && Performs(db, db', i, c) && ScoreOk(db.rows[i], c.row, c.score)
    ensures CountersOk(db')
  {
    PerformedRows(db, db', i, c);
    forall v: nat
      ensures StatsOf(db'.stats, v).completed == Sum(db'.rows, DeliveredBy(v))
      ensures StatsOf(db'.stats, v).timeouts == Sum(db'.rows, TimedOutBy(v))
    {
      ScoreMoves(db.stats, db.rows[i], c.row, c.score, v);
      SumUpdate(db.rows, i, c.row, DeliveredBy(v));
      SumUpdate(db.rows, i, c.row, TimedOutBy(v));
    }
  }

  lemma PerformKeepsJobs(db: Db, db': Db, i: nat, c: Change)
    requires JobsFit(db) && i < |db.rows| && Performs(db, db', i, c) && JobsOk(i, c) &&
             StatusStep(db.rows[i].status, c.row.status)
    ensures JobsFit(db')
  {
    PerformedRows(db, db', i, c);
    forall j | j in db'.jobs ensures JobOk(db', j) {
      if j in db.jobs {
        assert JobOk(db, j);
      }
    }
  }

  lemma PerformKeepsCalls(db: Db, db': Db, i: nat, c: Change)
    requires CallsFit(db) && i < |db.rows| && Performs(db, db', i, c) && PreparesFor(db, db', i)
    requires StatusStep(db.rows[i].status, c.row.status) && PaymentStep(PayOf(db, i), c.payment)
    ensures CallsFit(db')
  {
    PerformedRows(db, db', i, c);
    forall k | k in db'.prepared ensures CallOk(db', k) {
      if k in db.prepared {
        assert CallOk(db, k);
      } else {
        assert k in db'.prepared - db.prepared;
      }
    }
  }

  lemma PerformKeepsIds(db: Db, db': Db, i: nat)
    requires CallsFit(db) && IdsFit(db.prepared) && PreparesFor(db, db', i)
    ensures IdsFit(db'.prepared)
  {
    forall c, c' | c in db'.prepared && c' in db'.prepared && c.id == c'.id
      ensures c == c'
    {
      assert c in db.prepared ==> CallOk(db, c);
      assert c' in db.prepared ==> CallOk(db, c');
      assert c !in db.prepared ==> c in db'.prepared - db.prepared;
      assert c' !in db.prepared ==> c' in db'.prepared - db.prepared;
    }
  }

  lemma PerformKeepsProven(db: Db, db': Db, i: nat, c: Change)
    requires AllProven(db) && i < |db.rows| && Performs(db, db', i, c) && db.prepared <= db'.prepared
    requires c.payment.Some? ==> Documented(db'.prepared, db.answers, i, c.payment.value)
    requires i in db.payments ==> c.payment.Some?
    ensures AllProven(db')
  {
    PerformedRows(db, db', i, c);
    forall k | k in db'.payments ensures Proven(db', k) {
      if k != i {
        assert Proven(db, k);
      }
    }
  }

  lemma PerformKeepsRefunds(db: Db, db': Db, i: nat, c: Change)
    requires RefundsOk(db) && i < |db.rows| && Performs(db, db', i, c) && PreparesFor(db, db', i)
    requires JobsOk(i, c) && StatusStep(db.rows[i].status, c.row.status) && PaymentStep(PayOf(db, i), c.payment)
    requires c.payment.Some? ==> Documented(db'.prepared, db.answers, i, c.payment.value)
    ensures RefundsOk(db')
  {
    PerformKeepsJobs(db, db', i, c);
    PerformKeepsCalls(db, db', i, c);
    PerformKeepsIds(db, db', i);
    PerformKeepsProven(db, db', i, c);
    PerformedRows(db, db', i, c);
  }

  /** What a step must show beyond the change of its row. */
  ghost predicate StepFits(db: Db, db': Db, i: nat, c: Change)
    requires i < |db.rows|
  {
    Performs(db, db', i, c) && OrdersFit(db, db', i, c) && PreparesFor(db, db', i) && MayWork(db, i, c.row) &&
    (c.payment.Some? ==> Documented(db'.prepared, db.answers, i, c.payment.value))
  }

  lemma PerformKeepsTables(db: Db, db': Db, i: nat, c: Change, may: Licence)
    requires ShapeOk(db) && CellsOk(db) && StockOk(db) && ReturnsOk(db) && i < |db.rows| && StepFits(db, db', i, c)
    requires ChangeOk(i, db.rows[i], PayOf(db, i), c, may)
    ensures ShapeOk(db') && CellsOk(db') && StockOk(db') && ReturnsOk(db')
  {
    PerformKeepsShape(db, db', i, c);
    PerformKeepsCells(db, db', i, c);
    PerformKeepsStock(db, db', i, c);
    PerformKeepsReturns(db, db', i, c);
  }

  lemma PerformKeepsPairs(db: Db, db': Db, i: nat, c: Change, may: Licence)
    requires ClaimsOk(db) && TasksOk(db) && CountersOk(db) && i < |db.rows| && StepFits(db, db', i, c)
    requires CellOk(db.rows[i], PayOf(db, i)) && ChangeOk(i, db.rows[i], PayOf(db, i), c, may)
    ensures ClaimsOk(db') && TasksOk(db') && CountersOk(db')
  {
    PerformKeepsClaims(db, db', i, c);
    PerformKeepsTasks(db, db', i, c);
    PerformKeepsCounters(db, db', i, c);
  }

  /** Every step that changes one row in order keeps all the laws. */
  lemma PerformKeepsInv(db: Db, db': Db, i: nat, c: Change, may: Licence)
    requires Inv(db) && i < |db.rows| && StepFits(db, db', i, c)
    requires ChangeOk(i, db.rows[i], PayOf(db, i), c, may)
    ensures Inv(db')
  {
    PerformKeepsTables(db, db', i, c, may);
    PerformKeepsPairs(db, db', i, c, may);
    PerformKeepsRefunds(db, db', i, c);
  }
}
