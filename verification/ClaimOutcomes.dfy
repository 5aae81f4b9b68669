/** What reserving and cancelling do, told from outside: who may, and what is then in the tables. */
module ClaimOutcomes {
  import opened Model
  import opened Machine
  import opened Frames
  import opened Cells
  import opened Invariant
  import opened Runs
  import opened Sums
  import S = Stock
  import R = Reservations
  import B = BulkOrders
  import T = TableSteps
  import W = StatusTests

  // ---------- new claims ----------

  /** The user has had a reservation on the listing that was not released before its confirmation. */
  predicate Claimed(db: Db, user: nat, l: nat) {
    exists i :: 0 <= i < |db.rows| && db.rows[i].user == user && db.rows[i].listing == l &&
                db.rows[i].status in {PaymentPending, Reserved, PickedUp, Cancelled}
  }

  lemma ClaimedMeans(db: Db, user: nat, l: nat)
    requires Reachable(db)
    ensures Claimed(db, user, l) <==> S.AlreadyClaimed(db.rows, user, l)
  {
    forall i | 0 <= i < |db.rows|
      ensures S.Claims(db.rows[i], user, l) <==>
                db.rows[i].user == user && db.rows[i].listing == l &&
                db.rows[i].status in {PaymentPending, Reserved, PickedUp, Cancelled}
    {
      W.LockTestsAgree(db, i);
    }
  }

  /** A reservation as it is when it is made, but for its status and its payment. */
  predicate FreshRow(r: Reservation, user: nat, l: nat, q: int, t: PickupType, request: Option<nat>) {
    r.user == user && r.listing == l && r.quantity == q && r.pickupType == t && r.request == request &&
    r.task == (if t == SelfPickup then TaskSelfPickup else TaskPending) && r.stockReserved &&
    r.volunteer.None? && r.assignedAt.None? && r.pickedUpAt.None? && r.completedAt.None?
  }

  /** It waits for its payment. */
  predicate Waits(r: Reservation, expires: Option<int>) {
    r.status == PaymentPending && r.pay == PayPending && r.paymentExpiresAt == expires
  }

  /** It is confirmed at once, because no money is due. */
  predicate Confirmed(r: Reservation) {
    r.status == Reserved && r.pay == PayNotRequired && r.paymentExpiresAt.None?
  }

  /** The payment row of a new session. */
  predicate FreshPayment(p: Payment, deposit: nat) {
    p.status == PayPending && p.refundStatus.None? && p.refundId.None? && p.refundAttempts == 0 &&
    p.deposit == deposit && p.depositRefundId.None? &&
    p.depositStatus == if deposit > 0 then DepositHeld else DepositNotRequired
  }

  /** A user holds one or two meals of an offer that costs something, and pays within ten minutes. */
  ghost predicate HoldStockPromise(db: Db, db': Db, user: nat, l: nat, q: int, isApproved: bool, canReserve: bool) {
    if 1 <= q <= 2 && isApproved && canReserve && l < |db.listings| && !db.listings[l].isFree &&
       db.listings[l].status == ListingActive && db.now < db.listings[l].deadline && q <= db.listings[l].remaining &&
       !Claimed(db, user, l)
    then
      db' == db.(rows := db'.rows, listings := db'.listings) &&
      NewRowOnly(db, db') && StockLeaves(db.listings, db'.listings, l, q) &&
      FreshRow(db'.rows[|db.rows|], user, l, q, SelfPickup, None) && Waits(db'.rows[|db.rows|], None)
    else db' == db
  }

  lemma HoldStockMeets(db: Db, user: nat, l: nat, q: int, isApproved: bool, canReserve: bool)
    requires Claimed(db, user, l) <==> S.AlreadyClaimed(db.rows, user, l)
    ensures HoldStockPromise(db, After(db, R.HoldStock(db, user, l, q, isApproved, canReserve)), user, l, q,
                             isApproved, canReserve)
  {
  }

  lemma HoldStockPromised(db: Db, user: nat, l: nat, q: int, isApproved: bool, canReserve: bool)
    requires Reachable(db)
    ensures HoldStockPromise(db, Apply(db, HoldStock(user, l, q, isApproved, canReserve)), user, l, q, isApproved,
                             canReserve)
  {
    ClaimedMeans(db, user, l);
    HoldStockMeets(db, user, l, q, isApproved, canReserve);
    HoldStockApplies(db, user, l, q, isApproved, canReserve);
  }

  /** A hold that has no order yet gets one, and with it a payment row, if the transaction commits. */
  ghost predicate OpenPaymentSessionPromise(db: Db, db': Db, i: nat, deposit: nat, commits: bool) {
    if i < |db.rows| && db.rows[i].status == PaymentPending && i !in db.orders && i !in db.payments then
      if commits then
        OnlyRow(db, db', i) && db' == db.(rows := db'.rows, payments := db'.payments, orders := db'.orders) &&
        db'.orders == db.orders[i := deposit] &&
        db'.rows[i] == db.rows[i].(paymentExpiresAt := Some(db.now + 10 * MINUTE)) &&
        i in db'.payments && FreshPayment(db'.payments[i], deposit)
      else db' == db.(orders := db.orders[i := deposit])
    else db' == db
  }

  lemma OpenPaymentSessionMeets(db: Db, i: nat, deposit: nat, commits: bool)
    requires i < |db.rows| ==> Ready(db, i)
    ensures OpenPaymentSessionPromise(db, After(db, R.OpenPaymentSession(db, i, deposit, commits)), i, deposit, commits)
  {
  }

  lemma OpenPaymentSessionPromised(db: Db, i: nat, deposit: nat, commits: bool)
    requires Reachable(db)
    ensures OpenPaymentSessionPromise(db, Apply(db, OpenPaymentSession(i, deposit, commits)), i, deposit, commits)
  {
    if i < |db.rows| {
      ReachableReady(db, i);
    }
    OpenPaymentSessionMeets(db, i, deposit, commits);
    OpenPaymentSessionApplies(db, i, deposit, commits);
  }

  // ---------- rescues ----------

  /** What an NGO gets: a reservation, and a payment session when a deposit is due. */
  predicate NgoRow(r: Reservation, now: int, user: nat, l: nat, q: int, terms: R.NgoTerms, request: Option<nat>) {
    FreshRow(r, user, l, q, NgoPickup, request) &&
    if terms.requiresDeposit then Waits(r, Some(now + 10 * MINUTE)) else Confirmed(r)
  }

  /** The rows from `start` up to `end` get payment sessions: payments and orders ... */
  ghost predicate SessionsAdded(db: Db, db': Db, start: nat, end: nat, deposit: nat) {
    (forall k: nat :: !(start <= k < end) ==> PayOf(db', k) == PayOf(db, k)) &&
    (forall k :: start <= k < end ==> k in db'.payments && FreshPayment(db'.payments[k], deposit)) &&
    (forall k: nat :: k in db'.orders <==> k in db.orders || start <= k < end) &&
    (forall k :: k in db'.orders ==> db'.orders[k] == if start <= k < end then deposit else db.orders[k])
  }

  /** ... and deadlines. */
  predicate DeadlinesSet(rows: seq<Reservation>, rows': seq<Reservation>, start: nat, end: nat, deadline: int) {
    |rows'| == |rows| &&
    forall k :: 0 <= k < |rows| ==>
      rows'[k] == if start <= k < end then rows[k].(paymentExpiresAt := Some(deadline)) else rows[k]
  }

  ghost predicate SessionsOpened(db: Db, db': Db, start: nat, end: nat, deposit: nat) {
    db' == db.(rows := db'.rows, payments := db'.payments, orders := db'.orders) &&
    SessionsAdded(db, db', start, end, deposit) && DeadlinesSet(db.rows, db'.rows, start, end, db.now + 10 * MINUTE)
  }

  lemma OneMoreSession(db: Db, d: Db, start: nat, i: nat, deposit: nat)
    requires start <= i < |db.rows| && SessionsOpened(db, d, start, i, deposit)
    ensures SessionsOpened(db, R.OpenSession(d, i, deposit), start, i + 1, deposit)
  {
    assert R.OpenSession(d, i, deposit).orders == d.orders[i := deposit];
  }

  lemma OpenSessionsOpens(db: Db, start: nat, deposit: nat)
    requires start <= |db.rows|
    ensures SessionsOpened(db, R.OpenSessions(db, start, |db.rows|, deposit), start, |db.rows|, deposit)
  {
    var keeps := (d: Db, i: nat) => start <= i && SessionsOpened(db, d, start, i, deposit);
    forall d: Db, i: nat | keeps(d, i) && i < |d.rows|
      ensures keeps(R.OpenSession(d, i, deposit), i + 1)
    {
      OneMoreSession(db, d, start, i, deposit);
    }
    T.SessionsKeep(db, start, |db.rows|, deposit, keeps);
  }

  /** The rows from `n` on have payment sessions when a deposit is due, and nothing else has changed in
      the payments and orders. */
  ghost predicate NgoPayments(db: Db, db': Db, n: nat, terms: R.NgoTerms) {
    if terms.requiresDeposit then SessionsAdded(db, db', n, |db'.rows|, terms.deposit)
    else db'.payments == db.payments && db'.orders == db.orders
  }

  predicate MayAccept(db: Db, ngo: nat, q: nat, approved: set<nat>, terms: R.NgoTerms) {
    terms.canReserve && (terms.requiresDeposit ==> terms.orderOk) &&
    q < |db.requests| && db.requests[q].ngo == ngo && db.requests[q].status == RequestPending &&
    var l := db.requests[q].listing;
    l < |db.listings| && l in approved && db.listings[l].isFree && db.listings[l].status == ListingActive &&
    0 < db.listings[l].remaining && db.now + 30 * MINUTE <= db.listings[l].deadline && !Claimed(db, ngo, l)
  }

  /** An NGO takes all that is left of the listing it was asked to rescue. Without a deposit the request
      is accepted at once and its rivals expire; with one, no request changes. */
  ghost predicate AcceptRequestPromise(db: Db, db': Db, ngo: nat, q: nat, approved: set<nat>, terms: R.NgoTerms) {
    if MayAccept(db, ngo, q, approved, terms) then
      var l := db.requests[q].listing;
      db' == db.(rows := db'.rows, listings := db'.listings, payments := db'.payments, orders := db'.orders,
                 requests := db'.requests) &&
      NewRowOnly(db, db') && StockLeaves(db.listings, db'.listings, l, db.listings[l].remaining) &&
      NgoRow(db'.rows[|db.rows|], db.now, ngo, l, db.listings[l].remaining, terms, Some(q)) &&
      NgoPayments(db, db', |db.rows|, terms) &&
      if terms.requiresDeposit then db'.requests == db.requests else RequestWins(db.requests, db'.requests, q)
    else db' == db
  }

  lemma AcceptRequestActs(db: Db, ngo: nat, q: nat, approved: set<nat>, terms: R.NgoTerms)
    requires q < |db.requests| ==> (Claimed(db, ngo, db.requests[q].listing) <==>
                                    S.AlreadyClaimed(db.rows, ngo, db.requests[q].listing))
    ensures R.AcceptRequest(db, ngo, q, approved, terms).Done? <==> MayAccept(db, ngo, q, approved, terms)
  {
  }

  lemma AcceptedRow(db: Db, ngo: nat, q: nat, terms: R.NgoTerms)
    requires q < |db.requests| && db.requests[q].listing < |db.listings| &&
             0 < db.listings[db.requests[q].listing].remaining
    ensures var mid := R.Accepted(db, ngo, q, terms);
            var l := db.requests[q].listing;
            mid == db.(rows := mid.rows, listings := mid.listings, requests := mid.requests) &&
            NewRowOnly(db, mid) && StockLeaves(db.listings, mid.listings, l, db.listings[l].remaining) &&
            FreshRow(mid.rows[|db.rows|], ngo, l, db.listings[l].remaining, NgoPickup, Some(q)) &&
            (if terms.requiresDeposit then Waits(mid.rows[|db.rows|], None) else Confirmed(mid.rows[|db.rows|])) &&
            if terms.requiresDeposit then mid.requests == db.requests else RequestWins(db.requests, mid.requests, q)
  {
  }

  lemma AcceptanceFree(db: Db, ngo: nat, q: nat, approved: set<nat>, terms: R.NgoTerms)
    requires MayAccept(db, ngo, q, approved, terms) && !terms.requiresDeposit
    ensures AcceptRequestPromise(db, R.Accepted(db, ngo, q, terms), ngo, q, approved, terms)
  {
    AcceptedRow(db, ngo, q, terms);
  }

  lemma AcceptancePaid(db: Db, ngo: nat, q: nat, approved: set<nat>, terms: R.NgoTerms)
    requires MayAccept(db, ngo, q, approved, terms) && terms.requiresDeposit
    ensures var mid := R.Accepted(db, ngo, q, terms);
            AcceptRequestPromise(db, R.OpenSessions(mid, |db.rows|, |mid.rows|, terms.deposit), ngo, q, approved, terms)
  {
    AcceptedRow(db, ngo, q, terms);
    OpenSessionsOpens(R.Accepted(db, ngo, q, terms), |db.rows|, terms.deposit);
  }

  lemma AcceptRequestMeets(db: Db, ngo: nat, q: nat, approved: set<nat>, terms: R.NgoTerms)
    requires q < |db.requests| ==> (Claimed(db, ngo, db.requests[q].listing) <==>
                                    S.AlreadyClaimed(db.rows, ngo, db.requests[q].listing))
    ensures AcceptRequestPromise(db, After(db, R.AcceptRequest(db, ngo, q, approved, terms)), ngo, q, approved, terms)
  {
    AcceptRequestActs(db, ngo, q, approved, terms);
    if R.AcceptRequest(db, ngo, q, approved, terms).Done? {
      T.AcceptingMay(db, ngo, q, approved, terms);
      if terms.requiresDeposit {
        AcceptancePaid(db, ngo, q, approved, terms);
      } else {
        AcceptanceFree(db, ngo, q, approved, terms);
      }
    }
  }

  lemma AcceptRequestPromised(db: Db, ngo: nat, q: nat, approved: set<nat>, terms: R.NgoTerms)
    requires Reachable(db)
    ensures AcceptRequestPromise(db, Apply(db, AcceptRequest(ngo, q, approved, terms)), ngo, q, approved, terms)
  {
    if q < |db.requests| {
      ClaimedMeans(db, ngo, db.requests[q].listing);
    }
    AcceptRequestMeets(db, ngo, q, approved, terms);
    AcceptRequestApplies(db, ngo, q, approved, terms);
  }

  // ---------- bulk orders ----------

  predicate BulkActs(db: Db, user: nat, items: seq<R.Item>, approved: set<nat>, terms: R.NgoTerms) {
    |items| > 0 && (forall k :: 0 <= k < |items| ==> 1 <= items[k].quantity <= 40) &&
    Sum(items, (item: R.Item) => item.quantity) <= 40 &&
    terms.canReserve && (terms.requiresDeposit ==> terms.orderOk) &&
    (forall j, k :: 0 <= j < k < |items| ==> items[j].listing != items[k].listing) &&
    forall k :: 0 <= k < |items| ==> MayBeServed(db, user, items[k], approved)
  }

  predicate MayBeServed(db: Db, user: nat, item: R.Item, approved: set<nat>) {
    var l := item.listing;
    l < |db.listings| && l in approved && db.listings[l].isFree && db.listings[l].status == ListingActive &&
    db.now < db.listings[l].deadline && item.quantity <= db.listings[l].remaining && !Claimed(db, user, l)
  }

  /** One row for each item, with a payment session when a deposit is due. */
  ghost predicate RowsOrdered(db: Db, db': Db, user: nat, items: seq<R.Item>, terms: R.NgoTerms) {
    |db'.rows| == |db.rows| + |items| &&
    (forall k :: 0 <= k < |db.rows| ==> db'.rows[k] == db.rows[k]) &&
    (forall k :: 0 <= k < |items| ==>
       NgoRow(db'.rows[|db.rows| + k], db.now, user, items[k].listing, items[k].quantity, terms, None)) &&
    NgoPayments(db, db', |db.rows|, terms)
  }

  /** An NGO orders up to forty free meals from different listings, all or none. */
  ghost predicate BulkReservePromise(db: Db, db': Db, user: nat, items: seq<R.Item>, approved: set<nat>,
                                     terms: R.NgoTerms) {
    if BulkActs(db, user, items, approved, terms) then
      db' == db.(rows := db'.rows, listings := db'.listings, payments := db'.payments, orders := db'.orders) &&
      B.ListingsServed(db, db', items) && RowsOrdered(db, db', user, items, terms)
    else db' == db
  }

  /** The new rows before their payment sessions. */
  predicate RowsMade(db: Db, d: Db, user: nat, items: seq<R.Item>, terms: R.NgoTerms) {
    d == db.(rows := d.rows, listings := d.listings) && |d.rows| == |db.rows| + |items| &&
    (forall k :: 0 <= k < |db.rows| ==> d.rows[k] == db.rows[k]) &&
    forall k :: 0 <= k < |items| ==>
      d.rows[|db.rows| + k] == R.NgoRow(user, items[k].listing, items[k].quantity, terms, None)
  }

  lemma {:induction false} ItemsMake(db: Db, user: nat, items: seq<R.Item>, approved: set<nat>, terms: R.NgoTerms)
    ensures var result := R.ReserveItems(db, user, items, approved, terms);
            result.Done? ==> RowsMade(db, result.db, user, items, terms)
    decreases |items|
  {
    if |items| > 0 {
      ItemsMake(db, user, items[..|items| - 1], approved, terms);
    }
  }

  lemma MadeIsOrdered(db: Db, d: Db, user: nat, items: seq<R.Item>, terms: R.NgoTerms)
    requires RowsMade(db, d, user, items, terms) && !terms.requiresDeposit
    ensures RowsOrdered(db, d, user, items, terms)
  {
  }

  lemma MadeAndOpened(db: Db, d: Db, e: Db, user: nat, items: seq<R.Item>, terms: R.NgoTerms)
    requires RowsMade(db, d, user, items, terms) && terms.requiresDeposit
    requires SessionsOpened(d, e, |db.rows|, |d.rows|, terms.deposit)
    ensures RowsOrdered(db, e, user, items, terms) && e.listings == d.listings
    ensures e == db.(rows := e.rows, listings := e.listings, payments := e.payments, orders := e.orders)
  {
    assert forall k :: PayOf(d, k) == PayOf(db, k);
  }

  lemma BulkActsIff(db: Db, user: nat, items: seq<R.Item>, approved: set<nat>, terms: R.NgoTerms)
    requires forall l :: Claimed(db, user, l) <==> S.AlreadyClaimed(db.rows, user, l)
    ensures R.BulkReserve(db, user, items, approved, terms).Done? <==> BulkActs(db, user, items, approved, terms)
  {
    B.BulkIsAllOrNothing(db, user, items, approved, terms);
    assert forall k :: 0 <= k < |items| ==>
      (MayBeServed(db, user, items[k], approved) <==> B.Fits(db, user, items[k], approved));
  }

  lemma BulkReserveMeets(db: Db, user: nat, items: seq<R.Item>, approved: set<nat>, terms: R.NgoTerms)
    requires forall l :: Claimed(db, user, l) <==> S.AlreadyClaimed(db.rows, user, l)
    ensures BulkReservePromise(db, After(db, R.BulkReserve(db, user, items, approved, terms)), user, items, approved,
                               terms)
  {
    BulkActsIff(db, user, items, approved, terms);
    B.BulkIsAllOrNothing(db, user, items, approved, terms);
    if R.BulkReserve(db, user, items, approved, terms).Done? {
      ItemsMake(db, user, items, approved, terms);
      var d := R.ReserveItems(db, user, items, approved, terms).db;
      if terms.requiresDeposit {
        OpenSessionsOpens(d, |db.rows|, terms.deposit);
        MadeAndOpened(db, d, R.OpenSessions(d, |db.rows|, |d.rows|, terms.deposit), user, items, terms);
      } else {
        MadeIsOrdered(db, d, user, items, terms);
      }
    }
  }

  lemma BulkReservePromised(db: Db, user: nat, items: seq<R.Item>, approved: set<nat>, terms: R.NgoTerms)
    requires Reachable(db)
    ensures BulkReservePromise(db, Apply(db, BulkReserve(user, items, approved, terms)), user, items, approved, terms)
  {
    forall l: nat ensures Claimed(db, user, l) <==> S.AlreadyClaimed(db.rows, user, l) {
      ClaimedMeans(db, user, l);
    }
    BulkReserveMeets(db, user, items, approved, terms);
    BulkReserveApplies(db, user, items, approved, terms);
  }
}
