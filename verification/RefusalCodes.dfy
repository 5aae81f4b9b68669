/** Why a request is refused: the code a caller gets, from reasons a caller can see. */
module RefusalCodes {
  import opened Model
  import opened Machine
  import opened Sums
  import opened Runs
  import opened ListingOutcomes
  import opened ClaimOutcomes
  import opened ReleaseOutcomes
  import opened DeliveryOutcomes
  import opened Promises
  import S = Stock
  import L = Listings
  import R = Reservations
  import B = BulkOrders
  import D = Deliveries
  import V = Invariant

  /** The requests of providers about their listings. Here and below, 400 is a request that is wrong or
      late, 403 a caller without the right, 404 something that is not there, 409 a conflict with what
      others have done. */
  function ListingCode(db: Db, step: Step): Option<nat>
    requires IsListingStep(step) && !step.ExpireListing?
  {
    match step
    case PostListing(_, quantity, start, deadline, _) =>
      if quantity < 1 || quantity > 1000 || deadline < db.now + 30 * MINUTE ||
         (start.Some? && (start.value < db.now || deadline <= start.value))
      then Some(400) else None
    case EditListing(provider, l, e) =>
      if l >= |db.listings| then Some(404)
      else
        var f := db.listings[l];
        var quantity := if e.quantity.Some? then e.quantity.value else f.quantity;
        if f.provider != provider then Some(403)
        else if f.status == ListingDeleted then Some(409)
        else if e.deadline <= db.now || (f.start.Some? && e.deadline <= f.start.value) ||
                quantity < 1 || quantity > 10000 then Some(400)
        else if quantity < f.quantity - f.remaining ||
                ((e.repriced || e.isFree != f.isFree) && Booked(db, l)) then Some(409)
        else None
    case ArchiveListing(provider, l) =>
      if l >= |db.listings| then Some(404)
      else if db.listings[l].provider != provider then Some(403)
      else if Booked(db, l) then Some(409) else None
    case RequestRescue(provider, l, ngo, v) =>
      if l >= |db.listings| || db.listings[l].provider != provider then Some(404)
      else if !db.listings[l].isFree then Some(403)
      else if db.listings[l].deadline < db.now + 30 * MINUTE then Some(400)
      else if !v.isVerified then Some(404)
      else if !v.isEligible then Some(403)
      else if MayAsk(db, provider, l, ngo, v) then None else Some(409)
    case RejectRequest(ngo, q) =>
      if q < |db.requests| && db.requests[q].ngo == ngo && db.requests[q].status == RequestPending then None
      else Some(404)
    case _ => None
  }

  /** The first item of a bulk order that cannot be served. */
  function ItemsCode(db: Db, user: nat, items: seq<R.Item>, approved: set<nat>): Option<nat> {
    if |items| == 0 then None
    else
      var front, last := items[..|items| - 1], items[|items| - 1];
      var earlier := ItemsCode(db, user, front, approved);
      if earlier.Some? then earlier
      else if last.listing >= |db.listings| || last.listing !in approved then Some(404)
      else if !db.listings[last.listing].isFree then Some(403)
      else if MayBeServed(db, user, last, approved) && forall k :: 0 <= k < |front| ==> front[k].listing != last.listing
      then None else Some(409)
  }

  predicate WellFormed(items: seq<R.Item>) {
    |items| > 0 && (forall k :: 0 <= k < |items| ==> 1 <= items[k].quantity <= 40) &&
    Sum(items, (item: R.Item) => item.quantity) <= 40
  }

  /** The requests of users and NGOs about reservations. */
  function ClaimCode(db: Db, step: Step): Option<nat>
    requires IsClaimStep(step) && !step.CompensateHold? && RowsListed(db)
  {
    match step
    case AcceptRequest(ngo, q, approved, terms) =>
      if !terms.canReserve then Some(403)
      else if q >= |db.requests| || db.requests[q].ngo != ngo || db.requests[q].status != RequestPending then Some(409)
      else
        var l := db.requests[q].listing;
        if l >= |db.listings| || l !in approved then Some(404)
        else if db.listings[l].status != ListingActive then Some(409)
        else if !db.listings[l].isFree then Some(403)
        else if Claimed(db, ngo, l) then Some(409)
        else if db.listings[l].deadline < db.now + 30 * MINUTE then Some(400)
        else if db.listings[l].remaining <= 0 then Some(409)
        else if terms.requiresDeposit && !terms.orderOk then Some(400) else None
    case HoldStock(user, l, q, isApproved, canReserve) =>
      if q < 1 || q > 2 then Some(400)
      else if l >= |db.listings| || !isApproved then Some(404)
      else if db.listings[l].isFree then Some(403)
      else if db.listings[l].status != ListingActive || db.listings[l].deadline <= db.now ||
              db.listings[l].remaining < q || Claimed(db, user, l) then Some(409)
      else if !canReserve then Some(403) else None
    case OpenPaymentSession(i, _, _) =>
      if i < |db.rows| && db.rows[i].status == PaymentPending && i !in db.orders && i !in db.payments then None
      else Some(409)
    case BulkReserve(user, items, approved, terms) =>
      if !WellFormed(items) then Some(400)
      else if !terms.canReserve then Some(403)
      else if ItemsCode(db, user, items, approved).Some? then ItemsCode(db, user, items, approved)
      else if terms.requiresDeposit && !terms.orderOk then Some(400) else None
    case CancelReservation(user, i) =>
      if i >= |db.rows| then Some(404)
      else if db.rows[i].user != user then Some(403)
      else if db.rows[i].status == Cancelled then Some(409)
      else if (db.rows[i].status == PaymentPending && i in db.payments) ||
              (db.rows[i].status == Reserved && InTime(db, i))
      then None else Some(400)
    case MarkPickedUp(provider, i, codeOk) =>
      if i >= |db.rows| then Some(404)
      else if db.listings[db.rows[i].listing].provider != provider then Some(403)
      else if db.rows[i].status != Reserved then Some(409)
      else if !codeOk || (db.rows[i].pickupType == NgoPickup && db.rows[i].task != TaskInProgress) then Some(400)
      else None
  }

  predicate Busy(db: Db, v: nat) {
    exists k :: 0 <= k < |db.rows| && OnTask(db.rows[k], v)
  }

  /** The requests of volunteers. */
  function TaskCode(db: Db, step: Step): Option<nat>
    requires step.StartTask? || step.CompleteTask?
  {
    match step
    case StartTask(v, i, raced) =>
      if !raced && Busy(db, v) then Some(409)
      else if i >= |db.rows| then Some(404)
      else if db.rows[i].status == Reserved && db.rows[i].task == TaskPending && !Busy(db, v) then None else Some(409)
    case CompleteTask(v, i, codeOk) =>
      if i >= |db.rows| then Some(404)
      else if db.rows[i].volunteer != Some(v) then Some(403)
      else if db.rows[i].status != Reserved then Some(409)
      else if db.rows[i].task != TaskPickedFromProvider || !codeOk then Some(400) else None
  }

  predicate RefusedWith(result: Result, code: Option<nat>) {
    (result.Done? <==> code.None?) && (result.Rejected? ==> code == Some(result.code))
  }

  lemma EditListingCode(db: Db, provider: nat, l: nat, e: L.Edit)
    requires Booked(db, l) <==> S.HasBlocking(db.rows, l)
    ensures RefusedWith(L.EditListing(db, provider, l, e), ListingCode(db, EditListing(provider, l, e)))
  {
  }

  lemma RequestRescueCode(db: Db, provider: nat, l: nat, ngo: nat, v: L.Rescue)
    requires Rescued(db, l, ngo) <==> L.RescuedBy(db.rows, l, ngo)
    ensures RefusedWith(L.RequestRescue(db, provider, l, ngo, v), ListingCode(db, RequestRescue(provider, l, ngo, v)))
  {
    PendingIn(db.requests, l, ngo);
  }

  /** Refusals about listings are told apart as said. */
  lemma ListingsRefused(db: Db, step: Step)
    requires Reachable(db) && IsListingStep(step) && !step.ExpireListing?
    ensures RefusedWith(ExecuteListing(db, step), ListingCode(db, step))
  {
    match step
    case EditListing(provider, l, e) =>
      BookedMeans(db, l);
      EditListingCode(db, provider, l, e);
    case ArchiveListing(_, l) => BookedMeans(db, l);
    case RequestRescue(provider, l, ngo, v) =>
      RescuedMeans(db, l, ngo);
      RequestRescueCode(db, provider, l, ngo, v);
    case _ =>
  }

  lemma AcceptRequestCode(db: Db, ngo: nat, q: nat, approved: set<nat>, terms: R.NgoTerms)
    requires RowsListed(db)
    requires q < |db.requests| ==> (Claimed(db, ngo, db.requests[q].listing) <==>
                                    S.AlreadyClaimed(db.rows, ngo, db.requests[q].listing))
    ensures RefusedWith(R.AcceptRequest(db, ngo, q, approved, terms),
                        ClaimCode(db, AcceptRequest(ngo, q, approved, terms)))
  {
  }

  lemma HoldStockCode(db: Db, user: nat, l: nat, q: int, isApproved: bool, canReserve: bool)
    requires RowsListed(db) && (Claimed(db, user, l) <==> S.AlreadyClaimed(db.rows, user, l))
    ensures RefusedWith(R.HoldStock(db, user, l, q, isApproved, canReserve),
                        ClaimCode(db, HoldStock(user, l, q, isApproved, canReserve)))
  {
  }

  lemma CancelReservationCode(db: Db, user: nat, i: nat)
    requires RowsListed(db) && (i < |db.rows| ==> V.Ready(db, i))
    ensures RefusedWith(R.CancelReservation(db, user, i), ClaimCode(db, CancelReservation(user, i)))
  {
  }

  lemma MarkPickedUpCode(db: Db, provider: nat, i: nat, codeOk: bool)
    requires RowsListed(db) && (i < |db.rows| ==> V.Ready(db, i))
    ensures RefusedWith(R.MarkPickedUp(db, provider, i, codeOk), ClaimCode(db, MarkPickedUp(provider, i, codeOk)))
  {
  }

  lemma {:induction false} ItemsRefused(db: Db, user: nat, items: seq<R.Item>, approved: set<nat>, terms: R.NgoTerms)
    requires forall l: nat :: Claimed(db, user, l) <==> S.AlreadyClaimed(db.rows, user, l)
    requires R.ItemsInRange(items)
    ensures RefusedWith(R.ReserveItems(db, user, items, approved, terms), ItemsCode(db, user, items, approved))
    decreases |items|
  {
    if |items| > 0 {
      var front, last := items[..|items| - 1], items[|items| - 1];
      ItemsRefused(db, user, front, approved, terms);
      var mid := R.ReserveItems(db, user, front, approved, terms);
      if mid.Done? {
        B.ItemsServed(db, user, front, approved, terms);
        ItemRefused(db, mid.db, user, front, last, approved, terms);
      }
    }
  }

  lemma ItemRefused(db: Db, d: Db, user: nat, front: seq<R.Item>, last: R.Item, approved: set<nat>, terms: R.NgoTerms)
    requires forall l: nat :: Claimed(db, user, l) <==> S.AlreadyClaimed(db.rows, user, l)
    requires B.AllServed(db, d, user, front) && last.quantity > 0
    ensures RefusedWith(R.ReserveItem(d, user, last, approved, terms),
                        if last.listing >= |db.listings| || last.listing !in approved then Some(404)
                        else if !db.listings[last.listing].isFree then Some(403)
                        else if MayBeServed(db, user, last, approved) && !B.Named(front, last.listing) then None
                        else Some(409))
  {
    B.ItemServed(d, user, last, approved, terms);
    B.FitsLater(db, d, user, front, last, approved);
    if last.listing < |db.listings| {
      if B.Named(front, last.listing) {
        var k :| 0 <= k < |front| && front[k].listing == last.listing;
        assert B.Served(db.listings[last.listing], d.listings[last.listing], front[k].quantity);
      }
      assert d.listings[last.listing].isFree == db.listings[last.listing].isFree;
    }
  }

  lemma BulkReserveCode(db: Db, user: nat, items: seq<R.Item>, approved: set<nat>, terms: R.NgoTerms)
    requires RowsListed(db) && forall l: nat :: Claimed(db, user, l) <==> S.AlreadyClaimed(db.rows, user, l)
    ensures RefusedWith(R.BulkReserve(db, user, items, approved, terms),
                        ClaimCode(db, BulkReserve(user, items, approved, terms)))
  {
    if R.ItemsInRange(items) {
      ItemsRefused(db, user, items, approved, terms);
    }
  }

  /** Refusals about reservations are told apart as said. */
  lemma ClaimsRefused(db: Db, step: Step)
    requires Reachable(db) && IsClaimStep(step) && !step.CompensateHold?
    ensures RowsListed(db) && RefusedWith(ExecuteClaim(db, step), ClaimCode(db, step))
  {
    ReachableListed(db);
    RowsReady(db);
    match step
    case AcceptRequest(ngo, q, approved, terms) =>
      if q < |db.requests| {
        ClaimedMeans(db, ngo, db.requests[q].listing);
      }
      AcceptRequestCode(db, ngo, q, approved, terms);
    case HoldStock(user, l, q, isApproved, canReserve) =>
      ClaimedMeans(db, user, l);
      HoldStockCode(db, user, l, q, isApproved, canReserve);
    case BulkReserve(user, items, approved, terms) =>
      forall l: nat ensures Claimed(db, user, l) <==> S.AlreadyClaimed(db.rows, user, l) {
        ClaimedMeans(db, user, l);
      }
      BulkReserveCode(db, user, items, approved, terms);
    case CancelReservation(user, i) => CancelReservationCode(db, user, i);
    case MarkPickedUp(provider, i, codeOk) => MarkPickedUpCode(db, provider, i, codeOk);
    case OpenPaymentSession(i, deposit, commits) => OpenPaymentSessionCode(db, i, deposit, commits);
  }

  lemma OpenPaymentSessionCode(db: Db, i: nat, deposit: nat, commits: bool)
    requires RowsListed(db) && (i < |db.rows| ==> V.Ready(db, i))
    ensures RefusedWith(R.OpenPaymentSession(db, i, deposit, commits),
                        ClaimCode(db, OpenPaymentSession(i, deposit, commits)))
  {
  }

  lemma StartTaskCode(db: Db, v: nat, i: nat, raced: bool)
    requires forall k: nat :: k < |db.rows| ==> V.Ready(db, k)
    ensures RefusedWith(D.StartTask(db, v, i, raced), TaskCode(db, StartTask(v, i, raced)))
  {
    forall k | 0 <= k < |db.rows|
      ensures D.Indexed(db.rows[k], v) <==> OnTask(db.rows[k], v)
    {
      assert V.Ready(db, k);
    }
    if i < |db.rows| {
      assert V.Ready(db, i);
    }
  }

  lemma CompleteTaskCode(db: Db, v: nat, i: nat, codeOk: bool)
    requires i < |db.rows| ==> V.Ready(db, i)
    ensures RefusedWith(D.CompleteTask(db, v, i, codeOk), TaskCode(db, CompleteTask(v, i, codeOk)))
  {
  }

  /** Refusals about tasks are told apart as said. */
  lemma TasksRefused(db: Db, step: Step)
    requires Reachable(db) && (step.StartTask? || step.CompleteTask?)
    ensures RefusedWith(ExecuteDelivery(db, step), TaskCode(db, step))
  {
    RowsReady(db);
    match step
    case StartTask(v, i, raced) => StartTaskCode(db, v, i, raced);
    case CompleteTask(v, i, codeOk) => CompleteTaskCode(db, v, i, codeOk);
  }
}
