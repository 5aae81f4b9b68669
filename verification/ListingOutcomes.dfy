/** What the transactions about listings and rescue requests do, told from outside. */
module ListingOutcomes {
  import opened Model
  import opened Machine
  import opened Frames
  import opened Sums
  import opened Cells
  import opened Invariant
  import opened Runs
  import S = Stock
  import L = Listings
  import D = DeliveryOutcomes
  import T = TableSteps
  import V = Laws
  import W = StatusTests

  // ---------- listings ----------

  /** A provider offers up to a thousand meals for at least half an hour, from now on or later. */
  predicate PostListingPromise(db: Db, db': Db, provider: nat, quantity: int, start: Option<int>, deadline: int,
                               isFree: bool) {
    if 1 <= quantity <= 1000 && db.now + 30 * MINUTE <= deadline &&
       (start.Some? ==> db.now <= start.value < deadline)
    then
      db' == db.(listings := db.listings +
                             [Listing(provider, quantity, quantity, isFree, ListingActive, start, deadline)])
    else db' == db
  }

  /** Someone has a confirmed reservation on the listing, or has collected one. */
  predicate Booked(db: Db, l: nat) {
    exists i :: 0 <= i < |db.rows| && db.rows[i].listing == l && db.rows[i].status in {Reserved, PickedUp}
  }

  predicate MayEdit(db: Db, provider: nat, l: nat, e: L.Edit) {
    l < |db.listings| && db.listings[l].provider == provider && db.listings[l].status != ListingDeleted &&
    db.now < e.deadline && (db.listings[l].start.Some? ==> db.listings[l].start.value < e.deadline) &&
    (e.quantity.Some? ==> db.listings[l].quantity - db.listings[l].remaining <= e.quantity.value) &&
    1 <= (if e.quantity.Some? then e.quantity.value else db.listings[l].quantity) <= 10000 &&
    (e.repriced || e.isFree != db.listings[l].isFree ==> !Booked(db, l))
  }

  /** An edit of the provider moves the quantity no lower than what is taken, and the deadline into the
      future; what it costs is fixed once somebody has booked. What is taken stays taken. */
  predicate EditListingPromise(db: Db, db': Db, provider: nat, l: nat, e: L.Edit) {
    if MayEdit(db, provider, l, e) then
      OtherListings(db.listings, db'.listings, l) && db' == db.(listings := db'.listings) &&
      var f, f' := db.listings[l], db'.listings[l];
      f'.quantity - f'.remaining == f.quantity - f.remaining &&
      f'.quantity == (if e.quantity.Some? then e.quantity.value else f.quantity) &&
      f' == f.(quantity := f'.quantity, remaining := f'.remaining, deadline := e.deadline, isFree := e.isFree)
    else db' == db
  }

  predicate ArchiveListingPromise(db: Db, db': Db, provider: nat, l: nat) {
    if l < |db.listings| && db.listings[l].provider == provider && !Booked(db, l) then
      OtherListings(db.listings, db'.listings, l) && db' == db.(listings := db'.listings) &&
      db'.listings[l] == db.listings[l].(status := ListingDeleted)
    else db' == db
  }

  lemma BookedMeans(db: Db, l: nat)
    requires Reachable(db)
    ensures Booked(db, l) <==> S.HasBlocking(db.rows, l)
  {
    forall i | 0 <= i < |db.rows|
      ensures S.Blocking(db.rows[i]) <==> db.rows[i].status in {Reserved, PickedUp}
    {
      W.LockTestsAgree(db, i);
    }
  }

  /** Bounds that no edit has to be asked for. */
  predicate Sized(f: Listing) {
    0 <= f.remaining <= f.quantity
  }

  lemma EditListingMeets(db: Db, provider: nat, l: nat, e: L.Edit)
    requires Booked(db, l) <==> S.HasBlocking(db.rows, l)
    requires l < |db.listings| ==> Sized(db.listings[l])
    ensures EditListingPromise(db, After(db, L.EditListing(db, provider, l, e)), provider, l, e)
  {
  }

  // ---------- rescue requests ----------

  /** The NGO itself has already rescued from the listing. */
  predicate Rescued(db: Db, l: nat, ngo: nat) {
    exists i :: 0 <= i < |db.rows| && db.rows[i].listing == l && db.rows[i].user == ngo &&
                db.rows[i].pickupType == NgoPickup && db.rows[i].status in {Reserved, PickedUp}
  }

  predicate MayAsk(db: Db, provider: nat, l: nat, ngo: nat, v: L.Rescue) {
    l < |db.listings| && db.listings[l].provider == provider && db.listings[l].isFree &&
    db.now + 30 * MINUTE <= db.listings[l].deadline && v.isVerified && v.isEligible && !Rescued(db, l, ngo) &&
    (v.raced || forall q :: 0 <= q < |db.requests| && db.requests[q].listing == l && db.requests[q].ngo == ngo ==>
                              db.requests[q].status != RequestPending)
  }

  /** A provider asks an NGO to rescue a free listing, in time, and once unless two calls race. */
  predicate RequestRescuePromise(db: Db, db': Db, provider: nat, l: nat, ngo: nat, v: L.Rescue) {
    if MayAsk(db, provider, l, ngo, v) then
      db' == db.(requests := db.requests + [NgoRequest(l, ngo, RequestPending)])
    else db' == db
  }

  /** The NGO that was asked declines, while the request waits. */
  predicate RejectRequestPromise(db: Db, db': Db, ngo: nat, q: nat) {
    if q < |db.requests| && db.requests[q].ngo == ngo && db.requests[q].status == RequestPending then
      db' == db.(requests := db'.requests) && |db'.requests| == |db.requests| &&
      db'.requests[q] == db.requests[q].(status := RequestRejected) &&
      forall k :: 0 <= k < |db.requests| && k != q ==> db'.requests[k] == db.requests[k]
    else db' == db
  }

  lemma RescuedMeans(db: Db, l: nat, ngo: nat)
    requires Reachable(db)
    ensures Rescued(db, l, ngo) <==> L.RescuedBy(db.rows, l, ngo)
  {
    forall i | 0 <= i < |db.rows|
      ensures S.Blocking(db.rows[i]) <==> db.rows[i].status in {Reserved, PickedUp}
    {
      W.LockTestsAgree(db, i);
    }
  }

  lemma PendingIn(requests: seq<NgoRequest>, l: nat, ngo: nat)
    ensures NgoRequest(l, ngo, RequestPending) in requests <==>
            exists q :: 0 <= q < |requests| && requests[q].listing == l && requests[q].ngo == ngo &&
                        requests[q].status == RequestPending
  {
    if q :| 0 <= q < |requests| && requests[q].listing == l && requests[q].ngo == ngo &&
            requests[q].status == RequestPending {
      assert requests[q] == NgoRequest(l, ngo, RequestPending);
    }
  }

  lemma RequestRescueMeets(db: Db, provider: nat, l: nat, ngo: nat, v: L.Rescue)
    requires Rescued(db, l, ngo) <==> L.RescuedBy(db.rows, l, ngo)
    ensures RequestRescuePromise(db, After(db, L.RequestRescue(db, provider, l, ngo, v)), provider, l, ngo, v)
  {
    PendingIn(db.requests, l, ngo);
  }

  // ---------- expiry ----------

  /** A confirmed reservation on the listing that nobody has come for. */
  predicate Unclaimed(r: Reservation, l: nat) {
    r.listing == l && r.status == Reserved && r.volunteer.None?
  }

  /** Each row that nobody has come for expires, with its deposit kept when there is one and its
      operation is open; no other row and no other payment changes. */
  ghost predicate RowsExpire(db: Db, db': Db, l: nat, open: set<nat>) {
    |db'.rows| == |db.rows| &&
    (forall i :: 0 <= i < |db.rows| ==>
       if Unclaimed(db.rows[i], l) then
         db'.rows[i] == db.rows[i].(status := Status.Expired, task := TaskExpired) && D.DepositKept(db, db', i, open)
       else db'.rows[i] == db.rows[i] && PayOf(db', i) == PayOf(db, i)) &&
    db'.payments.Keys == db.payments.Keys
  }

  /** The units of these rows come back, and the listing is off. */
  ghost predicate OfferEnds(db: Db, db': Db, l: nat) {
    OtherListings(db.listings, db'.listings, l) &&
    db'.listings[l] == db.listings[l].(status := ListingExpired, remaining := db'.listings[l].remaining) &&
    db'.listings[l].remaining == db.listings[l].remaining +
                                 Sum(db.rows, (r: Reservation) => if Unclaimed(r, l) then r.quantity else 0) &&
    forall i: nat :: db'.returned[i] == db.returned[i] + if i < |db.rows| && Unclaimed(db.rows[i], l) then 1 else 0
  }

  predicate Due(db: Db, l: nat, expected: Option<int>) {
    l < |db.listings| && (db.listings[l].status == ListingActive || db.listings[l].status == ListingCompleted) &&
    db.listings[l].deadline <= db.now && (expected.Some? ==> expected.value == db.listings[l].deadline)
  }

  /** The expiry job of a listing that is due ends the offer, the reservations nobody has come for and
      the requests that still wait for it. */
  ghost predicate ExpireListingPromise(db: Db, db': Db, l: nat, expected: Option<int>, open: set<nat>) {
    if Due(db, l, expected) then
      db' == db.(listings := db'.listings, rows := db'.rows, payments := db'.payments, requests := db'.requests,
                 returned := db'.returned) &&
      RowsExpire(db, db', l, open) && OfferEnds(db, db', l) && RequestsLapse(db.requests, db'.requests, l)
    else db' == db
  }

  lemma UnclaimedExpires(db: Db, l: nat, i: nat)
    requires Ready(db, i)
    ensures L.ExpiresWith(db.rows[i], l) <==> Unclaimed(db.rows[i], l)
    ensures Unclaimed(db.rows[i], l) ==> L.RetainsDeposit(db.rows[i])
  {
  }

  lemma RowExpires(db: Db, l: nat, open: set<nat>, i: nat)
    requires Ready(db, i) && l < |db.listings|
    ensures var db' := T.Expired(db, l, open);
            if Unclaimed(db.rows[i], l) then
              db'.rows[i] == db.rows[i].(status := Status.Expired, task := TaskExpired) &&
              D.DepositKept(db, db', i, open)
            else db'.rows[i] == db.rows[i] && PayOf(db', i) == PayOf(db, i)
  {
    UnclaimedExpires(db, l, i);
    T.ExpiredRow(db, l, open, i);
  }

  lemma OfferEnded(db: Db, l: nat, open: set<nat>)
    requires l < |db.listings| && forall i: nat :: i < |db.rows| ==> Ready(db, i)
    ensures OfferEnds(db, T.Expired(db, l, open), l)
  {
    forall i: nat | i < |db.rows|
      ensures L.ExpiresWith(db.rows[i], l) <==> Unclaimed(db.rows[i], l)
      ensures db.rows[i].quantity > 0
    {
      UnclaimedExpires(db, l, i);
      assert Ready(db, i);
    }
    var f := (r: Reservation) => if Unclaimed(r, l) then r.quantity else 0;
    SumSame(db.rows, L.ReturnedBy(l), f);
    SumNonNegative(db.rows, f);
  }

  lemma ExpireListingMeets(db: Db, l: nat, expected: Option<int>, open: set<nat>)
    requires forall i: nat :: i < |db.rows| ==> Ready(db, i)
    requires forall i :: i in db.payments ==> i < |db.rows|
    requires L.ExpireListing(db, l, expected, open).Done? <==> Due(db, l, expected)
    ensures ExpireListingPromise(db, After(db, L.ExpireListing(db, l, expected, open)), l, expected, open)
  {
    if Due(db, l, expected) {
      OfferEnded(db, l, open);
      forall i: nat | i < |db.rows|
        ensures var db' := T.Expired(db, l, open);
                if Unclaimed(db.rows[i], l) then
                  db'.rows[i] == db.rows[i].(status := Status.Expired, task := TaskExpired) &&
                  D.DepositKept(db, db', i, open)
                else db'.rows[i] == db.rows[i] && PayOf(db', i) == PayOf(db, i)
      {
        RowExpires(db, l, open, i);
      }
    }
  }

  // ---------- the steps ----------

  lemma PostListingPromised(db: Db, provider: nat, quantity: int, start: Option<int>, deadline: int, isFree: bool)
    ensures PostListingPromise(db, Apply(db, PostListing(provider, quantity, start, deadline, isFree)), provider,
                               quantity, start, deadline, isFree)
  {
    PostListingApplies(db, provider, quantity, start, deadline, isFree);
  }

  lemma EditListingPromised(db: Db, provider: nat, l: nat, e: L.Edit)
    requires Reachable(db)
    ensures EditListingPromise(db, Apply(db, EditListing(provider, l, e)), provider, l, e)
  {
    BookedMeans(db, l);
    if l < |db.listings| {
      V.StockConserved(db, l);
    }
    EditListingMeets(db, provider, l, e);
    EditListingApplies(db, provider, l, e);
  }

  lemma ArchiveListingPromised(db: Db, provider: nat, l: nat)
    requires Reachable(db)
    ensures ArchiveListingPromise(db, Apply(db, ArchiveListing(provider, l)), provider, l)
  {
    BookedMeans(db, l);
    ArchiveListingApplies(db, provider, l);
  }

  lemma RequestRescuePromised(db: Db, provider: nat, l: nat, ngo: nat, v: L.Rescue)
    requires Reachable(db)
    ensures RequestRescuePromise(db, Apply(db, RequestRescue(provider, l, ngo, v)), provider, l, ngo, v)
  {
    RescuedMeans(db, l, ngo);
    RequestRescueMeets(db, provider, l, ngo, v);
    RequestRescueApplies(db, provider, l, ngo, v);
  }

  lemma RejectRequestPromised(db: Db, ngo: nat, q: nat)
    ensures RejectRequestPromise(db, Apply(db, RejectRequest(ngo, q)), ngo, q)
  {
    RejectRequestApplies(db, ngo, q);
  }

  lemma ExpiryActs(db: Db, l: nat, expected: Option<int>, open: set<nat>)
    requires Reachable(db)
    ensures L.ExpireListing(db, l, expected, open).Done? <==> Due(db, l, expected)
  {
    if Due(db, l, expected) {
      ReachableInv(db);
      T.ExpiryNeverAborts(db, l, expected, open);
    }
  }

  lemma ExpireListingPromised(db: Db, l: nat, expected: Option<int>, open: set<nat>)
    requires Reachable(db)
    ensures ExpireListingPromise(db, Apply(db, ExpireListing(l, expected, open)), l, expected, open)
  {
    RowsReady(db);
    ExpiryActs(db, l, expected, open);
    ExpireListingMeets(db, l, expected, open);
    ExpireListingApplies(db, l, expected, open);
  }
}
