/** Listings and rescue requests (food.controller.js, ngo.controller.js, expiry.worker.js). */
module Listings {
  import opened Model
  import opened Stock
  import opened Sums

  /** Time passes. */
  function Advance(db: Db, elapsed: nat): Result {
    Done(db.(now := db.now + elapsed))
  }

  /** `createFood`. */
  function PostListing(db: Db, provider: nat, quantity: int, start: Option<int>, deadline: int, isFree: bool): Result {
    if !(0 < quantity <= 1000) then Rejected(400)
    else if start.Some? && (start.value < db.now || start.value >= deadline) then Rejected(400)
    else if deadline - db.now < MIN_PICKUP_WINDOW then Rejected(400)
    else
      Done(db.(listings := db.listings + [Listing(provider, quantity, quantity, isFree, ListingActive, start,
                                                  deadline)]))
  }

  /** What `updateFood` asks for; `repriced` says that the price or the original price changes. */
  datatype Edit = Edit(quantity: Option<int>, deadline: int, isFree: bool, repriced: bool)

  /** What `updateFood` does to quantity, deadline and free status. */
  function EditListing(db: Db, provider: nat, l: nat, e: Edit): Result {
    if l >= |db.listings| then Rejected(404)
    else
      var f := db.listings[l];
      if f.provider != provider then Rejected(403)
      else if f.status == ListingDeleted then Rejected(409)
      else if e.deadline <= db.now || (f.start.Some? && f.start.value >= e.deadline) then Rejected(400)
      else
        var next := if e.quantity.Some? then e.quantity.value else f.quantity;
        if !(1 <= next <= 10000) then Rejected(400)
        else if f.remaining + (next - f.quantity) < 0 then Rejected(409)
        else if (e.repriced || e.isFree != f.isFree) && HasBlocking(db.rows, l) then Rejected(409)
        else
          Done(db.(listings := db.listings[l := f.(quantity := next,
                                                  remaining := f.remaining + (next - f.quantity),
                                                  deadline := e.deadline,
                                                  isFree := e.isFree)]))
  }

  /** `deleteFood` archives. */
  function ArchiveListing(db: Db, provider: nat, l: nat): Result {
    if l >= |db.listings| then Rejected(404)
    else if db.listings[l].provider != provider then Rejected(403)
    else if HasBlocking(db.rows, l) then Rejected(409)
    else Done(db.(listings := db.listings[l := db.listings[l].(status := ListingDeleted)]))
  }

  /** The NGO already has a reservation on the listing. */
  predicate RescuedBy(rows: seq<Reservation>, l: nat, ngo: nat) {
    exists i :: 0 <= i < |rows| && rows[i].listing == l && rows[i].user == ngo &&
                rows[i].pickupType == NgoPickup && Blocking(rows[i])
  }

  /** The verdicts about the NGO, and whether another call slipped in: `requestNGO` runs without a
      transaction, so the look for a duplicate may come before another call's INSERT. */
  datatype Rescue = Rescue(isVerified: bool, isEligible: bool, raced: bool)

  /** `requestNGO`. */
  function RequestRescue(db: Db, provider: nat, l: nat, ngo: nat, v: Rescue): Result {
    if l >= |db.listings| || db.listings[l].provider != provider then Rejected(404)
    else if !db.listings[l].isFree then Rejected(403)
    else if db.listings[l].deadline - db.now < MIN_NGO_RESCUE_REMAINING then Rejected(400)
    else if !v.isVerified then Rejected(404)
    else if !v.isEligible then Rejected(403)
    else if RescuedBy(db.rows, l, ngo) then Rejected(409)
    else if !v.raced && NgoRequest(l, ngo, RequestPending) in db.requests then Rejected(409)
    else Done(db.(requests := db.requests + [NgoRequest(l, ngo, RequestPending)]))
  }

  /** `rejectRequest`. */
  function RejectRequest(db: Db, ngo: nat, q: nat): Result {
    if q >= |db.requests| || db.requests[q].ngo != ngo || db.requests[q].status != RequestPending then Rejected(404)
    else Done(db.(requests := db.requests[q := db.requests[q].(status := RequestRejected)]))
  }

  /** Every request still pending on listing `l`, except `keep`, becomes expired. */
  function ExpireRequests(requests: seq<NgoRequest>, l: nat, keep: Option<nat>): (out: seq<NgoRequest>)
    ensures |out| == |requests|
  {
    seq(|requests|, k requires 0 <= k < |requests| =>
      if requests[k].listing == l && requests[k].status == RequestPending && keep != Some(k)
      then requests[k].(status := RequestExpired) else requests[k])
  }

  /** Accept request `q` and expire its rivals on the same listing. */
  function AcceptAmong(requests: seq<NgoRequest>, q: nat, l: nat): (out: seq<NgoRequest>)
    requires q < |requests|
    ensures |out| == |requests|
  {
    ExpireRequests(requests[q := requests[q].(status := RequestAccepted)], l, Some(q))
  }

  // ---------- listing expiry ----------

  /** Rows the expiry job selects. */
  predicate ExpiresWith(r: Reservation, l: nat) {
    r.listing == l && r.status == Reserved && (r.task == TaskPending || r.task == TaskSelfPickup)
  }

  function ReturnedBy(l: nat): Reservation -> int {
    (r: Reservation) => if ExpiresWith(r, l) then r.quantity else 0
  }

  /** Retention is skipped for rows a volunteer has already taken. */
  predicate RetainsDeposit(r: Reservation) {
    !(r.pickupType == NgoPickup && r.volunteer.Some?)
  }

  /** The lifecycle accounting asks for a retention only when a deposit was quoted and its
      operation is still open. */
  predicate WantsRetention(p: Option<Payment>, isOpen: bool) {
    p.Some? && p.value.deposit > 0 && isOpen
  }

  predicate Retainable(s: DepositState) {
    s == DepositHeld || s == DepositRefundFailed || s == DepositRetained
  }

  /** `open` lists the rows whose operation is open. */
  predicate ExpiryRetains(db: Db, l: nat, open: set<nat>, i: nat) {
    i < |db.rows| && ExpiresWith(db.rows[i], l) && RetainsDeposit(db.rows[i]) && WantsRetention(PayOf(db, i), i in open)
  }

  function ExpiringRows(rows: seq<Reservation>, l: nat): set<nat> {
    set i | 0 <= i < |rows| && ExpiresWith(rows[i], l)
  }

  function ExpireRows(rows: seq<Reservation>, l: nat): (out: seq<Reservation>)
    ensures |out| == |rows|
  {
    seq(|rows|, i requires 0 <= i < |rows| =>
      if ExpiresWith(rows[i], l) then rows[i].(status := Expired, task := TaskExpired) else rows[i])
  }

  function RetainPayments(db: Db, l: nat, open: set<nat>): map<nat, Payment> {
    map i | i in db.payments ::
      if ExpiryRetains(db, l, open, i) then db.payments[i].(depositStatus := DepositRetained) else db.payments[i]
  }

  /** Whether the conditional UPDATE of the expiry job matches the listing. */
  predicate ExpiryMatches(f: Listing, now: int, expected: Option<int>) {
    f.status in {ListingActive, ListingCompleted} &&
    f.deadline <= now &&
    (expected.None? || expected.value == f.deadline)
  }

  /** The listing and its waiting rows expire, and the stock of these rows goes back. */
  function ExpireAll(db: Db, l: nat): Db
    requires l < |db.listings|
  {
    var back := Sum(db.rows, ReturnedBy(l));
    db.(listings := db.listings[l := db.listings[l].(status := ListingExpired,
                                                    remaining := db.listings[l].remaining + if back > 0 then back
                                                      else 0)],
        rows := ExpireRows(db.rows, l),
        returned := db.returned + multiset(ExpiringRows(db.rows, l)))
  }

  /** The expiry worker. `Rejected(0)` is its rollback. */
  function ExpireListing(db: Db, l: nat, expected: Option<int>, open: set<nat>): Result {
    if l >= |db.listings| || !ExpiryMatches(db.listings[l], db.now, expected) then Rejected(0)
    else if exists i :: i in db.payments && ExpiryRetains(db, l, open, i) && !Retainable(db.payments[i].depositStatus)
    then Rejected(0)
    else Done(ExpireAll(db, l).(payments := RetainPayments(db, l, open),
                                requests := ExpireRequests(db.requests, l, None)))
  }
}
