/** What an operation leaves alone, and how it moves stock, said of the tables only. The promises of
    the operations are stated with these; no transaction uses them. */
module Frames {
  import opened Model

  predicate OtherRows(db: Db, db': Db, i: nat) {
    |db'.rows| == |db.rows| && i < |db.rows| && forall k :: 0 <= k < |db.rows| && k != i ==> db'.rows[k] == db.rows[k]
  }

  ghost predicate OtherPayments(db: Db, db': Db, i: nat) {
    forall k: nat :: k != i ==> PayOf(db', k) == PayOf(db, k)
  }

  /** Rows and payments stay as they are, but for reservation `i`. */
  ghost predicate OnlyRow(db: Db, db': Db, i: nat) {
    OtherRows(db, db', i) && OtherPayments(db, db', i)
  }

  /** Every row and payment that is there stays as it is, and row `i` is new. */
  predicate NewRowOnly(db: Db, db': Db) {
    |db'.rows| == |db.rows| + 1 && forall k :: 0 <= k < |db.rows| ==> db'.rows[k] == db.rows[k]
  }

  predicate OtherListings(listings: seq<Listing>, listings': seq<Listing>, l: nat) {
    |listings'| == |listings| && l < |listings| &&
    forall k :: 0 <= k < |listings| && k != l ==> listings'[k] == listings[k]
  }

  ghost predicate OtherStats(db: Db, db': Db, v: nat) {
    forall w: nat :: w != v ==> StatsOf(db'.stats, w) == StatsOf(db.stats, w)
  }

  predicate StockStays(db: Db, db': Db) {
    db'.listings == db.listings && db'.returned == db.returned
  }

  /** `q` units leave listing `l`; an emptied listing is completed. */
  predicate StockLeaves(listings: seq<Listing>, listings': seq<Listing>, l: nat, q: int) {
    OtherListings(listings, listings', l) &&
    listings'[l].remaining == listings[l].remaining - q &&
    listings'[l].status == (if listings'[l].remaining == 0 then ListingCompleted else listings[l].status) &&
    listings'[l] == listings[l].(remaining := listings'[l].remaining, status := listings'[l].status)
  }

  /** The stock of row `i` comes back to its listing, which is on offer again if it was merely sold out,
      and the history has one return more. */
  predicate StockReturns(db: Db, db': Db, i: nat)
    requires i < |db.rows|
  {
    var r := db.rows[i];
    OtherListings(db.listings, db'.listings, r.listing) &&
    var f, f' := db.listings[r.listing], db'.listings[r.listing];
    f'.remaining == f.remaining + r.quantity &&
    (f'.status == ListingActive <==>
     f.status == ListingActive || (f.status == ListingCompleted && db.now < f.deadline)) &&
    (f'.status != ListingActive ==> f'.status == f.status) &&
    f' == f.(remaining := f'.remaining, status := f'.status) &&
    db'.returned == db.returned + multiset{i}
  }

  /** Request `q` is accepted, every other request that waits for the same listing expires, and no
      other changes. */
  predicate RequestWins(requests: seq<NgoRequest>, requests': seq<NgoRequest>, q: nat) {
    q < |requests| == |requests'| &&
    forall k :: 0 <= k < |requests| ==>
      requests'[k] == requests[k].(status :=
        if k == q then RequestAccepted
        else if requests[k].listing == requests[q].listing && requests[k].status == RequestPending then RequestExpired
        else requests[k].status)
  }

  /** Every request that waits for listing `l` expires, and no other changes. */
  predicate RequestsLapse(requests: seq<NgoRequest>, requests': seq<NgoRequest>, l: nat) {
    |requests'| == |requests| &&
    forall k :: 0 <= k < |requests| ==>
      requests'[k] == requests[k].(status :=
        if requests[k].listing == l && requests[k].status == RequestPending then RequestExpired
        else requests[k].status)
  }
}
