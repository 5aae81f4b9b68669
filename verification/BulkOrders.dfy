/** Bulk reservation is all or nothing (ngo.controller.js). */
module BulkOrders {
  import opened Model
  import opened Stock
  import opened Reservations
  import T = TableSteps

  /** What the loop asks of one item, read against the state before the whole request. */
  predicate Fits(db: Db, user: nat, item: Item, approved: set<nat>) {
    item.listing < |db.listings| && item.listing in approved &&
    db.listings[item.listing].isFree && db.listings[item.listing].status == ListingActive &&
    db.listings[item.listing].deadline > db.now &&
    !AlreadyClaimed(db.rows, user, item.listing) &&
    item.quantity <= db.listings[item.listing].remaining
  }

  predicate Named(items: seq<Item>, l: nat) {
    exists k :: 0 <= k < |items| && items[k].listing == l
  }

  predicate Distinct(items: seq<Item>) {
    forall j, k :: 0 <= j < k < |items| ==> items[j].listing != items[k].listing
  }

  predicate AllFit(db: Db, user: nat, items: seq<Item>, approved: set<nat>) {
    forall k :: 0 <= k < |items| ==> Fits(db, user, items[k], approved)
  }

  /** The listing of an item before and after it is served: it loses that quantity and nothing else. */
  predicate Served(f: Listing, f': Listing, quantity: int) {
    f' == f.(remaining := f.remaining - quantity,
             status := if f.remaining == quantity then ListingCompleted else f.status)
  }

  predicate ListingsServed(db: Db, db': Db, items: seq<Item>) {
    |db'.listings| == |db.listings| &&
    (forall k :: 0 <= k < |items| ==>
       items[k].listing < |db.listings| &&
       Served(db.listings[items[k].listing], db'.listings[items[k].listing], items[k].quantity)) &&
    (forall l :: 0 <= l < |db.listings| && !Named(items, l) ==> db'.listings[l] == db.listings[l])
  }

  /** Row `r` is the claim of `user` on the listing of `item`, for its quantity. */
  predicate ClaimFor(r: Reservation, user: nat, item: Item) {
    r.quantity == item.quantity && Claims(r, user, item.listing)
  }

  predicate RowsServed(db: Db, db': Db, user: nat, items: seq<Item>) {
    |db'.rows| == |db.rows| + |items| && db'.rows[..|db.rows|] == db.rows &&
    forall k :: 0 <= k < |items| ==> ClaimFor(db'.rows[|db.rows| + k], user, items[k])
  }

  /** The state after every item was served. */
  predicate AllServed(db: Db, db': Db, user: nat, items: seq<Item>) {
    db'.now == db.now && ListingsServed(db, db', items) && RowsServed(db, db', user, items)
  }

  lemma ClaimedAfter(db: Db, d: Db, user: nat, items: seq<Item>, l: nat)
    requires RowsServed(db, d, user, items)
    ensures AlreadyClaimed(d.rows, user, l) <==> AlreadyClaimed(db.rows, user, l) || Named(items, l)
  {
    var n := |db.rows|;
    assert forall i :: 0 <= i < n ==> d.rows[i] == d.rows[..n][i] == db.rows[i];
    if k :| 0 <= k < |items| && items[k].listing == l {
      assert ClaimFor(d.rows[n + k], user, items[k]);
    }
    if i :| 0 <= i < n && Claims(db.rows[i], user, l) {
      assert Claims(d.rows[i], user, l);
    }
    if i :| n <= i < |d.rows| && Claims(d.rows[i], user, l) {
      assert ClaimFor(d.rows[n + (i - n)], user, items[i - n]);
    }
  }

  /** One item served: exactly its listing loses exactly its quantity, and one row claims it. */
  lemma ItemServed(d: Db, user: nat, item: Item, approved: set<nat>, terms: NgoTerms)
    requires 0 < item.quantity
    ensures var result := ReserveItem(d, user, item, approved, terms);
            (result.Done? <==> Fits(d, user, item, approved)) &&
            (result.Done? ==> AllServed(d, result.db, user, [item]))
  {
    var result := ReserveItem(d, user, item, approved, terms);
    if result.Done? {
      assert forall l :: 0 <= l < |d.listings| && l != item.listing ==> result.db.listings[l] == d.listings[l];
      assert [item][0] == item;
    }
  }

  lemma FitsLater(db: Db, d: Db, user: nat, items: seq<Item>, item: Item, approved: set<nat>)
    requires AllServed(db, d, user, items)
    ensures Fits(d, user, item, approved) <==> Fits(db, user, item, approved) && !Named(items, item.listing)
  {
    ClaimedAfter(db, d, user, items, item.listing);
  }

  lemma ServedTogether(db: Db, d: Db, e: Db, user: nat, items: seq<Item>, item: Item)
    requires AllServed(db, d, user, items) && AllServed(d, e, user, [item]) && !Named(items, item.listing)
    ensures AllServed(db, e, user, items + [item])
  {
    var all := items + [item];
    var n := |db.rows|;
    assert [item][0] == item && Named([item], item.listing);
    forall l | 0 <= l < |db.listings| && !Named(all, l)
      ensures e.listings[l] == db.listings[l]
    {
      assert all[|items|] == item;
      assert forall k :: 0 <= k < |items| ==> all[k] == items[k];
    }
    forall k | 0 <= k < |all|
      ensures all[k].listing < |db.listings| &&
              Served(db.listings[all[k].listing], e.listings[all[k].listing], all[k].quantity)
    {
      if k < |items| {
        assert all[k] == items[k] && items[k].listing != item.listing;
        assert !Named([item], items[k].listing);
      } else {
        assert d.listings[item.listing] == db.listings[item.listing];
      }
    }
    assert e.rows[..n] == e.rows[..|d.rows|][..n] == d.rows[..n];
    forall k | 0 <= k < |all|
      ensures ClaimFor(e.rows[n + k], user, all[k])
    {
      if k < |items| {
        assert e.rows[n + k] == e.rows[..|d.rows|][n + k] == d.rows[n + k] && all[k] == items[k];
      } else {
        assert ClaimFor(e.rows[|d.rows| + 0], user, [item][0]);
      }
    }
  }

  /** The loop succeeds exactly when every item would have been served on its own from the first
      state and no listing is named twice. */
  lemma {:induction false} ItemsServed(db: Db, user: nat, items: seq<Item>, approved: set<nat>, terms: NgoTerms)
    requires ItemsInRange(items)
    ensures var result := ReserveItems(db, user, items, approved, terms);
            (result.Done? <==> Distinct(items) && AllFit(db, user, items, approved)) &&
            (result.Done? ==> AllServed(db, result.db, user, items))
    decreases |items|
  {
    if |items| > 0 {
      var n := |items| - 1;
      var front, last := items[..n], items[n];
      assert items == front + [last];
      ItemsServed(db, user, front, approved, terms);
      var mid := ReserveItems(db, user, front, approved, terms);
      SplitLast(db, user, front, last, approved);
      if mid.Done? {
        ItemServed(mid.db, user, last, approved, terms);
        FitsLater(db, mid.db, user, front, last, approved);
        if ReserveItem(mid.db, user, last, approved, terms).Done? {
          ServedTogether(db, mid.db, ReserveItem(mid.db, user, last, approved, terms).db, user, front, last);
        }
      }
    } else {
      assert db.rows[..|db.rows|] == db.rows;
    }
  }

  lemma SplitLast(db: Db, user: nat, front: seq<Item>, last: Item, approved: set<nat>)
    ensures Distinct(front + [last]) <==> Distinct(front) && !Named(front, last.listing)
    ensures AllFit(db, user, front + [last], approved) <==>
            AllFit(db, user, front, approved) && Fits(db, user, last, approved)
  {
    var all := front + [last];
    assert forall k :: 0 <= k < |front| ==> all[k] == front[k];
    assert all[|front|] == last;
    if Distinct(front) && !Named(front, last.listing) {
      assert Distinct(all);
    }
    if Distinct(all) {
      forall k | 0 <= k < |front| ensures front[k].listing != last.listing {
        assert all[k].listing != all[|front|].listing;
      }
    }
    if AllFit(db, user, all, approved) {
      assert Fits(db, user, all[|front|], approved);
      assert forall k :: 0 <= k < |front| ==> Fits(db, user, all[k], approved);
    }
  }

  /** Opening the payment sessions changes nothing an item asked for. */
  lemma SessionKeepsServed(db: Db, e: Db, user: nat, items: seq<Item>, i: nat, deposit: nat)
    requires AllServed(db, e, user, items) && |db.rows| <= i < |e.rows|
    ensures AllServed(db, OpenSession(e, i, deposit), user, items)
  {
    var e' := OpenSession(e, i, deposit);
    assert e'.rows[..|db.rows|] == e.rows[..|db.rows|];
    forall k | 0 <= k < |items|
      ensures ClaimFor(e'.rows[|db.rows| + k], user, items[k])
    {
      assert ClaimFor(e.rows[|db.rows| + k], user, items[k]);
    }
  }

  lemma SessionsKeepServed(db: Db, d: Db, user: nat, items: seq<Item>, deposit: nat)
    requires AllServed(db, d, user, items) && |db.rows| <= |d.rows|
    ensures AllServed(db, OpenSessions(d, |db.rows|, |d.rows|, deposit), user, items)
  {
    var keeps := (e: Db, i: nat) => AllServed(db, e, user, items) && |db.rows| <= i;
    forall e: Db, i: nat | keeps(e, i) && i < |e.rows|
      ensures keeps(OpenSession(e, i, deposit), i + 1)
    {
      SessionKeepsServed(db, e, user, items, i, deposit);
    }
    T.SessionsKeep(d, |db.rows|, |d.rows|, deposit, keeps);
  }

  /** `bulkReserve` commits exactly when the request is well formed, at most forty meals, allowed by
      policy, names no listing twice and every item fits; then every item is served in full. */
  lemma BulkIsAllOrNothing(db: Db, user: nat, items: seq<Item>, approved: set<nat>, terms: NgoTerms)
    ensures BulkReserve(db, user, items, approved, terms).Done? <==>
              |items| > 0 && ItemsInRange(items) && TotalQuantity(items) <= NGO_MAX_LIMIT &&
              terms.canReserve && (terms.requiresDeposit ==> terms.orderOk) &&
              Distinct(items) && AllFit(db, user, items, approved)
    ensures var result := BulkReserve(db, user, items, approved, terms);
            result.Done? ==> AllServed(db, result.db, user, items)
  {
    if ItemsInRange(items) {
      ItemsServed(db, user, items, approved, terms);
      var mid := ReserveItems(db, user, items, approved, terms);
      if mid.Done? {
        SessionsKeepServed(db, mid.db, user, items, terms.deposit);
      }
    }
  }
}
