/** The steps that do not fit one row keep every law too: new rows, listing edits, the expiry job and
    the gateway. A hold adds one row, an order adds a row for each item, the expiry of a listing closes
    every row of it that is still claimed, and the gateway writes only its own calls. */
module TableSteps {
  import opened Model
  import opened Stock
  import opened Changes
  import opened Listings
  import opened Reservations
  import opened Refunds
  import opened Cells
  import opened CellSteps
  import opened Sums
  import opened Invariant
  import opened Preservation
  import D = Deliveries

  // ---------- nothing but listings, requests, orders or the clock moves ----------

  /** `db'` keeps every row, payment and statistic of `db`. */
  ghost predicate SameTables(db: Db, db': Db) {
    db' == db.(now := db'.now, listings := db'.listings, requests := db'.requests, orders := db'.orders) &&
      db.now <= db'.now
  }

  lemma SameTablesShape(db: Db, db': Db)
    requires ShapeOk(db) && CellsOk(db) && SameTables(db, db') && |db.listings| <= |db'.listings|
    requires forall i :: i in db'.orders ==> i in db.orders || (i < |db.rows| && db.rows[i].pay != PayNotRequired)
    ensures ShapeOk(db') && CellsOk(db') && Evolves(db, db', NOTHING_SPECIAL)
  {
    assert forall i :: PayOf(db', i) == PayOf(db, i);
    EvolvesByCells(db, db');
  }

  lemma SameTablesStock(db: Db, db': Db)
    requires ShapeOk(db) && StockOk(db) && SameTables(db, db') && |db.listings| <= |db'.listings|
    requires forall l :: 0 <= l < |db'.listings| ==>
               0 <= db'.listings[l].remaining &&
               db'.listings[l].quantity - db'.listings[l].remaining
                 == (if l < |db.listings| then db.listings[l].quantity - db.listings[l].remaining else 0)
    ensures StockOk(db')
  {
    forall l | |db.listings| <= l < |db'.listings|
      ensures Sum(db'.rows, HeldOn(l)) == 0
    {
      SumZero(db'.rows, HeldOn(l));
    }
  }

  lemma SameTablesPairs(db: Db, db': Db)
    requires ReturnsOk(db) && ClaimsOk(db) && TasksOk(db) && CountersOk(db) && SameTables(db, db')
    ensures ReturnsOk(db') && ClaimsOk(db') && TasksOk(db') && CountersOk(db')
  {
  }

  lemma SameTablesRefunds(db: Db, db': Db)
    requires RefundsOk(db) && SameTables(db, db')
    ensures RefundsOk(db')
  {
    assert forall j :: j in db.jobs ==> JobOk(db, j);
    assert forall c :: c in db.prepared ==> CallOk(db, c);
    assert forall i :: i in db.payments ==> Proven(db, i);
  }

  lemma SameTablesKeeps(db: Db, db': Db)
    requires Inv(db) && SameTables(db, db') && |db.listings| <= |db'.listings|
    requires forall l :: 0 <= l < |db'.listings| ==>
               0 <= db'.listings[l].remaining &&
               db'.listings[l].quantity - db'.listings[l].remaining
                 == (if l < |db.listings| then db.listings[l].quantity - db.listings[l].remaining else 0)
    requires forall i :: i in db'.orders ==> i in db.orders || (i < |db.rows| && db.rows[i].pay != PayNotRequired)
    ensures Keeps(db, Done(db'))
  {
    SameTablesShape(db, db');
    SameTablesStock(db, db');
    SameTablesPairs(db, db');
    SameTablesRefunds(db, db');
  }

  lemma AdvanceKeeps(db: Db, elapsed: nat)
    requires Inv(db)
    ensures Keeps(db, Advance(db, elapsed))
  {
    SameTablesKeeps(db, Advance(db, elapsed).db);
  }

  lemma PostListingKeeps(db: Db, provider: nat, quantity: int, start: Option<int>, deadline: int, isFree: bool)
    requires Inv(db)
    ensures Keeps(db, PostListing(db, provider, quantity, start, deadline, isFree))
  {
    var result := PostListing(db, provider, quantity, start, deadline, isFree);
    if result.Done? {
      SameTablesKeeps(db, result.db);
    }
  }

  lemma EditListingKeeps(db: Db, provider: nat, l: nat, e: Edit)
    requires Inv(db)
    ensures Keeps(db, EditListing(db, provider, l, e))
  {
    var result := EditListing(db, provider, l, e);
    if result.Done? {
      SameTablesKeeps(db, result.db);
    }
  }

  lemma ArchiveListingKeeps(db: Db, provider: nat, l: nat)
    requires Inv(db)
    ensures Keeps(db, ArchiveListing(db, provider, l))
  {
    var result := ArchiveListing(db, provider, l);
    if result.Done? {
      SameTablesKeeps(db, result.db);
    }
  }

  lemma RequestKeeps(db: Db, requests: seq<NgoRequest>)
    requires Inv(db)
    ensures Keeps(db, Done(db.(requests := requests)))
  {
    SameTablesKeeps(db, db.(requests := requests));
  }

  lemma RequestRescueKeeps(db: Db, provider: nat, l: nat, ngo: nat, v: Rescue)
    requires Inv(db)
    ensures Keeps(db, RequestRescue(db, provider, l, ngo, v))
  {
    if RequestRescue(db, provider, l, ngo, v).Done? {
      RequestKeeps(db, db.requests + [NgoRequest(l, ngo, RequestPending)]);
    }
  }

  lemma RejectRequestKeeps(db: Db, ngo: nat, q: nat)
    requires Inv(db)
    ensures Keeps(db, RejectRequest(db, ngo, q))
  {
    if RejectRequest(db, ngo, q).Done? {
      RequestKeeps(db, db.requests[q := db.requests[q].(status := RequestRejected)]);
    }
  }

  lemma RecordOrderKeeps(db: Db, i: nat, deposit: nat)
    requires Inv(db) && i < |db.rows| && IsPendingHold(db.rows[i])
    ensures Keeps(db, Done(db.(orders := db.orders[i := deposit])))
  {
    SameTablesKeeps(db, db.(orders := db.orders[i := deposit]));
  }

  lemma OpenPaymentSessionKeeps(db: Db, i: nat, deposit: nat, commits: bool)
    requires Inv(db)
    ensures Keeps(db, OpenPaymentSession(db, i, deposit, commits))
  {
    if OpenPaymentSession(db, i, deposit, commits).Done? {
      if commits {
        OpenSessionKeeps(db, i, deposit);
      } else {
        RecordOrderKeeps(db, i, deposit);
      }
    }
  }

  // ---------- new rows ----------

  /** Row `r` is inserted, and takes its stock from its listing. */
  function Inserted(db: Db, r: Reservation, listings: seq<Listing>): Db {
    db.(rows := db.rows + [r], listings := listings)
  }

  /** `r` is the first claim of its user, and `listings` are what is left when its stock is taken. */
  predicate MayInsert(db: Db, r: Reservation, listings: seq<Listing>) {
    Live(r) && r.volunteer.None? && CellOk(r, None) && !AlreadyClaimed(db.rows, r.user, r.listing) &&
    TakeStock(db.listings, r.listing, r.quantity, true) == Some(listings)
  }

  lemma InsertKeepsStock(db: Db, r: Reservation, listings: seq<Listing>)
    requires StockOk(db) && MayInsert(db, r, listings)
    ensures StockOk(Inserted(db, r, listings))
  {
    var db' := Inserted(db, r, listings);
    forall l | 0 <= l < |db'.listings|
      ensures 0 <= db'.listings[l].remaining
      ensures db'.listings[l].quantity == db'.listings[l].remaining + Sum(db'.rows, HeldOn(l))
    {
      SumAppend(db.rows, r, HeldOn(l));
    }
  }

  lemma InsertKeepsCounters(db: Db, r: Reservation, listings: seq<Listing>)
    requires CountersOk(db) && Live(r)
    ensures CountersOk(Inserted(db, r, listings))
  {
    var db' := Inserted(db, r, listings);
    forall v: nat
      ensures StatsOf(db'.stats, v).completed == Sum(db'.rows, DeliveredBy(v))
      ensures StatsOf(db'.stats, v).timeouts == Sum(db'.rows, TimedOutBy(v))
    {
      SumAppend(db.rows, r, DeliveredBy(v));
      SumAppend(db.rows, r, TimedOutBy(v));
    }
  }

  lemma ClaimingClaims(r: Reservation, p: Option<Payment>)
    requires CellOk(r, p) && Claiming(r)
    ensures Claims(r, r.user, r.listing)
  {
  }

  lemma InsertKeepsPairs(db: Db, r: Reservation, listings: seq<Listing>)
    requires CellsOk(db) && ClaimsOk(db) && TasksOk(db) && MayInsert(db, r, listings)
    ensures ClaimsOk(Inserted(db, r, listings)) && TasksOk(Inserted(db, r, listings))
  {
    forall i | 0 <= i < |db.rows| && Claiming(db.rows[i])
      ensures db.rows[i].user != r.user || db.rows[i].listing != r.listing
    {
      ClaimingClaims(db.rows[i], PayOf(db, i));
      assert !Claims(db.rows[i], r.user, r.listing);
    }
    assert !Working(r);
  }

  lemma InsertKeepsTables(db: Db, r: Reservation, listings: seq<Listing>)
    requires ShapeOk(db) && CellsOk(db) && ReturnsOk(db) && MayInsert(db, r, listings)
    ensures var db' := Inserted(db, r, listings);
            ShapeOk(db') && CellsOk(db') && ReturnsOk(db')
  {
    var db' := Inserted(db, r, listings);
    forall k | 0 <= k < |db'.rows|
      ensures CellOk(db'.rows[k], PayOf(db', k))
    {
      if k < |db.rows| {
        assert db'.rows[k] == db.rows[k] && PayOf(db', k) == PayOf(db, k);
      } else {
        assert PayOf(db', k) == None;
      }
    }
  }

  lemma InsertKeepsRefunds(db: Db, r: Reservation, listings: seq<Listing>)
    requires RefundsOk(db)
    ensures RefundsOk(Inserted(db, r, listings))
  {
    assert forall j :: j in db.jobs ==> JobOk(db, j);
    assert forall c :: c in db.prepared ==> CallOk(db, c);
    assert forall k :: k in db.payments ==> Proven(db, k);
  }

  /** What the NGO transactions do to the rows they found: nothing. What they add is new. */
  ghost predicate Extends(db: Db, db': Db) {
    |db.rows| <= |db'.rows| && |db.listings| <= |db'.listings| &&
    db' == db.(rows := db'.rows, listings := db'.listings, payments := db'.payments, orders := db'.orders,
               requests := db'.requests) &&
    (forall k :: 0 <= k < |db.rows| ==> db'.rows[k] == db.rows[k] && PayOf(db', k) == PayOf(db, k)) &&
    (forall k :: |db.rows| <= k < |db'.rows| ==>
       Live(db'.rows[k]) && !AlreadyClaimed(db.rows, db'.rows[k].user, db'.rows[k].listing))
  }

  lemma ExtendsKeeps(db: Db, db': Db)
    requires CellsOk(db) && Inv(db') && Extends(db, db')
    ensures Keeps(db, Done(db'))
  {
    EvolvesByCells(db, db');
  }

  /** Inserting a row keeps every law. */
  lemma InsertKeeps(db: Db, r: Reservation, listings: seq<Listing>)
    requires Inv(db) && MayInsert(db, r, listings)
    ensures Inv(Inserted(db, r, listings)) && Extends(db, Inserted(db, r, listings))
  {
    InsertKeepsStock(db, r, listings);
    InsertKeepsCounters(db, r, listings);
    InsertKeepsPairs(db, r, listings);
    InsertKeepsTables(db, r, listings);
    InsertKeepsRefunds(db, r, listings);
  }

  lemma HoldStockKeeps(db: Db, user: nat, l: nat, q: int, approved: bool, canReserve: bool)
    requires Inv(db)
    ensures Keeps(db, HoldStock(db, user, l, q, approved, canReserve))
  {
    var result := HoldStock(db, user, l, q, approved, canReserve);
    if result.Done? {
      InsertKeeps(db, NewRow(user, l, q, SelfPickup, PaymentPending, PayPending, None), result.db.listings);
      ExtendsKeeps(db, result.db);
    }
  }

  // ---------- NGO transactions ----------

  lemma ExtendsFurther(db: Db, mid: Db, db': Db)
    requires Extends(db, mid) && Extends(mid, db')
    ensures Extends(db, db')
  {
    forall k | |db.rows| <= k < |db'.rows|
      ensures Live(db'.rows[k]) && !AlreadyClaimed(db.rows, db'.rows[k].user, db'.rows[k].listing)
    {
      if k >= |mid.rows| {
        assert !AlreadyClaimed(mid.rows, db'.rows[k].user, db'.rows[k].listing);
        assert forall i :: 0 <= i < |db.rows| ==> mid.rows[i] == db.rows[i];
      }
    }
  }

  /** The rows from `start` on wait for a payment session. */
  predicate Unopened(db: Db, start: nat) {
    forall k :: start <= k < |db.rows| ==> IsPendingHold(db.rows[k]) && k !in db.payments
  }

  lemma NgoRowFits(user: nat, l: nat, q: int, terms: NgoTerms, request: Option<nat>)
    requires q > 0
    ensures var r := NgoRow(user, l, q, terms, request);
            Live(r) && r.volunteer.None? && CellOk(r, None) && (terms.requiresDeposit ==> IsPendingHold(r))
  {
  }

  lemma ReserveItemKeeps(db: Db, user: nat, item: Item, approved: set<nat>, terms: NgoTerms)
    requires Inv(db)
    ensures var result := ReserveItem(db, user, item, approved, terms);
            result.Done? ==> Inv(result.db) && Extends(db, result.db)
  {
    var result := ReserveItem(db, user, item, approved, terms);
    if result.Done? {
      NgoRowFits(user, item.listing, item.quantity, terms, None);
      InsertKeeps(db, NgoRow(user, item.listing, item.quantity, terms, None), result.db.listings);
    }
  }

  lemma {:induction false} ReserveItemsKeeps(db: Db, user: nat, items: seq<Item>, approved: set<nat>, terms: NgoTerms)
    requires Inv(db)
    ensures var result := ReserveItems(db, user, items, approved, terms);
            result.Done? ==> Inv(result.db) && Extends(db, result.db)
    decreases |items|
  {
    if |items| > 0 {
      var front := items[..|items| - 1];
      ReserveItemsKeeps(db, user, front, approved, terms);
      var mid := ReserveItems(db, user, front, approved, terms);
      if mid.Done? {
        ReserveItemKeeps(mid.db, user, items[|items| - 1], approved, terms);
        var result := ReserveItem(mid.db, user, items[|items| - 1], approved, terms);
        if result.Done? {
          ExtendsFurther(db, mid.db, result.db);
        }
      }
    }
  }

  lemma ItemWaits(db: Db, user: nat, item: Item, approved: set<nat>, terms: NgoTerms, start: nat)
    requires terms.requiresDeposit && Unopened(db, start) && |db.rows| !in db.payments
    ensures var result := ReserveItem(db, user, item, approved, terms);
            result.Done? ==>
              Unopened(result.db, start) && result.db.payments == db.payments && |result.db.rows| == |db.rows| + 1
  {
  }

  lemma {:induction false} ItemsWait(db: Db, user: nat, items: seq<Item>, approved: set<nat>, terms: NgoTerms)
    requires terms.requiresDeposit && forall i :: i in db.payments ==> i < |db.rows|
    ensures var result := ReserveItems(db, user, items, approved, terms);
            result.Done? ==> Unopened(result.db, |db.rows|) && result.db.payments == db.payments
    decreases |items|
  {
    if |items| > 0 {
      var front := items[..|items| - 1];
      ItemsWait(db, user, front, approved, terms);
      var mid := ReserveItems(db, user, front, approved, terms);
      if mid.Done? {
        ItemWaits(mid.db, user, items[|items| - 1], approved, terms, |db.rows|);
      }
    }
  }

  /** A payment session for a row that is new to `db`. */
  lemma SessionExtends(db: Db, mid: Db, i: nat, deposit: nat)
    requires Extends(db, mid) && |db.rows| <= i < |mid.rows| && Unopened(mid, i)
    ensures Extends(db, OpenSession(mid, i, deposit)) && Unopened(OpenSession(mid, i, deposit), i + 1)
  {
    assert IsPendingHold(mid.rows[i]);
  }

  lemma SessionKeeps(mid: Db, i: nat, deposit: nat)
    requires Inv(mid) && i < |mid.rows| && Unopened(mid, i)
    ensures Inv(OpenSession(mid, i, deposit))
  {
    assert IsPendingHold(mid.rows[i]);
    OpenSessionKeeps(mid, i, deposit);
  }

  /** What one payment session keeps, all of them keep. */
  lemma {:induction false} SessionsKeep(db: Db, start: nat, end: nat, deposit: nat, keeps: (Db, nat) -> bool)
    requires start <= end <= |db.rows| && keeps(db, start)
    requires forall d: Db, i: nat :: keeps(d, i) && i < |d.rows| ==> keeps(OpenSession(d, i, deposit), i + 1)
    ensures keeps(OpenSessions(db, start, end, deposit), end)
    decreases end - start
  {
    if start < end {
      SessionsKeep(db, start, end - 1, deposit, keeps);
    }
  }

  lemma OpenSessionsExtend(db: Db, mid: Db, deposit: nat)
    requires Extends(db, mid) && Unopened(mid, |db.rows|)
    ensures Extends(db, OpenSessions(mid, |db.rows|, |mid.rows|, deposit))
  {
    var keeps := (d: Db, i: nat) => Extends(db, d) && Unopened(d, i) && |db.rows| <= i;
    forall d: Db, i: nat | keeps(d, i) && i < |d.rows|
      ensures keeps(OpenSession(d, i, deposit), i + 1)
    {
      SessionExtends(db, d, i, deposit);
    }
    SessionsKeep(mid, |db.rows|, |mid.rows|, deposit, keeps);
  }

  lemma OpenSessionsKeep(mid: Db, start: nat, deposit: nat)
    requires Inv(mid) && start <= |mid.rows| && Unopened(mid, start)
    ensures Inv(OpenSessions(mid, start, |mid.rows|, deposit))
  {
    var keeps := (d: Db, i: nat) => Inv(d) && Unopened(d, i);
    forall d: Db, i: nat | keeps(d, i) && i < |d.rows|
      ensures keeps(OpenSession(d, i, deposit), i + 1)
    {
      SessionKeeps(d, i, deposit);
    }
    SessionsKeep(mid, start, |mid.rows|, deposit, keeps);
  }

  /** `mid` holds the new rows; the payment sessions follow. */
  lemma SettleNgoKeeps(db: Db, mid: Db, terms: NgoTerms)
    requires CellsOk(db) && Inv(mid) && Extends(db, mid) && (terms.requiresDeposit ==> Unopened(mid, |db.rows|))
    ensures Keeps(db, SettleNgo(mid, |db.rows|, terms))
  {
    if !terms.requiresDeposit {
      ExtendsKeeps(db, mid);
    } else if terms.orderOk {
      OpenSessionsKeep(mid, |db.rows|, terms.deposit);
      OpenSessionsExtend(db, mid, terms.deposit);
      ExtendsKeeps(db, OpenSessions(mid, |db.rows|, |mid.rows|, terms.deposit));
    }
  }

  lemma BulkReserveKeeps(db: Db, user: nat, items: seq<Item>, approved: set<nat>, terms: NgoTerms)
    requires Inv(db)
    ensures Keeps(db, BulkReserve(db, user, items, approved, terms))
  {
    ReserveItemsKeeps(db, user, items, approved, terms);
    var mid := ReserveItems(db, user, items, approved, terms);
    if mid.Done? {
      if terms.requiresDeposit {
        ItemsWait(db, user, items, approved, terms);
      }
      SettleNgoKeeps(db, mid.db, terms);
    }
  }

  predicate MayAccept(db: Db, ngo: nat, q: nat) {
    q < |db.requests| && db.requests[q].listing < |db.listings| &&
    db.listings[db.requests[q].listing].remaining > 0 && !AlreadyClaimed(db.rows, ngo, db.requests[q].listing)
  }

  lemma AcceptingMay(db: Db, ngo: nat, q: nat, approved: set<nat>, terms: NgoTerms)
    requires AcceptRequest(db, ngo, q, approved, terms).Done?
    ensures MayAccept(db, ngo, q)
    ensures AcceptRequest(db, ngo, q, approved, terms) == SettleNgo(Accepted(db, ngo, q, terms), |db.rows|, terms)
  {
  }

  lemma AcceptedInserts(db: Db, ngo: nat, q: nat, terms: NgoTerms)
    requires Inv(db) && MayAccept(db, ngo, q)
    ensures var mid := Accepted(db, ngo, q, terms).(requests := db.requests);
            Inv(mid) && Extends(db, mid) && (terms.requiresDeposit ==> Unopened(mid, |db.rows|))
  {
    var mid := Accepted(db, ngo, q, terms).(requests := db.requests);
    var l := db.requests[q].listing;
    var left := db.listings[l].remaining;
    NgoRowFits(ngo, l, left, terms, Some(q));
    InsertKeeps(db, NgoRow(ngo, l, left, terms, Some(q)), mid.listings);
    assert mid == Inserted(db, NgoRow(ngo, l, left, terms, Some(q)), mid.listings);
  }

  lemma OtherRequests(db: Db, requests: seq<NgoRequest>)
    requires Inv(db.(requests := requests))
    ensures Inv(db)
  {
    RequestKeeps(db.(requests := requests), db.requests);
    assert db == db.(requests := requests).(requests := db.requests);
  }

  lemma AcceptedKeeps(db: Db, ngo: nat, q: nat, terms: NgoTerms)
    requires Inv(db) && MayAccept(db, ngo, q)
    ensures Inv(Accepted(db, ngo, q, terms))
  {
    AcceptedInserts(db, ngo, q, terms);
    OtherRequests(Accepted(db, ngo, q, terms), db.requests);
  }

  lemma AcceptedExtends(db: Db, ngo: nat, q: nat, terms: NgoTerms)
    requires Inv(db) && MayAccept(db, ngo, q)
    ensures Extends(db, Accepted(db, ngo, q, terms))
    ensures terms.requiresDeposit ==> Unopened(Accepted(db, ngo, q, terms), |db.rows|)
  {
    AcceptedInserts(db, ngo, q, terms);
    var mid, after := Accepted(db, ngo, q, terms).(requests := db.requests), Accepted(db, ngo, q, terms);
    assert forall k :: PayOf(after, k) == PayOf(mid, k);
  }

  lemma AcceptRequestKeeps(db: Db, ngo: nat, q: nat, approved: set<nat>, terms: NgoTerms)
    requires Inv(db)
    ensures Keeps(db, AcceptRequest(db, ngo, q, approved, terms))
  {
    if AcceptRequest(db, ngo, q, approved, terms).Done? {
      AcceptingMay(db, ngo, q, approved, terms);
      AcceptedKeeps(db, ngo, q, terms);
      AcceptedExtends(db, ngo, q, terms);
      SettleNgoKeeps(db, Accepted(db, ngo, q, terms), terms);
    }
  }

  // ---------- the gateway ----------

  lemma GatewayRepliesTables(db: Db, c: RefundCall, s: GatewayStatus)
    requires ShapeOk(db) && CellsOk(db) && StockOk(db) && ReturnsOk(db) && ClaimsOk(db) && TasksOk(db) && CountersOk(db)
    requires c in db.prepared
    ensures var db' := GatewayReplies(db, c, s).db;
            ShapeOk(db') && CellsOk(db') && StockOk(db') && ReturnsOk(db') && ClaimsOk(db') && TasksOk(db') &&
              CountersOk(db')
  {
    var db' := GatewayReplies(db, c, s).db;
    assert forall i :: PayOf(db', i) == PayOf(db, i);
  }

  lemma GatewayRepliesProven(db: Db, c: RefundCall, s: GatewayStatus)
    requires AllProven(db) && c in db.prepared
    ensures AllProven(GatewayReplies(db, c, s).db)
  {
    assert forall k :: k in db.payments ==> Proven(db, k);
  }

  lemma GatewayRepliesRefunds(db: Db, c: RefundCall, s: GatewayStatus)
    requires JobsFit(db) && CallsFit(db) && AnswersFit(db) && c in db.prepared
    ensures var db' := GatewayReplies(db, c, s).db;
            JobsFit(db') && CallsFit(db') && AnswersFit(db')
  {
    var db' := GatewayReplies(db, c, s).db;
    assert forall j :: j in db.jobs ==> JobOk(db, j);
    assert forall c :: c in db.prepared ==> CallOk(db, c);
  }

  lemma GatewayRepliesKeeps(db: Db, c: RefundCall, s: GatewayStatus)
    requires Inv(db)
    ensures Keeps(db, GatewayReplies(db, c, s))
  {
    var result := GatewayReplies(db, c, s);
    if result.Done? {
      GatewayRepliesTables(db, c, s);
      GatewayRepliesProven(db, c, s);
      GatewayRepliesRefunds(db, c, s);
      EvolvesByCells(db, result.db);
    }
  }

  // ---------- the expiry job ----------

  /** What the expiry job leaves behind. */
  function Expired(db: Db, l: nat, open: set<nat>): Db
    requires l < |db.listings|
  {
    ExpireAll(db, l).(payments := RetainPayments(db, l, open), requests := ExpireRequests(db.requests, l, None))
  }

  /** One row and its payment after it. */
  lemma ExpiredRow(db: Db, l: nat, open: set<nat>, i: nat)
    requires l < |db.listings| && i < |db.rows|
    ensures var db' := Expired(db, l, open);
            db'.rows[i] == (if ExpiresWith(db.rows[i], l)
                            then db.rows[i].(status := Status.Expired, task := TaskExpired) else db.rows[i]) &&
            PayOf(db', i) == D.Retained(PayOf(db, i), ExpiryRetains(db, l, open, i))
  {
  }

  /** Row by row the expiry job is a step that returns the stock of the rows it selects. */
  lemma ExpireCell(db: Db, l: nat, open: set<nat>, i: nat)
    requires l < |db.listings| && i < |db.rows| && CellOk(db.rows[i], PayOf(db, i))
    ensures var db' := Expired(db, l, open);
            CellStep(db.rows[i], PayOf(db, i), db'.rows[i], PayOf(db', i), ExpiresWith(db.rows[i], l), NO_LICENCE)
  {
    ExpiredRow(db, l, open, i);
    if ExpiresWith(db.rows[i], l) {
      ExpiredCell(db.rows[i], PayOf(db, i), ExpiryRetains(db, l, open, i));
    } else {
      SameCell(db.rows[i], PayOf(db, i));
    }
  }

  /** It has nothing to do with volunteers. */
  lemma ExpireSums(rows: seq<Reservation>, l: nat, k: nat)
    requires forall i :: 0 <= i < |rows| && ExpiresWith(rows[i], l) ==>
             rows[i].volunteer.None? && rows[i].pickedUpAt.None?
    ensures Sum(ExpireRows(rows, l), HeldOn(k))
            == Sum(rows, HeldOn(k)) - (if k == l then Sum(rows, ReturnedBy(l)) else 0)
    ensures Sum(ExpireRows(rows, l), DeliveredBy(k)) == Sum(rows, DeliveredBy(k))
    ensures Sum(ExpireRows(rows, l), TimedOutBy(k)) == Sum(rows, TimedOutBy(k))
  {
    var nothing := (r: Reservation) => 0;
    SumZero(rows, nothing);
    SumShift(rows, ExpireRows(rows, l), HeldOn(k), if k == l then ReturnedBy(l) else nothing);
    SumShift(rows, ExpireRows(rows, l), DeliveredBy(k), nothing);
    SumShift(rows, ExpireRows(rows, l), TimedOutBy(k), nothing);
  }

  lemma ExpireSelects(r: Reservation, p: Option<Payment>, l: nat)
    requires CellOk(r, p) && ExpiresWith(r, l)
    ensures r.volunteer.None? && r.pickedUpAt.None? && r.quantity > 0
  {
  }

  lemma ExpireSelectsAll(db: Db, l: nat)
    requires CellsOk(db)
    ensures forall i :: 0 <= i < |db.rows| && ExpiresWith(db.rows[i], l) ==>
                          db.rows[i].volunteer.None? && db.rows[i].pickedUpAt.None? && db.rows[i].quantity > 0
  {
    forall i | 0 <= i < |db.rows| && ExpiresWith(db.rows[i], l)
      ensures db.rows[i].volunteer.None? && db.rows[i].pickedUpAt.None? && db.rows[i].quantity > 0
    {
      ExpireSelects(db.rows[i], PayOf(db, i), l);
    }
  }

  lemma ExpireKeepsStock(db: Db, l: nat, open: set<nat>)
    requires CellsOk(db) && StockOk(db) && l < |db.listings|
    ensures StockOk(Expired(db, l, open))
  {
    ExpireSelectsAll(db, l);
    SumNonNegative(db.rows, ReturnedBy(l));
    var db' := Expired(db, l, open);
    forall k | 0 <= k < |db'.listings|
      ensures 0 <= db'.listings[k].remaining
      ensures db'.listings[k].quantity == db'.listings[k].remaining + Sum(db'.rows, HeldOn(k))
    {
      ExpireSums(db.rows, l, k);
    }
  }

  lemma ExpireKeepsCounters(db: Db, l: nat, open: set<nat>)
    requires CellsOk(db) && CountersOk(db) && l < |db.listings|
    ensures CountersOk(Expired(db, l, open))
  {
    ExpireSelectsAll(db, l);
    forall v: nat
      ensures StatsOf(db.stats, v).completed == Sum(ExpireRows(db.rows, l), DeliveredBy(v))
      ensures StatsOf(db.stats, v).timeouts == Sum(ExpireRows(db.rows, l), TimedOutBy(v))
    {
      ExpireSums(db.rows, l, v);
    }
  }

  lemma ExpireKeepsReturns(db: Db, l: nat, open: set<nat>)
    requires CellsOk(db) && ReturnsOk(db) && l < |db.listings|
    ensures ReturnsOk(Expired(db, l, open))
  {
    ExpireSelectsAll(db, l);
  }

  lemma ExpireEvolves(db: Db, l: nat, open: set<nat>)
    requires CellsOk(db) && l < |db.listings|
    ensures CellsOk(Expired(db, l, open)) && Evolves(db, Expired(db, l, open), NOTHING_SPECIAL)
  {
    var db' := Expired(db, l, open);
    forall i | 0 <= i < |db.rows|
      ensures CellOk(db'.rows[i], PayOf(db', i))
      ensures CellStep(db.rows[i], PayOf(db, i), db'.rows[i], PayOf(db', i),
                       Returned(db'.rows[i]) && !Returned(db.rows[i]), NO_LICENCE)
    {
      ExpireCell(db, l, open, i);
    }
    assert RowsEvolve(db, db', NOTHING_SPECIAL);
  }

  lemma ExpireKeepsShape(db: Db, l: nat, open: set<nat>)
    requires ShapeOk(db) && l < |db.listings|
    ensures ShapeOk(Expired(db, l, open))
  {
  }

  lemma ExpireKeepsPairs(rows: seq<Reservation>, l: nat)
    ensures forall i :: 0 <= i < |rows| ==>
              ExpireRows(rows, l)[i] == rows[i] ||
                (!Claiming(ExpireRows(rows, l)[i]) && !Working(ExpireRows(rows, l)[i]))
  {
  }

  lemma ExpireKeepsClaims(db: Db, l: nat, open: set<nat>)
    requires ClaimsOk(db) && TasksOk(db) && l < |db.listings|
    ensures ClaimsOk(Expired(db, l, open)) && TasksOk(Expired(db, l, open))
  {
    ExpireKeepsPairs(db.rows, l);
  }

  lemma ExpireKeepsCalls(db: Db, l: nat, open: set<nat>)
    requires JobsFit(db) && CallsFit(db) && AnswersFit(db) && l < |db.listings|
    ensures var db' := Expired(db, l, open);
            JobsFit(db') && CallsFit(db') && AnswersFit(db')
  {
    var db' := Expired(db, l, open);
    forall j | j in db'.jobs ensures JobOk(db', j) {
      assert JobOk(db, j);
    }
    forall c | c in db'.prepared ensures CallOk(db', c) {
      assert CallOk(db, c);
    }
  }

  lemma ExpireKeepsProven(db: Db, l: nat, open: set<nat>)
    requires AllProven(db) && l < |db.listings|
    ensures AllProven(Expired(db, l, open))
  {
    var db' := Expired(db, l, open);
    forall k | k in db'.payments ensures Proven(db', k) {
      assert Proven(db, k);
    }
  }

  lemma ExpiredKeeps(db: Db, l: nat, open: set<nat>)
    requires Inv(db) && l < |db.listings|
    ensures Keeps(db, Done(Expired(db, l, open)))
  {
    ExpireKeepsStock(db, l, open);
    ExpireKeepsCounters(db, l, open);
    ExpireKeepsReturns(db, l, open);
    ExpireEvolves(db, l, open);
    ExpireKeepsShape(db, l, open);
    ExpireKeepsClaims(db, l, open);
    ExpireKeepsCalls(db, l, open);
    ExpireKeepsProven(db, l, open);
  }

  lemma ExpireListingKeeps(db: Db, l: nat, expected: Option<int>, open: set<nat>)
    requires Inv(db)
    ensures Keeps(db, ExpireListing(db, l, expected, open))
  {
    if ExpireListing(db, l, expected, open).Done? {
      ExpiredKeeps(db, l, open);
    }
  }

  /** Keeping a deposit never makes the expiry job roll back: on every state the laws allow, each
      deposit it would retain is still held. */
  lemma ExpiryNeverAborts(db: Db, l: nat, expected: Option<int>, open: set<nat>)
    requires Inv(db) && l < |db.listings| && ExpiryMatches(db.listings[l], db.now, expected)
    ensures ExpireListing(db, l, expected, open).Done?
  {
    forall i | i in db.payments && ExpiryRetains(db, l, open, i)
      ensures Retainable(db.payments[i].depositStatus)
    {
      assert CellOk(db.rows[i], PayOf(db, i));
    }
  }
}
