/** One claim per user and listing, over whole runs (ensureListingNotPreviouslyReserved). A row that is
    confirmed or cancelled locks its user out of the listing; no step lifts the lock, because new rows
    pass the query that looks for such a row. */
module ClaimHistory {
  import opened Model
  import opened Stock
  import opened Machine
  import opened Cells
  import opened Runs
  import W = Laws

  predicate SamePair(r: Reservation, s: Reservation) {
    r.user == s.user && r.listing == s.listing
  }

  /** No later row, and no other live row, is for the user and listing of row `i`. */
  predicate LockedOut(db: Db, i: nat, from: nat)
    requires i < |db.rows|
  {
    (forall k :: from <= k < |db.rows| ==> !SamePair(db.rows[k], db.rows[i])) &&
    (forall k :: 0 <= k < |db.rows| && k != i && SamePair(db.rows[k], db.rows[i]) ==> !Live(db.rows[k]))
  }

  /** Statuses of a claim that was confirmed and has neither been collected nor expired. */
  predicate Barring(s: Status) {
    s == Reserved || s == Cancelled
  }

  lemma BarringClaims(db: Db, i: nat)
    requires Reachable(db) && i < |db.rows| && Barring(db.rows[i].status)
    ensures AlreadyClaimed(db.rows, db.rows[i].user, db.rows[i].listing)
  {
    ReachableReady(db, i);
    assert Claims(db.rows[i], db.rows[i].user, db.rows[i].listing);
  }

  /** A row never changes hands, and its status only moves forward. */
  lemma RowMoves(db: Db, step: Step, i: nat)
    requires Reachable(db) && i < |db.rows|
    ensures i < |Apply(db, step).rows| && StatusStep(db.rows[i].status, Apply(db, step).rows[i].status)
    ensures SamePair(Apply(db, step).rows[i], db.rows[i])
  {
    ApplyRow(db, step, i);
  }

  /** While row `i` bars others it has them locked out. */
  predicate Bars(db: Db, i: nat, from: nat) {
    from <= |db.rows| && i < |db.rows| && (Barring(db.rows[i].status) ==> LockedOut(db, i, from))
  }

  /** A row for the same user and listing was there before, and was not live. */
  lemma OtherRow(db: Db, step: Step, i: nat, from: nat, k: nat)
    requires Reachable(db) && Bars(db, i, from) && Barring(db.rows[i].status)
    requires i < |Apply(db, step).rows| && k < |Apply(db, step).rows| && k != i
    requires SamePair(Apply(db, step).rows[i], db.rows[i]) && SamePair(Apply(db, step).rows[k], Apply(db, step).rows[i])
    ensures k < |db.rows| && SamePair(db.rows[k], db.rows[i]) && !Live(Apply(db, step).rows[k])
  {
    if k < |db.rows| {
      RowMoves(db, step, k);
    } else {
      ApplyNewRow(db, step, k);
      BarringClaims(db, i);
    }
  }

  lemma StepKeepsLock(db: Db, step: Step, i: nat, from: nat)
    requires Reachable(db) && Bars(db, i, from) && Barring(db.rows[i].status)
    ensures Bars(Apply(db, step), i, from)
  {
    var db' := Apply(db, step);
    RowMoves(db, step, i);
    ApplyGrows(db, step);
    forall k | 0 <= k < |db'.rows| && k != i && SamePair(db'.rows[k], db'.rows[i])
      ensures k < |db.rows| && SamePair(db.rows[k], db.rows[i]) && !Live(db'.rows[k])
    {
      OtherRow(db, step, i, from, k);
    }
  }

  /** Once confirmed, a reservation is neither waiting nor released again. */
  predicate WasConfirmed(s: Status) {
    s == Reserved || s == Cancelled || s == PickedUp || s == Expired
  }

  lemma StepKeepsBars(db: Db, step: Step, i: nat, from: nat)
    requires Reachable(db) && Bars(db, i, from) && WasConfirmed(db.rows[i].status)
    ensures Bars(Apply(db, step), i, from) && WasConfirmed(Apply(db, step).rows[i].status)
  {
    RowMoves(db, step, i);
    ApplyGrows(db, step);
    if Barring(db.rows[i].status) {
      StepKeepsLock(db, step, i, from);
    }
  }

  /** A reservation that ends reserved or cancelled was so all the way, and locked everybody out. */
  lemma {:induction false} LockedOutWhileBarring(db: Db, steps: seq<Step>, i: nat)
    requires Reachable(db) && i < |db.rows| && db.rows[i].status == Reserved
    ensures Bars(Run(db, steps), i, |db.rows|) && WasConfirmed(Run(db, steps).rows[i].status)
    decreases |steps|
  {
    if |steps| > 0 {
      LockedOutWhileBarring(db, steps[..|steps| - 1], i);
      ReachableRun(db, steps[..|steps| - 1]);
      StepKeepsBars(Run(db, steps[..|steps| - 1]), steps[|steps| - 1], i, |db.rows|);
    } else {
      OthersNotLive(db, i);
    }
  }

  lemma OthersNotLive(db: Db, i: nat)
    requires Reachable(db) && i < |db.rows| && Live(db.rows[i])
    ensures LockedOut(db, i, |db.rows|)
  {
    forall k | 0 <= k < |db.rows| && k != i && SamePair(db.rows[k], db.rows[i])
      ensures !Live(db.rows[k])
    {
      if Live(db.rows[k]) {
        W.OneLiveClaim(db, i, k);
      }
    }
  }

  lemma {:induction false} CancelledStays(db: Db, steps: seq<Step>, i: nat)
    requires Reachable(db) && i < |db.rows| && db.rows[i].status == Cancelled
    ensures i < |Run(db, steps).rows| && Run(db, steps).rows[i].status == Cancelled
    decreases |steps|
  {
    if |steps| > 0 {
      CancelledStays(db, steps[..|steps| - 1], i);
      ReachableRun(db, steps[..|steps| - 1]);
      RowMoves(Run(db, steps[..|steps| - 1]), steps[|steps| - 1], i);
    }
  }

  /** Once a confirmed reservation has been cancelled, no run whatever gives its user another
      reservation on that listing. */
  lemma CancelledLocksOut(db: Db, until: seq<Step>, later: seq<Step>, i: nat)
    requires Reachable(db) && i < |db.rows| && db.rows[i].status == Reserved
    requires i < |Run(db, until).rows| && Run(db, until).rows[i].status == Cancelled
    ensures var end := Run(Run(db, until), later);
            i < |end.rows| && end.rows[i].status == Cancelled && LockedOut(end, i, |db.rows|)
  {
    ReachableRun(db, until);
    CancelledStays(Run(db, until), later, i);
    RunSplits(db, until, later);
    LockedOutWhileBarring(db, until + later, i);
  }
}
