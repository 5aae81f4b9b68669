/** The monthly settlement of a provider (settleMonthly in admin.controller.js). Money is in paise. */
module Settlement {
  import opened Model
  import opened Sums

  datatype SettlementStatus =
    | SettlePending | SettleProcessing | SettleAllocated | SettleBatched | SettlePaid | SettleOther

  /** A row of `provider_settlements` with the two ledger sums the query joins to it. */
  datatype Row = Row(
    status: SettlementStatus,
    amount: int,
    paid: int,
    manual: int,      // manual_carry_forward_amount
    recorded: int,    // recorded_carry_forward_amount
    refund: int)      // refund_amount, at most `amount`

  /** One call: the rows of the month, the earlier rows whose carry-forward counts, the
      `paid_amount` of the body and whether the provider has a usable payout account. */
  datatype Request = Request(month: set<nat>, sources: set<nat>, requested: Option<int>, account: bool)

  datatype Allocation = Allocation(id: nat, amount: int)

  datatype Outcome = Empty | Refused(code: nat) | Committed(paid: int, count: nat)

  predicate Pending(s: SettlementStatus) {
    s == SettlePending || s == SettleProcessing || s == SettleAllocated || s == SettleBatched
  }

  // ---------- the rows of a run ----------

  /** Selected by the query, and not dropped because its refund has been recovered already. */
  predicate Survives(rows: seq<Row>, month: set<nat>, i: nat) {
    i < |rows| && i in month && Pending(rows[i].status) && !(rows[i].refund > 0 && rows[i].recorded >= rows[i].refund)
  }

  /** The survivors among the first `n` rows, oldest first. */
  function Survivors(rows: seq<Row>, month: set<nat>, n: nat): (ids: seq<nat>)
    ensures forall k :: 0 <= k < |ids| ==> ids[k] < n && Survives(rows, month, ids[k])
    ensures forall j, k :: 0 <= j < k < |ids| ==> ids[j] < ids[k]
    ensures forall i :: 0 <= i < n && Survives(rows, month, i) ==> i in ids
  {
    if n == 0 then [] else Survivors(rows, month, n - 1) + if Survives(rows, month, n - 1) then [n - 1] else []
  }

  function Sources(rows: seq<Row>, req: Request, n: nat): (ids: seq<nat>)
    ensures forall k :: 0 <= k < |ids| ==> ids[k] < |rows|
  {
    if n == 0 then []
    else
      var i := n - 1;
      Sources(rows, req, i) +
      if i < |rows| && i in req.sources && rows[i].manual > 0 && rows[i].refund > 0 && !Survives(rows, req.month, i)
      then [i] else []
  }

  function Pick(rows: seq<Row>, ids: seq<nat>): (picked: seq<Row>)
    requires forall k :: 0 <= k < |ids| ==> ids[k] < |rows|
    ensures |picked| == |ids|
  {
    seq(|ids|, k requires 0 <= k < |ids| => rows[ids[k]])
  }

  predicate Uncovered(r: Row) {
    r.refund > r.manual + r.recorded
  }

  /** What a row can still be paid: nothing if it was refunded. */
  function Payable(r: Row): int {
    var left := r.amount - r.paid - r.manual;
    if r.refund > 0 || left < 0 then 0 else left
  }

  const AMOUNT := (r: Row) => r.amount
  const MANUAL := (r: Row) => r.manual
  const PAID := (r: Row) => r.paid
  const PENDING := (r: Row) => if Pending(r.status) then 1 else 0

  /** `calculateMonthSettlementCarryForwardReduction`. */
  function SettlementAmount(pending: int, carry: int): int {
    if carry <= 0 then pending
    else if carry >= pending then 0
    else pending - carry
  }

  function CarryForward(rows: seq<Row>, req: Request): int {
    Sum(Pick(rows, Survivors(rows, req.month, |rows|)), MANUAL) + Sum(Pick(rows, Sources(rows, req, |rows|)), MANUAL)
  }

  function Expected(rows: seq<Row>, req: Request): int {
    SettlementAmount(Sum(Pick(rows, Survivors(rows, req.month, |rows|)), AMOUNT), CarryForward(rows, req))
  }

  // ---------- the allocation, in closed form ----------

  function Clamp(x: int, hi: int): int {
    if x < 0 then 0 else if x > hi then hi else x
  }

  function Before(picked: seq<Row>, k: nat): int
    requires k <= |picked|
  {
    Sum(picked[..k], Payable)
  }

  /** What row `k` gets: the part of the expected amount that earlier rows could not take. */
  function Share(picked: seq<Row>, k: nat, expected: int): int
    requires k < |picked|
  {
    Clamp(expected - Before(picked, k), Payable(picked[k]))
  }

  function Shares(picked: seq<Row>, k: nat, expected: int): int
    requires k <= |picked|
  {
    if k == 0 then 0 else Shares(picked, k - 1, expected) + Share(picked, k - 1, expected)
  }

  /** The allocations of the first `k` rows. */
  function Allocations(picked: seq<Row>, ids: seq<nat>, k: nat, expected: int): seq<Allocation>
    requires k <= |picked| == |ids|
  {
    if k == 0 then []
    else
      var share := Share(picked, k - 1, expected);
      Allocations(picked, ids, k - 1, expected) + if share > 0 then [Allocation(ids[k - 1], share)] else []
  }

  lemma BeforeStep(picked: seq<Row>, k: nat)
    requires k < |picked|
    ensures Before(picked, k + 1) == Before(picked, k) + Payable(picked[k])
  {
    assert picked[..k + 1][..k] == picked[..k];
  }

  lemma {:induction false} BeforeGrows(picked: seq<Row>, j: nat, k: nat)
    requires j <= k <= |picked|
    ensures 0 <= Before(picked, j) <= Before(picked, k)
    decreases k
  {
    if j < k {
      BeforeGrows(picked, j, k - 1);
      BeforeStep(picked, k - 1);
    } else if 0 < j {
      BeforeGrows(picked, j - 1, k - 1);
      BeforeStep(picked, k - 1);
    }
  }

  /** The shares of the first `k` rows add up to the expected amount, or to all there is to pay. */
  lemma {:induction false} SharesAreMin(picked: seq<Row>, k: nat, expected: int)
    requires k <= |picked|
    ensures Shares(picked, k, expected) == Clamp(expected, Before(picked, k))
  {
    if k > 0 {
      SharesAreMin(picked, k - 1, expected);
      BeforeStep(picked, k - 1);
      BeforeGrows(picked, 0, k - 1);
    }
  }

  /** Every row before a paid one is paid in full. */
  lemma EarlierSaturated(picked: seq<Row>, j: nat, k: nat, expected: int)
    requires j < k < |picked| && Share(picked, k, expected) > 0
    ensures Share(picked, j, expected) == Payable(picked[j])
  {
    BeforeStep(picked, j);
    BeforeGrows(picked, j + 1, k);
    BeforeGrows(picked, j, j);
  }

  predicate Partial(picked: seq<Row>, k: nat, expected: int)
    requires k < |picked|
  {
    0 < Share(picked, k, expected) < Payable(picked[k])
  }

  lemma OnePartial(picked: seq<Row>, j: nat, k: nat, expected: int)
    requires j < |picked| && k < |picked| && Partial(picked, j, expected) && Partial(picked, k, expected)
    ensures j == k
  {
    if j < k {
      EarlierSaturated(picked, j, k, expected);
    } else if k < j {
      EarlierSaturated(picked, k, j, expected);
    }
  }

  lemma RefundedGetNothing(picked: seq<Row>, k: nat, expected: int)
    requires k < |picked| && picked[k].refund > 0
    ensures Share(picked, k, expected) == 0
  {
  }

  /** Once the expected amount is used up, no later row gets anything. */
  lemma {:induction false} NothingLeft(picked: seq<Row>, ids: seq<nat>, k: nat, m: nat, expected: int)
    requires k <= m <= |picked| == |ids| && expected <= Before(picked, k)
    ensures Allocations(picked, ids, m, expected) == Allocations(picked, ids, k, expected)
    decreases m
  {
    if k < m {
      NothingLeft(picked, ids, k, m - 1, expected);
      BeforeGrows(picked, k, m - 1);
    }
  }

  /** The greedy loop computes the closed form. */
  method Allocate(picked: seq<Row>, ids: seq<nat>, expected: int) returns (allocations: seq<Allocation>, total: int)
    requires |picked| == |ids|
    ensures allocations == Allocations(picked, ids, |picked|, expected)
    ensures total == Clamp(expected, Before(picked, |picked|))
  {
    allocations := [];
    total := 0;
    var remaining := expected;
    var k := 0;
    BeforeGrows(picked, 0, |picked|);
    while k < |picked|
      invariant 0 <= k <= |picked|
      invariant allocations == Allocations(picked, ids, k, expected)
      invariant 0 <= Before(picked, k) <= Before(picked, |picked|)
      invariant remaining == if expected <= 0 then expected else expected - total
      invariant total == Clamp(expected, Before(picked, k))
    {
      BeforeStep(picked, k);
      BeforeGrows(picked, k + 1, |picked|);
      if remaining <= 0 {
        NothingLeft(picked, ids, k, |picked|, expected);
        return;
      }
      var r := picked[k];
      if r.refund <= 0 {
        var available := if r.amount - r.paid - r.manual > 0 then r.amount - r.paid - r.manual else 0;
        var amount := if available < remaining then available else remaining;
        if amount > 0 {
          allocations := allocations + [Allocation(ids[k], amount)];
          total := total + amount;
          remaining := if remaining - amount > 0 then remaining - amount else 0;
        }
      }
      k := k + 1;
    }
  }

  // ---------- the batch update ----------

  function Credit(r: Row, amount: int): Row {
    r.(status := SettlePaid, paid := r.paid + amount, manual := 0)
  }

  /** The UPDATE joined with the allocations. */
  function Update(rows: seq<Row>, allocations: seq<Allocation>): (out: seq<Row>)
    ensures |out| == |rows|
    decreases |allocations|
  {
    if |allocations| == 0 then rows
    else
      var last := allocations[|allocations| - 1];
      var out := Update(rows, allocations[..|allocations| - 1]);
      if last.id < |rows| then out[last.id := Credit(out[last.id], last.amount)] else out
  }

  function Chosen(rows: seq<Row>, req: Request): seq<Row> {
    Pick(rows, Survivors(rows, req.month, |rows|))
  }

  function Plan(rows: seq<Row>, req: Request): seq<Allocation> {
    Allocations(Chosen(rows, req), Survivors(rows, req.month, |rows|), |Chosen(rows, req)|, Expected(rows, req))
  }

  /** One run. A run that does not commit changes nothing. */
  function SettleMonth(rows: seq<Row>, req: Request): (seq<Row>, Outcome) {
    var picked := Chosen(rows, req);
    var pending := Sum(picked, AMOUNT);
    var expected := Expected(rows, req);
    if exists k :: 0 <= k < |picked| && Uncovered(picked[k]) then (rows, Refused(409))
    else if |picked| > 0 && pending > 0 && expected <= 0 then (rows, Refused(409))
    else if |picked| == 0 then (rows, Empty)
    else if req.requested.Some? && req.requested.value <= 0 then (rows, Refused(400))
    else if !req.account then (rows, Refused(409))
    else
      var total := Clamp(expected, Before(picked, |picked|));
      if total <= 0 then (rows, Refused(409))
      else (Update(rows, Plan(rows, req)), Committed(total, |Plan(rows, req)|))
  }

  /** The rows of a provider, and the paid amounts of the runs recorded so far. */
  class SettlementBook {
    var rows: seq<Row>
    var runs: seq<int>

    method SettleMonthly(req: Request) returns (out: Outcome)
      modifies this
      ensures (rows, out) == SettleMonth(old(rows), req)
      ensures runs == if out.Committed? then old(runs) + [out.paid] else old(runs)
    {
      var ids := Survivors(rows, req.month, |rows|);
      var picked := Pick(rows, ids);
      if exists k :: 0 <= k < |picked| && Uncovered(picked[k]) {
        return Refused(409);
      }
      var pending := Sum(picked, AMOUNT);
      var expected := SettlementAmount(pending, CarryForward(rows, req));
      if |picked| > 0 && pending > 0 && expected <= 0 {
        return Refused(409);
      }
      if |picked| == 0 {
        return Empty;
      }
      if req.requested.Some? && req.requested.value <= 0 {
        return Refused(400);
      }
      if !req.account {
        return Refused(409);
      }
      var allocations, total := Allocate(picked, ids, expected);
      if total <= 0 {
        return Refused(409);
      }
      rows := Update(rows, allocations);
      runs := runs + [total];
      return Committed(total, |allocations|);
    }
  }

  // ---------- one run ----------

  predicate Fresh(rows: seq<Row>, ids: seq<nat>) {
    (forall j :: 0 <= j < |ids| ==> ids[j] < |rows| && Pending(rows[ids[j]].status)) &&
    (forall i, j :: 0 <= i < j < |ids| ==> ids[i] < ids[j])
  }

  /** Row `j` of the chosen rows after it got its share. */
  function Settled(picked: seq<Row>, j: nat, expected: int): Row
    requires j < |picked|
  {
    if Share(picked, j, expected) > 0 then Credit(picked[j], Share(picked, j, expected)) else picked[j]
  }

  lemma UpdateStep(rows: seq<Row>, ids: seq<nat>, k: nat, expected: int)
    requires Fresh(rows, ids) && 0 < k <= |ids|
    ensures var picked := Pick(rows, ids);
            var out := Update(rows, Allocations(picked, ids, k - 1, expected));
            Update(rows, Allocations(picked, ids, k, expected))
            == if Share(picked, k - 1, expected) > 0
               then out[ids[k - 1] := Credit(out[ids[k - 1]], Share(picked, k - 1, expected))]
               else out
  {
    var picked := Pick(rows, ids);
    var all := Allocations(picked, ids, k, expected);
    if Share(picked, k - 1, expected) > 0 {
      assert all[..|all| - 1] == Allocations(picked, ids, k - 1, expected);
    } else {
      assert all == Allocations(picked, ids, k - 1, expected);
    }
  }

  /** The update leaves the rows alone that are not in the plan ... */
  lemma {:induction false} OthersStay(rows: seq<Row>, ids: seq<nat>, k: nat, expected: int, i: nat)
    requires Fresh(rows, ids) && k <= |ids| && i < |rows| && i !in ids[..k]
    ensures Update(rows, Allocations(Pick(rows, ids), ids, k, expected))[i] == rows[i]
  {
    if k > 0 {
      assert ids[..k] == ids[..k - 1] + [ids[k - 1]];
      OthersStay(rows, ids, k - 1, expected, i);
      UpdateStep(rows, ids, k, expected);
    }
  }

  /** ... and credits each row of the plan once. */
  lemma {:induction false} PlannedSettle(rows: seq<Row>, ids: seq<nat>, k: nat, expected: int, j: nat)
    requires Fresh(rows, ids) && j < k <= |ids|
    ensures Update(rows, Allocations(Pick(rows, ids), ids, k, expected))[ids[j]]
            == Settled(Pick(rows, ids), j, expected)
  {
    UpdateStep(rows, ids, k, expected);
    if j == k - 1 {
      OthersStay(rows, ids, j, expected, ids[j]);
    } else {
      PlannedSettle(rows, ids, k - 1, expected, j);
    }
  }

  lemma {:induction false} UpdateSums(rows: seq<Row>, ids: seq<nat>, k: nat, expected: int)
    requires Fresh(rows, ids) && k <= |ids|
    ensures var picked := Pick(rows, ids);
            var out := Update(rows, Allocations(picked, ids, k, expected));
            Sum(out, PAID) == Sum(rows, PAID) + Shares(picked, k, expected) &&
            Sum(out, PENDING) == Sum(rows, PENDING) - |Allocations(picked, ids, k, expected)|
  {
    if k > 0 {
      var picked := Pick(rows, ids);
      var n := k - 1;
      var out := Update(rows, Allocations(picked, ids, n, expected));
      UpdateSums(rows, ids, n, expected);
      OthersStay(rows, ids, n, expected, ids[n]);
      UpdateStep(rows, ids, k, expected);
      SumUpdate(out, ids[n], Credit(rows[ids[n]], Share(picked, n, expected)), PAID);
      SumUpdate(out, ids[n], Credit(rows[ids[n]], Share(picked, n, expected)), PENDING);
    }
  }

  /** A committed run pays each survivor its share, and nobody else. */
  lemma CommittedRows(rows: seq<Row>, req: Request)
    requires SettleMonth(rows, req).1.Committed?
    ensures var after := SettleMonth(rows, req).0;
            var ids := Survivors(rows, req.month, |rows|);
            |after| == |rows| &&
            (forall i :: 0 <= i < |rows| && !Survives(rows, req.month, i) ==> after[i] == rows[i]) &&
            (forall k :: 0 <= k < |ids| ==> after[ids[k]] == Settled(Chosen(rows, req), k, Expected(rows, req)))
  {
    var ids := Survivors(rows, req.month, |rows|);
    assert ids[..|ids|] == ids;
    forall i | 0 <= i < |rows| && !Survives(rows, req.month, i)
      ensures SettleMonth(rows, req).0[i] == rows[i]
    {
      OthersStay(rows, ids, |ids|, Expected(rows, req), i);
    }
    forall k | 0 <= k < |ids|
      ensures SettleMonth(rows, req).0[ids[k]] == Settled(Chosen(rows, req), k, Expected(rows, req))
    {
      PlannedSettle(rows, ids, |ids|, Expected(rows, req), k);
    }
  }

  /** Its record agrees with the table, and as many rows as it paid leave the pending statuses. */
  lemma CommittedTotals(rows: seq<Row>, req: Request)
    requires SettleMonth(rows, req).1.Committed?
    ensures var (after, out) := SettleMonth(rows, req);
            var all := Before(Chosen(rows, req), |Chosen(rows, req)|);
            out.paid == Sum(after, PAID) - Sum(rows, PAID) &&
            out.paid == (if Expected(rows, req) < all then Expected(rows, req) else all) &&
            out.count == Sum(rows, PENDING) - Sum(after, PENDING) && out.count > 0
  {
    var ids := Survivors(rows, req.month, |rows|);
    var picked := Chosen(rows, req);
    var expected := Expected(rows, req);
    UpdateSums(rows, ids, |ids|, expected);
    SharesAreMin(picked, |picked|, expected);
    NonEmpty(picked, ids, |ids|, expected);
  }

  lemma {:induction false} NonEmpty(picked: seq<Row>, ids: seq<nat>, k: nat, expected: int)
    requires k <= |picked| == |ids| && Shares(picked, k, expected) > 0
    ensures |Allocations(picked, ids, k, expected)| > 0
  {
    if Share(picked, k - 1, expected) <= 0 {
      NonEmpty(picked, ids, k - 1, expected);
    }
  }

  ghost predicate NoneUncovered(rows: seq<Row>, month: set<nat>) {
    forall i: nat :: Survives(rows, month, i) ==> !Uncovered(rows[i])
  }

  ghost predicate SomePayable(rows: seq<Row>, month: set<nat>) {
    exists i: nat :: Survives(rows, month, i) && Payable(rows[i]) > 0
  }

  /** The chosen rows are the surviving rows. */
  lemma ChosenRow(rows: seq<Row>, req: Request, i: nat)
    requires Survives(rows, req.month, i)
    ensures exists k :: 0 <= k < |Chosen(rows, req)| && Chosen(rows, req)[k] == rows[i]
  {
    var ids := Survivors(rows, req.month, |rows|);
    var k :| 0 <= k < |ids| && ids[k] == i;
    assert Chosen(rows, req)[k] == rows[i];
  }

  lemma ChosenSurvives(rows: seq<Row>, req: Request, k: nat)
    requires k < |Chosen(rows, req)|
    ensures exists i: nat :: Survives(rows, req.month, i) && rows[i] == Chosen(rows, req)[k]
  {
    assert Survives(rows, req.month, Survivors(rows, req.month, |rows|)[k]);
  }

  lemma UncoveredIff(rows: seq<Row>, req: Request)
    ensures NoneUncovered(rows, req.month) <==>
            forall k :: 0 <= k < |Chosen(rows, req)| ==> !Uncovered(Chosen(rows, req)[k])
  {
    if i: nat :| Survives(rows, req.month, i) && Uncovered(rows[i]) {
      ChosenRow(rows, req, i);
    }
    if k: nat :| k < |Chosen(rows, req)| && Uncovered(Chosen(rows, req)[k]) {
      ChosenSurvives(rows, req, k);
    }
  }

  lemma PayableIff(rows: seq<Row>, req: Request)
    ensures SomePayable(rows, req.month) <==>
            exists k :: 0 <= k < |Chosen(rows, req)| && Payable(Chosen(rows, req)[k]) > 0
  {
    if i: nat :| Survives(rows, req.month, i) && Payable(rows[i]) > 0 {
      ChosenRow(rows, req, i);
    }
    if k: nat :| k < |Chosen(rows, req)| && Payable(Chosen(rows, req)[k]) > 0 {
      ChosenSurvives(rows, req, k);
    }
  }

  /** When a run commits: every refund is covered by carry-forward, the expected amount is positive
      and some surviving row without a refund still has money due. */
  lemma CommitsIff(rows: seq<Row>, req: Request)
    ensures SettleMonth(rows, req).1.Committed? <==>
              NoneUncovered(rows, req.month) && SomePayable(rows, req.month) && Expected(rows, req) > 0 &&
              (req.requested.Some? ==> req.requested.value > 0) && req.account
  {
    UncoveredIff(rows, req);
    PayableIff(rows, req);
    PositiveIff(Chosen(rows, req), |Chosen(rows, req)|);
  }

  lemma {:induction false} PositiveIff(picked: seq<Row>, k: nat)
    requires k <= |picked|
    ensures Before(picked, k) > 0 <==> exists j :: 0 <= j < k && Payable(picked[j]) > 0
  {
    if k > 0 {
      PositiveIff(picked, k - 1);
      BeforeStep(picked, k - 1);
      BeforeGrows(picked, 0, k - 1);
    }
  }

  lemma {:induction false} SameSources(rows: seq<Row>, a: Request, b: Request, n: nat)
    requires a.month == b.month && a.sources == b.sources
    ensures Sources(rows, a, n) == Sources(rows, b, n)
  {
    if n > 0 {
      SameSources(rows, a, b, n - 1);
    }
  }

  lemma SamePlan(rows: seq<Row>, a: Request, b: Request)
    requires a.month == b.month && a.sources == b.sources
    ensures Chosen(rows, a) == Chosen(rows, b) && Expected(rows, a) == Expected(rows, b) &&
            Plan(rows, a) == Plan(rows, b)
  {
    SameSources(rows, a, b, |rows|);
  }

  /** The amount an administrator asks to pay is checked and then has no influence at all. */
  lemma RequestedAmountIgnored(rows: seq<Row>, req: Request, amount: int)
    requires amount > 0
    ensures SettleMonth(rows, req.(requested := Some(amount))) == SettleMonth(rows, req.(requested := None))
  {
    SamePlan(rows, req.(requested := Some(amount)), req.(requested := None));
  }

  // ---------- many runs ----------

  predicate RowOk(r: Row) {
    0 <= r.paid <= r.amount && 0 <= r.manual
  }

  predicate RowsOk(rows: seq<Row>) {
    forall i :: 0 <= i < |rows| ==> RowOk(rows[i])
  }

  /** What one run, committed or not, does to row `i`. */
  predicate RowAfter(r: Row, r': Row) {
    r' == r ||
    (Pending(r.status) && r.refund <= 0 && r'.status == SettlePaid && r'.manual == 0 &&
     r.paid < r'.paid <= r.amount - r.manual &&
     r' == r.(status := SettlePaid, paid := r'.paid, manual := 0))
  }

  lemma SettledIsAfter(picked: seq<Row>, k: nat, expected: int)
    requires k < |picked| && Pending(picked[k].status)
    ensures RowAfter(picked[k], Settled(picked, k, expected))
  {
  }

  lemma RunKeepsRows(rows: seq<Row>, req: Request)
    ensures |SettleMonth(rows, req).0| == |rows|
    ensures forall i :: 0 <= i < |rows| ==> RowAfter(rows[i], SettleMonth(rows, req).0[i])
  {
    if SettleMonth(rows, req).1.Committed? {
      CommittedRows(rows, req);
      var ids := Survivors(rows, req.month, |rows|);
      forall i | 0 <= i < |rows|
        ensures RowAfter(rows[i], SettleMonth(rows, req).0[i])
      {
        if Survives(rows, req.month, i) {
          var k :| 0 <= k < |ids| && ids[k] == i;
          SettledIsAfter(Chosen(rows, req), k, Expected(rows, req));
        }
      }
    }
  }

  function SettleAll(rows: seq<Row>, reqs: seq<Request>): seq<Row>
    decreases |reqs|
  {
    if |reqs| == 0 then rows else SettleMonth(SettleAll(rows, reqs[..|reqs| - 1]), reqs[|reqs| - 1]).0
  }

  /** The paid amounts of the runs that committed. */
  function Records(rows: seq<Row>, reqs: seq<Request>): seq<int>
    decreases |reqs|
  {
    if |reqs| == 0 then []
    else
      var out := SettleMonth(SettleAll(rows, reqs[..|reqs| - 1]), reqs[|reqs| - 1]).1;
      Records(rows, reqs[..|reqs| - 1]) + if out.Committed? then [out.paid] else []
  }

  lemma RowAfterTwice(r: Row, r': Row, r'': Row)
    requires RowAfter(r, r') && RowAfter(r', r'') && RowOk(r)
    ensures RowAfter(r, r'') && RowOk(r'')
  {
  }

  /** However many runs there are, in whatever order and for whatever months: no row is paid more than
      its amount, and each is paid at most once. */
  lemma {:induction false} ManyRunsRows(rows: seq<Row>, reqs: seq<Request>)
    requires RowsOk(rows)
    ensures |SettleAll(rows, reqs)| == |rows| && RowsOk(SettleAll(rows, reqs))
    ensures forall i :: 0 <= i < |rows| ==> RowAfter(rows[i], SettleAll(rows, reqs)[i])
    decreases |reqs|
  {
    if |reqs| > 0 {
      var mid := SettleAll(rows, reqs[..|reqs| - 1]);
      ManyRunsRows(rows, reqs[..|reqs| - 1]);
      RunKeepsRows(mid, reqs[|reqs| - 1]);
      forall i | 0 <= i < |rows|
        ensures RowAfter(rows[i], SettleAll(rows, reqs)[i]) && RowOk(SettleAll(rows, reqs)[i])
      {
        RowAfterTwice(rows[i], mid[i], SettleAll(rows, reqs)[i]);
      }
    }
  }

  /** The run records add up to what the rows were paid, and no more runs commit than rows leave the
      pending statuses: on a fixed set of rows the settlement comes to an end. */
  lemma {:induction false} ManyRunsTotals(rows: seq<Row>, reqs: seq<Request>)
    ensures var after := SettleAll(rows, reqs);
            Sum(after, PAID) - Sum(rows, PAID) == Sum(Records(rows, reqs), Identity) &&
            |Records(rows, reqs)| <= Sum(rows, PENDING) - Sum(after, PENDING)
    decreases |reqs|
  {
    if |reqs| > 0 {
      var front, last := reqs[..|reqs| - 1], reqs[|reqs| - 1];
      ManyRunsTotals(rows, front);
      RecordOf(SettleAll(rows, front), last);
      var out := SettleMonth(SettleAll(rows, front), last).1;
      if out.Committed? {
        SumAppend(Records(rows, front), out.paid, Identity);
      } else {
        assert Records(rows, reqs) == Records(rows, front);
      }
    }
  }

  lemma RecordOf(rows: seq<Row>, req: Request)
    ensures var (after, out) := SettleMonth(rows, req);
            if out.Committed? then
              Sum(after, PAID) == Sum(rows, PAID) + out.paid && Sum(after, PENDING) < Sum(rows, PENDING)
            else after == rows
  {
    if SettleMonth(rows, req).1.Committed? {
      CommittedTotals(rows, req);
    }
  }

  /** No two runs pay the same row: it stays as the first left it. */
  lemma PaidOnce(rows: seq<Row>, first: Request, later: seq<Request>, i: nat)
    requires RowsOk(rows) && i < |rows| && SettleMonth(rows, first).0[i] != rows[i]
    ensures i < |SettleAll(SettleMonth(rows, first).0, later)|
    ensures SettleAll(SettleMonth(rows, first).0, later)[i] == SettleMonth(rows, first).0[i]
  {
    RunKeepsRows(rows, first);
    var mid := SettleMonth(rows, first).0;
    assert forall j :: 0 <= j < |rows| ==> RowAfter(rows[j], mid[j]);
    ManyRunsRows(mid, later);
  }

  /** What a committed run leaves unpaid of a row it closes: the carry-forward it writes off, and for
      the one partial row also the rest of its share. Nobody pays the difference later. */
  lemma ClosedRowBalance(rows: seq<Row>, req: Request, k: nat)
    requires RowsOk(rows) && SettleMonth(rows, req).1.Committed? && k < |Chosen(rows, req)|
    ensures var before := Chosen(rows, req)[k];
            var after := Settled(Chosen(rows, req), k, Expected(rows, req));
            var unpaid := Payable(before) - Share(Chosen(rows, req), k, Expected(rows, req));
            SettleMonth(rows, req).0[Survivors(rows, req.month, |rows|)[k]] == after &&
            (after.status == SettlePaid ==>
               after.amount == after.paid + before.manual + unpaid &&
               (unpaid > 0 <==> Partial(Chosen(rows, req), k, Expected(rows, req))))
  {
    CommittedRows(rows, req);
    assert Survives(rows, req.month, Survivors(rows, req.month, |rows|)[k]);
  }
}
