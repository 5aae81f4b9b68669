/** What a monthly settlement pays, in sums over the provider's rows. */
module SettlementAmounts {
  import opened Model
  import opened Sums
  import opened Settlement

  /** The rows a run is about: of the month, still open, and not with a refund that has been recovered. */
  predicate InRun(rows: seq<Row>, month: set<nat>, i: nat) {
    i < |rows| && i in month &&
    (rows[i].status == SettlePending || rows[i].status == SettleProcessing || rows[i].status == SettleAllocated ||
     rows[i].status == SettleBatched) &&
    (rows[i].refund <= 0 || rows[i].recorded < rows[i].refund)
  }

  /** The earlier refunds that a run takes off what it pays. */
  predicate IsSource(rows: seq<Row>, req: Request, i: nat) {
    i < |rows| && i in req.sources && rows[i].refund > 0 && rows[i].manual > 0 && !InRun(rows, req.month, i)
  }

  function Larger(a: int, b: int): int {
    if a < b then b else a
  }

  function Smaller(a: int, b: int): int {
    if a < b then a else b
  }

  /** The amounts of the rows of the run, among the first `n`. */
  function Due(rows: seq<Row>, req: Request, n: nat): int {
    if n == 0 then 0
    else Due(rows, req, n - 1) + if InRun(rows, req.month, n - 1) then rows[n - 1].amount else 0
  }

  /** What is carried forward against them. */
  function Carried(rows: seq<Row>, req: Request, n: nat): int {
    if n == 0 then 0
    else
      Carried(rows, req, n - 1) +
      if InRun(rows, req.month, n - 1) || IsSource(rows, req, n - 1) then rows[n - 1].manual else 0
  }

  /** What the rows of the run without a refund can still be paid. */
  function Open(rows: seq<Row>, req: Request, n: nat): int {
    if n == 0 then 0
    else
      Open(rows, req, n - 1) +
      if InRun(rows, req.month, n - 1) && rows[n - 1].refund <= 0
      then Larger(rows[n - 1].amount - rows[n - 1].paid - rows[n - 1].manual, 0) else 0
  }

  /** What is owed after the carry-forward. */
  function Owed(rows: seq<Row>, req: Request): int {
    Due(rows, req, |rows|) - Larger(Carried(rows, req, |rows|), 0)
  }

  lemma InRunSurvives(rows: seq<Row>, month: set<nat>, i: nat)
    ensures InRun(rows, month, i) <==> Survives(rows, month, i)
  {
  }

  lemma PickOneMore(rows: seq<Row>, ids: seq<nat>, i: nat, f: Row -> int)
    requires (forall k :: 0 <= k < |ids| ==> ids[k] < |rows|) && i < |rows|
    ensures Sum(Pick(rows, ids + [i]), f) == Sum(Pick(rows, ids), f) + f(rows[i])
  {
    assert Pick(rows, ids + [i]) == Pick(rows, ids) + [rows[i]];
    SumAppend(Pick(rows, ids), rows[i], f);
  }

  lemma SurvivorsStep(rows: seq<Row>, month: set<nat>, n: nat)
    requires n > 0
    ensures Survivors(rows, month, n)
            == if Survives(rows, month, n - 1) then Survivors(rows, month, n - 1) + [n - 1]
               else Survivors(rows, month, n - 1)
  {
    assert Survivors(rows, month, n - 1) + [] == Survivors(rows, month, n - 1);
  }

  lemma SourcesStep(rows: seq<Row>, req: Request, n: nat)
    requires n > 0
    ensures Sources(rows, req, n)
            == if IsSource(rows, req, n - 1) then Sources(rows, req, n - 1) + [n - 1] else Sources(rows, req, n - 1)
  {
    assert Sources(rows, req, n - 1) + [] == Sources(rows, req, n - 1);
  }

  function SurvivorSum(rows: seq<Row>, month: set<nat>, n: nat, f: Row -> int): int {
    Sum(Pick(rows, Survivors(rows, month, n)), f)
  }

  function SourceSum(rows: seq<Row>, req: Request, n: nat): int {
    Sum(Pick(rows, Sources(rows, req, n)), MANUAL)
  }

  lemma SurvivorSumStep(rows: seq<Row>, month: set<nat>, n: nat, f: Row -> int)
    requires n > 0
    ensures SurvivorSum(rows, month, n, f)
            == SurvivorSum(rows, month, n - 1, f) + if InRun(rows, month, n - 1) then f(rows[n - 1]) else 0
  {
    SurvivorsStep(rows, month, n);
    InRunSurvives(rows, month, n - 1);
    if Survives(rows, month, n - 1) {
      PickOneMore(rows, Survivors(rows, month, n - 1), n - 1, f);
    }
  }

  lemma SourceSumStep(rows: seq<Row>, req: Request, n: nat)
    requires n > 0
    ensures SourceSum(rows, req, n)
            == SourceSum(rows, req, n - 1) + if IsSource(rows, req, n - 1) then rows[n - 1].manual else 0
  {
    SourcesStep(rows, req, n);
    if IsSource(rows, req, n - 1) {
      PickOneMore(rows, Sources(rows, req, n - 1), n - 1, MANUAL);
    }
  }

  lemma {:induction false} DueIsPending(rows: seq<Row>, req: Request, n: nat)
    ensures Due(rows, req, n) == SurvivorSum(rows, req.month, n, AMOUNT)
  {
    if n > 0 {
      DueIsPending(rows, req, n - 1);
      SurvivorSumStep(rows, req.month, n, AMOUNT);
    }
  }

  lemma {:induction false} OpenIsPayable(rows: seq<Row>, req: Request, n: nat)
    ensures Open(rows, req, n) == SurvivorSum(rows, req.month, n, Payable)
  {
    if n > 0 {
      OpenIsPayable(rows, req, n - 1);
      SurvivorSumStep(rows, req.month, n, Payable);
    }
  }

  lemma {:induction false} CarriedIsForward(rows: seq<Row>, req: Request, n: nat)
    ensures Carried(rows, req, n) == SurvivorSum(rows, req.month, n, MANUAL) + SourceSum(rows, req, n)
  {
    if n > 0 {
      CarriedIsForward(rows, req, n - 1);
      SurvivorSumStep(rows, req.month, n, MANUAL);
      SourceSumStep(rows, req, n);
    }
  }

  lemma Foundations(rows: seq<Row>, req: Request)
    ensures Before(Chosen(rows, req), |Chosen(rows, req)|) == Open(rows, req, |rows|)
    ensures Sum(Chosen(rows, req), AMOUNT) == Due(rows, req, |rows|)
    ensures if Owed(rows, req) > 0 then Expected(rows, req) == Owed(rows, req) else Expected(rows, req) <= 0
  {
    DueIsPending(rows, req, |rows|);
    CarriedIsForward(rows, req, |rows|);
    OpenIsPayable(rows, req, |rows|);
    assert Chosen(rows, req)[..|Chosen(rows, req)|] == Chosen(rows, req);
  }

  /** A run that commits pays what is owed after the carry-forward, or all that is open where that is
      less; and this is by how much the paid amounts grow. */
  lemma PaysWhatIsOwed(rows: seq<Row>, req: Request)
    requires SettleMonth(rows, req).1.Committed?
    ensures SettleMonth(rows, req).1.paid == Smaller(Owed(rows, req), Open(rows, req, |rows|))
    ensures Sum(SettleMonth(rows, req).0, PAID) - Sum(rows, PAID) == Smaller(Owed(rows, req), Open(rows, req, |rows|))
  {
    Foundations(rows, req);
    CommitsIff(rows, req);
    CommittedTotals(rows, req);
  }

  /** A row of the run has a refund that nothing covers yet. */
  ghost predicate RefundOpen(rows: seq<Row>, month: set<nat>) {
    exists i: nat :: InRun(rows, month, i) && rows[i].refund > rows[i].manual + rows[i].recorded
  }

  ghost predicate NobodyWaits(rows: seq<Row>, month: set<nat>) {
    forall i: nat :: !InRun(rows, month, i)
  }

  lemma RefundOpenMeans(rows: seq<Row>, month: set<nat>)
    ensures RefundOpen(rows, month) <==> !NoneUncovered(rows, month)
  {
    forall i: nat ensures InRun(rows, month, i) <==> Survives(rows, month, i) {
      InRunSurvives(rows, month, i);
    }
    if i: nat :| InRun(rows, month, i) && rows[i].refund > rows[i].manual + rows[i].recorded {
      assert Survives(rows, month, i) && Uncovered(rows[i]);
    }
    if i: nat :| Survives(rows, month, i) && Uncovered(rows[i]) {
      assert InRun(rows, month, i);
    }
  }

  lemma NobodyWaitsMeans(rows: seq<Row>, req: Request)
    ensures NobodyWaits(rows, req.month) <==> Chosen(rows, req) == []
  {
    if i: nat :| InRun(rows, req.month, i) {
      InRunSurvives(rows, req.month, i);
      ChosenRow(rows, req, i);
    }
    if Chosen(rows, req) != [] {
      ChosenSurvives(rows, req, 0);
      var i: nat :| Survives(rows, req.month, i) && rows[i] == Chosen(rows, req)[0];
      InRunSurvives(rows, req.month, i);
    }
  }

  /** The outcome of a run, in the order of its checks. */
  lemma SettlesAs(rows: seq<Row>, req: Request)
    ensures var out := SettleMonth(rows, req).1;
            var pays := Smaller(Owed(rows, req), Open(rows, req, |rows|));
            if RefundOpen(rows, req.month) then out == Refused(409)
            else if Due(rows, req, |rows|) > 0 && Owed(rows, req) <= 0 then out == Refused(409)
            else if NobodyWaits(rows, req.month) then out == Empty
            else if req.requested.Some? && req.requested.value <= 0 then out == Refused(400)
            else if !req.account || pays <= 0 then out == Refused(409)
            else out.Committed? && out.paid == pays
  {
    Foundations(rows, req);
    RefundOpenMeans(rows, req.month);
    UncoveredIff(rows, req);
    NobodyWaitsMeans(rows, req);
    NothingDue(rows, req);
  }

  lemma NothingDue(rows: seq<Row>, req: Request)
    ensures Chosen(rows, req) == [] ==> Due(rows, req, |rows|) == 0
  {
    DueIsPending(rows, req, |rows|);
  }

  /** When a run commits. A month whose carry-forward reaches what is due never does. */
  lemma CommitsIffOwed(rows: seq<Row>, req: Request)
    ensures SettleMonth(rows, req).1.Committed? <==>
              !RefundOpen(rows, req.month) && Owed(rows, req) > 0 && Open(rows, req, |rows|) > 0 &&
              (req.requested.Some? ==> req.requested.value > 0) && req.account
    ensures Carried(rows, req, |rows|) >= Due(rows, req, |rows|) ==> !SettleMonth(rows, req).1.Committed?
  {
    SettlesAs(rows, req);
    NobodyWaitsMeans(rows, req);
    OpenIsPayable(rows, req, |rows|);
  }

  // ---------- who gets it ----------

  lemma {:induction false} SurvivorsPrefix(rows: seq<Row>, month: set<nat>, n: nat, k: nat)
    requires k < |Survivors(rows, month, n)|
    ensures Survivors(rows, month, Survivors(rows, month, n)[k]) == Survivors(rows, month, n)[..k]
  {
    SurvivorsStep(rows, month, n);
    if k < |Survivors(rows, month, n - 1)| {
      SurvivorsPrefix(rows, month, n - 1, k);
      assert Survivors(rows, month, n)[..k] == Survivors(rows, month, n - 1)[..k];
    } else {
      assert Survivors(rows, month, n)[..k] == Survivors(rows, month, n - 1);
    }
  }

  lemma BeforeIsOpen(rows: seq<Row>, req: Request, k: nat)
    requires k < |Chosen(rows, req)|
    ensures Before(Chosen(rows, req), k) == Open(rows, req, Survivors(rows, req.month, |rows|)[k])
  {
    var ids := Survivors(rows, req.month, |rows|);
    SurvivorsPrefix(rows, req.month, |rows|, k);
    OpenIsPayable(rows, req, ids[k]);
    assert Chosen(rows, req)[..k] == Pick(rows, ids[..k]);
  }

  /** The part of what is owed that falls to row `i`: older rows come first. */
  function PartOf(rows: seq<Row>, req: Request, i: nat): int
    requires i < |rows|
  {
    var open := Open(rows, req, i + 1) - Open(rows, req, i);
    Smaller(Larger(Owed(rows, req) - Open(rows, req, i), 0), open)
  }

  /** A run that commits pays every row its part, oldest first, and closes the rows it pays. */
  lemma PaysOldestFirst(rows: seq<Row>, req: Request, i: nat)
    requires SettleMonth(rows, req).1.Committed? && i < |rows|
    ensures |SettleMonth(rows, req).0| == |rows|
    ensures SettleMonth(rows, req).0[i]
            == if InRun(rows, req.month, i) && PartOf(rows, req, i) > 0
               then rows[i].(status := SettlePaid, paid := rows[i].paid + PartOf(rows, req, i), manual := 0)
               else rows[i]
  {
    CommittedRows(rows, req);
    InRunSurvives(rows, req.month, i);
    if InRun(rows, req.month, i) {
      var ids := Survivors(rows, req.month, |rows|);
      var k :| 0 <= k < |ids| && ids[k] == i;
      ShareIsPart(rows, req, k);
    }
  }

  lemma ShareIsPart(rows: seq<Row>, req: Request, k: nat)
    requires SettleMonth(rows, req).1.Committed? && k < |Chosen(rows, req)|
    ensures var i := Survivors(rows, req.month, |rows|)[k];
            i < |rows| && Share(Chosen(rows, req), k, Expected(rows, req)) == PartOf(rows, req, i)
  {
    Foundations(rows, req);
    CommitsIff(rows, req);
    BeforeIsOpen(rows, req, k);
  }
}
