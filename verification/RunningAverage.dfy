/** The floored running average of completion times (completeTask in volunteer.controller.js). */
module RunningAverage {
  import opened Model
  import opened Machine
  import opened Invariant
  import opened Sums
  import D = Deliveries
  import C = Changes
  import U = Runs

  /** The stored average after a volunteer's completions, in their order. */
  function Average(samples: seq<int>): int {
    if |samples| == 0 then 0
    else C.NextAverage(|samples| - 1, Average(samples[..|samples| - 1]), samples[|samples| - 1])
  }

  /** The most that n floored steps can lose. */
  function Slack(n: nat): int {
    n * (n - 1) / 2
  }

  lemma SlackStep(n: nat)
    requires n > 0
    ensures Slack(n) == Slack(n - 1) + (n - 1)
  {
    assert n * (n - 1) == (n - 1) * (n - 2) + 2 * (n - 1);
  }

  lemma Scale(a: int, b: int, n: int)
    requires a <= b && n >= 0
    ensures a * n <= b * n
  {
  }

  lemma Quotient(x: int, n: int)
    requires n > 0
    ensures x - (n - 1) <= (x / n) * n <= x
  {
    assert n * (x / n) + x % n == x;
  }

  /** The n-th average never exceeds the mean, and n averages fall short of the sum by at most
      n(n-1)/2. */
  lemma {:induction false} ErrorBound(samples: seq<int>)
    ensures 0 <= Sum(samples, Identity) - Average(samples) * |samples| <= Slack(|samples|)
  {
    var n := |samples|;
    if n > 0 {
      ErrorBound(samples[..n - 1]);
      Quotient(Average(samples[..n - 1]) * (n - 1) + samples[n - 1], n);
      SlackStep(n);
    }
  }

  /** ... and lies between the smallest and the largest sample. */
  lemma {:induction false} WithinSamples(samples: seq<int>, lo: int, hi: int)
    requires |samples| > 0 && forall k :: 0 <= k < |samples| ==> lo <= samples[k] <= hi
    ensures lo <= Average(samples) <= hi
  {
    var n := |samples|;
    if n > 1 {
      WithinSamples(samples[..n - 1], lo, hi);
      NextWithin(Average(samples[..n - 1]), samples[n - 1], n, lo, hi);
    }
  }

  lemma NextWithin(a: int, x: int, n: int, lo: int, hi: int)
    requires n > 1 && lo <= a <= hi && lo <= x <= hi
    ensures lo <= (a * (n - 1) + x) / n <= hi
  {
    var q := (a * (n - 1) + x) / n;
    Quotient(a * (n - 1) + x, n);
    Scale(lo, a, n - 1);
    Scale(a, hi, n - 1);
    assert lo * n == lo * (n - 1) + lo && hi * n == hi * (n - 1) + hi;
    if q < lo {
      Scale(q + 1, lo, n);
    }
    if q > hi {
      Scale(hi + 1, q, n);
    }
  }

  function UpTo(n: nat): seq<int> {
    if n == 0 then [] else UpTo(n - 1) + [n - 1]
  }

  lemma ZeroStays(n: nat)
    requires n > 0
    ensures C.NextAverage(n - 1, 0, n - 1) == 0
  {
    Quotient(n - 1, n);
  }

  lemma {:induction false} UpToFront(n: nat)
    requires n > 0
    ensures |UpTo(n)| == n && UpTo(n)[..n - 1] == UpTo(n - 1) && UpTo(n)[n - 1] == n - 1
  {
    if n > 1 {
      UpToFront(n - 1);
    }
  }

  lemma {:induction false} UpToAverage(n: nat)
    ensures Average(UpTo(n)) == 0
  {
    if n > 0 {
      UpToAverage(n - 1);
      UpToFront(n);
      ZeroStays(n);
    }
  }

  lemma {:induction false} UpToSum(n: nat)
    ensures Sum(UpTo(n), Identity) == Slack(n)
  {
    if n > 0 {
      UpToSum(n - 1);
      SlackStep(n);
      SumAppend(UpTo(n - 1), n - 1, Identity);
    }
  }

  /** The bound is reached for every n: times that grow by one second leave the average at zero. */
  lemma BoundIsReached(n: nat)
    ensures |UpTo(n)| == n && Average(UpTo(n)) == 0 && Sum(UpTo(n), Identity) == Slack(n)
  {
    if n > 0 {
      UpToFront(n);
    }
    UpToAverage(n);
    UpToSum(n);
  }

  // ---------- the statistics along a run ----------

  /** The completion times a run records for a volunteer. */
  function Completions(start: int, steps: seq<Step>, v: nat): seq<int>
    decreases |steps|
  {
    if |steps| == 0 then []
    else
      var front, last := steps[..|steps| - 1], steps[|steps| - 1];
      Completions(start, front, v) + Recorded(Run(EmptyDb(start), front), last, v)
  }

  /** The whole seconds from the start of a task to its end, as its row has them. */
  function TaskSeconds(r: Reservation): int {
    if r.assignedAt.Some? && r.completedAt.Some? then (r.completedAt.value - r.assignedAt.value) / 1000 else 0
  }

  /** The task a volunteer completes in a step, measured on its row afterwards. */
  function Recorded(db: Db, step: Step, v: nat): seq<int> {
    if step.CompleteTask? && step.volunteer == v && step.row < |db.rows| && step.row < |Apply(db, step).rows| &&
       db.rows[step.row].status != PickedUp && Apply(db, step).rows[step.row].status == PickedUp
    then [TaskSeconds(Apply(db, step).rows[step.row])] else []
  }

  lemma TaskMeasured(db: Db, v: nat, i: nat, codeOk: bool)
    requires i < |db.rows| ==> Ready(db, i)
    ensures var db' := After(db, D.CompleteTask(db, v, i, codeOk));
            if i < |db.rows| && db.rows[i].status != PickedUp && i < |db'.rows| && db'.rows[i].status == PickedUp then
              db' == D.DeliveredTo(db, v, i) && TaskSeconds(db'.rows[i]) == D.CompletionSeconds(db.rows[i], db.now)
            else db' == db
  {
  }

  lemma RecordedCompletion(db: Db, v: nat, i: nat, codeOk: bool)
    requires Reachable(db)
    ensures var step := CompleteTask(v, i, codeOk);
            var s, s' := StatsOf(db.stats, v), StatsOf(Apply(db, step).stats, v);
            if Recorded(db, step, v) == [] then Apply(db, step) == db
            else
              s'.completed == s.completed + 1 &&
              s'.average == C.NextAverage(s.completed, s.average, Recorded(db, step, v)[0])
  {
    U.RowsReady(db);
    TaskMeasured(db, v, i, codeOk);
    CompleteTaskApplies(db, v, i, codeOk);
  }

  /** A step adds to the statistics of a volunteer exactly what it records for them. */
  lemma StepRecords(db: Db, step: Step, v: nat)
    requires Reachable(db)
    ensures var s, s' := StatsOf(db.stats, v), StatsOf(Apply(db, step).stats, v);
            if Recorded(db, step, v) == [] then s'.completed == s.completed && s'.average == s.average
            else
              s'.completed == s.completed + 1 &&
              s'.average == C.NextAverage(s.completed, s.average, Recorded(db, step, v)[0])
  {
    if step.CompleteTask? && step.volunteer == v {
      RecordedCompletion(db, v, step.row, step.codeOk);
    } else {
      NotCompleting(db, step, v);
      U.ApplyCompletions(db, step, v);
    }
  }

  lemma NotCompleting(db: Db, step: Step, v: nat)
    requires !(step.CompleteTask? && step.volunteer == v)
    ensures U.EffectsOf(db, step).completes != Some(v)
  {
  }

  lemma AverageOneMore(samples: seq<int>, more: seq<int>)
    requires |more| <= 1
    ensures Average(samples + more)
         == if more == [] then Average(samples) else C.NextAverage(|samples|, Average(samples), more[0])
  {
    if more == [] {
      assert samples + more == samples;
    } else {
      assert (samples + more)[..|samples|] == samples;
    }
  }

  /** In every reachable state the stored statistics are the running average of the volunteer's own
      completion times, whatever else happened in between. */
  lemma {:induction false} StatsAreAverage(start: int, steps: seq<Step>, v: nat)
    ensures var s := StatsOf(Run(EmptyDb(start), steps).stats, v);
            s.completed == |Completions(start, steps, v)| && s.average == Average(Completions(start, steps, v))
    decreases |steps|
  {
    if |steps| > 0 {
      var front, last := steps[..|steps| - 1], steps[|steps| - 1];
      StatsAreAverage(start, front, v);
      ReachableFromEmpty(start, front);
      StepRecords(Run(EmptyDb(start), front), last, v);
      AverageOneMore(Completions(start, front, v), Recorded(Run(EmptyDb(start), front), last, v));
    }
  }
}
