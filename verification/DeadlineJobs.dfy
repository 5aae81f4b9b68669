/** The expiry jobs of one listing while its deadline is edited (scheduleExpiryJobs, removeExpiryJobs
    and updateFood in food.controller.js, expiry.worker.js). */
module DeadlineJobs {
  import opened Model
  import L = Listings

  /** A job is known by the deadline it carries; older jobs carry none. `edit` is the deadline of an
      edit under way, `cleanups` are the deadlines whose jobs are still to be removed. An edit holds
      the row lock from the moment it reads the listing until it commits; its cleanup comes later. */
  datatype Schedule = Schedule(now: int, listing: Listing, queue: set<Option<int>>, edit: Option<int>,
                               cleanups: multiset<int>)

  datatype Step =
    | Tick(elapsed: nat)
    | BeginEdit(deadline: int)
    | CommitEdit
    | AbortEdit
    | Cleanup(deadline: int, removes: bool)
    | Fire(job: Option<int>, again: bool)

  predicate Open(s: Schedule) {
    s.listing.status == ListingActive || s.listing.status == ListingCompleted
  }

  function Begin(s: Schedule, deadline: int): Schedule {
    if s.edit.Some? || s.listing.status == ListingDeleted || deadline <= s.now then s
    else s.(edit := Some(deadline),
                queue := if deadline != s.listing.deadline then s.queue + {Some(deadline)} else s.queue)
  }

  function Commit(s: Schedule): Schedule {
    if s.edit.None? then s
    else if s.edit.value == s.listing.deadline then s.(edit := None)
    else s.(listing := s.listing.(deadline := s.edit.value),
            edit := None,
            cleanups := s.cleanups + multiset{s.listing.deadline})
  }

  /** `removeExpiryJobs`; a failing queue is only logged. */
  function RemoveJobs(s: Schedule, deadline: int, removes: bool): Schedule {
    if s.cleanups[deadline] == 0 then s
    else s.(cleanups := s.cleanups - multiset{deadline},
            queue := if removes then s.queue - {Some(deadline), None} else s.queue)
  }

  predicate MayFire(s: Schedule, job: Option<int>) {
    job in s.queue && s.edit.None? && (job.Some? ==> job.value <= s.now)
  }

  /** The expiry worker; a job may be delivered again. */
  function FireJob(s: Schedule, job: Option<int>, again: bool): Schedule {
    if !MayFire(s, job) then s
    else s.(queue := if again then s.queue else s.queue - {job},
            listing := if L.ExpiryMatches(s.listing, s.now, job) then s.listing.(status := ListingExpired)
                       else s.listing)
  }

  function Apply(s: Schedule, step: Step): Schedule {
    match step
    case Tick(elapsed) => s.(now := s.now + elapsed)
    case BeginEdit(deadline) => Begin(s, deadline)
    case CommitEdit => Commit(s)
    case AbortEdit => s.(edit := None)
    case Cleanup(deadline, removes) => RemoveJobs(s, deadline, removes)
    case Fire(job, again) => FireJob(s, job, again)
  }

  function Run(s: Schedule, steps: seq<Step>): Schedule
    decreases |steps|
  {
    if |steps| == 0 then s else Apply(Run(s, steps[..|steps| - 1]), steps[|steps| - 1])
  }

  /** A job that fires leaves the queue unless it is delivered again; it expires an open listing whose
      deadline has passed, if that is the deadline the job was made for, or if it was made for none. No job
      fires while an edit holds the listing, or before its time. */
  predicate FirePromise(s: Schedule, s': Schedule, job: Option<int>, again: bool) {
    if job in s.queue && s.edit.None? && (job.Some? ==> job.value <= s.now) then
      s'.queue == (if again then s.queue else s.queue - {job}) &&
      s'.listing == (if Open(s) && s.listing.deadline <= s.now && (job.Some? ==> job.value == s.listing.deadline)
                     then s.listing.(status := ListingExpired) else s.listing) &&
      s' == s.(queue := s'.queue, listing := s'.listing)
    else s' == s
  }

  lemma FirePromised(s: Schedule, job: Option<int>, again: bool)
    ensures FirePromise(s, Apply(s, Fire(job, again)), job, again)
  {
  }

  /** `createFood` has posted a listing and queued its job. */
  function Created(now: int, listing: Listing): Schedule {
    Schedule(now, listing, {Some(listing.deadline)}, None, multiset{})
  }

  /** The job that has to be there: for the current deadline of an open listing, and for the one an
      edit is about to make current. */
  predicate Needed(s: Schedule, deadline: int) {
    (Open(s) && deadline == s.listing.deadline) ||
    (s.edit == Some(deadline) && deadline != s.listing.deadline)
  }

  predicate Queued(s: Schedule) {
    (Needed(s, s.listing.deadline) ==> Some(s.listing.deadline) in s.queue) &&
    (s.edit.Some? && Needed(s, s.edit.value) ==> s.edit in s.queue)
  }

  /** A job expires the listing only if it carries the current deadline, or none, and the deadline has
      passed; a stale job changes nothing but the queue. */
  lemma ExpiresOnlyOnTime(s: Schedule, step: Step)
    ensures Open(s) && !Open(Apply(s, step)) ==>
              step.Fire? && (step.job == Some(s.listing.deadline) || step.job == None) && s.listing.deadline <= s.now
    ensures step.Fire? && step.job.Some? && step.job.value != s.listing.deadline ==> Apply(s, step).listing == s.listing
  {
  }

  lemma OnlyCleanupsLose(s: Schedule, step: Step)
    requires Queued(s) && !step.Cleanup?
    ensures Queued(Apply(s, step))
  {
  }

  lemma CleanupLosesIff(s: Schedule, deadline: int, removes: bool)
    requires Queued(s)
    ensures Queued(RemoveJobs(s, deadline, removes)) <==> !(removes && s.cleanups[deadline] > 0 && Needed(s, deadline))
  {
  }

  /** The jobs that are needed stay queued in every step but one: a cleanup that comes late and
      removes the job of a deadline that has become current again, or is about to. */
  lemma LostIff(s: Schedule, step: Step)
    requires Queued(s)
    ensures Queued(Apply(s, step)) <==>
              !(step.Cleanup? && step.removes && s.cleanups[step.deadline] > 0 && Needed(s, step.deadline))
  {
    if step.Cleanup? {
      CleanupLosesIff(s, step.deadline, step.removes);
    } else {
      OnlyCleanupsLose(s, step);
    }
  }

  // ---------- one edit after another ----------

  /** An edit begins only when the jobs of all earlier ones have been removed. */
  predicate Serial(s: Schedule, steps: seq<Step>)
    decreases |steps|
  {
    |steps| == 0 ||
    (Serial(s, steps[..|steps| - 1]) &&
     (steps[|steps| - 1].BeginEdit? ==> Run(s, steps[..|steps| - 1]).cleanups == multiset{}))
  }

  predicate Settled(s: Schedule) {
    Queued(s) && (s.edit.Some? ==> s.cleanups == multiset{}) && s.cleanups[s.listing.deadline] == 0
  }

  lemma SerialStep(s: Schedule, step: Step)
    requires Settled(s) && (step.BeginEdit? ==> s.cleanups == multiset{})
    ensures Settled(Apply(s, step))
  {
    LostIff(s, step);
  }

  /** With serial edits, whatever the queue and the clock do in between, an open listing always has
      the job of its current deadline queued. */
  lemma {:induction false} SerialEditsKeepTheJob(now: int, listing: Listing, steps: seq<Step>)
    requires Serial(Created(now, listing), steps)
    ensures var s := Run(Created(now, listing), steps);
            Settled(s) && (Open(s) ==> Some(s.listing.deadline) in s.queue)
    decreases |steps|
  {
    if |steps| > 0 {
      SerialEditsKeepTheJob(now, listing, steps[..|steps| - 1]);
      SerialStep(Run(Created(now, listing), steps[..|steps| - 1]), steps[|steps| - 1]);
    }
  }

  /** ... and once the deadline has passed, that job expires it. */
  lemma SerialEditsExpire(now: int, listing: Listing, steps: seq<Step>, again: bool)
    requires Serial(Created(now, listing), steps)
    requires var s := Run(Created(now, listing), steps); Open(s) && s.edit.None? && s.listing.deadline <= s.now
    ensures var s := Run(Created(now, listing), steps);
            Apply(s, Fire(Some(s.listing.deadline), again)).listing.status == ListingExpired
  {
    SerialEditsKeepTheJob(now, listing, steps);
  }

  lemma {:induction false} RunSplits(s: Schedule, a: seq<Step>, b: seq<Step>)
    ensures Run(s, a + b) == Run(Run(s, a), b)
    decreases |b|
  {
    if |b| == 0 {
      assert a + b == a;
    } else {
      assert (a + b)[..|a + b| - 1] == a + b[..|b| - 1];
      RunSplits(s, a, b[..|b| - 1]);
    }
  }

  lemma TwoSteps(s: Schedule, first: Step, second: Step)
    ensures Run(s, [first, second]) == Apply(Apply(s, first), second)
  {
    assert [first, second][..1] == [first] && [first][..0] == [];
    assert Run(s, [first]) == Apply(s, first);
  }

  /** An edit there, an edit back, and their cleanups, which remove the jobs of the deadlines the edits left. */
  function ThereAndBack(deadline: int, later: int): seq<Step> {
    [BeginEdit(later), CommitEdit] + [BeginEdit(deadline), CommitEdit] + [Cleanup(deadline, true), Cleanup(later, true)]
  }

  lemma EditThere(listing: Listing, later: int)
    requires listing.status == ListingActive && 0 < listing.deadline < later
    ensures Apply(Apply(Created(0, listing), BeginEdit(later)), CommitEdit)
            == Schedule(0, listing.(deadline := later), {Some(listing.deadline), Some(later)}, None,
                        multiset{listing.deadline})
  {
  }

  lemma EditBack(listing: Listing, later: int)
    requires listing.status == ListingActive && 0 < listing.deadline < later
    ensures var d := listing.deadline;
            var s := Schedule(0, listing.(deadline := later), {Some(d), Some(later)}, None, multiset{d});
            Apply(Apply(s, BeginEdit(d)), CommitEdit) == s.(listing := listing, cleanups := multiset{d, later})
  {
  }

  lemma CleanupsAfterwards(listing: Listing, later: int)
    requires listing.deadline < later
    ensures var d := listing.deadline;
            var s := Schedule(0, listing, {Some(d), Some(later)}, None, multiset{d, later});
            Apply(Apply(s, Cleanup(d, true)), Cleanup(later, true)) == Schedule(0, listing, {}, None, multiset{})
  {
  }

  /** Two edits, there and back, whose cleanups are late: the listing keeps no job at all. */
  lemma LateCleanupLosesTheJob(listing: Listing, later: int)
    requires listing.status == ListingActive && 0 < listing.deadline < later
    ensures var s := Run(Created(0, listing), ThereAndBack(listing.deadline, later));
            Open(s) && s.listing == listing && s.queue == {}
  {
    var s, d := Created(0, listing), listing.deadline;
    var there, back := [BeginEdit(later), CommitEdit], [BeginEdit(d), CommitEdit];
    var cleanups := [Cleanup(d, true), Cleanup(later, true)];
    RunSplits(s, there + back, cleanups);
    RunSplits(s, there, back);
    TwoSteps(s, BeginEdit(later), CommitEdit);
    TwoSteps(Run(s, there), BeginEdit(d), CommitEdit);
    TwoSteps(Run(Run(s, there), back), Cleanup(d, true), Cleanup(later, true));
    EditThere(listing, later);
    EditBack(listing, later);
    CleanupsAfterwards(listing, later);
  }

  // ---------- in place ----------

  class ExpirySchedule {
    var now: int
    var listing: Listing
    var queue: set<Option<int>>
    var edit: Option<int>
    var cleanups: multiset<int>

    function View(): Schedule
      reads this
    {
      Schedule(now, listing, queue, edit, cleanups)
    }

    /** `scheduleExpiryJobs`: adding a job under an id that is queued already changes nothing. */
    method ScheduleExpiryJobs(deadline: int)
      modifies this`queue
      ensures queue == old(queue) + {Some(deadline)}
    {
      queue := queue + {Some(deadline)};
    }

    method BeginUpdate(deadline: int)
      modifies this
      ensures View() == Apply(old(View()), BeginEdit(deadline))
    {
      if edit.None? && listing.status != ListingDeleted && deadline > now {
        edit := Some(deadline);
        if deadline != listing.deadline {
          ScheduleExpiryJobs(deadline);
        }
      }
    }

    method CommitUpdate()
      modifies this
      ensures View() == Apply(old(View()), CommitEdit)
    {
      if edit.Some? {
        var previous := listing.deadline;
        listing := listing.(deadline := edit.value);
        edit := None;
        if previous != listing.deadline {
          cleanups := cleanups + multiset{previous};
        }
      }
    }

    method RemoveExpiryJobs(deadline: int, removes: bool)
      modifies this
      ensures View() == Apply(old(View()), Cleanup(deadline, removes))
    {
      if deadline in cleanups {
        cleanups := cleanups - multiset{deadline};
        if removes {
          queue := queue - {Some(deadline)};
          queue := queue - {None};
        }
      }
    }

    /** The whole of an undisturbed `updateFood`. */
    method UpdateDeadline(deadline: int, removes: bool)
      requires Settled(View()) && edit.None? && cleanups == multiset{}
      modifies this
      ensures Settled(View()) && edit.None? && cleanups == multiset{}
      ensures listing == if old(listing).status != ListingDeleted && deadline > now
                         then old(listing).(deadline := deadline) else old(listing)
      ensures now == old(now)
      ensures Open(View()) ==> Some(listing.deadline) in queue
    {
      var previous := listing.deadline;
      SerialStep(View(), BeginEdit(deadline));
      BeginUpdate(deadline);
      SerialStep(View(), CommitEdit);
      CommitUpdate();
      SerialStep(View(), Cleanup(previous, removes));
      RemoveExpiryJobs(previous, removes);
    }
  }
}
